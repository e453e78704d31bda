/**
 * The process picker of the tray application (class ProcessPickerForm):
 * UpdateProcessList fills the list view and caches one image per process
 * name in the image list. Images are named by what they show; the list
 * view items are their image indices.
 */
module TrayPicker {

  /** An entry of the image list: the stock application icon, or the icon of a process name. */
  datatype ImageEntry = DefaultIcon | ProcessIcon(name: string)

  /** One row GetProcesses returns: a name, a window title and whether an icon could be extracted. */
  datatype PickerProcess = PickerProcess(name: string, title: string, hasIcon: bool)

  /** The image list, the name-to-index cache and the image index of each list view item. */
  datatype IconState = IconState(images: seq<ImageEntry>, cache: map<string, nat>, itemImages: seq<int>)

  /** One iteration of the foreach. */
  function AddItem(st: IconState, p: PickerProcess): IconState {
    if p.hasIcon then
      if p.name in st.cache then st.(itemImages := st.itemImages + [st.cache[p.name]])
      else IconState(st.images + [ProcessIcon(p.name)], st.cache[p.name := |st.images|], st.itemImages + [|st.images|])
    else st.(itemImages := st.itemImages + [0])
  }

  function AddItems(st: IconState, ps: seq<PickerProcess>): IconState {
    if ps == [] then st else AddItem(AddItems(st, ps[..|ps| - 1]), ps[|ps| - 1])
  }

  /** The state after the lists are cleared, start is put in the image list, and ps is added. */
  function ListIcons(ps: seq<PickerProcess>, start: seq<ImageEntry>): IconState {
    AddItems(IconState(start, map[], []), ps)
  }

  /** Every cached index is past start and points at that name's icon. */
  predicate CacheSound(st: IconState, base: nat) {
    forall n :: n in st.cache ==> base <= st.cache[n] < |st.images| && st.images[st.cache[n]] == ProcessIcon(n)
  }

  /** What the list shows after ps: the conclusion of ListIconsFacts. */
  predicate ShowsIcons(r: IconState, ps: seq<PickerProcess>, start: seq<ImageEntry>) {
    |r.itemImages| == |ps| && |start| <= |r.images| && r.images[..|start|] == start && CacheSound(r, |start|)
    && (forall k :: 0 <= k < |ps| && ps[k].hasIcon ==>
          0 <= r.itemImages[k] < |r.images| && r.images[r.itemImages[k]] == ProcessIcon(ps[k].name))
    && (forall k :: 0 <= k < |ps| && !ps[k].hasIcon ==> r.itemImages[k] == 0)
  }

  /**
   * What the list shows: one item per process, an item with an icon points
   * at its own name's icon, an item without one has index 0, and the
   * entries of start stay in front.
   */
  lemma {:induction false} ListIconsFacts(ps: seq<PickerProcess>, start: seq<ImageEntry>)
    ensures var r := ListIcons(ps, start);
      |r.itemImages| == |ps| && |start| <= |r.images| && r.images[..|start|] == start && CacheSound(r, |start|)
      && (forall k :: 0 <= k < |ps| && ps[k].hasIcon ==>
            0 <= r.itemImages[k] < |r.images| && r.images[r.itemImages[k]] == ProcessIcon(ps[k].name))
      && (forall k :: 0 <= k < |ps| && !ps[k].hasIcon ==> r.itemImages[k] == 0)
  {
    if ps != [] {
      var prefix := ps[..|ps| - 1];
      ListIconsFacts(prefix, start);
      assert ShowsIcons(ListIcons(prefix, start), prefix, start);
      AddItemShows(ListIcons(prefix, start), prefix, ps[|ps| - 1], start);
      assert prefix + [ps[|ps| - 1]] == ps;
      assert ShowsIcons(ListIcons(ps, start), ps, start);
    }
  }

  /** One more item keeps what the list shows. */
  lemma AddItemShows(st: IconState, prefix: seq<PickerProcess>, p: PickerProcess, start: seq<ImageEntry>)
    requires ShowsIcons(st, prefix, start)
    ensures ShowsIcons(AddItem(st, p), prefix + [p], start)
  {
    var ps := prefix + [p];
    var r := AddItem(st, p);
    assert r.itemImages[..|prefix|] == st.itemImages;
    assert r.images[..|st.images|] == st.images;
    forall k | 0 <= k < |prefix| ensures ps[k] == prefix[k] && r.itemImages[k] == st.itemImages[k] {
    }
    forall k | 0 <= k < |prefix| && ps[k].hasIcon
      ensures 0 <= r.itemImages[k] < |r.images| && r.images[r.itemImages[k]] == ProcessIcon(ps[k].name)
    {
      assert r.images[st.itemImages[k]] == st.images[st.itemImages[k]];
    }
    if p.hasIcon && p.name in st.cache {
      assert r.images == st.images;
    }
  }

  /**
   * With the default icon kept at index 0, every item shows its own icon,
   * and an item without one shows the default icon.
   */
  lemma ItemsShowTheirIcons(ps: seq<PickerProcess>)
    ensures var r := ListIcons(ps, [DefaultIcon]);
      |r.itemImages| == |ps| && forall k :: 0 <= k < |ps| ==>
        0 <= r.itemImages[k] < |r.images|
        && r.images[r.itemImages[k]] == if ps[k].hasIcon then ProcessIcon(ps[k].name) else DefaultIcon
  {
    ListIconsFacts(ps, [DefaultIcon]);
    var r := ListIcons(ps, [DefaultIcon]);
    assert r.images[0] == r.images[..1][0];
  }

  /**
   * As written, the lists are cleared without putting the default icon
   * back, so it never appears again: an item without an icon shows
   * whatever is at index 0.
   */
  lemma AsWrittenNoDefaultIcon(ps: seq<PickerProcess>)
    ensures var r := ListIcons(ps, []);
      forall k :: 0 <= k < |r.images| ==> r.images[k] != DefaultIcon
  {
    AsWrittenImagesAreProcessIcons(ps);
  }

  lemma {:induction false} AsWrittenImagesAreProcessIcons(ps: seq<PickerProcess>)
    ensures var r := ListIcons(ps, []);
      forall k :: 0 <= k < |r.images| ==> r.images[k].ProcessIcon?
  {
    if ps != [] {
      var prefix := ps[..|ps| - 1];
      AsWrittenImagesAreProcessIcons(prefix);
      var st := ListIcons(prefix, []);
      var r := ListIcons(ps, []);
      assert r == AddItem(st, ps[|ps| - 1]);
      assert r.images == st.images || r.images == st.images + [ProcessIcon(ps[|ps| - 1].name)];
    }
  }

  /** A game with an icon followed by one without: the second item shows the first game's icon. */
  lemma AsWrittenIconlessShowsAnotherIcon()
    ensures var ps := [PickerProcess("game.exe", "Game", true), PickerProcess("notes.exe", "Notes", false)];
      var r := ListIcons(ps, []);
      |r.itemImages| == 2 && 0 <= r.itemImages[1] < |r.images| && r.images[r.itemImages[1]] == ProcessIcon("game.exe")
  {
    var ps := [PickerProcess("game.exe", "Game", true), PickerProcess("notes.exe", "Notes", false)];
    assert ps[..1] == [ps[0]];
    assert ps[..1][..0] == [];
    var empty := IconState([], map[], []);
    var st1 := ListIcons(ps[..1], []);
    assert st1 == AddItem(AddItems(empty, []), ps[0]);
    assert st1 == IconState([ProcessIcon("game.exe")], map["game.exe" := 0], [0]);
    var r := ListIcons(ps, []);
    assert r == AddItem(st1, ps[1]);
    assert r == IconState([ProcessIcon("game.exe")], map["game.exe" := 0], [0, 0]);
  }

  /** The parts of the picker the cache touches. */
  class ProcessPickerForm {
    var images: seq<ImageEntry>
    var iconCache: map<string, nat>
    var itemImages: seq<int>

    function State(): IconState
      reads this
    {
      IconState(images, iconCache, itemImages)
    }

    /** InitializeComponents puts the stock icon in the image list under "default". */
    constructor()
      ensures State() == IconState([DefaultIcon], map[], [])
    {
      images := [DefaultIcon];
      iconCache := map[];
      itemImages := [];
    }

    /** The foreach of UpdateProcessList. */
    method AddListItems(ps: seq<PickerProcess>)
      modifies this
      ensures State() == AddItems(old(State()), ps)
    {
      for i := 0 to |ps|
        invariant State() == AddItems(old(State()), ps[..i])
      {
        var p := ps[i];
        if p.hasIcon {
          var imageIndex: int;
          if p.name !in iconCache {
            imageIndex := |images|;
            images := images + [ProcessIcon(p.name)];
            iconCache := iconCache[p.name := imageIndex];
          } else {
            imageIndex := iconCache[p.name];
          }
          itemImages := itemImages + [imageIndex];
        } else {
          itemImages := itemImages + [0];
        }
        assert ps[..i + 1][..i] == ps[..i];
      }
      assert ps[..|ps|] == ps;
    }

    /** UpdateProcessList as written: Images.Clear() also removes the default icon. */
    method UpdateProcessListAsWritten(ps: seq<PickerProcess>)
      modifies this
      ensures State() == ListIcons(ps, [])
    {
      images := [];
      iconCache := map[];
      itemImages := [];
      AddListItems(ps);
    }

    /** UpdateProcessList with the default icon put back at index 0 after the clear. */
    method UpdateProcessList(ps: seq<PickerProcess>)
      modifies this
      ensures State() == ListIcons(ps, [DefaultIcon])
    {
      images := [DefaultIcon];
      iconCache := map[];
      itemImages := [];
      AddListItems(ps);
    }
  }
}
