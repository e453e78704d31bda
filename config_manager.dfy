/**
 * The configuration manager of the Python version (cs_obs.py): the edits
 * of the whitelist listbox and how they are saved, the guards of
 * start_monitor, the process picker's list and filter, and the check of
 * the systemd unit file. The listboxes are sequences of strings and the
 * config dictionary a map from keys to JSON values.
 */
module ConfigManager {
  import opened Wrappers
  import opened Text

  const WhitelistKey: string := "whitelisted_games"

  /** The JSON values a config may hold, as far as Python's truth test on them goes. */
  datatype JsonValue = JString(s: string) | JList(items: seq<string>) | JOther(truthy: bool)

  predicate Truthy(v: JsonValue) {
    match v
    case JString(s) => s != []
    case JList(items) => items != []
    case JOther(t) => t
  }

  type Config = map<string, JsonValue>

  /** `self.config.get('whitelisted_games')` is truthy. */
  predicate HasWhitelist(config: Config) {
    WhitelistKey in config && Truthy(config[WhitelistKey])
  }

  /** The dictionary _save_config writes: a copy with the whitelist replaced by the listbox contents. */
  function SavedConfig(config: Config, games: seq<string>): (r: Config)
    ensures WhitelistKey in r && r[WhitelistKey] == JList(games)
    ensures r.Keys == config.Keys + {WhitelistKey}
    ensures forall k :: k in config && k != WhitelistKey ==> r[k] == config[k]
  {
    config[WhitelistKey := JList(games)]
  }

  /** add_game's test: the stripped entry, when it is non-empty and not already listed. */
  function NewGame(entry: string, games: seq<string>): (r: Option<string>)
    ensures r.Some? <==> Strip(entry) != [] && Strip(entry) !in games
    ensures r.Some? ==> r.value == Strip(entry) && r.value !in games
    ensures r.Some? ==> Strip(r.value) == r.value
  {
    var g := Strip(entry);
    TrimWithIdempotent(entry, IsPySpace);
    if g != [] && g !in games then Some(g) else None
  }

  /** Adding through the entry box keeps the names of the list distinct. */
  lemma NewGameKeepsDistinct(entry: string, games: seq<string>)
    requires Distinct(games) && NewGame(entry, games).Some?
    ensures Distinct(games + [NewGame(entry, games).value])
  {
  }

  /** The elements of xs whose indices are not in del, in their order. */
  function Survivors(xs: seq<string>, del: set<int>): (r: seq<string>)
    ensures |r| <= |xs|
    decreases |xs|
  {
    if xs == [] then []
    else Survivors(xs[..|xs| - 1], del) + (if |xs| - 1 in del then [] else [xs[|xs| - 1]])
  }

  /** With nothing below len(xs) to delete, every element survives. */
  lemma {:induction false} NothingDeleted(xs: seq<string>, del: set<int>)
    requires forall d :: d in del ==> d >= |xs|
    ensures Survivors(xs, del) == xs
    decreases |xs|
  {
    if xs != [] {
      NothingDeleted(xs[..|xs| - 1], del);
    }
  }

  /**
   * Deleting index i from the survivors of del, when every index of del is
   * above i, gives the survivors of del plus i: the reason remove_game
   * deletes from the bottom up.
   */
  lemma {:induction false} DeleteBelow(xs: seq<string>, del: set<int>, i: nat)
    requires i < |xs| && forall d :: d in del ==> d > i
    ensures |Survivors(xs, del)| > i
    ensures Survivors(xs, del + {i}) == Survivors(xs, del)[..i] + Survivors(xs, del)[i + 1..]
    decreases |xs|
  {
    var init := xs[..|xs| - 1];
    if |xs| == i + 1 {
      NothingDeleted(init, del);
      NothingDeleted(init, del + {i});
      assert Survivors(xs, del) == init + [xs[i]];
    } else {
      DeleteBelow(init, del, i);
      var a := Survivors(init, del);
      var t := if |xs| - 1 in del then [] else [xs[|xs| - 1]];
      assert (a + t)[..i] == a[..i];
      assert (a + t)[i + 1..] == a[i + 1..] + t;
    }
  }

  /** Every survivor is an element at an index not deleted, and every such element survives. */
  lemma {:induction false} SurvivorsMembers(xs: seq<string>, del: set<int>)
    ensures forall x :: x in Survivors(xs, del) <==> exists j :: 0 <= j < |xs| && j !in del && xs[j] == x
    decreases |xs|
  {
    if xs != [] {
      var init := xs[..|xs| - 1];
      SurvivorsMembers(init, del);
      forall j | 0 <= j < |init| ensures init[j] == xs[j] {
      }
    }
  }

  predicate StrictlyIncreasing(s: seq<int>) {
    forall i, j :: 0 <= i < j < |s| ==> s[i] < s[j]
  }

  function IndexSet(s: seq<int>): set<int> {
    set i | i in s
  }

  const UnitHead: string := "[Unit]\nDescription=CS_OBS: Automatic OBS Launcher\nAfter=graphical-session.target\n\n[Service]\n"
  const UnitTail: string := "\nRestart=on-failure\n\n[Install]\nWantedBy=graphical-session.target\n"

  /** The lines check_and_update_autostart writes to the unit file. */
  function UnitFile(python: string, script: string, workingDir: string): string {
    UnitHead + ExecStartLine(python, script) + "\n" + WorkingDirectoryLine(workingDir) + UnitTail
  }

  function ExecStartLine(python: string, script: string): string {
    "ExecStart=" + python + " " + script
  }

  function WorkingDirectoryLine(workingDir: string): string {
    "WorkingDirectory=" + workingDir
  }

  /** The unit file as is_autostart_outdated finds it. */
  datatype UnitFileState = Missing | Unreadable | Readable(content: string)

  /**
   * is_autostart_outdated: false off Linux, for a missing file and when
   * reading fails; otherwise true when the ExecStart line or the
   * WorkingDirectory line of the current paths is not in the file.
   */
  function AutostartOutdated(linux: bool, file: UnitFileState, python: string, script: string, workingDir: string): (r: bool)
    ensures r <==>
      (linux && file.Readable?
       && (!Contains(file.content, ExecStartLine(python, script)) || !Contains(file.content, WorkingDirectoryLine(workingDir))))
  {
    if !linux then false
    else match file
      case Missing => false
      case Unreadable => false
      case Readable(content) =>
        !Contains(content, ExecStartLine(python, script)) || !Contains(content, WorkingDirectoryLine(workingDir))
  }

  /** A unit file written for the current paths is not outdated. */
  lemma RewrittenUnitIsCurrent(python: string, script: string, workingDir: string)
    ensures !AutostartOutdated(true, Readable(UnitFile(python, script, workingDir)), python, script, workingDir)
  {
    var head := UnitHead;
    var tail := UnitTail;
    var e := ExecStartLine(python, script);
    var w := WorkingDirectoryLine(workingDir);
    var content := UnitFile(python, script, workingDir);
    assert content == head + e + ("\n" + w + tail);
    ContainsMiddle(head, e, "\n" + w + tail);
    assert content == (head + e + "\n") + w + tail;
    ContainsMiddle(head + e + "\n", w, tail);
  }

  /** A row of psutil.process_iter(['name', 'exe']): exe None when it is not known. */
  datatype PickerRow = PickerRow(name: string, exe: Option<string>)

  /** The names get_process_list collects: on Windows only processes with an exe path. */
  function CollectedNames(rows: seq<PickerRow>, windows: bool): (r: seq<string>)
    ensures forall x :: x in r <==>
      exists i :: 0 <= i < |rows| && rows[i].name == x && ((rows[i].exe.Some? && rows[i].exe.value != []) || !windows)
    decreases |rows|
  {
    if rows == [] then []
    else
      var init := CollectedNames(rows[..|rows| - 1], windows);
      var row := rows[|rows| - 1];
      assert forall i :: 0 <= i < |rows| - 1 ==> rows[..|rows| - 1][i] == rows[i];
      init + (if (row.exe.Some? && row.exe.value != []) || !windows then [row.name] else [])
  }

  predicate Distinct(s: seq<string>) {
    forall i, j :: 0 <= i < j < |s| ==> s[i] != s[j]
  }

  /** `list(set(names))`, with the order of first occurrence. */
  function Dedupe(xs: seq<string>): (r: seq<string>)
    ensures Distinct(r)
    ensures forall x :: x in r <==> x in xs
    decreases |xs|
  {
    if xs == [] then []
    else
      var d := Dedupe(xs[..|xs| - 1]);
      assert forall x :: x in xs <==> x in xs[..|xs| - 1] || x == xs[|xs| - 1];
      if xs[|xs| - 1] in d then d else d + [xs[|xs| - 1]]
  }

  /** Python's ordering of strings: code point by code point, a prefix first. */
  predicate LexLe(a: string, b: string)
    decreases |a|
  {
    a == [] || (b != [] && (a[0] < b[0] || (a[0] == b[0] && LexLe(a[1..], b[1..]))))
  }

  lemma {:induction false} LexLeTotal(a: string, b: string)
    ensures LexLe(a, b) || LexLe(b, a)
    decreases |a|
  {
    if a != [] && b != [] && a[0] == b[0] {
      LexLeTotal(a[1..], b[1..]);
    }
  }

  lemma {:induction false} LexLeTrans(a: string, b: string, c: string)
    requires LexLe(a, b) && LexLe(b, c)
    ensures LexLe(a, c)
    decreases |a|
  {
    if a != [] && a[0] == b[0] && b[0] == c[0] {
      LexLeTrans(a[1..], b[1..], c[1..]);
    }
  }

  /** The key sorted compares: str.lower. */
  predicate LowerLe(a: string, b: string) {
    LexLe(Lower(a), Lower(b))
  }

  predicate SortedByLower(s: seq<string>) {
    forall i, j :: 0 <= i < j < |s| ==> LowerLe(s[i], s[j])
  }

  /** Puts x before the first element whose key is not below x's. */
  function Insert(x: string, s: seq<string>): (r: seq<string>)
    ensures |r| == |s| + 1
    ensures forall y :: y in r <==> y == x || y in s
    ensures multiset(r) == multiset(s) + multiset{x}
    decreases |s|
  {
    if s == [] || LowerLe(x, s[0]) then [x] + s
    else
      assert s == [s[0]] + s[1..];
      [s[0]] + Insert(x, s[1..])
  }

  lemma {:induction false} InsertSorted(x: string, s: seq<string>)
    requires SortedByLower(s)
    ensures SortedByLower(Insert(x, s))
    decreases |s|
  {
    if s == [] {
    } else if LowerLe(x, s[0]) {
      forall j | 0 < j < |s| + 1 ensures LowerLe(x, ([x] + s)[j]) {
        if j > 1 {
          LexLeTrans(Lower(x), Lower(s[0]), Lower(s[j - 1]));
        }
      }
    } else {
      LexLeTotal(Lower(x), Lower(s[0]));
      InsertSorted(x, s[1..]);
      var rest := Insert(x, s[1..]);
      forall j | 0 <= j < |rest| ensures LowerLe(s[0], rest[j]) {
        assert rest[j] in rest;
        if rest[j] != x {
          var k :| 0 <= k < |s[1..]| && s[1..][k] == rest[j];
          assert s[k + 1] == rest[j];
        }
      }
    }
  }

  lemma {:induction false} InsertDistinct(x: string, s: seq<string>)
    requires Distinct(s) && x !in s
    ensures Distinct(Insert(x, s))
    decreases |s|
  {
    if s != [] && !LowerLe(x, s[0]) {
      InsertDistinct(x, s[1..]);
      assert s[0] !in s[1..];
    }
  }

  /** sorted(..., key=str.lower) as an insertion sort. */
  function SortByLower(xs: seq<string>): (r: seq<string>)
    ensures |r| == |xs|
    ensures forall y :: y in r <==> y in xs
    decreases |xs|
  {
    if xs == [] then [] else Insert(xs[0], SortByLower(xs[1..]))
  }

  lemma {:induction false} SortByLowerFacts(xs: seq<string>)
    ensures SortedByLower(SortByLower(xs))
    ensures multiset(SortByLower(xs)) == multiset(xs)
    ensures Distinct(xs) ==> Distinct(SortByLower(xs))
    decreases |xs|
  {
    if xs != [] {
      SortByLowerFacts(xs[1..]);
      InsertSorted(xs[0], SortByLower(xs[1..]));
      assert xs == [xs[0]] + xs[1..];
      if Distinct(xs) {
        assert xs[0] !in xs[1..];
        InsertDistinct(xs[0], SortByLower(xs[1..]));
      }
    }
  }

  /** get_process_list: the distinct collected names, sorted by their lowercase form. */
  function ProcessList(rows: seq<PickerRow>, windows: bool): seq<string> {
    SortByLower(Dedupe(CollectedNames(rows, windows)))
  }

  /** The list holds each collected name once, and its keys never decrease. */
  lemma ProcessListFacts(rows: seq<PickerRow>, windows: bool)
    ensures var r := ProcessList(rows, windows);
      Distinct(r) && SortedByLower(r) && forall x :: x in r <==> x in CollectedNames(rows, windows)
  {
    SortByLowerFacts(Dedupe(CollectedNames(rows, windows)));
  }

  /** The comprehension of filter_list: the entries whose lowercase form contains the term, in order. */
  function Matching(processes: seq<string>, term: string): (r: seq<string>)
    ensures |r| <= |processes|
    decreases |processes|
  {
    if processes == [] then []
    else
      var init := Matching(processes[..|processes| - 1], term);
      var p := processes[|processes| - 1];
      if Contains(Lower(p), term) then init + [p] else init
  }

  /** What filter_list shows: the whole list for an empty term, else the entries containing its lowercase form. */
  function Filtered(processes: seq<string>, term: string): seq<string> {
    var t := Lower(term);
    if t == [] then processes else Matching(processes, t)
  }

  /** An entry is shown exactly when its lowercase form contains the lowercase term. */
  lemma {:induction false} MatchingMembers(processes: seq<string>, term: string)
    ensures forall x :: x in Matching(processes, term) <==> x in processes && Contains(Lower(x), term)
    decreases |processes|
  {
    if processes != [] {
      var init := processes[..|processes| - 1];
      MatchingMembers(init, term);
      assert forall x :: x in processes <==> x in init || x == processes[|processes| - 1];
    }
  }

  /** The empty term is contained in every entry, so the shortcut for it shows what filtering would. */
  lemma {:induction false} EmptyTermFiltersNothing(processes: seq<string>)
    ensures Matching(processes, "") == processes
    decreases |processes|
  {
    if processes != [] {
      var init := processes[..|processes| - 1];
      EmptyTermFiltersNothing(init);
      EmptyContained(Lower(processes[|processes| - 1]));
      assert init + [processes[|processes| - 1]] == processes;
    }
  }

  lemma FilteredMembers(processes: seq<string>, term: string)
    ensures forall x :: x in Filtered(processes, term) <==> x in processes && Contains(Lower(x), Lower(term))
  {
    MatchingMembers(processes, Lower(term));
    EmptyTermFiltersNothing(processes);
  }

  /** What start_monitor meets: a monitor process already found, Popen raising, the status check after it. */
  datatype MonitorEnv = MonitorEnv(alreadyRunning: bool, popenFails: bool, foundAfter: bool)

  /** One deletion of remove_game's loop: the next lower selected index joins the deleted ones. */
  lemma RemoveStep(original: seq<string>, selection: seq<int>, k: nat)
    requires StrictlyIncreasing(selection) && forall i :: 0 <= i < |selection| ==> 0 <= selection[i] < |original|
    requires 0 < k <= |selection|
    ensures var i := selection[k - 1]; var before := Survivors(original, IndexSet(selection[k..]));
      i < |before| && Survivors(original, IndexSet(selection[k - 1..])) == before[..i] + before[i + 1..]
  {
    var i := selection[k - 1];
    forall d | d in IndexSet(selection[k..]) ensures d > i {
      var j :| 0 <= j < |selection[k..]| && selection[k..][j] == d;
      assert selection[k + j] == d;
    }
    DeleteBelow(original, IndexSet(selection[k..]), i);
    assert selection[k - 1..] == [i] + selection[k..];
    assert IndexSet(selection[k - 1..]) == IndexSet(selection[k..]) + {i};
  }

  /** The parts of ConfigManagerApp the list edits touch. */
  class ConfigManagerApp {
    var config: Config
    var games: seq<string>
    var entry: string
    var monitorFound: bool

    /** _save_config: self.config takes the written dictionary only when the write succeeds. */
    method SaveConfig(writeOk: bool)
      modifies this
      ensures config == if writeOk then SavedConfig(old(config), games) else old(config)
      ensures games == old(games) && entry == old(entry) && monitorFound == old(monitorFound)
    {
      var updated := config[WhitelistKey := JList(games)];
      if writeOk {
        config := updated;
      }
    }

    /** add_game: a new non-empty stripped name is appended, the entry cleared and the list saved. */
    method AddGame(writeOk: bool) returns (added: bool)
      modifies this
      ensures added <==> NewGame(old(entry), old(games)).Some?
      ensures added ==>
        games == old(games) + [NewGame(old(entry), old(games)).value] && entry == []
        && config == (if writeOk then SavedConfig(old(config), games) else old(config))
      ensures !added ==> games == old(games) && entry == old(entry) && config == old(config)
      ensures monitorFound == old(monitorFound)
    {
      var newGame := Strip(entry);
      if newGame != [] && newGame !in games {
        games := games + [newGame];
        entry := [];
        SaveConfig(writeOk);
        added := true;
      } else {
        added := false;
      }
    }

    /**
     * start_monitor: nothing without a whitelist in the saved config or
     * with a monitor already found; otherwise Popen is tried and the
     * status read again.
     */
    method StartMonitor(env: MonitorEnv) returns (spawned: bool)
      modifies this
      ensures spawned <==> HasWhitelist(config) && !env.alreadyRunning && !env.popenFails
      ensures monitorFound == if HasWhitelist(config) && !env.alreadyRunning then env.foundAfter else old(monitorFound)
      ensures config == old(config) && games == old(games) && entry == old(entry)
    {
      if !HasWhitelist(config) {
        return false;
      }
      if env.alreadyRunning {
        return false;
      }
      spawned := !env.popenFails;
      monitorFound := env.foundAfter;
    }

    /**
     * add_game_from_picker: a name not yet listed is appended unstripped
     * and saved, and the service is started when no monitor is known.
     */
    method AddGameFromPicker(name: string, writeOk: bool, env: MonitorEnv) returns (added: bool, spawned: bool)
      modifies this
      ensures added <==> name != [] && name !in old(games)
      ensures added ==> games == old(games) + [name] && config == (if writeOk then SavedConfig(old(config), games) else old(config))
      ensures !added ==> games == old(games) && config == old(config) && monitorFound == old(monitorFound)
      ensures spawned ==> added && !old(monitorFound) && HasWhitelist(config) && !env.alreadyRunning
      ensures added && !old(monitorFound) ==> (spawned <==> HasWhitelist(config) && !env.alreadyRunning && !env.popenFails)
      ensures added ==> monitorFound == if !old(monitorFound) && HasWhitelist(config) && !env.alreadyRunning then env.foundAfter else old(monitorFound)
      ensures entry == old(entry)
    {
      added, spawned := false, false;
      if name != [] && name !in games {
        games := games + [name];
        SaveConfig(writeOk);
        added := true;
        if !monitorFound {
          spawned := StartMonitor(env);
        }
      }
    }

    /**
     * remove_game: with nothing selected the list is left alone and not
     * saved; otherwise the selected rows are deleted from the bottom up
     * and the list saved. tkinter's curselection gives ascending indices
     * of existing rows.
     */
    method RemoveGame(selection: seq<int>, writeOk: bool) returns (removed: bool)
      requires StrictlyIncreasing(selection) && forall i :: 0 <= i < |selection| ==> 0 <= selection[i] < |games|
      modifies this
      ensures removed <==> selection != []
      ensures games == Survivors(old(games), IndexSet(selection))
      ensures config == if removed && writeOk then SavedConfig(old(config), games) else old(config)
      ensures entry == old(entry) && monitorFound == old(monitorFound)
    {
      if selection == [] {
        NothingDeleted(games, {});
        assert IndexSet(selection) == {};
        return false;
      }
      ghost var original := games;
      NothingDeleted(original, {});
      var k := |selection|;
      assert IndexSet(selection[k..]) == {};
      while k > 0
        invariant 0 <= k <= |selection|
        invariant games == Survivors(original, IndexSet(selection[k..]))
        invariant config == old(config) && entry == old(entry) && monitorFound == old(monitorFound)
        decreases k
      {
        var i := selection[k - 1];
        RemoveStep(original, selection, k);
        games := games[..i] + games[i + 1..];
        k := k - 1;
      }
      assert selection[0..] == selection;
      SaveConfig(writeOk);
      removed := true;
    }
  }

  /** The picker window: the full process list and what the listbox shows. */
  class ProcessPicker {
    var processes: seq<string>
    var shown: seq<string>

    /** The picker fills its listbox with the whole list when it opens. */
    constructor(rows: seq<PickerRow>, windows: bool)
      ensures processes == ProcessList(rows, windows) && shown == processes
    {
      processes := ProcessList(rows, windows);
      shown := processes;
    }

    /** filter_list: the listbox shows the filtered list; the full list is kept. */
    method FilterList(term: string)
      modifies this
      ensures processes == old(processes)
      ensures shown == Filtered(processes, term)
    {
      var t := Lower(term);
      if t == [] {
        shown := processes;
      } else {
        var filtered := [];
        for i := 0 to |processes|
          invariant filtered == Matching(processes[..i], t)
        {
          assert processes[..i + 1][..i] == processes[..i];
          if Contains(Lower(processes[i]), t) {
            filtered := filtered + [processes[i]];
          }
        }
        assert processes[..|processes|] == processes;
        shown := filtered;
      }
    }
  }
}
