/** The early-return scans the programs run over process tables and game lists. */
module Search {
  import opened Wrappers

  /** The index of the first element that p accepts. */
  function FirstWhere<T>(xs: seq<T>, p: T -> bool): (r: Option<nat>)
    ensures r.Some? ==> r.value < |xs|
  {
    if xs == [] then None
    else if p(xs[0]) then Some(0)
    else match FirstWhere(xs[1..], p)
      case None => None
      case Some(i) => Some(i + 1)
  }

  /** The index found is the first accepted one; None when none is accepted. */
  lemma {:induction false} FirstWhereFacts<T>(xs: seq<T>, p: T -> bool)
    ensures var r := FirstWhere(xs, p);
      (r.Some? ==> p(xs[r.value]) && forall j :: 0 <= j < r.value ==> !p(xs[j]))
      && (r.None? <==> forall j :: 0 <= j < |xs| ==> !p(xs[j]))
  {
    if xs != [] && !p(xs[0]) {
      FirstWhereFacts(xs[1..], p);
      forall j | 0 < j < |xs| ensures xs[j] == xs[1..][j - 1] {
      }
    }
  }

  /** An accepted element with none accepted before it is the one found. */
  lemma FirstWhereAt<T>(xs: seq<T>, p: T -> bool, i: nat)
    requires i < |xs| && p(xs[i]) && forall j :: 0 <= j < i ==> !p(xs[j])
    ensures FirstWhere(xs, p) == Some(i)
  {
    FirstWhereFacts(xs, p);
  }

  /** A scan that returns True at the first accepted element and False after the last. */
  predicate AnyWhere<T>(xs: seq<T>, p: T -> bool) {
    xs != [] && (p(xs[0]) || AnyWhere(xs[1..], p))
  }

  /** The boolean scan finds something exactly when the index search does. */
  lemma {:induction false} AnyWhereIff<T>(xs: seq<T>, p: T -> bool)
    ensures AnyWhere(xs, p) <==> FirstWhere(xs, p).Some?
    ensures AnyWhere(xs, p) <==> exists i :: 0 <= i < |xs| && p(xs[i])
  {
    FirstWhereFacts(xs, p);
    if xs != [] && !p(xs[0]) {
      AnyWhereIff(xs[1..], p);
    }
  }
}
