/**
 * The tray application's pause switch (class PauseManager): a flag and an
 * end time. The pause expires lazily: the IsPaused getter clears the flag
 * once the clock has reached the end time. The clock is passed in as a
 * tick count; the lock around each operation is not modelled because each
 * operation here is one atomic step.
 */
module Pausing {

  /** DateTime.MaxValue.Ticks. */
  const MaxTicks: int := 3155378975999999999

  /** A reading of DateTime.Now in ticks; it always lies before DateTime.MaxValue. */
  type Instant = t: int | 0 <= t < MaxTicks

  datatype PauseState = PauseState(isPaused: bool, pauseEndTime: int)

  /** The end time is a DateTime, so it lies between DateTime.MinValue and DateTime.MaxValue. */
  predicate ValidState(s: PauseState) {
    0 <= s.pauseEndTime <= MaxTicks
  }

  /** A fresh PauseManager: not paused, end time default(DateTime). */
  const Initial: PauseState := PauseState(false, 0)

  /** The IsPaused getter: the answer, and the state after the read. */
  function Query(s: PauseState, now: Instant): (bool, PauseState) {
    var t := if s.isPaused && now >= s.pauseEndTime then s.(isPaused := false) else s;
    (t.isPaused, t)
  }

  /**
   * Pause(duration): the flag is set first; then DateTime.Now.Add(duration)
   * either gives the end time or throws because the result is out of the
   * DateTime range, in which case the end time is left as it was and the
   * first component is false.
   */
  function PauseFor(s: PauseState, now: Instant, duration: int): (bool, PauseState) {
    if 0 <= now + duration <= MaxTicks then (true, PauseState(true, now + duration))
    else (false, s.(isPaused := true))
  }

  /** PauseIndefinitely(): the end time becomes DateTime.MaxValue. */
  function PauseForever(s: PauseState): PauseState {
    PauseState(true, MaxTicks)
  }

  /** Unpause(): clears the flag and leaves the end time alone. */
  function Resume(s: PauseState): PauseState {
    s.(isPaused := false)
  }

  /** A series of IsPaused reads at the given clock readings: the answers and the final state. */
  function QueryAll(s: PauseState, nows: seq<Instant>): (seq<bool>, PauseState) {
    if nows == [] then ([], s)
    else
      var (answers, t) := QueryAll(s, nows[..|nows| - 1]);
      var (b, u) := Query(t, nows[|nows| - 1]);
      (answers + [b], u)
  }

  predicate NonDecreasing(nows: seq<Instant>) {
    forall i, j :: 0 <= i <= j < |nows| ==> nows[i] <= nows[j]
  }

  /**
   * Read k answers true exactly when the manager was paused and none of the
   * reads up to and including k saw the clock at or past the end time; the
   * end time never changes. So the first expired read clears the flag and
   * every later read answers false.
   */
  lemma {:induction false} QueryAllAnswers(s: PauseState, nows: seq<Instant>)
    ensures |QueryAll(s, nows).0| == |nows|
    ensures forall k :: 0 <= k < |nows| ==>
      QueryAll(s, nows).0[k] == (s.isPaused && forall j :: 0 <= j <= k ==> nows[j] < s.pauseEndTime)
    ensures QueryAll(s, nows).1.pauseEndTime == s.pauseEndTime
    ensures QueryAll(s, nows).1.isPaused == (s.isPaused && forall j :: 0 <= j < |nows| ==> nows[j] < s.pauseEndTime)
  {
    if nows != [] {
      var prefix := nows[..|nows| - 1];
      QueryAllAnswers(s, prefix);
      assert forall j :: 0 <= j < |prefix| ==> prefix[j] == nows[j];
    }
  }

  /** Once a read has answered false, every later read answers false too (until the next Pause). */
  lemma ExpiredStaysExpired(s: PauseState, nows: seq<Instant>, k: nat)
    requires k < |nows|
    requires |QueryAll(s, nows).0| == |nows| && !QueryAll(s, nows).0[k]
    ensures forall j :: k <= j < |nows| ==> !QueryAll(s, nows).0[j]
  {
    QueryAllAnswers(s, nows);
  }

  /**
   * After Pause(d) at time t, with the clock running forward, read k answers
   * true iff its clock reading is before t + d.
   */
  lemma PauseThenQueries(s: PauseState, t: Instant, d: int, nows: seq<Instant>)
    requires 0 <= t + d <= MaxTicks
    requires NonDecreasing(nows)
    ensures PauseFor(s, t, d).0
    ensures |QueryAll(PauseFor(s, t, d).1, nows).0| == |nows|
    ensures forall k :: 0 <= k < |nows| ==> QueryAll(PauseFor(s, t, d).1, nows).0[k] == (nows[k] < t + d)
  {
    QueryAllAnswers(PauseFor(s, t, d).1, nows);
  }

  /** PauseIndefinitely never expires on its own: every later read answers true. */
  lemma PauseForeverNeverExpires(s: PauseState, nows: seq<Instant>)
    ensures |QueryAll(PauseForever(s), nows).0| == |nows|
    ensures forall k :: 0 <= k < |nows| ==> QueryAll(PauseForever(s), nows).0[k]
    ensures QueryAll(PauseForever(s), nows).1 == PauseForever(s)
  {
    QueryAllAnswers(PauseForever(s), nows);
  }

  /** After Unpause, whatever the state was, every read answers false and the end time is untouched. */
  lemma ResumeClears(s: PauseState, nows: seq<Instant>)
    ensures |QueryAll(Resume(s), nows).0| == |nows|
    ensures forall k :: 0 <= k < |nows| ==> !QueryAll(Resume(s), nows).0[k]
    ensures QueryAll(Resume(s), nows).1 == PauseState(false, s.pauseEndTime)
  {
    QueryAllAnswers(Resume(s), nows);
  }

  /** Every operation keeps the end time inside the DateTime range. */
  lemma OperationsKeepValid(s: PauseState, now: Instant, d: int)
    requires ValidState(s)
    ensures ValidState(Query(s, now).1) && ValidState(PauseFor(s, now, d).1)
    ensures ValidState(PauseForever(s)) && ValidState(Resume(s))
  {
  }

  class PauseManager {
    var isPaused: bool
    var pauseEndTime: int

    function State(): PauseState
      reads this
    {
      PauseState(isPaused, pauseEndTime)
    }

    ghost predicate Valid()
      reads this
    {
      ValidState(State())
    }

    constructor ()
      ensures Valid() && State() == Initial
    {
      isPaused := false;
      pauseEndTime := 0;
    }

    /** The IsPaused property getter. */
    method IsPaused(now: Instant) returns (r: bool)
      requires Valid()
      modifies this
      ensures Valid()
      ensures (r, State()) == Query(old(State()), now)
    {
      if isPaused && now >= pauseEndTime {
        isPaused := false;
      }
      r := isPaused;
    }

    method Pause(now: Instant, duration: int) returns (ok: bool)
      requires Valid()
      modifies this
      ensures Valid()
      ensures (ok, State()) == PauseFor(old(State()), now, duration)
    {
      isPaused := true;
      ok := 0 <= now + duration <= MaxTicks;
      if ok {
        pauseEndTime := now + duration;
      }
    }

    method PauseIndefinitely()
      requires Valid()
      modifies this
      ensures Valid()
      ensures State() == PauseForever(old(State()))
    {
      isPaused := true;
      pauseEndTime := MaxTicks;
    }

    method Unpause()
      requires Valid()
      modifies this
      ensures Valid()
      ensures State() == Resume(old(State()))
    {
      isPaused := false;
    }
  }
}
