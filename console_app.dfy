/**
 * The console application (CS_OBS.cpp): snapshot searches for processes,
 * its own reading of config.txt, the start-up steps of main and the body
 * of main's endless loop. A Toolhelp snapshot is a sequence of entries,
 * or None when CreateToolhelp32Snapshot fails.
 */
module ConsoleApp {
  import opened Wrappers
  import opened Search
  import opened Text
  import opened Numbers
  import opened TrayConfig
  import TrayMonitor

  /** The fields of PROCESSENTRY32 the program reads. */
  datatype ProcessEntry = ProcessEntry(exeFile: string, pid: nat)

  type Snapshot = Option<seq<ProcessEntry>>

  const ObsExeName: string := "obs64.exe"

  /** _wcsicmp(PathFindFileName(szExeFile), name) == 0: the whole file name, extension included, ignoring case. */
  predicate EntryMatches(e: ProcessEntry, name: string) {
    EqualsIgnoreCase(FileName(e.exeFile), name)
  }

  /** The do-while over Process32First / Process32Next: the first matching entry. */
  function FirstMatch(entries: seq<ProcessEntry>, name: string): (r: Option<nat>)
    ensures r.Some? ==> r.value < |entries|
  {
    FirstWhere(entries, e => EntryMatches(e, name))
  }

  /** What isProcessRunning answers: false also when the snapshot fails. */
  predicate IsRunningIn(snap: Snapshot, name: string) {
    snap.Some? && exists i :: 0 <= i < |snap.value| && EntryMatches(snap.value[i], name)
  }

  /** What getProcessID answers: the pid of the first match, or -1. */
  function ProcessIDOf(snap: Snapshot, name: string): (r: int)
    ensures r >= -1
  {
    match snap
    case None => -1
    case Some(entries) =>
      match FirstMatch(entries, name)
      case None => -1
      case Some(i) => entries[i].pid
  }

  /** getProcessID finds a pid exactly when isProcessRunning holds, and it is the first matching entry's. */
  lemma ProcessIDOfIff(snap: Snapshot, name: string)
    ensures ProcessIDOf(snap, name) != -1 <==> IsRunningIn(snap, name)
    ensures ProcessIDOf(snap, name) != -1 ==>
      exists i :: 0 <= i < |snap.value| && snap.value[i].pid == ProcessIDOf(snap, name)
        && EntryMatches(snap.value[i], name) && forall j :: 0 <= j < i ==> !EntryMatches(snap.value[j], name)
  {
    if snap.Some? {
      var p := e => EntryMatches(e, name);
      FirstWhereFacts(snap.value, p);
      var m := FirstMatch(snap.value, name);
      if m.Some? {
        assert p(snap.value[m.value]);
      } else {
        assert forall j :: 0 <= j < |snap.value| ==> !p(snap.value[j]);
      }
    }
  }

  /** No extension is dropped: a name matches only a file name of its own length. */
  lemma FullNameCompared(e: ProcessEntry, name: string)
    ensures EntryMatches(e, name) ==> |FileName(e.exeFile)| == |name|
  {
  }

  /** So the process of game.exe is not found under the name game. */
  lemma ExtensionMatters(e: ProcessEntry, base: string)
    requires FileName(e.exeFile) == base + ".exe"
    ensures !EntryMatches(e, base)
  {
    FullNameCompared(e, base);
  }

  /** isProcessRunning: the search loop. */
  method ProcessRunning(snap: Snapshot, name: string) returns (found: bool)
    ensures found == IsRunningIn(snap, name)
  {
    if snap.None? {
      return false;
    }
    var entries := snap.value;
    var i := 0;
    while i < |entries|
      invariant 0 <= i <= |entries|
      invariant forall j :: 0 <= j < i ==> !EntryMatches(entries[j], name)
    {
      if EqualsIgnoreCase(FileName(entries[i].exeFile), name) {
        return true;
      }
      i := i + 1;
    }
    return false;
  }

  /** getProcessID: the same search, answering the pid. */
  method GetProcessID(snap: Snapshot, name: string) returns (pid: int)
    ensures pid == ProcessIDOf(snap, name)
  {
    if snap.None? {
      return -1;
    }
    var entries := snap.value;
    var i := 0;
    while i < |entries|
      invariant 0 <= i <= |entries|
      invariant forall j :: 0 <= j < i ==> !EntryMatches(entries[j], name)
    {
      if EqualsIgnoreCase(FileName(entries[i].exeFile), name) {
        FirstMatchAt(entries, name, i);
        return entries[i].pid;
      }
      i := i + 1;
    }
    FirstMatchNone(entries, name);
    return -1;
  }

  /** The first entry that matches is the one FirstMatch answers. */
  lemma FirstMatchAt(entries: seq<ProcessEntry>, name: string, i: nat)
    requires i < |entries| && EntryMatches(entries[i], name)
    requires forall j :: 0 <= j < i ==> !EntryMatches(entries[j], name)
    ensures FirstMatch(entries, name) == Some(i)
  {
    FirstWhereAt(entries, e => EntryMatches(e, name), i);
  }

  /** With no matching entry FirstMatch answers None. */
  lemma FirstMatchNone(entries: seq<ProcessEntry>, name: string)
    requires forall j :: 0 <= j < |entries| ==> !EntryMatches(entries[j], name)
    ensures FirstMatch(entries, name) == None
  {
    FirstWhereFacts(entries, e => EntryMatches(e, name));
  }

  // ---- readConfigFile ----

  /** line.substr(0, line.find(L"=")): the text before the first '=', or the whole line. */
  function Prefix(line: string): string {
    match IndexOf(line, '=')
    case None => line
    case Some(i) => line[..i]
  }

  /**
   * line.substr(line.find(L"=") + 1): the text after the first '='; with no
   * '=' npos + 1 wraps round to 0 and the whole line is taken.
   */
  function ValueText(line: string): string {
    match IndexOf(line, '=')
    case None => line
    case Some(i) => line[i + 1..]
  }

  /**
   * A line as the console reader sees it: one of the four exact keys with
   * the untrimmed text after '=' (and what std::stoi makes of it), any
   * other non-empty line as a game name, verbatim, or nothing.
   */
  function LineOf(line: string): LineKind {
    var prefix := Prefix(line);
    if IsKey(prefix) then Setting(prefix, ValueText(line), Stoi(ValueText(line)))
    else if line != "" then GameName(line)
    else Skipped
  }

  function LinesOf(lines: seq<string>): (r: seq<LineKind>)
    ensures |r| == |lines| && forall i :: 0 <= i < |lines| ==> r[i] == LineOf(lines[i])
  {
    seq(|lines|, i requires 0 <= i < |lines| => LineOf(lines[i]))
  }

  /** How readConfigFile ends: read, exit(0) after the default file could not be written, or std::stoi threw. */
  datatype ReadOutcome = Loaded | Exited | Terminated

  datatype ConsoleRead = ConsoleRead(config: Config, outcome: ReadOutcome)

  /**
   * readConfigFile. file is None when config.txt does not open; created is
   * what createDefaultConfigFile answers then. After a default file is
   * written the stream is still the one that failed, so nothing is read.
   * The foreach is that of the tray reader on the lines as classified here.
   */
  function ReadConfig(c: Config, file: Option<seq<string>>, created: bool): ConsoleRead {
    var cleared := c.(gameProcessNames := []);
    match file
    case None => if created then ConsoleRead(cleared, Loaded) else ConsoleRead(c, Exited)
    case Some(lines) =>
      var r := ReadLines(cleared, LinesOf(lines));
      ConsoleRead(r.config, if r.ok then Loaded else Terminated)
  }

  /**
   * A file is read to the end exactly when no interval value makes std::stoi
   * throw, and then the last occurrence of each key wins and every other
   * non-empty line is a game, in file order.
   */
  lemma ReadConfigCharacterised(c: Config, lines: seq<string>)
    ensures ReadConfig(c, Some(lines), true).outcome == Loaded <==> AllLinesParse(LinesOf(lines))
    ensures ReadConfig(c, Some(lines), true).outcome == Loaded ==>
      ReadConfig(c, Some(lines), true).config == Expected(c.(gameProcessNames := []), LinesOf(lines))
  {
    ReadLinesCharacterised(c.(gameProcessNames := []), LinesOf(lines));
  }

  /** A '#' comment is not skipped: it becomes a game name. */
  lemma CommentIsGame(line: string)
    requires line != [] && line[0] == '#'
    ensures LineOf(line) == GameName(line)
  {
    assert Prefix(line) != [] && Prefix(line)[0] == '#';
  }

  /** Only the empty line is skipped. */
  lemma OnlyEmptySkipped(line: string)
    ensures LineOf(line).Skipped? <==> line == ""
  {
  }

  /** A key written without '=' takes the whole line as its value, so an interval key alone stops the program. */
  lemma BareIntervalKeyThrows(key: string)
    requires key == GameIntervalKey || key == ObsIntervalKey
    ensures LineOf(key) == Setting(key, key, None)
  {
    KeyShape(key);
    assert TrimStart(key, IsAsciiSpace) == key;
    assert SignAndRest(key) == (false, key);
    assert LeadingDigits(key) == "";
  }

  /** A line written as KEY=value takes value as it stands, untrimmed. */
  lemma KeyLineOf(key: string, value: string)
    requires IsKey(key)
    ensures LineOf(key + "=" + value) == Setting(key, value, Stoi(value))
  {
    var line := key + "=" + value;
    KeyShape(key);
    IndexOfAfter(key, '=', value);
    assert line[..|key|] == key && line[|key| + 1..] == value;
  }

  // ---- The loop body of main ----

  /** The vector resized to n: its first elements are kept, new ones are false. */
  function Resize(v: seq<bool>, n: nat): (r: seq<bool>)
    ensures |r| == n
    ensures forall i :: 0 <= i < n && i < |v| ==> r[i] == v[i]
    ensures forall i :: |v| <= i < n ==> !r[i]
  {
    if |v| >= n then v[..n] else v + seq(n - |v|, _ => false)
  }

  /** isGameRunning after the for loop: element i is whether gameProcessNames[i] runs. */
  function GameFlags(snap: Snapshot, names: seq<string>): (r: seq<bool>)
    ensures |r| == |names|
  {
    seq(|names|, i requires 0 <= i < |names| => IsRunningIn(snap, names[i]))
  }

  /** What the loop does to the outside world: ShellExecuteEx with what it answered, or the kill of the pid found. */
  datatype ConsoleAction = StartObs(path: string, arguments: string, workingDir: string, accepted: bool) | StopObs(killed: Option<nat>)

  /** One iteration's snapshot and what ShellExecuteEx answers. */
  datatype ConsoleInput = ConsoleInput(snapshot: Snapshot, launchOk: bool)

  datatype ConsoleState = ConsoleState(obsRunning: bool, gameRunning: seq<bool>)

  datatype ConsoleTickResult = ConsoleTickResult(state: ConsoleState, actions: seq<ConsoleAction>, sleepMs: nat)

  /** sleep_for with a negative duration returns at once. */
  function SleepMs(interval: int): nat {
    if interval < 0 then 0 else interval
  }

  /** The path main launches: the directory and "\\obs64.exe" glued together, whatever the directory is. */
  function ObsPath(dir: string): string {
    dir + "\\" + ObsExeName
  }

  function StopAction(snap: Snapshot): ConsoleAction {
    var pid := ProcessIDOf(snap, ObsExeName);
    StopObs(if pid != -1 then Some(pid as nat) else None)
  }

  /** One iteration of while (true). */
  function Tick(cfg: Config, st: ConsoleState, inp: ConsoleInput): ConsoleTickResult {
    var flags := GameFlags(inp.snapshot, cfg.gameProcessNames);
    var any := true in flags;
    if any && !st.obsRunning then
      ConsoleTickResult(ConsoleState(true, flags),
        [StartObs(ObsPath(cfg.obsWorkingDir), TrayMonitor.LaunchOptions, cfg.obsWorkingDir, inp.launchOk)],
        SleepMs(cfg.obsCheckInterval))
    else if !any && st.obsRunning then
      ConsoleTickResult(ConsoleState(false, flags), [StopAction(inp.snapshot)], SleepMs(cfg.gameCheckInterval))
    else
      ConsoleTickResult(ConsoleState(st.obsRunning, flags), [], SleepMs(if st.obsRunning then cfg.obsCheckInterval else cfg.gameCheckInterval))
  }

  predicate AnyGameRunning(snap: Snapshot, names: seq<string>) {
    exists i :: 0 <= i < |names| && IsRunningIn(snap, names[i])
  }

  lemma AnyFlag(snap: Snapshot, names: seq<string>)
    ensures (true in GameFlags(snap, names)) == AnyGameRunning(snap, names)
  {
    var flags := GameFlags(snap, names);
    if true in flags {
      var i :| 0 <= i < |flags| && flags[i];
      assert IsRunningIn(snap, names[i]);
    }
    if AnyGameRunning(snap, names) {
      var i :| 0 <= i < |names| && IsRunningIn(snap, names[i]);
      assert flags[i];
    }
  }

  /**
   * A tick starts OBS exactly when a game runs and OBS is not believed
   * running; the belief is then set whatever ShellExecuteEx answered, and
   * an empty directory is not guarded against.
   */
  lemma TickStarts(cfg: Config, st: ConsoleState, inp: ConsoleInput)
    ensures var r := Tick(cfg, st, inp);
      (r.actions != [] && r.actions[0].StartObs?) <==> AnyGameRunning(inp.snapshot, cfg.gameProcessNames) && !st.obsRunning
    ensures var r := Tick(cfg, st, inp);
      r.actions != [] && r.actions[0].StartObs? ==>
        r.actions == [StartObs(ObsPath(cfg.obsWorkingDir), TrayMonitor.LaunchOptions, cfg.obsWorkingDir, inp.launchOk)]
        && r.state.obsRunning && r.sleepMs == SleepMs(cfg.obsCheckInterval)
  {
    AnyFlag(inp.snapshot, cfg.gameProcessNames);
  }

  /**
   * A tick stops OBS exactly when no game runs and OBS is believed running:
   * the first obs64.exe entry is killed if there is one, and the belief is
   * cleared either way.
   */
  lemma TickStops(cfg: Config, st: ConsoleState, inp: ConsoleInput)
    ensures var r := Tick(cfg, st, inp);
      (r.actions != [] && r.actions[0].StopObs?) <==> !AnyGameRunning(inp.snapshot, cfg.gameProcessNames) && st.obsRunning
    ensures var r := Tick(cfg, st, inp);
      r.actions != [] && r.actions[0].StopObs? ==>
        !r.state.obsRunning && r.sleepMs == SleepMs(cfg.gameCheckInterval) && (r.actions[0].killed.Some? <==> IsRunningIn(inp.snapshot, ObsExeName))
  {
    AnyFlag(inp.snapshot, cfg.gameProcessNames);
    ProcessIDOfIff(inp.snapshot, ObsExeName);
  }

  /** After a tick the vector has one flag per configured name, whatever its size before. */
  lemma TickFlags(cfg: Config, st: ConsoleState, inp: ConsoleInput)
    ensures var g := Tick(cfg, st, inp).state.gameRunning;
      |g| == |cfg.gameProcessNames| && forall i :: 0 <= i < |g| ==> g[i] == IsRunningIn(inp.snapshot, cfg.gameProcessNames[i])
  {
  }

  /** The sleep follows the decision: OBS's interval while it is believed running, the games' otherwise. */
  lemma TickSleep(cfg: Config, st: ConsoleState, inp: ConsoleInput)
    ensures var r := Tick(cfg, st, inp);
      r.sleepMs == SleepMs(if r.state.obsRunning then cfg.obsCheckInterval else cfg.gameCheckInterval)
  {
  }

  datatype ConsoleOutcome = ConsoleOutcome(state: ConsoleState, trace: seq<ConsoleAction>)

  /** The endless loop over a finite series of iterations. */
  function Run(cfg: Config, st: ConsoleState, inputs: seq<ConsoleInput>): ConsoleOutcome
    decreases |inputs|
  {
    if inputs == [] then ConsoleOutcome(st, [])
    else
      var r := Tick(cfg, st, inputs[0]);
      var rest := Run(cfg, r.state, inputs[1..]);
      ConsoleOutcome(rest.state, r.actions + rest.trace)
  }

  /** One iteration followed by the rest. */
  lemma RunStep(cfg: Config, st: ConsoleState, inputs: seq<ConsoleInput>)
    requires inputs != []
    ensures var r := Tick(cfg, st, inputs[0]);
      Run(cfg, st, inputs) == ConsoleOutcome(Run(cfg, r.state, inputs[1..]).state, r.actions + Run(cfg, r.state, inputs[1..]).trace)
  {
  }

  /** The loop's invariant carried over one iteration. */
  lemma RunAdvance(cfg: Config, st0: ConsoleState, inputs: seq<ConsoleInput>, i: nat, cur: ConsoleState,
                   trace: seq<ConsoleAction>, r: ConsoleTickResult)
    requires i < |inputs| && r == Tick(cfg, cur, inputs[i])
    requires Run(cfg, st0, inputs) == ConsoleOutcome(Run(cfg, cur, inputs[i..]).state, trace + Run(cfg, cur, inputs[i..]).trace)
    ensures Run(cfg, st0, inputs) == ConsoleOutcome(Run(cfg, r.state, inputs[i + 1..]).state, (trace + r.actions) + Run(cfg, r.state, inputs[i + 1..]).trace)
  {
    assert inputs[i..][0] == inputs[i] && inputs[i..][1..] == inputs[i + 1..];
    RunStep(cfg, cur, inputs[i..]);
    var rest := Run(cfg, r.state, inputs[i + 1..]);
    assert trace + (r.actions + rest.trace) == (trace + r.actions) + rest.trace;
  }

  /** Starts and stops alternate, beginning from the belief running. */
  predicate Alternates(trace: seq<ConsoleAction>, running: bool)
    decreases |trace|
  {
    trace == [] ||
    match trace[0]
    case StartObs(_, _, _, _) => !running && Alternates(trace[1..], true)
    case StopObs(_) => running && Alternates(trace[1..], false)
  }

  /** No second start without a stop between, and no stop without a start, whether or not the starts took. */
  lemma {:induction false} RunAlternates(cfg: Config, st: ConsoleState, inputs: seq<ConsoleInput>)
    ensures Alternates(Run(cfg, st, inputs).trace, st.obsRunning)
    decreases |inputs|
  {
    if inputs != [] {
      var r := Tick(cfg, st, inputs[0]);
      var rest := Run(cfg, r.state, inputs[1..]);
      RunAlternates(cfg, r.state, inputs[1..]);
      if r.actions == [] {
        assert r.actions + rest.trace == rest.trace;
      } else {
        assert (r.actions + rest.trace)[1..] == rest.trace;
      }
    }
  }

  /** The program's state when iteration k of a run begins. */
  function StateBefore(cfg: Config, st: ConsoleState, inputs: seq<ConsoleInput>, k: nat): ConsoleState
    requires k <= |inputs|
  {
    Run(cfg, st, inputs[..k]).state
  }

  /** The actions of the first k iterations of a run. */
  function TraceBefore(cfg: Config, st: ConsoleState, inputs: seq<ConsoleInput>, k: nat): seq<ConsoleAction>
    requires k <= |inputs|
  {
    Run(cfg, st, inputs[..k]).trace
  }

  /**
   * Action j of the run is made by iteration k: the run's trace begins
   * with the actions of the first k iterations followed by those of
   * iteration k, and position j falls among the latter.
   */
  predicate MadeBy(cfg: Config, st: ConsoleState, inputs: seq<ConsoleInput>, j: nat, k: nat)
    requires k < |inputs|
  {
    var before := TraceBefore(cfg, st, inputs, k);
    var acts := Tick(cfg, StateBefore(cfg, st, inputs, k), inputs[k]).actions;
    before + acts <= Run(cfg, st, inputs).trace && |before| <= j < |before| + |acts|
  }

  /** Iteration k + 1 begins where iteration k of the run after the first iteration does. */
  lemma StateBeforeStep(cfg: Config, st: ConsoleState, inputs: seq<ConsoleInput>, k: nat)
    requires k < |inputs|
    ensures StateBefore(cfg, st, inputs, k + 1) == StateBefore(cfg, Tick(cfg, st, inputs[0]).state, inputs[1..], k)
    ensures TraceBefore(cfg, st, inputs, k + 1)
      == Tick(cfg, st, inputs[0]).actions + TraceBefore(cfg, Tick(cfg, st, inputs[0]).state, inputs[1..], k)
  {
    var pre := inputs[..k + 1];
    assert pre[0] == inputs[0] && pre[1..] == inputs[1..][..k];
    RunStep(cfg, st, pre);
  }

  /** A slot of the rest's trace, moved behind the actions that come first. */
  lemma SlotShift<T>(first: seq<T>, rest: seq<T>, before: seq<T>, acts: seq<T>, i: nat)
    requires before + acts <= rest && |before| <= i < |before| + |acts|
    ensures (first + before) + acts <= first + rest
    ensures |first + before| <= |first| + i < |first + before| + |acts|
  {
    assert (first + before) + acts == first + (before + acts);
    assert (first + rest)[..|first| + |before + acts|] == first + rest[..|before + acts|];
  }

  /** Action j of the run is made by some iteration. */
  predicate FromIteration(cfg: Config, st: ConsoleState, inputs: seq<ConsoleInput>, j: nat) {
    exists k :: 0 <= k < |inputs| && MadeBy(cfg, st, inputs, j, k)
  }

  /** The first iteration's actions open the trace. */
  lemma MadeByFirst(cfg: Config, st: ConsoleState, inputs: seq<ConsoleInput>, j: nat)
    requires inputs != [] && j < |Tick(cfg, st, inputs[0]).actions|
    ensures MadeBy(cfg, st, inputs, j, 0)
  {
    var r := Tick(cfg, st, inputs[0]);
    assert inputs[..0] == [];
    assert StateBefore(cfg, st, inputs, 0) == st && TraceBefore(cfg, st, inputs, 0) == [];
    RunStep(cfg, st, inputs);
    assert [] + r.actions <= Run(cfg, st, inputs).trace;
  }

  /** An action that iteration k of the rest makes is one that iteration k + 1 of the whole run makes. */
  lemma MadeByShift(cfg: Config, st: ConsoleState, inputs: seq<ConsoleInput>, j: nat, k: nat)
    requires inputs != [] && k < |inputs[1..]| && MadeBy(cfg, Tick(cfg, st, inputs[0]).state, inputs[1..], j, k)
    ensures MadeBy(cfg, st, inputs, |Tick(cfg, st, inputs[0]).actions| + j, k + 1)
  {
    var r := Tick(cfg, st, inputs[0]);
    var rest := inputs[1..];
    var before := TraceBefore(cfg, r.state, rest, k);
    var acts := Tick(cfg, StateBefore(cfg, r.state, rest, k), rest[k]).actions;
    RunStep(cfg, st, inputs);
    StateBeforeStep(cfg, st, inputs, k);
    assert rest[k] == inputs[k + 1];
    SlotShift(r.actions, Run(cfg, r.state, rest).trace, before, acts, j);
  }

  /** Each position of a run's trace holds an action of some iteration, taken from the state that iteration began in. */
  lemma {:induction false} RunIterations(cfg: Config, st: ConsoleState, inputs: seq<ConsoleInput>)
    ensures forall j :: 0 <= j < |Run(cfg, st, inputs).trace| ==> FromIteration(cfg, st, inputs, j)
    decreases |inputs|
  {
    if inputs != [] {
      var r := Tick(cfg, st, inputs[0]);
      var rest := inputs[1..];
      RunIterations(cfg, r.state, rest);
      RunStep(cfg, st, inputs);
      forall j | 0 <= j < |Run(cfg, st, inputs).trace| ensures FromIteration(cfg, st, inputs, j) {
        if j < |r.actions| {
          MadeByFirst(cfg, st, inputs, j);
          assert MadeBy(cfg, st, inputs, j, 0);
        } else {
          var i := j - |r.actions|;
          assert FromIteration(cfg, r.state, rest, i);
          var k :| 0 <= k < |rest| && MadeBy(cfg, r.state, rest, i, k);
          MadeByShift(cfg, st, inputs, i, k);
          assert MadeBy(cfg, st, inputs, j, k + 1);
        }
      }
    }
  }

  /**
   * Every start in a run is made by an iteration whose snapshot showed a
   * configured game running and which began with OBS not believed running.
   */
  lemma NoStartWithoutTrigger(cfg: Config, st: ConsoleState, inputs: seq<ConsoleInput>)
    ensures forall j :: 0 <= j < |Run(cfg, st, inputs).trace| && Run(cfg, st, inputs).trace[j].StartObs? ==>
      exists k :: 0 <= k < |inputs| && MadeBy(cfg, st, inputs, j, k)
                && AnyGameRunning(inputs[k].snapshot, cfg.gameProcessNames)
                && !StateBefore(cfg, st, inputs, k).obsRunning
  {
    var t := Run(cfg, st, inputs).trace;
    RunIterations(cfg, st, inputs);
    forall j | 0 <= j < |t| && t[j].StartObs?
      ensures exists k :: 0 <= k < |inputs| && MadeBy(cfg, st, inputs, j, k)
                && AnyGameRunning(inputs[k].snapshot, cfg.gameProcessNames)
                && !StateBefore(cfg, st, inputs, k).obsRunning
    {
      assert FromIteration(cfg, st, inputs, j);
      var k :| 0 <= k < |inputs| && MadeBy(cfg, st, inputs, j, k);
      var s := StateBefore(cfg, st, inputs, k);
      var before := TraceBefore(cfg, st, inputs, k);
      var acts := Tick(cfg, s, inputs[k]).actions;
      TickStarts(cfg, s, inputs[k]);
      TickStops(cfg, s, inputs[k]);
      assert t[j] == (before + acts)[j] == acts[j - |before|];
      assert acts[0] == t[j];
    }
  }

  /** With no game names (as after the first run's default file) nothing is ever started. */
  lemma {:induction false} NoGamesNoStart(cfg: Config, st: ConsoleState, inputs: seq<ConsoleInput>)
    requires cfg.gameProcessNames == []
    ensures forall a :: a in Run(cfg, st, inputs).trace ==> !a.StartObs?
    decreases |inputs|
  {
    if inputs != [] {
      NoGamesNoStart(cfg, Tick(cfg, st, inputs[0]).state, inputs[1..]);
    }
  }

  /**
   * On the first run config.txt is missing: once the default file is
   * written nothing is read, so the loop polls with no game names and
   * intervals of 0, and never starts OBS.
   */
  lemma {:induction false} FirstRunIdles(inputs: seq<ConsoleInput>, gameRunning: seq<bool>)
    ensures var cfg := ReadConfig(Config("", 0, 0, [], false), None, true).config;
      var st := ConsoleState(false, gameRunning);
      Run(cfg, st, inputs).trace == []
      && forall k :: 0 <= k < |inputs| ==> Tick(cfg, StateBefore(cfg, st, inputs, k), inputs[k]).sleepMs == 0
    decreases |inputs|
  {
    var cfg := ReadConfig(Config("", 0, 0, [], false), None, true).config;
    var st := ConsoleState(false, gameRunning);
    if inputs != [] {
      var next := Tick(cfg, st, inputs[0]).state;
      assert next == ConsoleState(false, []);
      FirstRunIdles(inputs[1..], []);
      assert inputs[..0] == [];
      forall k | 0 <= k < |inputs|
        ensures Tick(cfg, StateBefore(cfg, st, inputs, k), inputs[k]).sleepMs == 0
      {
        if k == 0 {
          assert StateBefore(cfg, st, inputs, 0) == st;
        } else {
          StateBeforeStep(cfg, st, inputs, k - 1);
          assert inputs[k] == inputs[1..][k - 1];
        }
      }
    }
  }

  /** The locals of main and what its loop keeps between iterations. */
  class ConsoleProgram {
    var obsWorkingDir: string
    var gameCheckInterval: int
    var obsCheckInterval: int
    var gameProcessNames: seq<string>
    var addToStartup: bool
    var isObsRunning: bool
    var isGameRunning: seq<bool>

    function Settings(): Config
      reads this
    {
      Config(obsWorkingDir, gameCheckInterval, obsCheckInterval, gameProcessNames, addToStartup)
    }

    function State(): ConsoleState
      reads this
    {
      ConsoleState(isObsRunning, isGameRunning)
    }

    /** The initial values of main's locals. */
    constructor()
      ensures Settings() == Config("", 0, 0, [], false)
      ensures State() == ConsoleState(false, [])
    {
      obsWorkingDir := "";
      gameCheckInterval := 0;
      obsCheckInterval := 0;
      gameProcessNames := [];
      addToStartup := false;
      isObsRunning := false;
      isGameRunning := [];
    }

    /** readConfigFile on the out-parameters: the getline loop. */
    method ReadConfigFile(file: Option<seq<string>>, created: bool) returns (outcome: ReadOutcome)
      modifies this
      ensures Settings() == ReadConfig(old(Settings()), file, created).config
      ensures outcome == ReadConfig(old(Settings()), file, created).outcome
      ensures State() == old(State())
    {
      if file.None? && !created {
        return Exited;
      }
      gameProcessNames := [];
      if file.None? {
        return Loaded;
      }
      var lines := file.value;
      ghost var cleared := Settings();
      ghost var ks := LinesOf(lines);
      for i := 0 to |lines|
        invariant ReadLines(cleared, ks[..i]) == ReadResult(Settings(), true)
        invariant State() == old(State())
      {
        ghost var before := Settings();
        ReadLinesSnoc(cleared, ks, i);
        assert ks[i] == LineOf(lines[i]);
        var ok := ReadLine(lines[i]);
        if !ok {
          ReadLinesStopped(cleared, ks, i + 1);
          return Terminated;
        }
      }
      assert ks[..|lines|] == ks;
      return Loaded;
    }

    /** The body of the getline loop; false when std::stoi throws. */
    method ReadLine(line: string) returns (ok: bool)
      modifies this
      ensures ok == ApplyLine(old(Settings()), LineOf(line)).Some?
      ensures Settings() == if ok then ApplyLine(old(Settings()), LineOf(line)).value else old(Settings())
      ensures State() == old(State())
    {
      var prefix := Prefix(line);
      if prefix == GameIntervalKey {
        var n := Stoi(ValueText(line));
        if n.None? {
          return false;
        }
        gameCheckInterval := n.value;
      } else if prefix == ObsIntervalKey {
        var n := Stoi(ValueText(line));
        if n.None? {
          return false;
        }
        obsCheckInterval := n.value;
      } else if prefix == ObsDirKey {
        obsWorkingDir := ValueText(line);
      } else if prefix == StartupKey {
        addToStartup := ValueText(line) == "1";
      } else if line != "" {
        gameProcessNames := gameProcessNames + [line];
      }
      return true;
    }

    /**
     * The start-up of main: the config is read, then the batch file in the
     * Startup folder is written (registered is whether that succeeds) or
     * deleted. The loop is entered only when both went through.
     */
    method StartUp(file: Option<seq<string>>, created: bool, registered: bool) returns (loops: bool)
      modifies this
      ensures Settings() == ReadConfig(old(Settings()), file, created).config
      ensures loops <==> ReadConfig(old(Settings()), file, created).outcome == Loaded && (addToStartup ==> registered)
      ensures isObsRunning == old(isObsRunning)
      ensures isGameRunning == if ReadConfig(old(Settings()), file, created).outcome == Loaded
        then Resize(old(isGameRunning), |gameProcessNames|) else old(isGameRunning)
    {
      var outcome := ReadConfigFile(file, created);
      if outcome != Loaded {
        return false;
      }
      isGameRunning := Resize(isGameRunning, |gameProcessNames|);
      if addToStartup && !registered {
        return false;
      }
      return true;
    }

    /** The resize and the for loop that fill isGameRunning. */
    method ScanGames(snap: Snapshot)
      modifies this
      ensures isGameRunning == GameFlags(snap, gameProcessNames)
      ensures Settings() == old(Settings()) && isObsRunning == old(isObsRunning)
    {
      isGameRunning := Resize(isGameRunning, |gameProcessNames|);
      for i := 0 to |gameProcessNames|
        invariant Settings() == old(Settings()) && isObsRunning == old(isObsRunning)
        invariant |isGameRunning| == |gameProcessNames|
        invariant forall j :: 0 <= j < i ==> isGameRunning[j] == IsRunningIn(snap, gameProcessNames[j])
      {
        var running := ProcessRunning(snap, gameProcessNames[i]);
        isGameRunning := isGameRunning[i := running];
      }
    }

    /** One iteration of while (true). */
    method Iterate(inp: ConsoleInput) returns (actions: seq<ConsoleAction>, sleepMs: nat)
      modifies this
      ensures ConsoleTickResult(State(), actions, sleepMs) == Tick(old(Settings()), old(State()), inp)
      ensures Settings() == old(Settings())
    {
      ScanGames(inp.snapshot);
      var any := true in isGameRunning;
      actions := [];
      if any && !isObsRunning {
        var obsExePath := obsWorkingDir + "\\" + ObsExeName;
        actions := [StartObs(obsExePath, TrayMonitor.LaunchOptions, obsWorkingDir, inp.launchOk)];
        isObsRunning := true;
      } else if !any && isObsRunning {
        var obsPID := GetProcessID(inp.snapshot, ObsExeName);
        actions := [StopObs(if obsPID != -1 then Some(obsPID as nat) else None)];
        isObsRunning := false;
      }
      var sleepInterval := if isObsRunning then obsCheckInterval else gameCheckInterval;
      sleepMs := SleepMs(sleepInterval);
    }

    /** The loop over a series of iterations; the trace is what it did. */
    method MonitorLoop(inputs: seq<ConsoleInput>) returns (trace: seq<ConsoleAction>)
      modifies this
      ensures ConsoleOutcome(State(), trace) == Run(old(Settings()), old(State()), inputs)
      ensures Settings() == old(Settings())
    {
      ghost var cfg := Settings();
      ghost var st0 := State();
      ghost var cur := st0;
      trace := [];
      for i := 0 to |inputs|
        invariant Settings() == cfg && State() == cur
        invariant Run(cfg, st0, inputs) == ConsoleOutcome(Run(cfg, cur, inputs[i..]).state, trace + Run(cfg, cur, inputs[i..]).trace)
      {
        var actions, sleepMs := Iterate(inputs[i]);
        ghost var after := State();
        RunAdvance(cfg, st0, inputs, i, cur, trace, ConsoleTickResult(after, actions, sleepMs));
        trace := trace + actions;
        cur := after;
      }
      assert trace + [] == trace;
    }
  }
}
