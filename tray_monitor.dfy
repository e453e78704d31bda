/**
 * The tray application's monitor (class Program): process lookup by name,
 * the MonitorProcessesAsync loop, the config reader on the static
 * settings, UpdateIntervals and the shutdown in OnExit. The process table
 * is an input; launching OBS and closing it are actions in a trace; sleep
 * is the delay a tick asks for.
 */
module TrayMonitor {
  import opened Wrappers
  import opened Text
  import opened Pausing
  import opened TrayConfig

  const ObsExeName: string := "obs64.exe"
  const ObsProcessName: string := "obs64"
  const LaunchOptions: string := "--startreplaybuffer --disable-shutdown-check"

  /** One running process: Process.ProcessName (the executable name without ".exe") and its id. */
  datatype OsProcess = OsProcess(processName: string, pid: nat)

  /** Process.GetProcessesByName: the processes whose name equals name ignoring case, in table order. */
  function ProcessesByName(table: seq<OsProcess>, name: string): seq<OsProcess> {
    if table == [] then []
    else (if EqualsIgnoreCase(table[0].processName, name) then [table[0]] else []) + ProcessesByName(table[1..], name)
  }

  /** The processes found are exactly those of the table with that name. */
  lemma {:induction false} ProcessesByNameMembers(table: seq<OsProcess>, name: string)
    ensures forall p :: p in ProcessesByName(table, name) <==> p in table && EqualsIgnoreCase(p.processName, name)
  {
    if table != [] {
      ProcessesByNameMembers(table[1..], name);
      assert table == [table[0]] + table[1..];
    }
  }

  /** IsProcessRunning: the extension of the configured name is dropped before the lookup. */
  predicate IsProcessRunning(table: seq<OsProcess>, processName: string) {
    |ProcessesByName(table, FileNameWithoutExtension(processName))| > 0
  }

  /** A game counts as running exactly when some process has its name without extension, ignoring case. */
  lemma IsProcessRunningIff(table: seq<OsProcess>, processName: string)
    ensures IsProcessRunning(table, processName) <==>
      exists i :: 0 <= i < |table| && EqualsIgnoreCase(table[i].processName, FileNameWithoutExtension(processName))
  {
    var ps := ProcessesByName(table, FileNameWithoutExtension(processName));
    ProcessesByNameMembers(table, FileNameWithoutExtension(processName));
    if |ps| > 0 {
      assert ps[0] in ps;
    }
    if exists i :: 0 <= i < |table| && EqualsIgnoreCase(table[i].processName, FileNameWithoutExtension(processName)) {
      var i :| 0 <= i < |table| && EqualsIgnoreCase(table[i].processName, FileNameWithoutExtension(processName));
      assert table[i] in ps;
    }
  }

  /** The name without extension of a plain base name, with or without ".exe", is the base name. */
  lemma BaseName(base: string)
    requires forall i :: 0 <= i < |base| ==> base[i] != '.' && !IsNameSeparator(base[i])
    ensures FileNameWithoutExtension(base + ".exe") == base
    ensures FileNameWithoutExtension(base) == base
  {
    var full := base + ".exe";
    assert FileName(full) == full by {
      assert forall i :: 0 <= i < |full| ==> !IsNameSeparator(full[i]);
    }
    assert FileName(base) == base;
    assert full[|base|] == '.';
  }

  /** A plain base name with or without ".exe" finds the same processes. */
  lemma ExtensionIgnored(table: seq<OsProcess>, base: string)
    requires forall i :: 0 <= i < |base| ==> base[i] != '.' && !IsNameSeparator(base[i])
    ensures IsProcessRunning(table, base + ".exe") == IsProcessRunning(table, base)
  {
    BaseName(base);
  }

  /** GetProcessID: the id of the first process found, or -1. */
  function GetProcessID(table: seq<OsProcess>, processName: string): (r: int)
    ensures r == -1 <==> !IsProcessRunning(table, processName)
    ensures r != -1 ==>
      exists i :: 0 <= i < |table| && table[i].pid == r && EqualsIgnoreCase(table[i].processName, FileNameWithoutExtension(processName))
  {
    var ps := ProcessesByName(table, FileNameWithoutExtension(processName));
    if |ps| > 0 then
      ProcessesByNameMembers(table, FileNameWithoutExtension(processName));
      assert ps[0] in ps;
      ps[0].pid
    else -1
  }

  function Pids(ps: seq<OsProcess>): (r: seq<nat>)
    ensures |r| == |ps| && forall i :: 0 <= i < |ps| ==> r[i] == ps[i].pid
  {
    seq(|ps|, i requires 0 <= i < |ps| => ps[i].pid)
  }

  /** The ids CloseObsProcess kills: every process named obs64. */
  function ObsPids(table: seq<OsProcess>): seq<nat> {
    Pids(ProcessesByName(table, ObsProcessName))
  }

  /** What the monitor does to the outside world. */
  datatype Action =
    | Launch(path: string, arguments: string, workingDir: string, started: bool)
    | CloseAll(pids: seq<nat>)
    | Kill(pid: nat)

  /**
   * What await Task.Delay(ms, token) does: waits ms milliseconds; -1 waits
   * until cancellation, which ends the loop; below -1 it throws, the catch
   * swallows the exception, and the loop goes on at once.
   */
  datatype Sleep = Wait(ms: nat) | WaitForever | NoWait

  function Delay(ms: int): Sleep {
    if ms >= 0 then Wait(ms) else if ms == -1 then WaitForever else NoWait
  }

  /** The interval chosen after the decision: OBS's when it is believed running, the games' otherwise. */
  function SleepFor(cfg: Config, obsRunning: bool): Sleep {
    Delay(if obsRunning then cfg.obsCheckInterval else cfg.gameCheckInterval)
  }

  /** A call the tray menu made on the PauseManager since the previous tick. */
  datatype PauseCommand = NoCommand | TimedPause(duration: int) | IndefinitePause | Unpause

  function ApplyCommand(s: PauseState, now: Instant, cmd: PauseCommand): PauseState {
    match cmd
    case NoCommand => s
    case TimedPause(d) => PauseFor(s, now, d).1
    case IndefinitePause => PauseForever(s)
    case Unpause => Resume(s)
  }

  /** What one iteration sees: the menu call, the clock, the processes, whether Process.Start throws, and the token. */
  datatype TickInput = TickInput(command: PauseCommand, now: Instant, table: seq<OsProcess>, launchFails: bool, cancelled: bool)

  /** The monitor's state: the pause switch and isObsRunning. */
  datatype TrayState = TrayState(pause: PauseState, obsRunning: bool)

  datatype TickResult = TickResult(state: TrayState, actions: seq<Action>, sleep: Sleep)

  /** Whether a foreach over names finds one that found accepts. */
  predicate AnyFound(found: string -> bool, names: seq<string>) {
    names != [] && (AnyFound(found, names[..|names| - 1]) || found(names[|names| - 1]))
  }

  lemma {:induction false} AnyFoundIff(found: string -> bool, names: seq<string>)
    ensures AnyFound(found, names) <==> exists i :: 0 <= i < |names| && found(names[i])
  {
    if names != [] {
      var init := names[..|names| - 1];
      AnyFoundIff(found, init);
      if exists i :: 0 <= i < |init| && found(init[i]) {
        var i :| 0 <= i < |init| && found(init[i]);
        assert names[i] == init[i];
      }
      if exists i :: 0 <= i < |names| && found(names[i]) {
        var i :| 0 <= i < |names| && found(names[i]);
        if i < |init| {
          assert names[i] == init[i];
        }
      }
    }
  }

  /** Whether the foreach over the configured names finds one running. */
  predicate AnyGameRunning(table: seq<OsProcess>, names: seq<string>) {
    AnyFound(n => IsProcessRunning(table, n), names)
  }

  /** The scan finds a game exactly when some configured name is running. */
  lemma AnyGameRunningIff(table: seq<OsProcess>, names: seq<string>)
    ensures AnyGameRunning(table, names) <==> exists i :: 0 <= i < |names| && IsProcessRunning(table, names[i])
  {
    AnyFoundIff(n => IsProcessRunning(table, n), names);
  }

  /** The pause check of one tick: the answer of IsPaused and the pause state after it. */
  function PauseCheck(st: TrayState, inp: TickInput): (bool, PauseState) {
    Query(ApplyCommand(st.pause, inp.now, inp.command), inp.now)
  }

  /** The launch the monitor makes for a configured directory. */
  function ObsLaunch(cfg: Config, started: bool): Action {
    Launch(Combine(cfg.obsWorkingDir, ObsExeName), LaunchOptions, cfg.obsWorkingDir, started)
  }

  /** One iteration of the while loop of MonitorProcessesAsync. */
  function Tick(cfg: Config, st: TrayState, inp: TickInput): TickResult {
    var (paused, pause) := PauseCheck(st, inp);
    if paused then TickResult(TrayState(pause, st.obsRunning), [], SleepFor(cfg, st.obsRunning))
    else
      var any := AnyGameRunning(inp.table, cfg.gameProcessNames);
      if any && !st.obsRunning then
        if cfg.obsWorkingDir != "" then
          if inp.launchFails then TickResult(TrayState(pause, false), [ObsLaunch(cfg, false)], NoWait)
          else TickResult(TrayState(pause, true), [ObsLaunch(cfg, true)], SleepFor(cfg, true))
        else TickResult(TrayState(pause, false), [], SleepFor(cfg, false))
      else if !any && st.obsRunning then
        TickResult(TrayState(pause, false), [CloseAll(ObsPids(inp.table))], SleepFor(cfg, false))
      else TickResult(TrayState(pause, st.obsRunning), [], SleepFor(cfg, st.obsRunning))
  }

  datatype RunOutcome = RunOutcome(state: TrayState, trace: seq<Action>)

  /**
   * The whole loop over a series of iterations: it stops at a cancelled
   * token and after an endless delay; the configuration does not change
   * during the run.
   */
  function Run(cfg: Config, st: TrayState, inputs: seq<TickInput>): RunOutcome
    decreases |inputs|
  {
    if inputs == [] || inputs[0].cancelled then RunOutcome(st, [])
    else
      var r := Tick(cfg, st, inputs[0]);
      if r.sleep == WaitForever then RunOutcome(r.state, r.actions)
      else
        var rest := Run(cfg, r.state, inputs[1..]);
        RunOutcome(rest.state, r.actions + rest.trace)
  }

  // ---- One tick ----

  /** A tick launches exactly when it is not paused, a game runs, OBS is not believed running and the directory is set. */
  lemma TickLaunches(cfg: Config, st: TrayState, inp: TickInput)
    ensures |Tick(cfg, st, inp).actions| <= 1
    ensures var r := Tick(cfg, st, inp);
      (r.actions != [] && r.actions[0].Launch?) <==>
        (!PauseCheck(st, inp).0 && AnyGameRunning(inp.table, cfg.gameProcessNames) && !st.obsRunning && cfg.obsWorkingDir != "")
    ensures var r := Tick(cfg, st, inp);
      r.actions != [] && r.actions[0].Launch? ==> r.actions[0] == ObsLaunch(cfg, !inp.launchFails)
  {
  }

  /** A tick closes OBS exactly when it is not paused, no game runs and OBS is believed running. */
  lemma TickCloses(cfg: Config, st: TrayState, inp: TickInput)
    ensures var r := Tick(cfg, st, inp);
      (r.actions != [] && r.actions[0].CloseAll?) <==>
        (!PauseCheck(st, inp).0 && !AnyGameRunning(inp.table, cfg.gameProcessNames) && st.obsRunning)
    ensures var r := Tick(cfg, st, inp);
      r.actions != [] && r.actions[0].CloseAll? ==> r.actions[0].pids == ObsPids(inp.table) && !r.state.obsRunning
  {
  }

  /** A paused tick does nothing and keeps isObsRunning; it still sleeps. */
  lemma PausedTickIsInert(cfg: Config, st: TrayState, inp: TickInput)
    requires PauseCheck(st, inp).0
    ensures Tick(cfg, st, inp) == TickResult(TrayState(PauseCheck(st, inp).1, st.obsRunning), [], SleepFor(cfg, st.obsRunning))
  {
  }

  /** The pause switch ends a tick where the IsPaused read leaves it, whatever else the tick does. */
  lemma TickPauseState(cfg: Config, st: TrayState, inp: TickInput)
    ensures Tick(cfg, st, inp).state.pause == PauseCheck(st, inp).1
  {
  }

  /** The sleep follows the decision; only a launch that throws skips it, and then OBS is not believed running. */
  lemma TickSleep(cfg: Config, st: TrayState, inp: TickInput)
    ensures var r := Tick(cfg, st, inp);
      if ObsLaunch(cfg, false) in r.actions then r.sleep == NoWait && !r.state.obsRunning
      else r.sleep == SleepFor(cfg, r.state.obsRunning)
  {
  }

  /** After a launch that threw, the next unpaused tick with a game running tries again. */
  lemma FailedLaunchIsRetried(cfg: Config, st: TrayState, in1: TickInput, in2: TickInput)
    requires Tick(cfg, st, in1).actions == [ObsLaunch(cfg, false)]
    requires !PauseCheck(Tick(cfg, st, in1).state, in2).0
    requires AnyGameRunning(in2.table, cfg.gameProcessNames)
    ensures Tick(cfg, Tick(cfg, st, in1).state, in2).actions == [ObsLaunch(cfg, !in2.launchFails)]
  {
  }

  // ---- Whole runs ----

  /**
   * The order of actions is that of the belief isObsRunning: a launch only
   * when OBS is not believed running (a successful one makes it so), a
   * close only when it is (and it no longer is).
   */
  predicate Bracketed(trace: seq<Action>, running: bool)
    decreases |trace|
  {
    trace == [] ||
    match trace[0]
    case Launch(_, _, _, started) => !running && Bracketed(trace[1..], started)
    case CloseAll(_) => running && Bracketed(trace[1..], false)
    case Kill(_) => Bracketed(trace[1..], running)
  }

  lemma TickBracketed(cfg: Config, st: TrayState, inp: TickInput, rest: seq<Action>)
    requires Bracketed(rest, Tick(cfg, st, inp).state.obsRunning)
    ensures Bracketed(Tick(cfg, st, inp).actions + rest, st.obsRunning)
  {
    var r := Tick(cfg, st, inp);
    if r.actions == [] {
      assert r.actions + rest == rest;
    } else {
      assert (r.actions + rest)[1..] == rest;
    }
  }

  /** No second successful launch before a close, and no close without a launch believed running. */
  lemma {:induction false} RunBracketed(cfg: Config, st: TrayState, inputs: seq<TickInput>)
    ensures Bracketed(Run(cfg, st, inputs).trace, st.obsRunning)
    decreases |inputs|
  {
    if inputs != [] && !inputs[0].cancelled {
      var r := Tick(cfg, st, inputs[0]);
      if r.sleep == WaitForever {
        TickBracketed(cfg, st, inputs[0], []);
        assert r.actions + [] == r.actions;
      } else {
        RunBracketed(cfg, r.state, inputs[1..]);
        TickBracketed(cfg, st, inputs[0], Run(cfg, r.state, inputs[1..]).trace);
      }
    }
  }

  /** The monitor's state when iteration k of a run begins. */
  function StateBefore(cfg: Config, st: TrayState, inputs: seq<TickInput>, k: nat): TrayState
    requires k <= |inputs|
  {
    Run(cfg, st, inputs[..k]).state
  }

  /** The actions of the first k iterations of a run. */
  function TraceBefore(cfg: Config, st: TrayState, inputs: seq<TickInput>, k: nat): seq<Action>
    requires k <= |inputs|
  {
    Run(cfg, st, inputs[..k]).trace
  }

  /**
   * Action j of the run is made by iteration k: the run's trace begins
   * with the actions of the first k iterations followed by those of
   * iteration k, and position j falls among the latter.
   */
  predicate MadeBy(cfg: Config, st: TrayState, inputs: seq<TickInput>, j: nat, k: nat)
    requires k < |inputs|
  {
    var before := TraceBefore(cfg, st, inputs, k);
    var acts := Tick(cfg, StateBefore(cfg, st, inputs, k), inputs[k]).actions;
    before + acts <= Run(cfg, st, inputs).trace && |before| <= j < |before| + |acts|
  }

  /** After an iteration that goes on, iteration k + 1 begins where iteration k of the rest does. */
  lemma StateBeforeStep(cfg: Config, st: TrayState, inputs: seq<TickInput>, k: nat)
    requires k < |inputs| && !inputs[0].cancelled && Tick(cfg, st, inputs[0]).sleep != WaitForever
    ensures StateBefore(cfg, st, inputs, k + 1) == StateBefore(cfg, Tick(cfg, st, inputs[0]).state, inputs[1..], k)
    ensures TraceBefore(cfg, st, inputs, k + 1)
      == Tick(cfg, st, inputs[0]).actions + TraceBefore(cfg, Tick(cfg, st, inputs[0]).state, inputs[1..], k)
  {
    var pre := inputs[..k + 1];
    assert pre[0] == inputs[0] && pre[1..] == inputs[1..][..k];
    RunStep(cfg, st, pre);
  }

  /** A slot of the rest's trace, moved behind the actions that come first. */
  lemma SlotShift<T>(first: seq<T>, rest: seq<T>, before: seq<T>, acts: seq<T>, i: nat)
    requires before + acts <= rest && |before| <= i < |before| + |acts|
    ensures (first + before) + acts <= first + rest
    ensures |first + before| <= |first| + i < |first + before| + |acts|
  {
    assert (first + before) + acts == first + (before + acts);
    assert (first + rest)[..|first| + |before + acts|] == first + rest[..|before + acts|];
  }

  /** Action j of the run is made by some iteration that was not cancelled. */
  predicate FromIteration(cfg: Config, st: TrayState, inputs: seq<TickInput>, j: nat) {
    exists k :: 0 <= k < |inputs| && !inputs[k].cancelled && MadeBy(cfg, st, inputs, j, k)
  }

  /** The first iteration's actions open the trace. */
  lemma MadeByFirst(cfg: Config, st: TrayState, inputs: seq<TickInput>, j: nat)
    requires inputs != [] && !inputs[0].cancelled && j < |Tick(cfg, st, inputs[0]).actions|
    ensures MadeBy(cfg, st, inputs, j, 0)
  {
    var r := Tick(cfg, st, inputs[0]);
    assert inputs[..0] == [];
    assert StateBefore(cfg, st, inputs, 0) == st && TraceBefore(cfg, st, inputs, 0) == [];
    if r.sleep != WaitForever {
      RunStep(cfg, st, inputs);
    }
    assert [] + r.actions <= Run(cfg, st, inputs).trace;
  }

  /** An action that iteration k of the rest makes is one that iteration k + 1 of the whole run makes. */
  lemma MadeByShift(cfg: Config, st: TrayState, inputs: seq<TickInput>, j: nat, k: nat)
    requires inputs != [] && !inputs[0].cancelled && Tick(cfg, st, inputs[0]).sleep != WaitForever
    requires k < |inputs[1..]| && MadeBy(cfg, Tick(cfg, st, inputs[0]).state, inputs[1..], j, k)
    ensures MadeBy(cfg, st, inputs, |Tick(cfg, st, inputs[0]).actions| + j, k + 1)
  {
    var r := Tick(cfg, st, inputs[0]);
    var rest := inputs[1..];
    var before := TraceBefore(cfg, r.state, rest, k);
    var acts := Tick(cfg, StateBefore(cfg, r.state, rest, k), rest[k]).actions;
    RunStep(cfg, st, inputs);
    StateBeforeStep(cfg, st, inputs, k);
    assert rest[k] == inputs[k + 1];
    SlotShift(r.actions, Run(cfg, r.state, rest).trace, before, acts, j);
  }

  /** Each position of a run's trace holds an action of some iteration that was not cancelled, taken from the state that iteration began in. */
  lemma {:induction false} RunIterations(cfg: Config, st: TrayState, inputs: seq<TickInput>)
    ensures forall j :: 0 <= j < |Run(cfg, st, inputs).trace| ==> FromIteration(cfg, st, inputs, j)
    decreases |inputs|
  {
    if inputs == [] || inputs[0].cancelled {
      assert Run(cfg, st, inputs).trace == [];
    } else {
      var r := Tick(cfg, st, inputs[0]);
      var rest := inputs[1..];
      if r.sleep != WaitForever {
        RunIterations(cfg, r.state, rest);
        RunStep(cfg, st, inputs);
      }
      forall j | 0 <= j < |Run(cfg, st, inputs).trace| ensures FromIteration(cfg, st, inputs, j) {
        if j < |r.actions| {
          MadeByFirst(cfg, st, inputs, j);
          assert MadeBy(cfg, st, inputs, j, 0);
        } else {
          var i := j - |r.actions|;
          assert FromIteration(cfg, r.state, rest, i);
          var k :| 0 <= k < |rest| && !rest[k].cancelled && MadeBy(cfg, r.state, rest, i, k);
          MadeByShift(cfg, st, inputs, i, k);
          assert inputs[k + 1] == rest[k];
          assert MadeBy(cfg, st, inputs, j, k + 1);
        }
      }
    }
  }

  /**
   * Every launch in a run is made by an iteration that was not paused, saw
   * a configured game running, and began with OBS not believed running.
   */
  lemma NoLaunchWithoutTrigger(cfg: Config, st: TrayState, inputs: seq<TickInput>)
    ensures forall j :: 0 <= j < |Run(cfg, st, inputs).trace| && Run(cfg, st, inputs).trace[j].Launch? ==>
      exists k :: 0 <= k < |inputs| && MadeBy(cfg, st, inputs, j, k)
                && !PauseCheck(StateBefore(cfg, st, inputs, k), inputs[k]).0
                && AnyGameRunning(inputs[k].table, cfg.gameProcessNames)
                && !StateBefore(cfg, st, inputs, k).obsRunning
  {
    var t := Run(cfg, st, inputs).trace;
    RunIterations(cfg, st, inputs);
    forall j | 0 <= j < |t| && t[j].Launch?
      ensures exists k :: 0 <= k < |inputs| && MadeBy(cfg, st, inputs, j, k)
                && !PauseCheck(StateBefore(cfg, st, inputs, k), inputs[k]).0
                && AnyGameRunning(inputs[k].table, cfg.gameProcessNames)
                && !StateBefore(cfg, st, inputs, k).obsRunning
    {
      assert FromIteration(cfg, st, inputs, j);
      var k :| 0 <= k < |inputs| && !inputs[k].cancelled && MadeBy(cfg, st, inputs, j, k);
      var s := StateBefore(cfg, st, inputs, k);
      var before := TraceBefore(cfg, st, inputs, k);
      var acts := Tick(cfg, s, inputs[k]).actions;
      TickLaunches(cfg, s, inputs[k]);
      assert t[j] == (before + acts)[j] == acts[j - |before|];
      assert acts[0] == t[j];
    }
  }

  /** With no OBS directory configured nothing is ever launched. */
  lemma {:induction false} EmptyDirNeverLaunches(cfg: Config, st: TrayState, inputs: seq<TickInput>)
    requires cfg.obsWorkingDir == ""
    ensures forall a :: a in Run(cfg, st, inputs).trace ==> !a.Launch?
    decreases |inputs|
  {
    if inputs != [] && !inputs[0].cancelled {
      var r := Tick(cfg, st, inputs[0]);
      if r.sleep != WaitForever {
        EmptyDirNeverLaunches(cfg, r.state, inputs[1..]);
      }
    }
  }

  /** Paused until unpaused, with no further menu calls: the run does nothing and keeps isObsRunning. */
  lemma {:induction false} PausedRunIsInert(cfg: Config, st: TrayState, inputs: seq<TickInput>)
    requires st.pause == PauseState(true, MaxTicks)
    requires forall i :: 0 <= i < |inputs| ==> inputs[i].command == NoCommand
    ensures Run(cfg, st, inputs).trace == []
    ensures Run(cfg, st, inputs).state == st
    decreases |inputs|
  {
    if inputs != [] && !inputs[0].cancelled {
      var r := Tick(cfg, st, inputs[0]);
      assert r == TickResult(st, [], SleepFor(cfg, st.obsRunning));
      if r.sleep != WaitForever {
        PausedRunIsInert(cfg, st, inputs[1..]);
      }
    }
  }

  /** Without a pause and a menu call, a tick leaves the pause switch untouched. */
  lemma NotPausedTick(cfg: Config, st: TrayState, inp: TickInput)
    requires st.pause == Initial && inp.command == NoCommand
    ensures PauseCheck(st, inp) == (false, Initial)
  {
  }

  /** The scan of a one-name list is the check of that name. */
  lemma SingleGameScan(table: seq<OsProcess>, name: string)
    ensures AnyGameRunning(table, [name]) == IsProcessRunning(table, name)
  {
    AnyGameRunningIff(table, [name]);
    if IsProcessRunning(table, name) {
      assert [name][0] == name;
    }
  }

  lemma GameFound(table: seq<OsProcess>, base: string, game: OsProcess)
    requires game in table && game.processName == base
    requires forall i :: 0 <= i < |base| ==> base[i] != '.' && !IsNameSeparator(base[i])
    ensures AnyGameRunning(table, [base + ".exe"])
  {
    BaseName(base);
    ProcessesByNameMembers(table, base);
    assert game in ProcessesByName(table, base);
    SingleGameScan(table, base + ".exe");
  }

  lemma GameGone(base: string, obs: OsProcess)
    requires obs.processName == ObsProcessName && !EqualsIgnoreCase(ObsProcessName, base)
    requires forall i :: 0 <= i < |base| ==> base[i] != '.' && !IsNameSeparator(base[i])
    ensures !AnyGameRunning([obs], [base + ".exe"])
    ensures ObsPids([obs]) == [obs.pid]
  {
    BaseName(base);
    assert ProcessesByName([obs], base) == [];
    assert Lower(ObsProcessName) == Lower(obs.processName);
    assert ProcessesByName([obs], ObsProcessName) == [obs];
    SingleGameScan([obs], base + ".exe");
  }

  /** The three iterations of the session below, each on what the scan finds. */
  lemma SessionTicks(cfg: Config, in1: TickInput, in2: TickInput, in3: TickInput, obsPid: nat)
    requires cfg.obsWorkingDir != "" && cfg.gameCheckInterval == 15000 && cfg.obsCheckInterval == 5000
    requires in1.command == NoCommand && in2.command == NoCommand && in3.command == NoCommand
    requires !in1.launchFails
    requires AnyGameRunning(in1.table, cfg.gameProcessNames) && AnyGameRunning(in2.table, cfg.gameProcessNames)
    requires !AnyGameRunning(in3.table, cfg.gameProcessNames) && ObsPids(in3.table) == [obsPid]
    ensures Tick(cfg, TrayState(Initial, false), in1) == TickResult(TrayState(Initial, true), [ObsLaunch(cfg, true)], Wait(5000))
    ensures Tick(cfg, TrayState(Initial, true), in2) == TickResult(TrayState(Initial, true), [], Wait(5000))
    ensures Tick(cfg, TrayState(Initial, true), in3) == TickResult(TrayState(Initial, false), [CloseAll([obsPid])], Wait(15000))
  {
    NotPausedTick(cfg, TrayState(Initial, false), in1);
    NotPausedTick(cfg, TrayState(Initial, true), in2);
    NotPausedTick(cfg, TrayState(Initial, true), in3);
  }

  /**
   * A game appears, stays while OBS runs, then exits: one launch, then one
   * close of every OBS process.
   */
  lemma GameSessionScenario(dir: string, base: string, game: OsProcess, obs: OsProcess)
    requires dir != "" && game.processName == base && obs.processName == ObsProcessName
    requires forall i :: 0 <= i < |base| ==> base[i] != '.' && !IsNameSeparator(base[i])
    requires !EqualsIgnoreCase(ObsProcessName, base)
    ensures var cfg := Config(dir, 15000, 5000, [base + ".exe"], false);
      var inputs := [
        TickInput(NoCommand, 0, [game], false, false),
        TickInput(NoCommand, 1, [game, obs], false, false),
        TickInput(NoCommand, 2, [obs], false, false)];
      Run(cfg, TrayState(Initial, false), inputs)
        == RunOutcome(TrayState(Initial, false), [ObsLaunch(cfg, true), CloseAll([obs.pid])])
  {
    var cfg := Config(dir, 15000, 5000, [base + ".exe"], false);
    var in1 := TickInput(NoCommand, 0, [game], false, false);
    var in2 := TickInput(NoCommand, 1, [game, obs], false, false);
    var in3 := TickInput(NoCommand, 2, [obs], false, false);
    GameFound([game], base, game);
    GameFound([game, obs], base, game);
    GameGone(base, obs);
    SessionTicks(cfg, in1, in2, in3, obs.pid);
    SessionRun(cfg, in1, in2, in3, obs.pid);
  }

  /** The run over the three iterations, from what each of them does. */
  lemma SessionRun(cfg: Config, in1: TickInput, in2: TickInput, in3: TickInput, obsPid: nat)
    requires !in1.cancelled && !in2.cancelled && !in3.cancelled
    requires Tick(cfg, TrayState(Initial, false), in1) == TickResult(TrayState(Initial, true), [ObsLaunch(cfg, true)], Wait(5000))
    requires Tick(cfg, TrayState(Initial, true), in2) == TickResult(TrayState(Initial, true), [], Wait(5000))
    requires Tick(cfg, TrayState(Initial, true), in3) == TickResult(TrayState(Initial, false), [CloseAll([obsPid])], Wait(15000))
    ensures Run(cfg, TrayState(Initial, false), [in1, in2, in3])
      == RunOutcome(TrayState(Initial, false), [ObsLaunch(cfg, true), CloseAll([obsPid])])
  {
    var st0 := TrayState(Initial, false);
    var st1 := TrayState(Initial, true);
    RunStep(cfg, st1, [in3]);
    assert [in3][1..] == [];
    assert Run(cfg, st1, [in3]) == RunOutcome(st0, [CloseAll([obsPid])]);
    RunStep(cfg, st1, [in2, in3]);
    assert [in2, in3][1..] == [in3];
    assert Run(cfg, st1, [in2, in3]) == RunOutcome(st0, [] + [CloseAll([obsPid])]);
    RunStep(cfg, st0, [in1, in2, in3]);
    assert [in1, in2, in3][1..] == [in2, in3];
  }

  /** An iteration that asks for an endless delay ends the loop. */
  lemma RunStops(cfg: Config, st: TrayState, inputs: seq<TickInput>)
    requires inputs != [] && !inputs[0].cancelled && Tick(cfg, st, inputs[0]).sleep == WaitForever
    ensures Run(cfg, st, inputs) == RunOutcome(Tick(cfg, st, inputs[0]).state, Tick(cfg, st, inputs[0]).actions)
  {
  }

  /** One iteration of the loop that neither stops nor waits for ever, followed by the rest. */
  lemma RunStep(cfg: Config, st: TrayState, inputs: seq<TickInput>)
    requires inputs != [] && !inputs[0].cancelled && Tick(cfg, st, inputs[0]).sleep != WaitForever
    ensures var r := Tick(cfg, st, inputs[0]);
      Run(cfg, st, inputs) == RunOutcome(Run(cfg, r.state, inputs[1..]).state, r.actions + Run(cfg, r.state, inputs[1..]).trace)
  {
  }

  // ---- Shutdown ----

  /** OnExit: when OBS is believed running, the first obs64 process found is killed. */
  function ExitActions(obsRunning: bool, table: seq<OsProcess>): seq<Action> {
    KillFirst(obsRunning, table, ObsExeName)
  }

  /** The kill of the first process found under name, when OBS is believed running. */
  function KillFirst(obsRunning: bool, table: seq<OsProcess>, name: string): seq<Action> {
    if obsRunning && GetProcessID(table, name) != -1 then [Kill(GetProcessID(table, name))] else []
  }

  /** OnExit kills at most one process, and only an obs64 one, and only when OBS is believed running. */
  lemma ExitKillsOneObs(obsRunning: bool, table: seq<OsProcess>)
    ensures |ExitActions(obsRunning, table)| <= 1
    ensures ExitActions(obsRunning, table) != [] <==> obsRunning && IsProcessRunning(table, ObsExeName)
    ensures forall a :: a in ExitActions(obsRunning, table) ==>
      a.Kill? && exists i :: 0 <= i < |table| && table[i].pid == a.pid && EqualsIgnoreCase(table[i].processName, ObsProcessName)
  {
    ObsBaseName();
    KillFirstFacts(obsRunning, table, ObsExeName, ObsProcessName);
  }

  lemma KillFirstFacts(obsRunning: bool, table: seq<OsProcess>, name: string, base: string)
    requires FileNameWithoutExtension(name) == base
    ensures |KillFirst(obsRunning, table, name)| <= 1
    ensures KillFirst(obsRunning, table, name) != [] <==> obsRunning && IsProcessRunning(table, name)
    ensures forall a :: a in KillFirst(obsRunning, table, name) ==>
      a.Kill? && exists i :: 0 <= i < |table| && table[i].pid == a.pid && EqualsIgnoreCase(table[i].processName, base)
  {
  }

  /** obs64.exe is obs64 with the extension. */
  lemma ExeNameParts()
    ensures ObsProcessName + ".exe" == ObsExeName
  {
  }

  /** obs64 has no dot and no separator. */
  lemma PlainObsName()
    ensures forall i :: 0 <= i < |ObsProcessName| ==> ObsProcessName[i] != '.' && !IsNameSeparator(ObsProcessName[i])
  {
    var b := ObsProcessName;
    assert |b| == 5 && b[0] == 'o' && b[1] == 'b' && b[2] == 's' && b[3] == '6' && b[4] == '4';
  }

  /** On the shutdown path the process is looked up as obs64. */
  lemma ObsBaseName()
    ensures FileNameWithoutExtension(ObsExeName) == ObsProcessName
  {
    PlainObsName();
    ExeNameParts();
    BaseName(ObsProcessName);
  }

  /** The static state of class Program that the monitor uses. */
  class TrayProgram {
    var obsWorkingDir: string
    var gameCheckInterval: int
    var obsCheckInterval: int
    var gameProcessNames: seq<string>
    var addToStartup: bool
    var isObsRunning: bool
    const pauseManager: PauseManager

    function Settings(): Config
      reads this
    {
      Config(obsWorkingDir, gameCheckInterval, obsCheckInterval, gameProcessNames, addToStartup)
    }

    function State(): TrayState
      reads this, pauseManager
    {
      TrayState(pauseManager.State(), isObsRunning)
    }

    ghost predicate Valid()
      reads this, pauseManager
    {
      pauseManager.Valid()
    }

    /** The static initialisers. */
    constructor()
      ensures Valid() && fresh(pauseManager)
      ensures Settings() == Config("", 0, 0, [], false)
      ensures State() == TrayState(Initial, false)
    {
      obsWorkingDir := "";
      gameCheckInterval := 0;
      obsCheckInterval := 0;
      gameProcessNames := [];
      addToStartup := false;
      isObsRunning := false;
      pauseManager := new PauseManager();
    }

    /**
     * ReadConfigFile: the game list is cleared, then the lines are read one
     * by one; false is the exception of File.ReadAllLines or int.Parse,
     * with the settings as far as they got.
     */
    method ReadConfigFile(file: Option<seq<string>>) returns (ok: bool)
      modifies this
      ensures Settings() == TrayConfig.ReadConfigFile(old(Settings()), file).config
      ensures ok == TrayConfig.ReadConfigFile(old(Settings()), file).ok
      ensures isObsRunning == old(isObsRunning)
    {
      gameProcessNames := [];
      if file.None? {
        return false;
      }
      var lines := file.value;
      ghost var cleared := Settings();
      ghost var ks := Kinds(lines);
      for i := 0 to |lines|
        invariant ReadLines(cleared, ks[..i]) == ReadResult(Settings(), true)
        invariant isObsRunning == old(isObsRunning)
      {
        var kind := Classify(lines[i]);
        ReadLinesSnoc(cleared, ks, i);
        var applied := ApplyKind(kind);
        if !applied {
          ReadLinesStopped(cleared, ks, i + 1);
          return false;
        }
      }
      assert ks[..|lines|] == ks;
      ok := true;
    }

    /** The body of the foreach on one classified line; false when int.Parse throws. */
    method ApplyKind(kind: LineKind) returns (applied: bool)
      modifies this
      ensures applied ==> ApplyLine(old(Settings()), kind) == Some(Settings())
      ensures !applied ==> ApplyLine(old(Settings()), kind).None? && Settings() == old(Settings())
      ensures isObsRunning == old(isObsRunning)
    {
      applied := true;
      match kind
      case Setting(key, value, number) =>
        if key == GameIntervalKey {
          if number.None? {
            return false;
          }
          gameCheckInterval := number.value;
        } else if key == ObsIntervalKey {
          if number.None? {
            return false;
          }
          obsCheckInterval := number.value;
        } else if key == ObsDirKey {
          obsWorkingDir := value;
        } else if key == StartupKey {
          addToStartup := value == "1";
        }
      case GameName(name) =>
        gameProcessNames := gameProcessNames + [name];
      case Skipped =>
    }

    /** UpdateIntervals, the handler of the settings dialog's IntervalUpdated event. */
    method UpdateIntervals(gameInterval: int, obsInterval: int)
      modifies this
      ensures Settings() == old(Settings()).(gameCheckInterval := gameInterval, obsCheckInterval := obsInterval)
      ensures isObsRunning == old(isObsRunning)
    {
      gameCheckInterval := gameInterval;
      obsCheckInterval := obsInterval;
    }

    /** The foreach over gameProcessNames. */
    method ScanGames(table: seq<OsProcess>) returns (any: bool)
      ensures any == AnyGameRunning(table, gameProcessNames)
    {
      any := false;
      for i := 0 to |gameProcessNames|
        invariant any <==> AnyGameRunning(table, gameProcessNames[..i])
      {
        assert gameProcessNames[..i + 1][..i] == gameProcessNames[..i];
        if IsProcessRunning(table, gameProcessNames[i]) {
          any := true;
        }
      }
      assert gameProcessNames[..|gameProcessNames|] == gameProcessNames;
    }

    /** One iteration of MonitorProcessesAsync, after the menu call of the input. */
    method MonitorTick(inp: TickInput) returns (actions: seq<Action>, sleep: Sleep)
      requires Valid()
      modifies this, pauseManager
      ensures Valid()
      ensures TickResult(State(), actions, sleep) == Tick(old(Settings()), old(State()), inp)
      ensures Settings() == old(Settings())
    {
      match inp.command {
        case NoCommand =>
        case TimedPause(d) =>
          var _ := pauseManager.Pause(inp.now, d);
        case IndefinitePause =>
          pauseManager.PauseIndefinitely();
        case Unpause =>
          pauseManager.Unpause();
      }
      var paused := pauseManager.IsPaused(inp.now);
      actions := [];
      if !paused {
        var any := ScanGames(inp.table);
        if any && !isObsRunning {
          if obsWorkingDir != "" {
            var obsExePath := Combine(obsWorkingDir, ObsExeName);
            actions := [Launch(obsExePath, LaunchOptions, obsWorkingDir, !inp.launchFails)];
            if inp.launchFails {
              return actions, NoWait;
            }
            isObsRunning := true;
          }
        } else if !any && isObsRunning {
          actions := [CloseAll(ObsPids(inp.table))];
          isObsRunning := false;
        }
      }
      sleep := Delay(if isObsRunning then obsCheckInterval else gameCheckInterval);
    }

    /** MonitorProcessesAsync over a series of iterations; the trace is what it did. */
    method MonitorProcesses(inputs: seq<TickInput>) returns (trace: seq<Action>)
      requires Valid()
      modifies this, pauseManager
      ensures Valid()
      ensures RunOutcome(State(), trace) == Run(old(Settings()), old(State()), inputs)
      ensures Settings() == old(Settings())
    {
      ghost var cfg := Settings();
      ghost var st0 := State();
      trace := [];
      var i := 0;
      var stopped := false;
      while i < |inputs| && !inputs[i].cancelled && !stopped
        invariant 0 <= i <= |inputs|
        invariant Valid() && Settings() == cfg
        invariant !stopped ==> Run(cfg, st0, inputs) == RunOutcome(Run(cfg, State(), inputs[i..]).state, trace + Run(cfg, State(), inputs[i..]).trace)
        invariant stopped ==> Run(cfg, st0, inputs) == RunOutcome(State(), trace)
      {
        ghost var before := State();
        var actions, sleep := MonitorTick(inputs[i]);
        ghost var after := State();
        assert Tick(cfg, before, inputs[i]) == TickResult(after, actions, sleep);
        assert inputs[i..][0] == inputs[i] && inputs[i..][1..] == inputs[i + 1..];
        if sleep == WaitForever {
          RunStops(cfg, before, inputs[i..]);
          stopped := true;
        } else {
          RunStep(cfg, before, inputs[i..]);
          ghost var rest := Run(cfg, after, inputs[i + 1..]);
          assert trace + (actions + rest.trace) == (trace + actions) + rest.trace;
        }
        trace := trace + actions;
        i := i + 1;
      }
      if !stopped {
        assert trace + [] == trace;
      }
    }

    /** OnExit, after the token is cancelled: the kill it makes when OBS is believed running. */
    method OnExit(table: seq<OsProcess>) returns (actions: seq<Action>)
      ensures actions == ExitActions(isObsRunning, table)
    {
      actions := [];
      if isObsRunning {
        var obsPID := GetProcessID(table, ObsExeName);
        if obsPID != -1 {
          actions := [Kill(obsPID)];
        }
      }
    }
  }
}
