/**
 * The Python service (service.py): the psutil searches for games and for
 * OBS, the command start_obs runs, the stop_obs decision and the body of
 * main's polling loop, which tracks the OBS it started itself and reloads
 * the whitelist when config.json changes.
 *
 * A process table is what one psutil.process_iter yields; the loop body is
 * given one table for its scans and a second for the search start_obs
 * makes two seconds after spawning. Reading config.json is an input: its
 * modification time (None when getmtime raises FileNotFoundError) and what
 * load_config returns.
 */
module Service {
  import opened Wrappers
  import opened Search
  import opened Text

  /** POLL_INTERVAL: the seconds main sleeps after each pass. */
  const PollInterval: nat := 5

  const StartReplayBuffer: string := "--startreplaybuffer"
  const MinimizeToTray: string := "--minimize-to-tray"
  const FlatpakRun: string := "flatpak run"
  const ObsName: string := "obs"
  const FlatpakId: string := "com.obsproject.studio"

  const LaunchMessage: string := " process detected, launching OBS..."
  const CloseMessage: string := " process no longer present, closing OBS..."
  const GenericCloseMessage: string := "Whitelisted game process no longer present, closing OBS..."

  /**
   * A process as psutil reports it: its pid, its creation time (which
   * psutil.Process.is_running compares, so a reused pid is another
   * process), its name and its command line, None when reading it is
   * denied.
   */
  datatype PsProcess = PsProcess(pid: nat, created: int, name: string, cmdline: Option<seq<string>>)

  /** The identity a psutil.Process object keeps. */
  datatype Tracked = Tracked(pid: nat, created: int)

  /** `proc.info['cmdline'] or []`: a denied command line reads as empty. */
  function Args(p: PsProcess): seq<string> {
    p.cmdline.GetOr([])
  }

  /** The arguments that are not blank, in order. */
  function NonBlank(args: seq<string>): (r: seq<string>)
    ensures forall a :: a in r <==> a in args && Strip(a) != []
  {
    if args == [] then []
    else if Strip(args[0]) != [] then [args[0]] + NonBlank(args[1..])
    else NonBlank(args[1..])
  }

  /** The command line is_process_running compares: non-blank arguments, spaces between, lower case, '/' for '\'. */
  function NormalisedCmdline(args: seq<string>): (r: string)
    ensures '\\' !in r
  {
    ReplaceChar(Lower(Join(" ", NonBlank(args))), '\\', '/')
  }

  /** One step of is_process_running: the lowercased identifier occurs in the name or the normalised command line. */
  predicate MatchesIdentifier(p: PsProcess, target: string) {
    Contains(Lower(p.name), target) || Contains(NormalisedCmdline(Args(p)), target)
  }

  /** is_process_running: its True is true here, and falling off the loop (None) is false. */
  predicate IsProcessRunning(table: seq<PsProcess>, identifier: string) {
    AnyWhere(table, p => MatchesIdentifier(p, Lower(identifier)))
  }

  /** is_process_running holds exactly when some process matches the lowercased identifier. */
  lemma IsProcessRunningIff(table: seq<PsProcess>, identifier: string)
    ensures IsProcessRunning(table, identifier)
      <==> exists i :: 0 <= i < |table| && MatchesIdentifier(table[i], Lower(identifier))
  {
    AnyWhereIff(table, p => MatchesIdentifier(p, Lower(identifier)));
  }

  /** The empty identifier is a substring of every name, so it is found whenever any process exists. */
  lemma EmptyIdentifierMatchesAny(table: seq<PsProcess>)
    ensures IsProcessRunning(table, "") <==> table != []
  {
    IsProcessRunningIff(table, "");
    if table != [] {
      EmptyContained(Lower(table[0].name));
      assert MatchesIdentifier(table[0], Lower(""));
    }
  }

  /** A string containing sub contains every character of sub. */
  lemma ContainsChar(s: string, sub: string, c: char)
    requires Contains(s, sub) && c in sub
    ensures c in s
  {
    var i :| 0 <= i <= |s| - |sub| && OccursAt(s, sub, i);
    var k :| 0 <= k < |sub| && sub[k] == c;
    assert s[i..i + |sub|][k] == s[i + k];
  }

  /**
   * The identifier is lowercased but its backslashes are not turned into
   * slashes, so an identifier with a backslash can only match a process
   * name, never a command line.
   */
  lemma BackslashMatchesNameOnly(table: seq<PsProcess>, identifier: string)
    requires '\\' in identifier
    ensures IsProcessRunning(table, identifier)
      <==> exists i :: 0 <= i < |table| && Contains(Lower(table[i].name), Lower(identifier))
  {
    IsProcessRunningIff(table, identifier);
    var target := Lower(identifier);
    var k :| 0 <= k < |identifier| && identifier[k] == '\\';
    assert target[k] == '\\';
    forall i | 0 <= i < |table|
      ensures !Contains(NormalisedCmdline(Args(table[i])), target)
    {
      if Contains(NormalisedCmdline(Args(table[i])), target) {
        ContainsChar(NormalisedCmdline(Args(table[i])), target, '\\');
      }
    }
  }

  /** What is_obs_running and get_obs_process accept: the name "obs", or the flatpak id in the joined command line. */
  predicate ObsLike(name: string, args: seq<string>) {
    Lower(name) == ObsName || Contains(Lower(Join(" ", args)), FlatpakId)
  }

  predicate IsObsProcess(p: PsProcess) {
    ObsLike(p.name, Args(p))
  }

  /** is_obs_running. */
  predicate IsObsRunning(table: seq<PsProcess>) {
    AnyWhere(table, IsObsProcess)
  }

  /** get_obs_process: the first OBS-like process, as the identity a psutil.Process keeps. */
  function GetObsProcess(table: seq<PsProcess>): (r: Option<Tracked>)
    ensures r.Some? ==> exists i :: 0 <= i < |table| && table[i].pid == r.value.pid && table[i].created == r.value.created
  {
    match FirstWhere(table, IsObsProcess)
    case None => None
    case Some(i) => Some(Tracked(table[i].pid, table[i].created))
  }

  /**
   * The two searches agree: get_obs_process finds a process exactly when
   * is_obs_running is true, and what it finds is the first OBS-like one.
   */
  lemma ObsSearchesAgree(table: seq<PsProcess>)
    ensures IsObsRunning(table) <==> GetObsProcess(table).Some?
    ensures IsObsRunning(table) <==> exists i :: 0 <= i < |table| && IsObsProcess(table[i])
    ensures GetObsProcess(table).Some? ==>
      exists i :: 0 <= i < |table| && IsObsProcess(table[i])
        && (forall j :: 0 <= j < i ==> !IsObsProcess(table[j]))
        && GetObsProcess(table) == Some(Tracked(table[i].pid, table[i].created))
  {
    AnyWhereIff(table, IsObsProcess);
    FirstWhereFacts(table, IsObsProcess);
  }

  /**
   * The check main and stop_obs make of the tracked process: the stricter
   * test, or "obs" anywhere in its lowercased name.
   */
  predicate StillObs(name: string, args: seq<string>) {
    ObsLike(name, args) || Contains(Lower(name), ObsName)
  }

  /** The entry of the table that is the tracked process: same pid and same creation time. */
  function Find(table: seq<PsProcess>, t: Tracked): (r: Option<nat>)
    ensures r.Some? ==> r.value < |table| && table[r.value].pid == t.pid && table[r.value].created == t.created
  {
    var same := (p: PsProcess) => p.pid == t.pid && p.created == t.created;
    FirstWhereFacts(table, same);
    FirstWhere(table, same)
  }

  /**
   * The tracked process counts as our running OBS when is_running holds,
   * its command line can be read, and it still looks like OBS.
   */
  predicate TrackedAlive(tracked: Option<Tracked>, table: seq<PsProcess>) {
    tracked.Some? &&
    match Find(table, tracked.value)
    case None => false
    case Some(i) => table[i].cmdline.Some? && StillObs(table[i].name, table[i].cmdline.value)
  }

  /** The tracked process is kept exactly when it is still running, readable and OBS-like. */
  lemma TrackedAliveIff(t: Tracked, table: seq<PsProcess>)
    ensures TrackedAlive(Some(t), table) <==>
      exists i :: 0 <= i < |table| && table[i].pid == t.pid && table[i].created == t.created
        && table[i].cmdline.Some? && StillObs(table[i].name, table[i].cmdline.value)
        && forall j :: 0 <= j < i ==> !(table[j].pid == t.pid && table[j].created == t.created)
  {
    FirstWhereFacts(table, (p: PsProcess) => p.pid == t.pid && p.created == t.created);
  }

  /** The actions the service records: log_action's message, a Popen with what start_obs found, a terminate. */
  datatype ServiceAction = Log(message: string) | Spawn(command: seq<string>, found: Option<Tracked>) | Terminate(pid: nat)

  /** The command start_obs hands to Popen. */
  function StartCommand(obsPath: string): (r: seq<string>)
    ensures |r| >= 2 && r[|r| - 2..] == [StartReplayBuffer, MinimizeToTray]
  {
    (if StartsWith(obsPath, FlatpakRun) then Words(obsPath) else [obsPath]) + [StartReplayBuffer, MinimizeToTray]
  }

  /**
   * A flatpak command is split into its words and a plain path is passed
   * whole; either way the two flags follow.
   */
  lemma StartCommandShape(obsPath: string)
    ensures StartsWith(obsPath, FlatpakRun) ==> StartCommand(obsPath) == Words(obsPath) + [StartReplayBuffer, MinimizeToTray]
    ensures !StartsWith(obsPath, FlatpakRun) ==> StartCommand(obsPath) == [obsPath, StartReplayBuffer, MinimizeToTray]
  {
  }

  /** The result of start_obs: what it records and the process it returns. */
  datatype StartResult = StartResult(actions: seq<ServiceAction>, found: Option<Tracked>)

  /**
   * start_obs: when Popen raises nothing is spawned and None is returned;
   * otherwise the process is the first OBS-like one two seconds later.
   */
  function StartObs(obsPath: string, spawnFails: bool, afterStart: seq<PsProcess>): (r: StartResult)
    ensures spawnFails ==> r == StartResult([], None)
    ensures !spawnFails ==> r.actions == [Spawn(StartCommand(obsPath), r.found)] && r.found == GetObsProcess(afterStart)
  {
    if spawnFails then StartResult([], None)
    else
      var found := GetObsProcess(afterStart);
      StartResult([Spawn(StartCommand(obsPath), found)], found)
  }

  /** stop_obs: a terminate only for a tracked process that is running, readable and still OBS-like. */
  function StopObs(tracked: Option<Tracked>, table: seq<PsProcess>): (r: seq<ServiceAction>)
    ensures r == [] || (tracked.Some? && r == [Terminate(tracked.value.pid)])
    ensures r != [] <==> TrackedAlive(tracked, table)
  {
    if TrackedAlive(tracked, table) then [Terminate(tracked.value.pid)] else []
  }

  /** The first whitelisted game that is_process_running finds, in list order. */
  function FirstRunningGame(table: seq<PsProcess>, games: seq<string>): (r: Option<string>)
    ensures r.Some? ==> r.value in games
  {
    match FirstWhere(games, g => IsProcessRunning(table, g))
    case None => None
    case Some(i) => Some(games[i])
  }

  /** The game found is the first entry of the list that is running; None when no entry is. */
  lemma FirstRunningGameIsFirst(table: seq<PsProcess>, games: seq<string>)
    ensures FirstRunningGame(table, games).None? <==> forall j :: 0 <= j < |games| ==> !IsProcessRunning(table, games[j])
    ensures FirstRunningGame(table, games).Some? ==>
      exists i :: 0 <= i < |games| && IsProcessRunning(table, games[i])
        && (forall j :: 0 <= j < i ==> !IsProcessRunning(table, games[j]))
        && FirstRunningGame(table, games) == Some(games[i])
  {
    FirstWhereFacts(games, g => IsProcessRunning(table, g));
  }

  /** What json.load gives, for the two keys the service reads; None when load_config returns None or {}. */
  datatype JsonConfig = JsonConfig(obsPath: Option<string>, games: Option<seq<string>>)

  /** The variables main keeps between passes. */
  datatype ServiceState = ServiceState(obsPath: string, whitelist: seq<string>, lastModTime: int,
                                      tracked: Option<Tracked>, lastGame: Option<string>)

  /** One pass of the loop: not polled for the last input, tracked already changed, or stopped at a reload. */
  datatype ServiceInput = ServiceInput(
    interrupted: bool,
    modTime: Option<int>,
    loaded: Option<JsonConfig>,
    detected: string,
    table: seq<PsProcess>,
    spawnFails: bool,
    afterStart: seq<PsProcess>)

  /**
   * What a pass leaves: the variables, what it did, whether main returns,
   * and the seconds slept before the next pass (none after the pass that
   * ends main).
   */
  datatype StepResult = StepResult(state: ServiceState, actions: seq<ServiceAction>, exit: bool, sleep: nat)

  function SetOf(games: seq<string>): set<string> {
    set g | g in games
  }

  /** The result of the reload check: the new variables, and whether a reload left the whitelist empty. */
  datatype Reloaded = Reloaded(state: ServiceState, emptied: bool)

  /**
   * The modification-time check: a changed time is recorded, and when
   * load_config gives a config the path is reread (detect_obs_path as
   * its default) and the whitelist replaced if the set of names differs.
   */
  function Reload(st: ServiceState, modTime: int, loaded: Option<JsonConfig>, detected: string): (r: Reloaded)
    ensures modTime == st.lastModTime ==> r == Reloaded(st, false)
    ensures r.state.tracked == st.tracked && r.state.lastGame == st.lastGame && r.state.lastModTime == modTime
    ensures r.emptied ==> r.state.whitelist == []
  {
    if modTime == st.lastModTime then Reloaded(st, false)
    else match loaded
      case None => Reloaded(st.(lastModTime := modTime), false)
      case Some(c) =>
        var newGames := c.games.GetOr([]);
        var whitelist := if SetOf(st.whitelist) != SetOf(newGames) then newGames else st.whitelist;
        Reloaded(st.(lastModTime := modTime, obsPath := c.obsPath.GetOr(detected), whitelist := whitelist), whitelist == [])
  }

  /** The whitelist is replaced only when its set of names changes; the same names in another order keep the old list. */
  lemma ReloadWhitelist(st: ServiceState, modTime: int, c: JsonConfig, detected: string)
    requires modTime != st.lastModTime
    ensures var r := Reload(st, modTime, Some(c), detected);
      (SetOf(st.whitelist) == SetOf(c.games.GetOr([])) ==> r.state.whitelist == st.whitelist)
      && (SetOf(st.whitelist) != SetOf(c.games.GetOr([])) ==> r.state.whitelist == c.games.GetOr([]))
      && r.state.obsPath == c.obsPath.GetOr(detected)
      && (r.emptied <==> r.state.whitelist == [])
  {
  }

  /** A reload that cannot be parsed changes nothing but the recorded time. */
  lemma FailedReloadKeepsConfig(st: ServiceState, modTime: int, detected: string)
    ensures Reload(st, modTime, None, detected) == Reloaded(st.(lastModTime := modTime), false)
  {
  }

  /** The message log_action writes before closing OBS; an empty or missing game name gives the generic one. */
  function CloseLog(lastGame: Option<string>): string {
    if lastGame.Some? && lastGame.value != [] then lastGame.value + CloseMessage else GenericCloseMessage
  }

  /** Game detection, tracked-process validation and the start/stop decision, after the reload check. */
  function Scan(st: ServiceState, inp: ServiceInput): (r: StepResult)
    ensures !r.exit && r.sleep == PollInterval
  {
    var game := FirstRunningGame(inp.table, st.whitelist);
    var alive := TrackedAlive(st.tracked, inp.table);
    if game.Some? then
      if alive then StepResult(st, [], false, PollInterval)
      else if !IsObsRunning(inp.table) then
        var started := StartObs(st.obsPath, inp.spawnFails, inp.afterStart);
        StepResult(st.(tracked := started.found, lastGame := game), [Log(game.value + LaunchMessage)] + started.actions, false, PollInterval)
      else StepResult(st.(tracked := None), [], false, PollInterval)
    else if alive then
      StepResult(st.(tracked := None, lastGame := None), [Log(CloseLog(st.lastGame))] + StopObs(st.tracked, inp.table), false, PollInterval)
    else StepResult(st.(tracked := None), [], false, PollInterval)
  }

  /**
   * One pass of main's loop. A KeyboardInterrupt stops the tracked OBS and
   * ends main; so does a missing config file; a reload that empties the
   * whitelist stops it, forgets it and ends main.
   */
  function Step(st: ServiceState, inp: ServiceInput): (r: StepResult) {
    if inp.interrupted || inp.modTime.None? then StepResult(st, StopObs(st.tracked, inp.table), true, 0)
    else
      var re := Reload(st, inp.modTime.value, inp.loaded, inp.detected);
      if re.emptied then StepResult(re.state.(tracked := None), StopObs(st.tracked, inp.table), true, 0)
      else Scan(re.state, inp)
  }

  /** The passes run, with what they record; exited when main returned. */
  datatype RunOutcome = RunOutcome(state: ServiceState, trace: seq<ServiceAction>, exited: bool)

  function Run(st: ServiceState, inputs: seq<ServiceInput>): RunOutcome
    decreases |inputs|
  {
    if inputs == [] then RunOutcome(st, [], false)
    else
      var s := Step(st, inputs[0]);
      if s.exit then RunOutcome(s.state, s.actions, true)
      else
        var rest := Run(s.state, inputs[1..]);
        RunOutcome(rest.state, s.actions + rest.trace, rest.exited)
  }

  /** The outcome of a run after the passes that recorded done. */
  function Glued(done: seq<ServiceAction>, rest: RunOutcome): RunOutcome {
    RunOutcome(rest.state, done + rest.trace, rest.exited)
  }

  /**
   * The start of main: no config or no modification time ends it, and so
   * does an empty whitelist; otherwise the loop starts tracking nothing.
   */
  function Startup(config: Option<JsonConfig>, modTime: Option<int>, detected: string): (r: Option<ServiceState>)
    ensures r.Some? <==> config.Some? && modTime.Some? && config.value.games.GetOr([]) != []
    ensures r.Some? ==>
      r.value.whitelist == config.value.games.value && r.value.tracked == None
      && r.value.lastGame == None && r.value.lastModTime == modTime.value
      && r.value.obsPath == config.value.obsPath.GetOr(detected)
  {
    if config.None? || modTime.None? then None
    else
      var games := config.value.games.GetOr([]);
      if games == [] then None
      else Some(ServiceState(config.value.obsPath.GetOr(detected), games, modTime.value, None, None))
  }

  /** The pass is not cut short: no interrupt, the file is there, and a reload did not empty the whitelist. */
  predicate Passes(st: ServiceState, inp: ServiceInput) {
    !inp.interrupted && inp.modTime.Some? && !Reload(st, inp.modTime.value, inp.loaded, inp.detected).emptied
  }

  /** The variables the scan of a passing pass sees. */
  function ScanState(st: ServiceState, inp: ServiceInput): ServiceState
    requires inp.modTime.Some?
  {
    Reload(st, inp.modTime.value, inp.loaded, inp.detected).state
  }

  predicate Spawns(acts: seq<ServiceAction>) {
    exists k :: 0 <= k < |acts| && acts[k].Spawn?
  }

  predicate Stops(acts: seq<ServiceAction>) {
    exists k :: 0 <= k < |acts| && acts[k].Terminate?
  }

  /**
   * A pass ends main exactly on an interrupt, a missing config file or a
   * reload that empties the whitelist; every other pass is followed by
   * time.sleep(POLL_INTERVAL).
   */
  lemma StepSleep(st: ServiceState, inp: ServiceInput)
    ensures Step(st, inp).exit <==>
      inp.interrupted || inp.modTime.None? || Reload(st, inp.modTime.value, inp.loaded, inp.detected).emptied
    ensures Step(st, inp).sleep == if Step(st, inp).exit then 0 else PollInterval
  {
  }

  /**
   * OBS is spawned exactly when the pass reaches the scan, a whitelisted
   * game is running, our OBS is not alive, no other OBS is found and
   * Popen does not raise; the game is then remembered, and the process
   * start_obs found becomes the tracked one.
   */
  lemma StepStarts(st: ServiceState, inp: ServiceInput)
    ensures var r := Step(st, inp);
      Spawns(r.actions) <==>
        (Passes(st, inp) && FirstRunningGame(inp.table, ScanState(st, inp).whitelist).Some?
         && !TrackedAlive(st.tracked, inp.table) && !IsObsRunning(inp.table) && !inp.spawnFails)
    ensures var r := Step(st, inp);
      Passes(st, inp) && FirstRunningGame(inp.table, ScanState(st, inp).whitelist).Some?
        && !TrackedAlive(st.tracked, inp.table) && !IsObsRunning(inp.table) ==>
        r.state.lastGame == FirstRunningGame(inp.table, ScanState(st, inp).whitelist)
        && r.state.tracked == StartObs(ScanState(st, inp).obsPath, inp.spawnFails, inp.afterStart).found
        && r.actions == [Log(FirstRunningGame(inp.table, ScanState(st, inp).whitelist).value + LaunchMessage)]
             + StartObs(ScanState(st, inp).obsPath, inp.spawnFails, inp.afterStart).actions
  {
    var r := Step(st, inp);
    if Spawns(r.actions) {
      var k :| 0 <= k < |r.actions| && r.actions[k].Spawn?;
    }
    if Passes(st, inp) && FirstRunningGame(inp.table, ScanState(st, inp).whitelist).Some?
        && !TrackedAlive(st.tracked, inp.table) && !IsObsRunning(inp.table) && !inp.spawnFails {
      assert r.actions[1].Spawn?;
    }
  }

  /** In a pass where a game runs, ours is not alive and another OBS is found, nothing is started or stopped and nothing is tracked. */
  lemma ExternalObsLeftAlone(st: ServiceState, inp: ServiceInput)
    requires Passes(st, inp) && FirstRunningGame(inp.table, ScanState(st, inp).whitelist).Some?
    requires !TrackedAlive(st.tracked, inp.table) && IsObsRunning(inp.table)
    ensures Step(st, inp).actions == [] && Step(st, inp).state == ScanState(st, inp).(tracked := None)
  {
  }

  /** While our OBS is alive nothing is spawned, whatever the table shows. */
  lemma NoStartWhileTrackedAlive(st: ServiceState, inp: ServiceInput)
    requires TrackedAlive(st.tracked, inp.table)
    ensures !Spawns(Step(st, inp).actions)
  {
    StepStarts(st, inp);
  }

  /**
   * A terminate is sent only to the tracked process, and exactly when it
   * is alive and either the pass ends main or no whitelisted game runs;
   * after a stop during the scan both it and the remembered game are gone.
   */
  lemma StepStops(st: ServiceState, inp: ServiceInput)
    ensures var r := Step(st, inp);
      forall k :: 0 <= k < |r.actions| && r.actions[k].Terminate? ==>
        st.tracked.Some? && r.actions[k].pid == st.tracked.value.pid
    ensures var r := Step(st, inp);
      Stops(r.actions) <==>
        (TrackedAlive(st.tracked, inp.table)
         && (!Passes(st, inp) || FirstRunningGame(inp.table, ScanState(st, inp).whitelist).None?))
    ensures var r := Step(st, inp);
      Passes(st, inp) && Stops(r.actions) ==>
        r.state.tracked == None && r.state.lastGame == None
        && r.actions == [Log(CloseLog(st.lastGame)), Terminate(st.tracked.value.pid)]
  {
    var r := Step(st, inp);
    if Stops(r.actions) {
      var k :| 0 <= k < |r.actions| && r.actions[k].Terminate?;
    }
    if TrackedAlive(st.tracked, inp.table) && (!Passes(st, inp) || FirstRunningGame(inp.table, ScanState(st, inp).whitelist).None?) {
      assert r.actions[|r.actions| - 1].Terminate?;
    }
  }

  /** The tracked process that is no longer alive is forgotten by a pass that reaches the scan. */
  lemma DeadTrackedDropped(st: ServiceState, inp: ServiceInput)
    requires Passes(st, inp) && !TrackedAlive(st.tracked, inp.table)
    ensures var r := Step(st, inp);
      r.state.tracked == None || (Spawns(r.actions) && r.state.tracked == GetObsProcess(inp.afterStart))
  {
    StepStarts(st, inp);
  }

  /** A reload that empties the whitelist stops our OBS if alive, forgets it and ends main. */
  lemma EmptiedWhitelistExits(st: ServiceState, inp: ServiceInput)
    requires !inp.interrupted && inp.modTime.Some?
    requires Reload(st, inp.modTime.value, inp.loaded, inp.detected).emptied
    ensures var r := Step(st, inp);
      r.exit && r.state.tracked == None && r.state.whitelist == []
      && r.actions == StopObs(st.tracked, inp.table)
  {
  }

  /** An exit leaves our OBS stopped: it is terminated if it is alive, and nothing is spawned. */
  lemma ExitStopsOwnObs(st: ServiceState, inp: ServiceInput)
    requires Step(st, inp).exit
    ensures Step(st, inp).actions == StopObs(st.tracked, inp.table)
    ensures !Passes(st, inp)
  {
  }

  /** At least one Popen that found pid happened before position k of the history. */
  predicate SpawnedBefore(h: seq<ServiceAction>, k: int, pid: nat) {
    exists j :: 0 <= j < k && j < |h| && h[j].Spawn? && h[j].found.Some? && h[j].found.value.pid == pid
  }

  /** Every terminate, and the tracked process, go back to a process start_obs returned. */
  predicate Accounted(h: seq<ServiceAction>, tracked: Option<Tracked>) {
    (forall k :: 0 <= k < |h| && h[k].Terminate? ==> SpawnedBefore(h, k, h[k].pid))
    && (tracked.Some? ==> SpawnedBefore(h, |h|, tracked.value.pid))
  }

  lemma SpawnedBeforeExtends(h: seq<ServiceAction>, more: seq<ServiceAction>, k: int, k2: int, pid: nat)
    requires SpawnedBefore(h, k, pid) && k <= k2
    ensures SpawnedBefore(h + more, k2, pid)
  {
    var j :| 0 <= j < k && j < |h| && h[j].Spawn? && h[j].found.Some? && h[j].found.value.pid == pid;
    assert (h + more)[j] == h[j];
  }

  /** One pass keeps every terminate and the tracked process accounted for. */
  lemma StepAccounted(h: seq<ServiceAction>, st: ServiceState, inp: ServiceInput)
    requires Accounted(h, st.tracked)
    ensures Accounted(h + Step(st, inp).actions, Step(st, inp).state.tracked)
  {
    var r := Step(st, inp);
    var h2 := h + r.actions;
    StepStops(st, inp);
    forall k | 0 <= k < |h2| && h2[k].Terminate?
      ensures SpawnedBefore(h2, k, h2[k].pid)
    {
      if k < |h| {
        assert h2[k] == h[k];
        SpawnedBeforeExtends(h, r.actions, k, k, h[k].pid);
      } else {
        assert h2[k] == r.actions[k - |h|];
        SpawnedBeforeExtends(h, r.actions, |h|, k, st.tracked.value.pid);
      }
    }
    if r.state.tracked.Some? {
      if r.state.tracked == st.tracked {
        SpawnedBeforeExtends(h, r.actions, |h|, |h2|, st.tracked.value.pid);
      } else {
        StepStarts(st, inp);
        assert h2[|h| + 1] == r.actions[1];
      }
    }
  }

  /** A run that goes on after its first pass records that pass and then the rest of the run. */
  lemma RunCons(st: ServiceState, inputs: seq<ServiceInput>)
    requires inputs != [] && !Step(st, inputs[0]).exit
    ensures Run(st, inputs) == Glued(Step(st, inputs[0]).actions, Run(Step(st, inputs[0]).state, inputs[1..]))
  {
  }

  lemma AccountedRegroup(h: seq<ServiceAction>, a: seq<ServiceAction>, t: seq<ServiceAction>, tracked: Option<Tracked>)
    requires Accounted(h + a + t, tracked)
    ensures Accounted(h + (a + t), tracked)
  {
    assert h + (a + t) == h + a + t;
  }

  /** Over a run, every terminate goes back to an earlier Popen that found that pid. */
  lemma {:induction false} RunAccounted(h: seq<ServiceAction>, st: ServiceState, inputs: seq<ServiceInput>)
    requires Accounted(h, st.tracked)
    ensures Accounted(h + Run(st, inputs).trace, Run(st, inputs).state.tracked)
    decreases |inputs|
  {
    if inputs == [] {
      assert h + [] == h;
    } else {
      var s := Step(st, inputs[0]);
      StepAccounted(h, st, inputs[0]);
      if !s.exit {
        var rest := Run(s.state, inputs[1..]);
        RunAccounted(h + s.actions, s.state, inputs[1..]);
        RunCons(st, inputs);
        AccountedRegroup(h, s.actions, rest.trace, rest.state.tracked);
      }
    }
  }

  /**
   * Starting from no tracked process, every terminate a run sends is to a
   * pid that an earlier start_obs returned. start_obs returns the first
   * OBS-like process it finds after its wait, so that need not be the one
   * its Popen started.
   */
  lemma TerminatedPidsCameFromStartObs(st: ServiceState, inputs: seq<ServiceInput>)
    requires st.tracked == None
    ensures var t := Run(st, inputs).trace;
      forall k :: 0 <= k < |t| && t[k].Terminate? ==> SpawnedBefore(t, k, t[k].pid)
  {
    RunAccounted([], st, inputs);
    assert [] + Run(st, inputs).trace == Run(st, inputs).trace;
  }

  /** A run that main's start-up checks let through terminates only pids that start_obs returned earlier in it. */
  lemma StartupTerminatesOnlyFound(config: Option<JsonConfig>, modTime: Option<int>, detected: string, inputs: seq<ServiceInput>)
    requires Startup(config, modTime, detected).Some?
    ensures var t := Run(Startup(config, modTime, detected).value, inputs).trace;
      forall k :: 0 <= k < |t| && t[k].Terminate? ==> SpawnedBefore(t, k, t[k].pid)
  {
    TerminatedPidsCameFromStartObs(Startup(config, modTime, detected).value, inputs);
  }

  /** The variables of main, which each pass of its loop updates in place. */
  class ServiceMonitor {
    var obsPath: string
    var whitelist: seq<string>
    var lastModTime: int
    var scriptObs: Option<Tracked>
    var lastRunningGame: Option<string>

    function State(): ServiceState
      reads this
    {
      ServiceState(obsPath, whitelist, lastModTime, scriptObs, lastRunningGame)
    }

    constructor(st: ServiceState)
      ensures State() == st
    {
      obsPath := st.obsPath;
      whitelist := st.whitelist;
      lastModTime := st.lastModTime;
      scriptObs := st.tracked;
      lastRunningGame := st.lastGame;
    }

    /** The for loop over the whitelist that breaks at the first running game. */
    method FindRunningGame(table: seq<PsProcess>) returns (game: Option<string>)
      ensures game == FirstRunningGame(table, whitelist)
    {
      FirstRunningGameIsFirst(table, whitelist);
      var i := 0;
      while i < |whitelist|
        invariant 0 <= i <= |whitelist|
        invariant forall j :: 0 <= j < i ==> !IsProcessRunning(table, whitelist[j])
      {
        if IsProcessRunning(table, whitelist[i]) {
          return Some(whitelist[i]);
        }
        i := i + 1;
      }
      return None;
    }

    /** The check of script_obs_process: it is kept only while it is running, readable and OBS-like. */
    method CheckTracked(table: seq<PsProcess>) returns (alive: bool)
      modifies this
      ensures alive == TrackedAlive(old(scriptObs), table)
      ensures State() == old(State()).(tracked := if alive then old(scriptObs) else None)
    {
      alive := false;
      if scriptObs.Some? {
        var i := Find(table, scriptObs.value);
        if i.None? {
          scriptObs := None;
        } else if table[i.value].cmdline.None? {
          scriptObs := None;
        } else if StillObs(table[i.value].name, table[i.value].cmdline.value) {
          alive := true;
        } else {
          scriptObs := None;
        }
      }
    }

    /** One pass of the loop: the reload check, the game scan, the check of our OBS, then start or stop. */
    method Iterate(inp: ServiceInput) returns (actions: seq<ServiceAction>, exit: bool, sleep: nat)
      modifies this
      ensures StepResult(State(), actions, exit, sleep) == Step(old(State()), inp)
    {
      if inp.interrupted || inp.modTime.None? {
        return StopObs(scriptObs, inp.table), true, 0;
      }
      var m := inp.modTime.value;
      if m != lastModTime {
        lastModTime := m;
        if inp.loaded.Some? {
          var c := inp.loaded.value;
          obsPath := c.obsPath.GetOr(inp.detected);
          var newGames := c.games.GetOr([]);
          if SetOf(whitelist) != SetOf(newGames) {
            whitelist := newGames;
          }
          if whitelist == [] {
            actions := StopObs(scriptObs, inp.table);
            scriptObs := None;
            return actions, true, 0;
          }
        }
      }
      ghost var scanned := State();
      var game := FindRunningGame(inp.table);
      var alive := CheckTracked(inp.table);
      actions := [];
      exit := false;
      sleep := PollInterval;
      if game.Some? {
        if !alive && !IsObsRunning(inp.table) {
          var started := StartObs(obsPath, inp.spawnFails, inp.afterStart);
          actions := [Log(game.value + LaunchMessage)] + started.actions;
          scriptObs := started.found;
          lastRunningGame := game;
        }
      } else if alive {
        actions := [Log(CloseLog(lastRunningGame))] + StopObs(scriptObs, inp.table);
        scriptObs := None;
        lastRunningGame := None;
      }
      assert StepResult(State(), actions, exit, sleep) == Scan(scanned, inp);
    }

    /** main's while loop over the passes, until one of them returns. */
    method MonitorLoop(inputs: seq<ServiceInput>) returns (trace: seq<ServiceAction>, exited: bool)
      modifies this
      ensures RunOutcome(State(), trace, exited) == Run(old(State()), inputs)
    {
      trace := [];
      exited := false;
      var i := 0;
      while i < |inputs| && !exited
        invariant 0 <= i <= |inputs|
        invariant exited ==> Run(old(State()), inputs) == RunOutcome(State(), trace, true)
        invariant !exited ==>
          Run(old(State()), inputs) == Glued(trace, Run(State(), inputs[i..]))
        decreases |inputs| - i
      {
        ghost var before := State();
        ghost var rest := Run(before, inputs[i..]);
        var actions, exit, _ := Iterate(inputs[i]);
        assert inputs[i..][1..] == inputs[i + 1..];
        if exit {
          assert rest == RunOutcome(State(), actions, true);
        } else {
          assert rest.trace == actions + Run(State(), inputs[i + 1..]).trace;
        }
        trace := trace + actions;
        exited := exit;
        i := i + 1;
      }
      if !exited {
        assert inputs[i..] == [];
        assert trace + [] == trace;
      }
    }
  }

  /**
   * main: the start-up checks, then the loop over the passes; nothing is
   * recorded when a start-up check ends it.
   */
  method RunService(config: Option<JsonConfig>, modTime: Option<int>, detected: string, inputs: seq<ServiceInput>)
    returns (looped: bool, trace: seq<ServiceAction>)
    ensures looped <==> Startup(config, modTime, detected).Some?
    ensures looped ==> trace == Run(Startup(config, modTime, detected).value, inputs).trace
    ensures !looped ==> trace == []
  {
    var st := Startup(config, modTime, detected);
    if st.None? {
      return false, [];
    }
    var monitor := new ServiceMonitor(st.value);
    var exited;
    trace, exited := monitor.MonitorLoop(inputs);
    looped := true;
  }
}
