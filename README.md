# CS_OBS in Dafny

CS_OBS starts OBS Studio when a whitelisted game is running and closes it
again when the game is gone. It comes in three versions:

- a Windows tray application in C# (`Program.cs`, `ConfigUtil.cs`);
- a Windows console application in C++ (`CS_OBS.cpp`, `configutil.cpp`);
- a Linux service in Python (`service.py`) with a tkinter configuration
  manager (`cs_obs.py`).

This project models the core of each version and proves properties of it.
The core is the monitor loop, the pause switch of the tray version, the
process searches, the readers and writers of the configuration file, and
the settings operations behind the dialogs. Each module follows one source
file:

| module | file | models |
|---|---|---|
| `Wrappers` | `wrappers.dfy` | `Option` |
| `Search` | `search.dfy` | first-match and any-match over a sequence |
| `Text` | `text.dfy` | .NET `Trim`, Python `strip`/`lower`, substring tests, `Path` helpers, shlex-like word splitting |
| `Numbers` | `numbers.dfy` | .NET `int.Parse`, C++ `std::stoi`, `ToString` of an int |
| `Pausing` | `pause.dfy` | the tray version's `PauseManager` |
| `TrayConfig` | `tray_config.dfy` | the tray version's `ReadConfigFile` |
| `TraySettings` | `tray_settings.dfy` | the tray version's settings form: interval and name validation, the game list, `SaveSettings` |
| `TrayMonitor` | `tray_monitor.dfy` | the tray version's process search, monitor loop and exit handler |
| `TrayPicker` | `tray_picker.dfy` | the icon list of the tray version's process picker |
| `ConsoleApp` | `console_app.dfy` | the console version: snapshot search, config reader, monitor loop |
| `DefaultConfig` | `default_config.dfy` | the default `config.txt` both Windows versions define (only the console version writes it), and how each reader reads it |
| `Service` | `service.dfy` | the Linux service: process matching, `start_obs`/`stop_obs`, the main loop |
| `ConfigManager` | `config_manager.dfy` | the configuration manager: saving, adding and removing games, the process picker, the autostart check |

State that the source changes in place is a `class` with the same fields:
`PauseManager`, the static fields of the tray `Program` (`TrayProgram`),
the globals of the console version (`ConsoleProgram`), the local variables
of `service.py`'s `main` (`ServiceMonitor`), the settings form, and the two
tkinter windows. Each method is proved against a pure function: one
iteration of a monitor loop is a `Tick`/`Step` function, and a finite run
of iterations is a `Run` function. The properties are lemmas about those
functions.

The outside world enters as parameters:

- the process table at each iteration;
- the clock reading;
- whether a launch throws;
- whether the cancellation token is set;
- the lines of `config.txt`, or `None` when the file cannot be read;
- the parsed JSON of the Linux configuration and its modification time.

What the monitors do to the outside world is recorded as a trace of actions:

- tray version: `Launch`, `CloseAll`, `Kill`;
- console version: `StartObs`, `StopObs`;
- Linux service: `Log`, `Spawn`, `Terminate`.

Behaviours of the code worth noting:

- The tray version gives no launch-error value. If `Process.Start` throws,
  the catch skips the delay, and the next iteration retries at once.
- The tray version matches `Path.GetFileNameWithoutExtension` of the
  configured name. The console version compares the whole file name,
  extension included (`ExtensionMatters`). The Linux service matches
  substrings of the lowercased name and command line.
- In the console version, a failed snapshot counts as "not running".
- The console version neither checks that the OBS directory is empty nor
  looks at what `ShellExecuteEx` returns. It starts `dir\obs64.exe`
  whenever a game appears, and it marks OBS as running either way.
- The console reader takes every non-empty line that is not one of the
  four keys as a game name. That includes the comment lines of its own
  default file (`CommentIsGame`, `ConsoleReadsDefault`).
- On its first run, the console version writes the default file but reads
  nothing from it, because it keeps reading the stream that failed to
  open. Its intervals stay 0 and its game list stays empty
  (`ConsoleFirstRunReadsNothing`, `FirstRunIdles`).
- The Linux service's `start_obs` starts OBS, waits, and then tracks the
  first OBS-like process it finds. That need not be the process its
  `Popen` started, so a later stop can terminate an OBS the service did
  not launch. The model proves only that every terminated pid is one an
  earlier `start_obs` returned (`TerminatedPidsCameFromStartObs`).

## Model

| member | source | states |
|---|---|---|
| Numbers.ParseInt32OfIntToString | Program.cs:290-295 | `int.Parse` reads back every 32-bit integer from its decimal text |
| Numbers.StoiOfIntToString | CS_OBS.cpp:111-116 | `std::stoi` reads back every 32-bit integer from its decimal text |
| Text.TrimEmptyIffBlank | Program.cs:304 | `Trim` gives the empty string exactly when the line is null-or-white-space |
| Pausing.QueryAllAnswers | Program.cs:1034-1047 | over a series of `IsPaused` reads, read k is true exactly when the manager was paused and no read up to k saw the clock at or past the end time; the end time never changes |
| Pausing.ExpiredStaysExpired | Program.cs:1040-1044 | once a read answers false, every later read answers false |
| Pausing.PauseThenQueries | Program.cs:1049-1056 | after `Pause(d)` at time t within the DateTime range, each read at non-decreasing times answers true exactly while the clock is before t+d |
| Pausing.PauseForeverNeverExpires | Program.cs:1058-1065 | after `PauseIndefinitely` every read answers true and the state does not change |
| Pausing.ResumeClears | Program.cs:1067-1073 | after `Unpause` every read answers false; the end time is left as it was |
| Pausing.OperationsKeepValid | Program.cs:1028-1074 | every operation keeps the end time within the DateTime range |
| Pausing.PauseManager.IsPaused | Program.cs:1034-1047 | the answer and the new state: an expired pause is cleared by the read |
| Pausing.PauseManager.Pause | Program.cs:1049-1056 | sets the flag and the end time; when `Now.Add` leaves the DateTime range, the flag is already set, the end time is unchanged, and false is returned |
| Pausing.PauseManager.PauseIndefinitely | Program.cs:1058-1065 | paused until DateTime.MaxValue |
| Pausing.PauseManager.Unpause | Program.cs:1067-1073 | clears the flag only |
| TrayConfig.SplitAtEquals | Program.cs:282-283 | no '=' in the line exactly when there is no split; otherwise the line is key + "=" + value with no '=' in the key |
| TrayConfig.ReadLinesCharacterised | Program.cs:279-308 | the reader gets through the file exactly when every interval value parses, and then the last occurrence of each key wins, and games are the trimmed non-blank, non-'#' lines without '=', in order; otherwise it stops at the first line that fails, with the settings of the lines before it |
| TrayConfig.ReadLinesStopped | Program.cs:291-296 | once `int.Parse` has thrown, later lines change nothing |
| TrayConfig.KeyLineKind | Program.cs:282-286 | a `KEY=value` line is the setting for KEY with the trimmed value and what `int.Parse` makes of it |
| TrayConfig.GameEntriesOfNames | Program.cs:302-305 | a file of plain game names reads as exactly those names and no setting |
| TrayConfig.GameLinesRead | Program.cs:302-305 | lines without '=' that are neither blank nor comments read as their trimmed texts, in order |
| TraySettings.ValidateAndParseInterval | Program.cs:677-688 | accepts exactly the texts `int.Parse` reads as a number of at least 1, and returns that number |
| TraySettings.IntervalRoundTrip | Program.cs:677-688 | every valid interval written as text is read back unchanged |
| TraySettings.IntervalBelowMinimumRefused | Program.cs:679 | intervals below 1 are refused |
| TraySettings.ValidGameExecutableIff | Program.cs:1160-1169 | a name is accepted exactly when it is longer than four characters, ends in lower-case ".exe", and all before that is letters, digits, white space, '-' or '_' |
| TraySettings.UpperCaseExtensionRefused | Program.cs:1162-1168 | "GAME.EXE" passes the case-insensitive suffix test but fails the pattern |
| TraySettings.DottedNameRefused | Program.cs:1167-1168 | a name with a dot before ".exe" is refused |
| TraySettings.PlainNameAccepted | Program.cs:1160-1169 | a name of letters, digits, spaces, '-' and '_' is accepted |
| TraySettings.TrailingNewlineRefused | Program.cs:1162-1168 | .NET's `$` lets "game.exe\n" match the pattern, but the extension test refuses it |
| TraySettings.WithGame | Program.cs:583-594 | the list then holds the name ignoring case, and the old items keep their places |
| TraySettings.WithGameKeepsDistinct | Program.cs:583-594 | adding keeps the items distinct ignoring case |
| TraySettings.WithGameIgnoresCase | Program.cs:585-587 | adding a case variant of a listed name changes nothing |
| TraySettings.WithGameEffect | Program.cs:583-594 | the list is unchanged exactly when the name is already there ignoring case; otherwise the name is appended |
| TraySettings.WithoutGame | Program.cs:632-638 | removes the selected item and shifts the rest down |
| TraySettings.WithoutGameKeepsDistinct | Program.cs:632-638 | removing keeps the items distinct ignoring case |
| TraySettings.KeptLinesMembers | Program.cs:693 | a line survives the save exactly when it is in the file and does not end in ".exe" |
| TraySettings.LineKeyOf | Program.cs:695-713 | a line starting with `KEY=` is rewritten as that key, whatever the order of the tests |
| TraySettings.RewriteLineCases | Program.cs:695-713 | each surviving line is rewritten by the first key prefix it starts with, and is kept otherwise |
| TraySettings.RewrittenQuiet | Program.cs:695-713 | rewriting the surviving lines keeps their game names and leaves no interval that fails to parse |
| TraySettings.SaveThenRead | Program.cs:690-718 | reading a saved file back succeeds; the games are the old file's surviving game lines followed by the list box entries that are game names, trimmed; each setting whose `KEY=` line was in the file has the saved value, the others are unchanged |
| TraySettings.RewriteKeyLines | Program.cs:695-713 | rewrites the array of lines in place, each line as `RewriteLine` gives it |
| TraySettings.SettingsForm.AddGameToList | Program.cs:583-594 | adds the name exactly when it is not listed ignoring case |
| TraySettings.SettingsForm.AddGameButtonClick | Program.cs:570-581 | adds the selected process when one is selected and its name is not empty |
| TraySettings.SettingsForm.RemoveGameButtonClick | Program.cs:632-638 | removes the selected item when the index is valid |
| TraySettings.SettingsForm.SaveSettings | Program.cs:690-718 | the lines written are the rewritten surviving lines followed by the game list; nothing is written when the file cannot be read |
| TrayMonitor.ProcessesByNameMembers | Program.cs:104-107 | `GetProcessesByName` finds exactly the processes with that name ignoring case |
| TrayMonitor.IsProcessRunningIff | Program.cs:104-107 | a game runs exactly when some process has its name without extension, ignoring case |
| TrayMonitor.ExtensionIgnored | Program.cs:104-107 | "x.exe" and "x" are the same game |
| TrayMonitor.GetProcessID | Program.cs:311-325 | -1 exactly when no such process runs; otherwise the pid of one that does |
| TrayMonitor.AnyGameRunningIff | Program.cs:230-240 | the scan finds a game exactly when some configured name is running |
| TrayMonitor.TickLaunches | Program.cs:228-250 | an iteration launches OBS exactly when not paused, a game runs, OBS is not believed running, and the directory is set; at most one action per iteration |
| TrayMonitor.TickCloses | Program.cs:252-256 | an iteration closes OBS exactly when not paused, no game runs and OBS is believed running; it closes every obs64 process and clears the belief |
| TrayMonitor.PausedTickIsInert | Program.cs:226-228 | a paused iteration does nothing and keeps the belief |
| TrayMonitor.TickPauseState | Program.cs:228 | the pause state after an iteration is the one the `IsPaused` read leaves |
| TrayMonitor.TickSleep | Program.cs:244-271 | after a failed launch there is no delay; otherwise the delay is OBS's interval when OBS is believed running, the games' interval otherwise |
| TrayMonitor.FailedLaunchIsRetried | Program.cs:244-271 | after a failed launch, the next unpaused iteration with a game running launches again |
| TrayMonitor.RunBracketed | Program.cs:224-272 | over any run, successful launches and closes alternate; a failed launch may be retried before any close |
| TrayMonitor.RunIterations | Program.cs:220-273 | each position j of a run's trace lies in the slot of one iteration k that was not cancelled: the trace begins with the actions of the first k iterations followed by those of iteration k, taken from the state the first k left |
| TrayMonitor.NoLaunchWithoutTrigger | Program.cs:226-250 | for each launch at position j of the trace, the iteration whose slot holds j was not paused, saw a game running and began with OBS not believed running |
| TrayMonitor.EmptyDirNeverLaunches | Program.cs:244 | without an OBS directory nothing is ever launched |
| TrayMonitor.PausedRunIsInert | Program.cs:228 | after `PauseIndefinitely`, with no menu command, a run does nothing and changes nothing |
| TrayMonitor.GameSessionScenario | Program.cs:220-273 | game starts, stays, stops: exactly one launch, then one close of the running obs64 |
| TrayMonitor.ExitKillsOneObs | Program.cs:199-206 | on exit, at most one process is killed, only an obs64 one, and only when OBS is believed running |
| TrayMonitor.TrayProgram.ReadConfigFile | Program.cs:275-309 | the settings after the read are those of `TrayConfig.ReadConfigFile` |
| TrayMonitor.TrayProgram.ApplyKind | Program.cs:287-298 | one line of the reader's switch |
| TrayMonitor.TrayProgram.UpdateIntervals | Program.cs:129-133 | replaces only the two intervals |
| TrayMonitor.TrayProgram.ScanGames | Program.cs:230-240 | whether some configured game is running |
| TrayMonitor.TrayProgram.MonitorTick | Program.cs:226-262 | one loop iteration, as `Tick` gives it, with the pause menu's call applied first |
| TrayMonitor.TrayProgram.MonitorProcesses | Program.cs:220-273 | the whole loop, as `Run` gives it |
| TrayMonitor.TrayProgram.OnExit | Program.cs:195-206 | the kill made on exit |
| TrayPicker.ListIconsFacts | Program.cs:923-947 | one item per process; an item with an icon shows its own name's icon, one without shows index 0; the icon cache stays sound |
| TrayPicker.ItemsShowTheirIcons | Program.cs:919-947 | with the default icon kept at index 0, each item shows its own icon or the default one |
| TrayPicker.AsWrittenNoDefaultIcon | Program.cs:919-921 | after `Images.Clear()` the list no longer holds the default icon |
| TrayPicker.AsWrittenImagesAreProcessIcons | Program.cs:919-944 | as written, every image is some process's icon |
| TrayPicker.AsWrittenIconlessShowsAnotherIcon | Program.cs:927-944 | as written, an icon-less process after one with an icon shows that other process's icon |
| TrayPicker.ProcessPickerForm.constructor | Program.cs:783-788 | the image list starts with the default icon |
| TrayPicker.ProcessPickerForm.AddListItems | Program.cs:923-947 | adds one item per process, caching each icon once |
| TrayPicker.ProcessPickerForm.UpdateProcessListAsWritten | Program.cs:914-953 | the list as the code leaves it: cleared without the default icon |
| TrayPicker.ProcessPickerForm.UpdateProcessList | Program.cs:914-953 | the list with the default icon put back at index 0 |
| ConsoleApp.ProcessIDOfIff | CS_OBS.cpp:24-44 | not -1 exactly when the snapshot holds a match, and then the pid of the first match |
| ConsoleApp.FullNameCompared | CS_OBS.cpp:35 | a match has exactly the configured name's length |
| ConsoleApp.ExtensionMatters | CS_OBS.cpp:78 | "game.exe" does not match a configured "game" |
| ConsoleApp.ProcessRunning | CS_OBS.cpp:67-87 | the loop finds a match exactly when the snapshot holds one; a failed snapshot finds none |
| ConsoleApp.GetProcessID | CS_OBS.cpp:24-44 | the loop answers `ProcessIDOf` |
| ConsoleApp.ReadConfigCharacterised | CS_OBS.cpp:107-126 | the file is read to the end exactly when no interval makes `std::stoi` throw; then the last occurrence of each key wins and every other non-empty line is a game |
| ConsoleApp.CommentIsGame | CS_OBS.cpp:122-124 | a '#' line is taken as a game name |
| ConsoleApp.OnlyEmptySkipped | CS_OBS.cpp:122-123 | only the empty line is skipped |
| ConsoleApp.BareIntervalKeyThrows | CS_OBS.cpp:110-113 | an interval key with no '=' gives the whole line to `std::stoi`, which throws |
| ConsoleApp.KeyLineOf | CS_OBS.cpp:110-121 | a `KEY=value` line is that setting with the untrimmed value |
| ConsoleApp.TickStarts | CS_OBS.cpp:172-178 | an iteration starts OBS exactly when a game runs and OBS is not believed running; then it believes OBS is running and sleeps OBS's interval |
| ConsoleApp.TickStops | CS_OBS.cpp:179-185 | an iteration stops OBS exactly when no game runs and OBS is believed running; it kills the first obs64.exe when there is one |
| ConsoleApp.TickFlags | CS_OBS.cpp:166-170 | the per-game flags are recomputed from the snapshot |
| ConsoleApp.TickSleep | CS_OBS.cpp:187-188 | the sleep is the interval of the new belief, a negative one being no sleep |
| ConsoleApp.RunAlternates | CS_OBS.cpp:165-189 | over any run, starts and stops alternate |
| ConsoleApp.RunIterations | CS_OBS.cpp:165-189 | each position j of a run's trace lies in the slot of one iteration k: the trace begins with the actions of the first k iterations followed by those of iteration k, taken from the state the first k left |
| ConsoleApp.NoStartWithoutTrigger | CS_OBS.cpp:166-178 | for each start at position j of the trace, the iteration whose slot holds j saw a game running and began with OBS not believed running |
| ConsoleApp.NoGamesNoStart | CS_OBS.cpp:172 | with no games configured nothing is ever started |
| ConsoleApp.FirstRunIdles | CS_OBS.cpp:100-105 | after the first-run default file, the loop does nothing, and every iteration, from the state the earlier ones left, sleeps 0 ms |
| ConsoleApp.ConsoleProgram.ReadConfigFile | CS_OBS.cpp:90-129 | the settings and outcome of `ReadConfig` |
| ConsoleApp.ConsoleProgram.ReadLine | CS_OBS.cpp:110-125 | one iteration of the getline loop; false when `std::stoi` throws |
| ConsoleApp.ConsoleProgram.StartUp | CS_OBS.cpp:145-163 | the loop is entered exactly when the file was loaded and, with autostart on, the startup batch file was written; the flags are resized to the game list |
| ConsoleApp.ConsoleProgram.ScanGames | CS_OBS.cpp:166-170 | the per-game flags of the snapshot |
| ConsoleApp.ConsoleProgram.Iterate | CS_OBS.cpp:166-188 | one loop iteration, as `Tick` gives it |
| ConsoleApp.ConsoleProgram.MonitorLoop | CS_OBS.cpp:165-189 | the loop over a series of iterations, as `Run` gives it |
| DefaultConfig.CreateDefault | ConfigUtil.cs:13-38 | true exactly when the file can be written, and then the file holds the default lines |
| DefaultConfig.DefaultLineShapes | ConfigUtil.cs:16-32 | which of the seventeen lines are the four settings with their defaults, which are comments, and which are empty |
| DefaultConfig.DefaultIntervalTexts | ConfigUtil.cs:18-20 | the intervals are written as 15000 and 5000 |
| DefaultConfig.TrayReadsFile | ConfigUtil.cs:16-32 | the tray reader reads the default layout as its two intervals, an empty directory, no autostart and no games |
| DefaultConfig.TrayReadsDefault | ConfigUtil.cs:16-32 | the tray reader reads the default file as the tray version's own default intervals |
| DefaultConfig.ConsoleReadsFile | configutil.cpp:12-28 | the console reader reads the default layout as its intervals and its comment lines as games |
| DefaultConfig.ConsoleReadsDefault | configutil.cpp:12-28 | the console reader reads the default file as 15000, 5000 and a game list of '#' lines |
| DefaultConfig.ConsoleFirstRunReadsNothing | CS_OBS.cpp:100-109 | on the first run nothing is read after the default file is written; when it cannot be written the program exits |
| Service.IsProcessRunningIff | service.py:92-114 | a game runs exactly when some process's lowercased name or normalised command line contains the lowercased identifier |
| Service.EmptyIdentifierMatchesAny | service.py:96-103 | an empty identifier matches any process |
| Service.BackslashMatchesNameOnly | service.py:96-110 | an identifier with a backslash can match only a process name, because the command line has its backslashes replaced |
| Service.ObsSearchesAgree | service.py:116-152 | `is_obs_running` holds exactly when `get_obs_process` finds a process, and that is the first OBS-like one |
| Service.TrackedAliveIff | service.py:332-359 | the tracked process is kept exactly when one with its pid and creation time still runs, its command line is readable, and it still looks like OBS |
| Service.StartCommandShape | service.py:193-203 | a flatpak path is split into words, any other path is one word; both get the two OBS flags |
| Service.StartObs | service.py:184-224 | when `Popen` raises nothing is spawned and nothing is tracked; otherwise the tracked process is the first OBS-like one found afterwards |
| Service.StopObs | service.py:226-260 | terminates the tracked process exactly when it is alive, and no other |
| Service.FirstRunningGameIsFirst | service.py:322-330 | the game found is the first whitelisted one that runs; none exactly when none runs |
| Service.ReloadWhitelist | service.py:293-315 | a changed modification time rereads the path and replaces the whitelist only when the set of names differs |
| Service.FailedReloadKeepsConfig | service.py:298-299 | a reload that gives no config keeps everything but the recorded time |
| Service.StartupTerminatesOnlyFound | service.py:263-391 | in any run the start-up checks let through, every terminated pid is one an earlier `start_obs` returned in that run |
| Service.StepSleep | service.py:289-386 | a pass ends main exactly on an interrupt, a missing config file or a reload that empties the whitelist; every other pass sleeps `POLL_INTERVAL` (5 s) |
| Service.StepStarts | service.py:361-370 | OBS is spawned exactly when the pass reaches the scan, a game runs, our OBS is not alive, no other OBS runs and `Popen` does not raise; the game is remembered and the new OBS tracked |
| Service.ExternalObsLeftAlone | service.py:366-372 | in a pass where a game runs, our OBS is not alive and another OBS-like process is found, nothing is started or stopped and nothing is tracked |
| Service.NoStartWhileTrackedAlive | service.py:364-365 | no second OBS while ours is alive |
| Service.StepStops | service.py:373-381 | only the tracked process is ever terminated, exactly when it is alive and either no game runs or the pass ends the service |
| Service.DeadTrackedDropped | service.py:333-359 | a tracked process that died is forgotten unless a new one is started |
| Service.EmptiedWhitelistExits | service.py:310-315 | a reload that empties the whitelist stops our OBS and ends the service |
| Service.ExitStopsOwnObs | service.py:316-320 | every way out of the loop stops our OBS, and only ours |
| Service.TerminatedPidsCameFromStartObs | service.py:286-391 | starting from no tracked process, every pid a run terminates is one an earlier `start_obs` of the run returned |
| Service.ServiceMonitor.FindRunningGame | service.py:322-330 | the loop finds `FirstRunningGame` |
| Service.ServiceMonitor.CheckTracked | service.py:332-359 | keeps the tracked process exactly when it is alive |
| Service.ServiceMonitor.Iterate | service.py:291-381 | one pass, as `Step` gives it |
| Service.ServiceMonitor.MonitorLoop | service.py:289-391 | the passes until one ends the service, as `Run` gives it |
| Service.RunService | service.py:263-391 | the loop runs exactly when the start-up checks pass, and then records what `Run` records |
| ConfigManager.SavedConfig | cs_obs.py:252-262 | the saved dictionary has the listbox as its whitelist and every other key unchanged |
| ConfigManager.NewGame | cs_obs.py:433-443 | a game is added exactly when the stripped entry is non-empty and not yet listed; the name added is stripped and new |
| ConfigManager.NewGameKeepsDistinct | cs_obs.py:433-443 | adding through the entry box keeps the names of the list distinct |
| ConfigManager.DeleteBelow | cs_obs.py:445-454 | deleting from the highest index down removes each selected item from the list |
| ConfigManager.RemoveStep | cs_obs.py:445-454 | each deletion of the loop removes the next lower selected index |
| ConfigManager.AutostartOutdated | cs_obs.py:554-579 | outdated exactly when on Linux, the file is readable, and the current ExecStart or WorkingDirectory line is missing from it |
| ConfigManager.RewrittenUnitIsCurrent | cs_obs.py:602-617 | the unit file the manager writes is never found outdated |
| ConfigManager.CollectedNames | cs_obs.py:665-674 | names of processes with an exe path on Windows, of all processes elsewhere |
| ConfigManager.Dedupe | cs_obs.py:675 | each name once, the same names |
| ConfigManager.SortByLowerFacts | cs_obs.py:675 | sorted by lowercase key, a permutation of the input, and distinct input stays distinct |
| ConfigManager.ProcessListFacts | cs_obs.py:665-676 | the picker's list holds each collected name once, sorted by lowercase key |
| ConfigManager.MatchingMembers | cs_obs.py:682-688 | an entry is shown exactly when its lowercase form contains the term |
| ConfigManager.EmptyTermFiltersNothing | cs_obs.py:682-688 | an empty term shows everything |
| ConfigManager.FilteredMembers | cs_obs.py:682-688 | the filter shows exactly the entries whose lowercase form contains the lowercase term |
| ConfigManager.ConfigManagerApp.SaveConfig | cs_obs.py:252-262 | the in-memory config takes the saved dictionary only when the write succeeds |
| ConfigManager.ConfigManagerApp.AddGame | cs_obs.py:433-443 | appends the stripped entry and clears the box exactly when it is new; otherwise nothing changes |
| ConfigManager.ConfigManagerApp.StartMonitor | cs_obs.py:456-480 | a monitor is spawned exactly when there is a whitelist, none is running and `Popen` does not raise |
| ConfigManager.ConfigManagerApp.AddGameFromPicker | cs_obs.py:159-168 | adds exactly a new non-empty name, and saves; after an add with no monitor known to run, a monitor is spawned exactly when there is a whitelist, none is already running and `Popen` does not raise, and `monitorFound` becomes whether one is found afterwards; otherwise `monitorFound` is unchanged |
| ConfigManager.ConfigManagerApp.RemoveGame | cs_obs.py:445-454 | removes exactly the selected items, saving when something was selected |
| ConfigManager.ProcessPicker.constructor | cs_obs.py:660-661 | the picker opens on the whole process list |
| ConfigManager.ProcessPicker.FilterList | cs_obs.py:682-688 | shows the filtered list and keeps the full one |

## Left out

- Windows Forms and tkinter rendering, message boxes, balloon tips and the tray icon: UI, not logic.
- Administrator elevation and `TaskScheduler.cs` / `startuputil.cpp`: whether the startup batch file is written (`addToStartupFolderWithBatchFile`) is an input of `ConsoleProgram.StartUp`; `deleteStartupBatchFile` is not modelled.
- The operating system's process APIs: process tables, launch results and clocks are inputs. `WaitForExit`, `Dispose` and handle release are not modelled.
- Concurrency: the lock of `PauseManager`, the background task, and events raised from the UI thread. Menu calls on the pause switch are applied between iterations (`PauseCommand`), and cancellation is a flag on each iteration's input.
- The configuration is fixed during a `Run`. The `IntervalUpdated` and `ConfigUpdated` events are reduced to the methods `UpdateIntervals` and `ReadConfigFile`, which run between runs.
- File I/O, JSON parsing and file modification times: they are inputs, and an unreadable file is `None`.
- Culture-sensitive comparison and Unicode case folding: case is folded for ASCII letters only.
- `LoadSettings` (Program.cs:596-630): it fills the dialog's controls. It reads each `KEY=` line's value as `Split('=')[1]`, and adds to the list box, trimmed, every other line that does not start with '#' and ends in ".exe". Which entries the list box starts with is an input of `SaveThenRead`.
- `ApplyButton_Click` (Program.cs:645-675): its warning and missing-path dialogs are UI. `Path.GetDirectoryName` of the chosen file is an input.
- The running-games set of `MonitorProcessesAsync` (Program.cs:231-238, 258): it is written but never read.
- `PathFindFileName` corner cases: the file name is taken after the last '\\', '/' or ':'.
- The console version takes one snapshot per iteration instead of one per query. Its `DWORD` -1 sentinel is an `int`. A `std::stoi` exception is the `Terminated` outcome, and `exit(0)` is the `Exited` outcome or `loops == false`.
- The pause menu's fixed durations (Program.cs:151-155): the duration is an input of `PauseCommand`.
- psutil details: `NoSuchProcess`, `AccessDenied` and `ZombieProcess` during iteration. An unreadable command line is `None`.
- shlex quoting rules and its `ValueError`: `Words` splits on white space only.
- `cleanup_obs_sentinel` and `detect_obs_path`: the detected path is an input.
- `terminate`, `wait` and `kill` in `stop_obs`: together they are one `Terminate` action.
- `KeyboardInterrupt` is observed only between passes.
- The content of log and print messages, beyond the `Log` actions of the main loop.
- The generic `except Exception` of the service loop (service.py:383-384).
- The order of case variants that tie under `sort(key=str.lower)`: Python's `set` order is not specified.
- `check_monitor_status`, `find_monitor_process`, `stop_monitor`, `quit_app` and `populate_ui` of the configuration manager: process control and UI.
- `load_config` (cs_obs.py:264-345): JSON parsing and the defaults it fills in.
- `check_and_update_autostart` is modelled only through the unit file it writes (`RewrittenUnitIsCurrent`). The `systemctl` calls are left out.
- DefaultConfig.CreateDefault: does not say what a failed write leaves in the file, because the source does not decide it.
- `CreateDefaultConfigFile` (ConfigUtil.cs:9) is never called from Program.cs, so only the console version writes the default file. The model still proves how both readers would read it.
- TraySettings.SaveThenRead: a key whose `KEY=` line is missing from the file is not added by `SaveSettings`, so that setting is not saved. The lemma states this behaviour.
- TraySettings.SaveThenRead: does not cover a surviving line that the reader takes for one of the four settings but that does not start with exactly `KEY=` (such as " OBS_WORKING_DIR=x" or "ADD_TO_STARTUP =1"). `SaveSettings` does not rewrite such a line, so what is read back depends on where it stands in the file. It also does not cover list box entries containing '=', which the reader takes for settings.

## Findings

| source | as written | input that shows it | evidently intended | confidence | as-written member | corrected member |
|---|---|---|---|---|---|---|
| Program.cs:919-944 | `UpdateProcessList` calls `Images.Clear()`, which also removes the default icon the constructor put at index 0 (Program.cs:788). An item for a process without an icon still gets image index 0, so it shows the first cached process's icon. | processes `game.exe` with an icon, then `notes.exe` without one | icon-less items show the default icon, so it must be put back at index 0 after the clear | not executed | TrayPicker.ProcessPickerForm.UpdateProcessListAsWritten, TrayPicker.AsWrittenIconlessShowsAnotherIcon | TrayPicker.ProcessPickerForm.UpdateProcessList, TrayPicker.ItemsShowTheirIcons |
