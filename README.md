# A verified model of the LMU settings widget core

The LMU settings widget is a desktop companion for the racing simulator Le Mans Ultimate. It
edits the game's settings files, installs the VRToolkit ReShade mod and its OpenXR layer,
starts the game, and drives the game's local web API while the game runs. The heart of it is a
session orchestrator. A connection monitor turns three unreliable signals into one game state:
a navigation-state GET, the OS process list and a shared-memory block. A queue of
timeout-bounded commands then executes one command per tick against the running game.

This project models that core in Dafny and proves what the code promises about it. There is one
module per source file:

| module | models |
|---|---|
| `Rf2Command` | `src/lmu/rf2command.py`: commands, their handlers (a `match` on the command kind) and the command queue |
| `Rf2Connect` | `src/lmu/rf2connect.py`: the connection monitor, its state table and its adaptive polling interval |
| `Rf2Greenlet` | `src/lmu/greenlets/rf2greenlet.py`: one orchestrator tick |
| `Benchmark` | `src/lmu/benchmark/benchmark_utils.py`: benchmark runs, their queue and the benchmark command sequences |
| `AppReplay`, `AppLaunch`, `EventLoop` | `src/lmu/app/app_replay_fn.py`, `app_launch_fn.py`, `event_loop.py` |
| `AppState` | the event objects and application settings these files share |
| `VrToolkit`, `VrToolkitIni`, `PresetRoundTrip` | `src/lmu/mods/vrtoolkit.py`: the preset exchange, the preset INI writer and reader, and the proof that a written preset reads back |
| `OpenXr` | `src/lmu/mods/openxr.py`: the ReShade apps list and the OpenXR layer's registry value |
| `LmuGame`, `LmuLocation` | `src/lmu/lmu_game.py`, `src/lmu/lmu_location.py`: settings files, encodings, the launch command line, the install location |
| `Rf2Replays`, `Rf2Results`, `Patterns` | `src/lmu/rf2replays.py`, `src/lmu/rf2results.py` and the fixed regular expressions they use |
| `Common` | option type and string helpers |

Objects whose fields the source updates in place are classes with `modifies` clauses. Each such
class method is specified by a pure function of the old state, and the properties are lemmas
about those functions. The connection monitor, for example, is `Rf2Connect.RfactorConnect`, and
its abstract value is the datatype `Conn`. Clocks, HTTP replies, the process list, shared-memory
flags, registry keys and file contents are all parameters. Requests, key presses and sounds
are returned as a log of effects.

## Model

| member | source | states |
|---|---|---|
| AppLaunch.PasswordsAfter | src/lmu/app/app_launch_fn.py:28-37 | remembering stores the server's password under its id; not remembering removes that id; no server leaves the map as it was; every other id keeps its entry |
| AppLaunch.RememberThenForget | src/lmu/app/app_launch_fn.py:28-37 | a launch with remembering followed by one without for the same server leaves no password for it |
| AppLaunch.RunRfactor | src/lmu/app/app_launch_fn.py:22-56 | a launch method of None becomes the last launch method, which is then set to the effective one; passwords as `PasswordsAfter`; result true iff the installation is valid and the launch succeeded; one wait-for-Ready(10 s) is appended iff the installation is valid and no server was given |
| AppReplay.LaunchMethod | src/lmu/app/app_replay_fn.py:111-114 | the launch method is the preset's Launch option when it has one, else 1 |
| AppReplay.ReplayOrdersPlayOnce | src/lmu/app/app_replay_fn.py:82-133 | both command sequences for a replay hold exactly one play-replay command, for that replay |
| AppReplay.SwitchReplayWhileLive | src/lmu/app/app_replay_fn.py:82-91 | appends exactly wait Ready(120), nav NAV_BACK_TO_MAIN_MENU(20), wait Ready(20), play_replay(name, 30) |
| AppReplay.StartReplay | src/lmu/app/app_replay_fn.py:95-137 | an empty name gives false and queues nothing; while live it queues the switch sequence; an invalid installation gives false; a failed launch queues nothing; a successful one queues wait Ready(120), play_replay(30), wait Loading(30), wait Ready(800) |
| AppReplay.ReplayPlaybackCommand | src/lmu/app/app_replay_fn.py:141-144 | appends exactly one playback command with a 5 s timeout and returns true |
| AppReplay.ReplayTimeCommand | src/lmu/app/app_replay_fn.py:148-151 | appends exactly one replay-time command with a 5 s timeout and returns true |
| AppState.Events.constructor | src/lmu/greenlets/rf2greenlet.py:19-42 | the events the orchestrator reads and sets start cleared |
| AppState.Settings.constructor | src/lmu/app/app_launch_fn.py:24-39 | the application settings the core uses start empty |
| EventLoop.FirstTick | src/lmu/app/event_loop.py:25-28 | on the first tick both timestamps become now, the first-run flag drops, no heartbeat is sent and close is not signalled |
| EventLoop.SendIff | src/lmu/app/event_loop.py:31-33 | a heartbeat is sent iff more than 30 s passed since the last send, and the send time then becomes now |
| EventLoop.CloseIff | src/lmu/app/event_loop.py:36-44 | a received heartbeat refreshes the interface time; close is signalled iff more than 60 s passed since the interface's last heartbeat |
| EventLoop.AppEventLoop.constructor | src/lmu/app/event_loop.py:11-18 | both times start at 0 and the first-run flag is set |
| EventLoop.AppEventLoop.Tick | src/lmu/app/event_loop.py:21-44 | the new globals, the send and the close flag are those of `Step`; the heartbeat event is cleared |
| Rf2Greenlet.LiveInterval | src/lmu/greenlets/rf2greenlet.py:36-42 | the polling interval is lowered to the active one only when the game is not Unavailable and was not live before |
| Rf2Greenlet.LiveThenActive | src/lmu/greenlets/rf2greenlet.py:36-39 | lowering for the live flag never leaves an interval above the active one |
| Rf2Greenlet.Prepare | src/lmu/greenlets/rf2greenlet.py:17-42 | a quit request appends exactly wait Ready(10) then quit(10) and clears the request; WaitingForProcess publishes the shutdown status; the live flag becomes "state is not Unavailable" |
| Rf2Greenlet.Tick | src/lmu/greenlets/rf2greenlet.py:17-47 | the queue runs once, after the flag updates: the command executed is the one `next` yields (kept current, the old head, the quit request's wait, or none after a reset); the connection is checked at the idle or active interval; an executed command's effects, finished and reset flags, status (over the shutdown report), live flag, quit result, benchmark request and replay flag are those `Handle` gives and the last command time is now; with none executed, the quit result, benchmark request, replay flag and last command time are unchanged, there are no effects, and the status is the shutdown report or the old status (the empty status on an idle tick); the queue left behind is the old one, or the old one without its head when the head ran, followed by the quit request's two orders |
| Rf2Greenlet.RunQueue | src/lmu/greenlets/rf2greenlet.py:44-47 | the queue's run after the flag updates, stated against the connection, status, live flag and queue from before them: the same command choice, connection check, `Handle` outcome, status, last command time and queue left behind as `Tick` |
| Benchmark.RunIds.constructor | src/lmu/benchmark/benchmark_utils.py:12 | the class-level id counter starts at 0 |
| Benchmark.BenchmarkRun.constructor | src/lmu/benchmark/benchmark_utils.py:14-17 | a new run takes the counter plus one as its id and the counter moves to it, so ids grow strictly |
| Benchmark.FirstWithId | src/lmu/benchmark/benchmark_utils.py:35-38 | the position of the first run with the id, -1 iff there is none |
| Benchmark.WithoutFirstId | src/lmu/benchmark/benchmark_utils.py:34-39 | removing the first run with an id present takes exactly one occurrence of that id out |
| Benchmark.FirstWithIdAt | src/lmu/benchmark/benchmark_utils.py:35-38 | a run with the id at `i` and none before is the one found |
| Benchmark.BenchmarkQueue.constructor | src/lmu/benchmark/benchmark_utils.py:23 | the queue starts empty |
| Benchmark.BenchmarkQueue.Append | src/lmu/benchmark/benchmark_utils.py:30-31 | the run is added at the tail |
| Benchmark.BenchmarkQueue.Remove | src/lmu/benchmark/benchmark_utils.py:34-39 | true iff a run has the id, and then exactly the first such run is removed; otherwise the queue is unchanged |
| Benchmark.BenchmarkQueue.Next | src/lmu/benchmark/benchmark_utils.py:42-46 | an empty queue gives none; otherwise the head is popped (FIFO) and renamed after the time stamp |
| Benchmark.BenchmarkQueue.Reset | src/lmu/benchmark/benchmark_utils.py:49-50 | the queue becomes empty |
| Benchmark.BenchmarkOrdersShape | src/lmu/benchmark/benchmark_utils.py:53-94 | a race benchmark has 11 commands and a replay one 7; both start with wait Ready(120) and end with the recording timeout(12) and record_benchmark(20); only a race sets the session (from the selection of the call) and only a replay plays one; a recording is requested once |
| Benchmark.CreateBenchmarkCommands | src/lmu/benchmark/benchmark_utils.py:53-94 | appends exactly the benchmark's commands for the selection held at the call, then clears the session and content selection |
| Benchmark.CreateQuitCommands | src/lmu/benchmark/benchmark_utils.py:105-112 | appends exactly press ESC, Alt+F4, to_race_menu(10), quit(5) |
| LmuGame.WriteKeysSpec | src/lmu/lmu_game.py:255-264 | after writing an option and its duplicates, every listed key holds the value, every other key keeps its value, and no key is lost |
| LmuGame.WriteOptionsGrows | src/lmu/lmu_game.py:245-264 | writing a group's options into a category never removes a key |
| LmuGame.WriteOptionsUntouched | src/lmu/lmu_game.py:245-264 | a key that no option of the group writes keeps its presence and its value |
| LmuGame.WriteOptionsSole | src/lmu/lmu_game.py:245-264 | a key written only by option `i` ends with that option's value, when the option is not skipped, is present or to be created, and is set |
| LmuGame.ReadOption | src/lmu/lmu_game.py:315-320 | an option whose name is in the category takes its value and exists in the game; any other option is unchanged; the name and flags are kept |
| LmuGame.ReadOptions | src/lmu/lmu_game.py:315-320 | reading a group reads each of its options in place, one for one |
| LmuGame.WriteThenRead | src/lmu/lmu_game.py:245-320 | an option that is written and that no other option of the group shares a key with reads back its own value and exists in the game |
| LmuGame.ParseDigits | src/lmu/lmu_game.py:300-301 | `int()` of a run of digits is its value, and with a minus sign in front its negation |
| LmuGame.ParseIntRoundTrip | src/lmu/lmu_game.py:202-301 | `int(str(n)) == n` for every integer |
| LmuGame.DxOption | src/lmu/lmu_game.py:294-304 | a name missing from the section hides the option and marks it absent; a present string option takes the text; an int option takes `int()` of it, or reading raises exactly when the text is not an integer |
| LmuGame.FirstBadInt | src/lmu/lmu_game.py:299-301 | the index of the first option that makes `int()` raise: every option before it reads, it does not |
| LmuGame.VideoWriteKeys | src/lmu/lmu_game.py:195-204 | writing the video options never adds or removes a name of the default section |
| LmuGame.VideoWriteSole | src/lmu/lmu_game.py:195-204 | a name present in the section and written only by option `i` holds `str()` of that option's value |
| LmuGame.VideoRoundTrip | src/lmu/lmu_game.py:195-304 | an int video option written to the section and read back yields that option, marked as existing in the game |
| LmuGame.RemoveFirst | src/lmu/lmu_game.py:330-331 | `list.remove`: one entry shorter, nothing new, every other entry kept |
| LmuGame.TryOrderShape | src/lmu/lmu_game.py:328-335 | a requested encoding is tried first; utf-8 and cp1252 are always tried; no encoding twice; without a request cp1252 comes before utf-8 |
| LmuGame.TryFromFirst | src/lmu/lmu_game.py:334-346 | a document is returned iff some encoding decodes the file, and it is the first such encoding's document |
| LmuGame.TrimNewlines | src/lmu/lmu_game.py:226 | `rstrip("\n")`: the result ends in no newline, and the input is the result followed by newlines only |
| LmuGame.RestoredLines | src/lmu/lmu_game.py:220-226 | the first line is restored in front, a lone trailing newline line is dropped, the new last line loses its trailing newlines; None exactly when no lines remain and indexing raises |
| LmuGame.ConnectWithoutPasswordAsWritten | src/lmu/lmu_game.py:442-445 | as written, a server without a password gives `+connect=Nonelocalhost:64297` |
| LmuGame.ConnectArg | src/lmu/lmu_game.py:445 | the intended argument, which the launch does not use: `+connect=:password@ip:port` with a password, `+connect=ip:port` without one |
| LmuGame.ConnectArgAgrees | src/lmu/lmu_game.py:445 | the corrected argument equals the written one whenever a password is present or empty; with no password the written form gains `None` and the corrected form does not |
| LmuGame.LaunchCommand | src/lmu/lmu_game.py:417-445 | the launch is refused iff the executable (methods 1, 3) or Steam (methods 0, 2) is missing; it raises iff a server has an empty address list; otherwise the command line is the launcher, `+VR` for methods 2 and 3, then `+multiplayer` and the `+connect=` argument as the source writes it (`ConnectArgAsWritten`, `None` in the password slot when there is no password) |
| LmuGame.LaunchArguments | src/lmu/lmu_game.py:418-440 | with both executables present the launch never refuses; the first argument is Steam for methods 0 and 2 and the game otherwise; `+VR` follows the launcher iff the method is a VR one |
| LmuGame.FirstFailure | src/lmu/lmu_game.py:119-125 | the index of the first mandatory group of the target that finds nothing: no group before it fails, it fails |
| LmuGame.RfactorPlayer.constructor | src/lmu/lmu_game.py:34-50 | the option groups as given, no error and an invalid player |
| LmuGame.RfactorPlayer.UpdatePlayerJson | src/lmu/lmu_game.py:236-266 | true iff the document is non-empty and holds the group's category; then that category becomes the group's options written into it; a missing category adds its message; otherwise the document is unchanged |
| LmuGame.RfactorPlayer.WriteOptionInto | src/lmu/lmu_game.py:245-264 | one option of the group goes into the category as `WriteOption` says: skipped, absent and not to be created, or without a value leaves it alone; otherwise the key and each duplicate key take the value |
| LmuGame.RfactorPlayer.GetOptionsFromPlayerJson | src/lmu/lmu_game.py:309-322 | true iff the document is non-empty and some option's name is in the group's category; the group becomes its options read from that category, and no other group changes |
| LmuGame.RfactorPlayer.ReadOptionsFromTarget | src/lmu/lmu_game.py:119-125 | the target's groups are read in order up to and including the first mandatory one that finds nothing; the result is true iff there is none; otherwise its name is added to the error and the player becomes invalid |
| LmuGame.RfactorPlayer.ReadTargetGroups | src/lmu/lmu_game.py:120-124 | returns the index of the first mandatory group of the target that finds nothing (the number of groups when none does), having read every target group up to and including it |
| LmuGame.RfactorPlayer.ReadTargetGroup | src/lmu/lmu_game.py:121 | reading one group of the target fails iff it is mandatory and finds none of its options in the document; the group is read as `ReadGroup` says |
| LmuGame.RfactorPlayer.GetOptionsFromDxConfig | src/lmu/lmu_game.py:288-306 | no configuration changes nothing; otherwise the options before the first one `int()` refuses are read as `DxOption` says; raising iff there is such an option; the result is true iff some name is in the section |
| LmuGame.RfactorPlayer.ReadDxOptions | src/lmu/lmu_game.py:293-306 | raising iff some option before the end is an int option whose text `int()` refuses; the options before that one are read as `DxOption` says and the rest are kept; without a raise, true iff some name is in the section |
| LmuGame.RfactorPlayer.WriteVideoOptions | src/lmu/lmu_game.py:195-204 | the section, the updated flag and the error are those of writing the preset's video options in order: a missing name adds a message, a set value writes `str()` of it |
| LmuGame.RfactorPlayer.WriteVideoGroup | src/lmu/lmu_game.py:196-204 | writing one video group continues the in-order write of the options before it: section, flag and error are those of writing all of them |
| LmuGame.RfactorPlayer.RunRfactor | src/lmu/lmu_game.py:399-449 | without the bin directory, a refusal and its message; otherwise exactly `LaunchCommand`, with its as-written `+connect=` argument, and the error is unchanged |
| LmuGame.RfactorPlayer.ReadPlayerJsonDict | src/lmu/lmu_game.py:324-346 | a missing file gives nothing; otherwise the document of the first encoding that decodes it, with the message of every failed read before it added to the error |
| LmuLocation.RfactorLocation.constructor | src/lmu/lmu_location.py:17-26 | no directory, every file path the empty path, not valid |
| LmuLocation.RfactorLocation.OverwriteLocation | src/lmu/lmu_location.py:29-43 | every file path is reset to the empty path, the location becomes invalid, and the directory is the given one or none |
| LmuLocation.RfactorLocation.SetLocation | src/lmu/lmu_location.py:46-77 | a directory holding the player settings and one of the two video configurations becomes the valid location with its six files; any other leaves every attribute unchanged; a consistent location stays consistent |
| LmuLocation.RfactorLocation.GetLocation | src/lmu/lmu_location.py:80-94 | an existing directory already set is tried again, otherwise the Steam lookup's answer; a raised lookup tries nothing; the directory tried goes through `SetLocation` |
| OpenXr.StripBom | src/lmu/mods/openxr.py:48-51 | a leading byte order mark is dropped, anything else is kept as it is |
| OpenXr.ListedPaths | src/lmu/mods/openxr.py:53-57 | every path read from the apps file is non-empty and holds no comma and no line-end character |
| OpenXr.UpdateAppsIni | src/lmu/mods/openxr.py:36-75 | a missing file is reported; a path already listed writes nothing; otherwise the file is rewritten with the BOM, `Apps=`, the listed paths and the new one joined by commas, and three CRLFs |
| OpenXr.ListedPathsOfText | src/lmu/mods/openxr.py:53-73 | reading a rewritten file gives back exactly the paths written |
| OpenXr.UpdateKeepsPaths | src/lmu/mods/openxr.py:53-73 | a rewrite keeps every listed path in order and adds the new one at the end |
| OpenXr.UpdateIdempotent | src/lmu/mods/openxr.py:59-61 | after a rewrite, updating again with the same path finds it listed and writes nothing |
| OpenXr.AppsIniFile.constructor | src/lmu/mods/openxr.py:36-38 | the apps file with the given content, or missing |
| OpenXr.AppsIniFile.Update | src/lmu/mods/openxr.py:36-75 | false iff the file is missing; the file holds the rewritten text exactly when `UpdateAppsIni` rewrites it, and is otherwise unchanged |
| OpenXr.Installed | src/lmu/mods/openxr.py:78-99 | 0 when the registry cannot be used or the key cannot be opened, 1 iff the layer's value is 0, -1 iff it is another value, None iff the key opens and holds no value for the layer |
| OpenXr.RemoveLayer | src/lmu/mods/openxr.py:102-119 | False iff the registry is unavailable or the key does not open; an OSError (None) leaves the call iff the key opens, holds the layer's value and the delete fails; True otherwise, and then the layer's value is gone and every other value kept; in the other cases the key is unchanged |
| OpenXr.SetupLayer | src/lmu/mods/openxr.py:130-167 | succeeds iff the key can be created and either the layer is already enabled and should stay so or the value can be set; on success the layer's value is 0 iff enabling; other values are kept and nothing else is added |
| OpenXr.SetupThenInstalled | src/lmu/mods/openxr.py:78-167 | after a successful setup the installation check reports enabled (1) or disabled (-1) as asked |
| OpenXr.SetupIdempotent | src/lmu/mods/openxr.py:130-167 | a second setup with the same wish succeeds and changes nothing |
| OpenXr.RemoveThenNotInstalled | src/lmu/mods/openxr.py:78-119 | after a removal that returns True the installation check finds no value for the layer |
| OpenXr.Registry.constructor | src/lmu/mods/openxr.py:21-90 | the implicit API layer key as given |
| OpenXr.Registry.IsInstalled | src/lmu/mods/openxr.py:78-99 | the answer is `Installed` of the current key |
| OpenXr.Registry.Remove | src/lmu/mods/openxr.py:102-119 | the result (None when the delete raises) and the new key are those of `RemoveLayer` |
| OpenXr.Registry.Setup | src/lmu/mods/openxr.py:122-167 | the result and the new key are those of `SetupLayer`; the apps file is rewritten only when the registry is available, a game is given and `UpdateAppsIni` rewrites it |
| Patterns.Search | src/lmu/rf2results.py:132-140 | the leftmost position at or after the start where the pattern matches, or None when it matches nowhere |
| Patterns.SearchFinds | src/lmu/rf2results.py:130-142 | a match with none before it is what the search finds |
| Patterns.NoMatchWithout | src/lmu/rf2results.py:130-142 | a pattern that begins with a literal does not match where that character is absent |
| Patterns.ScanLine | src/lmu/rf2replays.py:69-79 | true iff the pattern matches at some position reached without crossing a newline |
| Patterns.ScanLineMatches | src/lmu/rf2replays.py:69-79 | scanning from the start decides `re.match(".*" + pattern)` |
| PresetRoundTrip.ReadLinesAppend | src/lmu/mods/vrtoolkit.py:501-529 | reading a file in two parts reads the second part from where the first left off, unless the first raised |
| PresetRoundTrip.IniLineUnknown | src/lmu/mods/vrtoolkit.py:513-519 | a line `k=rest` whose name is not a setting leaves the settings unchanged |
| PresetRoundTrip.IniLineKnown | src/lmu/mods/vrtoolkit.py:513-529 | under either conversion (the source's `ConvertAsWritten` or the corrected one), a line `k=rest` naming a setting whose text converts sets that setting to the converted value |
| PresetRoundTrip.ReadOtherLine | src/lmu/mods/vrtoolkit.py:501-529 | a line that is not the preprocessor line changes at most the settings and the Clarity flag |
| PresetRoundTrip.ReadDefinitionsLine | src/lmu/mods/vrtoolkit.py:502-510 | the preprocessor line reads its definitions and, its name not being a setting, changes nothing else |
| PresetRoundTrip.ReadPreprocessorLine | src/lmu/mods/vrtoolkit.py:365-510 | the written preprocessor line reads back as the written definitions |
| PresetRoundTrip.ReadTechniquesLine | src/lmu/mods/vrtoolkit.py:372-512 | a written techniques line sets the Clarity flag iff Clarity was written into it |
| PresetRoundTrip.ReadPlainLine | src/lmu/mods/vrtoolkit.py:389-529 | a blank line or a section header changes nothing |
| PresetRoundTrip.ReadValueLine | src/lmu/mods/vrtoolkit.py:353-529 | the value line of a setting readable under the conversion reads back as that setting set to its value; as written that is a non-negative float, corrected any int or float |
| PresetRoundTrip.ApplyAll | src/lmu/mods/vrtoolkit.py:513-529 | setting entries one after the other keeps the names of the settings |
| PresetRoundTrip.ReadValueLines | src/lmu/mods/vrtoolkit.py:397-529 | a run of value lines readable under the conversion reads back as each of its settings set in turn |
| PresetRoundTrip.Overlay | src/lmu/mods/vrtoolkit.py:383-400 | the settings after a section are as many as before, each the written value where the section writes it |
| PresetRoundTrip.ApplyChanged | src/lmu/mods/vrtoolkit.py:397-400 | setting the entries a section writes gives exactly the overlay of that section |
| PresetRoundTrip.OverlayUnion | src/lmu/mods/vrtoolkit.py:381-400 | the Clarity section and then the VRToolkit section set what either of them writes |
| PresetRoundTrip.ReadSection | src/lmu/mods/vrtoolkit.py:389-529 | one section read back (blank line, header, value lines) sets exactly the settings it writes, when each setting it writes (a section key whose value differs from the default by Python `!=`) is readable under the conversion; the settings it leaves out may be anything |
| PresetRoundTrip.ReadHeader | src/lmu/mods/vrtoolkit.py:371-512 | the three header lines read back as the written definitions and a Clarity flag equal to the switch written |
| PresetRoundTrip.PresetReadsBack | src/lmu/mods/vrtoolkit.py:359-538 | the whole preset file read back gives the written definitions, the written settings over the reader's own, and the Clarity switch it was written with, without raising; required of the settings is only that each one written (differing from the reader's defaults) is readable, which with the source's reader means a non-negative float and with the corrected reader any int or float, and that no setting is named like a header line |
| PresetRoundTrip.OneChangeReadsBack | src/lmu/mods/vrtoolkit.py:359-538 | a toolkit at its defaults with one VRToolkit setting changed to a readable value writes a preset that reads back as exactly the changed settings, whatever the unchanged settings hold (ints, strings) |
| PresetRoundTrip.PlainDefinitionsReadBack | src/lmu/mods/vrtoolkit.py:43-52 | definitions with plain names and non-negative int or quoted-file values are rereadable and cannot spell the preprocessor prefix |
| PresetRoundTrip.PreprocessorDefaultsPlain | src/lmu/mods/vrtoolkit.py:43-52 | the toolkit's own preprocessor table has unique names and only plain definitions |
| PresetRoundTrip.HeaderNamesNotSettings | src/lmu/mods/vrtoolkit.py:42-56 | when no table key starts with `P` or `T`, none of the header names is a setting of the merged tables |
| PresetRoundTrip.TableChangeReadsBack | src/lmu/mods/vrtoolkit.py:224-538 | over tables shaped like the toolkit's, changing a float setting of the first table to any non-negative value writes a preset that the program's reader reads back as exactly those settings, the definitions and the Clarity switch |
| PresetRoundTrip.RealPresetReadsBack | src/lmu/mods/vrtoolkit.py:224-538 | on the toolkit's own tables and preprocessor defaults, `FAS_Radius` set to any non-negative float reads back, with the program's reader, as exactly the changed settings, the default definitions and the Clarity switch, although the Clarity table holds ints and the LUT table a string |
| PresetRoundTrip.RereadFromDefaults | src/lmu/mods/vrtoolkit.py:383-529 | over a toolkit holding the defaults, the overlay that `PresetReadsBack` reads gives every setting the preset covers equal by Python `==` to the value written (so, as written, for non-negative float settings) |
| Rf2Command.KindFromCode | src/lmu/rf2command.py:34-89 | a command number names a handler iff it is 0 to 19, and the handler's own number is that number |
| Rf2Command.StateLabel | src/lmu/rf2command.py:135 | the waited-for state shows as Unavailable, Loading or Ready for 0, 1 and 2, and as None for anything else |
| Rf2Command.StateLabelOfState | src/lmu/rf2command.py:135 | a waited-for state shows under its own name |
| Rf2Command.SeriesArgs | src/lmu/rf2command.py:21-28 | from version "1.1125" on (as a string comparison) the series id goes into the URL as a signature, before it as the request data |
| Rf2Command.SeriesArgsByVersion | src/lmu/rf2command.py:23 | the version test compares strings: "1.2" counts as newer than "1.1125", "1.1000" as older |
| Rf2Command.EffectiveTimeout | src/lmu/rf2command.py:78-83 | a missing or zero timeout becomes 480 s, any other is kept |
| Rf2Command.TimedOutMonotone | src/lmu/rf2command.py:103-112 | a command is not timed out at its activation time nor exactly its timeout later, and once timed out it stays so |
| Rf2Command.NavMessage | src/lmu/rf2command.py:188-190 | the status shows the action from its fifth character on, without a leading `TO_` |
| Rf2Command.FirstReplay | src/lmu/rf2command.py:159-164 | the index of the first replay whose name equals the payload, or -1 when there is none |
| Rf2Command.FocusSlot | src/lmu/rf2command.py:372-376 | the slot of the FIRST standing entry whose driver equals the payload (the loop breaks there); -1 when no entry matches |
| Rf2Command.Attempts | src/lmu/rf2command.py:247-258 | up to three POSTs: the first that passes the check gives its reported value, every earlier one failed; with none passing all three were sent |
| Rf2Command.ReachedTargetMeans | src/lmu/rf2command.py:260 | comparing the printed reported value with the printed target is comparing the values |
| Rf2Command.Steps | src/lmu/rf2command.py:246-261 | `n` unit steps send only POSTs for this setting in this direction, at most three per step |
| Rf2Command.KeySteps | src/lmu/rf2command.py:231-244 | a setting sends at most three POSTs per unit of its distance to the target, none when it is skipped |
| Rf2Command.SessionKeys | src/lmu/rf2command.py:230-261 | the settings' POSTs are as many as the scripted replies consumed |
| Rf2Command.SessionKeysBound | src/lmu/rf2command.py:230-261 | over all settings, at most three POSTs per unit of total distance |
| Rf2Command.StepsAllSucceed | src/lmu/rf2command.py:246-261 | when every POST passes and the target is never reported, exactly `n` POSTs go out |
| Rf2Command.StepsStopAtTarget | src/lmu/rf2command.py:260-261 | when the first POST reports the target, the setting stops after that POST |
| Rf2Command.StepsNoReply | src/lmu/rf2command.py:247-258 | with no reply at all, every step makes all three attempts |
| Rf2Command.SkippedKeysSendNothing | src/lmu/rf2command.py:233-239 | settings that are missing or already at their target send nothing |
| Rf2Command.SingleSettingPosts | src/lmu/rf2command.py:241-261 | an off-target setting posts only its own key, with direction 1 iff the target is above the current value, at most three per unit of distance |
| Rf2Command.SessionLengthExample | src/lmu/rf2command.py:230-261 | from 3 to 5 with every POST answered, exactly two increments are sent |
| Rf2Command.WaitForStateFinishesIff | src/lmu/rf2command.py:131-135 | `wait_for_state` finishes iff the game is in the awaited state, and shows that state's name |
| Rf2Command.PlayReplayCases | src/lmu/rf2command.py:146-180 | no name does nothing; a replay of that name is played and the command finishes live; no such replay asks for a queue reset; both flag a replay as playing and save the settings |
| Rf2Command.SessionSettingsExits | src/lmu/rf2command.py:212-266 | no non-empty dict or a failed session read leaves the command unfinished; without the REST API it finishes at once; otherwise it finishes after the setting POSTs (bounded by the total distance), a sound and the main-menu navigation |
| Rf2Command.PostCommandsFinishIff | src/lmu/rf2command.py:268-288 | starting the race and driving finish iff their POST passed the check |
| Rf2Command.FinishingKinds | src/lmu/rf2command.py:131-395 | every kind other than the seven waiting ones finishes on its first run, and only `play_replay` asks for a queue reset |
| Rf2Command.NavActionPosts | src/lmu/rf2command.py:182-195 | a navigation action posts to its own action URL, shows its target and finishes |
| Rf2Command.NavMessageExamples | src/lmu/rf2command.py:188-190 | `NAV_TO_FULL_EVENT_MONITOR` shows as `FULL_EVENT_MONITOR`, `NAV_BACK_TO_MAIN_MENU` as `BACK_TO_MAIN_MENU` |
| Rf2Command.ReplayFocusCases | src/lmu/rf2command.py:362-383 | `replay_focus` always finishes; when the standings request passes, its effects are exactly one PUT of the first matching entry's slot if that slot is not -1, and none otherwise; no PUT without a passing request |
| Rf2Command.Command.constructor | src/lmu/rf2command.py:80-87 | the kind, the payload, the effective timeout, unfinished, no reset request, created now |
| Rf2Command.Command.Activate | src/lmu/rf2command.py:99-101 | the timeout clock restarts now |
| Rf2Command.Command.FindReplay | src/lmu/rf2command.py:159-164 | the replay search loop finds `FirstReplay` |
| Rf2Command.Command.FindFocusSlot | src/lmu/rf2command.py:372-376 | the standings loop finds `FocusSlot` |
| Rf2Command.Command.SendAttempts | src/lmu/rf2command.py:247-258 | the retry loop sends as many POSTs as `Attempts` consumes replies and returns its result |
| Rf2Command.Command.SendSteps | src/lmu/rf2command.py:246-261 | the step loop sends exactly the POSTs of `Steps` |
| Rf2Command.Command.SendKey | src/lmu/rf2command.py:231-261 | one setting sends exactly the POSTs of `KeySteps` |
| Rf2Command.Command.SendSessionSettings | src/lmu/rf2command.py:230-261 | the settings loop sends exactly the POSTs of `SessionKeys` |
| Rf2Command.Command.Execute | src/lmu/rf2command.py:91-395 | one run of the handler of the command's kind has exactly the outcome `Handle` gives: finished and reset flags, status, live and quit events, benchmark request, replay flag, effects |
| Rf2Command.Command.ExecuteWaiting | src/lmu/rf2command.py:131-289 | for the kinds that may stay unfinished, the handler has exactly `Handle`'s outcome and never requests a benchmark recording |
| Rf2Command.Command.ExecuteOnce | src/lmu/rf2command.py:202-396 | for the other kinds, the handler finishes, never resets the queue, touches neither live, quit nor replay flags, and otherwise has `Handle`'s outcome |
| Rf2Command.Command.PressWithModifier | src/lmu/rf2command.py:300-331 | the modifier is held down around the key tap when there is a key, the status names it, and the command finishes |
| Rf2Command.Orders | src/lmu/rf2command.py:401 | the kinds, payloads and timeouts of the queued commands, in queue order |
| Rf2Command.CommandQueue.constructor | src/lmu/rf2command.py:401-406 | an empty queue, no current command, last command time 0 |
| Rf2Command.CommandQueue.Append | src/lmu/rf2command.py:408-410 | the command goes to the tail |
| Rf2Command.CommandQueue.AppendNew | src/lmu/rf2command.py:80-87 | a new unfinished command with the effective timeout goes to the tail and the queue before it is kept |
| Rf2Command.CommandQueue.Reset | src/lmu/rf2command.py:412-415 | the queue is emptied |
| Rf2Command.CommandQueue.GetNext | src/lmu/rf2command.py:421-429 | the head leaves the queue, becomes current and is re-activated now; an empty queue gives no current command |
| Rf2Command.CommandQueue.Next | src/lmu/rf2command.py:431-449 | the current command is kept while it is not resetting, timed out or finished; otherwise a reset request empties the queue and the next head (if any) becomes current |
| Rf2Command.CommandQueue.Run | src/lmu/rf2command.py:451-479 | one tick: the command `Next` chooses is executed and stamps the time; its effects, finished and reset flags, status, live flag, quit result, benchmark request and replay flag are those `Handle` gives (`Applied`); with none executed the live flag, quit result, benchmark request and replay flag are unchanged; with none for more than 30 s the status is cleared and the connection is checked at the idle interval, otherwise at the active one |
| Rf2Command.CommandQueue.Dispatch | src/lmu/rf2command.py:458-479 | after the choice: with no command for more than 30 s, the status is cleared and the connection checked at the idle interval; otherwise it is checked at the active interval, and a command runs with every outcome field as `Handle` gives it (effects, finished, reset, and the events and settings through `Applied`) and stamps the time; with none, the flags are unchanged |
| Rf2Connect.GetResult | src/lmu/rf2connect.py:47-70 | a raised GET queues nothing; no reply queues False; a 2xx reply queues its JSON; any other status queues a dict holding only that status |
| Rf2Connect.ActiveInterval | src/lmu/rf2connect.py:340-344 | the interval is lowered to at most the active timeout and otherwise kept |
| Rf2Connect.IdleInterval | src/lmu/rf2connect.py:346-350 | the interval is raised to at least the idle timeout and otherwise kept |
| Rf2Connect.ClampsIdempotent | src/lmu/rf2connect.py:340-350 | each clamp is idempotent, and clamping one way after the other gives that bound |
| Rf2Connect.FirstGameProcess | src/lmu/rf2connect.py:159-167 | the index of the first process whose lower-cased name starts with the game executable's, or -1 |
| Rf2Connect.DetectProcessesSpec | src/lmu/rf2connect.py:169-176 | the game counts as running iff the known pid or some game process is listed; only the remembered pid may change, and nothing does when it is not running |
| Rf2Connect.SetStateFromDict | src/lmu/rf2connect.py:238-248 | a navigation dict with a status other than 200 means Loading; otherwise Loading iff the loading flag is set and Ready iff it is not; pid, port, requests and last check are kept |
| Rf2Connect.SetStateNoResponseDetected | src/lmu/rf2connect.py:249-255 | no response while the game process is listed: waiting for the process at the active interval; the pid is kept while it runs, otherwise the first game process's pid is remembered; every other field is unchanged |
| Rf2Connect.SetStateNoResponseGone | src/lmu/rf2connect.py:256-264 | no response and no game process: Unavailable, shared-memory checks back to unknown, the idle interval when the state changed |
| Rf2Connect.StateChangeEffects | src/lmu/rf2connect.py:260-268 | no change of state changes nothing; a change to Loading or waiting lowers the interval, to Unavailable raises it, and to Ready turns unknown shared-memory checks on |
| Rf2Connect.GetResultThenSetState | src/lmu/rf2connect.py:57-258 | a GET with an error status ends as Loading; a GET without a reply ends as waiting for the process or Unavailable |
| Rf2Connect.PendingResponseWins | src/lmu/rf2connect.py:206-209 | a pending response empties the response queue, the last one is applied by `set_state`, and nothing is polled |
| Rf2Connect.PollEnqueuesExactlyWhen | src/lmu/rf2connect.py:214-232 | the navigation GET is queued iff a check is due, the port is known or found and the request queue is empty; only then does the last-check time change |
| Rf2Connect.PollIntervalGrowth | src/lmu/rf2connect.py:219-221 | the interval grows by a factor of 1.1 iff a check is due and it is below 120 s |
| Rf2Connect.CheckConnectionPollsOnly | src/lmu/rf2connect.py:201-232 | without a pending response and with shared-memory checks not on, only the poll step runs and the state is kept |
| Rf2Connect.SharedMemoryShutdown | src/lmu/rf2connect.py:187-199 | when shared memory reports the game stopped, a still-listed game process keeps the state and lowers the interval; otherwise the state becomes Unavailable and the pid is looked for again |
| Rf2Connect.RequestThread.constructor | src/lmu/rf2connect.py:29-32 | both queues empty |
| Rf2Connect.RequestThread.Serve | src/lmu/rf2connect.py:40-70 | the oldest request leaves the queue and the `GetResult` of its outcome is queued, unless it raised |
| Rf2Connect.RequestThread.CheckResponse | src/lmu/rf2connect.py:89-98 | the response queue is drained and its last entry returned, None when it was empty |
| Rf2Connect.RfactorConnect.constructor | src/lmu/rf2connect.py:122-140 | state Unavailable, port 0, the idle interval, no pid, shared-memory checks unknown, empty queues |
| Rf2Connect.RfactorConnect.BaseUrl | src/lmu/rf2connect.py:155-157 | `http://localhost:` followed by the port |
| Rf2Connect.RfactorConnect.SetToActiveTimeout | src/lmu/rf2connect.py:340-344 | the interval becomes `ActiveInterval` of the old one |
| Rf2Connect.RfactorConnect.SetToIdleTimeout | src/lmu/rf2connect.py:346-350 | the interval becomes `IdleInterval` of the old one |
| Rf2Connect.RfactorConnect.GetPid | src/lmu/rf2connect.py:159-167 | the pid of the first game process, which is remembered, or -1 with the remembered pid kept |
| Rf2Connect.RfactorConnect.ProcessesDetected | src/lmu/rf2connect.py:169-176 | the result and the new state are `DetectProcesses` |
| Rf2Connect.RfactorConnect.SharedMemoryCheck | src/lmu/rf2connect.py:178-199 | the new state is `SharedMemoryCheckSpec` of the old one |
| Rf2Connect.RfactorConnect.SetState | src/lmu/rf2connect.py:234-268 | the new state is `SetStateSpec` of the old one |
| Rf2Connect.RfactorConnect.CheckConnection | src/lmu/rf2connect.py:201-232 | the new state is `CheckConnectionSpec` of the old one |
| Rf2Replays.ReplayType | src/lmu/rf2replays.py:69-79 | the type is 4, 1, 2, 3 or 5 iff that pattern is the first of hot lap, qualifying, practice, race and warm-up to match within the name's first line, and 0 iff none does |
| Rf2Replays.Absent | src/lmu/rf2replays.py:69-79 | a pattern whose first character does not occur in the name does not match it |
| Rf2Replays.FujiRace | tests/lmu/replay.py:18 | "Fuji Speedway R1 1" is a race (3) |
| Rf2Replays.FujiQualifying | tests/lmu/replay.py:19 | "Fuji Speedway Q1 1" is a qualifying (1) |
| Rf2Replays.MonzaPractice | tests/lmu/replay.py:20 | "Autodromo Nazionale Monza P1 1" is a practice (2) |
| Rf2Replays.Insert | src/lmu/rf2replays.py:91 | inserting adds exactly that replay to the multiset of replays |
| Rf2Replays.SortByCtime | src/lmu/rf2replays.py:91 | the sort is a permutation of its input |
| Rf2Replays.InsertOrdered | src/lmu/rf2replays.py:91 | inserting a replay listed before all others into an ordered list keeps it ordered |
| Rf2Replays.SortOrdered | src/lmu/rf2replays.py:91 | sorting a listing gives newest first, equally old replays in listing order |
| Rf2Replays.Listed | src/lmu/rf2replays.py:65-89 | one entry per file, its id the position in the folder listing, its type `ReplayType` of its name |
| Rf2Replays.GetReplays | src/lmu/rf2replays.py:60-91 | the result is the listing sorted by modification time, newest first |
| Rf2Replays.GetReplaysOrder | src/lmu/rf2replays.py:60-91 | every listed replay comes out exactly once, times never increase along the list, equal times keep listing order |
| Rf2Replays.DeleteFoldFiles | src/lmu/rf2replays.py:45-53 | a file is left after deleting iff it was there and the folder is unknown, or no replay names it, or its removal fails |
| Rf2Replays.DeleteFoldErrors | src/lmu/rf2replays.py:42-57 | at most one message per replay; without a folder every replay gives the `None / str` message; no message at all iff the folder is known and no listed file that exists fails to be removed |
| Rf2Replays.ReplayFolder.constructor | src/lmu/rf2replays.py:41-43 | the files on disk as given |
| Rf2Replays.ReplayFolder.DeleteReplays | src/lmu/rf2replays.py:41-57 | the given folder or else the configured one; the files left and the messages are those of `DeleteFold`; the result is true iff there are no messages |
| Rf2Results.LapTimeParts | src/lmu/rf2results.py:11-17 | a positive time is written `m:ss.mmm` with three digit groups (two and three wide) worth the time with whole hours dropped |
| Rf2Results.LapTimeRoundTrip | src/lmu/rf2results.py:11-17 | a positive time's string reads back as the time modulo one hour; the empty lap string reads as no time |
| Rf2Results.LapTimeStringEmpty | src/lmu/rf2results.py:8-17 | the string is the empty lap string `-:--.---` iff the time is 0; any other time reads back (hours dropped) |
| Rf2Results.LapTimeStringPieces | src/lmu/rf2results.py:14-17 | the string is the minutes (modulo 60), the seconds in two digits and the milliseconds in three |
| Rf2Results.LapTimeOrder | src/lmu/rf2results.py:11-191 | for times between 0 and ten minutes, the strings compare lexicographically exactly as the times do |
| Rf2Results.NinetySeconds | src/lmu/rf2results.py:11-17 | 90 000 ms is written `1:30.000` |
| Rf2Results.TenMinutesFive | src/lmu/rf2results.py:11-17 | 605 000 ms is written `10:05.000` |
| Rf2Results.MinTime | src/lmu/rf2results.py:106-188 | `sorted(xs)[0]` of a non-empty list of times: an element no greater than any other |
| Rf2Results.MinIndex | src/lmu/rf2results.py:106-188 | the position of an element no greater than any other |
| Rf2Results.MinString | src/lmu/rf2results.py:189-191 | `sorted(strings)[0]`: an element of the list that no element is lexicographically smaller than |
| Rf2Results.SectorValueOf | src/lmu/rf2results.py:56-60 | a sector string of a time under one hour is worth that time |
| Rf2Results.PurpleSector | src/lmu/rf2results.py:189-191 | the corrected purple sector: one of the sector strings, worth no more time than any other |
| Rf2Results.PurpleSectorsAgree | src/lmu/rf2results.py:189-191 | when every sector is under ten minutes, the lexicographic pick of the source and the fastest-time pick are the same string |
| Rf2Results.LongSectorAsWritten | src/lmu/rf2results.py:189-191 | the lexicographic pick over `1:30.000` and `10:05.000` is `10:05.000` |
| Rf2Results.LongSectorIntended | src/lmu/rf2results.py:189-191 | the fastest-time pick over the same two is `1:30.000` |
| Rf2Results.PurpleSectorLongSector | src/lmu/rf2results.py:56-191 | sectors of 90 s and 605 s give those two strings, and the two picks disagree on them |
| Rf2Results.LapEntry | src/lmu/rf2results.py:54-67 | the lap time is the element's; each sector string is empty iff the sector time is 0, and otherwise reads back as that time |
| Rf2Results.LapTimesSpec | src/lmu/rf2results.py:106-181 | the positive lap times are exactly the times of the laps that are above 0 |
| Rf2Results.SectorsSpec | src/lmu/rf2results.py:182-184 | a driver's kept sector strings are exactly the sector strings of its laps other than the empty lap string |
| Rf2Results.FastestLap | src/lmu/rf2results.py:106-109 | 0 iff every lap time is 0; otherwise the time of one of the laps and no greater than any positive lap time |
| Rf2Results.LeadTimesLast | src/lmu/rf2results.py:176-180 | a class has a leader entry iff some driver of that class has class position 1; the entry is the finish time and laps of the last such driver |
| Rf2Results.AllLapTimesSpec | src/lmu/rf2results.py:178-181 | the pooled lap times are exactly the positive lap times of every driver's laps |
| Rf2Results.AllSectorsSpec | src/lmu/rf2results.py:178-184 | the pooled strings of a sector are exactly the non-empty sector strings of every driver's laps |
| Rf2Results.PurpleOf | src/lmu/rf2results.py:186-191 | purple values exist iff there are lap times and strings of all three sectors; the lap is the smallest pooled time and each sector the source's pick `PurpleSectorAsWritten` (smallest in string order) of the pooled strings, else all are absent |
| Rf2Results.PurpleLapIsFastest | src/lmu/rf2results.py:186-188 | the purple lap is the time of some driver's lap, and no positive lap of any driver is faster |
| Rf2Results.PurpleSectorIsSmallest | src/lmu/rf2results.py:189-191 | each purple sector the results use is a sector string some driver set, and no non-empty sector string of any driver sorts before it in string order |
| Rf2Results.PurpleSectorIsFastest | src/lmu/rf2results.py:189-191 | the corrected pick `PurpleSector`, which the model does not use for the results: a sector string some driver set, and no non-empty sector string of any driver is worth less |
| Rf2Results.MarkLapsSpec | src/lmu/rf2results.py:204-212 | a purple mark is set iff some lap of the driver carries the purple lap or sector, otherwise it keeps its old value; no other field changes |
| Rf2Results.GlobalData | src/lmu/rf2results.py:193-212 | one updated driver for every driver, in the same order; its meaning is stated by the three lemmas below |
| Rf2Results.GlobalDataBehindLeader | src/lmu/rf2results.py:193-212 | with a class leader that has a finish time: the delta is the time behind the leader (0 if ahead), the laps behind are the leader's laps less its own (0 if not fewer), `+NL` is set only when some are behind, the purple marks follow the laps, the driver's own values stay |
| Rf2Results.LeaderHasNoDelta | src/lmu/rf2results.py:193-201 | a class leader with a finish time is no time and no laps behind, and gets no `+NL` |
| Rf2Results.NoLeaderUntouched | src/lmu/rf2results.py:194-196 | a driver whose class has no driver in class position 1 is left unchanged |
| Rf2Results.FindMarker | src/lmu/rf2results.py:133-140 | `re.search(r"\(\d{1,3}\)")`: the leftmost position holding one to three digits in parentheses, or none |
| Rf2Results.IncidentDrivers | src/lmu/rf2results.py:130-142 | at most two names; with a marker, the first is the text before it; with neither a marker nor the vehicle phrase, no names |
| Rf2Results.MarkerFound | src/lmu/rf2results.py:133 | a number under 1000 in parentheses after text without `(` is the first marker |
| Rf2Results.VehicleFound | src/lmu/rf2results.py:132 | "with another vehicle " after text without `w` is the first match of the vehicle phrase |
| Rf2Results.IncidentDriversAt | src/lmu/rf2results.py:130-142 | with a marker at i, the phrase at j and a marker k after it, the names are the text before i and the text after the phrase before k |
| Rf2Results.IncidentRoundTrip | src/lmu/rf2results.py:130-142 | an incident text `A(n)… with another vehicle B(m)…` names exactly A and B |
| Rf2Results.ReadEntry | src/lmu/rf2results.py:118-128 | the entry keeps the element's tag, time and text, and names drivers only when it is an incident |
| Rf2Results.IncidentsSpec | src/lmu/rf2results.py:168-173 | only incidents are kept, each with the drivers its text names; every incident of the stream is kept; no more entries than elements |
| Rf2Results.RfactorResults.constructor | src/lmu/rf2results.py:146-156 | without a file everything is empty and 0; with one, its race laps and time, its drivers after the global data, and its incidents |
| Rf2Results.RfactorResults.ReadResultFile | src/lmu/rf2results.py:154-173 | race laps and time are the file's; the file's drivers are appended and the global data recomputed over all drivers; its incidents are appended |
| Rf2Results.RfactorResults.ReadDrivers | src/lmu/rf2results.py:164-165 | one driver entry per driver element is appended, in document order |
| Rf2Results.RfactorResults.CreateGlobalData | src/lmu/rf2results.py:175-212 | the drivers become the global data of the drivers before the call |
| Rf2Results.RfactorResults.UpdateDrivers | src/lmu/rf2results.py:193-212 | every driver becomes `UpdateDriver` of itself against the class lead times and the purple values; the number of drivers is kept |
| Rf2Results.RfactorResults.ReadStream | src/lmu/rf2results.py:168-173 | the entries are the old ones followed by the stream's incidents, in order |
| Rf2Results.UpdateOne | src/lmu/rf2results.py:193-212 | one pass of the second loop over a driver gives that driver's global update |
| Rf2Results.MarkPurple | src/lmu/rf2results.py:204-212 | the inner loop over the laps gives the driver with its laps checked in order against the purple values |
| VrToolkit.Put | src/lmu/mods/vrtoolkit.py:239-265 | Python `d[k] = v`: a present key keeps its place, a new key goes at the end |
| VrToolkit.PutLookup | src/lmu/mods/vrtoolkit.py:239-265 | after `d[k] = v` the key `k` looks up `v` and every other key looks up what it did before |
| VrToolkit.PutUnique | src/lmu/mods/vrtoolkit.py:239-240 | `d[k] = v` keeps every key once |
| VrToolkit.PutAllUnique | src/lmu/mods/vrtoolkit.py:225-235 | `dict.update` keeps every key once |
| VrToolkit.PutAllLookup | src/lmu/mods/vrtoolkit.py:225-235 | after `d.update(t)` a key of `t` has `t`'s value and every other key keeps its value |
| VrToolkit.PutTablesUnique | src/lmu/mods/vrtoolkit.py:225-235 | updating with the tables in turn keeps every key once |
| VrToolkit.AllSettingsUnique | src/lmu/mods/vrtoolkit.py:224-236 | the merged settings of the VRToolkit and Clarity tables hold every key once |
| VrToolkit.AllSettingsKeys | src/lmu/mods/vrtoolkit.py:224-236 | the merged settings have exactly the keys of the tables merged into them |
| VrToolkit.PutAllLookupOutside | src/lmu/mods/vrtoolkit.py:225-235 | `d.update(t)` leaves the value of a key `t` lacks unchanged |
| VrToolkit.FirstTableLookup | src/lmu/mods/vrtoolkit.py:224-236 | a key only the first VRToolkit table has keeps that table's value in the merged settings |
| VrToolkit.TakeOption | src/lmu/mods/vrtoolkit.py:255-265 | taking one option from the preset changes no key of either table |
| VrToolkit.TakePrefix | src/lmu/mods/vrtoolkit.py:253-265 | taking several options from the preset changes no key of either table |
| VrToolkit.ShowOption | src/lmu/mods/vrtoolkit.py:266-282 | the option keeps its key; it is held by the files iff it was, is a switch or is in a table; `use_reshade` shows true and `use_openxr` the layer state unless a table holds them; `use_clarity` shows whether the preset names Clarity; any other option shows the preprocessor's value first, else the setting's, else stays as it was |
| VrToolkit.ShowOptions | src/lmu/mods/vrtoolkit.py:253-282 | each option of a group shown from the tables on its own, in order |
| VrToolkit.Absent | src/lmu/mods/vrtoolkit.py:248-251 | the group with every option marked as not held by the files, nothing else changed |
| VrToolkit.SyncPrefix | src/lmu/mods/vrtoolkit.py:242-284 | one group out for every group in |
| VrToolkit.SyncAll | src/lmu/mods/vrtoolkit.py:242-284 | the exchange leaves as many groups as it was given |
| VrToolkit.DiskKeepsTables | src/lmu/mods/vrtoolkit.py:266-282 | reading from the files leaves the switches off and both tables as they were |
| VrToolkit.DiskShowsOptions | src/lmu/mods/vrtoolkit.py:246-282 | reading from the files marks the Clarity group absent and shows every option of every other group from the tables |
| VrToolkit.PresetKeepsOptions | src/lmu/mods/vrtoolkit.py:246-265 | taking from the preset changes no option's key or value; only the Clarity group may be marked absent |
| VrToolkit.SyncKeepsKeys | src/lmu/mods/vrtoolkit.py:242-284 | neither direction adds or removes a key of either table |
| VrToolkit.TakeThenShow | src/lmu/mods/vrtoolkit.py:255-282 | an option taken from the preset into a table shows back from that table as it was, now held by the files |
| VrToolkit.ReshadeIniLines | src/lmu/mods/vrtoolkit.py:429-436 | every line of ReShade's INI rewritten on its own, in order, none added or removed |
| VrToolkit.ReshadeIniRewrite | src/lmu/mods/vrtoolkit.py:417-479 | the same number of lines; lines not starting with `PresetPath=` or `NoReloadOnInitForNonVR` are kept; those become the preset path line and `NoReloadOnInitForNonVR=0`; a second rewrite (the INI under its second name, which is the same file) changes nothing |
| VrToolkit.RemovedDirs | src/lmu/mods/vrtoolkit.py:465-473 | every directory removed is one tried whose removal does not raise |
| VrToolkit.DirsAccounted | src/lmu/mods/vrtoolkit.py:465-473 | a directory tried is removed iff its removal does not raise |
| VrToolkit.RemovedLongestFirst | src/lmu/mods/vrtoolkit.py:466 | when the directories are tried longest path first, they are removed longest path first |
| VrToolkit.PreprocessorTable.constructor | src/lmu/mods/vrtoolkit.py:45-54 | the eight preprocessor definitions with their default values, in the class's order |
| VrToolkit.GameDir.constructor | src/lmu/mods/vrtoolkit.py:421-446 | the preset file and ReShade's INI as given, nothing removed |
| VrToolkit.GameDir.UpdateReshadeIni | src/lmu/mods/vrtoolkit.py:417-440 | raises iff the INI is missing, which then stays missing; otherwise the INI's lines are rewritten |
| VrToolkit.VrToolKit.constructor | src/lmu/mods/vrtoolkit.py:63-240 | the groups and preprocessor as given, no error; settings and defaults both the merged tables; the two key sets those of the VRToolkit tables and of the Clarity table |
| VrToolkit.VrToolKit.CopyDefaults | src/lmu/mods/vrtoolkit.py:238-240 | both empty dicts become the merged settings, in order |
| VrToolkit.VrToolKit.TakeGroup | src/lmu/mods/vrtoolkit.py:253-265 | the switches and both tables after one group are those of the preset direction |
| VrToolkit.VrToolKit.ShowGroup | src/lmu/mods/vrtoolkit.py:253-282 | each option shown from the tables, in order |
| VrToolkit.VrToolKit.UpdateOptions | src/lmu/mods/vrtoolkit.py:242-284 | the returned switches, both tables and the groups are those of the exchange from the old state |
| VrToolkit.VrToolKit.UpdateGroup | src/lmu/mods/vrtoolkit.py:246-282 | one group: a Clarity group while Clarity is off is marked absent; from disk its options are shown from the tables; otherwise its options feed the switches and tables, as `SyncGroup` says |
| VrToolkit.VrToolKit.ReadDefinitionsInto | src/lmu/mods/vrtoolkit.py:503-510 | the preprocessor is the old one with the definitions stored one by one, up to the first that raises, and the result says whether one raised |
| VrToolkit.VrToolKit.ReadSettingsFrom | src/lmu/mods/vrtoolkit.py:513-529 | raises iff the line's value cannot be read by the source's conversion (`ConvertAsWritten`); otherwise the settings are those the line reads into; after a raise they are unchanged |
| VrToolkit.VrToolKit.ReadPresetIni | src/lmu/mods/vrtoolkit.py:489-544 | a missing preset gives false and changes nothing; otherwise the tables are those read line by line with the source's conversion; a raise records the read error, keeps the groups and gives false; a clean read shows the groups from the tables and gives true |
| VrToolkit.VrToolKit.ReadPresetLines | src/lmu/mods/vrtoolkit.py:500-526 | the tables and the raise are those of reading the lines in order as `ReadLines` with the source's conversion says, with the Clarity flag of a clean read; the tables keep unique keys |
| VrToolkit.VrToolKit.PreprocessorValues | src/lmu/mods/vrtoolkit.py:361-365 | the definitions `k=v` of the preprocessor joined by commas, in order |
| VrToolkit.VrToolKit.HeaderLinesOf | src/lmu/mods/vrtoolkit.py:370-379 | the preprocessor line and the two technique lines, Clarity named in them iff it is used |
| VrToolkit.VrToolKit.SectionLinesOf | src/lmu/mods/vrtoolkit.py:383-400 | one value line for each setting of the section that differs from its default, in order |
| VrToolkit.VrToolKit.UpdatePresetIni | src/lmu/mods/vrtoolkit.py:359-414 | true iff the write does not raise; then the preset file is the preset's lines; otherwise the file is unchanged and the error recorded |
| VrToolkit.VrToolKit.PresetLinesOf | src/lmu/mods/vrtoolkit.py:370-400 | the lines built are `PresetLines` of the tables: header, the Clarity section only when Clarity is used, then the VRToolkit section |
| VrToolkit.VrToolKit.RemoveReshadeDirs | src/lmu/mods/vrtoolkit.py:465-473 | the directories are tried longest path first; those whose removal does not raise are removed, and the others' messages are appended to the error |
| VrToolkit.VrToolKit.Write | src/lmu/mods/vrtoolkit.py:442-487 | the options are taken from the preset; without ReShade: an active OpenXR layer is switched off, the preset is deleted, the directories are removed and false is returned; with ReShade: a missing INI raises before anything is written, otherwise the INI is rewritten, the layer is set up (and the executable listed in the apps file as `UpdateAppsIni` says) when OpenXR is used, and the result is that of writing the preset: the new preset file on success, the old file and the write error otherwise |
| VrToolkitIni.Keys | src/lmu/mods/vrtoolkit.py:233-264 | the keys of a dict, one per entry, in order |
| VrToolkitIni.Lookup | src/lmu/mods/vrtoolkit.py:239-240 | `d.get(k)` finds a value iff `k` is a key |
| VrToolkitIni.Set | src/lmu/mods/vrtoolkit.py:263-265 | assigning a present key changes that entry's value and no key and no other entry |
| VrToolkitIni.LookupSet | src/lmu/mods/vrtoolkit.py:263-265 | after assigning a present key, that key looks up the new value and every other key what it did before |
| VrToolkitIni.SplitKey | src/lmu/mods/vrtoolkit.py:505-518 | `split("=", 1)` gives two parts iff the text holds an `=`; then the first has none and the line is the two joined by `=` |
| VrToolkitIni.SplitKeyOf | src/lmu/mods/vrtoolkit.py:514-516 | a line `k=rest` with no `=` in `k` splits into `k` and `rest` |
| VrToolkitIni.IntSettingReadAsString | src/lmu/mods/vrtoolkit.py:355-529 | an int setting is written `ClarityRadiusTwo=3` and its text `3\n` is read back as a string, because the newline fails `isnumeric` and `isdigit` |
| VrToolkitIni.NegativeSettingLine | src/lmu/mods/vrtoolkit.py:357 | a float of -0.5 is written `CS_Contrast=-0.500000` |
| VrToolkitIni.NegativeSettingReadAsString | src/lmu/mods/vrtoolkit.py:520-529 | the text `-0.500000\n` is read back as a string, because `-0` is not numeric |
| VrToolkitIni.AsWrittenFloatRoundTrip | src/lmu/mods/vrtoolkit.py:357-526 | as written, a non-negative float's line does read back as that float |
| VrToolkitIni.CorrectedIntRoundTrip | src/lmu/mods/vrtoolkit.py:355-529 | with the line end stripped and a sign allowed, every int's line reads back as that int |
| VrToolkitIni.CorrectedFloatRoundTrip | src/lmu/mods/vrtoolkit.py:357-529 | with the line end stripped and a sign allowed, every float's line reads back as that float, negative ones included |
| VrToolkitIni.Definitions | src/lmu/mods/vrtoolkit.py:364-365 | one `k=v` definition per preprocessor entry, in order |
| VrToolkitIni.Changed | src/lmu/mods/vrtoolkit.py:383-400 | the settings written for a section are exactly the settings of that section that differ from their defaults |
| VrToolkitIni.ValueLines | src/lmu/mods/vrtoolkit.py:386-400 | one value line per written setting, in order |
| VrToolkitIni.HeaderLines | src/lmu/mods/vrtoolkit.py:370-379 | three header lines |
| VrToolkitIni.PresetLayout | src/lmu/mods/vrtoolkit.py:370-400 | the preset is the preprocessor line, the Techniques and TechniqueSorting lines, then, only with Clarity, a blank line, `[Clarity2.fx]`, its settings and a blank line, and last a blank line, `[VRToolkit.fx]` and its settings |
| VrToolkitIni.TechniquesNameClarity | src/lmu/mods/vrtoolkit.py:372-379 | a technique line names `Clarity2@Clarity2.fx` iff Clarity is used |
| VrToolkitIni.SectionLinesExact | src/lmu/mods/vrtoolkit.py:383-400 | every line of a section is the value line of a written setting of it, and every such setting has its line |
| VrToolkitIni.ReadDefinition | src/lmu/mods/vrtoolkit.py:505-510 | a definition read without raising keeps the preprocessor's keys |
| VrToolkitIni.ReadDefinitions | src/lmu/mods/vrtoolkit.py:504-510 | reading the definitions keeps the preprocessor's keys, whether or not one raises |
| VrToolkitIni.ReadIniLine | src/lmu/mods/vrtoolkit.py:513-529 | under either conversion, reading a line's setting keeps the settings' keys; the source reads with `AsWritten` |
| VrToolkitIni.ReadLine | src/lmu/mods/vrtoolkit.py:501-529 | under either conversion, reading a line keeps every key; a line read without raising has seen Clarity iff it was seen before or this line names it |
| VrToolkitIni.ReadLines | src/lmu/mods/vrtoolkit.py:501-529 | under either conversion, reading the lines keeps every key of both tables |
| VrToolkitIni.ClarityFoundIff | src/lmu/mods/vrtoolkit.py:500-512 | under either conversion, after a clean read Clarity was found iff some Techniques line names its technique |
| VrToolkitIni.PreprocessorRoundTrip | src/lmu/mods/vrtoolkit.py:364-510 | the written preprocessor line starts with the preprocessor name, and its definitions read back, without raising, as the written preprocessor values |
| VrToolkitIni.HeaderNamesClarity | src/lmu/mods/vrtoolkit.py:372-512 | the written Techniques line names Clarity to the reader iff Clarity is used; the TechniqueSorting line never does |
| VrToolkitIni.ReshadeIniLineMeaning | src/lmu/mods/vrtoolkit.py:429-435 | a `PresetPath=` line becomes the preset path line, a `NoReloadOnInitForNonVR` line becomes `=0`, any other line is kept; a second rewrite changes nothing |
| VrToolkitIni.ByLengthDesc | src/lmu/mods/vrtoolkit.py:466 | as many directories as were given |
| VrToolkitIni.ByLengthDescPermutes | src/lmu/mods/vrtoolkit.py:466 | the sorted directories are a permutation of the given ones |
| VrToolkitIni.ByLengthDescSorted | src/lmu/mods/vrtoolkit.py:466 | the sorted directories are longest path first |
| VrToolkitIni.ByLengthDescStable | src/lmu/mods/vrtoolkit.py:466 | directories of one length keep their order, as Python's sort is stable |
| VrToolkitIni.InnerBeforeOuter | src/lmu/mods/vrtoolkit.py:464-468 | a directory inside another comes before it in the removal order |

## Left out

- Threads, the greenlet outer loop, `wait_for_rf2_ui` and every blocking wait: the request worker's queues are sequences passed in and out, and one call is one tick.
- HTTP (`get_request`, `post_request`, `put_request`), `psutil`, the shared-memory API, key presses and audio: replies and readings are inputs, and what is sent is an effect log.
- `lmu/requests.py` is not part of this model: a reply is treated as truthy exactly when it is present.
- `rf2events.py` and `app_settings.py` are not part of this model: the event objects and the settings the core uses are the fields of `AppState.Events` and `AppState.Settings`.
- `rest_api_enabled` is read by the session-settings handler but declared nowhere in the files modelled: it is a field of the connection object.
- File, zip and registry side effects: the files' contents and existence, the registry key and the result of each write are inputs. This covers `_work_thru_reshade_release_zip`, `copyfile`, `subprocess.Popen` (the launch returns its argv), XML parsing, `glob`/`stat`, `json.load` and `ConfigParser`.
- `src/lmu/settingsdef/graphics.py` is not part of this model: the VRToolkit and Clarity tables are a parameter of type `VrToolkit.Graphics`.
- The class methods of `VrToolKit` at `src/lmu/mods/vrtoolkit.py:88-222` are line-for-line copies of the OpenXR functions. They are modelled once, in `OpenXr`.
- Paths are plain strings joined with `/`: `WindowsPath`, `as_posix` and the data directory are not rendered.
- Floating point: lap and sector times are whole milliseconds, so the rounding of fractional milliseconds is not modelled. Preset floats are whole millionths, which is what six decimals can show. Float payloads of commands carry their text.
- `float()` is modelled for digits with at most six decimals after a point; the other spellings Python accepts (exponents, more decimals, `inf`) count as unreadable. `int()` is modelled on digit strings: signs, surrounding blanks and underscores are not.
- `\s` is modelled on the characters below U+0100 and `\d` on ASCII digits; other Unicode spaces and digits are not.
- Rf2Results.LapEntry: the float parse of the lap element's attributes and the numeric test of its text are inputs (a lap time of 0 when the text is not a number); `int()` of the driver element's texts is likewise given as values, and `get_text_from_element` is not modelled.
- Rf2Results.ReadEntry: an element whose text is None (which makes `re.search` raise) is not modelled; the `et` attribute is kept as the element gives it.
- The `size` and `date` strings of a listed replay, `rename_replay`, `get_replays_location` and `get_replay_location_from_rfactor_player`: formatting and lookups outside the listing and sorting logic.
- Preset options are values: the model does not capture two groups sharing one option object.
- JSON documents are maps from category names to categories; `to_js_object` and the other JSON renderings are not modelled.
- VrToolkit.VrToolKit.ReadPresetIni: the recorded error is the fixed prefix without the exception's text.
- AppLaunch.RunRfactor: a server is either absent or a record of the fields read; an empty `server_info` dict, which Python's `if server_info:` treats as no server, is not a separate case.
- LmuGame.LaunchCommand: likewise an empty `server_info` dict is not modelled apart from a missing one.
- LmuLocation.RfactorLocation.GetLocation: `if path:` is modelled as the lookup giving a directory at all; a falsy directory value (an empty string) is not distinguished from a real one.
- The exception texts of the settings files and of `delete_replays` are parameters, not Python's messages.

## Findings

| source | as written | input that shows it | evidently intended | confidence | as-written member | corrected member |
|---|---|---|---|---|---|---|
| src/lmu/lmu_game.py:442-445 | the `+connect=` argument renders the password slot even when there is no password | a server without a password at the default address gives `+connect=Nonelocalhost:64297` | `+connect=localhost:64297`, with `:password@` only when there is a password | not executed | LmuGame.ConnectWithoutPasswordAsWritten | LmuGame.ConnectArg |
| src/lmu/rf2results.py:189-191 | the purple sectors are the smallest sector strings in string order | sectors of 1:30 and 10:05 give the strings `1:30.000` and `10:05.000`, and string order picks `10:05.000` | the sector worth the least time, `1:30.000` | not executed | Rf2Results.PurpleSectorLongSector | Rf2Results.PurpleSector |
| src/lmu/mods/vrtoolkit.py:513-529 | an int setting is recognised by `isdigit` on the text after `key=`, which still ends in the line's newline | the line `ClarityRadiusTwo=3` reads back as the string `"3\n"` | the int 3 | not executed | VrToolkitIni.IntSettingReadAsString | VrToolkitIni.CorrectedIntRoundTrip |
| src/lmu/mods/vrtoolkit.py:520-529 | a number is recognised only when the text before its first point `isnumeric`, which a minus sign fails | the line `CS_Contrast=-0.500000` reads back as the string `"-0.500000\n"` | the float -0.5 | not executed | VrToolkitIni.NegativeSettingReadAsString | VrToolkitIni.CorrectedFloatRoundTrip |
