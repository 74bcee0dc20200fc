# Verified model of the RDMnet broker service

A Dafny model of the three stateful parts of the RDMnet broker service, with proofs:

1. **The broker shell** (`src/core/broker_shell.cpp`) and the Windows service around it
   (`src/windows/broker_service.cpp`). `ShellMachine.dfy` is a step machine with a program counter
   for the thread inside `Run`; requests of other threads and the passing of time interleave with
   its steps at will, and a trace records what happened. `BrokerShell.dfy` is the shell as an object
   with its loop, tied to the machine method by method; `ShellSafety.dfy`, `ShellRequests.dfy`,
   `ShellLaws.dfy`, `ShellScope.dfy` and `ShellShutdown.dfy` prove properties of every run, and
   `ShellScenarios.dfy` writes out runs that reach their limits. `ServiceMachine.dfy`, `ServiceShutdown.dfy`,
   `ServiceShell.dfy`, `ServiceLaws.dfy` and `BrokerService.dfy` add the service thread, the two
   watchers and the status reports.
2. **The configuration reader** (`src/core/broker_config.cpp`). `ConfigSpec.dfy` says field by field
   what a document means; `BrokerConfig.dfy` is the reader that walks the settings table and writes
   in place, proved to produce exactly that. `ConfigLaws.dfy` proves what this means by the names,
   bounds and defaults that a user of the file sees, and `ConfigProperties.dfy` holds the laws
   about all settings together.
3. **Log rotation** (`src/macos/mac_broker_os_interface.cpp`,
   `src/windows/win_broker_os_interface.cpp`). `LogRotation.dfy` says what rotation does to a
   directory, with any copy allowed to fail; `LogHistory.dfy` follows any number of service starts;
   `OsInterfaces.dfy` holds both implementations.

## Assumptions

- Everything from libraries outside the repository is a field of `Platform.Platform` or a parameter.
  `Platform.Sound` lists what is relied on (UUID text reads back, masks of different log levels
  differ, the empty text is no JSON document, the default strings fit); `SoundPlatformExists` shows
  that it can be met. Strings are byte strings.
- JSON lookup follows section 4 of RFC 6901: a token that is no array index finds nothing in an array.
- Code under the shell's lock is one atomic step. `shutdown_requested_` and the watchers' stop flags
  are read and written without the lock; the model treats them as atomic.
- `SetServiceStatus` is one atomic step, although three threads share its `status_` and its static
  counter without a lock. Creating the service thread and storing its handle are one step.
- The machine lets a control arrive at any time. The run exhibited for an early one needs only that
  the service control manager delivers a shutdown control once the service has reported itself
  start-pending; the source declares in that report that it accepts one.
- The machine lets a scope be notified at any time. Only the broker calls `HandleScopeChanged`, so the
  run exhibited for it notifies while the broker runs.
- A watcher thread may fail to be created, and the service thread then goes on without it. The safety
  results allow for that; no run exhibited as a counterexample makes use of it.
- An output stream that is open already cannot be opened again: it stays open, and writes are lost.
- The timer counts as expired when it was never started and when its deadline is past, and may
  answer either way exactly at the deadline. The clock does not wrap.
- A failing copy may leave its destination in any state, and nothing else writes to the log directory.
- The watchers and `Start` may be preempted anywhere; a wait on a null thread handle returns at once.

## Where the code falls short of what one would expect

- A scope notified between the decision to restart and the application of settings is used for one
  startup and then undone by the restart that its own notification requested. The restart is still
  to come exactly then (`ShellScope.OwnRestartIsStillToComeExactlyWhen`), and a run from the initial
  state shows it (`ShellScope.WindowOverrideIsUndoneByItsOwnRestart`).
- A service start whose rotation fails drops the newest log, because slot 0 is truncated regardless;
  it survives exactly when rotation completed (`OsInterfaces.NewestLogSurvivesExactlyWhen`). The
  repository's documentation says that logs are renamed; the code copies them.
- On macOS `OpenLogFile` answers true even when its stream did not open, and a second call on an
  open log silences it; its contract says exactly when messages reach the file.
- A stop reported for a shutdown control while `Start` has not yet created the service thread is not final
  (`ServiceMachine.StopIsFinalExactlyWhen`): the thread can be created and reported as running
  afterwards (`ServiceMachine.StopMayBeReportedFirst`).
- A service whose thread fails is reported as running once more unless `Start` had returned before
  (`ServiceMachine.FailureIsTheLastWordExactlyWhen`, with the run `ServiceMachine.RunningMayBeReportedLast`).
- With a maximum of 0 backups the two rotation searches would differ
  (`OsInterfaces.SearchesAgreeExactlyWhen`); the code's maximum is 5.

## Model

| member | source | states |
|---|---|---|
| `BrokerShell.BrokerShell.Run` | src/core/broker_shell.cpp:50-108 | the loop, with other threads let in between any two blocks, is exactly the step machine's run for the same interleaving; every `Startup` finds the broker stopped and every `Shutdown` finds it running; a shutdown requested beforehand ends it; a shell that is not ready returns false untouched |
| `BrokerShell.InterleavingHoldsAll` | src/core/broker_shell.cpp:50-108 | that interleaving holds every step of the shell and everything other threads do after it, in place |
| `BrokerShell.BrokerShell.Init` | src/core/broker_shell.cpp:29-42 | ready exactly when log file and logger start, and then in the machine's initial state |
| `BrokerShell.BrokerShell.LoadBrokerConfig` | src/core/broker_shell.cpp:143-164 | the configuration afterwards is a function of the file and the platform alone, whatever was there before |
| `BrokerShell.BrokerShell.RequestRestart` | src/core/broker_shell.cpp:110-114 | one atomic request step |
| `BrokerShell.BrokerShell.HandleScopeChanged` | src/core/broker_shell.cpp:166-171 | one atomic step that stores the scope and requests a restart |
| `BrokerShell.BrokerShell.AsyncShutdown` | src/core/broker_shell.cpp:116-120 | one atomic step that sets the flag |
| `BrokerShell.BrokerShell.LockedRequestRestart` | src/core/broker_shell.cpp:200-206 | flag set, timer moved only when the new cooldown ends later |
| `BrokerShell.BrokerShell.TimeToRestartBroker` | src/core/broker_shell.cpp:186-198 | one atomic poll step; true means the shell goes on to restart |
| `BrokerShell.BrokerShell.ApplySettingsChanges` | src/core/broker_shell.cpp:173-184 | one atomic step that consumes the pending scope |
| `BrokerShell.BrokerShell.StartBrokerIfEnabled` | src/core/broker_shell.cpp:65-80 | startup with its failure branch, never on a running broker |
| `BrokerShell.BrokerShell.StopBrokerIfEnabled` | src/core/broker_shell.cpp:91-104 | shutdown exactly when the configuration says enabled, never on a stopped broker |
| `ShellSafety.BrokerMatchesNext` | src/core/broker_shell.cpp:58-104 | running and `enable_broker` agree at the program points where the loop relies on it, and every step of any thread keeps that |
| `ShellSafety.StepMakesFittingCall` | src/core/broker_shell.cpp:55-106 | every library call is made in the right phase and with the broker in the right state |
| `ShellSafety.EveryRunIsSafe` | src/core/broker_shell.cpp:50-108 | in every run successful startups and shutdowns strictly alternate, all calls lie between library init and deinit, and the broker is stopped on exit |
| `ShellRequests.RestartsExactlyWhen` | src/core/broker_shell.cpp:186-206 | a poll restarts exactly when a request came after the last restart and every cooldown requested so far is over |
| `ShellRequests.RestartsAreSpaced` | src/core/broker_shell.cpp:186-206 | two restarts are at least as far apart as any cooldown requested between them |
| `ShellRequests.RequestsAreNeverLost` | src/core/broker_shell.cpp:166-206 | a waiting scope always has a restart on its way, an unanswered request keeps the flag set, restarts never outnumber requests |
| `ShellRequests.TimerTracksRequest` | src/core/broker_shell.cpp:200-206 | the single timer always holds the latest of all cooldown ends |
| `ShellRequests.ExpiredMeansAllPast` | src/core/broker_shell.cpp:190-191 | an expired timer means every cooldown is over, and conversely |
| `ShellRequests.EveryRunIsTracked` | src/core/broker_shell.cpp:50-206 | the invariant behind the three results above, over every run |
| `ShellLaws.PollIsOnTime` | src/core/broker_shell.cpp:186-206 | in every run, a poll restarts exactly when some request came after the last restart and each cooldown asked for has ended, in plain comparisons of times; otherwise the shell sleeps |
| `ShellLaws.PollsAroundTheDeadline` | src/core/broker_shell.cpp:186-198 | with a request open, the first poll after the last cooldown end restarts, and no poll before any cooldown end does |
| `ShellLaws.PendingMeansUnanswered` | src/core/broker_shell.cpp:190-195 | a restart is pending exactly when some request has no restart after it |
| `ShellLaws.LoopEndsOnlyWhenAsked` | src/core/broker_shell.cpp:83-108 | in every run, the loop is left for good only after `AsyncShutdown`: no restart, failure or reload ends it |
| `ShellLaws.ConfigFollowsTheFile` | src/core/broker_shell.cpp:58-98 | in every run, the broker is enabled exactly as the file loaded last says, unless a startup has failed since, and the log mask is that file's |
| `ShellLaws.RequestsAreRecorded` | src/core/broker_shell.cpp:110-171 | each request reaches the trace as it was made, with its time and cooldown, and no step of the shell looks like one |
| `ShellLaws.ClockShowsTimePassed` | src/core/broker_shell.cpp:186-206 | the clock that cooldowns are measured by is the sum of the time passed |
| `ShellScope.StartupAfterRestart` | src/core/broker_shell.cpp:87-98 | each startup after a restart uses the one file loaded between the decision to restart and the application of settings, with the last scope notified since the previous application if not empty |
| `ShellScope.EveryRunTracksStages` | src/core/broker_shell.cpp:87-98 | in every run each application of settings is preceded by one decision to restart and one load, in that order |
| `ShellScope.FirstStartup` | src/core/broker_shell.cpp:58-71 | the first startup uses the loaded settings and ignores notified scopes |
| `ShellScope.EveryRunTracksScope` | src/core/broker_shell.cpp:143-184 | the invariant behind both, over every run |
| `ShellScope.OwnRestartIsStillToComeExactlyWhen` | src/core/broker_shell.cpp:166-198 | from any state, whatever happens short of another request: the notified scope is applied, and the restart it requested is then still to come exactly when it arrived between the decision to restart and the application |
| `ShellScope.SettingsStayUntilAsked` | src/core/broker_shell.cpp:83-98 | otherwise the settings in force stay until somebody asks for a restart |
| `ShellScope.FlagStaysUntilFired` | src/core/broker_shell.cpp:186-206 | a restart still to come stays requested until the shell restarts |
| `ShellScope.WindowOverrideIsUndoneByItsOwnRestart` | src/core/broker_shell.cpp:87-98 | a whole run from the initial state in which the broker notifies a scope after the decision to restart it and before its shutdown; the scope is used once, and is undone |
| `ShellShutdown.ShutdownEndsTheLoop` | src/core/broker_shell.cpp:58-120 | after a shutdown request: at most one more startup, at most one more restart, and the end within a rank of at most ten shell steps |
| `ShellShutdown.RankFalls` | src/core/broker_shell.cpp:83-106 | every shell step lowers the rank and no other step raises it |
| `ShellShutdown.BoundsAreMet` | src/core/broker_shell.cpp:58-108 | a run from the initial state that uses up all three bounds: one more restart, one more startup, ten steps |
| `BrokerConfig.BrokerConfig.Read` | src/core/broker_config.cpp:468-481 | parse error and non-object root change no setting; otherwise the settings are what the document means, and the answer is ok exactly when no entry is at fault |
| `BrokerConfig.BrokerConfig.ValidateCurrent` | src/core/broker_config.cpp:495-552 | the table loop refines the field-by-field meaning; one bad entry is never masked by later good ones |
| `BrokerConfig.BrokerConfig.ProcessEntry` | src/core/broker_config.cpp:505-549 | one entry: its own field gets its value or default, every other field is untouched |
| `BrokerConfig.BrokerConfig.SetDefaults` | src/core/broker_config.cpp:483-490 | all settings take their defaults, whatever they were |
| `BrokerConfig.BrokerConfig.StoreDefault` | src/core/broker_config.cpp:338-464 | the default column: one field, using the CID in force at that moment |
| `BrokerConfig.BrokerConfig.ValidateAndStore` | src/core/broker_config.cpp:338-464 | the validator column: accepted exactly when the reference parses the value, and no other field changes even on rejection |
| `BrokerConfig.BrokerConfig.ValidateAndStoreCid` | src/core/broker_config.cpp:60-72 | writes first, then accepts exactly non-null UUIDs |
| `BrokerConfig.BrokerConfig.ValidateAndStoreUid` | src/core/broker_config.cpp:80-153 | accepts exactly the objects that denote a UID, and stores that UID |
| `BrokerConfig.BrokerConfig.ValidateAndStoreString` | src/core/broker_config.cpp:156-200 | rejects empty strings; an overlong one is cut to its longest allowed prefix or rejected |
| `BrokerConfig.BrokerConfig.ValidateAndStoreInt` | src/core/broker_config.cpp:218-248 | after wrapping to 64 signed bits and narrowing: accepted exactly when the number itself is in range, and stored as that number |
| `BrokerConfig.BrokerConfig.ValidateAndStoreInterfaceList` | src/core/broker_config.cpp:250-264 | appends all names, or clears the list when any element is no string |
| `BrokerConfig.BrokerConfig.ValidateAndStoreLogLevel` | src/core/broker_config.cpp:290-302 | accepts exactly the eight level names and leaves the mask alone otherwise |
| `Json.WrapKeepsRange` | src/core/broker_config.cpp:237-246 | wrapping lets no value into or out of a small range |
| `Json.PutElsewhere` | src/core/broker_config.cpp:511-513 | storing under one pointer is not visible under a diverging one |
| `Json.ReferenceIntoArray` | src/core/broker_config.cpp:511-513 | a number in a pointer selects an array element by position, and nothing beyond the end |
| `Json.IndexIsDecimal` | src/core/broker_config.cpp:511-513 | an array index is the decimal form of the number it denotes, without leading zeros |
| `Json.WrapIsCongruent` | src/core/broker_config.cpp:237 | conversion to 64 signed bits changes a number by a multiple of 2^64 |
| `ConfigSpec.EntryInTurn` | src/core/broker_config.cpp:337-362 | table order makes the default service name use the final CID |
| `ConfigSpec.ProcessOneMore` | src/core/broker_config.cpp:503-549 | one more entry extends both the settings and the verdict correctly |
| `ConfigProperties.ReadDependsOnPriorInterfacesOnly` | src/core/broker_config.cpp:250-264 | reading over old settings appends an accepted interface list to the old one, empties it otherwise, and ignores all else that was there |
| `ConfigProperties.BrokerEnabledExactlyWhen` | src/core/broker_shell.cpp:147-163 | enabled exactly when the file opened, parsed to an object and does not say literally false |
| `ConfigProperties.DefaultedNameCarriesFinalCid` | src/core/broker_config.cpp:357-361 | a defaulted service name is built from the CID finally stored |
| `ConfigProperties.IntegersAreExact` | src/core/broker_config.cpp:237-246 | over all documents and 64-bit integers, an integer setting ends as the document's number exactly when that is unsigned and in range, as its default otherwise, and testing and narrowing the wrapped value comes to the same |
| `ConfigProperties.UidIsWhatTheObjectDenotes` | src/core/broker_config.cpp:74-153 | the accepted UID objects and their meaning, as a relation, both ways |
| `ConfigProperties.ReadIsWellFormed` | src/core/broker_config.cpp:338-464 | after validating any object every setting is well-formed |
| `ConfigProperties.LoadIsWellFormed` | src/core/broker_shell.cpp:143-164 | after any load, failed or not, every setting is well-formed |
| `ConfigProperties.EmptyDocumentMeansDefaults` | src/core/broker_config.cpp:483-490 | an empty document means the defaults |
| `ConfigProperties.NonObjectParentHidesEntries` | src/core/broker_config.cpp:511-543 | entries under a "dns_sd" that is no object count as absent and raise no complaint |
| `ConfigProperties.SettingsDoNotInterfere` | src/core/broker_config.cpp:505-549 | documents that differ under one entry differ in that setting and at most a defaulted name |
| `ConfigProperties.EditReachesOneSetting` | src/core/broker_config.cpp:505-549 | editing one entry of any document changes no other setting |
| `ConfigProperties.CidEditReachesDefaultedName` | src/core/broker_config.cpp:343-361 | the one exception: a defaulted name follows the CID and shows every change of it |
| `ConfigProperties.RoundTripExactlyWhenWellFormed` | src/core/broker_config.cpp:60-464 | rendering to the canonical document and reading back gives the same configuration exactly when it is well-formed, without complaint |
| `ConfigProperties.NormalisationIsIdempotent` | src/core/broker_shell.cpp:143-164 | loading the rendered result of any load reproduces it |
| `ConfigLaws.LimitsInDocument` | src/core/broker_config.cpp:407-454 | the six limits, each by its own name in the file, its range and its default |
| `ConfigLaws.ListenPortInDocument` | src/core/broker_config.cpp:387-394 | "listen_port" is taken from 1024 to 65535, and is 0 otherwise |
| `ConfigLaws.ScopeInDocument` | src/core/broker_config.cpp:379-386 | an empty or overlong "scope" is refused and leaves the default |
| `ConfigLaws.ServiceNameInDocument` | src/core/broker_config.cpp:351-362 | an overlong service instance name is cut and fine; the default carries the final CID |
| `ConfigLaws.ManufacturerInDocument` | src/core/broker_config.cpp:363-370 | the same for the manufacturer, under "dns_sd", with its default |
| `ConfigLaws.ModelInDocument` | src/core/broker_config.cpp:371-378 | the same for the model, under "dns_sd", with its default |
| `ConfigLaws.CidInDocument` | src/core/broker_config.cpp:339-344 | "cid" is taken exactly when its text parses to a UUID that is not null |
| `ConfigLaws.UidInDocument` | src/core/broker_config.cpp:345-350 | the UID is the one that the "uid" object denotes, or a dynamic one with manufacturer 0x6574 |
| `ConfigLaws.ListenInterfacesInDocument` | src/core/broker_config.cpp:395-400 | all names of "listen_interfaces" in order after those there before, or none |
| `ConfigLaws.LogLevelInDocument` | src/core/broker_config.cpp:401-406 | the mask up to the level named, for each of the eight names, and "info" otherwise |
| `ConfigLaws.EnableBrokerInDocument` | src/core/broker_config.cpp:455-463 | enabled unless "enable_broker" is literally false |
| `ConfigLaws.VerdictOnDocument` | src/core/broker_config.cpp:495-552 | no complaint exactly when each of the sixteen entries, by its name in the file, is absent, null or good |
| `ConfigLaws.DefaultsInFull` | src/core/broker_config.cpp:338-464 | all sixteen defaults, as one record |
| `ConfigLaws.LoadInFull` | src/core/broker_shell.cpp:143-164 | a file that does not open, is no JSON or has no object at its root gives the defaults and no broker |
| `OsInterfaces.MacBrokerOsInterface.RotateLog` | src/macos/mac_broker_os_interface.cpp:62-82 | the copy with its ways to fail, a missing source among them |
| `OsInterfaces.MacBrokerOsInterface.FindGap` | src/macos/mac_broker_os_interface.cpp:93-101 | the search ends at the first free slot or the maximum |
| `OsInterfaces.MacBrokerOsInterface.CopyDown` | src/macos/mac_broker_os_interface.cpp:103-110 | copying from the top, stopped by the first failing copy |
| `OsInterfaces.MacBrokerOsInterface.RotateLogs` | src/macos/mac_broker_os_interface.cpp:84-111 | the directory is the rotated one, and true is answered exactly when no copy failed |
| `OsInterfaces.MacBrokerOsInterface.OpenLogFile` | src/macos/mac_broker_os_interface.cpp:124-149 | the whole directory after a first or repeated call, for every combination of failures, and exactly when messages will reach the file |
| `OsInterfaces.MacBrokerOsInterface.HandleLogMessage` | src/macos/mac_broker_os_interface.cpp:172-179 | messages go to slot 0 while the log is open and its stream good |
| `OsInterfaces.WindowsBrokerOsInterface.FindGap` | src/windows/win_broker_os_interface.cpp:209-218 | the search from slot 1 |
| `OsInterfaces.WindowsBrokerOsInterface.CopyDown` | src/windows/win_broker_os_interface.cpp:220-234 | copying with the other way of counting |
| `OsInterfaces.WindowsBrokerOsInterface.RotateLogs` | src/windows/win_broker_os_interface.cpp:202-235 | the directory is the rotated one, and the error of the failing copy is answered |
| `OsInterfaces.WindowsBrokerOsInterface.OpenLogFile` | src/windows/win_broker_os_interface.cpp:94-151 | the whole directory after a start, for every combination of failures |
| `OsInterfaces.SearchesAgreeExactlyWhen` | src/windows/win_broker_os_interface.cpp:204-218 | the two searches find the same slot exactly when a backup is allowed or there is nothing to back up |
| `OsInterfaces.RotateSideBySide` | src/windows/win_broker_os_interface.cpp:202-235 | from equal directories and equal outcomes of the copies, the two implementations leave equal directories and fail alike |
| `OsInterfaces.RunSessions` | src/macos/mac_broker_os_interface.cpp:84-149 | after any number of starts of either implementation from an empty directory, with any failures, the directory is what the history of starts says; when nothing fails, slot i holds exactly the log of i sessions ago, and there are no other files |
| `LogHistory.EveryFileHasAnOrigin` | src/windows/win_broker_os_interface.cpp:94-151 | after any history of failing copies and starts, the file in slot i holds the log of one session, written at least i starts ago, or the remains of a broken copy |
| `LogHistory.OlderLogsInHigherSlots` | src/windows/win_broker_os_interface.cpp:202-235 | after any such history, a higher slot never holds a newer log |
| `LogHistory.WithoutRemainsEveryFileIsWhole` | src/macos/mac_broker_os_interface.cpp:62-82 | when failing copies leave their destination alone, every file is the whole log of one session |
| `OsInterfaces.NewestLogSurvivesExactlyWhen` | src/macos/mac_broker_os_interface.cpp:124-133 | the previous log survives the next start exactly when rotation completed |
| `LogRotation.DirectoryHoldsRecentSessions` | src/windows/win_broker_os_interface.cpp:94-151 | by induction over sessions, the directory is the list of recent logs |
| `LogRotation.RotationConservesLogs` | src/macos/mac_broker_os_interface.cpp:103-110 | wherever copying stops, logs above are one slot up, logs below are in place, and only slot `max` can be lost, only without a gap |
| `LogRotation.RotationInventsNothing` | src/macos/mac_broker_os_interface.cpp:62-82 | every log afterwards was there before, except in a garbled destination |
| `LogRotation.RotatedAt` | src/windows/win_broker_os_interface.cpp:220-233 | the rotated directory slot by slot for any fault, the destination of the failing copy included |
| `LogRotation.CompleteRotation` | src/macos/mac_broker_os_interface.cpp:103-110 | a complete rotation shifts the slots below the first gap and nothing else |
| `LogRotation.ShiftedAt` | src/windows/win_broker_os_interface.cpp:220-233 | the shift slot by slot |
| `ServiceMachine.StoppedMeansStopped` | src/windows/broker_service.cpp:310-364 | once the handler waited after `Start` created the thread, a reported stop means thread ended, watchers joined, broker stopped, from then on |
| `ServiceMachine.StopIsFinalExactlyWhen` | src/windows/broker_service.cpp:280-364 | when the wait is over, the service thread is never at work again exactly when `Start` had got past creating it |
| `ServiceMachine.QuietThreadsDoNothing` | src/windows/broker_service.cpp:158-189 | afterwards neither watcher requests a restart |
| `ServiceMachine.EveryServiceRun` | src/windows/broker_service.cpp:151-197 | the order of threads, joins, shell and reports in every interleaving |
| `ServiceMachine.ThreadsStayInOrder` | src/windows/broker_service.cpp:158-196 | every move of any thread keeps that order |
| `ServiceMachine.StopMayBeReportedFirst` | src/windows/broker_service.cpp:280-364 | a run in which a shutdown control is answered with a reported stop before the thread is created, and the thread then runs |
| `ServiceMachine.FailureIsTheLastWordExactlyWhen` | src/windows/broker_service.cpp:191-197 | in every run: after the failing thread's report, the service is never again reported as running exactly when `Start` had returned |
| `ServiceMachine.RunningMayBeReportedLast` | src/windows/broker_service.cpp:151-197 | a run in which the failing thread, with both watchers created, failed and joined, reports before `Start` does |
| `ServiceShell.ServiceRunsItsShell` | src/windows/broker_service.cpp:151-197 | in every interleaving of the service's threads, its shell goes through a run of the shell machine |
| `ServiceShell.ServiceKeepsShellInvariants` | src/windows/broker_service.cpp:180-181 | so alternation, bracketing and the order of requests hold inside the service |
| `ServiceShell.RestartsWaitForTheNetwork` | src/windows/broker_service.cpp:84-129 | after a network change was noticed, no restart comes before the network cooldown is over, whatever else requests one |
| `ServiceShutdown.HandlersWaitEnds` | src/windows/broker_service.cpp:158-196 | the handler's wait is over after at most 24 moves that bring the service thread on, whatever else happens in between |
| `ServiceShutdown.ServiceRankFalls` | src/windows/broker_service.cpp:158-196 | each such move lowers the rank over thread, shell and watchers, and no move raises it |
| `ServiceMachine.CheckPointsIncrease` | src/windows/broker_service.cpp:366-381 | check points are 0 exactly for settled states and strictly increase over pending reports while 32 bits last |
| `ServiceMachine.CheckPointsCountAlways` | src/windows/broker_service.cpp:366-381 | the k-th pending report carries k modulo 32 bits |
| `ServiceLaws.StartDoesItsSteps` | src/windows/broker_service.cpp:280-290 | in every interleaving, `Start` reports start-pending, creates the thread, reports running whether or not that worked, and says nothing else |
| `ServiceLaws.ThreadReportsFailureOnly` | src/windows/broker_service.cpp:180-194 | in every interleaving, the service thread reports a stop exactly once if `Run` returned false and never if it returned true |
| `ServiceLaws.ControlIsHandled` | src/windows/broker_service.cpp:310-364 | from taking a control until free again, whatever else happens: stop-pending for a stop only, then the shell is asked to end, then one report of a stop |
| `ServiceLaws.ControlAsksAtOnce` | src/windows/broker_service.cpp:310-352 | the handler asks the shell before it waits for anything |
| `ServiceLaws.WaitOver` | src/windows/broker_service.cpp:320-355 | once the thread has ended, the handler reports the stop and is free |
| `ServiceLaws.WithoutControlTheShellRunsOn` | src/windows/broker_service.cpp:151-197 | in every interleaving without a control, the shell is never asked to end and does not leave its loop |
| `ServiceLaws.WatchersWatchOn` | src/windows/broker_service.cpp:158-178 | while its flag is down, a watcher stops watching exactly by a failed wait or a signal whose next wait cannot be set up |
| `ServiceLaws.AddrWatcherLasts` | src/windows/broker_service.cpp:84-108 | over any run, timeouts and signals do not wear the address watcher out |
| `ServiceLaws.ConfWatcherLasts` | src/windows/broker_service.cpp:110-149 | the same for the watcher of the configuration file |
| `ServiceLaws.FlagsGoUpAfterShell` | src/windows/broker_service.cpp:180-189 | in every run, the flags go up only when `Run` has returned |
| `ServiceLaws.ChangesAreNoticed` | src/windows/broker_service.cpp:92-97 | a watching thread notices a change within two moves and then requests a restart, with a cooldown of 5000 ms for the network and none for the file |
| `ServiceLaws.RequestsComeFromWatchers` | src/windows/broker_service.cpp:92-129 | nothing else in the service requests a restart, except a scope notified by the broker |
| `BrokerService.BrokerService.SetServiceStatus` | src/windows/broker_service.cpp:366-381 | the status object and the report, with the counter used up by pending states only |
| `BrokerService.BrokerService.ProcessAddrChanges` | src/windows/broker_service.cpp:84-108 | a signal requests a restart with a cooldown of 5000 ms; watching goes on after a timeout, and after a signal whose next wait could be set up |
| `BrokerService.BrokerService.ProcessConfigChanges` | src/windows/broker_service.cpp:110-149 | a signal requests a restart without cooldown; watching goes on after a timeout, and after a signal whose next wait could be set up |

## Left out

- JSON text parsing, UUID internals, timer, mutex and thread libraries: outside the repository; opaque functions and parameters stand for them.
- Broker message routing and the E1.33 protocol: in the RDMnet library; the broker is an object that runs or does not.
- Log texts, time stamps, the logger's own mask (`SetLogMask`) and the assertion logger: output only; the mask is modelled as a setting.
- Failing refreshes of network interfaces before a startup: only logged by the code.
- `Start`, `Stop`, `Shutdown` and `ServiceThread` as sequential code: they are steps of `ServiceMachine`, because their point is the interleaving; the shell inside that machine is the value its runs go through, not the object.
- The exception branches of `Start`, `Stop` and `Shutdown`: nothing in their bodies throws what they catch.
- The macOS service wrapper with its run loop and signal handler, service installation and command lines: plumbing.
- Fairness and wall-clock bounds: the bounds proved count steps of the shell.
- Run: `BrokerShell.BrokerShell.Run` watches a bounded number of passes through a loop that has no bound of its own; the step machine has no such bound.
- The limit of 100 characters on the first line written on Windows: the opening line stands for what is written.
