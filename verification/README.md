# tswipoexp: a verified model

tswipoexp runs a Tailscale node from a portable directory and, while it runs, makes itself the
Windows user's proxy. Whatever happens to it in the meantime, the user's own proxy settings must come
back. This project models that promise and the other parts of the program whose correctness is more
than one body deep, and proves them in Dafny. `dafny verify dfyconfig.toml` checks everything.

## The parts

**Proxy registration** (`ProxySettings`, `ProxySystem`, `WinProxy`, `SnapshotSafety`, `CrashSafety`,
`Sessions`, `Registrations`, `TrustedScripts`, `OperationSteps`, `Routing`, `Outbound`). A machine holds
the live settings (the default connection and the user's environment), the snapshot, the restore `.reg`
and `.cmd` files, the RunOnce entry and the watchdogs. Registering and unregistering are sequences of atomic writes. Every write draws a *fate*: it
succeeds, or it fails; and the process dies when no fate is left, so a theorem over all fate sequences
is a theorem over every death and every failure. A fate also picks the variable that a loop over a Go
map writes next, so the results hold for every iteration order. `WinProxy.Desktop` performs the
operations on mutable fields, in the order of the source; each method is proved equal to a function of
`ProxySystem`, and the theorems are about those functions.

* *Any write may fail* (`Sessions.FailuresNeverLoseSettings`): over all runs in which no restore script
  runs, a snapshot holds exactly the user's settings, and without one they are in place. The program's
  own settings are never captured.
* *The process and the script may be cut short anywhere* (`Sessions.SettingsSurviveCrashes`,
  `Sessions.NextStartHeals`): over all runs of launches, profile switches, option changes, exits, kills,
  watchdog scripts, reboots and user edits, whenever the settings are not the user's, every safety net
  still wanted is armed with a script that puts them back, and the next completed start does so too.
* *Failures, deaths and scripts together* (`TrustedScripts.SettingsSurviveFailures`): over all runs in
  which no start registers over a failed unregister and every script that runs is safe, the snapshot keeps
  its promise and every script there is, run to its end, gives the user's settings. What a safe run of a
  script is, with any of its commands failing unnoticed, and when a register can be trusted to arm no
  other script, are proved as exact conditions (`TrustedScripts.RunTrustedIff`,
  `TrustedScripts.RegisterTrustedIff`).
* *Registrations compose* (`Registrations.HistoryIndependence`, `Outbound.OutboundFollowsConfig`): what a
  call leaves behind is a function of the user's settings and the last options alone, down to the way
  each request takes for its scheme and host (`Routing.RouteOf`).

Settings count as the same up to the normal form that restoring gives: flags 0 mean a direct connection,
and an empty variable is a missing one.

**The restore file** (`RegFile`, `RegText`). A printer with the source's loops, a parser for what it prints, and the
round trip. `ProxySystem.Import` uses the parser, so what a restore script does to the machine is derived
from the characters of the file; what those look like is stated on its own.

**The log** (`LogBuffer`, `LogView`). The byte-bounded buffer as a window on everything ever written, and
the log window as its replica, kept through a cursor and two separately locked calls, with a selection
of its rows that stays on its lines over every interleaving.

**The PAC script** (`Ipv4`, `PacScript`, `PacRoutes`). The rules as generated, a browser that runs them,
address arithmetic on 32-bit words, and dotted text; from a status with peers to the decision for a host.

**Smaller protocols**: `EnvBlock` (the environment block for new processes), `AtomicFile`
(`writeFileAtomic` under failures, deaths and power cuts), `RefreshTimer` (coalesced refreshes).

## Where code and promise differ

The code is modelled as it is. Where one of its promises fails, a lemma gives the exact condition; the
lemmas named as runs are the failing ones.

* winproxy_windows.go:105-106 says that there is no moment where the proxy is set and nothing can undo it.
  That holds for a register that follows a completed unregister and meets no failing write
  (`CrashSafety.RegisterNeverExposed`). But failed writes of the nets are only logged, and the settings
  change all the same: refused its `.reg` file, a first register sets the proxy and leaves no script at
  all (the run `TrustedScripts.RefusedFileLeavesNoScript`). Whatever writes fail, a register that starts
  with the user's settings leaves them in place or something armed that brings them back exactly if a
  script and a net that it cannot withdraw stand already (`TrustedScripts.RegisterNeverExposedIff`).
* Another promise is kept more often: that what is armed does no harm. A register never arms a script that
  loses the user's settings, whatever writes fail, exactly if it starts with the user's connection
  settings and without a script that has lost its `.reg` file (`TrustedScripts.RegisterTrustedIff`). Both
  halves are needed. A profile switch, or a start, registers even when restoring failed before it; the
  script then brings back the program's own proxy and deletes the snapshot (the run
  `Registrations.FailedRestoreThenRegisterLosesSettings`). And a script cut between its last two deletions
  stays behind without its file, for the next register that fails to write one to arm (the run
  `Registrations.FailedRestoreFileWriteLosesSettings`).
* The restore script ignores every error of its commands. A run of it is safe exactly if it deletes the
  snapshot only when what its import missed was the user's already, and deletes the `.reg` file only
  together with itself (`TrustedScripts.RunTrustedIff`; the run
  `Registrations.FailedImportLosesSettings`).
* The older values of the restore file send requests where the saved connection options did exactly if a
  script URL was saved just where the flags asked for a script (`Routing.OlderValuesAgreeIff`).
* Unregistering kills the watchdog before it restores. A death before the settings are back leaves
  something that will run the script exactly if a RunOnce entry was asked for, or a watchdog whose kill
  was not reached or failed (`Registrations.UnregisterExposure`; the run
  `Registrations.UnregisterDeathLeavesNoNet`).
* winproxy_windows.go:89-92 says that a restore file of another machine is left alone. A register leaves
  it alone exactly if it cannot write its own snapshot; otherwise the save at line 101 writes over it
  (`Registrations.RegisterKeepsForeignIff`; the run `Registrations.ForeignSnapshotIsOverwritten`).
* The `.reg` file keeps connection flags 0, which the program itself restores as a direct connection; the
  two ways back agree exactly if the flags are not 0 (`Registrations.RestorePathsAgree`).
* `writeFileAtomic` never flushes the directory. A power cut after success leaves the new contents or
  anything it could have left before (`AtomicFile.WriteFileAtomic`), so success is durable only where
  nothing but the new contents could be left anyway (`AtomicFile.DurableIff`, and a run in
  `AtomicFile.SuccessIsNotDurable`). The promise of its comment, old or new and never torn, holds.
* In a chain of `Since` calls lines are missed exactly if eviction has overtaken the cursor
  (`LogBuffer.ChainedSince`).

## Model

| member | source | states |
|---|---|---|
| `RegFile.RegEscapeIsPerCharacter` | winproxy_restore.go:77-80 | The two replacing passes equal one pass that puts a backslash before every backslash and quote |
| `RegFile.EscapeRoundTrip` | winproxy_restore.go:77-80 | Reading up to the closing quote and undoing escapes inverts the escape, for every string and whatever follows |
| `RegFile.HexRoundTrip` | winproxy_restore.go:37-37 | A zero-padded hexadecimal number is read back |
| `RegFile.BytesRoundTrip` | winproxy_restore.go:46-54 | Every byte sequence is read back byte for byte through commas and the line continuation before every 24th byte |
| `RegFile.ValueRoundTrip` | winproxy_restore.go:37-74 | Each kind of value, deletion included, is read back |
| `RegFile.LineRoundTrip` | winproxy_restore.go:69-75 | A printed line is read back as its name and value |
| `RegFile.SectionsRoundTrip` | winproxy_restore.go:30-64 | Any list of printed sections parses to its assignments, in order and under the right key |
| `RegFile.RestoreTextRoundTrip` | winproxy_restore.go:25-64 | The restore file parses to the enable bit, the strings with empty ones as deletions, the blob unless there was none, and the three variables, for all settings and blobs |
| `RegText.PrintedLines` | winproxy_restore.go:69-75 | Deletions and strings look as `reg import` expects them, with the value escaped |
| `RegText.PrintedEscapes` | winproxy_restore.go:77-80 | A backslash and a quote each get a backslash, other characters none |
| `RegText.PrintedBits` | winproxy_restore.go:33-37 | The enable bit prints as an eight-digit dword |
| `RegText.PrintedContinuation` | winproxy_restore.go:46-52 | A blob is continued on a new line before every 24th byte and nowhere else |
| `RegText.PrintedBlob` | winproxy_restore_test.go:9-20 | The blob of the repository's own test prints as that test expects |
| `RegText.PrintedBlobLine` | winproxy_restore.go:43-56 | The blob is the DefaultConnectionSettings value |
| `RegText.PrintedHeader` | winproxy_restore.go:30-30 | The file starts with the editor's header |
| `Routing.EnableBitMeansProxy` | winproxy_restore.go:33-37 | Parsed, the file says ProxyEnable 1 if the saved flags have the proxy bit, and 0 otherwise |
| `Routing.OlderValuesAgreeIff` | winproxy_restore.go:32-41 | For every scheme and host, the older values of the parsed file route as the saved connection options, if and only if a script URL is saved just where the flags ask for a script |
| `Routing.InternetKey` | winproxy_restore.go:19-23 | The keys of the file by their full names |
| `RegFile.WriteRegString` | winproxy_restore.go:66-75 | Appends the line for a string, or for a deletion if it is empty |
| `RegFile.WriteBlob` | winproxy_restore.go:45-54 | The byte loop appends the text whose round trip is proved |
| `RegFile.WriteEnv` | winproxy_restore.go:59-61 | The variable loop appends one line for each proxy variable, in order |
| `RegFile.WriteInternet` | winproxy_restore.go:32-41 | Appends the Internet Settings section |
| `RegFile.WriteConnections` | winproxy_restore.go:43-56 | Appends the Connections section, or nothing without a blob |
| `RegFile.WriteEnvironment` | winproxy_restore.go:58-62 | Appends the Environment section |
| `RegFile.RestoreRegFile` | winproxy_restore.go:28-64 | The built text is the specified one and parses back to the values given |
| `SnapshotSafety.SetUserEnvEffect` | winproxy_windows.go:493-509 | Whatever order the map is walked in, a loop that succeeds sets or deletes every variable and touches nothing else |
| `SnapshotSafety.CaptureHolds` | winproxy_windows.go:210-233 | Settings captured while the user's are in place are the user's |
| `SnapshotSafety.RestoreHeld` | winproxy_windows.go:235-252 | Restoring a snapshot of the user's settings gives their normal form, exactly, from whatever was there; a failure keeps the snapshot and the user's other variables |
| `SnapshotSafety.UnregisterSafe` | winproxy_windows.go:170-191 | Under any failures and any death the snapshot goes only once everything in it is back |
| `SnapshotSafety.RegisterSafe` | winproxy_windows.go:83-166 | Under any failures and any death a snapshot of the user's settings is never replaced, nor dropped |
| `SnapshotSafety.InstallNetsFrame` | winproxy_windows.go:105-123 | Installing the nets changes neither the settings nor the snapshot |
| `CrashSafety.ImportGood` | winproxy_restore.go:82-92 | Importing a good restore file, cut anywhere, keeps settings that are already the user's; imported to its end over anything, it makes them so |
| `CrashSafety.ScriptOutcome` | winproxy_restore.go:87-99 | What every run of the restore script leaves, wherever it is cut and whichever of its commands fail: how much is imported, and which of RunOnce entry, snapshot and files are gone |
| `CrashSafety.ScriptKeepsRecoverable` | winproxy_restore.go:82-100 | A script cut anywhere leaves a machine that can still be recovered, with its RunOnce entry while the settings are not back |
| `CrashSafety.WholeScriptRestores` | winproxy_restore.go:82-100 | Run to its end, the script puts the user's settings back and removes snapshot, files and RunOnce entry |
| `CrashSafety.RegisterNeverExposed` | winproxy_windows.go:83-166 | Wherever a register that follows a completed unregister and meets no failing write dies, the settings are still the user's or every requested net is armed with a good script |
| `CrashSafety.UnregisterCrash` | winproxy_windows.go:168-191 | A finished unregister leaves the user's settings and no snapshot or watchdog; one that dies leaves a recoverable machine and, until the settings are back, all nets but the watchdog |
| `CrashSafety.RestoreKeepsSame` | winproxy_windows.go:235-252 | Restoring settings that are in place keeps them in place at every step, failures included |
| `CrashSafety.UnregisterCompletes` | winproxy_windows.go:168-191 | From any state a failing run can leave, nine successful writes suffice to end with the user's settings and no snapshot |
| `CrashSafety.UnregisterAgain` | winproxy_windows.go:175-178 | Unregistering again changes nothing |
| `Sessions.StepSnapshotSafe` | backend.go:215-237 | Each start, switch, option change, exit, death or user edit keeps the snapshot safe, whatever writes fail, with a listening proxy to close or without |
| `Sessions.FailuresNeverLoseSettings` | winproxy_windows.go:83-191 | The same over whole runs of any length without scripts: a snapshot holds the user's settings, and without one they are in place |
| `Sessions.StepCrashSafe` | tswipoexp.go:81-86 | Each event of a run keeps the crash invariant, with the process or its script cut short anywhere |
| `Sessions.RunCrashSafe` | tswipoexp.go:142-219 | The crash invariant holds over whole runs |
| `Sessions.SettingsSurviveCrashes` | winproxy_windows.go:78-191 | From a machine the program never touched, in every reachable state: no snapshot means the user's settings, a snapshot holds them, and while they are not in place every net still wanted is armed and the script, run to its end, restores them and cleans up |
| `Sessions.RecoveryCompletes` | winproxy_windows.go:168-191 | However a run of failures ended, one completed unregister recovers the user's settings, and a second changes nothing |
| `Sessions.NextStartHeals` | tswipoexp.go:81-86 | However a run of deaths and cut scripts ended, the next start that gets through its restore has the user's settings back, and unregistering again changes nothing |
| `Sessions.LeavingRestores` | backend.go:225-232 | An exit, a switch to a profile that stays down, or turning registration off, once completed, leaves the user's settings and no snapshot |
| `Registrations.RegisterResult` | winproxy_windows.go:78-166 | Registering over anything, even an earlier registration, leaves settings that follow from the user's own and the options |
| `Registrations.UnregisterResult` | winproxy_windows.go:168-191 | Unregistering leaves the user's settings and no net |
| `Registrations.HistoryIndependence` | winproxy_windows.go:78-82 | After any sequence of calls that met no failure, settings, snapshot, RunOnce entry and watchdog depend on the user's settings and the last call only |
| `Registrations.RestoreGivesRestored` | winproxy_windows.go:235-252 | What a restore that succeeds makes of any settings |
| `Registrations.RestorePathsAgree` | winproxy_windows.go:235-252 | Importing the parsed restore file and restoring the snapshot reach the same settings, if and only if the saved flags are not 0 |
| `Registrations.ScriptTrustedIff` | winproxy_windows.go:264-281 | After a register that meets no failure the whole script restores the user if and only if the connection settings were the user's when the file was written; it deletes the snapshot either way |
| `Registrations.FailedRestoreThenRegisterLosesSettings` | tswipoexp.go:205-219 | A run in which a failed restore followed by a register makes the script lose the user's settings |
| `Registrations.UnregisterExposure` | winproxy_windows.go:179-182 | Under any failures and any death, while an unregister has not got the settings back, snapshot and files are as they were, and RunOnce entry and watchdog are there if and only if asked for, the watchdog only if its kill was not reached or failed |
| `Registrations.UnregisterDeathLeavesNoNet` | winproxy_windows.go:179-182 | A run in which the process dies after killing the watchdog, its only net, with the program's settings in place |
| `Registrations.FailedImportLosesSettings` | winproxy_restore.go:92-94 | A run of the script whose import fails unnoticed, so that it deletes the snapshot and restores nothing |
| `Registrations.ScriptWithoutFile` | winproxy_restore.go:92-95 | Without its `.reg` file the script changes no setting and deletes the snapshot |
| `Registrations.FailedRestoreFileWriteLosesSettings` | winproxy_windows.go:107-113 | From every state with a script but no `.reg` file, one failed write arms that script, which deletes the snapshot and leaves the program's settings |
| `Registrations.RegisterKeepsForeignIff` | winproxy_windows.go:88-103 | A register leaves another machine's restore file as it is, if and only if its own snapshot is not written; it then reports an error |
| `Registrations.ForeignSnapshotIsOverwritten` | winproxy_windows.go:88-103 | A run in which a register writes over another machine's restore file |
| `Registrations.UnregisterKeepsForeign` | winproxy_windows.go:175-178 | An unregister that finds another machine's restore file changes neither it nor any setting |
| `TrustedScripts.RegisterPaired` | winproxy_windows.go:96-166 | A register that starts with the user's connection settings leaves every script with a good `.reg` file beside it, under any failures and any death |
| `TrustedScripts.UnregisterPaired` | winproxy_windows.go:330-346 | So does an unregister, which removes the script before its file |
| `TrustedScripts.RegisterTrustedIff` | winproxy_windows.go:83-166 | No sequence of failures and no death makes a register arm a script that loses the user's settings, if and only if it starts with the user's connection settings and without a script that has lost its file |
| `TrustedScripts.RegisterNeverExposedIff` | winproxy_windows.go:105-123 | Whatever writes fail and wherever it dies, a register from the user's settings leaves them in place or something armed that brings them back, if and only if a script and a net that it cannot withdraw are there already |
| `TrustedScripts.RefusedFileLeavesNoScript` | winproxy_windows.go:107-109 | A run in which one refused file leaves the proxy set and no script to undo it |
| `TrustedScripts.StartAfterFailedRestore` | tswipoexp.go:81-86 | A run in which a start, or a switch, registers over a failed restore and arms a script that keeps the program's settings |
| `TrustedScripts.PartialImportIff` | winproxy_restore.go:92-92 | An import that gives up early gives the user's settings, if and only if what the missed assignments are about was the user's already |
| `TrustedScripts.RunTrustedIff` | winproxy_restore.go:87-99 | A run of the script with any commands failing and cut anywhere keeps the machine trusted, if and only if it deletes the snapshot only when its import missed nothing of importance, and its file only together with itself |
| `TrustedScripts.TrustedScriptRestores` | winproxy_restore.go:82-87 | On a trusted machine every script, run to its end, gives the user's settings |
| `TrustedScripts.StepTrusted` | tswipoexp.go:142-219 | Each event keeps the machine trusted, with any writes and commands failing, if a start registers only after a restore that worked and a script that runs is safe |
| `TrustedScripts.SettingsSurviveFailures` | winproxy_windows.go:78-191 | Over whole runs of failures, deaths and scripts under that condition: no snapshot means the user's settings, a snapshot holds them, every script run to its end restores them, and so does one unregister without a failure, after which another changes nothing |
| `Routing.BypassesLoopback` | winproxy_windows.go:75-76 | The bypass list, read item by item, names exactly localhost, 127 addresses and the bracketed IPv6 loopback |
| `Routing.NormConnRoutesAlike` | winproxy_windows.go:237-241 | Restoring flags 0 as a direct connection changes no request's way, and nothing but the flags |
| `Routing.StaticServer` | winproxy_windows.go:127-134 | The server list names the address for http and https and nothing for any other scheme |
| `Outbound.RegisteredRoute` | winproxy_windows.go:125-140 | Static mode sends exactly http and https to the proxy's address, but for loopback hosts; PAC mode asks the script and leaves nothing of a fixed proxy; either falls back to direct |
| `OperationSteps.SetUserEnvStopsAtFailure` | winproxy_windows.go:499-509 | The loop stops at the first failing write, and succeeds only by writing every variable |
| `OperationSteps.WatchdogHandle` | winproxy_windows.go:359-409 | A known watchdog is not started again, and stopping forgets it whether or not it was killed |
| `OperationSteps.RestoreOrder` | winproxy_windows.go:241-251 | No variable changes before the connection is back |
| `OperationSteps.RemoveCrashRestoreOrder` | winproxy_windows.go:332-346 | The RunOnce entry goes before the script and the script before its file, under any failures |
| `OperationSteps.UnregisterReportsRestore` | winproxy_windows.go:179-190 | Only failing to restore is an error, and then snapshot, files and RunOnce entry are untouched |
| `OperationSteps.RegisterReports` | winproxy_windows.go:101-165 | Success means that the connection is changed, an error that no setting is, whatever becomes of nets and variables |
| `OperationSteps.ReapplyTrusted` | backend.go:118-130 | Applying options keeps the machine trusted under any failures, because it gives up when restoring fails |
| `OperationSteps.ScriptOrder` | winproxy_restore.go:87-99 | After its import the script removes RunOnce entry, snapshot, file and itself in this order; cut before the last it stays behind without its file |
| `Outbound.RegisteredLiveFollows` | winproxy_windows.go:125-160 | Routes and variables of a registration are those its configuration asks for; all other variables are the user's |
| `Outbound.OutboundFollowsConfig` | backend.go:114-130 | Applying a configuration leaves routes, variables and nets as that configuration alone asks, with missing options on; with registration off, the user's own settings |
| `WinProxy.Desktop.SetUserEnv` | winproxy_windows.go:493-509 | The loop, in any order and stopping at the first failure |
| `WinProxy.Desktop.CaptureProxySettings` | winproxy_windows.go:210-233 | Reads the connection and those proxy variables that are set |
| `WinProxy.Desktop.RestoreSettings` | winproxy_windows.go:235-252 | Connection first, then the variables, deleting those not saved |
| `WinProxy.Desktop.WriteCrashRestoreFiles` | winproxy_windows.go:264-281 | The `.reg` file with the blob as it is now, and the script only after it |
| `WinProxy.Desktop.RemoveCrashRestore` | winproxy_windows.go:330-346 | RunOnce entry, script, `.reg` file, stopping at the first failure |
| `WinProxy.Desktop.StartWatchdog` | winproxy_windows.go:359-395 | Starts a watchdog unless one that has not ended is known |
| `WinProxy.Desktop.StopWatchdog` | winproxy_windows.go:397-409 | Kills the known watchdog and forgets it even when that fails |
| `WinProxy.Desktop.RegisterSystemProxy` | winproxy_windows.go:83-166 | Performs the specified registration, and keeps every user's settings safe |
| `WinProxy.Desktop.ChangeSettings` | winproxy_windows.go:125-165 | Connection settings by mode, then the variables or the user's own |
| `WinProxy.Desktop.UnregisterSystemProxy` | winproxy_windows.go:170-191 | Performs the specified unregistration, and keeps every user's settings safe |
| `WinProxy.Desktop.ApplyOutbound` | backend.go:118-130 | Restores, and registers with the new options only if that worked |
| `LogBuffer.CanonicalIsUnique` | logsink.go:73-81 | What was written since the last clear fixes what is retained |
| `LogBuffer.KeepsFiftyMegabytes` | logsink.go:26-27 | What is kept fits 52428800 bytes or is one line, and one line more would not fit |
| `LogBuffer.EvictIsCanonical` | logsink.go:76-81 | The eviction loop stops at the longest suffix that fits, or at the last line alone |
| `LogBuffer.WrittenIsCanonical` | logsink.go:60-83 | Every write keeps the buffer that longest suffix |
| `LogBuffer.ChainedSince` | logsink.go:100-117 | Two chained calls without a clear between them give the history without gap or repeat, if and only if eviction has not overtaken the cursor |
| `LogBuffer.LogSink.Write` | logsink.go:60-83 | Appends the line without its trailing line ends and evicts; byte count and sequence numbers stay exact |
| `LogBuffer.LogSink.EvictOldest` | logsink.go:76-81 | The loop on lines, bytes and first ends where the specification does |
| `LogBuffer.LogSink.Lines` | logsink.go:85-98 | The last n lines written, oldest first, each with a newline |
| `LogBuffer.LogSink.Since` | logsink.go:100-117 | The history from the clamped cursor on, the next sequence number and the generation |
| `LogBuffer.LogSink.Clear` | logsink.go:119-128 | Empties the window at its end and bumps the generation |
| `LogBuffer.LogSink.Stats` | logsink.go:130-135 | Count and exact total length of the retained lines |
| `LogView.OpenedLate` | ui_logs.go:96-97 | A window opened on any buffer starts synced |
| `LogView.WriteKeepsSynced` | ui_logs.go:129-155 | A write, with whatever it evicts, keeps a window synced |
| `LogView.ClearKeepsSynced` | ui_logs.go:76-82 | A clear keeps a window synced, whether or not it emptied its rows |
| `LogView.PullSynced` | ui_logs.go:129-155 | A pull with any number of writes between its two calls ends synced; an undisturbed one shows exactly the buffer, across eviction gaps and clears |
| `LogView.StepSynced` | ui_logs.go:76-155 | Each event keeps buffer and window in step |
| `LogView.WindowNeverWrong` | ui_logs.go:129-155 | Over every interleaving of writes, clears, pulls and reopenings: in the same generation the rows end with exactly the buffered lines below the cursor, in an older one nothing buffered is below it |
| `LogView.PullDropsOnlyForRows` | ui_logs.go:129-155 | A pull keeps the selection with every row where it was, or drops it as a whole, and only when rows start anew or the first one goes |
| `LogView.ReactKeepsOrDrops` | ui_logs.go:129-223 | Every action keeps every row where it is, or drops selection and anchor |
| `LogView.MarkedRowStays` | ui_logs.go:143-250 | Over all interleavings of writes, clears, pulls, follow changes and selections, a row that was there when it was selected or became the anchor shows the same log line until it is dropped |
| `LogView.Between` | ui_logs.go:201-210 | A range selects exactly the existing rows between anchor and index, whichever comes first |
| `LogView.CopyEmitsRowsInOrder` | ui_logs.go:237-250 | The copied text is the selected existing rows in ascending order |
| `LogView.LogViewer.OthersWrite` | ui_logs.go:129-155 | What other goroutines write keeps the window valid and untouched |
| `LogView.LogViewer.OthersClear` | logsink.go:119-128 | So does a clear |
| `LogView.LogViewer.Pull` | ui_logs.go:129-155 | Rows, cursor, selection and anchor are exactly as specified, whatever is written between the two calls; with nothing written in between, the rows are the buffered lines; a change is reported exactly for a new generation or a cursor that moves |
| `LogView.LogViewer.Merge` | ui_logs.go:131-142 | Starts anew without a selection after a clear, then adds what is new |
| `LogView.LogViewer.BoundRows` | ui_logs.go:144-150 | Keeps no more rows than the buffer has lines, dropping the selection if rows go |
| `LogView.LogViewer.ClearButton` | ui_logs.go:76-82 | Clears the buffer, the rows, the selection and the anchor, and leaves the cursor behind |
| `LogView.LogViewer.SelectOne` | ui_logs.go:170-180 | The row becomes the whole selection and the anchor |
| `LogView.LogViewer.ToggleSelect` | ui_logs.go:182-192 | Adds one row, which becomes the anchor, or removes one and leaves the anchor |
| `LogView.LogViewer.SelectRange` | ui_logs.go:194-212 | Selects exactly the existing rows between anchor and index and keeps the anchor; without one, just the row |
| `LogView.LogViewer.ClearSelection` | ui_logs.go:214-223 | Drops selection and anchor |
| `LogView.LogViewer.SetFollow` | ui_logs.go:62-69 | Checking Follow drops selection and anchor, unchecking it does not |
| `LogView.LogViewer.CopySelection` | ui_logs.go:237-250 | Builds the specified text, and none without a selection |
| `EnvBlock.DeduplicatedIsUnique` | ssh_windows.go:317-335 | One entry for each key ignoring case, in order of first appearance, each the key's last: that fixes the list |
| `EnvBlock.DeduplicatedKeysDiffer` | ssh_windows.go:317-335 | No two listed entries are for the same variable |
| `EnvBlock.EveryKeyIsListed` | ssh_windows.go:323-335 | Every entry with an equals sign has its key in the list, whatever its value |
| `EnvBlock.LastEntryIsListed` | ssh_windows.go:317-335 | The last entry of a key is listed as it is |
| `EnvBlock.BlockLayout` | ssh_windows.go:336-345 | Each entry ends in a NUL, and one more ends the block |
| `EnvBlock.BlockRoundTrip` | ssh_windows.go:336-345 | Reading the block up to its first empty entry gives back the list |
| `EnvBlock.Deduplicate` | ssh_windows.go:321-335 | The loop with its map of seen keys yields that list |
| `EnvBlock.WriteBlock` | ssh_windows.go:336-345 | Fails exactly if an entry holds a NUL |
| `EnvBlock.EnvBlock` | ssh_windows.go:320-346 | Fails exactly if an entry that deduplication keeps holds a NUL; otherwise the block decodes to the deduplicated list |
| `AtomicFile.RenameInstalls` | profiles.go:389-393 | Renaming a synced file adds exactly its bytes to what a power cut may leave |
| `AtomicFile.PrepareTmp` | profiles.go:370-388 | Whatever fails before the rename, the target is untouched; without a failure the new data is synced |
| `AtomicFile.WriteFileAtomic` | profiles.go:366-394 | The target reads as before after an error and is the new data after success; a power cut at any point leaves one of those whole; neither success nor a single failure leaves a temporary file |
| `AtomicFile.DurableIff` | profiles.go:389-393 | After success a power cut can leave only the new data, if and only if before it could already leave nothing else |
| `AtomicFile.SuccessIsNotDurable` | profiles.go:366-394 | A run without a failure after which a power cut brings the old bytes back |
| `AtomicFile.PowerCutKeeps` | profiles.go:366-368 | A power cut adds nothing to what later ones may leave |
| `AtomicFile.SaveManyTimes` | profiles.go:366-368 | Over any sequence of saves, failures, deaths and power cuts the target is never torn |
| `RefreshTimer.StepCoalesced` | ui.go:481-493 | Each atomic step keeps the timer variable exact and every unseen change under way |
| `RefreshTimer.NoLostRefresh` | ui.go:479-493 | In every interleaving at most one timer is pending, and a change not yet shown has a refresh under way |
| `RefreshTimer.Coalesces` | ui.go:479-493 | However many notifications a run has, it starts only the timers that expire in it and at most one that still counts, and refreshes come no faster than timers expire |
| `RefreshTimer.LastChangeIsShown` | ui.go:479-493 | Once changes stop, every interleaving ends within a bound, and ends only with the last change shown |
| `RefreshTimer.UI.ScheduleRefresh` | ui.go:481-493 | The locked body is the specified step: it starts a timer unless one is pending, and queues nothing |
| `RefreshTimer.UI.ClearTimer` | ui.go:487-490 | The callback's locked section is the specified step |
| `Ipv4.DottedRoundTrip` | pac.go:95-102 | Every address is read back from its dotted text |
| `Ipv4.MaskComparesTopBits` | pac.go:95-102 | Masking compares exactly the top bits, for every length from 0 to 32 (section 3.1 of RFC 4632) |
| `Ipv4.MaskedCoversSame` | pac.go:43-43 | Clearing host bits keeps what a prefix covers, and is idempotent |
| `Ipv4.PrefixRoundTrip` | pac.go:84-89 | Every prefix is read back from its text |
| `Ipv4.LoopbackText` | pac.go:65-68 | Text starting with 127 and a dot is exactly the text of 127.0.0.0/8 |
| `PacScript.WriteScript` | pac.go:57-93 | Builds the specified rules in order, returning early for all traffic |
| `PacScript.WriteRoutes` | pac.go:84-90 | One rule for each route that parses; the others are skipped |
| `PacScript.Decision` | pac.go:57-93 | For every host: loopback goes direct, and otherwise any one rule is enough for the proxy |
| `PacScript.CgnatText` | pac.go:74-75 | The literal test of the script is the one for 100.64.0.0/10 (section 7 of RFC 6598) |
| `PacScript.NetTest` | pac.go:84-90 | A route's rule holds for an address if and only if the route contains it |
| `PacScript.LiteralDecision` | pac.go:57-93 | For every IPv4 literal: 127/8 goes direct; otherwise the proxy is used if and only if all traffic is asked for, the address is in 100.64.0.0/10 or in a listed route, or the MagicDNS suffix matches the digits |
| `PacScript.SuffixNeverNumeric` | pac.go:79-83 | A suffix that does not end in a digit never matches an address |
| `PacScript.MagicDnsNames` | pac.go:79-83 | Names in the MagicDNS domain use the proxy, even in a browser that ignores dnsDomainIs |
| `PacScript.OtherNames` | pac.go:57-93 | Any other dotted name goes direct |
| `PacScript.LoopbackNames` | pac.go:64-68 | The loopback tests hold for exactly the hosts written there, in every lawful browser |
| `PacScript.NameDecision` | pac.go:57-93 | For every host that is not an IPv4 literal: direct for loopback, and otherwise the proxy if and only if all traffic is asked for, or it is a Tailscale IPv6 literal, a name without dots, or in the MagicDNS domain |
| `PacScript.EitherSuffixTest` | pac.go:79-83 | Either helper's word for the suffix is enough for the proxy, in any browser |
| `PacScript.IsV4Means` | pac.go:62-62 | The literal test holds for exactly four groups of one to three digits with dots between them |
| `PacRoutes.AddPeer` | pac.go:41-48 | One peer's routes are filtered, masked and added without repeats |
| `PacRoutes.PacInputsFrom` | pac.go:25-51 | The inputs for a status: routes sorted, without repeats, and exactly the masked texts of the IPv4 prefixes some peer advertises that are not all of IPv4 nor one of the tailnet's own addresses |
| `PacRoutes.TrimDotsExact` | pac.go:33-33 | Only dots go from the MagicDNS suffix, and all at either end |
| `PacRoutes.NeverListsEverything` | pac.go:40-42 | The prefix of all addresses is never listed |
| `PacRoutes.LeqIsDictionaryOrder` | pac.go:50-50 | Routes are sorted in the order of a dictionary |
| `PacRoutes.SortedIsUnique` | pac.go:50-50 | A sorted list without repeats is fixed by its elements |
| `PacRoutes.InputsAreCanonical` | pac.go:25-51 | Inputs of two statuses are equal if and only if nothing the script depends on differs |
| `PacRoutes.OrderDoesNotMatter` | pac.go:37-49 | The order in which the peers are walked changes nothing |
| `PacRoutes.TextCovers` | pac.go:43-43 | A route listed as text covers the same addresses as the route |
| `PacRoutes.LiteralFollowsRoutes` | pac.go:25-93 | From status to decision: an IPv4 literal outside 127/8 uses the proxy if and only if it is in 100.64.0.0/10 or in such a prefix |
| `PacRoutes.FingerprintIsInjective` | backend.go:388-388 | For one listening address, inputs that print alike are equal, whatever the suffix contains |
| `PacRoutes.StatusWatch.RefreshStatus` | backend.go:385-391 | With a listening proxy a change is reported if and only if there was an earlier status whose traffic differs; without one, never |

## Left out

- WinProxy.Desktop.RegisterSystemProxy: every read of settings or snapshot succeeds; machine and user stay the same during a run, so that the restore file is ours or another's once and for all; the JSON text of the snapshot is not modelled
- WinProxy.Desktop.UnregisterSystemProxy: the same limits
- CrashSafety.RegisterNeverExposed: no write fails there; `TrustedScripts.RegisterNeverExposedIff` is for failing ones
- Registrations.ScriptTrustedIff: no write fails there; `TrustedScripts.RegisterTrustedIff` is for failing ones
- Sessions.SettingsSurviveCrashes: writes and commands do not fail there, so that it can promise every wanted net; with failures, `TrustedScripts.SettingsSurviveFailures` says what still holds. A reboot is an orderly one: a power cut, after which a completed write of a file or a registry key may be gone again, is not one of the events. One actor at a time: an ApplyOutbound goroutine that overlaps another call, and a watchdog script that overlaps a new start, are not interleaved
- Sessions.FailuresNeverLoseSettings: runs without scripts only; the ones with scripts are `TrustedScripts.SettingsSurviveFailures`, whose condition on starts is sufficient, while those on single registers and scripts are exact
- CrashSafety.ImportGood: one imported assignment is atomic; the connection blob is any invertible encoding of the connection settings (`BlobCodec.LawfulCodecExists` shows that there is one) and always exists; the legacy values of Internet Settings do not change the effective settings
- CrashSafety.ScriptOutcome: the script is a list of its five commands, not batch file text
- RegFile.RestoreRegFile: characters, not the file's encoding; a variable of another registry type than a plain string is not told apart
- WinProxy.Desktop.StartWatchdog: process numbers, the log file and the PowerShell text
- WinProxy.Desktop.WriteCrashRestoreFiles: the blob can always be read, where the source would print a file without one; each file is one atomic write here, which `AtomicFile` justifies for failures and the death of the process, and not for a power cut
- PacScript.WriteScript: rules instead of JavaScript text, and browser helpers by their laws (`PacScript.PlainBrowserIsLawful` shows that the laws can be met); listed routes are IPv4, the only kind `pacInputsFrom` lists
- PacRoutes.PacInputsFrom: whether an address is one of Tailscale's own is a parameter; sort.Strings is an insertion sort here, which the uniqueness of the result leaves without effect
- LogBuffer.LogSink.Write: sequence numbers and generations do not wrap at 64 bits; the copies to stderr and the log file, made outside the lock, are not modelled
- LogView.LogViewer.Pull: clears come from the window's own goroutine, so none falls between its two calls
- LogView.LogViewer.CopySelection: line ends are those of Windows
- EnvBlock.EnvBlock: entries are UTF-16 code units, and upper-casing is a parameter
- AtomicFile.WriteFileAtomic: closing and syncing are whole calls; renaming is atomic; other files and directories are not modelled
- RefreshTimer.NoLostRefresh: the wait of 150 milliseconds is not measured
- Windows calls themselves, tsnet, the IPN bus, SOCKS5 and HTTP proxying, the LocalAPI bridge, SSH sessions and ConPTY, widgets, tray and debug endpoint: network, foreign processes and user interface
- Profiles: listing, creating, renaming and deleting are single file operations, and SSH mode, host name and address defaults are single branches
