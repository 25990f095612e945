# Verified model of the MT5 HTTP API's hard parts

This project models, in Dafny, the concurrent protocols and the list and byte algorithms of the
MT5 HTTP API, and proves what they promise. Each `.dfy` file is one module. `dafny verify
dfyconfig.toml` checks everything. Paths below are relative to the repository.

## What is modelled

**MT5 session and idempotent orders** (`Mt5Session`, `ClientOrders`, `OrderDesk`). One lock
serialises SDK calls; a call that times out leaves its thread inside the SDK, where it stays
tracked and blocks further calls until a restart has killed the terminal. On top of this a
`client_order_id` makes placing an order safe to retry. The protocol is a step system with
sessions, threads tagged with a terminal generation, broker orders and remembered sends; its
theorems are about every run. Assumptions: the broker keeps comments; a kill that works resolves
the calls in flight; a send that has returned is decided; a search takes at most three call
timeouts; clocks are whole seconds with a constant broker skew; no other API process on the same
account sends the same id. When one id can get two orders is proved exactly: a lookup that is not
answered reads as an empty list (mt5api/handlers/orders.py:70-86), and in every run each id has at
most one order if and only if only the lookup of the open positions may go unanswered and every
kill works or finds no call that can still reach the broker. The runs for the three ways to fail
are given.

**Backtest jobs** (`BacktestProtocol`, `JobStore`). Submission, worker and cancel requests over
RUN_LOCK, its holder, the cancel flags and the active workers, one step a locked block. The route's
holder check and its kill are one step, and a cancel starts after the submission has returned.
That a cancel stays noticeable is proved exactly: it holds along a run if and only if no cancel
drops the flag of a job another cancel has already marked, and a run with two overlapping cancels
launches a cancelled job. The job table is a class whose disk writes may fail.

**Reboot drain handshake** (`BusyApi`, `DrainProtocol`, `RebootGuard`). One guard, any number of
API processes, a flag with a maximum age and a gap between looking at the flag and registering.
The reboot is safe in every run if and only if that gap is shorter than the settle time. The
guard's waiting loop is a method proved to end. The flag is up on return when the outcome is idle,
and also when an earlier guard left it up and no poll was ever quiet: the loop only drops the flag
after a quiet poll (scripts/reboot_guard.py:169-175).

**WebRequest allowlist** (`AllowlistUrls`, `AllowlistCodec`, `SectionRewrite`, `CommonIni`,
`AllowlistPlan`, `AllowlistSession`, `Reapply`). The blob codec, the rewrite of common.ini, the
plan, the edits and the check of one dialog session, and the background re-apply. Bytes are the
integers below 256, with the mask and the exclusive or written out. Where the checksum is
documented as a sum over the code units, the code takes as many units as the string has
characters; `ChecksumIsDocumentedIff` says when that differs, and `AcceptedUrlMissummed` that the
allowlist accepts URLs for which it does. In a session, what the list accepts
is a parameter, and removing and adding otherwise do what they say; the lemmas about the check
itself hold for any list the dialog ends with. Strings use ASCII letter case.

**VM watchdog** (`Watchdog`, `WatchdogSweep`). The restart decision as a class proved against a
function, its meaning over every trace of observations, and the sweeps that apply it to VMs and
their sidecars. The state files survive, and a container's health is read once a poll.

**File API** (`FilePaths`, `FileTree`). Path resolution and access rules on strings, and writes,
extractions and deletions over a map from lower-cased paths to contents. What another process
holds open is a parameter.

**Windowed retrieval** (`RateWindows`), **deployments** (`Registry`, `Deployments`) and
**optimization-cache rows** (`RowLayout`). The doubling windows against "first N" and "last N";
the registry with its two files, the loader and the merged view; the stride, the longest run and
the records. A converged view can be wrong when a deployment is resumed between its reads of the
revision and of the list (mt5api/chartctl/registry.py:255-258): the run is given, with the exact
condition. Revisions go on naming one content each after a restart, in every further run, if and
only if the restart read a registry file no older than the published desired.json. In `RowLayout` the most frequent distance may be any one of equals, as in the code,
where a set's order decides.

`Text` and `Options` are shared helpers.

## Model

| member | source | states |
|---|---|---|
| ClientOrders.SessionSafety | mt5api/mt5client.py:240-282 | in every run the queue depth counts the sessions, admission is capped, the lock has one holder, a returned call is untracked, and unless a kill failed with a call live there is at most one live call a terminal generation, and it is tracked |
| Mt5Session.QueueKept | mt5api/mt5client.py:320-353 | every step keeps exact queue depth, bounded admission and a single lock holder |
| Mt5Session.CallKept | mt5api/mt5client.py:171-189 | every step keeps tracked threads running and a waiting session's call its own |
| Mt5Session.SingleFlightKept | mt5api/mt5client.py:240-282 | every step but a failed kill with a call live keeps all live threads tracked and one a generation |
| Mt5Session.NothingLiveBefore | mt5api/mt5client.py:561-641 | a call starts, and tracked threads are forgotten, only when no thread can reach the broker |
| ClientOrders.AtMostOneOrderPerId | mt5api/handlers/orders.py:98-178 | in every run: two accepted orders with one client_order_id are more than the lookback window apart and the earlier is not pending, unless a search for that id got no answer about pending orders or history, or a failed kill left a live call |
| ClientOrders.OncePerIdIff | mt5api/handlers/orders.py:98-178 | every run has at most one order per id in the window exactly when the only lookup that may go unanswered is that of the open positions and every kill works or finds nothing live |
| ClientOrders.DeafSourceRepeats | mt5api/handlers/orders.py:58-86 | for the pending orders, and for the history: a run in which that one lookup going unanswered lets a retry after a timeout place the order twice |
| ClientOrders.AcknowledgedNeverRepeated | mt5api/handlers/orders.py:52-66 | an acknowledged order is not repeated in the window even when no lookup answers |
| ClientOrders.OrderKept | mt5api/handlers/orders.py:98-178 | the order invariant is kept by every step |
| ClientOrders.ReconnectSafeIff | mt5api/mt5client.py:561-641 | a restart's reconnect keeps one call a generation exactly when the kill worked or nothing was live |
| ClientOrders.RestartLeavesNone | mt5api/mt5client.py:561-641 | in every run whose kills worked or found nothing live, a restart that has reconnected leaves no tracked thread and none that can reach the broker |
| ClientOrders.FailedKillRepeats | mt5api/mt5client.py:561-641 | with truthful lookups and a kill that left a live call, a send and its retry both take effect |
| OrderDesk.Desk.ForgetOld | mt5api/handlers/orders.py:52-55 | exactly the sends inside the lookback window stay remembered |
| OrderDesk.Desk.FindClientOrder | mt5api/handlers/orders.py:58-86 | the search answers with the remembered send, or the first list entry with the id, sources in order |
| OrderDesk.Desk.Record | mt5api/handlers/orders.py:165-178 | an accepted send, and no other, is remembered with its time and result |
| OrderDesk.FindByComment | mt5api/handlers/orders.py:70-86 | the first entry with the comment, or none when there is none |
| OrderDesk.SearchMissesIff | mt5api/handlers/orders.py:58-86 | the search misses an order exactly when it is not remembered and every list showing it went unanswered |
| OrderDesk.MissedIffCleared | mt5api/handlers/orders.py:58-86 | pending orders and history answered at two different moments show nothing of an id exactly when the facts a send relies on in the step system hold |
| BacktestProtocol.KillsOnlyUnderTheLock | mt5api/backtest/handler.py:830-887 | in every interleaving kills for a job happen while it holds RUN_LOCK, which has one worker inside |
| BacktestProtocol.NoJobLeftBehind | mt5api/backtest/handler.py:890-923 | a job whose worker has left has ended or is being cancelled; a set flag has a worker or a cancel behind it |
| BacktestProtocol.EndIsFinal | mt5api/backtest/jobs.py:130-144 | a job that has ended keeps its status through every continuation |
| BacktestProtocol.BaseKept | mt5api/backtest/handler.py:926-1171 | every step of submit, worker and cancel keeps the whole invariant |
| BacktestProtocol.NoticeableKeptIff | mt5api/backtest/handler.py:1205-1211 | a step keeps every cancel noticeable exactly when it does not drop the flag of a cancelled active job |
| BacktestProtocol.NoticeableRunIff | mt5api/backtest/handler.py:1205-1233 | the same for whole runs |
| BacktestProtocol.AloneIsClean | mt5api/backtest/handler.py:1184-1234 | cancel requests that never overlap for a job never lose a flag |
| BacktestProtocol.CancelledNeverLaunches | mt5api/backtest/handler.py:962-1022 | a job cancelled before its last check never launches while flags are not lost |
| BacktestProtocol.CancelIsHonoured | mt5api/backtest/handler.py:962-1022 | the same from the initial state for every run without overlapping cancels |
| BacktestProtocol.OverlappingCancelsLaunch | mt5api/backtest/handler.py:1207-1211 | two overlapping cancels lose the flag and the cancelled job launches |
| JobStore.Jobs.WriteJob | mt5api/backtest/jobs.py:102-121 | a write that fails marks the job unsaved, one that works clears the mark |
| JobStore.Jobs.StoreJob | mt5api/backtest/jobs.py:124-127 | the whole new table |
| JobStore.Jobs.UpdateJob | mt5api/backtest/jobs.py:130-144 | the whole new table; a cancelled job keeps status, error and finishedAt |
| JobStore.Jobs.LoadJob | mt5api/backtest/jobs.py:147-161 | the whole new table; an unsaved job is written again on load |
| JobStore.SplitLoadIsAtomic | mt5api/backtest/jobs.py:147-161 | whatever runs between the two locked blocks of a load, the second one loads in one step or changes nothing |
| JobStore.Jobs.Cancel | mt5api/backtest/jobs.py:164-177 | only an active job in memory is cancelled |
| JobStore.Jobs.SweepOrphans | mt5api/backtest/jobs.py:266-324 | the sweep fails exactly this terminal's active jobs among the files touched since the cutoff that it can read and rewrite, and counts them |
| JobStore.DiskIsMemoryOrOlder | mt5api/backtest/jobs.py:102-121 | in every run with failing writes disk and memory agree unless marked unsaved, and then disk holds a version from before the last operation, or what an earlier process left, or nothing |
| JobStore.UnsavedIff | mt5api/backtest/jobs.py:102-121 | a job is marked unsaved exactly when its last write failed, in every run |
| JobStore.NextWriteHeals | mt5api/backtest/jobs.py:147-161 | the next successful write of a job brings the disk up to date |
| JobStore.CancelledStays | mt5api/backtest/jobs.py:140-142 | a cancelled job keeps status, error and finishedAt through every run |
| JobStore.NoOrphanSurvives | mt5api/backtest/jobs.py:302-324 | after a crash anywhere in a run and a sweep, a job the process stored is active on disk exactly when it was and its file was not swept; a swept one is loaded as active by no fresh process; no other file changed |
| JobStore.FinishedSurvives | mt5api/backtest/jobs.py:302-324 | a finished job whose last write worked survives crash and sweep |
| BusyApi.HandOverHasNoGap | mt5api/reboot_guard.py:80-97 | from the moment a backtest POST registers until its worker ends the answer is busy, whatever happens before and between the three reads |
| BusyApi.CarriedKept | mt5api/backtest/handler.py:777-798 | store, register the worker, then unregister the POST: each step leaves the backtest with its POST or its worker |
| BusyApi.ReversedReadsMiss | mt5api/reboot_guard.py:80-97 | with workers read before writes a hand-over is missed |
| BusyApi.ValidKept | mt5api/backtest/handler.py:777-798 | a job is stored before its worker registers, through every step of an API |
| DrainProtocol.DrainSafety | scripts/reboot_guard.py:150-189 | with gaps shorter than the settle time and every API answering, the reboot breaks no write and no backtest |
| DrainProtocol.SettleTimeIsExact | scripts/reboot_guard.py:57 | safety holds in every run exactly when the gap is shorter than the settle time |
| DrainProtocol.NothingOnTheWay | mt5api/server.py:72-86 | once settled, no write stands between its look at the flag and its registration |
| DrainProtocol.SlowWriteBreaks | mt5api/server.py:72-86 | a run in which a write as slow as the settle time is cut by the reboot |
| RebootGuard.Guard.WaitUntilIdle | scripts/reboot_guard.py:150-189 | the wait ends within one round of the cap, its outcome is that of the last polls, the flag is up exactly when it is idle or an earlier guard left it up and no poll was quiet, and log lines are sparse |
| RebootGuard.LeftOverFlagStays | scripts/reboot_guard.py:150-189 | a flag left up by an earlier guard is still up after a wait that gave up without one quiet poll |
| RebootGuard.Guard.Round | scripts/reboot_guard.py:168-175 | one round is idle exactly when both its polls are quiet |
| RebootGuard.Guard.LogWait | scripts/reboot_guard.py:183-188 | an unchanged wait is logged at most once every 300 s |
| RebootGuard.NoReasonsIff | scripts/reboot_guard.py:126-135 | there are no reasons exactly when no API answers busy |
| AllowlistUrls.CleanUrls | mt5api/chartctl/webrequest.py:77-90 | the loop computes the cleaned list |
| AllowlistUrls.CleanIsClean | mt5api/chartctl/webrequest.py:65-90 | what is kept is exactly the acceptable entries, stripped, each once |
| AllowlistUrls.CleanKeepsClean | mt5api/chartctl/webrequest.py:77-90 | cleaning a clean list changes nothing |
| AllowlistCodec.XorBitsTwice | scripts/webrequest_allowlist_codec.py:45-61 | exclusive or with the same number twice gives the number back |
| AllowlistCodec.CipherIsABijection | scripts/webrequest_allowlist_codec.py:45-61 | the two cipher directions are inverse length-preserving bijections |
| AllowlistCodec.FirstDifferenceSpreads | scripts/webrequest_allowlist_codec.py:54-61 | ciphertexts agree before the first plaintext difference and differ at every byte from it to the next one |
| AllowlistCodec.EncodeCfb | scripts/webrequest_allowlist_codec.py:54-61 | the loop computes the cipher |
| AllowlistCodec.DecodeCfb | scripts/webrequest_allowlist_codec.py:45-51 | the loop computes the inverse |
| AllowlistCodec.Swap16 | scripts/webrequest_allowlist_codec.py:38-42 | the in-place loop swaps neighbouring bytes |
| AllowlistCodec.SwapTwice | scripts/webrequest_allowlist_codec.py:38-42 | swapping twice gives the bytes back |
| AllowlistCodec.HexBack | scripts/webrequest_allowlist_codec.py:71-83 | the digits read back as the bytes and have no white space around them |
| AllowlistCodec.Utf16Back | scripts/webrequest_allowlist_codec.py:71-83 | strict decoding undoes UTF-16 encoding for every string |
| AllowlistCodec.CheckSeesUnitIff | scripts/webrequest_allowlist_codec.py:64-68 | changing one code unit changes the checksum exactly when the unit is counted |
| AllowlistCodec.ChecksumIsDocumentedIff | scripts/webrequest_allowlist_codec.py:64-68 | when the checksum is the documented sum of all code units; always for BMP strings |
| AllowlistCodec.LastSurrogateDropped | scripts/webrequest_allowlist_codec.py:64-68 | for every string whose only character beyond the BMP is its last one the checksum is not the documented sum |
| AllowlistCodec.DecodeOfEncode | scripts/webrequest_allowlist_codec.py:71-83 | decoding a blob gives its list back exactly when no URL holds ';' and the list is not one empty URL |
| SectionRewrite.ReadsBack | mt5api/chartctl/webrequest.py:155-166 | a reader finds the URL line that was written, whatever the file held |
| SectionRewrite.KeepsOthers | mt5api/chartctl/webrequest.py:181-228 | each key once in [Experts]; every other line kept in order, up to blank lines at the end and an added header |
| SectionRewrite.WriteTwice | mt5api/chartctl/webrequest.py:181-228 | writing twice is writing once |
| CommonIni.RewriteLines | mt5api/chartctl/webrequest.py:193-224 | the source's loop computes the rewrite, header appended when missing |
| CommonIni.RewriteLine | mt5api/chartctl/webrequest.py:199-218 | what one turn of the loop emits and remembers |
| CommonIni.FlushMissing | mt5api/chartctl/webrequest.py:193-197 | exactly the keys not yet written are added |
| CommonIni.WriteCommonIni | mt5api/chartctl/webrequest.py:181-228 | the written file is the specification's |
| CommonIni.ReadBlob | mt5api/chartctl/webrequest.py:157-166 | the reading loop finds the first URL key's value in [Experts] |
| CommonIni.ReadBack | mt5api/chartctl/webrequest.py:155-172 | for any existing file, reading after a write gives the cleaned list |
| CommonIni.WriteIsTidy | mt5api/chartctl/webrequest.py:181-228 | keys once, other lines kept, and a second write changes nothing, for the real lines |
| CommonIni.AcceptedUrlMissummed | mt5api/chartctl/webrequest.py:65-74 | URLs that the allowlist accepts and whose checksum is not the documented sum |
| AllowlistPlan.PlanChanges | mt5api/chartctl/winoptions.py:665-719 | the loops compute the plan |
| AllowlistPlan.RemoveAllLeaves | mt5api/chartctl/winoptions.py:920-922 | removing the planned indices from the highest down leaves exactly the rows that were to stay, in order |
| AllowlistPlan.ExactVerifiesIff | mt5api/chartctl/winoptions.py:976-984 | a full replace passes the check exactly when the list holds the wanted keys minus the rejected, each once, all URLs, for any resulting list |
| AllowlistPlan.PatchVerifiesIff | mt5api/chartctl/winoptions.py:985-990 | when a patch passes the check, for any resulting list |
| AllowlistPlan.ExactAchieves | mt5api/chartctl/winoptions.py:688-701 | a full replace ends with the wanted keys minus the rejected, without duplicates |
| AllowlistPlan.PatchPassesIff | mt5api/chartctl/winoptions.py:985-990 | a patch passes unless a removed URL's key is also that of a row that is no URL |
| AllowlistPlan.ExactPlansRejected | mt5api/chartctl/winoptions.py:665-719 | planning again removes nothing and adds exactly the rejected URLs |
| AllowlistPlan.PatchPlansRejected | mt5api/chartctl/winoptions.py:665-719 | the same of a patch |
| AllowlistSession.UrlList.Session | mt5api/chartctl/winoptions.py:890-973 | a session saves exactly when it goes through, and then the list, the box and the three reported lists are the planned ones; otherwise nothing changes |
| AllowlistSession.UrlList.AddUrls | mt5api/chartctl/winoptions.py:925-932 | additions in order, refused ones collected, or a stop at the first when partial is off |
| AllowlistSession.ExactGoesThrough | mt5api/chartctl/winoptions.py:938-953 | only a refused URL stops a full replace |
| AllowlistSession.HostPatchGoesThrough | mt5api/chartctl/winoptions.py:938-953 | with URLs that have a host, only a refused URL stops a patch |
| AllowlistSession.HostsAreNotShadowed | mt5api/chartctl/winoptions.py:313-323 | no row that is no URL shares its key with a URL that has a host |
| AllowlistSession.BareSchemeFails | mt5api/chartctl/winoptions.py:313-323 | removing "http:///" beside a row "http://" always fails the check |
| Reapply.NoRequestLost | mt5api/chartctl/webrequest_apply.py:276-311 | the flag says whether one thread is live or starting exactly while no start has failed, and after one it is up with no thread; while it is down a pass has started after every accepted request |
| Reapply.FailedStartSticks | mt5api/chartctl/webrequest_apply.py:304-311 | the run from rest, for any request, in which a failed thread start leaves the flag up and no thread |
| Reapply.PendingIsLatest | mt5api/chartctl/webrequest_apply.py:286-290 | a pending pass carries the latest request's delay and reason |
| Reapply.ComesToRest | mt5api/chartctl/webrequest_apply.py:276-290 | finishing the work at hand, at most two more passes, lowers the flag with every request served |
| Reapply.FailedStartIsFinal | mt5api/chartctl/webrequest_apply.py:304-311 | after a thread start that failed no pass ever starts again |
| Reapply.ReapplyOnce | mt5api/chartctl/webrequest_apply.py:244-273 | a running backtest delays a pass and costs no attempt |
| Reapply.GivesUpIff | mt5api/chartctl/webrequest_apply.py:244-273 | a pass gives up exactly after three failed tries |
| Watchdog.VmState.Decide | scripts/vm-watchdog.py:420-469 | the method mutates the record as the decision function says |
| Watchdog.RecordMeans | scripts/vm-watchdog.py:420-469 | the record is the restarts since the last steady moment, the latest one's time and the start of the healthy run |
| Watchdog.RestartIff | scripts/vm-watchdog.py:448-469 | exactly when a restart happens, in terms of the trace: streak, budget and backoff after the previous restart |
| Watchdog.HealthySinceMeans | scripts/vm-watchdog.py:426-442 | a non-zero healthy_since is the time since which every observation was healthy |
| Watchdog.RestartsAreBounded | scripts/vm-watchdog.py:420-469 | restarts number at most MAX_ATTEMPTS * (1 + elapsed / RESET_SECONDS) over every trace |
| WatchdogSweep.Watch.SweepOnce | scripts/vm-watchdog.py:595-662 | a poll folds each observation into its record and recreates what it decides; a dry run changes nothing |
| WatchdogSweep.Watch.SweepSidecars | scripts/vm-watchdog.py:665-757 | only sidecars whose owner this poll read as healthy are judged |
| WatchdogSweep.RecordsAreSeparate | scripts/vm-watchdog.py:626-641 | one service's record and recreations depend on its own observations alone |
| WatchdogSweep.RecreationsAreBounded | scripts/vm-watchdog.py:595-662 | the bound for each service over any observations in order |
| WatchdogSweep.Watch.Run | scripts/vm-watchdog.py:827-832 | the records and recreations after any number of polls, and, from no records, the bound for each service over their time |
| WatchdogSweep.OwnerIsLeftAlone | scripts/vm-watchdog.py:717-724 | a sidecar is judged only under an owner the poll waits on |
| FilePaths.ResolveTwice | mt5api/fileapi/tree.py:113-141 | a resolved path written out resolves to itself |
| FilePaths.EntryStaysBelow | mt5api/fileapi/ops.py:341 | an archive entry's name cannot leave the target directory |
| FilePaths.BelowIsPrefix | mt5api/fileapi/tree.py:77-81 | a path below another starts with the other's key and a slash |
| FilePaths.Comparable | mt5api/fileapi/tree.py:94-100 | two prefixes of one path are comparable |
| FilePaths.ProtectedBlocksDelete | mt5api/fileapi/tree.py:94-100 | a directory with a protected file below cannot be deleted |
| FileTree.ProtectedKept | mt5api/fileapi/ops.py:230-324 | through any run of writes, extractions and deletions a protected file keeps its bytes and none appears |
| FileTree.Tree.WriteFile | mt5api/fileapi/ops.py:230-253 | exactly when a write goes through, and that it changes that one file |
| FileTree.Tree.MakeDirs | mt5api/fileapi/ops.py:392-397 | directories are made exactly when no file is in the way, and otherwise nothing changes |
| FileTree.Tree.Extract | mt5api/fileapi/ops.py:256-308 | exactly which files an extraction puts: none unless every check passed, then the planned ones up to the first that cannot be moved, all of them on success |
| FileTree.Tree.Delete | mt5api/fileapi/ops.py:311-324 | exactly how a deletion ends and what it removes; on success nothing of the path is left |
| FileTree.PlanExtract | mt5api/fileapi/ops.py:327-354 | accepted exactly when every entry is plain and writable, keys are distinct and files at most max_files; the plan is then the files in order |
| FileTree.PlanStaysBelow | mt5api/fileapi/ops.py:327-354 | everything an accepted plan puts lies under the target |
| FileTree.Unpack | mt5api/fileapi/ops.py:357-389 | staged bytes never pass max_bytes, and unpacking succeeds exactly when nothing is broken and all fits |
| RateWindows.ForwardBars | mt5api/handlers/symbols.py:335-354 | whichever attempt succeeds the bars are the first N of the widest window, and none after an unanswered attempt |
| RateWindows.ForwardIsFirstNIff | mt5api/handlers/symbols.py:335-354 | they are the first N from the anchor exactly when the widest window holds N, or all there are |
| RateWindows.BackwardTicks | mt5api/handlers/symbols.py:533-554 | the same for the last N ticks |
| RateWindows.BackwardIsLastNIff | mt5api/handlers/symbols.py:533-554 | they are the last N up to the anchor exactly when the widest window holds N, or all there are |
| Registry.EditKeepsOneChart | mt5api/chartctl/registry.py:115-183 | no edit lets two enabled deployments share an upper-cased symbol and timeframe |
| Registry.Store.CheckNoDuplicateChart | mt5api/chartctl/registry.py:115-126 | free exactly when no other enabled deployment has the chart |
| Registry.Store.AddDeployment | mt5api/chartctl/registry.py:129-151 | the new registry and both files, with failing writes |
| Registry.Store.UpdateDeployment | mt5api/chartctl/registry.py:154-170 | the same of an update; resuming is checked |
| Registry.Store.RemoveDeployment | mt5api/chartctl/registry.py:173-183 | the same of a removal |
| Registry.Store.RewriteDesired | mt5api/chartctl/registry.py:205-212 | the same of a forced rewrite |
| Deployments.OneChartAlways | mt5api/chartctl/registry.py:115-183 | in every run no two enabled deployments share a chart, in memory or in anything published |
| Deployments.RevisionNamesContent | mt5api/chartctl/registry.py:72-99 | published revisions rise, so each names one content, through failed writes, lost files and restarts, while every restart reads a registry file no older than desired.json |
| Deployments.RestartIsSafeIff | mt5api/chartctl/registry.py:49-99 | after a restart revisions go on naming one content each, in every further run, exactly when the file it read was no older than desired.json |
| Deployments.StaleRestartReuses | mt5api/chartctl/registry.py:49-99 | from every state whose file is older, a run that publishes two contents under one revision |
| Deployments.LostRegistryReusesRevisions | mt5api/chartctl/registry.py:57-64 | after the registry file is lost one revision names two contents |
| Deployments.ConvergedMeans | mt5api/chartctl/registry.py:241-279 | with the revision unchanged, a converged view comes from the state in force with every enabled deployment running |
| Deployments.ConvergedRunsIff | mt5api/chartctl/registry.py:282-294 | a converged view has all running exactly when none of them was reported paused |
| Deployments.ResumeLooksConverged | mt5api/chartctl/registry.py:254-258 | a run in which a deployment resumed during the view makes it wrongly converged |
| Deployments.UndisturbedPassConverges | tests/chartctl_fake_loader.py:37-83 | once the latest edit is published, one undisturbed pass without failures makes the view converged |
| RowLayout.FindLongestRun | mt5api/backtest/cache_parser.py:136-146 | the first longest contiguous block with the stride |
| RowLayout.ModeOf | mt5api/backtest/cache_parser.py:135 | a most frequent distance |
| RowLayout.RunHasTwo | mt5api/backtest/cache_parser.py:148-149 | the longest run always has two offsets, so that check never fails |
| RowLayout.DetectLayout | mt5api/backtest/cache_parser.py:117-163 | a returned layout is one, and without one there is no distance or the run does not fit |
| RowLayout.LayoutTiles | mt5api/backtest/cache_parser.py:206-217 | the records tile the end of the data and record i has the i-th offset at the symbol offset |

## Left out

- The MetaTrader5 SDK, process handling, window messages, HTTP routing and the MCP wrappers: environment steps, parameters or not modelled.
- Waiting for a terminal to relaunch, updater clean-up and report parsing: nondeterministic outcomes of the worker.
- Other API processes' jobs, and the start-up sweep racing submissions: one process's own jobs, swept before any submission.
- JobStore.Jobs.LoadJob: its two locked blocks are one step; `SplitLoadIsAtomic` says why that loses nothing.
- JobStore.Jobs.SweepOrphans: each file name occurs once in the directory, and no other operation runs beside the sweep.
- OrderDesk.SearchMissesIff: judges the three lists as of one moment; `MissedIffCleared` is about the lists of two moments.
- DrainProtocol.DrainSafety: an API that does not answer counts as idle in the code, so the theorem is for polls that every API answered.
- Mt5Session.SingleFlightKept: a restart whose kill failed while a call was live is excluded; the run that shows why is given.
- CommonIni.ReadBack: works on decoded lines; the bytes and line ends of the file are not modelled.
- AllowlistSession.UrlList.Session: a dialog that closes by itself, and rows with white space around them, are not modelled.
- Reapply.NoRequestLost: a request without a stored list does nothing in the code and is no request here.
- Watchdog.RestartsAreBounded: a lost state file starts a fresh record and is not covered.
- FileTree.Tree.Delete: what a removal could not take is a parameter; directories held open are not modelled.
- FileTree.ProtectedKept: symbolic links, junctions, short names and file attributes are not modelled.
- RateWindows.ForwardBars: a range query answers completely or not at all, and the broker offset is constant.
- Deployments.RevisionNamesContent: new ids differ from those in use.
- Letter case outside ASCII, in URLs, paths and symbols.
- Listing, reading and describing files, `.set` files, duration parsing, logging and the metric scoring of cache rows: they would only add easy members.
