# Gitwise: a verified model of its protocols

Dafny models of the parts of Gitwise whose correctness spans many functions or many concurrent steps, with
proofs of what they guarantee. `dafny verify dfyconfig.toml` checks everything.

| file | models |
|---|---|
| `Hub.dfy` | the WebSocket hub: registry, bounded channels, writer goroutines, as interleaved steps and as a class |
| `Mirror.dfy`, `MirrorCrashes.dfy`, `MirrorFanOut.dfy` | the mirror scheduler: per-repository locks, the two-table run protocol, crashes, the reaper; what crashes leave behind; the bounded fan-out of RunDue |
| `Git.dfy`, `RebaseRange.dfy`, `RebasePreOrder.dfy` | the merge engine: three strategies over any commit graph; when rebase replays exactly base..head |
| `Reviews.dfy`, `Pulls.dfy`, `PullRuns.dfy` | reviews and their summaries; the pull request lifecycle with branch protection, the row lock and the lost transaction; what whole runs of it guarantee |
| `Queue.dfy` | the agent task queue: three lists, N workers, serialized generation |
| `Cursor.dfy`, `Paging.dfy` | pagination cursors down to base64, RFC 3339 and UUID text; keyset paging over changing tables |
| `Sse.dfy` | the chat's event stream, from SendMessage to the panel's incremental reader |
| `PktLine.dfy` | pkt-lines: the pre-receive check, the error reply, the advertisement header |
| `DiffView.dfy` | unified diffs: parsing, side-by-side layout, highlighting |
| `Search.dfy` | LIKE escaping, the stable in-place sort, reciprocal rank fusion |
| `Webhooks.dfy` | webhook deliveries and their retries |
| `Common.dfy`, `Text.dfy` | small datatypes and string functions the others share |

Concurrent parts are step systems: a `State`, the `Event`s one goroutine can perform without another seeing the middle,
`Enabled` and `Step`; theorems speak of every `run` that `CanRun` from an initial state. Beside each stands a class in
the form of the source, whose methods change fields in place and are proved to perform a run of those steps, so the
theorems about runs apply to them. Loops of the source are loops here.

Where the code and what is said about it differ, the model follows the code:

- The reaper's comment says `next_run_at` was already in the past when a stuck run began. For a run started by hand or
  by a push it need not be (`MirrorCrashes.ReapedScheduleWasNotPast`). It was exactly if no sync of the repository had
  ended before that start, or the interval had passed since the last one had (`MirrorCrashes.ReapedScheduleWasPastIff`).
  By the time of the reaping it is past in any case (`MirrorCrashes.CrashedSyncIsDueAgain`).
- The reaper can mark a mirror failed whose newest run succeeded (`MirrorCrashes.ReapCanOverrideSuccess`), exactly when
  an older run is stuck (`MirrorCrashes.ReapOverridesSuccessIff`).
- A crash between finishRun's two writes leaves a mirror 'running' with no run row to reap, and the scheduler never
  picks it up again (`MirrorCrashes.CrashCanStrand`). `Mirror.RecoversIffFindable` and `Mirror.CrashStageDecides` give
  the exact condition.
- The merge gate counts every approval ever given, the review summary only latest reviews.
  `Reviews.GateAgreesWithSummary` says exactly when the two agree.
- The row lock of a merge does not cover the branch. Two pull requests merging into one branch can both be shown as
  merged with one of them gone (`Pulls.OverlappingMergesLoseOne`, from a state that `Pulls.OverlapIsReachable` reaches);
  `Pulls.WriteKeepsTipIff` is the exact condition for the tip a write replaces to stay.
- Update does not repeat Create's check that source and target differ (`PullRuns.TargetBecomesSource`). A pull request's
  target is its own source exactly if the last update that gave it a target named its source
  (`PullRuns.TargetIsSourceIff`).
- Rebase stops at the first log entry that equals the merge base. Over a single-parent history that is base..head
  (`Git.RebaseReplaysRange`); over merges it can replay too much or too little (`Git.RebaseReplaysOldCommit`,
  `Git.RebaseSkipsNewCommit`). In the order in which go-git iterates by default, depth first with the parents as named,
  the exact condition is `RebasePreOrder.PreOrderTakesRangeIff`: going down by the first parent that has base in its
  history, no parent named earlier shares history with base and no parent named later brings in anything new. If the
  order is left open altogether, the exact condition is that no commit above base is a merge or a root
  (`RebaseRange.RebaseTakesRangeIff`).
- An older, time-only comment cursor leaves out comments made at that very instant (`Paging.AscendingOlderForm`).
- A "done" event ends only the handling of the chunk it arrived in, so what a client handles is independent of the cuts
  exactly when "done" comes last (`Sse.CutsDoNotMatterIff`), which SendMessage ensures.
- `%04x` does not bound a pkt-line: a refusal message over 65506 bytes is not readable as one (`PktLine.ReplyReadsBackIff`).
- The branch of parsePatch that is to skip the "---" and "+++" lines of a file header is never reached by them
  (`DiffView.FileHeadersAreShown`), so above the hunks of a changed file the viewer shows a deleted and an added line
  (`DiffView.GitHeadShows`). The numbers of the hunks do not suffer from what stands above them
  (`DiffView.PatchIsNumbered`).
- parsePatch takes git's remark "\ No newline at end of file" for a line of both files: the lines of the hunk below it
  carry too high a number, by one for each remark above them (`DiffView.ShiftedByRemarks`).
- The third retry delay, 30 minutes, is never used: three attempts need two delays (`Webhooks.LastDelayIsUnused`).

## Model

| member | source | states |
|---|---|---|
| `WebSocketHub.RunInv` | internal/websocket/hub.go:37-155 | The hub's invariant holds in every reachable state of every interleaving of registrations, removals, sends and writer failures. |
| `WebSocketHub.StepInv` | internal/websocket/hub.go:37-155 | Every single step of any goroutine keeps it. |
| `WebSocketHub.NoChannelMisuse` | internal/websocket/hub.go:85-100 | No interleaving closes a channel twice or sends on a closed one, and no more than 256 messages are queued. |
| `WebSocketHub.RegistryShape` | internal/websocket/hub.go:56-73 | The map never holds an empty list, and every connection at most once over all users. |
| `WebSocketHub.DeliveredIsPrefix` | internal/websocket/hub.go:106-137 | What reached a connection's socket is a prefix of what was sent to its user after it registered: no gap, duplicate or reorder. |
| `WebSocketHub.NothingLost` | internal/websocket/hub.go:78-137 | While a connection is registered, everything sent is written, in the writer's hands or queued; a closed channel is drained. |
| `WebSocketHub.LeavingCloses` | internal/websocket/hub.go:56-101 | In every run, the step by which a connection leaves the registry also closes its channel, unless it is its own failed writer that takes it out. |
| `WebSocketHub.GoneIsClosed` | internal/websocket/hub.go:56-155 | At any time a registered channel is open, and one outside the registry is closed or was given up by its failed writer. |
| `WebSocketHub.ClosedPumpProgress` | internal/websocket/hub.go:106-137 | The writer of a closed channel never waits, and every step it takes brings it closer to its end. |
| `WebSocketHub.ClosedIsDrained` | internal/websocket/hub.go:106-120 | While its writes succeed, the writer's own steps deliver everything the closed channel accepted and then end it. |
| `WebSocketHub.SendingEnabled` | internal/websocket/hub.go:83-96 | In the middle of SendToUser its next step is always enabled: it never waits for a slow client. |
| `WebSocketHub.SendToUserCompletes` | internal/websocket/hub.go:78-101 | From any point inside SendToUser its own steps alone end it and free the mutex. |
| `WebSocketHub.SendToUserIsRun` | internal/websocket/hub.go:78-101 | The uninterrupted call is one of the interleavings. |
| `WebSocketHub.Hub.Register` | internal/websocket/hub.go:37-51 | A new connection, open and empty, comes last in the user's list; nothing else changes. |
| `WebSocketHub.Hub.Unregister` | internal/websocket/hub.go:56-73 | The first connection of the user with that socket is closed and gone from the list, the others stay in order, and no other connection or list changes; without one nothing changes. |
| `WebSocketHub.Hub.Offer` | internal/websocket/hub.go:85-93 | The non-blocking send: the message is queued if there is room, otherwise the channel is closed and the connection dropped. |
| `WebSocketHub.Hub.SendToUser` | internal/websocket/hub.go:78-101 | Each of the user's connections with fewer than 256 messages queued gets this one and stays, in order, every other one is closed and dropped, and nothing else changes; the call is a run of the sending steps and keeps the invariant. |
| `WebSocketHub.Hub.UnregisterConn` | internal/websocket/hub.go:141-155 | A failed writer's connection leaves the list, the others stay in order, and its channel is left as it is; one already gone is left alone. |
| `Mirror.OneSyncPerRepo` | internal/services/mirror/service.go:194-203 | In every run, crashes included, at most one goroutine is past the lock of a repository. |
| `Mirror.RunInv` | internal/services/mirror/service.go:226-371 | Rows, locks and goroutine phases agree in every run, crashes included. |
| `Mirror.StatusFollowsNewestRun` | internal/services/mirror/service.go:285-371 | In crash-free runs, whenever a repository's lock is free its status is that of its newest run and not 'running', and it has at most 51 run rows, with the reaper interleaved anywhere. |
| `Mirror.CrashFreeRun` | internal/services/mirror/service.go:226-371 | The stages of a sync are what the phase of the goroutine says, throughout every crash-free run. |
| `Mirror.ReaperIsExact` | internal/services/mirror/service.go:463-489 | One pass fails exactly the runs older than three times max(interval, 600) seconds, and their mirrors. |
| `Mirror.TimeStep` | internal/services/mirror/service.go:345-349 | With a fixed interval, the next run is never scheduled later than one interval after the last start. |
| `Mirror.CrashLeavesRunning` | internal/services/mirror/service.go:285-309 | A crash between startRun and finishRun's first write leaves exactly one running, forgotten run. |
| `Mirror.CrashedRunIsReaped` | internal/workers/mirror_worker.go:54-66 | Such a run stays until the first pass later than start + 3 * max(interval, 600) seconds, which fails it; the mirror is then due in that same tick. |
| `Mirror.RecoversIffFindable` | internal/services/mirror/service.go:396-489 | Left to the scheduler, a mirror becomes due again after a crash if and only if its 'running' status is backed by a running run row. |
| `Mirror.CrashStageDecides` | internal/services/mirror/service.go:319-371 | A crash leaves the mirror findable at every stage except between finishRun's two writes. |
| `Mirror.ConfigureStartsSchedule` | internal/services/mirror/service.go:47-123 | Setting up a mirror with a positive interval starts the schedule the time bounds speak of. |
| `MirrorCrashes.ScheduleIsHistory` | internal/services/mirror/service.go:319-353 | In every run from the start in which a repository keeps one positive interval, its next_run_at is the time its mirror row was last written at the end of a sync plus the interval, or the time it was first configured if no sync has ended. |
| `MirrorCrashes.SelectedIff` | internal/services/mirror/service.go:396-401 | In every such run the scheduler selects the mirror if and only if it is not 'running' and no sync of it has ended yet, or the interval has passed since the last one ended. |
| `MirrorCrashes.RunTimeOk` | internal/services/mirror/service.go:319-353 | In every such run the next run is never scheduled later than one interval after now, nor after the start of a newest run still running. |
| `MirrorCrashes.CrashedSyncIsDueAgain` | internal/services/mirror/service.go:285-489 | In every run from the start: a sync that a crash cuts off while it transfers is failed, whatever else happens, by any pass of the reaper later than its start + 3 * max(interval, 600) seconds; the mirror is then due, with the next_run_at that stood when the sync started. |
| `MirrorCrashes.ReapedScheduleWasPastIff` | internal/services/mirror/service.go:456-462 | The next_run_at such a pass leaves was in the past when the sync started if and only if no sync of the repository had ended before, or the interval had passed since the last one had. |
| `MirrorCrashes.ReapedScheduleWasNotPast` | internal/services/mirror/service.go:456-462 | A run from the start in which a manual sync crashes and is reaped with a next_run_at later than its start. |
| `MirrorCrashes.CrashCanStrand` | internal/services/mirror/service.go:319-353 | A run from the start that crashes between the two writes and after which neither the clock nor the reaper ever makes the mirror due again. |
| `MirrorCrashes.ReapAgreesIff` | internal/services/mirror/service.go:463-489 | After a pass of the reaper the mirror's status is that of its newest run if and only if that run was reaped, or an older one was and the newest had failed, or none was and they agreed before. |
| `MirrorCrashes.ReapOverridesSuccessIff` | internal/services/mirror/service.go:463-489 | The reaper overrides a newer successful run if and only if an older run is stuck. |
| `MirrorCrashes.ReapCanOverrideSuccess` | internal/services/mirror/service.go:463-489 | A run from the start in which it does. |
| `Mirror.SyncStepsRun` | internal/services/mirror/service.go:226-281 | One undisturbed sync is a run of its steps from any state in which the lock is free. |
| `Mirror.MirrorService.ConfigureMirror` | internal/services/mirror/service.go:47-123 | The refusals of a request in their order, without change; otherwise the row is created or its interval replaced, as the configuration step says. |
| `Mirror.MirrorService.MutexFor` | internal/services/mirror/service.go:194-203 | A repository keeps the mutex it was first given. |
| `Mirror.MirrorService.SyncNow` | internal/services/mirror/service.go:226-281 | A sync performs exactly the run of steps from call to unlock; an unconfigured repository is refused without change. |
| `Mirror.MirrorService.StartRun` | internal/services/mirror/service.go:285-309 | Both writes as one transaction: a new last run row, 'running' since now, and the mirror marked 'running'; its schedule stays. |
| `Mirror.MirrorService.FinishRun` | internal/services/mirror/service.go:319-371 | The run and the mirror get the outcome, the next run is the interval from now or none, and the last 50 run rows are kept. |
| `Mirror.MirrorService.ReapStuck` | internal/services/mirror/service.go:463-489 | Exactly the runs 'running' for more than three times max(interval, 600) seconds are failed, exactly their mirrors are marked, and these are counted. |
| `Mirror.MirrorService.FailAllStuck` | internal/services/mirror/service.go:465-479 | The update of the run rows: every stuck run of every repository is failed, and the repositories concerned are returned. |
| `Mirror.MirrorService.MarkFailed` | internal/services/mirror/service.go:480-484 | The update of the mirror rows of those repositories, and of no other. |
| `Mirror.MirrorService.SelectDue` | internal/services/mirror/service.go:396-414 | Up to 50 mirrors with a positive interval, not 'running', whose next run is unset or not later than now, each once, and all of them when there are no more. |
| `MirrorFanOut.FanOutSafe` | internal/services/mirror/service.go:389-453 | However calls of RunDue and their goroutines interleave, at most one call is past its lock, with at most five syncs in flight, and it returns exactly one result per due id. |
| `MirrorFanOut.ReturnsAllDue` | internal/services/mirror/service.go:389-453 | A call that finds the lock free returns with exactly one result for each id it found due, whatever else happens meanwhile. |
| `MirrorFanOut.DispatchedIff` | internal/services/mirror/service.go:424-430 | The next due id is dispatched exactly when fewer than five are in flight. |
| `MirrorFanOut.ResultChannelHasRoom` | internal/services/mirror/service.go:416-453 | A goroutine with a result never blocks on the channel. |
| `MirrorFanOut.FanOutProgress` | internal/services/mirror/service.go:389-453 | A call past the lock cannot deadlock and every step of it leaves less to do, down to its return, which frees the lock; calls made meanwhile are skipped without effect. |
| `Git.AncestorAntisym` | internal/git/service.go:718-758 | Ancestry is a partial order: the commit graph has no cycles. |
| `Git.MergeBaseOfAncestor` | internal/git/service.go:822-838 | When base is an ancestor of head, base itself is the only merge base. |
| `Git.PlanSound` | internal/git/service.go:760-893 | For every strategy and every commit graph, success ends in a commit with head's tree and the old base among its ancestors; squash and rebase add only single-parent commits. |
| `Git.PlanParents` | internal/git/service.go:760-893 | Every parent of a created commit is base, head or created before it. |
| `Git.AdvanceOk` | internal/git/service.go:760-893 | Merging keeps the store closed under parents, keeps every object and tag, and moves only the base branch. |
| `Git.PlanAncestors` | internal/git/service.go:760-893 | The history of the new tip is base's, the created commits and, after a merge commit, head's. |
| `Git.RebaseOutcome` | internal/git/service.go:822-861 | Rebase goes through exactly when head is strictly ahead of base, and otherwise fails for the reason that holds. |
| `Git.RebaseCommits` | internal/git/service.go:868-888 | What a rebase adds to the history are single-parent commits committed by the merger, each on the one before. |
| `Git.ChainIsRange` | internal/git/service.go:840-855 | A single-parent chain on base is exactly what head reaches and base does not. |
| `Git.LogWalksChain` | internal/git/service.go:842-855 | Whatever order the log uses, above base it walks such a chain from head downwards. |
| `Git.RebaseReplaysRange` | internal/git/service.go:840-892 | Rebasing a single-parent history succeeds with a chain on the old base tip that has the trees, authors and messages of exactly base..head, in order. |
| `Git.RebaseReplaysOldCommit` | internal/git/service.go:842-855 | A concrete history with a merge, where a commit already in base is replayed. |
| `Git.RebaseSkipsNewCommit` | internal/git/service.go:842-855 | A concrete history with a merge, where a new commit is not replayed. |
| `RebasePreOrder.PreOrderTakesRangeIff` | internal/git/service.go:840-855 | For any history with head ahead of base and the default order of the log: the collect loop takes exactly base..head if and only if, going down by the first parent that reaches base, no earlier parent shares history with base and no later one brings in anything new. |
| `RebasePreOrder.PreOrderIsLog` | internal/git/service.go:842-845 | The default order gives every commit head reaches once, each after one of its children. |
| `RebasePreOrder.UnbranchedIsFine` | internal/git/service.go:842-855 | A history without merges above base meets that condition. |
| `RebasePreOrder.MergeCanBeFine` | internal/git/service.go:842-855 | So do some histories with merges. |
| `RebasePreOrder.SideFirstGoesAstray` | internal/git/service.go:842-855 | A merge that names a side branch first, with history shared with base, is not replayed as base..head. |
| `RebasePreOrder.BaseFirstGoesAstray` | internal/git/service.go:842-855 | A merge that names base first loses the commits of its other side. |
| `RebaseRange.RebaseTakesRangeIff` | internal/git/service.go:840-855 | If any order is allowed that gives each commit after one of its children: the loop takes exactly base..head in all of them if and only if no commit above base is a merge or a root. |
| `RebaseRange.UnbranchedTakesRange` | internal/git/service.go:842-855 | Without branches above base every order of the log gives base..head. |
| `RebaseRange.BranchGoesWrong` | internal/git/service.go:842-855 | For any merge or root above base one of those orders makes the loop take something else. |
| `RebaseRange.ContinueLog` | internal/git/service.go:842-845 | Every beginning of a log can be continued to a full one, so the orders spoken of exist for every commit. |
| `Git.RetryOutcome` | internal/git/service.go:760-893 | A second merge of an unmoved head after a first one succeeded: for each pair of strategies, whether it goes through, and then with head's tree. |
| `Git.StaleWriteLoses` | internal/git/service.go:760-893 | A merge planned on a base that has moved since drops the commit the branch moved to. |
| `Git.GitService.ResolveRef` | internal/git/service.go:213-237 | A name is looked up among branches, then tags. |
| `Git.GitService.MergeBranches` | internal/git/service.go:718-758 | A merge puts one commit on the base branch with the parents old base tip and head tip in that order, a squash one with the old base tip alone, both with head's tree and the given signature and message; a rebase only commits by the merger on the old tip. Each error exactly in its case, without change. |
| `Git.GitService.DoMergeCommit` | internal/git/service.go:760-796 | One commit with the parents base and head in that order, head's tree, and the given signature and message; refused exactly when base is not an ancestor of head. |
| `Git.GitService.DoSquashMerge` | internal/git/service.go:798-820 | One commit on base with head's tree. |
| `Git.GitService.DoRebaseMerge` | internal/git/service.go:822-893 | The collected commits, reversed and replayed on base, or the matching error without change. |
| `Git.GitService.Collect` | internal/git/service.go:842-855 | The log up to the merge base. |
| `Git.GitService.ReverseInPlace` | internal/git/service.go:863-866 | The array ends up as the reverse of what it was. |
| `Git.GitService.ReplayOnto` | internal/git/service.go:868-888 | Each commit with its author, message and tree, committed by the merger, on top of the one before. |
| `Reviews.ApproversAre` | internal/services/pull/service.go:410-424 | The merge gate counts exactly the users with an approval of this pull request. |
| `Reviews.LatestIsLast` | internal/services/review/service.go:147-204 | The summary goes by a user's last review. |
| `Reviews.ParseKind` | internal/services/review/service.go:244-250 | Which of the three words means which kind of review; every other word is refused. |
| `Reviews.GateAgreesWithSummary` | internal/services/review/service.go:147-204 | The gate's set of approvers equals the summary's if and only if everyone who ever approved still does. |
| `Reviews.WithdrawnApprovalStillCounts` | internal/services/pull/service.go:410-432 | An approval followed by a request for changes still meets a rule of one required review. |
| `Reviews.ResolveThreadEffect` | internal/services/review/service.go:118-145 | Resolving or reopening a thread gives it that status and changes no other thread's. |
| `Reviews.ThreadIsResolvedIff` | internal/services/review/service.go:206-242 | A thread counts as resolved if and only if one of its comments is. |
| `Reviews.AllCommentsAre` | internal/services/review/service.go:206-228 | The comments looked at are those of the pull request's own reviews. |
| `Reviews.CountThreads` | internal/services/review/service.go:206-242 | The nested loops count each thread once, resolved if any of its comments is. |
| `Pulls.RunInv` | internal/services/pull/service.go:351-492 | Over every interleaving of requests, pushes and lost transactions the store stays closed, no review is by the author, and every attempt holds an open row and a plan made from commits it read. |
| `Pulls.MergedIsFinal` | internal/services/pull/service.go:269-349 | A merged pull request never changes again. |
| `Pulls.MergedOnce` | internal/services/pull/service.go:374-479 | In every run the merged state is entered at most once per pull request. |
| `PullRuns.MergedWasWrittenAndReviewed` | internal/services/pull/service.go:403-479 | For every merged pull request of every run there are the moments in it at which it was checked, open, with enough distinct users who had approved it, its author not among them, for the first rule whose pattern then matched its target, and a strategy that rule allows; at which its branches were read; at which its target was moved to a commit with the source's tree on top of the tip read; and at which it was recorded, in that order. |
| `PullRuns.RunAccounted` | internal/services/pull/service.go:351-492 | At every moment of every run each attempt under way has behind it the events its phase claims. |
| `Pulls.NoSelfApproval` | internal/services/review/service.go:38-49 | No author is ever among the approvers of their own pull request. |
| `Pulls.LinearHistory` | internal/services/pull/service.go:410-432 | While the first rule whose pattern matches a branch requires linear history, any run of merges adds only single-parent commits to it. |
| `Pulls.RetriesKeepTree` | internal/services/pull/service.go:434-479 | After a lost transaction, any further attempts by any strategy leave head's tree on the target and only add commits. |
| `Pulls.LostCommitStartsRetries` | internal/services/pull/service.go:440-479 | The state in which the transaction is lost is one from which the retries start. |
| `Pulls.WriteKeepsTipIff` | internal/services/pull/service.go:434-450 | The tip a write replaces stays on the branch if and only if it is in the history of the tip the attempt read, or is a commit written, or, after a merge commit, is in the history of the source. |
| `Pulls.WriteKeepsTipIffUnmoved` | internal/services/pull/service.go:434-450 | So for a tip that was not in the store when the attempt read and is not one it writes: it stays exactly if it is the tip read. |
| `Pulls.MergesAccumulate` | internal/services/pull/service.go:374-479 | Without overlaps, what a merge puts on a branch stays on it. |
| `Pulls.OverlappingMergesLoseOne` | internal/services/pull/service.go:374-479 | For any two open pull requests without rules on one target, an interleaving of two squash merges shows both as merged, and the commit the first put on the branch is no longer on it. |
| `Pulls.OverlapIsReachable` | internal/services/pull/service.go:50-157 | Two pull requests opened in a repository without rules are such a pair. |
| `PullRuns.TargetIsSourceIff` | internal/services/pull/service.go:269-349 | At the end of every run a pull request's target is its own source if and only if the last update that gave it a target named its source. |
| `PullRuns.BranchesStayApart` | internal/services/pull/service.go:50-157 | If no update asks for its source, its branches stay different. |
| `PullRuns.TargetBecomesSource` | internal/services/pull/service.go:269-349 | A run in which a pull request comes to target its own source. |
| `Pulls.MergeStepsRun` | internal/services/pull/service.go:351-492 | An undisturbed merge is a run of its steps. |
| `Pulls.PullService.Create` | internal/services/pull/service.go:50-157 | Both branches must exist and differ; then exactly one row is added, open or a draft as asked, otherwise nothing changes. |
| `Pulls.PullService.Update` | internal/services/pull/service.go:269-349 | The target and the status asked for on a row that is not merged, all or none, and nothing else; an unknown status is refused. |
| `Pulls.PullService.SubmitReview` | internal/services/review/service.go:33-86 | A review of one's own pull request is refused, any other is appended. |
| `Pulls.CheckIsFirstMatch` | internal/services/protection/service.go:143-154 | The answer is the first rule whose pattern matches the branch, and none exactly if no pattern does. |
| `Pulls.PullService.CheckProtection` | internal/services/protection/service.go:143-154 | The loop returns the first rule whose pattern matches, and none exactly if no pattern does. |
| `Pulls.PullService.CheckMerge` | internal/services/pull/service.go:351-432 | Each refusal exactly in its case; an open pull request passes if and only if the first matching rule, if there is one, has its number of approvers and allows the strategy. |
| `Pulls.PullService.Merge` | internal/services/pull/service.go:351-492 | Refusals and git errors change nothing; otherwise git has merged target and source by the strategy asked for, "merge" if none was, with the given or the default message; unless the transaction is lost the row alone becomes merged, by this user and strategy. Success and loss are runs of the merge steps. |
| `AgentQueue.RunInv` | internal/services/llm/queue.go:79-271 | The queue's invariant in every interleaving with N workers. |
| `AgentQueue.OnePlace` | internal/services/llm/queue.go:79-271 | Each task is in exactly one place: being enqueued, on its own list, with one worker, or finished. |
| `AgentQueue.PoppedInPushOrder` | internal/services/llm/queue.go:79-196 | Tasks of one priority are taken in the order they were pushed. |
| `AgentQueue.PriorityAsked` | internal/services/llm/queue.go:79-105 | In every run a task's priority is the one it was enqueued with. |
| `AgentQueue.UnknownPriorityNeverRuns` | internal/services/llm/queue.go:162-196 | A task enqueued with a priority outside 1 to 3 is accepted and never run. |
| `AgentQueue.OneGenerateAtATime` | internal/services/llm/queue.go:199-271 | With a provider that cannot run in parallel at most one worker is generating. |
| `AgentQueue.ListedRunsIff` | internal/services/llm/queue.go:162-196 | From any state of any run in which the workers have not been told to stop, a listed task can still reach a worker if and only if its priority is 1, 2 or 3. |
| `AgentQueue.HigherListsSeenEmpty` | internal/services/llm/queue.go:162-196 | In every interleaving, a worker that takes a task enqueued with priority p takes the one pushed first of those on list p, and for each higher priority the same dequeue call had looked at that list earlier in the run, at a moment when it was empty. |
| `AgentQueue.Queue.Enqueue` | internal/services/llm/queue.go:79-112 | The row is queued with the priority asked for and the task is at the head of that priority's list; no other row or list changes. A run of the insert and the push. |
| `AgentQueue.Queue.Dequeue` | internal/services/llm/queue.go:162-196 | The task at the tail of the first non-empty of the lists 1, 2 and 3, or none after the timeout, as a run of looks. |
| `AgentQueue.Queue.ProcessTask` | internal/services/llm/queue.go:199-271 | The task alone ends completed or failed as generation went, and worker and mutex are free again, as a run of its steps. |
| `Text.SplitAppend` | web/src/components/ChatPanel.tsx:176-180 | Splitting as text arrives, carrying the last part over, is splitting the whole. |
| `Text.SplitJoined` | web/src/components/DiffViewer.tsx:526-526 | Splitting at line feeds undoes joining lines. |
| `Cursor.Base64RoundTrip` | internal/pagination/cursor.go:13-23 | Decoding inverts encoding on every byte string (section 4 of RFC 4648). |
| `Cursor.TimeBack` | internal/pagination/cursor.go:14-34 | An RFC 3339 time with nanoseconds and any offset parses back to itself (section 5.6 of RFC 3339). |
| `Cursor.UuidBack` | internal/pagination/cursor.go:35-38 | Every UUID parses back from its text. |
| `Cursor.CursorRoundTrip` | internal/pagination/cursor.go:13-39 | A cursor decodes to the time and id it was made from exactly when the year has four digits, and otherwise reports an invalid time. |
| `Cursor.LegacyCursorDecodes` | internal/pagination/cursor.go:25-29 | A time-only cursor decodes to that time and the nil id. |
| `Cursor.DecodedIsValid` | internal/pagination/cursor.go:19-39 | Whatever is sent as a cursor, what is read from it is a time on the calendar with a four-digit year and a 128-bit id. |
| `Paging.ListIssues` | internal/services/issue/service.go:133-205 | On the rows' own fields: the first of the repository's issues after the cursor, with the status asked for if it is a known one, newest first and then by descending id, at most the limit or 30, and the last one's cursor exactly if there are more; or the cursor's error. |
| `Paging.ListComments` | internal/services/comment/service.go:82-142 | The same for the comments of an issue or pull request, oldest first, with 50 as the default. |
| `Paging.ListEvents` | internal/services/activity/service.go:55-165 | The same for the events of a repository or user, newest first, with one reading of cursors and 50 as the default. |
| `Paging.AddCursor` | internal/services/issue/service.go:155-169 | The cursor clause selects exactly the rows past the cursor's place, with its arguments numbered right. |
| `Paging.CollectPage` | internal/services/activity/service.go:123-165 | The row loop and truncation yield the page of what the query selected. |
| `Paging.OneMoreIsEnough` | internal/services/issue/service.go:171-202 | Asking for one row too many is enough to know whether more remain. |
| `Paging.ListingFacts` | internal/services/issue/service.go:171-173 | A listing is in strict order and holds exactly the rows that qualify. |
| `Paging.ListedIsPage` | internal/services/issue/service.go:155-202 | The specification of the listings is a page in that sense. |
| `Paging.InstantOfNextMonth` | internal/services/issue/service.go:160-168 | The instants that cursor times are compared by follow the calendar across the months, leap years included; `InstantOfNextDay`, `InstantOfNextYear` and `InstantIsClock` say the rest. |
| `Paging.OrFormIsRowComparison` | internal/services/activity/service.go:73-85 | The OR form and the row comparison select the same rows. |
| `Paging.DescendingOlderForm` | internal/services/issue/service.go:160-168 | Descending, the time-only form is the row comparison with the nil id. |
| `Paging.AscendingOlderForm` | internal/services/comment/service.go:104-111 | Ascending, the two agree if and only if no listed row was created at the cursor's instant. |
| `Paging.ServicesAreFaithful` | internal/pagination/cursor.go:13-39 | Every cursor a service hands out is read back as the place past the row it was made from. |
| `Paging.WalkSafe` | internal/services/issue/service.go:155-202 | However the table changes between fetches, following the cursors never repeats a row, keeps strict order and skips no row that was there throughout. |
| `Paging.FollowingYieldsListing` | internal/services/issue/service.go:155-202 | Over an unchanged table the cursors end exactly when the whole ordered list has been fetched, once, after a bounded number of pages, for any limit and any ties. |
| `Paging.WalkGoesOn` | internal/services/issue/service.go:155-202 | A page's own cursor is never refused. |
| `Sse.AnyCutSameEvents` | web/src/components/ChatPanel.tsx:169-236 | However the text of events with "done" last is cut into chunks, the client handles exactly those events, in order, and nothing is left in its buffer. |
| `Sse.CutsDoNotMatterIff` | web/src/components/ChatPanel.tsx:182-236 | The handled events are independent of the cuts if and only if "done" is at most last. |
| `Sse.ReceivedIsSplit` | web/src/components/ChatPanel.tsx:169-180 | The pieces and the remainder after any chunks are those of the whole text. |
| `Sse.PieceReads` | internal/api/handlers/chat.go:151-159 | An event as written reads back as its name and data. |
| `Sse.SomeCodec` | internal/api/handlers/chat.go:151-159 | Functions with the properties asked of the two JSON libraries exist. |
| `Sse.EventsShow` | web/src/components/ChatPanel.tsx:194-235 | What each kind of event does to the view, and that a payload that does not parse does nothing. |
| `Sse.PanelShowsReply` | web/src/components/ChatPanel.tsx:169-236 | However a reply is cut, the panel ends up showing what its events say. |
| `Sse.ChatPanel.ParseEvent` | web/src/components/ChatPanel.tsx:184-192 | The loop over an event's lines. |
| `Sse.ChatPanel.HandleEvents` | web/src/components/ChatPanel.tsx:182-235 | The view after the events of one chunk, up to a "done". |
| `Sse.ChatPanel.ReadStream` | web/src/components/ChatPanel.tsx:169-236 | The view after any sequence of chunks. |
| `Sse.ChatHandler.SseWrite` | internal/api/handlers/chat.go:151-159 | The stream grows by exactly one well-formed event. |
| `Sse.ChatHandler.StreamLLMResponse` | internal/api/handlers/chat.go:341-355 | The returned text is the concatenation of the chunks and is just what the client's view grows by. |
| `Sse.ChatHandler.NextAnswer` | internal/api/handlers/chat.go:291-315 | What was streamed is withdrawn, and the client then shows the next answer only. |
| `Sse.ChatHandler.GenerateAnswer` | internal/api/handlers/chat.go:272-318 | Another generation follows exactly as long as the last answer asks for files and came through, up to six in all; each is what the model said then, an apology if the first failed, and the client shows the last, which the server holds. |
| `Sse.ChatHandler.SendMessage` | internal/api/handlers/chat.go:160-337 | The stream starts with the user's message and ends in its only "done"; a saved reply is what the client was showing, without the file tags, and clears the client's view; a failure is shown. |
| `PktLine.CheckPreReceive` | internal/git/http.go:231-277 | On every byte string it ends; the hook is called in order on the branch updates named, until it refuses one. |
| `PktLine.NextLine` | internal/git/http.go:233-252 | One payload and the bytes after it, or none at a flush and at bytes that are no pkt-line. |
| `PktLine.LinesOfPkts` | internal/git/http.go:233-252 | Printed pkt-lines read back, and no byte after the flush matters. |
| `PktLine.PktReadsBackIff` | internal/git/http.go:136-138 | A payload reads back if and only if its length takes four hex digits. |
| `PktLine.PushIsChecked` | internal/git/http.go:254-276 | For any push and any pack bytes, the updates checked are exactly its branch updates, in order. |
| `PktLine.BranchUpdatesAre` | internal/git/http.go:260-272 | Exactly the updates of "refs/heads/" and a name are branch updates, shown to the hook as that name with the old and the new hash. |
| `PktLine.ReceivePack` | internal/git/http.go:185-204 | A body reaches git, unchanged, if and only if every branch update in it is let pass; otherwise the reply carries the reason of a refusal. |
| `PktLine.WritePktError` | internal/git/http.go:282-297 | The reply is the pkt-lines "unpack ok" and "ng refs/heads/protected" with the message, and a flush. |
| `PktLine.ReplyReadsBackIff` | internal/git/http.go:282-297 | It reads back as those two lines if and only if the message has at most 65506 bytes. |
| `PktLine.WriteInfoRefs` | internal/git/http.go:136-141 | The service line, a flush and git's output. |
| `PktLine.InfoRefsReadsBack` | internal/git/http.go:102-141 | For both services the head reads back, whatever git advertises. |
| `DiffView.ParsePatch` | web/src/components/DiffViewer.tsx:521-565 | The loop over the patch's lines computes the parse the theorems are about. |
| `DiffView.HeaderReads` | web/src/components/DiffViewer.tsx:527-532 | A printed hunk header reads back as its two starting lines, with or without counts. |
| `DiffView.PatchIsNumbered` | web/src/components/DiffViewer.tsx:521-565 | Whatever lines stand before and after the hunks of a patch, every line of the hunks is shown in order, and the k-th lines shown of a hunk on the old and on the new side carry its starts plus k. |
| `DiffView.ShiftedByRemarks` | web/src/components/DiffViewer.tsx:556-562 | A line of a hunk is shown with its own number plus the number of "No newline at end of file" remarks above it in the hunk: with its own number if and only if there is none. |
| `DiffView.LineIsSkippedIff` | web/src/components/DiffViewer.tsx:526-563 | Exactly the lines that begin with "diff --git" or "index ", and the blank ones that do not begin with a space, are not shown and leave the numbers alone. |
| `DiffView.FileHeadersAreShown` | web/src/components/DiffViewer.tsx:534-555 | Of the four kinds of file header line two are skipped; those beginning with "---" or "+++" are always taken as changed lines. |
| `DiffView.GitHeadShows` | web/src/components/DiffViewer.tsx:526-555 | The header of a changed file as git writes it is shown as a deleted line 0 and an added line 0. |
| `DiffView.ParsePatchSideBySide` | web/src/components/DiffViewer.tsx:173-218 | The left column is exactly the hunk, context and deleted lines in order, the right one the hunk, context and added lines, and every row pairs as it should. |
| `DiffView.PairUp` | web/src/components/DiffViewer.tsx:206-214 | Deletions and additions side by side, down to the longer of the two. |
| `DiffView.CollectRun` | web/src/components/DiffViewer.tsx:191-203 | The longest run of lines of one kind from here on. |
| `DiffView.HighlightLine` | web/src/components/DiffViewer.tsx:52-165 | For every line, the tokens are those that stand there, one after the other, non-empty, and spell the line unchanged. |
| `DiffView.NextToken` | web/src/components/DiffViewer.tsx:62-161 | Which of the five kinds of token stands at a place, and where it ends: comments to the end, strings at their quote, numbers and words as long as they go, a keyword exactly if the word is in the list. |
| `DiffView.ScanString` | web/src/components/DiffViewer.tsx:81-94 | A string token ends after the first quote of its kind with an even number of backslashes before it, or with the line if there is none. |
| `Search.EscapesEachOnce` | internal/services/search/service.go:1012-1017 | Three replacements in sequence escape each special character exactly once. |
| `Search.ReplaceIsSubstitute` | internal/services/search/service.go:1013-1015 | Replacing a single character is a character-by-character substitution. |
| `Search.LikeWildcards` | internal/services/search/service.go:544-555 | The two wildcards, and that any other character stands for itself. |
| `Search.LikeEscaped` | internal/services/search/service.go:544-555 | An escaped text matches itself and nothing else under LIKE. |
| `Search.SearchIsLiteral` | internal/services/search/service.go:544-555 | The search condition holds if and only if the query occurs literally in the content, up to case. |
| `Search.SortByScore` | internal/services/search/service.go:1019-1025 | A sorting permutation by descending score, in place, that keeps results of equal score in order. |
| `Search.FuseResults` | internal/services/search/fusion.go:7-37 | Every id of either list once, with the exact sum of its reciprocal ranks, by k or by 60 if k is not positive, and an item of its own, sorted. |
| `Search.ScoreFts` | internal/services/search/fusion.go:12-18 | The maps after the full-text list. |
| `Search.ScoreSemantic` | internal/services/search/fusion.go:19-24 | The maps after both lists. |
| `Search.Merge` | internal/services/search/fusion.go:26-30 | One entry per id, in whatever order the map yields. |
| `Search.BothListsOutrankOne` | internal/services/search/fusion.go:15-24 | An item in both lists at ranks of at most k scores strictly more than any item in one list only. |
| `Search.TwiceAtRank` | internal/services/search/fusion.go:15-24 | The bound is tight: at rank k + 1 twice, the score ties with a single first place. |
| `Search.FusedPrefersBoth` | internal/services/search/fusion.go:32-36 | So it stands before them in the fused list. |
| `Webhooks.RunInv` | internal/services/webhook/service.go:614-763 | The invariant of deliveries, batches and slots in every run. |
| `Webhooks.DeliveriesAreBounded` | internal/services/webhook/service.go:614-763 | Attempts are between one and three, a retry is scheduled exactly while one is left after a failure, and a delivery is posted at most three times, more than one and then more than five minutes apart. |
| `Webhooks.AtMostTen` | internal/services/webhook/service.go:671-685 | At most ten retries are under way, and one that waits can start exactly when there are fewer. |
| `Webhooks.SettledForever` | internal/services/webhook/service.go:635-687 | A delivery that succeeded or failed for the last time never changes again, in any run. |
| `Webhooks.LastDelayIsUnused` | internal/services/webhook/service.go:743-751 | The delay index is in range by itself, and the last delay is never used. |
| `Webhooks.DeliverEffect` | internal/services/webhook/service.go:614-632 | A first delivery leaves one row with one attempt, scheduled again a minute after it failed. |
| `Webhooks.RetryEffect` | internal/services/webhook/service.go:730-762 | A retry adds one attempt and one post to its own row and nothing else, and schedules the next five minutes later exactly if it failed and was the second attempt. |
| `Webhooks.IsSuccess` | internal/services/webhook/service.go:598-606 | Exactly a response with a status of the 2xx class is a success. |
| `Webhooks.WebhookService.Deliver` | internal/services/webhook/service.go:614-632 | One row with one attempt and the outcome, to be tried again a minute later if it failed; a run of a first delivery. |
| `Webhooks.WebhookService.RetryDelivery` | internal/services/webhook/service.go:689-763 | The row gets one more attempt with its outcome and schedule, and no other changes; a run of one retry. |
| `Webhooks.BatchTriesEachOnce` | internal/services/webhook/service.go:635-687 | However the goroutines of a batch interleave, the retry of every due delivery of an active webhook ends exactly once, with one more attempt and post or given up without a post, and no other row changes. |
| `Webhooks.WebhookService.RetryPending` | internal/services/webhook/service.go:635-687 | One such interleaving, one retry after the other: every due delivery of an active webhook is tried exactly once, and no other row changes. |

## Left out

- HTTP plumbing, authentication, React rendering, configuration, OAuth, importers and the provider clients: no deep invariant.
- go-git, the git binary, Redis, Postgres, AES-GCM and the Go and JavaScript standard libraries are abstract: a SQL
  statement or a Redis command is one atomic step, and database writes succeed except where a crash or a lost
  transaction is a step of the model.
- Git.Commit: hashes are taken to be collision-free, so a commit is the value of its content and parents; the order of
  the log iterator is any order that lists the ancestors once, and merge bases are any list of the best common ancestors.
- Git.GitService.ResolveRef: does not take a 40-digit hash as a reference, because branches of pull requests are names.
- Git.RebaseReplaysRange: does not cover head histories with merges, because the replayed commits are then not
  base..head in general; `RebasePreOrder.PreOrderTakesRangeIff` says when they are.
- RebasePreOrder: the default order is that of the go-git library, whose source is not part of this model.
- WebSocketHub: connections are known by their place in a table rather than by pointer, so aliasing of the registry's
  slices is not modelled; a ping that succeeds is no step.
- Mirror: Remove, the git transfer itself and its output, sealing of access tokens; start times of a repository's runs are strictly increasing.
- Mirror.StatusFollowsNewestRun: does not speak of runs in which a single database write fails, because the code only logs those.
- Pulls: title, body and intent fields, the spelling of branch names, diff statistics, number allocation, the name of the
  merger in its message, filepath.Match (any predicate), pushes over SSH and branch protection's open failure paths;
  deleting a source branch is a step of its own.
- Pulls: `closed_at`, which Update does not clear on reopening, and imported pull requests, which bypass the lifecycle.
- AgentQueue: malformed queue entries, cancelled contexts and a worker that dies with a task.
- Cursor.DecodeCursor: does not accept the spellings time.Parse takes beyond RFC 3339 nor the other forms of uuid.Parse,
  because no cursor Gitwise makes has them.
- Paging: joins and the columns a listing only displays; a stored time is an instant with the four-digit-year time its
  scan yields, and ids are never nil.
- Sse: cancellation of a request in the browser and the final reset of the panel; UTF-8 decoding (texts are characters);
  JSON is any pair of functions that are inverse and put no line feed into their output.
- PktLine: what Sscanf makes of length prefixes other than four lower-case hex digits is left open; the hook's answer
  depends on the call alone.
- DiffView: the word and extension lists and lower-casing are parameters; the layout of a file header is git's diff format,
  whose writer (go-git) is not part of this model.
- Search: case folding is any character-wise function that keeps backslash, percent and underscore apart; scores are
  real numbers, without rounding.
- Webhooks.WebhookService.RetryPending: the method runs its retries one after another; concurrent batches are steps, in `Webhooks.BatchTriesEachOnce`.
- Webhooks: the process dying with a request under way, after which a post could be repeated; payload building and
  truncation.
- Organizations, teams, keys, imports and the other services: they would add only easy members.
