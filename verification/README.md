# BuildBee's core, modelled and proved

BuildBee is a Server that queues agent Runs, drives Tasks through an autopilot and streams committed events to
browsers; workers run the agents and share a git remote. This project models the parts whose promises hold only
because several functions cooperate, and proves those promises over every run, not over examples.

Each component comes as a specification of pure step functions, lemmas about every script of steps, and, where the
source updates things in place, classes and loops proved equal to the specification. A transaction of the Server is
one step, except claiming, which is split into its statements. Times are numbers on a clock that the steps pass in.

| files | what they model |
|---|---|
| `Models`, `TaskMachine`, `TaskBoard`, `TaskFollowUp`, `TaskChecks`, `TaskCalls` | one Task with its Runs, Decisions and CI checks: the transactions as functions and as methods on tables, what they leave in rows and fields case by case, what CI and approval mean, and what a caller may rely on after each |
| `TaskShape`, `TaskLaws`, `TaskMerge`, `TaskVouch`, `TaskQuiet`, `TaskShyWorker`, `TaskSilentReview` | the invariants, what may land, when the autopilot stops, and two runs that show why commits must be reported |
| `HubSteps`, `HubLaws`, `HubServer`, `HubArrival`, `Live`, `HubOrder`, `HubReconnect`, `HubGaps`, `TopicOrder` | live events: the hub's locked sections and the writer interleaved, the browser's cursor, dropped frames and reconnecting, per-topic publication order |
| `GitSteps`, `GitLaws`, `GitTheorems`, `GitWorkspace`, `GitDisagree`, `Branches`, `BranchClash` | workers on one git remote, which branch each Bot's Run starts from, and when Bots stay apart |
| `Landing` | the Task machine and git together: what a claimed merge Run adds to the default branch |
| `ClaimSteps`, `ClaimLaws`, `ClaimTheorems`, `ClaimQueue`, `Wakeup` | concurrent claims under max_runs, and the signal that wakes waiting agents |
| `JsonRpc`, `JsonRpcPeer`, `Sink`, `Steering` | the agent connection: requests and replies, ordered delivery, people's messages |
| `Sanitize`, `Routines`, `Pages`, `RunFollow` | NUL escapes in JSON, scheduled Routines, cursor pages, following a Run |
| `Lists` | counting, searching and ordered insertion |

## What turned out to need a condition

Where a promise does not hold as its comment states it, the code was kept as it is, the failing input is a lemma, and
the promise is proved under its exact condition.

- The hub's header says a subscriber sees every event with no gap. An event that was committed when the page was read is
  lost for a subscription exactly when it fell off the page and had passed by before, or a step dropped its frame: a full
  send queue, or too much held back already (`HubLaws.GapExactlyWhen`; later events: `HubLaws.SentExactlyOncePromised`).
  It also says that a client that falls behind reconnects with a cursor. That brings a dropped event back unless a frame of
  its topic with a higher cursor got out before the connection ended, or the browser had no cursor yet
  (`HubReconnect.DroppedForGoodExactlyWhen`). `HubGaps` has runs from the start for each: a backlog that does not fit, a
  queue that overflows, the reconnect that does not help, and two transactions that publish in the other order, where the
  browser's own condition, cursor order (`Live.NothingMissedIffInOrder`), fails.
- What is queued to land is not always what somebody approved: a merge question that names no commit lets an answer merge
  a later push (`TaskShyWorker.UnreportedCommitLandsUnapproved`), and a review that names none lands one without any
  question (`TaskSilentReview.SilentReviewLandsUnapproved`). `TaskVouch.AllVouchedExactlyWhen` is the exact condition over
  every run. Workers that report the commit of every branch they built and of everything they reviewed, and that review
  only Tasks with a branch, always meet it (`TaskVouch.WhatLandsWasApproved`); plans and merges need report nothing.
- Workers that take different branches for the default branch can delete the last branch holding a commit
  (`GitDisagree.DisagreementLosesWork`); the exact condition is `GitTheorems.NothingIsLostExactlyWhen`.
- Several Bots on one Task never write to one another's work only as far as workers report their own branches: the Server
  records any branch a report names (`BranchClash.ReportTakesAnothersBranch`). `Branches.BotsStayApartExactlyWhen` is the
  exact condition on accepted reports.
- A finished Run frees a slot without waking anybody (`Wakeup.FreedSlotWakesNobody`): waiting agents are woken for new
  Runs only, and otherwise find the Run when their long poll ends. `Wakeup.NoWakeupLeftExactlyWhen` says for which Runs
  nothing is left to come.
- A Routine can get two unfinished Tasks, through an edit that overlaps a firing or through two firings by hand at one
  instant (`Routines.LateEditForgetsTheTask`, `Routines.OneInstantFoolsTheCompare`); `Routines.OneUnfinishedExactlyWhen`
  is the exact condition.

## Model

| member | source | states |
|---|---|---|
| `TaskLaws.OneMerge` | internal/core/autopilot.go:151-181 | Over every script of transactions on a new Task, reopening included: two merge Runs that are unfinished or succeeded are the same Run, and the Task is merged exactly when that Run succeeded |
| `TaskLaws.OneMergeQuestion` | internal/core/autopilot.go:149-164 | Over every script, at most one unanswered merge Decision |
| `TaskLaws.PermissionIsAwaited` | internal/core/decisions.go:214-257 | Over every script, an unanswered permission Decision names a Run that is running on a worker with a lease: report, reaping and removing a Bot all close a Run's questions |
| `TaskLaws.BuildsAreBounded` | internal/core/autopilot.go:121-147 | Over every script, succeeded plus unfinished builds never exceed the three rounds plus the builds that people or plans asked for |
| `TaskLaws.LifecycleHolds` | internal/store/runs.go:194-246 | Over every script, a Run's columns agree: pending has no worker and no lease, running has both, finished exactly when finished_at is set, ids unique, listed newest first |
| `TaskLaws.RowsForLife` | internal/core/runs.go:231-283 | Between any two moments of a run: a finished Run is never changed again, a claimed Run keeps its worker and is claimed once, an answer is given once, a merged Task stays merged |
| `TaskLaws.StepKeeps` | internal/core/runs.go:236-334 | The whole invariant behind these results survives every one of the Task's transactions |
| `TaskShape.StepShaped` | internal/core/autopilot.go:26-104 | Every transaction only lets rows move along their lifecycle and adds at most one Run and one Decision, each justified by the state it was added in |
| `TaskMerge.EveryMergeHadAReason` | internal/core/autopilot.go:166-213 | For each merge Run ever queued there is the transaction that queued it, and right then the newest succeeded review approved the latest work with CI neither failed nor pending, or a person had answered merge |
| `TaskVouch.AllVouchedExactlyWhen` | internal/core/autopilot.go:215-223 | Over every run of the machine and both routes: every merge Run was queued for a commit somebody spoke for if and only if, whenever one was queued, the Task's head and the approving review (or the question) both named a commit |
| `TaskVouch.MergeVouchedExactlyWhen` | internal/core/autopilot.go:166-223 | The same for one merge Run: it was queued by an answer or by a clean review, it carries the head of that moment, and it was vouched for exactly when both sides named a commit |
| `TaskVouch.VouchedExactlyWhen` | internal/core/autopilot.go:321-350 | The same for one transaction in any state the machine can be in |
| `TaskVouch.WhatLandsWasApproved` | internal/core/autopilot.go:168-213 | With workers that report their commits, every merge Run carries a commit, and when it was queued the newest succeeded review approved that very commit with CI passed, or a person had just answered merge about that very commit |
| `TaskVouch.StaysOnRecord` | internal/store/tasks.go:226-237 | Whoever spoke for a merge, a review or an answered question, is still there at any later time |
| `TaskSilentReview.SilentReviewLandsUnapproved` | internal/core/autopilot.go:218-223 | A concrete run, without any question, in which a review that names no commit lands a second push that nobody approved |
| `TaskShyWorker.UnreportedCommitLandsUnapproved` | internal/core/autopilot.go:333-339 | A concrete run in which a worker that reports no commit makes an answered question queue a merge of a later commit nobody approved |
| `TaskQuiet.AutopilotStops` | internal/core/autopilot.go:78-147 | From one queued plan, with people and CI silent and workers claiming, renewing, asking permission, reporting and dying as they like, at most 2 * MAX_ROUNDS + 2 Runs ever exist and only a bounded number of status changes happens |
| `TaskQuiet.QuietStep` | internal/core/autopilot.go:121-147 | Every transaction without people or CI keeps one Run at a time and, when it changes a status, lowers a measure |
| `TaskBoard.Board.MemberByRole` | internal/models/models.go:260-269 | The loop finds the earliest current Member with the role, if any |
| `TaskFollowUp.HolderIsFirst` | internal/models/models.go:260-269 | A role is held by the first listed Member with it who has not left, and by nobody exactly when there is none |
| `TaskBoard.Board.LatestByName` | internal/core/autopilot.go:236-249 | The map holds, for exactly the names with a result about the latest push, the newest such result; a result that names another commit than the head is never in it |
| `TaskBoard.Board.SumUpChecks` | internal/core/autopilot.go:225-264 | The loops compute failure, pending or success as the specification over the newest relevant results says, whatever the map's order |
| `TaskChecks.CiExactlyWhen` | internal/core/autopilot.go:225-264 | In the checks' own columns: without CI a Task passes; otherwise it passes exactly when something is reported about the latest push and the newest result of every name is a success, fails exactly when one of those failed, and waits exactly in the other cases |
| `TaskChecks.OtherPushIgnored` | internal/core/autopilot.go:238-242 | Dropping a result that names another commit than the head changes nothing, as long as some result is left |
| `TaskChecks.ApprovedExactlyWhen` | internal/core/autopilot.go:215-223 | The latest work is approved exactly when the newest succeeded review approves and names the head, or, when either names no commit, no build that succeeded was created after it |
| `TaskFollowUp.NewestResultFirst` | internal/core/runs.go:613-650 | A result recorded later than all others is listed first and changes none of them |
| `TaskCalls.QueuedRunWaits` | internal/core/runs.go:173-213 | A queued Run can be claimed by its Bot's agents only (by any agent without a Bot), and what else can be claimed does not change |
| `TaskBoard.Board.Hand` | internal/core/tasks.go:329-370 | Assigns and reopens the Task and starts a Run exactly for Bots that work on Tasks with something to do |
| `TaskFollowUp.HandedByPeople` | internal/core/tasks.go:329-370 | After a handoff the Task is in progress and the receiver's; a Scout Bot gets a plan, a Builder Bot a build, a Sentry Bot a review if there is a branch, when the person or the Project says so, and nobody else starts a Run |
| `TaskBoard.Board.Pass` | internal/core/autopilot.go:106-119 | Hands on only when both roles are there |
| `TaskBoard.Board.AskToMerge` | internal/core/autopilot.go:149-164 | Opens a question about the head commit unless one is waiting |
| `TaskBoard.Board.SendItBack` | internal/core/autopilot.go:121-147 | The counting loop sends back, asks people after three rounds, or rests while a build is under way |
| `TaskBoard.Board.LastWork` | internal/core/autopilot.go:172-191 | One pass finds whether a merge is under way and, if not, the newest succeeded build and review |
| `TaskBoard.Board.MergeIfApproved` | internal/core/autopilot.go:166-213 | Ends in the state the specification's choice between resting, sending back, asking and merging gives |
| `TaskCalls.MergeUnderWayBlocks` | internal/core/autopilot.go:178-181 | While a merge Run is unfinished no transaction of any kind queues another |
| `TaskBoard.Board.AdvanceAfter` | internal/core/autopilot.go:25-104 | What a finished Run does to its Task, its Runs and its questions |
| `TaskFollowUp.ChangesGoBack` | internal/core/autopilot.go:95-147 | A review that asks for changes: nothing while a build is under way; with fewer than three succeeded builds the Task is in progress and the Builder's, with exactly one new Run, a pending build for it; with three, one question about merging the head is open |
| `TaskFollowUp.ApprovalTriesToMerge` | internal/core/autopilot.go:93-94 | A review that approves: nothing when the Task is merged, has no branch, a merge is under way or the latest work is not approved; back to the Builder when CI failed; nothing while CI is pending; then a question, or exactly one merge Run of the head, as the policy says |
| `TaskFollowUp.NoVerdictRests` | internal/core/autopilot.go:97-101 | A review without a verdict starts nothing and asks nobody |
| `TaskFollowUp.PlanLeadsToBuild` | internal/core/autopilot.go:82-83 | A plan that succeeded gives the Task to the Builder with exactly one new Run, a pending build, when there are a Scout and a Builder |
| `TaskFollowUp.BuildLeadsToReview` | internal/core/autopilot.go:66-90 | A build that succeeded writes its branch and commit to the Task, unless it pushed to the default branch, and gives the Task to the Sentry with exactly one pending review; without any branch nothing follows |
| `TaskFollowUp.MergeCloses` | internal/core/autopilot.go:54-65 | A merge that succeeded closes the Task, sets its merge time and starts nothing |
| `TaskFollowUp.OtherwiseNothing` | internal/core/autopilot.go:36-80 | Nothing follows a Run that failed or was canceled, a closed Task, or a Project that does not run by itself |
| `TaskFollowUp.RecordedCheckFollowed` | internal/core/autopilot.go:300-319 | A recorded failure sends the Task back or asks people, a success tries the merge, a pending result or a Task the autopilot does not work on changes nothing |
| `TaskFollowUp.UpdatedCheckFollowed` | internal/core/runs.go:652-679 | The same when an existing result changes |
| `TaskCalls.CheckLandsExactlyWhen` | internal/core/autopilot.go:302-319 | A CI result queues a merge if and only if it is a success, the autopilot is on and the Task open, nothing was or is being merged, the newest review approves the latest work, CI passed, and the policy asks nobody |
| `TaskCalls.RunLandsExactlyWhen` | internal/core/autopilot.go:81-103 | A finished Run queues a merge if and only if it is an approving review under the same conditions |
| `TaskBoard.Board.ActOn` | internal/core/autopilot.go:321-350 | What an answered merge question does |
| `TaskCalls.PermissionEndsWithItsRun` | internal/core/decisions.go:243-257 | A permission question asked by an agent is answered when that agent reports its Run finished |
| `TaskBoard.Board.ReportRun` | internal/core/runs.go:231-334 | Every refusal and every effect of a report: status, outcome fields, closing of questions, then the autopilot |
| `TaskFollowUp.ReportAcceptedExactlyWhen` | internal/core/runs.go:231-283 | A report is accepted exactly from the worker that has the Run, or as a person's bare cancellation, while the Run is pending or running; a pending Run cannot succeed and a running one cannot go back |
| `TaskFollowUp.ReportWritesRow` | internal/core/runs.go:273-305 | The row it leaves has the reported status, what the report names and otherwise what was there, with end and lease set as the status says; no other row changes |
| `TaskCalls.ClaimedByOne` | internal/store/runs.go:185-211 | After a claim nobody can claim the Run again, no other agent can renew, report or ask for it, and its own agent can |
| `TaskCalls.ClaimedForGood` | internal/core/queue.go:229-240 | Over every script, a Run some agent has had is refused to every claim, and to every other agent's renewal, report and question, at any later moment |
| `TaskCalls.ClaimIsLeased` | internal/store/runs.go:194-266 | A claim changes its Run only, which then survives exactly the reapings up to its lease |
| `TaskCalls.HeartbeatKeepsAlive` | internal/store/runs.go:229-266 | A renewed Run survives exactly the reapings up to its new lease; renewing a finished Run changes nothing |
| `TaskBoard.Board.ReapRuns` | internal/core/queue.go:189-227 | Fails the expired Runs picked, closes their questions, and changes nothing else |
| `TaskBoard.Board.Remove` | internal/core/projects.go:370-406 | Marks the Member gone and cancels a Bot's queued and running Runs together with their questions |
| `TaskCalls.RemovedMemberStops` | internal/core/projects.go:370-406 | The Member is marked gone; when it is a Bot exactly its queued and running Runs are canceled and exactly their open questions answered, and a person's leaving stops nothing |
| `TaskBoard.Board.Transact` | internal/core/core.go:144-164 | Any operation run as one transaction on a board that keeps all the laws leaves one that does, with every finished Run, every answer and the merge time kept; a refused one leaves no trace |
| `TaskFollowUp.ArchivedStandsStill` | internal/core/core.go:265-290 | In an archived Project nobody claims a Run, hands over, requests a Run, answers, removes a Member or changes the Task's status |
| `TaskFollowUp.WhoChangesWhat` | internal/core/core.go:144-164 | Settings change only by an edit of them, Members only by joining and removing, CI results only by CI; and setting a status, joining, editing settings, claiming and renewing touch nothing they are not about |
| `TaskCalls.PermissionIsAnsweredOnce` | internal/core/decisions.go:184-236 | A permission question is answered exactly once, and the answer moves neither the Task nor its Runs |
| `TaskCalls.AnsweredForGood` | internal/store/tasks.go:226-237 | Over every script, a question that was answered refuses any other answer at any later moment |
| `TaskCalls.AnswerLandsExactlyWhen` | internal/core/autopilot.go:321-350 | An answer queues a merge if and only if it says merge about an open, unmerged Task with a branch and no merge under way, and the question names no commit or the head; reviews and CI play no part |
| `TaskCalls.MergeInAnyCase` | internal/core/autopilot.go:322-325 | The answer counts as "merge" in any case of its letters and for nothing else |
| `TaskCalls.FailingCheckBlocks` | internal/core/runs.go:613-650 | Recording a failed or pending result about the head, newer than its namesakes, leaves CI not passed and queues no merge |
| `TaskCalls.WorseningCheckBlocks` | internal/core/runs.go:652-679 | The same when an existing check about the head changes to such a status |
| `TaskCalls.NewestCheckDecides` | internal/core/autopilot.go:225-264 | The newest relevant check of its name decides: a failure fails CI, a pending one keeps it from passing |
| `TaskCalls.RequestedRunWaits` | internal/core/runs.go:67-113 | A requested Run is never a merge, waits for the Bot asked for or else the assigned Bot, and is the only change |
| `TaskCalls.NoMergeAfterMerged` | internal/core/autopilot.go:168-171 | Over every script, once a Task is merged no merge Run is ever queued again, whether people reopen it, CI passes or answers come |
| `HubLaws.AlwaysOk` | internal/ws/hub.go:212-265 | Every interleaving of commits, snapshots, deliveries, the writer and the subscribing goroutine, frames dropped or not, keeps held-back, left and sent frames free of duplicates and of events not committed |
| `HubLaws.AlwaysFollows` | internal/ws/hub.go:212-279 | Over every interleaving a connection is registered only for topics it subscribes to and is not leaving, at most 256 |
| `HubLaws.PageHolds` | internal/core/routines.go:363-414 | A replay page holds everything after the cursor when that fits; else as many events as fit, the newest for a feed read from 0 and the oldest otherwise, in order |
| `HubLaws.GivesUpExactlyWhen` | internal/ws/hub.go:337-363 | The connection is given up exactly when a frame finds no room, with 8192 queued or 4096 held back, and every dropped frame found none |
| `HubLaws.PromiseKept` | internal/ws/hub.go:330-363 | For each step: a committed event that is held back, on its way, on the page, left of a release or sent stays so if and only if the step does not drop its frame |
| `HubLaws.SentExactlyOncePromised` | internal/ws/hub.go:248-265 | Once no longer on its way, an event was sent to a released subscription exactly once if it was promised when the page was read or committed since, and no step dropped it; otherwise never, replay and live counted together |
| `HubLaws.EveryEventExactlyOnce` | internal/ws/hub.go:210-265 | If the backlog fits one page, each event after the cursor was sent exactly once unless a step dropped it, and then never, for every interleaving |
| `HubLaws.GapExactlyWhen` | internal/ws/hub.go:236-263 | In general an event is lost for a subscription if and only if it fell off the page and was neither held back nor on its way when the page was read, or a later step dropped it |
| `HubLaws.LiveOnlyExactlyOnce` | internal/ws/hub.go:225-264 | A subscription without a cursor is sent every event that was not committed or still on its way when it was registered exactly once, unless a step since then dropped it |
| `HubGaps.EventFallsOffThePage` | internal/core/routines.go:391-398 | A run from the start, without overflow, in which a subscriber from cursor 0 never sees event 1 because one event more than a page came before it |
| `HubGaps.OverflowLosesTheEarlier` | internal/ws/hub.go:351-363 | A run from the start in which a client that reads too slowly receives a later event and never the earlier one |
| `HubGaps.OverflowLosesForGood` | internal/ws/hub.go:3-8 | The same run continued: the browser comes back with its cursor and the dropped event is not replayed |
| `HubGaps.LateEventIsDropped` | internal/core/core.go:153-155 | A run from the start in which two transactions publish in the other order, the hub sends both events once, and the browser drops the lower one |
| `HubServer.Client.Begin` | internal/ws/hub.go:212-227 | Registers an unready subscription, at most 256, once per topic |
| `HubServer.Client.SendPage` | internal/ws/hub.go:250-257 | The loop queues the page in order and remembers its cursors, whatever the writer sends between two frames |
| `HubServer.Client.SendHeld` | internal/ws/hub.go:258-262 | The loop queues what was held back minus what the page had, whatever the writer sends between two frames |
| `HubServer.Client.ReleaseHeld` | internal/ws/hub.go:248-264 | Both loops and the switch to ready, with the writer at work beside them, compute the specified release |
| `HubServer.ReleaseRuns` | internal/ws/hub.go:248-264 | That release, for any writer, is a run of the interleaved system made of release and write steps |
| `HubServer.Hub.Register` | internal/ws/hub.go:229-234 | Adds this connection to the topic and to no other |
| `HubServer.Hub.Unregister` | internal/ws/hub.go:267-279 | Takes the connection out, and the topic with its last connection |
| `HubServer.Hub.Targets` | internal/ws/hub.go:69-75 | The snapshot is exactly the topic's subscribers |
| `HubServer.Hub.DeliverTo` | internal/ws/hub.go:84-86 | Each target gets one delivery step and no other connection changes |
| `Live.LiveTopic.OnMessage` | web/src/live.ts:56-70 | Handles a frame exactly when it is not at or below the high-water mark, and moves the mark |
| `Live.Reconnect` | web/src/live.ts:51-55 | Resuming from the cursor last seen handles what one unbroken stream would have |
| `Live.NothingTwice` | web/src/live.ts:65-69 | For any frames at all, the cursors handled rise strictly |
| `Live.NothingMissedIffInOrder` | web/src/live.ts:65-68 | A stream of distinct cursors is handled completely if and only if it arrives in cursor order |
| `Live.AllHandled` | web/src/live.ts:65-69 | Frames in order are all handled |
| `HubOrder.AlwaysSorted` | internal/core/core.go:153-155 | When each topic is committed and published in cursor order, every interleaving sends it in cursor order, frames dropped or not |
| `HubOrder.BrowserSeesEverything` | internal/ws/hub.go:1-8 | End to end: under orderly publication a browser that subscribed from a cursor hands on every later event that no step dropped, once and in order, when the queue is written out |
| `HubArrival.ArrivesOnlyByWrite` | internal/ws/hub.go:374-394 | A subscription's frames arrive at the browser one by one in the order they were sent, by the writer only |
| `HubReconnect.ArrivesLaterExactlyWhen` | web/src/live.ts:51-69 | Once a browser has a cursor, an event that had not arrived when the connection ended reaches its handlers after the reconnect if and only if nothing with a higher cursor had arrived |
| `HubReconnect.LiveOnlyNeverComesBack` | web/src/live.ts:51-69 | A browser that subscribed to live events only and got none never gets an event that had passed by |
| `HubReconnect.DroppedForGoodExactlyWhen` | internal/ws/hub.go:3-8 | A dropped event is lost for good, reconnect included, if and only if a frame of its topic with a higher cursor arrived before the connection ended, or the browser had no cursor to come back with |
| `HubReconnect.NothingHigherBeforeTheDrop` | internal/ws/hub.go:351-363 | Under orderly publication nothing with a higher cursor was sent before the drop, so such a frame was sent between the drop and the close |
| `TopicOrder.InTopicOrder` | internal/core/core.go:166-186 | For any mix of topics and any map order, each topic's slots hold that topic's events stably sorted by cursor |
| `TopicOrder.SlotsByTopic` | internal/core/core.go:170-173 | The map lists every topic's positions |
| `TopicOrder.SortKeepsElements` | internal/core/core.go:180 | Sorting loses and adds nothing |
| `TopicOrder.SortOrders` | internal/core/core.go:180 | The sort orders by cursor |
| `TopicOrder.SortIsStable` | internal/core/core.go:180 | Events with one cursor keep their order |
| `TopicOrder.SameEvents` | internal/core/core.go:166-186 | Such an output is a permutation of the input |
| `TopicOrder.TopicsRise` | internal/core/core.go:166-186 | In such an output two events of one topic stand in cursor order |
| `GitTheorems.NothingIsLostExactlyWhen` | internal/agent/workspace.go:204-244 | Over every interleaving of workers and other people, every commit that was ever a remote tip stays reachable at every moment if and only if no merge whose branch stood exactly at its base deletes the last branch holding that commit |
| `GitTheorems.NothingIsLost` | internal/agent/workspace.go:220-244 | With one agreed default branch nothing published is ever lost, and whatever was landed stays in the default branch |
| `GitTheorems.BuildPushes` | internal/agent/workspace.go:204-218 | A build's push does nothing, or moves its own branch from where it started, never the default branch, and keeps the branch's history |
| `GitTheorems.LandsWhatWasApproved` | internal/agent/workspace.go:223-241 | After a landing the default branch holds its base, the approved commit and at most one merge commit, and nothing else |
| `GitTheorems.LandPushes` | internal/agent/workspace.go:239-241 | A landing either changes nothing on the remote or moves the default branch forward |
| `Landing.OnlyVouchedWorkLands` | internal/agent/agent.go:437-462 | What the worker of a claimed merge Run adds to the default branch is the history of one commit and the merge commit; that commit was the tip of the Task's own branch and had been spoken for when the merge was queued |
| `GitTheorems.DeleteLosesExactlyWhen` | internal/agent/workspace.go:242 | One deletion loses something exactly when the merged head is the deleted tip and no other branch holds it |
| `GitDisagree.DisagreementLosesWork` | internal/agent/workspace.go:131-147 | A concrete run in which two workers with different default branches delete both branches holding a published commit, with an older main branch left |
| `GitLaws.StepKeeps` | internal/agent/workspace.go:114-244 | Every git command keeps the invariant on commits, mirrors and checkouts |
| `GitWorkspace.Workspace.FetchAndAdd` | internal/agent/workspace.go:113-164 | Refreshes the mirror and records base, start and default branch, or reports a missing branch |
| `GitWorkspace.Workspace.Commit` | internal/agent/workspace.go:166-186 | Says "ahead" exactly when files changed; then the history grew by exactly one commit whose only parent is the old head, and otherwise nothing changed |
| `GitWorkspace.Workspace.Push` | internal/agent/workspace.go:204-218 | Publishes the head exactly when the target is not the default branch and stands at the base (its own branch) or does not exist (a new one); else the remote is unchanged |
| `GitWorkspace.Workspace.MergeLocally` | internal/agent/workspace.go:223-238 | Refuses exactly the default branch, a branch that is gone, one that moved since it was approved, and a conflict; otherwise makes one merge commit of head and tip, or none when the tip is already in |
| `GitWorkspace.Workspace.PushMerge` | internal/agent/workspace.go:239-241 | Publishes exactly a fast-forward |
| `GitWorkspace.Workspace.Merge` | internal/agent/workspace.go:220-244 | Undisturbed, the approved commit lands and its branch goes, or the remote is unchanged |
| `Branches.BranchesFor` | internal/core/runs.go:123-168 | The loops find the Bot's own newest branch, the review's fallback, and every other Bot's newest branch |
| `Branches.WorksOn` | internal/core/runs.go:143-166 | A Bot carries on the branch it pushed last, merges aside; one that pushed nothing starts afresh, but a review works on the newest build's branch, else the Task's |
| `Branches.OthersAreTheNewest` | internal/core/runs.go:143-154 | The others listed are exactly the other Bots' newest branches |
| `Branches.BotsNeverShareABranch` | internal/core/runs.go:115-119 | Over every run of the Task machine in which accepted reports name a branch only for builds, the one given at the claim: two Runs on one branch belong to one Bot |
| `Branches.BotsStayApartExactlyWhen` | internal/core/runs.go:115-119 | Over every run, whatever workers report: no two Bots ever have Runs on one branch if and only if no accepted report names a branch that another Bot's Run carries at that moment |
| `BranchClash.ReportTakesAnothersBranch` | internal/core/runs.go:284-286 | A concrete run in which a second Bot's report names the first Bot's branch and is recorded |
| `Branches.TargetIsMade` | internal/agent/agent.go:405-410 | What a claimed build is told to push to was made by a Run of its own Bot, if only by itself |
| `Branches.StepBranch` | internal/core/runs.go:284-286 | No transaction changes a Run's branch but its own report |
| `ClaimTheorems.OneAgentPerRun` | internal/core/queue.go:102-121 | However concurrent claims interleave, no Run is given twice, and it shows the agent it was given to |
| `ClaimTheorems.ClaimedForLife` | internal/core/queue.go:102-121 | A committed claim is never undone |
| `ClaimTheorems.WithinLimit` | internal/core/queue.go:113-121 | A Project with a fixed positive max_runs never has more running Runs than that |
| `ClaimTheorems.CommitsWithinLimit` | internal/store/runs.go:213-222 | Each claim commits only within the limit in force at that moment |
| `ClaimTheorems.LoadGrowsOnlyByClaim` | internal/store/runs.go:194-222 | Nothing but a committed claim raises a Project's load |
| `ClaimTheorems.TakesTheFirst` | internal/store/runs.go:199-208 | A claim takes the first row in line, and nothing exactly when there is nothing to take |
| `ClaimTheorems.TakesItsOwnWork` | internal/store/runs.go:196-208 | In row columns, however claims interleave: a row taken was pending, for this Bot or for none, in a known Project that is not archived and below its limit, and in nobody else's hands; no other such row has a Project with fewer Runs going, or an equal load and an earlier creation; nothing is taken exactly when there is none |
| `ClaimTheorems.LoadIsNumber` | internal/store/runs.go:198 | A Project's load is the number of its rows that are running |
| `ClaimTheorems.LetsGo` | internal/core/queue.go:102-121 | A claim that is over holds nothing: its row is free for others unless it was given away |
| `ClaimTheorems.QueuedRowWaits` | internal/store/runs.go:199-205 | A queued Run of a Project with room waits for its Bot's agents only, or for any agent when it has no Bot, and changes no other row |
| `ClaimTheorems.SettingsInForce` | internal/store/runs.go:213-222 | An edit of a Project's settings takes force exactly when no claim that recounted holds the Project |
| `ClaimTheorems.RolledBackOnlyWhenRaced` | internal/core/queue.go:113-121 | A claim is rolled back over the limit only when another Run started or the limit changed since it looked |
| `ClaimQueue.CountRunning` | internal/store/runs.go:220 | The counting loop is the load of the specification |
| `ClaimQueue.Queue.Pick` | internal/store/runs.go:196-208 | The loop finds the first row in line |
| `ClaimQueue.Queue.RecountAndCommit` | internal/core/queue.go:113-121 | Commits exactly within the limit; over it, leaves no trace |
| `ClaimQueue.Queue.ClaimOnce` | internal/core/queue.go:102-168 | Undisturbed, takes the row served first of those waiting for this Bot or for any, nothing exactly when there is none, and leaves the Project within its limit |
| `ClaimQueue.AloneNeverRollsBack` | internal/core/queue.go:102-121 | The statements of one claim, run with nothing between them, never roll back |
| `Wakeup.Signal.Notify` | internal/core/queue.go:35-40 | Closes exactly the current channel and opens the next |
| `Wakeup.Signal.Wait` | internal/core/queue.go:29-33 | Hands out a channel that is still open |
| `Wakeup.TakesTheOpenChannel` | internal/core/queue.go:27-40 | Waiting hands out the channel open now; a sleeper wakes exactly when its channel was closed, and then takes the open one |
| `Wakeup.NoLostWakeup` | internal/core/queue.go:72-96 | An agent asleep on an open channel while it could take a Run has that Run's notify still to come, unless its last attempt saw the Run blocked or went over the limit itself |
| `Wakeup.NoWakeupLeftExactlyWhen` | internal/core/queue.go:27-40 | For an agent asleep on an open channel, a Run has no notify to come if and only if its notify had been sent before the agent took the channel; if it could take the Run now, its own attempt found it blocked or went over the limit |
| `Wakeup.QueuedAfterIsOwed` | internal/core/core.go:144-158 | For every Run queued after a sleeper's attempt, its channel is closed or the notify is still to come |
| `Wakeup.FreedSlotWakesNobody` | internal/core/core.go:156-161 | A concrete run in which a finished Run frees a slot, a waiting Run could be taken, and nothing will wake the sleeper |
| `JsonRpc.IdsDiffer` | internal/agent/acp/rpc.go:198-201 | Different requests carry different ids on the wire |
| `JsonRpc.AtMostOneResult` | internal/agent/acp/rpc.go:158-172 | No request gets more than one result, whatever the peer sends |
| `JsonRpc.SendsNeverBlock` | internal/agent/acp/rpc.go:106-113 | Whenever the read loop sends on a one-place channel, it is empty |
| `JsonRpc.ExactlyOneResult` | internal/agent/acp/rpc.go:85-115 | Once the read loop is done every channel handed out has received exactly the first reply with its id read after it was registered, or the end of the connection when there was none |
| `JsonRpc.ResultIsTheFirstReply` | internal/agent/acp/rpc.go:158-172 | While the connection lives, a result is the first reply with the request's id, never another's |
| `JsonRpcPeer.Peer.Start` | internal/agent/acp/rpc.go:187-202 | Registers under a new id, or is refused once closed |
| `JsonRpcPeer.Peer.Written` | internal/agent/acp/rpc.go:203-209 | A failed write forgets the request |
| `JsonRpcPeer.Peer.Reply` | internal/agent/acp/rpc.go:158-172 | Goes to the request with that id; with none, no request changes |
| `JsonRpcPeer.Peer.EndReadLoop` | internal/agent/acp/rpc.go:106-114 | Every request still waiting gets the error once, and no other request changes |
| `Sink.OutputMeansInput` | internal/agent/acp/sink.go:64-100 | For every timer schedule output and input have one normal form and the same characters in the same order between other events |
| `Sink.NothingLostSoFar` | internal/agent/acp/sink.go:64-100 | At every moment what was sent plus what is held back reads like what arrived |
| `Sink.NormKeepsFlat` | internal/agent/acp/sink.go:11-13 | The normal form keeps every character and every other event in place |
| `Sink.NormHasNoNeighbours` | internal/agent/acp/sink.go:11-13 | The normal form leaves no two neighbouring pieces unjoined |
| `Sink.PiecesAreJoined` | internal/agent/acp/sink.go:79-97 | Streamed text that arrives is held back and joined to what is held of its kind; anything else goes out at once, after what was held |
| `Sink.NeighboursBecomeOne` | internal/agent/acp/sink.go:79-97 | Pieces of one kind in a row, without the timer between, are one event; it goes out with the piece that makes it 8192 long |
| `Sink.TimerSendsWhatIsHeld` | internal/agent/acp/sink.go:98-100 | When the timer fires nothing stays held back, and what was sent reads like what arrived |
| `Sink.Deliverer.Send` | internal/agent/acp/sink.go:107-117 | After the handler failed later events are dropped, and the error is reported once |
| `Sink.Deliverer.Run` | internal/agent/acp/sink.go:64-117 | The handler is called with a prefix of the output that ends at its first refusal, and with all of it when there is none |
| `Steering.MessagesAreConserved` | internal/agent/acp/acp.go:365-413 | Messages taken are those sent as turns followed by those pending, in order; success means none is pending |
| `Steering.OneCancelPerTurn` | internal/agent/acp/acp.go:381-398 | A turn is canceled once if somebody interrupts it and once if the Run itself ends during it, and never otherwise |
| `Steering.CancelledTurn` | internal/agent/acp/acp.go:400-411 | A canceled turn ends the loop if and only if nobody interrupted it |
| `Steering.SucceedsExactlyWhen` | internal/agent/acp/acp.go:400-413 | Over every schedule the Run succeeds if and only if the loop ended on a turn that was over for the agent with every message taken by then sent; a refusal, a limit, a cancel nobody asked for or a failed reply never succeeds |
| `Steering.NextOutcome` | internal/agent/acp/acp.go:369-413 | How each wake-up ends or continues the loop: any other stop reason ends it with that reason, what is unsent after a turn that ended well is the next turn, a failed reply or write is an error |
| `Steering.EverythingSaidIsTaken` | internal/agent/acp/acp.go:370-384 | While it runs the loop has taken exactly what people said, in order, up to the end of messages |
| `Steering.Session.Converse` | internal/agent/acp/acp.go:361-413 | The loop computes the conversation of the specification, turn by turn |
| `Sanitize.SanitizeJson` | internal/httpapi/sanitize.go:17-35 | Keeps the length of any text; of well-escaped text it keeps every token but the escape of U+0000 |
| `Sanitize.RewrittenMeans` | internal/httpapi/sanitize.go:8-11 | Decoding gives the original code units with U+0000 replaced by U+2400, and no U+0000 is left |
| `Sanitize.ParityIsTokenStart` | internal/httpapi/sanitize.go:37-43 | An even number of backslashes before a backslash means, in well-escaped text, exactly that an escape starts there (section 7 of RFC 8259) |
| `Sanitize.RewritesToken` | internal/httpapi/sanitize.go:25-33 | The byte loop rewrites exactly the token it stands on |
| `Sanitize.EvenBackslashesBefore` | internal/httpapi/sanitize.go:37-43 | The backwards loop decides the parity |
| `Sanitize.OneSpelling` | internal/httpapi/sanitize.go:8-15 | Only one spelling of an escape stands for U+0000 |
| `Sanitize.TruncateUtf8` | internal/httpapi/sanitize.go:45-55 | Gives the longest prefix that ends where a character begins; whole characters stay whole |
| `Routines.NeverTooSoon` | internal/core/routines.go:275-292 | With any number of Servers on one clock, each listing the rows before it looks at the clock, each firing follows the last one, and a scheduled one is of a row read as enabled, never sooner than the interval it read |
| `Routines.TickFiresExactlyWhen` | internal/core/routines.go:108-121 | A tick with nobody in between fires exactly the enabled Routine that never fired or whose interval is over, and opens a Task exactly when the last one is finished or there is none |
| `Routines.EditDecidesNextTick` | internal/core/routines.go:236-252 | An accepted edit forgets no firing, and the next tick goes by the edited schedule and switch |
| `Routines.HandFiresAnyway` | internal/core/routines.go:258-272 | Firing by hand ignores schedule and switch, and opens a Task exactly when the last one is not unfinished |
| `Routines.OneUnfinishedExactlyWhen` | internal/core/routines.go:294-350 | A Routine never has two unfinished Tasks if and only if no firing claims with a copy whose Task is finished (or none) while some Task of the Routine is unfinished |
| `Routines.AtMostOneUnfinished` | internal/core/routines.go:294-297 | With a clock that moves between firings and no firing inside an edit, a Routine has at most one unfinished Task |
| `Routines.ScheduledFiringsMoveOn` | internal/core/routines.go:275-292 | A scheduled firing always happens at a later instant than the last one |
| `Routines.LateEditForgetsTheTask` | internal/core/routines.go:250-252 | A concrete run in which an edit written after a firing makes the next firing open a second unfinished Task |
| `Routines.OneInstantFoolsTheCompare` | internal/store/runs.go:516-524 | A concrete run in which two firings at one instant let a third open a second unfinished Task |
| `Routines.Table.ClaimRoutine` | internal/store/runs.go:516-524 | The compare-and-set |
| `Routines.Table.FireFrom` | internal/core/routines.go:298-359 | Fires, skips or backs off as the specification's step says |
| `Pages.Paged` | internal/store/feeds.go:16-64 | Returns the window's rows in the order asked for and says exactly whether more are left in its direction; with more left the page is full |
| `Pages.PageIsNearest` | internal/store/feeds.go:24-43 | The window holds only rows on the cursor's far side, the nearest to it, all of them when no more are left, and at most the limit: 100 unless said, never more than 1000 |
| `Pages.WalkBackSeesEachRowOnce` | internal/store/feeds.go:30-37 | Walking back page by page sees every row there was at the start exactly once, newest first, and ends, while newer rows arrive |
| `Pages.WalkOnSeesEachRowOnce` | internal/store/feeds.go:27-29 | Walking forwards sees exactly the rows that follow, and has_more is false exactly at the end |
| `Pages.ReverseInPlace` | internal/store/feeds.go:57-59 | Turns the first rows around in place |
| `RunFollow.Follow` | internal/client/client.go:198-231 | Hands on every event once and in order, and returns a status only after the Run was seen finished with everything committed by then handed on, unless the last request failed |

## Left out

- Fresh ids: a transaction's new ids are taken to be unused, as random UUIDs are; branch names made for different Runs are taken to differ.
- Text limits, trimming and the hex check of commit ids, which only refuse malformed input; notifications, Activity, prompts, thread notes and pull request links, which no modelled transition reads.
- `models.ParseVerdict` and `core.ParseInterval`: a summary carries its verdict and a Routine its interval, because both are plain text matching.
- Handoff rows' open and complete status and remembered answers to plain questions: nothing in the modelled transitions reads them.
- A claim's check that the Bot is still a Member happens before its transaction, so the Task machine also allows claims it would refuse; a removed Bot can be given new Runs through CreateRun, as in the source.
- Event appends that read the Run unlocked (`internal/core/runs.go:365`): a finished Run may gain one more event, so RunFollow.Follow does not assume otherwise.
- Branches.BotsNeverShareABranch: assumes reports that name the branch given at the claim, as this repository's worker does; Branches.BotsStayApartExactlyWhen assumes nothing.
- Landing.OnlyVouchedWorkLands: that a commit id a worker reports is the commit it pushed is taken from the worker; the Server does not check it.
- Which expired Runs one reaping picks: any subset, as rows locked by others are skipped and at most 100 are taken.
- The steps of closing a hub connection (it ends at the end of a script), error frames sharing its queue, frames without a cursor in the log, and encoding failures; one connection is modelled because connections share nothing but the topic table.
- Server processes other than one: the signal wakes the agents of its own process only, and the claim protocol does not depend on it.
- The squash-merge pull request path, the mirror's lock beyond one fetch being one step, git network failures (a command that fails is a step not taken), and people who rewrite or delete remote branches.
- JSON-RPC requests from the agent, notifications, message framing and size limits, and cancelation of a caller that stops waiting for its channel.
- The sink's queue bound and its closing while adders wait; the agent conversation before its first prompt.
- Surrogate pairs: Sanitize.RewrittenMeans speaks of UTF-16 code units, and the two units concerned are no surrogates.
- The check that a Routine's Project is not archived, made when it fires; concurrent edits of name and prompt of a Routine; only last_run_at, last_task_id, interval and enabled are modelled.
- Walking forwards from the very beginning: a page with `after` 0 is the newest page, so such a walk needs a first row.
- Postgres itself, HTTP handlers, the web views, search ranking, usage sums, presence and metrics.
