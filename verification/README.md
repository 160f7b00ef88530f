# Safety protocols of an outreach automation system, in Dafny

The system sends e-mail and LinkedIn messages for people, keeps a CRM in step with a sheet those people edit,
and supervises the processes that do the work. Its guarantees are protocols over shared rows and processes:
a message is never sent again on its own, a stop reaches every child, a late writer is fenced off, and what a
human wrote stays. Each is modelled here at the granularity at which it can go wrong, and proved over every run.

Three forms recur. Code that updates rows, fields or local state is a `class` whose methods update them, and each
such method is proved against a function of the old state. Runs are sequences of events over those same functions,
in any order, with crashes between any two steps. The theorems are lemmas about the functions and the runs, so they
hold of the methods. A call that raises is a result like any other, and its transaction rolls back.

Safety alone would hold of a program that does nothing. So each transaction also has a table: which rows it finds lead
to which rows it leaves and to which answer, told without the function that does it. From the tables follow the other
half of the promises: a due message is sent, a survivor is killed, a dead worker is replaced, a lease leads to a draft.

| concern | modules |
|---|---|
| Gmail: at most one provider call per message | `GmailModel`, `GmailSafety`, `GmailProgress`, `GmailTheorems`, `GmailStore` |
| Supervisor: stop latch and process registry | `SupervisorRegistry`, `SupervisorCapture`, `SupervisorStop`, `SupervisorSafety`, `SupervisorTheorems`, `SupervisorGuard` |
| Supervisor: the loop over its children | `SupervisorLoop` |
| Account identity by union-find | `AccountForest`, `AccountIdentity` |
| Sheet edits of contact roles | `SheetRoles`, `SheetRoster`, `SheetReconcile` |
| Reconciling generated actions | `ActionModel`, `ActionTheorems`, `ActionWritten`, `ActionBatch`, `RowProvenance` |
| Applying reviewed follow-ups | `FollowUps` |
| Leases of draft jobs, delivery of callbacks | `DraftJobs`, `Callbacks` |
| Drip Admin actions and their row locks | `DripModel`, `DripOutcomes`, `DripLocks`, `DripAdmin` |
| Bounded Gmail search and selection | `GmailSearch` |
| Recovery cursor, Slack text, reference tokens | `RecoveryCursor`, `SlackText`, `ReferenceTokens` |
| Shared vocabulary | `Outcomes`, `Ordering`, `Sequences`, `Text` |

## Where the code does less than it says

- `SupervisorSafety._shutdown` tests `_notified` and sets it on the next line (`supervisor_safety.py:288-289`) under a
  re-entrant lock. A signal that lands between the two on the same thread notifies a second time (`NotifiedTwice`).
  The notification runs at most once exactly when no such overlap happens (`NotifiedPerPass`), so in particular when
  no signal arrives in that gap (`NotifiedOnce`); containment of processes never depends on it.
- Gmail Tasks are deduplicated by the raw sequence name, but Messages are recognised by a key that trims it. The
  same legacy step enqueued as `"a"` and as `"a "` is sent twice under one key (`TrimmedNamesSendTwice`);
  `SharedKeyExactly` says that this is the only way two calls can share a key.
- Reconciliation alone does not settle every row: for a row made by hand a second pass may still write. `Slips` is the
  exact condition (an account-level action is current and the row names a message or meeting but neither a target
  lead nor a note), and `PassTwice` the equivalence. The repository's own producer never builds such a row
  (`CollectedIsTargeted`), so a second pass over collected rows changes nothing (`CollectedPassSettles`).
- A sheet edit is refused, before any write, exactly when some lead spares at least two contacts more than it needs
  roles (`RefusedExactly`): the two would both become OTHER. Applying is also refused when a row already carries one
  of the reserved parking roles. A dry run does not look for those.
- The bound of 578 callback attempts needs the first attempt to be stamped no more than 120 seconds before the notice
  was frozen, which two unsynchronised clocks do not guarantee. The bound is attained, and 579 attempts are possible
  once the difference is 121 seconds (`BoundAttained`).
- "Each start time is set exactly when its child exists" fails for the feed sample, whose start time is taken before a
  launch that may raise, and whose exception is caught. It is set if and only if the child exists or that launch raised
  (`FeedTidy`, in the contracts of `Turn` and `BeginSample`); `LaunchRaises` shows such a launch. Sampling is then off
  for good, so the stale time is never read. For reposts and posts a failed launch ends the loop instead, and start
  time and child always go together.
- Reading base64url is lenient: sixteen strings denote each 16-byte value. The pinned last character of the accepted
  form is what makes references unique (`OneCanonicalForm`).

## Model

Rows that begin with "Link to the run theorems" tie a short method to the function that the run theorems speak of; they
promise no more than that.

| member | source | states |
|---|---|---|
| GmailTheorems.AtMostOneProviderCall | gmail/submission.py:213-242 | Over every run from an empty database, with crashes, overlapping recovery, rescheduling and re-enqueueing, no two provider calls are for one Task or for one message identity, and each is for a stamped Task |
| GmailTheorems.StampAnswersTrueOnce | gmail/submission.py:213-242 | Over every run the stamp answers True at most once per Task |
| GmailTheorems.TrueMeansStamped | gmail/submission.py:213-242 | The stamp answers True only where it turns an unstamped Task into a stamped one |
| GmailTheorems.StampedTasksDiffer | gmail/handoff.py:238-326 | In every state that satisfies the invariant, two stamped Tasks stand for different messages |
| GmailTheorems.TaskStory | gmail/submission.py:155-358 | One step of anyone keeps a Task's payload and stamp; a stamped Task returns to pending only if a Message with its exact key exists; a stamp lands only on a running Task that is due, and only on a queued, due delivery, which moves to sending with it |
| GmailTheorems.SettledForever | linkedin/message_delivery_runtime.py:67-104 | Sent, unclear and stopped deliveries keep their status over every run |
| GmailTheorems.DeliveryAndTaskAgree | gmail/submission.py:89-242 | In every reachable state the Task of a queued delivery is unstamped, that of a sending or sent one is stamped, and Task and delivery point at each other |
| GmailTheorems.EvidenceMeansCalled | gmail/submission.py:62-86 | A Message that would let a stamped Task run again carries the key of a provider call already made |
| GmailTheorems.SharedKeyExactly | gmail/submission.py:21-59 | Two calls of a run share an automation key if and only if both are legacy calls for one step whose sequence names differ only by what trimming or the default hides |
| GmailTheorems.TrimmedNamesSendTwice | gmail/submission.py:21-59 | A run in which two Tasks are both sent under one automation key |
| GmailProgress.CrashLosesNothing | gmail/submission.py:245-321 | A Task whose worker died before it submitted is sent after recovery by any free worker, exactly once |
| GmailProgress.ProvenSendIsFinished | gmail/submission.py:245-321 | One whose worker died after its message was persisted is completed, its delivery sent, without a second call |
| GmailProgress.DueTaskIsSent | gmail/worker.py:141-230 | A due Task on its route that was never submitted reaches the provider by one undisturbed worker: no gate holds it back |
| GmailProgress.DueTaskIsFinished | gmail/worker.py:141-230 | And that worker leaves one call, the evidence of it, a sent delivery and a completed Task |
| GmailProgress.RecoveryTable | gmail/submission.py:245-321 | Recovery never raises. Off its route, or with its delivery stopped or unclear, a running Task fails; never submitted, it is pending again at its own time and its delivery queued; submitted with evidence, it is pending now and the delivery sent; without evidence it fails and the delivery is unclear, unless it was sent; no other row changes |
| GmailProgress.StampTable | gmail/submission.py:155-242 | The stamp answers exactly for a running, unstamped Task of the same claim on its route with a queued delivery: True and both rows marked if every due time has passed, otherwise False and the Task postponed to the latest of them |
| GmailProgress.RescheduleTable | gmail/submission.py:324-358 | A running, stamped Task with evidence on an open route, and no other, gets another turn five minutes later |
| GmailProgress.EnqueueTable | gmail/handoff.py:165-326 | In every state that satisfies the invariant: when enqueueing raises, when it answers None, and otherwise which Task it returns (the oldest live, else the oldest submitted, else the bound one, else a new one) and every row it writes for it |
| GmailProgress.BindTable | linkedin/message_delivery_runtime.py:30-64 | When binding is refused, when it only links, and the shared due time it otherwise gives both rows |
| GmailProgress.MarkTable | linkedin/message_delivery_runtime.py:67-104 | Exactly which moves of a delivery are refused |
| GmailProgress.RouteExactly | gmail/handoff.py:60-162 | A payload is valid if and only if it is wholly legacy, or deal, enrollment, version, delivery, operator, step and Task all agree |
| GmailProgress.KeyExactly | gmail/submission.py:21-59 | Which payloads identify a message, and by what |
| GmailProgress.PersistedIsEvidence | gmail/tasks/follow_up.py:365-473 | Persisting leaves the evidence that recovery and rerun look for, or raises exactly on a Message of another lead or key |
| GmailSafety.StampKeeps | gmail/submission.py:213-242 | The stamp, the delivery's move to sending and the worker's right to one call commit together and keep the lane's invariant |
| GmailSafety.RunKeeps | gmail/submission.py:130-358 | Every run of transactions, crashes and handler steps keeps binding, lockstep, one active Task per step and the account of calls owed and made |
| GmailStore.Permit.Consume | gmail/delivery.py:135-170 | A permit is accepted at most once and only for the content it was issued for |
| GmailStore.Store.MarkDeliveryStatus | linkedin/message_delivery_runtime.py:67-104 | The row update is the modelled transition, and a refused transition changes nothing |
| GmailStore.Store.BindDeliveryTask | linkedin/message_delivery_runtime.py:30-64 | Binding queues the delivery and links both rows, or changes nothing |
| GmailStore.Store.DeferEarly | gmail/submission.py:130-211 | Defers exactly an unstamped, running Task that is not due, with its delivery's time, and raises on a changed row |
| GmailStore.Store.StampSubmissionAttempt | gmail/submission.py:213-242 | The locked stamp follows its table and is the transaction of the run theorems; a raise leaves every row as it was |
| GmailStore.Store.RecoverStale | gmail/submission.py:245-321 | Recovery of a stale Task follows its table on the rows before and after, and is the transaction of the run theorems |
| GmailStore.Store.ReschedulePersisted | gmail/submission.py:324-358 | Follows its table: only a stamped Task with its Message runs again |
| GmailStore.Store.MatchingTasks | gmail/handoff.py:238-248 | Finds exactly the Tasks that stand for the step, oldest first |
| GmailStore.Store.FindLive | gmail/handoff.py:249-272 | The first live candidate, after the binding of every candidate before it was checked |
| GmailStore.Store.FindStamped | gmail/handoff.py:273-274 | The first candidate that was ever stamped |
| GmailStore.Store.EnqueueFollowUp | gmail/handoff.py:165-326 | Enqueueing returns the live Task, revives a sent one, rebinds a failed one or creates one, as the modelled transaction says, and a raise changes nothing |
| GmailStore.Store.ReviveSent | gmail/handoff.py:273-293 | Only a failed Task whose Message exists runs again, to continue and never to resend |
| GmailStore.Store.RebindFailed | gmail/handoff.py:295-311 | A failed, unstamped Task becomes due no earlier than its delivery and is bound to it again |
| GmailStore.Store.CreateFollowUp | gmail/handoff.py:313-326 | A new unstamped Task, bound to its delivery in the same transaction |
| GmailStore.Store.NextDue | gmail/worker.py:141-155 | The earliest due pending Task of the operators, lowest id first, and None only if none is due |
| GmailStore.Store.ReclaimStale | gmail/worker.py:103-139 | Recovers each stale running Task of the operators, and no other |
| GmailStore.StaleBelow | gmail/worker.py:103-139 | Lists exactly the running Tasks of the operators that started before the cutoff |
| GmailStore.Store.SendMessage | gmail/client.py:158-240 | The provider is called exactly when the unused permit fits the content and the stamp answered True, and then exactly one call is logged for a Task stamped by this very call |
| GmailStore.Store.PersistOutbound | gmail/tasks/follow_up.py:365-473 | The accepted message is persisted under the Task's automation key |
| GmailStore.Store.RequeueTask | gmail/submission.py:155-160 | Link to the run theorems: the Task is pending again and due at the given time, its stamp untouched |
| GmailStore.Store.CompareAndSet | gmail/worker.py:156-168 | Link to the run theorems: the claim is won exactly by the worker whose guarded update still finds the Task pending |
| GmailStore.Store.RefreshStatus | gmail/worker.py:221-230 | Link to the run theorems: only a Task still running when read again is completed |
| GmailStore.Store.SetFinalStatus | gmail/worker.py:198-230 | Link to the run theorems: the unconditional final status write of the worker |
| SupervisorTheorems.StopContains | supervisor_safety.py:169-312 | Whichever lines signals and the watchdog interrupt: once all calls returned, a stop happened and the last sweep reported no failure, no process ever observed and no unidentified root is alive |
| SupervisorTheorems.ObservedUntilGone | supervisor_safety.py:111-167 | At every moment an observed process that is no longer registered has exited, and dead, captured and root identities refer to registered ones |
| SupervisorTheorems.NotifiedPerPass | supervisor_safety.py:271-303 | The notification runs once per frame that passed its test, at most once if and only if no two frames overlapped between test and flag, and at least once after an emergency, even one swallowed by a launch or another shutdown |
| SupervisorTheorems.NotifiedOnce | supervisor_safety.py:271-303 | Without a signal in that gap it runs at most once, and exactly once for an emergency |
| SupervisorTheorems.NotifiedTwice | supervisor_safety.py:288-289 | A run in which one emergency stop notifies twice |
| SupervisorSafety.EventKeeps | supervisor_safety.py:132-312 | Any line of any frame, a signal, a watchdog turn or a process exit keeps the machine's invariant |
| SupervisorSafety.RunKeeps | supervisor_safety.py:132-312 | So does every run |
| SupervisorCapture.CaptureForgetsOnlyTheCaptured | supervisor_safety.py:132-167 | A capture pass forgets an identity only if it has exited and an earlier pass had captured its descendants; a descendant it reads is owned from then on unless already forgotten so |
| SupervisorCapture.QuietShutdownContains | supervisor_safety.py:203-269 | A sweep that reports no failure leaves nothing owned, and no unidentified root, alive |
| SupervisorCapture.CaptureStaysContained | supervisor_safety.py:132-167 | Further passes over a contained registry keep it contained |
| SupervisorCapture.SignalsStayHome | supervisor_safety.py:203-249 | A sweep signals only identities it owns, each just after it passed the PID-reuse check, and kills only what it asked to terminate before |
| SupervisorCapture.SweepReaches | supervisor_safety.py:203-249 | A sweep asks exactly the registered identities not known dead that pass the check to terminate, and kills exactly those of them that the wait did not see exit and that pass it again; what it learns of the dead |
| SupervisorCapture.SweepFailsExactly | supervisor_safety.py:203-269 | It reports a failure if and only if an inspection, signal or wait failed, something outlived its kill, or an unidentified root could not be stopped |
| SupervisorCapture.SweepOrder | supervisor_safety.py:211-242 | Identities are asked in reverse order of registration, and no kill precedes a request |
| SupervisorCapture.ChildrenFirst | supervisor_safety.py:203-222 | A process that a sweep discovers below a registered one is asked to terminate before it |
| SupervisorCapture.CaptureTable | supervisor_safety.py:132-167 | Exactly who is registered, held dead or captured after a pass, which roots remain, and when it fails |
| SupervisorGuard.LinesAreTheCall | supervisor_safety.py:271-303 | The line-by-line machine, run without interruption, ends exactly where the one-call description of a shutdown does |
| SupervisorGuard.Supervisor.Enlist | supervisor_safety.py:111-114 | The identity is owned, an already owned one stays where it is |
| SupervisorGuard.Supervisor.CaptureRecord | supervisor_safety.py:134-151 | One record's look updates owned, dead and captured as the registry function says |
| SupervisorGuard.Supervisor.Retire | supervisor_safety.py:152-165 | Exactly the dead and captured identities, and the roots that are such, are forgotten |
| SupervisorGuard.Supervisor.CaptureDescendants | supervisor_safety.py:132-167 | The whole pass in place is the registry function the theorems speak of |
| SupervisorGuard.Supervisor.SignalRecord | supervisor_safety.py:214-222 | A signal is sent exactly to an identity not known dead whose check passed |
| SupervisorGuard.Supervisor.TerminateOwned | supervisor_safety.py:203-269 | Capture, terminate, wait, kill and the final check in place are the registry function, signals included and in order; who can be reached is asked to terminate, and killed if it outlives that |
| SupervisorGuard.Supervisor.Shutdown | supervisor_safety.py:271-303 | One whole shutdown call: latch, registry, signals and the raise |
| SupervisorGuard.Supervisor.RegisterChild | supervisor_safety.py:176-185 | The spawned handle is a root, and owned once it was identified |
| SupervisorGuard.Supervisor.Launch | supervisor_safety.py:169-195 | Refused without effect after a stop; returns a running child only if no stop came and its capture succeeded; otherwise everything entered so far has been swept |
| SupervisorLoop.StartsWait | daemon_supervisor.py:688-1044 | In an orderly log, between the starts of two clashing children (one role twice, repost and post, or either before a browser worker) the first was seen gone |
| SupervisorLoop.NeverTogether | daemon_supervisor.py:820-1056 | In an orderly log no moment has two children of one role, nor a repost and a post child |
| SupervisorLoop.Supervision.Supervise | daemon_supervisor.py:820-1056 | However the outside decides, the log of a run is orderly however the run ends; it returns only for a stop, and then leaves no child running; no launch is tried once a stop was seen; an exception escapes only if some call raised; turns restart at most once each |
| SupervisorLoop.Supervision.Turn | daemon_supervisor.py:912-1044 | One turn keeps the children's bookkeeping. It leaves only for a stop and breaks only if something raised; otherwise every child that is there was seen running or started in this turn, what was due and queued has been started, and a restart was tried exactly if the controls asked for one. The sample's start time is set exactly with its child or after a launch that raised; sampling that is off stays off |
| SupervisorLoop.Supervision.RestartManaged | daemon_supervisor.py:688-729 | A cancelled or failed restart leaves none of its replacements running, unless one outlived its kill; a completed one leaves exactly its replacements; it fails only if something raised, and is cancelled only by a stop or by a replacement that exited |
| SupervisorLoop.Supervision.RestartChildren | daemon_supervisor.py:872-891 | Repost and post are stopped first; without a replacement nothing new runs and the old handles stay; with one, exactly the new workers run; short of a raise, a stop or a dead replacement it succeeds |
| SupervisorLoop.Supervision.PollRuntimeControls | daemon_supervisor.py:411-434 | One poll restarts exactly once if an update, a request or both ask for it, and otherwise touches nothing |
| SupervisorLoop.Supervision.WatchChild | daemon_supervisor.py:941-960 | The runtime worker was seen running and nothing else happened; or it was not, and short of a stop or a raise a new one runs, after sample, repost and post were stopped |
| SupervisorLoop.Supervision.WatchGmail | daemon_supervisor.py:921-939 | Short of a stop or a raise, a Gmail worker that was there is seen running or replaced after its end was seen; nobody is asked to terminate |
| SupervisorLoop.Supervision.WatchFeed | daemon_supervisor.py:962-982 | A sample that is kept was seen running within its time limit, one that is dropped was seen gone, and only one beyond its limit is asked to terminate; one whose completion could not be saved ends the sampling |
| SupervisorLoop.Supervision.StartFeed | daemon_supervisor.py:984-1004 | A sample begins if and only if one is due, none runs, sampling is on and nothing goes wrong; what goes wrong, and only that, ends the sampling |
| SupervisorLoop.Supervision.BeginSample | daemon_supervisor.py:984-998 | The start time is set if and only if a launch was tried, the child exists if and only if it did not raise; sampling ends exactly when the schedule was unreadable or the launch raised |
| SupervisorLoop.LaunchRaises | daemon_supervisor.py:984-998 | A first sample whose launch raises: its start time is left without a child |
| SupervisorLoop.Supervision.WatchRepost | daemon_supervisor.py:1006-1023 | A repost child that is kept was seen running within its time limit, only one beyond it is asked to terminate, and a due one starts unless it or a post child is there |
| SupervisorLoop.Supervision.WatchPost | daemon_supervisor.py:1025-1042 | The same for posts |
| SupervisorLoop.Supervision.StopAll | daemon_supervisor.py:1046-1056 | After the loop every child has been stopped, or the stop raised |
| AccountForest.RootIsLeast | linkedin/crm_v2_evidence.py:172-194 | Two tokens share a root if and only if the joins connect them, and the root is the least token connected to each |
| AccountForest.RootsAreDeterministic | linkedin/crm_v2_evidence.py:172-194 | Any two forests that stand for the same joins give every token they share the same root, whatever the order of joins and the compression |
| AccountForest.CompressKeepsRoots | linkedin/crm_v2_evidence.py:179-183 | Path compression changes no root |
| AccountForest.LinkMovesClass | linkedin/crm_v2_evidence.py:185-194 | Linking the greater root below the smaller moves exactly its class |
| AccountForest.UnionFind.Add | linkedin/crm_v2_evidence.py:176-177 | The token is known, and no class changes |
| AccountForest.UnionFind.Find | linkedin/crm_v2_evidence.py:179-183 | Returns the root and leaves every root as it was |
| AccountForest.UnionFind.Union | linkedin/crm_v2_evidence.py:185-194 | The forest stands for exactly one join more |
| AccountIdentity.AccountsExactly | linkedin/crm_v2_evidence.py:255-314 | Tokens are merged if and only if contact links connect them once every name tied to one domain is read as that domain |
| AccountIdentity.NameJoinsExactly | linkedin/crm_v2_evidence.py:255-314 | The names joined to a domain are exactly those observed with that one domain |
| AccountIdentity.LinksExactly | linkedin/crm_v2_evidence.py:306-314 | The contact links are exactly those from an opportunity's token to the tokens of its contacts |
| AccountIdentity.LeadTokensExactly | linkedin/crm_v2_evidence.py:265-282 | A lead is known by the domain of its last row that has one or a name, by the name if that row has no domain |
| AccountIdentity.ContactsBelong | linkedin/crm_v2_evidence.py:255-314 | An opportunity and its contacts always end in one account |
| AccountIdentity.DomainsStayApart | linkedin/crm_v2_evidence.py:255-314 | Without contact links no account holds two business domains |
| AccountIdentity.DomainKeysTheAccount | linkedin/crm_v2_evidence.py:172-194 | An account that holds a domain is keyed by a domain |
| AccountIdentity.Collector.Observe | linkedin/crm_v2_evidence.py:251-264 | Records for every name exactly the domains seen with it |
| AccountIdentity.Collector.FileLeads | linkedin/crm_v2_evidence.py:265-282 | The joins are exactly those of the leads, and each lead has its primary token |
| AccountIdentity.Collector.FileOpportunities | linkedin/crm_v2_evidence.py:284-305 | Adds exactly the name joins and contact links of the opportunities |
| AccountIdentity.Collector.Collect | linkedin/crm_v2_evidence.py:231-316 | The forest stands for exactly the name joins and contact links of the whole data |
| SheetRoles.EditedRolesExactly | linkedin/crm_sheet_import.py:776-903 | Each edited role ends with exactly the leads of the sheet |
| SheetRoles.UneditedStay | linkedin/crm_sheet_import.py:776-903 | Every record survives with its id and lead; unedited roles other than OTHER, and rows the sheet still wants, are unchanged |
| SheetRoles.FinalKeysUnique | linkedin/crm_sheet_import.py:852-870 | An edit that is not refused ends with one row per lead and role |
| SheetRoles.RefusedExactly | linkedin/crm_sheet_import.py:852-870 | The final keys collide if and only if some lead spares two contacts more than it needs roles |
| SheetRoles.OnlyOthersMeet | linkedin/crm_sheet_import.py:824-870 | Only OTHER can be the role two records of a lead would share |
| SheetRoles.SecondEditIsIdle | linkedin/crm_sheet_import.py:776-903 | Applying the sheet again changes no role and creates nothing |
| SheetRoster.SecondRunCountsZero | linkedin/crm_sheet_import.py:776-903 | A second run counts no change |
| SheetRoster.Reusable | linkedin/crm_sheet_import.py:811-822 | Lists per lead exactly the contacts it can spare, released ones first |
| SheetRoster.Plan | linkedin/crm_sheet_import.py:824-850 | The greedy loop over roles and leads computes exactly the role each contact ends with and each record to create, once |
| SheetRoster.Demote | linkedin/crm_sheet_import.py:848-850 | Released contacts without a new role become OTHER, and no others |
| SheetReconcile.KeysCollide | linkedin/crm_sheet_import.py:852-870 | Finds a repeated final key if and only if there is one |
| SheetReconcile.FindChanged | linkedin/crm_sheet_import.py:872-877 | Lists each row whose role changes, once |
| SheetReconcile.ParkingIsFree | linkedin/crm_sheet_import.py:881-893 | A parking role meets no other row |
| SheetReconcile.WritingIsFree | linkedin/crm_sheet_import.py:894-896 | A final role meets no row of its lead, parked or already written |
| SheetReconcile.Roster.Park | linkedin/crm_sheet_import.py:890-893 | Every single write of parking keeps one row per lead and role |
| SheetReconcile.Roster.WriteFinal | linkedin/crm_sheet_import.py:894-896 | So does every final write, and each row ends with its final role |
| SheetReconcile.Roster.CreateMissing | linkedin/crm_sheet_import.py:897-902 | So does every insert, and the roster then is what the sheet asked for |
| SheetReconcile.Roster.Reconcile | linkedin/crm_sheet_import.py:776-903 | Raises exactly on a refused edit and then changes no row; a dry run changes none either and counts what applying would; applying reaches the asked roster |
| ActionTheorems.RowKeeps | linkedin/crm_v2_actions.py:229-438 | One row keeps at most one current action, unique keys, every id, key and human revision, and every field of human, finished or foreign work |
| ActionTheorems.UnwantedIsWithdrawn | linkedin/crm_v2_actions.py:259-345 | An Opportunity out of scope, ineligible or without a reminder ends without a replaceable current action |
| ActionTheorems.SecondPassExactly | linkedin/crm_v2_actions.py:229-438 | A second pass over a row is idle if and only if the row does not slip |
| ActionTheorems.TargetedRowsSettle | linkedin/crm_v2_actions.py:229-438 | With a target lead beside every trigger message or meeting the second pass is idle |
| ActionWritten.WrittenSays | linkedin/crm_v2_actions.py:441-671 | Field by field, what a row may write: every action is left alone, withdrawn, or carries the row's target, due date, triggers, key, kind, words and channel (none for a lead not to be contacted), and at most one is new |
| ActionWritten.WrittenExactly | linkedin/crm_v2_actions.py:229-438 | A row raises if and only if its addressed reminder has no words, and leaves a generated action in progress if and only if it asks for one, everything it points at belongs to the Opportunity, and its key is not taken by finished or human work |
| ActionWritten.ChangesTell | linkedin/crm_v2_actions.py:229-438 | Every reported change happened, and every write is reported |
| ActionWritten.ObstaclesTell | linkedin/crm_v2_actions.py:229-438 | What keeps a row from writing, a human action in progress or a taken key, is reported too |
| ActionBatch.LocksAscend | linkedin/crm_v2_actions.py:129-226 | A pass locks its Opportunities once each, in ascending order |
| ActionBatch.WorkExactly | linkedin/crm_v2_actions.py:129-190 | A pass acts on exactly the rows that name an Opportunity which no other row names |
| ActionBatch.PassActs | linkedin/crm_v2_actions.py:129-226 | Each of them does to its Opportunity what it would do alone, and the pass raises if and only if one of them does |
| ActionBatch.PassKeeps | linkedin/crm_v2_actions.py:129-226 | A batch of any rows keeps every ledger sound and human work whole, and touches only the Opportunities it names |
| ActionBatch.PassTwice | linkedin/crm_v2_actions.py:129-226 | A second pass is idle if and only if no row of the first slipped |
| ActionBatch.SomeRowSlips | linkedin/crm_v2_actions.py:673-702 | A row made by hand and a sound ledger that slip |
| RowProvenance.CollectedIsTargeted | linkedin/crm_v2_evidence.py:579-620 | Every row the producer builds names a message or meeting only beside a target lead, and neither of them beside a note |
| RowProvenance.ProvenanceIsExact | linkedin/crm_v2_evidence.py:1139-1212 | A human action that names a lead gives its own target, message and meeting; otherwise the latest eligible message of the selected thread is named if a Gmail reason has one, else the next or the last completed meeting if a meeting reason has one, each with its lead, else nothing |
| RowProvenance.RowIsExact | linkedin/crm_v2_evidence.py:579-625 | A row is about the owner's note, and then names nobody, exactly when one is due after a meeting or the current action stands for it; contact is ruled out exactly when every lead or the target is suppressed |
| RowProvenance.CollectedRowSettles | linkedin/crm_v2_actions.py:229-438 | A second pass over a collected row is idle, whatever was collected |
| RowProvenance.CollectedPassSettles | linkedin/crm_v2_actions.py:129-226 | So is a second pass over all collected rows |
| ActionBatch.Ledger.WithdrawCurrent | linkedin/crm_v2_actions.py:793-829 | Cancels the current action exactly when it is replaceable, otherwise reports it preserved |
| ActionBatch.Ledger.UpdateCurrent | linkedin/crm_v2_actions.py:705-741 | Rewrites one action, and reports a change exactly when a field differs |
| ActionBatch.Ledger.Enter | linkedin/crm_v2_actions.py:378-438 | Reuses a cancelled action with the key, leaves a finished one, or creates one |
| ActionBatch.Ledger.Carry | linkedin/crm_v2_actions.py:363-438 | Carrying a proposal out in place is the modelled rewriting of the ledger |
| ActionBatch.Ledger.ReconcileOne | linkedin/crm_v2_actions.py:229-438 | One row in place, raising exactly where the specification does; what it wrote is what the row says |
| ActionBatch.Ledger.Reconcile | linkedin/crm_v2_actions.py:129-226 | The transaction: on a raise or in a dry run no ledger changes |
| FollowUps.OnlyBlanksFilled | linkedin/crm_followup_decisions.py:351-381 | Only selected actions with blank draft and channel change, and they gain exactly channel, draft and one human revision |
| FollowUps.NothingUncounted | linkedin/crm_followup_decisions.py:339-381 | validated = requested + no-op, requested = applied + preserved, and applied is the number of actions that change |
| FollowUps.DraftArrives | linkedin/crm_followup_decisions.py:351-381 | A blank action gains exactly the draft written for it under its channel, e-mail before LinkedIn, and one revision; every other keeps its facts |
| FollowUps.CountsTell | linkedin/crm_followup_decisions.py:339-381 | Each reported count is the number of decisions that met that fate |
| FollowUps.AcceptedExactly | linkedin/crm_followup_decisions.py:241-337 | On a valid queue a decision is accepted if and only if what was reviewed is a row of the queue, is what the decision names, and is what the locked rows still say |
| FollowUps.ReplayRefusedExactly | linkedin/crm_followup_decisions.py:489-536 | The same batch is refused a second time if and only if the first filled a draft |
| FollowUps.Desk.CanonicalIndex | linkedin/crm_followup_decisions.py:396-477 | Raises exactly on a malformed or ambiguous queue, and otherwise maps each action to its row |
| FollowUps.Desk.Check | linkedin/crm_followup_decisions.py:241-337 | Accepts exactly the batches whose every decision matches queue and locked rows |
| FollowUps.Desk.Apply | linkedin/crm_followup_decisions.py:234-393 | All or nothing: an accepted batch is written and counted as specified, any other changes nothing |
| DraftJobs.GrantsDoNotOverlap | api/slack_reply_drafts.py:82-117 | Between two grants of one request the earlier lease ran out or its holder recorded a failure |
| DraftJobs.OneTimelySave | api/slack_reply_drafts.py:120-140 | At most one save per request, by its latest grant, inside that lease |
| DraftJobs.SaveIsFinal | api/slack_reply_drafts.py:120-140 | Nothing about a request takes effect after its save |
| DraftJobs.WritersTakeTurns | api/slack_reply_drafts.py:122-139 | Writers of a shared artifact were created no earlier than the previous one saved |
| DraftJobs.ReadyIsFrozen | api/slack_reply_drafts.py:82-151 | A ready draft never changes again |
| DraftJobs.OnlyRetriesReclaim | api/slack_reply_drafts.py:97-117 | An existing job is granted again if and only if its own modal retries it and it failed or its lease ended |
| DraftJobs.GrantedDraftIsServed | api/slack_reply_drafts.py:82-140 | A worker that saves within its lease serves its draft to every later claim from the same modal |
| DraftJobs.LostDraftIsRetried | api/slack_reply_drafts.py:82-151 | One that fails or outlives its lease gives way to an explicit retry, and to nothing else |
| DraftJobs.ClaimTable | api/slack_reply_drafts.py:82-117 | Which answer a claim gets in which state of the job, and that only a grant changes anything |
| DraftJobs.SaveTable | api/slack_reply_drafts.py:120-140 | A save counts if and only if its lease holds; it reaches the thread unless that was written after the job was created |
| DraftJobs.DraftStore.ClaimJob | api/slack_reply_drafts.py:82-117 | The conditional insert or update and its answer are the modelled claim |
| DraftJobs.DraftStore.Save | api/slack_reply_drafts.py:120-140 | The token- and lease-guarded save with the conditional artifact write is the modelled one |
| DraftJobs.DraftStore.RecordFailure | api/slack_reply_drafts.py:143-151 | Only the holder of the token records a failure |
| Callbacks.AttemptsBounded | linkedin/campaign_callbacks.py:178-216 | At most 578 attempts under any pattern of crashes, failures and overlapping workers, if the first is stamped no more than 120 s before the notice was frozen |
| Callbacks.BoundAttained | linkedin/campaign_callbacks.py:178-216 | 578 is reached; with a first stamp 121 s early, 579 |
| Callbacks.PayloadFrozen | linkedin/campaign_callbacks.py:111-125 | Payload and time of readiness never change once ready |
| Callbacks.DeliveredForever | linkedin/campaign_callbacks.py:178-216 | A receipt is never cleared, and no attempt begins after it |
| Callbacks.AbandonedForever | linkedin/campaign_callbacks.py:178-216 | Nor after abandonment |
| Callbacks.LateAnswerIsNothing | linkedin/campaign_callbacks.py:207-215 | The answer to attempt k, arriving after attempt k+1 began, is as if it had never arrived |
| Callbacks.WaitingIsDelivered | linkedin/campaign_callbacks.py:178-216 | A waiting notice less than two days old whose POST is answered well is delivered for good |
| Callbacks.UndeliveredWaitsAgain | linkedin/campaign_callbacks.py:178-216 | One whose POST fails waits again from the end of its pause on, one whose worker dies from the end of the lease on, and not before |
| Callbacks.BackoffTable | linkedin/campaign_callbacks.py:207-215 | The pauses in seconds: doubled from one minute to an hour |
| Callbacks.BeginTable | linkedin/campaign_callbacks.py:186-201 | Exactly when a claim gets a number and a lease, and when the notice is given up instead |
| Callbacks.FinishTable | linkedin/campaign_callbacks.py:207-215 | Exactly which answers count, and what they write |
| Callbacks.Outbox.FreezePayload | linkedin/campaign_callbacks.py:112-125 | Freezes an unfrozen payload and no other row |
| Callbacks.Outbox.BeginAttempt | linkedin/campaign_callbacks.py:188-201 | The locked claim: number, lease and stamp, or abandonment |
| Callbacks.Outbox.FinishAttempt | linkedin/campaign_callbacks.py:207-215 | The answer counts only for the attempt it belongs to |
| Callbacks.Outbox.Deliver | linkedin/campaign_callbacks.py:178-216 | Each selected row is attempted once with its own answer, the others stay, and the result counts the new receipts |
| DripModel.StepRespects | drip/admin.py:149-600 | Every Admin action keeps ended lanes and enrollments, the status of sending, sent, failed and unclear deliveries, and lanes with an unclear delivery out of automation; Tasks only go from pending to completed |
| DripModel.RunRespects | drip/admin.py:149-600 | So does every run of them |
| DripModel.PausedLaneIsQuiet | drip/admin.py:440-484 | A selected lane that has not ended is paused, and no delivery of it is bound to a pending Task |
| DripModel.PausedParentIsQuiet | drip/admin.py:149-333 | A selected enrollment, or active campaign, is paused, and no delivery of its lanes is bound to a pending Task |
| DripModel.StoppedLaneIsQuiet | drip/admin.py:547-600 | A selected lane that was not completed is stopped, has no delivery bound to a pending Task, and nothing planned or queued |
| DripModel.StoppedParentIsQuiet | drip/admin.py:371-409 | So is a selected enrollment that was not completed, with its lanes |
| DripOutcomes.StepStands | drip/admin.py:149-600 | After each of the eight actions every row of every table stands where the action says, told by the rows before it |
| DripOutcomes.LaneTable | drip/admin.py:371-600 | The status each lane ends with: paused, stopped, resumed if its parents run and nothing about it is unclear, or unchanged |
| DripOutcomes.EnrollmentTable | drip/admin.py:296-409 | The status each enrollment ends with; a resumed one waits if a lane of it does |
| DripOutcomes.DeliveryTable | drip/admin.py:80-120 | What each delivery ends with: released and planned again, stopped, or unchanged |
| DripOutcomes.TaskTable | drip/admin.py:80-120 | Exactly the pending Tasks of the deliveries an action reaches are completed |
| DripOutcomes.PausedLaneResumes | drip/admin.py:440-544 | A lane paused and resumed runs again if and only if nothing about it is unclear and its parents run, with everything planned for it still planned |
| DripLocks.NoDeadlock | drip/admin.py:16-77 | Transactions that each take their locks in ascending order never all wait in a ring |
| DripLocks.WritesAreLocked | drip/admin.py:149-600 | Every row an Admin action changes is among the rows it locks |
| DripLocks.StepLinked | drip/admin.py:149-600 | Every Admin action keeps the foreign keys |
| DripAdmin.DripTables.LockRows | drip/admin.py:37-58 | An ordered SELECT FOR UPDATE adds exactly the rows it selects to the ascending lock sequence |
| DripAdmin.DripTables.LockLifecycle | drip/admin.py:16-77 | Locks exactly the Leads, enrollments, lanes, deliveries, attempts and Tasks of the lanes, in ascending (table, key) order, and returns them |
| DripAdmin.DripTables.RetirePendingTasks | drip/admin.py:80-120 | Completes exactly the pending Tasks of the affected deliveries and moves those deliveries as specified |
| DripAdmin.DripTables.PauseSelectedLanes | drip/admin.py:440-484 | Leaves every row where the action says; takes exactly its locks, in one ascending order; every row it changed is among them; keeps the foreign keys, so that actions can follow each other |
| DripAdmin.DripTables.StopSelectedLanes | drip/admin.py:547-600 | Likewise for stopping lanes |
| DripAdmin.DripTables.ResumeSelectedLanes | drip/admin.py:487-544 | Likewise for resuming lanes, skipping unclear ones and inactive parents |
| DripAdmin.DripTables.PauseSelectedEnrollments | drip/admin.py:296-333 | Likewise for pausing enrollments with their lanes |
| DripAdmin.DripTables.StopSelectedEnrollments | drip/admin.py:371-409 | Likewise for stopping enrollments with their lanes |
| DripAdmin.DripTables.ResumeSelectedEnrollments | drip/admin.py:336-368 | Likewise for resuming enrollments |
| DripAdmin.DripTables.PauseSelectedCampaigns | drip/admin.py:149-236 | Likewise for pausing campaigns with everything below them |
| DripAdmin.DripTables.ResumeSelectedCampaigns | drip/admin.py:238-244 | Leaves every row where the action says and writes only the campaigns it locks; its one UPDATE takes those locks in no fixed order |
| DripAdmin.DripTables.Perform | drip/admin.py:149-600 | Any sequence of the actions leaves what the run of the model leaves, so the run theorems hold of the transactions |
| GmailSearch.ParticipantQueryBatches | gmail/data_sync.py:196-210 | Splits the addresses into batches that join up to the input, each within both limits or a single address, and each as long as the limits allow |
| GmailSearch.QueryNames | gmail/data_sync.py:180-194 | A query asks for each address as sender and as each kind of receiver |
| GmailSearch.BoundedMessageSearch | gmail/data_sync.py:213-247 | Returns the first maxItems messages, reading pages up to the first that fills the budget; truncated if and only if the budget was exceeded, or filled with a page to come |
| GmailSearch.Searcher.Search | gmail/data_sync.py:250-284 | Halving ends; the leaves join up to the batch, each complete or the first messages of one address; splits, caps and messages are what the leaves say, and the query counter grows by the pages read over one query per leaf and per split |
| GmailSearch.RoundRobinFair | gmail/data_sync.py:496-508 | Round robin keeps every id once, and the k-th id of every batch is among the first k rounds |
| GmailSearch.RoundRobinThreadIds | gmail/data_sync.py:496-508 | The column loop computes the round robin order |
| GmailSearch.FillChooses | gmail/data_sync.py:526-550 | Filling up adds only unseen candidates, once, within the limit |
| GmailSearch.SelectThreadFetches | gmail/data_sync.py:511-551 | A duplicate-free choice of unseen candidates within budget, short only when all are taken, its last quarter for discovery while unseen discovered threads remain, the share before it for known threads, the rediscovered first and then round robin, while unseen ones remain |
| RecoveryCursor.EveryDealIsScanned | gmail/handoff.py:742-767 | From any cursor, and while other deals drop out, any ceil(N / limit) + 1 consecutive passes scan every deal that stays eligible |
| RecoveryCursor.PassNears | gmail/handoff.py:742-767 | A pass that misses a deal brings it nearer |
| RecoveryCursor.Recovery.Recover | gmail/handoff.py:742-767 | One pass scans the next deals above the cursor, or starts over, and leaves the cursor at the last one scanned |
| SlackText.ThreePassesAreOne | api/slack_feed_context.py:502-503 | Three replacement passes escape each character exactly once |
| SlackText.UnescapeEscaped | api/slack_feed_context.py:502-503 | Unescaping gives the text back |
| SlackText.SplitSlackText | api/slack_feed_context.py:466-484 | The chunks join up to the escape of the trimmed text or placeholder, each fits a limit of at least 5, each unescapes alone to its own slice, the join unescapes to the text, and no chunk had room for the next character |
| SlackText.SplitFacts | api/slack_feed_context.py:466-484 | Any split of a text into escaped slices within the limit has those properties |
| ReferenceTokens.GeneratedIsValid | drip/link_attribution.py:10-36 | Every generated reference is accepted and gives its value back |
| ReferenceTokens.ValidIsGenerated | drip/link_attribution.py:10-32 | Every accepted token is what its value encodes to |
| ReferenceTokens.ReferencesExactly | drip/link_attribution.py:10-36 | The accepted references are exactly the prefix followed by the encoding of 16 bytes |
| ReferenceTokens.NoAliases | drip/link_attribution.py:10-32 | No two accepted tokens denote one value |
| ReferenceTokens.OneCanonicalForm | drip/link_attribution.py:10-32 | Each well-formed string denotes the value of exactly one accepted token, which differs from it at most in the last character |

## Left out

- Gmail, rows: `sent_at` times, error texts, locks on leads, the lookup of legacy external ids, drip Gmail Tasks and enrichment Tasks.
- Gmail, routes: re-validation of a frozen route is one fact per delivery (`routeIntact`) that anyone may spoil at any time.
- Gmail, handler: its template, sheet and thread work between the permit and the persisted Message is not modelled; it may stop anywhere, and its own delivery marks are allowed more freely than it makes them.
- Gmail, text: trimming strips space, tab, line feed and carriage return, not every Unicode space.
- Supervisor, lines: one capture pass and one sweep are single lines of the latch machine; a stop that raises unwinds its own frame; `on_stop` is taken not to raise; the thread's start and close and `check_stop` are left out.
- SupervisorTheorems.StopContains: speaks of processes that were observed; a grandchild whose parent exited before any capture pass was never observed, and no pass can find it.
- SupervisorLoop.Supervision.Supervise: a run is a given sequence of turns, and what is due and queued in each is given too (the timers behind it are not modelled); exits, stops and raises come freely at every line. Nothing is claimed about how soon anything happens.
- SupervisorLoop.Supervision.RestartManaged: a replacement whose kill is not seen to take effect within its wait raises, and may be left for the final sweep of `SupervisorSafety`.
- Supervisor loop: Git updates, Slack notices, browser tabs, the feed schedule's own file, and the short-lived Git processes that share the launch gate.
- Accounts: evidence other than account identity and the lead, message, meeting or note behind a reminder; normalization of names and domains, thread selection and policy decisions happen before the model.
- RowProvenance.CollectedPassSettles: both passes read the same collected rows; what collecting again after the first pass would decide is left to the policy, which is not part of this model.
- Sheet: every cell and operation other than contact roles; parsing of lead ids.
- Actions: keys are structured instead of text cut to 255 characters; uuid5 ids, snapshot and time fields, and report counters other than the list of changes.
- Follow-ups: JSON parsing and the recorded workflow run; fingerprints are taken as injective.
- Drafts: other writers of the artifact table, the modal, and the generation of the text.
- Callbacks: the HTTP request with its signature, and which rows a pass selects and in which order.
- Drip: stop reasons and times on enrollments, messages to the Admin user, the runtime that runs beside the actions, and shared locks taken by foreign keys.
- DripAdmin.DripTables.Perform: the actions follow each other; two of them at once are covered only by the order of their locks.
- Gmail search: the service is a fixed list of pages per query; checkpoints, and what is done with fetched threads, are left out.
- RecoveryCursor.Recovery.Recover: the eligibility query and the scheduling of each deal are left out; eligibility is a set that may shrink from pass to pass.
- References: the URL functions of `drip/link_attribution.py`.
- Left out entirely, as mostly queries and field checks: HTTP handlers, prompts, manifests, webhooks, configuration.
