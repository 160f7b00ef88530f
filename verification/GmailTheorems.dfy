/** The promises of the Gmail lane, over every run of events from an empty database. */
module GmailTheorems {
  import opened Outcomes
  import opened Text
  import opened GmailModel
  import opened GmailProgress
  import opened GmailSafety

  // ------------------------------------------------------------- at most once

  datatype Identity =
    | ByDelivery(deliveryId: int)
    | ByStep(leadId: int, operator: string, sequenceName: string, stepIndex: int)

  function IdentityOf(p: Payload): Identity {
    if p.deliveryId.Some? then ByDelivery(p.deliveryId.value)
    else ByStep(p.leadId, p.operator, p.sequenceName, p.stepIndex)
  }

  lemma EmptyIsFine()
    ensures Inv(Empty)
  {
  }

  // Two stamped Tasks never stand for the same message.
  lemma StampedTasksDiffer(s: State, t: nat, u: nat)
    requires Inv(s) && t in s.tasks && u in s.tasks && t != u && Stamped(s.tasks[t]) && Stamped(s.tasks[u])
    ensures IdentityOf(s.tasks[t].payload) != IdentityOf(s.tasks[u].payload)
  {
  }

  // Whatever is claimed, crashed, recovered, rescheduled or enqueued again, the provider is asked to
  // send at most once per Task and at most once per message identity, and only for a stamped Task.
  lemma {:induction false} AtMostOneProviderCall(events: seq<Event>)
    ensures var s := Run(Empty, events);
            && (forall i | 0 <= i < |s.calls| :: s.calls[i].taskId in s.tasks && Stamped(s.tasks[s.calls[i].taskId]))
            && (forall i, j | 0 <= i < j < |s.calls| ::
                  && s.calls[i].taskId != s.calls[j].taskId
                  && IdentityOf(s.calls[i].payload) != IdentityOf(s.calls[j].payload))
  {
    RunKeeps(Empty, events);
    var s := Run(Empty, events);
    assert CallsPaid(s.tasks, s.calls);
    forall i, j | 0 <= i < j < |s.calls|
      ensures IdentityOf(s.calls[i].payload) != IdentityOf(s.calls[j].payload)
    {
      StampedTasksDiffer(s, s.calls[i].taskId, s.calls[j].taskId);
    }
  }

  // stamp_submission_attempt answers True to this event, for this Task.
  ghost predicate StampsTrue(s: State, e: Event, t: nat) {
    && e.Stepped? && e.worker in s.workers && s.workers[e.worker].stage.Consumed? && s.workers[e.worker].taskId == t
    && var r := Stamp(s, t, s.workers[e.worker].payload, e.window); r.Ok? && r.value.1
  }

  ghost function TrueStamps(s: State, events: seq<Event>, t: nat): nat
    decreases |events|
  {
    if events == [] then 0
    else (if StampsTrue(s, events[0], t) then 1 else 0) + TrueStamps(Step(s, events[0]), events[1..], t)
  }

  lemma TrueMeansStamped(s: State, e: Event, t: nat)
    ensures StampsTrue(s, e, t) ==>
              t in s.tasks && !Stamped(s.tasks[t]) && t in Step(s, e).tasks && Stamped(Step(s, e).tasks[t])
  {
    if StampsTrue(s, e, t) {
      StampTask(s, t, s.workers[e.worker].payload, e.window, t);
      hide Stamp;
    }
  }

  lemma {:induction false} StampIsSpentOnce(s: State, events: seq<Event>, t: nat)
    requires Inv(s)
    ensures TrueStamps(s, events, t) + (if t in s.tasks && Stamped(s.tasks[t]) then 1 else 0) <= 1
    decreases |events|
  {
    if events != [] {
      var s' := Step(s, events[0]);
      StepKeeps(s, events[0]);
      TaskStory(s, events[0], t);
      TrueMeansStamped(s, events[0], t);
      StampIsSpentOnce(s', events[1..], t);
    }
  }

  // Over a whole run the stamp answers True at most once per Task.
  lemma {:induction false} StampAnswersTrueOnce(events: seq<Event>, t: nat)
    ensures TrueStamps(Empty, events, t) <= 1
  {
    StampIsSpentOnce(Empty, events, t);
  }

  // ------------------------------------------------ the story of one Task row

  // Identity never changes, a stamp is never taken back, a stamped Task only becomes pending again
  // with its Message on file, and a new stamp finds a running Task whose due times have passed.
  ghost predicate TaskMoves(s: State, tasks: map<nat, Task>, deliveries: map<int, Delivery>, t: nat) {
    if t in s.tasks then
      && t in tasks && tasks[t].payload == s.tasks[t].payload
      && (Stamped(s.tasks[t]) ==> tasks[t].attemptedAt == s.tasks[t].attemptedAt)
      && (Stamped(s.tasks[t]) && s.tasks[t].status != Pending && tasks[t].status == Pending
          ==> HasEvidence(s.messages, s.tasks[t].payload))
      && (!Stamped(s.tasks[t]) && Stamped(tasks[t]) ==>
            && s.tasks[t].status == Running && s.tasks[t].scheduledAt <= s.now
            && (s.tasks[t].payload.deliveryId.Some? ==>
                  var d := s.tasks[t].payload.deliveryId.value;
                  && d in s.deliveries && s.deliveries[d].status == Queued && s.deliveries[d].scheduledAt <= s.now
                  && d in deliveries && deliveries[d].status == Sending))
    else t in tasks ==> !Stamped(tasks[t])
  }

  // Nothing happens to Task `t` but, at most, a change of status other than back to pending.
  lemma Unmoved(s: State, tasks: map<nat, Task>, deliveries: map<int, Delivery>, t: nat)
    requires (t in tasks) == (t in s.tasks)
    requires t in tasks ==> tasks[t].payload == s.tasks[t].payload && tasks[t].attemptedAt == s.tasks[t].attemptedAt
    requires t in tasks ==> tasks[t].status == s.tasks[t].status || tasks[t].status != Pending
    ensures TaskMoves(s, tasks, deliveries, t)
  {
  }

  lemma TaskStory(s: State, e: Event, t: nat)
    requires Inv(s)
    ensures TaskMoves(s, Step(s, e).tasks, Step(s, e).deliveries, t)
  {
    hide TaskMoves, HasEvidence, AutomationKey, Enqueue, Recover, StepWorker, Inv;
    match e {
      case Enqueued(p, held, delay) =>
        EnqueueTask(s, p, held, delay, t);
        Unmoved(s, s.tasks, s.deliveries, t);
      case Recovered(u) =>
        RecoverTask(s, u, t);
        Unmoved(s, s.tasks, s.deliveries, t);
      case Stepped(w, window, answer) =>
        if w in s.workers { WorkerTask(s, w, window, answer, t); }
        Unmoved(s, s.tasks, s.deliveries, t);
      case _ => Unmoved(s, s.tasks, Step(s, e).deliveries, t);
    }
  }

  // What enqueueing can leave: nothing changed, a revived Task, a rebound one, or a new one.
  lemma {:induction false} EnqueueShapes(s: State, p: Payload, held: bool, delay: int)
    ensures var r := Enqueue(s, p, held, delay);
            r.Ok? && r.value.0 != s ==>
              && Route(s.deals, s.deliveries, p, None).Ok?
              && var d := Route(s.deals, s.deliveries, p, None).value;
              && (d.Some? ==> d.value in s.deliveries)
              && var cs, stamped := Candidates(s, p, d), ScanStamped(s, Candidates(s, p, d));
              || (stamped.Some? && stamped.value in s.tasks && ReviveStamped(s, stamped.value, d) == Ok(r.value.0))
              || (d.Some? && cs != [] && cs[0] in s.tasks && !Stamped(s.tasks[cs[0]])
                  && Bind(Requeue(s, cs[0], Max(s.deliveries[d.value].scheduledAt, s.now)), d.value, cs[0]) == Ok(r.value.0))
              || CreateTask(s, p, d, if d.Some? then s.deliveries[d.value].scheduledAt else s.now + Max(delay, 0)) == Ok(r.value.0)
  {
    if Route(s.deals, s.deliveries, p, None).Ok? { RouteFacts(s, p, None); }
    hide Route, AutomationKey, Matching, Candidates, CandidateBound, ScanLive, ScanStamped, ReviveStamped, CreateTask, Bind;
  }

  lemma EnqueueTask(s: State, p: Payload, held: bool, delay: int, t: nat)
    requires Inv(s)
    ensures var r := Enqueue(s, p, held, delay); r.Ok? ==> TaskMoves(s, r.value.0.tasks, r.value.0.deliveries, t)
  {
    assert s.nextTask !in s.tasks;
    hide Inv, Enqueue, Route, AutomationKey, Candidates, ScanStamped, TaskMoves, ReviveStamped, CreateTask, Bind;
    EnqueueShapes(s, p, held, delay);
    Unmoved(s, s.tasks, s.deliveries, t);
    var r := Enqueue(s, p, held, delay);
    if r.Ok? && r.value.0 != s {
      var d := Route(s.deals, s.deliveries, p, None).value;
      var cs := Candidates(s, p, d);
      var stamped := ScanStamped(s, cs);
      if stamped.Some? && stamped.value in s.tasks { ReviveTask(s, stamped.value, d, t); }
      if d.Some? && cs != [] && cs[0] in s.tasks && !Stamped(s.tasks[cs[0]]) {
        RebindTask(s, cs[0], d.value, Max(s.deliveries[d.value].scheduledAt, s.now), t);
      }
      CreateTaskMoves(s, p, d, if d.Some? then s.deliveries[d.value].scheduledAt else s.now + Max(delay, 0), t);
    }
  }

  lemma ReviveTask(s: State, c: nat, d: Option<int>, t: nat)
    requires c in s.tasks && (d.Some? ==> d.value in s.deliveries)
    ensures var r := ReviveStamped(s, c, d); r.Ok? ==> TaskMoves(s, r.value.tasks, r.value.deliveries, t)
  {
    hide HasEvidence;
  }

  lemma RebindTask(s: State, c: nat, d: int, at: int, t: nat)
    requires c in s.tasks && d in s.deliveries && !Stamped(s.tasks[c])
    ensures var r := Bind(Requeue(s, c, at), d, c); r.Ok? ==> TaskMoves(s, r.value.tasks, r.value.deliveries, t)
  {
  }

  lemma CreateTaskMoves(s: State, p: Payload, d: Option<int>, at: int, t: nat)
    requires s.nextTask !in s.tasks && (d.Some? ==> d.value in s.deliveries)
    ensures var r := CreateTask(s, p, d, at); r.Ok? ==> TaskMoves(s, r.value.tasks, r.value.deliveries, t)
  {
  }

  lemma RecoverTask(s: State, u: nat, t: nat)
    ensures var r := Recover(s, u); r.Ok? ==> TaskMoves(s, r.value.0.tasks, r.value.0.deliveries, t)
  {
    hide AutomationKey, HasEvidence, Route, MarkIfBound;
    if u in s.tasks && Route(s.deals, s.deliveries, s.tasks[u].payload, Some(u)).Ok? {
      RouteFacts(s, s.tasks[u].payload, Some(u));
      var d := Route(s.deals, s.deliveries, s.tasks[u].payload, Some(u)).value;
      MarkTasks(s, d, Sent);
      MarkTasks(s, d, Unclear);
      MarkTasks(s, d, Queued);
    }
  }

  lemma MarkTasks(s: State, d: Option<int>, status: DeliveryStatus)
    requires d.Some? ==> d.value in s.deliveries
    ensures var r := MarkIfBound(s, d, status);
            r.Ok? ==> r.value.tasks == s.tasks && r.value.messages == s.messages && r.value.now == s.now
  {
  }

  lemma RescheduleTask(s: State, u: nat, t: nat)
    ensures var r := Reschedule(s, u); r.Ok? ==> TaskMoves(s, r.value.0.tasks, r.value.0.deliveries, t)
  {
    hide AutomationKey, HasEvidence;
  }

  lemma DeferTask(s: State, u: nat, p: Payload, window: Option<int>, t: nat)
    ensures var r := DeferIfEarly(s, u, p, window); r.Ok? ==> TaskMoves(s, r.value.0.tasks, r.value.0.deliveries, t)
  {
    hide AutomationKey, HasEvidence;
  }

  lemma StampTask(s: State, u: nat, p: Payload, window: Option<int>, t: nat)
    ensures var r := Stamp(s, u, p, window); r.Ok? ==> TaskMoves(s, r.value.0.tasks, r.value.0.deliveries, t)
    ensures var r := Stamp(s, u, p, window);
            r.Ok? && r.value.1 ==> u in s.tasks && !Stamped(s.tasks[u]) && u in r.value.0.tasks && Stamped(r.value.0.tasks[u])
  {
    DeferTask(s, u, p, window, t);
    if u in s.tasks && Route(s.deals, s.deliveries, s.tasks[u].payload, Some(u)).Ok? {
      RouteFacts(s, s.tasks[u].payload, Some(u));
    }
    hide AutomationKey, HasEvidence, Route;
  }

  lemma PreludeRows(s: State, w: nat)
    requires w in s.workers
    ensures Prelude(s, w).tasks == s.tasks && Prelude(s, w).deliveries == s.deliveries
  {
    hide AutomationKey, HasSentStep, Route;
  }

  lemma PersistRows(s: State, w: nat)
    requires w in s.workers && s.workers[w].stage.Accepted?
    ensures Persist(s, w).tasks == s.tasks && Persist(s, w).deliveries == s.deliveries
  {
    hide AutomationKey;
  }

  lemma ReadingRows(s: State, w: nat, answer: Option<nat>)
    requires w in s.workers
    ensures Permit(s, w).tasks == s.tasks && Permit(s, w).deliveries == s.deliveries
    ensures Execute(s, w, answer).tasks == s.tasks && Execute(s, w, answer).deliveries == s.deliveries
    ensures Refresh(s, w).tasks == s.tasks && Refresh(s, w).deliveries == s.deliveries
    ensures MarkOwnSent(s, w).tasks == s.tasks
  {
    hide AutomationKey;
  }

  lemma ClaimTask(s: State, w: nat, status: TaskStatus, t: nat)
    requires w in s.workers && status != Pending
    ensures TaskMoves(s, Claim(s, w).tasks, Claim(s, w).deliveries, t)
    ensures TaskMoves(s, Overwrite(s, w, status).tasks, Overwrite(s, w, status).deliveries, t)
  {
    Unmoved(s, Claim(s, w).tasks, Claim(s, w).deliveries, t);
    Unmoved(s, Overwrite(s, w, status).tasks, Overwrite(s, w, status).deliveries, t);
    hide TaskMoves;
  }

  lemma BoundaryTask(s: State, w: nat, window: Option<int>, t: nat)
    requires w in s.workers
    ensures TaskMoves(s, Gate(s, w, window).tasks, Gate(s, w, window).deliveries, t)
    ensures TaskMoves(s, Submit(s, w, window).tasks, Submit(s, w, window).deliveries, t)
    ensures TaskMoves(s, Heal(s, w).tasks, Heal(s, w).deliveries, t)
  {
    var u, p := s.workers[w].taskId, s.workers[w].payload;
    DeferTask(s, u, p, window, t);
    StampTask(s, u, p, window, t);
    RescheduleTask(s, u, t);
    Unmoved(s, s.tasks, s.deliveries, t);
    hide TaskMoves, DeferIfEarly, Stamp, Reschedule;
  }

  lemma WorkerTask(s: State, w: nat, window: Option<int>, answer: Option<nat>, t: nat)
    requires w in s.workers
    ensures TaskMoves(s, StepWorker(s, w, window, answer).tasks, StepWorker(s, w, window, answer).deliveries, t)
  {
    hide TaskMoves, Claim, Prelude, Gate, Permit, Submit, Execute, Persist, MarkOwnSent, Heal, Overwrite, Refresh;
    var s' := StepWorker(s, w, window, answer);
    match s.workers[w].stage {
      case Picked => ClaimTask(s, w, Failed, t);
      case Failing => ClaimTask(s, w, Failed, t);
      case Completing => ClaimTask(s, w, Completed, t);
      case Ready => BoundaryTask(s, w, window, t);
      case Consumed => BoundaryTask(s, w, window, t);
      case Excepted => BoundaryTask(s, w, window, t);
      case Accepted(_) => PersistRows(s, w); Unmoved(s, s.tasks, s.deliveries, t);
      case Claimed => PreludeRows(s, w); Unmoved(s, s.tasks, s.deliveries, t);
      case _ => ReadingRows(s, w, answer); Unmoved(s, s.tasks, s'.deliveries, t);
    }
  }

  // -------------------------------------------- the story of one delivery row

  // SENT, UNCLEAR and STOPPED never change.
  ghost predicate StaysSettled(s: State, deliveries: map<int, Delivery>, d: int) {
    d in s.deliveries && Absorbing(s.deliveries[d].status) ==>
      d in deliveries && deliveries[d].status == s.deliveries[d].status
  }

  lemma MarkSettled(s: State, at: Option<int>, status: DeliveryStatus, d: int)
    requires at.Some? ==> at.value in s.deliveries
    ensures MarkIfBound(s, at, status).Ok? ==> StaysSettled(s, MarkIfBound(s, at, status).value.deliveries, d)
  {
  }

  lemma SettledStays(s: State, e: Event, d: int)
    ensures StaysSettled(s, Step(s, e).deliveries, d)
  {
    hide Enqueue, Recover, StepWorker;
    match e {
      case Enqueued(p, held, delay) => EnqueueSettled(s, p, held, delay, d);
      case Recovered(t) => RecoverSettled(s, t, d);
      case Stepped(w, window, answer) => if w in s.workers { WorkerSettled(s, w, window, answer, d); }
      case _ =>
    }
  }

  lemma EnqueueSettled(s: State, p: Payload, held: bool, delay: int, d: int)
    ensures var r := Enqueue(s, p, held, delay); r.Ok? ==> StaysSettled(s, r.value.0.deliveries, d)
  {
    hide Enqueue, Route, AutomationKey, Candidates, ScanStamped, StaysSettled, ReviveStamped, CreateTask, Bind;
    EnqueueShapes(s, p, held, delay);
    NoneSettled(s, d);
    var r := Enqueue(s, p, held, delay);
    if r.Ok? && r.value.0 != s {
      var bound := Route(s.deals, s.deliveries, p, None).value;
      var cs := Candidates(s, p, bound);
      var stamped := ScanStamped(s, cs);
      if stamped.Some? && stamped.value in s.tasks { ReviveSettled(s, stamped.value, bound, d); }
      if bound.Some? && cs != [] && cs[0] in s.tasks {
        RebindSettled(s, cs[0], bound.value, Max(s.deliveries[bound.value].scheduledAt, s.now), d);
      }
      CreateSettled(s, p, bound, if bound.Some? then s.deliveries[bound.value].scheduledAt else s.now + Max(delay, 0), d);
    }
  }

  lemma NoneSettled(s: State, d: int)
    ensures StaysSettled(s, s.deliveries, d)
  {
  }

  lemma ReviveSettled(s: State, c: nat, at: Option<int>, d: int)
    requires c in s.tasks && (at.Some? ==> at.value in s.deliveries)
    ensures var r := ReviveStamped(s, c, at); r.Ok? ==> StaysSettled(s, r.value.deliveries, d)
  {
    hide AutomationKey, HasEvidence;
  }

  lemma RebindSettled(s: State, c: nat, at: int, due: int, d: int)
    requires c in s.tasks && at in s.deliveries
    ensures var r := Bind(Requeue(s, c, due), at, c); r.Ok? ==> StaysSettled(s, r.value.deliveries, d)
  {
  }

  lemma CreateSettled(s: State, p: Payload, at: Option<int>, due: int, d: int)
    requires at.Some? ==> at.value in s.deliveries
    ensures var r := CreateTask(s, p, at, due); r.Ok? ==> StaysSettled(s, r.value.deliveries, d)
  {
  }

  lemma RecoverSettled(s: State, t: nat, d: int)
    ensures var r := Recover(s, t); r.Ok? ==> StaysSettled(s, r.value.0.deliveries, d)
  {
    hide AutomationKey, HasEvidence, Route, MarkIfBound, StaysSettled;
    NoneSettled(s, d);
    if t in s.tasks && Route(s.deals, s.deliveries, s.tasks[t].payload, Some(t)).Ok? {
      RouteFacts(s, s.tasks[t].payload, Some(t));
      var at := Route(s.deals, s.deliveries, s.tasks[t].payload, Some(t)).value;
      MarkSettled(s, at, Sent, d);
      MarkSettled(s, at, Unclear, d);
      MarkSettled(s, at, Queued, d);
      MarkTasks(s, at, Sent);
      MarkTasks(s, at, Unclear);
      MarkTasks(s, at, Queued);
    }
  }

  lemma RescheduleSettled(s: State, t: nat, d: int)
    ensures var r := Reschedule(s, t); r.Ok? ==> StaysSettled(s, r.value.0.deliveries, d)
  {
    hide AutomationKey, HasEvidence, Route;
    if t in s.tasks && Route(s.deals, s.deliveries, s.tasks[t].payload, Some(t)).Ok? {
      RouteFacts(s, s.tasks[t].payload, Some(t));
    }
  }

  lemma StampSettled(s: State, t: nat, p: Payload, window: Option<int>, d: int)
    ensures var r := DeferIfEarly(s, t, p, window); r.Ok? ==> StaysSettled(s, r.value.0.deliveries, d)
    ensures var r := Stamp(s, t, p, window); r.Ok? ==> StaysSettled(s, r.value.0.deliveries, d)
  {
    hide AutomationKey, HasEvidence;
  }

  lemma ClaimSettled(s: State, w: nat, d: int)
    requires w in s.workers
    ensures Claim(s, w).deliveries == s.deliveries && Overwrite(s, w, Failed).deliveries == s.deliveries
    ensures Overwrite(s, w, Completed).deliveries == s.deliveries
    ensures StaysSettled(s, MarkOwnSent(s, w).deliveries, d)
  {
    hide AutomationKey, HasEvidence;
  }

  lemma BoundarySettled(s: State, w: nat, window: Option<int>, d: int)
    requires w in s.workers
    ensures StaysSettled(s, Gate(s, w, window).deliveries, d)
    ensures StaysSettled(s, Submit(s, w, window).deliveries, d)
    ensures StaysSettled(s, Heal(s, w).deliveries, d)
  {
    StampSettled(s, s.workers[w].taskId, s.workers[w].payload, window, d);
    RescheduleSettled(s, s.workers[w].taskId, d);
    assert StaysSettled(s, s.deliveries, d);
    hide DeferIfEarly, Stamp, Reschedule, StaysSettled;
  }

  lemma WorkerSettled(s: State, w: nat, window: Option<int>, answer: Option<nat>, d: int)
    requires w in s.workers
    ensures StaysSettled(s, StepWorker(s, w, window, answer).deliveries, d)
  {
    assert StaysSettled(s, s.deliveries, d);
    hide StaysSettled, Claim, Prelude, Gate, Permit, Submit, Execute, Persist, MarkOwnSent, Heal, Overwrite, Refresh;
    match s.workers[w].stage {
      case Ready => BoundarySettled(s, w, window, d);
      case Consumed => BoundarySettled(s, w, window, d);
      case Excepted => BoundarySettled(s, w, window, d);
      case Accepted(_) => PersistRows(s, w);
      case Claimed => PreludeRows(s, w);
      case Permitted =>
      case Gated => ReadingRows(s, w, answer);
      case Submitting => ReadingRows(s, w, answer);
      case Finishing => ReadingRows(s, w, answer);
      case _ => ClaimSettled(s, w, d);
    }
  }

  lemma {:induction false} SettledForever(s: State, events: seq<Event>, d: int)
    requires d in s.deliveries && s.deliveries[d].status in {Sent, Unclear, Stopped}
    ensures d in Run(s, events).deliveries && Run(s, events).deliveries[d].status == s.deliveries[d].status
    decreases |events|
  {
    if events != [] {
      SettledStays(s, events[0], d);
      SettledForever(Step(s, events[0]), events[1..], d);
    }
  }

  // In every reachable state a queued delivery's Task is unstamped, a sending or sent one's is
  // stamped, and each Task of a delivery is the one that delivery points back to.
  lemma {:induction false} DeliveryAndTaskAgree(events: seq<Event>)
    ensures var s := Run(Empty, events);
            forall t | t in s.tasks && s.tasks[t].payload.deliveryId.Some? ::
              var d := s.tasks[t].payload.deliveryId.value;
              && d in s.deliveries && s.deliveries[d].taskId == Some(t)
              && (s.deliveries[d].status == Queued ==> !Stamped(s.tasks[t]))
              && (s.deliveries[d].status == Sending || s.deliveries[d].status == Sent ==> Stamped(s.tasks[t]))
    ensures var s := Run(Empty, events);
            forall d | d in s.deliveries && s.deliveries[d].status in {Queued, Sending, Sent} ::
              s.deliveries[d].taskId.Some? && s.deliveries[d].taskId.value in s.tasks
  {
    RunKeeps(Empty, events);
    var s := Run(Empty, events);
    assert Bound(s.nextTask, s.tasks, s.deliveries);
    LockstepHolds(s);
  }

  // Evidence is never invented: a Message that would let a stamped Task run again carries the key of
  // a call already made.
  lemma {:induction false} EvidenceMeansCalled(events: seq<Event>, p: Payload)
    requires HasEvidence(Run(Empty, events).messages, p)
    ensures exists i | 0 <= i < |Run(Empty, events).calls| ::
              AutomationKey(Run(Empty, events).calls[i].payload) == AutomationKey(p)
  {
    RunKeeps(Empty, events);
    var s := Run(Empty, events);
    var x :| x in s.messages && IsEvidence(s.messages[x], p);
    assert KeyCalled(s.calls, s.messages[x].key);
  }

  // ---------------------------------------------- the automation key of a call

  function CleanSequence(p: Payload): string {
    Trim(if p.sequenceName == "" then DEFAULT_SEQUENCE else p.sequenceName)
  }

  lemma {:induction false} CallsAreSendable(events: seq<Event>, i: nat)
    requires i < |Run(Empty, events).calls|
    ensures Sendable(Run(Empty, events).calls[i].payload)
  {
    hide Run, Sendable, OneActivePerStep, Bound, Lockstep, CallsOwed, WorkersFaithful, MessagesEarned;
    EmptyIsFine();
    RunKeeps(Empty, events);
  }

  // Messages are recognised by their automation key, which trims the sequence name; Tasks are
  // deduplicated by the raw name. Two calls share a key exactly when both belong to the legacy lane
  // and the same step, under sequence names that differ only in what trimming (or the default) hides.
  lemma {:induction false} SharedKeyExactly(events: seq<Event>, i: nat, j: nat)
    requires i < j < |Run(Empty, events).calls|
    ensures var p, q := Run(Empty, events).calls[i].payload, Run(Empty, events).calls[j].payload;
            AutomationKey(p) == AutomationKey(q) <==>
              && p.deliveryId.None? && q.deliveryId.None?
              && p.leadId == q.leadId && p.operator == q.operator && p.stepIndex == q.stepIndex
              && p.sequenceName != q.sequenceName && CleanSequence(p) == CleanSequence(q)
  {
    hide Trim, Run, Inv;
    AtMostOneProviderCall(events);
    CallsAreSendable(events, i);
    CallsAreSendable(events, j);
  }

  // One Task on its way from its enqueueing to the provider.
  function SendEvents(w: nat, t: nat, p: Payload): seq<Event> {
    [Enqueued(p, false, 0)] + Submission(w, t, w)
  }

  const OnePayload := Payload(1, "al", "a", 0, None, None, None)
  const TwinPayload := OnePayload.(sequenceName := "a ")

  // Such a pair exists: the same step enqueued as "a" and as "a " is sent twice under one key.
  lemma TrimmedNamesSendTwice()
    ensures var s := Run(Empty, SendEvents(0, 0, OnePayload) + SendEvents(1, 1, TwinPayload));
            && |s.calls| == 2 && s.calls[0].taskId != s.calls[1].taskId
            && AutomationKey(s.calls[0].payload) == AutomationKey(s.calls[1].payload)
  {
    TrimFacts();
    SendsOnce(Empty, 0, OnePayload);
    var s1 := Run(Empty, SendEvents(0, 0, OnePayload));
    SendsOnce(s1, 1, TwinPayload);
    RunTwice(Empty, SendEvents(0, 0, OnePayload), SendEvents(1, 1, TwinPayload));
  }

  lemma TrimFacts()
    ensures Trim("al") == "al" && Trim("a") == "a" && Trim("a ") == "a"
  {
    assert TrimLeft("al") == "al" && TrimRight("al") == "al";
    assert TrimLeft("a") == "a" && TrimRight("a") == "a";
    assert "a "[..1] == "a" && TrimRight("a ") == TrimRight("a");
  }

  // A legacy step nobody has enqueued yet, and a free worker.
  ghost predicate Untouched(s: State, w: nat, p: Payload) {
    && w !in s.workers && s.nextTask !in s.tasks && s.messages == map[]
    && p.dealId.None? && p.deliveryId.None? && p.versionId.None? && Sendable(p) && p.operator != ""
    && (forall t | t in s.tasks :: !SameStep(s.tasks[t].payload, p))
  }

  lemma EnqueueStep(s: State, w: nat, p: Payload)
    requires Untouched(s, w, p)
    ensures Step(s, Enqueued(p, false, 0))
            == s.(nextTask := s.nextTask + 1, tasks := s.tasks[s.nextTask := Task(Pending, s.now, None, p, None)])
  {
    assert forall t :: t !in Matching(s.tasks, p, None, s.nextTask);
    hide AutomationKey, Trim, Matching;
  }

  lemma {:induction false} SendsOnce(s: State, w: nat, p: Payload)
    requires Untouched(s, w, p)
    ensures var s1 := Run(s, SendEvents(w, s.nextTask, p));
            && s1.nextTask == s.nextTask + 1 && s1.messages == s.messages && s1.workers.Keys == s.workers.Keys + {w}
            && s1.calls == s.calls + [Call(s.nextTask, p)]
            && s1.tasks.Keys == s.tasks.Keys + {s.nextTask} && s1.tasks[s.nextTask].payload == p
            && (forall t | t in s.tasks && t != s.nextTask :: s1.tasks[t] == s.tasks[t])
  {
    var s1 := Step(s, Enqueued(p, false, 0));
    EnqueueStep(s, w, p);
    hide Step, AutomationKey, Trim;
    assert Unsent(s1.messages, p, None);
    hide Unsent, Run;
    DueTaskIsSent(s1, w, s.nextTask, None, w);
    RunFirst(s, Enqueued(p, false, 0), Submission(w, s.nextTask, w));
  }
}
