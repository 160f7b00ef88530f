/**
 What each Gmail transaction does to the rows it finds, told without the functions that do it, and what that
 adds up to: a Task that may be sent is sent, and one that a dead worker left behind is taken up again.
 */
module GmailProgress {
  import opened Ordering
  import opened Outcomes
  import opened Text
  import opened GmailModel
  import opened GmailSafety

  // ------------------------------------------------------------------ the route

  // The payload belongs to the legacy lane (d is None), or to the one delivery it was frozen with: everything
  // that names the message agrees.
  predicate OnRoute(deals: map<int, Deal>, deliveries: map<int, Delivery>, p: Payload, t: Option<nat>, d: Option<int>) {
    if d.None? then
      && p.deliveryId.None? && p.versionId.None?
      && (p.dealId.Some? ==>
            p.dealId.value in deals && var deal := deals[p.dealId.value];
            deal.leadId == p.leadId && !deal.versionActive && deal.enrollment.None?)
    else
      && p.deliveryId == d && d.value > 0 && d.value in deliveries
      && p.versionId.Some? && p.versionId.value > 0
      && p.dealId.Some? && p.dealId.value in deals
      && var deal, row := deals[p.dealId.value], deliveries[d.value];
      && deal.leadId == p.leadId && deal.enrollment == Some(Enrollment(p.versionId.value, p.operator))
      && row.dealId == p.dealId.value && row.operator == p.operator && row.stepIndex == p.stepIndex && row.routeIntact
      && (t.Some? ==> row.taskId == t)
  }

  ghost predicate Routed(s: State, t: nat, d: Option<int>) {
    t in s.tasks && OnRoute(s.deals, s.deliveries, s.tasks[t].payload, Some(t), d)
  }

  // Validation accepts exactly the payloads on a route.
  lemma RouteExactly(deals: map<int, Deal>, deliveries: map<int, Delivery>, p: Payload, t: Option<nat>, d: Option<int>)
    ensures Route(deals, deliveries, p, t) == Ok(d) <==> OnRoute(deals, deliveries, p, t, d)
  {
  }

  // What a message can be recognised by: a lead, an operator, a step, and either both ids of a frozen delivery or none.
  predicate Identified(p: Payload) {
    && p.leadId > 0 && Trim(p.operator) != "" && p.stepIndex >= 0
    && (p.sequenceName != "" ==> Trim(p.sequenceName) != "")
    && (if p.deliveryId.Some? || p.versionId.Some? then p.deliveryId.Some? && p.versionId.Some? && p.deliveryId.value > 0 && p.versionId.value > 0
        else true)
  }

  // Every identified message has a key, made of its delivery and version, or else of its step under its sequence's
  // trimmed name, "gmail_fallback" when it has none.
  lemma KeyExactly(p: Payload)
    ensures AutomationKey(p).Some? <==> Identified(p)
    ensures Identified(p) && p.deliveryId.Some? ==> AutomationKey(p) == Some(DeliveryKey(p.deliveryId.value, p.versionId.value))
    ensures Identified(p) && p.deliveryId.None? ==>
              AutomationKey(p) == Some(StepKey(Trim(p.operator), p.leadId,
                                               if p.sequenceName == "" then "gmail_fallback" else Trim(p.sequenceName), p.stepIndex))
  {
    DefaultTrims();
    hide Trim;
  }

  lemma DefaultTrims()
    ensures Trim("gmail_fallback") == "gmail_fallback"
  {
  }

  // --------------------------------------------------------------- rows, old and new

  // Nothing but Task `t` and delivery `d` may differ.
  ghost predicate OnlyRows(s: State, s1: State, t: nat, d: Option<int>) {
    && s1 == s.(tasks := s1.tasks, deliveries := s1.deliveries)
    && s1.tasks.Keys == s.tasks.Keys && (forall u | u in s.tasks && u != t :: s1.tasks[u] == s.tasks[u])
    && s1.deliveries.Keys == s.deliveries.Keys && (forall e | e in s.deliveries && d != Some(e) :: s1.deliveries[e] == s.deliveries[e])
  }

  // The Task is in the queue again, with the identity and the stamp it had.
  predicate QueuedAgain(before: Task, after: Task, at: int) {
    after == Task(Pending, at, None, before.payload, before.attemptedAt)
  }

  predicate GivenUp(before: Task, after: Task) {
    after == Task(Failed, before.scheduledAt, before.startedAt, before.payload, before.attemptedAt)
  }

  // The delivery, if there is one, differs at most in its status.
  ghost predicate NowMarked(s: State, s1: State, d: Option<int>, status: DeliveryStatus) {
    d.Some? ==> d.value in s.deliveries && d.value in s1.deliveries && s1.deliveries[d.value] == s.deliveries[d.value].(status := status)
  }

  predicate Is(s: State, d: Option<int>, status: DeliveryStatus) {
    d.Some? && d.value in s.deliveries && s.deliveries[d.value].status == status
  }

  predicate Barred(s: State, d: Option<int>) {
    Is(s, d, Stopped) || Is(s, d, Unclear)
  }

  // ----------------------------------------------------------------- recovery

  // The last worker may have submitted: its stamp is on the Task, or the delivery had left the queue.
  ghost predicate MaybeSubmitted(s: State, t: nat, d: Option<int>)
    requires t in s.tasks
  {
    Stamped(s.tasks[t]) || Is(s, d, Sending) || Is(s, d, Sent)
  }

  // Recovery of a running Task on route `d`: nothing is retried whose outcome is unknown, and nothing else is lost.
  ghost predicate RecoveredOn(s: State, s1: State, t: nat, d: Option<int>)
    requires t in s.tasks && t in s1.tasks
  {
    && (Barred(s, d) ==> GivenUp(s.tasks[t], s1.tasks[t]) && s1.deliveries == s.deliveries)
    && (!Barred(s, d) && !MaybeSubmitted(s, t, d) ==>
          QueuedAgain(s.tasks[t], s1.tasks[t], s.tasks[t].scheduledAt) && NowMarked(s, s1, d, Queued))
    && (!Barred(s, d) && MaybeSubmitted(s, t, d) && HasEvidence(s.messages, s.tasks[t].payload) ==>
          QueuedAgain(s.tasks[t], s1.tasks[t], s.now) && NowMarked(s, s1, d, Sent))
    && (!Barred(s, d) && MaybeSubmitted(s, t, d) && !HasEvidence(s.messages, s.tasks[t].payload) ==>
          GivenUp(s.tasks[t], s1.tasks[t])
          && if Is(s, d, Sent) then s1.deliveries == s.deliveries else NowMarked(s, s1, d, Unclear))
  }

  ghost predicate RecoveredAs(s: State, s1: State, t: nat, answer: bool) {
    if t !in s.tasks || s.tasks[t].status != Running then s1 == s && !answer
    else
      && answer && t in s1.tasks
      && (forall d | Routed(s, t, d) :: OnlyRows(s, s1, t, d) && RecoveredOn(s, s1, t, d))
      && ((forall d :: !Routed(s, t, d)) ==> OnlyRows(s, s1, t, None) && GivenUp(s.tasks[t], s1.tasks[t]))
  }

  // Nothing but the status of delivery `d`, if there is one.
  ghost predicate OnlyMarked(s: State, s1: State, d: Option<int>, status: DeliveryStatus) {
    && s1 == s.(deliveries := s1.deliveries) && s1.deliveries.Keys == s.deliveries.Keys
    && (forall e | e in s.deliveries && d != Some(e) :: s1.deliveries[e] == s.deliveries[e])
    && NowMarked(s, s1, d, status)
  }

  lemma MarkRow(s: State, d: Option<int>, status: DeliveryStatus)
    requires d.Some? ==> d.value in s.deliveries && (Absorbing(s.deliveries[d.value].status) ==> s.deliveries[d.value].status == status)
    requires d.Some? && status == Sending ==> s.deliveries[d.value].scheduledAt <= s.now
    ensures MarkIfBound(s, d, status).Ok? && OnlyMarked(s, MarkIfBound(s, d, status).value, d, status)
  {
  }

  // A delivery that was sent, stopped or is unclear stays so, none is sent before its time, and every other move is made.
  lemma MarkTable(s: State, d: int, status: DeliveryStatus)
    requires d in s.deliveries
    ensures var row := s.deliveries[d];
            Mark(s, d, status).Raised? <==>
              || ((row.status == Sent || row.status == Unclear || row.status == Stopped) && row.status != status)
              || (status == Sending && s.now < row.scheduledAt)
    ensures Mark(s, d, status).Ok? ==> Mark(s, d, status).value == s.(deliveries := s.deliveries[d := s.deliveries[d].(status := status)])
  {
  }

  // Binding is refused for an unclear or stopped delivery, only links a sent one, and otherwise queues it, both rows
  // due at the later of their times.
  lemma BindTable(s: State, d: int, t: nat)
    requires d in s.deliveries && t in s.tasks
    ensures var row, r := s.deliveries[d], Bind(s, d, t);
            var due := if s.tasks[t].scheduledAt >= row.scheduledAt then s.tasks[t].scheduledAt else row.scheduledAt;
            && (r.Raised? <==> row.status == Unclear || row.status == Stopped)
            && (row.status == Sent ==> r == Ok(s.(deliveries := s.deliveries[d := row.(taskId := Some(t))])))
            && (r.Ok? && row.status != Sent ==>
                  r.value == s.(tasks := s.tasks[t := s.tasks[t].(scheduledAt := due)],
                                deliveries := s.deliveries[d := row.(taskId := Some(t), status := Queued, scheduledAt := due)]))
  {
  }

  lemma MarkedThenQueued(s: State, s1: State, t: nat, d: Option<int>, status: DeliveryStatus, at: int)
    requires t in s.tasks && OnlyMarked(s, s1, d, status)
    ensures var s2 := Requeue(s1, t, at);
            t in s2.tasks && OnlyRows(s, s2, t, d) && QueuedAgain(s.tasks[t], s2.tasks[t], at) && NowMarked(s, s2, d, status)
  {
  }

  lemma MarkedThenFailed(s: State, s1: State, t: nat, d: Option<int>, status: DeliveryStatus)
    requires t in s.tasks && OnlyMarked(s, s1, d, status)
    ensures var s2 := Fail(s1, t);
            t in s2.tasks && OnlyRows(s, s2, t, d) && GivenUp(s.tasks[t], s2.tasks[t]) && NowMarked(s, s2, d, status)
  {
  }

  lemma OnlyFailed(s: State, t: nat, d: Option<int>)
    requires t in s.tasks
    ensures var s2 := Fail(s, t); t in s2.tasks && OnlyRows(s, s2, t, d) && GivenUp(s.tasks[t], s2.tasks[t]) && s2.deliveries == s.deliveries
  {
  }

  lemma RecoverOffRoute(s: State, t: nat)
    requires t in s.tasks && s.tasks[t].status == Running && Route(s.deals, s.deliveries, s.tasks[t].payload, Some(t)).Raised?
    ensures Recover(s, t).Ok? && Recover(s, t).value.1
    ensures var s1 := Recover(s, t).value.0; OnlyRows(s, s1, t, None) && t in s1.tasks && GivenUp(s.tasks[t], s1.tasks[t])
  {
    hide Route, HasEvidence;
  }

  lemma RecoverBarred(s: State, t: nat, d: Option<int>)
    requires t in s.tasks && s.tasks[t].status == Running && Route(s.deals, s.deliveries, s.tasks[t].payload, Some(t)) == Ok(d)
    requires (d.Some? ==> d.value in s.deliveries) && Barred(s, d)
    ensures Recover(s, t) == Ok((Fail(s, t), true))
  {
    hide Route, HasEvidence, MarkIfBound;
  }

  lemma RecoverUnsent(s: State, t: nat, d: Option<int>)
    requires t in s.tasks && s.tasks[t].status == Running && Route(s.deals, s.deliveries, s.tasks[t].payload, Some(t)) == Ok(d)
    requires (d.Some? ==> d.value in s.deliveries) && !Barred(s, d) && !MaybeSubmitted(s, t, d) && MarkIfBound(s, d, Queued).Ok?
    ensures Recover(s, t) == Ok((Requeue(MarkIfBound(s, d, Queued).value, t, s.tasks[t].scheduledAt), true))
  {
    hide Route, HasEvidence, MarkIfBound;
  }

  lemma RecoverSubmitted(s: State, t: nat, d: Option<int>)
    requires t in s.tasks && s.tasks[t].status == Running && Route(s.deals, s.deliveries, s.tasks[t].payload, Some(t)) == Ok(d)
    requires (d.Some? ==> d.value in s.deliveries) && !Barred(s, d) && MaybeSubmitted(s, t, d)
    requires MarkIfBound(s, d, Sent).Ok? && (Is(s, d, Sent) || MarkIfBound(s, d, Unclear).Ok?)
    ensures Recover(s, t) ==
            if HasEvidence(s.messages, s.tasks[t].payload) then Ok((Requeue(MarkIfBound(s, d, Sent).value, t, s.now), true))
            else if Is(s, d, Sent) then Ok((Fail(s, t), true))
            else Ok((Fail(MarkIfBound(s, d, Unclear).value, t), true))
  {
    hide Route, HasEvidence, MarkIfBound;
  }

  lemma RecoverOnRoute(s: State, t: nat, d: Option<int>)
    requires t in s.tasks && s.tasks[t].status == Running && Route(s.deals, s.deliveries, s.tasks[t].payload, Some(t)) == Ok(d)
    requires d.Some? ==> d.value in s.deliveries
    ensures Recover(s, t).Ok? && Recover(s, t).value.1
    ensures var s1 := Recover(s, t).value.0; OnlyRows(s, s1, t, d) && t in s1.tasks && RecoveredOn(s, s1, t, d)
  {
    hide Route, HasEvidence, Recover, MarkIfBound, OnlyMarked, OnlyRows, QueuedAgain, GivenUp, NowMarked, Requeue, Fail;
    if Barred(s, d) {
      RecoverBarred(s, t, d);
      OnlyFailed(s, t, d);
    } else if !MaybeSubmitted(s, t, d) {
      MarkRow(s, d, Queued);
      RecoverUnsent(s, t, d);
      MarkedThenQueued(s, MarkIfBound(s, d, Queued).value, t, d, Queued, s.tasks[t].scheduledAt);
    } else {
      MarkRow(s, d, Sent);
      MarkedThenQueued(s, MarkIfBound(s, d, Sent).value, t, d, Sent, s.now);
      if Is(s, d, Sent) {
        OnlyFailed(s, t, d);
      } else {
        MarkRow(s, d, Unclear);
        MarkedThenFailed(s, MarkIfBound(s, d, Unclear).value, t, d, Unclear);
      }
      RecoverSubmitted(s, t, d);
    }
  }

  // Recovery never raises, and does exactly that.
  lemma RecoveryTable(s: State, t: nat)
    ensures Recover(s, t).Ok? && RecoveredAs(s, Recover(s, t).value.0, t, Recover(s, t).value.1)
  {
    hide HasEvidence, Route, OnRoute, OnlyRows, RecoveredOn, GivenUp;
    if t in s.tasks && s.tasks[t].status == Running {
      var p := s.tasks[t].payload;
      var route := Route(s.deals, s.deliveries, p, Some(t));
      if route.Ok? {
        RouteFacts(s, p, Some(t));
        RecoverOnRoute(s, t, route.value);
      } else {
        RecoverOffRoute(s, t);
      }
      RoutesAre(s, t);
      hide Recover, Routed;
      assert route.Ok? ==> Routed(s, t, route.value);
    } else {
      hide Routed;
    }
  }

  lemma RoutesAre(s: State, t: nat)
    requires t in s.tasks
    ensures forall d :: Routed(s, t, d) <==> Route(s.deals, s.deliveries, s.tasks[t].payload, Some(t)) == Ok(d)
  {
    forall d
      ensures Routed(s, t, d) <==> Route(s.deals, s.deliveries, s.tasks[t].payload, Some(t)) == Ok(d)
    {
      RouteExactly(s.deals, s.deliveries, s.tasks[t].payload, Some(t), d);
    }
  }

  // ---------------------------------------------------------- the submission gate

  // The due time the sender's window allows is over.
  predicate Passed(now: int, due: int, window: Option<int>) {
    due <= now && (window.Some? ==> window.value <= now)
  }

  ghost predicate DuePassed(s: State, t: nat, d: Option<int>, window: Option<int>)
    requires t in s.tasks && (d.Some? ==> d.value in s.deliveries)
  {
    Passed(s.now, s.tasks[t].scheduledAt, window) && (d.Some? ==> Passed(s.now, s.deliveries[d.value].scheduledAt, window))
  }

  // A claim that may go on: the same message, running, never submitted, on its route, its delivery queued.
  ghost predicate MayGoOn(s: State, t: nat, snapshot: Payload, d: Option<int>) {
    && Routed(s, t, d) && SameClaim(s.tasks[t].payload, snapshot)
    && s.tasks[t].status == Running && !Stamped(s.tasks[t])
    && (d.Some? ==> s.deliveries[d.value].status == Queued)
  }

  // The answer True exactly for a claim that may go on and is due; it stamps the Task and moves the delivery to
  // sending. A claim that is early goes back to the queue, due no earlier than either of its due times, and no
  // answer is given for any other.
  ghost predicate StampedAs(s: State, r: Result<(State, bool)>, t: nat, snapshot: Payload, window: Option<int>) {
    && (r.Ok? <==> exists d :: MayGoOn(s, t, snapshot, d))
    && (forall d | MayGoOn(s, t, snapshot, d) ::
          if DuePassed(s, t, d, window) then
            && r.Ok? && r.value.1 && t in r.value.0.tasks && OnlyRows(s, r.value.0, t, d)
            && r.value.0.tasks[t] == s.tasks[t].(attemptedAt := Some(s.now)) && NowMarked(s, r.value.0, d, Sending)
          else
            && r.Ok? && !r.value.1 && t in r.value.0.tasks && OnlyRows(s, r.value.0, t, None)
            && Postponed(s, r.value.0, t, d, window))
  }

  ghost predicate Postponed(s: State, s1: State, t: nat, d: Option<int>, window: Option<int>)
    requires t in s.tasks && t in s1.tasks && (d.Some? ==> d.value in s.deliveries)
  {
    var at := s1.tasks[t].scheduledAt;
    && QueuedAgain(s.tasks[t], s1.tasks[t], at) && at > s.now
    && at >= s.tasks[t].scheduledAt && (d.Some? ==> at >= s.deliveries[d.value].scheduledAt) && (window.Some? ==> at >= window.value)
    && at in {s.tasks[t].scheduledAt, if d.Some? then s.deliveries[d.value].scheduledAt else at, if window.Some? then window.value else at}
  }

  lemma GateOffRoute(s: State, t: nat, snapshot: Payload, window: Option<int>)
    requires forall d :: !MayGoOn(s, t, snapshot, d)
    ensures DeferIfEarly(s, t, snapshot, window).Raised? && Stamp(s, t, snapshot, window).Raised?
  {
    if t in s.tasks && Route(s.deals, s.deliveries, s.tasks[t].payload, Some(t)).Ok? {
      var d := Route(s.deals, s.deliveries, s.tasks[t].payload, Some(t)).value;
      RoutesAre(s, t);
      RouteFacts(s, s.tasks[t].payload, Some(t));
      hide Route, AutomationKey;
      assert !MayGoOn(s, t, snapshot, d);
    }
  }

  lemma GateOnRoute(s: State, t: nat, snapshot: Payload, window: Option<int>, d: Option<int>)
    requires MayGoOn(s, t, snapshot, d)
    ensures Route(s.deals, s.deliveries, s.tasks[t].payload, Some(t)) == Ok(d) && (d.Some? ==> d.value in s.deliveries)
    ensures var r := DeferIfEarly(s, t, snapshot, window);
            && r.Ok? && r.value.1 == !DuePassed(s, t, d, window)
            && (!r.value.1 ==> r.value.0 == s)
            && (r.value.1 ==> t in r.value.0.tasks && OnlyRows(s, r.value.0, t, None) && Postponed(s, r.value.0, t, d, window))
  {
    RoutesAre(s, t);
    RouteFacts(s, s.tasks[t].payload, Some(t));
    hide Route, AutomationKey;
  }

  lemma StampOnRoute(s: State, t: nat, snapshot: Payload, window: Option<int>, d: Option<int>)
    requires MayGoOn(s, t, snapshot, d) && DuePassed(s, t, d, window)
    ensures var r := Stamp(s, t, snapshot, window);
            && r.Ok? && r.value.1 && t in r.value.0.tasks && OnlyRows(s, r.value.0, t, d)
            && r.value.0.tasks[t] == s.tasks[t].(attemptedAt := Some(s.now)) && NowMarked(s, r.value.0, d, Sending)
  {
    GateOnRoute(s, t, snapshot, window, d);
    hide DeferIfEarly, Route, AutomationKey;
    var s1 := SetTask(s, t, s.tasks[t].(attemptedAt := Some(s.now)));
    MarkRow(s1, d, Sending);
    hide MarkIfBound;
  }

  lemma StampTable(s: State, t: nat, snapshot: Payload, window: Option<int>)
    ensures StampedAs(s, Stamp(s, t, snapshot, window), t, snapshot, window)
  {
    if d :| MayGoOn(s, t, snapshot, d) {
      GateOnRoute(s, t, snapshot, window, d);
      if DuePassed(s, t, d, window) { StampOnRoute(s, t, snapshot, window, d); }
      RoutesAre(s, t);
      assert forall e | MayGoOn(s, t, snapshot, e) :: e == d;
      hide MayGoOn, DeferIfEarly, Route, OnlyRows, Postponed, DuePassed, NowMarked;
    } else {
      GateOffRoute(s, t, snapshot, window);
    }
  }

  // ------------------------------------------------------- after the provider call

  ghost predicate MayHeal(s: State, t: nat, d: Option<int>) {
    && Routed(s, t, d) && s.tasks[t].status == Running && Stamped(s.tasks[t]) && !Barred(s, d)
    && HasEvidence(s.messages, s.tasks[t].payload)
  }

  // A handler that broke after its message was persisted is given another turn, five minutes later.
  ghost predicate RescheduledAs(s: State, s1: State, t: nat, answer: bool) {
    && (answer <==> exists d :: MayHeal(s, t, d))
    && (!answer ==> s1 == s)
    && (forall d | MayHeal(s, t, d) ::
          && t in s1.tasks && OnlyRows(s, s1, t, d)
          && QueuedAgain(s.tasks[t], s1.tasks[t], s.now + 300) && NowMarked(s, s1, d, Sent))
  }

  lemma RescheduleTable(s: State, t: nat)
    ensures Reschedule(s, t).Ok? && RescheduledAs(s, Reschedule(s, t).value.0, t, Reschedule(s, t).value.1)
  {
    hide HasEvidence, Route, OnRoute, OnlyMarked, OnlyRows, QueuedAgain, NowMarked;
    if t in s.tasks && s.tasks[t].status == Running && Stamped(s.tasks[t]) {
      RoutesAre(s, t);
      var route := Route(s.deals, s.deliveries, s.tasks[t].payload, Some(t));
      if route.Ok? {
        RouteFacts(s, s.tasks[t].payload, Some(t));
        hide Routed;
        if MayHeal(s, t, route.value) {
          MarkRow(s, route.value, Sent);
          MarkedThenQueued(s, MarkIfBound(s, route.value, Sent).value, t, route.value, Sent, s.now + 300);
        }
        assert forall e | MayHeal(s, t, e) :: e == route.value;
        hide MarkIfBound, Requeue;
      }
    }
  }

  // What persisting leaves is the evidence that later recovery looks for.
  lemma PersistedIsEvidence(s: State, w: nat)
    requires w in s.workers && s.workers[w].stage.Accepted?
    requires var wk := s.workers[w]; AutomationKey(wk.payload).Some? && wk.delivery == wk.payload.deliveryId
    ensures var wk, s1 := s.workers[w], Persist(s, w);
            if s1.workers[w].stage.SentSeen? then HasEvidence(s1.messages, wk.payload) && HasSentStep(s1.messages, wk.payload, wk.delivery)
            else
              && s1 == SetStage(s, w, Excepted) && wk.stage.externalId in s.messages
              && var m := s.messages[wk.stage.externalId];
                 m.leadId != wk.payload.leadId || (m.key.Some? && m.key != AutomationKey(wk.payload))
  {
    var wk, s1 := s.workers[w], Persist(s, w);
    if s1.workers[w].stage.SentSeen? {
      var x := wk.stage.externalId;
      assert x in s1.messages;
      hide AutomationKey;
      assert s1.messages[x].leadId == wk.payload.leadId && s1.messages[x].key == AutomationKey(wk.payload);
      assert IsEvidence(s1.messages[x], wk.payload) && IsSentStep(s1.messages[x], wk.payload, wk.delivery);
    }
  }

  // ------------------------------------------------------------------ enqueueing

  // Task `u` stands for the message that `p` asks for: the Task bound to its delivery, or one for the legacy step.
  ghost predicate StandsFor(s: State, u: nat, p: Payload, d: Option<int>) {
    u in s.tasks
    && if d.None? then SameStep(s.tasks[u].payload, p) else d.value in s.deliveries && s.deliveries[d.value].taskId == Some(u)
  }

  ghost predicate Foreign(s: State, p: Payload, d: Option<int>) {
    d.Some? && exists u | StandsFor(s, u, p, d) :: s.tasks[u].payload.(sequenceName := p.sequenceName) != p
  }

  ghost predicate Fit(s: State, u: nat, p: Payload, d: Option<int>, live: bool) {
    StandsFor(s, u, p, d) && if live then Live(s.tasks[u]) else Stamped(s.tasks[u])
  }

  ghost predicate Oldest(s: State, t: nat, p: Payload, d: Option<int>, live: bool) {
    Fit(s, t, p, d, live) && forall u | Fit(s, u, p, d, live) :: t <= u
  }

  ghost predicate Free(s: State, p: Payload, d: Option<int>) {
    forall u :: !Fit(s, u, p, d, true) && !Fit(s, u, p, d, false)
  }

  // The Task and its delivery share one due time.
  ghost predicate BoundFor(s: State, s1: State, d: Option<int>, t: nat, due: int) {
    d.Some? ==> d.value in s.deliveries && d.value in s1.deliveries
                && s1.deliveries[d.value] == s.deliveries[d.value].(taskId := Some(t), status := Queued, scheduledAt := due)
  }

  // Enqueueing on an open route. A message that has a Task keeps it: it is returned while it is live, it is only
  // continued once it was submitted, it is due again if it failed before. Only a message without one gets a new Task.
  ghost predicate EnqueuedOn(s: State, s1: State, t: nat, p: Payload, delay: int, d: Option<int>) {
    && (forall u | Oldest(s, u, p, d, true) :: t == u && s1 == s)
    && ((forall u :: !Fit(s, u, p, d, true)) ==> forall u | Oldest(s, u, p, d, false) ::
          t == u && if s.tasks[u].status == Failed && HasEvidence(s.messages, s.tasks[u].payload) then
                      u in s1.tasks && OnlyRows(s, s1, u, d) && QueuedAgain(s.tasks[u], s1.tasks[u], s.now) && NowMarked(s, s1, d, Sent)
                    else s1 == s)
    && (Free(s, p, d) && d.Some? ==> forall u | StandsFor(s, u, p, d) ::
          t == u && d.value in s.deliveries
          && var due := Max(s.deliveries[d.value].scheduledAt, s.now);
             if s.tasks[u].status == Failed then
               u in s1.tasks && OnlyRows(s, s1, u, d) && QueuedAgain(s.tasks[u], s1.tasks[u], due) && BoundFor(s, s1, d, u, due)
             else s1 == s)
    && (Free(s, p, d) && (d.Some? ==> forall u :: !StandsFor(s, u, p, d)) ==>
          && t == s.nextTask && (d.Some? ==> d.value in s.deliveries)
          && var due := if d.Some? then s.deliveries[d.value].scheduledAt else s.now + Max(delay, 0);
             && s1 == s.(nextTask := s.nextTask + 1, tasks := s.tasks[t := Task(Pending, due, None, p, None)], deliveries := s1.deliveries)
             && OnlyRows(s, s1.(nextTask := s.nextTask, tasks := s.tasks), t, d) && BoundFor(s, s1, d, t, due))
  }

  ghost predicate EnqueuedAs(s: State, r: Result<(State, Option<nat>)>, p: Payload, held: bool, delay: int) {
    if p.operator == "" then r.Raised?
    else if held then r == Ok((s, None))
    else
      && ((forall d :: !OnRoute(s.deals, s.deliveries, p, None, d)) ==> r.Raised?)
      && (forall d | OnRoute(s.deals, s.deliveries, p, None, d) ::
            if Barred(s, d) then r == Ok((s, None))
            else if Foreign(s, p, d) then r.Raised?
            else r.Ok? && r.value.1.Some? && EnqueuedOn(s, r.value.0, r.value.1.value, p, delay, d))
  }

  lemma AscendsGrows(xs: seq<int>, x: int)
    requires Ascends(xs) && forall y | y in xs :: y < x
    ensures Ascends(xs + [x])
  {
    assert forall i | 0 <= i < |xs| :: xs[i] in xs;
  }

  lemma {:induction false} MatchingAscends(tasks: map<nat, Task>, p: Payload, d: Option<int>, n: nat)
    ensures Ascends(Matching(tasks, p, d, n))
  {
    if n > 0 {
      var before := Matching(tasks, p, d, n - 1);
      MatchingAscends(tasks, p, d, n - 1);
      AscendsGrows(before, n - 1);
      hide Ascends, SameStep;
      assert before + [] == before;
    }
  }

  lemma {:induction false} ScanLiveFirst(s: State, cs: seq<nat>, p: Payload, d: Option<int>)
    requires d.None? && Ascends(cs)
    ensures var r := ScanLive(s, cs, p, d);
            && r.Ok?
            && (r.value.Some? ==> r.value.value in cs && r.value.value in s.tasks && Live(s.tasks[r.value.value])
                                  && forall u | u in cs && u in s.tasks && Live(s.tasks[u]) :: r.value.value <= u)
  {
    if cs != [] {
      ScanLiveFirst(s, cs[1..], p, d);
      assert cs == [cs[0]] + cs[1..];
    }
  }

  lemma {:induction false} ScanStampedFirst(s: State, cs: seq<nat>)
    requires Ascends(cs)
    ensures var r := ScanStamped(s, cs);
            r.Some? ==> forall u | u in cs && u in s.tasks && Stamped(s.tasks[u]) :: r.value <= u
  {
    if cs != [] {
      ScanStampedFirst(s, cs[1..]);
      assert cs == [cs[0]] + cs[1..];
    }
  }

  lemma SomeIn(xs: seq<nat>)
    ensures xs != [] ==> exists x :: x in xs
  {
    if xs != [] { assert xs[0] in xs; }
  }

  lemma BoundBack(s: State, d: int)
    requires Bound(s.nextTask, s.tasks, s.deliveries) && d in s.deliveries && s.deliveries[d].taskId.Some?
    ensures s.deliveries[d].taskId.value in s.tasks
  {
  }

  // The candidates are the Tasks that stand for the message, oldest first.
  lemma CandidatesStand(s: State, p: Payload, d: Option<int>)
    requires Inv(s) && (d.Some? ==> d.value in s.deliveries)
    ensures var cs := Candidates(s, p, d);
            && (forall u :: u in cs <==> StandsFor(s, u, p, d))
            && Ascends(cs)
            && (d.Some? ==> |cs| <= 1)
  {
    assert Bound(s.nextTask, s.tasks, s.deliveries);
    hide Inv;
    var found := Matching(s.tasks, p, d, s.nextTask);
    MatchingAscends(s.tasks, p, d, s.nextTask);
    if d.None? {
      assert Candidates(s, p, d) == found;
    } else if s.deliveries[d.value].taskId.Some? {
      BoundBack(s, d.value);
      assert Candidates(s, p, d) == [s.deliveries[d.value].taskId.value];
    } else {
      assert forall u | u in s.tasks :: s.tasks[u].payload.deliveryId != d;
      assert forall u :: u !in found;
      SomeIn(found);
    }
  }

  lemma ForeignCandidate(s: State, c: nat, p: Payload, d: Option<int>)
    requires Inv(s) && d.Some? && OnRoute(s.deals, s.deliveries, p, None, d)
    requires c in s.tasks && s.deliveries[d.value].taskId == Some(c)
    ensures CandidateBound(s, c, p, d) <==> s.tasks[c].payload.(sequenceName := p.sequenceName) == p
  {
    assert s.tasks[c].payload.deliveryId == d by { BoundBack(s, d.value); assert Bound(s.nextTask, s.tasks, s.deliveries); hide Inv; }
    hide Inv;
    var q := s.tasks[c].payload;
    var p1 := p.(deliveryId := q.deliveryId, versionId := q.versionId);
    RouteExactly(s.deals, s.deliveries, p1, Some(c), d);
    if Route(s.deals, s.deliveries, p1, Some(c)).Ok? { RouteFacts(s, p1, Some(c)); }
    hide Route;
  }

  // The scan of the candidates raises exactly when the delivery's Task is another message's, and otherwise finds
  // the oldest live one.
  lemma ScanTable(s: State, p: Payload, d: Option<int>)
    requires Inv(s) && OnRoute(s.deals, s.deliveries, p, None, d) && (d.Some? ==> d.value in s.deliveries)
    ensures var r := ScanLive(s, Candidates(s, p, d), p, d);
            && (r.Raised? <==> Foreign(s, p, d))
            && (r.Ok? && r.value.Some? ==> Oldest(s, r.value.value, p, d, true))
            && (r.Ok? && r.value.None? ==> forall u :: !Fit(s, u, p, d, true))
  {
    CandidatesStand(s, p, d);
    var cs := Candidates(s, p, d);
    if d.Some? && cs != [] {
      assert cs[0] in cs && StandsFor(s, cs[0], p, d);
      ForeignCandidate(s, cs[0], p, d);
    }
    hide OnRoute, Candidates, CandidateBound, Inv;
    if d.None? {
      ScanLiveFirst(s, cs, p, d);
    } else if cs != [] {
      assert cs == [cs[0]] && cs[1..] == [];
    }
  }

  lemma StampedTable(s: State, p: Payload, d: Option<int>)
    requires Inv(s) && (d.Some? ==> d.value in s.deliveries)
    ensures var r := ScanStamped(s, Candidates(s, p, d));
            if r.Some? then Oldest(s, r.value, p, d, false) else forall u :: !Fit(s, u, p, d, false)
  {
    CandidatesStand(s, p, d);
    ScanStampedFirst(s, Candidates(s, p, d));
  }

  // ------------- the three writes of enqueueing

  lemma ReviveRows(s: State, c: nat, d: Option<int>)
    requires c in s.tasks && (d.Some? ==> d.value in s.deliveries) && !Barred(s, d)
    ensures ReviveStamped(s, c, d).Ok?
    ensures var s1 := ReviveStamped(s, c, d).value;
            if s.tasks[c].status == Failed && HasEvidence(s.messages, s.tasks[c].payload) then
              c in s1.tasks && OnlyRows(s, s1, c, d) && QueuedAgain(s.tasks[c], s1.tasks[c], s.now) && NowMarked(s, s1, d, Sent)
            else s1 == s
  {
    hide HasEvidence;
    if s.tasks[c].status == Failed && HasEvidence(s.messages, s.tasks[c].payload) {
      MarkRow(Requeue(s, c, s.now), d, Sent);
    }
    hide MarkIfBound;
  }

  lemma RebindRows(s: State, c: nat, d: int)
    requires c in s.tasks && d in s.deliveries && !Barred(s, Some(d)) && s.deliveries[d].status != Sent
    ensures var due := Max(s.deliveries[d].scheduledAt, s.now);
            var r := Bind(Requeue(s, c, due), d, c);
            && r.Ok? && c in r.value.tasks && OnlyRows(s, r.value, c, Some(d))
            && QueuedAgain(s.tasks[c], r.value.tasks[c], due) && BoundFor(s, r.value, Some(d), c, due)
  {
  }

  lemma CreateRows(s: State, p: Payload, d: Option<int>, due: int)
    requires s.nextTask !in s.tasks
    requires d.Some? ==> d.value in s.deliveries && !Barred(s, d) && s.deliveries[d.value].status != Sent && due == s.deliveries[d.value].scheduledAt
    ensures var r := CreateTask(s, p, d, due);
            && r.Ok?
            && r.value == s.(nextTask := s.nextTask + 1, tasks := s.tasks[s.nextTask := Task(Pending, due, None, p, None)], deliveries := r.value.deliveries)
            && OnlyRows(s, r.value.(nextTask := s.nextTask, tasks := s.tasks), s.nextTask, d) && BoundFor(s, r.value, d, s.nextTask, due)
  {
  }

  // A delivery that was sent has a stamped Task.
  lemma SentIsStamped(s: State, p: Payload, d: Option<int>)
    requires Inv(s) && d.Some? && d.value in s.deliveries && s.deliveries[d.value].status == Sent
    ensures !Free(s, p, d)
  {
    DeliveryStory(s, d.value);
    assert BoundStamped(s.tasks, s.deliveries, d.value);
    assert Fit(s, s.deliveries[d.value].taskId.value, p, d, false);
  }

  // What is found decides what is done.
  lemma EnqueueChooses(s: State, p: Payload, delay: int, d: Option<int>)
    requires p.operator != "" && Route(s.deals, s.deliveries, p, None) == Ok(d) && (d.Some? ==> d.value in s.deliveries) && !Barred(s, d)
    ensures var cs := Candidates(s, p, d);
            var live, stamped := ScanLive(s, cs, p, d), ScanStamped(s, cs);
            var r := Enqueue(s, p, false, delay);
            if live.Raised? then r.Raised?
            else if live.value.Some? then r == Ok((s, live.value))
            else if stamped.Some? then
              var s1 := ReviveStamped(s, stamped.value, d); if s1.Raised? then r.Raised? else r == Ok((s1.value, stamped))
            else if d.Some? && cs != [] then
              cs[0] in s.tasks
              && if s.tasks[cs[0]].status == Failed then
                   var s1 := Bind(Requeue(s, cs[0], Max(s.deliveries[d.value].scheduledAt, s.now)), d.value, cs[0]);
                   if s1.Raised? then r.Raised? else r == Ok((s1.value, Some(cs[0])))
                 else r == Ok((s, Some(cs[0])))
            else
              var s1 := CreateTask(s, p, d, if d.Some? then s.deliveries[d.value].scheduledAt else s.now + Max(delay, 0));
              if s1.Raised? then r.Raised? else r == Ok((s1.value, Some(s.nextTask)))
  {
    hide Route, AutomationKey, Candidates, ReviveStamped, CreateTask, Bind, ScanLive, ScanStamped;
  }

  // The four ways to answer on an open route.
  lemma OpenScans(s: State, p: Payload, delay: int, d: Option<int>)
    requires Inv(s) && p.operator != "" && OnRoute(s.deals, s.deliveries, p, None, d) && !Barred(s, d)
    requires var live := ScanLive(s, Candidates(s, p, d), p, d); live.Raised? || live.value.Some?
    ensures var r := Enqueue(s, p, false, delay);
            if Foreign(s, p, d) then r.Raised?
            else r.Ok? && r.value.1.Some? && EnqueuedOn(s, r.value.0, r.value.1.value, p, delay, d)
  {
    assert d.Some? ==> d.value in s.deliveries by { hide Inv; }
    hide Inv, OnRoute, Route, Enqueue, Candidates, ScanLive, ScanStamped, Foreign, EnqueuedOn, ReviveStamped, CreateTask, Bind, Requeue;
    RouteExactly(s.deals, s.deliveries, p, None, d);
    EnqueueChooses(s, p, delay, d);
    ScanTable(s, p, d);
    var live := ScanLive(s, Candidates(s, p, d), p, d);
    if live.Ok? { EnqueuedLive(s, live.value.value, p, delay, d); }
  }

  lemma OpenRevives(s: State, p: Payload, delay: int, d: Option<int>)
    requires Inv(s) && p.operator != "" && OnRoute(s.deals, s.deliveries, p, None, d) && !Barred(s, d)
    requires ScanLive(s, Candidates(s, p, d), p, d) == Ok(None) && ScanStamped(s, Candidates(s, p, d)).Some?
    ensures var r := Enqueue(s, p, false, delay);
            !Foreign(s, p, d) && r.Ok? && r.value.1.Some? && EnqueuedOn(s, r.value.0, r.value.1.value, p, delay, d)
  {
    assert d.Some? ==> d.value in s.deliveries by { hide Inv; }
    hide Inv, OnRoute, Route, Enqueue, Candidates, ScanLive, ScanStamped, Foreign, EnqueuedOn, ReviveStamped, CreateTask, Bind, Requeue;
    hide HasEvidence, OnlyRows, QueuedAgain, NowMarked, Fit;
    RouteExactly(s.deals, s.deliveries, p, None, d);
    EnqueueChooses(s, p, delay, d);
    ScanTable(s, p, d);
    StampedTable(s, p, d);
    var c := ScanStamped(s, Candidates(s, p, d)).value;
    assert c in s.tasks by { CandidatesStand(s, p, d); }
    ReviveRows(s, c, d);
    EnqueuedStamped(s, ReviveStamped(s, c, d).value, c, p, delay, d);
  }

  lemma OpenRebinds(s: State, p: Payload, delay: int, d: Option<int>)
    requires Inv(s) && p.operator != "" && OnRoute(s.deals, s.deliveries, p, None, d) && !Barred(s, d)
    requires ScanLive(s, Candidates(s, p, d), p, d) == Ok(None) && ScanStamped(s, Candidates(s, p, d)).None?
    requires d.Some? && Candidates(s, p, d) != []
    ensures var r := Enqueue(s, p, false, delay);
            !Foreign(s, p, d) && r.Ok? && r.value.1.Some? && EnqueuedOn(s, r.value.0, r.value.1.value, p, delay, d)
  {
    assert d.value in s.deliveries by { hide Inv; }
    hide Inv, OnRoute, Route, Enqueue, Candidates, ScanLive, ScanStamped, Foreign, EnqueuedOn, ReviveStamped, CreateTask, Bind, Requeue;
    hide HasEvidence, OnlyRows, QueuedAgain, NowMarked, BoundFor, Fit;
    RouteExactly(s.deals, s.deliveries, p, None, d);
    EnqueueChooses(s, p, delay, d);
    ScanTable(s, p, d);
    StampedTable(s, p, d);
    CandidatesStand(s, p, d);
    var c := Candidates(s, p, d)[0];
    assert c in Candidates(s, p, d) && Free(s, p, d);
    if s.deliveries[d.value].status == Sent { SentIsStamped(s, p, d); }
    RebindRows(s, c, d.value);
    EnqueuedBound(s, Enqueue(s, p, false, delay).value.0, c, p, delay, d);
  }

  lemma OpenCreates(s: State, p: Payload, delay: int, d: Option<int>)
    requires Inv(s) && p.operator != "" && OnRoute(s.deals, s.deliveries, p, None, d) && !Barred(s, d)
    requires ScanLive(s, Candidates(s, p, d), p, d) == Ok(None) && ScanStamped(s, Candidates(s, p, d)).None?
    requires d.None? || Candidates(s, p, d) == []
    ensures var r := Enqueue(s, p, false, delay);
            !Foreign(s, p, d) && r.Ok? && r.value.1.Some? && EnqueuedOn(s, r.value.0, r.value.1.value, p, delay, d)
  {
    assert s.nextTask !in s.tasks by { hide OnRoute; }
    assert d.Some? ==> d.value in s.deliveries by { hide Inv; }
    hide Inv, OnRoute, Route, Enqueue, Candidates, ScanLive, ScanStamped, Foreign, EnqueuedOn, ReviveStamped, CreateTask, Bind, Requeue;
    hide OnlyRows, BoundFor, Fit;
    RouteExactly(s.deals, s.deliveries, p, None, d);
    EnqueueChooses(s, p, delay, d);
    ScanTable(s, p, d);
    StampedTable(s, p, d);
    CandidatesStand(s, p, d);
    assert Free(s, p, d);
    if d.Some? && s.deliveries[d.value].status == Sent { SentIsStamped(s, p, d); }
    var due := if d.Some? then s.deliveries[d.value].scheduledAt else s.now + Max(delay, 0);
    CreateRows(s, p, d, due);
    assert d.Some? ==> forall u :: !StandsFor(s, u, p, d);
    EnqueuedNew(s, CreateTask(s, p, d, due).value, p, delay, d);
  }

  lemma EnqueueOpen(s: State, p: Payload, delay: int, d: Option<int>)
    requires Inv(s) && p.operator != "" && OnRoute(s.deals, s.deliveries, p, None, d) && !Barred(s, d)
    ensures var r := Enqueue(s, p, false, delay);
            if Foreign(s, p, d) then r.Raised?
            else r.Ok? && r.value.1.Some? && EnqueuedOn(s, r.value.0, r.value.1.value, p, delay, d)
  {
    assert d.Some? ==> d.value in s.deliveries by { hide Inv; }
    hide Inv, OnRoute, Route, Enqueue, Candidates, ScanLive, ScanStamped, Foreign, EnqueuedOn;
    var cs := Candidates(s, p, d);
    var live, stamped := ScanLive(s, cs, p, d), ScanStamped(s, cs);
    if live.Raised? || live.value.Some? {
      OpenScans(s, p, delay, d);
    } else if stamped.Some? {
      OpenRevives(s, p, delay, d);
    } else if d.Some? && cs != [] {
      OpenRebinds(s, p, delay, d);
    } else {
      OpenCreates(s, p, delay, d);
    }
  }

  lemma EnqueuedLive(s: State, t: nat, p: Payload, delay: int, d: Option<int>)
    requires Oldest(s, t, p, d, true)
    ensures EnqueuedOn(s, s, t, p, delay, d)
  {
    assert !Free(s, p, d);
  }

  lemma EnqueuedStamped(s: State, s1: State, t: nat, p: Payload, delay: int, d: Option<int>)
    requires (forall u :: !Fit(s, u, p, d, true)) && Oldest(s, t, p, d, false)
    requires if s.tasks[t].status == Failed && HasEvidence(s.messages, s.tasks[t].payload) then
               t in s1.tasks && OnlyRows(s, s1, t, d) && QueuedAgain(s.tasks[t], s1.tasks[t], s.now) && NowMarked(s, s1, d, Sent)
             else s1 == s
    ensures EnqueuedOn(s, s1, t, p, delay, d)
  {
    hide HasEvidence, OnlyRows, QueuedAgain, NowMarked, StandsFor;
    assert !Free(s, p, d);
    assert forall u | Oldest(s, u, p, d, false) :: u == t;
  }

  lemma EnqueuedBound(s: State, s1: State, t: nat, p: Payload, delay: int, d: Option<int>)
    requires Free(s, p, d) && d.Some? && d.value in s.deliveries && StandsFor(s, t, p, d)
    requires var due := Max(s.deliveries[d.value].scheduledAt, s.now);
             if s.tasks[t].status == Failed then
               t in s1.tasks && OnlyRows(s, s1, t, d) && QueuedAgain(s.tasks[t], s1.tasks[t], due) && BoundFor(s, s1, d, t, due)
             else s1 == s
    ensures EnqueuedOn(s, s1, t, p, delay, d)
  {
    assert forall u | StandsFor(s, u, p, d) :: u == t;
    hide OnlyRows, QueuedAgain, BoundFor;
  }

  lemma EnqueuedNew(s: State, s1: State, p: Payload, delay: int, d: Option<int>)
    requires Free(s, p, d) && (d.Some? ==> d.value in s.deliveries && forall u :: !StandsFor(s, u, p, d))
    requires var due := if d.Some? then s.deliveries[d.value].scheduledAt else s.now + Max(delay, 0);
             && s1 == s.(nextTask := s.nextTask + 1, tasks := s.tasks[s.nextTask := Task(Pending, due, None, p, None)], deliveries := s1.deliveries)
             && OnlyRows(s, s1.(nextTask := s.nextTask, tasks := s.tasks), s.nextTask, d) && BoundFor(s, s1, d, s.nextTask, due)
    ensures EnqueuedOn(s, s1, s.nextTask, p, delay, d)
  {
    hide OnlyRows, BoundFor, StandsFor;
  }

  lemma EnqueueTable(s: State, p: Payload, held: bool, delay: int)
    requires Inv(s)
    ensures EnqueuedAs(s, Enqueue(s, p, held, delay), p, held, delay)
  {
    if p.operator != "" && !held {
      forall d | OnRoute(s.deals, s.deliveries, p, None, d)
        ensures Route(s.deals, s.deliveries, p, None) == Ok(d)
      {
        RouteExactly(s.deals, s.deliveries, p, None, d);
      }
      var route := Route(s.deals, s.deliveries, p, None);
      if route.Ok? {
        RouteFacts(s, p, None);
        RouteExactly(s.deals, s.deliveries, p, None, route.value);
        if !Barred(s, route.value) { EnqueueOpen(s, p, delay, route.value); }
      }
    }
    hide Inv, OnRoute, Route, EnqueuedOn, Candidates, ScanLive, ScanStamped, ReviveStamped, CreateTask, Bind;
  }

  // ------------------------------------------------------- a worker left in peace

  // No Message of this lead carries the frozen delivery or, for a legacy step, its key.
  ghost predicate Unsent(messages: map<nat, Message>, p: Payload, d: Option<int>) {
    forall x | x in messages && messages[x].leadId == p.leadId ::
      if d.Some? then messages[x].deliveryId != d || messages[x].versionId != p.versionId else messages[x].key != AutomationKey(p)
  }

  lemma UnsentExactly(messages: map<nat, Message>, p: Payload, d: Option<int>)
    requires AutomationKey(p).Some?
    ensures Unsent(messages, p, d) <==> !HasSentStep(messages, p, d)
  {
    hide AutomationKey;
    if HasSentStep(messages, p, d) {
      var x :| x in messages && IsSentStep(messages[x], p, d);
    }
  }

  // A free worker, and a Task that nothing keeps from being sent.
  ghost predicate Sends(s: State, w: nat, t: nat, d: Option<int>) {
    && w !in s.workers && Routed(s, t, d)
    && s.tasks[t].status == Pending && !Stamped(s.tasks[t]) && Sendable(s.tasks[t].payload)
    && DuePassed(s, t, d, None) && (d.Some? ==> s.deliveries[d.value].status == Queued)
    && Unsent(s.messages, s.tasks[t].payload, d)
  }

  // The worker has brought the Task to `stage`.
  ghost function Held(s: State, w: nat, t: nat, d: Option<int>, attemptedAt: Option<int>, stage: Stage): State
    requires t in s.tasks
  {
    s.(tasks := s.tasks[t := s.tasks[t].(status := Running, startedAt := Some(s.now), attemptedAt := attemptedAt)],
       workers := s.workers[w := Worker(t, s.tasks[t].payload, Stamped(s.tasks[t]), d, stage)])
  }

  ghost function WithStatus(s: State, d: Option<int>, status: DeliveryStatus): State {
    if d.Some? && d.value in s.deliveries then SetDelivery(s, d.value, s.deliveries[d.value].(status := status)) else s
  }

  // ----- one step of a worker, by the stage it is in

  lemma AtPicked(s: State, w: nat, window: Option<int>, answer: Option<nat>)
    requires w in s.workers && s.workers[w].stage.Picked?
    ensures Step(s, Stepped(w, window, answer)) == Claim(s, w)
  {
    hide Claim, Prelude, Gate, Permit, Submit, Execute, Persist, MarkOwnSent, Heal, Overwrite, Refresh;
  }

  lemma AtClaimed(s: State, w: nat, window: Option<int>, answer: Option<nat>)
    requires w in s.workers && s.workers[w].stage.Claimed?
    ensures Step(s, Stepped(w, window, answer)) == Prelude(s, w)
  {
    hide Claim, Prelude, Gate, Permit, Submit, Execute, Persist, MarkOwnSent, Heal, Overwrite, Refresh;
  }

  lemma AtReady(s: State, w: nat, window: Option<int>, answer: Option<nat>)
    requires w in s.workers && s.workers[w].stage.Ready?
    ensures Step(s, Stepped(w, window, answer)) == Gate(s, w, window)
  {
    hide Claim, Prelude, Gate, Permit, Submit, Execute, Persist, MarkOwnSent, Heal, Overwrite, Refresh;
  }

  lemma AtGated(s: State, w: nat, window: Option<int>, answer: Option<nat>)
    requires w in s.workers && s.workers[w].stage.Gated?
    ensures Step(s, Stepped(w, window, answer)) == Permit(s, w)
  {
    hide Claim, Prelude, Gate, Permit, Submit, Execute, Persist, MarkOwnSent, Heal, Overwrite, Refresh;
  }

  lemma AtPermitted(s: State, w: nat, window: Option<int>, answer: Option<nat>)
    requires w in s.workers && s.workers[w].stage.Permitted?
    ensures Step(s, Stepped(w, window, answer)) == SetStage(s, w, Consumed)
  {
    hide Claim, Prelude, Gate, Permit, Submit, Execute, Persist, MarkOwnSent, Heal, Overwrite, Refresh;
  }

  lemma AtConsumed(s: State, w: nat, window: Option<int>, answer: Option<nat>)
    requires w in s.workers && s.workers[w].stage.Consumed?
    ensures Step(s, Stepped(w, window, answer)) == Submit(s, w, window)
  {
    hide Claim, Prelude, Gate, Permit, Submit, Execute, Persist, MarkOwnSent, Heal, Overwrite, Refresh;
  }

  lemma AtSubmitting(s: State, w: nat, window: Option<int>, answer: Option<nat>)
    requires w in s.workers && s.workers[w].stage.Submitting?
    ensures Step(s, Stepped(w, window, answer)) == Execute(s, w, answer)
  {
    hide Claim, Prelude, Gate, Permit, Submit, Execute, Persist, MarkOwnSent, Heal, Overwrite, Refresh;
  }

  lemma AtAccepted(s: State, w: nat, window: Option<int>, answer: Option<nat>)
    requires w in s.workers && s.workers[w].stage.Accepted?
    ensures Step(s, Stepped(w, window, answer)) == Persist(s, w)
  {
    hide Claim, Prelude, Gate, Permit, Submit, Execute, Persist, MarkOwnSent, Heal, Overwrite, Refresh;
  }

  lemma AtSentSeen(s: State, w: nat, window: Option<int>, answer: Option<nat>)
    requires w in s.workers && s.workers[w].stage.SentSeen?
    ensures Step(s, Stepped(w, window, answer)) == MarkOwnSent(s, w)
  {
    hide Claim, Prelude, Gate, Permit, Submit, Execute, Persist, MarkOwnSent, Heal, Overwrite, Refresh;
  }

  lemma AtFinishing(s: State, w: nat, window: Option<int>, answer: Option<nat>)
    requires w in s.workers && s.workers[w].stage.Finishing?
    ensures Step(s, Stepped(w, window, answer)) == Refresh(s, w)
  {
    hide Claim, Prelude, Gate, Permit, Submit, Execute, Persist, MarkOwnSent, Heal, Overwrite, Refresh;
  }

  lemma AtCompleting(s: State, w: nat, window: Option<int>, answer: Option<nat>)
    requires w in s.workers && s.workers[w].stage.Completing?
    ensures Step(s, Stepped(w, window, answer)) == Overwrite(s, w, TaskStatus.Completed)
  {
    hide Claim, Prelude, Gate, Permit, Submit, Execute, Persist, MarkOwnSent, Heal, Overwrite, Refresh;
  }

  lemma StepsClaim(s: State, w: nat, t: nat, window: Option<int>, answer: Option<nat>)
    requires w !in s.workers && t in s.tasks && s.tasks[t].status == Pending && s.tasks[t].scheduledAt <= s.now
    ensures Step(Step(s, PickedUp(w, t)), Stepped(w, window, answer)) == Held(s, w, t, None, s.tasks[t].attemptedAt, Claimed)
  {
    var s1 := GmailModel.Pick(s, w, t);
    assert Step(s, PickedUp(w, t)) == s1;
    hide Step;
    AtPicked(s1, w, window, answer);
  }

  lemma StepsPrelude(s: State, w: nat, t: nat, d: Option<int>, window: Option<int>, answer: Option<nat>)
    requires Sends(s, w, t, d)
    ensures Step(Held(s, w, t, None, None, Claimed), Stepped(w, window, answer)) == Held(s, w, t, d, None, Ready)
  {
    hide Step, Prelude, Route, AutomationKey, HasSentStep, Unsent;
    var s1 := Held(s, w, t, None, None, Claimed);
    AtClaimed(s1, w, window, answer);
    RoutesAre(s, t);
    RouteFacts(s, s.tasks[t].payload, Some(t));
    hide OnRoute;
    UnsentExactly(s.messages, s.tasks[t].payload, d);
    PreludeGoesOn(s1, w, d);
  }

  // The handler's checks let an unsent message of a queued delivery through.
  lemma PreludeGoesOn(s: State, w: nat, d: Option<int>)
    requires w in s.workers && !s.workers[w].sawStamp
    requires var wk := s.workers[w];
             Route(s.deals, s.deliveries, wk.payload, Some(wk.taskId)) == Ok(d) && !HasSentStep(s.messages, wk.payload, d)
             && AutomationKey(wk.payload).Some?
    requires d.Some? ==> d.value in s.deliveries && s.deliveries[d.value].status == Queued
    ensures Prelude(s, w) == s.(workers := s.workers[w := s.workers[w].(delivery := d, stage := Ready)])
  {
    hide AutomationKey, Route, HasSentStep;
  }

  lemma StepsGate(s: State, w: nat, t: nat, d: Option<int>, answer: Option<nat>)
    requires Sends(s, w, t, d)
    ensures Step(Held(s, w, t, d, None, Ready), Stepped(w, None, answer)) == Held(s, w, t, d, None, Gated)
  {
    hide Step, DeferIfEarly, AutomationKey, Route, Unsent, OnRoute;
    var s1 := Held(s, w, t, d, None, Ready);
    AtReady(s1, w, None, answer);
    GateOnRoute(s1, t, s.tasks[t].payload, None, d);
    hide Postponed, OnlyRows;
  }

  lemma StepsPermit(s: State, w: nat, t: nat, d: Option<int>, answer: Option<nat>)
    requires Sends(s, w, t, d)
    ensures Step(Held(s, w, t, d, None, Gated), Stepped(w, None, answer)) == Held(s, w, t, d, None, Permitted)
  {
    hide Step, AutomationKey, Trim, Unsent, OnRoute, DuePassed;
    var s1 := Held(s, w, t, d, None, Gated);
    AtGated(s1, w, None, answer);
    assert Permit(s1, w) == SetStage(s1, w, Permitted);
    hide Permit;
  }

  lemma StepsConsume(s: State, w: nat, t: nat, d: Option<int>, answer: Option<nat>)
    requires t in s.tasks
    ensures Step(Held(s, w, t, d, None, Permitted), Stepped(w, None, answer)) == Held(s, w, t, d, None, Consumed)
  {
    hide Step;
    AtPermitted(Held(s, w, t, d, None, Permitted), w, None, answer);
  }

  lemma StepsSubmit(s: State, w: nat, t: nat, d: Option<int>, answer: Option<nat>)
    requires Sends(s, w, t, d)
    ensures Step(Held(s, w, t, d, None, Consumed), Stepped(w, None, answer))
            == WithStatus(Held(s, w, t, d, Some(s.now), Submitting), d, Sending)
  {
    hide Step, Submit;
    var s1 := Held(s, w, t, d, None, Consumed);
    AtConsumed(s1, w, None, answer);
    MayGoOnStill(s, w, t, d);
    hide Sends, MayGoOn, DuePassed;
    SubmitStamps(s1, w, t, d);
    HeldStamped(s, w, t, d);
  }

  lemma MayGoOnStill(s: State, w: nat, t: nat, d: Option<int>)
    requires Sends(s, w, t, d)
    ensures var s1 := Held(s, w, t, d, None, Consumed); MayGoOn(s1, t, s.tasks[t].payload, d) && DuePassed(s1, t, d, None)
    ensures d.Some? ==> d.value in s.deliveries
  {
    hide OnRoute, AutomationKey, Unsent;
    assert d.Some? ==> d.value in s.deliveries by { RoutesAre(s, t); RouteFacts(s, s.tasks[t].payload, Some(t)); }
  }

  lemma HeldStamped(s: State, w: nat, t: nat, d: Option<int>)
    requires t in s.tasks
    ensures var s1 := Held(s, w, t, d, None, Consumed);
            SetStage(WithStatus(SetTask(s1, t, s1.tasks[t].(attemptedAt := Some(s.now))), d, Sending), w, Submitting)
            == WithStatus(Held(s, w, t, d, Some(s.now), Submitting), d, Sending)
  {
    var s1, s2 := Held(s, w, t, d, None, Consumed), Held(s, w, t, d, Some(s.now), Submitting);
    assert s1.tasks[t := s1.tasks[t].(attemptedAt := Some(s.now))] == s2.tasks;
    assert s1.workers[w := s1.workers[w].(stage := Submitting)] == s2.workers;
    assert s1.(tasks := s2.tasks, workers := s2.workers) == s2;
    hide Held;
  }

  lemma SubmitStamps(s: State, w: nat, t: nat, d: Option<int>)
    requires w in s.workers && s.workers[w].taskId == t && MayGoOn(s, t, s.workers[w].payload, d) && DuePassed(s, t, d, None)
    ensures Submit(s, w, None)
            == SetStage(WithStatus(SetTask(s, t, s.tasks[t].(attemptedAt := Some(s.now))), d, Sending), w, Submitting)
  {
    StampOnRoute(s, t, s.workers[w].payload, None, d);
    var s1 := Stamp(s, t, s.workers[w].payload, None).value.0;
    RowsAre(s, s1, t, d, Sending);
    hide Stamp, MayGoOn, OnlyRows, NowMarked, DuePassed;
  }

  // The rows of a transaction, as maps.
  lemma RowsAre(s: State, s1: State, t: nat, d: Option<int>, status: DeliveryStatus)
    requires t in s.tasks && t in s1.tasks && OnlyRows(s, s1, t, d) && NowMarked(s, s1, d, status)
    ensures s1.tasks == s.tasks[t := s1.tasks[t]]
    ensures s1 == WithStatus(s, d, status).(tasks := s1.tasks)
  {
    var deliveries := WithStatus(s, d, status).deliveries;
    forall e | e in s.deliveries ensures s1.deliveries[e] == deliveries[e] {
      assert d != Some(e) ==> s1.deliveries[e] == s.deliveries[e];
    }
    assert s1.deliveries == deliveries;
  }

  // `n` steps of worker `w`, whose provider answers `x`.
  function Work(w: nat, x: nat, n: nat): seq<Event> {
    if n == 0 then [] else [Stepped(w, None, Some(x))] + Work(w, x, n - 1)
  }

  lemma {:induction false} RunFirst(s: State, e: Event, rest: seq<Event>)
    ensures Run(s, [e] + rest) == Run(Step(s, e), rest)
  {
    hide Step;
    assert ([e] + rest)[1..] == rest;
  }

  lemma {:induction false} WorkFirst(s: State, w: nat, x: nat, n: nat)
    requires n > 0
    ensures Run(s, Work(w, x, n)) == Run(Step(s, Stepped(w, None, Some(x))), Work(w, x, n - 1))
  {
    hide Step, Run;
    RunFirst(s, Stepped(w, None, Some(x)), Work(w, x, n - 1));
  }

  lemma {:induction false} WorkNone(s: State, w: nat, x: nat)
    ensures Run(s, Work(w, x, 0)) == s
  {
  }

  function Submission(w: nat, t: nat, x: nat): seq<Event> {
    [PickedUp(w, t)] + Work(w, x, 7)
  }

  ghost function Answered(s: State, w: nat, t: nat, d: Option<int>, x: nat): State
    requires t in s.tasks
  {
    WithStatus(Held(s, w, t, d, Some(s.now), Accepted(x)), d, Sending).(calls := s.calls + [Call(t, s.tasks[t].payload)])
  }

  lemma StepsCall(s: State, w: nat, t: nat, d: Option<int>, x: nat)
    requires t in s.tasks
    ensures Step(WithStatus(Held(s, w, t, d, Some(s.now), Submitting), d, Sending), Stepped(w, None, Some(x))) == Answered(s, w, t, d, x)
  {
    hide Step;
    AtSubmitting(WithStatus(Held(s, w, t, d, Some(s.now), Submitting), d, Sending), w, None, Some(x));
  }

  // A due Task with a free worker reaches the provider: the gates that keep it from being sent twice do not keep it
  // from being sent once.
  lemma {:induction false} DueTaskIsSent(s: State, w: nat, t: nat, d: Option<int>, x: nat)
    requires Sends(s, w, t, d)
    ensures Run(s, Submission(w, t, x)) == Answered(s, w, t, d, x)
  {
    StepsClaim(s, w, t, None, Some(x));
    StepsPrelude(s, w, t, d, None, Some(x));
    StepsGate(s, w, t, d, Some(x));
    StepsPermit(s, w, t, d, Some(x));
    StepsConsume(s, w, t, d, Some(x));
    StepsSubmit(s, w, t, d, Some(x));
    StepsCall(s, w, t, d, x);
    assert t in s.tasks && s.tasks[t].attemptedAt.None?;
    hide Step, Held, WithStatus, Answered, Sends, Run, Work;
    RunFirst(s, PickedUp(w, t), Work(w, x, 7));
    WorkFirst(Step(s, PickedUp(w, t)), w, x, 7);
    WorkFirst(Held(s, w, t, None, None, Claimed), w, x, 6);
    WorkFirst(Held(s, w, t, d, None, Ready), w, x, 5);
    WorkFirst(Held(s, w, t, d, None, Gated), w, x, 4);
    WorkFirst(Held(s, w, t, d, None, Permitted), w, x, 3);
    WorkFirst(Held(s, w, t, d, None, Consumed), w, x, 2);
    WorkFirst(WithStatus(Held(s, w, t, d, Some(s.now), Submitting), d, Sending), w, x, 1);
    WorkNone(Answered(s, w, t, d, x), w, x);
  }

  // The state a finished Task leaves: completed under its stamp, its delivery sent, its worker gone.
  ghost predicate Finished(s: State, s1: State, w: nat, t: nat, d: Option<int>) {
    && t in s.tasks && t in s1.tasks && w !in s1.workers
    && s1.tasks[t].status == TaskStatus.Completed && s1.tasks[t].payload == s.tasks[t].payload
    && OnlyRows(s.(messages := s1.messages, workers := s1.workers, calls := s1.calls), s1, t, d) && NowMarked(s, s1, d, Sent)
  }

  lemma StepsMark(s: State, w: nat, d: Option<int>, answer: Option<nat>)
    requires w in s.workers && s.workers[w].stage.SentSeen?
    requires s.workers[w].delivery == d && (d.Some? ==> d.value in s.deliveries) && !Barred(s, d)
    ensures Step(s, Stepped(w, None, answer)) == SetStage(WithStatus(s, d, Sent), w, Finishing)
  {
    hide Step;
    AtSentSeen(s, w, None, answer);
    MarkRow(s, d, Sent);
  }

  lemma StepsComplete(s: State, w: nat, answer: Option<nat>)
    requires w in s.workers && s.workers[w].stage.Finishing?
    requires var t := s.workers[w].taskId; t in s.tasks && s.tasks[t].status == Running
    ensures var go, t := Stepped(w, None, answer), s.workers[w].taskId;
            Step(Step(s, go), go) == Drop(SetTask(s, t, s.tasks[t].(status := TaskStatus.Completed)), w)
  {
    hide Step;
    AtFinishing(s, w, None, answer);
    AtCompleting(SetStage(s, w, Completing), w, None, answer);
  }

  lemma FinishedAt(s: State, w: nat, t: nat, d: Option<int>)
    requires w in s.workers && t in s.tasks && (d.Some? ==> d.value in s.deliveries)
    ensures var s1 := SetStage(WithStatus(s, d, Sent), w, Finishing);
            Finished(s, Drop(SetTask(s1, t, s1.tasks[t].(status := TaskStatus.Completed)), w), w, t, d)
  {
  }

  lemma {:induction false} SentSeenFinishes(s: State, w: nat, t: nat, d: Option<int>, x: nat)
    requires w in s.workers && t in s.tasks && s.tasks[t].status == Running && s.workers[w].taskId == t && s.workers[w].stage.SentSeen?
    requires s.workers[w].delivery == d && (d.Some? ==> d.value in s.deliveries) && !Barred(s, d)
    ensures Finished(s, Run(s, Work(w, x, 3)), w, t, d)
    ensures var s1 := Run(s, Work(w, x, 3)); s1.calls == s.calls && s1.messages == s.messages && s1.workers == s.workers - {w}
  {
    var s1 := SetStage(WithStatus(s, d, Sent), w, Finishing);
    StepsMark(s, w, d, Some(x));
    StepsComplete(s1, w, Some(x));
    FinishedAt(s, w, t, d);
    hide Step, Run, Work, Finished;
    WorkFirst(s, w, x, 3);
    WorkFirst(s1, w, x, 2);
    WorkFirst(Step(s1, Stepped(w, None, Some(x))), w, x, 1);
    WorkNone(Step(Step(s1, Stepped(w, None, Some(x))), Stepped(w, None, Some(x))), w, x);
  }

  lemma {:induction false} RunTwice(s: State, first: seq<Event>, then_: seq<Event>)
    ensures Run(s, first + then_) == Run(Run(s, first), then_)
    decreases |first|
  {
    if first == [] {
      assert first + then_ == then_;
    } else {
      assert (first + then_)[1..] == first[1..] + then_;
      RunTwice(Step(s, first[0]), first[1..], then_);
    }
  }

  lemma StepsPersist(s: State, w: nat, t: nat, d: Option<int>, x: nat)
    requires Sends(s, w, t, d) && x !in s.messages
    ensures var s1 := Answered(s, w, t, d, x);
            var s2 := Step(s1, Stepped(w, None, Some(x)));
            && s2 == s1.(messages := s2.messages, workers := s1.workers[w := s1.workers[w].(stage := SentSeen)])
            && HasEvidence(s2.messages, s.tasks[t].payload)
  {
    hide Step, AutomationKey, HasEvidence, Unsent;
    var s1 := Answered(s, w, t, d, x);
    AtAccepted(s1, w, None, Some(x));
    RoutesAre(s, t);
    RouteFacts(s, s.tasks[t].payload, Some(t));
    hide Route, OnRoute;
    PersistedIsEvidence(s1, w);
  }

  // The rows of a Task finished from a later state on are those of a Task finished from this one.
  lemma FinishedSince(s: State, s1: State, s2: State, w: nat, t: nat, d: Option<int>)
    requires t in s.tasks && t in s1.tasks && s1.tasks == s.tasks[t := s1.tasks[t]] && s1.tasks[t].payload == s.tasks[t].payload
    requires s1 == s.(tasks := s1.tasks, deliveries := s1.deliveries, messages := s1.messages, workers := s1.workers, calls := s1.calls)
    requires s1.deliveries == if d.Some? && d.value in s.deliveries && d.value in s1.deliveries then s.deliveries[d.value := s1.deliveries[d.value]] else s.deliveries
    requires d.Some? && d.value in s.deliveries ==> d.value in s1.deliveries && s1.deliveries[d.value].(status := Sent) == s.deliveries[d.value].(status := Sent)
    requires Finished(s1, s2, w, t, d)
    ensures Finished(s, s2, w, t, d)
  {
  }

  // Sent once, recorded once, done: all that one undisturbed worker does for a due Task.
  lemma {:induction false} DueTaskIsFinished(s: State, w: nat, t: nat, d: Option<int>, x: nat)
    requires Sends(s, w, t, d) && x !in s.messages
    ensures var s1 := Run(s, Submission(w, t, x) + Work(w, x, 4));
            && Finished(s, s1, w, t, d)
            && s1.calls == s.calls + [Call(t, s.tasks[t].payload)]
            && HasEvidence(s1.messages, s.tasks[t].payload)
  {
    var s1 := Answered(s, w, t, d, x);
    var s2 := Step(s1, Stepped(w, None, Some(x)));
    var s3 := Run(s2, Work(w, x, 3));
    DueTaskIsSent(s, w, t, d, x);
    StepsPersist(s, w, t, d, x);
    assert Run(s, Submission(w, t, x) + Work(w, x, 4)) == s3 by {
      hide Step, Run, Answered, Work, Submission, Sends;
      RunTwice(s, Submission(w, t, x), Work(w, x, 4));
      WorkFirst(s1, w, x, 4);
    }
    hide Run, Work, Submission, Step, HasEvidence, Unsent, AutomationKey, OnRoute, Finished;
    SentSeenFinishes(s2, w, t, d, x);
    FinishedSince(s, s2, s3, w, t, d);
  }

  lemma UnsentIsQueued(s: State, w: nat, t: nat, d: Option<int>)
    requires w !in s.workers && Routed(s, t, d) && s.tasks[t].status == Running
    requires !MaybeSubmitted(s, t, d) && !Barred(s, d)
    requires DuePassed(s, t, d, None) && Sendable(s.tasks[t].payload) && Unsent(s.messages, s.tasks[t].payload, d)
    ensures var s1 := Step(s, Recovered(t));
            Sends(s1, w, t, d) && s1.calls == s.calls && s1.tasks[t].payload == s.tasks[t].payload
  {
    var s1 := Recover(s, t).value.0;
    RecoveryTable(s, t);
    assert RecoveredOn(s, s1, t, d) && OnlyRows(s, s1, t, d) && Step(s, Recovered(t)) == s1;
    hide Recover, RecoveredAs, Unsent, AutomationKey, Step;
    assert QueuedAgain(s.tasks[t], s1.tasks[t], s.tasks[t].scheduledAt) && NowMarked(s, s1, d, Queued);
    hide RecoveredOn, MaybeSubmitted, Barred, HasEvidence;
  }

  // A worker that died before it submitted loses nothing: recovery alone makes the Task fit to be sent, once.
  lemma {:induction false} CrashLosesNothing(s: State, w: nat, t: nat, d: Option<int>, x: nat)
    requires w !in s.workers && Routed(s, t, d) && s.tasks[t].status == Running
    requires !MaybeSubmitted(s, t, d) && !Barred(s, d)
    requires DuePassed(s, t, d, None) && Sendable(s.tasks[t].payload) && Unsent(s.messages, s.tasks[t].payload, d)
    ensures var s1 := Run(s, [Recovered(t)] + Submission(w, t, x));
            s1.calls == s.calls + [Call(t, s.tasks[t].payload)] && t in s1.tasks && Stamped(s1.tasks[t])
  {
    hide Step, Unsent, OnRoute, Barred, Sendable, Submission, Run, MaybeSubmitted, DuePassed;
    var s1 := Step(s, Recovered(t));
    UnsentIsQueued(s, w, t, d);
    DueTaskIsSent(s1, w, t, d, x);
    RunFirst(s, Recovered(t), Submission(w, t, x));
    assert t in s1.tasks;
    hide Sends, Routed;
  }

  lemma StepsPreludeSent(s: State, w: nat, t: nat, d: Option<int>, answer: Option<nat>)
    requires w !in s.workers && Routed(s, t, d) && HasEvidence(s.messages, s.tasks[t].payload) && (d.Some? ==> Is(s, d, Sent))
    ensures Step(Held(s, w, t, None, s.tasks[t].attemptedAt, Claimed), Stepped(w, None, answer))
            == Held(s, w, t, d, s.tasks[t].attemptedAt, SentSeen)
  {
    hide Step, Prelude;
    var s1 := Held(s, w, t, None, s.tasks[t].attemptedAt, Claimed);
    AtClaimed(s1, w, None, answer);
    EvidenceIsSentStep(s, t, d);
    hide AutomationKey, Route, OnRoute, HasEvidence, HasSentStep;
    PreludeSeesSent(s1, w, d);
  }

  lemma PreludeSeesSent(s: State, w: nat, d: Option<int>)
    requires w in s.workers
    requires var wk := s.workers[w];
             Route(s.deals, s.deliveries, wk.payload, Some(wk.taskId)) == Ok(d) && HasSentStep(s.messages, wk.payload, d)
             && AutomationKey(wk.payload).Some?
    requires d.Some? ==> d.value in s.deliveries && s.deliveries[d.value].status == Sent
    ensures Prelude(s, w) == s.(workers := s.workers[w := s.workers[w].(delivery := d, stage := SentSeen)])
  {
    hide AutomationKey, Route, HasSentStep;
  }

  lemma EvidenceIsSentStep(s: State, t: nat, d: Option<int>)
    requires Routed(s, t, d) && HasEvidence(s.messages, s.tasks[t].payload)
    ensures Route(s.deals, s.deliveries, s.tasks[t].payload, Some(t)) == Ok(d) && (d.Some? ==> d.value in s.deliveries)
    ensures HasSentStep(s.messages, s.tasks[t].payload, d) && AutomationKey(s.tasks[t].payload).Some?
  {
    var p := s.tasks[t].payload;
    RoutesAre(s, t);
    RouteFacts(s, p, Some(t));
    hide AutomationKey, Route, OnRoute;
    var m :| m in s.messages && IsEvidence(s.messages[m], p);
    assert IsSentStep(s.messages[m], p, d);
  }

  lemma ProvenIsQueued(s: State, w: nat, t: nat, d: Option<int>)
    requires w !in s.workers && Routed(s, t, d) && s.tasks[t].status == Running
    requires MaybeSubmitted(s, t, d) && !Barred(s, d) && HasEvidence(s.messages, s.tasks[t].payload)
    ensures var s1 := Step(s, Recovered(t));
            && Routed(s1, t, d) && s1.tasks[t].status == Pending && s1.tasks[t].scheduledAt <= s1.now && (d.Some? ==> Is(s1, d, Sent))
            && s1.tasks == s.tasks[t := s1.tasks[t]] && s1.tasks[t].payload == s.tasks[t].payload
            && s1 == s.(tasks := s1.tasks, deliveries := s1.deliveries)
            && s1.deliveries == WithStatus(s, d, Sent).deliveries
  {
    var s1 := Recover(s, t).value.0;
    RecoveryTable(s, t);
    assert RecoveredOn(s, s1, t, d) && OnlyRows(s, s1, t, d) && Step(s, Recovered(t)) == s1;
    hide Recover, RecoveredAs, HasEvidence, Step;
    assert QueuedAgain(s.tasks[t], s1.tasks[t], s.now) && NowMarked(s, s1, d, Sent);
    hide RecoveredOn, MaybeSubmitted, Barred;
    RowsAre(s, s1, t, d, Sent);
    hide OnlyRows, NowMarked;
  }

  // A worker that died after its message was persisted leaves work that is finished without a second call.
  lemma {:induction false} ProvenSendIsFinished(s: State, w: nat, t: nat, d: Option<int>, x: nat)
    requires w !in s.workers && Routed(s, t, d) && s.tasks[t].status == Running
    requires MaybeSubmitted(s, t, d) && !Barred(s, d) && HasEvidence(s.messages, s.tasks[t].payload)
    ensures var s1 := Run(s, [Recovered(t)] + ([PickedUp(w, t)] + Work(w, x, 5)));
            Finished(s, s1, w, t, d) && s1.calls == s.calls && s1.messages == s.messages
  {
    var s1 := Step(s, Recovered(t));
    ProvenIsQueued(s, w, t, d);
    StepsClaim(s1, w, t, None, Some(x));
    StepsPreludeSent(s1, w, t, d, Some(x));
    var s2 := Held(s1, w, t, None, s1.tasks[t].attemptedAt, Claimed);
    var s3 := Held(s1, w, t, d, s1.tasks[t].attemptedAt, SentSeen);
    var s4 := Run(s3, Work(w, x, 3));
    assert Run(s, [Recovered(t)] + ([PickedUp(w, t)] + Work(w, x, 5))) == s4 by {
      hide Step, Run, Held, Work, Routed, HasEvidence, MaybeSubmitted, Barred;
      RunFirst(s, Recovered(t), [PickedUp(w, t)] + Work(w, x, 5));
      RunFirst(s1, PickedUp(w, t), Work(w, x, 5));
      WorkFirst(Step(s1, PickedUp(w, t)), w, x, 5);
      WorkFirst(s2, w, x, 4);
    }
    hide Run, Work, Step, HasEvidence, AutomationKey, OnRoute, Finished;
    SentSeenFinishes(s3, w, t, d, x);
    FinishedSince(s, s3, s4, w, t, d);
  }
}
