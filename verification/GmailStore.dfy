/**
 The Gmail lane as the program runs it: rows updated in place, one method per transaction. Every
 method is tied to its function in GmailModel, so the run theorems speak about these methods too.
 A method that answers `Raised` has changed nothing: its transaction rolled back.
 */
module GmailStore {
  import opened Outcomes
  import opened GmailModel
  import opened GmailProgress

  // The answer and the rows after a transaction are those of its function.
  ghost predicate Commits<T>(before: State, after: State, answer: Result<T>, spec: Result<(State, T)>) {
    if spec.Raised? then answer.Raised? && after == before
    else answer == Ok(spec.value.1) && after == spec.value.0
  }

  // Single-use authority to submit one exact message (gmail/delivery.py).
  class Permit {
    const taskId: nat
    const fingerprint: string
    var used: bool

    constructor (taskId: nat, fingerprint: string)
      ensures this.taskId == taskId && this.fingerprint == fingerprint && !used
    {
      this.taskId := taskId;
      this.fingerprint := fingerprint;
      used := false;
    }

    method Consume(content: string) returns (accepted: bool)
      modifies this
      ensures accepted <==> !old(used) && content == fingerprint
      ensures used == (old(used) || accepted)
    {
      if used { return false; }
      if content != fingerprint { return false; }
      used := true;
      return true;
    }
  }

  lemma PermittedStep(s: State, w: nat)
    requires w in s.workers && s.workers[w].stage.Permitted?
    ensures Step(s, Stepped(w, None, None)) == SetStage(s, w, Consumed)
  {
  }

  class Store {
    var now: int
    var nextTask: nat
    var tasks: map<nat, Task>
    var deliveries: map<int, Delivery>
    var deals: map<int, Deal>
    var messages: map<nat, Message>
    var workers: map<nat, Worker>
    ghost var calls: seq<Call>

    ghost function Rows(): State
      reads this
    {
      State(now, nextTask, tasks, deliveries, deals, messages, workers, calls)
    }

    constructor ()
      ensures Rows() == Empty
    {
      now, nextTask := 0, 0;
      tasks, deliveries, deals, messages, workers := map[], map[], map[], map[], map[];
      calls := [];
    }

    // mark_delivery_status
    method MarkDeliveryStatus(d: int, status: DeliveryStatus) returns (raised: bool)
      requires d in deliveries
      modifies this`deliveries
      ensures raised == Mark(old(Rows()), d, status).Raised?
      ensures Rows() == if raised then old(Rows()) else Mark(old(Rows()), d, status).value
    {
      var locked := deliveries[d];
      if locked.status == Sent && status != locked.status { return true; }
      if locked.status == Unclear && status != locked.status { return true; }
      if locked.status == Stopped && status != locked.status { return true; }
      if status == Sending && locked.scheduledAt > now { return true; }
      deliveries := deliveries[d := locked.(status := status)];
      return false;
    }

    // bind_delivery_task
    method BindDeliveryTask(d: int, t: nat) returns (raised: bool)
      requires d in deliveries && t in tasks
      modifies this`deliveries, this`tasks
      ensures raised == Bind(old(Rows()), d, t).Raised?
      ensures Rows() == if raised then old(Rows()) else Bind(old(Rows()), d, t).value
    {
      var locked := deliveries[d];
      if locked.status == Unclear || locked.status == Stopped { return true; }
      locked := locked.(taskId := Some(t));
      if locked.status != Sent {
        if tasks[t].scheduledAt < locked.scheduledAt {
          tasks := tasks[t := tasks[t].(scheduledAt := locked.scheduledAt)];
        } else {
          assert tasks[t := tasks[t]] == tasks;
        }
        locked := locked.(status := Queued, scheduledAt := tasks[t].scheduledAt);
      }
      deliveries := deliveries[d := locked];
      return false;
    }

    method RequeueTask(t: nat, at: int)
      requires t in tasks
      modifies this`tasks
      ensures Rows() == Requeue(old(Rows()), t, at)
    {
      tasks := tasks[t := tasks[t].(status := Pending, startedAt := None, scheduledAt := at)];
    }

    // _lock_current_task, the claim checks and _defer_locked_task_if_early
    method DeferEarly(t: nat, snapshot: Payload, window: Option<int>) returns (deferred: Result<bool>)
      modifies this`tasks
      ensures Commits(old(Rows()), Rows(), deferred, DeferIfEarly(old(Rows()), t, snapshot, window))
    {
      if t !in tasks { return Raised; }
      var locked := tasks[t];
      if AutomationKey(locked.payload) != AutomationKey(snapshot) || locked.payload.dealId != snapshot.dealId { return Raised; }
      if locked.status != Running { return Raised; }
      if Stamped(locked) { return Raised; }
      var route := Route(deals, deliveries, locked.payload, Some(t));
      if route.Raised? { return Raised; }
      var due := locked.scheduledAt;
      if route.value.Some? {
        var delivery := deliveries[route.value.value];
        if delivery.status != Queued { return Raised; }
        due := Max(due, delivery.scheduledAt);
      }
      if window.Some? { due := Max(window.value, Max(due, now)); }
      if due <= now { return Ok(false); }
      RequeueTask(t, due);
      return Ok(true);
    }

    // stamp_submission_attempt
    method StampSubmissionAttempt(t: nat, snapshot: Payload, window: Option<int>) returns (stamped: Result<bool>)
      modifies this`tasks, this`deliveries
      ensures Commits(old(Rows()), Rows(), stamped, Stamp(old(Rows()), t, snapshot, window))
      ensures StampedAs(old(Rows()), if stamped.Ok? then Ok((Rows(), stamped.value)) else Raised, t, snapshot, window)
      ensures stamped.Raised? ==> Rows() == old(Rows())
    {
      StampTable(Rows(), t, snapshot, window);
      hide StampedAs;
      var deferred := DeferEarly(t, snapshot, window);
      if deferred.Raised? { return Raised; }
      if deferred.value { return Ok(false); }
      var before := tasks;
      var delivery := Route(deals, deliveries, tasks[t].payload, Some(t)).value;
      tasks := tasks[t := tasks[t].(attemptedAt := Some(now))];
      if delivery.Some? {
        var raised := MarkDeliveryStatus(delivery.value, Sending);
        if raised {
          tasks := before;
          return Raised;
        }
      }
      return Ok(true);
    }

    // recover_stale_current_gmail_task
    method RecoverStale(t: nat) returns (recovered: Result<bool>)
      modifies this`tasks, this`deliveries
      ensures Commits(old(Rows()), Rows(), recovered, Recover(old(Rows()), t))
      ensures recovered.Ok? && RecoveredAs(old(Rows()), Rows(), t, recovered.value)
    {
      RecoveryTable(Rows(), t);
      hide RecoveredAs;
      if t !in tasks { return Ok(false); }
      var task := tasks[t];
      if task.status != Running { return Ok(false); }
      var route := Route(deals, deliveries, task.payload, Some(t));
      if route.Raised? {
        tasks := tasks[t := task.(status := Failed)];
        return Ok(true);
      }
      var d, raised := route.value, false;
      var status := if d.Some? then deliveries[d.value].status else Planned;
      if status == Stopped || status == Unclear {
        tasks := tasks[t := task.(status := Failed)];
      } else if status == Sent || status == Sending || Stamped(task) {
        if HasEvidence(messages, task.payload) {
          if d.Some? { raised := MarkDeliveryStatus(d.value, Sent); }
          if raised { return Raised; }
          RequeueTask(t, now);
        } else {
          if status != Sent && d.Some? { raised := MarkDeliveryStatus(d.value, Unclear); }
          if raised { return Raised; }
          tasks := tasks[t := task.(status := Failed)];
        }
      } else {
        if d.Some? { raised := MarkDeliveryStatus(d.value, Queued); }
        if raised { return Raised; }
        RequeueTask(t, task.scheduledAt);
      }
      return Ok(true);
    }

    // reschedule_persisted_current_gmail_task
    method ReschedulePersisted(t: nat) returns (rescheduled: Result<bool>)
      modifies this`tasks, this`deliveries
      ensures Commits(old(Rows()), Rows(), rescheduled, Reschedule(old(Rows()), t))
      ensures rescheduled.Ok? && RescheduledAs(old(Rows()), Rows(), t, rescheduled.value)
    {
      RescheduleTable(Rows(), t);
      hide RescheduledAs;
      if t !in tasks { return Ok(false); }
      var task := tasks[t];
      if task.status != Running { return Ok(false); }
      if !Stamped(task) { return Ok(false); }
      var route := Route(deals, deliveries, task.payload, Some(t));
      if route.Raised? { return Ok(false); }
      var d, raised := route.value, false;
      if d.Some? && (deliveries[d.value].status == Stopped || deliveries[d.value].status == Unclear) { return Ok(false); }
      if !HasEvidence(messages, task.payload) { return Ok(false); }
      if d.Some? { raised := MarkDeliveryStatus(d.value, Sent); }
      if raised { return Raised; }
      RequeueTask(t, now + POST_SEND_RECOVERY_DELAY);
      return Ok(true);
    }

    // The dedupe query of enqueue_gmail_follow_up, oldest Task first.
    method MatchingTasks(p: Payload, d: Option<int>) returns (found: seq<nat>)
      ensures found == Matching(tasks, p, d, nextTask)
    {
      found := [];
      for t := 0 to nextTask
        invariant found == Matching(tasks, p, d, t)
      {
        if t in tasks && SameStep(tasks[t].payload, p) && (d.Some? ==> tasks[t].payload.deliveryId == d) {
          found := found + [t];
        }
      }
    }

    // The two loops of enqueue_gmail_follow_up over the candidates.
    method FindLive(cs: seq<nat>, p: Payload, d: Option<int>) returns (live: Result<Option<nat>>)
      ensures live == ScanLive(Rows(), cs, p, d)
    {
      var i := 0;
      while i < |cs|
        invariant i <= |cs|
        invariant ScanLive(Rows(), cs, p, d) == ScanLive(Rows(), cs[i..], p, d)
      {
        var c := cs[i];
        if d.Some? {
          if c !in tasks { return Raised; }
          var q := tasks[c].payload;
          if q.dealId != p.dealId || q.leadId != p.leadId || q.operator != p.operator || q.stepIndex != p.stepIndex {
            return Raised;
          }
          var bound := Route(deals, deliveries, p.(deliveryId := q.deliveryId, versionId := q.versionId), Some(c));
          if bound.Raised? { return Raised; }
        }
        if c in tasks && Live(tasks[c]) { return Ok(Some(c)); }
        assert cs[i..][1..] == cs[i + 1..];
        i := i + 1;
      }
      return Ok(None);
    }

    method FindStamped(cs: seq<nat>) returns (stamped: Option<nat>)
      ensures stamped == ScanStamped(Rows(), cs)
    {
      var i := 0;
      while i < |cs|
        invariant i <= |cs|
        invariant ScanStamped(Rows(), cs) == ScanStamped(Rows(), cs[i..])
      {
        if cs[i] in tasks && Stamped(tasks[cs[i]]) { return Some(cs[i]); }
        assert cs[i..][1..] == cs[i + 1..];
        i := i + 1;
      }
      return None;
    }

    // enqueue_gmail_follow_up
    method EnqueueFollowUp(p: Payload, held: bool, delay: int) returns (queued: Result<Option<nat>>)
      modifies this`tasks, this`deliveries, this`nextTask
      ensures Commits(old(Rows()), Rows(), queued, Enqueue(old(Rows()), p, held, delay))
    {
      hide AutomationKey, HasEvidence, Matching, ScanLive, ScanStamped, ReviveStamped, CreateTask, Bind;
      if p.operator == "" { return Raised; }
      if held { return Ok(None); }
      var route := Route(deals, deliveries, p, None);
      if route.Raised? { return Raised; }
      var d := route.value;
      if d.Some? && (deliveries[d.value].status == Stopped || deliveries[d.value].status == Unclear) { return Ok(None); }
      var cs: seq<nat>;
      if d.Some? && deliveries[d.value].taskId.Some? {
        cs := [deliveries[d.value].taskId.value];
      } else {
        cs := MatchingTasks(p, d);
      }
      var live := FindLive(cs, p, d);
      if live.Raised? { return Raised; }
      if live.value.Some? { return Ok(live.value); }
      var stamped := FindStamped(cs);
      var raised := false;
      if stamped.Some? {
        raised := ReviveSent(stamped.value, d);
        return if raised then Raised else Ok(stamped);
      }
      if d.Some? && cs != [] {
        var c := cs[0];
        if tasks[c].status == Failed { raised := RebindFailed(c, d.value); }
        return if raised then Raised else Ok(Some(c));
      }
      var t := nextTask;
      raised := CreateFollowUp(p, d, if d.Some? then deliveries[d.value].scheduledAt else now + Max(delay, 0));
      return if raised then Raised else Ok(Some(t));
    }

    // The stamped candidate of enqueue_gmail_follow_up.
    method ReviveSent(c: nat, d: Option<int>) returns (raised: bool)
      requires c in tasks && (d.Some? ==> d.value in deliveries)
      modifies this`tasks, this`deliveries
      ensures raised == ReviveStamped(old(Rows()), c, d).Raised?
      ensures Rows() == if raised then old(Rows()) else ReviveStamped(old(Rows()), c, d).value
    {
      raised := false;
      if tasks[c].status == Failed && HasEvidence(messages, tasks[c].payload) {
        var before := tasks;
        RequeueTask(c, now);
        if d.Some? { raised := MarkDeliveryStatus(d.value, Sent); }
        if raised { tasks := before; }
      }
    }

    // The failed, never stamped Task of a delivery runs again and is bound again.
    method RebindFailed(c: nat, d: int) returns (raised: bool)
      requires c in tasks && d in deliveries
      modifies this`tasks, this`deliveries
      ensures var spec := Bind(Requeue(old(Rows()), c, Max(old(deliveries)[d].scheduledAt, now)), d, c);
              raised == spec.Raised? && Rows() == if raised then old(Rows()) else spec.value
    {
      var before := tasks;
      RequeueTask(c, Max(deliveries[d].scheduledAt, now));
      raised := BindDeliveryTask(d, c);
      if raised { tasks := before; }
    }

    method CreateFollowUp(p: Payload, d: Option<int>, at: int) returns (raised: bool)
      requires d.Some? ==> d.value in deliveries
      modifies this`tasks, this`deliveries, this`nextTask
      ensures raised == CreateTask(old(Rows()), p, d, at).Raised?
      ensures Rows() == if raised then old(Rows()) else CreateTask(old(Rows()), p, d, at).value
    {
      var t, before := nextTask, tasks;
      tasks := tasks[t := Task(Pending, at, None, p, None)];
      nextTask := nextTask + 1;
      raised := false;
      if d.Some? { raised := BindDeliveryTask(d.value, t); }
      if raised { tasks, nextTask := before, t; }
    }

    predicate Due(t: nat, operators: set<string>)
      reads this
    {
      t in tasks && tasks[t].payload.operator in operators && tasks[t].status == Pending && tasks[t].scheduledAt <= now
    }

    // The queue read of _claim_next: the earliest due Task of these operators, lowest id first.
    method NextDue(operators: set<string>) returns (head: Option<nat>)
      ensures head.None? ==> forall t: nat | t < nextTask :: !Due(t, operators)
      ensures head.Some? ==>
                && head.value < nextTask && Due(head.value, operators)
                && (forall t: nat | t < nextTask && Due(t, operators) ::
                      tasks[head.value].scheduledAt < tasks[t].scheduledAt
                      || (tasks[head.value].scheduledAt == tasks[t].scheduledAt && head.value <= t))
    {
      head := None;
      for t := 0 to nextTask
        invariant head.None? ==> forall u: nat | u < t :: !Due(u, operators)
        invariant head.Some? ==>
                    && head.value < t && Due(head.value, operators)
                    && (forall u: nat | u < t && Due(u, operators) ::
                          tasks[head.value].scheduledAt < tasks[u].scheduledAt
                          || (tasks[head.value].scheduledAt == tasks[u].scheduledAt && head.value <= u))
      {
        if Due(t, operators) && (head.None? || tasks[t].scheduledAt < tasks[head.value].scheduledAt) {
          head := Some(t);
        }
      }
    }

    // The guarded update of _claim_next.
    method CompareAndSet(w: nat) returns (won: bool)
      requires w in workers
      modifies this`tasks, this`workers
      ensures Rows() == Claim(old(Rows()), w)
      ensures won == (w in workers)
    {
      var t := workers[w].taskId;
      if t in tasks && tasks[t].status == Pending {
        tasks := tasks[t := tasks[t].(status := Running, startedAt := Some(now))];
        workers := workers[w := workers[w].(stage := Claimed)];
        return true;
      }
      workers := workers - {w};
      return false;
    }

    // _reclaim_stale: recover every running Task of these operators started before `staleBefore`.
    method ReclaimStale(operators: set<string>, staleBefore: int) returns (reclaimed: nat)
      modifies this`tasks, this`deliveries
      ensures Rows() == Run(old(Rows()), RecoverEach(StaleBelow(old(tasks), operators, staleBefore, old(nextTask))))
    {
      var stale: seq<nat> := [];
      for t := 0 to nextTask
        invariant stale == StaleBelow(tasks, operators, staleBefore, t)
      {
        if IsStale(tasks, operators, staleBefore, t) { stale := stale + [t]; }
      }
      reclaimed := RecoverAll(stale);
    }

    method RecoverAll(stale: seq<nat>) returns (reclaimed: nat)
      modifies this`tasks, this`deliveries
      ensures Rows() == Run(old(Rows()), RecoverEach(stale))
    {
      hide Recover;
      reclaimed := 0;
      var i := 0;
      while i < |stale|
        invariant i <= |stale|
        invariant Run(old(Rows()), RecoverEach(stale)) == Run(Rows(), RecoverEach(stale[i..]))
        invariant nextTask == old(nextTask)
      {
        var rest := stale[i..];
        assert RecoverEach(rest)[1..] == RecoverEach(rest[1..]) && rest[1..] == stale[i + 1..];
        var r := RecoverStale(stale[i]);
        if r.Ok? && r.value { reclaimed := reclaimed + 1; }
        i := i + 1;
      }
    }

    // The end of _run_once: refresh the status, then complete only a Task still running.
    method RefreshStatus(w: nat) returns (running: bool)
      requires w in workers
      modifies this`workers
      ensures Rows() == Refresh(old(Rows()), w) && running == (w in workers)
    {
      running := workers[w].taskId in tasks && tasks[workers[w].taskId].status == Running;
      if running {
        workers := workers[w := workers[w].(stage := Completing)];
      } else {
        workers := workers - {w};
      }
    }

    // mark_completed and mark_failed
    method SetFinalStatus(w: nat, status: TaskStatus)
      requires w in workers && (status == Completed || status == Failed)
      modifies this`tasks, this`workers
      ensures Rows() == Overwrite(old(Rows()), w, status)
    {
      var t := workers[w].taskId;
      if t in tasks { tasks := tasks[t := tasks[t].(status := status)]; }
      workers := workers - {w};
    }

    // GmailClient.send_message with the stamp as its submission callback: consume the permit, stamp,
    // then call the provider. `calls` grows exactly when the stamp answered True.
    method SendMessage(permit: Permit, content: string, w: nat, window: Option<int>, answer: Option<nat>) returns (called: bool)
      requires w in workers && workers[w].stage.Permitted?
      modifies permit, this`tasks, this`deliveries, this`workers, this`calls
      ensures called ==> !old(permit.used) && permit.used && content == permit.fingerprint
      ensures !called ==> calls == old(calls)
      ensures called ==>
                && calls == old(calls) + [Call(old(workers[w].taskId), old(workers[w].payload))]
                && (var t := old(workers[w].taskId);
                    t in old(tasks) && t in tasks && !Stamped(old(tasks)[t]) && Stamped(tasks[t]))
      ensures old(permit.used) || content != permit.fingerprint ==>
                Rows() == SetStage(old(Rows()), w, Excepted)
      ensures !old(permit.used) && content == permit.fingerprint ==>
                && var s2 := Submit(Step(old(Rows()), Stepped(w, None, None)), w, window);
                && called == s2.workers[w].stage.Submitting?
                && Rows() == if called then Execute(s2, w, answer) else s2
    {
      hide Submit, Execute, Step, Stamped;
      PermittedStep(Rows(), w);
      var accepted := permit.Consume(content);
      if !accepted {
        workers := workers[w := workers[w].(stage := Excepted)];
        return false;
      }
      workers := workers[w := workers[w].(stage := Consumed)];
      called := SubmitAttempt(w, window);
      if called { ProviderCall(w, answer); }
    }

    // The submission callback: stamp, then let the provider call happen or not.
    method SubmitAttempt(w: nat, window: Option<int>) returns (granted: bool)
      requires w in workers
      modifies this`tasks, this`deliveries, this`workers
      ensures Rows() == Submit(old(Rows()), w, window)
      ensures w in workers && granted == workers[w].stage.Submitting?
      ensures workers[w].taskId == old(workers)[w].taskId && workers[w].payload == old(workers)[w].payload
      ensures granted ==>
                var t := old(workers)[w].taskId; t in old(tasks) && t in tasks && !Stamped(old(tasks)[t]) && Stamped(tasks[t])
    {
      var wk := workers[w];
      var stamped := StampSubmissionAttempt(wk.taskId, wk.payload, window);
      granted := stamped.Ok? && stamped.value;
      var next := if stamped.Raised? then Excepted else if granted then Submitting else Finishing;
      workers := workers[w := wk.(stage := next)];
    }

    method ProviderCall(w: nat, answer: Option<nat>)
      requires w in workers
      modifies this`calls, this`workers
      ensures Rows() == Execute(old(Rows()), w, answer)
      ensures calls == old(calls) + [Call(old(workers[w].taskId), old(workers[w].payload))]
    {
      var wk := workers[w];
      calls := calls + [Call(wk.taskId, wk.payload)];
      workers := workers[w := wk.(stage := if answer.Some? then Accepted(answer.value) else Excepted)];
    }

    // _persist_outbound
    method PersistOutbound(w: nat) returns (raised: bool)
      requires w in workers && workers[w].stage.Accepted?
      modifies this`messages, this`workers
      ensures Rows() == Persist(old(Rows()), w)
    {
      var wk := workers[w];
      var x := wk.stage.externalId;
      var copy := Message(wk.payload.leadId, AutomationKey(wk.payload), wk.delivery, wk.payload.versionId);
      if x in messages {
        var prior := messages[x];
        if prior.leadId != wk.payload.leadId || (prior.key.Some? && prior.key != copy.key) {
          workers := workers[w := wk.(stage := Excepted)];
          return true;
        }
        if wk.delivery.None? { copy := copy.(deliveryId := prior.deliveryId, versionId := prior.versionId); }
      }
      messages := messages[x := copy];
      workers := workers[w := wk.(stage := SentSeen)];
      return false;
    }
  }

  predicate IsStale(tasks: map<nat, Task>, operators: set<string>, staleBefore: int, t: nat) {
    t in tasks && tasks[t].payload.operator in operators && tasks[t].status == Running
    && (tasks[t].startedAt.None? || tasks[t].startedAt.value < staleBefore)
  }

  function StaleBelow(tasks: map<nat, Task>, operators: set<string>, staleBefore: int, n: nat): (r: seq<nat>)
    ensures forall t: nat :: t in r <==> t < n && IsStale(tasks, operators, staleBefore, t)
  {
    if n == 0 then []
    else StaleBelow(tasks, operators, staleBefore, n - 1) + (if IsStale(tasks, operators, staleBefore, n - 1) then [n - 1] else [])
  }

  function RecoverEach(ids: seq<nat>): seq<Event> {
    seq(|ids|, i requires 0 <= i < |ids| => Recovered(ids[i]))
  }
}
