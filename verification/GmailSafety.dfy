/**
 What every run of the Gmail lane keeps: an automated message reaches the provider at most once,
 and Task and delivery rows tell the same story about it.
 */
module GmailSafety {
  import opened Outcomes
  import opened Text
  import opened GmailModel

  // ---------------------------------------------------------------- invariant

  predicate Active(task: Task) {
    Live(task) || Stamped(task)
  }

  // A delivery and the one Task created for it point at each other for good.
  ghost predicate Bound(nextTask: nat, tasks: map<nat, Task>, deliveries: map<int, Delivery>) {
    && (forall t | t in tasks :: t < nextTask)
    && (forall t | t in tasks && tasks[t].payload.deliveryId.Some? ::
          tasks[t].payload.deliveryId.value in deliveries && deliveries[tasks[t].payload.deliveryId.value].taskId == Some(t))
    && (forall d | d in deliveries && deliveries[d].taskId.Some? ::
          deliveries[d].taskId.value in tasks && tasks[deliveries[d].taskId.value].payload.deliveryId == Some(d))
  }

  ghost predicate Legacy(task: Task) {
    task.payload.deliveryId.None?
  }

  // At most one Task of a legacy step is pending, running or stamped.
  ghost predicate OneActivePerStep(tasks: map<nat, Task>) {
    forall t, u | t in tasks && u in tasks && t != u && Legacy(tasks[t]) && Legacy(tasks[u])
                  && SameStep(tasks[t].payload, tasks[u].payload) ::
      !(Active(tasks[t]) && Active(tasks[u]))
  }

  ghost predicate BoundStamped(tasks: map<nat, Task>, deliveries: map<int, Delivery>, d: int) {
    d in deliveries && deliveries[d].taskId.Some? && deliveries[d].taskId.value in tasks
    && Stamped(tasks[deliveries[d].taskId.value])
  }

  ghost predicate BoundUnstamped(tasks: map<nat, Task>, deliveries: map<int, Delivery>, d: int) {
    d in deliveries && deliveries[d].taskId.Some? && deliveries[d].taskId.value in tasks
    && !Stamped(tasks[deliveries[d].taskId.value])
  }

  ghost predicate Lockstep(tasks: map<nat, Task>, deliveries: map<int, Delivery>) {
    forall d | d in deliveries ::
      && (deliveries[d].status == Queued ==> BoundUnstamped(tasks, deliveries, d))
      && (deliveries[d].status == Sending || deliveries[d].status == Sent ==> BoundStamped(tasks, deliveries, d))
  }

  ghost predicate Owes(workers: map<nat, Worker>, w: nat, t: nat) {
    w in workers && workers[w].stage.Submitting? && workers[w].taskId == t
  }

  ghost predicate Called(calls: seq<Call>, t: nat) {
    exists i | 0 <= i < |calls| :: calls[i].taskId == t
  }

  // What a delivery permit was issued for: a full identity and an operator that needs no trimming.
  ghost predicate Sendable(p: Payload) {
    AutomationKey(p).Some? && p.operator == Trim(p.operator)
  }

  // The log names stamped Tasks, each once.
  ghost predicate CallsPaid(tasks: map<nat, Task>, calls: seq<Call>) {
    && (forall i | 0 <= i < |calls| :: calls[i].taskId in tasks && Stamped(tasks[calls[i].taskId])
                                      && tasks[calls[i].taskId].payload == calls[i].payload && Sendable(calls[i].payload))
    && (forall i, j | 0 <= i < j < |calls| :: calls[i].taskId != calls[j].taskId)
  }

  // A call still to come belongs to one worker and to a stamped Task not yet in the log.
  ghost predicate CallsOwed(tasks: map<nat, Task>, calls: seq<Call>, workers: map<nat, Worker>) {
    && (forall w, t | Owes(workers, w, t) :: t in tasks && Stamped(tasks[t]) && !Called(calls, t))
    && (forall v, w, t | Owes(workers, v, t) && Owes(workers, w, t) :: v == w)
  }

  // What a worker remembers of its Task is still true, and an answered worker's call is logged.
  ghost predicate Faithful(tasks: map<nat, Task>, deliveries: map<int, Delivery>, calls: seq<Call>, wk: Worker) {
    && wk.taskId in tasks && tasks[wk.taskId].payload == wk.payload
    && (wk.delivery.Some? ==> wk.delivery == wk.payload.deliveryId)
    && (wk.stage.Permitted? || wk.stage.Consumed? || wk.stage.Submitting? ==> Sendable(wk.payload))
    && (wk.stage.Accepted? ==> Called(calls, wk.taskId))
    && (wk.stage.SentSeen? && wk.delivery.Some? ==> BoundStamped(tasks, deliveries, wk.delivery.value))
  }

  ghost predicate WorkersFaithful(tasks: map<nat, Task>, deliveries: map<int, Delivery>, calls: seq<Call>, workers: map<nat, Worker>) {
    forall w | w in workers :: Faithful(tasks, deliveries, calls, workers[w])
  }

  ghost predicate KeyCalled(calls: seq<Call>, key: Option<Key>) {
    exists i | 0 <= i < |calls| :: AutomationKey(calls[i].payload) == key
  }

  // A Message that names a delivery or a key was paid for by a logged call.
  ghost predicate MessagesEarned(tasks: map<nat, Task>, deliveries: map<int, Delivery>, calls: seq<Call>, messages: map<nat, Message>) {
    forall x | x in messages ::
      && (messages[x].deliveryId.Some? ==> BoundStamped(tasks, deliveries, messages[x].deliveryId.value))
      && (messages[x].key.Some? ==> KeyCalled(calls, messages[x].key))
  }

  ghost predicate Inv(s: State) {
    && Bound(s.nextTask, s.tasks, s.deliveries)
    && OneActivePerStep(s.tasks)
    && Lockstep(s.tasks, s.deliveries)
    && CallsPaid(s.tasks, s.calls)
    && CallsOwed(s.tasks, s.calls, s.workers)
    && WorkersFaithful(s.tasks, s.deliveries, s.calls, s.workers)
    && MessagesEarned(s.tasks, s.deliveries, s.calls, s.messages)
  }

  lemma LockstepHolds(s: State)
    requires Inv(s)
    ensures forall d | d in s.deliveries ::
              && (s.deliveries[d].status == Queued ==> BoundUnstamped(s.tasks, s.deliveries, d))
              && (s.deliveries[d].status == Sending || s.deliveries[d].status == Sent ==> BoundStamped(s.tasks, s.deliveries, d))
  {
  }

  lemma DeliveryStory(s: State, d: int)
    requires Inv(s) && d in s.deliveries
    ensures s.deliveries[d].status == Queued ==> BoundUnstamped(s.tasks, s.deliveries, d)
    ensures s.deliveries[d].status == Sending || s.deliveries[d].status == Sent ==> BoundStamped(s.tasks, s.deliveries, d)
  {
  }

  lemma MessageStory(s: State, x: nat)
    requires Inv(s) && x in s.messages && s.messages[x].deliveryId.Some?
    ensures BoundStamped(s.tasks, s.deliveries, s.messages[x].deliveryId.value)
  {
  }

  lemma WorkerStory(s: State, w: nat)
    requires Inv(s) && w in s.workers
    ensures Faithful(s.tasks, s.deliveries, s.calls, s.workers[w])
  {
  }

  // ------------------------------------------------------- single row updates

  // Rows only gained: payloads stay, stamps and links are never taken back.
  ghost predicate Grown(s: State, tasks: map<nat, Task>, deliveries: map<int, Delivery>) {
    && (forall t | t in s.tasks :: t in tasks && tasks[t].payload == s.tasks[t].payload && (Stamped(s.tasks[t]) ==> Stamped(tasks[t])))
    && (forall d | d in s.deliveries :: d in deliveries && (s.deliveries[d].taskId.Some? ==> deliveries[d].taskId == s.deliveries[d].taskId))
  }

  // What calls, workers and Messages rely on survives any growth.
  lemma CarryOver(s: State, tasks: map<nat, Task>, deliveries: map<int, Delivery>)
    requires Inv(s) && Grown(s, tasks, deliveries)
    ensures CallsPaid(tasks, s.calls) && CallsOwed(tasks, s.calls, s.workers)
    ensures WorkersFaithful(tasks, deliveries, s.calls, s.workers) && MessagesEarned(tasks, deliveries, s.calls, s.messages)
  {
    assert forall d :: BoundStamped(s.tasks, s.deliveries, d) ==> BoundStamped(tasks, deliveries, d);
  }

  lemma SameSteps(tasks: map<nat, Task>, t: nat, task: Task)
    requires OneActivePerStep(tasks) && t in tasks && task.payload == tasks[t].payload
    requires Legacy(task) && Active(task) ==> Active(tasks[t])
    ensures OneActivePerStep(tasks[t := task])
  {
  }

  // Links and lockstep when no link, payload or stamp changes and each row's status is justified.
  lemma RowsCarry(s: State, tasks: map<nat, Task>, deliveries: map<int, Delivery>)
    requires Inv(s) && tasks.Keys == s.tasks.Keys && s.deliveries.Keys <= deliveries.Keys
    requires forall t | t in tasks :: tasks[t].payload == s.tasks[t].payload && tasks[t].attemptedAt == s.tasks[t].attemptedAt
    requires forall d | d in deliveries :: deliveries[d].taskId == if d in s.deliveries then s.deliveries[d].taskId else None
    requires forall d | d in deliveries ::
               && (deliveries[d].status == Queued ==> BoundUnstamped(s.tasks, s.deliveries, d))
               && (deliveries[d].status == Sending || deliveries[d].status == Sent ==> BoundStamped(s.tasks, s.deliveries, d))
    ensures Bound(s.nextTask, tasks, deliveries) && Lockstep(tasks, deliveries)
  {
    hide OneActivePerStep, CallsPaid, CallsOwed, WorkersFaithful, MessagesEarned;
    forall d | d in deliveries && deliveries[d].taskId.Some?
      ensures deliveries[d].taskId.value in tasks && tasks[deliveries[d].taskId.value].payload.deliveryId == Some(d)
    {
      assert d in s.deliveries && s.deliveries[d].taskId == deliveries[d].taskId;
    }
    forall t | t in tasks && tasks[t].payload.deliveryId.Some?
      ensures tasks[t].payload.deliveryId.value in deliveries && deliveries[tasks[t].payload.deliveryId.value].taskId == Some(t)
    {
      var d := s.tasks[t].payload.deliveryId.value;
      assert d in s.deliveries && s.deliveries[d].taskId == Some(t);
      assert d in deliveries;
      assert deliveries[d].taskId == s.deliveries[d].taskId;
    }
    assert Bound(s.nextTask, tasks, deliveries);
    assert forall d :: BoundStamped(s.tasks, s.deliveries, d) ==> BoundStamped(tasks, deliveries, d);
    assert forall d :: BoundUnstamped(s.tasks, s.deliveries, d) ==> BoundUnstamped(tasks, deliveries, d);
  }

  // Status, due time and start time of one Task.
  lemma TaskRowKeeps(s: State, t: nat, task: Task)
    requires Inv(s) && t in s.tasks
    requires task.payload == s.tasks[t].payload && task.attemptedAt == s.tasks[t].attemptedAt
    requires Legacy(task) && Active(task) ==> Active(s.tasks[t])
    ensures Inv(SetTask(s, t, task))
  {
    LockstepHolds(s);
    hide Bound, OneActivePerStep, Lockstep, CallsPaid, CallsOwed, WorkersFaithful, MessagesEarned;
    RowsCarry(s, s.tasks[t := task], s.deliveries);
    SameSteps(s.tasks, t, task);
    CarryOver(s, s.tasks[t := task], s.deliveries);
  }

  // Status, due time and route verdict of one delivery.
  lemma DeliveryRowKeeps(s: State, d: int, row: Delivery)
    requires Inv(s) && row.taskId == if d in s.deliveries then s.deliveries[d].taskId else None
    requires row.status == Queued ==> BoundUnstamped(s.tasks, s.deliveries, d)
    requires row.status == Sending || row.status == Sent ==> BoundStamped(s.tasks, s.deliveries, d)
    ensures Inv(SetDelivery(s, d, row))
  {
    LockstepHolds(s);
    hide Bound, OneActivePerStep, Lockstep, CallsPaid, CallsOwed, WorkersFaithful, MessagesEarned;
    RowsCarry(s, s.tasks, s.deliveries[d := row]);
    CarryOver(s, s.tasks, s.deliveries[d := row]);
  }

  // One worker moves, nothing else does, and it does not gain the right to call.
  lemma WorkerRowKeeps(s: State, w: nat, wk: Worker)
    requires Inv(s) && !wk.stage.Submitting?
    requires Faithful(s.tasks, s.deliveries, s.calls, wk)
    ensures Inv(s.(workers := s.workers[w := wk]))
  {
    var workers := s.workers[w := wk];
    assert forall v, t :: Owes(workers, v, t) ==> Owes(s.workers, v, t);
    assert CallsOwed(s.tasks, s.calls, workers);
  }

  lemma StageKeeps(s: State, w: nat, stage: Stage)
    requires Inv(s) && w in s.workers
    requires !stage.Submitting? && !stage.Accepted? && !stage.SentSeen?
    requires stage.Permitted? || stage.Consumed? ==> Sendable(s.workers[w].payload)
    ensures Inv(SetStage(s, w, stage))
  {
    WorkerRowKeeps(s, w, s.workers[w].(stage := stage));
  }

  lemma DropKeeps(s: State, w: nat)
    requires Inv(s)
    ensures Inv(Drop(s, w))
  {
    assert forall v, t :: Owes(Drop(s, w).workers, v, t) ==> Owes(s.workers, v, t);
  }

  // ------------------------------------------------------ routes and marking

  lemma RouteFacts(s: State, p: Payload, taskId: Option<nat>)
    requires Route(s.deals, s.deliveries, p, taskId).Ok?
    ensures var d := Route(s.deals, s.deliveries, p, taskId).value;
            d == p.deliveryId && (d.Some? ==> d.value in s.deliveries && (taskId.Some? ==> s.deliveries[d.value].taskId == taskId))
  {
  }

  lemma MarkKeeps(s: State, d: Option<int>, status: DeliveryStatus)
    requires Inv(s) && (d.Some? ==> d.value in s.deliveries)
    requires d.Some? && status == Queued ==> BoundUnstamped(s.tasks, s.deliveries, d.value)
    requires d.Some? && (status == Sending || status == Sent) ==> BoundStamped(s.tasks, s.deliveries, d.value)
    ensures MarkIfBound(s, d, status).Ok? ==> Inv(MarkIfBound(s, d, status).value)
  {
    if d.Some? && Mark(s, d.value, status).Ok? {
      DeliveryRowKeeps(s, d.value, s.deliveries[d.value].(status := status));
    }
  }

  // --------------------------------------------------------------- transactions

  lemma DeferKeeps(s: State, t: nat, snapshot: Payload, window: Option<int>)
    requires Inv(s)
    ensures DeferIfEarly(s, t, snapshot, window).Ok? ==> Inv(DeferIfEarly(s, t, snapshot, window).value.0)
  {
    hide Inv;
    var r := DeferIfEarly(s, t, snapshot, window);
    if r.Ok? && r.value.1 {
      var route := Route(s.deals, s.deliveries, s.tasks[t].payload, Some(t));
      TaskRowKeeps(s, t, s.tasks[t].(status := Pending, startedAt := None, scheduledAt := DueAt(s, t, route.value, window)));
    }
  }

  lemma StampedLinks(s: State, t: nat, d: Option<int>)
    requires Inv(s) && t in s.tasks && s.tasks[t].status == Running
    requires d == s.tasks[t].payload.deliveryId && (d.Some? ==> d.value in s.deliveries)
    ensures var tasks := s.tasks[t := s.tasks[t].(attemptedAt := Some(s.now))];
            var deliveries := if d.None? then s.deliveries else s.deliveries[d.value := s.deliveries[d.value].(status := Sending)];
            Bound(s.nextTask, tasks, deliveries) && OneActivePerStep(tasks) && Lockstep(tasks, deliveries)
  {
    var tasks := s.tasks[t := s.tasks[t].(attemptedAt := Some(s.now))];
    var deliveries := if d.None? then s.deliveries else s.deliveries[d.value := s.deliveries[d.value].(status := Sending)];
    hide CallsPaid, CallsOwed, WorkersFaithful, MessagesEarned;
    assert OneActivePerStep(tasks) by { hide Bound, Lockstep; }
    assert Bound(s.nextTask, tasks, deliveries) by { hide OneActivePerStep, Lockstep; }
    hide OneActivePerStep;
    assert forall c :: BoundStamped(s.tasks, s.deliveries, c) ==> BoundStamped(tasks, deliveries, c);
    assert forall c :: BoundUnstamped(s.tasks, s.deliveries, c) && s.deliveries[c].taskId != Some(t) ==> BoundUnstamped(tasks, deliveries, c);
  }

  lemma StampOwes(s: State, w: nat, tasks: map<nat, Task>)
    requires Inv(s) && w in s.workers && CallsOwed(tasks, s.calls, s.workers)
    requires var t := s.workers[w].taskId; t in s.tasks && !Stamped(s.tasks[t]) && t in tasks && Stamped(tasks[t])
    ensures CallsOwed(tasks, s.calls, s.workers[w := s.workers[w].(stage := Submitting)])
  {
    hide OneActivePerStep, Bound, Lockstep, WorkersFaithful, MessagesEarned;
    var t := s.workers[w].taskId;
    var workers := s.workers[w := s.workers[w].(stage := Submitting)];
    assert forall v, u :: Owes(workers, v, u) ==> Owes(s.workers, v, u) || (v == w && u == t);
    assert forall v :: !Owes(s.workers, v, t);
  }

  lemma StampedKeeps(s: State, w: nat, d: Option<int>)
    requires Inv(s) && w in s.workers && s.workers[w].stage.Consumed?
    requires var t := s.workers[w].taskId;
             && t in s.tasks && s.tasks[t].status == Running && !Stamped(s.tasks[t])
             && d == s.tasks[t].payload.deliveryId && (d.Some? ==> d.value in s.deliveries)
    ensures var t := s.workers[w].taskId;
            Inv(s.(tasks := s.tasks[t := s.tasks[t].(attemptedAt := Some(s.now))],
                   deliveries := if d.None? then s.deliveries else s.deliveries[d.value := s.deliveries[d.value].(status := Sending)],
                   workers := s.workers[w := s.workers[w].(stage := Submitting)]))
  {
    var t := s.workers[w].taskId;
    var tasks := s.tasks[t := s.tasks[t].(attemptedAt := Some(s.now))];
    var deliveries := if d.None? then s.deliveries else s.deliveries[d.value := s.deliveries[d.value].(status := Sending)];
    var workers := s.workers[w := s.workers[w].(stage := Submitting)];
    hide OneActivePerStep, Bound, Lockstep, CallsPaid, CallsOwed, MessagesEarned;
    StampedLinks(s, t, d);
    CarryOver(s, tasks, deliveries);
    StampOwes(s, w, tasks);
    assert Faithful(tasks, deliveries, s.calls, workers[w]);
  }

  // The stamp and the delivery's move to Sending commit together with the worker's right to call.
  lemma StampKeeps(s: State, w: nat, window: Option<int>)
    requires Inv(s) && w in s.workers && s.workers[w].stage.Consumed?
    ensures Inv(Submit(s, w, window))
  {
    hide Inv;
    var t, p := s.workers[w].taskId, s.workers[w].payload;
    var r := Stamp(s, t, p, window);
    DeferKeeps(s, t, p, window);
    if r.Raised? {
      StageKeeps(s, w, Excepted);
    } else if !r.value.1 {
      StageKeeps(r.value.0, w, Finishing);
    } else {
      RouteFacts(s, s.tasks[t].payload, Some(t));
      StampedKeeps(s, w, s.tasks[t].payload.deliveryId);
    }
  }

  lemma RecoverKeeps(s: State, t: nat)
    requires Inv(s)
    ensures Recover(s, t).Ok? && Inv(Recover(s, t).value.0)
  {
    hide Inv;
    if t in s.tasks && s.tasks[t].status == Running {
      var task := s.tasks[t];
      var route := Route(s.deals, s.deliveries, task.payload, Some(t));
      if route.Raised? {
        TaskRowKeeps(s, t, task.(status := Failed));
      } else {
        RouteFacts(s, task.payload, Some(t));
        var d := route.value;
        if d.Some? { DeliveryStory(s, d.value); }
        MarkKeeps(s, d, Unclear);
        if Stamped(task) { MarkKeeps(s, d, Sent); } else { MarkKeeps(s, d, Queued); }
        forall s1: State, row: Task
          | Inv(s1) && t in s1.tasks && s1.tasks[t] == task && row.payload == task.payload && row.attemptedAt == task.attemptedAt
          ensures Inv(SetTask(s1, t, row))
        {
          TaskRowKeeps(s1, t, row);
        }
      }
    }
  }

  lemma RescheduleKeeps(s: State, t: nat)
    requires Inv(s)
    ensures Reschedule(s, t).Ok? && Inv(Reschedule(s, t).value.0)
  {
    hide Inv;
    if t in s.tasks && s.tasks[t].status == Running && Stamped(s.tasks[t]) {
      var task := s.tasks[t];
      var route := Route(s.deals, s.deliveries, task.payload, Some(t));
      if route.Ok? {
        RouteFacts(s, task.payload, Some(t));
        MarkKeeps(s, route.value, Sent);
        if MarkIfBound(s, route.value, Sent).Ok? {
          TaskRowKeeps(MarkIfBound(s, route.value, Sent).value, t,
                       task.(status := Pending, startedAt := None, scheduledAt := s.now + POST_SEND_RECOVERY_DELAY));
        }
      }
    }
  }

  lemma BindKeeps(s: State, d: int, t: nat)
    requires Inv(s) && d in s.deliveries && t in s.tasks
    requires s.deliveries[d].taskId == Some(t) && !Stamped(s.tasks[t])
    ensures Bind(s, d, t).Ok? ==> Inv(Bind(s, d, t).value)
  {
    hide Inv;
    var row, task := s.deliveries[d], s.tasks[t];
    var due := Max(task.scheduledAt, row.scheduledAt);
    TaskRowKeeps(s, t, task.(scheduledAt := due));
    var s1 := SetTask(s, t, task.(scheduledAt := due));
    DeliveryRowKeeps(s1, d, row.(status := Queued, scheduledAt := due));
    assert row.(taskId := Some(t)) == row && s.deliveries[d := row] == s.deliveries;
  }

  lemma CreatedLinks(s: State, p: Payload, d: Option<int>, task: Task, deliveries: map<int, Delivery>)
    requires Inv(s) && d == p.deliveryId && task.payload == p && !Stamped(task)
    requires if d.None? then deliveries == s.deliveries
             else d.value in s.deliveries && d.value in deliveries && s.deliveries[d.value].taskId.None?
                  && deliveries == s.deliveries[d.value := deliveries[d.value]]
                  && deliveries[d.value].taskId == Some(s.nextTask) && deliveries[d.value].status == Queued
    requires d.None? ==> forall t | t in s.tasks && SameStep(s.tasks[t].payload, p) :: !Active(s.tasks[t])
    ensures var tasks := s.tasks[s.nextTask := task];
            Bound(s.nextTask + 1, tasks, deliveries) && OneActivePerStep(tasks) && Lockstep(tasks, deliveries)
  {
    hide CallsPaid, CallsOwed, WorkersFaithful, MessagesEarned;
    var tasks := s.tasks[s.nextTask := task];
    assert s.nextTask !in s.tasks;
    assert OneActivePerStep(tasks);
    assert Bound(s.nextTask + 1, tasks, deliveries);
    hide OneActivePerStep, Bound;
    assert forall c :: BoundStamped(s.tasks, s.deliveries, c) ==> BoundStamped(tasks, deliveries, c);
    assert forall c :: BoundUnstamped(s.tasks, s.deliveries, c) ==> BoundUnstamped(tasks, deliveries, c);
  }

  lemma CreatedKeeps(s: State, p: Payload, d: Option<int>, task: Task, deliveries: map<int, Delivery>)
    requires Inv(s) && d == p.deliveryId && task.payload == p && !Stamped(task)
    requires if d.None? then deliveries == s.deliveries
             else d.value in s.deliveries && d.value in deliveries && s.deliveries[d.value].taskId.None?
                  && deliveries == s.deliveries[d.value := deliveries[d.value]]
                  && deliveries[d.value].taskId == Some(s.nextTask) && deliveries[d.value].status == Queued
    requires d.None? ==> forall t | t in s.tasks && SameStep(s.tasks[t].payload, p) :: !Active(s.tasks[t])
    ensures Inv(s.(nextTask := s.nextTask + 1, tasks := s.tasks[s.nextTask := task], deliveries := deliveries))
  {
    CreatedLinks(s, p, d, task, deliveries);
    assert s.nextTask !in s.tasks;
    CarryOver(s, s.tasks[s.nextTask := task], deliveries);
  }

  // A new Task, bound to its delivery in the same transaction.
  lemma CreateKeeps(s: State, p: Payload, d: Option<int>, at: int)
    requires Inv(s) && d == p.deliveryId && (d.Some? ==> d.value in s.deliveries && s.deliveries[d.value].taskId.None?)
    requires d.None? ==> forall t | t in s.tasks && SameStep(s.tasks[t].payload, p) :: !Active(s.tasks[t])
    ensures CreateTask(s, p, d, at).Ok? ==> Inv(CreateTask(s, p, d, at).value)
  {
    hide Inv;
    var r := CreateTask(s, p, d, at);
    if r.Ok? {
      if d.Some? { DeliveryStory(s, d.value); }
      var task := r.value.tasks[s.nextTask];
      CreatedKeeps(s, p, d, task, r.value.deliveries);
      assert r.value.tasks == s.tasks[s.nextTask := task];
    }
  }

  lemma EnqueueKeeps(s: State, p: Payload, held: bool, delay: int)
    requires Inv(s)
    ensures Enqueue(s, p, held, delay).Ok? ==> Inv(Enqueue(s, p, held, delay).value.0)
  {
    hide Inv;
    var r := Enqueue(s, p, held, delay);
    if r.Ok? && !held {
      RouteFacts(s, p, None);
      var d := Route(s.deals, s.deliveries, p, None).value;
      var cs := Candidates(s, p, d);
      var live, stamped := ScanLive(s, cs, p, d), ScanStamped(s, cs);
      if live.Ok? && live.value.None? {
        if stamped.Some? {
          ReviveKeeps(s, stamped.value, d, p);
        } else if d.Some? && cs != [] {
          CandidateIsBound(s, cs[0], p, d);
          if s.tasks[cs[0]].status == Failed {
            var at := Max(s.deliveries[d.value].scheduledAt, s.now);
            TaskRowKeeps(s, cs[0], s.tasks[cs[0]].(status := Pending, startedAt := None, scheduledAt := at));
            BindKeeps(Requeue(s, cs[0], at), d.value, cs[0]);
          }
        } else {
          NoOther(s, p, d);
          CreateKeeps(s, p, d, if d.Some? then s.deliveries[d.value].scheduledAt else s.now + Max(delay, 0));
        }
      }
    }
  }

  // With no candidate left to return, no Task stands in the way of a new one.
  lemma {:induction false} NoOther(s: State, p: Payload, d: Option<int>)
    requires Inv(s) && d == p.deliveryId && (d.Some? ==> d.value in s.deliveries)
    requires var cs := Candidates(s, p, d);
             && ScanLive(s, cs, p, d) == Ok(None) && ScanStamped(s, cs).None? && (d.Some? ==> cs == [])
    ensures d.Some? ==> s.deliveries[d.value].taskId.None?
    ensures d.None? ==> forall t | t in s.tasks && SameStep(s.tasks[t].payload, p) :: !Active(s.tasks[t])
  {
    var cs := Candidates(s, p, d);
    forall t | d.None? && t in s.tasks && SameStep(s.tasks[t].payload, p)
      ensures !Active(s.tasks[t])
    {
      assert t in cs;
    }
  }

  // Whatever survives the identity check of the versioned lane is the delivery's own Task.
  lemma CandidateIsBound(s: State, c: nat, p: Payload, d: Option<int>)
    requires Inv(s) && d.Some? && d.value in s.deliveries
    requires c in Candidates(s, p, d) && CandidateBound(s, c, p, d)
    ensures c in s.tasks && s.deliveries[d.value].taskId == Some(c)
  {
  }

  lemma ReviveKeeps(s: State, c: nat, d: Option<int>, p: Payload)
    requires Inv(s) && c in s.tasks && Stamped(s.tasks[c]) && (d.Some? ==> d.value in s.deliveries)
    requires c in Candidates(s, p, d) && CandidateBound(s, c, p, d)
    ensures ReviveStamped(s, c, d).Ok? ==> Inv(ReviveStamped(s, c, d).value)
  {
    hide Inv;
    if d.Some? { CandidateIsBound(s, c, p, d); }
    TaskRowKeeps(s, c, s.tasks[c].(status := Pending, startedAt := None, scheduledAt := s.now));
    MarkKeeps(Requeue(s, c, s.now), d, Sent);
  }

  // ------------------------------------------------------------- worker steps

  lemma PickKeeps(s: State, w: nat, t: nat)
    requires Inv(s)
    ensures Inv(Pick(s, w, t))
  {
    if w !in s.workers && t in s.tasks {
      WorkerRowKeeps(s, w, Worker(t, s.tasks[t].payload, Stamped(s.tasks[t]), None, Picked));
    }
  }

  lemma ClaimKeeps(s: State, w: nat)
    requires Inv(s) && w in s.workers
    ensures Inv(Claim(s, w))
  {
    hide Inv;
    WorkerStory(s, w);
    var t := s.workers[w].taskId;
    if s.tasks[t].status == Pending {
      var task := s.tasks[t].(status := Running, startedAt := Some(s.now));
      TaskRowKeeps(s, t, task);
      StageKeeps(SetTask(s, t, task), w, Claimed);
    } else {
      DropKeeps(s, w);
    }
  }

  lemma PreludeKeeps(s: State, w: nat)
    requires Inv(s) && w in s.workers
    ensures Inv(Prelude(s, w))
  {
    hide Inv;
    WorkerStory(s, w);
    var wk := s.workers[w];
    StageKeeps(s, w, Excepted);
    var route := Route(s.deals, s.deliveries, wk.payload, Some(wk.taskId));
    if route.Ok? {
      RouteFacts(s, wk.payload, Some(wk.taskId));
      var d := route.value;
      WorkerRowKeeps(s, w, wk.(delivery := d, stage := Ready));
      var s1 := s.(workers := s.workers[w := wk.(delivery := d)]);
      assert SetStage(s1, w, Ready).workers == s.workers[w := wk.(delivery := d, stage := Ready)];
      assert SetStage(s1, w, SentSeen).workers == s.workers[w := wk.(delivery := d, stage := SentSeen)];
      if HasSentStep(s.messages, wk.payload, d) {
        var x :| x in s.messages && IsSentStep(s.messages[x], wk.payload, d);
        if d.Some? { MessageStory(s, x); }
        WorkerRowKeeps(s, w, wk.(delivery := d, stage := SentSeen));
      }
    }
  }

  lemma GateKeeps(s: State, w: nat, window: Option<int>)
    requires Inv(s) && w in s.workers
    ensures Inv(Gate(s, w, window))
  {
    hide Inv;
    var r := DeferIfEarly(s, s.workers[w].taskId, s.workers[w].payload, window);
    DeferKeeps(s, s.workers[w].taskId, s.workers[w].payload, window);
    if r.Raised? { StageKeeps(s, w, Excepted); }
    else if r.value.1 { StageKeeps(r.value.0, w, Finishing); }
    else { StageKeeps(s, w, Gated); }
  }

  // The call moves from owed to logged.
  lemma ExecuteKeeps(s: State, w: nat, answer: Option<nat>)
    requires Inv(s) && w in s.workers && s.workers[w].stage.Submitting?
    ensures Inv(Execute(s, w, answer))
  {
    hide AutomationKey, Bound, OneActivePerStep, Lockstep;
    var s' := Execute(s, w, answer);
    var t := s.workers[w].taskId;
    assert Owes(s.workers, w, t);
    LogGrows(s.calls, Call(t, s.workers[w].payload));
    assert forall v, u :: Owes(s'.workers, v, u) ==> Owes(s.workers, v, u) && v != w;
  }

  lemma LogGrows(calls: seq<Call>, c: Call)
    ensures forall u :: Called(calls + [c], u) <==> Called(calls, u) || u == c.taskId
    ensures forall key :: KeyCalled(calls, key) ==> KeyCalled(calls + [c], key)
  {
    var more := calls + [c];
    assert more[|calls|] == c;
    forall u | Called(calls, u) ensures Called(more, u) {
      var i :| 0 <= i < |calls| && calls[i].taskId == u;
      assert more[i].taskId == u;
    }
    forall key | KeyCalled(calls, key) ensures KeyCalled(more, key) {
      var i :| 0 <= i < |calls| && AutomationKey(calls[i].payload) == key;
      assert AutomationKey(more[i].payload) == key;
    }
  }

  lemma OwnDeliveryStamped(s: State, t: nat)
    requires Inv(s) && t in s.tasks && Stamped(s.tasks[t]) && s.tasks[t].payload.deliveryId.Some?
    ensures BoundStamped(s.tasks, s.deliveries, s.tasks[t].payload.deliveryId.value)
  {
  }

  lemma PersistKeeps(s: State, w: nat)
    requires Inv(s) && w in s.workers && s.workers[w].stage.Accepted?
    ensures Inv(Persist(s, w))
  {
    hide AutomationKey, Trim, TrimLeft, TrimRight, OneActivePerStep, Bound, Lockstep;
    var wk, s' := s.workers[w], Persist(s, w);
    StageKeeps(s, w, Excepted);
    var i :| 0 <= i < |s.calls| && s.calls[i].taskId == wk.taskId;
    assert KeyCalled(s.calls, AutomationKey(wk.payload));
    if wk.delivery.Some? {
      OwnDeliveryStamped(s, wk.taskId);
    }
    WorkerRowKeeps(s, w, wk.(stage := SentSeen));
    hide CallsPaid, CallsOwed, WorkersFaithful;
    assert MessagesEarned(s'.tasks, s'.deliveries, s'.calls, s'.messages);
  }

  lemma MarkOwnSentKeeps(s: State, w: nat)
    requires Inv(s) && w in s.workers && s.workers[w].stage.SentSeen?
    ensures Inv(MarkOwnSent(s, w))
  {
    hide Inv;
    WorkerStory(s, w);
    var d := s.workers[w].delivery;
    MarkKeeps(s, d, Sent);
    var r := MarkIfBound(s, d, Sent);
    if r.Ok? { StageKeeps(r.value, w, Finishing); } else { StageKeeps(s, w, Excepted); }
  }

  lemma OverwriteKeeps(s: State, w: nat, status: TaskStatus)
    requires Inv(s) && w in s.workers && (status == Failed || status == Completed)
    ensures Inv(Overwrite(s, w, status))
  {
    hide Inv;
    WorkerStory(s, w);
    var t := s.workers[w].taskId;
    TaskRowKeeps(s, t, s.tasks[t].(status := status));
    DropKeeps(SetTask(s, t, s.tasks[t].(status := status)), w);
  }

  lemma WorkerKeeps(s: State, w: nat, window: Option<int>, answer: Option<nat>)
    requires Inv(s) && w in s.workers
    ensures Inv(StepWorker(s, w, window, answer))
  {
    hide Inv, Claim, Prelude, Gate, Submit, Execute, Persist, Overwrite, MarkOwnSent;
    WorkerStory(s, w);
    match s.workers[w].stage {
      case Picked => ClaimKeeps(s, w);
      case Claimed => PreludeKeeps(s, w);
      case SentSeen => MarkOwnSentKeeps(s, w);
      case Ready => GateKeeps(s, w, window);
      case Gated =>
        StageKeeps(s, w, Excepted);
        if Sendable(s.workers[w].payload) { StageKeeps(s, w, Permitted); }
      case Permitted => StageKeeps(s, w, Consumed);
      case Consumed => StampKeeps(s, w, window);
      case Submitting => ExecuteKeeps(s, w, answer);
      case Accepted(_) => PersistKeeps(s, w);
      case Excepted =>
        var r := Reschedule(s, s.workers[w].taskId);
        RescheduleKeeps(s, s.workers[w].taskId);
        if r.value.1 { DropKeeps(r.value.0, w); } else { StageKeeps(s, w, Failing); }
      case Failing => OverwriteKeeps(s, w, Failed);
      case Finishing => StageKeeps(s, w, Completing); DropKeeps(s, w);
      case Completing => OverwriteKeeps(s, w, Completed);
    }
  }

  // ------------------------------------------------------------ steps and runs

  lemma EnvironmentKeeps(s: State, e: Event)
    requires Inv(s) && (e.Tick? || e.DealChanged? || e.DeliveryCreated? || e.MessageSynced?)
    ensures Inv(Step(s, e))
  {
    match e {
      case DeliveryCreated(id, deal, operator, step, at) =>
        if id !in s.deliveries { DeliveryRowKeeps(s, id, Delivery(deal, operator, step, at, Planned, None, true)); }
      case _ =>
    }
  }

  lemma StepKeeps(s: State, e: Event)
    requires Inv(s)
    ensures Inv(Step(s, e))
  {
    hide Inv;
    match e {
      case Tick(_) => EnvironmentKeeps(s, e);
      case DealChanged(_, _) => EnvironmentKeeps(s, e);
      case DeliveryCreated(_, _, _, _, _) => EnvironmentKeeps(s, e);
      case MessageSynced(_, _) => EnvironmentKeeps(s, e);
      case DeliveryTouched(d, at, intact) =>
        if d in s.deliveries { DeliveryStory(s, d); DeliveryRowKeeps(s, d, s.deliveries[d].(scheduledAt := at, routeIntact := intact)); }
      case DeliveryMarked(d, status) =>
        if d in s.deliveries && (status == Undelivered || status == Unclear || status == Stopped) { MarkKeeps(s, Some(d), status); }
      case Enqueued(p, held, delay) => EnqueueKeeps(s, p, held, delay);
      case Recovered(t) => RecoverKeeps(s, t);
      case PickedUp(w, t) => PickKeeps(s, w, t);
      case Stepped(w, window, answer) => if w in s.workers { WorkerKeeps(s, w, window, answer); }
      case Returned(w) => if w in s.workers { StageKeeps(s, w, Finishing); }
      case Broke(w) => if w in s.workers { StageKeeps(s, w, Excepted); }
      case Crashed(w) => DropKeeps(s, w);
    }
  }

  lemma {:induction false} RunKeeps(s: State, events: seq<Event>)
    requires Inv(s)
    ensures Inv(Run(s, events))
    decreases |events|
  {
    hide Inv;
    if events != [] {
      StepKeeps(s, events[0]);
      RunKeeps(Step(s, events[0]), events[1..]);
    }
  }
}
