/**
 The rows behind the Gmail follow-up lane and every transaction on them, as functions from the
 state before the commit to the state after it (`gmail/submission.py`, `gmail/handoff.py`,
 `gmail/worker.py`, `gmail/tasks/follow_up.py`, `linkedin/message_delivery_runtime.py`).

 A transaction that raises is `Raised`: nothing it wrote survives. Clocks are integers.
 */
module GmailModel {
  import opened Outcomes
  import opened Text

  const POST_SEND_RECOVERY_DELAY := 300
  const DEFAULT_SEQUENCE := "gmail_fallback"

  datatype TaskStatus = Pending | Running | Completed | Failed

  // `Undelivered` is the delivery status the program calls "failed".
  datatype DeliveryStatus = Planned | Queued | Sending | Sent | Undelivered | Unclear | Stopped

  // The routing identity a Task is created with. No transaction rewrites it.
  datatype Payload = Payload(
    leadId: int, operator: string, sequenceName: string, stepIndex: int,
    dealId: Option<int>, deliveryId: Option<int>, versionId: Option<int>)

  // `attemptedAt` is the payload's submission marker.
  datatype Task = Task(
    status: TaskStatus, scheduledAt: int, startedAt: Option<int>, payload: Payload, attemptedAt: Option<int>)

  datatype Enrollment = Enrollment(version: int, operator: string)
  datatype Deal = Deal(leadId: int, versionActive: bool, enrollment: Option<Enrollment>)

  // `routeIntact` is the verdict of the frozen-route validation, which the environment may change.
  datatype Delivery = Delivery(
    dealId: int, operator: string, stepIndex: int, scheduledAt: int,
    status: DeliveryStatus, taskId: Option<nat>, routeIntact: bool)

  datatype Key =
    | DeliveryKey(deliveryId: int, version: int)
    | StepKey(operator: string, leadId: int, sequenceName: string, stepIndex: int)

  datatype Message = Message(leadId: int, key: Option<Key>, deliveryId: Option<int>, versionId: Option<int>)

  // Where one worker process stands between claiming a Task and letting it go.
  datatype Stage =
    | Picked       // read as the next due Task, not yet claimed
    | Claimed      // won the compare-and-set
    | SentSeen     // found, or just persisted, the Message of this step
    | Ready        // nothing sent yet, may go on
    | Gated        // past the early-claim guard
    | Permitted    // holds an unused delivery permit
    | Consumed     // permit used up, submission callback is next
    | Submitting   // the stamp returned True, the provider call is next
    | Accepted(externalId: nat) // the provider answered
    | Excepted     // the handler raised
    | Failing      // no reschedule, Task is about to be marked failed
    | Finishing    // the handler returned
    | Completing   // saw the Task still running

  datatype Worker = Worker(taskId: nat, payload: Payload, sawStamp: bool, delivery: Option<int>, stage: Stage)

  datatype Call = Call(taskId: nat, payload: Payload)

  datatype State = State(
    now: int, nextTask: nat,
    tasks: map<nat, Task>, deliveries: map<int, Delivery>, deals: map<int, Deal>,
    messages: map<nat, Message>, workers: map<nat, Worker>, calls: seq<Call>)

  // ---------------------------------------------------------------- identity

  // The key a persisted Message carries, or None when the payload identifies no message.
  function AutomationKey(p: Payload): Option<Key> {
    var operator := Trim(p.operator);
    var sequenceName := Trim(if p.sequenceName == "" then DEFAULT_SEQUENCE else p.sequenceName);
    if p.leadId <= 0 || operator == "" || sequenceName == "" || p.stepIndex < 0 then None
    else if p.deliveryId.Some? || p.versionId.Some? then
      if p.deliveryId.Some? && p.deliveryId.value > 0 && p.versionId.Some? && p.versionId.value > 0
      then Some(DeliveryKey(p.deliveryId.value, p.versionId.value))
      else None
    else Some(StepKey(operator, p.leadId, sequenceName, p.stepIndex))
  }

  predicate IsEvidence(m: Message, p: Payload) {
    && AutomationKey(p).Some?
    && m.leadId == p.leadId && m.key == AutomationKey(p)
    && (p.deliveryId.Some? ==> m.deliveryId == p.deliveryId && m.versionId == p.versionId)
  }

  predicate HasEvidence(messages: map<nat, Message>, p: Payload) {
    exists x | x in messages :: IsEvidence(messages[x], p)
  }

  // The handler's own lookup of an already sent step.
  predicate IsSentStep(m: Message, p: Payload, delivery: Option<int>) {
    && m.leadId == p.leadId
    && (if delivery.Some? then m.deliveryId == delivery && m.versionId == p.versionId
        else AutomationKey(p).Some? && m.key == AutomationKey(p))
  }

  predicate HasSentStep(messages: map<nat, Message>, p: Payload, delivery: Option<int>) {
    exists x | x in messages :: IsSentStep(messages[x], p, delivery)
  }

  predicate Stamped(task: Task) {
    task.attemptedAt.Some?
  }

  predicate Live(task: Task) {
    task.status == Pending || task.status == Running
  }

  // ------------------------------------------------------- routing validation

  // Ok(None) is the legacy lane, Ok(Some(d)) one exact frozen delivery.
  function Route(deals: map<int, Deal>, deliveries: map<int, Delivery>, p: Payload, taskId: Option<nat>)
    : Result<Option<int>>
  {
    if p.dealId.None? then
      if p.deliveryId.Some? || p.versionId.Some? then Raised else Ok(None)
    else if p.dealId.value !in deals then Raised
    else
      var deal := deals[p.dealId.value];
      if deal.leadId != p.leadId then Raised
      else if !deal.versionActive && deal.enrollment.None? then
        if p.deliveryId.Some? || p.versionId.Some? then Raised else Ok(None)
      else if p.deliveryId.None? || p.deliveryId.value <= 0 || p.versionId.None? || p.versionId.value <= 0 then Raised
      else if deal.enrollment.None? || p.deliveryId.value !in deliveries then Raised
      else
        var enrollment, delivery := deal.enrollment.value, deliveries[p.deliveryId.value];
        if || delivery.dealId != p.dealId.value
           || enrollment.version != p.versionId.value
           || delivery.operator != p.operator || enrollment.operator != p.operator
           || delivery.stepIndex != p.stepIndex
           || !delivery.routeIntact
           || (taskId.Some? && delivery.taskId != taskId)
        then Raised
        else Ok(p.deliveryId)
  }

  // ------------------------------------------------------------- row updates

  function SetTask(s: State, t: nat, task: Task): State {
    s.(tasks := s.tasks[t := task])
  }

  function SetDelivery(s: State, d: int, delivery: Delivery): State {
    s.(deliveries := s.deliveries[d := delivery])
  }

  function SetStage(s: State, w: nat, stage: Stage): State
    requires w in s.workers
  {
    s.(workers := s.workers[w := s.workers[w].(stage := stage)])
  }

  function Drop(s: State, w: nat): State {
    s.(workers := s.workers - {w})
  }

  predicate Absorbing(status: DeliveryStatus) {
    status == Sent || status == Unclear || status == Stopped
  }

  // mark_delivery_status
  function Mark(s: State, d: int, status: DeliveryStatus): Result<State>
    requires d in s.deliveries
  {
    var row := s.deliveries[d];
    if Absorbing(row.status) && status != row.status then Raised
    else if status == Sending && row.scheduledAt > s.now then Raised
    else Ok(SetDelivery(s, d, row.(status := status)))
  }

  function MarkIfBound(s: State, d: Option<int>, status: DeliveryStatus): Result<State>
    requires d.Some? ==> d.value in s.deliveries
  {
    if d.None? then Ok(s) else Mark(s, d.value, status)
  }

  // bind_delivery_task
  function Bind(s: State, d: int, t: nat): Result<State>
    requires d in s.deliveries && t in s.tasks
  {
    var row, task := s.deliveries[d], s.tasks[t];
    if row.status == Unclear || row.status == Stopped then Raised
    else if row.status == Sent then Ok(SetDelivery(s, d, row.(taskId := Some(t))))
    else
      var due := Max(task.scheduledAt, row.scheduledAt);
      Ok(SetDelivery(SetTask(s, t, task.(scheduledAt := due)), d,
                     row.(taskId := Some(t), status := Queued, scheduledAt := due)))
  }

  function Requeue(s: State, t: nat, at: int): State
    requires t in s.tasks
  {
    SetTask(s, t, s.tasks[t].(status := Pending, startedAt := None, scheduledAt := at))
  }

  function Fail(s: State, t: nat): State
    requires t in s.tasks
  {
    SetTask(s, t, s.tasks[t].(status := Failed))
  }

  // ------------------------------------------------- the submission boundary

  // `window` is Some(w) when the Deal's campaign starts at the invitation: w is the sender's
  // next active window, and the normalised due time is never before the due time or now.
  function DueAt(s: State, t: nat, d: Option<int>, window: Option<int>): int
    requires t in s.tasks && (d.Some? ==> d.value in s.deliveries)
  {
    var due := if d.None? then s.tasks[t].scheduledAt
               else Max(s.tasks[t].scheduledAt, s.deliveries[d.value].scheduledAt);
    if window.None? then due else Max(window.value, Max(due, s.now))
  }

  predicate SameClaim(p: Payload, q: Payload) {
    AutomationKey(p) == AutomationKey(q) && p.dealId == q.dealId
  }

  // The checks `defer_early` and `stamp` share, then the deferral: Ok((s', True)) deferred.
  function DeferIfEarly(s: State, t: nat, snapshot: Payload, window: Option<int>): Result<(State, bool)> {
    if t !in s.tasks || !SameClaim(s.tasks[t].payload, snapshot) then Raised
    else if s.tasks[t].status != Running || Stamped(s.tasks[t]) then Raised
    else
      var route := Route(s.deals, s.deliveries, s.tasks[t].payload, Some(t));
      if route.Raised? then Raised
      else if route.value.Some? && s.deliveries[route.value.value].status != Queued then Raised
      else
        var due := DueAt(s, t, route.value, window);
        if due <= s.now then Ok((s, false)) else Ok((Requeue(s, t, due), true))
  }

  // stamp_submission_attempt: Ok((s', True)) is the one answer that lets the provider call happen.
  function Stamp(s: State, t: nat, snapshot: Payload, window: Option<int>): Result<(State, bool)> {
    var gate := DeferIfEarly(s, t, snapshot, window);
    if gate.Raised? then Raised
    else if gate.value.1 then Ok((gate.value.0, false))
    else
      var s1 := SetTask(s, t, s.tasks[t].(attemptedAt := Some(s.now)));
      var route := Route(s.deals, s.deliveries, s.tasks[t].payload, Some(t));
      var s2 := MarkIfBound(s1, route.value, Sending);
      if s2.Raised? then Raised else Ok((s2.value, true))
  }

  // recover_stale_current_gmail_task
  function Recover(s: State, t: nat): Result<(State, bool)> {
    if t !in s.tasks || s.tasks[t].status != Running then Ok((s, false))
    else
      var task := s.tasks[t];
      var route := Route(s.deals, s.deliveries, task.payload, Some(t));
      if route.Raised? then Ok((Fail(s, t), true))
      else
        var d := route.value;
        var status := if d.Some? then s.deliveries[d.value].status else Planned;
        if status == Stopped || status == Unclear then Ok((Fail(s, t), true))
        else if status == Sent || status == Sending || Stamped(task) then
          if HasEvidence(s.messages, task.payload) then
            var s1 := MarkIfBound(s, d, Sent);
            if s1.Raised? then Raised else Ok((Requeue(s1.value, t, s.now), true))
          else if status == Sent then Ok((Fail(s, t), true))
          else
            var s1 := MarkIfBound(s, d, Unclear);
            if s1.Raised? then Raised else Ok((Fail(s1.value, t), true))
        else
          var s1 := MarkIfBound(s, d, Queued);
          if s1.Raised? then Raised else Ok((Requeue(s1.value, t, task.scheduledAt), true))
  }

  // reschedule_persisted_current_gmail_task
  function Reschedule(s: State, t: nat): Result<(State, bool)> {
    if t !in s.tasks || s.tasks[t].status != Running || !Stamped(s.tasks[t]) then Ok((s, false))
    else
      var task := s.tasks[t];
      var route := Route(s.deals, s.deliveries, task.payload, Some(t));
      if route.Raised? then Ok((s, false))
      else
        var d := route.value;
        if d.Some? && (s.deliveries[d.value].status == Stopped || s.deliveries[d.value].status == Unclear)
        then Ok((s, false))
        else if !HasEvidence(s.messages, task.payload) then Ok((s, false))
        else
          var s1 := MarkIfBound(s, d, Sent);
          if s1.Raised? then Raised
          else Ok((Requeue(s1.value, t, s.now + POST_SEND_RECOVERY_DELAY), true))
  }

  // ------------------------------------------------------------------ enqueue

  predicate SameStep(p: Payload, q: Payload) {
    p.leadId == q.leadId && p.operator == q.operator && p.sequenceName == q.sequenceName && p.stepIndex == q.stepIndex
  }

  // The Tasks below `n` that already stand for the step, oldest first.
  function Matching(tasks: map<nat, Task>, p: Payload, d: Option<int>, n: nat): (r: seq<nat>)
    ensures forall t :: t in r <==> t < n && t in tasks && SameStep(tasks[t].payload, p) && (d.Some? ==> tasks[t].payload.deliveryId == d)
  {
    if n == 0 then []
    else
      var t := n - 1;
      Matching(tasks, p, d, t) +
      (if t in tasks && SameStep(tasks[t].payload, p) && (d.Some? ==> tasks[t].payload.deliveryId == d) then [t] else [])
  }

  function Candidates(s: State, p: Payload, d: Option<int>): seq<nat>
    requires d.Some? ==> d.value in s.deliveries
  {
    if d.Some? && s.deliveries[d.value].taskId.Some? then [s.deliveries[d.value].taskId.value]
    else Matching(s.tasks, p, d, s.nextTask)
  }

  // The per-candidate identity check of the versioned lane.
  predicate CandidateBound(s: State, c: nat, p: Payload, d: Option<int>) {
    d.None? || (c in s.tasks &&
    var q := s.tasks[c].payload;
    && q.dealId == p.dealId && q.leadId == p.leadId && q.operator == p.operator && q.stepIndex == p.stepIndex
    && Route(s.deals, s.deliveries, p.(deliveryId := q.deliveryId, versionId := q.versionId), Some(c)).Ok?)
  }

  // First candidate still pending or running, checking each candidate's binding on the way.
  function ScanLive(s: State, cs: seq<nat>, p: Payload, d: Option<int>): (r: Result<Option<nat>>)
    ensures r.Ok? && r.value.Some? ==> r.value.value in cs && r.value.value in s.tasks
    ensures r.Ok? && r.value.None? ==> forall c :: c in cs ==> (c in s.tasks ==> !Live(s.tasks[c])) && CandidateBound(s, c, p, d)
  {
    if cs == [] then Ok(None)
    else if !CandidateBound(s, cs[0], p, d) then Raised
    else if cs[0] in s.tasks && Live(s.tasks[cs[0]]) then Ok(Some(cs[0]))
    else ScanLive(s, cs[1..], p, d)
  }

  function ScanStamped(s: State, cs: seq<nat>): (r: Option<nat>)
    ensures r.Some? ==> r.value in cs && r.value in s.tasks && Stamped(s.tasks[r.value])
    ensures r.None? ==> forall c :: c in cs && c in s.tasks ==> !Stamped(s.tasks[c])
  {
    if cs == [] then None
    else if cs[0] in s.tasks && Stamped(s.tasks[cs[0]]) then Some(cs[0])
    else ScanStamped(s, cs[1..])
  }

  // A stamped candidate: only a failed one with its Message may run again, and never to resend.
  function ReviveStamped(s: State, c: nat, d: Option<int>): Result<State>
    requires c in s.tasks && (d.Some? ==> d.value in s.deliveries)
  {
    if s.tasks[c].status == Failed && HasEvidence(s.messages, s.tasks[c].payload)
    then MarkIfBound(Requeue(s, c, s.now), d, Sent)
    else Ok(s)
  }

  function CreateTask(s: State, p: Payload, d: Option<int>, at: int): Result<State>
    requires d.Some? ==> d.value in s.deliveries
  {
    var s1 := SetTask(s, s.nextTask, Task(Pending, at, None, p, None)).(nextTask := s.nextTask + 1);
    if d.None? then Ok(s1) else Bind(s1, d.value, s.nextTask)
  }

  // enqueue_gmail_follow_up. `held` collects the lane-off, inactive-campaign, drip-owned and
  // known-stop answers; `p` carries the caller's arguments.
  function Enqueue(s: State, p: Payload, held: bool, delay: int): Result<(State, Option<nat>)> {
    if p.operator == "" then Raised
    else if held then Ok((s, None))
    else
      var route := Route(s.deals, s.deliveries, p, None);
      if route.Raised? then Raised
      else
        var d := route.value;
        if d.Some? && (s.deliveries[d.value].status == Stopped || s.deliveries[d.value].status == Unclear)
        then Ok((s, None))
        else
          var cs := Candidates(s, p, d);
          var live := ScanLive(s, cs, p, d);
          if live.Raised? then Raised
          else if live.value.Some? then Ok((s, live.value))
          else
            var stamped := ScanStamped(s, cs);
            if stamped.Some? then
              var s1 := ReviveStamped(s, stamped.value, d);
              if s1.Raised? then Raised else Ok((s1.value, stamped))
            else if d.Some? && cs != [] then
              if s.tasks[cs[0]].status == Failed then
                var at := Max(s.deliveries[d.value].scheduledAt, s.now);
                var s1 := Bind(Requeue(s, cs[0], at), d.value, cs[0]);
                if s1.Raised? then Raised else Ok((s1.value, Some(cs[0])))
              else Ok((s, Some(cs[0])))
            else
              var at := if d.Some? then s.deliveries[d.value].scheduledAt else s.now + Max(delay, 0);
              var s1 := CreateTask(s, p, d, at);
              if s1.Raised? then Raised else Ok((s1.value, Some(s.nextTask)))
  }

  // ------------------------------------------------------- one worker's steps

  // Reading the queue head and claiming it are two statements; another process may come between.
  function Pick(s: State, w: nat, t: nat): State {
    if w !in s.workers && t in s.tasks && s.tasks[t].status == Pending && s.tasks[t].scheduledAt <= s.now
    then s.(workers := s.workers[w := Worker(t, s.tasks[t].payload, Stamped(s.tasks[t]), None, Picked)])
    else s
  }

  function Claim(s: State, w: nat): State
    requires w in s.workers
  {
    var t := s.workers[w].taskId;
    if t in s.tasks && s.tasks[t].status == Pending
    then SetStage(SetTask(s, t, s.tasks[t].(status := Running, startedAt := Some(s.now))), w, Claimed)
    else Drop(s, w)
  }

  // The handler's checks before its first write, all on one read of the rows. Its own status
  // writes are `Mark` events, which any process may issue at any time.
  function Prelude(s: State, w: nat): State
    requires w in s.workers
  {
    var wk := s.workers[w];
    var route := Route(s.deals, s.deliveries, wk.payload, Some(wk.taskId));
    if route.Raised? then SetStage(s, w, Excepted)
    else
      var d := route.value;
      var status := if d.Some? then s.deliveries[d.value].status else Queued;
      var s1 := s.(workers := s.workers[w := wk.(delivery := d)]);
      if status == Stopped || status == Unclear || status == Undelivered || status == Planned then SetStage(s, w, Excepted)
      else if d.None? && AutomationKey(wk.payload).None? then SetStage(s, w, Excepted)
      else if HasSentStep(s.messages, wk.payload, d) then SetStage(s1, w, SentSeen)
      else if status == Sent || status == Sending || wk.sawStamp then SetStage(s, w, Excepted)
      else SetStage(s1, w, Ready)
  }

  function Gate(s: State, w: nat, window: Option<int>): State
    requires w in s.workers
  {
    var r := DeferIfEarly(s, s.workers[w].taskId, s.workers[w].payload, window);
    if r.Raised? then SetStage(s, w, Excepted)
    else if r.value.1 then SetStage(r.value.0, w, Finishing)
    else SetStage(s, w, Gated)
  }

  // issue_gmail_delivery_permit for an already claimed Task whose operator needs no trimming.
  function Permit(s: State, w: nat): State
    requires w in s.workers
  {
    var wk := s.workers[w];
    if && wk.taskId in s.tasks && s.tasks[wk.taskId].status == Running
       && AutomationKey(wk.payload).Some? && s.tasks[wk.taskId].payload.operator == Trim(wk.payload.operator)
    then SetStage(s, w, Permitted)
    else SetStage(s, w, Excepted)
  }

  function Submit(s: State, w: nat, window: Option<int>): State
    requires w in s.workers
  {
    var r := Stamp(s, s.workers[w].taskId, s.workers[w].payload, window);
    if r.Raised? then SetStage(s, w, Excepted)
    else if r.value.1 then SetStage(r.value.0, w, Submitting)
    else SetStage(r.value.0, w, Finishing)
  }

  // The provider call. It may be answered, or fail with the message possibly sent.
  function Execute(s: State, w: nat, answer: Option<nat>): State
    requires w in s.workers
  {
    var wk := s.workers[w];
    SetStage(s.(calls := s.calls + [Call(wk.taskId, wk.payload)]), w,
             if answer.Some? then Accepted(answer.value) else Excepted)
  }

  // _persist_outbound
  function Persist(s: State, w: nat): State
    requires w in s.workers && s.workers[w].stage.Accepted?
  {
    var wk := s.workers[w];
    var x := wk.stage.externalId;
    var copy := Message(wk.payload.leadId, AutomationKey(wk.payload), wk.delivery, wk.payload.versionId);
    if && x in s.messages
       && (s.messages[x].leadId != wk.payload.leadId || (s.messages[x].key.Some? && s.messages[x].key != copy.key))
    then SetStage(s, w, Excepted)
    else
      var merged := if x in s.messages && wk.delivery.None?
                    then copy.(deliveryId := s.messages[x].deliveryId, versionId := s.messages[x].versionId)
                    else copy;
      SetStage(s.(messages := s.messages[x := merged]), w, SentSeen)
  }

  function MarkOwnSent(s: State, w: nat): State
    requires w in s.workers
  {
    var wk := s.workers[w];
    if wk.delivery.Some? && wk.delivery.value !in s.deliveries then SetStage(s, w, Excepted)
    else
      var r := MarkIfBound(s, wk.delivery, Sent);
      if r.Raised? then SetStage(s, w, Excepted) else SetStage(r.value, w, Finishing)
  }

  function Heal(s: State, w: nat): State
    requires w in s.workers
  {
    var r := Reschedule(s, s.workers[w].taskId);
    if r.Raised? then Drop(s, w)
    else if r.value.1 then Drop(r.value.0, w)
    else SetStage(s, w, Failing)
  }

  // mark_failed and mark_completed write whatever the status is by now.
  function Overwrite(s: State, w: nat, status: TaskStatus): State
    requires w in s.workers
  {
    var t := s.workers[w].taskId;
    if t in s.tasks then Drop(SetTask(s, t, s.tasks[t].(status := status)), w) else Drop(s, w)
  }

  function Refresh(s: State, w: nat): State
    requires w in s.workers
  {
    var t := s.workers[w].taskId;
    if t in s.tasks && s.tasks[t].status == Running then SetStage(s, w, Completing) else Drop(s, w)
  }

  // ------------------------------------------------------------------- events

  datatype Event =
    | Tick(to: int)
    | DealChanged(dealId: int, deal: Deal)
    | DeliveryCreated(deliveryId: int, dealId: int, operator: string, stepIndex: int, at: int)
    | DeliveryTouched(deliveryId: int, at: int, routeIntact: bool)
    | DeliveryMarked(deliveryId: int, status: DeliveryStatus)
    | MessageSynced(externalId: nat, leadId: int)
    | Enqueued(payload: Payload, held: bool, delay: int)
    | Recovered(taskId: nat)
    | PickedUp(worker: nat, taskId: nat)
    | Stepped(worker: nat, window: Option<int>, answer: Option<nat>)
    | Returned(worker: nat) // the handler gives up quietly: inactive campaign, known stop, no template
    | Broke(worker: nat)    // the handler raises where it stands
    | Crashed(worker: nat)  // the process dies where it stands

  function StepWorker(s: State, w: nat, window: Option<int>, answer: Option<nat>): State
    requires w in s.workers
  {
    match s.workers[w].stage
    case Picked => Claim(s, w)
    case Claimed => Prelude(s, w)
    case SentSeen => MarkOwnSent(s, w)
    case Ready => Gate(s, w, window)
    case Gated => Permit(s, w)
    case Permitted => SetStage(s, w, Consumed)
    case Consumed => Submit(s, w, window)
    case Submitting => Execute(s, w, answer)
    case Accepted(_) => Persist(s, w)
    case Excepted => Heal(s, w)
    case Failing => Overwrite(s, w, Failed)
    case Finishing => Refresh(s, w)
    case Completing => Overwrite(s, w, Completed)
  }

  predicate InHandler(stage: Stage) {
    !stage.Picked? && !stage.Failing? && !stage.Completing?
  }

  function Step(s: State, e: Event): State {
    match e
    case Tick(to) => s.(now := Max(s.now, to))
    case DealChanged(id, deal) => s.(deals := s.deals[id := deal])
    case DeliveryCreated(id, deal, operator, step, at) =>
      if id in s.deliveries then s
      else SetDelivery(s, id, Delivery(deal, operator, step, at, Planned, None, true))
    case DeliveryTouched(id, at, intact) =>
      if id in s.deliveries then SetDelivery(s, id, s.deliveries[id].(scheduledAt := at, routeIntact := intact)) else s
    case DeliveryMarked(id, status) =>
      if id in s.deliveries && (status == Undelivered || status == Unclear || status == Stopped) then
        var r := Mark(s, id, status);
        if r.Ok? then r.value else s
      else s
    case MessageSynced(x, lead) =>
      if x in s.messages then s else s.(messages := s.messages[x := Message(lead, None, None, None)])
    case Enqueued(p, held, delay) =>
      var r := Enqueue(s, p, held, delay);
      if r.Ok? then r.value.0 else s
    case Recovered(t) =>
      var r := Recover(s, t);
      if r.Ok? then r.value.0 else s
    case PickedUp(w, t) => Pick(s, w, t)
    case Stepped(w, window, answer) => if w in s.workers then StepWorker(s, w, window, answer) else s
    case Returned(w) =>
      if w in s.workers && (s.workers[w].stage.Claimed? || s.workers[w].stage.Ready? || s.workers[w].stage.Gated?)
      then SetStage(s, w, Finishing) else s
    case Broke(w) => if w in s.workers && InHandler(s.workers[w].stage) then SetStage(s, w, Excepted) else s
    case Crashed(w) => Drop(s, w)
  }

  const Empty := State(0, 0, map[], map[], map[], map[], map[], [])

  function Run(s: State, events: seq<Event>): State
    decreases |events|
  {
    if events == [] then s else Run(Step(s, events[0]), events[1..])
  }
}
