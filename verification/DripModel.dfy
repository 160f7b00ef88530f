/**
 The drip lifecycle as the Admin actions change it (`drip/admin.py`), one transaction at a time.
 */
module DripModel {
  import opened Outcomes

  datatype CampaignStatus = Draft | CampaignActive | CampaignPaused | Retired

  datatype EnrollmentStatus = Waiting | EnrollmentActive | EnrollmentPaused | EnrollmentStopped | EnrollmentCompleted

  datatype LaneStatus = WaitingCurrent | WaitingConnection | LaneActive | LanePaused | LaneStopped | LaneCompleted

  datatype DeliveryStatus = Planned | Queued | Sending | Sent | Failed | Unclear | Stopped

  datatype TaskStatus = Pending | Running | Completed | TaskFailed

  datatype Campaign = Campaign(status: CampaignStatus, versioned: bool)

  datatype Enrollment = Enrollment(campaign: int, lead: int, status: EnrollmentStatus)

  datatype Lane = Lane(enrollment: int, status: LaneStatus, handedOff: bool)

  datatype Delivery = Delivery(lane: int, status: DeliveryStatus, task: Option<int>)

  // `attempts` maps each delivery attempt to its delivery.
  datatype Tables = Tables(
    campaigns: map<int, Campaign>, enrollments: map<int, Enrollment>, lanes: map<int, Lane>,
    deliveries: map<int, Delivery>, attempts: map<int, int>, tasks: map<int, TaskStatus>)

  predicate Terminal(status: LaneStatus) {
    status.LaneStopped? || status.LaneCompleted?
  }

  predicate Ended(status: EnrollmentStatus) {
    status.EnrollmentStopped? || status.EnrollmentCompleted?
  }

  predicate Unsent(status: DeliveryStatus) {
    status.Planned? || status.Queued?
  }

  // Foreign keys.
  ghost predicate Linked(t: Tables) {
    && (forall e | e in t.enrollments :: t.enrollments[e].campaign in t.campaigns)
    && (forall l | l in t.lanes :: t.lanes[l].enrollment in t.enrollments)
    && (forall d | d in t.deliveries :: t.deliveries[d].lane in t.lanes)
    && (forall d | d in t.deliveries && t.deliveries[d].task.Some? :: t.deliveries[d].task.value in t.tasks)
  }

  // ------------------------------------------------------------- retiring pending work

  function LaneDeliveries(t: Tables, lanes: set<int>): set<int> {
    set d | d in t.deliveries && t.deliveries[d].lane in lanes
  }

  function PendingTasks(t: Tables, affected: set<int>): set<int> {
    set d | d in affected && d in t.deliveries && t.deliveries[d].task.Some? && t.deliveries[d].task.value in t.tasks
            && t.tasks[t.deliveries[d].task.value] == Pending :: t.deliveries[d].task.value
  }

  function RetiredDelivery(d: Delivery, pending: set<int>, stop: bool): Delivery {
    var bound := d.task.Some? && d.task.value in pending;
    d.(task := if bound then None else d.task,
       status := if !Unsent(d.status) then d.status else if stop then Stopped else if bound then Planned else d.status)
  }

  // _retire_pending_tasks
  function Retire(t: Tables, affected: set<int>, stop: bool): Tables {
    var pending := PendingTasks(t, affected);
    t.(deliveries := map d | d in t.deliveries :: if d in affected then RetiredDelivery(t.deliveries[d], pending, stop) else t.deliveries[d],
       tasks := map k | k in t.tasks :: if k in pending then Completed else t.tasks[k])
  }

  // ---------------------------------------------------------------------- lanes

  function PausedLane(l: Lane): Lane {
    if Terminal(l.status) then l else l.(status := LanePaused)
  }

  function StoppedLane(l: Lane): Lane {
    if Terminal(l.status) then l else l.(status := LaneStopped)
  }

  function WithLanes(t: Tables, lanes: map<int, Lane>): Tables {
    t.(lanes := lanes)
  }

  function MarkLanesPaused(t: Tables, selected: set<int>): Tables {
    WithLanes(t, map l | l in t.lanes :: if l in selected then PausedLane(t.lanes[l]) else t.lanes[l])
  }

  function MarkLanesStopped(t: Tables, selected: set<int>): Tables {
    WithLanes(t, map l | l in t.lanes :: if l in selected then StoppedLane(t.lanes[l]) else t.lanes[l])
  }

  function LanesAt(t: Tables, selected: set<int>, status: LaneStatus): set<int> {
    set l | l in selected && l in t.lanes && t.lanes[l].status == status
  }

  function PauseLanes(t: Tables, selected: set<int>): Tables {
    var t1 := MarkLanesPaused(t, selected);
    Retire(t1, LaneDeliveries(t1, LanesAt(t1, selected, LanePaused)), false)
  }

  function StopLanes(t: Tables, selected: set<int>): Tables {
    var t1 := MarkLanesStopped(t, selected);
    Retire(t1, LaneDeliveries(t1, LanesAt(t1, selected, LaneStopped)), true)
  }

  predicate HasUnclear(t: Tables, lane: int) {
    exists d | d in t.deliveries :: t.deliveries[d].lane == lane && t.deliveries[d].status == Unclear
  }

  // May this paused lane go back to automation?
  predicate Resumable(t: Tables, l: int)
    requires l in t.lanes
  {
    && t.lanes[l].status == LanePaused && !HasUnclear(t, l)
    && t.lanes[l].enrollment in t.enrollments
    && var e := t.enrollments[t.lanes[l].enrollment];
       (e.status == Waiting || e.status == EnrollmentActive)
       && e.campaign in t.campaigns && t.campaigns[e.campaign].status == CampaignActive
  }

  function ResumeLanes(t: Tables, selected: set<int>): Tables {
    WithLanes(t, map l | l in t.lanes ::
      if l in selected && Resumable(t, l) then t.lanes[l].(status := if t.lanes[l].handedOff then LaneActive else WaitingCurrent)
      else t.lanes[l])
  }

  // ------------------------------------------------------------------ enrollments

  // The lanes of the selected enrollments; only enrollments with a lane are reached at all.
  function LanesOf(t: Tables, enrollments: set<int>): set<int> {
    set l | l in t.lanes && t.lanes[l].enrollment in enrollments
  }

  predicate Reached(t: Tables, selected: set<int>, e: int) {
    e in selected && exists l | l in t.lanes :: t.lanes[l].enrollment == e
  }

  function WithEnrollments(t: Tables, enrollments: map<int, Enrollment>): Tables {
    t.(enrollments := enrollments)
  }

  function PausedEnrollment(e: Enrollment): Enrollment {
    if e.status == Waiting || e.status == EnrollmentActive then e.(status := EnrollmentPaused) else e
  }

  function MarkEnrollmentsPaused(t: Tables, selected: set<int>): Tables {
    WithEnrollments(t, map e | e in t.enrollments ::
      if Reached(t, selected, e) then PausedEnrollment(t.enrollments[e]) else t.enrollments[e])
  }

  function PauseEnrollments(t: Tables, selected: set<int>): Tables {
    var t1 := MarkEnrollmentsPaused(t, selected);
    Retire(t1, LaneDeliveries(t1, LanesOf(t1, selected)), false)
  }

  predicate HasWaitingLane(t: Tables, e: int) {
    exists l | l in t.lanes :: t.lanes[l].enrollment == e && (t.lanes[l].status == WaitingCurrent || t.lanes[l].status == WaitingConnection)
  }

  function ResumedEnrollment(t: Tables, id: int, e: Enrollment): Enrollment {
    if e.status == EnrollmentPaused then e.(status := if HasWaitingLane(t, id) then Waiting else EnrollmentActive) else e
  }

  function ResumeEnrollments(t: Tables, selected: set<int>): Tables {
    WithEnrollments(t, map e | e in t.enrollments ::
      if Reached(t, selected, e) then ResumedEnrollment(t, e, t.enrollments[e]) else t.enrollments[e])
  }

  function StoppedEnrollment(e: Enrollment): Enrollment {
    if Ended(e.status) then e else e.(status := EnrollmentStopped)
  }

  function MarkEnrollmentsStopped(t: Tables, selected: set<int>): Tables {
    WithEnrollments(t, map e | e in t.enrollments ::
      if Reached(t, selected, e) then StoppedEnrollment(t.enrollments[e]) else t.enrollments[e])
  }

  function MarkTheirLanesStopped(t: Tables, selected: set<int>): Tables {
    WithLanes(t, map l | l in t.lanes :: if t.lanes[l].enrollment in selected then StoppedLane(t.lanes[l]) else t.lanes[l])
  }

  function StopEnrollments(t: Tables, selected: set<int>): Tables {
    var t2 := MarkTheirLanesStopped(MarkEnrollmentsStopped(t, selected), selected);
    Retire(t2, LaneDeliveries(t2, LanesOf(t2, selected)), true)
  }

  // -------------------------------------------------------------------- campaigns

  function ActiveAmong(t: Tables, selected: set<int>): set<int> {
    set c | c in selected && c in t.campaigns && t.campaigns[c].status == CampaignActive
  }

  function EnrollmentsOf(t: Tables, campaigns: set<int>): set<int> {
    set e | e in t.enrollments && t.enrollments[e].campaign in campaigns
  }

  function PauseCampaigns(t: Tables, selected: set<int>): Tables {
    var active := ActiveAmong(t, selected);
    var t1 := Retire(t, LaneDeliveries(t, LanesOf(t, EnrollmentsOf(t, active))), false);
    t1.(campaigns := map c | c in t.campaigns :: if c in active then t.campaigns[c].(status := CampaignPaused) else t.campaigns[c])
  }

  function ResumeCampaigns(t: Tables, selected: set<int>): Tables {
    t.(campaigns := map c | c in t.campaigns ::
      if c in selected && t.campaigns[c].status == CampaignPaused && t.campaigns[c].versioned
      then t.campaigns[c].(status := CampaignActive) else t.campaigns[c])
  }

  // ------------------------------------------------------------------------- runs

  datatype Action =
    | PausesLanes(selected: set<int>)
    | ResumesLanes(selected: set<int>)
    | StopsLanes(selected: set<int>)
    | PausesEnrollments(selected: set<int>)
    | ResumesEnrollments(selected: set<int>)
    | StopsEnrollments(selected: set<int>)
    | PausesCampaigns(selected: set<int>)
    | ResumesCampaigns(selected: set<int>)

  function Step(t: Tables, a: Action): Tables {
    match a
    case PausesLanes(s) => PauseLanes(t, s)
    case ResumesLanes(s) => ResumeLanes(t, s)
    case StopsLanes(s) => StopLanes(t, s)
    case PausesEnrollments(s) => PauseEnrollments(t, s)
    case ResumesEnrollments(s) => ResumeEnrollments(t, s)
    case StopsEnrollments(s) => StopEnrollments(t, s)
    case PausesCampaigns(s) => PauseCampaigns(t, s)
    case ResumesCampaigns(s) => ResumeCampaigns(t, s)
  }

  function Run(t: Tables, actions: seq<Action>): Tables
    decreases |actions|
  {
    if actions == [] then t else Run(Step(t, actions[0]), actions[1..])
  }

  // ------------------------------------------------------------------- what stays

  // What any Admin action leaves of the tables before it.
  ghost predicate Respects(t: Tables, t1: Tables) {
    && t1.lanes.Keys == t.lanes.Keys && t1.enrollments.Keys == t.enrollments.Keys
    && t1.deliveries.Keys == t.deliveries.Keys && t1.tasks.Keys == t.tasks.Keys
    && (forall l | l in t.lanes :: LaneStays(t, t1, l))
    && (forall e | e in t.enrollments :: e in t1.enrollments && (Ended(t.enrollments[e].status) ==> t1.enrollments[e] == t.enrollments[e]))
    && (forall d | d in t.deliveries :: DeliveryStays(t, t1, d))
    && (forall k | k in t.tasks :: k in t1.tasks && (t1.tasks[k] == t.tasks[k] || (t.tasks[k] == Pending && t1.tasks[k] == Completed)))
  }

  // An ended lane stays as it is; a paused lane with an unclear delivery can only be stopped.
  ghost predicate LaneStays(t: Tables, t1: Tables, l: int)
    requires l in t.lanes
  {
    && l in t1.lanes && t1.lanes[l].enrollment == t.lanes[l].enrollment
    && (Terminal(t.lanes[l].status) ==> t1.lanes[l] == t.lanes[l])
    && (t.lanes[l].status == LanePaused && HasUnclear(t, l) ==> t1.lanes[l].status == LanePaused || t1.lanes[l].status == LaneStopped)
  }

  // A delivery whose sending began keeps its status.
  ghost predicate DeliveryStays(t: Tables, t1: Tables, d: int)
    requires d in t.deliveries
  {
    && d in t1.deliveries && t1.deliveries[d].lane == t.deliveries[d].lane
    && (!Unsent(t.deliveries[d].status) ==> t1.deliveries[d].status == t.deliveries[d].status)
    && (t1.deliveries[d].status == Unclear ==> t.deliveries[d].status == Unclear)
  }

  lemma RetireRespects(t: Tables, affected: set<int>, stop: bool)
    ensures Respects(t, Retire(t, affected, stop))
  {
  }

  lemma RespectsThen(t: Tables, t1: Tables, t2: Tables)
    requires Respects(t, t1) && Respects(t1, t2)
    ensures Respects(t, t2)
  {
    hide HasUnclear;
    forall l | l in t.lanes ensures LaneStays(t, t2, l) {
      assert LaneStays(t, t1, l) && LaneStays(t1, t2, l);
      UnclearStays(t, t1, l);
    }
    forall d | d in t.deliveries ensures DeliveryStays(t, t2, d) {
      assert DeliveryStays(t, t1, d) && DeliveryStays(t1, t2, d);
    }
  }

  lemma UnclearStays(t: Tables, t1: Tables, l: int)
    requires Respects(t, t1)
    ensures HasUnclear(t, l) <==> HasUnclear(t1, l)
  {
    if HasUnclear(t, l) {
      var d :| d in t.deliveries && t.deliveries[d].lane == l && t.deliveries[d].status == Unclear;
      assert DeliveryStays(t, t1, d);
    }
    if HasUnclear(t1, l) {
      var d :| d in t1.deliveries && t1.deliveries[d].lane == l && t1.deliveries[d].status == Unclear;
      assert DeliveryStays(t, t1, d);
    }
  }

  lemma LanesRespect(t: Tables, lanes: map<int, Lane>)
    requires lanes.Keys == t.lanes.Keys && forall l | l in t.lanes :: LaneStays(t, WithLanes(t, lanes), l)
    ensures Respects(t, WithLanes(t, lanes))
  {
    hide HasUnclear, LaneStays;
  }

  lemma EnrollmentsRespect(t: Tables, enrollments: map<int, Enrollment>)
    requires enrollments.Keys == t.enrollments.Keys
    requires forall e | e in t.enrollments :: Ended(t.enrollments[e].status) ==> enrollments[e] == t.enrollments[e]
    ensures Respects(t, WithEnrollments(t, enrollments))
  {
  }

  lemma ThenRetire(t: Tables, t1: Tables, affected: set<int>, stop: bool)
    requires Respects(t, t1)
    ensures Respects(t, Retire(t1, affected, stop))
  {
    hide Respects, Retire;
    RetireRespects(t1, affected, stop);
    RespectsThen(t, t1, Retire(t1, affected, stop));
  }

  lemma PauseLanesRespects(t: Tables, s: set<int>)
    ensures Respects(t, PauseLanes(t, s))
  {
    var t1 := MarkLanesPaused(t, s);
    LanesRespect(t, t1.lanes);
    hide Respects, Retire, LanesAt, LaneDeliveries, MarkLanesPaused;
    ThenRetire(t, t1, LaneDeliveries(t1, LanesAt(t1, s, LanePaused)), false);
  }

  lemma StopLanesRespects(t: Tables, s: set<int>)
    ensures Respects(t, StopLanes(t, s))
  {
    var t1 := MarkLanesStopped(t, s);
    LanesRespect(t, t1.lanes);
    hide Respects, Retire, LanesAt, LaneDeliveries, MarkLanesStopped;
    ThenRetire(t, t1, LaneDeliveries(t1, LanesAt(t1, s, LaneStopped)), true);
  }

  lemma PauseEnrollmentsRespects(t: Tables, s: set<int>)
    ensures Respects(t, PauseEnrollments(t, s))
  {
    var t1 := MarkEnrollmentsPaused(t, s);
    EnrollmentsRespect(t, t1.enrollments);
    hide Respects, Retire, LaneDeliveries, LanesOf, MarkEnrollmentsPaused;
    ThenRetire(t, t1, LaneDeliveries(t1, LanesOf(t1, s)), false);
  }

  lemma StopEnrollmentsRespects(t: Tables, s: set<int>)
    ensures Respects(t, StopEnrollments(t, s))
  {
    var t1 := MarkEnrollmentsStopped(t, s);
    var t2 := MarkTheirLanesStopped(t1, s);
    EnrollmentsRespect(t, t1.enrollments);
    LanesRespect(t1, t2.lanes);
    hide Respects, Retire, LaneDeliveries, LanesOf, MarkEnrollmentsStopped, MarkTheirLanesStopped;
    RespectsThen(t, t1, t2);
    ThenRetire(t, t2, LaneDeliveries(t2, LanesOf(t2, s)), true);
  }

  lemma CampaignsRespect(t: Tables, campaigns: map<int, Campaign>)
    ensures Respects(t, t.(campaigns := campaigns))
  {
  }

  lemma PauseCampaignsRespects(t: Tables, s: set<int>)
    ensures Respects(t, PauseCampaigns(t, s))
  {
    var affected := LaneDeliveries(t, LanesOf(t, EnrollmentsOf(t, ActiveAmong(t, s))));
    RetireRespects(t, affected, false);
    hide Respects, Retire;
    CampaignsRespect(Retire(t, affected, false), PauseCampaigns(t, s).campaigns);
    RespectsThen(t, Retire(t, affected, false), PauseCampaigns(t, s));
  }

  // Every Admin action: ended lanes and enrollments never leave, sending, sent, failed and unclear
  // deliveries keep their status, an unclear lane never goes back to automation, and Tasks are at most
  // completed while still unclaimed.
  lemma StepRespects(t: Tables, a: Action)
    ensures Respects(t, Step(t, a))
  {
    match a {
      case PausesLanes(s) => PauseLanesRespects(t, s);
      case StopsLanes(s) => StopLanesRespects(t, s);
      case ResumesLanes(s) => LanesRespect(t, ResumeLanes(t, s).lanes);
      case PausesEnrollments(s) => PauseEnrollmentsRespects(t, s);
      case ResumesEnrollments(s) => EnrollmentsRespect(t, ResumeEnrollments(t, s).enrollments);
      case StopsEnrollments(s) => StopEnrollmentsRespects(t, s);
      case PausesCampaigns(s) => PauseCampaignsRespects(t, s);
      case ResumesCampaigns(s) => CampaignsRespect(t, ResumeCampaigns(t, s).campaigns);
    }
  }

  lemma {:induction false} RunRespects(t: Tables, actions: seq<Action>)
    ensures Respects(t, Run(t, actions))
    decreases |actions|
  {
    hide Respects, Step;
    if actions == [] {
      Unmoved(t);
    } else {
      StepRespects(t, actions[0]);
      RunRespects(Step(t, actions[0]), actions[1..]);
      RespectsThen(t, Step(t, actions[0]), Run(t, actions));
    }
  }

  lemma Unmoved(t: Tables)
    ensures Respects(t, t)
  {
  }

  // ------------------------------------------------------------- nothing left to send

  // No delivery of the lane is bound to a Task that could still be claimed.
  ghost predicate Quiet(t: Tables, l: int) {
    forall d | d in t.deliveries && t.deliveries[d].lane == l && t.deliveries[d].task.Some? ::
      !(t.deliveries[d].task.value in t.tasks && t.tasks[t.deliveries[d].task.value] == Pending)
  }

  lemma RetireQuiets(t: Tables, lanes: set<int>, stop: bool, l: int)
    requires l in lanes
    ensures Quiet(Retire(t, LaneDeliveries(t, lanes), stop), l)
  {
  }

  lemma RetireFrames(t: Tables, affected: set<int>, stop: bool)
    ensures Retire(t, affected, stop).lanes == t.lanes && Retire(t, affected, stop).enrollments == t.enrollments
  {
  }

  // A selected lane that has not ended is paused, and no delivery of it is bound to a pending Task.
  lemma PausedLaneIsQuiet(t: Tables, s: set<int>, l: int)
    requires l in t.lanes && l in s && t.lanes[l].status != LaneStopped && t.lanes[l].status != LaneCompleted
    ensures PauseLanes(t, s).lanes[l] == t.lanes[l].(status := LanePaused) && Quiet(PauseLanes(t, s), l)
  {
    hide Retire, Quiet, LaneDeliveries;
    var t1 := MarkLanesPaused(t, s);
    var paused := LanesAt(t1, s, LanePaused);
    RetireFrames(t1, LaneDeliveries(t1, paused), false);
    RetireQuiets(t1, paused, false, l);
  }

  // A selected enrollment with a lane, or an active campaign, that has not ended is paused, and none of its lanes has a
  // delivery bound to a pending Task.
  lemma PausedParentIsQuiet(t: Tables, s: set<int>, l: int)
    requires Linked(t) && l in t.lanes
    ensures var e := t.lanes[l].enrollment;
            e in s ==>
              Quiet(PauseEnrollments(t, s), l)
              && PauseEnrollments(t, s).enrollments[e].status
                 == if t.enrollments[e].status in {Waiting, EnrollmentActive} then EnrollmentPaused else t.enrollments[e].status
    ensures var c := t.enrollments[t.lanes[l].enrollment].campaign;
            c in s && t.campaigns[c].status == CampaignActive ==>
              Quiet(PauseCampaigns(t, s), l) && PauseCampaigns(t, s).campaigns[c] == t.campaigns[c].(status := CampaignPaused)
  {
    hide Retire, LaneDeliveries;
    var e := t.lanes[l].enrollment;
    if e in s {
      var t1 := MarkEnrollmentsPaused(t, s);
      RetireFrames(t1, LaneDeliveries(t1, LanesOf(t1, s)), false);
      RetireQuiets(t1, LanesOf(t1, s), false, l);
    }
    if e in EnrollmentsOf(t, ActiveAmong(t, s)) {
      RetireQuiets(t, LanesOf(t, EnrollmentsOf(t, ActiveAmong(t, s))), false, l);
    }
  }

  ghost predicate NothingPlanned(t: Tables, l: int) {
    forall d | d in t.deliveries && t.deliveries[d].lane == l :: !Unsent(t.deliveries[d].status)
  }

  lemma RetireStops(t: Tables, lanes: set<int>, l: int)
    requires l in lanes
    ensures Quiet(Retire(t, LaneDeliveries(t, lanes), true), l) && NothingPlanned(Retire(t, LaneDeliveries(t, lanes), true), l)
  {
    RetireQuiets(t, lanes, true, l);
  }

  // A selected lane that was not completed is stopped, has no delivery bound to a pending Task and none planned or
  // queued.
  lemma StoppedLaneIsQuiet(t: Tables, s: set<int>, l: int)
    requires l in t.lanes && l in s && t.lanes[l].status != LaneCompleted
    ensures StopLanes(t, s).lanes[l] == t.lanes[l].(status := LaneStopped)
    ensures Quiet(StopLanes(t, s), l) && NothingPlanned(StopLanes(t, s), l)
  {
    hide Retire, Quiet, NothingPlanned, LaneDeliveries;
    var t1 := MarkLanesStopped(t, s);
    var stopped := LanesAt(t1, s, LaneStopped);
    RetireFrames(t1, LaneDeliveries(t1, stopped), true);
    RetireStops(t1, stopped, l);
  }

  // So are the lanes of a selected enrollment, and the enrollment itself.
  lemma StoppedParentIsQuiet(t: Tables, s: set<int>, l: int)
    requires Linked(t) && l in t.lanes && t.lanes[l].enrollment in s
    ensures var t1, e := StopEnrollments(t, s), t.lanes[l].enrollment;
            && Quiet(t1, l) && NothingPlanned(t1, l)
            && l in t1.lanes && t1.lanes[l].status == (if t.lanes[l].status == LaneCompleted then LaneCompleted else LaneStopped)
            && e in t1.enrollments
            && t1.enrollments[e].status == if t.enrollments[e].status == EnrollmentCompleted then EnrollmentCompleted else EnrollmentStopped
  {
    hide Retire, Quiet, NothingPlanned, LaneDeliveries;
    var t2 := MarkTheirLanesStopped(MarkEnrollmentsStopped(t, s), s);
    RetireFrames(t2, LaneDeliveries(t2, LanesOf(t2, s)), true);
    RetireStops(t2, LanesOf(t2, s), l);
  }
}
