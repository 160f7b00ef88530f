/** Where each row of the drip lifecycle stands after an Admin action, told by the rows before it. */
module DripOutcomes {
  import opened Outcomes
  import opened DripModel

  // ---------------------------------------------------------------------- lanes

  predicate Automated(status: EnrollmentStatus) {
    status == Waiting || status == EnrollmentActive
  }

  // Nothing keeps this paused lane from going on: no delivery with an unclear outcome, and its parents run.
  ghost predicate MayGoOn(t: Tables, l: int)
    requires Linked(t) && l in t.lanes
  {
    var e := t.enrollments[t.lanes[l].enrollment];
    && t.lanes[l].status == LanePaused && Automated(e.status) && t.campaigns[e.campaign].status == CampaignActive
    && forall d | d in t.deliveries && t.deliveries[d].lane == l :: t.deliveries[d].status != Unclear
  }

  ghost function LaneBecomes(t: Tables, a: Action, l: int): LaneStatus
    requires Linked(t) && l in t.lanes
  {
    var lane := t.lanes[l];
    var open := lane.status != LaneStopped && lane.status != LaneCompleted;
    match a
    case PausesLanes(s) => if l in s && open then LanePaused else lane.status
    case StopsLanes(s) => if l in s && open then LaneStopped else lane.status
    case StopsEnrollments(s) => if lane.enrollment in s && open then LaneStopped else lane.status
    case ResumesLanes(s) =>
      if l in s && MayGoOn(t, l) then (if lane.handedOff then LaneActive else WaitingCurrent) else lane.status
    case _ => lane.status
  }

  // No action moves a lane except as it says, and none changes anything of it but its status.
  lemma LaneTable(t: Tables, a: Action, l: int)
    requires Linked(t) && l in t.lanes
    ensures l in Step(t, a).lanes && Step(t, a).lanes[l] == t.lanes[l].(status := LaneBecomes(t, a, l))
  {
    hide Retire, LaneDeliveries;
    match a {
      case PausesLanes(s) =>
        var t1 := MarkLanesPaused(t, s);
        RetireFrames(t1, LaneDeliveries(t1, LanesAt(t1, s, LanePaused)), false);
      case StopsLanes(s) =>
        var t1 := MarkLanesStopped(t, s);
        RetireFrames(t1, LaneDeliveries(t1, LanesAt(t1, s, LaneStopped)), true);
      case PausesEnrollments(s) =>
        var t1 := MarkEnrollmentsPaused(t, s);
        RetireFrames(t1, LaneDeliveries(t1, LanesOf(t1, s)), false);
      case StopsEnrollments(s) =>
        var t2 := MarkTheirLanesStopped(MarkEnrollmentsStopped(t, s), s);
        RetireFrames(t2, LaneDeliveries(t2, LanesOf(t2, s)), true);
      case PausesCampaigns(s) =>
        RetireFrames(t, LaneDeliveries(t, LanesOf(t, EnrollmentsOf(t, ActiveAmong(t, s)))), false);
      case _ =>
    }
  }

  // ----------------------------------------------------------- enrollments and campaigns

  ghost predicate HasLane(t: Tables, e: int) {
    exists l | l in t.lanes :: t.lanes[l].enrollment == e
  }

  ghost predicate WaitsSomewhere(t: Tables, e: int) {
    exists l | l in t.lanes :: t.lanes[l].enrollment == e && (t.lanes[l].status == WaitingCurrent || t.lanes[l].status == WaitingConnection)
  }

  ghost function EnrollmentBecomes(t: Tables, a: Action, e: int): EnrollmentStatus
    requires e in t.enrollments
  {
    var status := t.enrollments[e].status;
    match a
    case PausesEnrollments(s) => if e in s && HasLane(t, e) && Automated(status) then EnrollmentPaused else status
    case ResumesEnrollments(s) =>
      if e in s && HasLane(t, e) && status == EnrollmentPaused then (if WaitsSomewhere(t, e) then Waiting else EnrollmentActive) else status
    case StopsEnrollments(s) =>
      if e in s && HasLane(t, e) && status != EnrollmentStopped && status != EnrollmentCompleted then EnrollmentStopped else status
    case _ => status
  }

  lemma EnrollmentTable(t: Tables, a: Action, e: int)
    requires e in t.enrollments
    ensures e in Step(t, a).enrollments && Step(t, a).enrollments[e] == t.enrollments[e].(status := EnrollmentBecomes(t, a, e))
  {
    hide Retire, LaneDeliveries;
    match a {
      case PausesLanes(s) =>
        var t1 := MarkLanesPaused(t, s);
        RetireFrames(t1, LaneDeliveries(t1, LanesAt(t1, s, LanePaused)), false);
      case StopsLanes(s) =>
        var t1 := MarkLanesStopped(t, s);
        RetireFrames(t1, LaneDeliveries(t1, LanesAt(t1, s, LaneStopped)), true);
      case PausesEnrollments(s) =>
        var t1 := MarkEnrollmentsPaused(t, s);
        RetireFrames(t1, LaneDeliveries(t1, LanesOf(t1, s)), false);
      case StopsEnrollments(s) =>
        var t2 := MarkTheirLanesStopped(MarkEnrollmentsStopped(t, s), s);
        RetireFrames(t2, LaneDeliveries(t2, LanesOf(t2, s)), true);
      case PausesCampaigns(s) =>
        RetireFrames(t, LaneDeliveries(t, LanesOf(t, EnrollmentsOf(t, ActiveAmong(t, s)))), false);
      case _ =>
    }
  }

  function CampaignBecomes(t: Tables, a: Action, c: int): CampaignStatus
    requires c in t.campaigns
  {
    var row := t.campaigns[c];
    match a
    case PausesCampaigns(s) => if c in s && row.status == CampaignActive then CampaignPaused else row.status
    case ResumesCampaigns(s) => if c in s && row.status == CampaignPaused && row.versioned then CampaignActive else row.status
    case _ => row.status
  }

  lemma CampaignTable(t: Tables, a: Action, c: int)
    requires c in t.campaigns
    ensures c in Step(t, a).campaigns && Step(t, a).campaigns[c] == t.campaigns[c].(status := CampaignBecomes(t, a, c))
  {
  }

  // ---------------------------------------------------------------- deliveries and Tasks

  // The action reaches the lane, and takes its unclaimed work back.
  predicate Reaches(t: Tables, a: Action, l: int)
    requires Linked(t) && l in t.lanes
  {
    var lane := t.lanes[l];
    match a
    case PausesLanes(s) => l in s && lane.status != LaneStopped && lane.status != LaneCompleted
    case StopsLanes(s) => l in s && lane.status != LaneCompleted
    case PausesEnrollments(s) => lane.enrollment in s
    case StopsEnrollments(s) => lane.enrollment in s
    case PausesCampaigns(s) =>
      var c := t.enrollments[lane.enrollment].campaign;
      c in s && t.campaigns[c].status == CampaignActive
    case _ => false
  }

  predicate Stops(a: Action) {
    a.StopsLanes? || a.StopsEnrollments?
  }

  // The delivery is reached, and its Task can still be taken from the queue.
  predicate TakenBack(t: Tables, a: Action, d: int)
    requires Linked(t) && d in t.deliveries
  {
    Reaches(t, a, t.deliveries[d].lane) && t.deliveries[d].task.Some? && t.tasks[t.deliveries[d].task.value] == Pending
  }

  // A delivery whose Task is taken back lets go of it. It is planned again, or stopped with all that was not sent;
  // what was sent, or may have been, keeps its status.
  function DeliveryBecomes(t: Tables, a: Action, d: int): Delivery
    requires Linked(t) && d in t.deliveries
  {
    var row := t.deliveries[d];
    var unsent := row.status == Planned || row.status == Queued;
    Delivery(row.lane,
             if !unsent || !Reaches(t, a, row.lane) then row.status
             else if Stops(a) then Stopped else if TakenBack(t, a, d) then Planned else row.status,
             if TakenBack(t, a, d) then None else row.task)
  }

  lemma LinkedReaches(t: Tables, d: int)
    requires Linked(t) && d in t.deliveries
    ensures t.deliveries[d].lane in t.lanes && (t.deliveries[d].task.Some? ==> t.deliveries[d].task.value in t.tasks)
  {
  }

  // What retiring the deliveries of some lanes does to one delivery and one Task.
  lemma RetireTable(t: Tables, lanes: set<int>, stop: bool)
    ensures var t1, affected := Retire(t, LaneDeliveries(t, lanes), stop), LaneDeliveries(t, lanes);
            && t1 == t.(deliveries := t1.deliveries, tasks := t1.tasks)
            && t1.deliveries.Keys == t.deliveries.Keys && t1.tasks.Keys == t.tasks.Keys
            && (forall d | d in t.deliveries ::
                  var row := t.deliveries[d];
                  var taken := row.lane in lanes && row.task.Some? && row.task.value in t.tasks && t.tasks[row.task.value] == Pending;
                  t1.deliveries[d] == Delivery(row.lane,
                                               if row.lane !in lanes || !(row.status == Planned || row.status == Queued) then row.status
                                               else if stop then Stopped else if taken then Planned else row.status,
                                               if taken then None else row.task))
            && (forall k | k in t.tasks ::
                  t1.tasks[k] == if t.tasks[k] == Pending && (exists d | d in t.deliveries :: t.deliveries[d].lane in lanes && t.deliveries[d].task == Some(k))
                                 then Completed else t.tasks[k])
  {
    var affected := LaneDeliveries(t, lanes);
    var pending := PendingTasks(t, affected);
    forall k | k in t.tasks
      ensures k in pending <==> t.tasks[k] == Pending && exists d | d in t.deliveries :: t.deliveries[d].lane in lanes && t.deliveries[d].task == Some(k)
    {
      if d :| d in t.deliveries && t.deliveries[d].lane in lanes && t.deliveries[d].task == Some(k) {
        assert d in affected;
      }
    }
  }

  // The lanes an action retires.
  ghost function Retired(t: Tables, a: Action): set<int>
    requires Linked(t)
  {
    set l | l in t.lanes && Reaches(t, a, l)
  }

  // Every action is a change of lanes and parents followed by retiring the deliveries of the lanes it reaches.
  lemma StepRetires(t: Tables, a: Action)
    requires Linked(t)
    ensures var t1 := Retire(t, LaneDeliveries(t, Retired(t, a)), Stops(a));
            Step(t, a).deliveries == t1.deliveries && Step(t, a).tasks == t1.tasks
  {
    match a {
      case PausesLanes(s) =>
        var t1 := MarkLanesPaused(t, s);
        SameLanes(t, t1, LanesAt(t1, s, LanePaused), Retired(t, a), false);
      case StopsLanes(s) =>
        var t1 := MarkLanesStopped(t, s);
        SameLanes(t, t1, LanesAt(t1, s, LaneStopped), Retired(t, a), true);
      case PausesEnrollments(s) =>
        var t1 := MarkEnrollmentsPaused(t, s);
        SameLanes(t, t1, LanesOf(t1, s), Retired(t, a), false);
      case StopsEnrollments(s) =>
        var t2 := MarkTheirLanesStopped(MarkEnrollmentsStopped(t, s), s);
        SameLanes(t, t2, LanesOf(t2, s), Retired(t, a), true);
      case PausesCampaigns(s) =>
        SameLanes(t, t, LanesOf(t, EnrollmentsOf(t, ActiveAmong(t, s))), Retired(t, a), false);
      case _ =>
        NothingRetired(t, Retired(t, a));
    }
  }

  lemma SameLanes(t: Tables, t1: Tables, lanes: set<int>, retired: set<int>, stop: bool)
    requires t1.deliveries == t.deliveries && t1.tasks == t.tasks && lanes == retired
    ensures Retire(t1, LaneDeliveries(t1, lanes), stop).deliveries == Retire(t, LaneDeliveries(t, retired), stop).deliveries
    ensures Retire(t1, LaneDeliveries(t1, lanes), stop).tasks == Retire(t, LaneDeliveries(t, retired), stop).tasks
  {
    assert LaneDeliveries(t1, lanes) == LaneDeliveries(t, retired);
    assert PendingTasks(t1, LaneDeliveries(t1, lanes)) == PendingTasks(t, LaneDeliveries(t, retired));
  }

  lemma NothingRetired(t: Tables, none: set<int>)
    requires none == {}
    ensures Retire(t, LaneDeliveries(t, none), false).deliveries == t.deliveries && Retire(t, LaneDeliveries(t, none), false).tasks == t.tasks
  {
    RetireTable(t, none, false);
  }

  lemma DeliveryTable(t: Tables, a: Action, d: int)
    requires Linked(t) && d in t.deliveries
    ensures d in Step(t, a).deliveries && Step(t, a).deliveries[d] == DeliveryBecomes(t, a, d)
  {
    StepRetires(t, a);
    RetireTable(t, Retired(t, a), Stops(a));
    hide Step, Retire, LaneDeliveries;
  }

  // Exactly the pending Tasks of the deliveries an action reaches are completed.
  lemma TaskTable(t: Tables, a: Action, k: int)
    requires Linked(t) && k in t.tasks
    ensures k in Step(t, a).tasks
    ensures Step(t, a).tasks[k] == if exists d | d in t.deliveries :: TakenBack(t, a, d) && t.deliveries[d].task == Some(k) then Completed else t.tasks[k]
  {
    StepRetires(t, a);
    RetireTable(t, Retired(t, a), Stops(a));
    hide Step, Retire, LaneDeliveries;
    if d :| d in t.deliveries && t.deliveries[d].lane in Retired(t, a) && t.deliveries[d].task == Some(k) {
      assert t.tasks[k] == Pending ==> TakenBack(t, a, d);
    }
  }

  // Every row stands where the action says.
  ghost predicate Stands(t: Tables, t1: Tables, a: Action)
    requires Linked(t)
  {
    && t1.lanes.Keys == t.lanes.Keys && (forall l | l in t.lanes :: t1.lanes[l] == t.lanes[l].(status := LaneBecomes(t, a, l)))
    && t1.enrollments.Keys == t.enrollments.Keys
    && (forall e | e in t.enrollments :: t1.enrollments[e] == t.enrollments[e].(status := EnrollmentBecomes(t, a, e)))
    && t1.campaigns.Keys == t.campaigns.Keys && (forall c | c in t.campaigns :: t1.campaigns[c] == t.campaigns[c].(status := CampaignBecomes(t, a, c)))
    && t1.deliveries.Keys == t.deliveries.Keys && (forall d | d in t.deliveries :: t1.deliveries[d] == DeliveryBecomes(t, a, d))
    && t1.tasks.Keys == t.tasks.Keys
    && (forall k | k in t.tasks ::
          t1.tasks[k] == if exists d | d in t.deliveries :: TakenBack(t, a, d) && t.deliveries[d].task == Some(k) then Completed else t.tasks[k])
    && t1.attempts == t.attempts
  }

  lemma StepStands(t: Tables, a: Action)
    requires Linked(t)
    ensures Stands(t, Step(t, a), a)
  {
    var t1 := Step(t, a);
    assert t1.campaigns.Keys == t.campaigns.Keys && t1.attempts == t.attempts;
    StepRespects(t, a);
    forall l | l in t.lanes ensures t1.lanes[l] == t.lanes[l].(status := LaneBecomes(t, a, l)) { LaneTable(t, a, l); }
    forall e | e in t.enrollments ensures t1.enrollments[e] == t.enrollments[e].(status := EnrollmentBecomes(t, a, e)) { EnrollmentTable(t, a, e); }
    forall c | c in t.campaigns ensures t1.campaigns[c] == t.campaigns[c].(status := CampaignBecomes(t, a, c)) { CampaignTable(t, a, c); }
    forall d | d in t.deliveries ensures t1.deliveries[d] == DeliveryBecomes(t, a, d) { DeliveryTable(t, a, d); }
    forall k | k in t.tasks
      ensures t1.tasks[k] == if exists d | d in t.deliveries :: TakenBack(t, a, d) && t.deliveries[d].task == Some(k) then Completed else t.tasks[k]
    {
      TaskTable(t, a, k);
    }
    hide Step, LaneBecomes, EnrollmentBecomes, CampaignBecomes, DeliveryBecomes, TakenBack, Linked;
  }

  // ------------------------------------------------------------------- there and back

  // A paused lane that runs again: exactly when its parents do and nothing about it is unclear.
  lemma PausedThenResumed(t: Tables, l: int)
    requires Linked(t) && l in t.lanes && t.lanes[l].status != LaneStopped && t.lanes[l].status != LaneCompleted
    requires var e := t.enrollments[t.lanes[l].enrollment]; Automated(e.status) && t.campaigns[e.campaign].status == CampaignActive
    ensures var t2 := ResumeLanes(Step(t, PausesLanes({l})), {l});
            l in t2.lanes && t2.deliveries == Step(t, PausesLanes({l})).deliveries
            && t2.lanes[l].status == if HasUnclear(t, l) then LanePaused else if t.lanes[l].handedOff then LaneActive else WaitingCurrent
  {
    var t1 := Step(t, PausesLanes({l}));
    LaneTable(t, PausesLanes({l}), l);
    StepRespects(t, PausesLanes({l}));
    UnclearStays(t, t1, l);
    EnrollmentTable(t, PausesLanes({l}), t.lanes[l].enrollment);
    CampaignTable(t, PausesLanes({l}), t.enrollments[t.lanes[l].enrollment].campaign);
    hide HasUnclear, Respects, Step, PauseLanes;
    assert Resumable(t1, l) <==> !HasUnclear(t, l);
  }

  // A lane that was paused and is resumed runs again exactly when its parents do and nothing about it is unclear; what
  // was planned for it is still planned, and what waited in the queue is planned again.
  lemma PausedLaneResumes(t: Tables, l: int)
    requires Linked(t) && l in t.lanes && t.lanes[l].status != LaneStopped && t.lanes[l].status != LaneCompleted
    requires var e := t.enrollments[t.lanes[l].enrollment]; Automated(e.status) && t.campaigns[e.campaign].status == CampaignActive
    ensures var t2 := Run(t, [PausesLanes({l}), ResumesLanes({l})]);
            && l in t2.lanes
            && t2.lanes[l].status == (if HasUnclear(t, l) then LanePaused else if t.lanes[l].handedOff then LaneActive else WaitingCurrent)
            && (forall d | d in t.deliveries && t.deliveries[d].lane == l && t.deliveries[d].status == Planned ::
                  d in t2.deliveries && t2.deliveries[d].status == Planned)
            && (forall d | d in t.deliveries && t.deliveries[d].lane == l && t.deliveries[d].status == Queued
                           && t.deliveries[d].task.Some? && t.tasks[t.deliveries[d].task.value] == Pending ::
                  d in t2.deliveries && t2.deliveries[d].status == Planned && t2.deliveries[d].task.None?)
  {
    var t1 := Step(t, PausesLanes({l}));
    RunBoth(t, PausesLanes({l}), ResumesLanes({l}));
    PausedThenResumed(t, l);
    forall d | d in t.deliveries ensures d in t1.deliveries && t1.deliveries[d] == DeliveryBecomes(t, PausesLanes({l}), d) {
      DeliveryTable(t, PausesLanes({l}), d);
    }
    assert Step(t1, ResumesLanes({l})) == ResumeLanes(t1, {l});
    hide HasUnclear, Run, Step, ResumeLanes;
  }

  lemma {:induction false} RunBoth(t: Tables, a: Action, b: Action)
    ensures Run(t, [a, b]) == Step(Step(t, a), b)
  {
    hide Step;
    assert [a, b][1..] == [b] && [b][1..] == [];
    assert Run(Step(t, a), [b]) == Run(Step(Step(t, a), b), []);
  }
}
