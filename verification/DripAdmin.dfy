/**
 The Admin transactions of `drip/admin.py` over their tables, with the row locks each one takes, in order.
 */
module DripAdmin {
  import opened Ordering
  import opened Outcomes
  import opened DripLocks
  import opened DripModel
  import opened DripOutcomes

  // ------------------------------------------------------------------- the tables

  class DripTables {
    var campaigns: map<int, Campaign>
    var enrollments: map<int, Enrollment>
    var lanes: map<int, Lane>
    var deliveries: map<int, Delivery>
    var attempts: map<int, int>
    var tasks: map<int, TaskStatus>
    // The row locks taken by the current transaction, in order.
    ghost var locks: seq<Lock>

    ghost function Rows(): Tables
      reads this
    {
      Tables(campaigns, enrollments, lanes, deliveries, attempts, tasks)
    }

    constructor ()
      ensures Linked(Rows())
    {
      campaigns, enrollments, lanes, deliveries, attempts, tasks := map[], map[], map[], map[], map[], map[];
      locks := [];
    }

    // A whole transaction from `before`: its effect on every row, its locks, one by one in ascending order, and all it wrote
    // among them.
    ghost predicate Performed(before: Tables, a: Action)
      reads this
    {
      && Linked(before) && Rows() == Step(before, a) && Linked(Rows()) && Stands(before, Rows(), a)
      && Ascending(locks) && Taken(locks) == LocksOf(before, a) && Covered(before, Rows(), Taken(locks))
    }

    // SELECT ... FOR UPDATE ... ORDER BY pk
    method LockRows(table: nat, pks: set<int>) returns (xs: seq<int>)
      requires UpTo(locks, table) && forall i | 0 <= i < |locks| :: locks[i].table != table
      modifies `locks
      ensures UpTo(locks, table) && Ascends(xs) && forall x :: x in xs <==> x in pks
      ensures Taken(locks) == Taken(old(locks)) + LockSet(table, pks)
    {
      xs := Sorted(pks);
      ghost var taken := [];
      var i := 0;
      while i < |xs|
        invariant 0 <= i <= |xs| && |taken| == i && forall k | 0 <= k < i :: taken[k] == Lock(table, xs[k])
      {
        taken := taken + [Lock(table, xs[i])];
        i := i + 1;
      }
      TakenAre(taken, table, xs, pks);
      assert Taken(locks + taken) == Taken(locks) + Taken(taken);
      locks := locks + taken;
    }

    // The deliveries of the given lanes, their attempts and their Tasks.
    method LockBelow(laneIds: set<int>) returns (deliveryIds: seq<int>, taskIds: seq<int>)
      requires UpTo(locks, LANE) && Linked(Rows())
      modifies `locks
      ensures UpTo(locks, TASK) && Taken(locks) == Taken(old(locks)) + BelowLocks(Rows(), laneIds)
      ensures forall x :: x in deliveryIds <==> x in LaneDeliveries(Rows(), laneIds)
      ensures forall x :: x in taskIds <==> exists d | d in deliveryIds :: d in deliveries && deliveries[d].task == Some(x)
      ensures forall x | x in taskIds :: x in tasks
    {
      hide Taken, LockSet;
      var held := set d | d in deliveries && deliveries[d].lane in laneIds;
      assert held == LaneDeliveries(Rows(), laneIds);
      deliveryIds := LockRows(DELIVERY, held);
      var tried := set a | a in attempts && attempts[a] in held;
      assert tried == AttemptsOf(Rows(), held);
      var _ := LockRows(ATTEMPT, tried);
      var bound := set d | d in held && deliveries[d].task.Some? :: deliveries[d].task.value;
      assert bound == TasksOf(Rows(), held);
      taskIds := LockRows(TASK, bound);
    }

    // _lock_lifecycle_for_lane_ids
    method LockLifecycle(laneIds: set<int>)
      returns (enrollmentIds: seq<int>, lockedLanes: seq<int>, deliveryIds: seq<int>, taskIds: seq<int>)
      requires locks == [] && Linked(Rows())
      modifies `locks
      ensures Ascending(locks) && Taken(locks) == LifecycleLocks(Rows(), laneIds)
      ensures Ascends(lockedLanes) && Ascends(enrollmentIds)
      ensures forall x :: x in lockedLanes <==> x in laneIds && x in lanes
      ensures forall x :: x in enrollmentIds <==> exists l | l in laneIds && l in lanes :: lanes[l].enrollment == x
      ensures forall x :: x in deliveryIds <==> x in LaneDeliveries(Rows(), laneIds)
      ensures forall x :: x in taskIds <==> exists d | d in deliveryIds :: d in deliveries && deliveries[d].task == Some(x)
      ensures forall x | x in taskIds :: x in tasks
    {
      hide Taken, LockSet, LaneDeliveries, BelowLocks;
      NoLocks();
      var present := set l | l in laneIds && l in lanes;
      var parents := set l | l in present :: lanes[l].enrollment;
      assert parents == ParentsOf(Rows(), laneIds);
      var leads := set e | e in parents :: enrollments[e].lead;
      assert leads == LeadsOf(Rows(), parents);
      var _ := LockRows(LEAD, leads);
      enrollmentIds := LockRows(ENROLLMENT, parents);
      lockedLanes := LockRows(LANE, present);
      deliveryIds, taskIds := LockBelow(laneIds);
      assert {} + LockSet(LEAD, leads) == LockSet(LEAD, leads);
    }

    // _retire_pending_tasks
    method RetirePendingTasks(ghost affected: set<int>, deliveryIds: seq<int>, taskIds: seq<int>, stop: bool)
      requires forall x :: x in deliveryIds <==> x in affected
      requires forall d | d in affected :: d in deliveries
      requires forall x :: x in taskIds <==> exists d | d in affected :: deliveries[d].task == Some(x)
      requires forall x | x in taskIds :: x in tasks
      modifies `deliveries, `tasks
      ensures Rows() == Retire(old(Rows()), affected, stop)
    {
      var pending := CompletePending(taskIds);
      forall k ensures k in pending <==> k in PendingTasks(old(Rows()), affected) {
        if k in pending {
          var d :| d in affected && deliveries[d].task == Some(k);
        }
      }
      assert pending == PendingTasks(old(Rows()), affected);
      ghost var retired := tasks;
      var i := 0;
      while i < |deliveryIds|
        invariant 0 <= i <= |deliveryIds| && deliveries.Keys == old(deliveries).Keys && tasks == retired
        invariant forall d | d in deliveries :: deliveries[d] ==
                    if d in deliveryIds[..i] then RetiredDelivery(old(deliveries)[d], pending, stop) else old(deliveries)[d]
      {
        var d := deliveryIds[i];
        assert d in deliveryIds;
        assert deliveryIds[..i + 1] == deliveryIds[..i] + [d];
        RetiredTwice(old(deliveries)[d], pending, stop);
        deliveries := deliveries[d := RetiredDelivery(deliveries[d], pending, stop)];
        i := i + 1;
      }
      assert deliveryIds[..i] == deliveryIds;
      ghost var spec := Retire(old(Rows()), affected, stop);
      assert forall d | d in deliveries :: deliveries[d] == spec.deliveries[d];
      assert deliveries == spec.deliveries && tasks == spec.tasks;
    }

    method CompletePending(taskIds: seq<int>) returns (pending: set<int>)
      requires forall x | x in taskIds :: x in tasks
      modifies `tasks
      ensures pending == set k | k in taskIds && old(tasks)[k] == Pending
      ensures tasks == map k | k in old(tasks) :: if k in pending then Completed else old(tasks)[k]
    {
      pending := {};
      var i := 0;
      while i < |taskIds|
        invariant 0 <= i <= |taskIds| && pending == set k | k in taskIds[..i] && old(tasks)[k] == Pending
        invariant tasks == map k | k in old(tasks) :: if k in pending then Completed else old(tasks)[k]
      {
        var k := taskIds[i];
        assert k in taskIds && taskIds[..i + 1] == taskIds[..i] + [k];
        if tasks[k] == Pending {
          pending := pending + {k};
          tasks := tasks[k := Completed];
        }
        i := i + 1;
      }
      assert taskIds[..i] == taskIds;
    }

    // ------------------------------------------------------------------- lane actions

    // One loop of the lane actions: the selected lanes, changed by `change`.
    method ChangeLanes(ids: seq<int>, change: Lane -> Lane)
      requires forall x | x in ids :: x in lanes
      requires forall l: Lane :: change(change(l)) == change(l)
      modifies `lanes
      ensures lanes == map l | l in old(lanes) :: if l in ids then change(old(lanes)[l]) else old(lanes)[l]
    {
      var i := 0;
      while i < |ids|
        invariant 0 <= i <= |ids|
        invariant lanes == map l | l in old(lanes) :: if l in ids[..i] then change(old(lanes)[l]) else old(lanes)[l]
      {
        var l := ids[i];
        assert l in ids && ids[..i + 1] == ids[..i] + [l];
        lanes := lanes[l := change(lanes[l])];
        i := i + 1;
      }
      assert ids[..i] == ids;
    }

    // Retire the work of the selected lanes that now have `status`.
    method RetireLanesAt(selected: set<int>, status: LaneStatus, deliveryIds: seq<int>, stop: bool)
      requires Linked(Rows()) && forall x :: x in deliveryIds <==> x in LaneDeliveries(Rows(), selected)
      modifies `deliveries, `tasks
      ensures Rows() == Retire(old(Rows()), LaneDeliveries(old(Rows()), LanesAt(old(Rows()), selected, status)), stop)
    {
      ghost var affected := LaneDeliveries(Rows(), LanesAt(Rows(), selected, status));
      var chosen := Chosen(deliveryIds, set l | l in selected && l in lanes && lanes[l].status == status);
      var bound := set d | d in chosen && d in deliveries && deliveries[d].task.Some? :: deliveries[d].task.value;
      var taskIds := Sorted(bound);
      RetirePendingTasks(affected, chosen, taskIds, stop);
    }

    // Of the locked deliveries, those of the given lanes.
    method Chosen(deliveryIds: seq<int>, among: set<int>) returns (chosen: seq<int>)
      requires forall x | x in deliveryIds :: x in deliveries
      ensures forall x :: x in chosen <==> x in deliveryIds && deliveries[x].lane in among
    {
      chosen := [];
      var i := 0;
      while i < |deliveryIds|
        invariant 0 <= i <= |deliveryIds|
        invariant forall x :: x in chosen <==> x in deliveryIds[..i] && x in deliveries && deliveries[x].lane in among
      {
        var d := deliveryIds[i];
        assert d in deliveryIds && deliveryIds[..i + 1] == deliveryIds[..i] + [d];
        if deliveries[d].lane in among {
          chosen := chosen + [d];
        }
        i := i + 1;
      }
      assert deliveryIds[..i] == deliveryIds;
    }

    method PauseSelectedLanes(selected: set<int>)
      requires Linked(Rows())
      modifies this
      ensures Performed(old(Rows()), PausesLanes(selected))
    {
      hide Stands, Retire, Ascending, Covered, LifecycleLocks, Linked;
      StepLinked(Rows(), PausesLanes(selected));
      StepStands(Rows(), PausesLanes(selected));
      WritesAreLocked(Rows(), PausesLanes(selected));
      locks := [];
      var _, lockedLanes, deliveryIds, _ := LockLifecycle(selected);
      PausedLaneTwice();
      ChangeLanes(lockedLanes, PausedLane);
      ghost var spec := MarkLanesPaused(old(Rows()), selected).lanes;
      assert forall l | l in lanes :: lanes[l] == spec[l];
      SameMap(lanes, spec);
      assert Rows() == MarkLanesPaused(old(Rows()), selected);
      LanesLinked(old(Rows()), lanes);
      RetireLanesAt(selected, LanePaused, deliveryIds, false);
    }

    method StopSelectedLanes(selected: set<int>)
      requires Linked(Rows())
      modifies this
      ensures Performed(old(Rows()), StopsLanes(selected))
    {
      hide Stands, Retire, Ascending, Covered, LifecycleLocks, Linked;
      StepLinked(Rows(), StopsLanes(selected));
      StepStands(Rows(), StopsLanes(selected));
      WritesAreLocked(Rows(), StopsLanes(selected));
      locks := [];
      var _, lockedLanes, deliveryIds, _ := LockLifecycle(selected);
      StoppedLaneTwice();
      ChangeLanes(lockedLanes, StoppedLane);
      ghost var spec := MarkLanesStopped(old(Rows()), selected).lanes;
      assert forall l | l in lanes :: lanes[l] == spec[l];
      SameMap(lanes, spec);
      assert Rows() == MarkLanesStopped(old(Rows()), selected);
      LanesLinked(old(Rows()), lanes);
      RetireLanesAt(selected, LaneStopped, deliveryIds, true);
    }

    // One paused lane, unless it has an unclear delivery or an inactive parent.
    method ResumeLane(l: int, unclear: set<int>)
      requires Linked(Rows()) && l in lanes && (l in unclear <==> HasUnclear(Rows(), l))
      modifies `lanes
      ensures lanes == old(lanes)[l := ResumedLane(old(Rows()), l)]
    {
      hide HasUnclear, Linked;
      ParentsExist(Rows(), l);
      if lanes[l].status == LanePaused && l !in unclear {
        var e := enrollments[lanes[l].enrollment];
        if campaigns[e.campaign].status == CampaignActive && (e.status == Waiting || e.status == EnrollmentActive) {
          lanes := lanes[l := lanes[l].(status := if lanes[l].handedOff then LaneActive else WaitingCurrent)];
          return;
        }
      }
      assert lanes == lanes[l := lanes[l]];
    }

    method ResumeEach(ids: seq<int>, unclear: set<int>)
      requires Linked(Rows()) && Ascends(ids) && forall l | l in ids :: l in lanes && (l in unclear <==> HasUnclear(Rows(), l))
      modifies `lanes
      ensures lanes.Keys == old(lanes).Keys
      ensures forall l | l in lanes :: lanes[l] == if l in ids then ResumedLane(old(Rows()), l) else old(lanes)[l]
    {
      hide HasUnclear, Linked, Resumable;
      ghost var before := Rows();
      var i := 0;
      while i < |ids|
        invariant 0 <= i <= |ids| && lanes.Keys == before.lanes.Keys
        invariant forall l | l in lanes :: lanes[l].enrollment == before.lanes[l].enrollment
        invariant forall l | l in lanes :: lanes[l] == if l in ids[..i] then ResumedLane(before, l) else before.lanes[l]
      {
        var l := ids[i];
        assert l in ids && ids[..i + 1] == ids[..i] + [l];
        assert l !in ids[..i];
        StillResumable(before, lanes, l);
        ResumeLane(l, unclear);
        i := i + 1;
      }
      assert ids[..i] == ids;
    }

    method ResumeLocked(selected: set<int>, lockedLanes: seq<int>, deliveryIds: seq<int>)
      requires Linked(Rows()) && Ascends(lockedLanes) && forall x :: x in lockedLanes <==> x in selected && x in lanes
      requires forall x :: x in deliveryIds <==> x in LaneDeliveries(Rows(), selected)
      modifies `lanes
      ensures Rows() == ResumeLanes(old(Rows()), selected)
    {
      hide HasUnclear, Linked, Resumable, Ascends;
      var unclear := set d | d in deliveryIds && d in deliveries && deliveries[d].status == Unclear :: deliveries[d].lane;
      UnclearLanes(Rows(), selected, unclear);
      ResumeEach(lockedLanes, unclear);
      ghost var spec := ResumeLanes(old(Rows()), selected).lanes;
      assert forall l | l in lanes :: lanes[l] == spec[l];
      SameMap(lanes, spec);
    }

    method ResumeSelectedLanes(selected: set<int>)
      requires Linked(Rows())
      modifies this
      ensures Performed(old(Rows()), ResumesLanes(selected))
    {
      hide Stands, Ascending, Covered, LifecycleLocks, LaneDeliveries, Linked, Resumable, Ascends, Taken;
      StepLinked(Rows(), ResumesLanes(selected));
      StepStands(Rows(), ResumesLanes(selected));
      WritesAreLocked(Rows(), ResumesLanes(selected));
      locks := [];
      var _, lockedLanes, deliveryIds, _ := LockLifecycle(selected);
      ResumeLocked(selected, lockedLanes, deliveryIds);
    }

    // ------------------------------------------------------------- enrollment actions

    method ChangeEnrollments(ids: seq<int>, change: Enrollment -> Enrollment)
      requires (forall x | x in ids :: x in enrollments) && forall e: Enrollment :: change(change(e)) == change(e)
      modifies `enrollments
      ensures enrollments == map e | e in old(enrollments) :: if e in ids then change(old(enrollments)[e]) else old(enrollments)[e]
    {
      var i := 0;
      while i < |ids|
        invariant 0 <= i <= |ids|
        invariant enrollments == map e | e in old(enrollments) :: if e in ids[..i] then change(old(enrollments)[e]) else old(enrollments)[e]
      {
        var e := ids[i];
        assert e in ids && ids[..i + 1] == ids[..i] + [e];
        enrollments := enrollments[e := change(enrollments[e])];
        i := i + 1;
      }
      assert ids[..i] == ids;
    }

    // Lock the selected enrollments through their lanes.
    method LockSelected(selected: set<int>) returns (enrollmentIds: seq<int>, lockedLanes: seq<int>, deliveryIds: seq<int>, taskIds: seq<int>)
      requires Linked(Rows())
      modifies `locks
      ensures Ascending(locks) && Taken(locks) == LifecycleLocks(Rows(), LanesOf(Rows(), selected))
      ensures Ascends(lockedLanes) && Ascends(enrollmentIds)
      ensures forall x :: x in lockedLanes <==> x in LanesOf(Rows(), selected)
      ensures forall x :: x in enrollmentIds <==> Reached(Rows(), selected, x)
      ensures forall x | x in enrollmentIds :: x in enrollments
      ensures forall x :: x in deliveryIds <==> x in LaneDeliveries(Rows(), LanesOf(Rows(), selected))
      ensures forall x :: x in taskIds <==> exists d | d in deliveryIds :: d in deliveries && deliveries[d].task == Some(x)
      ensures forall x | x in taskIds :: x in tasks
    {
      hide Ascending, LifecycleLocks, Taken;
      locks := [];
      var scope := set l | l in lanes && lanes[l].enrollment in selected;
      assert scope == LanesOf(Rows(), selected);
      enrollmentIds, lockedLanes, deliveryIds, taskIds := LockLifecycle(scope);
      forall x ensures x in enrollmentIds <==> Reached(Rows(), selected, x) {
        if Reached(Rows(), selected, x) {
          var l :| l in lanes && lanes[l].enrollment == x;
          assert l in scope;
        }
      }
    }

    method RetireScope(ghost affected: set<int>, deliveryIds: seq<int>, taskIds: seq<int>, stop: bool)
      requires Linked(Rows()) && forall x :: x in deliveryIds <==> x in affected
      requires forall d | d in affected :: d in deliveries
      requires forall x :: x in taskIds <==> exists d | d in deliveryIds :: d in deliveries && deliveries[d].task == Some(x)
      requires forall x | x in taskIds :: x in tasks
      modifies `deliveries, `tasks
      ensures Rows() == Retire(old(Rows()), affected, stop)
    {
      hide Retire;
      RetirePendingTasks(affected, deliveryIds, taskIds, stop);
    }

    method PauseSelectedEnrollments(selected: set<int>)
      requires Linked(Rows())
      modifies this
      ensures Performed(old(Rows()), PausesEnrollments(selected))
    {
      hide Stands, Retire, Ascending, Covered, LifecycleLocks, Taken, Reached, Linked;
      StepLinked(Rows(), PausesEnrollments(selected));
      StepStands(Rows(), PausesEnrollments(selected));
      WritesAreLocked(Rows(), PausesEnrollments(selected));
      ghost var before := Rows();
      var enrollmentIds, _, deliveryIds, taskIds := LockSelected(selected);
      PausedEnrollmentTwice();
      ChangeEnrollments(enrollmentIds, PausedEnrollment);
      ghost var spec := MarkEnrollmentsPaused(before, selected).enrollments;
      assert forall e | e in enrollments :: enrollments[e] == spec[e];
      SameMap(enrollments, spec);
      EnrollmentsLinked(before, enrollments);
      RetireScope(LaneDeliveries(Rows(), LanesOf(Rows(), selected)), deliveryIds, taskIds, false);
    }

    method StopReached(selected: set<int>, enrollmentIds: seq<int>)
      requires forall x :: x in enrollmentIds <==> Reached(Rows(), selected, x)
      requires Linked(Rows()) && forall x | x in enrollmentIds :: x in enrollments
      modifies `enrollments
      ensures Rows() == MarkEnrollmentsStopped(old(Rows()), selected) && Linked(Rows())
    {
      hide Reached, Linked;
      ghost var before := Rows();
      StoppedEnrollmentTwice();
      ChangeEnrollments(enrollmentIds, StoppedEnrollment);
      ghost var spec := MarkEnrollmentsStopped(before, selected).enrollments;
      assert forall e | e in enrollments :: enrollments[e] == spec[e];
      SameMap(enrollments, spec);
      EnrollmentsLinked(before, enrollments);
    }

    method StopTheirLanes(selected: set<int>, lockedLanes: seq<int>)
      requires Linked(Rows()) && forall x :: x in lockedLanes <==> x in LanesOf(Rows(), selected)
      modifies `lanes
      ensures Rows() == MarkTheirLanesStopped(old(Rows()), selected) && Linked(Rows())
      ensures LaneDeliveries(Rows(), LanesOf(Rows(), selected)) == LaneDeliveries(old(Rows()), LanesOf(old(Rows()), selected))
    {
      hide Linked;
      ghost var before := Rows();
      StoppedLaneTwice();
      ChangeLanes(lockedLanes, StoppedLane);
      ghost var spec := MarkTheirLanesStopped(before, selected).lanes;
      assert forall l | l in lanes :: lanes[l] == spec[l];
      SameMap(lanes, spec);
      LanesLinked(before, lanes);
      SameLaneDeliveries(before, Rows(), selected);
    }

    method StopSelectedEnrollments(selected: set<int>)
      requires Linked(Rows())
      modifies this
      ensures Performed(old(Rows()), StopsEnrollments(selected))
    {
      hide Stands, Retire, Ascending, Covered, LifecycleLocks, Taken, Reached, Linked, MarkTheirLanesStopped;
      StepLinked(Rows(), StopsEnrollments(selected));
      StepStands(Rows(), StopsEnrollments(selected));
      WritesAreLocked(Rows(), StopsEnrollments(selected));
      var enrollmentIds, lockedLanes, deliveryIds, taskIds := LockSelected(selected);
      StopReached(selected, enrollmentIds);
      StopTheirLanes(selected, lockedLanes);
      RetireScope(LaneDeliveries(Rows(), LanesOf(Rows(), selected)), deliveryIds, taskIds, true);
    }

    method ResumeEnrollment(e: int, ghost selected: set<int>, lockedLanes: seq<int>)
      requires e in enrollments && Reached(Rows(), selected, e)
      requires forall x :: x in lockedLanes <==> x in LanesOf(Rows(), selected)
      modifies `enrollments
      ensures enrollments == old(enrollments)[e := ResumedEnrollment(old(Rows()), e, old(enrollments)[e])]
    {
      hide Reached, HasWaitingLane;
      if enrollments[e].status == EnrollmentPaused {
        var waiting := exists l | l in lockedLanes ::
          l in lanes && lanes[l].enrollment == e && (lanes[l].status == WaitingCurrent || lanes[l].status == WaitingConnection);
        WaitingSeen(Rows(), selected, lockedLanes, e, waiting);
        enrollments := enrollments[e := enrollments[e].(status := if waiting then Waiting else EnrollmentActive)];
      } else {
        assert enrollments == enrollments[e := enrollments[e]];
      }
    }

    method ResumeEachEnrollment(ids: seq<int>, ghost selected: set<int>, lockedLanes: seq<int>)
      requires Ascends(ids) && (forall x | x in ids :: x in enrollments && Reached(Rows(), selected, x))
      requires forall x :: x in lockedLanes <==> x in LanesOf(Rows(), selected)
      modifies `enrollments
      ensures enrollments.Keys == old(enrollments).Keys
      ensures forall e | e in enrollments ::
                enrollments[e] == if e in ids then ResumedEnrollment(old(Rows()), e, old(enrollments)[e]) else old(enrollments)[e]
    {
      hide Ascends;
      ghost var before := Rows();
      var i := 0;
      while i < |ids|
        invariant 0 <= i <= |ids| && enrollments.Keys == before.enrollments.Keys
        invariant forall e | e in enrollments ::
          enrollments[e] == if e in ids[..i] then ResumedEnrollment(before, e, before.enrollments[e]) else before.enrollments[e]
      {
        var e := ids[i];
        assert e in ids && ids[..i + 1] == ids[..i] + [e];
        assert e !in ids[..i] by { NotYet(ids, i); }
        ReachedStill(before, Rows(), selected, e);
        ResumeEnrollment(e, selected, lockedLanes);
        i := i + 1;
      }
      assert ids[..i] == ids;
    }

    method ResumeSelectedEnrollments(selected: set<int>)
      requires Linked(Rows())
      modifies this
      ensures Performed(old(Rows()), ResumesEnrollments(selected))
    {
      hide Stands, Ascending, Covered, LifecycleLocks, Taken, Reached, Linked, HasWaitingLane, Ascends;
      StepLinked(Rows(), ResumesEnrollments(selected));
      StepStands(Rows(), ResumesEnrollments(selected));
      WritesAreLocked(Rows(), ResumesEnrollments(selected));
      ghost var before := Rows();
      var enrollmentIds, lockedLanes, _, _ := LockSelected(selected);
      ResumeEachEnrollment(enrollmentIds, selected, lockedLanes);
      ghost var spec := ResumeEnrollments(before, selected).enrollments;
      assert forall e | e in enrollments :: enrollments[e] == spec[e];
      SameMap(enrollments, spec);
    }

    // --------------------------------------------------------------- campaign actions

    // The rows of every enrollment of the given campaigns, locked below the campaigns themselves.
    method LockCampaignRows(active: set<int>) returns (deliveryIds: seq<int>, taskIds: seq<int>)
      requires UpTo(locks, CAMPAIGN) && Linked(Rows())
      modifies `locks
      ensures Ascending(locks)
      ensures var members := EnrollmentsOf(Rows(), active);
              Taken(locks) == Taken(old(locks)) + LockSet(LEAD, LeadsOf(Rows(), members)) + LockSet(ENROLLMENT, members)
                              + LockSet(LANE, LanesOf(Rows(), members)) + BelowLocks(Rows(), LanesOf(Rows(), members))
      ensures forall x :: x in deliveryIds <==> x in LaneDeliveries(Rows(), LanesOf(Rows(), EnrollmentsOf(Rows(), active)))
      ensures forall x :: x in taskIds <==> exists d | d in deliveryIds :: d in deliveries && deliveries[d].task == Some(x)
      ensures forall x | x in taskIds :: x in tasks
    {
      hide Taken, LockSet, LaneDeliveries, BelowLocks;
      var members := set e | e in enrollments && enrollments[e].campaign in active;
      assert members == EnrollmentsOf(Rows(), active);
      var leads := set e | e in members :: enrollments[e].lead;
      assert leads == LeadsOf(Rows(), members);
      var _ := LockRows(LEAD, leads);
      var _ := LockRows(ENROLLMENT, members);
      var scope := set l | l in lanes && lanes[l].enrollment in members;
      assert scope == LanesOf(Rows(), members);
      var _ := LockRows(LANE, scope);
      deliveryIds, taskIds := LockBelow(scope);
    }

    // The work of the active campaigns among the selected ones, retired under their locks.
    method RetireCampaignWork(selected: set<int>) returns (active: set<int>)
      requires Linked(Rows())
      modifies `locks, `deliveries, `tasks
      ensures Ascending(locks) && Taken(locks) == CampaignLocks(old(Rows()), selected)
      ensures active == ActiveAmong(old(Rows()), selected)
      ensures Rows() == Retire(old(Rows()), LaneDeliveries(old(Rows()), LanesOf(old(Rows()), EnrollmentsOf(old(Rows()), active))), false)
    {
      hide Retire, LaneDeliveries, LanesOf, EnrollmentsOf, LeadsOf, Taken, LockSet, BelowLocks;
      NoLocks();
      locks := [];
      var present := set c | c in selected && c in campaigns;
      var chosen := LockRows(CAMPAIGN, present);
      assert {} + LockSet(CAMPAIGN, present) == LockSet(CAMPAIGN, present);
      active := set c | c in chosen && c in campaigns && campaigns[c].status == CampaignActive;
      assert active == ActiveAmong(Rows(), selected);
      var deliveryIds, taskIds := LockCampaignRows(active);
      DeliveriesExist(Rows(), LanesOf(Rows(), EnrollmentsOf(Rows(), active)));
      RetireScope(LaneDeliveries(Rows(), LanesOf(Rows(), EnrollmentsOf(Rows(), active))), deliveryIds, taskIds, false);
    }

    method PauseSelectedCampaigns(selected: set<int>)
      requires Linked(Rows())
      modifies this
      ensures Performed(old(Rows()), PausesCampaigns(selected))
    {
      hide Stands, Retire, LaneDeliveries, LanesOf, EnrollmentsOf, CampaignLocks, Taken, Ascending, Covered, Linked;
      StepLinked(Rows(), PausesCampaigns(selected));
      StepStands(Rows(), PausesCampaigns(selected));
      WritesAreLocked(Rows(), PausesCampaigns(selected));
      ghost var before := Rows();
      var active := RetireCampaignWork(selected);
      SameCampaigns(before, LaneDeliveries(before, LanesOf(before, EnrollmentsOf(before, active))));
      PauseEach(active);
    }

    method PauseEach(active: set<int>)
      requires forall c | c in active :: c in campaigns
      modifies `campaigns
      ensures campaigns == map c | c in old(campaigns) :: if c in active then old(campaigns)[c].(status := CampaignPaused) else old(campaigns)[c]
    {
      var ids := Sorted(active);
      var i := 0;
      while i < |ids|
        invariant 0 <= i <= |ids|
        invariant campaigns == map c | c in old(campaigns) ::
          if c in ids[..i] then old(campaigns)[c].(status := CampaignPaused) else old(campaigns)[c]
      {
        var c := ids[i];
        assert c in ids && ids[..i + 1] == ids[..i] + [c];
        campaigns := campaigns[c := campaigns[c].(status := CampaignPaused)];
        i := i + 1;
      }
      assert ids[..i] == ids;
      assert forall c | c in campaigns :: c in ids[..i] <==> c in active;
    }

    // One unordered UPDATE: the only action that takes its locks in no fixed order.
    method ResumeSelectedCampaigns(selected: set<int>)
      requires Linked(Rows())
      modifies `campaigns
      ensures Rows() == ResumeCampaigns(old(Rows()), selected) && Linked(Rows())
      ensures Covered(old(Rows()), Rows(), LocksOf(old(Rows()), ResumesCampaigns(selected)))
    {
      hide Stands, Linked, Covered, LocksOf;
      StepLinked(Rows(), ResumesCampaigns(selected));
      StepStands(Rows(), ResumesCampaigns(selected));
      WritesAreLocked(Rows(), ResumesCampaigns(selected));
      campaigns := map c | c in campaigns ::
        if c in selected && campaigns[c].status == CampaignPaused && campaigns[c].versioned
        then campaigns[c].(status := CampaignActive) else campaigns[c];
    }

    // Any sequence of Admin actions: the run theorems hold of these transactions.
    method Perform(actions: seq<Action>)
      requires Linked(Rows())
      modifies this
      ensures Rows() == Run(old(Rows()), actions) && Linked(Rows())
    {
      hide Stands, Step, Linked, Covered, Ascending, Taken, LocksOf;
      var i := 0;
      while i < |actions|
        invariant 0 <= i <= |actions| && Linked(Rows())
        invariant Run(old(Rows()), actions) == Run(Rows(), actions[i..])
      {
        assert actions[i..][1..] == actions[i + 1..];
        PerformOne(actions[i]);
        i := i + 1;
      }
    }

    method PerformOne(a: Action)
      requires Linked(Rows())
      modifies this
      ensures Rows() == Step(old(Rows()), a) && Linked(Rows()) && Covered(old(Rows()), Rows(), LocksOf(old(Rows()), a))
    {
      hide Stands, Linked, Covered, Ascending, Taken, LocksOf, PauseLanes, StopLanes, ResumeLanes, PauseEnrollments, StopEnrollments,
           ResumeEnrollments, PauseCampaigns, ResumeCampaigns;
      match a {
        case PausesLanes(s) => PauseSelectedLanes(s);
        case ResumesLanes(s) => ResumeSelectedLanes(s);
        case StopsLanes(s) => StopSelectedLanes(s);
        case PausesEnrollments(s) => PauseSelectedEnrollments(s);
        case ResumesEnrollments(s) => ResumeSelectedEnrollments(s);
        case StopsEnrollments(s) => StopSelectedEnrollments(s);
        case PausesCampaigns(s) => PauseSelectedCampaigns(s);
        case ResumesCampaigns(s) => ResumeSelectedCampaigns(s);
      }
    }
  }

  lemma DeliveriesExist(t: Tables, lanes: set<int>)
    ensures forall d | d in LaneDeliveries(t, lanes) :: d in t.deliveries
  {
  }

  lemma NotYet(ids: seq<int>, i: nat)
    requires Ascends(ids) && i < |ids|
    ensures ids[i] !in ids[..i]
  {
  }

  lemma ReachedStill(t: Tables, t1: Tables, selected: set<int>, e: int)
    requires t1.lanes == t.lanes
    ensures Reached(t1, selected, e) == Reached(t, selected, e) && LanesOf(t1, selected) == LanesOf(t, selected)
    ensures HasWaitingLane(t1, e) == HasWaitingLane(t, e)
  {
  }

  lemma PausedEnrollmentTwice()
    ensures forall e: Enrollment :: PausedEnrollment(PausedEnrollment(e)) == PausedEnrollment(e)
  {
  }

  lemma StoppedEnrollmentTwice()
    ensures forall e: Enrollment :: StoppedEnrollment(StoppedEnrollment(e)) == StoppedEnrollment(e)
  {
  }

  lemma EnrollmentsLinked(t: Tables, enrollments: map<int, Enrollment>)
    requires Linked(t) && enrollments.Keys == t.enrollments.Keys
    requires forall e | e in enrollments :: enrollments[e].campaign == t.enrollments[e].campaign
    ensures Linked(WithEnrollments(t, enrollments))
  {
  }

  lemma LanesLinked(t: Tables, lanes: map<int, Lane>)
    requires Linked(t) && lanes.Keys == t.lanes.Keys
    requires forall l | l in lanes :: lanes[l].enrollment == t.lanes[l].enrollment
    ensures Linked(WithLanes(t, lanes))
  {
  }

  lemma SameLaneDeliveries(t: Tables, t1: Tables, selected: set<int>)
    requires t1.deliveries == t.deliveries && t1.lanes.Keys == t.lanes.Keys
    requires forall l | l in t.lanes :: t1.lanes[l].enrollment == t.lanes[l].enrollment
    ensures LaneDeliveries(t1, LanesOf(t1, selected)) == LaneDeliveries(t, LanesOf(t, selected))
  {
    forall l ensures l in LanesOf(t1, selected) <==> l in LanesOf(t, selected) {
      assert l in t1.lanes <==> l in t.lanes;
    }
    assert LanesOf(t1, selected) == LanesOf(t, selected);
  }

  lemma WaitingSeen(t: Tables, selected: set<int>, lockedLanes: seq<int>, e: int, waiting: bool)
    requires Reached(t, selected, e) && forall x :: x in lockedLanes <==> x in LanesOf(t, selected)
    requires waiting == exists l | l in lockedLanes ::
               l in t.lanes && t.lanes[l].enrollment == e && (t.lanes[l].status == WaitingCurrent || t.lanes[l].status == WaitingConnection)
    ensures waiting == HasWaitingLane(t, e)
  {
    if HasWaitingLane(t, e) {
      var l :| l in t.lanes && t.lanes[l].enrollment == e && (t.lanes[l].status == WaitingCurrent || t.lanes[l].status == WaitingConnection);
      assert l in LanesOf(t, selected);
      assert l in lockedLanes;
    }
  }

  function ResumedLane(t: Tables, l: int): Lane
    requires l in t.lanes
  {
    if Resumable(t, l) then t.lanes[l].(status := if t.lanes[l].handedOff then LaneActive else WaitingCurrent) else t.lanes[l]
  }

  // Resuming other lanes does not change whether this one can be.
  lemma StillResumable(t: Tables, lanes: map<int, Lane>, l: int)
    requires Linked(t) && l in t.lanes && lanes.Keys == t.lanes.Keys && lanes[l] == t.lanes[l]
    requires forall k | k in lanes :: lanes[k].enrollment == t.lanes[k].enrollment
    ensures Linked(t.(lanes := lanes)) && (HasUnclear(t.(lanes := lanes), l) <==> HasUnclear(t, l))
    ensures ResumedLane(t.(lanes := lanes), l) == ResumedLane(t, l)
  {
  }

  lemma SameMap<K, V>(a: map<K, V>, b: map<K, V>)
    requires a.Keys == b.Keys && forall k | k in a :: a[k] == b[k]
    ensures a == b
  {
  }

  lemma NoLocks()
    ensures UpTo([], CAMPAIGN) && Taken([]) == {}
  {
  }

  lemma TakenAre(taken: seq<Lock>, table: nat, xs: seq<int>, pks: set<int>)
    requires |taken| == |xs| && (forall k | 0 <= k < |xs| :: taken[k] == Lock(table, xs[k])) && forall x :: x in xs <==> x in pks
    ensures Taken(taken) == LockSet(table, pks)
  {
    forall l ensures l in Taken(taken) <==> l in LockSet(table, pks) {
      if l in LockSet(table, pks) {
        var k :| 0 <= k < |xs| && xs[k] == l.pk;
        assert taken[k] == l;
      }
      if l in taken {
        var k :| 0 <= k < |taken| && taken[k] == l;
        assert xs[k] in pks;
      }
    }
  }

  lemma PausedLaneTwice()
    ensures forall l: Lane :: PausedLane(PausedLane(l)) == PausedLane(l)
  {
  }

  lemma StoppedLaneTwice()
    ensures forall l: Lane :: StoppedLane(StoppedLane(l)) == StoppedLane(l)
  {
  }

  lemma ParentsExist(t: Tables, l: int)
    requires Linked(t) && l in t.lanes
    ensures t.lanes[l].enrollment in t.enrollments && t.enrollments[t.lanes[l].enrollment].campaign in t.campaigns
  {
  }

  lemma UnclearLanes(t: Tables, selected: set<int>, unclear: set<int>)
    requires forall l :: l in unclear <==> exists d | d in LaneDeliveries(t, selected) :: t.deliveries[d].status == Unclear && t.deliveries[d].lane == l
    ensures forall l | l in selected :: l in unclear <==> HasUnclear(t, l)
  {
    forall l | l in selected ensures l in unclear <==> HasUnclear(t, l) {
      if HasUnclear(t, l) {
        var d :| d in t.deliveries && t.deliveries[d].lane == l && t.deliveries[d].status == Unclear;
        assert d in LaneDeliveries(t, selected);
      }
    }
  }

  lemma RetiredTwice(d: Delivery, pending: set<int>, stop: bool)
    ensures RetiredDelivery(RetiredDelivery(d, pending, stop), pending, stop) == RetiredDelivery(d, pending, stop)
  {
  }
}
