/**
 The row locks of the Admin transactions (`drip/admin.py`): the order all of them keep, and which rows each of
 them locks and writes.
 */
module DripLocks {
  import opened DripModel

  datatype Lock = Lock(table: nat, pk: int)

  const CAMPAIGN := 0
  const LEAD := 1
  const ENROLLMENT := 2
  const LANE := 3
  const DELIVERY := 4
  const ATTEMPT := 5
  const TASK := 6

  predicate LockedBefore(a: Lock, b: Lock) {
    a.table < b.table || (a.table == b.table && a.pk < b.pk)
  }

  ghost predicate Ascending(locks: seq<Lock>) {
    forall i, j | 0 <= i < j < |locks| :: LockedBefore(locks[i], locks[j])
  }

  ghost predicate UpTo(locks: seq<Lock>, table: nat) {
    Ascending(locks) && forall i | 0 <= i < |locks| :: locks[i].table <= table
  }

  ghost function Taken(locks: seq<Lock>): set<Lock> {
    set l | l in locks
  }

  // ---------------------------------------------------------------------- deadlock

  // A transaction in progress: it holds the first `held` locks of its plan and waits for the next one.
  datatype Transaction = Transaction(plan: seq<Lock>, held: nat)

  predicate WaitsFor(a: Transaction, b: Transaction) {
    a.held < |a.plan| && b.held <= |b.plan| && a.plan[a.held] in b.plan[..b.held]
  }

  // Each transaction of the ring waits for the next one, the last for the first.
  predicate Waits(ring: seq<Transaction>, i: nat)
    requires i < |ring|
  {
    WaitsFor(ring[i], if i + 1 < |ring| then ring[i + 1] else ring[0])
  }

  // Transactions that take their locks in ascending order never wait for each other in a ring.
  lemma NoDeadlock(ring: seq<Transaction>)
    requires ring != [] && forall i | 0 <= i < |ring| :: Ascending(ring[i].plan)
    ensures exists i: nat | i < |ring| :: !Waits(ring, i)
  {
    if forall i: nat | i < |ring| :: Waits(ring, i) {
      WaitsGrow(ring, |ring| - 1);
      Held(ring[|ring| - 1], ring[0]);
    }
  }

  lemma Held(a: Transaction, b: Transaction)
    requires WaitsFor(a, b) && Ascending(b.plan)
    ensures b.held < |b.plan| ==> LockedBefore(a.plan[a.held], b.plan[b.held])
  {
    var k :| 0 <= k < b.held && b.plan[k] == a.plan[a.held];
  }

  lemma {:induction false} WaitsGrow(ring: seq<Transaction>, k: nat)
    requires k < |ring| && forall i | 0 <= i < |ring| :: Ascending(ring[i].plan)
    requires forall i: nat | i < |ring| :: Waits(ring, i)
    ensures Waits(ring, 0) && Waits(ring, k)
    ensures k == 0 || LockedBefore(ring[0].plan[ring[0].held], ring[k].plan[ring[k].held])
  {
    assert Waits(ring, 0) && Waits(ring, k);
    if k > 0 {
      hide Ascending;
      WaitsGrow(ring, k - 1);
      assert Waits(ring, k - 1);
      Held(ring[k - 1], ring[k]);
    }
  }

  // ------------------------------------------------------------- what is locked

  ghost function LockSet(table: nat, pks: set<int>): set<Lock> {
    set pk | pk in pks :: Lock(table, pk)
  }

  ghost function ParentsOf(t: Tables, lanes: set<int>): set<int> {
    set l | l in lanes && l in t.lanes :: t.lanes[l].enrollment
  }

  ghost function LeadsOf(t: Tables, enrollments: set<int>): set<int> {
    set e | e in enrollments && e in t.enrollments :: t.enrollments[e].lead
  }

  ghost function AttemptsOf(t: Tables, deliveries: set<int>): set<int> {
    set a | a in t.attempts && t.attempts[a] in deliveries
  }

  ghost function TasksOf(t: Tables, deliveries: set<int>): set<int> {
    set d | d in deliveries && d in t.deliveries && t.deliveries[d].task.Some? :: t.deliveries[d].task.value
  }

  // The deliveries of the lanes, their attempts and their Tasks.
  ghost function BelowLocks(t: Tables, lanes: set<int>): set<Lock> {
    var ds := LaneDeliveries(t, lanes);
    LockSet(DELIVERY, ds) + LockSet(ATTEMPT, AttemptsOf(t, ds)) + LockSet(TASK, TasksOf(t, ds))
  }

  // The lifecycle of the lanes, from the Leads down.
  ghost function LifecycleLocks(t: Tables, lanes: set<int>): set<Lock> {
    LockSet(LEAD, LeadsOf(t, ParentsOf(t, lanes))) + LockSet(ENROLLMENT, ParentsOf(t, lanes))
    + LockSet(LANE, set l | l in lanes && l in t.lanes) + BelowLocks(t, lanes)
  }

  // The selected campaigns, and everything below the active ones.
  ghost function CampaignLocks(t: Tables, selected: set<int>): set<Lock> {
    var members := EnrollmentsOf(t, ActiveAmong(t, selected));
    LockSet(CAMPAIGN, set c | c in selected && c in t.campaigns) + LockSet(LEAD, LeadsOf(t, members))
    + LockSet(ENROLLMENT, members) + LockSet(LANE, LanesOf(t, members)) + BelowLocks(t, LanesOf(t, members))
  }

  ghost function LocksOf(t: Tables, a: Action): set<Lock> {
    match a
    case PausesLanes(s) => LifecycleLocks(t, s)
    case ResumesLanes(s) => LifecycleLocks(t, s)
    case StopsLanes(s) => LifecycleLocks(t, s)
    case PausesEnrollments(s) => LifecycleLocks(t, LanesOf(t, s))
    case ResumesEnrollments(s) => LifecycleLocks(t, LanesOf(t, s))
    case StopsEnrollments(s) => LifecycleLocks(t, LanesOf(t, s))
    case PausesCampaigns(s) => CampaignLocks(t, s)
    case ResumesCampaigns(s) => LockSet(CAMPAIGN, set c | c in t.campaigns && ResumeCampaigns(t, s).campaigns[c] != t.campaigns[c])
  }

  // ------------------------------------------------------------ what is written

  // Every row that differs between `t` and `t1` is locked.
  ghost predicate Covered(t: Tables, t1: Tables, locks: set<Lock>) {
    && t1.attempts == t.attempts
    && t1.campaigns.Keys == t.campaigns.Keys && t1.enrollments.Keys == t.enrollments.Keys && t1.lanes.Keys == t.lanes.Keys
    && t1.deliveries.Keys == t.deliveries.Keys && t1.tasks.Keys == t.tasks.Keys
    && (forall c | c in t.campaigns :: t1.campaigns[c] == t.campaigns[c] || Lock(CAMPAIGN, c) in locks)
    && (forall e | e in t.enrollments :: t1.enrollments[e] == t.enrollments[e] || Lock(ENROLLMENT, e) in locks)
    && (forall l | l in t.lanes :: t1.lanes[l] == t.lanes[l] || Lock(LANE, l) in locks)
    && (forall d | d in t.deliveries :: t1.deliveries[d] == t.deliveries[d] || Lock(DELIVERY, d) in locks)
    && (forall k | k in t.tasks :: t1.tasks[k] == t.tasks[k] || Lock(TASK, k) in locks)
  }

  lemma CoveredThen(t: Tables, t1: Tables, t2: Tables, locks: set<Lock>)
    requires Covered(t, t1, locks) && Covered(t1, t2, locks)
    ensures Covered(t, t2, locks)
  {
  }

  lemma LanesCovered(t: Tables, lanes: map<int, Lane>, changed: set<int>, locks: set<Lock>)
    requires LockSet(LANE, changed) <= locks && lanes.Keys == t.lanes.Keys
    requires forall l | l in t.lanes && l !in changed :: lanes[l] == t.lanes[l]
    ensures Covered(t, WithLanes(t, lanes), locks)
  {
    forall l | l in t.lanes ensures lanes[l] == t.lanes[l] || Lock(LANE, l) in locks {
      if l in changed { assert Lock(LANE, l) in LockSet(LANE, changed); }
    }
  }

  lemma EnrollmentsCovered(t: Tables, enrollments: map<int, Enrollment>, changed: set<int>, locks: set<Lock>)
    requires LockSet(ENROLLMENT, changed) <= locks && enrollments.Keys == t.enrollments.Keys
    requires forall e | e in t.enrollments && e !in changed :: enrollments[e] == t.enrollments[e]
    ensures Covered(t, WithEnrollments(t, enrollments), locks)
  {
    forall e | e in t.enrollments ensures enrollments[e] == t.enrollments[e] || Lock(ENROLLMENT, e) in locks {
      if e in changed { assert Lock(ENROLLMENT, e) in LockSet(ENROLLMENT, changed); }
    }
  }

  // Retiring some of the deliveries of locked lanes.
  lemma RetireCovered(t: Tables, lanes: set<int>, affected: set<int>, stop: bool, locks: set<Lock>)
    requires BelowLocks(t, lanes) <= locks && affected <= LaneDeliveries(t, lanes)
    ensures Covered(t, Retire(t, affected, stop), locks)
  {
    var ds := LaneDeliveries(t, lanes);
    forall d | d in affected ensures Lock(DELIVERY, d) in locks {
      assert Lock(DELIVERY, d) in LockSet(DELIVERY, ds);
    }
    forall k | k in PendingTasks(t, affected) ensures Lock(TASK, k) in locks {
      assert k in TasksOf(t, ds);
      assert Lock(TASK, k) in LockSet(TASK, TasksOf(t, ds));
    }
  }

  // Other lanes or enrollments leave what is below a lane as it was.
  lemma BelowSame(t: Tables, t1: Tables, lanes: set<int>)
    requires t1.deliveries == t.deliveries && t1.attempts == t.attempts
    ensures BelowLocks(t1, lanes) == BelowLocks(t, lanes) && LaneDeliveries(t1, lanes) == LaneDeliveries(t, lanes)
  {
  }

  // A change of locked lanes or enrollments, and then of what is below locked lanes.
  lemma ThenRetireCovered(t: Tables, t1: Tables, lanes: set<int>, some: set<int>, stop: bool, locks: set<Lock>)
    requires Covered(t, t1, locks) && t1.deliveries == t.deliveries && t1.attempts == t.attempts
    requires some <= lanes && BelowLocks(t, lanes) <= locks
    ensures Covered(t, Retire(t1, LaneDeliveries(t1, some), stop), locks)
  {
    hide Covered, Retire, BelowLocks;
    BelowSame(t, t1, lanes);
    RetireCovered(t1, lanes, LaneDeliveries(t1, some), stop, locks);
    CoveredThen(t, t1, Retire(t1, LaneDeliveries(t1, some), stop), locks);
  }

  lemma LaneActionsCovered(t: Tables, s: set<int>)
    ensures Covered(t, PauseLanes(t, s), LifecycleLocks(t, s)) && Covered(t, StopLanes(t, s), LifecycleLocks(t, s))
    ensures Covered(t, ResumeLanes(t, s), LifecycleLocks(t, s))
  {
    hide Covered, Retire, BelowLocks, LockSet, Resumable, LaneDeliveries;
    var locks := LifecycleLocks(t, s);
    var present := set l | l in s && l in t.lanes;
    var paused, stopped := MarkLanesPaused(t, s), MarkLanesStopped(t, s);
    LanesCovered(t, paused.lanes, present, locks);
    LanesCovered(t, stopped.lanes, present, locks);
    LanesCovered(t, ResumeLanes(t, s).lanes, present, locks);
    ThenRetireCovered(t, paused, s, LanesAt(paused, s, LanePaused), false, locks);
    ThenRetireCovered(t, stopped, s, LanesAt(stopped, s, LaneStopped), true, locks);
  }

  lemma ParentsAreReached(t: Tables, s: set<int>)
    ensures forall e :: Reached(t, s, e) <==> e in ParentsOf(t, LanesOf(t, s))
  {
    forall e ensures Reached(t, s, e) <==> e in ParentsOf(t, LanesOf(t, s)) {
      if Reached(t, s, e) {
        var l :| l in t.lanes && t.lanes[l].enrollment == e;
        assert l in LanesOf(t, s);
      }
    }
  }

  lemma StoppedScope(t: Tables, s: set<int>)
    ensures LanesOf(MarkTheirLanesStopped(t, s), s) == LanesOf(t, s)
  {
    var t1 := MarkTheirLanesStopped(t, s);
    forall l ensures l in LanesOf(t1, s) <==> l in LanesOf(t, s) {
      assert l in t1.lanes <==> l in t.lanes;
      assert l in t.lanes ==> t1.lanes[l].enrollment == t.lanes[l].enrollment;
    }
  }

  lemma EnrollmentActionsCovered(t: Tables, s: set<int>)
    ensures var locks := LifecycleLocks(t, LanesOf(t, s));
            && Covered(t, PauseEnrollments(t, s), locks) && Covered(t, ResumeEnrollments(t, s), locks)
            && Covered(t, StopEnrollments(t, s), locks)
  {
    hide Covered, Retire, BelowLocks, LockSet, HasWaitingLane, LaneDeliveries, Reached;
    var scope, locks := LanesOf(t, s), LifecycleLocks(t, LanesOf(t, s));
    var present := set l | l in scope && l in t.lanes;
    ParentsAreReached(t, s);
    var paused, stopped := MarkEnrollmentsPaused(t, s), MarkEnrollmentsStopped(t, s);
    EnrollmentsCovered(t, paused.enrollments, ParentsOf(t, scope), locks);
    EnrollmentsCovered(t, ResumeEnrollments(t, s).enrollments, ParentsOf(t, scope), locks);
    EnrollmentsCovered(t, stopped.enrollments, ParentsOf(t, scope), locks);
    ThenRetireCovered(t, paused, scope, LanesOf(paused, s), false, locks);
    var all := MarkTheirLanesStopped(stopped, s);
    LanesCovered(stopped, all.lanes, present, locks);
    CoveredThen(t, stopped, all, locks);
    StoppedScope(stopped, s);
    ThenRetireCovered(t, all, scope, LanesOf(all, s), true, locks);
  }

  lemma CampaignActionsCovered(t: Tables, s: set<int>)
    ensures Covered(t, PauseCampaigns(t, s), CampaignLocks(t, s))
    ensures Covered(t, ResumeCampaigns(t, s), LocksOf(t, ResumesCampaigns(s)))
  {
    hide Retire, BelowLocks, LaneDeliveries;
    var active, locks := ActiveAmong(t, s), CampaignLocks(t, s);
    var scope := LanesOf(t, EnrollmentsOf(t, active));
    RetireCovered(t, scope, LaneDeliveries(t, scope), false, locks);
    forall c | c in active ensures Lock(CAMPAIGN, c) in locks {
      assert Lock(CAMPAIGN, c) in LockSet(CAMPAIGN, set c | c in s && c in t.campaigns);
    }
  }

  // Every Admin action writes only rows it has locked.
  lemma WritesAreLocked(t: Tables, a: Action)
    ensures Covered(t, Step(t, a), LocksOf(t, a))
  {
    hide Covered, LifecycleLocks, CampaignLocks, PauseLanes, StopLanes, ResumeLanes, PauseEnrollments, StopEnrollments, ResumeEnrollments,
         PauseCampaigns;
    match a {
      case PausesLanes(s) => LaneActionsCovered(t, s);
      case ResumesLanes(s) => LaneActionsCovered(t, s);
      case StopsLanes(s) => LaneActionsCovered(t, s);
      case PausesEnrollments(s) => EnrollmentActionsCovered(t, s);
      case ResumesEnrollments(s) => EnrollmentActionsCovered(t, s);
      case StopsEnrollments(s) => EnrollmentActionsCovered(t, s);
      case PausesCampaigns(s) => CampaignActionsCovered(t, s);
      case ResumesCampaigns(s) => CampaignActionsCovered(t, s);
    }
  }

  // ---------------------------------------------------------------- foreign keys

  lemma RetireLinked(t: Tables, affected: set<int>, stop: bool)
    requires Linked(t)
    ensures Linked(Retire(t, affected, stop))
  {
    var t1 := Retire(t, affected, stop);
    forall d | d in t1.deliveries ensures t1.deliveries[d].lane in t1.lanes {
      assert d in t.deliveries;
    }
    forall d | d in t1.deliveries && t1.deliveries[d].task.Some? ensures t1.deliveries[d].task.value in t1.tasks {
      assert t.deliveries[d].task == t1.deliveries[d].task;
    }
  }

  lemma CampaignsLinked(t: Tables, campaigns: map<int, Campaign>)
    requires Linked(t) && campaigns.Keys == t.campaigns.Keys
    ensures Linked(t.(campaigns := campaigns))
  {
    forall e | e in t.enrollments ensures t.enrollments[e].campaign in campaigns {
      assert t.enrollments[e].campaign in t.campaigns.Keys;
    }
  }

  lemma SameCampaigns(t: Tables, affected: set<int>)
    ensures Retire(t, affected, false).campaigns == t.campaigns
  {
  }

  // Every Admin action keeps the foreign keys.
  lemma StepLinked(t: Tables, a: Action)
    requires Linked(t)
    ensures Linked(Step(t, a))
  {
    hide Retire, LaneDeliveries, Resumable, HasWaitingLane, Reached;
    match a {
      case PausesLanes(s) =>
        var t1 := MarkLanesPaused(t, s);
        RetireLinked(t1, LaneDeliveries(t1, LanesAt(t1, s, LanePaused)), false);
      case ResumesLanes(s) =>
      case StopsLanes(s) =>
        var t1 := MarkLanesStopped(t, s);
        RetireLinked(t1, LaneDeliveries(t1, LanesAt(t1, s, LaneStopped)), true);
      case PausesEnrollments(s) =>
        var t1 := MarkEnrollmentsPaused(t, s);
        RetireLinked(t1, LaneDeliveries(t1, LanesOf(t1, s)), false);
      case ResumesEnrollments(s) =>
      case StopsEnrollments(s) =>
        var t2 := MarkTheirLanesStopped(MarkEnrollmentsStopped(t, s), s);
        RetireLinked(t2, LaneDeliveries(t2, LanesOf(t2, s)), true);
      case PausesCampaigns(s) =>
        var affected := LaneDeliveries(t, LanesOf(t, EnrollmentsOf(t, ActiveAmong(t, s))));
        RetireLinked(t, affected, false);
        SameCampaigns(t, affected);
        CampaignsLinked(Retire(t, affected, false), PauseCampaigns(t, s).campaigns);
      case ResumesCampaigns(s) => CampaignsLinked(t, ResumeCampaigns(t, s).campaigns);
    }
  }
}
