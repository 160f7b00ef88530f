/**
 The `SupervisorSafety` object itself, updated in place. Every method is one uninterrupted call; what it
 leaves is the registry function of the same name, or the latch machine run line by line to its end.
 */
module SupervisorGuard {
  import opened Outcomes
  import opened SupervisorCapture
  import opened SupervisorRegistry
  import opened SupervisorStop

  datatype Launched = Running(handle: nat) | Refused | Broke | StoppedMidway

  datatype LatchState = LatchState(stopped: bool, emergency: bool, launching: bool, stopping: bool, notified: bool, called: nat)

  // One shutdown call from start to end: latch, registry, signals sent and whether it raised.
  function ShutdownOf(l: LatchState, r: Registry, sent: seq<Signal>, urgent: bool, reasoned: bool, a: Answers)
    : (LatchState, Registry, seq<Signal>, bool)
  {
    var latched := l.(stopped := true, emergency := l.emergency || urgent);
    if l.stopping || l.launching then (latched, r, sent, false)
    else
      var (r1, signals, failed) := Terminate(r, a);
      var notify := !l.notified && (reasoned || failed || latched.emergency);
      (latched.(notified := l.notified || notify, called := if notify then l.called + 1 else l.called), r1, sent + signals, failed)
  }

  // The registry once the child is entered.
  function Entered(r: Registry, handle: Option<nat>, child: ChildLook): Registry {
    if handle.None? then r
    else
      var r1 := r.(roots := r.roots + [handle.value]);
      if child.Seen? then Remember(r1, child.id).(rootIds := r1.rootIds[handle.value := child.id]) else r1
  }

  lemma NotEntered(r: Registry, child: ChildLook)
    ensures Entered(r, None, child) == r
  {
  }

  predicate LaunchFails(r: Registry, handle: Option<nat>, child: ChildLook, kin: Oracle<ProcId, KinLook>) {
    Capture(Entered(r, handle, child), kin).1
  }

  // -------------------------------------------- the same call, line by line

  function LatchOf(fl: Flags): LatchState {
    LatchState(fl.stopped, fl.emergency, fl.launching, fl.stopping, fl.notified, fl.called)
  }

  // Up to `n` lines of an otherwise idle supervisor's shutdown.
  function RunAlone(fl: Flags, w: World, st: Stack, o: Outside, n: nat): (Flags, World, Stack)
    decreases n
  {
    if n == 0 || st.Idle? || st.top.Launch? then (fl, w, st)
    else
      var f := st.top;
      RunAlone(StopFlags(fl, Claiming(st.below), f), StopWorld(w, f, o),
               StopNext(fl, f.at.Sweep? && Terminate(w.registry, o.answers).2, f, st.below), o, n - 1)
  }

  lemma {:induction false} LineAlone(fl: Flags, w: World, f: Frame, o: Outside, n: nat)
    requires f.Stop? && n > 0
    ensures RunAlone(fl, w, Over(f, Idle), o, n)
         == RunAlone(StopFlags(fl, false, f), StopWorld(w, f, o),
                     StopNext(fl, f.at.Sweep? && Terminate(w.registry, o.answers).2, f, Idle), o, n - 1)
    ensures RunAlone(fl, w, Idle, o, n) == (fl, w, Idle)
  {
    hide Terminate, StopFlags, StopNext;
  }

  // Run without interruption, the lines of the latch machine are exactly the call.
  lemma {:induction false} LinesAreTheCall(fl: Flags, w: World, emergency: bool, reasoned: bool, o: Outside, sent: seq<Signal>)
    ensures var (fl1, w1, st) := RunAlone(fl, w, Over(NewStop(emergency, reasoned), Idle), o, 11);
            var (l, r, signals, raised) := ShutdownOf(LatchOf(fl), w.registry, sent, emergency, reasoned, o.answers);
            LatchOf(fl1) == l && w1.registry == r && st == Idle
  {
    hide Terminate, RunAlone, StopFlags, StopNext, StopWorld;
    var f := NewStop(emergency, reasoned);
    var fl3 := fl.(stopped := true, emergency := fl.emergency || emergency);
    LatchAlone(fl, w, f, o);
    if !fl.stopping && !fl.launching {
      SweepAlone(fl3, w, f.(at := Guard), o);
      var (r, _, failed) := Terminate(w.registry, o.answers);
      SettleAlone(fl3, Observed(w, r).(doubt := failed), f.(at := Ask, reasoned := reasoned || failed), o);
    }
  }

  lemma {:induction false} LatchAlone(fl: Flags, w: World, f: Frame, o: Outside)
    requires f.Stop? && f.at.Begin?
    ensures var fl3 := fl.(stopped := true, emergency := fl.emergency || f.emergency);
            RunAlone(fl, w, Over(f, Idle), o, 11)
              == if fl.stopping || fl.launching then (fl3, w, Idle) else RunAlone(fl3, w, Over(f.(at := Guard), Idle), o, 7)
  {
    hide Terminate, RunAlone;
    var fl2 := fl.(stopped := true);
    var fl3 := fl2.(emergency := fl.emergency || f.emergency);
    LineAlone(fl, w, f, o, 11);
    LineAlone(fl, w, f.(at := Latch), o, 10);
    LineAlone(fl2, w, f.(at := Escalate), o, 9);
    LineAlone(fl3, w, f.(at := Test), o, 8);
    LineAlone(fl3, w, f, o, 7);
  }

  lemma {:induction false} SweepAlone(fl: Flags, w: World, f: Frame, o: Outside)
    requires f.Stop? && f.at.Guard? && !fl.stopping
    ensures var (r, _, failed) := Terminate(w.registry, o.answers);
            var g := f.(at := Ask, reasoned := f.reasoned || failed);
            RunAlone(fl, w, Over(f, Idle), o, 7) == RunAlone(fl, Observed(w, r).(doubt := failed), Over(g, Idle), o, 4)
  {
    hide Terminate, RunAlone;
    var fl1 := fl.(stopping := true);
    var (r, _, failed) := Terminate(w.registry, o.answers);
    LineAlone(fl, w, f, o, 7);
    LineAlone(fl1, w, f.(at := Sweep), o, 6);
    LineAlone(fl1, Observed(w, r).(doubt := failed), f.(at := Unguard, reasoned := f.reasoned || failed), o, 5);
  }

  lemma {:induction false} SettleAlone(fl: Flags, w: World, f: Frame, o: Outside)
    requires f.Stop? && f.at.Ask?
    ensures var (fl1, w1, st) := RunAlone(fl, w, Over(f, Idle), o, 4);
            && w1 == w && st == Idle
            && LatchOf(fl1) == if Passes(fl, f) then LatchOf(fl).(notified := true, called := fl.called + 1) else LatchOf(fl)
  {
    hide Terminate, RunAlone;
    LineAlone(fl, w, f, o, 4);
    if Passes(fl, f) {
      var fl1 := fl.(passes := fl.passes + 1);
      var fl2 := fl1.(notified := true);
      LineAlone(fl1, w, f.(at := Claim, notify := false), o, 3);
      LineAlone(fl2, w, f.(at := Release, notify := true), o, 2);
      LineAlone(fl2, w, f.(at := Notify, notify := true), o, 1);
      assert RunAlone(fl2.(called := fl.called + 1), w, Idle, o, 0) == (fl2.(called := fl.called + 1), w, Idle) by { Ended(fl2.(called := fl.called + 1), w, o); }
    } else {
      LineAlone(fl, w, f.(at := Release, notify := false), o, 3);
      LineAlone(fl, w, f.(at := Notify, notify := false), o, 2);
      LineAlone(fl, w, f, o, 1);
    }
  }

  lemma {:induction false} Ended(fl: Flags, w: World, o: Outside)
    ensures RunAlone(fl, w, Idle, o, 0) == (fl, w, Idle)
  {
  }

  // ------------------------------------------------- the pieces of the logs

  lemma LogNone()
    ensures Log([], []) == []
  {
  }

  lemma {:induction false} LogSplit(candidates: seq<ProcId>, survivors: seq<ProcId>)
    ensures Log(candidates, survivors) == Log(candidates, []) + Log([], survivors)
  {
    if candidates != [] { LogSplit(candidates[1..], survivors); }
  }

  lemma {:induction false} LogGrows(candidates: seq<ProcId>, id: ProcId)
    ensures Log(candidates + [id], []) == Log(candidates, []) + [Terminated(id)]
  {
    if candidates == [] {
      assert candidates + [id] == [id];
      assert Log([id], []) == [Terminated(id)] + Log([], []);
    } else {
      assert (candidates + [id])[1..] == candidates[1..] + [id];
      LogGrows(candidates[1..], id);
    }
  }

  lemma {:induction false} LogKills(candidates: seq<ProcId>, survivors: seq<ProcId>, id: ProcId)
    ensures Log(candidates, survivors + [id]) == Log(candidates, survivors) + [Killed(id)]
    decreases |candidates|, |survivors|
  {
    if candidates != [] {
      LogKills(candidates[1..], survivors, id);
    } else if survivors == [] {
      assert survivors + [id] == [id];
      assert Log([], [id]) == [Killed(id)] + Log([], []);
    } else {
      assert (survivors + [id])[1..] == survivors[1..] + [id];
      LogKills([], survivors[1..], id);
    }
  }

  lemma AnyGrows(looks: seq<ChildLook>, look: ChildLook)
    ensures AnyUnreadable(looks + [look]) == (AnyUnreadable(looks) || look.Unreadable?)
  {
    if AnyUnreadable(looks) {
      var k :| 0 <= k < |looks| && looks[k].Unreadable?;
      assert (looks + [look])[k].Unreadable?;
    }
    if look.Unreadable? { assert (looks + [look])[|looks|].Unreadable?; }
  }

  lemma {:induction false} WithoutNone(retired: set<ProcId>)
    ensures Without([], retired) == []
  {
  }

  lemma {:induction false} WithoutFirst(id: ProcId, ids: seq<ProcId>, retired: set<ProcId>)
    ensures Without([id] + ids, retired) == (if id in retired then [] else [id]) + Without(ids, retired)
  {
    assert ([id] + ids)[1..] == ids;
  }

  lemma {:induction false} WithoutGrows(ids: seq<ProcId>, retired: set<ProcId>, id: ProcId)
    ensures Without(ids + [id], retired) == Without(ids, retired) + (if id in retired then [] else [id])
  {
    hide Without;
    WithoutNone(retired);
    if ids == [] {
      WithoutFirst(id, [], retired);
      assert ids + [id] == [id] + [];
    } else {
      WithoutGrows(ids[1..], retired, id);
      WithoutFirst(ids[0], ids[1..], retired);
      WithoutFirst(ids[0], ids[1..] + [id], retired);
      assert ids + [id] == [ids[0]] + (ids[1..] + [id]) && ids == [ids[0]] + ids[1..];
    }
  }

  lemma {:induction false} RetainedNone(rootIds: map<nat, ProcId>, retired: set<ProcId>)
    ensures Retained([], rootIds, retired) == [] && Unretired([], rootIds, retired) == rootIds
  {
  }

  lemma {:induction false} RetainedFirst(h: nat, roots: seq<nat>, rootIds: map<nat, ProcId>, retired: set<ProcId>)
    ensures Retained([h] + roots, rootIds, retired)
         == (if h in rootIds && rootIds[h] in retired then [] else [h]) + Retained(roots, rootIds, retired)
  {
    assert ([h] + roots)[1..] == roots;
  }

  lemma {:induction false} RetainedGrows(roots: seq<nat>, rootIds: map<nat, ProcId>, retired: set<ProcId>, h: nat)
    ensures Retained(roots + [h], rootIds, retired)
         == Retained(roots, rootIds, retired) + (if h in rootIds && rootIds[h] in retired then [] else [h])
  {
    hide Retained;
    RetainedNone(rootIds, retired);
    if roots == [] {
      RetainedFirst(h, [], rootIds, retired);
      assert roots + [h] == [h] + [];
    } else {
      RetainedGrows(roots[1..], rootIds, retired, h);
      RetainedFirst(roots[0], roots[1..], rootIds, retired);
      RetainedFirst(roots[0], roots[1..] + [h], rootIds, retired);
      assert roots + [h] == [roots[0]] + (roots[1..] + [h]) && roots == [roots[0]] + roots[1..];
    }
  }

  lemma UnretiredGrows(roots: seq<nat>, rootIds: map<nat, ProcId>, retired: set<ProcId>, h: nat)
    ensures Unretired(roots + [h], rootIds, retired)
         == if h in rootIds && rootIds[h] in retired then Unretired(roots, rootIds, retired) - {h} else Unretired(roots, rootIds, retired)
  {
  }

  // A pass over `ids` from `r0` is, so far, at `r` with `left` still to look at.
  ghost predicate Ahead(r0: Registry, ids: seq<ProcId>, look: Oracle<ProcId, SignalLook>,
                        r: Registry, left: seq<ProcId>, reached: seq<ProcId>, failed: bool) {
    && SignalEach(r0, ids, look).0 == SignalEach(r, left, look).0
    && SignalEach(r0, ids, look).1 == reached + SignalEach(r, left, look).1
    && SignalEach(r0, ids, look).2 == (failed || SignalEach(r, left, look).2)
  }

  lemma AheadOne(r0: Registry, ids: seq<ProcId>, look: Oracle<ProcId, SignalLook>,
                 r: Registry, left: seq<ProcId>, reached: seq<ProcId>, failed: bool)
    requires left != [] && Ahead(r0, ids, look, r, left, reached, failed)
    ensures var id, answer := left[0], look.Of(left[0]);
            && (id in r.dead ==> Ahead(r0, ids, look, r, left[1..], reached, failed))
            && (id !in r.dead && answer.NotAlive? ==> Ahead(r0, ids, look, r.(dead := r.dead + {id}), left[1..], reached, failed))
            && (id !in r.dead && answer.LookFailed? ==> Ahead(r0, ids, look, r, left[1..], reached, true))
            && (id !in r.dead && PassedCheck(answer) ==>
                  Ahead(r0, ids, look, r, left[1..], reached + [id], failed || answer.SignalFailed?))
  {
  }

  lemma {:induction false} AheadEnds(r0: Registry, ids: seq<ProcId>, look: Oracle<ProcId, SignalLook>, r: Registry, reached: seq<ProcId>, failed: bool)
    ensures Ahead(r0, ids, look, r0, ids, [], false)
    ensures Ahead(r0, ids, look, r, [], reached, failed) ==> SignalEach(r0, ids, look) == (r, reached, failed)
  {
    assert reached + [] == reached && [] + SignalEach(r0, ids, look).1 == SignalEach(r0, ids, look).1;
  }

  class Supervisor {
    var owned: seq<ProcId>
    var dead: set<ProcId>
    var snapshotted: set<ProcId>
    var roots: seq<nat>
    var rootIds: map<nat, ProcId>

    var stopped: bool
    var emergency: bool
    var launching: bool
    var stopping: bool
    var notified: bool

    // What the outside saw: the signals sent and how often the callback ran.
    var sent: seq<Signal>
    var called: nat

    function Registered(): Registry
      reads this`owned, this`dead, this`snapshotted, this`roots, this`rootIds
    {
      Registry(owned, dead, snapshotted, roots, rootIds)
    }

    constructor ()
      ensures Registered() == NoProcesses && sent == [] && called == 0
      ensures !stopped && !emergency && !launching && !stopping && !notified
    {
      owned, dead, snapshotted, roots, rootIds := [], {}, {}, [], map[];
      stopped, emergency, launching, stopping, notified := false, false, false, false, false;
      sent, called := [], 0;
    }

    method Enlist(id: ProcId)
      modifies `owned
      ensures Registered() == Remember(old(Registered()), id)
    {
      if id !in owned {
        owned := owned + [id];
      }
    }

    // One record of a capture pass.
    method CaptureRecord(id: ProcId, look: KinLook) returns (failed: bool)
      modifies `owned, `dead, `snapshotted
      ensures (Registered(), failed) == CaptureOne(old(Registered()), id, look)
    {
      failed := false;
      if id in dead {
        return;
      }
      match look {
        case Gone => dead := dead + {id};
        case GoneMidway =>
        case Broken => failed := true;
        case Kin(children) =>
          ghost var before := Registered();
          var i := 0;
          while i < |children|
            invariant 0 <= i <= |children| && dead == old(dead) && snapshotted == old(snapshotted)
            invariant RememberAll(before, children) == RememberAll(Registered(), children[i..])
            invariant failed == AnyUnreadable(children[..i])
          {
            assert children[i..] == [children[i]] + children[i + 1..];
            assert children[..i + 1] == children[..i] + [children[i]];
            AnyGrows(children[..i], children[i]);
            match children[i] {
              case Seen(child) => Enlist(child);
              case Vanished =>
              case Unreadable => failed := true;
            }
            i := i + 1;
          }
          assert children[..i] == children;
          snapshotted := snapshotted + {id};
      }
    }

    // Forget what is dead and captured.
    method RetireOwned(retired: set<ProcId>)
      modifies `owned
      ensures owned == Without(old(owned), retired)
    {
      hide Without;
      var kept, i := [], 0;
      WithoutNone(retired);
      while i < |owned|
        invariant 0 <= i <= |owned| && owned == old(owned) && kept == Without(owned[..i], retired)
      {
        WithoutGrows(owned[..i], retired, owned[i]);
        assert owned[..i + 1] == owned[..i] + [owned[i]];
        if owned[i] !in retired {
          kept := kept + [owned[i]];
        }
        i := i + 1;
      }
      assert owned[..i] == owned;
      owned := kept;
    }

    method RetireRoots(retired: set<ProcId>)
      modifies `roots, `rootIds
      ensures roots == Retained(old(roots), old(rootIds), retired)
      ensures rootIds == Unretired(old(roots), old(rootIds), retired)
    {
      hide Retained, Unretired;
      var retained, ids, j := [], rootIds, 0;
      RetainedNone(rootIds, retired);
      while j < |roots|
        invariant 0 <= j <= |roots| && roots == old(roots) && rootIds == old(rootIds)
        invariant retained == Retained(roots[..j], rootIds, retired)
        invariant ids == Unretired(roots[..j], rootIds, retired)
      {
        RetainedGrows(roots[..j], rootIds, retired, roots[j]);
        UnretiredGrows(roots[..j], rootIds, retired, roots[j]);
        assert roots[..j + 1] == roots[..j] + [roots[j]];
        if roots[j] in rootIds && rootIds[roots[j]] in retired {
          ids := ids - {roots[j]};
        } else {
          retained := retained + [roots[j]];
        }
        j := j + 1;
      }
      assert roots[..j] == roots;
      roots, rootIds := retained, ids;
    }

    method Retire()
      modifies `owned, `dead, `snapshotted, `roots, `rootIds
      ensures Registered() == Prune(old(Registered()))
    {
      var retired := dead * snapshotted;
      RetireOwned(retired);
      dead, snapshotted := dead - retired, snapshotted - retired;
      RetireRoots(retired);
    }

    method CaptureDescendants(kin: Oracle<ProcId, KinLook>) returns (failed: bool)
      modifies `owned, `dead, `snapshotted, `roots, `rootIds
      ensures (Registered(), failed) == Capture(old(Registered()), kin)
    {
      var records, i := owned, 0;
      failed := false;
      while i < |records|
        invariant 0 <= i <= |records| && roots == old(roots) && rootIds == old(rootIds)
        invariant CaptureEach(old(Registered()), records, kin)
               == (CaptureEach(Registered(), records[i..], kin).0, failed || CaptureEach(Registered(), records[i..], kin).1)
      {
        assert records[i..] == [records[i]] + records[i + 1..];
        var failedHere := CaptureRecord(records[i], kin.Of(records[i]));
        failed := failed || failedHere;
        i := i + 1;
      }
      Retire();
    }

    // `terminate` or `kill` one process if it passes the PID-reuse check.
    method SignalRecord(id: ProcId, answer: SignalLook, kill: bool) returns (reached: bool, failed: bool)
      modifies `dead, `sent
      ensures reached == (id !in old(dead) && PassedCheck(answer))
      ensures failed == (id !in old(dead) && (answer.LookFailed? || answer.SignalFailed?))
      ensures dead == if id !in old(dead) && answer.NotAlive? then old(dead) + {id} else old(dead)
      ensures sent == if reached then old(sent) + [if kill then Killed(id) else Terminated(id)] else old(sent)
    {
      reached, failed := false, false;
      if id !in dead {
        if answer.NotAlive? {
          dead := dead + {id};
        } else if answer.LookFailed? {
          failed := true;
        } else {
          reached, failed := true, answer.SignalFailed?;
          sent := sent + [if kill then Killed(id) else Terminated(id)];
        }
      }
    }

    method SignalAll(ids: seq<ProcId>, look: Oracle<ProcId, SignalLook>, kill: bool) returns (reached: seq<ProcId>, failed: bool)
      modifies `dead, `sent
      ensures (Registered(), reached, failed) == SignalEach(old(Registered()), ids, look)
      ensures sent == old(sent) + if kill then Log([], reached) else Log(reached, [])
    {
      hide Log, Ahead, SignalEach;
      reached, failed := [], false;
      LogNone();
      AheadEnds(Registered(), ids, look, Registered(), [], false);
      var i := 0;
      assert ids[0..] == ids;
      while i < |ids|
        invariant 0 <= i <= |ids|
        invariant Ahead(old(Registered()), ids, look, Registered(), ids[i..], reached, failed)
        invariant sent == old(sent) + if kill then Log([], reached) else Log(reached, [])
      {
        AheadOne(old(Registered()), ids, look, Registered(), ids[i..], reached, failed);
        assert ids[i..][1..] == ids[i + 1..];
        var hit, failedHere := SignalRecord(ids[i], look.Of(ids[i]), kill);
        failed := failed || failedHere;
        if hit {
          LogGrows(reached, ids[i]);
          LogKills([], reached, ids[i]);
          reached := reached + [ids[i]];
        }
        i := i + 1;
      }
      assert ids[i..] == [];
      AheadEnds(old(Registered()), ids, look, Registered(), reached, failed);
    }

    // The sweep finds this identity registered, not known dead, and its check before the terminate passes.
    predicate Sweeps(r: Registry, a: Answers, id: ProcId) {
      id in Swept(r, a).owned && Reachable(Swept(r, a), a.terminate, id)
    }

    method TerminateOwned(a: Answers) returns (failed: bool)
      modifies `owned, `dead, `snapshotted, `roots, `rootIds, `sent
      ensures var (r, signals, f) := Terminate(old(Registered()), a);
              Registered() == r && sent == old(sent) + signals && failed == f
      ensures forall id | Sweeps(old(Registered()), a, id) :: Terminated(id) in sent
      ensures forall id | Sweeps(old(Registered()), a, id) && Outlived(a.afterTerminate, id) && PassedCheck(a.kill.Of(id)) :: Killed(id) in sent
    {
      forall id { SweepReaches(Registered(), a, id); }
      hide Capture, SignalEach, Log, Reverse, Among, RootsFailed;
      var captureFailed := CaptureDescendants(a.kin);
      var candidates, termFailed := SignalAll(Reverse(owned), a.terminate, false);
      var alive := if a.afterTerminate.None? then candidates else Among(candidates, a.afterTerminate.value);
      var survivors, killFailed := SignalAll(alive, a.kill, true);
      LogSplit(candidates, survivors);
      failed := captureFailed || termFailed || a.afterTerminate.None? || killFailed;
      if a.afterKill.None? || Among(survivors, a.afterKill.value) != [] {
        failed := true;
      }
      failed := failed || RootsFailed(roots, rootIds, a.root);
    }

    function Latch(): LatchState
      reads this`stopped, this`emergency, this`launching, this`stopping, this`notified, this`called
    {
      LatchState(stopped, emergency, launching, stopping, notified, called)
    }

    // _shutdown; `raised`: it ended in the failure of its sweep.
    method Shutdown(urgent: bool, reasoned: bool, a: Answers) returns (raised: bool)
      modifies this
      ensures var (l, r, signals, failed) := ShutdownOf(old(Latch()), old(Registered()), old(sent), urgent, reasoned, a);
              Latch() == l && Registered() == r && sent == signals && raised == failed
    {
      hide Terminate, Registered;
      raised := false;
      stopped := true;
      emergency := emergency || urgent;
      if stopping || launching {
        return;
      }
      stopping := true;
      raised := TerminateOwned(a);
      stopping := false;
      Notify(reasoned || raised);
    }

    // The end of _shutdown: claim the notification, and call back outside the lock.
    method Notify(reasoned: bool)
      modifies this`notified, this`called
      ensures var notify := !old(notified) && (reasoned || emergency);
              notified == (old(notified) || notify) && called == if notify then old(called) + 1 else old(called)
    {
      var notify := false;
      if !notified && (reasoned || emergency) {
        notified := true;
        notify := true;
      }
      if notify {
        called := called + 1;
      }
    }

    method RegisterChild(handle: nat, child: ChildLook)
      modifies `owned, `roots, `rootIds
      ensures Registered() == Entered(old(Registered()), Some(handle), child)
    {
      roots := roots + [handle];
      if child.Seen? {
        Enlist(child.id);
        rootIds := rootIds[handle := child.id];
      }
    }

    // `launch`, with an ordinary stop signal possibly arriving just after the child was spawned.
    method Launch(handle: Option<nat>, child: ChildLook, kin: Oracle<ProcId, KinLook>, signalled: bool, a: Answers)
      returns (r: Launched)
      requires !launching && !stopping
      modifies this
      ensures !launching && !stopping
      ensures old(stopped) ==> r == Refused && Latch() == old(Latch()) && Registered() == old(Registered()) && sent == old(sent)
      ensures r.Running? ==> !stopped && Some(r.handle) == handle && sent == old(sent)
      ensures r.Running? ==> Registered() == Capture(Entered(old(Registered()), handle, child), kin).0
      ensures !old(stopped) ==> r.Running? == (handle.Some? && !child.Unreadable? && !signalled && !LaunchFails(old(Registered()), handle, child, kin))
      ensures !old(stopped) && !r.Running? ==>
                var r0 := if handle.None? || child.Unreadable? then Entered(old(Registered()), handle, child)
                          else Capture(Entered(old(Registered()), handle, child), kin).0;
                stopped && Registered() == Terminate(r0, a).0 && sent == old(sent) + Terminate(r0, a).1
    {
      hide Capture, Terminate, Entered, Registered;
      if stopped {
        return Refused;
      }
      launching := true;
      if handle.None? {
        NotEntered(Registered(), child);
        launching := false;
        var _ := Shutdown(false, true, a);
        return Broke;
      }
      if signalled {
        var _ := Shutdown(false, false, a);
      }
      RegisterChild(handle.value, child);
      var broken := child.Unreadable?;
      if !broken {
        broken := CaptureDescendants(kin);
      }
      launching := false;
      if broken {
        var _ := Shutdown(false, true, a);
        return Broke;
      }
      if stopped {
        var _ := Shutdown(false, false, a);
        return StoppedMidway;
      }
      return Running(handle.value);
    }
  }
}
