/** What a capture pass and a sweep keep, forget and reach. */
module SupervisorCapture {
  import opened Outcomes
  import opened SupervisorRegistry

  // --------------------------------------------------- capture keeps it sound

  lemma {:induction false} RememberAllKeeps(r: Registry, looks: seq<ChildLook>)
    requires Sound(r)
    ensures var s := RememberAll(r, looks);
            && Sound(s) && s == r.(owned := s.owned) && r.owned <= s.owned
            && (forall id :: id in s.owned <==> id in r.owned || Seen(id) in looks)
    decreases |looks|
  {
    if looks != [] {
      var head := if looks[0].Seen? then Remember(r, looks[0].id) else r;
      RememberAllKeeps(head, looks[1..]);
      assert looks == [looks[0]] + looks[1..];
    }
  }

  // What one pass over `ids` may have done to the registry.
  ghost predicate PassOf(r: Registry, s: Registry, ids: seq<ProcId>, kin: Oracle<ProcId, KinLook>) {
    && r.owned <= s.owned && r.dead <= s.dead && r.snapshotted <= s.snapshotted
    && s.roots == r.roots && s.rootIds == r.rootIds
    && (forall id | id in s.dead && id !in r.dead :: id in ids && kin.Of(id).Gone?)
    && (forall id | id in s.snapshotted && id !in r.snapshotted :: id in ids && kin.Of(id).Kin?)
    && (forall id, child | id in ids && id !in r.dead && child in ReadChildren(kin.Of(id)) :: child in s.owned)
  }

  lemma {:induction false} CaptureEachKeeps(r: Registry, ids: seq<ProcId>, kin: Oracle<ProcId, KinLook>)
    requires Sound(r) && (forall id | id in ids :: id in r.owned)
    ensures Sound(CaptureEach(r, ids, kin).0) && PassOf(r, CaptureEach(r, ids, kin).0, ids, kin)
    decreases |ids|
  {
    if ids != [] {
      var id := ids[0];
      var (r1, _) := CaptureOne(r, id, kin.Of(id));
      if kin.Of(id).Kin? { RememberAllKeeps(r, kin.Of(id).children); }
      assert Sound(r1) && PassOf(r, r1, [id], kin);
      CaptureEachKeeps(r1, ids[1..], kin);
      var r2 := CaptureEach(r1, ids[1..], kin).0;
      PassesCompose(r, r1, r2, ids, kin);
    }
  }

  lemma PassesCompose(r: Registry, r1: Registry, r2: Registry, ids: seq<ProcId>, kin: Oracle<ProcId, KinLook>)
    requires ids != [] && PassOf(r, r1, [ids[0]], kin) && PassOf(r1, r2, ids[1..], kin)
    ensures PassOf(r, r2, ids, kin)
  {
    assert ids == [ids[0]] + ids[1..];
    assert forall id :: id in r1.owned ==> id in r2.owned;
  }

  lemma {:induction false} WithoutDistinct(ids: seq<ProcId>, retired: set<ProcId>)
    requires Distinct(ids)
    ensures Distinct(Without(ids, retired))
  {
    if ids != [] {
      assert Distinct(ids[1..]);
      WithoutDistinct(ids[1..], retired);
      var rest := Without(ids[1..], retired);
      assert ids[0] !in ids[1..];
      assert ids[0] !in rest;
    }
  }

  // The heart of the registry. After a capture pass the registry is still sound, nobody is held dead
  // who has not exited, and an identity is forgotten only if it has exited and its descendants were
  // captured by an earlier pass. A descendant read in this pass is owned from now on, unless it is such
  // an identity itself.
  lemma CaptureForgetsOnlyTheCaptured(r: Registry, kin: Oracle<ProcId, KinLook>, before: set<ProcId>, after: set<ProcId>)
    requires Sound(r) && DeadExited(r, before) && before <= after && HonestKin(kin, r.owned, before, after)
    ensures var s := Capture(r, kin).0;
            && Sound(s) && DeadExited(s, after)
            && (forall id | id in r.owned && id !in s.owned :: id in after && id in r.snapshotted)
            && (forall id, child | id in r.owned && id !in r.dead && child in ReadChildren(kin.Of(id)) ::
                  child in s.owned || (child in after && child in r.snapshotted))
  {
    var r1 := CaptureEach(r, r.owned, kin).0;
    CaptureEachKeeps(r, r.owned, kin);
    var retired := r1.dead * r1.snapshotted;
    WithoutDistinct(r1.owned, retired);
    assert forall id | id in retired :: id in r.snapshotted && id in after;
  }

  // ------------------------------------------------------ what shutdown leaves

  lemma {:induction false} SignalEachFacts(r: Registry, ids: seq<ProcId>, look: Oracle<ProcId, SignalLook>)
    requires Sound(r) && (forall id | id in ids :: id in r.owned)
    ensures var (s, sent, failed) := SignalEach(r, ids, look);
            && Sound(s) && s == r.(dead := s.dead) && r.dead <= s.dead
            && (forall id | id in s.dead && id !in r.dead :: id in ids && look.Of(id).NotAlive?)
            && (forall id | id in sent :: id in ids && id !in r.dead && !look.Of(id).NotAlive? && !look.Of(id).LookFailed?)
            && (!failed ==> forall id | id in ids :: id in sent || id in s.dead)
    decreases |ids|
  {
    if ids != [] {
      var id := ids[0];
      assert ids == [id] + ids[1..];
      var r1 := if id !in r.dead && look.Of(id).NotAlive? then r.(dead := r.dead + {id}) else r;
      SignalEachFacts(r1, ids[1..], look);
    }
  }

  // A shutdown that reports no failure leaves no owned process and no unidentified root alive.
  lemma QuietShutdownContains(r: Registry, a: Answers, before: set<ProcId>, after: set<ProcId>, exitedRoots: set<nat>)
    requires Sound(r) && DeadExited(r, before) && before <= after && HonestAnswers(r, a, before, after, exitedRoots)
    ensures var (s, _, failed) := Terminate(r, a);
            && Sound(s) && DeadExited(s, after)
            && (forall id | id in r.owned :: id in s.owned || id in after)
            && (!failed ==> Contained(s, after, exitedRoots))
  {
    CaptureForgetsOnlyTheCaptured(r, a.kin, before, after);
    var r0 := Capture(r, a.kin).0;
    SignalEachFacts(r0, Reverse(r0.owned), a.terminate);
    var (r1, candidates, termFailed) := SignalEach(r0, Reverse(r0.owned), a.terminate);
    var alive := if a.afterTerminate.None? then candidates else Among(candidates, a.afterTerminate.value);
    SignalEachFacts(r1, alive, a.kill);
    var (r2, survivors, killFailed) := SignalEach(r1, alive, a.kill);
    if !Terminate(r, a).2 {
      forall id | id in r2.owned
        ensures id in after
      {
        assert id in Reverse(r0.owned);
        if id in candidates && id in alive && id in survivors {
          assert id !in Among(survivors, a.afterKill.value);
        }
      }
    }
  }

  lemma {:induction false} NoKinNothingNew(r: Registry, ids: seq<ProcId>, kin: Oracle<ProcId, KinLook>)
    requires forall id | id in ids :: !kin.Of(id).Kin?
    ensures var s := CaptureEach(r, ids, kin).0; s.owned == r.owned && s.roots == r.roots && s.rootIds == r.rootIds
    decreases |ids|
  {
    if ids != [] {
      NoKinNothingNew(CaptureOne(r, ids[0], kin.Of(ids[0])).0, ids[1..], kin);
    }
  }

  // Processes that have exited show no children: looking at them again adds nothing.
  lemma CaptureStaysContained(r: Registry, kin: Oracle<ProcId, KinLook>, before: set<ProcId>, after: set<ProcId>, exitedRoots: set<nat>)
    requires Contained(r, before, exitedRoots) && before <= after && HonestKin(kin, r.owned, before, after)
    ensures Contained(Capture(r, kin).0, after, exitedRoots)
  {
    NoKinNothingNew(r, r.owned, kin);
  }

  // Where each signal of one shutdown comes from.
  lemma {:induction false} SignalOrigin(candidates: seq<ProcId>, survivors: seq<ProcId>, i: nat)
    requires i < |Log(candidates, survivors)| && forall id | id in survivors :: id in candidates
    ensures var log := Log(candidates, survivors);
            if log[i].Terminated? then log[i].id in candidates
            else log[i].id in survivors && Terminated(log[i].id) in log
  {
    if i >= |candidates| {
      assert survivors[i - |candidates|] in candidates;
      var id := survivors[i - |candidates|];
      var k :| 0 <= k < |candidates| && candidates[k] == id;
      assert Log(candidates, survivors)[k] == Terminated(id);
    }
  }

  // Signals reach only owned identities that had just passed the PID-reuse check, and only a process
  // already asked to terminate is killed.
  lemma SignalsStayHome(r: Registry, a: Answers, i: nat)
    requires Sound(r) && i < |Terminate(r, a).1|
    ensures Terminate(r, a).1[i].id in Terminate(r, a).0.owned
    ensures var log := Terminate(r, a).1;
            if log[i].Terminated? then PassedCheck(a.terminate.Of(log[i].id))
            else PassedCheck(a.kill.Of(log[i].id)) && Terminated(log[i].id) in log
  {
    CaptureSound(r, a.kin);
    var r0 := Capture(r, a.kin).0;
    SignalEachFacts(r0, Reverse(r0.owned), a.terminate);
    var (r1, candidates, _) := SignalEach(r0, Reverse(r0.owned), a.terminate);
    var alive := if a.afterTerminate.None? then candidates else Among(candidates, a.afterTerminate.value);
    SignalEachFacts(r1, alive, a.kill);
    var (r2, survivors, _) := SignalEach(r1, alive, a.kill);
    hide Capture, SignalEach, Sound, Among, Reverse, RootsFailed, Log;
    SignalOrigin(candidates, survivors, i);
  }

  lemma CaptureSound(r: Registry, kin: Oracle<ProcId, KinLook>)
    requires Sound(r)
    ensures Sound(Capture(r, kin).0)
  {
    var r1 := CaptureEach(r, r.owned, kin).0;
    CaptureEachKeeps(r, r.owned, kin);
    WithoutDistinct(r1.owned, r1.dead * r1.snapshotted);
  }

  // ------------------------------------------------------- exactly who is signalled

  predicate Reachable(r: Registry, look: Oracle<ProcId, SignalLook>, id: ProcId) {
    id !in r.dead && PassedCheck(look.Of(id))
  }

  predicate SignalTrouble(r: Registry, look: Oracle<ProcId, SignalLook>, id: ProcId) {
    id !in r.dead && (look.Of(id).LookFailed? || look.Of(id).SignalFailed?)
  }

  // A pass signals exactly those not known dead that pass the check, learns who is gone, and fails exactly on trouble.
  lemma {:induction false} SignalEachExactly(r: Registry, ids: seq<ProcId>, look: Oracle<ProcId, SignalLook>)
    ensures var (s, sent, failed) := SignalEach(r, ids, look);
            && s == r.(dead := s.dead)
            && (forall id :: id in s.dead <==> id in r.dead || (id in ids && look.Of(id).NotAlive?))
            && (forall id :: id in sent <==> id in ids && Reachable(r, look, id))
            && (failed <==> exists id :: id in ids && SignalTrouble(r, look, id))
    decreases |ids|
  {
    if ids != [] {
      var id := ids[0];
      assert ids == [id] + ids[1..];
      var r1 := if id !in r.dead && look.Of(id).NotAlive? then r.(dead := r.dead + {id}) else r;
      SignalEachExactly(r1, ids[1..], look);
      assert forall x :: Reachable(r1, look, x) == Reachable(r, look, x);
      assert forall x :: SignalTrouble(r1, look, x) == SignalTrouble(r, look, x);
      assert forall x :: x in ids <==> x == id || x in ids[1..];
      assert (exists x :: x in ids && SignalTrouble(r, look, x))
        <==> SignalTrouble(r, look, id) || exists x :: x in ids[1..] && SignalTrouble(r1, look, x);
    }
  }

  // The processes a sweep finds registered when it starts to signal.
  function Swept(r: Registry, a: Answers): Registry {
    Capture(r, a.kin).0
  }

  predicate Outlived(wait: Option<set<ProcId>>, id: ProcId) {
    wait.None? || id in wait.value
  }

  lemma {:induction false} LogHolds(candidates: seq<ProcId>, survivors: seq<ProcId>, id: ProcId)
    ensures Terminated(id) in Log(candidates, survivors) <==> id in candidates
    ensures Killed(id) in Log(candidates, survivors) <==> id in survivors
    decreases |candidates|, |survivors|
  {
    if candidates != [] {
      LogHolds(candidates[1..], survivors, id);
      assert candidates == [candidates[0]] + candidates[1..];
    } else if survivors != [] {
      LogHolds([], survivors[1..], id);
      assert survivors == [survivors[0]] + survivors[1..];
    }
  }

  // The sweep asks exactly the registered identities not known dead that pass the check to terminate, and kills
  // exactly those of them that the wait did not see exit and that pass the check once more.
  lemma SweepReaches(r: Registry, a: Answers, id: ProcId)
    ensures var log := Terminate(r, a).1;
            && (Terminated(id) in log <==> id in Swept(r, a).owned && Reachable(Swept(r, a), a.terminate, id))
            && (Killed(id) in log <==> Terminated(id) in log && Outlived(a.afterTerminate, id) && PassedCheck(a.kill.Of(id)))
    ensures var (s, log, _) := Terminate(r, a);
            && s == Swept(r, a).(dead := s.dead)
            && (id in s.dead <==>
                  || id in Swept(r, a).dead || (id in Swept(r, a).owned && a.terminate.Of(id).NotAlive?)
                  || (Terminated(id) in log && Outlived(a.afterTerminate, id) && a.kill.Of(id).NotAlive?))
  {
    var r0 := Capture(r, a.kin).0;
    SignalEachExactly(r0, Reverse(r0.owned), a.terminate);
    var (r1, candidates, _) := SignalEach(r0, Reverse(r0.owned), a.terminate);
    var alive := if a.afterTerminate.None? then candidates else Among(candidates, a.afterTerminate.value);
    SignalEachExactly(r1, alive, a.kill);
    var survivors := SignalEach(r1, alive, a.kill).1;
    hide Capture, SignalEach, Log;
    LogHolds(candidates, survivors, id);
  }

  ghost predicate RootTrouble(r: Registry, look: Oracle<nat, RootLook>) {
    exists h :: h in r.roots && h !in r.rootIds && look.Of(h).RootFailed?
  }

  // It reports a failure exactly when an inspection, a signal or a wait failed, or something outlived its kill.
  lemma SweepFailsExactly(r: Registry, a: Answers)
    ensures var (_, log, failed) := Terminate(r, a);
            failed <==>
              || Capture(r, a.kin).1
              || (exists id :: id in Swept(r, a).owned && SignalTrouble(Swept(r, a), a.terminate, id))
              || a.afterTerminate.None?
              || (exists id :: Terminated(id) in log && Outlived(a.afterTerminate, id)
                               && (a.kill.Of(id).LookFailed? || a.kill.Of(id).SignalFailed?))
              || a.afterKill.None?
              || (exists id :: Killed(id) in log && id in a.afterKill.value)
              || RootTrouble(Swept(r, a), a.root)
  {
    var r0 := Capture(r, a.kin).0;
    SignalEachExactly(r0, Reverse(r0.owned), a.terminate);
    var (r1, candidates, termFailed) := SignalEach(r0, Reverse(r0.owned), a.terminate);
    var alive := if a.afterTerminate.None? then candidates else Among(candidates, a.afterTerminate.value);
    SignalEachExactly(r1, alive, a.kill);
    var (r2, survivors, killFailed) := SignalEach(r1, alive, a.kill);
    forall id { LogHolds(candidates, survivors, id); }
    hide Capture, SignalEach, Log;
    if a.afterKill.Some? { AmongNone(survivors, a.afterKill.value); }
    RootsTrouble(r2, a.root);
    assert termFailed <==> exists id :: id in r0.owned && SignalTrouble(r0, a.terminate, id);
    assert killFailed <==> exists id :: id in alive && SignalTrouble(r1, a.kill, id);
  }

  lemma AmongNone(ids: seq<ProcId>, keep: set<ProcId>)
    ensures Among(ids, keep) != [] <==> exists id :: id in ids && id in keep
  {
    var kept := Among(ids, keep);
    if kept != [] { assert kept[0] in kept; }
  }

  lemma RootsTrouble(r: Registry, look: Oracle<nat, RootLook>)
    ensures RootsFailed(r.roots, r.rootIds, look) <==> RootTrouble(r, look)
  {
    if h :| h in r.roots && h !in r.rootIds && look.Of(h).RootFailed? {
      var i :| 0 <= i < |r.roots| && r.roots[i] == h;
    }
    if i :| 0 <= i < |r.roots| && r.roots[i] !in r.rootIds && look.Of(r.roots[i]).RootFailed? {
      assert r.roots[i] in r.roots;
    }
  }

  // ------------------------------------------------------------------- in which order

  // `x` stands before `y`.
  ghost predicate Before(ids: seq<ProcId>, x: ProcId, y: ProcId) {
    exists k, l :: 0 <= k < l < |ids| && ids[k] == x && ids[l] == y
  }

  lemma BeforeTail(id: ProcId, ids: seq<ProcId>, x: ProcId, y: ProcId)
    ensures Before(ids, x, y) ==> Before([id] + ids, x, y)
    ensures y in ids ==> Before([id] + ids, id, y)
  {
    var longer := [id] + ids;
    if Before(ids, x, y) {
      var k, l :| 0 <= k < l < |ids| && ids[k] == x && ids[l] == y;
      assert longer[k + 1] == x && longer[l + 1] == y;
    }
    if y in ids {
      var l :| 0 <= l < |ids| && ids[l] == y;
      assert longer[0] == id && longer[l + 1] == y;
    }
  }

  lemma {:induction false} SentInOrder(r: Registry, ids: seq<ProcId>, look: Oracle<ProcId, SignalLook>, i: nat, j: nat)
    requires i < j < |SignalEach(r, ids, look).1|
    ensures Before(ids, SignalEach(r, ids, look).1[i], SignalEach(r, ids, look).1[j])
    decreases |ids|
  {
    var id := ids[0];
    var sent := SignalEach(r, ids, look).1;
    var r1 := if id !in r.dead && look.Of(id).NotAlive? then r.(dead := r.dead + {id}) else r;
    var rest := SignalEach(r1, ids[1..], look).1;
    assert sent == rest || sent == [id] + rest;
    SignalEachExactly(r1, ids[1..], look);
    hide SignalEach, Before;
    assert ids == [id] + ids[1..];
    if sent == rest {
      SentInOrder(r1, ids[1..], look, i, j);
      BeforeTail(id, ids[1..], sent[i], sent[j]);
    } else if i > 0 {
      SentInOrder(r1, ids[1..], look, i - 1, j - 1);
      BeforeTail(id, ids[1..], sent[i], sent[j]);
    } else {
      assert sent[j] == rest[j - 1] && rest[j - 1] in rest;
      BeforeTail(id, ids[1..], id, sent[j]);
    }
  }

  lemma {:induction false} ReverseSwaps(ids: seq<ProcId>, x: ProcId, y: ProcId)
    requires Before(Reverse(ids), x, y)
    ensures Before(ids, y, x)
  {
    if ids != [] {
      var back := Reverse(ids[1..]);
      var k, l :| 0 <= k < l < |Reverse(ids)| && Reverse(ids)[k] == x && Reverse(ids)[l] == y;
      assert Reverse(ids) == back + [ids[0]] && ids == [ids[0]] + ids[1..];
      assert back[k] == x && back[k] in back;
      BeforeTail(ids[0], ids[1..], y, x);
      if l < |back| {
        assert back[l] == y;
        ReverseSwaps(ids[1..], x, y);
      }
    }
  }

  // Descendants, which were registered later, are asked to terminate first; kills come after every such request.
  lemma SweepOrder(r: Registry, a: Answers, i: nat, j: nat)
    requires i < j < |Terminate(r, a).1|
    ensures var log := Terminate(r, a).1;
            && (log[i].Killed? ==> log[j].Killed?)
            && (log[i].Terminated? && log[j].Terminated? ==> Before(Swept(r, a).owned, log[j].id, log[i].id))
  {
    var r0 := Capture(r, a.kin).0;
    var (r1, candidates, _) := SignalEach(r0, Reverse(r0.owned), a.terminate);
    var alive := if a.afterTerminate.None? then candidates else Among(candidates, a.afterTerminate.value);
    var survivors := SignalEach(r1, alive, a.kill).1;
    if j < |candidates| {
      SentInOrder(r0, Reverse(r0.owned), a.terminate, i, j);
      ReverseSwaps(r0.owned, candidates[i], candidates[j]);
    }
    hide Capture, SignalEach, Before;
    assert Terminate(r, a).1 == Log(candidates, survivors);
    if i >= |candidates| {
      assert Log(candidates, survivors)[|candidates| + (i - |candidates|)] == Killed(survivors[i - |candidates|]);
    }
    if j >= |candidates| {
      assert Log(candidates, survivors)[|candidates| + (j - |candidates|)] == Killed(survivors[j - |candidates|]);
    }
  }

  // --------------------------------------------------------- exactly what a capture knows

  predicate Inspected(r: Registry, id: ProcId) {
    id in r.owned && id !in r.dead
  }

  predicate CaptureTrouble(look: KinLook) {
    look.Broken? || (look.Kin? && AnyUnreadable(look.children))
  }

  ghost predicate Captures(r: Registry, s: Registry, ids: seq<ProcId>, kin: Oracle<ProcId, KinLook>, failed: bool) {
    && s.roots == r.roots && s.rootIds == r.rootIds
    && (forall id :: id in s.owned <==> id in r.owned || exists p :: p in ids && p !in r.dead && id in ReadChildren(kin.Of(p)))
    && (forall id :: id in s.dead <==> id in r.dead || (id in ids && kin.Of(id).Gone?))
    && (forall id :: id in s.snapshotted <==> id in r.snapshotted || (id in ids && id !in r.dead && kin.Of(id).Kin?))
    && (failed <==> exists id :: id in ids && id !in r.dead && CaptureTrouble(kin.Of(id)))
  }

  lemma {:induction false} RememberedAll(r: Registry, looks: seq<ChildLook>)
    ensures var s := RememberAll(r, looks);
            s == r.(owned := s.owned) && forall id :: id in s.owned <==> id in r.owned || Seen(id) in looks
    decreases |looks|
  {
    if looks != [] {
      RememberedAll(if looks[0].Seen? then Remember(r, looks[0].id) else r, looks[1..]);
      assert looks == [looks[0]] + looks[1..];
    }
  }

  lemma CapturesOne(r: Registry, id: ProcId, look: KinLook)
    ensures var (s, failed) := CaptureOne(r, id, look);
            && s.roots == r.roots && s.rootIds == r.rootIds
            && (forall x :: x in s.owned <==> x in r.owned || (id !in r.dead && x in ReadChildren(look)))
            && (forall x :: x in s.dead <==> x in r.dead || (x == id && look.Gone?))
            && (forall x :: x in s.snapshotted <==> x in r.snapshotted || (x == id && id !in r.dead && look.Kin?))
            && (failed <==> id !in r.dead && CaptureTrouble(look))
  {
    if look.Kin? {
      RememberedAll(r, look.children);
      forall x ensures x in ReadChildren(look) <==> Seen(x) in look.children {
        if Seen(x) in look.children {
          var i :| 0 <= i < |look.children| && look.children[i] == Seen(x);
          assert look.children[i].Seen? && look.children[i].id == x;
        }
      }
    }
  }

  lemma {:induction false} CapturesEach(r: Registry, ids: seq<ProcId>, kin: Oracle<ProcId, KinLook>)
    requires Distinct(ids)
    ensures Captures(r, CaptureEach(r, ids, kin).0, ids, kin, CaptureEach(r, ids, kin).1)
    decreases |ids|
  {
    if ids != [] {
      var id := ids[0];
      var (r1, failed1) := CaptureOne(r, id, kin.Of(id));
      CapturesOne(r, id, kin.Of(id));
      assert Distinct(ids[1..]) && id !in ids[1..];
      CapturesEach(r1, ids[1..], kin);
      hide CaptureOne, CaptureTrouble;
      CapturesMore(r, r1, CaptureEach(r1, ids[1..], kin).0, ids, kin, failed1, CaptureEach(r1, ids[1..], kin).1);
    }
  }

  lemma CapturesMore(r: Registry, r1: Registry, s: Registry, ids: seq<ProcId>, kin: Oracle<ProcId, KinLook>, failed1: bool, failed: bool)
    requires ids != [] && ids[0] !in ids[1..] && Captures(r1, s, ids[1..], kin, failed)
    requires var id := ids[0];
             && r1.roots == r.roots && r1.rootIds == r.rootIds
             && (forall x :: x in r1.owned <==> x in r.owned || (id !in r.dead && x in ReadChildren(kin.Of(id))))
             && (forall x :: x in r1.dead <==> x in r.dead || (x == id && kin.Of(id).Gone?))
             && (forall x :: x in r1.snapshotted <==> x in r.snapshotted || (x == id && id !in r.dead && kin.Of(id).Kin?))
             && (failed1 <==> id !in r.dead && CaptureTrouble(kin.Of(id)))
    ensures Captures(r, s, ids, kin, failed1 || failed)
  {
    hide CaptureTrouble, ReadChildren;
    var id, rest := ids[0], ids[1..];
    assert forall x :: x in ids <==> x == id || x in rest;
    assert forall x | x in rest :: x in r1.dead <==> x in r.dead;
    forall x
      ensures x in s.owned <==> x in r.owned || exists p :: p in ids && p !in r.dead && x in ReadChildren(kin.Of(p))
    {
      assert id in ids;
    }
    if failed {
      var x :| x in rest && x !in r1.dead && CaptureTrouble(kin.Of(x));
      assert x in ids && x !in r.dead;
    }
  }

  // Registered before, or shown by a registered process.
  ghost predicate Shown(r: Registry, kin: Oracle<ProcId, KinLook>, id: ProcId) {
    id in r.owned || exists p :: Inspected(r, p) && id in ReadChildren(kin.Of(p))
  }

  predicate KnownDead(r: Registry, kin: Oracle<ProcId, KinLook>, id: ProcId) {
    id in r.dead || (id in r.owned && kin.Of(id).Gone?)
  }

  predicate KnownCaptured(r: Registry, kin: Oracle<ProcId, KinLook>, id: ProcId) {
    id in r.snapshotted || (Inspected(r, id) && kin.Of(id).Kin?)
  }

  predicate Forgotten(r: Registry, kin: Oracle<ProcId, KinLook>, id: ProcId) {
    KnownDead(r, kin, id) && KnownCaptured(r, kin, id)
  }

  // Who is registered after a pass, who is held dead, whose descendants count as captured, and which roots remain.
  lemma CaptureTable(r: Registry, kin: Oracle<ProcId, KinLook>)
    requires Sound(r)
    ensures var (s, failed) := Capture(r, kin);
            && (forall id :: id in s.owned <==> Shown(r, kin, id) && !Forgotten(r, kin, id))
            && (forall id :: id in s.dead <==> KnownDead(r, kin, id) && !Forgotten(r, kin, id))
            && (forall id :: id in s.snapshotted <==> KnownCaptured(r, kin, id) && !Forgotten(r, kin, id))
            && (forall h :: h in s.roots <==> h in r.roots && !(h in r.rootIds && Forgotten(r, kin, r.rootIds[h])))
            && (forall h :: h in s.rootIds <==> h in r.rootIds && !Forgotten(r, kin, r.rootIds[h]))
            && (forall h | h in s.rootIds :: s.rootIds[h] == r.rootIds[h])
            && (failed <==> exists p :: Inspected(r, p) && CaptureTrouble(kin.Of(p)))
  {
    CapturesEach(r, r.owned, kin);
    hide CaptureEach, CaptureTrouble, ReadChildren;
    var r1 := CaptureEach(r, r.owned, kin).0;
    var retired := r1.dead * r1.snapshotted;
    assert forall id :: id in retired <==> Forgotten(r, kin, id);
    hide KnownDead, KnownCaptured, Forgotten;
  }

  // ---------------------------------------------------------------- children before parents

  lemma {:induction false} WithoutKeepsOrder(ids: seq<ProcId>, retired: set<ProcId>, x: ProcId, y: ProcId)
    requires Before(ids, x, y) && x !in retired && y !in retired
    ensures Before(Without(ids, retired), x, y)
  {
    var k, l :| 0 <= k < l < |ids| && ids[k] == x && ids[l] == y;
    var rest := Without(ids[1..], retired);
    if k == 0 {
      assert ids[1..][l - 1] == y && y in rest;
      BeforeTail(x, rest, x, y);
    } else {
      assert ids[1..][k - 1] == x && ids[1..][l - 1] == y;
      WithoutKeepsOrder(ids[1..], retired, x, y);
      BeforeTail(ids[0], rest, x, y);
      assert [] + rest == rest;
    }
  }

  // A capture keeps the order in which identities were first seen, and puts the newly seen after them.
  lemma CapturedInOrder(r: Registry, kin: Oracle<ProcId, KinLook>, x: ProcId, y: ProcId)
    requires Sound(r) && x in r.owned && (Before(r.owned, x, y) || y !in r.owned)
    requires x in Capture(r, kin).0.owned && y in Capture(r, kin).0.owned
    ensures Before(Capture(r, kin).0.owned, x, y)
  {
    var r1 := CaptureEach(r, r.owned, kin).0;
    CaptureEachKeeps(r, r.owned, kin);
    hide CaptureEach;
    var ids := r1.owned;
    if Before(r.owned, x, y) {
      var k, l :| 0 <= k < l < |r.owned| && r.owned[k] == x && r.owned[l] == y;
      assert ids[k] == x && ids[l] == y;
    } else {
      var k :| 0 <= k < |r.owned| && r.owned[k] == x;
      var l :| 0 <= l < |ids| && ids[l] == y;
      assert forall m | 0 <= m < |r.owned| :: ids[m] in r.owned;
    }
    WithoutKeepsOrder(ids, r1.dead * r1.snapshotted, x, y);
  }

  lemma BeforeOneWay(ids: seq<ProcId>, x: ProcId, y: ProcId)
    requires Distinct(ids) && Before(ids, x, y)
    ensures !Before(ids, y, x)
  {
  }

  // Both were swept, the parent registered before the child.
  lemma BothSwept(r: Registry, a: Answers, parent: ProcId, child: ProcId)
    requires Sound(r) && parent in r.owned && child !in r.owned
    requires Terminated(parent) in Terminate(r, a).1 && Terminated(child) in Terminate(r, a).1
    ensures !Before(Swept(r, a).owned, child, parent)
  {
    hide Terminate, Capture, Before, Sound, Distinct;
    SweepReaches(r, a, parent);
    SweepReaches(r, a, child);
    CapturedInOrder(r, a.kin, parent, child);
    assert Distinct(Swept(r, a).owned) by { CaptureDistinct(r, a.kin); }
    BeforeOneWay(Swept(r, a).owned, parent, child);
  }

  lemma CaptureDistinct(r: Registry, kin: Oracle<ProcId, KinLook>)
    requires Sound(r)
    ensures Distinct(Capture(r, kin).0.owned)
  {
    CaptureSound(r, kin);
    hide Capture;
  }

  // A process that a sweep discovers below a registered one is asked to terminate before it.
  lemma ChildrenFirst(r: Registry, a: Answers, parent: ProcId, child: ProcId, i: nat, j: nat)
    requires Sound(r) && parent in r.owned && child !in r.owned
    requires i < |Terminate(r, a).1| && j < |Terminate(r, a).1|
    requires Terminate(r, a).1[i] == Terminated(parent) && Terminate(r, a).1[j] == Terminated(child)
    ensures j < i
  {
    hide Terminate, Capture, Before, Sound, Swept;
    assert Terminated(parent) in Terminate(r, a).1 && Terminated(child) in Terminate(r, a).1;
    BothSwept(r, a, parent, child);
    if i < j { SweepOrder(r, a, i, j); }
  }
}
