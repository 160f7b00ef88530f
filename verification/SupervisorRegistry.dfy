/**
 The registry of processes a supervisor owns (`supervisor_safety.py`): what it remembers, when it
 may forget, and whom it signals.

 The operating system answers through an oracle of looks. Answers are arbitrary except for honesty:
 a process reported gone has exited, a process that shows its children has not.
 */
module SupervisorRegistry {
  import opened Outcomes

  // A PID alone is reused by the system; a PID with its creation time is not.
  datatype ProcId = ProcId(pid: int, createdAt: int)

  datatype ChildLook = Seen(id: ProcId) | Vanished | Unreadable

  // The system's answer about each process or handle.
  datatype Oracle<K(==), A> = Oracle(answers: map<K, A>, otherwise: A) {
    function Of(k: K): A {
      if k in answers then answers[k] else otherwise
    }
  }

  datatype KinLook =
    | Gone                              // fails the PID-reuse check
    | GoneMidway                        // alive, then no such process
    | Broken                            // any other inspection error
    | Kin(children: seq<ChildLook>)     // alive, with the descendants read

  // Answer to "alive?" followed by the signal itself.
  datatype SignalLook =
    | NotAlive
    | LookFailed
    | Signalled
    | SignalMissed // vanished between the check and the signal
    | SignalFailed

  datatype RootLook = RootFinished | RootLost | RootFailed

  datatype Signal = Terminated(id: ProcId) | Killed(id: ProcId)

  // The answers of the system to one shutdown. `None` is a wait that raised.
  datatype Answers = Answers(
    kin: Oracle<ProcId, KinLook>,
    terminate: Oracle<ProcId, SignalLook>, afterTerminate: Option<set<ProcId>>,
    kill: Oracle<ProcId, SignalLook>, afterKill: Option<set<ProcId>>,
    root: Oracle<nat, RootLook>)

  // `owned` lists identities in the order they were first seen.
  datatype Registry = Registry(
    owned: seq<ProcId>, dead: set<ProcId>, snapshotted: set<ProcId>, roots: seq<nat>, rootIds: map<nat, ProcId>)

  const NoProcesses := Registry([], {}, {}, [], map[])

  // -------------------------------------------------------- registry updates

  function Remember(r: Registry, id: ProcId): Registry {
    if id in r.owned then r else r.(owned := r.owned + [id])
  }

  function RememberAll(r: Registry, looks: seq<ChildLook>): Registry
    decreases |looks|
  {
    if looks == [] then r
    else
      var head := if looks[0].Seen? then Remember(r, looks[0].id) else r;
      RememberAll(head, looks[1..])
  }

  function AnyUnreadable(looks: seq<ChildLook>): bool {
    exists i | 0 <= i < |looks| :: looks[i].Unreadable?
  }

  function ReadChildren(look: KinLook): set<ProcId> {
    if look.Kin? then set i | 0 <= i < |look.children| && look.children[i].Seen? :: look.children[i].id else {}
  }

  // One record of the capture pass: the registry and whether an inspection failed.
  function CaptureOne(r: Registry, id: ProcId, look: KinLook): (Registry, bool) {
    if id in r.dead then (r, false)
    else match look
      case Gone => (r.(dead := r.dead + {id}), false)
      case GoneMidway => (r, false)
      case Broken => (r, true)
      case Kin(children) =>
        var r1 := RememberAll(r, children);
        (r1.(snapshotted := r1.snapshotted + {id}), AnyUnreadable(children))
  }

  function CaptureEach(r: Registry, ids: seq<ProcId>, kin: Oracle<ProcId, KinLook>): (Registry, bool)
    decreases |ids|
  {
    if ids == [] then (r, false)
    else
      var (r1, failed1) := CaptureOne(r, ids[0], kin.Of(ids[0]));
      var (r2, failed2) := CaptureEach(r1, ids[1..], kin);
      (r2, failed1 || failed2)
  }

  function Without(ids: seq<ProcId>, retired: set<ProcId>): (r: seq<ProcId>)
    ensures forall id :: id in r <==> id in ids && id !in retired
  {
    if ids == [] then [] else (if ids[0] in retired then [] else [ids[0]]) + Without(ids[1..], retired)
  }

  function Retained(roots: seq<nat>, rootIds: map<nat, ProcId>, retired: set<ProcId>): (r: seq<nat>)
    ensures forall h :: h in r <==> h in roots && !(h in rootIds && rootIds[h] in retired)
  {
    if roots == [] then []
    else (if roots[0] in rootIds && rootIds[roots[0]] in retired then [] else [roots[0]]) + Retained(roots[1..], rootIds, retired)
  }

  function Unretired(roots: seq<nat>, rootIds: map<nat, ProcId>, retired: set<ProcId>): map<nat, ProcId> {
    map h | h in rootIds && !(h in roots && rootIds[h] in retired) :: rootIds[h]
  }

  // Forget identities that are both dead and captured, and the roots that were them.
  function Prune(r: Registry): Registry {
    var retired := r.dead * r.snapshotted;
    Registry(Without(r.owned, retired), r.dead - retired, r.snapshotted - retired,
             Retained(r.roots, r.rootIds, retired),
             Unretired(r.roots, r.rootIds, retired))
  }

  // _capture_descendants
  function Capture(r: Registry, kin: Oracle<ProcId, KinLook>): (Registry, bool) {
    var (r1, failed) := CaptureEach(r, r.owned, kin);
    (Prune(r1), failed)
  }

  // -------------------------------------------------------------- termination

  // One pass of "if alive, signal" in the given order: who was signalled, who is now known dead.
  function SignalEach(r: Registry, ids: seq<ProcId>, look: Oracle<ProcId, SignalLook>): (Registry, seq<ProcId>, bool)
    decreases |ids|
  {
    if ids == [] then (r, [], false)
    else
      var id := ids[0];
      var answer := look.Of(id);
      if id in r.dead then SignalEach(r, ids[1..], look)
      else if answer.NotAlive? then SignalEach(r.(dead := r.dead + {id}), ids[1..], look)
      else if answer.LookFailed? then
        var (r1, sent, _) := SignalEach(r, ids[1..], look); (r1, sent, true)
      else
        var (r1, sent, failed) := SignalEach(r, ids[1..], look);
        (r1, [id] + sent, failed || answer.SignalFailed?)
  }

  function Reverse(ids: seq<ProcId>): (r: seq<ProcId>)
    ensures forall id :: id in r <==> id in ids
  {
    if ids == [] then [] else Reverse(ids[1..]) + [ids[0]]
  }

  function Among(ids: seq<ProcId>, keep: set<ProcId>): (r: seq<ProcId>)
    ensures forall id :: id in r <==> id in ids && id in keep
  {
    if ids == [] then [] else (if ids[0] in keep then [ids[0]] else []) + Among(ids[1..], keep)
  }

  // Roots whose identity was never captured are stopped through their own handle.
  function RootsFailed(roots: seq<nat>, rootIds: map<nat, ProcId>, look: Oracle<nat, RootLook>): bool {
    exists i | 0 <= i < |roots| :: roots[i] !in rootIds && look.Of(roots[i]).RootFailed?
  }

  function Elements(ids: seq<ProcId>): set<ProcId> {
    set id | id in ids
  }

  // The signals of one shutdown, in order.
  function Log(candidates: seq<ProcId>, survivors: seq<ProcId>): (log: seq<Signal>)
    ensures |log| == |candidates| + |survivors|
    ensures forall i | 0 <= i < |candidates| :: log[i] == Terminated(candidates[i])
    ensures forall i | 0 <= i < |survivors| :: log[|candidates| + i] == Killed(survivors[i])
    decreases |candidates|, |survivors|
  {
    if candidates != [] then [Terminated(candidates[0])] + Log(candidates[1..], survivors)
    else if survivors != [] then [Killed(survivors[0])] + Log([], survivors[1..])
    else []
  }

  // _terminate_owned: the registry, everyone signalled in order, and whether anything failed.
  function Terminate(r: Registry, a: Answers): (Registry, seq<Signal>, bool) {
    var (r0, captureFailed) := Capture(r, a.kin);
    var (r1, candidates, termFailed) := SignalEach(r0, Reverse(r0.owned), a.terminate);
    var alive := if a.afterTerminate.None? then candidates else Among(candidates, a.afterTerminate.value);
    var (r2, survivors, killFailed) := SignalEach(r1, alive, a.kill);
    var waitFailed := a.afterTerminate.None? || a.afterKill.None? || Among(survivors, a.afterKill.value) != [];
    (r2, Log(candidates, survivors), captureFailed || termFailed || killFailed || waitFailed || RootsFailed(r2.roots, r2.rootIds, a.root))
  }

  // ---------------------------------------------------------------- invariant

  ghost predicate Distinct<T(!new)>(xs: seq<T>) {
    forall i, j | 0 <= i < j < |xs| :: xs[i] != xs[j]
  }

  // `_dead`, `_snapshotted` and root identities refer to owned identities, kept once each.
  ghost predicate Sound(r: Registry) {
    && Distinct(r.owned)
    && (forall id | id in r.dead :: id in r.owned)
    && (forall id | id in r.snapshotted :: id in r.owned)
    && (forall h | h in r.rootIds :: h in r.roots && r.rootIds[h] in r.owned)
  }

  // Only processes that have exited are held to be dead.
  ghost predicate DeadExited(r: Registry, exited: set<ProcId>) {
    r.dead <= exited
  }

  ghost predicate HonestKin(kin: Oracle<ProcId, KinLook>, ids: seq<ProcId>, before: set<ProcId>, after: set<ProcId>) {
    forall id | id in ids ::
      && (kin.Of(id).Gone? ==> id in after)
      && (kin.Of(id).Kin? ==> id !in before)
  }

  ghost predicate HonestSignal(look: Oracle<ProcId, SignalLook>, exited: set<ProcId>) {
    forall id :: look.Of(id).NotAlive? ==> id in exited
  }

  // A completed wait that does not list a process as alive has seen it exit.
  ghost predicate HonestWait(alive: Option<set<ProcId>>, exited: set<ProcId>, waitedFor: seq<ProcId>) {
    alive.Some? ==> forall id | id in waitedFor && id !in alive.value :: id in exited
  }

  ghost predicate HonestAnswers(r: Registry, a: Answers, before: set<ProcId>, after: set<ProcId>, exitedRoots: set<nat>) {
    var r0 := Capture(r, a.kin).0;
    var (r1, candidates, _) := SignalEach(r0, Reverse(r0.owned), a.terminate);
    var alive := if a.afterTerminate.None? then candidates else Among(candidates, a.afterTerminate.value);
    var survivors := SignalEach(r1, alive, a.kill).1;
    && HonestKin(a.kin, r.owned, before, after)
    && HonestSignal(a.terminate, after) && HonestSignal(a.kill, after)
    && HonestWait(a.afterTerminate, after, candidates) && HonestWait(a.afterKill, after, survivors)
    && (forall h | !a.root.Of(h).RootFailed? :: h in exitedRoots)
  }

  ghost predicate Contained(r: Registry, exited: set<ProcId>, exitedRoots: set<nat>) {
    && (forall id | id in r.owned :: id in exited)
    && (forall h | h in r.roots && h !in r.rootIds :: h in exitedRoots)
  }

  predicate PassedCheck(look: SignalLook) {
    !look.NotAlive? && !look.LookFailed?
  }
}
