/**
 What every run of the stop latch keeps, whichever line a signal or the watchdog interrupts: a stop
 that finishes without failure leaves no observed process alive, and the notification is called as
 often as the notification test is passed.
 */
module SupervisorSafety {
  import opened Outcomes
  import opened SupervisorCapture
  import opened SupervisorRegistry
  import opened SupervisorStop

  // ------------------------------------------------------------ where a stack stands

  predicate Armed(line: LaunchLine) {
    line.Spawn? || line.Enlist? || line.Identify? || line.Link? || line.Survey? || line.Disarm? || line.Abort?
  }

  // A launch between setting and clearing `_launching`.
  predicate Launching(st: Stack) {
    match st
    case Idle => false
    case Over(f, below) => (f.Launch? && Armed(f.line)) || Launching(below)
  }

  // A shutdown between setting and clearing `_stopping`.
  predicate Sweeping(st: Stack) {
    match st
    case Idle => false
    case Over(f, below) => (f.Stop? && (f.at.Sweep? || f.at.Unguard?)) || Sweeping(below)
  }

  predicate Finishing(st: Stack) {
    match st
    case Idle => false
    case Over(f, below) => (f.Stop? && f.at.Unguard?) || Finishing(below)
  }

  // Launches are outermost calls, and a sweep never runs on top of a launch or another sweep.
  predicate Nested(st: Stack) {
    match st
    case Idle => true
    case Over(f, below) =>
      && (f.Launch? ==> below.Idle?)
      && (f.Stop? && (f.at.Guard? || f.at.Sweep? || f.at.Unguard?) ==> !Launching(below) && !Sweeping(below))
      && Nested(below)
  }

  // What a launch has already entered in the registry.
  predicate Linked(r: Registry, st: Stack) {
    match st
    case Idle => true
    case Over(f, below) =>
      && (f.Launch? && (f.line.Identify? || f.line.Link?) ==> f.handle in r.roots)
      && (f.Launch? && f.line.Link? && f.id.Some? ==> f.id.value in r.owned)
      && Linked(r, below)
  }

  // A frame that will still look at the stop latch, or sweep.
  predicate WillStop(f: Frame) {
    match f
    case Launch(line, _, _) => !line.Enter? && !line.Leave? && !line.Unwind?
    case Stop(at, _, _, _) => at.Begin? || at.Latch? || at.Escalate? || at.Test? || at.Guard? || at.Sweep?
  }

  predicate Responsible(st: Stack) {
    match st
    case Idle => false
    case Over(f, below) => WillStop(f) || Responsible(below)
  }

  // A frame that will still reach the notification test.
  predicate WillAsk(f: Frame) {
    WillStop(f) || (f.Stop? && (f.at.Unguard? || f.at.Ask?))
  }

  predicate Pending(st: Stack) {
    match st
    case Idle => false
    case Over(f, below) => WillAsk(f) || Pending(below)
  }

  // A shutdown that has set the stop latch and not yet recorded its urgency.
  predicate Escalating(st: Stack) {
    match st
    case Idle => false
    case Over(f, below) => (f.Stop? && f.at.Escalate?) || Escalating(below)
  }

  predicate Owes(f: Frame) {
    f.Stop? && (f.at.Claim? || (f.notify && (f.at.Release? || f.at.Notify?)))
  }

  // How many frames passed the notification test and have not yet called back.
  function Owed(st: Stack): nat {
    match st
    case Idle => 0
    case Over(f, below) => if Owes(f) then Owed(below) + 1 else Owed(below)
  }

  lemma {:induction false} ActiveHolds(st: Stack)
    ensures Launching(st) || Sweeping(st) || Claiming(st) ==> Holds(st)
    ensures Claiming(st) ==> Owed(st) >= 1
    ensures Finishing(st) ==> Sweeping(st)
    ensures Launching(st) || Sweeping(st) ==> Pending(st)
    ensures Launching(st) ==> Responsible(st)
    ensures Sweeping(st) ==> Responsible(st) || Finishing(st)
    ensures Responsible(st) ==> Pending(st)
  {
    if st.Over? { ActiveHolds(st.below); }
  }

  // A launch that calls the shutdown leaves a frame that only unwinds.
  lemma {:induction false} PushedStop(f: Frame, below: Stack)
    ensures f.Launch? && Nested(Over(f, below)) ==>
              var rest := Over(f.(line := Unwind), below);
              && Nested(rest) && !Launching(rest) && !Sweeping(rest) && !Claiming(rest) && !Finishing(rest)
              && !Escalating(rest) && Holds(rest) && Owed(rest) == 0
  {
  }

  lemma {:induction false} LinkedUnlessLaunching(r: Registry, st: Stack)
    requires !Launching(st)
    ensures Linked(r, st)
  {
    if st.Over? { LinkedUnlessLaunching(r, st.below); }
  }

  // ---------------------------------------------------------------- invariant

  ghost predicate Latched(launching: bool, stopping: bool, a: Stack, b: Stack) {
    && launching == (Launching(a) || Launching(b))
    && stopping == (Sweeping(a) || Sweeping(b))
    && Nested(a) && Nested(b)
    && !(Holds(a) && Holds(b))
  }

  ghost predicate Counted(passes: nat, overlaps: nat, called: nat, notified: bool, a: Stack, b: Stack) {
    && passes == called + Owed(a) + Owed(b)
    && (passes == 0 ==> overlaps == 0 && !notified)
    && (passes >= 1 ==> passes == 1 + overlaps)
    && (passes >= 1 && !notified ==> Claiming(a) || Claiming(b))
  }

  ghost predicate Alarmed(stopped: bool, emergency: bool, passes: nat, a: Stack, b: Stack) {
    && (emergency || Escalating(a) || Escalating(b) ==> stopped)
    && (emergency ==> passes >= 1 || Pending(a) || Pending(b))
  }

  // Flags and frames agree. Reads the same from either thread's side.
  ghost predicate Control(fl: Flags, a: Stack, b: Stack) {
    && Latched(fl.launching, fl.stopping, a, b)
    && Counted(fl.passes, fl.overlaps, fl.called, fl.notified, a, b)
    && Alarmed(fl.stopped, fl.emergency, fl.passes, a, b)
  }

  // The registry is sound, and nothing observed is lost while it lives.
  ghost predicate Kept(w: World) {
    && Sound(w.registry) && DeadExited(w.registry, w.exited)
    && (forall id | id in w.seen :: id in w.registry.owned || id in w.exited)
  }

  ghost predicate Registered(w: World, a: Stack, b: Stack) {
    && Kept(w)
    && Linked(w.registry, a) && Linked(w.registry, b)
  }

  ghost predicate IsContained(w: World) {
    Contained(w.registry, w.exited, w.exitedRoots)
  }

  // A stopped supervisor whose last sweep succeeded is contained, or somebody is about to sweep.
  ghost predicate Covered(stopped: bool, safe: bool, a: Stack, b: Stack) {
    && (stopped && !safe ==> Responsible(a) || Responsible(b))
    && (Finishing(a) || Finishing(b) ==> safe)
  }

  ghost predicate Safe(w: World) {
    w.doubt || IsContained(w)
  }

  ghost predicate Inv(fl: Flags, w: World, a: Stack, b: Stack) {
    && Control(fl, a, b)
    && Registered(w, a, b)
    && Covered(fl.stopped, Safe(w), a, b)
  }

  // ------------------------------------------------------ one line: flags and frames

  lemma LaunchLatched(fl: Flags, failed: bool, f: Frame, below: Stack, other: Stack, o: Outside)
    requires f.Launch? && Latched(fl.launching, fl.stopping, Over(f, below), other) && !Waits(f, other)
    ensures var fl1 := LaunchFlags(fl, f);
            Latched(fl1.launching, fl1.stopping, LaunchNext(fl.stopped, failed, f, below, o), other)
  {
    ActiveHolds(other);
    PushedStop(f, below);
    match f.line {
      case Enter =>
      case Spawn =>
      case Identify =>
      case Disarm =>
      case Recheck =>
      case Leave =>
      case Abort =>
      case FailClosed =>
      case _ =>
    }
  }

  lemma {:induction false} LaunchNotified(fl: Flags, failed: bool, f: Frame, below: Stack, other: Stack, o: Outside)
    requires f.Launch? && Nested(Over(f, below)) && Alarmed(fl.stopped, fl.emergency, fl.passes, Over(f, below), other)
    requires Counted(fl.passes, fl.overlaps, fl.called, fl.notified, Over(f, below), other)
    ensures var fl1, st := LaunchFlags(fl, f), LaunchNext(fl.stopped, failed, f, below, o);
            && Counted(fl1.passes, fl1.overlaps, fl1.called, fl1.notified, st, other)
            && Alarmed(fl1.stopped, fl1.emergency, fl1.passes, st, other)
  {
    PushedStop(f, below);
    hide Launching, Sweeping, Finishing, Holds, Nested;
    match f.line {
      case Enter =>
      case Spawn =>
      case Identify =>
      case Recheck =>
      case FailClosed =>
      case _ =>
    }
  }

  // Where a stack stands after one line of a shutdown.
  lemma {:induction false} StopStands(fl: Flags, failed: bool, f: Frame, below: Stack)
    requires f.Stop? && Nested(Over(f, below))
    requires f.at.Test? && !fl.stopping && !fl.launching ==> !Launching(below) && !Sweeping(below)
    ensures var st := StopNext(fl, failed, f, below);
            && Nested(st) && Launching(st) == Launching(below)
            && Sweeping(st) == (f.at.Guard? || f.at.Sweep? || Sweeping(below))
            && (Holds(st) ==> f.at.Begin? || Holds(Over(f, below)))
  {
    hide Passes;
    match f.at {
      case Begin =>
      case Latch =>
      case Escalate =>
      case Test =>
      case Guard =>
      case Sweep =>
      case Unguard =>
      case Ask =>
      case Claim =>
      case Release =>
      case Notify =>
    }
  }

  lemma LatchFlags(fl: Flags, claimed: bool, f: Frame)
    requires f.Stop?
    ensures StopFlags(fl, claimed, f).launching == fl.launching
    ensures StopFlags(fl, claimed, f).stopping == (f.at.Guard? || (fl.stopping && !f.at.Unguard?))
  {
    hide Passes;
    match f.at {
      case Guard =>
      case Unguard =>
      case _ =>
    }
  }

  lemma StopLatched(fl: Flags, claimed: bool, failed: bool, f: Frame, below: Stack, other: Stack)
    requires f.Stop? && Latched(fl.launching, fl.stopping, Over(f, below), other) && !Waits(f, other)
    ensures var fl1 := StopFlags(fl, claimed, f);
            Latched(fl1.launching, fl1.stopping, StopNext(fl, failed, f, below), other)
  {
    hide StopFlags, StopNext;
    ActiveHolds(other);
    StopStands(fl, failed, f, below);
    LatchFlags(fl, claimed, f);
  }

  // Passing the test adds one owed callback, calling back removes it.
  lemma {:induction false} OwedNext(fl: Flags, failed: bool, f: Frame, below: Stack)
    requires f.Stop?
    ensures var st := StopNext(fl, failed, f, below);
            && Owed(st) == (if f.at.Ask? && Passes(fl, f) then Owed(below) + 1
                            else if f.at.Notify? && f.notify then Owed(Over(f, below)) - 1
                            else Owed(Over(f, below)))
            && Claiming(st) == ((f.at.Ask? && Passes(fl, f)) || Claiming(below))
    ensures Claiming(Over(f, below)) == (f.at.Claim? || Claiming(below))
    ensures f.at.Ask? ==> Owed(Over(f, below)) == Owed(below)
    ensures f.at.Claim? ==> Owed(Over(f, below)) >= 1
  {
    hide Passes;
    match f.at {
      case Test =>
      case Sweep =>
      case Ask =>
      case Claim =>
      case Release =>
      case Notify =>
      case _ =>
    }
  }

  // What each line does to the counts.
  lemma Tally(fl: Flags, claimed: bool, f: Frame)
    requires f.Stop?
    ensures var fl1 := StopFlags(fl, claimed, f);
            && fl1.passes == (if f.at.Ask? && Passes(fl, f) then fl.passes + 1 else fl.passes)
            && fl1.overlaps == (if f.at.Ask? && Passes(fl, f) && claimed then fl.overlaps + 1 else fl.overlaps)
            && fl1.called == (if f.at.Notify? && f.notify then fl.called + 1 else fl.called)
            && fl1.notified == (fl.notified || f.at.Claim?)
  {
    hide Passes;
    match f.at {
      case Ask =>
      case Claim =>
      case Notify =>
      case _ =>
    }
  }

  lemma {:induction false} StopCounted(fl: Flags, failed: bool, f: Frame, below: Stack, other: Stack)
    requires f.Stop? && Counted(fl.passes, fl.overlaps, fl.called, fl.notified, Over(f, below), other)
    ensures var fl1 := StopFlags(fl, Claiming(below) || Claiming(other), f);
            Counted(fl1.passes, fl1.overlaps, fl1.called, fl1.notified, StopNext(fl, failed, f, below), other)
  {
    hide Owed, Claiming, StopNext, StopFlags;
    OwedNext(fl, failed, f, below);
    Tally(fl, Claiming(below) || Claiming(other), f);
    if f.at.Ask? {
      ActiveHolds(below);
      ActiveHolds(other);
      if Passes(fl, f) {} else {}
    }
  }

  lemma StopAlarmed(fl: Flags, claimed: bool, failed: bool, f: Frame, below: Stack, other: Stack)
    requires f.Stop? && Latched(fl.launching, fl.stopping, Over(f, below), other)
    requires (fl.notified ==> fl.passes >= 1) && Alarmed(fl.stopped, fl.emergency, fl.passes, Over(f, below), other)
    ensures var fl1 := StopFlags(fl, claimed, f);
            Alarmed(fl1.stopped, fl1.emergency, fl1.passes, StopNext(fl, failed, f, below), other)
  {
    ActiveHolds(below);
    ActiveHolds(other);
    match f.at {
      case Latch =>
      case Escalate =>
      case Test =>
      case Ask =>
      case _ =>
    }
  }

  // --------------------------------------------------------- one line: registry

  lemma RegistryEntries(r: Registry, h: nat, id: ProcId)
    requires Sound(r)
    ensures Sound(r.(roots := r.roots + [h])) && h in r.roots + [h]
    ensures Sound(Remember(r, id)) && id in Remember(r, id).owned
    ensures forall other | other in r.owned :: other in Remember(r, id).owned
    ensures h in r.roots && id in r.owned ==> Sound(r.(rootIds := r.rootIds[h := id]))
  {
  }

  // A capture or a sweep finds no launch of another frame half entered.
  lemma {:induction false} Replaced(w: World, r: Registry, after: set<ProcId>, a: Stack, b: Stack)
    requires Registered(w, a, b) && w.exited <= after && Sound(r) && DeadExited(r, after)
    requires forall id | id in w.registry.owned :: id in r.owned || id in after
    requires !Launching(a) && !Launching(b)
    ensures Registered(Observed(w, r).(exited := after), a, b)
  {
    LinkedUnlessLaunching(r, a);
    LinkedUnlessLaunching(r, b);
  }

  lemma LaunchKept(w: World, f: Frame, o: Outside)
    requires f.Launch? && Honest(w, f, o) && Kept(w)
    requires f.line.Link? && f.id.Some? ==> f.handle in w.registry.roots && f.id.value in w.registry.owned
    ensures Kept(Elapse(LaunchWorld(w, f, o), o.exits, o.rootExits))
  {
    hide Capture, Sound;
    match f.line {
      case Survey => CaptureForgetsOnlyTheCaptured(w.registry, o.answers.kin, w.exited, w.exited + o.exits);
      case Enlist => RegistryEntries(w.registry, f.handle, ProcId(0, 0));
      case Identify => if o.child.Seen? { RegistryEntries(w.registry, f.handle, o.child.id); }
      case Link => if f.id.Some? { RegistryEntries(w.registry, f.handle, f.id.value); }
      case _ =>
    }
  }

  lemma {:induction false} LaunchLinked(w: World, stopped: bool, failed: bool, f: Frame, o: Outside)
    requires f.Launch? && Linked(w.registry, Over(f, Idle))
    ensures Linked(LaunchWorld(w, f, o).registry, LaunchNext(stopped, failed, f, Idle, o))
  {
    hide Capture, RememberAll;
    match f.line {
      case Enlist =>
      case Identify =>
      case Link =>
      case _ => assert Linked(w.registry, Over(f.(line := Unwind), Idle));
    }
  }

  lemma {:induction false} LaunchRegistered(w: World, stopped: bool, failed: bool, f: Frame, below: Stack, other: Stack, o: Outside)
    requires f.Launch? && Nested(Over(f, below)) && !Waits(f, other) && Honest(w, f, o) && Registered(w, Over(f, below), other)
    ensures Registered(Elapse(LaunchWorld(w, f, o), o.exits, o.rootExits), LaunchNext(stopped, failed, f, below, o), other)
  {
    hide Sound, Holds, LaunchNext, LaunchWorld;
    ActiveHolds(other);
    LinkedUnlessLaunching(LaunchWorld(w, f, o).registry, other);
    LaunchKept(w, f, o);
    LaunchLinked(w, stopped, failed, f, o);
  }

  lemma {:induction false} SweepRegistered(w: World, o: Outside, below: Stack, other: Stack)
    requires HonestAnswers(w.registry, o.answers, w.exited, w.exited + o.exits, w.exitedRoots + o.rootExits)
    requires Registered(w, below, other) && !Launching(below) && !Launching(other)
    ensures var r := Terminate(w.registry, o.answers).0;
            Registered(Observed(w, r).(exited := w.exited + o.exits), below, other)
  {
    QuietShutdownContains(w.registry, o.answers, w.exited, w.exited + o.exits, w.exitedRoots + o.rootExits);
    hide Terminate, HonestAnswers, Contained;
    Replaced(w, Terminate(w.registry, o.answers).0, w.exited + o.exits, below, other);
  }

  lemma {:induction false} StopLinked(r: Registry, fl: Flags, failed: bool, f: Frame, below: Stack)
    requires f.Stop? && Linked(r, below)
    ensures Linked(r, StopNext(fl, failed, f, below))
  {
    hide Passes;
    match f.at {
      case Test =>
      case Ask =>
      case Notify =>
      case _ =>
    }
  }

  lemma {:induction false} StopRegistered(w: World, fl: Flags, failed: bool, f: Frame, below: Stack, other: Stack, o: Outside)
    requires f.Stop? && Nested(Over(f, below)) && !Waits(f, other) && Honest(w, f, o) && Registered(w, Over(f, below), other)
    ensures Registered(Elapse(StopWorld(w, f, o), o.exits, o.rootExits), StopNext(fl, failed, f, below), other)
  {
    hide Terminate, Sound, HonestAnswers, StopNext;
    ActiveHolds(other);
    StopLinked(w.registry, fl, failed, f, below);
    if f.at.Sweep? {
      SweepRegistered(w, o, below, other);
      StopLinked(StopWorld(w, f, o).registry, fl, failed, f, below);
    }
  }

  // ------------------------------------------------------ one line: containment

  lemma LaunchCovered(fl: Flags, failed: bool, f: Frame, below: Stack, other: Stack, o: Outside, safe: bool, safe1: bool)
    requires f.Launch? && Latched(fl.launching, fl.stopping, Over(f, below), other) && !Waits(f, other)
    requires Covered(fl.stopped, safe, Over(f, below), other)
    requires safe && !safe1 ==> f.line.Enlist? || f.line.Identify? || f.line.Survey?
    ensures Covered(LaunchFlags(fl, f).stopped, safe1, LaunchNext(fl.stopped, failed, f, below, o), other)
  {
    ActiveHolds(other);
    PushedStop(f, below);
    match f.line {
      case Enter =>
      case Spawn =>
      case Identify =>
      case Recheck =>
      case FailClosed =>
      case _ =>
    }
  }

  lemma StopCovered(fl: Flags, claimed: bool, failed: bool, f: Frame, below: Stack, other: Stack, safe: bool, safe1: bool)
    requires f.Stop? && Latched(fl.launching, fl.stopping, Over(f, below), other)
    requires Covered(fl.stopped, safe, Over(f, below), other)
    requires (safe || f.at.Sweep?) ==> safe1
    ensures Covered(StopFlags(fl, claimed, f).stopped, safe1, StopNext(fl, failed, f, below), other)
  {
    ActiveHolds(below);
    ActiveHolds(other);
    hide Passes, Holds, Nested;
    match f.at {
      case Latch =>
      case Test =>
      case Sweep =>
      case Unguard =>
      case Ask =>
      case Notify =>
      case _ =>
    }
  }

  // ----------------------------------------------------------------- one event

  lemma StepKeeps(m: Machine, f: Frame, below: Stack, other: Stack, o: Outside)
    requires Inv(m.flags, m.world, Over(f, below), other) && !Waits(f, other) && Honest(m.world, f, o)
    ensures Inv(NextFlags(m.flags, f, below, other), Elapse(NextWorld(m.world, f, o), o.exits, o.rootExits),
                NextStack(m.flags, m.world, f, below, o), other)
  {
    var fl, w := m.flags, m.world;
    var w1 := Elapse(NextWorld(w, f, o), o.exits, o.rootExits);
    hide Latched, Counted, Covered, Registered, Contained, LaunchNext, StopNext, StopFlags, LaunchFlags, Holds, Capture, Terminate;
    LatchedFacts(fl, Over(f, below), other);
    if f.Launch? {
      var failed := f.line.Survey? && Capture(w.registry, o.answers.kin).1;
      LaunchLatched(fl, failed, f, below, other, o);
      LaunchNotified(fl, failed, f, below, other, o);
      LaunchRegistered(w, fl.stopped, failed, f, below, other, o);
      if Safe(w) { LaunchStaysSafe(w, f, o); }
      LaunchCovered(fl, failed, f, below, other, o, Safe(w), Safe(w1));
    } else {
      var failed, claimed := f.at.Sweep? && Terminate(w.registry, o.answers).2, Claiming(below) || Claiming(other);
      StopLatched(fl, claimed, failed, f, below, other);
      StopCounted(fl, failed, f, below, other);
      CountedFacts(fl, Over(f, below), other);
      StopAlarmed(fl, claimed, failed, f, below, other);
      StopRegistered(w, fl, failed, f, below, other, o);
      if Safe(w) || f.at.Sweep? { StopStaysSafe(w, f, o, Over(f, below), other); }
      StopCovered(fl, claimed, failed, f, below, other, Safe(w), Safe(w1));
    }
  }

  lemma {:induction false} LatchedFacts(fl: Flags, a: Stack, b: Stack)
    requires Latched(fl.launching, fl.stopping, a, b)
    ensures Nested(a) && Nested(b)
  {
  }

  lemma CountedFacts(fl: Flags, a: Stack, b: Stack)
    requires Counted(fl.passes, fl.overlaps, fl.called, fl.notified, a, b)
    ensures fl.notified ==> fl.passes >= 1
  {
  }

  // Only a launch that enters or surveys its child can break containment.
  lemma LaunchStaysSafe(w: World, f: Frame, o: Outside)
    requires f.Launch? && Safe(w)
    ensures Safe(Elapse(LaunchWorld(w, f, o), o.exits, o.rootExits)) || f.line.Enlist? || f.line.Identify? || f.line.Survey?
  {
    hide Capture;
  }

  lemma StopStaysSafe(w: World, f: Frame, o: Outside, a: Stack, b: Stack)
    requires f.Stop? && Honest(w, f, o) && Registered(w, a, b) && (Safe(w) || f.at.Sweep?)
    ensures Safe(Elapse(StopWorld(w, f, o), o.exits, o.rootExits))
  {
    hide Terminate, HonestAnswers, Sound;
    if f.at.Sweep? {
      QuietShutdownContains(w.registry, o.answers, w.exited, w.exited + o.exits, w.exitedRoots + o.rootExits);
    }
  }

  lemma Mirrored(fl: Flags, w: World, a: Stack, b: Stack)
    requires Inv(fl, w, a, b)
    ensures Inv(fl, w, b, a)
  {
  }

  // A call about to start changes nothing about the stack it stands on.
  lemma {:induction false} NewCall(r: Registry, f: Frame, st: Stack)
    requires (f.Launch? && f.line.Enter? && st.Idle?) || (f.Stop? && f.at.Begin? && !f.notify)
    ensures var top := Over(f, st);
            && Launching(top) == Launching(st) && Sweeping(top) == Sweeping(st) && Finishing(top) == Finishing(st)
            && Claiming(top) == Claiming(st) && Escalating(top) == Escalating(st) && Holds(top) == Holds(st)
            && Owed(top) == Owed(st) && Nested(top) == Nested(st) && Linked(r, top) == Linked(r, st)
            && (Responsible(st) ==> Responsible(top)) && (Pending(st) ==> Pending(top))
  {
  }

  // A new call on top of a stack.
  lemma Pushed(fl: Flags, w: World, a: Stack, b: Stack, emergency: bool, reasoned: bool)
    requires Inv(fl, w, a, b)
    ensures Inv(fl, w, Over(NewStop(emergency, reasoned), a), b)
  {
    hide Kept, Safe, Launching, Sweeping, Finishing, Claiming, Escalating, Holds, Owed, Nested, Linked, Responsible, Pending;
    NewCall(w.registry, NewStop(emergency, reasoned), a);
  }

  lemma LaunchPushed(fl: Flags, w: World, b: Stack)
    requires Inv(fl, w, Idle, b)
    ensures Inv(fl, w, Over(Launch(Enter, 0, None), Idle), b)
  {
    hide Kept, Safe, Launching, Sweeping, Finishing, Claiming, Escalating, Holds, Owed, Nested, Linked, Responsible, Pending;
    NewCall(w.registry, Launch(Enter, 0, None), Idle);
  }

  lemma {:induction false} Looked(fl: Flags, w: World, main: Stack, kin: Oracle<ProcId, KinLook>, exits: set<ProcId>)
    requires Inv(fl, w, main, Idle) && !Holds(main) && HonestKin(kin, w.registry.owned, w.exited, w.exited + exits)
    ensures Inv(fl, Elapse(Observed(w, Capture(w.registry, kin).0), exits, {}), main, Idle)
  {
    hide Capture, Sound;
    ActiveHolds(main);
    var r := Capture(w.registry, kin).0;
    CaptureForgetsOnlyTheCaptured(w.registry, kin, w.exited, w.exited + exits);
    Replaced(w, r, w.exited + exits, main, Idle);
    if IsContained(w) { CaptureStaysContained(w.registry, kin, w.exited, w.exited + exits, w.exitedRoots); }
  }

  lemma Elapsed(fl: Flags, w: World, a: Stack, b: Stack, exits: set<ProcId>, rootExits: set<nat>)
    requires Inv(fl, w, a, b)
    ensures Inv(fl, Elapse(w, exits, rootExits), a, b)
  {
    hide Sound;
  }

  lemma EventKeeps(m: Machine, e: Event)
    requires Inv(m.flags, m.world, m.main, m.watch)
    ensures var m1 := Run1(m, e); Inv(m1.flags, m1.world, m1.main, m1.watch)
  {
    hide Inv, NextFlags, NextWorld, NextStack, Capture, Honest, Waits, HonestKin, Holds;
    Mirrored(m.flags, m.world, m.main, m.watch);
    match e {
      case LaunchCalled => if m.main.Idle? { LaunchPushed(m.flags, m.world, m.watch); }
      case StopCalled(emergency, reasoned) => Pushed(m.flags, m.world, m.main, m.watch, emergency, reasoned);
      case Interrupted(emergency, reasoned) => Pushed(m.flags, m.world, m.main, m.watch, emergency, reasoned);
      case WatchdogStops(emergency, reasoned) =>
        Pushed(m.flags, m.world, m.watch, m.main, emergency, reasoned);
        if m.watch.Idle? { Mirrored(m.flags, m.world, Over(NewStop(emergency, reasoned), m.watch), m.main); }
      case WatchdogLooks(kin, exits) =>
        if m.watch.Idle? && !Holds(m.main) && HonestKin(kin, m.world.registry.owned, m.world.exited, m.world.exited + exits) {
          Looked(m.flags, m.world, m.main, kin, exits);
          var w := Elapse(Observed(m.world, Capture(m.world.registry, kin).0), exits, {});
          Mirrored(m.flags, w, m.main, Idle);
          Pushed(m.flags, w, Idle, m.main, false, true);
          Mirrored(m.flags, w, Over(NewStop(false, true), Idle), m.main);
        }
      case MainRuns(o) =>
        if m.main.Over? && !Waits(m.main.top, m.watch) && Honest(m.world, m.main.top, o) {
          StepKeeps(m, m.main.top, m.main.below, m.watch, o);
        }
      case WatchdogRuns(o) =>
        if m.watch.Over? && !Waits(m.watch.top, m.main) && Honest(m.world, m.watch.top, o) {
          StepKeeps(m, m.watch.top, m.watch.below, m.main, o);
          var m1 := Run1(m, e);
          Mirrored(m1.flags, m1.world, m1.watch, m1.main);
        }
      case ProcessesExit(ids, handles) => Elapsed(m.flags, m.world, m.main, m.watch, ids, handles);
    }
  }

  lemma {:induction false} RunKeeps(m: Machine, events: seq<Event>)
    requires Inv(m.flags, m.world, m.main, m.watch)
    ensures var m1 := Run(m, events); Inv(m1.flags, m1.world, m1.main, m1.watch)
    decreases |events|
  {
    hide Inv, Run1;
    if events != [] {
      EventKeeps(m, events[0]);
      RunKeeps(Run1(m, events[0]), events[1..]);
    }
  }
}
