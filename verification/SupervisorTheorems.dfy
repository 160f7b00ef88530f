/** What a supervisor may promise about stopping, over every run of launches, signals and the watchdog. */
module SupervisorTheorems {
  import opened Outcomes
  import opened SupervisorRegistry
  import opened SupervisorStop
  import opened SupervisorSafety

  ghost predicate Quiet(m: Machine) {
    m.main.Idle? && m.watch.Idle?
  }

  lemma {:induction false} RunInv(events: seq<Event>)
    ensures var m := Run(Start, events); Inv(m.flags, m.world, m.main, m.watch)
  {
    hide Inv, Run;
    AtStart();
    RunKeeps(Start, events);
  }

  lemma AtStart()
    ensures Inv(Start.flags, Start.world, Start.main, Start.watch)
  {
    hide Control, Registered, Covered;
    ControlledAtStart();
    RegisteredAtStart();
    CoveredAtStart();
  }

  lemma ControlledAtStart()
    ensures Control(Start.flags, Start.main, Start.watch)
  {
  }

  lemma RegisteredAtStart()
    ensures Registered(Start.world, Start.main, Start.watch)
  {
    hide Linked;
    assert Linked(NoProcesses, Idle) by { LinkedUnlessLaunching(NoProcesses, Idle); }
  }

  lemma CoveredAtStart()
    ensures Covered(Start.flags.stopped, Safe(Start.world), Start.main, Start.watch)
  {
    hide Sound;
  }

  // Whichever line of a launch a stop interrupts: when every call has returned and the last sweep
  // reported no failure, no process ever observed is alive, and neither is a root that could not be
  // identified.
  lemma {:induction false} StopContains(events: seq<Event>)
    ensures var m := Run(Start, events);
            Quiet(m) && m.flags.stopped && !m.world.doubt ==>
              && Contained(m.world.registry, m.world.exited, m.world.exitedRoots)
              && (forall id | id in m.world.seen :: id in m.world.exited)
  {
    RunInv(events);
  }

  // At every moment of every run: an observed process that is no longer registered has exited, and
  // the bookkeeping refers to registered processes only.
  lemma {:induction false} ObservedUntilGone(events: seq<Event>)
    ensures var w := Run(Start, events).world;
            && Sound(w.registry)
            && (forall id | id in w.seen && id !in w.registry.owned :: id in w.exited)
            && (forall id | id in w.registry.dead :: id in w.exited)
  {
    RunInv(events);
  }

  // The notification runs exactly once per frame that passed its test, so at most once exactly when no
  // frame passed the test while another stood between the test and the flag. An emergency is always
  // notified, even one swallowed by a launch or by another shutdown.
  lemma {:induction false} NotifiedPerPass(events: seq<Event>)
    ensures var m := Run(Start, events);
            Quiet(m) ==>
              && m.flags.called == m.flags.passes
              && (m.flags.called <= 1 <==> m.flags.overlaps == 0)
              && (m.flags.emergency ==> m.flags.called >= 1)
  {
    RunInv(events);
  }

  // ------------------------------------------------- when no signal hits that gap

  predicate AtClaim(st: Stack) {
    st.Over? && st.top.Stop? && st.top.at.Claim?
  }

  // No signal arrives while the main thread stands between the notification test and the flag.
  ghost predicate Undisturbed(m: Machine, events: seq<Event>)
    decreases |events|
  {
    events == [] || (!(events[0].Interrupted? && AtClaim(m.main)) && Undisturbed(Run1(m, events[0]), events[1..]))
  }

  ghost predicate ClaimOnTop(st: Stack) {
    st.Over? ==> !Claiming(st.below)
  }

  ghost predicate Orderly(m: Machine) {
    m.flags.overlaps == 0 && ClaimOnTop(m.main) && ClaimOnTop(m.watch)
  }

  lemma {:induction false} LaunchKeepsOrder(stopped: bool, failed: bool, f: Frame, below: Stack, o: Outside)
    requires f.Launch? && !Claiming(below)
    ensures ClaimOnTop(LaunchNext(stopped, failed, f, below, o)) || below.Over?
    ensures below.Idle? ==> ClaimOnTop(LaunchNext(stopped, failed, f, below, o))
  {
    assert !Claiming(Over(f.(line := Unwind), below));
    match f.line {
      case Enter =>
      case Identify =>
      case Recheck =>
      case Leave =>
      case FailClosed =>
      case Unwind =>
      case _ =>
    }
  }

  lemma {:induction false} StopKeepsOrder(fl: Flags, failed: bool, f: Frame, below: Stack)
    requires f.Stop? && !Claiming(below)
    ensures ClaimOnTop(StopNext(fl, failed, f, below))
  {
    hide Passes;
    match f.at {
      case Test =>
      case Ask =>
      case Notify =>
      case _ =>
    }
  }

  lemma {:induction false} TopKeepsOrder(m: Machine, f: Frame, below: Stack, other: Stack, o: Outside)
    requires Latched(m.flags.launching, m.flags.stopping, Over(f, below), other) && !Waits(f, other)
    requires !Claiming(below) && m.flags.overlaps == 0
    ensures NextFlags(m.flags, f, below, other).overlaps == 0
    ensures ClaimOnTop(NextStack(m.flags, m.world, f, below, o))
  {
    hide Capture, Terminate, Launching, Sweeping, Passes, Claiming, StopFlags, StopNext, LaunchNext;
    ActiveHolds(other);
    if f.Launch? {
      LaunchKeepsOrder(m.flags.stopped, f.line.Survey? && Capture(m.world.registry, o.answers.kin).1, f, below, o);
    } else {
      Tally(m.flags, Claiming(below) || Claiming(other), f);
      StopKeepsOrder(m.flags, f.at.Sweep? && Terminate(m.world.registry, o.answers).2, f, below);
    }
  }

  lemma OrderKeeps(m: Machine, e: Event)
    requires Inv(m.flags, m.world, m.main, m.watch) && Orderly(m) && !(e.Interrupted? && AtClaim(m.main))
    ensures Orderly(Run1(m, e))
  {
    hide NextFlags, NextWorld, NextStack, Capture, Honest, Waits, HonestKin, Holds, Latched, Counted, Alarmed, Registered, Covered;
    match e {
      case MainRuns(o) =>
        if m.main.Over? && !Waits(m.main.top, m.watch) && Honest(m.world, m.main.top, o) {
          TopKeepsOrder(m, m.main.top, m.main.below, m.watch, o);
        }
      case WatchdogRuns(o) =>
        if m.watch.Over? && !Waits(m.watch.top, m.main) && Honest(m.world, m.watch.top, o) {
          Mirrored(m.flags, m.world, m.main, m.watch);
          TopKeepsOrder(m, m.watch.top, m.watch.below, m.main, o);
        }
      case _ =>
    }
  }

  lemma {:induction false} RunOrderly(m: Machine, events: seq<Event>)
    requires Inv(m.flags, m.world, m.main, m.watch) && Orderly(m) && Undisturbed(m, events)
    ensures Orderly(Run(m, events))
    decreases |events|
  {
    hide Inv, Run1, Orderly;
    if events != [] {
      EventKeeps(m, events[0]);
      OrderKeeps(m, events[0]);
      RunOrderly(Run1(m, events[0]), events[1..]);
    }
  }

  // Without a signal in that gap the notification runs at most once, and exactly once for an emergency.
  lemma {:induction false} NotifiedOnce(events: seq<Event>)
    requires Undisturbed(Start, events)
    ensures var m := Run(Start, events);
            && m.flags.called <= 1
            && (Quiet(m) && m.flags.emergency ==> m.flags.called == 1)
  {
    RunOrderly(Start, events);
    RunInv(events);
  }

  // ------------------------------------------------------- the gap is real

  // A system with no processes, where nothing fails and nothing exits.
  function CalmAnswers(): Answers {
    Answers(Oracle(map[], Gone), Oracle(map[], LookFailed), Some({}), Oracle(map[], LookFailed), Some({}), Oracle(map[], RootFailed))
  }

  const Calm := MainRuns(Outside(None, Vanished, CalmAnswers(), {}, {}))

  function CalmLines(n: nat): seq<Event> {
    if n == 0 then [] else [Calm] + CalmLines(n - 1)
  }

  lemma {:induction false} RunThen(m: Machine, first: seq<Event>, rest: seq<Event>)
    ensures Run(m, first + rest) == Run(Run(m, first), rest)
    decreases |first|
  {
    hide Run1;
    if first == [] {
      assert first + rest == rest;
    } else {
      assert first + rest == [first[0]] + (first[1..] + rest);
      RunThen(Run1(m, first[0]), first[1..], rest);
    }
  }

  lemma CalmSweep()
    ensures Terminate(NoProcesses, CalmAnswers()) == (NoProcesses, [], false)
    ensures HonestAnswers(NoProcesses, CalmAnswers(), {}, {} + {}, {} + {})
  {
    assert Prune(NoProcesses) == NoProcesses;
  }

  // One undisturbed line of the main thread's innermost shutdown.
  lemma {:induction false} CalmLine(fl: Flags, f: Frame, below: Stack)
    requires f.Stop?
    ensures Run1(Machine(fl, Start.world, Over(f, below), Idle), Calm)
         == Machine(StopFlags(fl, Claiming(below), f), Start.world, StopNext(fl, false, f, below), Idle)
  {
    CalmSweep();
    hide Terminate, HonestAnswers, StopFlags, StopNext, Claiming;
    assert !Holds(Idle) && !Claiming(Idle) by { ActiveHolds(Idle); }
    assert Observed(Start.world, NoProcesses) == Start.world;
    assert Elapse(Start.world, {}, {}) == Start.world;
  }

  // The lines of a shutdown up to the flag of the notification.
  lemma {:induction false} CalmStop(fl: Flags, emergency: bool, reasoned: bool, below: Stack)
    requires !fl.stopping && !fl.launching && !fl.notified && (reasoned || emergency || fl.emergency)
    ensures Run(Machine(fl, Start.world, Over(NewStop(emergency, reasoned), below), Idle), CalmLines(8))
         == Machine(fl.(stopped := true, emergency := fl.emergency || emergency, passes := fl.passes + 1,
                        overlaps := if Claiming(below) then fl.overlaps + 1 else fl.overlaps),
                    Start.world, Over(Stop(Claim, emergency, reasoned, false), below), Idle)
  {
    hide Run1, Claiming, Run, CalmLines;
    var f0 := NewStop(emergency, reasoned);
    var fl2 := fl.(stopped := true);
    var fl3 := fl2.(emergency := fl.emergency || emergency);
    var fl5 := fl3.(stopping := true);
    CalmLine(fl, f0, below);
    CalmLine(fl, f0.(at := Latch), below);
    CalmLine(fl2, f0.(at := Escalate), below);
    CalmLine(fl3, f0.(at := Test), below);
    CalmLine(fl3, f0.(at := Guard), below);
    CalmLine(fl5, f0.(at := Sweep), below);
    CalmLine(fl5, f0.(at := Unguard), below);
    CalmLine(fl3, f0.(at := Ask), below);
    var m := Machine(fl, Start.world, Over(f0, below), Idle);
    Lines(m, 7); Lines(Run1(m, Calm), 6);
    var m2 := Run1(Run1(m, Calm), Calm);
    Lines(m2, 5); Lines(Run1(m2, Calm), 4);
    var m4 := Run1(Run1(m2, Calm), Calm);
    Lines(m4, 3); Lines(Run1(m4, Calm), 2);
    var m6 := Run1(Run1(m4, Calm), Calm);
    Lines(m6, 1); Lines(Run1(m6, Calm), 0); Lines(Run1(Run1(m6, Calm), Calm), 0);
  }

  lemma Lines(m: Machine, n: nat)
    ensures Run(m, CalmLines(n + 1)) == Run(Run1(m, Calm), CalmLines(n))
    ensures Run(m, CalmLines(0)) == m
  {
    hide Run1;
    assert ([Calm] + CalmLines(n))[1..] == CalmLines(n);
  }

  // The three lines that set the flag, leave the lock and notify.
  lemma {:induction false} CalmNotify(fl: Flags, emergency: bool, reasoned: bool, below: Stack)
    ensures Run(Machine(fl, Start.world, Over(Stop(Claim, emergency, reasoned, false), below), Idle), CalmLines(3))
         == Machine(fl.(notified := true, called := fl.called + 1), Start.world, below, Idle)
  {
    hide Run1, Claiming, Run, CalmLines;
    var f := Stop(Claim, emergency, reasoned, false);
    var fl1 := fl.(notified := true);
    CalmLine(fl, f, below);
    CalmLine(fl1, f.(at := Release, notify := true), below);
    CalmLine(fl1, f.(at := Notify, notify := true), below);
    var m := Machine(fl, Start.world, Over(f, below), Idle);
    Lines(m, 2); Lines(Run1(m, Calm), 1); Lines(Run1(Run1(m, Calm), Calm), 0);
    Lines(Run1(Run1(Run1(m, Calm), Calm), Calm), 0);
  }

  // An ordinary signal that arrives between the test and the flag of an emergency stop on the main
  // thread sends the notification a second time.
  lemma NotifiedTwice()
    ensures exists events :: var m := Run(Start, events);
              Quiet(m) && m.flags.stopped && m.flags.called == 2 && m.flags.overlaps == 1
  {
    hide Run1;
    var first := [StopCalled(true, true)] + CalmLines(8);
    var second := [Interrupted(false, false)] + CalmLines(8);
    var third := CalmLines(3) + CalmLines(3);
    var events := first + (second + third);
    var fl := Start.flags.(stopped := true, emergency := true, passes := 1);
    var gap := Machine(fl, Start.world, Over(Stop(Claim, true, true, false), Idle), Idle);
    assert Run(Start, first) == gap by {
      RunThen(Start, [StopCalled(true, true)], CalmLines(8));
      Alone(Start, StopCalled(true, true));
      assert Run1(Start, StopCalled(true, true)) == Start.(main := Over(NewStop(true, true), Idle)) by { Called(); }
      CalmStop(Start.flags, true, true, Idle);
    }
    var fl2 := fl.(passes := 2, overlaps := 1);
    assert Run(gap, second) == gap.(flags := fl2, main := Over(Stop(Claim, false, false, false), gap.main)) by {
      RunThen(gap, [Interrupted(false, false)], CalmLines(8));
      Alone(gap, Interrupted(false, false));
      assert Run1(gap, Interrupted(false, false)) == gap.(main := Over(NewStop(false, false), gap.main)) by { Signals(gap); }
      CalmStop(fl, false, false, gap.main);
    }
    CalmNotify(fl2, false, false, gap.main);
    CalmNotify(fl2.(notified := true, called := 1), true, true, Idle);
    RunThen(Start, first, second + third);
    RunThen(gap, second, third);
    RunThen(Run(gap, second), CalmLines(3), CalmLines(3));
    assert Run(Start, events).flags == fl2.(notified := true, called := 2);
  }

  lemma {:induction false} Alone(m: Machine, e: Event)
    ensures Run(m, [e]) == Run1(m, e)
  {
    hide Run1;
  }

  lemma Called()
    ensures Run1(Start, StopCalled(true, true)) == Start.(main := Over(NewStop(true, true), Idle))
  {
  }

  lemma Signals(m: Machine)
    ensures Run1(m, Interrupted(false, false)) == m.(main := Over(NewStop(false, false), m.main))
  {
  }
}
