/**
 The stop latch of `supervisor_safety.py`, line by line. The main thread runs `launch` and
 `_shutdown`; a signal may push another `_shutdown` between any two of its lines; the watchdog
 thread runs its own capture passes and shutdowns. The lock is re-entrant: a thread enters it when
 the other thread is outside.
 */
module SupervisorStop {
  import opened Outcomes
  import opened SupervisorRegistry

  // The next line of `launch`.
  datatype LaunchLine =
    | Enter      // take the lock, refuse when stopped
    | Arm        // _launching = True
    | Spawn      // Popen
    | Enlist     // _roots.append
    | Identify   // _remember
    | Link       // _root_identities
    | Survey     // _capture_descendants
    | Disarm     // _launching = False
    | Recheck    // stopped during the launch?
    | Leave      // release the lock
    | Abort      // _launching = False in the except branch
    | FailClosed // _fail_closed
    | Unwind     // raise, release the lock

  // The next line of `_shutdown`.
  datatype StopLine =
    | Begin      // take the lock
    | Latch      // stopped.set()
    | Escalate   // emergency
    | Test       // _stopping or _launching: return
    | Guard      // _stopping = True
    | Sweep      // _terminate_owned, and _record_failure when it fails
    | Unguard    // _stopping = False
    | Ask        // not _notified and (reason or emergency)?
    | Claim      // _notified = True
    | Release    // release the lock
    | Notify     // _on_stop

  datatype Frame =
    | Launch(line: LaunchLine, handle: nat, id: Option<ProcId>)
    | Stop(at: StopLine, emergency: bool, reasoned: bool, notify: bool)

  // A call stack, innermost call on top.
  datatype Stack = Idle | Over(top: Frame, below: Stack)

  // `passes` counts the frames that passed the notification test, `overlaps` those that passed it
  // while another had passed it and not yet set `_notified`; `called` counts notification callbacks.
  datatype Flags = Flags(
    stopped: bool, emergency: bool, launching: bool, stopping: bool, notified: bool,
    passes: nat, overlaps: nat, called: nat)

  // The registry beside what really happened. `seen` is every identity ever observed; `doubt`: the
  // last sweep failed.
  datatype World = World(registry: Registry, doubt: bool, seen: set<ProcId>, exited: set<ProcId>, exitedRoots: set<nat>)

  datatype Machine = Machine(flags: Flags, world: World, main: Stack, watch: Stack)

  const Start := Machine(
    Flags(false, false, false, false, false, 0, 0, 0), World(NoProcesses, false, {}, {}, {}), Idle, Idle)

  // What the operating system does during one line.
  datatype Outside = Outside(
    handle: Option<nat>, child: ChildLook, answers: Answers, exits: set<ProcId>, rootExits: set<nat>)

  datatype Event =
    | LaunchCalled
    | StopCalled(emergency: bool, reasoned: bool)        // by the main thread
    | Interrupted(emergency: bool, reasoned: bool)       // a signal, on top of whatever main runs
    | WatchdogStops(emergency: bool, reasoned: bool)
    | WatchdogLooks(kin: Oracle<ProcId, KinLook>, exits: set<ProcId>)
    | MainRuns(outside: Outside)
    | WatchdogRuns(outside: Outside)
    | ProcessesExit(ids: set<ProcId>, handles: set<nat>)

  // ------------------------------------------------------------------- stacks

  predicate Locked(f: Frame) {
    match f
    case Launch(line, _, _) => !line.Enter?
    case Stop(at, _, _, _) => !at.Begin? && !at.Notify?
  }

  predicate Holds(st: Stack) {
    match st
    case Idle => false
    case Over(f, below) => Locked(f) || Holds(below)
  }

  // Every line but the notification itself runs inside the lock or takes it.
  predicate Waits(f: Frame, other: Stack) {
    Holds(other) && !(f.Stop? && f.at.Notify?)
  }

  function NewStop(emergency: bool, reasoned: bool): Frame {
    Stop(Begin, emergency, reasoned, false)
  }

  // Does a frame stand between the notification test and the flag it sets?
  predicate Claiming(st: Stack) {
    match st
    case Idle => false
    case Over(f, below) => (f.Stop? && f.at.Claim?) || Claiming(below)
  }

  // ------------------------------------------------------ one line of a frame

  // Each line acts on the flags and on the registry, and says what its thread runs next.

  function LaunchFlags(fl: Flags, f: Frame): Flags
    requires f.Launch?
  {
    match f.line
    case Arm => fl.(launching := true)
    case Disarm => fl.(launching := false)
    case Abort => fl.(launching := false)
    case _ => fl
  }

  function Observed(w: World, r: Registry): World {
    w.(registry := r, seen := w.seen + Elements(r.owned))
  }

  function LaunchWorld(w: World, f: Frame, o: Outside): World
    requires f.Launch?
  {
    match f.line
    case Enlist => w.(registry := w.registry.(roots := w.registry.roots + [f.handle]))
    case Identify => if o.child.Seen? then Observed(w, Remember(w.registry, o.child.id)) else w
    case Link =>
      if f.id.None? then w
      else w.(registry := w.registry.(rootIds := w.registry.rootIds[f.handle := f.id.value]))
    case Survey => Observed(w, Capture(w.registry, o.answers.kin).0)
    case _ => w
  }

  // `failed`: the capture pass of this line failed.
  function LaunchNext(stopped: bool, failed: bool, f: Frame, below: Stack, o: Outside): Stack
    requires f.Launch?
  {
    match f.line
    case Enter => if stopped then below else Over(f.(line := Arm), below)
    case Arm => Over(f.(line := Spawn), below)
    case Spawn => if o.handle.None? then Over(f.(line := Abort), below) else Over(f.(line := Enlist, handle := o.handle.value), below)
    case Enlist => Over(f.(line := Identify), below)
    case Identify =>
      (match o.child
       case Seen(id) => Over(f.(line := Link, id := Some(id)), below)
       case Vanished => Over(f.(line := Survey), below)
       case Unreadable => Over(f.(line := Abort), below))
    case Link => Over(f.(line := Survey), below)
    case Survey => Over(f.(line := if failed then Abort else Disarm), below)
    case Disarm => Over(f.(line := Recheck), below)
    case Recheck => if stopped then Over(NewStop(false, false), Over(f.(line := Unwind), below)) else Over(f.(line := Leave), below)
    case Leave => below
    case Abort => Over(f.(line := FailClosed), below)
    case FailClosed => Over(NewStop(false, true), Over(f.(line := Unwind), below))
    case Unwind => below
  }

  predicate Passes(fl: Flags, f: Frame)
    requires f.Stop?
  {
    !fl.notified && (f.reasoned || fl.emergency)
  }

  // `claimed`: another frame has passed the notification test and not yet set `_notified`.
  function StopFlags(fl: Flags, claimed: bool, f: Frame): Flags
    requires f.Stop?
  {
    match f.at
    case Latch => fl.(stopped := true)
    case Escalate => fl.(emergency := fl.emergency || f.emergency)
    case Guard => fl.(stopping := true)
    case Unguard => fl.(stopping := false)
    case Ask =>
      if !Passes(fl, f) then fl
      else if claimed then fl.(passes := fl.passes + 1, overlaps := fl.overlaps + 1)
      else fl.(passes := fl.passes + 1)
    case Claim => fl.(notified := true)
    case Notify => if f.notify then fl.(called := fl.called + 1) else fl
    case _ => fl
  }

  function StopWorld(w: World, f: Frame, o: Outside): World
    requires f.Stop?
  {
    if f.at.Sweep? then
      var (r, _, failed) := Terminate(w.registry, o.answers);
      Observed(w, r).(doubt := failed)
    else w
  }

  // `failed`: the sweep of this line failed.
  function StopNext(fl: Flags, failed: bool, f: Frame, below: Stack): Stack
    requires f.Stop?
  {
    match f.at
    case Begin => Over(f.(at := Latch), below)
    case Latch => Over(f.(at := Escalate), below)
    case Escalate => Over(f.(at := Test), below)
    case Test => if fl.stopping || fl.launching then below else Over(f.(at := Guard), below)
    case Guard => Over(f.(at := Sweep), below)
    case Sweep => Over(f.(at := Unguard, reasoned := f.reasoned || failed), below)
    case Unguard => Over(f.(at := Ask), below)
    case Ask => Over(f.(at := if Passes(fl, f) then Claim else Release, notify := false), below)
    case Claim => Over(f.(at := Release, notify := true), below)
    case Release => Over(f.(at := Notify), below)
    case Notify => below
  }

  function NextFlags(fl: Flags, f: Frame, below: Stack, other: Stack): Flags {
    if f.Launch? then LaunchFlags(fl, f) else StopFlags(fl, Claiming(below) || Claiming(other), f)
  }

  function NextWorld(w: World, f: Frame, o: Outside): World {
    if f.Launch? then LaunchWorld(w, f, o) else StopWorld(w, f, o)
  }

  function NextStack(fl: Flags, w: World, f: Frame, below: Stack, o: Outside): Stack {
    match f
    case Launch(line, _, _) => LaunchNext(fl.stopped, line.Survey? && Capture(w.registry, o.answers.kin).1, f, below, o)
    case Stop(at, _, _, _) => StopNext(fl, at.Sweep? && Terminate(w.registry, o.answers).2, f, below)
  }

  function Elapse(w: World, exits: set<ProcId>, rootExits: set<nat>): World {
    w.(exited := w.exited + exits, exitedRoots := w.exitedRoots + rootExits)
  }

  // Processes end while a line runs, and its answers about them are honest.
  ghost predicate Honest(w: World, f: Frame, o: Outside) {
    match f
    case Launch(line, _, _) =>
      && (line.Spawn? && o.handle.Some? ==> o.handle.value !in w.registry.roots && o.handle.value !in w.registry.rootIds)
      && (line.Survey? ==> HonestKin(o.answers.kin, w.registry.owned, w.exited, w.exited + o.exits))
    case Stop(at, _, _, _) =>
      at.Sweep? ==> HonestAnswers(w.registry, o.answers, w.exited, w.exited + o.exits, w.exitedRoots + o.rootExits)
  }

  // ------------------------------------------------------------------- events

  ghost function Run1(m: Machine, e: Event): Machine {
    match e
    case LaunchCalled => if m.main.Idle? then m.(main := Over(Launch(Enter, 0, None), Idle)) else m
    case StopCalled(emergency, reasoned) => if m.main.Idle? then m.(main := Over(NewStop(emergency, reasoned), Idle)) else m
    case Interrupted(emergency, reasoned) => m.(main := Over(NewStop(emergency, reasoned), m.main))
    case WatchdogStops(emergency, reasoned) => if m.watch.Idle? then m.(watch := Over(NewStop(emergency, reasoned), Idle)) else m
    case WatchdogLooks(kin, exits) =>
      if m.watch.Idle? && !Holds(m.main) && HonestKin(kin, m.world.registry.owned, m.world.exited, m.world.exited + exits) then
        var (r, failed) := Capture(m.world.registry, kin);
        m.(world := Elapse(Observed(m.world, r), exits, {}), watch := if failed then Over(NewStop(false, true), Idle) else Idle)
      else m
    case MainRuns(o) =>
      (match m.main
       case Idle => m
       case Over(f, below) =>
         if Waits(f, m.watch) || !Honest(m.world, f, o) then m
         else
           Machine(NextFlags(m.flags, f, below, m.watch), Elapse(NextWorld(m.world, f, o), o.exits, o.rootExits),
                   NextStack(m.flags, m.world, f, below, o), m.watch))
    case WatchdogRuns(o) =>
      (match m.watch
       case Idle => m
       case Over(f, below) =>
         if Waits(f, m.main) || !Honest(m.world, f, o) then m
         else
           Machine(NextFlags(m.flags, f, below, m.main), Elapse(NextWorld(m.world, f, o), o.exits, o.rootExits),
                   m.main, NextStack(m.flags, m.world, f, below, o)))
    case ProcessesExit(ids, handles) => m.(world := Elapse(m.world, ids, handles))
  }

  ghost function Run(m: Machine, events: seq<Event>): Machine
    decreases |events|
  {
    if events == [] then m else Run(Run1(m, events[0]), events[1..])
  }
}
