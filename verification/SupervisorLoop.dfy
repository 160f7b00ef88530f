/**
 The supervising loop over its five children (`daemon_supervisor.py`). What the outside world decides (a signal,
 a child's exit, a launch that raises, a queue being empty) is chosen freely at the line that asks.
 */
module SupervisorLoop {
  import opened Outcomes

  const FEED_LIMIT := 195 + 10
  // A full commentary of 3000 characters at 250 ms each, the fixed browser work, and three graces of 10 s.
  const REPOST_LIMIT := 240 + 750 + 30
  const POST_LIMIT := 360 + 750 + 30

  // The runtime worker, the Gmail worker, the feed sample, and the two workers that share the browser.
  datatype Role = Browser | Mailer | Sampler | Repost | Post {
    predicate Shares() { Repost? || Post? }
  }

  // What happens to processes: a start, a poll that finds one running, a request to terminate, an end that was seen.
  datatype Event = Started(id: nat, role: Role) | Looked(id: nat) | Told(id: nat) | Gone(id: nat)

  datatype Replacement = Replaced(child: nat, gmail: Option<nat>) | Cancelled | Failed

  // What a completed restart leaves running.
  function RunningPair(child: nat, gmail: Option<nat>): map<nat, Role> {
    if gmail.Some? then map[child := Browser][gmail.value := Mailer] else map[child := Browser]
  }

  datatype Flow = Onward | Again | Leave | Broke

  datatype Ending = Returned | StillRunning | Escaped

  // ------------------------------------------------------------ the process log

  // The processes started and not yet seen gone.
  function Alive(log: seq<Event>): map<nat, Role> {
    if log == [] then map[]
    else
      match log[|log| - 1]
      case Started(id, role) => Alive(log[..|log| - 1])[id := role]
      case Gone(id) => Alive(log[..|log| - 1]) - {id}
      case _ => Alive(log[..|log| - 1])
  }

  // A process of the first role keeps one of the second from being started.
  predicate Clashes(running: Role, next: Role) {
    running == next || (running.Shares() && (next.Shares() || next.Browser?))
  }

  predicate Clear(alive: map<nat, Role>, next: Role) {
    forall p | p in alive :: !Clashes(alive[p], next)
  }

  // Nothing runs that did not run before.
  predicate Within(alive: map<nat, Role>, before: map<nat, Role>) {
    forall p | p in alive :: p in before && before[p] == alive[p]
  }

  predicate Unused(log: seq<Event>, id: nat) {
    forall k | 0 <= k < |log| && log[k].Started? :: log[k].id != id
  }

  // Every start was the first under its identity and met no running process it clashes with.
  ghost predicate Orderly(log: seq<Event>) {
    forall n | 0 <= n < |log| && log[n].Started? :: Unused(log[..n], log[n].id) && Clear(Alive(log[..n]), log[n].role)
  }

  predicate Issued(log: seq<Event>, nextId: nat) {
    forall k | 0 <= k < |log| && log[k].Started? :: log[k].id < nextId
  }

  predicate Given(handle: Option<nat>, nextId: nat) {
    handle.Some? ==> handle.value < nextId
  }

  lemma {:induction false} OrderlyGrows(log: seq<Event>, e: Event)
    requires Orderly(log) && (e.Started? ==> Unused(log, e.id) && Clear(Alive(log), e.role))
    ensures Orderly(log + [e])
    ensures Alive(log + [e]) == match e case Started(id, role) => Alive(log)[id := role] case Gone(id) => Alive(log) - {id} case _ => Alive(log)
  {
    var longer := log + [e];
    assert longer[..|log|] == log;
    forall n | 0 <= n < |longer| && longer[n].Started?
      ensures Unused(longer[..n], longer[n].id) && Clear(Alive(longer[..n]), longer[n].role)
    {
      assert longer[..n] == log[..n];
      if n == |log| { assert log[..n] == log; }
    }
  }

  lemma {:induction false} AliveWasStarted(log: seq<Event>, p: nat)
    requires p in Alive(log)
    ensures exists j :: 0 <= j < |log| && log[j] == Started(p, Alive(log)[p])
  {
    var n := |log| - 1;
    if log[n] != Started(p, Alive(log)[p]) {
      AliveWasStarted(log[..n], p);
      var j :| 0 <= j < n && log[..n][j] == Started(p, Alive(log[..n])[p]);
      assert log[j] == Started(p, Alive(log)[p]);
    }
  }

  lemma {:induction false} StaysAlive(log: seq<Event>, j: nat)
    requires Orderly(log) && j < |log| && log[j].Started? && forall k | j < k < |log| :: log[k] != Gone(log[j].id)
    ensures log[j].id in Alive(log) && Alive(log)[log[j].id] == log[j].role
  {
    var n := |log| - 1;
    if j < n {
      var before := log[..n];
      assert forall k | 0 <= k < n :: before[..k] == log[..k];
      StaysAlive(before, j);
      assert log[n].Started? ==> before[j].id != log[n].id;
    }
  }

  // Before a process starts, every earlier one it clashes with has been seen gone.
  lemma StartsWait(log: seq<Event>, j: nat, i: nat)
    requires Orderly(log) && j < i < |log| && log[j].Started? && log[i].Started?
    requires Clashes(log[j].role, log[i].role)
    ensures exists k :: j < k < i && log[k] == Gone(log[j].id)
  {
    var before := log[..i];
    assert forall k | 0 <= k < i :: before[..k] == log[..k];
    assert Clear(Alive(before), log[i].role);
    if forall k | j < k < i :: log[k] != Gone(log[j].id) {
      StaysAlive(before, j);
    }
  }

  // At every moment there is at most one process of each role, and at most one that shares the browser.
  lemma {:induction false} NeverTogether(log: seq<Event>, n: nat, p: nat, q: nat)
    requires Orderly(log) && n <= |log| && p in Alive(log[..n]) && q in Alive(log[..n]) && p != q
    ensures Alive(log[..n])[p] != Alive(log[..n])[q]
    ensures !(Alive(log[..n])[p].Shares() && Alive(log[..n])[q].Shares())
  {
    var now := log[..n];
    assert now[..n - 1] == log[..n - 1];
    if !now[n - 1].Started? || (now[n - 1].id != p && now[n - 1].id != q) {
      NeverTogether(log, n - 1, p, q);
    } else {
      var other := if now[n - 1].id == p then q else p;
      assert Clear(Alive(log[..n - 1]), log[n - 1].role) && other in Alive(log[..n - 1]);
    }
  }

  // ------------------------------------------------------- between two moments of a log

  // Since `before`, the process was seen running, or was started.
  ghost predicate Fresh(before: seq<Event>, after: seq<Event>, id: nat) {
    exists k | |before| <= k < |after| :: after[k].id == id && (after[k].Looked? || after[k].Started?)
  }

  // Since `before`, its end was seen.
  ghost predicate Ended(before: seq<Event>, after: seq<Event>, id: nat) {
    exists k | |before| <= k < |after| :: after[k] == Gone(id)
  }

  // Since `before`, no other process was asked to terminate.
  ghost predicate ToldOnly(before: seq<Event>, after: seq<Event>, handle: Option<nat>) {
    forall k | |before| <= k < |after| && after[k].Told? :: handle == Some(after[k].id)
  }

  lemma OneMore(log: seq<Event>, e: Event)
    ensures log <= log + [e]
    ensures e.Looked? || e.Started? ==> Fresh(log, log + [e], e.id)
    ensures e.Gone? ==> Ended(log, log + [e], e.id)
    ensures !e.Told? ==> ToldOnly(log, log + [e], None)
    ensures ToldOnly(log, log + [e], Some(e.id))
  {
    assert (log + [e])[|log|] == e;
  }

  lemma NoneTold(log: seq<Event>, handle: Option<nat>)
    ensures ToldOnly(log, log, handle)
  {
  }

  lemma FreshStays(a: seq<Event>, b: seq<Event>, c: seq<Event>, d: seq<Event>, id: nat)
    requires a <= b <= c <= d && Fresh(b, c, id)
    ensures Fresh(a, d, id)
  {
    var k :| |b| <= k < |c| && c[k].id == id && (c[k].Looked? || c[k].Started?);
    assert d[k] == c[k];
  }

  lemma EndedStays(a: seq<Event>, b: seq<Event>, c: seq<Event>, d: seq<Event>, id: nat)
    requires a <= b <= c <= d && Ended(b, c, id)
    ensures Ended(a, d, id)
  {
    var k :| |b| <= k < |c| && c[k] == Gone(id);
    assert d[k] == c[k];
  }

  lemma ToldJoins(a: seq<Event>, b: seq<Event>, c: seq<Event>, handle: Option<nat>)
    requires a <= b <= c && (ToldOnly(a, b, handle) || ToldOnly(a, b, None)) && (ToldOnly(b, c, handle) || ToldOnly(b, c, None))
    ensures ToldOnly(a, c, handle)
  {
    forall k | |a| <= k < |c| && c[k].Told? ensures handle == Some(c[k].id) {
      if k < |b| { assert c[k] == b[k]; }
    }
  }

  // ------------------------------------------------------------------- the handles

  datatype Handles = Handles(child: Option<nat>, gmail: Option<nat>, feed: Option<nat>, repost: Option<nat>, post: Option<nat>) {
    function Get(role: Role): Option<nat> {
      if role.Browser? then child else if role.Mailer? then gmail else if role.Sampler? then feed
      else if role.Repost? then repost else post
    }

    function With(role: Role, handle: Option<nat>): Handles {
      if role.Browser? then this.(child := handle) else if role.Mailer? then this.(gmail := handle)
      else if role.Sampler? then this.(feed := handle) else if role.Repost? then this.(repost := handle)
      else this.(post := handle)
    }
  }

  // Whatever runs is held under its role.
  ghost predicate HeldBy(alive: map<nat, Role>, h: Handles) {
    forall p | p in alive :: h.Get(alive[p]) == Some(p)
  }

  // Every handle was issued.
  predicate Known(h: Handles, nextId: nat) {
    Given(h.child, nextId) && Given(h.gmail, nextId) && Given(h.feed, nextId) && Given(h.repost, nextId) && Given(h.post, nextId)
  }

  predicate Dead(alive: map<nat, Role>, handle: Option<nat>) {
    handle.Some? ==> handle.value !in alive
  }

  lemma WithinTwice(a: map<nat, Role>, b: map<nat, Role>, c: map<nat, Role>)
    requires Within(a, b) && Within(b, c)
    ensures Within(a, c)
  {
  }

  lemma HeldLess(alive: map<nat, Role>, fewer: map<nat, Role>, h: Handles)
    requires HeldBy(alive, h) && Within(fewer, alive)
    ensures HeldBy(fewer, h)
  {
  }

  lemma HeldCleared(alive: map<nat, Role>, h: Handles, role: Role)
    requires HeldBy(alive, h) && Dead(alive, h.Get(role))
    ensures HeldBy(alive, h.With(role, None))
  {
  }

  lemma HeldMore(alive: map<nat, Role>, h: Handles, id: nat, role: Role)
    requires HeldBy(alive, h) && Clear(alive, role)
    ensures HeldBy(alive[id := role], h.With(role, Some(id)))
  {
  }

  lemma PairHeld(h: Handles)
    requires h.child.Some?
    ensures HeldBy(RunningPair(h.child.value, h.gmail), h)
  {
  }

  // Nothing running keeps `role` from being started.
  lemma Freed(alive: map<nat, Role>, h: Handles, role: Role)
    requires HeldBy(alive, h) && Dead(alive, h.Get(role))
    requires role.Shares() || role.Browser? ==> Dead(alive, h.repost) && Dead(alive, h.post)
    ensures Clear(alive, role)
  {
  }

  lemma AllDead(alive: map<nat, Role>, h: Handles)
    requires HeldBy(alive, h) && Dead(alive, h.child) && Dead(alive, h.gmail) && Dead(alive, h.feed)
    requires Dead(alive, h.repost) && Dead(alive, h.post)
    ensures alive == map[]
  {
  }

  // ------------------------------------------------------------------- the loop

  // What the outside decides about one turn: which checks are due, and what each of them finds.
  datatype Moment = Moment(
    controlsDue: bool, clear: bool, updated: bool, requested: bool, stillClear: bool,
    feedDue: bool, readable: bool, wanted: bool, sampleRaises: bool, unreadable: bool,
    repostDue: bool, repostQueued: bool, postDue: bool, postQueued: bool)
  {
    // The controls ask for a restart.
    predicate Restarts() { controlsDue && clear && (requested || (updated && stillClear)) }
  }

  class Supervision {
    // A Gmail account is mapped, and the LinkedIn daemon (with its reposts and posts) is enabled.
    const mailed: bool
    const enabled: bool

    var stop: bool
    var child: Option<nat>
    var gmail: Option<nat>
    var feed: Option<nat>
    var feedStarted: Option<int>
    var feedFailed: bool
    // A sample's start time was taken and its launch then raised.
    ghost var launchFailed: bool
    var repost: Option<nat>
    var repostStarted: Option<int>
    var post: Option<nat>
    var postStarted: Option<int>
    // The processes' events, the next unused identity, and how often restart_children was entered.
    var log: seq<Event>
    var nextId: nat
    var restarts: nat
    // How often a call into the outside world raised.
    ghost var faults: nat

    constructor (mailed: bool, enabled: bool)
      ensures Valid() && child.None? && gmail.None? && feed.None? && !feedFailed && log == [] && !stop && faults == 0 && this.mailed == mailed && this.enabled == enabled
    {
      this.mailed, this.enabled := mailed, enabled;
      stop, feedFailed, launchFailed, log, nextId, restarts, faults := false, false, false, [], 0, 0, 0;
      child, gmail, feed, repost, post := None, None, None, None, None;
      feedStarted, repostStarted, postStarted := None, None, None;
    }

    ghost predicate Sound()
      reads this`log, this`nextId
    {
      Orderly(log) && Issued(log, nextId)
    }

    function Hands(): Handles
      reads this`child, this`gmail, this`feed, this`repost, this`post
    {
      Handles(child, gmail, feed, repost, post)
    }

    ghost predicate Held()
      reads this`log, this`child, this`gmail, this`feed, this`repost, this`post
    {
      HeldBy(Alive(log), Hands())
    }

    // A start time is set exactly when its child exists, or its launch raised, which turns sampling off.
    ghost predicate FeedTidy()
      reads this`feed, this`feedStarted, this`feedFailed, this`launchFailed
    {
      && (feedStarted.Some? <==> feed.Some? || launchFailed)
      && (launchFailed ==> feedFailed && feed.None?)
    }

    // At most one of the repost and post children; each start time is set exactly when its child exists.
    predicate Tidy()
      reads this`repost, this`repostStarted, this`post, this`postStarted
    {
      && (repost.None? || post.None?)
      && (repost.Some? <==> repostStarted.Some?)
      && (post.Some? <==> postStarted.Some?)
    }

    // Once sampling is off it stays off: a sample may end, but none begins.
    predicate SamplingAfter(before: Option<nat>, off: bool)
      reads this`feed, this`feedFailed
    {
      off ==> feedFailed && (feed == before || feed.None?)
    }

    ghost predicate Valid()
      reads this
    {
      Sound() && Held() && Known(Hands(), nextId) && Tidy() && FeedTidy()
    }

    // --------------------------------------------------------- the outside world

    method Now() returns (t: int) {
      t := *;
    }

    // The signal flag or the safety latch, which never clears.
    method ShouldStop() returns (yes: bool)
      modifies this`stop
      ensures yes == stop && (old(stop) ==> stop)
    {
      var signalled: bool := *;
      stop := stop || signalled;
      yes := stop;
    }

    method Happens() returns (yes: bool) {
      yes := *;
    }

    // A call that may raise.
    method Fails() returns (raised: bool)
      modifies this`faults
      ensures faults == old(faults) + if raised then 1 else 0
    {
      raised := *;
      if raised { faults := faults + 1; }
    }

    // A launch behind the safety gate; None when it raises. None is tried once a stop was seen.
    method Launch(role: Role, raises: bool) returns (id: Option<nat>)
      requires !stop && Sound() && Clear(Alive(log), role)
      modifies this`log, this`nextId, this`faults
      ensures Sound() && nextId == old(nextId) + (if id.Some? then 1 else 0) && faults == old(faults) + (if raises then 1 else 0)
      ensures id.None? <==> raises
      ensures id.None? ==> log == old(log) && Alive(log) == old(Alive(log))
      ensures id.Some? ==> id.value == old(nextId) && Alive(log) == old(Alive(log))[id.value := role]
      ensures id.Some? ==> log == old(log) + [Started(id.value, role)]
      ensures old(Held()) ==> HeldBy(Alive(log), if id.Some? then Hands().With(role, id) else Hands())
    {
      hide HeldBy;
      if raises {
        faults := faults + 1;
        return None;
      }
      OrderlyGrows(log, Started(nextId, role));
      if Held() { HeldMore(Alive(log), Hands(), nextId, role); }
      id := Some(nextId);
      log := log + [Started(nextId, role)];
      nextId := nextId + 1;
    }

    // poll(): a process seen gone stays gone.
    method Exited(p: nat) returns (gone: bool)
      requires Sound()
      modifies this`log
      ensures Sound() && log == old(log) + [if gone then Gone(p) else Looked(p)]
      ensures Alive(log) == if gone then old(Alive(log)) - {p} else old(Alive(log))
      ensures p !in old(Alive(log)) ==> gone
      ensures old(Held()) ==> Held()
    {
      hide HeldBy;
      gone := Happens();
      gone := gone || p !in Alive(log);
      var e := if gone then Gone(p) else Looked(p);
      OrderlyGrows(log, e);
      if Held() { HeldLess(Alive(log), Alive(log) - {p}, Hands()); }
      log := log + [e];
    }

    // A process that answers is asked to terminate.
    method Tell(p: nat)
      requires Sound()
      modifies this`log
      ensures Sound() && log == old(log) + [Told(p)] && Alive(log) == old(Alive(log)) && (old(Held()) ==> Held())
    {
      OrderlyGrows(log, Told(p));
      log := log + [Told(p)];
    }

    // terminate, wait, kill, wait; raises when even the kill is not seen to take effect.
    method Stop(p: nat) returns (raised: bool)
      requires Sound()
      modifies this`log, this`faults
      ensures Sound() && old(log) <= log && faults == old(faults) + (if raised then 1 else 0)
      ensures Alive(log) == if raised then old(Alive(log)) else old(Alive(log)) - {p}
      ensures old(Held()) ==> Held()
      ensures raised ==> p in Alive(log)
      ensures ToldOnly(old(log), log, Some(p)) && (!raised ==> Ended(old(log), log, p))
    {
      hide HeldBy, Alive, Orderly, Issued;
      ghost var log0 := log;
      var gone := Exited(p);
      OneMore(log0, if gone then Gone(p) else Looked(p));
      if gone { return false; }
      ghost var log1 := log;
      Tell(p);
      OneMore(log1, Told(p));
      ToldJoins(log0, log1, log, Some(p));
      raised := Fails();
      if !raised { SeeEnd(p, log0); }
    }

    method SeeEnd(p: nat, ghost log0: seq<Event>)
      requires Sound() && log0 <= log && ToldOnly(log0, log, Some(p))
      modifies this`log
      ensures Sound() && log == old(log) + [Gone(p)] && Alive(log) == old(Alive(log)) - {p} && (old(Held()) ==> Held())
      ensures ToldOnly(log0, log, Some(p)) && Ended(log0, log, p)
    {
      hide HeldBy, Orderly, ToldOnly, Ended;
      OrderlyGrows(log, Gone(p));
      if Held() { HeldLess(Alive(log), Alive(log) - {p}, Hands()); }
      OneMore(log, Gone(p));
      ToldJoins(log0, log, log + [Gone(p)], Some(p));
      EndedStays(log0, log, log + [Gone(p)], log + [Gone(p)], p);
      log := log + [Gone(p)];
    }

    // -------------------------------------------------------------- the children

    method StopRepost() returns (raised: bool)
      requires Valid()
      modifies this`log, this`faults, this`repost, this`repostStarted
      ensures Valid() && old(log) <= log && Within(Alive(log), old(Alive(log)))
      ensures faults == old(faults) + (if raised then 1 else 0)
      ensures if raised then repost == old(repost) else repost.None? && (old(repost).Some? ==> Ended(old(log), log, old(repost).value))
    {
      hide Orderly, Issued, Alive, HeldBy, Clear, Fresh, Ended, ToldOnly, FeedTidy;
      raised := false;
      if repost.Some? {
        raised := Stop(repost.value);
        if !raised {
          HeldCleared(Alive(log), Hands(), Repost);
          repost, repostStarted := None, None;
        }
      }
    }

    method StopPost() returns (raised: bool)
      requires Valid()
      modifies this`log, this`faults, this`post, this`postStarted
      ensures Valid() && old(log) <= log && Within(Alive(log), old(Alive(log)))
      ensures faults == old(faults) + (if raised then 1 else 0)
      ensures if raised then post == old(post) else post.None? && (old(post).Some? ==> Ended(old(log), log, old(post).value))
    {
      hide Orderly, Issued, Alive, HeldBy, Clear, Fresh, Ended, ToldOnly, FeedTidy;
      raised := false;
      if post.Some? {
        raised := Stop(post.value);
        if !raised {
          HeldCleared(Alive(log), Hands(), Post);
          post, postStarted := None, None;
        }
      }
    }

    method StopSharers() returns (raised: bool)
      requires Valid()
      modifies this`log, this`faults, this`repost, this`repostStarted, this`post, this`postStarted
      ensures Valid() && old(log) <= log && Within(Alive(log), old(Alive(log)))
      ensures faults == old(faults) + if raised then 1 else 0
      ensures raised || (repost.None? && post.None?)
    {
      hide Orderly, Issued, Alive, HeldBy, Clear, Fresh, Ended, ToldOnly, Within, Tidy, FeedTidy;
      raised := StopRepost();
      if raised { return; }
      ghost var between := Alive(log);
      raised := StopPost();
      WithinTwice(Alive(log), between, old(Alive(log)));
    }

    // The first half of _restart_managed_children: this supervisor's old processes are stopped.
    method StopManaged() returns (raised: bool)
      requires Valid() && child.Some? && repost.None? && post.None?
      modifies this`log, this`faults
      ensures Valid() && old(log) <= log && Within(Alive(log), old(Alive(log)))
      ensures faults == old(faults) + if raised then 1 else 0
      ensures raised || Alive(log) == map[]
    {
      hide Orderly, Issued, Alive, HeldBy, Clear, Fresh, Ended, ToldOnly, Tidy, FeedTidy;
      raised := false;
      if gmail.Some? {
        raised := Stop(gmail.value);
        if raised { return; }
      }
      if feed.Some? {
        raised := Stop(feed.value);
        if raised { return; }
      }
      raised := Stop(child.value);
      if !raised { AllDead(Alive(log), Hands()); }
    }

    // The finally block: whatever was started as a replacement is stopped.
    method StopReplacements(worker: nat, mailer: Option<nat>) returns (raised: bool)
      requires Sound() && forall p | p in Alive(log) :: p == worker || Some(p) == mailer
      modifies this`log, this`faults
      ensures Sound() && old(log) <= log && Within(Alive(log), old(Alive(log)))
      ensures faults == old(faults) + if raised then 1 else 0
      ensures raised <==> Alive(log) != map[]
    {
      hide Orderly, Issued, Alive, HeldBy, Clear, Fresh, Ended, ToldOnly;
      if mailer.Some? {
        raised := Stop(mailer.value);
        if raised { return; }
      }
      raised := Stop(worker);
    }

    // A replacement was started after `before` and its end was seen.
    ghost predicate ReplacementDied(before: seq<Event>, first: nat)
      reads this`log
    {
      exists id | id >= first :: Ended(before, log, id)
    }

    // `stuck`: a replacement outlived its kill, the one way in which it can be left behind.
    method RestartManaged() returns (result: Replacement, stuck: bool)
      requires Valid() && child.Some? && repost.None? && post.None?
      modifies this`log, this`nextId, this`stop, this`faults
      ensures Sound() && old(log) <= log && old(nextId) <= nextId && (old(stop) ==> stop)
      ensures old(stop) ==> result.Cancelled? && log == old(log)
      ensures !result.Replaced? && !stuck ==> Within(Alive(log), old(Alive(log)))
      ensures result.Cancelled? ==> !stuck && Valid() && faults == old(faults) && (stop || ReplacementDied(old(log), old(nextId)))
      ensures stuck ==> result.Failed? && exists p :: p in Alive(log) && p >= old(nextId)
      ensures result.Failed? ==> faults > old(faults)
      ensures result.Replaced? ==> Alive(log) == RunningPair(result.child, result.gmail) && faults == old(faults)
      ensures result.Replaced? ==> old(nextId) <= result.child < nextId && Given(result.gmail, nextId)
      ensures result.Replaced? ==> Fresh(old(log), log, result.child) && (result.gmail.Some? ==> Fresh(old(log), log, result.gmail.value))
      ensures result.Replaced? ==> !stop && result.gmail.Some? == mailed
    {
      hide Orderly, Issued, Alive, HeldBy, Tidy, FeedTidy, Fresh, Ended, ToldOnly;
      stuck := false;
      var halt := ShouldStop();
      if halt { return Cancelled, false; }
      var raised := StopManaged();
      if raised { return Failed, false; }
      halt := ShouldStop();
      if halt { return Cancelled, false; }
      result, stuck := LaunchReplacements(old(log));
    }

    // The second half: nothing of the old runs any more.
    method LaunchReplacements(ghost before: seq<Event>) returns (result: Replacement, stuck: bool)
      requires Sound() && !stop && Alive(log) == map[] && before <= log
      modifies this`log, this`nextId, this`stop, this`faults
      ensures Sound() && old(log) <= log && old(nextId) <= nextId
      ensures !result.Replaced? && !stuck ==> Alive(log) == map[]
      ensures result.Cancelled? ==> !stuck && faults == old(faults) && (stop || ReplacementDied(before, old(nextId)))
      ensures stuck ==> result.Failed? && exists p :: p in Alive(log) && p >= old(nextId)
      ensures result.Failed? ==> faults > old(faults)
      ensures result.Replaced? ==> Alive(log) == RunningPair(result.child, result.gmail) && faults == old(faults)
      ensures result.Replaced? ==> old(nextId) <= result.child < nextId && Given(result.gmail, nextId)
      ensures result.Replaced? ==> Fresh(before, log, result.child) && (result.gmail.Some? ==> Fresh(before, log, result.gmail.value))
      ensures result.Replaced? ==> !stop && result.gmail.Some? == mailed
    {
      hide Orderly, Issued, Alive, HeldBy, Tidy, FeedTidy, Fresh, Ended, ToldOnly;
      stuck := false;
      var raises := Happens();
      var worker := Launch(Browser, raises);
      if worker.None? { return Failed, false; }
      OneMore(old(log), Started(worker.value, Browser));
      var mailer: Option<nat>;
      result, mailer := Complete(worker.value, before, old(log));
      if !result.Replaced? {
        ghost var log2 := log;
        stuck := StopReplacements(worker.value, mailer);
        if stuck { result := Failed; }
        KeepsDied(before, log2, old(nextId));
      }
    }

    lemma KeepsDied(before: seq<Event>, then_: seq<Event>, first: nat)
      requires before <= then_ <= log
      ensures (exists id | id >= first :: Ended(before, then_, id)) ==> ReplacementDied(before, first)
    {
      if id :| id >= first && Ended(before, then_, id) { EndedStays(before, before, then_, log, id); }
    }

    // The guarded block after the replacement worker is launched.
    method Complete(worker: nat, ghost before: seq<Event>, ghost log1: seq<Event>) returns (result: Replacement, mailer: Option<nat>)
      requires Sound() && Alive(log) == map[worker := Browser] && worker < nextId
      requires before <= log1 <= log && Fresh(log1, log, worker)
      modifies this`log, this`nextId, this`stop, this`faults
      ensures Sound() && old(log) <= log && old(nextId) <= nextId && Given(mailer, nextId) && (mailer.Some? ==> old(nextId) <= mailer.value)
      ensures forall p | p in Alive(log) :: p == worker || Some(p) == mailer
      ensures result.Failed? <==> faults > old(faults)
      ensures result.Cancelled? ==> faults == old(faults)
      ensures result.Cancelled? ==> stop || Ended(before, log, worker) || (mailer.Some? && Ended(before, log, mailer.value))
      ensures result.Replaced? ==> result == Replaced(worker, mailer) && Alive(log) == RunningPair(worker, mailer) && faults == old(faults)
      ensures result.Replaced? ==> !stop && mailer.Some? == mailed
      ensures result.Replaced? ==> Fresh(before, log, worker) && (mailer.Some? ==> Fresh(before, log, mailer.value))
      ensures old(stop) ==> stop
    {
      hide Orderly, Issued, Alive, HeldBy, Fresh, Ended, ToldOnly;
      mailer := None;
      var halt := ShouldStop();
      if halt { return Cancelled, None; }
      ghost var log2 := log;
      if mailed {
        var raises := Happens();
        mailer := Launch(Mailer, raises);
        if mailer.None? { return Failed, None; }
        OneMore(log2, Started(mailer.value, Mailer));
      }
      halt := ShouldStop();
      if halt { return Cancelled, mailer; }
      var ended := AnyExited(worker, mailer, before);
      if ended { return Cancelled, mailer; }
      halt := ShouldStop();
      if halt { return Cancelled, mailer; }
      FreshStays(before, log1, old(log), log, worker);
      if mailer.Some? { FreshStays(before, log2, log2 + [Started(mailer.value, Mailer)], log, mailer.value); }
      return Replaced(worker, mailer), mailer;
    }

    // One of the replacements exited during the launch.
    method AnyExited(worker: nat, mailer: Option<nat>, ghost before: seq<Event>) returns (gone: bool)
      requires Sound() && before <= log
      modifies this`log
      ensures Sound() && old(log) <= log
      ensures if gone then Ended(before, log, worker) || (mailer.Some? && Ended(before, log, mailer.value)) else Alive(log) == old(Alive(log))
      ensures forall p | p in Alive(log) :: p in old(Alive(log))
    {
      hide Orderly, Issued, Alive, HeldBy, Fresh, Ended, ToldOnly;
      gone := Exited(worker);
      if gone {
        OneMore(old(log), Gone(worker));
        EndedStays(before, old(log), log, log, worker);
      } else if mailer.Some? {
        ghost var log1 := log;
        gone := Exited(mailer.value);
        if gone {
          OneMore(log1, Gone(mailer.value));
          EndedStays(before, log1, log, log, mailer.value);
        }
      }
    }

    method RestartChildren() returns (ok: bool, raised: bool)
      requires Valid() && child.Some?
      modifies this
      ensures Sound() && old(log) <= log && restarts == old(restarts) + 1 && (old(stop) ==> stop)
      ensures !raised ==> Valid() && child.Some? && repost.None? && post.None?
      ensures !raised && child == old(child) ==> !ok && Within(Alive(log), old(Alive(log)))
      ensures raised ==> faults > old(faults)
      ensures !raised ==> faults == old(faults)
      ensures !raised && !ok ==> stop || ReplacementDied(old(log), old(nextId))
      ensures ok ==> !raised && !stop && feed.None? && gmail.Some? == mailed && Alive(log) == RunningPair(child.value, gmail)
      ensures ok ==> child.value >= old(nextId) && Fresh(old(log), log, child.value) && (gmail.Some? ==> Fresh(old(log), log, gmail.value))
      ensures FeedTidy() && SamplingAfter(old(feed), old(feedFailed)) && launchFailed == old(launchFailed)
    {
      hide Orderly, Issued, Alive, HeldBy, Clear, Fresh, Ended, ToldOnly, Within, RunningPair, Tidy, FeedTidy;
      ok := false;
      restarts := restarts + 1;
      raised := StopSharers();
      if raised { return; }
      ghost var between, log1 := Alive(log), log;
      var result, _ := RestartManaged();
      match result {
        case Failed => raised := true;
        case Cancelled =>
          WithinTwice(Alive(log), between, old(Alive(log)));
          if ReplacementDied(log1, old(nextId)) { DiedSince(old(log), log1, old(nextId)); }
        case Replaced(worker, mailer) =>
          FreshStays(old(log), log1, log, log, worker);
          if mailer.Some? { FreshStays(old(log), log1, log, log, mailer.value); }
          Adopt(worker, mailer);
          var halt := ShouldStop();
          ok := !halt;
      }
    }

    lemma DiedSince(before: seq<Event>, then_: seq<Event>, first: nat)
      requires before <= then_ <= log && ReplacementDied(then_, first)
      ensures ReplacementDied(before, first)
    {
      var id :| id >= first && Ended(then_, log, id);
      EndedStays(before, then_, log, log, id);
    }

    // The new handles take over, and an interrupted sample is held.
    method Adopt(worker: nat, mailer: Option<nat>)
      requires Sound() && Tidy() && FeedTidy() && repost.None? && post.None? && Known(Hands(), nextId)
      requires worker < nextId && Given(mailer, nextId) && Alive(log) == RunningPair(worker, mailer)
      modifies this`child, this`gmail, this`feed, this`feedStarted, this`feedFailed
      ensures Valid() && child == Some(worker) && gmail == mailer && feed.None? && (old(feedFailed) ==> feedFailed)
      ensures old(feed).Some? ==> feedFailed
    {
      hide Orderly, Issued, Alive, HeldBy, Clear, RunningPair, Tidy;
      child, gmail := Some(worker), mailer;
      if feed.Some? {
        feedFailed, feed, feedStarted := true, None, None;
      }
      PairHeld(Hands());
    }

    // One poll: exactly one restart if an update, a sender request or both ask for it, and otherwise nothing.
    method PollRuntimeControls(m: Moment) returns (restarted: bool, raised: bool)
      requires Valid() && child.Some? && m.controlsDue
      modifies this
      ensures Sound() && old(log) <= log && (!raised ==> Valid() && child.Some?) && (old(stop) ==> stop)
      ensures raised ==> faults > old(faults) && restarts <= old(restarts) + 1
      ensures !raised ==> faults == old(faults) && restarts == old(restarts) + if m.Restarts() then 1 else 0
      ensures !raised && !m.Restarts() ==> log == old(log) && Hands() == old(Hands()) && !restarted && feedFailed == old(feedFailed)
      ensures !raised && restarted ==> child.value >= old(nextId) && Fresh(old(log), log, child.value) && gmail.Some? == mailed
      ensures !raised && m.Restarts() ==> repost.None? && post.None?
      ensures !raised && m.Restarts() && !restarted ==> stop || ReplacementDied(old(log), old(nextId))
      ensures FeedTidy() && SamplingAfter(old(feed), old(feedFailed)) && launchFailed == old(launchFailed)
    {
      hide Orderly, Issued, Alive, HeldBy, Clear, Fresh, Ended, ToldOnly, Tidy, FeedTidy;
      restarted, raised := false, false;
      if !m.clear { return; }
      raised := Fails();
      if raised { return; }
      if m.requested {
        restarted, raised := RestartChildren();
        if raised { return; }
        // The acknowledgement may fail: another poll retries it, unless the failure escapes.
        raised := Fails();
        if raised { return; }
      }
      if m.updated && !m.requested && m.stillClear {
        restarted, raised := RestartChildren();
      }
    }

    // Onward, the Gmail worker was seen running, or replaces one that was not.
    method WatchGmail() returns (flow: Flow)
      requires Valid()
      modifies this`log, this`nextId, this`stop, this`gmail, this`faults
      ensures Sound() && old(log) <= log && old(nextId) <= nextId && (!flow.Broke? ==> Valid()) && (old(stop) ==> stop)
      ensures !flow.Again? && (flow.Leave? ==> stop) && (flow.Onward? ==> stop == old(stop)) && faults == old(faults) + (if flow.Broke? then 1 else 0)
      ensures flow.Onward? ==> gmail.Some? == old(gmail).Some?
      ensures flow.Onward? && gmail.Some? ==> gmail.value in Alive(log) && Fresh(old(log), log, gmail.value)
      ensures gmail != old(gmail) ==> old(gmail).Some? && Ended(old(log), log, old(gmail).value) && gmail == Some(old(nextId))
      ensures ToldOnly(old(log), log, None)
    {
      hide Orderly, Issued, Alive, HeldBy, Clear, Fresh, Ended, ToldOnly, Tidy, FeedTidy;
      NoneTold(log, None);
      if gmail.None? { return Onward; }
      var gone := Exited(gmail.value);
      OneMore(old(log), if gone then Gone(gmail.value) else Looked(gmail.value));
      if !gone { return Onward; }
      var halt := ShouldStop();
      if halt { return Leave; }
      ghost var log1 := log;
      flow := ReplaceGmail();
      ToldJoins(old(log), log1, log, None);
      if flow.Onward? {
        FreshStays(old(log), log1, log, log, gmail.value);
        EndedStays(old(log), old(log), log1, log, old(gmail).value);
      }
    }

    method ReplaceGmail() returns (flow: Flow)
      requires !stop && Valid() && Dead(Alive(log), gmail)
      modifies this`log, this`nextId, this`gmail, this`faults
      ensures Sound() && old(log) <= log && old(nextId) <= nextId && ToldOnly(old(log), log, None)
      ensures flow.Onward? || (flow.Broke? && gmail == old(gmail))
      ensures faults == old(faults) + if flow.Broke? then 1 else 0
      ensures flow.Onward? ==> Valid() && gmail == Some(old(nextId)) && gmail.value in Alive(log) && Fresh(old(log), log, gmail.value)
    {
      hide Orderly, Issued, Alive, HeldBy, Clear, Fresh, Ended, ToldOnly, Tidy, FeedTidy;
      NoneTold(log, None);
      Freed(Alive(log), Hands(), Mailer);
      OneMore(log, Started(nextId, Mailer));
      var raises := Happens();
      var mailer := Launch(Mailer, raises);
      if mailer.None? { return Broke; }
      gmail := mailer;
      return Onward;
    }

    // Onward, the runtime worker was seen running and nothing else happened. One that was not is replaced.
    method WatchChild() returns (flow: Flow)
      requires Valid() && child.Some?
      modifies this
      ensures Sound() && old(log) <= log && old(nextId) <= nextId && restarts == old(restarts) && (old(stop) ==> stop)
      ensures !flow.Broke? ==> Valid() && child.Some?
      ensures faults == old(faults) + if flow.Broke? then 1 else 0
      ensures flow.Onward? ==> Hands() == old(Hands()) && feedFailed == old(feedFailed) && stop == old(stop) && child.value in Alive(log)
      ensures flow.Onward? ==> log == old(log) + [Looked(child.value)]
      ensures flow.Leave? ==> stop && log == old(log) + [Gone(child.value)]
      ensures flow.Again? ==> repost.None? && post.None? && Dead(Alive(log), feed) && child.value >= old(nextId) && child.value in Alive(log)
      ensures flow.Again? ==> Ended(old(log), log, old(child).value) && Fresh(old(log), log, child.value)
      ensures FeedTidy() && SamplingAfter(old(feed), old(feedFailed)) && launchFailed == old(launchFailed)
    {
      hide Orderly, Issued, Alive, HeldBy, Clear, Fresh, Ended, ToldOnly, Tidy, FeedTidy;
      var gone := Exited(child.value);
      if !gone { return Onward; }
      OneMore(old(log), Gone(child.value));
      var halt := ShouldStop();
      if halt { return Leave; }
      ghost var log1 := log;
      var raised := InterruptFeed();
      if raised { return Broke; }
      ghost var log2 := log;
      flow := ReplaceChild();
      EndedStays(old(log), old(log), log1, log, old(child).value);
      if flow.Again? { FreshStays(old(log), log2, log, log, child.value); }
    }

    // A running sample does not outlive its worker.
    method InterruptFeed() returns (raised: bool)
      requires Valid()
      modifies this`log, this`feed, this`feedStarted, this`feedFailed, this`faults
      ensures Valid() && old(log) <= log && Within(Alive(log), old(Alive(log)))
      ensures faults == old(faults) + (if raised then 1 else 0)
      ensures raised || Dead(Alive(log), feed)
      ensures SamplingAfter(old(feed), old(feedFailed))
      ensures feed == old(feed) || (feed.None? && feedFailed)
      ensures old(feed).Some? ==>
                |log| > |old(log)|
                && if log[|old(log)|] == Gone(old(feed).value) then feed == old(feed) && log == old(log) + [Gone(feed.value)] && feedFailed == old(feedFailed)
                   else raised || (feed.None? && feedFailed)
    {
      hide Orderly, Issued, Alive, HeldBy, Clear, Fresh, Ended, ToldOnly, Tidy;
      if feed.None? { return false; }
      var gone := Exited(feed.value);
      if gone { return false; }
      raised := Stop(feed.value);
      if !raised {
        HeldCleared(Alive(log), Hands(), Sampler);
        feedFailed, feed, feedStarted := true, None, None;
      }
    }

    method ReplaceChild() returns (flow: Flow)
      requires !stop
      requires Valid() && child.Some? && child.value !in Alive(log)
      modifies this`log, this`nextId, this`faults, this`child, this`repost, this`repostStarted, this`post, this`postStarted
      ensures Sound() && old(log) <= log && old(nextId) <= nextId && (!flow.Broke? ==> Valid())
      ensures faults == old(faults) + if flow.Broke? then 1 else 0
      ensures flow.Broke? || (flow.Again? && repost.None? && post.None? && child == Some(old(nextId)) && child.value in Alive(log))
      ensures flow.Again? ==> Fresh(old(log), log, child.value) && (Dead(old(Alive(log)), feed) && Given(feed, old(nextId)) ==> Dead(Alive(log), feed))
    {
      hide Orderly, Issued, Alive, HeldBy, Clear, Fresh, Ended, ToldOnly, Tidy, FeedTidy;
      var raised := StopSharers();
      if raised { return Broke; }
      ghost var log1 := log;
      Freed(Alive(log), Hands(), Browser);
      var raises := Happens();
      var worker := Launch(Browser, raises);
      if worker.None? { return Broke; }
      OneMore(log1, Started(worker.value, Browser));
      FreshStays(old(log), log1, log, log, worker.value);
      child := worker;
      return Again;
    }

    // A finished or overdue feed sample is cleared. A sample that stays was seen running, within its limit; only one
    // beyond it is asked to terminate.
    method WatchFeed(now: int, saved: bool) returns (raised: bool)
      requires Valid()
      modifies this`log, this`feed, this`feedStarted, this`feedFailed, this`faults
      ensures Valid() && old(log) <= log && faults == old(faults) + (if raised then 1 else 0)
      ensures !raised && feed.Some? ==> feed == old(feed) && now - feedStarted.value < FEED_LIMIT && log == old(log) + [Looked(feed.value)]
      ensures feed.None? && old(feed).Some? ==> Ended(old(log), log, old(feed).value)
      ensures ToldOnly(old(log), log, old(feed))
      ensures old(feed).Some? && now - old(feedStarted).value < FEED_LIMIT ==> ToldOnly(old(log), log, None)
      ensures SamplingAfter(old(feed), old(feedFailed))
      ensures !raised ==> feedFailed == (old(feedFailed) || (feed != old(feed) && !saved))
    {
      hide Orderly, Issued, Alive, HeldBy, Clear, Fresh, Ended, ToldOnly, Tidy;
      NoneTold(log, feed);
      NoneTold(log, None);
      if feed.None? { return false; }
      var done := false;
      done, raised := SampleDone(now);
      if !raised && done {
        raised := FinishSample(saved);
      }
    }

    // Exited, or stopped because its time is up.
    method SampleDone(now: int) returns (done: bool, raised: bool)
      requires Valid() && feed.Some?
      modifies this`log, this`faults
      ensures Valid() && old(log) <= log && faults == old(faults) + (if raised then 1 else 0)
      ensures !raised && done ==> Dead(Alive(log), feed) && Ended(old(log), log, feed.value)
      ensures !raised && !done ==> now - feedStarted.value < FEED_LIMIT && log == old(log) + [Looked(feed.value)]
      ensures ToldOnly(old(log), log, feed)
      ensures now - feedStarted.value < FEED_LIMIT ==> ToldOnly(old(log), log, None)
    {
      hide Orderly, Issued, Alive, HeldBy, Clear, Fresh, Ended, ToldOnly, Tidy;
      raised := false;
      done := Exited(feed.value);
      OneMore(old(log), if done then Gone(feed.value) else Looked(feed.value));
      if !done && now - feedStarted.value >= FEED_LIMIT {
        ghost var log1 := log;
        raised := Stop(feed.value);
        done := !raised;
        ToldJoins(old(log), log1, log, feed);
        if done { EndedStays(old(log), log1, log, log, feed.value); }
      }
    }

    // A sample whose completion could not be saved is the last one.
    method FinishSample(saved: bool) returns (raised: bool)
      requires Valid() && feed.Some? && Dead(Alive(log), feed)
      modifies this`feed, this`feedStarted, this`feedFailed, this`faults
      ensures Valid() && feedFailed == (old(feedFailed) || !saved) && faults == old(faults) + (if raised then 1 else 0)
      ensures if raised then feed == old(feed) else feed.None?
    {
      hide Orderly, Issued, Alive, HeldBy, Clear, Fresh, Ended, ToldOnly, Tidy;
      feedFailed := feedFailed || !saved;
      raised := Fails();
      if !raised {
        HeldCleared(Alive(log), Hands(), Sampler);
        feed, feedStarted := None, None;
      }
    }

    // A sample begins exactly when one is due, none runs, sampling is on, and nothing goes wrong.
    method StartFeed(m: Moment, now: int)
      requires !stop
      requires Valid()
      modifies this`log, this`nextId, this`feed, this`feedStarted, this`feedFailed, this`launchFailed, this`faults
      ensures Valid() && old(log) <= log && old(nextId) <= nextId && old(faults) <= faults && ToldOnly(old(log), log, None)
      ensures var begins := m.feedDue && !old(feedFailed) && old(feed).None? && m.readable && m.wanted && !m.sampleRaises;
              feed == if begins then Some(old(nextId)) else old(feed)
      ensures feed != old(feed) ==> Fresh(old(log), log, feed.value)
      ensures feed == old(feed) ==> log == old(log)
      ensures var tried := !old(feedFailed) && old(feed).None?;
              feedFailed == (old(feedFailed) || (m.feedDue && (m.unreadable || (tried && (!m.readable || (m.wanted && m.sampleRaises))))))
      ensures SamplingAfter(old(feed), old(feedFailed)) && (old(launchFailed) ==> launchFailed)
    {
      hide Orderly, Issued, Alive, HeldBy, Clear, Fresh, Ended, ToldOnly, Tidy;
      NoneTold(log, None);
      if !m.feedDue { return; }
      if !feedFailed && feed.None? {
        BeginSample(m.readable, m.wanted, now, m.sampleRaises);
      }
      feedFailed := feedFailed || m.unreadable;
    }

    // Whatever goes wrong here is caught, and ends the sampling. Only a launch that raises comes after the start
    // time was taken.
    method BeginSample(readable: bool, wanted: bool, now: int, raises: bool)
      requires !stop
      requires Valid() && !feedFailed && feed.None?
      modifies this`log, this`nextId, this`feed, this`feedStarted, this`feedFailed, this`launchFailed, this`faults
      ensures Valid() && old(log) <= log && old(nextId) <= nextId && old(faults) <= faults && ToldOnly(old(log), log, None)
      ensures launchFailed == (readable && wanted && raises)
      ensures feed == if readable && wanted && !raises then Some(old(nextId)) else None
      ensures feed.Some? ==> Fresh(old(log), log, feed.value)
      ensures feed.None? ==> log == old(log)
      ensures feedStarted == if readable && wanted then Some(now) else None
      ensures feedFailed == (!readable || launchFailed)
    {
      hide Orderly, Issued, Alive, HeldBy, Clear, Fresh, Ended, ToldOnly, Tidy;
      NoneTold(log, None);
      if !readable {
        feedFailed := true;
        return;
      }
      if !wanted { return; }
      feedStarted := Some(now);
      Freed(Alive(log), Hands(), Sampler);
      OneMore(log, Started(nextId, Sampler));
      feed := Launch(Sampler, raises);
      feedFailed := feed.None?;
      launchFailed := feed.None?;
    }

    // A repost child is started exactly when one is due and something is queued.
    method StartRepost(due: bool, queued: bool) returns (raised: bool)
      requires !stop
      requires Valid() && repost.None? && post.None?
      modifies this`log, this`nextId, this`repost, this`repostStarted, this`faults
      ensures Sound() && old(log) <= log && old(nextId) <= nextId && (!raised ==> Valid())
      ensures faults == old(faults) + (if raised then 1 else 0) && (raised ==> due) && ToldOnly(old(log), log, None)
      ensures !raised ==> repost == if due && queued then Some(old(nextId)) else None
      ensures !raised && repost.Some? ==> Fresh(old(log), log, repost.value)
    {
      hide Orderly, Issued, Alive, HeldBy, Clear, Fresh, Ended, ToldOnly, Tidy, FeedTidy;
      NoneTold(log, None);
      if !due { return false; }
      raised := Fails();
      if raised { return; }
      if !queued { return false; }
      raised := LaunchRepost();
    }

    method LaunchRepost() returns (raised: bool)
      requires !stop && Valid() && repost.None? && post.None?
      modifies this`log, this`nextId, this`repost, this`repostStarted, this`faults
      ensures Sound() && old(log) <= log && old(nextId) <= nextId && (!raised ==> Valid()) && ToldOnly(old(log), log, None)
      ensures faults == old(faults) + if raised then 1 else 0
      ensures !raised ==> repost == Some(old(nextId)) && Fresh(old(log), log, repost.value)
    {
      hide Orderly, Issued, Alive, HeldBy, Clear, Fresh, Ended, ToldOnly, FeedTidy;
      NoneTold(log, None);
      var t := Now();
      repostStarted := Some(t);
      Freed(Alive(log), Hands(), Repost);
      OneMore(log, Started(nextId, Repost));
      var raises := Happens();
      repost := Launch(Repost, raises);
      raised := repost.None?;
    }

    // A finished or overdue repost child is cleared. One that stays was seen running, within its limit; only one beyond
    // it is asked to terminate; and a due one starts as soon as neither it nor a post child is there.
    method WatchRepost(m: Moment, now: int) returns (raised: bool)
      requires !stop
      requires Valid()
      modifies this`log, this`nextId, this`repost, this`repostStarted, this`faults
      ensures Sound() && old(log) <= log && old(nextId) <= nextId && (!raised ==> Valid()) && faults == old(faults) + (if raised then 1 else 0)
      ensures !raised && repost.Some? && repost == old(repost) && old(nextId) == nextId ==> now - repostStarted.value < REPOST_LIMIT
      ensures !raised && repost.Some? ==> Fresh(old(log), log, repost.value)
      ensures !raised && repost.Some? && repost != old(repost) ==> post.None? && repost == Some(old(nextId)) && m.repostDue && m.repostQueued
      ensures !raised && old(repost).Some? && repost != old(repost) ==> Ended(old(log), log, old(repost).value)
      ensures !raised && m.repostDue && m.repostQueued ==> repost.Some? || post.Some?
      ensures ToldOnly(old(log), log, old(repost))
      ensures old(repost).Some? && now - old(repostStarted).value < REPOST_LIMIT ==> ToldOnly(old(log), log, None)
    {
      hide Orderly, Issued, Alive, HeldBy, Clear, Fresh, Ended, ToldOnly, FeedTidy;
      raised := false;
      NoneTold(log, repost);
      NoneTold(log, None);
      if repost.Some? {
        raised := ClearRepost(now);
        if raised { return; }
      }
      if repost.None? && post.None? {
        ghost var log1 := log;
        raised := StartRepost(m.repostDue, m.repostQueued);
        ToldJoins(old(log), log1, log, old(repost));
        if old(repost).Some? && now - old(repostStarted).value < REPOST_LIMIT { ToldJoins(old(log), log1, log, None); }
        if old(repost).Some? { EndedStays(old(log), old(log), log1, log, old(repost).value); }
        if !raised && repost.Some? { FreshStays(old(log), log1, log, log, repost.value); }
      }
    }

    method ClearRepost(now: int) returns (raised: bool)
      requires Valid() && repost.Some?
      modifies this`log, this`repost, this`repostStarted, this`faults
      ensures Valid() && old(log) <= log && faults == old(faults) + (if raised then 1 else 0)
      ensures !raised && repost.Some? ==> repost == old(repost) && now - repostStarted.value < REPOST_LIMIT && Fresh(old(log), log, repost.value)
      ensures !raised && repost.None? ==> Ended(old(log), log, old(repost).value)
      ensures ToldOnly(old(log), log, old(repost))
      ensures now - old(repostStarted).value < REPOST_LIMIT ==> ToldOnly(old(log), log, None)
    {
      hide Orderly, Issued, Alive, HeldBy, Clear, Fresh, Ended, ToldOnly, FeedTidy;
      raised := false;
      var done := Exited(repost.value);
      OneMore(old(log), if done then Gone(repost.value) else Looked(repost.value));
      if !done && now - repostStarted.value >= REPOST_LIMIT {
        ghost var log1 := log;
        raised := Stop(repost.value);
        ToldJoins(old(log), log1, log, repost);
        if raised { return; }
        EndedStays(old(log), log1, log, log, repost.value);
        done := true;
      }
      if done {
        HeldCleared(Alive(log), Hands(), Repost);
        repost, repostStarted := None, None;
      }
    }

    // Likewise for posts.
    method StartPost(due: bool, queued: bool) returns (raised: bool)
      requires !stop
      requires Valid() && post.None? && repost.None?
      modifies this`log, this`nextId, this`post, this`postStarted, this`faults
      ensures Sound() && old(log) <= log && old(nextId) <= nextId && (!raised ==> Valid())
      ensures faults == old(faults) + (if raised then 1 else 0) && (raised ==> due) && ToldOnly(old(log), log, None)
      ensures !raised ==> post == if due && queued then Some(old(nextId)) else None
      ensures !raised && post.Some? ==> Fresh(old(log), log, post.value)
    {
      hide Orderly, Issued, Alive, HeldBy, Clear, Fresh, Ended, ToldOnly, Tidy, FeedTidy;
      NoneTold(log, None);
      if !due { return false; }
      raised := Fails();
      if raised { return; }
      if !queued { return false; }
      raised := LaunchPost();
    }

    method LaunchPost() returns (raised: bool)
      requires !stop && Valid() && repost.None? && post.None?
      modifies this`log, this`nextId, this`post, this`postStarted, this`faults
      ensures Sound() && old(log) <= log && old(nextId) <= nextId && (!raised ==> Valid()) && ToldOnly(old(log), log, None)
      ensures faults == old(faults) + if raised then 1 else 0
      ensures !raised ==> post == Some(old(nextId)) && Fresh(old(log), log, post.value)
    {
      hide Orderly, Issued, Alive, HeldBy, Clear, Fresh, Ended, ToldOnly, FeedTidy;
      NoneTold(log, None);
      var t := Now();
      postStarted := Some(t);
      Freed(Alive(log), Hands(), Post);
      OneMore(log, Started(nextId, Post));
      var raises := Happens();
      post := Launch(Post, raises);
      raised := post.None?;
    }

    method WatchPost(m: Moment, now: int) returns (raised: bool)
      requires !stop
      requires Valid()
      modifies this`log, this`nextId, this`post, this`postStarted, this`faults
      ensures Sound() && old(log) <= log && old(nextId) <= nextId && (!raised ==> Valid()) && faults == old(faults) + (if raised then 1 else 0)
      ensures !raised && post.Some? && post == old(post) && old(nextId) == nextId ==> now - postStarted.value < POST_LIMIT
      ensures !raised && post.Some? ==> Fresh(old(log), log, post.value)
      ensures !raised && post.Some? && post != old(post) ==> repost.None? && post == Some(old(nextId)) && m.postDue && m.postQueued
      ensures !raised && old(post).Some? && post != old(post) ==> Ended(old(log), log, old(post).value)
      ensures !raised && m.postDue && m.postQueued ==> post.Some? || repost.Some?
      ensures ToldOnly(old(log), log, old(post))
      ensures old(post).Some? && now - old(postStarted).value < POST_LIMIT ==> ToldOnly(old(log), log, None)
    {
      hide Orderly, Issued, Alive, HeldBy, Clear, Fresh, Ended, ToldOnly, FeedTidy;
      raised := false;
      NoneTold(log, post);
      NoneTold(log, None);
      if post.Some? {
        raised := ClearPost(now);
        if raised { return; }
      }
      if post.None? && repost.None? {
        ghost var log1 := log;
        raised := StartPost(m.postDue, m.postQueued);
        ToldJoins(old(log), log1, log, old(post));
        if old(post).Some? && now - old(postStarted).value < POST_LIMIT { ToldJoins(old(log), log1, log, None); }
        if old(post).Some? { EndedStays(old(log), old(log), log1, log, old(post).value); }
        if !raised && post.Some? { FreshStays(old(log), log1, log, log, post.value); }
      }
    }

    method ClearPost(now: int) returns (raised: bool)
      requires Valid() && post.Some?
      modifies this`log, this`post, this`postStarted, this`faults
      ensures Valid() && old(log) <= log && faults == old(faults) + (if raised then 1 else 0)
      ensures !raised && post.Some? ==> post == old(post) && now - postStarted.value < POST_LIMIT && Fresh(old(log), log, post.value)
      ensures !raised && post.None? ==> Ended(old(log), log, old(post).value)
      ensures ToldOnly(old(log), log, old(post))
      ensures now - old(postStarted).value < POST_LIMIT ==> ToldOnly(old(log), log, None)
    {
      hide Orderly, Issued, Alive, HeldBy, Clear, Fresh, Ended, ToldOnly, FeedTidy;
      raised := false;
      var done := Exited(post.value);
      OneMore(old(log), if done then Gone(post.value) else Looked(post.value));
      if !done && now - postStarted.value >= POST_LIMIT {
        ghost var log1 := log;
        raised := Stop(post.value);
        ToldJoins(old(log), log1, log, post);
        if raised { return; }
        EndedStays(old(log), log1, log, log, post.value);
        done := true;
      }
      if done {
        HeldCleared(Alive(log), Hands(), Post);
        post, postStarted := None, None;
      }
    }

    // The part of one turn that watches the sample and the two sharing children.
    method WatchSharers(m: Moment) returns (raised: bool)
      requires !stop
      requires Valid()
      modifies this`log, this`nextId, this`feed, this`feedStarted, this`feedFailed, this`launchFailed, this`faults,
               this`repost, this`repostStarted, this`post, this`postStarted
      ensures Sound() && old(log) <= log && old(nextId) <= nextId && (!raised ==> Valid()) && old(faults) <= faults && (raised ==> faults > old(faults))
      ensures !raised && feed.Some? ==> Fresh(old(log), log, feed.value)
      ensures !raised && m.feedDue && m.readable && m.wanted && !m.sampleRaises && !feedFailed ==> feed.Some?
      ensures !raised && enabled ==> SharersWatched(m, old(log), old(post))
      ensures !enabled ==> repost == old(repost) && post == old(post)
      ensures SamplingAfter(old(feed), old(feedFailed)) && (old(launchFailed) ==> launchFailed) && FeedTidy()
    {
      hide Orderly, Issued, Alive, HeldBy, Clear, Fresh, Ended, ToldOnly, Tidy, FeedTidy, SharersWatched;
      raised := WatchSample(m);
      if raised { return; }
      ghost var log1 := log;
      if enabled {
        raised := WatchPair(m);
        if raised { return; }
        PairSince(m, old(log), log1);
      }
      if feed.Some? { FreshStays(old(log), old(log), log1, log, feed.value); }
    }

    lemma PairSince(m: Moment, before: seq<Event>, then_: seq<Event>)
      requires before <= then_ <= log
      ensures forall post0 :: SharersWatched(m, then_, post0) ==> SharersWatched(m, before, post0)
    {
      hide Fresh;
      if repost.Some? && Fresh(then_, log, repost.value) { FreshStays(before, then_, log, log, repost.value); }
      if post.Some? && Fresh(then_, log, post.value) { FreshStays(before, then_, log, log, post.value); }
    }

    method WatchSample(m: Moment) returns (raised: bool)
      requires !stop
      requires Valid()
      modifies this`log, this`nextId, this`feed, this`feedStarted, this`feedFailed, this`launchFailed, this`faults
      ensures Valid() && old(log) <= log && old(nextId) <= nextId && old(faults) <= faults && (raised ==> faults > old(faults))
      ensures !raised && feed.Some? ==> Fresh(old(log), log, feed.value)
      ensures !raised && m.feedDue && m.readable && m.wanted && !m.sampleRaises && !feedFailed ==> feed.Some?
      ensures SamplingAfter(old(feed), old(feedFailed)) && (old(launchFailed) ==> launchFailed)
    {
      hide Orderly, Issued, Alive, HeldBy, Clear, Fresh, Ended, ToldOnly, Tidy, FeedTidy;
      var now := Now();
      var saved := Happens();
      raised := WatchFeed(now, saved);
      if raised { return; }
      if feed.Some? { OneMore(old(log), Looked(feed.value)); }
      ghost var log1, kept := log, feed;
      now := Now();
      StartFeed(m, now);
      if feed.Some? {
        if feed == kept { FreshStays(old(log), old(log), log1, log, feed.value); } else { FreshStays(old(log), log1, log, log, feed.value); }
      }
    }

    method WatchPair(m: Moment) returns (raised: bool)
      requires !stop
      requires Valid()
      modifies this`log, this`nextId, this`faults, this`repost, this`repostStarted, this`post, this`postStarted
      ensures Sound() && old(log) <= log && old(nextId) <= nextId && (!raised ==> Valid()) && old(faults) <= faults && (raised ==> faults > old(faults))
      ensures !raised ==> SharersWatched(m, old(log), old(post))
    {
      hide Orderly, Issued, Alive, HeldBy, Clear, Fresh, Ended, ToldOnly, FeedTidy;
      var now := Now();
      raised := WatchRepost(m, now);
      if raised { return; }
      ghost var log1 := log;
      now := Now();
      raised := WatchPost(m, now);
      if raised { return; }
      if repost.Some? { FreshStays(old(log), old(log), log1, log, repost.value); }
      if post.Some? { FreshStays(old(log), log1, log, log, post.value); }
    }

    // The sharing children that are there were seen or started, and one that was due had its chance.
    ghost predicate SharersWatched(m: Moment, before: seq<Event>, post0: Option<nat>)
      reads this`log, this`repost, this`post
    {
      && (repost.Some? ==> Fresh(before, log, repost.value)) && (post.Some? ==> Fresh(before, log, post.value))
      && (m.repostDue && m.repostQueued ==> repost.Some? || post0.Some?)
      && (m.postDue && m.postQueued ==> repost.Some? || post.Some?)
    }

    // The checks at the head of a turn: a recorded failure is raised, and a due poll of the controls is made.
    method TakeControls(m: Moment) returns (flow: Flow)
      requires !stop
      requires Valid() && child.Some?
      modifies this
      ensures Sound() && old(log) <= log && (!flow.Broke? ==> Valid() && child.Some?) && (old(stop) ==> stop)
      ensures flow.Onward? ==> !stop
      ensures !flow.Again? && old(faults) <= faults && (flow.Broke? ==> faults > old(faults)) && (flow.Leave? ==> stop)
      ensures restarts <= old(restarts) + 1
      ensures !flow.Broke? ==> restarts == old(restarts) + if m.Restarts() then 1 else 0
      ensures !flow.Broke? && post.Some? ==> old(post).Some?
      ensures FeedTidy() && SamplingAfter(old(feed), old(feedFailed)) && launchFailed == old(launchFailed)
    {
      hide Orderly, Issued, Alive, HeldBy, Clear, Fresh, Ended, ToldOnly, Tidy, FeedTidy;
      var failed := Fails();
      if failed { return Broke; }
      if m.controlsDue {
        var _, broke := PollRuntimeControls(m);
        if broke { return Broke; }
        var halt := ShouldStop();
        if halt { return Leave; }
      }
      return Onward;
    }

    method WatchAll(m: Moment) returns (flow: Flow)
      requires !stop
      requires Valid() && child.Some?
      modifies this
      ensures Sound() && old(log) <= log && (!flow.Broke? ==> Valid() && child.Some?) && (old(stop) ==> stop)
      ensures old(faults) <= faults && (flow.Broke? ==> faults > old(faults)) && (flow.Leave? ==> stop) && restarts == old(restarts)
      ensures flow.Again? ==> Fresh(old(log), log, child.value) && child.value in Alive(log) && repost.None? && post.None? && Dead(Alive(log), feed)
      ensures flow.Onward? ==> Fresh(old(log), log, child.value) && (gmail.Some? ==> Fresh(old(log), log, gmail.value))
      ensures flow.Onward? && feed.Some? ==> Fresh(old(log), log, feed.value)
      ensures flow.Onward? && m.feedDue && m.readable && m.wanted && !m.sampleRaises && !feedFailed ==> feed.Some?
      ensures flow.Onward? && enabled ==> SharersWatched(m, old(log), old(post))
      ensures FeedTidy() && SamplingAfter(old(feed), old(feedFailed)) && (old(launchFailed) ==> launchFailed)
    {
      hide Orderly, Issued, Alive, HeldBy, Clear, Fresh, Ended, ToldOnly, Tidy, FeedTidy, SharersWatched;
      flow := WatchGmail();
      if !flow.Onward? { return; }
      ghost var log1 := log;
      flow := WatchChild();
      if flow.Again? { FreshStays(old(log), log1, log, log, child.value); }
      if !flow.Onward? { return; }
      OneMore(log1, Looked(child.value));
      ghost var log2 := log;
      var raised := WatchSharers(m);
      flow := if raised then Broke else Onward;
      FreshStays(old(log), log1, log2, log, child.value);
      if gmail.Some? { FreshStays(old(log), old(log), log1, log, gmail.value); }
      if !raised { SharersSince(m, old(log), log2, old(post), old(post)); }
    }

    lemma SharersSince(m: Moment, before: seq<Event>, then_: seq<Event>, post0: Option<nat>, post1: Option<nat>)
      requires before <= then_ <= log && (post0.Some? ==> post1.Some?)
      requires feed.Some? ==> Fresh(then_, log, feed.value)
      ensures feed.Some? ==> Fresh(before, log, feed.value)
      ensures SharersWatched(m, then_, post0) ==> SharersWatched(m, before, post1)
    {
      hide Fresh;
      PairSince(m, before, then_);
      if feed.Some? { FreshStays(before, then_, log, log, feed.value); }
    }

    // One turn of the loop body. It leaves only for a stop, breaks only when something raised, and otherwise has seen
    // every child that is there, started what was due, and restarted exactly when asked.
    method Turn(m: Moment) returns (flow: Flow)
      requires !stop
      requires Valid() && child.Some?
      modifies this
      ensures Sound() && old(log) <= log && (!flow.Broke? ==> Valid() && child.Some?) && (old(stop) ==> stop)
      ensures old(faults) <= faults && (flow.Broke? ==> faults > old(faults)) && (flow.Leave? ==> stop)
      ensures restarts <= old(restarts) + 1
      ensures !flow.Broke? ==> restarts == old(restarts) + if m.Restarts() then 1 else 0
      ensures flow.Again? ==> Fresh(old(log), log, child.value) && child.value in Alive(log) && repost.None? && post.None? && Dead(Alive(log), feed)
      ensures flow.Onward? ==> Fresh(old(log), log, child.value) && (gmail.Some? ==> Fresh(old(log), log, gmail.value))
      ensures flow.Onward? && feed.Some? ==> Fresh(old(log), log, feed.value)
      ensures flow.Onward? && m.feedDue && m.readable && m.wanted && !m.sampleRaises && !feedFailed ==> feed.Some?
      ensures flow.Onward? && enabled ==> SharersWatched(m, old(log), old(post))
      ensures FeedTidy() && SamplingAfter(old(feed), old(feedFailed)) && (old(launchFailed) ==> launchFailed)
    {
      hide Orderly, Issued, Alive, HeldBy, Clear, Fresh, Ended, ToldOnly, Tidy, FeedTidy, SharersWatched;
      flow := TakeControls(m);
      if !flow.Onward? { return; }
      ghost var log1, post0 := log, post;
      flow := WatchAll(m);
      if flow.Again? || flow.Onward? { FreshStays(old(log), log1, log, log, child.value); }
      if flow.Onward? {
        if gmail.Some? { FreshStays(old(log), log1, log, log, gmail.value); }
        SharersSince(m, old(log), log1, post0, old(post));
      }
    }

    // What follows the loop: every child is stopped.
    method StopAll() returns (raised: bool)
      requires Valid() && child.Some?
      modifies this
      ensures Sound() && old(log) <= log && restarts == old(restarts) && stop == old(stop)
      ensures raised ==> faults > old(faults)
      ensures raised || Alive(log) == map[]
    {
      hide Orderly, Issued, Alive, HeldBy, Clear, Fresh, Ended, ToldOnly, Tidy, FeedTidy;
      raised := StopSharers();
      if raised { return; }
      raised := Stop(child.value);
      if raised { return; }
      if gmail.Some? {
        raised := Stop(gmail.value);
        if raised { return; }
      }
      if feed.Some? {
        feedFailed := true;
        raised := Stop(feed.value);
        if raised { return; }
      }
      AllDead(Alive(log), Hands());
    }

    // The first worker, and the Gmail worker if an account is mapped. Only a stop keeps them from being started.
    method Begin() returns (raised: bool)
      requires Valid() && child.None? && gmail.None? && Alive(log) == map[]
      modifies this`stop, this`log, this`nextId, this`child, this`gmail, this`faults
      ensures Sound() && old(log) <= log && (!raised ==> Valid()) && old(faults) <= faults && (raised ==> faults > old(faults))
      ensures !raised && child.None? ==> stop && Alive(log) == map[]
      ensures !raised && child.Some? ==> gmail.Some? == mailed
    {
      hide Orderly, Issued, Alive, HeldBy, Clear, Fresh, Ended, ToldOnly, Tidy, FeedTidy;
      raised := Fails();
      if raised { return; }
      var halt := ShouldStop();
      if halt { return false; }
      raised := StartChild();
      if raised { return; }
      if mailed {
        Freed(Alive(log), Hands(), Mailer);
        var raises := Happens();
        gmail := Launch(Mailer, raises);
        raised := gmail.None?;
      }
    }

    method StartChild() returns (raised: bool)
      requires !stop
      requires Valid() && child.None? && gmail.None? && Alive(log) == map[]
      modifies this`log, this`nextId, this`child, this`faults
      ensures Valid() && old(log) <= log && raised == child.None? && faults == old(faults) + (if raised then 1 else 0)
    {
      hide Orderly, Issued, Alive, HeldBy, Clear, Fresh, Ended, ToldOnly, Tidy, FeedTidy;
      Freed(Alive(log), Hands(), Browser);
      var raises := Happens();
      child := Launch(Browser, raises);
      raised := child.None?;
    }

    // A run through the given moments. Its log is orderly however it ends; it returns only for a stop, and then leaves
    // no child; and an exception escapes only if some call raised one.
    method Supervise(moments: seq<Moment>) returns (ending: Ending)
      requires Valid() && child.None? && gmail.None? && log == []
      modifies this
      ensures Sound()
      ensures ending.Returned? ==> stop && Alive(log) == map[]
      ensures ending.StillRunning? ==> Valid() && child.Some? && !stop
      ensures ending.Escaped? ==> faults > old(faults)
      ensures restarts <= old(restarts) + |moments|
    {
      assert Alive(log) == map[];
      hide Orderly, Issued, Alive, HeldBy, Clear, Fresh, Ended, ToldOnly, Tidy, FeedTidy;
      var n := 0;
      var raised := Begin();
      if raised { return Escaped; }
      if child.None? { return Returned; }
      var halt := ShouldStop();
      while n < |moments| && !halt
        invariant Valid() && child.Some? && n <= |moments| && restarts <= old(restarts) + n
        invariant halt == stop && old(faults) <= faults
      {
        var flow := Turn(moments[n]);
        if flow.Broke? { return Escaped; }
        if flow.Leave? {
          halt := true;
        } else {
          halt := ShouldStop();
        }
        n := n + 1;
      }
      if !halt { return StillRunning; }
      raised := Fails();
      if raised { return Escaped; }
      raised := StopAll();
      ending := if raised then Escaped else Returned;
    }
  }

  // The launch of a first sample raises: its start time is left without a child.
  method LaunchRaises(now: int) returns (s: Supervision)
    ensures fresh(s) && s.Valid() && s.launchFailed && s.feedStarted == Some(now) && s.feed.None?
  {
    s := new Supervision(true, true);
    s.BeginSample(true, true, now, true);
  }
}
