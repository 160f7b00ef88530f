/**
 Background draft jobs (`api/slack_reply_drafts.py`): a lease with a token decides who may publish a draft,
 and the shared draft artifact is replaced only by a job created after it was written.

 `now` of a transaction is when it started. It may be older than the commit it had to wait for.
 */
module DraftJobs {
  const LEASE_SECONDS := 110

  datatype Thread = Thread(lead: int, operator: string, external: string)

  datatype Status = Running | Ready | Failed

  datatype Job = Job(thread: Thread, view: string, status: Status, token: nat, leaseUntil: int, content: string, created: int)

  datatype Artifact = Artifact(content: string, updated: int)

  // What one invocation of the worker carries.
  datatype Data = Data(key: string, thread: Thread, view: string, retry: bool)

  datatype Claimed = Granted(token: nat) | AlreadyReady(content: string) | InProgress | NotFound | RetryRequired

  // Everything that took effect, in commit order.
  datatype Entry =
    | Grant(key: string, token: nat, now: int)
    | Save(key: string, token: nat, now: int)
    | Fail(key: string, token: nat, now: int)
    | Write(thread: Thread, created: int, now: int)

  // `workers` holds the granted invocations and the time their grant committed.
  datatype State = State(
    jobs: map<string, Job>, artifacts: map<Thread, Artifact>, workers: map<nat, (Data, int)>, clock: int, log: seq<Entry>)

  const Empty := State(map[], map[], map[], 0, [])

  // ----------------------------------------------------------------- transactions

  function Grants(s: State, d: Data, token: nat, now: int, job: Job): State {
    s.(jobs := s.jobs[d.key := job], workers := s.workers[token := (d, s.clock)], log := s.log + [Grant(d.key, token, now)])
  }

  // claim; `token` is the fresh random token.
  function Claim(s: State, d: Data, token: nat, now: int): (State, Claimed) {
    if !d.retry && d.key !in s.jobs then
      (Grants(s, d, token, now, Job(d.thread, d.view, Running, token, now + LEASE_SECONDS, "", now)), Granted(token))
    else if d.key !in s.jobs || s.jobs[d.key].thread != d.thread || s.jobs[d.key].view != d.view then (s, NotFound)
    else
      var job := s.jobs[d.key];
      if job.status == Ready then (s, AlreadyReady(job.content))
      else if job.status == Running && job.leaseUntil > now then (s, InProgress)
      else if !d.retry then (s, RetryRequired)
      else (Grants(s, d, token, now, job.(status := Running, token := token, leaseUntil := now + LEASE_SECONDS)), Granted(token))
  }

  predicate Holds(s: State, key: string, token: nat, now: int) {
    key in s.jobs && s.jobs[key].token == token && s.jobs[key].status == Running && s.jobs[key].leaseUntil > now
  }

  // save_result
  function SaveResult(s: State, d: Data, token: nat, content: string, now: int): (State, bool) {
    if !Holds(s, d.key, token, now) then (s, false)
    else
      var job := s.jobs[d.key];
      var saved := s.(jobs := s.jobs[d.key := job.(status := Ready, content := content)], log := s.log + [Save(d.key, token, now)]);
      if d.thread in s.artifacts && s.artifacts[d.thread].updated > job.created then (saved, true)
      else
        (saved.(artifacts := s.artifacts[d.thread := Artifact(content, now)],
                log := saved.log + [Write(d.thread, job.created, now)]), true)
  }

  // fail_job
  function FailJob(s: State, d: Data, token: nat, now: int): State {
    if d.key in s.jobs && s.jobs[d.key].token == token && s.jobs[d.key].status == Running
    then s.(jobs := s.jobs[d.key := s.jobs[d.key].(status := Failed)], log := s.log + [Fail(d.key, token, now)])
    else s
  }

  datatype Event =
    | Claims(data: Data, token: nat, now: int)
    | Saves(token: nat, content: string, now: int)
    | Fails(token: nat, now: int)
    | Passes(seconds: nat)

  // A worker acts only after its grant has committed, and no transaction starts in the future.
  function Step(s: State, e: Event): State {
    match e
    case Claims(d, token, now) => if token in s.workers || now > s.clock then s else Claim(s, d, token, now).0
    case Saves(token, content, now) =>
      if token in s.workers && s.workers[token].1 <= now <= s.clock then SaveResult(s, s.workers[token].0, token, content, now).0 else s
    case Fails(token, now) =>
      if token in s.workers && s.workers[token].1 <= now <= s.clock then FailJob(s, s.workers[token].0, token, now) else s
    case Passes(seconds) => s.(clock := s.clock + seconds)
  }

  function Run(s: State, events: seq<Event>): State
    decreases |events|
  {
    if events == [] then s else Run(Step(s, events[0]), events[1..])
  }

  // -------------------------------------------------------------- reading the log

  predicate About(e: Entry, key: string) {
    !e.Write? && e.key == key
  }

  // The last entry about a key, |log| when there is none.
  function Last(log: seq<Entry>, key: string): (i: nat)
    ensures i <= |log|
    ensures i < |log| ==> About(log[i], key) && forall k | i < k < |log| :: !About(log[k], key)
    ensures i == |log| ==> forall k | 0 <= k < |log| :: !About(log[k], key)
  {
    if log == [] then 0
    else
      var n := |log| - 1;
      if About(log[n], key) then n
      else
        var i := Last(log[..n], key);
        if i < n then i else n + 1
  }

  lemma {:induction false} LastGrows(log: seq<Entry>, e: Entry, key: string)
    ensures About(e, key) ==> Last(log + [e], key) == |log|
    ensures !About(e, key) ==> Last(log + [e], key) == if Last(log, key) < |log| then Last(log, key) else |log| + 1
  {
    assert (log + [e])[..|log|] == log;
  }

  lemma {:induction false} LastAtLeast(log: seq<Entry>, key: string, i: nat)
    requires i < |log| && About(log[i], key)
    ensures i <= Last(log, key) < |log|
    ensures (forall k | i < k < |log| :: !About(log[k], key)) ==> Last(log, key) == i
  {
    var m := Last(log, key);
  }

  // ------------------------------------------------------------------- invariant

  // The row of a job is what the last entry about it says.
  ghost predicate Tracked(s: State, key: string) {
    var i := Last(s.log, key);
    if i == |s.log| then key !in s.jobs
    else
      && key in s.jobs && s.log[i].token == s.jobs[key].token
      && s.jobs[key].status == (match s.log[i] case Grant(_, _, _) => Running case Save(_, _, _) => Ready case _ => Failed)
      && (s.log[i].Grant? ==> s.jobs[key].leaseUntil == s.log[i].now + LEASE_SECONDS)
      && s.jobs[key].token in s.workers
      && s.jobs[key].created <= s.workers[s.jobs[key].token].1
      && s.workers[s.jobs[key].token].0.key == key
      && s.workers[s.jobs[key].token].0.thread == s.jobs[key].thread
  }

  // What each entry says about those before it.
  ghost predicate Follows(log: seq<Entry>, j: nat)
    requires j < |log|
  {
    match log[j]
    case Grant(key, token, now) =>
      var i := Last(log[..j], key);
      // A grant follows nothing, a recorded failure, or a grant whose lease had run out.
      i == j || log[i].Fail? || (log[i].Grant? && log[i].now + LEASE_SECONDS <= now)
    case Save(key, token, now) =>
      var i := Last(log[..j], key);
      // A save comes from the latest grant, inside its lease.
      i < j && log[i].Grant? && log[i].token == token && now < log[i].now + LEASE_SECONDS
    case Fail(key, token, now) =>
      var i := Last(log[..j], key);
      i < j && log[i].Grant? && log[i].token == token
    case Write(thread, created, now) =>
      created <= now && forall i | 0 <= i < j && log[i].Write? && log[i].thread == thread :: log[i].now <= created
  }

  ghost predicate ArtifactCurrent(s: State, thread: Thread) {
    (forall i | 0 <= i < |s.log| && s.log[i].Write? && s.log[i].thread == thread ::
       thread in s.artifacts && s.log[i].now <= s.artifacts[thread].updated)
  }

  ghost predicate Inv(s: State) {
    && (forall key :: Tracked(s, key))
    && (forall j | 0 <= j < |s.log| :: Follows(s.log, j))
    && (forall thread :: ArtifactCurrent(s, thread))
    && (forall t | t in s.workers :: s.workers[t].1 <= s.clock)
  }

  lemma FollowsGrows(log: seq<Entry>, e: Entry)
    requires forall j | 0 <= j < |log| :: Follows(log, j)
    requires Follows(log + [e], |log|)
    ensures forall j | 0 <= j < |log + [e]| :: Follows(log + [e], j)
  {
    forall j | 0 <= j < |log + [e]| ensures Follows(log + [e], j) {
      if j < |log| {
        assert Follows(log, j);
        assert (log + [e])[..j] == log[..j];
      }
    }
  }

  // An appended entry about one key leaves what is tracked of the others.
  lemma OthersTracked(s: State, s1: State, e: Entry, key: string)
    requires Tracked(s, key) && !About(e, key) && s1.log == s.log + [e]
    requires key in s1.jobs <==> key in s.jobs
    requires key in s.jobs ==> s1.jobs[key] == s.jobs[key]
    requires forall t | t in s.workers :: t in s1.workers && s1.workers[t] == s.workers[t]
    ensures Tracked(s1, key)
  {
    LastGrows(s.log, e, key);
  }

  lemma ArtifactsStay(s: State, s1: State, e: Entry)
    requires s1.log == s.log + [e] && !e.Write? && s1.artifacts == s.artifacts
    requires forall thread :: ArtifactCurrent(s, thread)
    ensures forall thread :: ArtifactCurrent(s1, thread)
  {
    forall thread ensures ArtifactCurrent(s1, thread) {
      assert ArtifactCurrent(s, thread);
    }
  }

  lemma ClaimFollows(s: State, d: Data, token: nat, now: int)
    requires Tracked(s, d.key) && Claim(s, d, token, now).1.Granted?
    ensures Follows(s.log + [Grant(d.key, token, now)], |s.log|)
  {
    assert (s.log + [Grant(d.key, token, now)])[..|s.log|] == s.log;
  }

  lemma ClaimTracked(s: State, d: Data, token: nat, now: int)
    requires Tracked(s, d.key) && Claim(s, d, token, now).1.Granted? && now <= s.clock && token !in s.workers
    requires forall t | t in s.workers :: s.workers[t].1 <= s.clock
    ensures Tracked(Claim(s, d, token, now).0, d.key)
  {
    LastGrows(s.log, Grant(d.key, token, now), d.key);
  }

  // What a grant changes; any other answer changes nothing.
  lemma ClaimGrants(s: State, d: Data, token: nat, now: int)
    requires token !in s.workers && now <= s.clock
    ensures var (s1, r) := Claim(s, d, token, now);
            if !r.Granted? then s1 == s
            else
              && s1.log == s.log + [Grant(d.key, token, now)] && s1.artifacts == s.artifacts && s1.clock == s.clock
              && (forall key | key != d.key :: (key in s1.jobs <==> key in s.jobs) && (key in s.jobs ==> s1.jobs[key] == s.jobs[key]))
              && (forall t | t in s.workers :: t in s1.workers && s1.workers[t] == s.workers[t])
              && (forall t | t in s1.workers && t !in s.workers :: s1.workers[t].1 <= s.clock)
  {
  }

  lemma ClaimKeeps(s: State, d: Data, token: nat, now: int)
    requires Inv(s) && token !in s.workers && now <= s.clock
    ensures Inv(Claim(s, d, token, now).0)
  {
    hide Follows, Tracked, ArtifactCurrent, Claim;
    var (s1, r) := Claim(s, d, token, now);
    ClaimGrants(s, d, token, now);
    if r.Granted? {
      var e := Grant(d.key, token, now);
      assert Tracked(s, d.key);
      ClaimFollows(s, d, token, now);
      ClaimTracked(s, d, token, now);
      FollowsGrows(s.log, e);
      forall key ensures Tracked(s1, key) {
        assert Tracked(s, key);
        if key != d.key { OthersTracked(s, s1, e, key); }
      }
      ArtifactsStay(s, s1, e);
    }
  }

  // save_result up to the artifact.
  function Marked(s: State, key: string, token: nat, content: string, now: int): State
    requires key in s.jobs
  {
    s.(jobs := s.jobs[key := s.jobs[key].(status := Ready, content := content)], log := s.log + [Save(key, token, now)])
  }

  lemma MarkKeeps(s: State, key: string, token: nat, content: string, now: int)
    requires Inv(s) && Holds(s, key, token, now)
    ensures Inv(Marked(s, key, token, content, now))
  {
    var s1, e := Marked(s, key, token, content, now), Save(key, token, now);
    assert Tracked(s, key);
    assert (s.log + [e])[..|s.log|] == s.log;
    FollowsGrows(s.log, e);
    LastGrows(s.log, e, key);
    hide Follows, ArtifactCurrent;
    forall other ensures Tracked(s1, other) {
      assert Tracked(s, other);
      if other != key { OthersTracked(s, s1, e, other); }
    }
    ArtifactsStay(s, s1, e);
  }

  lemma WriteKeeps(s: State, thread: Thread, content: string, created: int, now: int)
    requires Inv(s) && created <= now && (thread in s.artifacts ==> s.artifacts[thread].updated <= created)
    ensures Inv(s.(artifacts := s.artifacts[thread := Artifact(content, now)], log := s.log + [Write(thread, created, now)]))
  {
    var e := Write(thread, created, now);
    var s1 := s.(artifacts := s.artifacts[thread := Artifact(content, now)], log := s.log + [e]);
    assert ArtifactCurrent(s, thread);
    assert Follows(s.log + [e], |s.log|);
    FollowsGrows(s.log, e);
    hide Follows, Tracked;
    forall key ensures Tracked(s1, key) {
      assert Tracked(s, key);
      OthersTracked(s, s1, e, key);
    }
    forall other ensures ArtifactCurrent(s1, other) { assert ArtifactCurrent(s, other); }
  }

  lemma SaveKeeps(s: State, token: nat, content: string, now: int)
    requires Inv(s) && token in s.workers && s.workers[token].1 <= now <= s.clock
    ensures Inv(SaveResult(s, s.workers[token].0, token, content, now).0)
  {
    var d := s.workers[token].0;
    if Holds(s, d.key, token, now) {
      assert Tracked(s, d.key);
      var job := s.jobs[d.key];
      MarkKeeps(s, d.key, token, content, now);
      hide Inv, Tracked, Follows, ArtifactCurrent;
      if !(d.thread in s.artifacts && s.artifacts[d.thread].updated > job.created) {
        WriteKeeps(Marked(s, d.key, token, content, now), d.thread, content, job.created, now);
      }
    }
  }

  lemma FailKeeps(s: State, token: nat, now: int)
    requires Inv(s) && token in s.workers
    ensures Inv(FailJob(s, s.workers[token].0, token, now))
  {
    var d := s.workers[token].0;
    var s1 := FailJob(s, d, token, now);
    if s1 != s {
      var e := Fail(d.key, token, now);
      assert Tracked(s, d.key);
      assert s1.log == s.log + [e] && (s.log + [e])[..|s.log|] == s.log;
      FollowsGrows(s.log, e);
      forall key ensures Tracked(s1, key) {
        assert Tracked(s, key);
        LastGrows(s.log, e, key);
      }
      forall thread ensures ArtifactCurrent(s1, thread) {
        assert ArtifactCurrent(s, thread);
      }
    }
  }

  lemma StepKeeps(s: State, e: Event)
    requires Inv(s)
    ensures Inv(Step(s, e))
  {
    hide Claim, SaveResult, FailJob;
    match e {
      case Claims(d, token, now) => if token !in s.workers && now <= s.clock { ClaimKeeps(s, d, token, now); }
      case Saves(token, content, now) =>
        if token in s.workers && s.workers[token].1 <= now <= s.clock { SaveKeeps(s, token, content, now); }
      case Fails(token, now) =>
        if token in s.workers && s.workers[token].1 <= now <= s.clock { FailKeeps(s, token, now); }
      case Passes(seconds) =>
        var s1 := s.(clock := s.clock + seconds);
        forall key ensures Tracked(s1, key) { assert Tracked(s, key); }
        forall thread ensures ArtifactCurrent(s1, thread) { assert ArtifactCurrent(s, thread); }
    }
  }

  lemma {:induction false} RunKeeps(s: State, events: seq<Event>)
    requires Inv(s)
    ensures Inv(Run(s, events))
    decreases |events|
  {
    hide Inv, Step;
    if events != [] {
      StepKeeps(s, events[0]);
      RunKeeps(Step(s, events[0]), events[1..]);
    }
  }

  lemma {:induction false} RunInv(events: seq<Event>)
    ensures Inv(Run(Empty, events))
  {
    assert forall key :: Tracked(Empty, key);
    RunKeeps(Empty, events);
  }

  // -------------------------------------------------------------------- theorems

  // Successive grants of one request never overlap: the later one starts after the earlier lease ended, or
  // after the earlier holder recorded its failure.
  lemma {:induction false} GrantsDoNotOverlap(events: seq<Event>, i: nat, j: nat)
    requires var log := Run(Empty, events).log;
             && i < j < |log| && log[i].Grant? && log[j].Grant? && log[i].key == log[j].key
             && (forall k | i < k < j :: !(log[k].Grant? && log[k].key == log[i].key))
    ensures var log := Run(Empty, events).log;
            || log[i].now + LEASE_SECONDS <= log[j].now
            || exists k | i < k < j :: log[k] == Fail(log[i].key, log[i].token, log[k].now)
  {
    RunInv(events);
    var log := Run(Empty, events).log;
    var key, m := log[i].key, Last(log[..j], log[j].key);
    assert Follows(log, j);
    LastAtLeast(log[..j], key, i);
    if m > i {
      assert log[m].Fail? && Follows(log, m);
      LastAtLeast(log[..m], key, i);
      assert log[Last(log[..m], key)].Grant?;
      assert log[m] == Fail(key, log[i].token, log[m].now);
    }
  }

  // After a save nothing about its request ever takes effect again.
  lemma {:induction false} SaveIsFinal(log: seq<Entry>, i: nat, j: nat)
    requires forall k | 0 <= k < |log| :: Follows(log, k)
    requires i < j < |log| && log[i].Save?
    ensures !About(log[j], log[i].key)
    decreases j
  {
    var key := log[i].key;
    assert Follows(log, j);
    forall k | i < k < j ensures !About(log[k], key) { SaveIsFinal(log, i, k); }
    LastAtLeast(log[..j], key, i);
  }

  // At most one save per request ever succeeds, and it comes from the request's latest grant, inside its
  // lease: a replaced or expired worker publishes nothing.
  lemma {:induction false} OneTimelySave(events: seq<Event>, j: nat)
    requires var log := Run(Empty, events).log; j < |log| && log[j].Save?
    ensures var log := Run(Empty, events).log;
            && (forall i | 0 <= i < |log| && i != j :: !(log[i].Save? && log[i].key == log[j].key))
            && (exists i | 0 <= i < j :: log[i].Grant? && log[i].key == log[j].key && log[i].token == log[j].token
                  && log[j].now < log[i].now + LEASE_SECONDS && (forall k | i < k < j :: !About(log[k], log[j].key)))
  {
    RunInv(events);
    var log := Run(Empty, events).log;
    forall i | 0 <= i < |log| && i != j ensures !(log[i].Save? && log[i].key == log[j].key) {
      if log[i].Save? {
        if i < j { SaveIsFinal(log, i, j); } else { SaveIsFinal(log, j, i); }
      }
    }
    assert Follows(log, j);
    var i := Last(log[..j], log[j].key);
    assert log[i].Grant?;
    forall k | i < k < j ensures !About(log[k], log[j].key) { assert !About(log[..j][k], log[j].key); }
  }

  // The writers of one shared artifact: each was created no earlier than the previous one saved.
  lemma {:induction false} WritersTakeTurns(events: seq<Event>, i: nat, j: nat)
    requires var log := Run(Empty, events).log;
             i < j < |log| && log[i].Write? && log[j].Write? && log[i].thread == log[j].thread
    ensures var log := Run(Empty, events).log;
            log[i].created <= log[i].now <= log[j].created <= log[j].now
  {
    RunInv(events);
    var log := Run(Empty, events).log;
    assert Follows(log, i) && Follows(log, j);
  }

  // A ready draft never changes again.
  lemma ReadyStep(s: State, e: Event, key: string)
    requires key in s.jobs && s.jobs[key].status == Ready
    ensures key in Step(s, e).jobs && Step(s, e).jobs[key] == s.jobs[key]
  {
  }

  lemma {:induction false} ReadyIsFrozen(s: State, events: seq<Event>, key: string)
    requires key in s.jobs && s.jobs[key].status == Ready
    ensures key in Run(s, events).jobs && Run(s, events).jobs[key] == s.jobs[key]
    decreases |events|
  {
    hide Step;
    if events != [] {
      ReadyStep(s, events[0], key);
      ReadyIsFrozen(Step(s, events[0]), events[1..], key);
    }
  }

  // A job that failed or lost its lease is granted again only to an explicit retry from the same modal.
  lemma OnlyRetriesReclaim(s: State, d: Data, token: nat, now: int)
    requires d.key in s.jobs
    ensures Claim(s, d, token, now).1.Granted? <==>
              (d.retry && s.jobs[d.key].thread == d.thread && s.jobs[d.key].view == d.view
               && (s.jobs[d.key].status == Failed || (s.jobs[d.key].status == Running && s.jobs[d.key].leaseUntil <= now)))
  {
  }

  // ------------------------------------------------- every answer, and what it leaves

  // The request is new, and not a retry of one that is gone.
  predicate FirstClaim(s: State, d: Data) {
    !d.retry && d.key !in s.jobs
  }

  predicate SameModal(s: State, d: Data) {
    d.key in s.jobs && s.jobs[d.key].thread == d.thread && s.jobs[d.key].view == d.view
  }

  predicate Leased(s: State, key: string, now: int) {
    key in s.jobs && s.jobs[key].status == Running && s.jobs[key].leaseUntil > now
  }

  // A new request is always granted, an existing one answers by what became of it; a grant is a lease of 110 seconds
  // under the new token, and any other answer changes nothing.
  lemma ClaimTable(s: State, d: Data, token: nat, now: int)
    ensures var (s1, answer) := Claim(s, d, token, now);
            && (FirstClaim(s, d) ==> answer == Granted(token))
            && (!FirstClaim(s, d) ==> (answer == NotFound <==> !SameModal(s, d)))
            && (SameModal(s, d) ==>
                  && (forall content :: answer == AlreadyReady(content) <==> s.jobs[d.key].status == Ready && content == s.jobs[d.key].content)
                  && (answer == InProgress <==> Leased(s, d.key, now))
                  && (s.jobs[d.key].status != Ready && !Leased(s, d.key, now) ==> answer == if d.retry then Granted(token) else RetryRequired))
    ensures var (s1, answer) := Claim(s, d, token, now);
            if answer != Granted(token) then s1 == s
            else
              && s1.clock == s.clock && s1.artifacts == s.artifacts && s1.jobs.Keys == s.jobs.Keys + {d.key}
              && (forall key | key in s.jobs && key != d.key :: s1.jobs[key] == s.jobs[key])
              && s1.workers == s.workers[token := (d, s.clock)] && s1.log == s.log + [Grant(d.key, token, now)]
              && s1.jobs[d.key] == Job(d.thread, d.view, Running, token, now + 110,
                                       if d.key in s.jobs then s.jobs[d.key].content else "", if d.key in s.jobs then s.jobs[d.key].created else now)
  {
  }

  // The lease decides alone whether a save counts. It publishes the draft to its modal, and to the thread unless what
  // is there was written after the job was created.
  lemma SaveTable(s: State, d: Data, token: nat, content: string, now: int)
    ensures var (s1, saved) := SaveResult(s, d, token, content, now);
            && (saved <==> Leased(s, d.key, now) && s.jobs[d.key].token == token)
            && (!saved ==> s1 == s)
            && (saved ==>
                  && s1 == s.(jobs := s.jobs[d.key := s.jobs[d.key].(status := Ready, content := content)], artifacts := s1.artifacts, log := s1.log)
                  && if d.thread in s.artifacts && s.artifacts[d.thread].updated > s.jobs[d.key].created
                     then s1.artifacts == s.artifacts && s1.log == s.log + [Save(d.key, token, now)]
                     else
                       && s1.artifacts == s.artifacts[d.thread := Artifact(content, now)]
                       && s1.log == s.log + [Save(d.key, token, now), Write(d.thread, s.jobs[d.key].created, now)])
  {
  }

  // Only the holder of the token fails a job, even after its lease, and then only one that is still running.
  lemma FailTable(s: State, d: Data, token: nat, now: int)
    ensures var s1 := FailJob(s, d, token, now);
            var mine := d.key in s.jobs && s.jobs[d.key].token == token && s.jobs[d.key].status == Running;
            && s1 == s.(jobs := s1.jobs, log := if mine then s.log + [Fail(d.key, token, now)] else s.log)
            && s1.jobs.Keys == s.jobs.Keys
            && (forall key | key in s.jobs :: s1.jobs[key] == if mine && key == d.key then s.jobs[key].(status := Failed) else s.jobs[key])
  {
  }

  // A worker that saves within its lease serves its draft to every later claim from the same modal.
  lemma {:induction false} GrantedDraftIsServed(s: State, d: Data, token: nat, wait: nat, content: string)
    requires token !in s.workers && Claim(s, d, token, s.clock).1 == Granted(token) && wait < 110
    ensures var s1 := Run(s, [Claims(d, token, s.clock), Passes(wait), Saves(token, content, s.clock + wait)]);
            && d.key in s1.jobs && s1.jobs[d.key].status == Ready && s1.clock == s.clock + wait
            && forall retry, token', now :: Claim(s1, d.(retry := retry), token', now) == (s1, AlreadyReady(content))
  {
    var events := [Claims(d, token, s.clock), Passes(wait), Saves(token, content, s.clock + wait)];
    var s1 := Claim(s, d, token, s.clock).0;
    var s2 := s1.(clock := s.clock + wait);
    var s3 := SaveResult(s2, d, token, content, s.clock + wait).0;
    ClaimTable(s, d, token, s.clock);
    SaveTable(s2, d, token, content, s.clock + wait);
    hide Claim, SaveResult;
    assert Step(s, events[0]) == s1 && Step(s1, events[1]) == s2 && Step(s2, events[2]) == s3;
    RunThree(s, events[0], events[1], events[2]);
    forall retry, token', now ensures Claim(s3, d.(retry := retry), token', now) == (s3, AlreadyReady(content)) {
      ClaimTable(s3, d.(retry := retry), token', now);
    }
  }

  // A worker that fails, or outlives its lease, gives way to an explicit retry.
  lemma {:induction false} LostDraftIsRetried(s: State, d: Data, token: nat, wait: nat, fails: bool, token': nat)
    requires token !in s.workers && Claim(s, d, token, s.clock).1 == Granted(token) && (fails || wait >= 110)
    ensures var s1 := Run(s, [Claims(d, token, s.clock), Passes(wait), if fails then Fails(token, s.clock + wait) else Passes(0)]);
            && Claim(s1, d.(retry := true), token', s1.clock).1 == Granted(token')
            && Claim(s1, d.(retry := false), token', s1.clock).1 == RetryRequired
  {
    var events := [Claims(d, token, s.clock), Passes(wait), if fails then Fails(token, s.clock + wait) else Passes(0)];
    var s1 := Claim(s, d, token, s.clock).0;
    var s2 := s1.(clock := s.clock + wait);
    var s3 := if fails then FailJob(s2, d, token, s.clock + wait) else s2;
    ClaimTable(s, d, token, s.clock);
    FailTable(s2, d, token, s.clock + wait);
    hide Claim, FailJob;
    assert Step(s, events[0]) == s1 && Step(s1, events[1]) == s2 && Step(s2, events[2]) == s3;
    RunThree(s, events[0], events[1], events[2]);
    ClaimTable(s3, d.(retry := true), token', s3.clock);
    ClaimTable(s3, d.(retry := false), token', s3.clock);
  }

  lemma {:induction false} RunThree(s: State, a: Event, b: Event, c: Event)
    ensures Run(s, [a, b, c]) == Step(Step(Step(s, a), b), c)
  {
    hide Step;
    assert [a, b, c][1..] == [b, c] && [b, c][1..] == [c] && [c][1..] == [];
    assert Run(Step(s, a), [b, c]) == Run(Step(Step(s, a), b), [c]);
  }

  // ------------------------------------------------------------- the tables in place

  class DraftStore {
    var jobs: map<string, Job>
    var artifacts: map<Thread, Artifact>
    ghost var workers: map<nat, (Data, int)>
    ghost var clock: int
    ghost var log: seq<Entry>

    ghost function Rows(): State
      reads this
    {
      State(jobs, artifacts, workers, clock, log)
    }

    constructor ()
      ensures Rows() == Empty
    {
      jobs, artifacts, workers, clock, log := map[], map[], map[], 0, [];
    }

    method ClaimJob(d: Data, token: nat, now: int) returns (claimed: Claimed)
      modifies this
      ensures (Rows(), claimed) == Claim(old(Rows()), d, token, now)
    {
      if !d.retry && d.key !in jobs {
        jobs := jobs[d.key := Job(d.thread, d.view, Running, token, now + LEASE_SECONDS, "", now)];
        workers, log := workers[token := (d, clock)], log + [Grant(d.key, token, now)];
        return Granted(token);
      }
      if d.key !in jobs || jobs[d.key].thread != d.thread || jobs[d.key].view != d.view {
        return NotFound;
      }
      var job := jobs[d.key];
      if job.status == Ready {
        return AlreadyReady(job.content);
      }
      if job.status == Running && job.leaseUntil > now {
        return InProgress;
      }
      if !d.retry {
        return RetryRequired;
      }
      jobs := jobs[d.key := job.(status := Running, token := token, leaseUntil := now + LEASE_SECONDS)];
      workers, log := workers[token := (d, clock)], log + [Grant(d.key, token, now)];
      return Granted(token);
    }

    method Save(d: Data, token: nat, content: string, now: int) returns (saved: bool)
      modifies this
      ensures (Rows(), saved) == SaveResult(old(Rows()), d, token, content, now)
    {
      if d.key !in jobs || jobs[d.key].token != token || jobs[d.key].status != Running || jobs[d.key].leaseUntil <= now {
        return false;
      }
      var job := jobs[d.key];
      jobs := jobs[d.key := job.(status := Ready, content := content)];
      log := log + [Entry.Save(d.key, token, now)];
      if d.thread !in artifacts || artifacts[d.thread].updated <= job.created {
        artifacts := artifacts[d.thread := Artifact(content, now)];
        log := log + [Write(d.thread, job.created, now)];
      }
      return true;
    }

    method RecordFailure(d: Data, token: nat, now: int)
      modifies this
      ensures Rows() == FailJob(old(Rows()), d, token, now)
    {
      if d.key in jobs && jobs[d.key].token == token && jobs[d.key].status == Running {
        jobs := jobs[d.key := jobs[d.key].(status := Failed)];
        log := log + [Fail(d.key, token, now)];
      }
    }
  }
}
