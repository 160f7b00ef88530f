/**
 Delivery of completion notices (`linkedin/campaign_callbacks.py`): one row per submission, stamped with an
 attempt number and a lease before each POST, and given up 48 hours after the notice was frozen.
 Times are seconds.
 */
module Callbacks {
  import opened Outcomes

  const LEASE := 300
  const WINDOW := 172800

  // `url` is "" for notices handed over locally.
  datatype Row = Row(
    url: string, payload: string, readyAt: Option<int>, deliveredAt: Option<int>, abandonedAt: Option<int>,
    nextAt: Option<int>, attempts: nat, error: string)

  function Power(n: nat): (p: nat)
    ensures p >= 1
  {
    if n == 0 then 1 else 2 * Power(n - 1)
  }

  function Backoff(attempt: nat): int {
    Min(3600, 30 * Power(Min(attempt, 7)))
  }

  // ----------------------------------------------------------------- transactions

  // Freeze the outcome into the payload, once.
  function Freeze(r: Row, payload: string, now: int): Row {
    if r.readyAt.Some? then r else r.(payload := payload, readyAt := Some(now))
  }

  predicate Due(r: Row, now: int) {
    r.url != "" && r.readyAt.Some? && r.deliveredAt.None? && r.abandonedAt.None? && (r.nextAt.None? || r.nextAt.value <= now)
  }

  // Claim one attempt, or give the notice up; `now` was read before the rows were selected.
  function Begin(r: Row, now: int): (Row, Option<nat>) {
    if !Due(r, now) then (r, None)
    else if now - r.readyAt.value >= WINDOW then (r.(abandonedAt := Some(now), error := "delivery_window_expired"), None)
    else (r.(attempts := r.attempts + 1, nextAt := Some(now + LEASE)), Some(r.attempts + 1))
  }

  // Record the answer to an attempt, unless a newer attempt has begun.
  function Finish(r: Row, attempt: nat, ok: bool, error: string, now: int): Row {
    if r.attempts != attempt || r.deliveredAt.Some? then r
    else r.(error := if ok then "" else error, deliveredAt := if ok then Some(now) else None,
            nextAt := if ok then None else Some(now + Backoff(attempt)))
  }

  // acknowledge_local_outcomes, for one receipt.
  function Acknowledge(r: Row, now: int): Row {
    if r.url == "" && r.readyAt.Some? && r.deliveredAt.None? then r.(deliveredAt := Some(now)) else r
  }

  // -------------------------------------------------------------------------- runs

  // `stamps` are the times written at each claim.
  datatype State = State(row: Row, stamps: seq<int>)

  datatype Event =
    | Frozen(payload: string, now: int)
    | Begun(now: int)
    | Finished(attempt: nat, ok: bool, error: string, now: int)
    | Acknowledged(now: int)

  function Step(s: State, e: Event): State {
    match e
    case Frozen(payload, now) => s.(row := Freeze(s.row, payload, now))
    case Begun(now) =>
      var (row, attempt) := Begin(s.row, now);
      State(row, if attempt.Some? then s.stamps + [now] else s.stamps)
    // An answer is recorded after its attempt was stamped.
    case Finished(attempt, ok, error, now) =>
      if 0 < attempt <= |s.stamps| && s.stamps[attempt - 1] <= now then s.(row := Finish(s.row, attempt, ok, error, now)) else s
    case Acknowledged(now) => s.(row := Acknowledge(s.row, now))
  }

  function Run(s: State, events: seq<Event>): State
    decreases |events|
  {
    if events == [] then s else Run(Step(s, events[0]), events[1..])
  }

  function New(url: string): State {
    State(Row(url, "", None, None, None, None, 0, ""), [])
  }

  // ------------------------------------------------------------------- invariant

  // The least time between attempt `k` and the next: a recorded failure backs off, a crash waits the lease.
  function Gap(k: nat): int {
    Min(LEASE, Backoff(k))
  }

  ghost predicate Spaced(stamps: seq<int>) {
    forall k | 0 < k < |stamps| :: stamps[k] >= stamps[k - 1] + Gap(k)
  }

  ghost predicate Inv(s: State) {
    && s.row.attempts == |s.stamps| && Spaced(s.stamps)
    && (s.stamps != [] ==> s.row.readyAt.Some?)
    && (s.row.readyAt.Some? ==> forall k | 0 <= k < |s.stamps| :: s.stamps[k] - s.row.readyAt.value < WINDOW)
    && (s.stamps != [] && s.row.deliveredAt.None? ==>
          s.row.nextAt.Some? && s.row.nextAt.value >= s.stamps[|s.stamps| - 1] + Gap(|s.stamps|))
  }

  lemma StepKeeps(s: State, e: Event)
    requires Inv(s)
    ensures Inv(Step(s, e))
  {
    hide Power;
  }

  lemma {:induction false} RunKeeps(s: State, events: seq<Event>)
    requires Inv(s)
    ensures Inv(Run(s, events))
    decreases |events|
  {
    hide Inv, Step;
    if events != [] {
      StepKeeps(s, events[0]);
      RunKeeps(Step(s, events[0]), events[1..]);
    }
  }

  // ------------------------------------------------------------------- the bound

  // The earliest time of attempt `k`, counted from the first.
  function Earliest(k: nat): int
    requires k > 0
  {
    if k == 1 then 0 else if k == 2 then 60 else if k == 3 then 180 else 420 + 300 * (k - 4)
  }

  lemma Gaps(k: nat)
    requires k > 0
    ensures Gap(k) == Earliest(k + 1) - Earliest(k)
    ensures if k <= 3 then Backoff(k) == Gap(k) else Gap(k) == LEASE
  {
    assert Power(0) == 1 && Power(1) == 2 && Power(2) == 4 && Power(3) == 8 && Power(4) == 16;
    assert Power(5) == 32 && Power(6) == 64 && Power(7) == 128;
    if k >= 7 { assert Min(k, 7) == 7; } else { assert k == 1 || k == 2 || k == 3 || k == 4 || k == 5 || k == 6; }
  }

  lemma {:induction false} NotEarlier(stamps: seq<int>, k: nat)
    requires Spaced(stamps) && k < |stamps|
    ensures stamps[k] >= stamps[0] + Earliest(k + 1)
  {
    if k > 0 {
      NotEarlier(stamps, k - 1);
      Gaps(k);
    }
  }

  // However workers crash, retry and overlap, a notice is attempted at most 578 times, provided its first
  // attempt was not stamped more than two minutes before the notice was frozen.
  lemma {:induction false} AttemptsBounded(url: string, events: seq<Event>)
    ensures var s := Run(New(url), events);
            && |s.stamps| == s.row.attempts
            && (s.stamps != [] ==> s.row.readyAt.Some?)
            && (s.stamps != [] && s.row.readyAt.value <= s.stamps[0] + 120 ==> s.row.attempts <= 578)
  {
    RunKeeps(New(url), events);
    var s := Run(New(url), events);
    if s.stamps != [] && s.row.readyAt.value <= s.stamps[0] + 120 {
      NotEarlier(s.stamps, |s.stamps| - 1);
    }
  }

  // ------------------------------------------------------- the bound is attained

  // Three recorded failures, then nothing but crashes, each attempt as early as it can be.
  function Hurried(start: int, k: nat): seq<Event>
  {
    if k == 0 then []
    else
      var t := start + Earliest(k);
      Hurried(start, k - 1) + [Begun(t)] + if k <= 3 then [Finished(k, false, "timeout", t)] else []
  }

  ghost predicate Hurries(s: State, start: int, ready: int, k: nat) {
    && s.row.url != "" && s.row.readyAt == Some(ready) && s.row.deliveredAt.None? && s.row.abandonedAt.None?
    && s.row.attempts == |s.stamps| == k
    && (if k == 0 then s.row.nextAt.None?
        else s.stamps[k - 1] == start + Earliest(k) && s.stamps[0] == start && s.row.nextAt == Some(start + Earliest(k + 1)))
  }

  lemma {:induction false} RunThen(s: State, first: seq<Event>, rest: seq<Event>)
    ensures Run(s, first + rest) == Run(Run(s, first), rest)
    decreases |first|
  {
    hide Step;
    if first == [] {
      assert first + rest == rest;
    } else {
      assert (first + rest)[1..] == first[1..] + rest;
      RunThen(Step(s, first[0]), first[1..], rest);
    }
  }

  lemma {:induction false} RunOne(s: State, e: Event)
    ensures Run(s, [e]) == Step(s, e)
  {
    hide Step;
    assert [e][1..] == [];
  }

  lemma EarliestFirst(k: nat)
    requires k > 0
    ensures Earliest(1) == 0 && Earliest(k) >= 0
  {
  }

  lemma {:induction false} HurriedRuns(s: State, start: int, ready: int, k: nat)
    requires Hurries(s, start, ready, 0) && (k > 0 ==> start + Earliest(k) - ready < WINDOW)
    ensures Hurries(Run(s, Hurried(start, k)), start, ready, k)
  {
    if k > 0 {
      HurriedRuns(s, start, ready, k - 1);
      Gaps(k);
      EarliestFirst(k);
      hide Power, Backoff, Gap, Earliest;
      var t := start + Earliest(k);
      var s0 := Run(s, Hurried(start, k - 1));
      var s1 := Step(s0, Begun(t));
      var answer := if k <= 3 then [Finished(k, false, "timeout", t)] else [];
      RunThen(s, Hurried(start, k - 1), [Begun(t)]);
      RunOne(s0, Begun(t));
      RunThen(s, Hurried(start, k - 1) + [Begun(t)], answer);
      if k <= 3 { RunOne(s1, answer[0]); } else { assert Run(s1, []) == s1; }
    }
  }

  // A run that freezes a notice at `ready`, first attempts it at 0, and attempts it `k` times.
  ghost predicate Reaches(events: seq<Event>, ready: int, k: nat) {
    var s := Run(New("https://host"), events);
    s.row.attempts == |s.stamps| == k && k > 0 && s.stamps[0] == 0 && s.row.readyAt == Some(ready)
  }

  // A notice frozen at its first attempt can be attempted 578 times; one whose first stamp is 121 seconds
  // older than its freeze, 579 times.
  lemma BoundAttained()
    ensures exists events :: Reaches(events, 0, 578)
    ensures exists events :: Reaches(events, 121, 579)
  {
    Attained(0, 578);
    Attained(121, 579);
  }

  lemma {:induction false} Attained(ready: int, k: nat)
    requires k > 0 && Earliest(k) - ready < WINDOW
    ensures Reaches([Frozen("outcome", ready)] + Hurried(0, k), ready, k)
  {
    var s := Step(New("https://host"), Frozen("outcome", ready));
    RunOne(New("https://host"), Frozen("outcome", ready));
    RunThen(New("https://host"), [Frozen("outcome", ready)], Hurried(0, k));
    HurriedRuns(s, 0, ready, k);
  }

  // ---------------------------------------------------------------- what never changes

  // The payload never changes once the notice is ready, and neither does the time it became ready.
  lemma {:induction false} PayloadFrozen(s: State, events: seq<Event>)
    requires s.row.readyAt.Some?
    ensures var r := Run(s, events).row; r.payload == s.row.payload && r.readyAt == s.row.readyAt
    decreases |events|
  {
    if events != [] { PayloadFrozen(Step(s, events[0]), events[1..]); }
  }

  // A delivered receipt is never cleared or rewritten, and no attempt begins after it.
  lemma {:induction false} DeliveredForever(s: State, events: seq<Event>)
    requires s.row.deliveredAt.Some?
    ensures var r := Run(s, events).row; r.deliveredAt == s.row.deliveredAt && r.attempts == s.row.attempts
    decreases |events|
  {
    if events != [] { DeliveredForever(Step(s, events[0]), events[1..]); }
  }

  lemma {:induction false} AbandonedForever(s: State, events: seq<Event>)
    requires s.row.abandonedAt.Some?
    ensures var r := Run(s, events).row; r.abandonedAt == s.row.abandonedAt && r.attempts == s.row.attempts
    decreases |events|
  {
    if events != [] { AbandonedForever(Step(s, events[0]), events[1..]); }
  }

  // A late answer to an attempt is as if it had never arrived, wherever it lands after a newer claim.
  lemma {:induction false} LateAnswerIsNothing(s: State, before: seq<Event>, attempt: nat, ok: bool, error: string, now: int, after: seq<Event>)
    requires attempt < Run(s, before).row.attempts
    ensures Run(s, before + [Finished(attempt, ok, error, now)] + after) == Run(s, before + after)
  {
    var e := Finished(attempt, ok, error, now);
    RunThen(s, before, [e]);
    RunOne(Run(s, before), e);
    RunThen(s, before + [e], after);
    RunThen(s, before, after);
  }

  // ------------------------------------------------------------- what each step does

  // Seconds to wait after the answer to attempt `k` was an error: doubled from one minute, at most an hour.
  lemma BackoffTable(k: nat)
    ensures k == 1 ==> Backoff(k) == 60
    ensures k == 2 ==> Backoff(k) == 120
    ensures k == 3 ==> Backoff(k) == 240
    ensures k == 4 ==> Backoff(k) == 480
    ensures k == 5 ==> Backoff(k) == 960
    ensures k == 6 ==> Backoff(k) == 1920
    ensures k >= 7 ==> Backoff(k) == 3600
  {
    assert Power(4) == 16;
    assert Power(7) == 128;
  }

  // The notice is to be POSTed now.
  predicate Waits(r: Row, now: int) {
    r.url != "" && r.readyAt.Some? && r.deliveredAt.None? && r.abandonedAt.None? && !(r.nextAt.Some? && now < r.nextAt.value)
  }

  // A claim takes the next number and a lease of five minutes, unless the notice is two days old: then it is given up.
  lemma BeginTable(r: Row, now: int)
    ensures var (r1, attempt) := Begin(r, now);
            var old_ := r.readyAt.Some? && now >= r.readyAt.value + 2 * 24 * 3600;
            && (attempt.Some? <==> Waits(r, now) && !old_)
            && (attempt.Some? ==> attempt.value == r.attempts + 1 && r1 == r.(attempts := r.attempts + 1, nextAt := Some(now + 300)))
            && (Waits(r, now) && old_ ==> r1 == r.(abandonedAt := Some(now), error := "delivery_window_expired"))
            && (!Waits(r, now) ==> r1 == r)
  {
  }

  // An answer to the last attempt of an undelivered notice is its receipt, or says when to try again.
  lemma FinishTable(r: Row, attempt: nat, ok: bool, error: string, now: int)
    ensures var r1 := Finish(r, attempt, ok, error, now);
            if attempt == r.attempts && r.deliveredAt.None? then
              r1 == if ok then r.(error := "", deliveredAt := Some(now), nextAt := None)
                    else r.(error := error, nextAt := Some(now + Backoff(attempt)))
            else r1 == r
  {
    hide Backoff;
  }

  lemma FreezeTable(r: Row, payload: string, now: int)
    ensures r.readyAt.None? ==> Freeze(r, payload, now) == r.(payload := payload, readyAt := Some(now))
    ensures r.readyAt.Some? ==> Freeze(r, payload, now) == r
  {
  }

  // A local notice is closed by its first receipt; one with a destination never is.
  lemma AcknowledgeTable(r: Row, now: int)
    ensures Acknowledge(r, now) == if r.url == "" && r.readyAt.Some? && r.deliveredAt.None? then r.(deliveredAt := Some(now)) else r
  {
  }

  // -------------------------------------------------------------------- nothing is lost

  predicate Young(r: Row, now: int) {
    r.readyAt.Some? && now < r.readyAt.value + 2 * 24 * 3600
  }

  lemma {:induction false} RunPair(s: State, a: Event, b: Event)
    ensures Run(s, [a, b]) == Step(Step(s, a), b)
  {
    hide Step;
    assert [a, b][1..] == [b] && [b][1..] == [];
    assert Run(Step(s, a), [b]) == Run(Step(Step(s, a), b), []);
  }

  // A waiting notice whose POST is answered well is delivered, and stays so.
  lemma {:induction false} WaitingIsDelivered(s: State, now: int, at: int, error: string)
    requires Inv(s) && Waits(s.row, now) && Young(s.row, now) && now <= at
    ensures var s1 := Run(s, [Begun(now), Finished(s.row.attempts + 1, true, error, at)]);
            && s1.row.deliveredAt == Some(at) && s1.row.error == "" && s1.row.nextAt.None? && s1.row.attempts == s.row.attempts + 1
            && forall later :: !Waits(s1.row, later)
  {
    RunPair(s, Begun(now), Finished(s.row.attempts + 1, true, error, at));
    BeginTable(s.row, now);
    hide Begin, Backoff, Spaced;
  }

  // One whose POST fails waits again once its pause is over, and one whose worker dies once its lease is.
  lemma {:induction false} UndeliveredWaitsAgain(s: State, now: int, at: int, error: string, later: int)
    requires Inv(s) && Waits(s.row, now) && Young(s.row, now) && now <= at
    ensures var k := s.row.attempts + 1;
            var failed := Run(s, [Begun(now), Finished(k, false, error, at)]).row;
            failed.error == error && failed.attempts == k && (Waits(failed, later) <==> later >= at + Backoff(k))
    ensures Waits(Step(s, Begun(now)).row, later) <==> later >= now + 300
  {
    RunPair(s, Begun(now), Finished(s.row.attempts + 1, false, error, at));
    BeginTable(s.row, now);
    hide Begin, Backoff, Spaced;
  }

  // -------------------------------------------------------------- the table in place

  // What the destination answers, and when.
  datatype Answer = Answer(ok: bool, error: string, at: int)

  // One submission of one pass.
  function Attempted(r: Row, now: int, a: Answer): Row {
    var (claimed, attempt) := Begin(r, now);
    if attempt.None? then claimed else Finish(claimed, attempt.value, a.ok, a.error, a.at)
  }

  class Outbox {
    var rows: map<int, Row>

    constructor ()
      ensures rows == map[]
    {
      rows := map[];
    }

    method FreezePayload(pk: int, payload: string, now: int)
      requires pk in rows
      modifies this
      ensures rows == old(rows)[pk := Freeze(old(rows)[pk], payload, now)]
    {
      var row := rows[pk];
      if row.readyAt.None? {
        row := row.(payload := payload, readyAt := Some(now));
      }
      rows := rows[pk := row];
    }

    method BeginAttempt(pk: int, now: int) returns (attempt: Option<nat>)
      requires pk in rows
      modifies this
      ensures (rows, attempt) == (old(rows)[pk := Begin(old(rows)[pk], now).0], Begin(old(rows)[pk], now).1)
    {
      var row := rows[pk];
      attempt := None;
      if Due(row, now) {
        if now - row.readyAt.value >= WINDOW {
          row := row.(abandonedAt := Some(now), error := "delivery_window_expired");
        } else {
          row := row.(attempts := row.attempts + 1, nextAt := Some(now + LEASE));
          attempt := Some(row.attempts);
        }
      }
      rows := rows[pk := row];
    }

    method FinishAttempt(pk: int, attempt: nat, a: Answer)
      requires pk in rows
      modifies this
      ensures rows == old(rows)[pk := Finish(old(rows)[pk], attempt, a.ok, a.error, a.at)]
    {
      var row := rows[pk];
      if row.attempts == attempt && row.deliveredAt.None? {
        if a.ok {
          row := row.(error := "", deliveredAt := Some(a.at), nextAt := None);
        } else {
          row := row.(error := a.error, deliveredAt := None, nextAt := Some(a.at + Backoff(attempt)));
        }
      }
      rows := rows[pk := row];
    }

    // One submission: claim, POST outside any transaction, record the answer.
    method DeliverOne(pk: int, now: int, a: Answer) returns (delivered: bool)
      requires pk in rows
      modifies this
      ensures rows == old(rows)[pk := Attempted(old(rows)[pk], now, a)]
      ensures delivered == (rows[pk].deliveredAt.Some? && old(rows)[pk].deliveredAt.None?)
    {
      hide Begin, Finish;
      delivered := false;
      ClaimDelivers(rows[pk], now);
      var attempt := BeginAttempt(pk, now);
      if attempt.Some? {
        FinishDelivers(rows[pk], attempt.value, a);
        FinishAttempt(pk, attempt.value, a);
        delivered := a.ok;
      }
    }

    // deliver, over the selected submissions, with the answers their POSTs get.
    method Deliver(ids: seq<int>, now: int, answers: map<int, Answer>) returns (delivered: nat)
      requires forall i | 0 <= i < |ids| :: ids[i] in rows && ids[i] in answers
      requires forall i, j | 0 <= i < j < |ids| :: ids[i] != ids[j]
      modifies this
      ensures rows.Keys == old(rows).Keys
      ensures forall pk | pk in rows ::
                rows[pk] == if pk in ids then Attempted(old(rows)[pk], now, answers[pk]) else old(rows)[pk]
      ensures delivered == |Newly(old(rows), rows, ids)|
    {
      hide Attempted, Newly;
      delivered := 0;
      NewlyNone(rows);
      var i := 0;
      while i < |ids|
        invariant 0 <= i <= |ids| && rows.Keys == old(rows).Keys
        invariant forall pk | pk in rows ::
          rows[pk] == if pk in ids[..i] then Attempted(old(rows)[pk], now, answers[pk]) else old(rows)[pk]
        invariant delivered == |Newly(old(rows), rows, ids[..i])|
      {
        var pk := ids[i];
        assert ids[..i + 1] == ids[..i] + [pk];
        assert pk !in ids[..i];
        assert ids[i] in old(rows) && forall k | 0 <= k < i :: ids[k] in old(rows);
        ghost var before := rows;
        var ok := DeliverOne(pk, now, answers[pk]);
        NewlyGrows(old(rows), before, rows, ids[..i], pk);
        if ok {
          delivered := delivered + 1;
        }
        i := i + 1;
      }
      assert ids[..i] == ids;
    }
  }

  // Of the listed submissions, those whose receipt appeared.
  ghost function Newly(before: map<int, Row>, after: map<int, Row>, ids: seq<int>): set<int> {
    set pk | pk in ids && pk in before && pk in after && after[pk].deliveredAt.Some? && before[pk].deliveredAt.None?
  }

  lemma NewlyNone(rows: map<int, Row>)
    ensures Newly(rows, rows, []) == {}
  {
  }

  lemma NewlyGrows(before: map<int, Row>, mid: map<int, Row>, after: map<int, Row>, ids: seq<int>, pk: int)
    requires pk in before && pk in mid && pk !in ids && mid[pk] == before[pk] && pk in after && after == mid[pk := after[pk]]
    ensures Newly(before, after, ids + [pk]) ==
            if after[pk].deliveredAt.Some? && before[pk].deliveredAt.None? then Newly(before, mid, ids) + {pk} else Newly(before, mid, ids)
    ensures pk !in Newly(before, mid, ids)
  {
  }

  lemma ClaimDelivers(r: Row, now: int)
    ensures Begin(r, now).0.deliveredAt == r.deliveredAt
    ensures Begin(r, now).1.Some? ==> r.deliveredAt.None? && Begin(r, now).0.attempts == Begin(r, now).1.value
  {
  }

  lemma FinishDelivers(r: Row, attempt: nat, a: Answer)
    requires r.attempts == attempt && r.deliveredAt.None?
    ensures Finish(r, attempt, a.ok, a.error, a.at).deliveredAt == if a.ok then Some(a.at) else None
  {
  }
}
