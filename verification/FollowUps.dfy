/**
 Applying reviewed follow-up drafts (`linkedin/crm_followup_decisions.py`): every decision is checked
 against the queue it was made from and against the locked rows, and only then are blank drafts filled.
 A fingerprint is injective: it is modelled by what it is taken of.
 */
module FollowUps {
  import opened Outcomes
  import opened Text

  const MAX_DECISIONS := 1000
  const MAX_DRAFT_CHARS := 20000
  const MAX_CONTEXT_TEXT_CHARS := 10000
  const EMAIL_CHANNEL := "Email"
  const LINKEDIN_CHANNEL := "LinkedIn"

  datatype Status = Open | Waiting | Completed | Cancelled

  datatype ActionFacts = ActionFacts(
    kind: string, status: Status, description: string, due: Option<int>, waitingUntil: Option<int>, disposition: string,
    channel: string, draft: string, revision: nat, target: Option<int>, triggerMessage: Option<int>, triggerMeeting: Option<int>)

  datatype OpportunityFacts = OpportunityFacts(
    owner: string, account: int, accountName: string, stage: string, motionStep: string, revision: nat, manualPin: bool)

  // What the state fingerprint covers.
  datatype Snapshot = Snapshot(leads: seq<Option<int>>, opportunity: OpportunityFacts, action: ActionFacts)

  // One row of the queue; the context fingerprint covers all of it.
  datatype Body = Body(action: int, opportunity: int, leads: seq<int>, state: Snapshot, rest: string)

  datatype Candidate = Candidate(body: Body, fingerprint: Body)

  datatype Decision = Decision(
    action: int, opportunity: int, leads: seq<int>, fingerprint: Body,
    nextStep: string, summary: string, email: string, linkedin: string, needsReview: bool, reason: string)

  datatype Queue = Queue(declared: Option<int>, rows: seq<Candidate>)

  datatype Action = Action(opportunity: int, facts: ActionFacts)

  datatype Crm = Crm(actions: map<int, Action>, opportunities: map<int, OpportunityFacts>)

  datatype Counts = Counts(
    validated: nat, requested: nat, applied: nat, email: nat, linkedin: nat, preserved: nat, noOp: nat, reviews: nat)

  // ------------------------------------------------------------------ the checks

  predicate Stripped(text: string, limit: nat) {
    Trim(text) == text && |text| <= limit
  }

  predicate ValidLeads(leads: seq<int>) {
    leads != [] && (forall i | 0 <= i < |leads| :: leads[i] > 0) && forall i, j | 0 <= i < j < |leads| :: leads[i] != leads[j]
  }

  predicate ValidDecision(d: Decision) {
    && ValidLeads(d.leads)
    && Stripped(d.nextStep, MAX_CONTEXT_TEXT_CHARS) && Stripped(d.summary, MAX_CONTEXT_TEXT_CHARS)
    && Stripped(d.email, MAX_DRAFT_CHARS) && Stripped(d.linkedin, MAX_DRAFT_CHARS) && Stripped(d.reason, MAX_CONTEXT_TEXT_CHARS)
    && (d.email == "" || d.linkedin == "") && (d.needsReview ==> d.reason != "")
  }

  predicate ValidCandidate(c: Candidate) {
    && ValidLeads(c.body.leads) && c.body.state.action.target.Some? && c.body.leads == [c.body.state.action.target.value]
    && c.fingerprint == c.body
  }

  predicate ValidQueue(q: Queue) {
    && (q.declared.None? || q.declared.value == |q.rows|)
    && (forall i | 0 <= i < |q.rows| :: ValidCandidate(q.rows[i]))
    && (forall i, j | 0 <= i < j < |q.rows| :: q.rows[i].body.action != q.rows[j].body.action)
  }

  // The decision still says what the queue says.
  predicate Matches(d: Decision, c: Candidate) {
    d.action == c.body.action && d.opportunity == c.body.opportunity && d.leads == c.body.leads && d.fingerprint == c.fingerprint
  }

  function LockedSnapshot(a: Action, o: OpportunityFacts): Snapshot {
    Snapshot([a.facts.target], o, a.facts)
  }

  // The locked rows still say what the queue says, and the action is still open work.
  predicate Unchanged(c: Candidate, crm: Crm) {
    && c.body.action in crm.actions && c.body.opportunity in crm.opportunities
    && var a := crm.actions[c.body.action];
       a.opportunity == c.body.opportunity && a.facts.target == c.body.state.action.target
       && LockedSnapshot(a, crm.opportunities[c.body.opportunity]) == c.body.state
       && a.facts.status == c.body.state.action.status && (a.facts.status == Open || a.facts.status == Waiting)
  }

  function FindCandidate(rows: seq<Candidate>, action: int): (i: nat)
    ensures i <= |rows| && (i < |rows| ==> rows[i].body.action == action)
    ensures forall k | 0 <= k < i :: rows[k].body.action != action
  {
    if rows == [] || rows[0].body.action == action then 0 else FindCandidate(rows[1..], action) + 1
  }

  predicate Accepted(d: Decision, q: Queue, crm: Crm) {
    var i := FindCandidate(q.rows, d.action);
    i < |q.rows| && Matches(d, q.rows[i]) && Unchanged(q.rows[i], crm)
  }

  predicate Valid(decisions: seq<Decision>, q: Queue, crm: Crm) {
    && |decisions| <= MAX_DECISIONS && ValidQueue(q)
    && (forall i | 0 <= i < |decisions| :: ValidDecision(decisions[i]))
    && (forall i, j | 0 <= i < j < |decisions| :: decisions[i].action != decisions[j].action)
    && (forall i | 0 <= i < |decisions| :: Accepted(decisions[i], q, crm))
  }

  // ------------------------------------------------------------------- the writes

  function Selected(d: Decision): Option<(string, string)> {
    if d.email != "" then Some((EMAIL_CHANNEL, d.email))
    else if d.linkedin != "" then Some((LINKEDIN_CHANNEL, d.linkedin))
    else None
  }

  predicate Blank(a: ActionFacts) {
    Trim(a.draft) == "" && Trim(a.channel) == ""
  }

  predicate Fills(d: Decision, crm: Crm) {
    Selected(d).Some? && d.action in crm.actions && Blank(crm.actions[d.action].facts)
  }

  function Filled(a: Action, channel: string, draft: string): Action {
    a.(facts := a.facts.(channel := channel, draft := draft, revision := a.facts.revision + 1))
  }

  function Written(d: Decision, crm: Crm): Crm {
    if Fills(d, crm) then crm.(actions := crm.actions[d.action := Filled(crm.actions[d.action], Selected(d).value.0, Selected(d).value.1)])
    else crm
  }

  function WriteAll(decisions: seq<Decision>, crm: Crm): Crm
    decreases |decisions|
  {
    if decisions == [] then crm else WriteAll(decisions[1..], Written(decisions[0], crm))
  }

  ghost predicate DistinctActions(decisions: seq<Decision>) {
    forall i, j | 0 <= i < j < |decisions| :: decisions[i].action != decisions[j].action
  }

  // What a batch may have done to one action.
  ghost predicate Touched(decisions: seq<Decision>, crm: Crm, after: Crm, a: int)
    requires a in crm.actions
  {
    && a in after.actions
    && ((forall i | 0 <= i < |decisions| :: decisions[i].action != a) ==> after.actions[a] == crm.actions[a])
    && (forall i | 0 <= i < |decisions| && decisions[i].action == a ::
          after.actions[a] == if Fills(decisions[i], crm)
                              then Filled(crm.actions[a], Selected(decisions[i]).value.0, Selected(decisions[i]).value.1)
                              else crm.actions[a])
  }

  // A batch changes only actions with a selected draft whose draft and channel were both blank; each gains
  // the channel, the draft and exactly one human revision, and nothing else changes.
  lemma {:induction false} OnlyBlanksFilled(decisions: seq<Decision>, crm: Crm, a: int)
    requires DistinctActions(decisions) && a in crm.actions
    ensures Touched(decisions, crm, WriteAll(decisions, crm), a) && WriteAll(decisions, crm).opportunities == crm.opportunities
    ensures WriteAll(decisions, crm).actions.Keys == crm.actions.Keys
    decreases |decisions|
  {
    if decisions != [] {
      var d, rest, mid := decisions[0], decisions[1..], Written(decisions[0], crm);
      OnlyBlanksFilled(rest, mid, a);
      assert forall i | 0 < i < |decisions| :: decisions[i] == rest[i - 1];
      assert forall i | 0 <= i < |rest| :: rest[i].action != d.action;
      assert d.action == a ==> forall i | 0 <= i < |rest| :: rest[i].action != a;
      if d.action != a {
        forall i | 0 <= i < |decisions| && decisions[i].action == a
          ensures WriteAll(decisions, crm).actions[a] == if Fills(decisions[i], crm)
                    then Filled(crm.actions[a], Selected(decisions[i]).value.0, Selected(decisions[i]).value.1) else crm.actions[a]
        {
          assert rest[i - 1].action == a;
        }
      }
    }
  }

  // The facts of one action after a batch: a blank action gains the draft that was written for it, under its channel,
  // and every other action keeps what it had.
  lemma DraftArrives(decisions: seq<Decision>, crm: Crm, i: nat)
    requires DistinctActions(decisions) && i < |decisions| && decisions[i].action in crm.actions
    ensures var d, before := decisions[i], crm.actions[decisions[i].action];
            d.action in WriteAll(decisions, crm).actions
            && var after := WriteAll(decisions, crm).actions[d.action];
               var blank := Trim(before.facts.draft) == "" && Trim(before.facts.channel) == "";
               after.opportunity == before.opportunity
               && after.facts == if blank && d.email != "" then
                                   before.facts.(channel := "Email", draft := d.email, revision := before.facts.revision + 1)
                                 else if blank && d.linkedin != "" then
                                   before.facts.(channel := "LinkedIn", draft := d.linkedin, revision := before.facts.revision + 1)
                                 else before.facts
  {
    OnlyBlanksFilled(decisions, crm, decisions[i].action);
    hide Trim, WriteAll;
  }

  // ------------------------------------------------------------------- the counts

  function Counted(d: Decision, crm: Crm, c: Counts): Counts {
    var c1 := c.(validated := c.validated + 1, reviews := c.reviews + if d.needsReview then 1 else 0);
    if Selected(d).None? then c1.(noOp := c1.noOp + 1)
    else if !Fills(d, crm) then c1.(requested := c1.requested + 1, preserved := c1.preserved + 1)
    else if Selected(d).value.0 == EMAIL_CHANNEL then c1.(requested := c1.requested + 1, applied := c1.applied + 1, email := c1.email + 1)
    else c1.(requested := c1.requested + 1, applied := c1.applied + 1, linkedin := c1.linkedin + 1)
  }

  function Tally(decisions: seq<Decision>, crm: Crm): Counts {
    if decisions == [] then Counts(0, 0, 0, 0, 0, 0, 0, 0)
    else Counted(decisions[|decisions| - 1], crm, Tally(decisions[..|decisions| - 1], crm))
  }

  ghost function FilledActions(decisions: seq<Decision>, crm: Crm): set<int> {
    set i | 0 <= i < |decisions| && Fills(decisions[i], crm) :: decisions[i].action
  }

  // The sums a count keeps.
  predicate Balanced(c: Counts) {
    c.validated == c.requested + c.noOp && c.requested == c.applied + c.preserved && c.applied == c.email + c.linkedin
  }

  lemma CountedBalances(d: Decision, crm: Crm, c: Counts)
    requires Balanced(c)
    ensures Balanced(Counted(d, crm, c)) && Counted(d, crm, c).validated == c.validated + 1
    ensures Counted(d, crm, c).applied == if Fills(d, crm) then c.applied + 1 else c.applied
  {
  }

  lemma FilledGrows(decisions: seq<Decision>, crm: Crm)
    requires decisions != [] && DistinctActions(decisions)
    ensures var n := |decisions| - 1;
            var d, before := decisions[n], FilledActions(decisions[..n], crm);
            d.action !in before && FilledActions(decisions, crm) == if Fills(d, crm) then before + {d.action} else before
  {
    hide Fills;
    var n := |decisions| - 1;
    var d, before := decisions[n], FilledActions(decisions[..n], crm);
    forall a ensures a in FilledActions(decisions, crm) <==> a in (if Fills(d, crm) then before + {d.action} else before) {
      if a in FilledActions(decisions, crm) {
        var i :| 0 <= i < |decisions| && Fills(decisions[i], crm) && decisions[i].action == a;
        if i < n { assert decisions[..n][i] == decisions[i]; }
      }
      if a in before {
        var i :| 0 <= i < n && Fills(decisions[..n][i], crm) && decisions[..n][i].action == a;
        assert decisions[i] == decisions[..n][i];
      }
    }
  }

  // Every decision is a no-op or asks for a draft; every draft asked for is applied or gives way to what is
  // already there; and as many actions change as drafts are applied.
  lemma {:induction false} NothingUncounted(decisions: seq<Decision>, crm: Crm)
    requires DistinctActions(decisions)
    ensures var c := Tally(decisions, crm);
            Balanced(c) && c.validated == |decisions| && c.applied == |FilledActions(decisions, crm)|
  {
    hide Counted, Fills;
    if decisions == [] {
      assert FilledActions(decisions, crm) == {};
    } else {
      var n := |decisions| - 1;
      NothingUncounted(decisions[..n], crm);
      CountedBalances(decisions[n], crm, Tally(decisions[..n], crm));
      FilledGrows(decisions, crm);
    }
  }

  datatype Fate = ByEmail | ByLinkedIn | Idle | Preserved | Reviewed

  // What became of one decision, told by the action it found.
  predicate Met(d: Decision, crm: Crm, fate: Fate) {
    var blank := d.action in crm.actions && Trim(crm.actions[d.action].facts.draft) == "" && Trim(crm.actions[d.action].facts.channel) == "";
    match fate
    case ByEmail => blank && d.email != ""
    case ByLinkedIn => blank && d.email == "" && d.linkedin != ""
    case Preserved => !blank && (d.email != "" || d.linkedin != "")
    case Idle => d.email == "" && d.linkedin == ""
    case Reviewed => d.needsReview
  }

  function HowMany(decisions: seq<Decision>, crm: Crm, fate: Fate): nat {
    if decisions == [] then 0
    else HowMany(decisions[..|decisions| - 1], crm, fate) + if Met(decisions[|decisions| - 1], crm, fate) then 1 else 0
  }

  lemma CountedMeets(d: Decision, crm: Crm, c: Counts)
    ensures var c1 := Counted(d, crm, c);
            && c1.email == c.email + (if Met(d, crm, ByEmail) then 1 else 0)
            && c1.linkedin == c.linkedin + (if Met(d, crm, ByLinkedIn) then 1 else 0)
            && c1.preserved == c.preserved + (if Met(d, crm, Preserved) then 1 else 0)
            && c1.noOp == c.noOp + (if Met(d, crm, Idle) then 1 else 0)
            && c1.reviews == c.reviews + (if Met(d, crm, Reviewed) then 1 else 0)
  {
    hide Trim;
  }

  // Each count is the number of decisions that met that fate.
  lemma {:induction false} CountsTell(decisions: seq<Decision>, crm: Crm)
    ensures var c := Tally(decisions, crm);
            && c.email == HowMany(decisions, crm, ByEmail) && c.linkedin == HowMany(decisions, crm, ByLinkedIn)
            && c.preserved == HowMany(decisions, crm, Preserved) && c.noOp == HowMany(decisions, crm, Idle)
            && c.reviews == HowMany(decisions, crm, Reviewed)
  {
    if decisions != [] {
      var n := |decisions| - 1;
      CountsTell(decisions[..n], crm);
      CountedMeets(decisions[n], crm, Tally(decisions[..n], crm));
      hide Counted, Met;
    }
  }

  // ----------------------------------------------------------------- what is accepted

  // The reviewed state is the state of the locked rows: the one action, still open, its opportunity and its lead.
  predicate Current(reviewed: Body, crm: Crm) {
    && reviewed.action in crm.actions && reviewed.opportunity in crm.opportunities
    && var a := crm.actions[reviewed.action];
       && a.opportunity == reviewed.opportunity && reviewed.state.action == a.facts
       && reviewed.state.opportunity == crm.opportunities[reviewed.opportunity]
       && a.facts.target.Some? && a.facts.target.value > 0
       && reviewed.leads == [a.facts.target.value] && reviewed.state.leads == [a.facts.target]
       && (a.facts.status == Open || a.facts.status == Waiting)
  }

  // A decision is accepted exactly when what was reviewed is a row of the queue, is what the decision names, and is
  // still what the locked rows say: the queue only carries it from the review to the rows.
  lemma AcceptedExactly(d: Decision, q: Queue, crm: Crm)
    requires ValidQueue(q)
    ensures Accepted(d, q, crm) <==>
              && (exists i :: 0 <= i < |q.rows| && q.rows[i].body == d.fingerprint)
              && d.action == d.fingerprint.action && d.opportunity == d.fingerprint.opportunity && d.leads == d.fingerprint.leads
              && Current(d.fingerprint, crm)
  {
    var i := FindCandidate(q.rows, d.action);
    if k :| 0 <= k < |q.rows| && q.rows[k].body == d.fingerprint {
      assert ValidCandidate(q.rows[k]);
      if d.action == d.fingerprint.action {
        assert i == k;
        CurrentIsUnchanged(d, q.rows[k], crm);
      }
    }
    if i < |q.rows| {
      assert ValidCandidate(q.rows[i]);
      CurrentIsUnchanged(d, q.rows[i], crm);
    }
    hide FindCandidate, ValidQueue, ValidCandidate, Unchanged, Current;
  }

  lemma CurrentIsUnchanged(d: Decision, c: Candidate, crm: Crm)
    requires ValidCandidate(c) && d.action == c.body.action
    ensures Matches(d, c) && Unchanged(c, crm) <==>
              && c.body == d.fingerprint && d.opportunity == d.fingerprint.opportunity && d.leads == d.fingerprint.leads
              && Current(d.fingerprint, crm)
  {
    assert c.body.leads[0] == c.body.state.action.target.value && c.body.leads[0] > 0;
  }

  // ------------------------------------------------------------------- the replay

  lemma {:induction false} NothingFilled(decisions: seq<Decision>, crm: Crm)
    requires forall i | 0 <= i < |decisions| :: !Fills(decisions[i], crm)
    ensures WriteAll(decisions, crm) == crm
    decreases |decisions|
  {
    if decisions != [] { NothingFilled(decisions[1..], crm); }
  }

  // Applying the same decisions to the same queue again is refused exactly when the first application
  // filled at least one draft.
  lemma {:induction false} ReplayRefusedExactly(decisions: seq<Decision>, q: Queue, crm: Crm)
    requires Valid(decisions, q, crm)
    ensures !Valid(decisions, q, WriteAll(decisions, crm)) <==> Tally(decisions, crm).applied > 0
  {
    hide Fills, Filled, ValidDecision, ValidQueue, Accepted, Blank, Tally;
    FillsSelects(decisions, crm);
    var after := WriteAll(decisions, crm);
    NothingUncounted(decisions, crm);
    if i :| 0 <= i < |decisions| && Fills(decisions[i], crm) {
      var d := decisions[i];
      assert d.action in FilledActions(decisions, crm);
      assert Accepted(d, q, crm);
      OnlyBlanksFilled(decisions, crm, d.action);
      RevisionMoves(crm.actions[d.action], Selected(d));
      FilledNoLongerMatches(d, q, crm, after);
    } else {
      assert FilledActions(decisions, crm) == {};
      NothingFilled(decisions, crm);
    }
  }

  lemma FillsSelects(decisions: seq<Decision>, crm: Crm)
    ensures forall i | 0 <= i < |decisions| && Fills(decisions[i], crm) :: decisions[i].action in crm.actions && Selected(decisions[i]).Some?
  {
  }

  lemma FilledNoLongerMatches(d: Decision, q: Queue, crm: Crm, after: Crm)
    requires Accepted(d, q, crm) && d.action in crm.actions && d.action in after.actions
    requires after.actions[d.action].facts.revision != crm.actions[d.action].facts.revision
    ensures !Accepted(d, q, after)
  {
    hide Matches;
    var c := q.rows[FindCandidate(q.rows, d.action)];
    assert crm.actions[d.action].facts == c.body.state.action;
  }

  lemma RevisionMoves(a: Action, selected: Option<(string, string)>)
    ensures selected.Some? ==> Filled(a, selected.value.0, selected.value.1).facts.revision == a.facts.revision + 1
  {
  }

  // ------------------------------------------------------------- the rows in place

  // The first `n` rows, each filed under its own action.
  ghost predicate Indexes(rows: seq<Candidate>, index: map<int, Candidate>, n: nat)
    requires n <= |rows|
  {
    && (forall k, l | 0 <= k < l < n :: rows[k].body.action != rows[l].body.action)
    && (forall a | a in index :: exists k :: 0 <= k < n && rows[k].body.action == a)
    && (forall k | 0 <= k < n :: rows[k].body.action in index && index[rows[k].body.action] == rows[k])
  }

  lemma IndexGrows(rows: seq<Candidate>, index: map<int, Candidate>, n: nat)
    requires n < |rows| && Indexes(rows, index, n)
    ensures var a := rows[n].body.action;
            if a in index then exists k :: 0 <= k < n && rows[k].body.action == a else Indexes(rows, index[a := rows[n]], n + 1)
  {
    var a := rows[n].body.action;
    if a !in index {
      var index1 := index[a := rows[n]];
      forall b | b in index1 ensures exists k :: 0 <= k < n + 1 && rows[k].body.action == b {
        if b == a { assert rows[n].body.action == b; }
      }
    }
  }

  lemma {:induction false} IndexFinds(rows: seq<Candidate>, index: map<int, Candidate>)
    ensures Indexes(rows, index, |rows|) ==>
              && (forall k, l | 0 <= k < l < |rows| :: rows[k].body.action != rows[l].body.action)
              && (forall a :: var i := FindCandidate(rows, a);
                    if i == |rows| then a !in index else a in index && index[a] == rows[i])
    ensures Indexes(rows, map[], 0)
  {
    if Indexes(rows, index, |rows|) {
      hide FindCandidate;
      forall a ensures var i := FindCandidate(rows, a);
                       if i == |rows| then a !in index else a in index && index[a] == rows[i] {
        if a in index {
          var k :| 0 <= k < |rows| && rows[k].body.action == a;
        }
      }
    }
  }

  class Desk {
    var actions: map<int, Action>
    var opportunities: map<int, OpportunityFacts>

    function Rows(): Crm
      reads this
    {
      Crm(actions, opportunities)
    }

    constructor ()
      ensures Rows() == Crm(map[], map[])
    {
      actions, opportunities := map[], map[];
    }

    // _canonical_candidate_index
    method CanonicalIndex(q: Queue) returns (r: Result<map<int, Candidate>>)
      ensures r.Ok? <==> ValidQueue(q)
      ensures r.Ok? ==> forall a :: var i := FindCandidate(q.rows, a);
                          if i == |q.rows| then a !in r.value else a in r.value && r.value[a] == q.rows[i]
    {
      hide ValidCandidate, Indexes, FindCandidate;
      if q.declared.Some? && q.declared.value != |q.rows| {
        return Raised;
      }
      var index: map<int, Candidate> := map[];
      IndexFinds(q.rows, index);
      var i := 0;
      while i < |q.rows|
        invariant 0 <= i <= |q.rows|
        invariant forall k | 0 <= k < i :: ValidCandidate(q.rows[k])
        invariant Indexes(q.rows, index, i)
      {
        var c := q.rows[i];
        IndexGrows(q.rows, index, i);
        if !ValidCandidate(c) || c.body.action in index {
          return Raised;
        }
        index := index[c.body.action := c];
        i := i + 1;
      }
      IndexFinds(q.rows, index);
      return Ok(index);
    }

    // All checks, on the queue and on the locked rows, before the first write.
    method Check(decisions: seq<Decision>, q: Queue) returns (ok: bool)
      ensures ok <==> Valid(decisions, q, Rows())
    {
      hide ValidDecision, ValidQueue, Matches, Unchanged, FindCandidate;
      if |decisions| > MAX_DECISIONS {
        return false;
      }
      var seen: set<int>, i := {}, 0;
      while i < |decisions|
        invariant 0 <= i <= |decisions| && seen == set k | 0 <= k < i :: decisions[k].action
        invariant forall k | 0 <= k < i :: ValidDecision(decisions[k])
        invariant forall k, l | 0 <= k < l < i :: decisions[k].action != decisions[l].action
      {
        if !ValidDecision(decisions[i]) || decisions[i].action in seen {
          return false;
        }
        seen := seen + {decisions[i].action};
        i := i + 1;
      }
      var index := CanonicalIndex(q);
      if index.Raised? {
        return false;
      }
      i := 0;
      while i < |decisions|
        invariant 0 <= i <= |decisions| && forall k | 0 <= k < i :: Accepted(decisions[k], q, Rows())
      {
        var d := decisions[i];
        if d.action !in index.value || !Matches(d, index.value[d.action]) || !Unchanged(index.value[d.action], Rows()) {
          assert !Accepted(d, q, Rows());
          return false;
        }
        i := i + 1;
      }
      return true;
    }

    // apply_crm_followup_decisions
    method Apply(decisions: seq<Decision>, q: Queue) returns (r: Result<Counts>)
      modifies `actions
      ensures r.Ok? <==> Valid(decisions, q, old(Rows()))
      ensures r.Ok? ==> Rows() == WriteAll(decisions, old(Rows())) && r.value == Tally(decisions, old(Rows()))
      ensures r.Raised? ==> Rows() == old(Rows())
    {
      hide Valid, Filled, Selected;
      var ok := Check(decisions, q);
      if !ok {
        return Raised;
      }
      ghost var before := Rows();
      DistinctWhenValid(decisions, q, before);
      var counts, i := Counts(0, 0, 0, 0, 0, 0, 0, 0), 0;
      while i < |decisions|
        invariant 0 <= i <= |decisions| && counts == Tally(decisions[..i], before)
        invariant WriteAll(decisions, before) == WriteAll(decisions[i..], Rows())
        invariant forall k | i <= k < |decisions| :: Fills(decisions[k], Rows()) == Fills(decisions[k], before)
      {
        var d := decisions[i];
        assert decisions[..i + 1][..i] == decisions[..i] && decisions[i..][1..] == decisions[i + 1..];
        counts := Counted(d, Rows(), counts);
        CountedAlike(d, Rows(), before, Tally(decisions[..i], before));
        FillsStay(decisions, i, Rows());
        if Fills(d, Rows()) {
          actions := actions[d.action := Filled(actions[d.action], Selected(d).value.0, Selected(d).value.1)];
        }
        i := i + 1;
      }
      assert decisions[..i] == decisions;
      return Ok(counts);
    }
  }

  lemma DistinctWhenValid(decisions: seq<Decision>, q: Queue, crm: Crm)
    requires Valid(decisions, q, crm)
    ensures DistinctActions(decisions)
  {
  }

  lemma CountedAlike(d: Decision, crm: Crm, before: Crm, c: Counts)
    requires Fills(d, crm) == Fills(d, before)
    ensures Counted(d, crm, c) == Counted(d, before, c)
  {
  }

  lemma FillsStay(decisions: seq<Decision>, i: nat, crm: Crm)
    requires i < |decisions| && DistinctActions(decisions)
    ensures forall k | i < k < |decisions| :: Fills(decisions[k], Written(decisions[i], crm)) == Fills(decisions[k], crm)
  {
    hide Filled, Blank;
  }
}
