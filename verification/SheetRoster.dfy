/**
 `_reconcile_sheet_contact_roles` as it runs: plan, check the final keys, park, write, create. The table
 enforces one row per lead and role, so every single write has to respect it.
 */
module SheetRoster {
  import opened Ordering
  import opened Outcomes
  import opened SheetRoles

  // ------------------------------------------------------------ how far the plan is

  // Roles already handed out to a lead when `n` roles of the order are done and, of the next, `seen`.
  ghost function Done(sheet: Sheet, contacts: seq<Contact>, n: nat, seen: seq<int>, lead: int): (d: nat)
    requires n <= 3
    ensures d <= |Needs(sheet, contacts, lead)|
  {
    PrefixOfNeeds(sheet, contacts, lead, n);
    |Wanted(sheet, contacts, lead, n)| + if NextWanted(sheet, contacts, n, lead) && lead in seen then 1 else 0
  }

  predicate NextWanted(sheet: Sheet, contacts: seq<Contact>, n: nat, lead: int) {
    n < 3 && Desired(sheet, lead, ROLE_ORDER[n]) && !Exists(contacts, lead, ROLE_ORDER[n])
  }

  lemma {:induction false} PrefixOfNeeds(sheet: Sheet, contacts: seq<Contact>, lead: int, n: nat)
    requires n <= 3
    ensures Wanted(sheet, contacts, lead, n) <= Needs(sheet, contacts, lead)
    ensures NextWanted(sheet, contacts, n, lead) ==>
              var k := |Wanted(sheet, contacts, lead, n)|;
              k < |Needs(sheet, contacts, lead)| && Needs(sheet, contacts, lead)[k] == ROLE_ORDER[n]
    decreases 3 - n
  {
    if n < 3 { PrefixOfNeeds(sheet, contacts, lead, n + 1); }
  }

  ghost predicate AssignedSoFar(sheet: Sheet, contacts: seq<Contact>, assignments: map<nat, Role>, n: nat, seen: seq<int>, i: nat)
    requires n <= 3 && i < |contacts|
  {
    var lead := contacts[i].lead;
    var p := Position(Pool(sheet, contacts, lead), i);
    if p.Some? && p.value < Done(sheet, contacts, n, seen, lead)
    then i in assignments && assignments[i] == Needs(sheet, contacts, lead)[p.value]
    else i !in assignments
  }

  ghost predicate CreatedSoFar(sheet: Sheet, contacts: seq<Contact>, creates: seq<(int, Role)>, n: nat, seen: seq<int>, lead: int, role: Role)
    requires n <= 3
  {
    ((lead, role) in creates) ==
    exists k | |Pool(sheet, contacts, lead)| <= k < Done(sheet, contacts, n, seen, lead) :: Needs(sheet, contacts, lead)[k] == role
  }

  ghost predicate Planned(sheet: Sheet, contacts: seq<Contact>, assignments: map<nat, Role>, creates: seq<(int, Role)>, n: nat, seen: seq<int>)
    requires n <= 3
  {
    && (forall i | i in assignments :: i < |contacts|)
    && (forall i: nat | i < |contacts| :: AssignedSoFar(sheet, contacts, assignments, n, seen, i))
    && (forall lead, role :: CreatedSoFar(sheet, contacts, creates, n, seen, lead, role))
    && (forall k, l | 0 <= k < l < |creates| :: creates[k] != creates[l])
  }

  lemma PlanStarts(sheet: Sheet, contacts: seq<Contact>)
    ensures Planned(sheet, contacts, map[], [], 0, [])
  {
  }

  // A lead and role that need nothing leave the plan as it is.
  lemma PlanSkips(sheet: Sheet, contacts: seq<Contact>, assignments: map<nat, Role>, creates: seq<(int, Role)>, n: nat, seen: seq<int>, lead: int)
    requires n < 3 && Planned(sheet, contacts, assignments, creates, n, seen) && !NextWanted(sheet, contacts, n, lead)
    ensures Planned(sheet, contacts, assignments, creates, n, seen + [lead])
  {
    hide NextWanted, Wanted, Needs, Pool, Position;
    SameDone(sheet, contacts, assignments, creates, n, seen, n, seen + [lead]);
  }

  lemma SameDone(sheet: Sheet, contacts: seq<Contact>, assignments: map<nat, Role>, creates: seq<(int, Role)>,
                 n: nat, seen: seq<int>, n1: nat, seen1: seq<int>)
    requires n <= 3 && n1 <= 3 && Planned(sheet, contacts, assignments, creates, n, seen)
    requires forall lead :: Done(sheet, contacts, n, seen, lead) == Done(sheet, contacts, n1, seen1, lead)
    ensures Planned(sheet, contacts, assignments, creates, n1, seen1)
  {
    hide Done, Needs, Pool, Position;
    forall i: nat | i < |contacts| ensures AssignedSoFar(sheet, contacts, assignments, n1, seen1, i) {
      assert AssignedSoFar(sheet, contacts, assignments, n, seen, i);
    }
    forall lead, role ensures CreatedSoFar(sheet, contacts, creates, n1, seen1, lead, role) {
      assert CreatedSoFar(sheet, contacts, creates, n, seen, lead, role);
    }
  }

  // All leads of a role done: the next role begins.
  lemma PlanTurns(sheet: Sheet, contacts: seq<Contact>, assignments: map<nat, Role>, creates: seq<(int, Role)>, n: nat, seen: seq<int>)
    requires n < 3 && Planned(sheet, contacts, assignments, creates, n, seen)
    requires forall lead :: lead in seen <==> Desired(sheet, lead, ROLE_ORDER[n])
    ensures Planned(sheet, contacts, assignments, creates, n + 1, [])
  {
    hide Needs, Pool, Position;
    SameDone(sheet, contacts, assignments, creates, n, seen, n + 1, []);
  }

  // What the next wanted role of a lead does to its own count and to everybody else's.
  lemma DoneStep(sheet: Sheet, contacts: seq<Contact>, n: nat, seen: seq<int>, lead: int, other: int)
    requires n < 3 && NextWanted(sheet, contacts, n, lead) && lead !in seen
    ensures Done(sheet, contacts, n, seen + [lead], other)
         == Done(sheet, contacts, n, seen, other) + if other == lead then 1 else 0
    ensures var k := Done(sheet, contacts, n, seen, lead);
            k < |Needs(sheet, contacts, lead)| && Needs(sheet, contacts, lead)[k] == ROLE_ORDER[n]
  {
    hide Needs;
    PrefixOfNeeds(sheet, contacts, lead, n);
  }

  lemma {:induction false} AssignsOne(sheet: Sheet, contacts: seq<Contact>, assignments: map<nat, Role>, n: nat, seen: seq<int>, lead: int, i: nat, j: nat)
    requires n < 3 && NextWanted(sheet, contacts, n, lead) && lead !in seen && j < |contacts|
    requires AssignedSoFar(sheet, contacts, assignments, n, seen, j)
    requires i < |contacts| && contacts[i].lead == lead
    requires Position(Pool(sheet, contacts, lead), i) == Some(Done(sheet, contacts, n, seen, lead))
    ensures AssignedSoFar(sheet, contacts, assignments[i := ROLE_ORDER[n]], n, seen + [lead], j)
  {
    hide Done, Needs, Pool, NextWanted;
    DoneStep(sheet, contacts, n, seen, lead, contacts[j].lead);
  }

  lemma PlanAssigns(sheet: Sheet, contacts: seq<Contact>, assignments: map<nat, Role>, creates: seq<(int, Role)>, n: nat, seen: seq<int>, lead: int)
    requires n < 3 && Planned(sheet, contacts, assignments, creates, n, seen) && NextWanted(sheet, contacts, n, lead) && lead !in seen
    requires Done(sheet, contacts, n, seen, lead) < |Pool(sheet, contacts, lead)|
    ensures var i := Pool(sheet, contacts, lead)[Done(sheet, contacts, n, seen, lead)];
            Planned(sheet, contacts, assignments[i := ROLE_ORDER[n]], creates, n, seen + [lead])
  {
    var pool, d := Pool(sheet, contacts, lead), Done(sheet, contacts, n, seen, lead);
    var i := pool[d];
    assert i in pool;
    PositionIs(pool, d);
    var assignments1 := assignments[i := ROLE_ORDER[n]];
    hide Done, Needs, Pool, Position, NextWanted, AssignedSoFar, CreatedSoFar;
    forall j: nat | j < |contacts| ensures AssignedSoFar(sheet, contacts, assignments1, n, seen + [lead], j) {
      AssignsOne(sheet, contacts, assignments, n, seen, lead, i, j);
    }
    CreatesStay(sheet, contacts, creates, n, seen, lead);
  }

  // A lead with a spare contact gets no new record.
  lemma CreatesStay(sheet: Sheet, contacts: seq<Contact>, creates: seq<(int, Role)>, n: nat, seen: seq<int>, lead: int)
    requires n < 3 && NextWanted(sheet, contacts, n, lead) && lead !in seen
    requires Done(sheet, contacts, n, seen, lead) < |Pool(sheet, contacts, lead)|
    requires forall other, role :: CreatedSoFar(sheet, contacts, creates, n, seen, other, role)
    ensures forall other, role :: CreatedSoFar(sheet, contacts, creates, n, seen + [lead], other, role)
  {
    hide Done, Needs, Pool, NextWanted;
    forall other, role ensures CreatedSoFar(sheet, contacts, creates, n, seen + [lead], other, role) {
      assert CreatedSoFar(sheet, contacts, creates, n, seen, other, role);
      DoneStep(sheet, contacts, n, seen, lead, other);
    }
  }

  lemma PlanCreates(sheet: Sheet, contacts: seq<Contact>, assignments: map<nat, Role>, creates: seq<(int, Role)>, n: nat, seen: seq<int>, lead: int)
    requires n < 3 && Planned(sheet, contacts, assignments, creates, n, seen) && NextWanted(sheet, contacts, n, lead) && lead !in seen
    requires Done(sheet, contacts, n, seen, lead) >= |Pool(sheet, contacts, lead)|
    ensures Planned(sheet, contacts, assignments, creates + [(lead, ROLE_ORDER[n])], n, seen + [lead])
  {
    var d, key := Done(sheet, contacts, n, seen, lead), (lead, ROLE_ORDER[n]);
    assert CreatedSoFar(sheet, contacts, creates, n, seen, lead, ROLE_ORDER[n]);
    assert key !in creates by {
      DoneStep(sheet, contacts, n, seen, lead, lead);
      assert forall k | 0 <= k < d :: Needs(sheet, contacts, lead)[k] != Needs(sheet, contacts, lead)[d];
    }
    hide Done, Needs, Pool, Position, NextWanted;
    forall j: nat | j < |contacts| ensures AssignedSoFar(sheet, contacts, assignments, n, seen + [lead], j) {
      assert AssignedSoFar(sheet, contacts, assignments, n, seen, j);
      DoneStep(sheet, contacts, n, seen, lead, contacts[j].lead);
      PositionBelow(sheet, contacts, j);
    }
    forall other, role ensures CreatedSoFar(sheet, contacts, creates + [key], n, seen + [lead], other, role) {
      assert CreatedSoFar(sheet, contacts, creates, n, seen, other, role);
      DoneStep(sheet, contacts, n, seen, lead, other);
    }
  }

  lemma {:induction false} PositionBelow(sheet: Sheet, contacts: seq<Contact>, j: nat)
    requires j < |contacts|
    ensures var pool := Pool(sheet, contacts, contacts[j].lead);
            Position(pool, j).Some? ==> Position(pool, j).value < |pool|
  {
  }

  // Released contacts that were given no role become OTHER.
  function Demoted(sheet: Sheet, contacts: seq<Contact>, assignments: map<nat, Role>, i: nat): Role
    requires i < |contacts|
  {
    if i in assignments then assignments[i] else if Released(sheet, contacts[i]) then Other else contacts[i].role
  }

  lemma PlanEnds(sheet: Sheet, contacts: seq<Contact>, assignments: map<nat, Role>, creates: seq<(int, Role)>)
    requires Planned(sheet, contacts, assignments, creates, 3, [])
    ensures forall i: nat | i < |contacts| ::
              FinalRole(sheet, contacts, i) == Demoted(sheet, contacts, assignments, i)
    ensures forall lead, role :: (lead, role) in creates <==> Created(sheet, contacts, lead, role)
  {
    hide Pool, Position, Wanted;
    forall i: nat | i < |contacts| ensures FinalRole(sheet, contacts, i) == Demoted(sheet, contacts, assignments, i) {
      assert AssignedSoFar(sheet, contacts, assignments, 3, [], i);
    }
    forall lead, role ensures (lead, role) in creates <==> Created(sheet, contacts, lead, role) {
      assert CreatedSoFar(sheet, contacts, creates, 3, [], lead, role);
    }
  }

  // ------------------------------------------------------------------ the count

  ghost function Changed(sheet: Sheet, contacts: seq<Contact>): set<nat> {
    set i: nat | i < |contacts| && FinalRole(sheet, contacts, i) != contacts[i].role
  }

  ghost function CreatedKeys(sheet: Sheet, contacts: seq<Contact>): set<(int, Role)> {
    set role, lead | role in sheet && lead in sheet[role] && Created(sheet, contacts, lead, role) :: (lead, role)
  }

  ghost function ChangeCount(sheet: Sheet, contacts: seq<Contact>): nat {
    |Changed(sheet, contacts)| + |CreatedKeys(sheet, contacts)|
  }

  // A second run of the same sheet reports nothing to do.
  lemma SecondRunCountsZero(sheet: Sheet, contacts: seq<Contact>, after: seq<Contact>)
    requires Reconciles(sheet, contacts, after)
    ensures ChangeCount(sheet, after) == 0 && !Collapses(sheet, after) == KeysUnique(after)
  {
    SecondEditIsIdle(sheet, contacts, after);
    assert Changed(sheet, after) == {};
    assert CreatedKeys(sheet, after) == {};
  }

  predicate Reserved(contacts: seq<Contact>) {
    exists i | 0 <= i < |contacts| :: contacts[i].role.Transition?
  }

  // ------------------------------------------------------------------ the run

  function Listed(reusable: map<int, seq<nat>>, lead: int): seq<nat> {
    if lead in reusable then reusable[lead] else []
  }

  lemma {:induction false} ReleasedGrows(sheet: Sheet, contacts: seq<Contact>, n: nat, lead: int)
    requires n < |contacts|
    ensures var before := ReleasedOf(sheet, contacts[..n], lead);
            ReleasedOf(sheet, contacts[..n + 1], lead)
              == if contacts[n].lead == lead && Released(sheet, contacts[n]) then before + [n] else before
  {
    assert contacts[..n + 1][..n] == contacts[..n];
  }

  lemma {:induction false} OthersGrow(contacts: seq<Contact>, n: nat, lead: int)
    requires n < |contacts|
    ensures var before := OthersOf(contacts[..n], lead);
            OthersOf(contacts[..n + 1], lead) == if contacts[n].lead == lead && contacts[n].role == Other then before + [n] else before
  {
    assert contacts[..n + 1][..n] == contacts[..n];
  }

  // reusable_by_lead: released contacts in order, then OTHER contacts in order.
  method ListReleased(sheet: Sheet, contacts: seq<Contact>) returns (reusable: map<int, seq<nat>>)
    ensures forall lead :: Listed(reusable, lead) == ReleasedOf(sheet, contacts, lead)
  {
    reusable := map[];
    var i := 0;
    while i < |contacts|
      invariant 0 <= i <= |contacts| && forall lead :: Listed(reusable, lead) == ReleasedOf(sheet, contacts[..i], lead)
    {
      hide ReleasedOf;
      ghost var before := reusable;
      var c := contacts[i];
      if Released(sheet, c) {
        reusable := reusable[c.lead := Listed(reusable, c.lead) + [i]];
      }
      forall lead ensures Listed(reusable, lead) == ReleasedOf(sheet, contacts[..i + 1], lead) {
        ReleasedGrows(sheet, contacts, i, lead);
        assert Listed(before, lead) == ReleasedOf(sheet, contacts[..i], lead);
      }
      i := i + 1;
    }
    assert contacts[..i] == contacts;
  }

  lemma {:induction false} OthersAppend(contacts: seq<Contact>, released: seq<nat>, n: nat, lead: int)
    requires n < |contacts|
    ensures var listed := released + OthersOf(contacts[..n], lead);
            released + OthersOf(contacts[..n + 1], lead)
              == if contacts[n].lead == lead && contacts[n].role == Other then listed + [n] else listed
  {
    OthersGrow(contacts, n, lead);
    var others := OthersOf(contacts[..n], lead);
    assert released + (others + [n]) == released + others + [n];
  }

  // reusable_by_lead when the OTHER contacts among the first `n` are in.
  ghost predicate ListedUpTo(sheet: Sheet, contacts: seq<Contact>, reusable: map<int, seq<nat>>, n: nat)
    requires n <= |contacts|
  {
    forall lead :: Listed(reusable, lead) == ReleasedOf(sheet, contacts, lead) + OthersOf(contacts[..n], lead)
  }

  lemma ListedSteps(sheet: Sheet, contacts: seq<Contact>, before: map<int, seq<nat>>, after: map<int, seq<nat>>, n: nat)
    requires n < |contacts| && ListedUpTo(sheet, contacts, before, n)
    requires var c := contacts[n]; after == if c.role == Other then before[c.lead := Listed(before, c.lead) + [n]] else before
    ensures ListedUpTo(sheet, contacts, after, n + 1)
  {
    hide ReleasedOf, OthersOf;
    forall lead ensures Listed(after, lead) == ReleasedOf(sheet, contacts, lead) + OthersOf(contacts[..n + 1], lead) {
      OthersAppend(contacts, ReleasedOf(sheet, contacts, lead), n, lead);
      assert Listed(before, lead) == ReleasedOf(sheet, contacts, lead) + OthersOf(contacts[..n], lead);
    }
  }

  lemma {:induction false} ListedEnds(sheet: Sheet, contacts: seq<Contact>, reusable: map<int, seq<nat>>)
    ensures (forall lead :: Listed(reusable, lead) == ReleasedOf(sheet, contacts, lead)) ==> ListedUpTo(sheet, contacts, reusable, 0)
    ensures ListedUpTo(sheet, contacts, reusable, |contacts|) ==> forall lead :: Listed(reusable, lead) == Pool(sheet, contacts, lead)
  {
    hide ReleasedOf, OthersOf, Pool;
    NoOthers();
    assert contacts[..0] == [] && contacts[..|contacts|] == contacts;
    if forall lead :: Listed(reusable, lead) == ReleasedOf(sheet, contacts, lead) {
      forall lead ensures Listed(reusable, lead) == ReleasedOf(sheet, contacts, lead) + OthersOf(contacts[..0], lead) {
        assert ReleasedOf(sheet, contacts, lead) + [] == ReleasedOf(sheet, contacts, lead);
      }
    }
    forall lead ensures Pool(sheet, contacts, lead) == ReleasedOf(sheet, contacts, lead) + OthersOf(contacts, lead) {
      PoolIs(sheet, contacts, lead);
    }
  }

  method Reusable(sheet: Sheet, contacts: seq<Contact>) returns (reusable: map<int, seq<nat>>)
    ensures forall lead :: Listed(reusable, lead) == Pool(sheet, contacts, lead)
  {
    hide ListedUpTo, Pool, ReleasedOf;
    reusable := ListReleased(sheet, contacts);
    ListedEnds(sheet, contacts, reusable);
    var i := 0;
    while i < |contacts|
      invariant 0 <= i <= |contacts| && ListedUpTo(sheet, contacts, reusable, i)
    {
      ghost var before := reusable;
      var c := contacts[i];
      if c.role == Other {
        reusable := reusable[c.lead := Listed(reusable, c.lead) + [i]];
      }
      ListedSteps(sheet, contacts, before, reusable, i);
      i := i + 1;
    }
    ListedEnds(sheet, contacts, reusable);
  }

  lemma NoOthers()
    ensures forall lead :: OthersOf([], lead) == []
  {
  }

  lemma {:induction false} PoolIs(sheet: Sheet, contacts: seq<Contact>, lead: int)
    ensures Pool(sheet, contacts, lead) == ReleasedOf(sheet, contacts, lead) + OthersOf(contacts, lead)
  {
  }

  // The first candidate not yet used.
  method FirstUnused(pool: seq<nat>, used: set<nat>, ghost d: nat) returns (i: Option<nat>)
    requires d <= |pool| || forall k | 0 <= k < |pool| :: pool[k] in used
    requires forall k | 0 <= k < |pool| :: pool[k] in used <==> k < d
    ensures i == if d < |pool| then Some(pool[d]) else None
  {
    var k := 0;
    while k < |pool|
      invariant 0 <= k <= |pool| && k <= d
    {
      if pool[k] !in used {
        return Some(pool[k]);
      }
      k := k + 1;
    }
    return None;
  }

  lemma UsedBelowDone(sheet: Sheet, contacts: seq<Contact>, assignments: map<nat, Role>, creates: seq<(int, Role)>, n: nat, seen: seq<int>, lead: int)
    requires n <= 3 && Planned(sheet, contacts, assignments, creates, n, seen)
    ensures var pool := Pool(sheet, contacts, lead);
            forall k | 0 <= k < |pool| :: pool[k] in assignments <==> k < Done(sheet, contacts, n, seen, lead)
  {
    var pool := Pool(sheet, contacts, lead);
    forall k | 0 <= k < |pool| ensures pool[k] in assignments <==> k < Done(sheet, contacts, n, seen, lead) {
      assert pool[k] in pool;
      PositionIs(pool, k);
      assert AssignedSoFar(sheet, contacts, assignments, n, seen, pool[k]);
    }
  }

  method Plan(sheet: Sheet, contacts: seq<Contact>) returns (assignments: map<nat, Role>, creates: seq<(int, Role)>)
    ensures forall i | i in assignments :: i < |contacts|
    ensures forall i: nat | i < |contacts| ::
              FinalRole(sheet, contacts, i) == if i in assignments then assignments[i] else contacts[i].role
    ensures forall lead, role :: (lead, role) in creates <==> Created(sheet, contacts, lead, role)
    ensures forall k, l | 0 <= k < l < |creates| :: creates[k] != creates[l]
  {
    hide Pool, Needs, Planned, FinalRole, Created, Done, NextWanted;
    var reusable := Reusable(sheet, contacts);
    assignments, creates := map[], [];
    PlanStarts(sheet, contacts);
    var n := 0;
    while n < 3
      invariant 0 <= n <= 3 && Planned(sheet, contacts, assignments, creates, n, [])
    {
      var role := ROLE_ORDER[n];
      var leads := [];
      if role in sheet {
        leads := Sorted(sheet[role]);
      }
      var k := 0;
      while k < |leads|
        invariant 0 <= k <= |leads| && Planned(sheet, contacts, assignments, creates, n, leads[..k])
      {
        var lead := leads[k];
        assert leads[..k + 1] == leads[..k] + [lead];
        assert lead in leads && lead !in leads[..k];
        NextWantedIs(sheet, contacts, n, lead);
        if Exists(contacts, lead, role) {
          PlanSkips(sheet, contacts, assignments, creates, n, leads[..k], lead);
        } else {
          var pool := Listed(reusable, lead);
          UsedBelowDone(sheet, contacts, assignments, creates, n, leads[..k], lead);
          var candidate := FirstUnused(pool, assignments.Keys, Done(sheet, contacts, n, leads[..k], lead));
          if candidate.Some? {
            PlanAssigns(sheet, contacts, assignments, creates, n, leads[..k], lead);
            assignments := assignments[candidate.value := role];
          } else {
            PlanCreates(sheet, contacts, assignments, creates, n, leads[..k], lead);
            creates := creates + [(lead, role)];
          }
        }
        k := k + 1;
      }
      assert leads[..k] == leads;
      PlanTurns(sheet, contacts, assignments, creates, n, leads);
      n := n + 1;
    }
    PlanEnds(sheet, contacts, assignments, creates);
    PlannedFacts(sheet, contacts, assignments, creates);
    assignments := Demote(sheet, contacts, assignments);
  }

  lemma NextWantedIs(sheet: Sheet, contacts: seq<Contact>, n: nat, lead: int)
    requires n < 3
    ensures NextWanted(sheet, contacts, n, lead) == (Desired(sheet, lead, ROLE_ORDER[n]) && !Exists(contacts, lead, ROLE_ORDER[n]))
  {
  }

  lemma PlannedFacts(sheet: Sheet, contacts: seq<Contact>, assignments: map<nat, Role>, creates: seq<(int, Role)>)
    requires Planned(sheet, contacts, assignments, creates, 3, [])
    ensures forall i | i in assignments :: i < |contacts|
    ensures forall k, l | 0 <= k < l < |creates| :: creates[k] != creates[l]
  {
  }

  method Demote(sheet: Sheet, contacts: seq<Contact>, assignments: map<nat, Role>) returns (demoted: map<nat, Role>)
    requires forall i | i in assignments :: i < |contacts|
    ensures forall i | i in demoted :: i < |contacts|
    ensures forall i: nat | i < |contacts| ::
              Demoted(sheet, contacts, assignments, i) == if i in demoted then demoted[i] else contacts[i].role
  {
    demoted := assignments;
    var i := 0;
    while i < |contacts|
      invariant 0 <= i <= |contacts| && forall k | k in demoted :: k < |contacts|
      invariant forall k: nat | k < i ::
        Demoted(sheet, contacts, assignments, k) == if k in demoted then demoted[k] else contacts[k].role
      invariant forall k: nat | i <= k < |contacts| ::
        k in demoted <==> k in assignments
      invariant forall k | k in assignments :: k in demoted && demoted[k] == assignments[k]
    {
      if Released(sheet, contacts[i]) && i !in assignments {
        demoted := demoted[i := Other];
      }
      i := i + 1;
    }
  }
}
