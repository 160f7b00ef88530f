/**
 The roster of one Opportunity, rewritten in place. `SetRole` and `Insert` demand what the database
 enforces: at every moment one row per lead and role.
 */
module SheetReconcile {
  import opened Outcomes
  import opened SheetRoles
  import opened SheetRoster

  ghost predicate IdsUnique(contacts: seq<Contact>, nextId: nat) {
    && (forall i | 0 <= i < |contacts| :: contacts[i].id < nextId)
    && (forall i, j | 0 <= i < j < |contacts| :: contacts[i].id != contacts[j].id)
  }

  // ------------------------------------------------------- states between writes

  // Row `i` when the first `parked` of the changed rows hold temporary roles and, of those, the first
  // `written` already their final ones.
  ghost predicate Midway(sheet: Sheet, before: seq<Contact>, now: Contact, changed: seq<nat>, parked: nat, written: nat, i: nat)
    requires i < |before|
  {
    var p := Position(changed, i);
    now == if p.Some? && p.value < written then before[i].(role := FinalRole(sheet, before, i))
           else if p.Some? && p.value < parked then before[i].(role := Transition(p.value))
           else before[i]
  }

  ghost predicate InTransition(sheet: Sheet, before: seq<Contact>, now: seq<Contact>, changed: seq<nat>, parked: nat, written: nat) {
    |now| == |before| && forall i: nat | i < |before| :: Midway(sheet, before, now[i], changed, parked, written, i)
  }

  ghost predicate ChangedRows(sheet: Sheet, contacts: seq<Contact>, changed: seq<nat>) {
    && (forall i :: i in changed <==> i in Changed(sheet, contacts))
    && (forall k, l | 0 <= k < l < |changed| :: changed[k] != changed[l])
  }

  lemma {:induction false} SamePosition(changed: seq<nat>, i: nat, j: nat)
    requires Position(changed, i).Some? && Position(changed, i) == Position(changed, j)
    ensures i == j
  {
  }

  // A parked role meets no other row.
  lemma ParkingIsFree(sheet: Sheet, before: seq<Contact>, now: seq<Contact>, changed: seq<nat>, k: nat, j: nat)
    requires InTransition(sheet, before, now, changed, k, 0) && k < |changed| && !Reserved(before) && j < |before|
    ensures now[j].role != Transition(k)
  {
    assert Midway(sheet, before, now[j], changed, k, 0, j);
  }

  lemma FinalIsReal(sheet: Sheet, before: seq<Contact>, i: nat)
    requires i < |before| && !Reserved(before)
    ensures !FinalRole(sheet, before, i).Transition?
  {
    FinalRoleCases(sheet, before, i);
  }

  // A final role meets no other row: rows are parked, final, or were never to change.
  lemma WritingIsFree(sheet: Sheet, before: seq<Contact>, now: seq<Contact>, changed: seq<nat>, k: nat, i: nat, j: nat)
    requires InTransition(sheet, before, now, changed, |changed|, k) && ChangedRows(sheet, before, changed)
    requires !Reserved(before) && !Collapses(sheet, before) && i < |before| && j < |before| && i != j
    requires before[i].lead == before[j].lead
    ensures now[j].role != FinalRole(sheet, before, i)
  {
    hide FinalRole;
    assert Midway(sheet, before, now[j], changed, |changed|, k, j);
    FinalIsReal(sheet, before, i);
    assert FinalRole(sheet, before, i) != FinalRole(sheet, before, j) by {
      if i < j { assert !Collapses(sheet, before); } else { assert !Collapses(sheet, before); }
    }
    if j !in changed { assert j !in Changed(sheet, before); }
  }

  lemma ParkStep(sheet: Sheet, before: seq<Contact>, now: seq<Contact>, changed: seq<nat>, k: nat)
    requires InTransition(sheet, before, now, changed, k, 0) && ChangedRows(sheet, before, changed) && k < |changed|
    ensures changed[k] < |now|
    ensures InTransition(sheet, before, now[changed[k] := now[changed[k]].(role := Transition(k))], changed, k + 1, 0)
  {
    hide FinalRole;
    var i := changed[k];
    assert i in changed;
    PositionIs(changed, k);
    assert Midway(sheet, before, now[i], changed, k, 0, i);
    var now1 := now[i := now[i].(role := Transition(k))];
    forall j: nat | j < |before| ensures Midway(sheet, before, now1[j], changed, k + 1, 0, j) {
      assert Midway(sheet, before, now[j], changed, k, 0, j);
      if j != i && Position(changed, j).Some? && Position(changed, j).value == k { SamePosition(changed, i, j); }
    }
  }

  lemma WriteStep(sheet: Sheet, before: seq<Contact>, now: seq<Contact>, changed: seq<nat>, k: nat)
    requires InTransition(sheet, before, now, changed, |changed|, k) && ChangedRows(sheet, before, changed) && k < |changed|
    ensures changed[k] < |now|
    ensures var i := changed[k];
            InTransition(sheet, before, now[i := now[i].(role := FinalRole(sheet, before, i))], changed, |changed|, k + 1)
  {
    hide FinalRole;
    var i := changed[k];
    assert i in changed;
    PositionIs(changed, k);
    assert Midway(sheet, before, now[i], changed, |changed|, k, i);
    var now1 := now[i := now[i].(role := FinalRole(sheet, before, i))];
    forall j: nat | j < |before| ensures Midway(sheet, before, now1[j], changed, |changed|, k + 1, j) {
      assert Midway(sheet, before, now[j], changed, |changed|, k, j);
      if j != i && Position(changed, j).Some? && Position(changed, j).value == k { SamePosition(changed, i, j); }
    }
  }

  lemma WrittenIsFinal(sheet: Sheet, before: seq<Contact>, now: seq<Contact>, changed: seq<nat>)
    requires InTransition(sheet, before, now, changed, |changed|, |changed|) && ChangedRows(sheet, before, changed)
    ensures |now| == |before| && forall i | 0 <= i < |before| :: now[i] == before[i].(role := FinalRole(sheet, before, i))
  {
    hide FinalRole;
    forall i: nat | i < |before| ensures now[i] == before[i].(role := FinalRole(sheet, before, i)) {
      assert Midway(sheet, before, now[i], changed, |changed|, |changed|, i);
      if i !in changed { assert i !in Changed(sheet, before); }
    }
  }

  // ------------------------------------------------------------------- the checks

  function FinalKey(contacts: seq<Contact>, assignments: map<nat, Role>, i: nat): (int, Role)
    requires i < |contacts|
  {
    (contacts[i].lead, if i in assignments then assignments[i] else contacts[i].role)
  }

  ghost predicate PlannedAs(sheet: Sheet, contacts: seq<Contact>, assignments: map<nat, Role>, creates: seq<(int, Role)>) {
    && (forall i | i in assignments :: i < |contacts|)
    && (forall i: nat | i < |contacts| :: FinalRole(sheet, contacts, i) == FinalKey(contacts, assignments, i).1)
    && (forall lead, role :: (lead, role) in creates <==> Created(sheet, contacts, lead, role))
    && (forall k, l | 0 <= k < l < |creates| :: creates[k] != creates[l])
  }

  // The `final_keys` check over contacts and creations.
  method KeysCollide(sheet: Sheet, contacts: seq<Contact>, assignments: map<nat, Role>, creates: seq<(int, Role)>) returns (collide: bool)
    requires PlannedAs(sheet, contacts, assignments, creates)
    ensures collide <==> Collapses(sheet, contacts)
  {
    hide FinalRole, Created;
    var keys, i := {}, 0;
    while i < |contacts|
      invariant 0 <= i <= |contacts|
      invariant forall key :: key in keys <==> exists k: nat | k < i :: FinalKey(contacts, assignments, k) == key
      invariant forall k, l | 0 <= k < l < i :: FinalKey(contacts, assignments, k) != FinalKey(contacts, assignments, l)
    {
      var key := FinalKey(contacts, assignments, i);
      if key in keys {
        var k: nat :| k < i && FinalKey(contacts, assignments, k) == key;
        assert Collapses(sheet, contacts) by { Meet(sheet, contacts, k, i); }
        return true;
      }
      keys := keys + {key};
      i := i + 1;
    }
    var j := 0;
    ghost var held := keys;
    while j < |creates|
      invariant 0 <= j <= |creates|
      invariant forall key :: key in keys <==> key in held || key in creates[..j]
    {
      assert creates[..j + 1] == creates[..j] + [creates[j]];
      assert creates[j] in creates;
      if creates[j] in held {
        var k: nat :| k < |contacts| && FinalKey(contacts, assignments, k) == creates[j];
        CreatedIsNew(sheet, contacts, creates[j].0, creates[j].1, k);
        assert false;
      }
      if creates[j] in keys {
        assert false;
      }
      keys := keys + {creates[j]};
      j := j + 1;
    }
    return false;
  }

  lemma Meet(sheet: Sheet, contacts: seq<Contact>, i: nat, j: nat)
    requires i < j < |contacts| && contacts[i].lead == contacts[j].lead
    requires FinalRole(sheet, contacts, i) == FinalRole(sheet, contacts, j)
    ensures Collapses(sheet, contacts)
  {
  }

  method FindChanged(ghost sheet: Sheet, contacts: seq<Contact>, assignments: map<nat, Role>) returns (changed: seq<nat>)
    requires forall i: nat | i < |contacts| :: FinalRole(sheet, contacts, i) == FinalKey(contacts, assignments, i).1
    ensures ChangedRows(sheet, contacts, changed) && |changed| == |Changed(sheet, contacts)|
  {
    hide FinalRole;
    changed := [];
    var i := 0;
    while i < |contacts|
      invariant 0 <= i <= |contacts|
      invariant forall k :: k in changed <==> k in Changed(sheet, contacts) && k < i
      invariant forall k | 0 <= k < |changed| :: changed[k] < i
      invariant forall k, l | 0 <= k < l < |changed| :: changed[k] != changed[l]
    {
      if i in assignments && assignments[i] != contacts[i].role {
        changed := changed + [i];
      }
      i := i + 1;
    }
    DistinctSize(changed, Changed(sheet, contacts));
  }

  lemma InCreatedKeys(sheet: Sheet, contacts: seq<Contact>, lead: int, role: Role)
    ensures (lead, role) in CreatedKeys(sheet, contacts) <==> Created(sheet, contacts, lead, role)
  {
    if Created(sheet, contacts, lead, role) { CreatedNeeds(sheet, contacts, lead, role); }
  }

  lemma CreatesCounted(sheet: Sheet, contacts: seq<Contact>, creates: seq<(int, Role)>)
    requires forall lead, role :: (lead, role) in creates <==> Created(sheet, contacts, lead, role)
    requires forall k, l | 0 <= k < l < |creates| :: creates[k] != creates[l]
    ensures |creates| == |CreatedKeys(sheet, contacts)|
  {
    hide Created;
    forall key: (int, Role) ensures key in creates <==> key in CreatedKeys(sheet, contacts) {
      InCreatedKeys(sheet, contacts, key.0, key.1);
      assert key == (key.0, key.1);
    }
    DistinctSize(creates, CreatedKeys(sheet, contacts));
  }

  lemma {:induction false} DistinctSize<T(!new)>(xs: seq<T>, members: set<T>)
    requires forall k, l | 0 <= k < l < |xs| :: xs[k] != xs[l]
    requires forall x :: x in members <==> x in xs
    ensures |members| == |xs|
  {
    if xs == [] {
      assert members == {};
    } else {
      var n := |xs| - 1;
      forall x ensures x in members - {xs[n]} <==> x in xs[..n] {
        assert x in xs <==> x in xs[..n] || x == xs[n];
      }
      DistinctSize(xs[..n], members - {xs[n]});
    }
  }

  class Roster {
    var contacts: seq<Contact>
    var nextId: nat

    ghost predicate Valid()
      reads this
    {
      KeysUnique(contacts) && IdsUnique(contacts, nextId)
    }

    constructor ()
      ensures Valid() && contacts == []
    {
      contacts, nextId := [], 0;
    }

    // UPDATE of one row: the new key must be free.
    method SetRole(i: nat, role: Role)
      requires Valid() && i < |contacts|
      requires forall j | 0 <= j < |contacts| && j != i && contacts[j].lead == contacts[i].lead :: contacts[j].role != role
      modifies `contacts
      ensures Valid() && contacts == old(contacts)[i := old(contacts)[i].(role := role)]
    {
      contacts := contacts[i := contacts[i].(role := role)];
    }

    // INSERT of one row: its key must be free.
    method Insert(lead: int, role: Role)
      requires Valid() && !Exists(contacts, lead, role)
      modifies this
      ensures Valid() && contacts == old(contacts) + [Contact(old(nextId), lead, role)]
    {
      contacts := contacts + [Contact(nextId, lead, role)];
      nextId := nextId + 1;
    }

    method Park(ghost sheet: Sheet, changed: seq<nat>)
      requires Valid() && ChangedRows(sheet, contacts, changed) && !Reserved(contacts)
      modifies `contacts
      ensures Valid() && InTransition(sheet, old(contacts), contacts, changed, |changed|, 0)
    {
      hide FinalRole, KeysUnique, Reserved;
      ghost var before := contacts;
      Unparked(sheet, contacts, changed);
      var k := 0;
      while k < |changed|
        invariant 0 <= k <= |changed| && Valid() && InTransition(sheet, before, contacts, changed, k, 0)
      {
        ParkStep(sheet, before, contacts, changed, k);
        forall j: nat | j < |contacts| ensures contacts[j].role != Transition(k) {
          ParkingIsFree(sheet, before, contacts, changed, k, j);
        }
        SetRole(changed[k], Transition(k));
        k := k + 1;
      }
    }

    method WriteFinal(ghost sheet: Sheet, ghost before: seq<Contact>, changed: seq<nat>, assignments: map<nat, Role>)
      requires Valid() && ChangedRows(sheet, before, changed) && InTransition(sheet, before, contacts, changed, |changed|, 0)
      requires !Reserved(before) && !Collapses(sheet, before)
      requires forall k | 0 <= k < |changed| :: changed[k] < |before| && changed[k] in assignments
                                               && assignments[changed[k]] == FinalRole(sheet, before, changed[k])
      modifies `contacts
      ensures Valid() && |contacts| == |before|
      ensures forall i | 0 <= i < |before| :: contacts[i] == before[i].(role := FinalRole(sheet, before, i))
    {
      hide FinalRole, KeysUnique, Reserved, Collapses;
      var k := 0;
      while k < |changed|
        invariant 0 <= k <= |changed| && Valid() && InTransition(sheet, before, contacts, changed, |changed|, k)
      {
        var i := changed[k];
        WriteStep(sheet, before, contacts, changed, k);
        SameLeads(sheet, before, contacts, changed, |changed|, k);
        forall j: nat | j < |contacts| && j != i && contacts[j].lead == contacts[i].lead ensures contacts[j].role != assignments[i] {
          WritingIsFree(sheet, before, contacts, changed, k, i, j);
        }
        SetRole(i, assignments[i]);
        k := k + 1;
      }
      WrittenIsFinal(sheet, before, contacts, changed);
    }

    method CreateMissing(ghost sheet: Sheet, ghost before: seq<Contact>, creates: seq<(int, Role)>)
      requires Valid() && |contacts| == |before|
      requires forall i | 0 <= i < |before| :: contacts[i] == before[i].(role := FinalRole(sheet, before, i))
      requires forall lead, role :: (lead, role) in creates <==> Created(sheet, before, lead, role)
      requires forall k, l | 0 <= k < l < |creates| :: creates[k] != creates[l]
      modifies this
      ensures Valid() && Reconciles(sheet, before, contacts)
    {
      hide FinalRole, KeysUnique, Created;
      ghost var kept := contacts;
      var k := 0;
      while k < |creates|
        invariant 0 <= k <= |creates| && Valid() && |contacts| == |kept| + k && contacts[..|kept|] == kept
        invariant forall l | 0 <= l < k :: (contacts[|kept| + l].lead, contacts[|kept| + l].role) == creates[l]
      {
        assert creates[k] in creates;
        forall i | 0 <= i < |contacts| ensures contacts[i].lead != creates[k].0 || contacts[i].role != creates[k].1 {
          if i < |kept| {
            assert contacts[i] == kept[i];
            if contacts[i].lead == creates[k].0 { CreatedIsNew(sheet, before, creates[k].0, creates[k].1, i); }
          } else {
            assert creates[i - |kept|] != creates[k];
          }
        }
        Insert(creates[k].0, creates[k].1);
        k := k + 1;
      }
      Reconciled(sheet, before, kept, contacts, creates);
    }

    method Reconcile(sheet: Sheet, apply: bool) returns (r: Result<nat>)
      requires Valid()
      modifies this
      ensures Valid()
      ensures r.Raised? || !apply ==> contacts == old(contacts)
      ensures r.Raised? <==> Refuses(sheet, old(contacts), apply)
      ensures r.Ok? ==> r.value == ChangeCount(sheet, old(contacts))
      ensures r.Ok? && apply ==> Reconciles(sheet, old(contacts), contacts)
    {
      hide FinalRole, Created, KeysUnique, Collapses, Changed, CreatedKeys;
      ghost var before := contacts;
      if sheet == map[] {
        EmptySheet(sheet, contacts);
        return Ok(0);
      }
      var assignments, creates := Plan(sheet, contacts);
      assert PlannedAs(sheet, contacts, assignments, creates);
      var collide := KeysCollide(sheet, contacts, assignments, creates);
      if collide {
        return Raised;
      }
      var changed := FindChanged(sheet, contacts, assignments);
      CreatesCounted(sheet, contacts, creates);
      var count := |changed| + |creates|;
      if !apply || count == 0 {
        if count == 0 { NothingToDo(sheet, contacts); }
        return Ok(count);
      }
      if Reserved(contacts) {
        return Raised;
      }
      ChangedAssigned(sheet, contacts, assignments, changed);
      Park(sheet, changed);
      WriteFinal(sheet, before, changed, assignments);
      CreateMissing(sheet, before, creates);
      return Ok(count);
    }
  }

  // When the edit is refused: two records of a lead would meet, or a write is due while a reserved
  // temporary role is in use.
  ghost predicate Refuses(sheet: Sheet, contacts: seq<Contact>, apply: bool) {
    sheet != map[] && (Collapses(sheet, contacts) || (apply && ChangeCount(sheet, contacts) != 0 && Reserved(contacts)))
  }

  lemma Unparked(sheet: Sheet, contacts: seq<Contact>, changed: seq<nat>)
    ensures InTransition(sheet, contacts, contacts, changed, 0, 0)
  {
  }

  lemma SameLeads(sheet: Sheet, before: seq<Contact>, now: seq<Contact>, changed: seq<nat>, parked: nat, written: nat)
    requires InTransition(sheet, before, now, changed, parked, written)
    ensures |now| == |before| && forall i: nat | i < |before| :: now[i].lead == before[i].lead && now[i].id == before[i].id
  {
    hide FinalRole;
    forall i: nat | i < |before| ensures now[i].lead == before[i].lead && now[i].id == before[i].id {
      assert Midway(sheet, before, now[i], changed, parked, written, i);
    }
  }

  lemma ChangedAssigned(sheet: Sheet, contacts: seq<Contact>, assignments: map<nat, Role>, changed: seq<nat>)
    requires ChangedRows(sheet, contacts, changed)
    requires forall i: nat | i < |contacts| :: FinalRole(sheet, contacts, i) == FinalKey(contacts, assignments, i).1
    ensures forall k | 0 <= k < |changed| :: changed[k] < |contacts| && changed[k] in assignments
                                             && assignments[changed[k]] == FinalRole(sheet, contacts, changed[k])
  {
    hide FinalRole;
    forall k | 0 <= k < |changed|
      ensures changed[k] < |contacts| && changed[k] in assignments && assignments[changed[k]] == FinalRole(sheet, contacts, changed[k])
    {
      assert changed[k] in changed;
    }
  }

  lemma Reconciled(sheet: Sheet, before: seq<Contact>, kept: seq<Contact>, after: seq<Contact>, creates: seq<(int, Role)>)
    requires |kept| == |before| && forall i | 0 <= i < |before| :: kept[i] == before[i].(role := FinalRole(sheet, before, i))
    requires |after| == |kept| + |creates| && after[..|kept|] == kept
    requires forall l | 0 <= l < |creates| :: (after[|kept| + l].lead, after[|kept| + l].role) == creates[l]
    requires forall lead, role :: (lead, role) in creates <==> Created(sheet, before, lead, role)
    requires forall k, l | 0 <= k < l < |creates| :: creates[k] != creates[l]
    ensures Reconciles(sheet, before, after)
  {
    hide FinalRole, Created;
    assert forall i | 0 <= i < |before| :: after[i] == after[..|kept|][i];
    forall i | |before| <= i < |after| ensures Created(sheet, before, after[i].lead, after[i].role) {
      assert creates[i - |kept|] in creates;
    }
    forall lead, role | Created(sheet, before, lead, role) ensures Exists(after[|before|..], lead, role) {
      var l :| 0 <= l < |creates| && creates[l] == (lead, role);
      assert after[|before|..][l] == after[|kept| + l];
    }
    forall i, j | |before| <= i < j < |after| ensures after[i].lead != after[j].lead || after[i].role != after[j].role {
      assert creates[i - |kept|] != creates[j - |kept|];
    }
  }

  lemma NothingToDo(sheet: Sheet, contacts: seq<Contact>)
    requires ChangeCount(sheet, contacts) == 0
    ensures Reconciles(sheet, contacts, contacts)
  {
    hide FinalRole, Created;
    assert Changed(sheet, contacts) == {} && CreatedKeys(sheet, contacts) == {};
    forall i | 0 <= i < |contacts| ensures contacts[i] == contacts[i].(role := FinalRole(sheet, contacts, i)) {
      assert i !in Changed(sheet, contacts);
    }
    forall lead, role ensures !Created(sheet, contacts, lead, role) {
      InCreatedKeys(sheet, contacts, lead, role);
    }
  }

  lemma EmptySheet(sheet: Sheet, contacts: seq<Contact>)
    requires sheet == map[]
    ensures ChangeCount(sheet, contacts) == 0 && Reconciles(sheet, contacts, contacts)
  {
    forall lead ensures Needs(sheet, contacts, lead) == [] {
      if Needs(sheet, contacts, lead) != [] {
        assert Needs(sheet, contacts, lead)[0] in Needs(sheet, contacts, lead);
        NeedsAre(sheet, contacts, lead, Needs(sheet, contacts, lead)[0]);
      }
    }
    assert Changed(sheet, contacts) == {};
    assert CreatedKeys(sheet, contacts) == {};
    NothingToDo(sheet, contacts);
  }
}
