/**
 How an edited CRM sheet redistributes contact roles (`_reconcile_sheet_contact_roles` in
 `linkedin/crm_sheet_import.py`), defined lead by lead: the contacts a lead can spare, released ones
 first, take the roles the sheet newly wants for it, in the fixed order of roles.
 */
module SheetRoles {
  import opened Outcomes

  // `Transition` is the reserved temporary value `_sheet_transition_<index>`.
  datatype Role = Champion | DecisionMaker | Stakeholder | Other | Transition(index: nat)

  datatype Contact = Contact(id: nat, lead: int, role: Role)

  // The edited role cells: only these are authoritative.
  type Sheet = sheet: map<Role, set<int>> | sheet.Keys <= {Champion, DecisionMaker, Stakeholder} witness map[]

  const ROLE_ORDER: seq<Role> := [Champion, DecisionMaker, Stakeholder]

  predicate Desired(sheet: Sheet, lead: int, role: Role) {
    role in sheet && lead in sheet[role]
  }

  // A contact whose role cell was edited and no longer lists its lead.
  predicate Released(sheet: Sheet, c: Contact) {
    c.role in sheet && c.lead !in sheet[c.role]
  }

  predicate Exists(contacts: seq<Contact>, lead: int, role: Role) {
    exists i | 0 <= i < |contacts| :: contacts[i].lead == lead && contacts[i].role == role
  }

  ghost predicate KeysUnique(contacts: seq<Contact>) {
    forall i, j | 0 <= i < j < |contacts| :: contacts[i].lead != contacts[j].lead || contacts[i].role != contacts[j].role
  }

  // ------------------------------------------------- what a lead can spare and needs

  function ReleasedOf(sheet: Sheet, contacts: seq<Contact>, lead: int): (r: seq<nat>)
    ensures forall i :: i in r <==> 0 <= i < |contacts| && contacts[i].lead == lead && Released(sheet, contacts[i])
    ensures forall k, l | 0 <= k < l < |r| :: r[k] < r[l]
  {
    if contacts == [] then []
    else
      var n := |contacts| - 1;
      var before := ReleasedOf(sheet, contacts[..n], lead);
      assert forall k | 0 <= k < |before| :: before[k] in before;
      if contacts[n].lead == lead && Released(sheet, contacts[n]) then before + [n] else before
  }

  function OthersOf(contacts: seq<Contact>, lead: int): (r: seq<nat>)
    ensures forall i :: i in r <==> 0 <= i < |contacts| && contacts[i].lead == lead && contacts[i].role == Other
    ensures forall k, l | 0 <= k < l < |r| :: r[k] < r[l]
  {
    if contacts == [] then []
    else
      var n := |contacts| - 1;
      var before := OthersOf(contacts[..n], lead);
      assert forall k | 0 <= k < |before| :: before[k] in before;
      if contacts[n].lead == lead && contacts[n].role == Other then before + [n] else before
  }

  function Pool(sheet: Sheet, contacts: seq<Contact>, lead: int): (r: seq<nat>)
    ensures forall i :: i in r <==> 0 <= i < |contacts| && contacts[i].lead == lead
                                    && (Released(sheet, contacts[i]) || contacts[i].role == Other)
    ensures forall k, l | 0 <= k < l < |r| :: r[k] != r[l]
  {
    var released, others := ReleasedOf(sheet, contacts, lead), OthersOf(contacts, lead);
    PoolDistinct(released, others);
    released + others
  }

  lemma PoolDistinct(released: seq<nat>, others: seq<nat>)
    requires forall i | i in released :: i !in others
    requires forall k, l | 0 <= k < l < |released| :: released[k] < released[l]
    requires forall k, l | 0 <= k < l < |others| :: others[k] < others[l]
    ensures forall k, l | 0 <= k < l < |released + others| :: (released + others)[k] != (released + others)[l]
  {
    var r := released + others;
    forall k, l | 0 <= k < l < |r| ensures r[k] != r[l] {
      if k < |released| <= l { assert released[k] in released && others[l - |released|] in others; }
    }
  }

  // The roles the sheet newly wants for a lead, among the first `n` of the order.
  function Wanted(sheet: Sheet, contacts: seq<Contact>, lead: int, n: nat): (r: seq<Role>)
    requires n <= 3
    ensures forall role :: role in r <==> role in ROLE_ORDER[..n] && Desired(sheet, lead, role) && !Exists(contacts, lead, role)
    ensures forall k, l | 0 <= k < l < |r| :: r[k] != r[l]
  {
    if n == 0 then []
    else
      var before, role := Wanted(sheet, contacts, lead, n - 1), ROLE_ORDER[n - 1];
      assert ROLE_ORDER[..n] == ROLE_ORDER[..n - 1] + [role];
      assert role !in ROLE_ORDER[..n - 1];
      if Desired(sheet, lead, role) && !Exists(contacts, lead, role) then before + [role] else before
  }

  function Needs(sheet: Sheet, contacts: seq<Contact>, lead: int): seq<Role> {
    Wanted(sheet, contacts, lead, 3)
  }

  function Position(pool: seq<nat>, i: nat): (p: Option<nat>)
    ensures p.Some? <==> i in pool
    ensures p.Some? ==> p.value < |pool| && pool[p.value] == i
  {
    if pool == [] then None
    else if pool[0] == i then Some(0)
    else match Position(pool[1..], i) case None => None case Some(k) => Some(k + 1)
  }

  // ------------------------------------------------------------- the outcome

  function FinalRole(sheet: Sheet, contacts: seq<Contact>, i: nat): Role
    requires i < |contacts|
  {
    var c := contacts[i];
    var p := Position(Pool(sheet, contacts, c.lead), i);
    if p.Some? && p.value < |Needs(sheet, contacts, c.lead)| then Needs(sheet, contacts, c.lead)[p.value]
    else if Released(sheet, c) then Other
    else c.role
  }

  // A needed role no spare contact is left for.
  predicate Created(sheet: Sheet, contacts: seq<Contact>, lead: int, role: Role) {
    exists k | |Pool(sheet, contacts, lead)| <= k < |Needs(sheet, contacts, lead)| :: Needs(sheet, contacts, lead)[k] == role
  }

  // The roster after the edit: every record keeps its place, identity and lead; new records follow.
  ghost predicate Reconciles(sheet: Sheet, contacts: seq<Contact>, after: seq<Contact>) {
    && |contacts| <= |after|
    && (forall i | 0 <= i < |contacts| ::
          after[i] == contacts[i].(role := FinalRole(sheet, contacts, i)))
    && (forall i | |contacts| <= i < |after| :: Created(sheet, contacts, after[i].lead, after[i].role))
    && (forall lead, role | Created(sheet, contacts, lead, role) :: Exists(after[|contacts|..], lead, role))
    && (forall i, j | |contacts| <= i < j < |after| :: after[i].lead != after[j].lead || after[i].role != after[j].role)
  }

  // Two contacts of one lead would both end as OTHER.
  predicate Collapses(sheet: Sheet, contacts: seq<Contact>) {
    exists i, j | 0 <= i < j < |contacts| ::
      contacts[i].lead == contacts[j].lead && FinalRole(sheet, contacts, i) == FinalRole(sheet, contacts, j)
  }

  // --------------------------------------------------------------- its properties

  lemma NeedsAre(sheet: Sheet, contacts: seq<Contact>, lead: int, role: Role)
    ensures role in Needs(sheet, contacts, lead) <==> Desired(sheet, lead, role) && !Exists(contacts, lead, role)
  {
    assert ROLE_ORDER[..3] == ROLE_ORDER;
  }

  lemma FinalRoleCases(sheet: Sheet, contacts: seq<Contact>, i: nat)
    requires i < |contacts|
    ensures var c, r := contacts[i], FinalRole(sheet, contacts, i);
            || (Desired(sheet, c.lead, r) && !Exists(contacts, c.lead, r) && r in sheet)
            || (r == Other && Released(sheet, c))
            || (r == c.role && !Released(sheet, c))
    ensures !Released(sheet, contacts[i]) && contacts[i].role != Other ==> FinalRole(sheet, contacts, i) == contacts[i].role
  {
    var c, r := contacts[i], FinalRole(sheet, contacts, i);
    var needs := Needs(sheet, contacts, c.lead);
    var p := Position(Pool(sheet, contacts, c.lead), i);
    hide Needs, Pool, Position;
    if p.Some? && p.value < |needs| {
      assert r in needs;
      NeedsAre(sheet, contacts, c.lead, r);
    }
  }

  // A contact given a needed role sits in the pool where that role sits among the needs.
  lemma AssignedAt(sheet: Sheet, contacts: seq<Contact>, i: nat, lead: int, k: nat)
    requires i < |contacts| && contacts[i].lead == lead
    requires k < |Needs(sheet, contacts, lead)| && FinalRole(sheet, contacts, i) == Needs(sheet, contacts, lead)[k]
    ensures k < |Pool(sheet, contacts, lead)| && Pool(sheet, contacts, lead)[k] == i
  {
    var needs, pool := Needs(sheet, contacts, lead), Pool(sheet, contacts, lead);
    assert needs[k] in needs;
    NeedsAre(sheet, contacts, lead, needs[k]);
    var p := Position(pool, i);
    if p.None? || p.value >= |needs| {
      assert false;
    }
  }

  lemma NeedTaken(sheet: Sheet, contacts: seq<Contact>, lead: int, k: nat)
    requires k < |Needs(sheet, contacts, lead)| && k < |Pool(sheet, contacts, lead)|
    ensures var i := Pool(sheet, contacts, lead)[k];
            i < |contacts| && contacts[i].lead == lead && FinalRole(sheet, contacts, i) == Needs(sheet, contacts, lead)[k]
  {
    var pool := Pool(sheet, contacts, lead);
    assert pool[k] in pool;
  }

  // Each edited role ends with exactly the leads the sheet lists.
  lemma EditedRolesExactly(sheet: Sheet, contacts: seq<Contact>, after: seq<Contact>, lead: int, role: Role)
    requires Reconciles(sheet, contacts, after) && role in sheet
    ensures Exists(after, lead, role) <==> lead in sheet[role]
  {
    hide FinalRole, Created, Needs, Pool;
    if Exists(after, lead, role) {
      var i :| 0 <= i < |after| && after[i].lead == lead && after[i].role == role;
      if i < |contacts| {
        FinalRoleCases(sheet, contacts, i);
      } else {
        CreatedNeeds(sheet, contacts, lead, role);
      }
    }
    if lead in sheet[role] {
      if Exists(contacts, lead, role) {
        var i :| 0 <= i < |contacts| && contacts[i].lead == lead && contacts[i].role == role;
        FinalRoleCases(sheet, contacts, i);
        assert after[i].lead == lead && after[i].role == role;
      } else {
        NeedsAre(sheet, contacts, lead, role);
        NeedMet(sheet, contacts, lead, role);
        if Created(sheet, contacts, lead, role) {
          var j :| 0 <= j < |after[|contacts|..]| && after[|contacts|..][j].lead == lead && after[|contacts|..][j].role == role;
          assert after[|contacts| + j].lead == lead && after[|contacts| + j].role == role;
        } else {
          var i :| 0 <= i < |contacts| && contacts[i].lead == lead && FinalRole(sheet, contacts, i) == role;
          assert after[i].lead == lead && after[i].role == role;
        }
      }
    }
  }

  lemma CreatedNeeds(sheet: Sheet, contacts: seq<Contact>, lead: int, role: Role)
    requires Created(sheet, contacts, lead, role)
    ensures Desired(sheet, lead, role) && !Exists(contacts, lead, role)
  {
    assert role in Needs(sheet, contacts, lead);
    NeedsAre(sheet, contacts, lead, role);
  }

  lemma NeedMet(sheet: Sheet, contacts: seq<Contact>, lead: int, role: Role)
    requires role in Needs(sheet, contacts, lead)
    ensures Created(sheet, contacts, lead, role)
         || exists i | 0 <= i < |contacts| :: contacts[i].lead == lead && FinalRole(sheet, contacts, i) == role
  {
    var k :| 0 <= k < |Needs(sheet, contacts, lead)| && Needs(sheet, contacts, lead)[k] == role;
    if k < |Pool(sheet, contacts, lead)| { NeedTaken(sheet, contacts, lead, k); }
  }

  // Two records can only meet as OTHER; edited roles never collide.
  lemma OnlyOthersMeet(sheet: Sheet, contacts: seq<Contact>, i: nat, j: nat)
    requires KeysUnique(contacts) && i < j < |contacts| && contacts[i].lead == contacts[j].lead
    requires FinalRole(sheet, contacts, i) == FinalRole(sheet, contacts, j)
    ensures FinalRole(sheet, contacts, i) == Other
  {
    var lead, r := contacts[i].lead, FinalRole(sheet, contacts, i);
    FinalRoleCases(sheet, contacts, i);
    FinalRoleCases(sheet, contacts, j);
    NeedsAre(sheet, contacts, lead, r);
    hide FinalRole, Pool, Needs;
    if r in Needs(sheet, contacts, lead) {
      var k :| 0 <= k < |Needs(sheet, contacts, lead)| && Needs(sheet, contacts, lead)[k] == r;
      AssignedAt(sheet, contacts, i, lead, k);
      AssignedAt(sheet, contacts, j, lead, k);
    }
  }

  lemma {:induction false} EndsAsOther(sheet: Sheet, contacts: seq<Contact>, i: nat)
    requires i < |contacts|
    ensures var pool := Pool(sheet, contacts, contacts[i].lead);
            && (FinalRole(sheet, contacts, i) == Other
                <==> i in pool && |Needs(sheet, contacts, contacts[i].lead)| <= Position(pool, i).value)
  {
    FinalRoleCases(sheet, contacts, i);
    var lead := contacts[i].lead;
    var p := Position(Pool(sheet, contacts, lead), i);
    var needs := Needs(sheet, contacts, lead);
    hide Pool, Needs, Position;
    if p.Some? && p.value < |needs| {
      assert needs[p.value] in needs;
      NeedsAre(sheet, contacts, lead, needs[p.value]);
    }
  }

  lemma {:induction false} PositionIs(pool: seq<nat>, k: nat)
    requires k < |pool| && forall a, b | 0 <= a < b < |pool| :: pool[a] != pool[b]
    ensures Position(pool, pool[k]) == Some(k)
  {
    var p := Position(pool, pool[k]);
    assert pool[k] in pool;
  }

  // The edit is refused exactly when some lead spares at least two contacts more than it needs roles.
  lemma RefusedExactly(sheet: Sheet, contacts: seq<Contact>)
    requires KeysUnique(contacts)
    ensures Collapses(sheet, contacts)
       <==> exists i | 0 <= i < |contacts| ::
              |Pool(sheet, contacts, contacts[i].lead)| >= |Needs(sheet, contacts, contacts[i].lead)| + 2
  {
    hide FinalRole, Pool, Needs;
    if Collapses(sheet, contacts) {
      var i, j :| 0 <= i < j < |contacts| && contacts[i].lead == contacts[j].lead
                  && FinalRole(sheet, contacts, i) == FinalRole(sheet, contacts, j);
      OnlyOthersMeet(sheet, contacts, i, j);
      EndsAsOther(sheet, contacts, i);
      EndsAsOther(sheet, contacts, j);
    }
    if i :| 0 <= i < |contacts| && |Pool(sheet, contacts, contacts[i].lead)| >= |Needs(sheet, contacts, contacts[i].lead)| + 2 {
      var pool, n := Pool(sheet, contacts, contacts[i].lead), |Needs(sheet, contacts, contacts[i].lead)|;
      var a, b := pool[n], pool[n + 1];
      assert a in pool && b in pool;
      PositionIs(pool, n);
      PositionIs(pool, n + 1);
      EndsAsOther(sheet, contacts, a);
      EndsAsOther(sheet, contacts, b);
    }
  }

  lemma FinalKeysUnique(sheet: Sheet, contacts: seq<Contact>, after: seq<Contact>)
    requires Reconciles(sheet, contacts, after) && !Collapses(sheet, contacts)
    ensures KeysUnique(after)
  {
    forall i, j | 0 <= i < j < |after| ensures after[i].lead != after[j].lead || after[i].role != after[j].role {
      if i < |contacts| <= j && after[i].lead == after[j].lead && after[i].role == after[j].role {
        CreatedIsNew(sheet, contacts, after[j].lead, after[j].role, i);
      }
    }
  }

  lemma CreatedIsNew(sheet: Sheet, contacts: seq<Contact>, lead: int, role: Role, i: nat)
    requires Created(sheet, contacts, lead, role) && i < |contacts| && contacts[i].lead == lead
    ensures FinalRole(sheet, contacts, i) != role
  {
    var k :| |Pool(sheet, contacts, lead)| <= k < |Needs(sheet, contacts, lead)| && Needs(sheet, contacts, lead)[k] == role;
    if FinalRole(sheet, contacts, i) == role {
      AssignedAt(sheet, contacts, i, lead, k);
      assert false;
    }
  }

  // Records whose role was not edited keep it, unless a spare OTHER record was given a needed role.
  lemma UneditedStay(sheet: Sheet, contacts: seq<Contact>, after: seq<Contact>, i: nat)
    requires Reconciles(sheet, contacts, after) && i < |contacts|
    ensures after[i].id == contacts[i].id && after[i].lead == contacts[i].lead
    ensures contacts[i].role !in sheet && contacts[i].role != Other ==> after[i] == contacts[i]
    ensures Desired(sheet, contacts[i].lead, contacts[i].role) ==> after[i] == contacts[i]
  {
    hide FinalRole, Created;
    FinalRoleCases(sheet, contacts, i);
  }

  // Applying the same sheet again changes nothing and creates nothing.
  lemma SecondEditIsIdle(sheet: Sheet, contacts: seq<Contact>, after: seq<Contact>)
    requires Reconciles(sheet, contacts, after)
    ensures forall i | 0 <= i < |after| :: FinalRole(sheet, after, i) == after[i].role
    ensures forall lead, role :: !Created(sheet, after, lead, role)
  {
    hide FinalRole, Reconciles, Created, Needs;
    forall lead ensures Needs(sheet, after, lead) == [] {
      if Needs(sheet, after, lead) != [] {
        var role := Needs(sheet, after, lead)[0];
        assert role in Needs(sheet, after, lead);
        NeedsAre(sheet, after, lead, role);
        EditedRolesExactly(sheet, contacts, after, lead, role);
      }
    }
    forall i | 0 <= i < |after| ensures FinalRole(sheet, after, i) == after[i].role {
      var c := after[i];
      if c.role in sheet { EditedRolesExactly(sheet, contacts, after, c.lead, c.role); }
      IdleRole(sheet, after, i);
    }
    forall lead, role ensures !Created(sheet, after, lead, role) { IdleCreates(sheet, after, lead, role); }
  }

  lemma IdleRole(sheet: Sheet, contacts: seq<Contact>, i: nat)
    requires i < |contacts| && Needs(sheet, contacts, contacts[i].lead) == [] && !Released(sheet, contacts[i])
    ensures FinalRole(sheet, contacts, i) == contacts[i].role
  {
  }

  lemma IdleCreates(sheet: Sheet, contacts: seq<Contact>, lead: int, role: Role)
    requires Needs(sheet, contacts, lead) == []
    ensures !Created(sheet, contacts, lead, role)
  {
  }
}
