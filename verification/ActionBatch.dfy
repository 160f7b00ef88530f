/**
 A whole reconciliation pass (`reconcile_v2_actions`): rows are parsed, duplicates dropped, and each
 Opportunity is locked, rewritten once, in ascending order of its id. A raise anywhere rolls all back.
 */
module ActionBatch {
  import opened Outcomes
  import opened ActionModel
  import opened ActionTheorems
  import opened ActionWritten

  datatype RawId = Missing | Malformed | Known(id: int)

  datatype Row = Row(opportunity: RawId, accountKey: int, evidence: Evidence)

  datatype Item = Item(id: int, accountKey: int, evidence: Evidence)

  type Book = map<int, Opportunity>

  // ------------------------------------------------------------- parsing and order

  function Parsed(rows: seq<Row>): (items: seq<Item>) {
    if rows == [] then []
    else
      var rest := Parsed(rows[1..]);
      if rows[0].opportunity.Known? then [Item(rows[0].opportunity.id, rows[0].accountKey, rows[0].evidence)] + rest else rest
  }

  predicate Before(a: Item, b: Item) {
    a.id < b.id || (a.id == b.id && a.accountKey <= b.accountKey)
  }

  function Inserted(x: Item, items: seq<Item>): (r: seq<Item>)
    ensures multiset(r) == multiset(items) + multiset{x}
  {
    if items == [] || Before(x, items[0]) then [x] + items
    else
      assert items == [items[0]] + items[1..];
      [items[0]] + Inserted(x, items[1..])
  }

  function Ordered(items: seq<Item>): (r: seq<Item>)
    ensures multiset(r) == multiset(items)
  {
    if items == [] then []
    else
      assert items == [items[0]] + items[1..];
      Inserted(items[0], Ordered(items[1..]))
  }

  predicate Twice(items: seq<Item>, id: int) {
    exists i, j | 0 <= i < j < |items| :: items[i].id == id && items[j].id == id
  }

  // The rows that are acted on: parsed, in order, and alone for their Opportunity.
  function Alone(items: seq<Item>, all: seq<Item>): (r: seq<Item>)
    ensures forall x :: x in r <==> x in items && !Twice(all, x.id)
  {
    if items == [] then []
    else if Twice(all, items[0].id) then Alone(items[1..], all)
    else [items[0]] + Alone(items[1..], all)
  }

  function Work(rows: seq<Row>): seq<Item> {
    var items := Parsed(rows);
    Alone(Ordered(items), items)
  }

  // ---------------------------------------------------------------------- the pass

  predicate InScope(scope: Option<set<int>>, id: int) {
    scope.None? || id in scope.value
  }

  // None: some row raised.
  function Pass(items: seq<Item>, book: Book, w: World, scope: Option<set<int>>, next: nat): Option<(Book, seq<Change>)>
    decreases |items|
  {
    if items == [] then Some((book, []))
    else
      var item := items[0];
      if item.id !in book then Pass(items[1..], book, w, scope, next)
      else
        var o := book[item.id];
        match ReconcileRow(item.evidence, o, w, InScope(scope, item.id), next)
        case None => None
        case Some(done) =>
          After(done.1, Pass(items[1..], book[item.id := o.(actions := done.0)], w, scope, next + 1))
  }

  // A result with earlier changes reported first.
  function After(changes: seq<Change>, rest: Option<(Book, seq<Change>)>): Option<(Book, seq<Change>)> {
    if rest.None? then None else Some((rest.value.0, changes + rest.value.1))
  }

  lemma AfterNothing(rest: Option<(Book, seq<Change>)>)
    ensures After([], rest) == rest
  {
    if rest.Some? { assert [] + rest.value.1 == rest.value.1; }
  }

  lemma AfterBoth(first: seq<Change>, second: seq<Change>, rest: Option<(Book, seq<Change>)>)
    ensures After(first, After(second, rest)) == After(first + second, rest)
  {
    if rest.Some? { assert (first + second) + rest.value.1 == first + (second + rest.value.1); }
  }

  // -------------------------------------------------------------------- its effects

  ghost predicate DistinctIds(items: seq<Item>) {
    forall i, j | 0 <= i < j < |items| :: items[i].id != items[j].id
  }

  ghost predicate Ascending(items: seq<Item>) {
    forall i, j | 0 <= i < j < |items| :: Before(items[i], items[j])
  }

  lemma {:induction false} InsertedAscends(x: Item, items: seq<Item>)
    requires Ascending(items)
    ensures Ascending(Inserted(x, items))
  {
    if items != [] && !Before(x, items[0]) {
      InsertedAscends(x, items[1..]);
      var rest := Inserted(x, items[1..]);
      forall y | y in rest ensures Before(items[0], y) {
        assert y in multiset(rest);
        assert y == x || y in items[1..];
      }
    }
  }

  lemma {:induction false} OrderedAscends(items: seq<Item>)
    ensures Ascending(Ordered(items))
  {
    if items != [] {
      OrderedAscends(items[1..]);
      InsertedAscends(items[0], Ordered(items[1..]));
    }
  }

  lemma {:induction false} AloneAscends(items: seq<Item>, all: seq<Item>)
    requires Ascending(items)
    ensures Ascending(Alone(items, all))
  {
    if items != [] {
      AloneAscends(items[1..], all);
    }
  }

  // How often an id occurs among rows.
  function Count(items: seq<Item>, id: int): nat {
    if items == [] then 0 else (if items[0].id == id then 1 else 0) + Count(items[1..], id)
  }

  lemma {:induction false} CountTwice(items: seq<Item>, id: int)
    ensures Count(items, id) >= 2 <==> Twice(items, id)
    ensures Count(items, id) >= 1 <==> exists i | 0 <= i < |items| :: items[i].id == id
  {
    if items != [] {
      CountTwice(items[1..], id);
      if Twice(items[1..], id) {
        var i, j :| 0 <= i < j < |items[1..]| && items[1..][i].id == id && items[1..][j].id == id;
        assert items[i + 1].id == id && items[j + 1].id == id;
      }
      if i :| 0 <= i < |items[1..]| && items[1..][i].id == id {
        assert items[i + 1].id == id;
        if items[0].id == id { assert 0 < i + 1 && items[i + 1].id == id; }
      }
      if i :| 0 <= i < |items| && items[i].id == id {
        if i > 0 { assert items[1..][i - 1].id == id; }
      }
      if i, j :| 0 <= i < j < |items| && items[i].id == id && items[j].id == id {
        assert items[1..][j - 1].id == id;
        if i > 0 { assert items[1..][i - 1].id == id; }
      }
    }
  }

  lemma {:induction false} InsertedCounts(x: Item, items: seq<Item>, id: int)
    ensures Count(Inserted(x, items), id) == Count(items, id) + if x.id == id then 1 else 0
  {
    if items == [] || Before(x, items[0]) {
      assert ([x] + items)[1..] == items;
    } else {
      InsertedCounts(x, items[1..], id);
      assert ([items[0]] + Inserted(x, items[1..]))[1..] == Inserted(x, items[1..]);
    }
  }

  lemma {:induction false} OrderedCounts(items: seq<Item>, id: int)
    ensures Count(Ordered(items), id) == Count(items, id)
  {
    if items != [] {
      OrderedCounts(items[1..], id);
      InsertedCounts(items[0], Ordered(items[1..]), id);
    }
  }

  lemma {:induction false} AloneCounts(items: seq<Item>, all: seq<Item>, id: int)
    ensures Count(Alone(items, all), id) == if Twice(all, id) then 0 else Count(items, id)
  {
    if items != [] {
      AloneCounts(items[1..], all, id);
      assert ([items[0]] + Alone(items[1..], all))[1..] == Alone(items[1..], all);
    }
  }

  // The pass visits, and so locks, each Opportunity at most once and in strictly ascending order.
  lemma LocksAscend(rows: seq<Row>)
    ensures forall i, j | 0 <= i < j < |Work(rows)| :: Work(rows)[i].id < Work(rows)[j].id
  {
    var items := Parsed(rows);
    OrderedAscends(items);
    AloneAscends(Ordered(items), items);
    var work := Work(rows);
    forall i, j | 0 <= i < j < |work| ensures work[i].id < work[j].id {
      assert Before(work[i], work[j]);
      AloneCounts(Ordered(items), items, work[i].id);
      OrderedCounts(items, work[i].id);
      CountTwice(items, work[i].id);
      CountTwice(work, work[i].id);
    }
  }

  lemma WorkDistinct(rows: seq<Row>)
    ensures DistinctIds(Work(rows))
  {
    LocksAscend(rows);
  }

  // Row `i` names this Opportunity, and no other row does.
  predicate OnlyRow(rows: seq<Row>, x: Item, i: nat) {
    i < |rows| && rows[i] == Row(Known(x.id), x.accountKey, x.evidence)
    && forall j | 0 <= j < |rows| && j != i :: rows[j].opportunity != Known(x.id)
  }

  lemma {:induction false} ParsedCounts(rows: seq<Row>, id: int)
    ensures Count(Parsed(rows), id) >= 1 <==> exists i | 0 <= i < |rows| :: rows[i].opportunity == Known(id)
    ensures Count(Parsed(rows), id) >= 2 <==> exists i, j | 0 <= i < j < |rows| :: rows[i].opportunity == Known(id) && rows[j].opportunity == Known(id)
  {
    if rows != [] {
      var rest := rows[1..];
      ParsedCounts(rest, id);
      assert rows == [rows[0]] + rest;
      assert ([Item(0, 0, rows[0].evidence)] + Parsed(rest))[1..] == Parsed(rest);
      if rows[0].opportunity.Known? {
        assert Parsed(rows)[0].id == rows[0].opportunity.id && Parsed(rows)[1..] == Parsed(rest);
      }
      if i :| 0 <= i < |rest| && rest[i].opportunity == Known(id) { assert rows[i + 1].opportunity == Known(id); }
      if i, j :| 0 <= i < j < |rest| && rest[i].opportunity == Known(id) && rest[j].opportunity == Known(id) {
        assert rows[i + 1].opportunity == Known(id) && rows[j + 1].opportunity == Known(id);
      }
    }
  }

  lemma {:induction false} ParsedHas(rows: seq<Row>, x: Item)
    ensures x in Parsed(rows) <==> exists i | 0 <= i < |rows| :: rows[i] == Row(Known(x.id), x.accountKey, x.evidence)
  {
    if rows != [] {
      ParsedHas(rows[1..], x);
      assert rows == [rows[0]] + rows[1..];
      assert x in Parsed(rows) <==> (rows[0] == Row(Known(x.id), x.accountKey, x.evidence) || x in Parsed(rows[1..]));
    }
  }

  // A pass acts on exactly the rows that name an Opportunity which no other row names.
  lemma WorkExactly(rows: seq<Row>, x: Item)
    ensures x in Work(rows) <==> exists i: nat :: OnlyRow(rows, x, i)
  {
    var items := Parsed(rows);
    assert x in Ordered(items) <==> x in multiset(Ordered(items));
    assert x in items <==> x in multiset(items);
    ParsedHas(rows, x);
    ParsedCounts(rows, x.id);
    CountTwice(items, x.id);
    hide Parsed, Ordered, Count, Twice;
    if x in Work(rows) {
      var i: nat :| i < |rows| && rows[i] == Row(Known(x.id), x.accountKey, x.evidence);
      forall j | 0 <= j < |rows| && j != i ensures rows[j].opportunity != Known(x.id) {
        assert i < j || j < i;
      }
      assert OnlyRow(rows, x, i);
    }
  }

  ghost predicate SoundBook(book: Book) {
    forall id | id in book :: OneCurrent(book[id].actions) && KeysUnique(book[id].actions)
  }

  // What a whole pass may have done to the ledger.
  ghost predicate Respects(book: Book, after: Book, items: seq<Item>) {
    && after.Keys == book.Keys
    && (forall id | id in book :: id in after && after[id] == book[id].(actions := after[id].actions)
                                  && Preserves(book[id].actions, after[id].actions))
    && (forall id | id in book && Count(items, id) == 0 :: id in after && after[id] == book[id])
  }

  lemma {:induction false} RespectsTwice(book: Book, mid: Book, after: Book, items: seq<Item>)
    requires items != [] && Respects(book, mid, [items[0]]) && Respects(mid, after, items[1..])
    ensures Respects(book, after, items)
  {
    forall id | id in book
      ensures id in after && after[id] == book[id].(actions := after[id].actions) && Preserves(book[id].actions, after[id].actions)
    {
      assert id in mid && id in after;
      PreservesTwice(book[id].actions, mid[id].actions, after[id].actions);
    }
    forall id | id in book && Count(items, id) == 0 ensures id in after && after[id] == book[id] {
      assert [items[0]][1..] == [];
      assert Count([items[0]], id) == 0 && Count(items[1..], id) == 0;
      assert id in mid;
    }
  }

  // A batch of any rows, duplicates and strays included, keeps at most one current action per Opportunity
  // and every field of human work, and leaves every other Opportunity alone.
  lemma {:induction false} PassKeeps(items: seq<Item>, book: Book, w: World, scope: Option<set<int>>, next: nat)
    requires SoundBook(book) && Pass(items, book, w, scope, next).Some?
    ensures var after := Pass(items, book, w, scope, next).value.0;
            SoundBook(after) && Respects(book, after, items)
    decreases |items|
  {
    hide ReconcileRow, Preserves, OneCurrent, KeysUnique;
    forall id | id in book ensures Preserves(book[id].actions, book[id].actions) { PreservesItself(book[id].actions); }
    if items != [] {
      var item := items[0];
      var mid := book;
      if item.id in book {
        var o := book[item.id];
        RowKeeps(item.evidence, o, w, InScope(scope, item.id), next);
        mid := book[item.id := o.(actions := ReconcileRow(item.evidence, o, w, InScope(scope, item.id), next).value.0)];
        PassKeeps(items[1..], mid, w, scope, next + 1);
      } else {
        PassKeeps(items[1..], mid, w, scope, next);
      }
      assert Respects(book, mid, [item]) by { assert [item][1..] == []; }
      RespectsTwice(book, mid, Pass(items, book, w, scope, next).value.0, items);
    }
  }

  lemma PreservesItself(actions: seq<Action>)
    ensures Preserves(actions, actions)
  {
  }

  // What the item's row does to its own Opportunity, whatever number a new action gets.
  ghost predicate Carried(item: Item, book: Book, after: Book, w: World, inScope: bool)
    requires item.id in book && item.id in after
  {
    exists n: nat | ReconcileRow(item.evidence, book[item.id], w, inScope, n).Some? ::
      after[item.id].actions == ReconcileRow(item.evidence, book[item.id], w, inScope, n).value.0
  }

  // Each row of a pass does to its Opportunity what it would do alone; the pass raises exactly if one of them does.
  lemma {:induction false} PassActs(items: seq<Item>, book: Book, w: World, scope: Option<set<int>>, next: nat)
    requires DistinctIds(items)
    ensures var r := Pass(items, book, w, scope, next);
            && (r.None? <==> exists i | 0 <= i < |items| && items[i].id in book ::
                  Raises(items[i], book, w, scope.None? || items[i].id in scope.value))
            && (r.Some? ==> forall i | 0 <= i < |items| && items[i].id in book ::
                  items[i].id in r.value.0 && Carried(items[i], book, r.value.0, w, scope.None? || items[i].id in scope.value))
    decreases |items|
  {
    hide ReconcileRow, Raises;
    if items != [] {
      var item, rest := items[0], items[1..];
      var inScope := scope.None? || item.id in scope.value;
      assert forall i | 0 <= i < |rest| :: rest[i] == items[i + 1] && rest[i].id != item.id;
      if item.id !in book {
        PassActs(rest, book, w, scope, next);
        ActsLater(items, book, book, Pass(rest, book, w, scope, next), w, scope);
      } else {
        var o := book[item.id];
        RaisesAlike(item, book, w, inScope, next);
        if ReconcileRow(item.evidence, o, w, inScope, next).Some? {
          var mid := book[item.id := o.(actions := ReconcileRow(item.evidence, o, w, inScope, next).value.0)];
          PassActs(rest, mid, w, scope, next + 1);
          var r := Pass(rest, mid, w, scope, next + 1);
          if r.Some? {
            Untouched(rest, mid, w, scope, next + 1, item.id);
            assert Carried(item, book, r.value.0, w, inScope);
          }
          ActsLater(items, book, mid, r, w, scope);
        }
      }
    }
  }

  ghost predicate Raises(item: Item, book: Book, w: World, inScope: bool)
    requires item.id in book
  {
    forall n: nat :: ReconcileRow(item.evidence, book[item.id], w, inScope, n).None?
  }

  lemma RaisesAlike(item: Item, book: Book, w: World, inScope: bool, next: nat)
    requires item.id in book
    ensures Raises(item, book, w, inScope) <==> ReconcileRow(item.evidence, book[item.id], w, inScope, next).None?
  {
    hide Withdrawn, Proposing, ProposalFor;
  }

  lemma ActsLater(items: seq<Item>, book: Book, mid: Book, r: Option<(Book, seq<Change>)>, w: World, scope: Option<set<int>>)
    requires items != [] && mid.Keys == book.Keys && forall i | 0 < i < |items| && items[i].id in book :: mid[items[i].id] == book[items[i].id]
    requires r.None? <==> exists i | 0 <= i < |items[1..]| && items[1..][i].id in mid :: Raises(items[1..][i], mid, w, scope.None? || items[1..][i].id in scope.value)
    requires r.Some? ==> forall i | 0 <= i < |items[1..]| && items[1..][i].id in mid ::
               items[1..][i].id in r.value.0 && Carried(items[1..][i], mid, r.value.0, w, scope.None? || items[1..][i].id in scope.value)
    ensures r.None? <==> exists i | 0 < i < |items| && items[i].id in book :: Raises(items[i], book, w, scope.None? || items[i].id in scope.value)
    ensures r.Some? ==> forall i | 0 < i < |items| && items[i].id in book ::
               items[i].id in r.value.0 && Carried(items[i], book, r.value.0, w, scope.None? || items[i].id in scope.value)
  {
    hide ReconcileRow;
    assert forall i | 0 < i < |items| :: items[i] == items[1..][i - 1];
    if r.None? {
      var i :| 0 <= i < |items[1..]| && items[1..][i].id in mid && Raises(items[1..][i], mid, w, scope.None? || items[1..][i].id in scope.value);
      assert items[i + 1] == items[1..][i];
    }
  }

  // --------------------------------------------------------------- the second pass

  ghost predicate PassIdle(result: Option<(Book, seq<Change>)>, book: Book) {
    result.Some? && result.value.0 == book && forall c | c in result.value.1 :: !Writes(c)
  }

  ghost predicate NoneSlips(items: seq<Item>, book: Book, w: World, scope: Option<set<int>>) {
    forall i | 0 <= i < |items| ::
      items[i].id in book ==> !Slips(items[i].evidence, book[items[i].id], w, InScope(scope, items[i].id))
  }

  lemma {:induction false} Untouched(items: seq<Item>, book: Book, w: World, scope: Option<set<int>>, next: nat, id: int)
    requires Pass(items, book, w, scope, next).Some? && id in book
    requires forall i | 0 <= i < |items| :: items[i].id != id
    ensures id in Pass(items, book, w, scope, next).value.0 && Pass(items, book, w, scope, next).value.0[id] == book[id]
    decreases |items|
  {
    hide ReconcileRow;
    if items != [] {
      var item := items[0];
      if item.id in book {
        var o := book[item.id];
        var done := ReconcileRow(item.evidence, o, w, InScope(scope, item.id), next).value;
        Untouched(items[1..], book[item.id := o.(actions := done.0)], w, scope, next + 1, id);
      } else {
        Untouched(items[1..], book, w, scope, next, id);
      }
    }
  }

  // The first row of a pass decides whether the rest can still be idle.
  lemma HeadDecides(items: seq<Item>, book: Book, w: World, scope: Option<set<int>>, next: nat)
    requires items != [] && DistinctIds(items) && items[0].id in book
    ensures var o := book[items[0].id];
            var head := ReconcileRow(items[0].evidence, o, w, InScope(scope, items[0].id), next);
            && (!Idle(head, o.actions) ==> !PassIdle(Pass(items, book, w, scope, next), book))
            && (Idle(head, o.actions) ==>
                  (PassIdle(Pass(items, book, w, scope, next), book) <==> PassIdle(Pass(items[1..], book, w, scope, next + 1), book)))
  {
    hide ReconcileRow;
    var id := items[0].id;
    var o := book[id];
    var head := ReconcileRow(items[0].evidence, o, w, InScope(scope, id), next);
    if head.Some? {
      var mid := book[id := o.(actions := head.value.0)];
      if Pass(items[1..], mid, w, scope, next + 1).Some? {
        Untouched(items[1..], mid, w, scope, next + 1, id);
      }
      if Idle(head, o.actions) { assert mid == book; }
    }
  }

  // Reconciling twice with the same evidence: the second pass reports no write and leaves the ledger as it
  // is exactly when no row slips.
  lemma {:induction false} PassTwice(items: seq<Item>, book: Book, w: World, scope: Option<set<int>>, next: nat, next2: nat)
    requires SoundBook(book) && DistinctIds(items) && Pass(items, book, w, scope, next).Some?
    ensures var after := Pass(items, book, w, scope, next).value.0;
            PassIdle(Pass(items, after, w, scope, next2), after) <==> NoneSlips(items, book, w, scope)
    decreases |items|
  {
    hide ReconcileRow, Slips, OneCurrent, KeysUnique, Idle, PassIdle, NoneSlips;
    var after := Pass(items, book, w, scope, next).value.0;
    if items == [] {
      NothingPasses(book, w, scope, next2);
    } else {
      var item, id := items[0], items[0].id;
      SlipsFirst(items, book, w, scope);
      if id !in book {
        PassKeys(items, book, w, scope, next);
        PassTwice(items[1..], book, w, scope, next, next2);
      } else {
        var o, inScope := book[id], InScope(scope, id);
        var done := ReconcileRow(item.evidence, o, w, inScope, next).value;
        var mid := book[id := o.(actions := done.0)];
        RowKeeps(item.evidence, o, w, inScope, next);
        Untouched(items[1..], mid, w, scope, next + 1, id);
        SecondPassExactly(item.evidence, o, w, inScope, next, next2);
        HeadDecides(items, after, w, scope, next2);
        PassTwice(items[1..], mid, w, scope, next + 1, next2 + 1);
        SameSlips(items[1..], book, mid, w, scope);
      }
    }
  }

  lemma {:induction false} NothingPasses(book: Book, w: World, scope: Option<set<int>>, next: nat)
    ensures PassIdle(Pass([], book, w, scope, next), book) && NoneSlips([], book, w, scope)
  {
  }

  lemma {:induction false} PassKeys(items: seq<Item>, book: Book, w: World, scope: Option<set<int>>, next: nat)
    requires Pass(items, book, w, scope, next).Some?
    ensures Pass(items, book, w, scope, next).value.0.Keys == book.Keys
    decreases |items|
  {
    hide ReconcileRow;
    if items != [] {
      var item := items[0];
      if item.id in book {
        var o := book[item.id];
        var done := ReconcileRow(item.evidence, o, w, InScope(scope, item.id), next).value;
        PassKeys(items[1..], book[item.id := o.(actions := done.0)], w, scope, next + 1);
      } else {
        PassKeys(items[1..], book, w, scope, next);
      }
    }
  }

  lemma SlipsFirst(items: seq<Item>, book: Book, w: World, scope: Option<set<int>>)
    requires items != []
    ensures NoneSlips(items, book, w, scope) <==>
              (items[0].id in book ==> !Slips(items[0].evidence, book[items[0].id], w, InScope(scope, items[0].id)))
              && NoneSlips(items[1..], book, w, scope)
  {
    hide Slips;
    assert forall i | 0 <= i < |items[1..]| :: items[1..][i] == items[i + 1];
    assert forall i | 0 < i < |items| :: items[i] == items[1..][i - 1];
  }

  lemma SameSlips(items: seq<Item>, book: Book, mid: Book, w: World, scope: Option<set<int>>)
    requires forall i | 0 <= i < |items| :: (items[i].id in book <==> items[i].id in mid)
    requires forall i | 0 <= i < |items| && items[i].id in book :: book[items[i].id] == mid[items[i].id]
    ensures NoneSlips(items, book, w, scope) <==> NoneSlips(items, mid, w, scope)
  {
    hide Slips;
  }

  // A ledger and a row that slip: an account-level action is current and the reminder names a message but
  // no lead. The second pass cancels what the first one created.
  lemma SomeRowSlips()
    ensures exists row: Evidence, o: Opportunity, w: World :: OneCurrent(o.actions) && KeysUnique(o.actions) && Slips(row, o, w, true)
  {
    var a := Action(0, V2(1, OfAccount("define-next-step")), Open, 0, None, "next_step", "Define and schedule the next step",
                    None, None, "", "", None, None, "", None, None, None);
    var o := Opportunity(1, true, false, true, {3}, [a]);
    var row := Evidence(true, true, FollowUpDue, Reason(0, true, false), None, None, Some(7), None, None, false, false, false, "");
    var w := World(map[7 := 3], map[], map[]);
    assert CurrentIndex(o.actions) == 0;
    assert KeyIndex(o.actions, V2(1, OfMessage(7))) == 1 by { assert o.actions[1..] == []; }
    assert Slips(row, o, w, true);
  }

  lemma WithdrawnSize(actions: seq<Action>)
    ensures |Withdrawn(actions).0| == |actions|
  {
  }

  // ------------------------------------------------------------- the ledger in place

  class Ledger {
    var book: Book
    var next: nat

    constructor ()
      ensures book == map[] && next == 0
    {
      book, next := map[], 0;
    }

    method Write(id: int, actions: seq<Action>)
      requires id in book
      modifies `book
      ensures book == old(book)[id := old(book)[id].(actions := actions)]
    {
      book := book[id := book[id].(actions := actions)];
    }

    method FindCurrent(actions: seq<Action>) returns (i: nat)
      ensures i == CurrentIndex(actions)
    {
      i := 0;
      while i < |actions| && !IsCurrent(actions[i])
        invariant 0 <= i <= |actions| && CurrentIndex(actions) == CurrentIndex(actions[i..]) + i
      {
        assert actions[i..][1..] == actions[i + 1..];
        i := i + 1;
      }
    }

    method FindKey(actions: seq<Action>, key: Key) returns (i: nat)
      ensures i == KeyIndex(actions, key)
    {
      i := 0;
      while i < |actions| && actions[i].key != key
        invariant 0 <= i <= |actions| && KeyIndex(actions, key) == KeyIndex(actions[i..], key) + i
      {
        assert actions[i..][1..] == actions[i + 1..];
        i := i + 1;
      }
    }

    // Cancel the current action when it is generated work, otherwise report it preserved.
    method WithdrawCurrent(id: int) returns (changes: seq<Change>)
      requires id in book
      modifies `book
      ensures var (actions, done) := Withdrawn(old(book)[id].actions);
              book == old(book)[id := old(book)[id].(actions := actions)] && changes == done
    {
      var actions := book[id].actions;
      var i := FindCurrent(actions);
      changes := [];
      if i < |actions| {
        if Replaceable(actions[i]) {
          Write(id, actions[i := actions[i].(status := Cancelled)]);
          changes := [ActionCancelled(actions[i].id)];
        } else {
          changes := [HumanPreserved(actions[i].id)];
        }
      }
    }

    method UpdateCurrent(id: int, i: nat, p: Proposal) returns (changes: seq<Change>)
      requires id in book && i < |book[id].actions|
      modifies `book
      ensures var actions := old(book)[id].actions;
              && book == old(book)[id := old(book)[id].(actions := actions[i := Updated(actions[i], p)])]
              && changes == if Updated(actions[i], p) == actions[i] then [] else [ActionUpdated(actions[i].id)]
    {
      hide Updated;
      var actions := book[id].actions;
      changes := [];
      if Updated(actions[i], p) != actions[i] {
        Write(id, actions[i := Updated(actions[i], p)]);
        changes := [ActionUpdated(actions[i].id)];
      } else {
        assert actions[i := Updated(actions[i], p)] == actions;
        assert book[id := book[id].(actions := actions)] == book;
      }
    }

    // Reuse the cancelled action with this key, leave a finished one, or create it.
    method Enter(id: int, p: Proposal, m: nat, created: nat) returns (changes: seq<Change>)
      requires id in book && m <= |book[id].actions|
      modifies `book
      ensures var cleared := old(book)[id].actions;
              var (actions, done) :=
                if m == |cleared| then (cleared + [Created(created, p)], [ActionCreated(created)])
                else if Reusable(cleared[m]) then (cleared[m := Reused(cleared[m], p)], [ActionReused(cleared[m].id)])
                else (cleared, [TerminalPreserved(cleared[m].id)]);
              book == old(book)[id := old(book)[id].(actions := actions)] && changes == done
    {
      hide Created, Reused;
      var cleared := book[id].actions;
      if m == |cleared| {
        Write(id, cleared + [Created(created, p)]);
        changes := [ActionCreated(created)];
      } else if Reusable(cleared[m]) {
        Write(id, cleared[m := Reused(cleared[m], p)]);
        changes := [ActionReused(cleared[m].id)];
      } else {
        changes := [TerminalPreserved(cleared[m].id)];
        assert book[id := book[id].(actions := cleared)] == book;
      }
    }

    // Update, supersede, reuse or create, so that the ledger says what is proposed.
    method Carry(id: int, p: Proposal) returns (changes: seq<Change>)
      requires id in book
      modifies this
      ensures var (actions, done) := Proposing(old(book)[id].actions, p, old(next));
              book == old(book)[id := old(book)[id].(actions := actions)] && changes == done
      ensures next == old(next) + 1
    {
      hide Updated, Created, Reused, CurrentIndex, KeyIndex, Withdrawn, Reusable;
      var actions := book[id].actions;
      var i := FindCurrent(actions);
      next := next + 1;
      if i < |actions| && actions[i].key == p.key {
        changes := UpdateCurrent(id, i, p);
        assert actions[i := actions[i]] == actions;
      } else {
        changes := Supersede(id, p, next - 1);
      }
    }

    // The proposal is not what is current: withdraw that, then enter the proposal.
    method Supersede(id: int, p: Proposal, created: nat) returns (changes: seq<Change>)
      requires id in book
      requires var i := CurrentIndex(book[id].actions); i == |book[id].actions| || book[id].actions[i].key != p.key
      modifies `book
      ensures var (actions, done) := Proposing(old(book)[id].actions, p, created);
              book == old(book)[id := old(book)[id].(actions := actions)] && changes == done
    {
      hide Updated, Created, Reused, CurrentIndex, KeyIndex, Withdrawn, Reusable;
      var actions := book[id].actions;
      WithdrawnSize(actions);
      var cancelled := WithdrawCurrent(id);
      var m := FindKey(actions, p.key);
      var entered := Enter(id, p, m, created);
      changes := cancelled + entered;
    }

    // _reconcile_row, for an Opportunity that exists.
    method ReconcileOne(id: int, row: Evidence, w: World, inScope: bool) returns (r: Result<seq<Change>>)
      requires id in book
      modifies this
      ensures var spec := ReconcileRow(row, old(book)[id], w, inScope, old(next));
              && (r.Raised? <==> spec.None?)
              && (r.Ok? ==> book == old(book)[id := old(book)[id].(actions := spec.value.0)] && r.value == spec.value.1)
      ensures r.Ok? ==> RowsTell(row, old(book)[id], book[id].actions, old(next))
      ensures next == old(next) + 1
    {
      if ReconcileRow(row, book[id], w, inScope, next).Some? { WrittenSays(row, book[id], w, inScope, next); }
      hide Withdrawn, Proposing, ProposalFor, RowsTell;
      var o := book[id];
      var i := FindCurrent(o.actions);
      var changes;
      if !Eligible(row, o, inScope) || !row.shouldRemind || (i < |o.actions| && !Replaceable(o.actions[i])) {
        changes := WithdrawCurrent(id);
        next := next + 1;
        return Ok(changes);
      }
      match ProposalFor(row, o, w, if i < |o.actions| then Some(o.actions[i]) else None) {
        case Untranslatable =>
          next := next + 1;
          return Raised;
        case NoProposal =>
          changes := WithdrawCurrent(id);
          next := next + 1;
        case Proposes(p) =>
          changes := Carry(id, p);
      }
      return Ok(changes);
    }

    // The transaction: a raise, or a dry run, leaves the ledger as it was.
    method Reconcile(rows: seq<Row>, w: World, scope: Option<set<int>>, apply: bool) returns (r: Result<seq<Change>>)
      modifies this
      ensures var spec := Pass(Work(rows), old(book), w, scope, old(next));
              && (r.Raised? <==> spec.None?)
              && (r.Ok? ==> r.value == spec.value.1)
              && book == if r.Ok? && apply then spec.value.0 else old(book)
    {
      hide ReconcileRow, Work;
      var before, items := book, Work(rows);
      ghost var first := next;
      var changes, i := [], 0;
      assert items[0..] == items;
      AfterNothing(Pass(items, book, w, scope, next));
      while i < |items|
        invariant 0 <= i <= |items|
        invariant Pass(items, before, w, scope, first) == After(changes, Pass(items[i..], book, w, scope, next))
      {
        assert items[i..][1..] == items[i + 1..];
        var item := items[i];
        if item.id in book {
          var done := ReconcileOne(item.id, item.evidence, w, InScope(scope, item.id));
          if done.Raised? {
            book := before;
            return Raised;
          }
          AfterBoth(changes, done.value, Pass(items[i + 1..], book, w, scope, next));
          changes := changes + done.value;
        }
        i := i + 1;
      }
      assert items[i..] == [];
      if !apply {
        book := before;
      }
      return Ok(changes);
    }
  }
}
