/**
 Bounded Gmail searches and the choice of threads to fetch (`gmail/data_sync.py`).
 */
module GmailSearch {
  import opened Outcomes
  import opened Sequences

  const EMAILS_PER_SEARCH_QUERY := 40
  const PARTICIPANT_QUERY_MAX_CHARS := 6000
  const KNOWN_SEARCH_MAX_MESSAGES_PER_QUERY := 500
  const KNOWN_SEARCH_MAX_MESSAGES_PER_ADDRESS := 2000

  ghost predicate Distinct<T(!new)>(xs: seq<T>) {
    forall i, j | 0 <= i < j < |xs| :: xs[i] != xs[j]
  }

  // ---------------------------------------------------------------- query batches

  function Decimal(n: nat): string {
    if n < 10 then [['0', '1', '2', '3', '4', '5', '6', '7', '8', '9'][n]] else Decimal(n / 10) + Decimal(n % 10)
  }

  function Terms(emails: seq<string>): string {
    if emails == [] then ""
    else
      var e := emails[0];
      var own := "from:" + e + " to:" + e + " cc:" + e + " bcc:" + e;
      if |emails| == 1 then own else own + " " + Terms(emails[1..])
  }

  function ParticipantQuery(emails: seq<string>, sinceDays: nat): string {
    "newer_than:" + Decimal(sinceDays) + "d -label:drafts -label:scheduled {" + Terms(emails) + "}"
  }

  function FourTerms(e: string): string {
    "from:" + e + " to:" + e + " cc:" + e + " bcc:" + e
  }

  function Joined(parts: seq<string>): string {
    if parts == [] then "" else if |parts| == 1 then parts[0] else parts[0] + " " + Joined(parts[1..])
  }

  // A query asks for each address as sender and as each kind of receiver, and for nothing else.
  lemma {:induction false} QueryNames(emails: seq<string>)
    ensures Terms(emails) == Joined(seq(|emails|, i requires 0 <= i < |emails| => FourTerms(emails[i])))
  {
    var parts := seq(|emails|, i requires 0 <= i < |emails| => FourTerms(emails[i]));
    if |emails| == 1 {
      assert parts == [FourTerms(emails[0])];
    } else if emails != [] {
      QueryNames(emails[1..]);
      assert parts[1..] == seq(|emails[1..]|, i requires 0 <= i < |emails[1..]| => FourTerms(emails[1..][i]));
    }
  }

  predicate Fits(batch: seq<string>, sinceDays: nat) {
    |batch| <= EMAILS_PER_SEARCH_QUERY && |ParticipantQuery(batch, sinceDays)| <= PARTICIPANT_QUERY_MAX_CHARS
  }

  // The batches are the addresses in order, none left out; each fits one query unless a single address
  // does not; and none could have taken the first address of the next.
  ghost predicate Batched(emails: seq<string>, batches: seq<seq<string>>, sinceDays: nat) {
    && Flatten(batches) == emails
    && (forall i | 0 <= i < |batches| :: batches[i] != [] && (|batches[i]| == 1 || Fits(batches[i], sinceDays)))
    && (forall i | 0 < i < |batches| :: !Fits(batches[i - 1] + [batches[i][0]], sinceDays))
  }

  lemma BatchExtended(emails: seq<string>, batches: seq<seq<string>>, batch: seq<string>, sinceDays: nat, e: string)
    requires batch != [] && Batched(emails, batches + [batch], sinceDays) && Fits(batch + [e], sinceDays)
    ensures Batched(emails + [e], batches + [batch + [e]], sinceDays)
  {
    hide Fits;
    var longer := batches + [batch + [e]];
    FlattenAppends(batches, batch);
    FlattenAppends(batches, batch + [e]);
    assert Flatten(batches) + (batch + [e]) == (Flatten(batches) + batch) + [e];
    forall i | 0 <= i < |longer| ensures longer[i] != [] && (|longer[i]| == 1 || Fits(longer[i], sinceDays)) {
      assert i < |batches| ==> longer[i] == (batches + [batch])[i];
    }
    forall i | 0 < i < |longer| ensures !Fits(longer[i - 1] + [longer[i][0]], sinceDays) {
      assert !Fits((batches + [batch])[i - 1] + [(batches + [batch])[i][0]], sinceDays);
    }
  }

  lemma BatchClosed(emails: seq<string>, batches: seq<seq<string>>, batch: seq<string>, sinceDays: nat, e: string)
    requires batch != [] && Batched(emails, batches + [batch], sinceDays) && !Fits(batch + [e], sinceDays)
    ensures Batched(emails + [e], batches + [batch] + [[e]], sinceDays)
  {
    hide Fits;
    FlattenAppends(batches + [batch], [e]);
  }

  method ParticipantQueryBatches(emails: seq<string>, sinceDays: nat) returns (batches: seq<seq<string>>)
    ensures Batched(emails, batches, sinceDays)
    ensures forall i | 0 <= i < |batches| ::
              1 <= |batches[i]| && (|batches[i]| == 1 || (|batches[i]| <= 40 && |ParticipantQuery(batches[i], sinceDays)| <= 6000))
  {
    hide Fits, Batched, Flatten;
    batches := [];
    var batch: seq<string>, i := [], 0;
    OneBatch(sinceDays);
    while i < |emails|
      invariant 0 <= i <= |emails| && (batch == [] <==> i == 0) && (i == 0 ==> batches == [])
      invariant i > 0 ==> Batched(emails[..i], batches + [batch], sinceDays)
    {
      var e := emails[i];
      assert emails[..i + 1] == emails[..i] + [e];
      var candidate := batch + [e];
      if batch != [] && !Fits(candidate, sinceDays) {
        BatchClosed(emails[..i], batches, batch, sinceDays, e);
        batches := batches + [batch];
        batch := [e];
      } else {
        if batch != [] {
          BatchExtended(emails[..i], batches, batch, sinceDays, e);
        } else {
          assert candidate == [e] && emails[..1] == [e] && batches + [[e]] == [[e]];
        }
        batch := candidate;
      }
      i := i + 1;
    }
    assert emails[..i] == emails;
    if batch != [] {
      batches := batches + [batch];
    }
    BatchedWithin(emails, batches, sinceDays);
  }

  lemma BatchedWithin(emails: seq<string>, batches: seq<seq<string>>, sinceDays: nat)
    requires Batched(emails, batches, sinceDays)
    ensures forall i | 0 <= i < |batches| ::
              1 <= |batches[i]| && (|batches[i]| == 1 || (|batches[i]| <= 40 && |ParticipantQuery(batches[i], sinceDays)| <= 6000))
  {
    hide ParticipantQuery;
  }

  lemma OneBatch(sinceDays: nat)
    ensures Batched([], [], sinceDays) && forall e: string :: Batched([e], [[e]], sinceDays)
  {
    forall e: string ensures Batched([e], [[e]], sinceDays) {
      FlattenAppends([], [e]);
      assert [] + [[e]] == [[e]] && [] + [e] == [e];
    }
  }

  // --------------------------------------------------------------- bounded search

  // How many pages are read: up to the first that fills the budget, or all of them.
  ghost predicate ReadUpTo<T>(pages: seq<seq<T>>, maxItems: nat, calls: nat) {
    && 1 <= calls <= |pages|
    && (calls == |pages| || |Flatten(pages[..calls])| >= maxItems)
    && (forall k | 1 <= k < calls :: |Flatten(pages[..k])| < maxItems)
  }

  // The pages the service would give for one query, in order; every page but the last carries a token.
  method BoundedMessageSearch<T>(pages: seq<seq<T>>, maxItems: nat) returns (items: seq<T>, truncated: bool, calls: nat)
    requires pages != [] && maxItems > 0
    ensures ReadUpTo(pages, maxItems, calls)
    ensures items == Flatten(pages)[..Min(maxItems, |Flatten(pages)|)]
    ensures !truncated ==> items == Flatten(pages)
    ensures truncated ==> |items| == maxItems
    ensures truncated <==>
              |Flatten(pages[..calls])| > maxItems || (|Flatten(pages[..calls])| == maxItems && calls < |pages|)
  {
    items, truncated, calls := [], false, 0;
    assert Flatten(pages[..0]) == [];
    hide Flatten;
    while |items| < maxItems
      invariant 0 <= calls < |pages| && |items| < maxItems && !truncated
      invariant items == Flatten(pages[..calls])
      invariant forall k | 1 <= k <= calls :: |Flatten(pages[..k])| < maxItems
      decreases |pages| - calls
    {
      var remaining := maxItems - |items|;
      var page := pages[calls];
      PageTaken(pages, maxItems, calls, items);
      calls := calls + 1;
      items := items + page[..Min(remaining, |page|)];
      if |page| > remaining {
        truncated := true;
        break;
      }
      if calls == |pages| {
        assert pages[..calls] == pages;
        break;
      }
      if |items| >= maxItems {
        truncated := true;
        break;
      }
    }
  }

  // As much of a page as the budget allows.
  lemma PageTaken<T>(pages: seq<seq<T>>, maxItems: nat, calls: nat, items: seq<T>)
    requires calls < |pages| && items == Flatten(pages[..calls]) && |items| < maxItems
    ensures var page, read := pages[calls], Flatten(pages[..calls + 1]);
            && |read| == |items| + |page| && |read| <= |Flatten(pages)|
            && items + page[..Min(maxItems - |items|, |page|)] == read[..Min(maxItems, |read|)] == Flatten(pages)[..Min(maxItems, |read|)]
  {
    PageRead(pages, calls);
  }

  lemma {:induction false} PageRead<T>(pages: seq<seq<T>>, calls: nat)
    requires calls < |pages|
    ensures Flatten(pages[..calls + 1]) == Flatten(pages[..calls]) + pages[calls]
    ensures Flatten(pages[..calls + 1]) <= Flatten(pages)
  {
    assert pages[..calls + 1] == pages[..calls] + [pages[calls]];
    FlattenAppends(pages[..calls], pages[calls]);
    assert pages == pages[..calls + 1] + pages[calls + 1..];
    FlattenJoins(pages[..calls + 1], pages[calls + 1..]);
  }

  // -------------------------------------------------------------- splitting searches

  datatype Leaf<T> = Leaf(batch: seq<string>, items: seq<T>, truncated: bool)

  // One query and how many pages of it were read.
  datatype Query = Query(batch: seq<string>, calls: nat)

  function Calls(asked: seq<Query>): nat {
    if asked == [] then 0 else asked[0].calls + Calls(asked[1..])
  }

  function Cap(batch: seq<string>): nat {
    if |batch| == 1 then KNOWN_SEARCH_MAX_MESSAGES_PER_ADDRESS else KNOWN_SEARCH_MAX_MESSAGES_PER_QUERY
  }

  function Batches<T>(leaves: seq<Leaf<T>>): (r: seq<seq<string>>)
    ensures |r| == |leaves| && forall i | 0 <= i < |r| :: r[i] == leaves[i].batch
  {
    if leaves == [] then [] else [leaves[0].batch] + Batches(leaves[1..])
  }

  function Seen<T>(leaves: seq<Leaf<T>>): nat {
    if leaves == [] then 0 else |leaves[0].items| + Seen(leaves[1..])
  }

  function AtCap<T>(leaves: seq<Leaf<T>>): nat {
    if leaves == [] then 0 else (if leaves[0].truncated then 1 else 0) + AtCap(leaves[1..])
  }

  lemma {:induction false} TotalsJoin<T>(a: seq<Leaf<T>>, b: seq<Leaf<T>>)
    ensures Seen(a + b) == Seen(a) + Seen(b) && AtCap(a + b) == AtCap(a) + AtCap(b)
    ensures Batches(a + b) == Batches(a) + Batches(b)
  {
    if a == [] {
      assert a + b == b;
    } else {
      assert (a + b)[1..] == a[1..] + b;
      TotalsJoin(a[1..], b);
    }
  }

  // The result counters of a synchronization run.
  class Searcher<T(!new)> {
    var searchQueries: nat
    var batchesSplit: nat
    var queriesAtCap: nat
    var messagesSeen: nat
    // What the service holds for each query.
    const service: seq<string> -> seq<seq<T>>

    constructor (service: seq<string> -> seq<seq<T>>)
      ensures this.service == service && searchQueries == batchesSplit == queriesAtCap == messagesSeen == 0
    {
      this.service := service;
      searchQueries, batchesSplit, queriesAtCap, messagesSeen := 0, 0, 0, 0;
    }

    // Reading this many pages answers the query.
    ghost predicate Answers(query: Query) {
      ReadUpTo(service(query.batch), Cap(query.batch), query.calls)
    }

    // What the service holds for a batch, and what the search took of it.
    ghost predicate Fits(leaf: Leaf<T>) {
      && leaf.batch != [] && (!leaf.truncated || |leaf.batch| == 1)
      && if leaf.truncated then |leaf.items| == 2000 && leaf.items <= Flatten(service(leaf.batch))
         else leaf.items == Flatten(service(leaf.batch))
    }

    // _known_message_searches: halve a truncated batch until every query is complete or names one address.
    // `asked` lists the queries in the order they were sent.
    method Search(batch: seq<string>) returns (leaves: seq<Leaf<T>>, ghost asked: seq<Query>)
      requires batch != [] && forall b :: service(b) != []
      modifies this
      ensures Flatten(Batches(leaves)) == batch
      ensures forall i | 0 <= i < |leaves| :: Fits(leaves[i])
      ensures batchesSplit == old(batchesSplit) + |leaves| - 1
      ensures queriesAtCap == old(queriesAtCap) + AtCap(leaves)
      ensures messagesSeen == old(messagesSeen) + Seen(leaves)
      ensures |asked| == 2 * |leaves| - 1 && forall i | 0 <= i < |asked| :: Answers(asked[i])
      ensures searchQueries == old(searchQueries) + Calls(asked)
      ensures asked[0].batch == batch && ReadUpTo(service(batch), if |batch| == 1 then 2000 else 500, asked[0].calls)
      decreases |batch|
    {
      hide Flatten, Batches, Seen, AtCap, Calls, ReadUpTo;
      var items, truncated, calls := BoundedMessageSearch(service(batch), Cap(batch));
      ghost var query := Query(batch, calls);
      OneQuery(query);
      searchQueries := searchQueries + calls;
      if truncated && |batch| > 1 {
        batchesSplit := batchesSplit + 1;
        var midpoint := |batch| / 2;
        var left, askedLeft := Search(batch[..midpoint]);
        var right, askedRight := Search(batch[midpoint..]);
        leaves, asked := left + right, [query] + (askedLeft + askedRight);
        TotalsJoin(left, right);
        CallsJoin([query], askedLeft + askedRight);
        CallsJoin(askedLeft, askedRight);
        FlattenJoins(Batches(left), Batches(right));
        assert batch[..midpoint] + batch[midpoint..] == batch;
      } else {
        if truncated {
          queriesAtCap := queriesAtCap + 1;
        }
        messagesSeen := messagesSeen + |items|;
        leaves, asked := [Leaf(batch, items, truncated)], [query];
        OneLeaf(leaves[0]);
      }
    }
  }

  lemma OneQuery(query: Query)
    ensures Calls([query]) == query.calls
  {
    assert [query][1..] == [];
  }

  lemma {:induction false} CallsJoin(a: seq<Query>, b: seq<Query>)
    ensures Calls(a + b) == Calls(a) + Calls(b)
  {
    if a == [] {
      assert a + b == b;
    } else {
      assert (a + b)[1..] == a[1..] + b;
      CallsJoin(a[1..], b);
    }
  }

  lemma OneLeaf<T>(leaf: Leaf<T>)
    ensures Seen([leaf]) == |leaf.items| && AtCap([leaf]) == (if leaf.truncated then 1 else 0)
    ensures Flatten(Batches([leaf])) == leaf.batch
  {
    assert [leaf][1..] == [];
    assert Batches([leaf]) == [leaf.batch];
    assert [leaf.batch][1..] == [] && leaf.batch + [] == leaf.batch;
  }

  // ---------------------------------------------------------------- fair selection

  // Thread ids batch by batch, position by position.
  function Column(batches: seq<seq<string>>, index: nat): seq<string> {
    if batches == [] then [] else (if index < |batches[0]| then [batches[0][index]] else []) + Column(batches[1..], index)
  }

  function Unseen(order: seq<string>, taken: seq<string>): seq<string> {
    if order == [] then taken else Unseen(order[1..], if order[0] in taken then taken else taken + [order[0]])
  }

  // The first `n` columns, each id once.
  function RoundRobin(batches: seq<seq<string>>, n: nat): seq<string> {
    if n == 0 then [] else Unseen(Column(batches, n - 1), RoundRobin(batches, n - 1))
  }

  function Longest(batches: seq<seq<string>>): (n: nat)
    ensures forall i | 0 <= i < |batches| :: |batches[i]| <= n
  {
    if batches == [] then 0
    else
      assert forall i | 1 <= i < |batches| :: batches[i] == batches[1..][i - 1];
      Max(|batches[0]|, Longest(batches[1..]))
  }

  method AddColumn(batches: seq<seq<string>>, index: nat, before: seq<string>) returns (ordered: seq<string>)
    ensures ordered == Unseen(Column(batches, index), before)
  {
    ordered := before;
    var seen := set x | x in ordered;
    var b := 0;
    while b < |batches|
      invariant 0 <= b <= |batches|
      invariant Unseen(Column(batches, index), before) == Unseen(Column(batches[b..], index), ordered)
      invariant seen == set x | x in ordered
    {
      ColumnFirst(batches[b..], index);
      assert batches[b..][1..] == batches[b + 1..];
      var batch := batches[b];
      if index < |batch| {
        var id := batch[index];
        UnseenFirst(id, Column(batches[b + 1..], index), ordered);
        if id !in seen {
          seen := seen + {id};
          ordered := ordered + [id];
        }
      }
      b := b + 1;
    }
  }

  lemma {:induction false} ColumnFirst(batches: seq<seq<string>>, index: nat)
    requires batches != []
    ensures Column(batches, index)
         == if index < |batches[0]| then [batches[0][index]] + Column(batches[1..], index) else Column(batches[1..], index)
  {
    assert [] + Column(batches[1..], index) == Column(batches[1..], index);
  }

  method RoundRobinThreadIds(batches: seq<seq<string>>) returns (ordered: seq<string>)
    ensures ordered == RoundRobin(batches, Longest(batches))
  {
    ordered := [];
    var index := 0;
    while index < Longest(batches)
      invariant 0 <= index <= Longest(batches) && ordered == RoundRobin(batches, index)
    {
      ordered := AddColumn(batches, index, ordered);
      index := index + 1;
    }
  }

  lemma {:induction false} UnseenFirst(id: string, rest: seq<string>, taken: seq<string>)
    ensures Unseen([id] + rest, taken) == Unseen(rest, if id in taken then taken else taken + [id])
  {
    assert ([id] + rest)[1..] == rest;
  }

  lemma {:induction false} UnseenFacts(order: seq<string>, taken: seq<string>)
    requires Distinct(taken)
    ensures var r := Unseen(order, taken);
            Distinct(r) && taken <= r && |r| <= |taken| + |order| && forall x :: x in r <==> x in taken || x in order
  {
    if order != [] {
      var next := if order[0] in taken then taken else taken + [order[0]];
      UnseenFacts(order[1..], next);
      assert order == [order[0]] + order[1..];
    }
  }

  lemma {:induction false} ColumnFacts(batches: seq<seq<string>>, index: nat)
    ensures |Column(batches, index)| <= |batches|
    ensures forall x :: x in Column(batches, index) <==> exists b | 0 <= b < |batches| :: index < |batches[b]| && batches[b][index] == x
  {
    if batches != [] {
      ColumnFacts(batches[1..], index);
      forall x ensures x in Column(batches, index) <==> exists b | 0 <= b < |batches| :: index < |batches[b]| && batches[b][index] == x {
        if b :| 0 <= b < |batches| && index < |batches[b]| && batches[b][index] == x {
          if b > 0 { assert batches[1..][b - 1] == batches[b]; }
        }
        if b :| 0 <= b < |batches[1..]| && index < |batches[1..][b]| && batches[1..][b][index] == x {
          assert batches[b + 1] == batches[1..][b];
        }
      }
    }
  }

  ghost predicate AmongFirst(batches: seq<seq<string>>, n: int, x: string) {
    exists b, k | 0 <= b < |batches| && 0 <= k < |batches[b]| :: k < n && batches[b][k] == x
  }

  // Round robin keeps every id once and is fair: the k-th id of every batch is among the first k rounds.
  lemma {:induction false} RoundRobinFair(batches: seq<seq<string>>, n: nat)
    ensures var r := RoundRobin(batches, n);
            && Distinct(r) && |r| <= n * |batches|
            && (forall x :: x in r <==> AmongFirst(batches, n, x))
  {
    if n > 0 {
      hide AmongFirst, Distinct, Column, Unseen;
      RoundRobinFair(batches, n - 1);
      var before, column := RoundRobin(batches, n - 1), Column(batches, n - 1);
      ColumnFacts(batches, n - 1);
      UnseenFacts(column, before);
      assert (n - 1) * |batches| + |batches| == n * |batches|;
      RoundsGrow(batches, n, before, column, RoundRobin(batches, n));
    }
  }

  // One more column among the rounds.
  lemma RoundsGrow(batches: seq<seq<string>>, n: nat, before: seq<string>, column: seq<string>, after: seq<string>)
    requires n > 0 && forall x :: x in after <==> x in before || x in column
    requires forall x :: x in before <==> AmongFirst(batches, n - 1, x)
    requires forall x :: x in column <==> exists b | 0 <= b < |batches| :: n - 1 < |batches[b]| && batches[b][n - 1] == x
    ensures forall x :: x in after <==> AmongFirst(batches, n, x)
  {
    forall x ensures x in after <==> AmongFirst(batches, n, x) {
      if b, k :| 0 <= b < |batches| && 0 <= k < |batches[b]| && k < n && batches[b][k] == x {
        if k < n - 1 { assert x in before; } else { assert x in column; }
      }
      if x in column {
        var b :| 0 <= b < |batches| && n - 1 < |batches[b]| && batches[b][n - 1] == x;
      }
    }
  }

  // All rounds together hold every id.
  lemma {:induction false} InRounds(batches: seq<seq<string>>, ids: seq<string>)
    requires forall x :: x in ids <==> AmongFirst(batches, Longest(batches), x)
    ensures forall x :: x in ids <==> exists b, k | 0 <= b < |batches| && 0 <= k < |batches[b]| :: batches[b][k] == x
  {
    forall x ensures x in ids <==> exists b, k | 0 <= b < |batches| && 0 <= k < |batches[b]| :: batches[b][k] == x {
      if b, k :| 0 <= b < |batches| && 0 <= k < |batches[b]| && batches[b][k] == x {
        assert k < Longest(batches);
      }
    }
  }

  // Take unseen ids in order until the limit is reached.
  function Fill(order: seq<string>, unseen: set<string>, limit: int, selected: seq<string>): seq<string> {
    if order == [] || |selected| >= limit then selected
    else Fill(order[1..], unseen, limit, if order[0] in unseen && order[0] !in selected then selected + [order[0]] else selected)
  }

  method FillUp(order: seq<string>, unseen: set<string>, limit: int, start: seq<string>) returns (selected: seq<string>)
    ensures selected == Fill(order, unseen, limit, start)
  {
    selected := start;
    var i := 0;
    while i < |order|
      invariant 0 <= i <= |order| && Fill(order, unseen, limit, start) == Fill(order[i..], unseen, limit, selected)
    {
      if |selected| >= limit {
        break;
      }
      assert order[i..][1..] == order[i + 1..];
      if order[i] in unseen && order[i] !in selected {
        selected := selected + [order[i]];
      }
      i := i + 1;
    }
  }

  lemma {:induction false} FillChooses(order: seq<string>, unseen: set<string>, limit: int, selected: seq<string>)
    requires Distinct(selected)
    ensures var r := Fill(order, unseen, limit, selected);
            && Distinct(r) && selected <= r && (|selected| <= limit ==> |r| <= limit)
            && (forall x | x in r && x !in selected :: x in order && x in unseen)
  {
    if order != [] && |selected| < limit {
      var next := if order[0] in unseen && order[0] !in selected then selected + [order[0]] else selected;
      FillChooses(order[1..], unseen, limit, next);
    }
  }

  // Candidate `x` is taken only after every unseen id that stands before it.
  ghost predicate InTurn(order: seq<string>, unseen: set<string>, before: seq<string>, x: string) {
    exists l :: 0 <= l < |order| && order[l] == x && forall k | 0 <= k < l && order[k] in unseen :: order[k] in before
  }

  // Filling up takes unseen ids strictly in order.
  lemma {:induction false} FillInTurn(order: seq<string>, unseen: set<string>, limit: int, selected: seq<string>, i: nat)
    requires |selected| <= i < |Fill(order, unseen, limit, selected)|
    ensures var r := Fill(order, unseen, limit, selected); InTurn(order, unseen, r[..i], r[i])
  {
    var r := Fill(order, unseen, limit, selected);
    var next := if order[0] in unseen && order[0] !in selected then selected + [order[0]] else selected;
    FillCovers(order[1..], unseen, limit, next);
    if i < |next| {
      assert r[i] == next[i] == order[0];
    } else {
      FillInTurn(order[1..], unseen, limit, next, i);
      var l :| 0 <= l < |order[1..]| && order[1..][l] == r[i] && forall k | 0 <= k < l && order[1..][k] in unseen :: order[1..][k] in r[..i];
      forall k | 0 <= k < l + 1 && order[k] in unseen ensures order[k] in r[..i] {
        if k > 0 {
          assert order[1..][k - 1] == order[k];
        } else {
          assert order[0] in next;
          var n :| 0 <= n < |next| && next[n] == order[0];
          assert r[..i][n] == order[0];
        }
      }
      assert order[l + 1] == r[i];
    }
  }

  lemma {:induction false} FillCovers(order: seq<string>, unseen: set<string>, limit: int, selected: seq<string>)
    ensures var r := Fill(order, unseen, limit, selected);
            selected <= r && (|r| < limit ==> forall x | x in order && x in unseen :: x in r)
  {
    if order != [] && |selected| < limit {
      var next := if order[0] in unseen && order[0] !in selected then selected + [order[0]] else selected;
      FillCovers(order[1..], unseen, limit, next);
      var r := Fill(order, unseen, limit, selected);
      assert order == [order[0]] + order[1..];
      assert forall x | x in next :: x in r;
    }
  }

  lemma {:induction false} FillFacts(order: seq<string>, unseen: set<string>, limit: int, selected: seq<string>)
    requires Distinct(selected)
    ensures var r := Fill(order, unseen, limit, selected);
            && Distinct(r) && selected <= r && (|selected| <= limit ==> |r| <= limit)
            && (forall x | x in r && x !in selected :: x in order && x in unseen)
            && (|r| < limit ==> forall x | x in order && x in unseen :: x in r)
  {
    hide Fill, Distinct;
    FillChooses(order, unseen, limit, selected);
    FillCovers(order, unseen, limit, selected);
  }

  function Filtered(order: seq<string>, keep: set<string>): (r: seq<string>)
    ensures forall x :: x in r <==> x in order && x in keep
  {
    if order == [] then [] else (if order[0] in keep then [order[0]] else []) + Filtered(order[1..], keep)
  }

  ghost predicate InOrder(order: seq<string>, x: string, y: string) {
    exists k, l :: 0 <= k < l < |order| && order[k] == x && order[l] == y
  }

  // Filtering keeps the order.
  lemma {:induction false} FilteredInOrder(order: seq<string>, keep: set<string>, i: nat, j: nat)
    requires i < j < |Filtered(order, keep)|
    ensures InOrder(order, Filtered(order, keep)[i], Filtered(order, keep)[j])
  {
    hide InOrder;
    var r, rest, tail := Filtered(order, keep), Filtered(order[1..], keep), order[1..];
    if order[0] in keep && i == 0 {
      assert r[j] == rest[j - 1];
      HeadInOrder(order, r[j]);
    } else {
      var n := if order[0] in keep then 1 else 0;
      FilteredInOrder(tail, keep, i - n, j - n);
      TailInOrder(order, r[i], r[j]);
    }
  }

  lemma HeadInOrder(order: seq<string>, y: string)
    requires order != [] && y in order[1..]
    ensures InOrder(order, order[0], y)
  {
    var l :| 0 <= l < |order[1..]| && order[1..][l] == y;
    assert order[l + 1] == y;
  }

  lemma TailInOrder(order: seq<string>, x: string, y: string)
    requires order != [] && InOrder(order[1..], x, y)
    ensures InOrder(order, x, y)
  {
    var k, l :| 0 <= k < l < |order[1..]| && order[1..][k] == x && order[1..][l] == y;
    assert order[k + 1] == x && order[l + 1] == y;
  }

  // Known threads, the recently discovered ones first.
  function KnownPriority(known: seq<string>, discovery: seq<string>): (r: seq<string>)
    ensures forall x :: x in r <==> x in known
  {
    Filtered(discovery, set x | x in known) + Filtered(known, (set x | x in known) - (set x | x in discovery))
  }

  // Among the known, those discovered again come first.
  lemma {:induction false} RecentFirst(known: seq<string>, discovery: seq<string>, i: nat, j: nat)
    requires i < j < |KnownPriority(known, discovery)| && KnownPriority(known, discovery)[j] in discovery
    ensures KnownPriority(known, discovery)[i] in discovery
  {
    var recent := Filtered(discovery, set x | x in known);
    var others := Filtered(known, (set x | x in known) - (set x | x in discovery));
    assert forall k | 0 <= k < |others| :: others[k] in others;
    assert forall k | 0 <= k < |recent| :: recent[k] in recent;
  }

  method SelectThreadFetches(knownBatches: seq<seq<string>>, discovery: seq<string>, unseen: set<string>, maxFetches: int)
    returns (selected: seq<string>)
    // A duplicate-free choice of unseen candidates within the budget, falling short only when all are taken.
    ensures Distinct(selected) && |selected| <= Max(0, maxFetches)
    ensures forall x | x in selected :: x in unseen && Candidate(knownBatches, discovery, x)
    ensures |selected| < maxFetches ==> forall x | x in unseen && Candidate(knownBatches, discovery, x) :: x in selected
    // The last quarter goes to discovery while unseen discovered threads remain.
    ensures (exists x :: x in discovery && x in unseen && x !in selected) ==>
              forall i | Max(0, 3 * maxFetches / 4) <= i < |selected| :: selected[i] in discovery
    // The share before it goes to known threads while unseen ones remain: rediscovered first, then round robin.
    ensures ShareIsKnown(KnownPriority(RoundRobin(knownBatches, Longest(knownBatches)), discovery), unseen,
                         if discovery == [] then maxFetches else 3 * maxFetches / 4, selected)
  {
    if maxFetches <= 0 {
      return [];
    }
    hide RoundRobin, Fill, Distinct, Candidate, KnownPriority, ShareIsKnown;
    var known := RoundRobinThreadIds(knownBatches);
    KnownCandidates(knownBatches, discovery, known);
    selected := SelectFrom(KnownPriority(known, discovery), discovery, unseen, maxFetches);
  }

  function KnownShare(discovery: seq<string>, maxFetches: int): int {
    if discovery == [] then maxFetches else 3 * maxFetches / 4
  }

  // Up to the share, the choice is the unseen ids of `priority` in their order, as long as there are any.
  ghost predicate ShareIsKnown(priority: seq<string>, unseen: set<string>, share: int, selected: seq<string>) {
    forall i | 0 <= i < Min(share, |selected|) ::
      InTurn(priority, unseen, selected[..i], selected[i]) || forall x | x in priority && x in unseen :: x in selected[..i]
  }

  lemma {:induction false} ShareFilled(priority: seq<string>, unseen: set<string>, share: int, selected: seq<string>)
    requires Fill(priority, unseen, share, []) <= selected
    ensures ShareIsKnown(priority, unseen, share, selected)
  {
    hide Fill;
    var first := Fill(priority, unseen, share, []);
    FillCovers(priority, unseen, share, []);
    forall i | 0 <= i < Min(share, |selected|)
      ensures InTurn(priority, unseen, selected[..i], selected[i]) || forall x | x in priority && x in unseen :: x in selected[..i]
    {
      if i < |first| {
        FillInTurn(priority, unseen, share, [], i);
        assert selected[..i] == first[..i] && selected[i] == first[i];
      } else {
        forall x | x in priority && x in unseen ensures x in selected[..i] {
          assert x in first;
          var k :| 0 <= k < |first| && first[k] == x;
          assert selected[..i][k] == x;
        }
      }
    }
  }

  // The three loops: known threads up to their share, discovery, and known threads again.
  method SelectFrom(priority: seq<string>, discovery: seq<string>, unseen: set<string>, maxFetches: int) returns (selected: seq<string>)
    requires maxFetches > 0
    ensures Distinct(selected) && |selected| <= maxFetches
    ensures forall x | x in selected :: x in unseen && (x in priority || x in discovery)
    ensures |selected| < maxFetches ==> forall x | x in unseen && (x in priority || x in discovery) :: x in selected
    ensures (exists x :: x in discovery && x in unseen && x !in selected) ==>
              forall i | Max(0, 3 * maxFetches / 4) <= i < |selected| :: selected[i] in discovery
    ensures ShareIsKnown(priority, unseen, KnownShare(discovery, maxFetches), selected)
  {
    hide Fill, Distinct, ShareIsKnown;
    var knownBudget := if discovery == [] then maxFetches else 3 * maxFetches / 4;
    var first := FillUp(priority, unseen, knownBudget, []);
    var second := FillUp(discovery, unseen, maxFetches, first);
    selected := FillUp(priority, unseen, maxFetches, second);
    FilledTwice(priority, discovery, unseen, knownBudget, maxFetches);
    FilledThrice(priority, discovery, unseen, maxFetches, first, second);
    QuarterDiscovers(first, second, selected, discovery, unseen, maxFetches);
    ShareFilled(priority, unseen, knownBudget, selected);
  }

  lemma {:induction false} KnownCandidates(knownBatches: seq<seq<string>>, discovery: seq<string>, known: seq<string>)
    requires known == RoundRobin(knownBatches, Longest(knownBatches))
    ensures forall x :: Candidate(knownBatches, discovery, x) <==> x in known || x in discovery
  {
    hide RoundRobin, Candidate;
    RoundRobinFair(knownBatches, Longest(knownBatches));
    InRounds(knownBatches, known);
    CandidatesAre(knownBatches, discovery, known);
  }

  // The known share, then discovery.
  lemma {:induction false} FilledTwice(priority: seq<string>, discovery: seq<string>, unseen: set<string>, budget: int, maxFetches: int)
    requires 0 <= budget <= maxFetches
    ensures var first := Fill(priority, unseen, budget, []);
            var second := Fill(discovery, unseen, maxFetches, first);
            && Distinct(second) && first <= second && |first| <= budget && |second| <= maxFetches
            && (forall x | x in first :: x in priority && x in unseen)
            && (forall x | x in second && x !in first :: x in discovery && x in unseen)
            && (|second| < maxFetches ==> forall x | x in discovery && x in unseen :: x in second)
  {
    hide Fill;
    FillFacts(priority, unseen, budget, []);
    var first := Fill(priority, unseen, budget, []);
    hide Distinct;
    FillFacts(discovery, unseen, maxFetches, first);
  }

  // The rest of the budget goes to known threads again.
  lemma {:induction false} FilledThrice(priority: seq<string>, discovery: seq<string>, unseen: set<string>, maxFetches: int, first: seq<string>, second: seq<string>)
    requires Distinct(second) && |second| <= maxFetches
    requires forall x | x in first :: x in priority && x in unseen
    requires forall x | x in second && x !in first :: x in discovery && x in unseen
    requires |second| < maxFetches ==> forall x | x in discovery && x in unseen :: x in second
    ensures var r := Fill(priority, unseen, maxFetches, second);
            && Distinct(r) && second <= r && |r| <= maxFetches
            && (forall x | x in r :: x in unseen && (x in priority || x in discovery))
            && (|r| < maxFetches ==> forall x | x in unseen && (x in priority || x in discovery) :: x in r)
  {
    hide Fill, Distinct;
    FillFacts(priority, unseen, maxFetches, second);
    var r := Fill(priority, unseen, maxFetches, second);
    assert forall x | x in second :: x in r;
  }

  lemma CandidatesAre(knownBatches: seq<seq<string>>, discovery: seq<string>, known: seq<string>)
    requires forall x :: x in known <==> exists b, k | 0 <= b < |knownBatches| && 0 <= k < |knownBatches[b]| :: knownBatches[b][k] == x
    ensures forall x :: Candidate(knownBatches, discovery, x) <==> x in known || x in discovery
  {
    forall x ensures Candidate(knownBatches, discovery, x) <==> x in known || x in discovery {
      assert x in known <==> exists b, k | 0 <= b < |knownBatches| && 0 <= k < |knownBatches[b]| :: knownBatches[b][k] == x;
    }
  }

  // While an unseen discovered thread is left out, the budget was full before known threads came again, and what
  // discovery added is what stands past the known share.
  lemma QuarterDiscovers(first: seq<string>, second: seq<string>, selected: seq<string>, discovery: seq<string>,
                         unseen: set<string>, maxFetches: int)
    requires Distinct(second) && first <= second <= selected && |selected| <= maxFetches
    requires discovery != [] ==> |first| <= Max(0, 3 * maxFetches / 4)
    requires forall x | x in second && x !in first :: x in discovery
    requires |second| < maxFetches ==> forall x | x in discovery && x in unseen :: x in second
    ensures (exists x :: x in discovery && x in unseen && x !in selected) ==>
              forall i | Max(0, 3 * maxFetches / 4) <= i < |selected| :: selected[i] in discovery
  {
    if x :| x in discovery && x in unseen && x !in selected {
      assert forall y | y in second :: y in selected;
      assert |second| == maxFetches && selected == second;
      forall i | Max(0, 3 * maxFetches / 4) <= i < |selected| ensures selected[i] in discovery {
        NotInPrefix(first, second, i);
      }
    }
  }

  predicate Candidate(knownBatches: seq<seq<string>>, discovery: seq<string>, x: string) {
    x in discovery || exists b, k | 0 <= b < |knownBatches| && 0 <= k < |knownBatches[b]| :: knownBatches[b][k] == x
  }

  lemma NotInPrefix<T(!new)>(a: seq<T>, b: seq<T>, i: nat)
    requires a <= b && Distinct(b) && |a| <= i < |b|
    ensures b[i] !in a
  {
    forall k | 0 <= k < |a| ensures a[k] != b[i] { assert a[k] == b[k]; }
  }
}
