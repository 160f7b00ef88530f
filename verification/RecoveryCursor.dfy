/**
 The rotating recovery cursor over eligible deals (`gmail/handoff.py`): each pass scans the next deals after
 the cursor, or starts over when there are none.
 */
module RecoveryCursor {
  import opened Ordering
  import opened Outcomes

  // The eligible deals in (low, high].
  ghost function Between(eligible: set<int>, low: int, high: int): set<int> {
    set d | d in eligible && low < d <= high
  }

  ghost function Above(eligible: set<int>, low: int): set<int> {
    set d | d in eligible && low < d
  }

  // The first `limit` eligible deals above `low`, in ascending order.
  ghost predicate FirstAbove(eligible: set<int>, low: int, limit: nat, batch: seq<int>) {
    && Ascends(batch) && |batch| == Min(limit, |Above(eligible, low)|)
    && (forall d | d in batch :: d in Above(eligible, low))
    && (batch != [] ==> forall d | d in Above(eligible, low) && d <= batch[|batch| - 1] :: d in batch)
  }

  // One pass, and the cursor it leaves.
  ghost predicate Pass(eligible: set<int>, limit: nat, cursor: int, batch: seq<int>, next: int) {
    && FirstAbove(eligible, if Above(eligible, cursor) == {} && cursor != 0 then 0 else cursor, limit, batch)
    && next == if batch == [] then cursor else batch[|batch| - 1]
  }

  lemma BelowLast(xs: seq<int>, last: nat, k: nat)
    requires Ascends(xs) && last < |xs| && k < |xs| && xs[k] <= xs[last]
    ensures k <= last
  {
  }

  method FirstOf(eligible: set<int>, low: int, limit: nat) returns (batch: seq<int>)
    ensures FirstAbove(eligible, low, limit, batch)
  {
    var above := set d | d in eligible && low < d;
    var xs := Sorted(above);
    SortedSize(xs, above);
    batch := xs[..Min(limit, |xs|)];
    assert forall d | d in batch :: d in xs;
    if batch != [] {
      forall d | d in above && d <= batch[|batch| - 1] ensures d in batch {
        var k :| 0 <= k < |xs| && xs[k] == d;
        BelowLast(xs, |batch| - 1, k);
        assert batch[k] == d;
      }
    }
  }

  lemma {:induction false} SortedSize(xs: seq<int>, s: set<int>)
    requires Ascends(xs) && forall x :: x in xs <==> x in s
    ensures |xs| == |s|
  {
    if xs == [] {
      assert s == {} by {
        forall x | x in s ensures x in xs {}
      }
    } else {
      var n := |xs| - 1;
      forall x ensures x in xs[..n] <==> x in s - {xs[n]} {
        if x in xs[..n] {
          var k :| 0 <= k < n && xs[k] == x;
          assert xs[k] < xs[n];
        }
        if x in s - {xs[n]} {
          var k :| 0 <= k < |xs| && xs[k] == x;
          assert k < n;
        }
      }
      SortedSize(xs[..n], s - {xs[n]});
    }
  }

  class Recovery {
    // last_deal_id of the newest recorded run.
    var cursor: int

    constructor ()
      ensures cursor == 0
    {
      cursor := 0;
    }

    // One pass of recover_invitation_gmail_sequences: which deals it scans.
    method Recover(eligible: set<int>, limit: nat) returns (batch: seq<int>)
      requires 1 <= limit <= 1000 && cursor >= 0 && forall d | d in eligible :: d > 0
      modifies this
      ensures Pass(eligible, limit, old(cursor), batch, cursor) && cursor >= 0
    {
      batch := FirstOf(eligible, cursor, limit);
      if batch == [] {
        assert Above(eligible, cursor) == {};
        if cursor != 0 {
          batch := FirstOf(eligible, 0, limit);
        }
      } else {
        assert batch[0] in batch;
      }
      if batch != [] {
        assert batch[|batch| - 1] in batch;
        cursor := batch[|batch| - 1];
      }
    }
  }

  // ---------------------------------------------------------------------- fairness

  // The quotient rounded up.
  function CeilDiv(n: nat, d: nat): nat
    requires d > 0
  {
    if n == 0 then 0 else if n <= d then 1 else 1 + CeilDiv(n - d, d)
  }

  lemma {:induction false} CeilDivRoundsUp(n: nat, d: nat)
    requires d > 0
    ensures n <= CeilDiv(n, d) * d && (n > 0 ==> (CeilDiv(n, d) - 1) * d < n)
  {
    if n > d {
      CeilDivRoundsUp(n - d, d);
      assert CeilDiv(n, d) * d == (CeilDiv(n, d) - 1) * d + d;
      assert (CeilDiv(n, d) - 1) * d == (CeilDiv(n - d, d) - 1) * d + d;
    }
  }

  // How many passes deal `d` still has to wait at most.
  ghost function Wait(eligible: set<int>, limit: nat, cursor: int, d: int): nat
    requires limit > 0
  {
    if cursor < d then CeilDiv(|Between(eligible, cursor, d)|, limit)
    else CeilDiv(|Above(eligible, cursor)|, limit) + CeilDiv(|Between(eligible, 0, d)|, limit)
  }

  lemma CeilSteps(n: nat, d: nat)
    requires d > 0
    ensures n > d ==> CeilDiv(n - d, d) == CeilDiv(n, d) - 1
    ensures 0 < n <= d ==> CeilDiv(n, d) == 1
    ensures CeilDiv(0, d) == 0 && (n > 0 ==> CeilDiv(n, d) > 0)
  {
  }

  lemma {:induction false} CeilMonotone(m: nat, n: nat, d: nat)
    requires d > 0 && m <= n
    ensures CeilDiv(m, d) <= CeilDiv(n, d)
  {
    CeilSteps(m, d);
    CeilSteps(n, d);
    if m > d { CeilMonotone(m - d, n - d, d); } else if n > d { CeilMonotone(0, n - d, d); }
  }

  lemma {:induction false} CeilAdds(m: nat, n: nat, d: nat)
    requires d > 0
    ensures CeilDiv(m, d) + CeilDiv(n, d) <= CeilDiv(m + n, d) + 1
  {
    CeilSteps(m, d);
    CeilSteps(m + n, d);
    if m > d {
      CeilAdds(m - d, n, d);
    } else {
      CeilMonotone(n, m + n, d);
    }
  }

  lemma Subset(a: set<int>, b: set<int>)
    requires a <= b
    ensures |a| <= |b|
  {
    assert b == a + (b - a);
  }

  lemma {:induction false} BatchSize(batch: seq<int>)
    requires Ascends(batch)
    ensures |set d | d in batch| == |batch|
  {
    SortedSize(batch, set d | d in batch);
  }

  // Removing a scanned batch from the deals above the cursor.
  lemma Advances(eligible: set<int>, limit: nat, low: int, batch: seq<int>)
    requires FirstAbove(eligible, low, limit, batch) && batch != []
    ensures var last := batch[|batch| - 1];
            && low < last && |Above(eligible, last)| == |Above(eligible, low)| - |batch|
            && (forall d | d > last :: |Between(eligible, last, d)| == |Between(eligible, low, d)| - |batch|)
            && (forall d | low < d <= last && d in eligible :: d in batch)
  {
    var last, scanned := batch[|batch| - 1], set d | d in batch;
    BatchSize(batch);
    assert last in batch;
    assert forall d | d in batch :: d <= last;
    assert Above(eligible, low) == Above(eligible, last) + scanned;
    forall d | d > last ensures |Between(eligible, last, d)| == |Between(eligible, low, d)| - |batch| {
      assert Between(eligible, low, d) == Between(eligible, last, d) + scanned;
    }
  }

  // A pass that misses a deal brings it one pass nearer.
  lemma PassNears(eligible: set<int>, limit: nat, cursor: int, batch: seq<int>, next: int, d: int)
    requires limit > 0 && cursor >= 0 && d in eligible && (forall x | x in eligible :: x > 0)
    requires Pass(eligible, limit, cursor, batch, next) && d !in batch
    ensures next >= 0 && Wait(eligible, limit, next, d) < Wait(eligible, limit, cursor, d)
  {
    var low := if Above(eligible, cursor) == {} && cursor != 0 then 0 else cursor;
    assert d in Above(eligible, 0);
    if cursor < d { assert d in Above(eligible, cursor) && d in Between(eligible, cursor, d); }
    assert d in Between(eligible, 0, d);
    assert batch != [] by {
      assert Above(eligible, low) != {};
    }
    assert batch[|batch| - 1] in batch;
    Advances(eligible, limit, low, batch);
    if low < d {
      assert d > next;
      CeilSteps(|Between(eligible, low, d)|, limit);
      Subset(Between(eligible, low, d), Above(eligible, low));
      assert |batch| == limit by { BelowAll(eligible, low, limit, batch, d); }
      CeilSteps(|Between(eligible, next, d)|, limit);
      CeilSteps(|Above(eligible, cursor)|, limit);
    } else {
      CeilSteps(|Above(eligible, cursor)|, limit);
    }
  }

  lemma BelowAll(eligible: set<int>, low: int, limit: nat, batch: seq<int>, d: int)
    requires FirstAbove(eligible, low, limit, batch) && d in Above(eligible, low) && d !in batch
    ensures |batch| == limit
  {
    var scanned := set x | x in batch;
    BatchSize(batch);
    assert scanned + {d} <= Above(eligible, low);
    Subset(scanned + {d}, Above(eligible, low));
  }

  // Deals that stop being eligible only shorten the wait of the others.
  lemma FewerWaitLess(eligible: set<int>, fewer: set<int>, limit: nat, cursor: int, d: int)
    requires limit > 0 && fewer <= eligible
    ensures Wait(fewer, limit, cursor, d) <= Wait(eligible, limit, cursor, d)
  {
    Subset(Between(fewer, cursor, d), Between(eligible, cursor, d));
    Subset(Above(fewer, cursor), Above(eligible, cursor));
    Subset(Between(fewer, 0, d), Between(eligible, 0, d));
    CeilMonotone(|Between(fewer, cursor, d)|, |Between(eligible, cursor, d)|, limit);
    CeilMonotone(|Above(fewer, cursor)|, |Above(eligible, cursor)|, limit);
    CeilMonotone(|Between(fewer, 0, d)|, |Between(eligible, 0, d)|, limit);
  }

  lemma {:induction false} WaitBounded(eligible: set<int>, limit: nat, cursor: int, d: int)
    requires limit > 0 && cursor >= 0
    ensures Wait(eligible, limit, cursor, d) <= CeilDiv(|eligible|, limit) + 1
  {
    if cursor < d {
      Subset(Between(eligible, cursor, d), eligible);
      CeilMonotone(|Between(eligible, cursor, d)|, |eligible|, limit);
    } else {
      var above, below := Above(eligible, cursor), Between(eligible, 0, d);
      Subset(above + below, eligible);
      assert |above + below| == |above| + |below| by { assert above !! below; }
      CeilAdds(|above|, |below|, limit);
      CeilMonotone(|above| + |below|, |eligible|, limit);
    }
  }

  // A run of passes: the eligible deals each one saw, what it scanned and the cursor it left.
  datatype Visit = Visit(eligible: set<int>, batch: seq<int>, next: int)

  ghost predicate Passes(limit: nat, cursor: int, visits: seq<Visit>)
    decreases |visits|
  {
    visits == [] || (Pass(visits[0].eligible, limit, cursor, visits[0].batch, visits[0].next)
                     && Passes(limit, visits[0].next, visits[1..]))
  }

  ghost predicate Shrinks(eligible: set<int>, visits: seq<Visit>) {
    && (forall i | 0 <= i < |visits| :: visits[i].eligible <= eligible)
    && (forall i, j | 0 <= i < j < |visits| :: visits[j].eligible <= visits[i].eligible)
  }

  lemma WaitPositive(eligible: set<int>, limit: nat, cursor: int, d: int)
    requires limit > 0 && d in eligible && d > 0 && cursor >= 0
    ensures Wait(eligible, limit, cursor, d) > 0
  {
    var low := if cursor < d then cursor else 0;
    assert d in Between(eligible, low, d);
    CeilSteps(|Between(eligible, low, d)|, limit);
  }

  lemma {:induction false} ScannedWithin(limit: nat, cursor: int, eligible: set<int>, visits: seq<Visit>, d: int)
    requires limit > 0 && cursor >= 0 && Passes(limit, cursor, visits) && Shrinks(eligible, visits)
    requires (forall x | x in eligible :: x > 0) && (forall i | 0 <= i < |visits| :: d in visits[i].eligible)
    requires |visits| >= Wait(eligible, limit, cursor, d) && d in eligible
    ensures exists i | 0 <= i < |visits| :: d in visits[i].batch
    decreases |visits|
  {
    WaitPositive(eligible, limit, cursor, d);
    if d !in visits[0].batch {
      var v := visits[0];
      FewerWaitLess(eligible, v.eligible, limit, cursor, d);
      PassNears(v.eligible, limit, cursor, v.batch, v.next, d);
      ScannedWithin(limit, v.next, v.eligible, visits[1..], d);
      var i :| 0 <= i < |visits[1..]| && d in visits[1..][i].batch;
      assert visits[i + 1] == visits[1..][i];
    }
  }

  // Whatever the starting cursor, and while other deals drop out: among any ceil(N / limit) + 1 consecutive
  // passes, one scans each deal that stays eligible, where N deals were eligible at first.
  lemma {:induction false} EveryDealIsScanned(limit: nat, cursor: int, eligible: set<int>, visits: seq<Visit>, d: int)
    requires limit > 0 && cursor >= 0 && Passes(limit, cursor, visits) && Shrinks(eligible, visits)
    requires (forall x | x in eligible :: x > 0) && d in eligible && (forall i | 0 <= i < |visits| :: d in visits[i].eligible)
    requires |visits| >= CeilDiv(|eligible|, limit) + 1
    ensures exists i | 0 <= i < |visits| :: d in visits[i].batch
  {
    WaitBounded(eligible, limit, cursor, d);
    ScannedWithin(limit, cursor, eligible, visits, d);
  }
}
