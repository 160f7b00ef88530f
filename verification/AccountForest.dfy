/**
 Account identity in `linkedin/crm_v2_evidence.py`: tokens of names and business domains are joined in a
 union-find whose roots are the least tokens, so the account key depends on the joins alone.
 */
module AccountForest {
  // ------------------------------------------------------- the order of strings

  // Python's order on strings: code point by code point, a prefix first.
  predicate Leq(a: string, b: string) {
    a == "" || (b != "" && (a[0] < b[0] || (a[0] == b[0] && Leq(a[1..], b[1..]))))
  }

  predicate Less(a: string, b: string) {
    Leq(a, b) && a != b
  }

  lemma {:induction false} LeqReflexive(a: string)
    ensures Leq(a, a)
  {
    if a != "" { LeqReflexive(a[1..]); }
  }

  lemma {:induction false} LeqTotal(a: string, b: string)
    ensures Leq(a, b) || Leq(b, a)
    ensures Leq(a, b) && Leq(b, a) ==> a == b
  {
    if a != "" && b != "" {
      LeqTotal(a[1..], b[1..]);
      assert a == [a[0]] + a[1..] && b == [b[0]] + b[1..];
    }
  }

  lemma {:induction false} LeqTransitive(a: string, b: string, c: string)
    requires Leq(a, b) && Leq(b, c)
    ensures Leq(a, c)
  {
    if a != "" && a[0] == b[0] && b[0] == c[0] {
      LeqTransitive(a[1..], b[1..], c[1..]);
    }
  }

  lemma {:induction false} LessTransitive(a: string, b: string, c: string)
    requires (Less(a, b) && Leq(b, c)) || (Leq(a, b) && Less(b, c))
    ensures Less(a, c)
  {
    LeqTransitive(a, b, c);
    LeqTotal(a, b);
    LeqTotal(b, c);
  }

  // --------------------------------------------------------------- the forest

  // Every token points at a token that is not greater.
  predicate PointsDown(parent: map<string, string>, x: string)
    requires x in parent
  {
    parent[x] in parent && Leq(parent[x], x)
  }

  ghost predicate Forest(parent: map<string, string>) {
    forall x {:trigger PointsDown(parent, x)} | x in parent :: PointsDown(parent, x)
  }

  lemma {:induction false} ForestUpdates(parent: map<string, string>, x: string, p: string)
    requires Forest(parent) && (p in parent || p == x) && Leq(p, x)
    ensures Forest(parent[x := p])
  {
    hide Leq;
    var parent1 := parent[x := p];
    forall y | y in parent1 ensures PointsDown(parent1, y) {
      if y != x { assert PointsDown(parent, y); }
    }
  }

  ghost function Below(parent: map<string, string>, x: string): set<string> {
    set y | y in parent && Less(y, x)
  }

  lemma {:induction false} ParentBelow(parent: map<string, string>, x: string)
    requires Forest(parent) && x in parent && parent[x] != x
    ensures parent[x] in parent && Leq(parent[x], x)
    ensures |Below(parent, parent[x])| < |Below(parent, x)|
  {
    var p := parent[x];
    assert PointsDown(parent, x);
    forall y | y in Below(parent, p) ensures y in Below(parent, x) { LessTransitive(y, p, x); }
    assert p in Below(parent, x) - Below(parent, p);
    Smaller(Below(parent, p), Below(parent, x), p);
  }

  lemma Smaller<T>(a: set<T>, b: set<T>, x: T)
    requires a <= b && x in b && x !in a
    ensures |a| < |b|
  {
    assert a <= b - {x};
    Sizes(a, b - {x});
  }

  lemma {:induction false} Sizes<T>(a: set<T>, b: set<T>)
    requires a <= b
    ensures |a| <= |b|
    decreases |a|
  {
    if a != {} {
      var x :| x in a;
      Sizes(a - {x}, b - {x});
    }
  }

  ghost function Root(parent: map<string, string>, x: string): (r: string)
    requires Forest(parent) && x in parent
    ensures r in parent && parent[r] == r && Leq(r, x)
    decreases |Below(parent, x)|
  {
    if parent[x] == x then (LeqReflexive(x); x)
    else
      ParentBelow(parent, x);
      var r := Root(parent, parent[x]);
      LeqTransitive(r, parent[x], x);
      r
  }

  // Pointing a token straight at its root changes no root.
  lemma {:induction false} CompressKeepsRoots(parent: map<string, string>, x: string, y: string)
    requires Forest(parent) && x in parent && y in parent
    ensures Forest(parent[x := Root(parent, x)])
    ensures Root(parent[x := Root(parent, x)], y) == Root(parent, y)
    decreases |Below(parent, y)|
  {
    var r := Root(parent, x);
    var parent1 := parent[x := r];
    ForestUpdates(parent, x, r);
    if y == x {
      assert Root(parent1, r) == r;
    } else if parent[y] != y {
      ParentBelow(parent, y);
      CompressKeepsRoots(parent, x, parent[y]);
    }
  }

  // Linking one root under a smaller one redirects exactly its class.
  lemma {:induction false} LinkMovesClass(parent: map<string, string>, first: string, second: string, y: string)
    requires Forest(parent) && first in parent && second in parent && y in parent
    requires parent[first] == first && parent[second] == second && Leq(first, second) && first != second
    ensures Forest(parent[second := first])
    ensures Root(parent[second := first], y) == if Root(parent, y) == second then first else Root(parent, y)
    decreases |Below(parent, y)|
  {
    var parent1 := parent[second := first];
    ForestUpdates(parent, second, first);
    assert Root(parent1, first) == first;
    if y != second && parent[y] != y {
      ParentBelow(parent, y);
      LinkMovesClass(parent, first, second, parent[y]);
    }
  }

  lemma {:induction false} AddKeepsRoots(parent: map<string, string>, x: string, y: string)
    requires Forest(parent) && x !in parent && y in parent
    ensures Forest(parent[x := x]) && Root(parent[x := x], y) == Root(parent, y)
    decreases |Below(parent, y)|
  {
    LeqReflexive(x);
    ForestUpdates(parent, x, x);
    if parent[y] != y {
      ParentBelow(parent, y);
      AddKeepsRoots(parent, x, parent[y]);
    }
  }

  // -------------------------------------- an independent notion of one account

  type Edges = set<(string, string)>

  predicate Touch(edges: Edges, a: string, b: string) {
    a == b || (a, b) in edges || (b, a) in edges
  }

  ghost predicate Path(edges: Edges, p: seq<string>) {
    p != [] && forall i | 0 < i < |p| :: Touch(edges, p[i - 1], p[i])
  }

  // Two tokens belong together when a chain of joins leads from one to the other.
  ghost predicate Together(edges: Edges, a: string, b: string) {
    exists p :: Path(edges, p) && p[0] == a && p[|p| - 1] == b
  }

  lemma TogetherByJoin(edges: Edges, a: string, b: string)
    requires Touch(edges, a, b)
    ensures Together(edges, a, b)
  {
    assert Path(edges, [a, b]);
  }

  lemma TogetherJoins(edges: Edges, a: string, b: string, c: string)
    requires Together(edges, a, b) && Together(edges, b, c)
    ensures Together(edges, a, c)
  {
    var p :| Path(edges, p) && p[0] == a && p[|p| - 1] == b;
    var q :| Path(edges, q) && q[0] == b && q[|q| - 1] == c;
    var pq := p + q[1..];
    forall i | 0 < i < |pq| ensures Touch(edges, pq[i - 1], pq[i]) {
      if i >= |p| { assert pq[i] == q[i - |p| + 1]; }
    }
    assert Path(edges, pq);
  }

  ghost function Backwards(p: seq<string>): (q: seq<string>)
    ensures |q| == |p| && forall i | 0 <= i < |p| :: q[i] == p[|p| - 1 - i]
  {
    if p == [] then [] else Backwards(p[1..]) + [p[0]]
  }

  lemma TogetherTurns(edges: Edges, a: string, b: string)
    requires Together(edges, a, b)
    ensures Together(edges, b, a)
  {
    var p :| Path(edges, p) && p[0] == a && p[|p| - 1] == b;
    var q := Backwards(p);
    forall i | 0 < i < |q| ensures Touch(edges, q[i - 1], q[i]) {
      assert Touch(edges, p[|p| - i - 1], p[|p| - i]);
    }
    assert Path(edges, q);
  }

  lemma TogetherGrows(edges: Edges, more: Edges, a: string, b: string)
    requires Together(edges, a, b) && edges <= more
    ensures Together(more, a, b)
  {
    var p :| Path(edges, p) && p[0] == a && p[|p| - 1] == b;
    assert Path(more, p);
  }

  // A map that sends every join into one class sends every class into one class.
  lemma {:induction false} TogetherMaps(edges: Edges, target: Edges, f: string -> string, p: seq<string>)
    requires Path(edges, p)
    requires forall e | e in edges :: Together(target, f(e.0), f(e.1))
    ensures Together(target, f(p[0]), f(p[|p| - 1]))
    decreases |p|
  {
    if |p| == 1 {
      TogetherByJoin(target, f(p[0]), f(p[0]));
    } else {
      var q := p[..|p| - 1];
      assert Path(edges, q);
      TogetherMaps(edges, target, f, q);
      var a, b := p[|p| - 2], p[|p| - 1];
      assert Touch(edges, a, b);
      if a == b {
      } else if (a, b) in edges {
        assert Together(target, f((a, b).0), f((a, b).1));
        TogetherJoins(target, f(p[0]), f(a), f(b));
      } else {
        assert Together(target, f((b, a).0), f((b, a).1));
        TogetherTurns(target, f(b), f(a));
        TogetherJoins(target, f(p[0]), f(a), f(b));
      }
    }
  }

  // -------------------------------------------------- the forest stands for joins

  ghost predicate Joined(parent: map<string, string>, a: string, b: string)
    requires Forest(parent)
  {
    a in parent && b in parent && Root(parent, a) == Root(parent, b)
  }

  ghost predicate Reached(parent: map<string, string>, edges: Edges, x: string)
    requires Forest(parent)
  {
    x in parent && Together(edges, x, Root(parent, x))
  }

  ghost predicate StandsFor(parent: map<string, string>, edges: Edges) {
    && Forest(parent)
    && (forall a, b | (a, b) in edges :: Joined(parent, a, b))
    && (forall x | x in parent :: Reached(parent, edges, x))
  }

  // The identity of an account: tokens share a root exactly when they belong together, and that root is
  // the least of them.
  lemma {:induction false} RootIsLeast(parent: map<string, string>, edges: Edges, x: string, y: string)
    requires StandsFor(parent, edges) && x in parent && y in parent
    ensures Root(parent, x) == Root(parent, y) <==> Together(edges, x, y)
    ensures Together(edges, x, Root(parent, x))
    ensures Together(edges, x, y) ==> Leq(Root(parent, x), y)
  {
    hide Path, Leq;
    assert Reached(parent, edges, x) && Reached(parent, edges, y);
    if Root(parent, x) == Root(parent, y) {
      TogetherTurns(edges, y, Root(parent, y));
      TogetherJoins(edges, x, Root(parent, x), y);
    }
    if Together(edges, x, y) {
      var p :| Path(edges, p) && p != [] && p[0] == x && p[|p| - 1] == y by { Unfolded(edges, x, y); }
      SameRootAlong(parent, edges, p);
    }
  }

  lemma Unfolded(edges: Edges, x: string, y: string)
    requires Together(edges, x, y)
    ensures exists p :: Path(edges, p) && p != [] && p[0] == x && p[|p| - 1] == y
  {
    var p :| Path(edges, p) && p[0] == x && p[|p| - 1] == y;
    assert p != [];
  }

  lemma {:induction false} SameRootAlong(parent: map<string, string>, edges: Edges, p: seq<string>)
    requires StandsFor(parent, edges) && Path(edges, p) && p[0] in parent
    ensures p[|p| - 1] in parent && Root(parent, p[0]) == Root(parent, p[|p| - 1])
    decreases |p|
  {
    hide Reached, Root, Leq;
    if |p| > 1 {
      var q := p[..|p| - 1];
      assert Path(edges, q);
      SameRootAlong(parent, edges, q);
      var a, b := p[|p| - 2], p[|p| - 1];
      assert Touch(edges, a, b);
      assert (a, b) in edges ==> Joined(parent, a, b);
      assert (b, a) in edges ==> Joined(parent, b, a);
    }
  }

  // Roots do not depend on the order of joins or on path compression: any two forests that stand for
  // the same joins name every account they both know alike.
  lemma {:induction false} RootsAreDeterministic(one: map<string, string>, two: map<string, string>, edges: Edges, x: string)
    requires StandsFor(one, edges) && StandsFor(two, edges) && x in one && x in two
    ensures Root(one, x) == Root(two, x)
  {
    var r, s := Root(one, x), Root(two, x);
    KnownTogether(one, two, edges, x);
    KnownTogether(two, one, edges, x);
    RootIsLeast(one, edges, x, s);
    RootIsLeast(two, edges, x, r);
    LeqTotal(r, s);
  }

  lemma {:induction false} KnownTogether(one: map<string, string>, two: map<string, string>, edges: Edges, x: string)
    requires StandsFor(one, edges) && StandsFor(two, edges) && x in one && x in two
    ensures Root(one, x) in two
  {
    hide Path, Leq, Root;
    assert Reached(one, edges, x);
    Unfolded(edges, x, Root(one, x));
    var p :| Path(edges, p) && p != [] && p[0] == x && p[|p| - 1] == Root(one, x);
    SameRootAlong(two, edges, p);
  }

  // ------------------------------------------------------------- the operations

  lemma AddStands(parent: map<string, string>, edges: Edges, x: string)
    requires StandsFor(parent, edges) && x !in parent
    ensures StandsFor(parent[x := x], edges)
  {
    hide Root, Together, Leq;
    var parent1 := parent[x := x];
    LeqReflexive(x);
    ForestUpdates(parent, x, x);
    forall a, b | (a, b) in edges ensures Joined(parent1, a, b) {
      assert Joined(parent, a, b);
      AddKeepsRoots(parent, x, a);
      AddKeepsRoots(parent, x, b);
    }
    forall y | y in parent1 ensures Reached(parent1, edges, y) {
      if y == x {
        TogetherByJoin(edges, x, x);
        assert Root(parent1, x) == x by { OwnRoot(parent1, x); }
      } else {
        assert Reached(parent, edges, y);
        AddKeepsRoots(parent, x, y);
      }
    }
  }

  lemma {:induction false} OwnRoot(parent: map<string, string>, x: string)
    requires Forest(parent) && x in parent && parent[x] == x
    ensures Root(parent, x) == x
  {
  }

  // Same keys, same roots.
  ghost predicate SameRoots(parent: map<string, string>, parent1: map<string, string>) {
    Forest(parent) && Forest(parent1) && parent.Keys == parent1.Keys && forall y | y in parent :: Root(parent1, y) == Root(parent, y)
  }

  lemma SameRootsStand(parent: map<string, string>, parent1: map<string, string>, edges: Edges)
    requires StandsFor(parent, edges) && SameRoots(parent, parent1)
    ensures StandsFor(parent1, edges)
  {
    hide Root, Together, Leq;
    assert forall y :: y in parent <==> y in parent1;
    forall a, b | (a, b) in edges ensures Joined(parent1, a, b) {
      assert Joined(parent, a, b);
    }
    forall x | x in parent1 ensures Reached(parent1, edges, x) {
      assert Reached(parent, edges, x);
    }
  }

  // How a union moves roots.
  ghost predicate Moved(parent: map<string, string>, parent1: map<string, string>, first: string, second: string, y: string)
    requires Forest(parent) && Forest(parent1) && y in parent && y in parent1
  {
    Root(parent1, y) == if Root(parent, y) == second then first else Root(parent, y)
  }

  ghost predicate Merges(parent: map<string, string>, parent1: map<string, string>, first: string, second: string) {
    && Forest(parent) && Forest(parent1) && parent.Keys == parent1.Keys
    && (forall y {:trigger Moved(parent, parent1, first, second, y)} | y in parent :: Moved(parent, parent1, first, second, y))
  }

  lemma {:induction false} RootsJoined(parent: map<string, string>, edges: Edges, left: string, right: string)
    requires Forest(parent) && Reached(parent, edges, left) && Reached(parent, edges, right)
    ensures var more := edges + {(left, right)};
            && Together(more, Root(parent, left), Root(parent, right))
            && Together(more, Root(parent, right), Root(parent, left))
  {
    hide Root, Together, Leq;
    var more := edges + {(left, right)};
    var l, r := Root(parent, left), Root(parent, right);
    TogetherGrows(edges, more, left, l);
    TogetherGrows(edges, more, right, r);
    TogetherByJoin(more, left, right);
    TogetherTurns(more, left, l);
    TogetherJoins(more, l, left, right);
    TogetherJoins(more, l, right, r);
    TogetherTurns(more, l, r);
  }

  lemma MovedReached(parent: map<string, string>, parent1: map<string, string>, edges: Edges, more: Edges,
                     first: string, second: string, x: string)
    requires Forest(parent) && Forest(parent1) && x in parent1 && Reached(parent, edges, x)
    requires Moved(parent, parent1, first, second, x) && edges <= more && Together(more, second, first)
    ensures Reached(parent1, more, x)
  {
    hide Root, Together, Leq;
    TogetherGrows(edges, more, x, Root(parent, x));
    if Root(parent, x) == second { TogetherJoins(more, x, second, first); }
  }

  lemma {:induction false} MergeStands(parent: map<string, string>, parent1: map<string, string>, edges: Edges, left: string, right: string,
                    first: string, second: string)
    requires StandsFor(parent, edges) && left in parent && right in parent && Merges(parent, parent1, first, second)
    requires (Root(parent, left) == first && Root(parent, right) == second) || (Root(parent, left) == second && Root(parent, right) == first)
    ensures StandsFor(parent1, edges + {(left, right)})
  {
    hide Root, Together, Leq, Reached;
    var more := edges + {(left, right)};
    assert forall y :: y in parent <==> y in parent1;
    assert Reached(parent, edges, left) && Reached(parent, edges, right);
    RootsJoined(parent, edges, left, right);
    forall a, b | (a, b) in more ensures Joined(parent1, a, b) {
      if (a, b) in edges { assert Joined(parent, a, b); }
      assert Moved(parent, parent1, first, second, a) && Moved(parent, parent1, first, second, b);
    }
    forall x | x in parent1 ensures Reached(parent1, more, x) {
      assert Reached(parent, edges, x) && Moved(parent, parent1, first, second, x);
      MovedReached(parent, parent1, edges, more, first, second, x);
    }
  }

  lemma {:induction false} LinkMoves(parent: map<string, string>, first: string, second: string, y: string)
    requires Forest(parent) && first in parent && second in parent && y in parent
    requires parent[first] == first && parent[second] == second && Leq(first, second)
    ensures var parent1 := if first == second then parent else parent[second := first];
            Forest(parent1) && Moved(parent, parent1, first, second, y)
  {
    if first != second { LinkMovesClass(parent, first, second, y); }
  }

  lemma {:induction false} LinkMerges(parent: map<string, string>, first: string, second: string)
    requires Forest(parent) && first in parent && second in parent
    requires parent[first] == first && parent[second] == second && Leq(first, second)
    ensures Merges(parent, if first == second then parent else parent[second := first], first, second)
  {
    hide Root, Leq, Moved;
    var parent1 := if first == second then parent else parent[second := first];
    if first != second { ForestUpdates(parent, second, first); }
    forall y | y in parent ensures Moved(parent, parent1, first, second, y) {
      LinkMoves(parent, first, second, y);
    }
  }

  lemma StandsIsForest(parent: map<string, string>, edges: Edges)
    requires StandsFor(parent, edges)
    ensures Forest(parent)
  {
  }

  lemma {:induction false} RootsAgree(parent: map<string, string>, parent1: map<string, string>, x: string)
    requires SameRoots(parent, parent1) && x in parent
    ensures parent.Keys == parent1.Keys && x in parent1 && Forest(parent1)
    ensures Root(parent1, x) == Root(parent, x)
  {
  }

  // Pointing `x` at its root after a lookup of its parent.
  lemma {:induction false} Compressed(before: map<string, string>, between: map<string, string>, x: string, r: string)
    requires SameRoots(before, between) && x in before && r == Root(before, x)
    ensures SameRoots(before, between[x := r])
  {
    hide Root, Leq;
    assert forall y :: y in before <==> y in between;
    CompressKeepsRoots(between, x, x);
    forall y | y in before ensures Root(between[x := r], y) == Root(before, y) {
      CompressKeepsRoots(between, x, y);
    }
    assert before.Keys == between[x := r].Keys;
  }

  class UnionFind {
    var parent: map<string, string>
    // The joins asked for so far.
    ghost var edges: Edges

    ghost predicate Valid()
      reads this
    {
      StandsFor(parent, edges)
    }

    constructor ()
      ensures Valid() && parent == map[] && edges == {}
    {
      parent, edges := map[], {};
    }

    method Add(value: string)
      requires Valid()
      modifies this
      ensures Valid() && edges == old(edges) && parent.Keys == old(parent).Keys + {value}
    {
      hide StandsFor;
      if value !in parent {
        AddStands(parent, edges, value);
        parent := parent[value := value];
      }
    }

    // Recursive lookup with path compression.
    method Find(value: string) returns (root: string)
      requires Forest(parent) && value in parent
      modifies `parent
      ensures SameRoots(old(parent), parent) && root == Root(old(parent), value)
      decreases |Below(parent, value)|
    {
      hide Leq;
      ghost var before := parent;
      var above := parent[value];
      if above != value {
        ParentBelow(parent, value);
        var r := Find(above);
        Compressed(before, parent, value, r);
        parent := parent[value := r];
      }
      root := parent[value];
    }

    method Union(left: string, right: string)
      requires Valid()
      modifies this
      ensures Valid() && edges == old(edges) + {(left, right)} && parent.Keys == old(parent).Keys + {left, right}
    {
      hide StandsFor, Leq, SameRoots, Merges;
      Add(left);
      Add(right);
      ghost var before := parent;
      StandsIsForest(parent, edges);
      var leftRoot := Find(left);
      SameRootsStand(before, parent, edges);
      RootsAgree(before, parent, left);
      ghost var between := parent;
      StandsIsForest(parent, edges);
      var rightRoot := Find(right);
      SameRootsStand(between, parent, edges);
      RootsAgree(between, parent, left);
      RootsAgree(between, parent, right);
      LeqTotal(leftRoot, rightRoot);
      var first, second := leftRoot, rightRoot;
      if !Leq(leftRoot, rightRoot) {
        first, second := rightRoot, leftRoot;
      }
      LinkMerges(parent, first, second);
      MergeStands(parent, if first == second then parent else parent[second := first], edges, left, right, first, second);
      edges := edges + {(left, right)};
      if leftRoot != rightRoot {
        parent := parent[second := first];
      }
    }
  }
}
