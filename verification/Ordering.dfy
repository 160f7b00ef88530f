/** Reading a set of keys in ascending order. */
module Ordering {

  ghost predicate Ascends(xs: seq<int>) {
    forall k, l | 0 <= k < l < |xs| :: xs[k] < xs[l]
  }

  method Pick<T>(xs: set<T>) returns (x: T)
    requires xs != {}
    ensures x in xs
  {
    x :| x in xs;
  }

  method Least(xs: set<int>) returns (least: int)
    requires xs != {}
    ensures least in xs && forall x | x in xs :: least <= x
  {
    least := Pick(xs);
    var left := xs - {least};
    while left != {}
      invariant left <= xs && least in xs && forall x | x in xs :: x in left || least <= x
      decreases |left|
    {
      var x := Pick(left);
      if x < least {
        least := x;
      }
      left := left - {x};
    }
  }

  method Sorted(keys: set<int>) returns (xs: seq<int>)
    ensures forall x :: x in xs <==> x in keys
    ensures Ascends(xs)
  {
    xs := [];
    var left := keys;
    while left != {}
      invariant left <= keys && (forall x :: x in xs <==> x in keys - left)
      invariant Ascends(xs)
      invariant forall x, y | x in xs && y in left :: x < y
      decreases |left|
    {
      var least := Least(left);
      assert forall k | 0 <= k < |xs| :: xs[k] in xs;
      xs := xs + [least];
      left := left - {least};
    }
  }
}
