/** Joining pieces back together. */
module Sequences {

  function Flatten<T>(xss: seq<seq<T>>): seq<T> {
    if xss == [] then [] else xss[0] + Flatten(xss[1..])
  }

  lemma {:induction false} FlattenAppends<T>(xss: seq<seq<T>>, xs: seq<T>)
    ensures Flatten(xss + [xs]) == Flatten(xss) + xs
  {
    if xss == [] {
      assert xss + [xs] == [xs] && [xs][1..] == [];
      assert xs + [] == xs && [] + xs == xs;
    } else {
      assert (xss + [xs])[1..] == xss[1..] + [xs];
      FlattenAppends(xss[1..], xs);
      assert xss[0] + (Flatten(xss[1..]) + xs) == (xss[0] + Flatten(xss[1..])) + xs;
    }
  }

  lemma {:induction false} FlattenJoins<T>(xss: seq<seq<T>>, yss: seq<seq<T>>)
    ensures Flatten(xss + yss) == Flatten(xss) + Flatten(yss)
  {
    if xss == [] {
      assert xss + yss == yss && [] + Flatten(yss) == Flatten(yss);
    } else {
      assert (xss + yss)[1..] == xss[1..] + yss;
      FlattenJoins(xss[1..], yss);
      assert xss[0] + (Flatten(xss[1..]) + Flatten(yss)) == (xss[0] + Flatten(xss[1..])) + Flatten(yss);
    }
  }
}
