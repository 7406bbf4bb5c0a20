/** Lists without repetitions, and how often an element occurs in a list. */
module Sequences {
  ghost predicate Distinct<T>(list: seq<T>) {
    forall i, j :: 0 <= i < j < |list| ==> list[i] != list[j]
  }

  function Count<T(==)>(list: seq<T>, x: T): nat {
    if list == [] then 0 else Count(list[..|list| - 1], x) + (if list[|list| - 1] == x then 1 else 0)
  }

  /** Counting is what a multiset does. */
  lemma {:induction false} CountIsMultiplicity<T>(list: seq<T>, x: T)
    ensures Count(list, x) == multiset(list)[x]
  {
    if list != [] {
      var n := |list| - 1;
      assert list == list[..n] + [list[n]];
      CountIsMultiplicity(list[..n], x);
    }
  }

  lemma {:induction false} CountConcat<T>(a: seq<T>, b: seq<T>, x: T)
    ensures Count(a + b, x) == Count(a, x) + Count(b, x)
  {
    if b == [] {
      assert a + b == a;
    } else {
      var n := |b| - 1;
      assert (a + b)[..|a + b| - 1] == a + b[..n];
      CountConcat(a, b[..n], x);
    }
  }

  lemma CountOne<T>(a: T, x: T)
    ensures Count([a], x) == if a == x then 1 else 0
  {
    assert [a][..0] == [];
    assert Count([a][..0], x) == 0;
  }

  lemma CountThree<T>(a: T, b: T, c: T, x: T)
    ensures Count([a, b, c], x)
         == (if a == x then 1 else 0) + (if b == x then 1 else 0) + (if c == x then 1 else 0)
  {
    assert [a, b, c] == [a] + [b] + [c];
    CountConcat([a] + [b], [c], x);
    CountConcat([a], [b], x);
    CountOne(a, x);
    CountOne(b, x);
    CountOne(c, x);
  }
}
