/** Totals and concatenations over sequences, and how they split at an end. */
module Sums {
  function Min(a: int, b: int): int {
    if a <= b then a else b
  }

  function Sum(s: seq<nat>): nat {
    if s == [] then 0 else s[0] + Sum(s[1..])
  }

  lemma {:induction false} SumAppend(s: seq<nat>, x: nat)
    ensures Sum(s + [x]) == Sum(s) + x
  {
    if s != [] {
      assert (s + [x])[1..] == s[1..] + [x];
      SumAppend(s[1..], x);
    }
  }

  function Concat<T>(s: seq<seq<T>>): seq<T> {
    if s == [] then [] else s[0] + Concat(s[1..])
  }

  lemma {:induction false} ConcatAppend<T>(s: seq<seq<T>>, x: seq<T>)
    ensures Concat(s + [x]) == Concat(s) + x
  {
    if s == [] {
      assert s + [x] == [x];
      assert Concat([x]) == x + Concat([]);
    } else {
      assert (s + [x])[1..] == s[1..] + [x];
      ConcatAppend(s[1..], x);
    }
  }
}
