/** Sequences as sets, and functions that are not one-to-one. */
module Collections {
  predicate Distinct<T(==)>(items: seq<T>) {
    forall i, j :: 0 <= i < j < |items| ==> items[i] != items[j]
  }

  function Elements<T>(items: seq<T>): set<T> {
    set x | x in items
  }

  lemma LastSplits<T>(items: seq<T>)
    requires items != []
    ensures items == items[..|items| - 1] + [items[|items| - 1]]
  {
  }

  ghost predicate Collides<A(!new), B>(f: A -> B) {
    exists a, b :: a != b && f(a) == f(b)
  }

  lemma {:induction false} DistinctIff<T>(items: seq<T>)
    ensures |Elements(items)| <= |items| && (|Elements(items)| == |items| <==> Distinct(items))
  {
    if items != [] {
      var n := |items| - 1;
      DistinctIff(items[..n]);
      LastSplits(items);
      assert Elements(items) == Elements(items[..n]) + {items[n]};
      if items[n] in items[..n] {
        assert Elements(items) == Elements(items[..n]);
      } else if Distinct(items[..n]) {
        assert Distinct(items);
      }
    }
  }
}
