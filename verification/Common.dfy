// Shared building blocks: optional values, results, and row identifiers.
module Common {
  datatype Option<+T> = None | Some(value: T)

  datatype Result<+T, +E> = Ok(value: T) | Err(error: E)

  // A row identifier. Fresh identifiers come from a counter, so an identifier
  // below the counter has been handed out and one at or above it has not.
  type Id = nat

  function Max(a: nat, b: nat): nat {
    if a < b then b else a
  }

  // As many different members as places: the members are pairwise different.
  lemma {:induction false} CountTellsDistinct<T>(xs: seq<T>)
    ensures |set x | x in xs| == |xs| <==> forall i, j | 0 <= i < j < |xs| :: xs[i] != xs[j]
    ensures |set x | x in xs| <= |xs|
  {
    if xs != [] {
      var n := |xs| - 1;
      var before, last := xs[..n], xs[n];
      CountTellsDistinct(before);
      assert xs == before + [last];
      assert (set x | x in xs) == (set x | x in before) + {last};
      if last in before {
        assert (set x | x in xs) == (set x | x in before);
        var k :| 0 <= k < n && before[k] == last;
        assert xs[k] == xs[n];
      } else {
        assert forall i | 0 <= i < n :: xs[i] == before[i] && before[i] in before;
      }
    }
  }
}
