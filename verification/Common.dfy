/** Small vocabulary shared by the models. */
module Common {
  datatype Option<+T> = None | Some(value: T)

  function Max(a: int, b: int): int {
    if a >= b then a else b
  }

  function Min(a: int, b: int): int {
    if a <= b then a else b
  }

  ghost predicate NoDuplicates<T>(s: seq<T>) {
    forall i, j :: 0 <= i < j < |s| ==> s[i] != s[j]
  }

  ghost function Elements<T>(s: seq<T>): set<T> {
    set x | x in s
  }

  /** A list without repetitions is as long as the set of its elements. */
  lemma {:induction false} DistinctLength<T>(s: seq<T>)
    requires NoDuplicates(s)
    ensures |Elements(s)| == |s|
  {
    if s != [] {
      var init := s[..|s| - 1];
      DistinctLength(init);
      assert Elements(s) == Elements(init) + {s[|s| - 1]};
      assert s[|s| - 1] !in init;
    }
  }

  /** A subset is no larger than its superset. */
  lemma {:induction false} SubsetSize<T>(a: set<T>, b: set<T>)
    requires a <= b
    ensures |a| <= |b|
  {
    if a != {} {
      var x :| x in a;
      SubsetSize(a - {x}, b - {x});
    }
  }

  // ----- induction over the steps of a run -----

  ghost predicate IsInherited(holds: nat -> bool, n: nat) {
    holds(n) ==> holds(n + 1)
  }

  lemma {:induction false} HoldsAlways(holds: nat -> bool, n: nat)
    requires holds(0) && forall k: nat :: IsInherited(holds, k)
    ensures holds(n)
  {
    if n > 0 {
      HoldsAlways(holds, n - 1);
      assert IsInherited(holds, n - 1);
    }
  }
}
