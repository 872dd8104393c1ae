/** Permutations of index sequences: `itertools.permutations` in its own
    order, and the row reindexing `A[perm]` numpy performs with an index list.
 */
module Permutations {

  /** `range(n)` as a sequence. */
  function Range(n: nat): (r: seq<nat>)
    ensures |r| == n
    ensures forall i :: 0 <= i < n ==> r[i] == i
  {
    seq(n, i requires 0 <= i < n => i)
  }

  /** `p` reorders `pool`: the same elements with the same multiplicities. */
  predicate IsPermutationOf(p: seq<nat>, pool: seq<nat>)
  {
    multiset(p) == multiset(pool)
  }

  /** Every entry of `p` indexes a sequence of length `n`. */
  predicate IsIndexSeq(p: seq<nat>, n: nat)
  {
    forall k :: 0 <= k < |p| ==> p[k] < n
  }

  /** The sequence with position `i` removed. */
  function Remove<T>(s: seq<T>, i: nat): (r: seq<T>)
    requires i < |s|
    ensures |r| == |s| - 1
    ensures forall k :: 0 <= k < i ==> r[k] == s[k]
    ensures forall k :: i <= k < |r| ==> r[k] == s[k + 1]
  {
    s[..i] + s[i + 1..]
  }

  lemma RemoveMultiset<T>(s: seq<T>, i: nat)
    requires i < |s|
    ensures multiset(s) == multiset(Remove(s, i)) + multiset{s[i]}
  {
    assert s == s[..i] + [s[i]] + s[i + 1..];
  }

  /** `x` put in front of each sequence of `ps`. */
  function Prepend(x: nat, ps: seq<seq<nat>>): (r: seq<seq<nat>>)
    ensures |r| == |ps|
    ensures forall k :: 0 <= k < |ps| ==> r[k] == [x] + ps[k]
  {
    seq(|ps|, k requires 0 <= k < |ps| => [x] + ps[k])
  }

  /** `list(itertools.permutations(pool))`: for each position i in turn,
      `pool[i]` followed by every permutation of the rest. */
  function PermutationsOf(pool: seq<nat>): seq<seq<nat>>
    decreases |pool|, |pool| + 1
  {
    if |pool| == 0 then [[]] else Picks(pool, 0)
  }

  /** The permutations of `pool` whose first element is taken from position i or later. */
  function Picks(pool: seq<nat>, i: nat): seq<seq<nat>>
    requires 0 < |pool| && i <= |pool|
    decreases |pool|, |pool| - i
  {
    if i == |pool| then []
    else Prepend(pool[i], PermutationsOf(Remove(pool, i))) + Picks(pool, i + 1)
  }

  function Factorial(n: nat): (f: nat)
    ensures 0 < f
  {
    if n == 0 then 1 else n * Factorial(n - 1)
  }

  /** Everything `PermutationsOf` lists is a permutation of the pool. */
  lemma {:induction false} PermutationsSound(pool: seq<nat>)
    ensures forall p :: p in PermutationsOf(pool) ==> IsPermutationOf(p, pool)
    decreases |pool|, |pool| + 1
  {
    if |pool| > 0 {
      PicksSound(pool, 0);
    }
  }

  lemma {:induction false} PicksSound(pool: seq<nat>, i: nat)
    requires 0 < |pool| && i <= |pool|
    ensures forall p :: p in Picks(pool, i) ==> IsPermutationOf(p, pool)
    decreases |pool|, |pool| - i
  {
    if i < |pool| {
      var rest := Remove(pool, i);
      var front := Prepend(pool[i], PermutationsOf(rest));
      PermutationsSound(rest);
      RemoveMultiset(pool, i);
      forall p | p in front
        ensures IsPermutationOf(p, pool)
      {
        var k :| 0 <= k < |front| && front[k] == p;
        var q := PermutationsOf(rest)[k];
        assert p == [pool[i]] + q;
        assert q in PermutationsOf(rest);
      }
      PicksSound(pool, i + 1);
    }
  }

  /** Every permutation of the pool is listed. */
  lemma {:induction false} PermutationsComplete(pool: seq<nat>, p: seq<nat>)
    requires IsPermutationOf(p, pool)
    ensures p in PermutationsOf(pool)
    decreases |pool|
  {
    if |pool| == 0 {
      assert |multiset(p)| == 0;
    } else {
      assert |p| == |pool| by {
        assert |multiset(p)| == |multiset(pool)|;
      }
      assert p[0] in multiset(pool) by {
        assert p == [p[0]] + p[1..];
        assert p[0] in multiset(p);
      }
      var i :| 0 <= i < |pool| && pool[i] == p[0];
      var rest := Remove(pool, i);
      RemoveMultiset(pool, i);
      assert p == [p[0]] + p[1..];
      assert multiset(p) == multiset{p[0]} + multiset(p[1..]);
      assert multiset(p[1..]) == multiset(p) - multiset{p[0]};
      assert multiset(rest) == multiset(pool) - multiset{pool[i]};
      assert IsPermutationOf(p[1..], rest);
      PermutationsComplete(rest, p[1..]);
      var perms := PermutationsOf(rest);
      var k :| 0 <= k < |perms| && perms[k] == p[1..];
      assert Prepend(pool[i], perms)[k] == p;
      PicksContains(pool, 0, i, p);
    }
  }

  lemma {:induction false} PicksContains(pool: seq<nat>, i: nat, j: nat, p: seq<nat>)
    requires 0 < |pool| && i <= j < |pool|
    requires p in Prepend(pool[j], PermutationsOf(Remove(pool, j)))
    ensures p in Picks(pool, i)
    decreases j - i
  {
    if i < j {
      PicksContains(pool, i + 1, j, p);
    }
  }

  /** There are n! permutations of n elements. */
  lemma {:induction false} PermutationsCount(pool: seq<nat>)
    ensures |PermutationsOf(pool)| == Factorial(|pool|)
    decreases |pool|, |pool| + 1
  {
    if |pool| > 0 {
      PicksCount(pool, 0);
    }
  }

  lemma {:induction false} PicksCount(pool: seq<nat>, i: nat)
    requires 0 < |pool| && i <= |pool|
    ensures |Picks(pool, i)| == (|pool| - i) * Factorial(|pool| - 1)
    decreases |pool|, |pool| - i
  {
    if i < |pool| {
      var f := Factorial(|pool| - 1);
      var m := |pool| - i - 1;
      PermutationsCount(Remove(pool, i));
      PicksCount(pool, i + 1);
      assert |Picks(pool, i)| == f + m * f;
      assert f + m * f == (m + 1) * f;
    }
  }

  /** `A[perm]`: row a of the result is row `perm[a]` of `A`. */
  function PermuteRows<T>(A: seq<T>, perm: seq<nat>): (B: seq<T>)
    requires IsIndexSeq(perm, |A|)
    ensures |B| == |perm|
    ensures forall a :: 0 <= a < |perm| ==> B[a] == A[perm[a]]
  {
    seq(|perm|, a requires 0 <= a < |perm| => A[perm[a]])
  }

  /** A permutation of `range(n)` indexes sequences of length n. */
  lemma PermutationIsIndexSeq(p: seq<nat>, n: nat)
    requires IsPermutationOf(p, Range(n))
    ensures |p| == n && IsIndexSeq(p, n)
  {
    assert |multiset(p)| == |multiset(Range(n))|;
    forall k | 0 <= k < |p|
      ensures p[k] < n
    {
      assert p[k] in multiset(p);
      assert p[k] in multiset(Range(n));
      var i :| 0 <= i < n && Range(n)[i] == p[k];
    }
  }

  lemma PermuteRowsCons<T>(A: seq<T>, p: seq<nat>)
    requires IsIndexSeq(p, |A|) && 0 < |p|
    ensures IsIndexSeq(p[1..], |A|)
    ensures PermuteRows(A, p) == [A[p[0]]] + PermuteRows(A, p[1..])
  {
  }

  lemma PermuteRowsRemove<T>(A: seq<T>, q: seq<nat>, j: nat)
    requires IsIndexSeq(q, |A|) && j < |q|
    ensures IsIndexSeq(Remove(q, j), |A|)
    ensures PermuteRows(A, Remove(q, j)) == Remove(PermuteRows(A, q), j)
  {
  }

  lemma MultisetTail(p: seq<nat>)
    requires 0 < |p|
    ensures multiset(p[1..]) == multiset(p) - multiset{p[0]}
  {
    assert p == [p[0]] + p[1..];
  }

  /** Reindexing by two index sequences with the same multiset gives the same multiset of rows. */
  lemma {:induction false} PermuteRowsSameMultiset<T>(A: seq<T>, p: seq<nat>, q: seq<nat>)
    requires IsIndexSeq(p, |A|) && IsIndexSeq(q, |A|)
    requires multiset(p) == multiset(q)
    ensures multiset(PermuteRows(A, p)) == multiset(PermuteRows(A, q))
    decreases |p|
  {
    if |p| == 0 {
      assert |multiset(q)| == 0;
    } else {
      var x := p[0];
      assert x in multiset(q) by {
        assert x in multiset(p);
      }
      var j :| 0 <= j < |q| && q[j] == x;
      var q' := Remove(q, j);
      RemoveMultiset(q, j);
      MultisetTail(p);
      PermuteRowsCons(A, p);
      PermuteRowsRemove(A, q, j);
      PermuteRowsSameMultiset(A, p[1..], q');
      RemoveMultiset(PermuteRows(A, q), j);
    }
  }

  /** Reindexing rows by a permutation keeps the multiset of rows. */
  lemma PermuteRowsMultiset<T>(A: seq<T>, perm: seq<nat>)
    requires IsPermutationOf(perm, Range(|A|))
    ensures IsIndexSeq(perm, |A|)
    ensures multiset(PermuteRows(A, perm)) == multiset(A)
  {
    PermutationIsIndexSeq(perm, |A|);
    PermuteRowsSameMultiset(A, perm, Range(|A|));
    assert PermuteRows(A, Range(|A|)) == A;
  }
}
