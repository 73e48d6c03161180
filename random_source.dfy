/**
 * The random source of the visit generator, reduced to what each library call
 * can return. In the model a draw is an input; the predicates here say which
 * inputs a call can produce. Probability weights are not kept, only supports.
 */
module RandomSource {

  /** The values of Python's range(lo, hi), which are also the values that
      np.random.randint(lo, hi) can return: the upper end is excluded. */
  datatype HalfOpen = HalfOpen(lo: int, hi: int) {
    predicate Contains(v: int) {
      lo <= v < hi
    }
  }

  /** The values random.randint(lo, hi) can return: both ends are included. */
  datatype Closed = Closed(lo: int, hi: int) {
    predicate Contains(v: int) {
      lo <= v <= hi
    }
  }

  /** No element occurs twice. */
  predicate Distinct<T(==)>(s: seq<T>) {
    forall i, j :: 0 <= i < j < |s| ==> s[i] != s[j]
  }

  /** The index draws random.sample makes on a pool of n elements: the i-th
      draw is randbelow(n - i), so at most n draws can be made. */
  predicate SamplePicksFit(n: nat, picks: seq<nat>) {
    |picks| <= n && forall i :: 0 <= i < |picks| ==> picks[i] < n - i
  }

  /** The unselected part of the pool after the element at j is taken: the
      last unselected element moves into the vacancy. */
  function SwapRemove<T>(pool: seq<T>, j: nat): (rest: seq<T>)
    requires j < |pool|
    ensures |rest| == |pool| - 1
    ensures forall k :: 0 <= k < |rest| ==> rest[k] == if k == j then pool[|pool| - 1] else pool[k]
  {
    pool[j := pool[|pool| - 1]][..|pool| - 1]
  }

  /** Taking the element at j loses that element and no other value. */
  lemma SwapRemoveKeeps<T>(pool: seq<T>, j: nat, x: T)
    requires j < |pool|
    ensures x in SwapRemove(pool, j) ==> x in pool
    ensures x in pool && x != pool[j] ==> x in SwapRemove(pool, j)
  {
    var rest, last := SwapRemove(pool, j), |pool| - 1;
    if x in rest {
      var k :| 0 <= k < |rest| && rest[k] == x;
      assert pool[if k == j then last else k] == x;
    }
    if x in pool && x != pool[j] {
      var k :| 0 <= k < |pool| && pool[k] == x;
      if k == last {
        assert rest[j] == x;
      } else {
        assert rest[k] == x;
      }
    }
  }

  /** On a pool without repeats, the taken element is gone from the rest and
      the rest still has no repeats. */
  lemma SwapRemoveDistinct<T>(pool: seq<T>, j: nat)
    requires j < |pool| && Distinct(pool)
    ensures Distinct(SwapRemove(pool, j))
    ensures pool[j] !in SwapRemove(pool, j)
  {
    var rest, last := SwapRemove(pool, j), |pool| - 1;
    forall a, b | 0 <= a < b < |rest|
      ensures rest[a] != rest[b]
    {
      var ia, ib := if a == j then last else a, if b == j then last else b;
      assert rest[a] == pool[ia] && rest[b] == pool[ib];
      if ia < ib {
        assert pool[ia] != pool[ib];
      } else {
        assert pool[ib] != pool[ia];
      }
    }
    forall k | 0 <= k < |rest|
      ensures rest[k] != pool[j]
    {
      var ik := if k == j then last else k;
      assert rest[k] == pool[ik];
      if ik < j {
        assert pool[ik] != pool[j];
      } else {
        assert pool[j] != pool[ik];
      }
    }
  }

  /**
   * random.sample(pool, k) with picks[i] the i-th randbelow draw. For a pool
   * this small CPython takes its pool-based branch: pick j selects pool[j],
   * and the last unselected element moves into position j. The result lists
   * the selected elements in the order they were drawn.
   */
  function Sample<T(==)>(pool: seq<T>, picks: seq<nat>): (chosen: seq<T>)
    requires SamplePicksFit(|pool|, picks)
    ensures |chosen| == |picks|
    ensures forall i :: 0 <= i < |chosen| ==> chosen[i] in pool
    ensures Distinct(pool) ==> Distinct(chosen)
    decreases |picks|
  {
    if picks == [] then []
    else
      var j := picks[0];
      var rest := SwapRemove(pool, j);
      assert SamplePicksFit(|rest|, picks[1..]) by {
        forall i | 0 <= i < |picks[1..]|
          ensures picks[1..][i] < |rest| - i
        {
          assert picks[1..][i] == picks[i + 1];
        }
      }
      var tail := Sample(rest, picks[1..]);
      assert forall i :: 0 <= i < |tail| ==> tail[i] in pool by {
        forall i | 0 <= i < |tail|
          ensures tail[i] in pool
        {
          SwapRemoveKeeps(pool, j, tail[i]);
        }
      }
      assert Distinct(pool) ==> Distinct([pool[j]] + tail) by {
        if Distinct(pool) {
          SwapRemoveDistinct(pool, j);
        }
      }
      [pool[j]] + tail
  }

  /** Every ordered selection without repeats is something random.sample
      can return, so the support of Sample is exactly those selections. */
  lemma {:induction false} SampleReachesEverySelection<T>(pool: seq<T>, s: seq<T>)
    requires |s| <= |pool| && Distinct(s)
    requires forall i :: 0 <= i < |s| ==> s[i] in pool
    ensures exists picks :: SamplePicksFit(|pool|, picks) && Sample(pool, picks) == s
    decreases |s|
  {
    if s == [] {
      assert SamplePicksFit(|pool|, []) && Sample(pool, []) == s;
    } else {
      var j :| 0 <= j < |pool| && pool[j] == s[0];
      var rest := SwapRemove(pool, j);
      forall i | 0 <= i < |s[1..]|
        ensures s[1..][i] in rest
      {
        assert s[1..][i] == s[i + 1] && s[i + 1] != s[0];
        SwapRemoveKeeps(pool, j, s[i + 1]);
      }
      assert Distinct(s[1..]) by {
        forall a, b | 0 <= a < b < |s[1..]|
          ensures s[1..][a] != s[1..][b]
        {
          assert s[1..][a] == s[a + 1] && s[1..][b] == s[b + 1];
        }
      }
      SampleReachesEverySelection(rest, s[1..]);
      var tail :| SamplePicksFit(|rest|, tail) && Sample(rest, tail) == s[1..];
      var picks := [j] + tail;
      assert picks[0] == j && picks[1..] == tail;
      assert SamplePicksFit(|pool|, picks) by {
        forall i | 0 <= i < |picks|
          ensures picks[i] < |pool| - i
        {
          if i > 0 {
            assert picks[i] == tail[i - 1];
          }
        }
      }
      assert Sample(pool, picks) == [pool[j]] + Sample(rest, tail);
    }
  }
}
