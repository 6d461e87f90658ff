/**
 * The SPV ("smallest position value") encoder of the swarm optimiser: a
 * real-valued position vector becomes the ordering of its indices by
 * ascending component value, as `np.argsort(position_vector)` computes it.
 *
 * numpy's default sort does not promise an order for equal components. The
 * model breaks ties by the smaller index (a stable sort); that choice is the
 * model's, and every property below that does not mention `LexOrdered`
 * holds for any tie order.
 */
module Permutation {

  /** Every entry of `r` indexes into a vector of length `n`. */
  predicate InRange(r: seq<nat>, n: nat) {
    forall a :: 0 <= a < |r| ==> r[a] < n
  }

  /** `r` holds each index `0 .. n-1` exactly once and nothing else. */
  predicate IsIndexPermutation(r: seq<nat>, n: nat) {
    && |r| == n
    && InRange(r, n)
    && forall k :: 0 <= k < n ==> multiset(r)[k] == 1
  }

  /** `v` is non-decreasing along the ordering `r`. */
  predicate NonDecreasingAlong(v: seq<real>, r: seq<nat>)
    requires InRange(r, |v|)
  {
    forall a, b :: 0 <= a < b < |r| ==> v[r[a]] <= v[r[b]]
  }

  /** Index `i` sorts before index `j`: smaller value, or equal value and smaller index. */
  predicate Precedes(v: seq<real>, i: nat, j: nat)
    requires i < |v| && j < |v|
  {
    v[i] < v[j] || (v[i] == v[j] && i < j)
  }

  /** `r` is ordered by value, ties by index. */
  predicate LexOrdered(v: seq<real>, r: seq<nat>)
    requires InRange(r, |v|)
  {
    forall a, b :: 0 <= a < b < |r| ==> Precedes(v, r[a], r[b])
  }

  /**
   * Insert index `i` into the ordering `s`: before the first index whose value
   * is strictly larger, so after every index of equal value.
   */
  function Insert(v: seq<real>, i: nat, s: seq<nat>): (r: seq<nat>)
    requires i < |v| && InRange(s, |v|)
    ensures |r| == |s| + 1
    ensures InRange(r, |v|)
    ensures multiset(r) == multiset(s) + multiset{i}
  {
    if s == [] then [i]
    else if v[i] < v[s[0]] then [i] + s
    else
      assert s == [s[0]] + s[1..];
      [s[0]] + Insert(v, i, s[1..])
  }

  /** Inserting an index larger than all of `s` keeps `s` ordered by value, ties by index. */
  lemma {:induction false} InsertOrdered(v: seq<real>, i: nat, s: seq<nat>)
    requires i < |v| && InRange(s, |v|)
    requires forall a :: 0 <= a < |s| ==> s[a] < i
    requires LexOrdered(v, s)
    ensures LexOrdered(v, Insert(v, i, s))
  {
    if s != [] && !(v[i] < v[s[0]]) {
      var rest := Insert(v, i, s[1..]);
      InsertOrdered(v, i, s[1..]);
      assert Precedes(v, s[0], i);
      forall b | 0 <= b < |rest|
        ensures Precedes(v, s[0], rest[b])
      {
        assert rest[b] in multiset(rest);
        assert rest[b] == i || rest[b] in multiset(s[1..]);
        if rest[b] != i {
          assert rest[b] in s[1..];
          var c :| 0 <= c < |s[1..]| && s[1..][c] == rest[b];
          assert Precedes(v, s[0], s[c + 1]);
        }
      }
    }
  }

  /** The stable index sort of the first `k` indices of `v`. */
  function SortPrefix(v: seq<real>, k: nat): (r: seq<nat>)
    requires k <= |v|
    ensures |r| == k
    ensures forall a :: 0 <= a < |r| ==> r[a] < k
    ensures forall j: nat :: multiset(r)[j] == if j < k then 1 else 0
    ensures LexOrdered(v, r)
  {
    if k == 0 then []
    else
      var prev := SortPrefix(v, k - 1);
      var r := Insert(v, k - 1, prev);
      InsertOrdered(v, k - 1, prev);
      forall j: nat ensures multiset(r)[j] == if j < k then 1 else 0 {
        assert multiset(r)[j] == multiset(prev)[j] + (if j == k - 1 then 1 else 0);
      }
      forall a | 0 <= a < |r| ensures r[a] < k {
        assert r[a] in multiset(r);
      }
      r
  }

  /**
   * `QPSO.get_permutation`: the indices of `v` in ascending order of their
   * values. The result is a bijection on `0 .. |v|-1` and `v` is
   * non-decreasing along it.
   */
  function ArgSort(v: seq<real>): (r: seq<nat>)
    ensures IsIndexPermutation(r, |v|)
    ensures NonDecreasingAlong(v, r)
    ensures LexOrdered(v, r)
  {
    SortPrefix(v, |v|)
  }

  /** An index that occurs once in `r` occurs at one position only. */
  lemma OnceMeansOnePosition(r: seq<nat>, x: nat, y: nat)
    requires 0 <= x < y < |r| && multiset(r)[r[x]] == 1
    ensures r[x] != r[y]
  {
    assert r == r[..y] + r[y..];
    assert r[x] in r[..y];
    assert r[y] in r[y..];
    assert multiset(r)[r[y]] >= multiset(r[..y])[r[y]] + 1;
  }

  /** `Precedes` is asymmetric. */
  lemma PrecedesAsymmetric(v: seq<real>, i: nat, j: nat)
    requires i < |v| && j < |v|
    ensures !(Precedes(v, i, j) && Precedes(v, j, i))
  {
  }

  /** Two ordered index permutations that agree before position `a` agree at `a`. */
  lemma AgreeAt(v: seq<real>, r: seq<nat>, q: seq<nat>, a: nat)
    requires IsIndexPermutation(r, |v|) && LexOrdered(v, r)
    requires IsIndexPermutation(q, |v|) && LexOrdered(v, q)
    requires a < |v|
    requires forall d :: 0 <= d < a ==> r[d] == q[d]
    ensures r[a] == q[a]
  {
    assert r[a] in multiset(q) && q[a] in multiset(r);
    var b :| 0 <= b < |q| && q[b] == r[a];
    var c :| 0 <= c < |r| && r[c] == q[a];
    forall d | 0 <= d < a ensures q[d] != r[a] && r[d] != q[a] {
      OnceMeansOnePosition(r, d, a);
      OnceMeansOnePosition(q, d, a);
    }
    assert a <= b && a <= c;
    assert b == a || Precedes(v, q[a], r[a]);
    assert c == a || Precedes(v, r[a], q[a]);
    PrecedesAsymmetric(v, q[a], r[a]);
  }

  /** Two ordered index permutations agree on their first `a` positions. */
  lemma {:induction false} AgreeUpTo(v: seq<real>, r: seq<nat>, q: seq<nat>, a: nat)
    requires IsIndexPermutation(r, |v|) && LexOrdered(v, r)
    requires IsIndexPermutation(q, |v|) && LexOrdered(v, q)
    requires a <= |v|
    ensures forall d :: 0 <= d < a ==> r[d] == q[d]
  {
    if a > 0 {
      AgreeUpTo(v, r, q, a - 1);
      AgreeAt(v, r, q, a - 1);
    }
  }

  /**
   * The tie-break fixes the encoding completely: an index permutation ordered
   * by value, ties by index, is the one `ArgSort` returns.
   */
  lemma LexOrderedPermutationUnique(v: seq<real>, r: seq<nat>)
    requires IsIndexPermutation(r, |v|)
    requires LexOrdered(v, r)
    ensures r == ArgSort(v)
  {
    AgreeUpTo(v, r, ArgSort(v), |v|);
  }
}
