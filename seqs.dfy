/** Sequence helpers for the `flatMap` row builders. */
module Seqs {
  import opened Arith

  /** The concatenation `flatMap` performs: the blocks one after another. */
  function Flatten<T>(blocks: seq<seq<T>>): seq<T>
  {
    if blocks == [] then [] else blocks[0] + Flatten(blocks[1..])
  }

  /** When every block has `m` elements, the concatenation has `|blocks| * m`. */
  lemma {:induction false} FlattenUniformLength<T>(blocks: seq<seq<T>>, m: nat)
    requires forall i :: 0 <= i < |blocks| ==> |blocks[i]| == m
    ensures |Flatten(blocks)| == |blocks| * m
    decreases |blocks|
  {
    if blocks != [] {
      FlattenUniformLength(blocks[1..], m);
      MulStep(|blocks| - 1, m);
    }
  }

  /** Element `n` of block `i` sits at position `i * m + n` of the concatenation. */
  lemma {:induction false} FlattenUniformAt<T>(blocks: seq<seq<T>>, m: nat, i: int, n: int)
    requires forall j :: 0 <= j < |blocks| ==> |blocks[j]| == m
    requires 0 <= i < |blocks| && 0 <= n < m
    ensures |Flatten(blocks)| == |blocks| * m
    ensures 0 <= i * m + n < |blocks| * m
    ensures Flatten(blocks)[i * m + n] == blocks[i][n]
    decreases i
  {
    FlattenUniformLength(blocks, m);
    var rest := blocks[1..];
    assert Flatten(blocks) == blocks[0] + Flatten(rest);
    MulStep(|rest|, m);
    if i == 0 {
      assert i * m == 0;
      MulNonNegative(|rest|, m);
    } else {
      FlattenUniformAt(rest, m, i - 1, n);
      MulStep(i - 1, m);
      assert rest[i - 1] == blocks[i];
    }
  }

  /**
   * When every block has `m` elements, element `k` of the concatenation is
   * element `k % m` of block `k / m`.
   */
  lemma FlattenUniformIndex<T>(blocks: seq<seq<T>>, m: nat, k: int)
    requires m > 0
    requires forall j :: 0 <= j < |blocks| ==> |blocks[j]| == m
    requires 0 <= k < |blocks| * m
    ensures |Flatten(blocks)| == |blocks| * m
    ensures 0 <= k / m < |blocks| && 0 <= k % m < m
    ensures Flatten(blocks)[k] == blocks[k / m][k % m]
  {
    DivBound(k, m, |blocks|);
    DivModBasics(k, m);
    var q, r := k / m, k % m;
    FlattenUniformAt(blocks, m, q, r);
    assert q * m + r == k;
  }

  lemma {:induction false} FlattenConcat<T>(a: seq<seq<T>>, b: seq<seq<T>>)
    ensures Flatten(a + b) == Flatten(a) + Flatten(b)
    decreases |a|
  {
    if a == [] {
      assert a + b == b;
    } else {
      assert (a + b)[1..] == a[1..] + b;
      FlattenConcat(a[1..], b);
    }
  }

  /** How many elements of `s` satisfy `p`. */
  function Count<T>(s: seq<T>, p: T -> bool): (c: nat)
    ensures c <= |s|
  {
    if s == [] then 0 else (if p(s[0]) then 1 else 0) + Count(s[1..], p)
  }

  lemma {:induction false} CountConcat<T>(a: seq<T>, b: seq<T>, p: T -> bool)
    ensures Count(a + b, p) == Count(a, p) + Count(b, p)
    decreases |a|
  {
    if a != [] {
      assert (a + b)[1..] == a[1..] + b;
      CountConcat(a[1..], b, p);
    } else {
      assert a + b == b;
    }
  }

  lemma {:induction false} CountUniform<T>(s: seq<T>, p: T -> bool, holds: bool)
    requires forall k :: 0 <= k < |s| ==> p(s[k]) == holds
    ensures Count(s, p) == if holds then |s| else 0
    decreases |s|
  {
    if s != [] {
      CountUniform(s[1..], p, holds);
    }
  }

  /**
   * When the elements satisfying `p` are exactly those of block `t`, the
   * concatenation has as many of them as block `t` has elements.
   */
  lemma {:induction false} CountFlattenOneBlock<T>(blocks: seq<seq<T>>, p: T -> bool, t: int)
    requires forall i, k :: 0 <= i < |blocks| && 0 <= k < |blocks[i]| ==> p(blocks[i][k]) == (i == t)
    ensures Count(Flatten(blocks), p) == if 0 <= t < |blocks| then |blocks[t]| else 0
    decreases |blocks|
  {
    if blocks != [] {
      CountConcat(blocks[0], Flatten(blocks[1..]), p);
      CountUniform(blocks[0], p, t == 0);
      CountFlattenOneBlock(blocks[1..], p, t - 1);
    }
  }
}
