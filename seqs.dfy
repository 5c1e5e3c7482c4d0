/** Concatenation of a list of lists, the shape every nested `for ... append` loop of the
    pipeline produces. */
module Seqs {

  /** `[x for block in blocks for x in block]`. */
  function Concat<T>(blocks: seq<seq<T>>): seq<T> {
    if blocks == [] then [] else Concat(blocks[..|blocks| - 1]) + blocks[|blocks| - 1]
  }

  /** The sum of the block lengths. */
  function TotalLength<T>(blocks: seq<seq<T>>): nat {
    if blocks == [] then 0 else TotalLength(blocks[..|blocks| - 1]) + |blocks[|blocks| - 1]|
  }

  lemma PrefixSnoc<T>(s: seq<T>, j: nat)
    requires j < |s|
    ensures s[..j + 1] == s[..j] + [s[j]]
  {
  }

  lemma PrefixSplit<T>(s: seq<T>, j: nat)
    requires j <= |s|
    ensures s == s[..j] + s[j..]
  {
  }

  lemma ConcatSnoc<T>(blocks: seq<seq<T>>, b: seq<T>)
    ensures Concat(blocks + [b]) == Concat(blocks) + b
    ensures TotalLength(blocks + [b]) == TotalLength(blocks) + |b|
  {
    assert (blocks + [b])[..|blocks|] == blocks;
  }

  lemma {:induction false} ConcatLength<T>(blocks: seq<seq<T>>)
    ensures |Concat(blocks)| == TotalLength(blocks)
  {
    if blocks != [] {
      ConcatLength(blocks[..|blocks| - 1]);
    }
  }

  lemma {:induction false} ConcatAppend<T>(a: seq<seq<T>>, b: seq<seq<T>>)
    ensures Concat(a + b) == Concat(a) + Concat(b)
  {
    if b == [] {
      assert a + b == a;
    } else {
      var b' := b[..|b| - 1];
      assert a + b == (a + b') + [b[|b| - 1]];
      ConcatSnoc(a + b', b[|b| - 1]);
      ConcatAppend(a, b');
      ConcatSnoc(b', b[|b| - 1]);
      assert b == b' + [b[|b| - 1]];
    }
  }

  /** Blocks that all have length `n` concatenate to `|blocks| * n` elements. */
  lemma {:induction false} ConcatUniformLength<T>(blocks: seq<seq<T>>, n: nat)
    requires forall i :: 0 <= i < |blocks| ==> |blocks[i]| == n
    ensures |Concat(blocks)| == |blocks| * n
  {
    if blocks != [] {
      ConcatUniformLength(blocks[..|blocks| - 1], n);
      assert |blocks| * n == (|blocks| - 1) * n + n;
    }
  }

  /** Element `r` of block `i` sits at position `i * n + r` of the concatenation. */
  lemma {:induction false} ConcatUniformIndex<T>(blocks: seq<seq<T>>, n: nat, i: nat, r: nat)
    requires forall k :: 0 <= k < |blocks| ==> |blocks[k]| == n
    requires i < |blocks| && r < n
    ensures i * n + r < |Concat(blocks)|
    ensures Concat(blocks)[i * n + r] == blocks[i][r]
  {
    var m := |blocks| - 1;
    var init := blocks[..m];
    ConcatUniformLength(init, n);
    ConcatUniformLength(blocks, n);
    if i < m {
      ConcatUniformIndex(init, n, i, r);
      MulMonotone(i + 1, m, n);
    } else {
      assert i * n == |Concat(init)|;
    }
  }

  /** Blocks of blocks: element k of inner block j of outer block i sits at position
      (i * L + j) * P + k of the flattened list, when every outer block holds L inner blocks
      of P elements each. */
  lemma ConcatNestedIndex<T>(outer: seq<seq<T>>, inner: seq<seq<T>>, i: nat, j: nat, k: nat, p: nat)
    requires forall i' :: 0 <= i' < |outer| ==> |outer[i']| == |inner| * p
    requires i < |outer| && outer[i] == Concat(inner)
    requires forall j' :: 0 <= j' < |inner| ==> |inner[j']| == p
    requires j < |inner| && k < p
    ensures |Concat(outer)| == |outer| * |inner| * p
    ensures 0 <= (i * |inner| + j) * p + k < |Concat(outer)| && Concat(outer)[(i * |inner| + j) * p + k] == inner[j][k]
  {
    var n := |outer[i]|;
    GridPosition(i, j, k, |outer|, |inner|, p);
    var r: nat := j * p + k;
    ConcatUniformIndex(inner, p, j, k);
    ConcatUniformIndex(outer, n, i, r);
    ConcatUniformLength(outer, n);
  }

  /** The position of (i, j, k) in an `L` by `P` grid of blocks, counted two ways. */
  lemma GridPosition(i: nat, j: nat, k: nat, n: nat, l: nat, p: nat)
    requires i < n && j < l && k < p
    ensures 0 <= j * p + k < l * p
    ensures 0 <= i * (l * p) + (j * p + k) < n * (l * p)
    ensures (i * l + j) * p + k == i * (l * p) + (j * p + k)
    ensures n * l * p == n * (l * p)
  {
    MulMonotone(j + 1, l, p);
    MulMonotone(i + 1, n, l * p);
    assert (i * l + j) * p == i * l * p + j * p;
    assert i * l * p == i * (l * p);
  }

  lemma MulMonotone(a: nat, b: nat, n: nat)
    requires a <= b
    ensures a * n <= b * n
  {
  }

  /** The concatenation holds exactly the elements of the blocks. */
  lemma {:induction false} InConcat<T>(blocks: seq<seq<T>>, x: T)
    ensures x in Concat(blocks) <==> exists i :: 0 <= i < |blocks| && x in blocks[i]
  {
    if blocks != [] {
      var init := blocks[..|blocks| - 1];
      InConcat(init, x);
      if x in Concat(blocks) && x !in blocks[|blocks| - 1] {
        var i :| 0 <= i < |init| && x in init[i];
        assert x in blocks[i];
      }
      if exists i :: 0 <= i < |blocks| && x in blocks[i] {
        var i :| 0 <= i < |blocks| && x in blocks[i];
        if i < |init| { assert x in init[i]; }
      }
    }
  }
}
