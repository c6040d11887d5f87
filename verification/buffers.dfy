/**
 * Indexed mesh buffers (`RelativeBuffers`): a list of vertex attributes and a
 * list of indices, three per triangle, each naming an attribute by position.
 * Concatenation appends attributes and shifts the second buffer's indices past
 * the first buffer's attributes; a transform moves positions and keeps indices.
 */
module Buffers {

  datatype Vec2 = Vec2(x: real, y: real)

  datatype Vec3 = Vec3(x: real, y: real, z: real)

  /** One mesh vertex: a position in space and a texture coordinate, in pixels. */
  datatype Attribute = Attribute(space: Vec3, tex: Vec2)

  datatype RelativeBuffers = RelativeBuffers(attributes: seq<Attribute>, indices: seq<nat>)

  const Empty := RelativeBuffers([], [])

  /** No dangling references: every index names an attribute of the same buffer. */
  predicate WellFormed(b: RelativeBuffers) {
    forall i | 0 <= i < |b.indices| :: b.indices[i] < |b.attributes|
  }

  /** Every attribute is used by some index. */
  predicate Covered(b: RelativeBuffers) {
    forall a | 0 <= a < |b.attributes| :: a in b.indices
  }

  /** The attribute each index refers to: the triangles' corners, in order. */
  function Resolve(b: RelativeBuffers): (r: seq<Attribute>)
    requires WellFormed(b)
    ensures |r| == |b.indices|
    ensures forall i | 0 <= i < |r| :: r[i] == b.attributes[b.indices[i]]
  {
    seq(|b.indices|, i requires 0 <= i < |b.indices| && WellFormed(b) => b.attributes[b.indices[i]])
  }

  /** Every index moved up by `n`. */
  function Shift(indices: seq<nat>, n: nat): (r: seq<nat>)
    ensures |r| == |indices|
    ensures forall i | 0 <= i < |r| :: r[i] == indices[i] + n
  {
    seq(|indices|, i requires 0 <= i < |indices| => indices[i] + n)
  }

  /** `RelativeBuffers::concat`. */
  function Concat(a: RelativeBuffers, b: RelativeBuffers): (r: RelativeBuffers)
    ensures r.attributes == a.attributes + b.attributes
    ensures |r.indices| == |a.indices| + |b.indices|
    ensures r.indices[..|a.indices|] == a.indices
    ensures forall j | 0 <= j < |b.indices| :: r.indices[|a.indices| + j] == b.indices[j] + |a.attributes|
    ensures WellFormed(a) && WellFormed(b) ==> WellFormed(r)
    ensures Covered(a) && Covered(b) ==> Covered(r)
  {
    var r := RelativeBuffers(a.attributes + b.attributes, a.indices + Shift(b.indices, |a.attributes|));
    assert Covered(a) && Covered(b) ==> Covered(r) by {
      if Covered(a) && Covered(b) {
        forall k | 0 <= k < |r.attributes| ensures k in r.indices {
          if k < |a.attributes| {
            assert k in a.indices;
          } else {
            var m: nat := k - |a.attributes|;
            assert m in b.indices;
            var j :| 0 <= j < |b.indices| && b.indices[j] == m;
            assert r.indices[|a.indices| + j] == k;
          }
        }
      }
    }
    r
  }

  /** Concatenation keeps every index pointing at the same attribute it did before. */
  lemma ConcatResolves(a: RelativeBuffers, b: RelativeBuffers)
    requires WellFormed(a) && WellFormed(b)
    ensures Resolve(Concat(a, b)) == Resolve(a) + Resolve(b)
  {
  }

  /** The empty buffer is a left identity of concatenation. */
  lemma ConcatEmptyLeft(b: RelativeBuffers)
    ensures Concat(Empty, b) == b
  {
    assert Shift(b.indices, 0) == b.indices;
    assert [] + b.indices == b.indices;
  }

  /** The empty buffer is a right identity of concatenation. */
  lemma ConcatEmptyRight(b: RelativeBuffers)
    ensures Concat(b, Empty) == b
  {
  }

  lemma {:induction false} ConcatAssociative(a: RelativeBuffers, b: RelativeBuffers, c: RelativeBuffers)
    ensures Concat(Concat(a, b), c) == Concat(a, Concat(b, c))
  {
  }

  /** Total attribute count of a list of buffers. */
  function AttributeTotal(bs: seq<RelativeBuffers>): nat {
    if |bs| == 0 then 0 else AttributeTotal(bs[..|bs| - 1]) + |bs[|bs| - 1].attributes|
  }

  /** Total index count of a list of buffers. */
  function IndexTotal(bs: seq<RelativeBuffers>): nat {
    if |bs| == 0 then 0 else IndexTotal(bs[..|bs| - 1]) + |bs[|bs| - 1].indices|
  }

  predicate AllWellFormed(bs: seq<RelativeBuffers>) {
    forall i | 0 <= i < |bs| :: WellFormed(bs[i])
  }

  /** Left fold of `Concat` from the empty buffer. */
  function FoldConcat(bs: seq<RelativeBuffers>): (r: RelativeBuffers)
    ensures |r.attributes| == AttributeTotal(bs)
    ensures |r.indices| == IndexTotal(bs)
    ensures AllWellFormed(bs) ==> WellFormed(r)
  {
    if |bs| == 0 then Empty else Concat(FoldConcat(bs[..|bs| - 1]), bs[|bs| - 1])
  }

  /** Folding a concatenated list is concatenating the two folds. */
  lemma {:induction false} FoldConcatAppend(xs: seq<RelativeBuffers>, ys: seq<RelativeBuffers>)
    ensures FoldConcat(xs + ys) == Concat(FoldConcat(xs), FoldConcat(ys))
    decreases |ys|
  {
    if |ys| == 0 {
      assert xs + ys == xs;
      ConcatEmptyRight(FoldConcat(xs));
    } else {
      var init, last := ys[..|ys| - 1], ys[|ys| - 1];
      assert (xs + ys)[..|xs + ys| - 1] == xs + init;
      FoldConcatAppend(xs, init);
      ConcatAssociative(FoldConcat(xs), FoldConcat(init), last);
    }
  }

  /** The corners of every buffer's triangles, in order. */
  function ResolveAll(bs: seq<RelativeBuffers>): seq<Attribute>
    requires AllWellFormed(bs)
  {
    if |bs| == 0 then [] else ResolveAll(bs[..|bs| - 1]) + Resolve(bs[|bs| - 1])
  }

  /** The folded buffer's triangles are each buffer's own triangles, one list after another. */
  lemma {:induction false} FoldConcatResolves(bs: seq<RelativeBuffers>)
    requires AllWellFormed(bs)
    ensures Resolve(FoldConcat(bs)) == ResolveAll(bs)
  {
    if |bs| > 0 {
      FoldConcatResolves(bs[..|bs| - 1]);
      ConcatResolves(FoldConcat(bs[..|bs| - 1]), bs[|bs| - 1]);
    }
  }

  /** `RelativeBuffers::concat_all`: one pass with a running attribute-count offset. */
  method ConcatAll(bs: seq<RelativeBuffers>) returns (r: RelativeBuffers)
    ensures r == FoldConcat(bs)
  {
    var attributes: seq<Attribute> := [];
    var indices: seq<nat> := [];
    for k := 0 to |bs|
      invariant RelativeBuffers(attributes, indices) == FoldConcat(bs[..k])
    {
      indices := indices + Shift(bs[k].indices, |attributes|);
      attributes := attributes + bs[k].attributes;
      assert bs[..k + 1][..k] == bs[..k];
    }
    assert bs[..|bs|] == bs;
    r := RelativeBuffers(attributes, indices);
  }

  /**
   * `RelativeBuffers::transform`: every position is moved by `m` (the source's
   * 4x4 matrix applied to the position extended with 1); texture coordinates and
   * indices are untouched.
   */
  function Transform(b: RelativeBuffers, m: Vec3 -> Vec3): (r: RelativeBuffers)
    ensures r.indices == b.indices
    ensures |r.attributes| == |b.attributes|
    ensures forall i | 0 <= i < |b.attributes| ::
              r.attributes[i].space == m(b.attributes[i].space) && r.attributes[i].tex == b.attributes[i].tex
  {
    RelativeBuffers(seq(|b.attributes|, i requires 0 <= i < |b.attributes| =>
                          Attribute(m(b.attributes[i].space), b.attributes[i].tex)),
                    b.indices)
  }

  /** A transform keeps a buffer well formed and covered, and each triangle's corners are the moved originals. */
  lemma TransformPreserves(b: RelativeBuffers, m: Vec3 -> Vec3)
    requires WellFormed(b)
    ensures WellFormed(Transform(b, m))
    ensures Covered(b) ==> Covered(Transform(b, m))
    ensures forall i | 0 <= i < |b.indices| ::
              Resolve(Transform(b, m))[i] == Attribute(m(Resolve(b)[i].space), Resolve(b)[i].tex)
  {
  }

  /** Transforming the parts and then concatenating them is transforming the whole. */
  lemma TransformDistributes(a: RelativeBuffers, b: RelativeBuffers, m: Vec3 -> Vec3)
    ensures Transform(Concat(a, b), m) == Concat(Transform(a, m), Transform(b, m))
  {
  }
}
