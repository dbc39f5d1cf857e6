/**
 * `create_triplet_pools`: from the annotation masks of an anchor frame A and two pool
 * frames F1, F2, and their embedding fields, build the foreground and background anchor
 * batches and the shared, role-swapped positive and negative pools.
 */
module TripletPools {
  import opened Wrappers
  import opened Tensors

  /**
   * The six batches, in the order `create_triplet_pools` returns them:
   * fg anchors, fg positives, fg negatives, bg anchors, bg positives, bg negatives.
   */
  datatype Pools<V> = Pools(
    fgAnchor: seq<V>, fgPositive: seq<V>, fgNegative: seq<V>,
    bgAnchor: seq<V>, bgPositive: seq<V>, bgNegative: seq<V>)

  /**
   * The inputs the model covers, which the design of `create_triplet_pools` takes for granted:
   * each mask has exactly its frame's embedding resolution, and the two pool frames are equally
   * tall, so that they can be stacked side by side. In Python a mask larger than its field
   * raises in a gather, and a smaller one runs but misaligns the pool, because the fields are
   * stacked at the field's width and the masks at the mask's width; neither case is modelled.
   */
  predicate Compatible<V>(maskA: Grid<bool>, maskF1: Grid<bool>, maskF2: Grid<bool>,
                          embA: Grid<V>, embF1: Grid<V>, embF2: Grid<V>)
  {
    && SameShape(maskA, embA)
    && SameShape(maskF1, embF1)
    && SameShape(maskF2, embF2)
    && |maskF1| == |maskF2|
  }

  /** The sample cannot give triplets: the anchor or the two pool frames together miss a class. */
  ghost predicate Degenerate(maskA: Grid<bool>, maskF1: Grid<bool>, maskF2: Grid<bool>)
  {
    || !AnyPixel(maskA, true)
    || !AnyPixel(maskA, false)
    || !(AnyPixel(maskF1, true) || AnyPixel(maskF2, true))
    || !(AnyPixel(maskF1, false) || AnyPixel(maskF2, false))
  }

  /** Coordinate `c` lies inside F1 and F2 stacked side by side. */
  predicate InPool<T>(f1: Grid<T>, f2: Grid<T>, c: Coord)
    requires |f1| == |f2|
  {
    0 <= c.0 < |f1| && 0 <= c.1 < |f1[c.0]| + |f2[c.0]|
  }

  /** The pixel of F1 or F2 that coordinate `c` of the stacked pool stands for. */
  function PoolAt<T>(f1: Grid<T>, f2: Grid<T>, c: Coord): T
    requires |f1| == |f2| && 0 <= c.0 < |f1| && 0 <= c.1 < |f1[c.0]| + |f2[c.0]|
  {
    if c.1 < |f1[c.0]| then f1[c.0][c.1] else f2[c.0][c.1 - |f1[c.0]|]
  }

  /**
   * `create_triplet_pools` of `bfvos/train.py`, step by step and in its order: the anchor lists
   * are tested before the pool mask is built. It gives no pools exactly when the masks are
   * degenerate, that is, when one of the four index lists is empty.
   */
  function CreateTripletPools<V>(maskA: Grid<bool>, maskF1: Grid<bool>, maskF2: Grid<bool>,
                                 embA: Grid<V>, embF1: Grid<V>, embF2: Grid<V>): (r: Option<Pools<V>>)
    requires Compatible(maskA, maskF1, maskF2, embA, embF1, embF2)
    ensures r.None? <==> Degenerate(maskA, maskF1, maskF2)
  {
    NonZeroEmpty(maskA); ZeroEmpty(maskA);
    NonZeroEmpty(Concat(maskF1, maskF2)); ZeroEmpty(Concat(maskF1, maskF2));
    ConcatAnyPixel(maskF1, maskF2, true); ConcatAnyPixel(maskF1, maskF2, false);
    var embPool := Concat(embF1, embF2);
    var fgAnchorIdx := NonZero(maskA);
    var bgAnchorIdx := NonZero(IsZero(maskA));
    if fgAnchorIdx == [] || bgAnchorIdx == [] then None
    else
      var poolMask := Concat(maskF1, maskF2);
      var fgPoolIdx := NonZero(poolMask);
      var bgPoolIdx := NonZero(IsZero(poolMask));
      if fgPoolIdx == [] || bgPoolIdx == [] then None
      else
        // every listed coordinate lies inside the field it is gathered from
        NonZeroSpec(maskA); NonZeroSpec(IsZero(maskA)); IsZeroAt(maskA);
        NonZeroSpec(poolMask); NonZeroSpec(IsZero(poolMask)); IsZeroAt(poolMask);
        ConcatAt(maskF1, maskF2); ConcatAt(embF1, embF2);
        var fgEmbA := Gather(embA, fgAnchorIdx);
        var bgEmbA := Gather(embA, bgAnchorIdx);
        var fgPositive := Gather(embPool, fgPoolIdx);
        var bgPositive := Gather(embPool, bgPoolIdx);
        Some(Pools(fgEmbA, fgPositive, bgPositive, bgEmbA, bgPositive, fgPositive))
  }

  /**
   * The stacked pool mask and pool field are as tall as either frame and W1 + W2 wide,
   * and pool coordinate (x, y) is (x, y) of F1 when y < W1 and (x, y - W1) of F2 otherwise.
   */
  lemma PoolStacking<T>(f1: Grid<T>, f2: Grid<T>, h: nat, w1: nat, w2: nat)
    requires IsRect(f1, h, w1) && IsRect(f2, h, w2)
    ensures IsRect(Concat(f1, f2), h, w1 + w2)
    ensures forall x, y :: 0 <= x < h && 0 <= y < w1 + w2 ==>
              Concat(f1, f2)[x][y] == if y < w1 then f1[x][y] else f2[x][y - w1]
  {
    ConcatShape(f1, f2, h, w1, w2);
    ConcatAt(f1, f2);
  }

  /**
   * With pools, every batch is the gather of its index list: element k is the vector at the
   * k-th listed coordinate, of the anchor field for the anchor batches and of F1 or F2 (through
   * the stacked pool) for the pool batches; the negative pools are the other class's positives.
   */
  lemma PoolsContents<V>(maskA: Grid<bool>, maskF1: Grid<bool>, maskF2: Grid<bool>,
                         embA: Grid<V>, embF1: Grid<V>, embF2: Grid<V>)
    requires Compatible(maskA, maskF1, maskF2, embA, embF1, embF2)
    requires CreateTripletPools(maskA, maskF1, maskF2, embA, embF1, embF2).Some?
    ensures var p := CreateTripletPools(maskA, maskF1, maskF2, embA, embF1, embF2).value;
            var fgA, bgA := NonZero(maskA), NonZero(IsZero(maskA));
            var pool := Concat(maskF1, maskF2);
            var fgP, bgP := NonZero(pool), NonZero(IsZero(pool));
            && p.fgNegative == p.bgPositive
            && p.bgNegative == p.fgPositive
            && |p.fgAnchor| == |fgA| && |p.bgAnchor| == |bgA|
            && |p.fgPositive| == |fgP| && |p.bgPositive| == |bgP|
            && (forall k :: 0 <= k < |fgA| ==>
                  InBounds(maskA, fgA[k]) && maskA[fgA[k].0][fgA[k].1]
                  && p.fgAnchor[k] == embA[fgA[k].0][fgA[k].1])
            && (forall k :: 0 <= k < |bgA| ==>
                  InBounds(maskA, bgA[k]) && !maskA[bgA[k].0][bgA[k].1]
                  && p.bgAnchor[k] == embA[bgA[k].0][bgA[k].1])
            && (forall k :: 0 <= k < |fgP| ==>
                  InPool(maskF1, maskF2, fgP[k]) && PoolAt(maskF1, maskF2, fgP[k])
                  && p.fgPositive[k] == PoolAt(embF1, embF2, fgP[k]))
            && (forall k :: 0 <= k < |bgP| ==>
                  InPool(maskF1, maskF2, bgP[k]) && !PoolAt(maskF1, maskF2, bgP[k])
                  && p.bgPositive[k] == PoolAt(embF1, embF2, bgP[k]))
  {
    var p := CreateTripletPools(maskA, maskF1, maskF2, embA, embF1, embF2).value;
    var pool := Concat(maskF1, maskF2);
    var zA, zP := IsZero(maskA), IsZero(pool);
    var bgA, bgP := NonZero(zA), NonZero(zP);
    NonZeroSpec(maskA); NonZeroSpec(zA); IsZeroAt(maskA);
    NonZeroSpec(pool); NonZeroSpec(zP); IsZeroAt(pool);
    ConcatAt(maskF1, maskF2); ConcatAt(embF1, embF2);
    GatherAt(embA, NonZero(maskA)); GatherAt(embA, bgA);
    GatherAt(Concat(embF1, embF2), NonZero(pool)); GatherAt(Concat(embF1, embF2), bgP);
    forall k | 0 <= k < |bgA| ensures !maskA[bgA[k].0][bgA[k].1] {
      assert bgA[k] in bgA;
      assert zA[bgA[k].0] == Not(maskA[bgA[k].0]);
    }
    forall k | 0 <= k < |bgP| ensures !PoolAt(maskF1, maskF2, bgP[k]) {
      assert bgP[k] in bgP;
      assert zP[bgP[k].0] == Not(pool[bgP[k].0]);
    }
  }

  /**
   * The batch sizes are pixel counts: anchors count the anchor mask's pixels of each class,
   * pools count F1's and F2's together, and each pair of sizes adds up to the frame area.
   */
  lemma PoolsCardinality<V>(maskA: Grid<bool>, maskF1: Grid<bool>, maskF2: Grid<bool>,
                            embA: Grid<V>, embF1: Grid<V>, embF2: Grid<V>)
    requires Compatible(maskA, maskF1, maskF2, embA, embF1, embF2)
    requires CreateTripletPools(maskA, maskF1, maskF2, embA, embF1, embF2).Some?
    ensures var p := CreateTripletPools(maskA, maskF1, maskF2, embA, embF1, embF2).value;
            && |p.fgAnchor| == Count(maskA)
            && |p.bgAnchor| == Count(IsZero(maskA))
            && |p.fgPositive| == Count(maskF1) + Count(maskF2)
            && |p.bgPositive| == Count(IsZero(maskF1)) + Count(IsZero(maskF2))
            && |p.fgAnchor| + |p.bgAnchor| == Cells(maskA)
            && |p.fgPositive| + |p.bgPositive| == Cells(maskF1) + Cells(maskF2)
  {
    var pool := Concat(maskF1, maskF2);
    NonZeroCount(maskA);
    NonZeroCount(IsZero(maskA));
    NonZeroCount(pool);
    NonZeroCount(IsZero(pool));
    ConcatCount(maskF1, maskF2);
    IsZeroConcat(maskF1, maskF2);
    ConcatCount(IsZero(maskF1), IsZero(maskF2));
    CountComplement(maskA);
    CountComplement(maskF1);
    CountComplement(maskF2);
  }

  /**
   * An h-by-w anchor mask whose only foreground pixel is (p, q), with pool frames that hold both
   * classes, gives pools whose foreground anchors are that one vector and with h * w - 1
   * background anchors.
   */
  lemma SingleForegroundAnchor<V>(maskA: Grid<bool>, maskF1: Grid<bool>, maskF2: Grid<bool>,
                                  embA: Grid<V>, embF1: Grid<V>, embF2: Grid<V>,
                                  h: nat, w: nat, p: nat, q: nat)
    requires Compatible(maskA, maskF1, maskF2, embA, embF1, embF2)
    requires IsRect(maskA, h, w) && p < h && q < w && h * w > 1
    requires forall i, j :: 0 <= i < h && 0 <= j < w ==> (maskA[i][j] <==> i == p && j == q)
    requires AnyPixel(maskF1, true) || AnyPixel(maskF2, true)
    requires AnyPixel(maskF1, false) || AnyPixel(maskF2, false)
    ensures var r := CreateTripletPools(maskA, maskF1, maskF2, embA, embF1, embF2);
            && r.Some?
            && r.value.fgAnchor == [embA[p][q]]
            && |r.value.bgAnchor| == h * w - 1
  {
    SinglePixel(maskA, h, w, p, q);
    assert maskA[p][q];
    assert AnyPixel(maskA, true);
    ZeroEmpty(maskA);
  }

  /** The 4x4 anchor mask whose only foreground pixel is (0, 0). */
  function CornerMask(): (m: Grid<bool>)
    ensures IsRect(m, 4, 4)
    ensures forall i, j :: 0 <= i < 4 && 0 <= j < 4 ==> (m[i][j] <==> i == 0 && j == 0)
  {
    seq(4, i => seq(4, j => i == 0 && j == 0))
  }

  /** With the corner mask as anchor: 1 foreground and 15 background anchor vectors. */
  lemma CornerMaskExample<V>(maskF1: Grid<bool>, maskF2: Grid<bool>,
                             embA: Grid<V>, embF1: Grid<V>, embF2: Grid<V>)
    requires Compatible(CornerMask(), maskF1, maskF2, embA, embF1, embF2)
    requires AnyPixel(maskF1, true) || AnyPixel(maskF2, true)
    requires AnyPixel(maskF1, false) || AnyPixel(maskF2, false)
    ensures var r := CreateTripletPools(CornerMask(), maskF1, maskF2, embA, embF1, embF2);
            r.Some? && |r.value.fgAnchor| == 1 && |r.value.bgAnchor| == 15
  {
    SingleForegroundAnchor(CornerMask(), maskF1, maskF2, embA, embF1, embF2, 4, 4, 0, 0);
  }
}
