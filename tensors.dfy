/**
 * The few tensor operations the pool builder uses, on 2-D tensors given row by row:
 * `torch.cat` along the column axis, `m == 0` on a mask, `torch.nonzero`, and the
 * gather `[e[:, x, y] for x, y in idx]`, plus the pixel counts that specify them.
 */
module Tensors {

  /** A (row, column) position: one row of the result of `torch.nonzero` on a 2-D tensor. */
  type Coord = (int, int)

  /** A 2-D tensor as a sequence of rows: a mask when `T` is bool, an embedding field when `T` is a vector. */
  type Grid<T> = seq<seq<T>>

  predicate InBounds<T>(g: Grid<T>, c: Coord)
  {
    0 <= c.0 < |g| && 0 <= c.1 < |g[c.0]|
  }

  /** Same number of rows, and row by row the same number of columns. */
  predicate SameShape<S, T>(a: Grid<S>, b: Grid<T>)
  {
    |a| == |b| && forall i :: 0 <= i < |a| ==> |a[i]| == |b[i]|
  }

  /** `g` is an h-by-w tensor. */
  predicate IsRect<T>(g: Grid<T>, h: nat, w: nat)
  {
    |g| == h && forall i :: 0 <= i < h ==> |g[i]| == w
  }

  /** Number of cells of `g`. */
  function Cells<T>(g: Grid<T>): nat
  {
    if g == [] then 0 else |g[0]| + Cells(g[1..])
  }

  lemma {:induction false} CellsRect<T>(g: Grid<T>, h: nat, w: nat)
    requires IsRect(g, h, w)
    ensures Cells(g) == h * w
    decreases h
  {
    if h > 0 {
      assert IsRect(g[1..], h - 1, w);
      CellsRect(g[1..], h - 1, w);
      assert h * w == w + (h - 1) * w;
    }
  }

  // ---------------------------------------------------------------------------
  // torch.cat([a, b], 1): horizontal stacking

  /** The two tensors side by side: row i of the result is row i of `a` followed by row i of `b`. */
  function Concat<T>(a: Grid<T>, b: Grid<T>): (r: Grid<T>)
    requires |a| == |b|
    ensures |r| == |a|
  {
    seq(|a|, i requires 0 <= i < |a| => a[i] + b[i])
  }

  /** Row i is as wide as the two rows i together, and its cells are those of `a`'s row, then `b`'s. */
  lemma ConcatAt<T>(a: Grid<T>, b: Grid<T>)
    requires |a| == |b|
    ensures var r := Concat(a, b);
            && (forall i :: 0 <= i < |r| ==> |r[i]| == |a[i]| + |b[i]|)
            && (forall i, j :: 0 <= i < |r| && 0 <= j < |r[i]| ==>
                  r[i][j] == if j < |a[i]| then a[i][j] else b[i][j - |a[i]|])
  {
  }

  lemma ConcatShape<T>(a: Grid<T>, b: Grid<T>, h: nat, w1: nat, w2: nat)
    requires IsRect(a, h, w1) && IsRect(b, h, w2)
    ensures IsRect(Concat(a, b), h, w1 + w2)
  {
    ConcatAt(a, b);
  }

  lemma {:induction false} ConcatCells<T>(a: Grid<T>, b: Grid<T>)
    requires |a| == |b|
    ensures Cells(Concat(a, b)) == Cells(a) + Cells(b)
    decreases |a|
  {
    if a != [] {
      assert Concat(a, b)[1..] == Concat(a[1..], b[1..]);
      ConcatCells(a[1..], b[1..]);
    }
  }

  // ---------------------------------------------------------------------------
  // m == 0 on a binary mask

  function Not(row: seq<bool>): (r: seq<bool>)
    ensures |r| == |row|
  {
    seq(|row|, j requires 0 <= j < |row| => !row[j])
  }

  /** The mask `m == 0`: set exactly where `m` is clear. */
  function IsZero(m: Grid<bool>): (r: Grid<bool>)
    ensures |r| == |m|
  {
    seq(|m|, i requires 0 <= i < |m| => Not(m[i]))
  }

  /** `m == 0` has the shape of `m` and is set exactly at the cells where `m` is clear. */
  lemma IsZeroAt(m: Grid<bool>)
    ensures var r := IsZero(m);
            && SameShape(r, m)
            && (forall i :: 0 <= i < |m| ==> r[i] == Not(m[i]))
            && (forall i, j :: 0 <= i < |m| && 0 <= j < |m[i]| ==> r[i][j] == !m[i][j])
  {
  }

  lemma IsZeroConcat(a: Grid<bool>, b: Grid<bool>)
    requires |a| == |b|
    ensures IsZero(Concat(a, b)) == Concat(IsZero(a), IsZero(b))
  {
    var l, r := IsZero(Concat(a, b)), Concat(IsZero(a), IsZero(b));
    forall i | 0 <= i < |a| ensures l[i] == r[i] {
      assert Not(a[i] + b[i]) == Not(a[i]) + Not(b[i]);
    }
  }

  // ---------------------------------------------------------------------------
  // torch.nonzero: set cells in row-major order

  /** `p` comes strictly before `q` in row-major order. */
  predicate Before(p: Coord, q: Coord)
  {
    p.0 < q.0 || (p.0 == q.0 && p.1 < q.1)
  }

  /** Strictly increasing in row-major order (hence without repetitions). */
  predicate RowMajor(s: seq<Coord>)
  {
    forall a, b :: 0 <= a < b < |s| ==> Before(s[a], s[b])
  }

  lemma RowMajorAppend(s: seq<Coord>, t: seq<Coord>)
    requires RowMajor(s) && RowMajor(t)
    requires forall p, q :: p in s && q in t ==> Before(p, q)
    ensures RowMajor(s + t)
  {
    forall a, b | 0 <= a < b < |s + t| ensures Before((s + t)[a], (s + t)[b]) {
      if b < |s| {
        assert (s + t)[a] == s[a] && (s + t)[b] == s[b];
      } else if a >= |s| {
        assert (s + t)[a] == t[a - |s|] && (s + t)[b] == t[b - |s|];
      } else {
        assert (s + t)[a] == s[a] && s[a] in s;
        assert (s + t)[b] == t[b - |s|] && t[b - |s|] in t;
      }
    }
  }

  /** The set cells of `row` (which is row `x` of its mask) from column `y` on. */
  function RowNonZero(row: seq<bool>, x: int, y: nat): seq<Coord>
    requires y <= |row|
    decreases |row| - y
  {
    if y == |row| then []
    else
      var rest := RowNonZero(row, x, y + 1);
      if row[y] then [(x, y)] + rest else rest
  }

  lemma {:induction false} RowNonZeroSpec(row: seq<bool>, x: int, y: nat)
    requires y <= |row|
    ensures var r := RowNonZero(row, x, y);
            && (forall c :: c in r ==> c.0 == x && y <= c.1 < |row| && row[c.1])
            && (forall j :: y <= j < |row| && row[j] ==> (x, j) in r)
            && RowMajor(r)
    decreases |row| - y
  {
    if y < |row| {
      RowNonZeroSpec(row, x, y + 1);
      if row[y] {
        RowMajorAppend([(x, y)], RowNonZero(row, x, y + 1));
      }
    }
  }

  /** The set cells of `m` in rows `x` and below. */
  function NonZeroFrom(m: Grid<bool>, x: nat): seq<Coord>
    requires x <= |m|
    decreases |m| - x
  {
    if x == |m| then [] else RowNonZero(m[x], x, 0) + NonZeroFrom(m, x + 1)
  }

  lemma {:induction false} NonZeroFromSpec(m: Grid<bool>, x: nat)
    requires x <= |m|
    ensures var r := NonZeroFrom(m, x);
            && (forall c :: c in r ==> x <= c.0 && InBounds(m, c) && m[c.0][c.1])
            && (forall i, j :: x <= i < |m| && 0 <= j < |m[i]| && m[i][j] ==> (i, j) in r)
            && RowMajor(r)
    decreases |m| - x
  {
    if x < |m| {
      RowNonZeroSpec(m[x], x, 0);
      NonZeroFromSpec(m, x + 1);
      RowMajorAppend(RowNonZero(m[x], x, 0), NonZeroFrom(m, x + 1));
    }
  }

  /** `torch.nonzero(m)`: the coordinates of the set cells of `m`, in row-major order. */
  function NonZero(m: Grid<bool>): seq<Coord>
  {
    NonZeroFrom(m, 0)
  }

  /**
   * `torch.nonzero(m)` lists exactly the in-bounds coordinates of the set cells of `m`, in
   * strictly increasing row-major order.
   */
  lemma NonZeroSpec(m: Grid<bool>)
    ensures var r := NonZero(m);
            && (forall c :: c in r <==> InBounds(m, c) && m[c.0][c.1])
            && (forall k :: 0 <= k < |r| ==> InBounds(m, r[k]) && m[r[k].0][r[k].1])
            && RowMajor(r)
  {
    NonZeroFromSpec(m, 0);
    var r := NonZero(m);
    forall k | 0 <= k < |r| ensures InBounds(m, r[k]) && m[r[k].0][r[k].1] {
      assert r[k] in r;
    }
  }

  /** A row-major sequence is determined by its elements. */
  lemma {:induction false} RowMajorUnique(s: seq<Coord>, t: seq<Coord>)
    requires RowMajor(s) && RowMajor(t)
    requires forall c :: c in s <==> c in t
    ensures s == t
    decreases |s|
  {
    assert s != [] ==> s[0] in t;
    assert t != [] ==> t[0] in s;
    if s != [] && t != [] {
      assert s[0] == t[0] by {
        assert t[0] in s;
        assert s[0] in t;
      }
      forall c ensures c in s[1..] <==> c in t[1..] {
        TailMembers(s, c);
        TailMembers(t, c);
      }
      RowMajorUnique(s[1..], t[1..]);
    }
  }

  lemma TailMembers(s: seq<Coord>, c: Coord)
    requires RowMajor(s) && s != []
    ensures c in s[1..] <==> c in s && c != s[0]
  {
    if c in s[1..] {
      var k :| 0 <= k < |s[1..]| && s[1..][k] == c;
      assert Before(s[0], s[k + 1]);
    }
    if c in s && c != s[0] {
      var k :| 0 <= k < |s| && s[k] == c;
      assert s[1..][k - 1] == c;
    }
  }

  /** Any row-major listing of exactly the set cells of `m` is `NonZero(m)`. */
  lemma NonZeroUnique(m: Grid<bool>, s: seq<Coord>)
    requires RowMajor(s)
    requires forall c :: c in s <==> InBounds(m, c) && m[c.0][c.1]
    ensures s == NonZero(m)
  {
    NonZeroSpec(m);
    RowMajorUnique(s, NonZero(m));
  }

  // ---------------------------------------------------------------------------
  // Pixel counts

  function CountRow(row: seq<bool>): nat
  {
    if row == [] then 0 else (if row[0] then 1 else 0) + CountRow(row[1..])
  }

  /** The number of set cells of `m`. */
  function Count(m: Grid<bool>): nat
  {
    if m == [] then 0 else CountRow(m[0]) + Count(m[1..])
  }

  /** Some cell of `m` holds `v`. */
  ghost predicate AnyPixel(m: Grid<bool>, v: bool)
  {
    exists i, j :: 0 <= i < |m| && 0 <= j < |m[i]| && m[i][j] == v
  }

  lemma {:induction false} RowNonZeroCount(row: seq<bool>, x: int, y: nat)
    requires y <= |row|
    ensures |RowNonZero(row, x, y)| == CountRow(row[y..])
    decreases |row| - y
  {
    if y < |row| {
      assert row[y..][1..] == row[y + 1..];
      RowNonZeroCount(row, x, y + 1);
    }
  }

  lemma {:induction false} NonZeroFromCount(m: Grid<bool>, x: nat)
    requires x <= |m|
    ensures |NonZeroFrom(m, x)| == Count(m[x..])
    decreases |m| - x
  {
    if x < |m| {
      assert m[x..][1..] == m[x + 1..];
      assert m[x][0..] == m[x];
      RowNonZeroCount(m[x], x, 0);
      NonZeroFromCount(m, x + 1);
    }
  }

  /** `torch.nonzero(m)` lists as many coordinates as `m` has set cells. */
  lemma NonZeroCount(m: Grid<bool>)
    ensures |NonZero(m)| == Count(m)
  {
    assert m[0..] == m;
    NonZeroFromCount(m, 0);
  }

  lemma {:induction false} CountRowAppend(a: seq<bool>, b: seq<bool>)
    ensures CountRow(a + b) == CountRow(a) + CountRow(b)
    decreases |a|
  {
    if a == [] {
      assert a + b == b;
    } else {
      assert (a + b)[1..] == a[1..] + b;
      CountRowAppend(a[1..], b);
    }
  }

  /** Stacking two masks side by side adds their set cells. */
  lemma {:induction false} ConcatCount(a: Grid<bool>, b: Grid<bool>)
    requires |a| == |b|
    ensures Count(Concat(a, b)) == Count(a) + Count(b)
    decreases |a|
  {
    if a != [] {
      assert Concat(a, b)[1..] == Concat(a[1..], b[1..]);
      CountRowAppend(a[0], b[0]);
      ConcatCount(a[1..], b[1..]);
    }
  }

  lemma {:induction false} CountRowNot(row: seq<bool>)
    ensures CountRow(row) + CountRow(Not(row)) == |row|
    decreases |row|
  {
    if row != [] {
      assert Not(row)[1..] == Not(row[1..]);
      CountRowNot(row[1..]);
    }
  }

  /** Every cell is set either in `m` or in `m == 0`. */
  lemma {:induction false} CountComplement(m: Grid<bool>)
    ensures Count(m) + Count(IsZero(m)) == Cells(m)
    decreases |m|
  {
    if m != [] {
      assert IsZero(m)[1..] == IsZero(m[1..]);
      CountRowNot(m[0]);
      CountComplement(m[1..]);
    }
  }

  /**
   * `torch.nonzero(m)` and `torch.nonzero(m == 0)` partition the cells of an h-by-w mask:
   * each in-bounds coordinate is listed by exactly one of them, and their lengths sum to h * w.
   */
  lemma NonZeroPartition(m: Grid<bool>, h: nat, w: nat)
    requires IsRect(m, h, w)
    ensures |NonZero(m)| + |NonZero(IsZero(m))| == h * w
    ensures forall c :: InBounds(m, c) ==> (c in NonZero(m) <==> c !in NonZero(IsZero(m)))
    ensures forall c :: c in NonZero(m) || c in NonZero(IsZero(m)) ==> InBounds(m, c)
  {
    NonZeroSpec(m);
    NonZeroSpec(IsZero(m));
    IsZeroAt(m);
    NonZeroCount(m);
    NonZeroCount(IsZero(m));
    CountComplement(m);
    CellsRect(m, h, w);
  }

  /** `torch.nonzero(m)` is empty exactly when no cell of `m` is set. */
  lemma NonZeroEmpty(m: Grid<bool>)
    ensures NonZero(m) == [] <==> !AnyPixel(m, true)
  {
    var r := NonZero(m);
    NonZeroSpec(m);
    if r != [] {
      var c := r[0];
      assert c in r;
      assert 0 <= c.0 < |m| && 0 <= c.1 < |m[c.0]| && m[c.0][c.1] == true;
    }
    if AnyPixel(m, true) {
      var i, j :| 0 <= i < |m| && 0 <= j < |m[i]| && m[i][j] == true;
      assert (i, j) in r;
    }
  }

  /** `torch.nonzero(m == 0)` is empty exactly when every cell of `m` is set. */
  lemma ZeroEmpty(m: Grid<bool>)
    ensures NonZero(IsZero(m)) == [] <==> !AnyPixel(m, false)
  {
    var z := IsZero(m);
    NonZeroEmpty(z);
    if AnyPixel(z, true) {
      var i, j :| 0 <= i < |z| && 0 <= j < |z[i]| && z[i][j] == true;
      assert z[i] == Not(m[i]);
      assert m[i][j] == false;
    }
    if AnyPixel(m, false) {
      var i, j :| 0 <= i < |m| && 0 <= j < |m[i]| && m[i][j] == false;
      assert z[i] == Not(m[i]);
      assert z[i][j] == true;
    }
  }

  /** The combined mask has a `v` pixel exactly when one of its two halves has. */
  lemma ConcatAnyPixel(a: Grid<bool>, b: Grid<bool>, v: bool)
    requires |a| == |b|
    ensures AnyPixel(Concat(a, b), v) <==> AnyPixel(a, v) || AnyPixel(b, v)
  {
    var r := Concat(a, b);
    ConcatAt(a, b);
    if AnyPixel(r, v) {
      var i, j :| 0 <= i < |r| && 0 <= j < |r[i]| && r[i][j] == v;
      if j < |a[i]| {
        assert a[i][j] == v;
      } else {
        assert b[i][j - |a[i]|] == v;
      }
    }
    if AnyPixel(a, v) {
      var i, j :| 0 <= i < |a| && 0 <= j < |a[i]| && a[i][j] == v;
      assert r[i][j] == v;
    }
    if AnyPixel(b, v) {
      var i, j :| 0 <= i < |b| && 0 <= j < |b[i]| && b[i][j] == v;
      assert r[i][|a[i]| + j] == v;
    }
  }

  /** A mask whose only set cell is (p, q) gives `[(p, q)]` and h * w - 1 background coordinates. */
  lemma SinglePixel(m: Grid<bool>, h: nat, w: nat, p: nat, q: nat)
    requires IsRect(m, h, w) && p < h && q < w
    requires forall i, j :: 0 <= i < h && 0 <= j < w ==> (m[i][j] <==> i == p && j == q)
    ensures NonZero(m) == [(p, q)]
    ensures |NonZero(IsZero(m))| == h * w - 1
  {
    NonZeroUnique(m, [(p, q)]);
    NonZeroPartition(m, h, w);
  }

  // ---------------------------------------------------------------------------
  // [e[:, x, y] for x, y in idx]

  /** The vectors of `e` at the listed coordinates, in the order listed. */
  function Gather<V>(e: Grid<V>, idx: seq<Coord>): (r: seq<V>)
    requires forall k :: 0 <= k < |idx| ==> 0 <= idx[k].0 < |e| && 0 <= idx[k].1 < |e[idx[k].0]|
    ensures |r| == |idx|
  {
    if idx == [] then [] else [e[idx[0].0][idx[0].1]] + Gather(e, idx[1..])
  }

  /** Element k of the gather is the vector at the k-th listed coordinate. */
  lemma {:induction false} GatherAt<V>(e: Grid<V>, idx: seq<Coord>)
    requires forall k :: 0 <= k < |idx| ==> 0 <= idx[k].0 < |e| && 0 <= idx[k].1 < |e[idx[k].0]|
    ensures forall k :: 0 <= k < |idx| ==> Gather(e, idx)[k] == e[idx[k].0][idx[k].1]
    decreases |idx|
  {
    if idx != [] {
      GatherAt(e, idx[1..]);
    }
  }
}
