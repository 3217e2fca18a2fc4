/**
 * Exact real vectors, and the row-major "block" layout that the flat state
 * vectors use: block `b` of a flat vector with block size `d` is the slice
 * `[b*d, b*d + d)` (the `asMatrix(n, d).row(b)` and `range(b*d, (b+1)*d)`
 * views of the C++ code).
 */
module Vectors {

  type Vec = seq<real>

  function Zero(n: nat): (r: Vec)
    ensures |r| == n
    ensures forall i :: 0 <= i < n ==> r[i] == 0.0
  {
    seq(n, _ => 0.0)
  }

  predicate IsZero(v: Vec) {
    forall i :: 0 <= i < |v| ==> v[i] == 0.0
  }

  function Add(a: Vec, b: Vec): (r: Vec)
    requires |a| == |b|
    ensures |r| == |a|
    ensures forall i :: 0 <= i < |a| ==> r[i] == a[i] + b[i]
  {
    seq(|a|, i requires 0 <= i < |a| => a[i] + b[i])
  }

  function Sub(a: Vec, b: Vec): (r: Vec)
    requires |a| == |b|
    ensures |r| == |a|
    ensures forall i :: 0 <= i < |a| ==> r[i] == a[i] - b[i]
  {
    seq(|a|, i requires 0 <= i < |a| => a[i] - b[i])
  }

  function Scale(s: real, a: Vec): (r: Vec)
    ensures |r| == |a|
    ensures forall i :: 0 <= i < |a| ==> r[i] == s * a[i]
  {
    seq(|a|, i requires 0 <= i < |a| => s * a[i])
  }

  /** `v / s`, the componentwise division operator of mass_spring.hpp. */
  function Div(v: Vec, s: real): (r: Vec)
    requires s != 0.0
    ensures |r| == |v|
    ensures forall i :: 0 <= i < |v| ==> r[i] == v[i] / s
  {
    seq(|v|, i requires 0 <= i < |v| => v[i] / s)
  }

  /** Scaling by `m` and then by `1/m` gives the vector back. */
  lemma ScaleInverse(m: real, v: Vec)
    requires m != 0.0
    ensures Scale(1.0 / m, Scale(m, v)) == v
  {
    var w := Scale(1.0 / m, Scale(m, v));
    forall k | 0 <= k < |v|
      ensures w[k] == v[k]
    {
      calc {
        w[k];
        (1.0 / m) * (m * v[k]);
        ((1.0 / m) * m) * v[k];
        v[k];
      }
    }
  }

  /** `a + s*b`, the `a += s * b` of the C++ vector classes. */
  function AddScaled(a: Vec, s: real, b: Vec): (r: Vec)
    requires |a| == |b|
    ensures |r| == |a|
    ensures forall i :: 0 <= i < |a| ==> r[i] == a[i] + s * b[i]
  {
    seq(|a|, i requires 0 <= i < |a| => a[i] + s * b[i])
  }

  // ---------------------------------------------------------------------
  // Row-major blocks
  // ---------------------------------------------------------------------

  lemma MulStep(a: nat, b: nat, d: nat)
    requires a < b
    ensures a * d + d <= b * d
  {
    var k: nat := b - a - 1;
    assert b * d == a * d + d + k * d;
    assert k * d >= 0;
  }

  /** Distinct blocks do not overlap. */
  lemma BlockDisjoint(b: nat, c: nat, k: nat, d: nat)
    requires k < d && b != c
    ensures !(b * d <= c * d + k < b * d + d)
  {
    if b < c { MulStep(b, c, d); } else { MulStep(c, b, d); }
  }

  /** Block `b` of `s` lies inside `s` when `b < n` and `n*d <= |s|`. */
  lemma BlockInside(b: nat, n: nat, d: nat)
    requires b < n
    ensures b * d + d <= n * d
  {
    MulStep(b, n, d);
  }

  function Block(s: seq<real>, b: nat, d: nat): (r: Vec)
    requires b * d + d <= |s|
    ensures |r| == d
  {
    s[b * d .. b * d + d]
  }

  /** `s` with the slice starting at `start` replaced by `v`. */
  function Splice(s: seq<real>, start: nat, v: Vec): (r: seq<real>)
    requires start + |v| <= |s|
    ensures |r| == |s|
    ensures forall j :: 0 <= j < |s| ==> r[j] == if start <= j < start + |v| then v[j - start] else s[j]
  {
    s[..start] + v + s[start + |v|..]
  }

  lemma BlockOfSplice(s: seq<real>, b: nat, c: nat, d: nat, v: Vec)
    requires |v| == d && b * d + d <= |s| && c * d + d <= |s|
    ensures Block(Splice(s, b * d, v), c, d) == if b == c then v else Block(s, c, d)
  {
    var t := Splice(s, b * d, v);
    if b != c {
      forall k | 0 <= k < d ensures Block(t, c, d)[k] == Block(s, c, d)[k] {
        BlockDisjoint(b, c, k, d);
      }
    }
  }

  /** Concatenation of rows of length `d`: the flat row-major layout. */
  function Flatten(rows: seq<Vec>, d: nat): (r: seq<real>)
    requires forall i :: 0 <= i < |rows| ==> |rows[i]| == d
    ensures |r| == |rows| * d
  {
    if rows == [] then [] else Flatten(rows[..|rows| - 1], d) + rows[|rows| - 1]
  }

  lemma {:induction false} FlattenBlock(rows: seq<Vec>, d: nat, b: nat)
    requires forall i :: 0 <= i < |rows| ==> |rows[i]| == d
    requires b < |rows|
    ensures b * d + d <= |rows| * d
    ensures Block(Flatten(rows, d), b, d) == rows[b]
  {
    BlockInside(b, |rows|, d);
    var init := rows[..|rows| - 1];
    assert Flatten(rows, d) == Flatten(init, d) + rows[|rows| - 1];
    if b < |rows| - 1 {
      FlattenBlock(init, d, b);
      BlockInside(b, |init|, d);
      assert Flatten(rows, d)[b * d .. b * d + d] == Flatten(init, d)[b * d .. b * d + d];
    }
  }

  /** The flat layout is determined by its blocks. */
  lemma {:induction false} FlattenUnique(rows: seq<Vec>, d: nat, s: seq<real>)
    requires forall i :: 0 <= i < |rows| ==> |rows[i]| == d
    requires |s| == |rows| * d
    requires forall b :: 0 <= b < |rows| ==> b * d + d <= |s| && Block(s, b, d) == rows[b]
    ensures s == Flatten(rows, d)
  {
    if rows != [] {
      var n := |rows| - 1;
      var init := rows[..n];
      assert n * d + d == |s|;
      var pre := s[..n * d];
      forall b | 0 <= b < n ensures b * d + d <= |pre| && Block(pre, b, d) == init[b] {
        BlockInside(b, n, d);
        assert Block(pre, b, d) == Block(s, b, d);
      }
      FlattenUnique(init, d, pre);
      assert s == pre + Block(s, n, d);
    }
  }

  /** Replacing one row replaces the corresponding block of the flat layout. */
  lemma FlattenUpdate(rows: seq<Vec>, d: nat, b: nat, v: Vec)
    requires forall i :: 0 <= i < |rows| ==> |rows[i]| == d
    requires b < |rows| && |v| == d
    ensures b * d + d <= |rows| * d
    ensures Flatten(rows[b := v], d) == Splice(Flatten(rows, d), b * d, v)
  {
    BlockInside(b, |rows|, d);
    var s := Splice(Flatten(rows, d), b * d, v);
    var rows' := rows[b := v];
    forall c | 0 <= c < |rows'| ensures c * d + d <= |s| && Block(s, c, d) == rows'[c] {
      BlockInside(c, |rows|, d);
      BlockOfSplice(Flatten(rows, d), b, c, d, v);
      FlattenBlock(rows, d, c);
    }
    FlattenUnique(rows', d, s);
  }

  /** Block `b` of a vector is unaffected by what follows the first `n` blocks. */
  lemma BlockOfPrefix(s: seq<real>, n: nat, b: nat, d: nat)
    requires b < n && n * d <= |s|
    ensures b * d + d <= n * d
    ensures Block(s, b, d) == Block(s[..n * d], b, d)
  {
    BlockInside(b, n, d);
  }

  // ---------------------------------------------------------------------
  // In-place writes into array views
  // ---------------------------------------------------------------------

  /** `a.range(b*d, b*d+d) = v`: overwrite one block of an array. */
  method WriteBlock(a: array<real>, b: nat, d: nat, v: Vec)
    requires |v| == d && b * d + d <= a.Length
    modifies a
    ensures a[..] == Splice(old(a[..]), b * d, v)
  {
    var start := b * d;
    var k := 0;
    while k < d
      invariant 0 <= k <= d
      invariant forall j :: 0 <= j < a.Length ==>
        a[j] == if start <= j < start + k then v[j - start] else old(a[j])
    {
      a[start + k] := v[k];
      k := k + 1;
    }
    SpliceOf(old(a[..]), a[..], start, v);
  }

  /** `a.range(b*d, b*d+d) += v`. */
  method AddToBlock(a: array<real>, b: nat, d: nat, v: Vec)
    requires |v| == d && b * d + d <= a.Length
    modifies a
    ensures a[..] == Splice(old(a[..]), b * d, Add(Block(old(a[..]), b, d), v))
  {
    var start := b * d;
    ghost var blk := Block(a[..], b, d);
    ghost var target := Add(blk, v);
    var k := 0;
    while k < d
      invariant 0 <= k <= d
      invariant forall j :: 0 <= j < a.Length ==>
        a[j] == if start <= j < start + k then target[j - start] else old(a[j])
    {
      assert blk[k] == a[start + k];
      a[start + k] := a[start + k] + v[k];
      k := k + 1;
    }
    SpliceOf(old(a[..]), a[..], start, target);
  }

  /** `a.range(b*d, b*d+d) -= v`. */
  method SubFromBlock(a: array<real>, b: nat, d: nat, v: Vec)
    requires |v| == d && b * d + d <= a.Length
    modifies a
    ensures a[..] == Splice(old(a[..]), b * d, Sub(Block(old(a[..]), b, d), v))
  {
    var start := b * d;
    ghost var blk := Block(a[..], b, d);
    ghost var target := Sub(blk, v);
    var k := 0;
    while k < d
      invariant 0 <= k <= d
      invariant forall j :: 0 <= j < a.Length ==>
        a[j] == if start <= j < start + k then target[j - start] else old(a[j])
    {
      assert blk[k] == a[start + k];
      a[start + k] := a[start + k] - v[k];
      k := k + 1;
    }
    SpliceOf(old(a[..]), a[..], start, target);
  }

  /** `a.range(b*d, b*d+d) *= s`. */
  method ScaleBlock(a: array<real>, b: nat, d: nat, s: real)
    requires b * d + d <= a.Length
    modifies a
    ensures a[..] == Splice(old(a[..]), b * d, Scale(s, Block(old(a[..]), b, d)))
  {
    var start := b * d;
    ghost var blk := Block(a[..], b, d);
    ghost var target := Scale(s, blk);
    var k := 0;
    while k < d
      invariant 0 <= k <= d
      invariant forall j :: 0 <= j < a.Length ==>
        a[j] == if start <= j < start + k then target[j - start] else old(a[j])
    {
      assert blk[k] == a[start + k];
      a[start + k] := s * a[start + k];
      k := k + 1;
    }
    SpliceOf(old(a[..]), a[..], start, target);
  }

  /** An array that differs from `before` exactly on one slice, where it holds `w`, is the splice. */
  lemma SpliceOf(before: seq<real>, after: seq<real>, start: nat, w: Vec)
    requires start + |w| <= |before| == |after|
    requires forall j :: 0 <= j < |after| ==>
      after[j] == if start <= j < start + |w| then w[j - start] else before[j]
    ensures after == Splice(before, start, w)
  {
  }

  /** The first `|rows|` blocks of `a` hold `rows` and every later entry is zero. */
  ghost predicate HoldsRows(a: array<real>, rows: seq<Vec>, d: nat)
    reads a
  {
    && (forall i :: 0 <= i < |rows| ==> |rows[i]| == d)
    && |rows| * d <= a.Length
    && a[..|rows| * d] == Flatten(rows, d)
    && (forall j :: |rows| * d <= j < a.Length ==> a[j] == 0.0)
  }

  /** Replacing block `b` of an array that holds `rows` replaces row `b`. */
  lemma HoldsRowsSplice(old_a: seq<real>, a: array<real>, rows: seq<Vec>, d: nat, b: nat, v: Vec)
    requires forall i :: 0 <= i < |rows| ==> |rows[i]| == d
    requires b < |rows| && |v| == d && |rows| * d <= |old_a| == a.Length
    requires old_a[..|rows| * d] == Flatten(rows, d)
    requires forall j :: |rows| * d <= j < |old_a| ==> old_a[j] == 0.0
    requires b * d + d <= |old_a| && a[..] == Splice(old_a, b * d, v)
    ensures b * d + d <= |rows| * d
    ensures Block(old_a, b, d) == rows[b]
    ensures HoldsRows(a, rows[b := v], d)
  {
    BlockInside(b, |rows|, d);
    BlockOfPrefix(old_a, |rows|, b, d);
    FlattenBlock(rows, d, b);
    FlattenUpdate(rows, d, b, v);
    SplicePrefix(old_a, b * d, v, |rows| * d);
  }

  lemma SplicePrefix(s: seq<real>, start: nat, v: Vec, m: nat)
    requires start + |v| <= m <= |s|
    ensures Splice(s, start, v)[..m] == Splice(s[..m], start, v)
  {
  }

  /** Writing the next block after the held rows appends a row. */
  lemma HoldsRowsAppend(old_a: seq<real>, a: array<real>, rows: seq<Vec>, d: nat, v: Vec)
    requires forall i :: 0 <= i < |rows| ==> |rows[i]| == d
    requires |v| == d && |rows| * d + d <= |old_a| == a.Length
    requires old_a[..|rows| * d] == Flatten(rows, d)
    requires forall j :: |rows| * d <= j < |old_a| ==> old_a[j] == 0.0
    requires a[..] == Splice(old_a, |rows| * d, v)
    ensures HoldsRows(a, rows + [v], d)
  {
    var n := |rows|;
    assert (rows + [v])[..n] == rows;
    assert Flatten(rows + [v], d) == Flatten(rows, d) + v;
    assert (n + 1) * d == n * d + d;
    assert a[..][..n * d + d] == old_a[..n * d] + v;
  }

  /** `a += s * v` for a vector of the same length. */
  method AddScaledTo(a: array<real>, s: real, v: Vec)
    requires |v| == a.Length
    modifies a
    ensures a[..] == AddScaled(old(a[..]), s, v)
  {
    var j := 0;
    while j < a.Length
      invariant 0 <= j <= a.Length
      invariant forall i :: 0 <= i < a.Length ==> a[i] == if i < j then old(a[i]) + s * v[i] else old(a[i])
    {
      a[j] := a[j] + s * v[j];
      j := j + 1;
    }
  }

  /** `a.range(b*d, b*d+d) += s * v`. */
  method AddScaledToBlock(a: array<real>, b: nat, d: nat, s: real, v: Vec)
    requires |v| == d && b * d + d <= a.Length
    modifies a
    ensures a[..] == Splice(old(a[..]), b * d, AddScaled(Block(old(a[..]), b, d), s, v))
  {
    var start := b * d;
    ghost var blk := Block(a[..], b, d);
    ghost var target := AddScaled(blk, s, v);
    var k := 0;
    while k < d
      invariant 0 <= k <= d
      invariant forall j :: 0 <= j < a.Length ==>
        a[j] == if start <= j < start + k then target[j - start] else old(a[j])
    {
      assert blk[k] == a[start + k];
      a[start + k] := a[start + k] + s * v[k];
      k := k + 1;
    }
    SpliceOf(old(a[..]), a[..], start, target);
  }

  /** `a = c`: overwrite every entry of an array with the same value. */
  method Fill(a: array<real>, c: real)
    modifies a
    ensures forall j :: 0 <= j < a.Length ==> a[j] == c
  {
    var j := 0;
    while j < a.Length
      invariant 0 <= j <= a.Length
      invariant forall i :: 0 <= i < j ==> a[i] == c
    {
      a[j] := c;
      j := j + 1;
    }
  }

  /** `m = c`: overwrite every entry of a matrix with the same value. */
  method FillMatrix(m: array2<real>, c: real)
    modifies m
    ensures forall i, j :: 0 <= i < m.Length0 && 0 <= j < m.Length1 ==> m[i, j] == c
  {
    var i := 0;
    while i < m.Length0
      invariant 0 <= i <= m.Length0
      invariant forall i', j :: 0 <= i' < i && 0 <= j < m.Length1 ==> m[i', j] == c
    {
      var j := 0;
      while j < m.Length1
        invariant 0 <= j <= m.Length1
        invariant forall i', j' :: 0 <= i' < i && 0 <= j' < m.Length1 ==> m[i', j'] == c
        invariant forall j' :: 0 <= j' < j ==> m[i, j'] == c
      {
        m[i, j] := c;
        j := j + 1;
      }
      i := i + 1;
    }
  }

  lemma PrefixStep<T>(s: seq<T>, k: nat)
    requires k < |s|
    ensures s[..k + 1] == s[..k] + [s[k]]
  {
  }

  /** `a = v` for a vector of the same length. */
  method Assign(a: array<real>, v: Vec)
    requires |v| == a.Length
    modifies a
    ensures a[..] == v
  {
    var j := 0;
    while j < a.Length
      invariant 0 <= j <= a.Length
      invariant a[..j] == v[..j]
    {
      a[j] := v[j];
      j := j + 1;
    }
  }
}
