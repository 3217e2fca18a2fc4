/**
 * `ExplicitRungeKutta` of Exercise2/19.4/explicitRK.hpp: an `s`-stage
 * explicit Runge-Kutta step for a Butcher tableau `(A, b, c)` with
 * `s = |c|`. The constructor copies the tableau and rejects an `A` that is
 * not `s x s` or a `b` without `s` entries; `DoStep` fills the stage states
 * and slopes into two scratch vectors of `s` blocks of `n = dimX` entries
 * each, and then adds the weighted slopes to `y` in place.
 */
module ExplicitRK {
  import opened Vectors
  import opened Steppers

  /** A Butcher tableau: `a` as its list of rows, the weights `b` and the nodes `c`. */
  datatype Tableau = Tableau(a: seq<seq<real>>, b: seq<real>, c: seq<real>)

  datatype Result<T> = Ok(value: T) | Err(msg: string)

  /** What the constructor accepts: `A` is `s x s` and `b` has `s` entries, for `s = |c|`. */
  predicate Shaped(t: Tableau) {
    && |t.a| == |t.c| && |t.b| == |t.c|
    && forall j :: 0 <= j < |t.a| ==> |t.a[j]| == |t.c|
  }

  /** The rows of a matrix, copied. */
  function Rows(m: array2<real>): (rows: seq<seq<real>>)
    reads m
    ensures |rows| == m.Length0
    ensures forall i :: 0 <= i < m.Length0 ==> |rows[i]| == m.Length1
    ensures forall i, j :: 0 <= i < m.Length0 && 0 <= j < m.Length1 ==> rows[i][j] == m[i, j]
  {
    seq(m.Length0, i requires 0 <= i < m.Length0 reads m =>
      seq(m.Length1, j requires 0 <= j < m.Length1 reads m => m[i, j]))
  }

  /**
   * `y + tau * w[0] * ks[0] + ... + tau * w[m-1] * ks[m-1]`, accumulated in
   * the order of the source's loops.
   */
  function Combine(y: Vec, tau: real, w: seq<real>, ks: seq<Vec>, m: nat): (r: Vec)
    requires m <= |w| && m <= |ks|
    requires forall l :: 0 <= l < m ==> |ks[l]| == |y|
    ensures |r| == |y|
  {
    if m == 0 then y else AddScaled(Combine(y, tau, w, ks, m - 1), tau * w[m - 1], ks[m - 1])
  }

  /**
   * The first `m` slopes `k_0 .. k_{m-1}`: `k_j` is `f` at the stage state
   * `y + tau * sum_{l<j} A(j,l) * k_l`.
   */
  function Slopes(t: Tableau, rhs: Rhs, tau: real, y: Vec, m: nat): (ks: seq<Vec>)
    requires Shaped(t) && m <= |t.c| && Square(rhs) && |y| == rhs.dimX
    ensures |ks| == m && forall l :: 0 <= l < m ==> |ks[l]| == |y|
  {
    if m == 0 then []
    else
      var prev := Slopes(t, rhs, tau, y, m - 1);
      prev + [rhs.f(Combine(y, tau, t.a[m - 1], prev, m - 1))]
  }

  /** Stage `j`'s state: `y + tau * sum_{l<j} A(j,l) * k_l`. */
  function StageState(t: Tableau, rhs: Rhs, tau: real, y: Vec, j: nat): (r: Vec)
    requires Shaped(t) && j < |t.c| && Square(rhs) && |y| == rhs.dimX
    ensures |r| == |y|
  {
    Combine(y, tau, t.a[j], Slopes(t, rhs, tau, y, j), j)
  }

  /** One Runge-Kutta step: `y + tau * sum_j b_j * k_j`. */
  function RKStep(t: Tableau, rhs: Rhs, tau: real, y: Vec): (r: Vec)
    requires Shaped(t) && Square(rhs) && |y| == rhs.dimX
    ensures |r| == |y|
  {
    Combine(y, tau, t.b, Slopes(t, rhs, tau, y, |t.c|), |t.c|)
  }

  /** One more term of `Combine`: the sum so far plus `tau * w[m]` times `ks[m]`. */
  lemma CombineStep(y: Vec, tau: real, w: seq<real>, ks: seq<Vec>, m: nat, sum: Vec, s: real, v: Vec)
    requires m < |w|
    requires m < |ks|
    requires forall l :: 0 <= l <= m ==> |ks[l]| == |y|
    requires sum == Combine(y, tau, w, ks, m)
    requires s == tau * w[m]
    requires v == ks[m]
    ensures Combine(y, tau, w, ks, m + 1) == AddScaled(sum, s, v)
  {
  }

  /** A longer list of slopes starts with the shorter one: slopes are never revised. */
  lemma {:induction false} SlopesPrefix(t: Tableau, rhs: Rhs, tau: real, y: Vec, l: nat, m: nat)
    requires Shaped(t) && l <= m <= |t.c| && Square(rhs) && |y| == rhs.dimX
    ensures Slopes(t, rhs, tau, y, m)[..l] == Slopes(t, rhs, tau, y, l)
  {
    if l < m {
      SlopesPrefix(t, rhs, tau, y, l, m - 1);
      assert Slopes(t, rhs, tau, y, m)[..m - 1] == Slopes(t, rhs, tau, y, m - 1);
      assert Slopes(t, rhs, tau, y, m)[..l] == Slopes(t, rhs, tau, y, m)[..m - 1][..l];
    }
  }

  /** Every slope is `f` at its own stage state. */
  lemma SlopeAtStage(t: Tableau, rhs: Rhs, tau: real, y: Vec, j: nat, m: nat)
    requires Shaped(t) && j < m <= |t.c| && Square(rhs) && |y| == rhs.dimX
    ensures Slopes(t, rhs, tau, y, m)[j] == rhs.f(StageState(t, rhs, tau, y, j))
  {
    SlopesPrefix(t, rhs, tau, y, j + 1, m);
    assert Slopes(t, rhs, tau, y, m)[j] == Slopes(t, rhs, tau, y, m)[..j + 1][j];
  }

  /** `Combine` reads only the first `m` weights and the first `m` slopes. */
  lemma {:induction false} CombineReadsPrefix(y: Vec, tau: real, w1: seq<real>, w2: seq<real>, ks1: seq<Vec>, ks2: seq<Vec>, m: nat)
    requires m <= |w1| && m <= |w2| && m <= |ks1| && m <= |ks2|
    requires forall l :: 0 <= l < m ==> |ks1[l]| == |y| && |ks2[l]| == |y|
    requires forall l :: 0 <= l < m ==> w1[l] == w2[l] && ks1[l] == ks2[l]
    ensures Combine(y, tau, w1, ks1, m) == Combine(y, tau, w2, ks2, m)
  {
    if m > 0 {
      CombineReadsPrefix(y, tau, w1, w2, ks1, ks2, m - 1);
      var p1, p2 := Combine(y, tau, w1, ks1, m - 1), Combine(y, tau, w2, ks2, m - 1);
      var s1, s2 := tau * w1[m - 1], tau * w2[m - 1];
      var k1, k2 := ks1[m - 1], ks2[m - 1];
      assert s1 == s2 && k1 == k2;
      assert AddScaled(p1, s1, k1) == AddScaled(p2, s1, k1);
      assert AddScaled(p1, s1, k1) == AddScaled(p2, s2, k2);
    }
  }

  /**
   * `DoStep` reads `A` only strictly below the diagonal and never reads `c`:
   * two tableaus of the same size that agree there and on `b` give the
   * same step.
   */
  lemma OnlyStrictlyLowerRead(t1: Tableau, t2: Tableau, rhs: Rhs, tau: real, y: Vec)
    requires Shaped(t1) && Shaped(t2) && |t1.c| == |t2.c| && t1.b == t2.b
    requires forall j, l :: 0 <= l < j < |t1.c| ==> t1.a[j][l] == t2.a[j][l]
    requires Square(rhs) && |y| == rhs.dimX
    ensures RKStep(t1, rhs, tau, y) == RKStep(t2, rhs, tau, y)
  {
    SameSlopes(t1, t2, rhs, tau, y, |t1.c|);
  }

  lemma {:induction false} SameSlopes(t1: Tableau, t2: Tableau, rhs: Rhs, tau: real, y: Vec, m: nat)
    requires Shaped(t1) && Shaped(t2) && |t1.c| == |t2.c| && m <= |t1.c|
    requires forall j, l :: 0 <= l < j < |t1.c| ==> t1.a[j][l] == t2.a[j][l]
    requires Square(rhs) && |y| == rhs.dimX
    ensures Slopes(t1, rhs, tau, y, m) == Slopes(t2, rhs, tau, y, m)
  {
    if m > 0 {
      SameSlopes(t1, t2, rhs, tau, y, m - 1);
      var prev := Slopes(t1, rhs, tau, y, m - 1);
      CombineReadsPrefix(y, tau, t1.a[m - 1], t2.a[m - 1], prev, prev, m - 1);
    }
  }

  /** The one-stage tableau with weight 1 is explicit Euler, whatever `A(0,0)` and `c_0` hold. */
  lemma OneStageIsEuler(a00: real, c0: real, rhs: Rhs, tau: real, y: Vec)
    requires Square(rhs) && |y| == rhs.dimX
    ensures RKStep(Tableau([[a00]], [1.0], [c0]), rhs, tau, y) == EulerStep(rhs, tau, y)
  {
    var t := Tableau([[a00]], [1.0], [c0]);
    assert Slopes(t, rhs, tau, y, 0) == [];
    assert Slopes(t, rhs, tau, y, 1) == [rhs.f(y)];
    assert Combine(y, tau, t.b, [rhs.f(y)], 0) == y;
    assert RKStep(t, rhs, tau, y) == Combine(y, tau, t.b, [rhs.f(y)], 1);
    assert RKStep(t, rhs, tau, y) == AddScaled(y, tau * 1.0, rhs.f(y));
    assert tau * 1.0 == tau;
  }

  /** `s` blocks of size `n`: block `l` of `s` holds `ks[l]`. */
  ghost predicate HoldsBlocks(s: seq<real>, n: nat, ks: seq<Vec>) {
    forall l :: 0 <= l < |ks| ==> l * n + n <= |s| && Block(s, l, n) == ks[l]
  }

  /** Writing block `|ks|` keeps the earlier blocks and adds one. */
  lemma HoldsBlocksAppend(s: seq<real>, n: nat, ks: seq<Vec>, v: Vec)
    requires HoldsBlocks(s, n, ks) && |v| == n && |ks| * n + n <= |s|
    ensures HoldsBlocks(Splice(s, |ks| * n, v), n, ks + [v])
  {
    var s' := Splice(s, |ks| * n, v);
    forall l | 0 <= l < |ks| + 1
      ensures l * n + n <= |s'| && Block(s', l, n) == (ks + [v])[l]
    {
      if l < |ks| {
        BlockOfSplice(s, |ks|, l, n, v);
      } else {
        BlockOfSplice(s, |ks|, |ks|, n, v);
      }
    }
  }

  /** The first `m` blocks of size `d` of `s`, in order. */
  function Blocks(s: seq<real>, d: nat, m: nat): (bs: seq<Vec>)
    requires m * d <= |s|
    ensures |bs| == m && forall l :: 0 <= l < m ==> |bs[l]| == d
  {
    if m == 0 then []
    else
      MulStep(m - 1, m, d);
      Blocks(s, d, m - 1) + [Block(s, m - 1, d)]
  }

  /** Entry `l` of `Blocks` is block `l`. */
  lemma {:induction false} BlocksAt(s: seq<real>, d: nat, m: nat, l: nat)
    requires m * d <= |s| && l < m
    ensures l * d + d <= |s| && Blocks(s, d, m)[l] == Block(s, l, d)
  {
    MulStep(l, m, d);
    MulStep(m - 1, m, d);
    if l < m - 1 {
      BlocksAt(s, d, m - 1, l);
    }
  }

  /** Blocks that hold `ks` are `ks`. */
  lemma BlocksOfHolds(s: seq<real>, n: nat, ks: seq<Vec>)
    requires HoldsBlocks(s, n, ks) && |ks| * n <= |s|
    ensures Blocks(s, n, |ks|) == ks
  {
    forall l | 0 <= l < |ks| ensures Blocks(s, n, |ks|)[l] == ks[l] {
      BlocksAt(s, n, |ks|, l);
    }
  }

  /**
   * The first half of stage `j`: block `j` of `ys` becomes `y`, then gets
   * `tau * row[l]` times block `l` of `k` added for every `l < j`.
   */
  method FormStage(ys: array<real>, j: nat, n: nat, y: array<real>, tau: real, row: seq<real>, k: array<real>)
    requires j * n + n <= ys.Length && j * n <= k.Length && j <= |row|
    requires y.Length == n && y != ys && k != ys
    modifies ys
    ensures Block(ys[..], j, n) == Combine(y[..], tau, row, Blocks(k[..], n, j), j)
  {
    ghost var y0, k0 := y[..], k[..];
    ghost var ks := Blocks(k0, n, j);
    WriteBlock(ys, j, n, y[..]);
    BlockOfSplice(old(ys[..]), j, j, n, y0);
    var ell := 0;
    while ell < j
      invariant ell <= j
      invariant y[..] == y0 && k[..] == k0
      invariant Block(ys[..], j, n) == Combine(y0, tau, row, ks, ell)
    {
      BlocksAt(k0, n, j, ell);
      var v := Block(k[..], ell, n);
      var s := tau * row[ell];
      ghost var before := ys[..];
      ghost var sum := Block(before, j, n);
      CombineStep(y0, tau, row, ks, ell, sum, s, v);
      AddScaledToBlock(ys, j, n, s, v);
      BlockOfSplice(before, j, j, n, AddScaled(sum, s, v));
      ell := ell + 1;
    }
  }

  /** The closing loop of `DoStep`: `y += tau * b(j) * k_j` for every stage `j < s`, `k_j` block `j` of `k`. */
  method Accumulate(y: array<real>, tau: real, b: seq<real>, k: array<real>, s: nat)
    requires s * y.Length <= k.Length && s <= |b| && y != k
    modifies y
    ensures y[..] == Combine(old(y[..]), tau, b, Blocks(k[..], y.Length, s), s)
  {
    ghost var y0, k0 := y[..], k[..];
    ghost var ks := Blocks(k0, y.Length, s);
    var j := 0;
    while j < s
      invariant j <= s
      invariant k[..] == k0
      invariant y[..] == Combine(y0, tau, b, ks, j)
    {
      BlocksAt(k0, y.Length, s, j);
      var v := Block(k[..], j, y.Length);
      var w := tau * b[j];
      ghost var sum := y[..];
      CombineStep(y0, tau, b, ks, j, sum, w, v);
      AddScaledTo(y, w, v);
      j := j + 1;
    }
  }

  /** `ExplicitRungeKutta`: the copied tableau and the scratch vectors `m_k` and `m_y`. */
  class ExplicitRungeKutta {
    const rhs: Rhs
    const tab: Tableau
    const stages: nat
    const n: nat
    const k: array<real>
    const ys: array<real>

    ghost predicate Valid()
    {
      && Shaped(tab) && stages == |tab.c| && n == rhs.dimX
      && k.Length == stages * n && ys.Length == stages * n && k != ys
    }

    /** The member initialisers, once the guards have passed. */
    constructor (rhs: Rhs, t: Tableau)
      requires Shaped(t)
      ensures this.rhs == rhs && tab == t && Valid() && fresh(k) && fresh(ys)
    {
      this.rhs := rhs;
      tab := t;
      stages := |t.c|;
      n := rhs.dimX;
      k := new real[|t.c| * rhs.dimX];
      ys := new real[|t.c| * rhs.dimX];
    }

    /** Stage `j`: the stage state formed in `m_y`, then `evaluate` into `m_k.range(j*n, (j+1)*n)`. */
    method ComputeStage(j: nat, tau: real, y: array<real>)
      requires Valid() && Square(rhs) && y.Length == n && y != k && y != ys && j < stages
      requires HoldsBlocks(k[..], n, Slopes(tab, rhs, tau, y[..], j))
      modifies k, ys
      ensures HoldsBlocks(k[..], n, Slopes(tab, rhs, tau, y[..], j + 1))
    {
      ghost var y0 := y[..];
      ghost var ks := Slopes(tab, rhs, tau, y0, j);
      BlockInside(j, stages, n);
      BlocksOfHolds(k[..], n, ks);
      FormStage(ys, j, n, y, tau, tab.a[j], k);
      var v := rhs.f(Block(ys[..], j, n));
      assert Block(ys[..], j, n) == Combine(y0, tau, tab.a[j], ks, j);
      assert |v| == n;
      WriteBlock(k, j, n, v);
      HoldsBlocksAppend(old(k[..]), n, ks, v);
      assert Slopes(tab, rhs, tau, y0, j + 1) == ks + [v];
    }

    /** `DoStep(tau, y)`: all stages from the incoming `y`, then `y += tau * b(j) * k_j` for each `j`. */
    method DoStep(tau: real, y: array<real>)
      requires Valid() && Square(rhs) && y.Length == n && y != k && y != ys
      modifies y, k, ys
      ensures y[..] == RKStep(tab, rhs, tau, old(y[..]))
    {
      ghost var y0 := y[..];
      var j := 0;
      while j < stages
        invariant j <= stages
        invariant y[..] == y0
        invariant HoldsBlocks(k[..], n, Slopes(tab, rhs, tau, y0, j))
      {
        ComputeStage(j, tau, y);
        j := j + 1;
      }
      BlocksOfHolds(k[..], n, Slopes(tab, rhs, tau, y0, stages));
      Accumulate(y, tau, tab.b, k, stages);
    }
  }

  /**
   * The constructor with its guards: `A` must be `s x s` and `b` must have
   * `s` entries, where `s = |c|`; otherwise it throws with the source's
   * message.
   */
  method Create(rhs: Rhs, a: array2<real>, b: array<real>, c: array<real>) returns (r: Result<ExplicitRungeKutta>)
    ensures r.Err? <==> a.Length0 != c.Length || a.Length1 != c.Length || b.Length != c.Length
    ensures r.Err? ==> r.msg == if a.Length0 != c.Length || a.Length1 != c.Length
      then "ExplicitRungeKutta: A must be s x s" else "ExplicitRungeKutta: b must have size s"
    ensures r.Ok? ==> fresh(r.value) && r.value.Valid() && r.value.rhs == rhs
    ensures r.Ok? ==> r.value.tab == Tableau(Rows(a), b[..], c[..])
  {
    var s := c.Length;
    if a.Length0 != s || a.Length1 != s {
      return Err("ExplicitRungeKutta: A must be s x s");
    }
    if b.Length != s {
      return Err("ExplicitRungeKutta: b must have size s");
    }
    var rk := new ExplicitRungeKutta(rhs, Tableau(Rows(a), b[..], c[..]));
    r := Ok(rk);
  }
}
