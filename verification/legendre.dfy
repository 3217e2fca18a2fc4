/**
 * `LegendrePolynomials(n, x, P)` of Exercise2/ex18.4/test_legendre.cpp and
 * its identical copy in demos/legendre184.cpp: the Legendre polynomials
 * `P_0(x), ..., P_n(x)` by the three-term recurrence
 * `k P_k = (2k - 1) x P_{k-1} - (k - 1) P_{k-2}`, written into the vector
 * `P` the caller passes by reference. Both programs instantiate the
 * template at `AutoDiff<1>` with `x = Variable<0>(v)`, so every entry
 * carries the derivative `P_k'(v)` beside the value `P_k(v)`.
 */
module Legendre {
  import opened AutoDiffs

  // ---------------------------------------------------------------------
  // The recurrence on plain numbers: the values
  // ---------------------------------------------------------------------

  /** One step of the recurrence: `((2k - 1) x p1 - (k - 1) p2) / k`. */
  function Next(k: nat, x: real, p1: real, p2: real): real
    requires k >= 2
  {
    ((2 * k - 1) as real * x * p1 - (k - 1) as real * p2) / k as real
  }

  /** `P_0(x), ..., P_n(x)`: `P_0 = 1`, `P_1 = x`, then the recurrence. */
  function Polys(n: nat, x: real): (ps: seq<real>)
    ensures |ps| == n + 1
  {
    if n == 0 then [1.0]
    else if n == 1 then [1.0, x]
    else
      var prev := Polys(n - 1, x);
      prev + [Next(n, x, prev[n - 1], prev[n - 2])]
  }

  /** A longer run of the recurrence begins with every shorter one: an entry, once computed, stays. */
  lemma {:induction false} PolysPrefix(m: nat, n: nat, x: real)
    requires m <= n
    ensures Polys(n, x)[..m + 1] == Polys(m, x)
  {
    if m < n {
      PolysPrefix(m, n - 1, x);
      assert Polys(n, x)[..n] == Polys(n - 1, x);
      assert Polys(n, x)[..m + 1] == Polys(n, x)[..n][..m + 1];
    } else {
      assert Polys(n, x)[..n + 1] == Polys(n, x);
    }
  }

  /** `k` times a step of the recurrence is the recurrence's right-hand side. */
  lemma NextTimesK(k: nat, x: real)
    requires k >= 2
    ensures forall p1, p2 :: k as real * Next(k, x, p1, p2) == (2 * k - 1) as real * x * p1 - (k - 1) as real * p2
  {
    forall p1, p2 ensures k as real * Next(k, x, p1, p2) == (2 * k - 1) as real * x * p1 - (k - 1) as real * p2 {
      TimesQuotient((2 * k - 1) as real * x * p1 - (k - 1) as real * p2, k as real);
    }
  }

  /** `d * (a / d) == a` for `d != 0`. */
  lemma TimesQuotient(a: real, d: real)
    requires d != 0.0
    ensures d * (a / d) == a
  {
  }

  /** Entry `k >= 2` of a run is the recurrence step from the two entries before it. */
  lemma EntryIsNext(n: nat, x: real, k: nat)
    requires 2 <= k <= n
    ensures Polys(n, x)[k] == Next(k, x, Polys(n, x)[k - 1], Polys(n, x)[k - 2])
  {
    PolysPrefix(k, n, x);
    var ps, qs := Polys(n, x), Polys(k, x);
    assert ps[k] == qs[k] && ps[k - 1] == qs[k - 1] && ps[k - 2] == qs[k - 2];
  }

  /** Every run starts with `P_0 = 1` and, from `n = 1` on, `P_1 = x`. */
  lemma FirstTwo(n: nat, x: real)
    ensures Polys(n, x)[0] == 1.0
    ensures n >= 1 ==> Polys(n, x)[1] == x
  {
    if n >= 1 {
      PolysPrefix(1, n, x);
      assert Polys(n, x)[0] == Polys(1, x)[0] && Polys(n, x)[1] == Polys(1, x)[1];
    }
  }

  /** The entries satisfy `k P_k = (2k - 1) x P_{k-1} - (k - 1) P_{k-2}`. */
  lemma Recurrence(n: nat, x: real, k: nat)
    requires 2 <= k <= n
    ensures k as real * Polys(n, x)[k]
      == (2 * k - 1) as real * x * Polys(n, x)[k - 1] - (k - 1) as real * Polys(n, x)[k - 2]
  {
    EntryIsNext(n, x, k);
    NextTimesK(k, x);
  }

  /** `Next` keeps the constant 1: `((2k - 1) - (k - 1)) / k == 1`. */
  lemma NextAtOne(k: nat)
    requires k >= 2
    ensures Next(k, 1.0, 1.0, 1.0) == 1.0
  {
  }

  /** Every Legendre polynomial is 1 at `x = 1`. */
  lemma {:induction false} AtOne(n: nat)
    ensures forall k :: 0 <= k <= n ==> Polys(n, 1.0)[k] == 1.0
  {
    if n >= 2 {
      AtOne(n - 1);
      var prev := Polys(n - 1, 1.0);
      NextAtOne(n);
      assert Polys(n, 1.0) == prev + [Next(n, 1.0, prev[n - 1], prev[n - 2])];
    }
  }

  /** `(-1)^k`. */
  function Sign(k: nat): real
  {
    if k % 2 == 0 then 1.0 else -1.0
  }

  /** For even `k`, `Next` at `-x` from `-p1` and `p2` is `Next` at `x`. */
  lemma NextEven(k: nat, x: real, p1: real, p2: real)
    requires k >= 2
    ensures Next(k, -x, -p1, p2) == Next(k, x, p1, p2)
  {
  }

  /** For odd `k`, `Next` at `-x` from `p1` and `-p2` is minus `Next` at `x`. */
  lemma NextOdd(k: nat, x: real, p1: real, p2: real)
    requires k >= 2
    ensures Next(k, -x, p1, -p2) == -Next(k, x, p1, p2)
  {
    var a, b, c := (2 * k - 1) as real, (k - 1) as real, k as real;
    NegQuotient(a * x * p1 - b * p2, c);
  }

  /** `(-n) / c == -(n / c)`. */
  lemma NegQuotient(n: real, c: real)
    requires c != 0.0
    ensures (-n) / c == -(n / c)
  {
  }

  /** Parity: `P_k(-x) == (-1)^k P_k(x)`. */
  lemma {:induction false} Parity(n: nat, x: real)
    ensures forall k :: 0 <= k <= n ==> Polys(n, -x)[k] == Sign(k) * Polys(n, x)[k]
  {
    if n >= 2 {
      Parity(n - 1, x);
      var p, q := Polys(n - 1, x), Polys(n - 1, -x);
      ParityNext(n, x, p[n - 1], p[n - 2], q[n - 1], q[n - 2]);
      forall k | 0 <= k < n ensures Polys(n, -x)[k] == Sign(k) * Polys(n, x)[k] {
        assert Polys(n, -x)[k] == q[k] && Polys(n, x)[k] == p[k];
      }
    } else if n == 1 {
      assert Polys(1, -x) == [1.0, -x];
    }
  }

  /** The recurrence keeps the parity: from `P_{n-1}` and `P_{n-2}` with it, `P_n` has it. */
  lemma ParityNext(n: nat, x: real, p1: real, p2: real, q1: real, q2: real)
    requires n >= 2 && q1 == Sign(n - 1) * p1 && q2 == Sign(n - 2) * p2
    ensures Next(n, -x, q1, q2) == Sign(n) * Next(n, x, p1, p2)
  {
    if n % 2 == 0 {
      assert q1 == -p1 && q2 == p2;
      NextEven(n, x, p1, p2);
    } else {
      assert q1 == p1 && q2 == -p2;
      NextOdd(n, x, p1, p2);
    }
  }

  /** At `x = -1`: `P_k(-1) == (-1)^k`. */
  lemma AtMinusOne(n: nat)
    ensures forall k :: 0 <= k <= n ==> Polys(n, -1.0)[k] == Sign(k)
  {
    AtOne(n);
    Parity(n, 1.0);
  }

  // ---------------------------------------------------------------------
  // The recurrence on AutoDiff numbers: what the template computes
  // ---------------------------------------------------------------------

  /** `(T(2k - 1) * x * p1 - T(k - 1) * p2) / T(k)` with `T = AutoDiff<N>`. */
  function NextAD(k: nat, x: AutoDiff, p1: AutoDiff, p2: AutoDiff): (r: AutoDiff)
    requires k >= 2 && |p1.deriv| == |x.deriv| && |p2.deriv| == |x.deriv|
    ensures |r.deriv| == |x.deriv|
  {
    var n := |x.deriv|;
    Div(Sub(Mul(Mul(Const(n, (2 * k - 1) as real), x), p1), Mul(Const(n, (k - 1) as real), p2)), Const(n, k as real))
  }

  /** The entries `P[0..n]` the template leaves for `T = AutoDiff<N>`. */
  function PolysAD(n: nat, x: AutoDiff): (ps: seq<AutoDiff>)
    ensures |ps| == n + 1
    ensures forall k :: 0 <= k <= n ==> |ps[k].deriv| == |x.deriv|
  {
    if n == 0 then [Const(|x.deriv|, 1.0)]
    else if n == 1 then [Const(|x.deriv|, 1.0), x]
    else
      var prev := PolysAD(n - 1, x);
      prev + [NextAD(n, x, prev[n - 1], prev[n - 2])]
  }

  /** The value part of one AutoDiff step is the plain step on the values. */
  lemma NextADValue(k: nat, x: AutoDiff, p1: AutoDiff, p2: AutoDiff)
    requires k >= 2 && |p1.deriv| == |x.deriv| && |p2.deriv| == |x.deriv|
    ensures NextAD(k, x, p1, p2).value == Next(k, x.value, p1.value, p2.value)
  {
  }

  /** The values of the AutoDiff entries are the Legendre polynomials at `x.value`. */
  lemma {:induction false} ValuesArePolys(n: nat, x: AutoDiff)
    ensures forall k :: 0 <= k <= n ==> PolysAD(n, x)[k].value == Polys(n, x.value)[k]
  {
    if n >= 2 {
      ValuesArePolys(n - 1, x);
      var p, q := PolysAD(n - 1, x), Polys(n - 1, x.value);
      NextADValue(n, x, p[n - 1], p[n - 2]);
      assert p[n - 1].value == q[n - 1] && p[n - 2].value == q[n - 2];
      assert PolysAD(n, x) == p + [NextAD(n, x, p[n - 1], p[n - 2])];
      assert Polys(n, x.value) == q + [Next(n, x.value, q[n - 1], q[n - 2])];
    }
  }

  /**
   * With `x = Variable<0>(v)` in one variable, `P_0` has gradient `[0]`
   * and `P_1` gradient `[1]`.
   */
  lemma FirstGradients(n: nat, v: real)
    requires n >= 1
    ensures PolysAD(n, Variable(1, 0, v))[0] == AutoDiff(1.0, [0.0])
    ensures PolysAD(n, Variable(1, 0, v))[1] == AutoDiff(v, [1.0])
  {
    var x := Variable(1, 0, v);
    PolysADPrefix(1, n, x);
    assert PolysAD(n, x)[0] == PolysAD(1, x)[0] && PolysAD(n, x)[1] == PolysAD(1, x)[1];
    assert x.deriv == [1.0];
    assert Const(1, 1.0).deriv == [0.0];
  }

  /** As for `Polys`: a longer run begins with every shorter one. */
  lemma {:induction false} PolysADPrefix(m: nat, n: nat, x: AutoDiff)
    requires m <= n
    ensures PolysAD(n, x)[..m + 1] == PolysAD(m, x)
  {
    if m < n {
      PolysADPrefix(m, n - 1, x);
      assert PolysAD(n, x)[..n] == PolysAD(n - 1, x);
      assert PolysAD(n, x)[..m + 1] == PolysAD(n, x)[..n][..m + 1];
    } else {
      assert PolysAD(n, x)[..n + 1] == PolysAD(n, x);
    }
  }

  /** The last entry the programs print at `x = 1`: `P[5].value() == 1`. */
  lemma FifthAtOne()
    ensures PolysAD(5, Variable(1, 0, 1.0))[5].value == 1.0
  {
    ValuesArePolys(5, Variable(1, 0, 1.0));
    AtOne(5);
  }

  /** The triangular number `k(k+1)/2`, the slope of `P_k` at 1. */
  function Tri(k: nat): real
  {
    (k as real) * (k as real + 1.0) / 2.0
  }

  /**
   * The slope of one recurrence step at `x = 1` where both earlier entries
   * have value 1 and slopes `d1`, `d2`: `((2k-1)(1 + d1) - (k-1) d2) / k`.
   */
  function SlopeAtOne(k: nat, d1: real, d2: real): real
    requires k >= 2
  {
    ((2 * k - 1) as real * (1.0 + d1) - (k - 1) as real * d2) / k as real
  }

  /** The triangular numbers satisfy the slope step. */
  lemma TriStep(k: nat)
    requires k >= 2
    ensures SlopeAtOne(k, Tri(k - 1), Tri(k - 2)) == Tri(k)
  {
    var K := k as real;
    assert (k - 1) as real == K - 1.0 && (k - 2) as real == K - 2.0 && (2 * k - 1) as real == 2.0 * K - 1.0;
    TriStepReal(K);
  }

  lemma TriStepReal(K: real)
    requires K >= 2.0
    ensures ((2.0 * K - 1.0) * (1.0 + (K - 1.0) * K / 2.0) - (K - 1.0) * ((K - 2.0) * (K - 1.0) / 2.0)) / K == K * (K + 1.0) / 2.0
  {
    var num := (2.0 * K - 1.0) * (1.0 + (K - 1.0) * K / 2.0) - (K - 1.0) * ((K - 2.0) * (K - 1.0) / 2.0);
    assert num == K * (K * (K + 1.0) / 2.0);
  }

  /**
   * One AutoDiff step at `x = Variable<0>(1)` from two entries of value 1:
   * value 1, and slope `((2k-1)(1 + d1) - (k-1) d2) / k` by the sum,
   * product and quotient rules.
   */
  lemma NextADAtOne(k: nat, d1: real, d2: real)
    requires k >= 2
    ensures NextAD(k, AutoDiff(1.0, [1.0]), AutoDiff(1.0, [d1]), AutoDiff(1.0, [d2])) == AutoDiff(1.0, [SlopeAtOne(k, d1, d2)])
  {
    StepAtOne((2 * k - 1) as real, (k - 1) as real, k as real, d1, d2);
    assert SlopeAtOne(k, d1, d2) == ((2 * k - 1) as real * (1.0 + d1) - (k - 1) as real * d2) / k as real;
  }

  /** `NextAD`'s expression at `x = 1` with the coefficients `c = 2k-1`, `e = k-1`, `k`. */
  lemma StepAtOne(c: real, e: real, kk: real, d1: real, d2: real)
    requires kk != 0.0 && c - e == kk
    ensures Div(Sub(Mul(Mul(Const(1, c), AutoDiff(1.0, [1.0])), AutoDiff(1.0, [d1])), Mul(Const(1, e), AutoDiff(1.0, [d2]))), Const(1, kk))
      == AutoDiff(1.0, [(c * (1.0 + d1) - e * d2) / kk])
  {
    ConstInOne(c);
    ConstInOne(e);
    MulInOne(c, 0.0, 1.0, 1.0);
    var cx := Mul(Const(1, c), AutoDiff(1.0, [1.0]));
    assert cx == AutoDiff(c, [c]);
    MulInOne(c, c, 1.0, d1);
    var t := Mul(cx, AutoDiff(1.0, [d1]));
    assert t == AutoDiff(c, [c + c * d1]);
    MulInOne(e, 0.0, 1.0, d2);
    var u := Mul(Const(1, e), AutoDiff(1.0, [d2]));
    assert u == AutoDiff(e, [e * d2]);
    SubInOne(c, c + c * d1, e, e * d2);
    var s := Sub(t, u);
    assert s == AutoDiff(kk, [c + c * d1 - e * d2]);
    DivConst(1, kk, s);
    var q := Vectors.Scale(1.0 / kk, s.deriv);
    assert q[0] == (c * (1.0 + d1) - e * d2) / kk;
    assert q == [(c * (1.0 + d1) - e * d2) / kk];
  }

  /** `AutoDiff<1>(v)`. */
  lemma ConstInOne(v: real)
    ensures Const(1, v) == AutoDiff(v, [0.0])
  {
    assert Const(1, v).deriv == [0.0];
  }

  /** The product rule in one variable. */
  lemma MulInOne(av: real, ad: real, bv: real, bd: real)
    ensures Mul(AutoDiff(av, [ad]), AutoDiff(bv, [bd])) == AutoDiff(av * bv, [ad * bv + av * bd])
  {
    var r := Mul(AutoDiff(av, [ad]), AutoDiff(bv, [bd]));
    assert r.deriv[0] == ad * bv + av * bd;
    assert r.deriv == [ad * bv + av * bd];
  }

  /** The difference in one variable. */
  lemma SubInOne(av: real, ad: real, bv: real, bd: real)
    ensures Sub(AutoDiff(av, [ad]), AutoDiff(bv, [bd])) == AutoDiff(av - bv, [ad - bd])
  {
    var r := Sub(AutoDiff(av, [ad]), AutoDiff(bv, [bd]));
    assert r.deriv == [r.deriv[0]];
  }

  /**
   * The slope the demo prints beside the value, at `x = 1`: with
   * `x = Variable<0>(1)`, `P[k]` is `(1, [k(k+1)/2])`.
   */
  lemma {:induction false} GradientAtOne(n: nat)
    ensures PolysAD(n, Variable(1, 0, 1.0))[n] == AutoDiff(1.0, [Tri(n)])
  {
    VariableAtOne();
    if n == 0 {
      ConstInOne(1.0);
    } else if n >= 2 {
      GradientAtOne(n - 1);
      GradientAtOne(n - 2);
      PolysADLast(n, Variable(1, 0, 1.0));
      NextADAtOne(n, Tri(n - 1), Tri(n - 2));
      TriStep(n);
    }
  }

  lemma VariableAtOne()
    ensures Variable(1, 0, 1.0) == AutoDiff(1.0, [1.0])
  {
    assert Variable(1, 0, 1.0).deriv == [1.0];
  }

  /** Entry `n >= 2` is the step from the last entries of the two shorter runs. */
  lemma PolysADLast(n: nat, x: AutoDiff)
    requires n >= 2
    ensures PolysAD(n, x)[n] == NextAD(n, x, PolysAD(n - 1, x)[n - 1], PolysAD(n - 2, x)[n - 2])
  {
    PolysADPrefix(n - 2, n - 1, x);
    assert PolysAD(n - 1, x)[n - 2] == PolysAD(n - 1, x)[..n - 1][n - 2];
  }

  /** The last row the demo prints: `P[5]` at `x = 1` is `(1, [15])`. */
  lemma FifthGradientAtOne()
    ensures PolysAD(5, Variable(1, 0, 1.0))[5] == AutoDiff(1.0, [15.0])
  {
    GradientAtOne(5);
  }

  // ---------------------------------------------------------------------
  // LegendrePolynomials
  // ---------------------------------------------------------------------

  /**
   * `std::vector::resize(m)`: the first `m` entries are kept, and new
   * entries are value-initialised to `fill`.
   */
  function Resize(v: seq<AutoDiff>, m: nat, fill: AutoDiff): (r: seq<AutoDiff>)
    ensures |r| == m
    ensures forall i :: 0 <= i < m && i < |v| ==> r[i] == v[i]
    ensures forall i :: |v| <= i < m ==> r[i] == fill
  {
    if m <= |v| then v[..m] else v + seq(m - |v|, _ => fill)
  }

  /**
   * `LegendrePolynomials(n, x, P)`: `P` is passed by reference; its new
   * contents are `Q`. For `n < 0` it is cleared. Otherwise it is resized
   * to `n + 1` entries, every one of which is then overwritten, so what `P`
   * held before does not matter.
   */
  method LegendrePolynomials(n: int, x: AutoDiff, P: seq<AutoDiff>) returns (Q: seq<AutoDiff>)
    ensures n < 0 ==> Q == []
    ensures n >= 0 ==> Q == PolysAD(n, x)
  {
    if n < 0 {
      Q := [];
      return;
    }
    Q := Resize(P, n + 1, Default(|x.deriv|));
    Q := Q[0 := Const(|x.deriv|, 1.0)];
    if n == 0 {
      assert Q == [Const(|x.deriv|, 1.0)];
      return;
    }
    Q := Q[1 := x];
    assert Q[..2] == PolysAD(1, x);
    var k := 2;
    while k <= n
      invariant 2 <= k <= n + 1
      invariant |Q| == n + 1
      invariant Q[..k] == PolysAD(k - 1, x)
    {
      var prev := Q[..k];
      assert Q[k - 1] == prev[k - 1] && Q[k - 2] == prev[k - 2];
      Q := Q[k := NextAD(k, x, Q[k - 1], Q[k - 2])];
      assert Q[..k + 1] == prev + [NextAD(k, x, prev[k - 1], prev[k - 2])];
      k := k + 1;
    }
    assert Q == Q[..n + 1];
  }
}
