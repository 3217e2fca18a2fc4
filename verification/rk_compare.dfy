/**
 * Exercise2/19.4/Rk_compare.cpp: the concrete two-stage and classical
 * four-stage explicit Butcher tableaus that `SetupRK2` and `SetupRK4` write
 * into caller-supplied `A`, `b` and `c`, and the unit mass-spring right-hand
 * side `MassSpringRHS`, `(y, v)' = (v, -y)`, the comparison runs them on.
 */
module RkCompare {
  import opened Vectors
  import opened Steppers
  import opened ExplicitRK
  import ImprovedEulerExercise

  // ---------------------------------------------------------------------
  // The tableaus
  // ---------------------------------------------------------------------

  /** The tableau `SetupRK2` writes into a 2x2 `A` and 2-entry `b` and `c`. */
  function RK2(): (t: Tableau)
    ensures Shaped(t) && |t.c| == 2
  {
    Tableau([[0.0, 0.0], [0.5, 0.0]], [0.0, 1.0], [0.0, 0.5])
  }

  /** The tableau `SetupRK4` writes into a 4x4 `A` and 4-entry `b` and `c`. */
  function RK4(): (t: Tableau)
    ensures Shaped(t) && |t.c| == 4
  {
    Tableau(
      [[0.0, 0.0, 0.0, 0.0], [0.5, 0.0, 0.0, 0.0], [0.0, 0.5, 0.0, 0.0], [0.0, 0.0, 1.0, 0.0]],
      [1.0 / 6.0, 1.0 / 3.0, 1.0 / 3.0, 1.0 / 6.0],
      [0.0, 0.5, 0.5, 1.0])
  }

  /** The sum of a list of reals, left to right. */
  function Sum(s: seq<real>): real
  {
    if |s| == 0 then 0.0 else Sum(s[..|s| - 1]) + s[|s| - 1]
  }

  /** Appending one entry adds it to the sum. */
  lemma SumAppend(s: seq<real>, x: real)
    ensures Sum(s + [x]) == Sum(s) + x
  {
    assert (s + [x])[..|s|] == s;
  }

  /** An explicit tableau: every entry of `A` on or above the diagonal is zero. */
  predicate StrictlyLower(t: Tableau)
    requires Shaped(t)
  {
    forall j, l :: 0 <= j <= l < |t.c| ==> t.a[j][l] == 0.0
  }

  /** The weights sum to one and every node `c_j` is the sum of row `j` of `A`. */
  predicate Consistent(t: Tableau)
    requires Shaped(t)
  {
    Sum(t.b) == 1.0 && forall j :: 0 <= j < |t.c| ==> t.c[j] == Sum(t.a[j])
  }

  /** The RK2 tableau is explicit and consistent. */
  lemma RK2Properties()
    ensures StrictlyLower(RK2()) && Consistent(RK2())
  {
    var t := RK2();
    SumAppend([], 0.0);
    SumAppend([0.0], 1.0);
    SumAppend([], 0.5);
    SumAppend([0.5], 0.0);
    SumAppend([0.0], 0.0);
    assert t.b == [0.0] + [1.0] && t.a[0] == [0.0] + [0.0] && t.a[1] == [0.5] + [0.0];
  }

  /** The sum of four entries. */
  lemma Sum4(a: real, b: real, c: real, d: real)
    ensures Sum([a, b, c, d]) == a + b + c + d
  {
    SumAppend([], a);
    assert [a] == [] + [a];
    SumAppend([a], b);
    assert [a, b] == [a] + [b];
    SumAppend([a, b], c);
    assert [a, b, c] == [a, b] + [c];
    SumAppend([a, b, c], d);
    assert [a, b, c, d] == [a, b, c] + [d];
  }

  /** The RK4 tableau is explicit and consistent, and its weights are symmetric. */
  lemma RK4Properties()
    ensures StrictlyLower(RK4()) && Consistent(RK4())
    ensures RK4().b[0] == RK4().b[3] && RK4().b[1] == RK4().b[2]
  {
    var t := RK4();
    Sum4(1.0 / 6.0, 1.0 / 3.0, 1.0 / 3.0, 1.0 / 6.0);
    Sum4(0.0, 0.0, 0.0, 0.0);
    Sum4(0.5, 0.0, 0.0, 0.0);
    Sum4(0.0, 0.5, 0.0, 0.0);
    Sum4(0.0, 0.0, 1.0, 0.0);
  }

  /**
   * `SetupRK2(A, b, c)`: all of `A` becomes 0 except `A(1,0) = 0.5`, then
   * `b = (0, 1)` and `c = (0, 0.5)` in their first two entries. On the
   * sizes the comparison allocates, the result is `RK2()`.
   */
  method SetupRK2(A: array2<real>, b: array<real>, c: array<real>)
    requires A.Length0 >= 2 && A.Length1 >= 1 && b.Length >= 2 && c.Length >= 2 && b != c
    modifies A, b, c
    ensures forall i, j :: 0 <= i < A.Length0 && 0 <= j < A.Length1 ==>
      A[i, j] == if i == 1 && j == 0 then 0.5 else 0.0
    ensures b[..2] == [0.0, 1.0] && b[2..] == old(b[2..])
    ensures c[..2] == [0.0, 0.5] && c[2..] == old(c[2..])
    ensures A.Length0 == 2 && A.Length1 == 2 && b.Length == 2 && c.Length == 2 ==>
      Tableau(Rows(A), b[..], c[..]) == RK2()
  {
    FillMatrix(A, 0.0);
    A[1, 0] := 0.5;
    b[0] := 0.0;
    b[1] := 1.0;
    c[0] := 0.0;
    c[1] := 0.5;
    if A.Length0 == 2 && A.Length1 == 2 {
      var rows := Rows(A);
      assert rows[0] == [0.0, 0.0] && rows[1] == [0.5, 0.0];
      assert rows == RK2().a;
    }
  }

  /** Entry `(i, j)` of the matrix `SetupRK4` writes: zero but for the subdiagonal `0.5, 0.5, 1.0`. */
  function RK4Entry(i: int, j: int): real
  {
    if i == 1 && j == 0 then 0.5 else if i == 2 && j == 1 then 0.5 else if i == 3 && j == 2 then 1.0 else 0.0
  }

  /**
   * `SetupRK4(A, b, c)`: all of `A` becomes 0 except the subdiagonal
   * `0.5, 0.5, 1.0`; `b = (1/6, 1/3, 1/3, 1/6)` and `c = (0, 0.5, 0.5, 1)`
   * in their first four entries. On the sizes the comparison allocates, the
   * result is `RK4()`.
   */
  method SetupRK4(A: array2<real>, b: array<real>, c: array<real>)
    requires A.Length0 >= 4 && A.Length1 >= 3 && b.Length >= 4 && c.Length >= 4 && b != c
    modifies A, b, c
    ensures forall i, j :: 0 <= i < A.Length0 && 0 <= j < A.Length1 ==> A[i, j] == RK4Entry(i, j)
    ensures b[..4] == [1.0 / 6.0, 1.0 / 3.0, 1.0 / 3.0, 1.0 / 6.0] && b[4..] == old(b[4..])
    ensures c[..4] == [0.0, 0.5, 0.5, 1.0] && c[4..] == old(c[4..])
    ensures A.Length0 == 4 && A.Length1 == 4 && b.Length == 4 && c.Length == 4 ==>
      Tableau(Rows(A), b[..], c[..]) == RK4()
  {
    FillMatrix(A, 0.0);
    A[1, 0] := 0.5;
    A[2, 1] := 0.5;
    A[3, 2] := 1.0;
    b[0] := 1.0 / 6.0;
    b[1] := 1.0 / 3.0;
    b[2] := 1.0 / 3.0;
    b[3] := 1.0 / 6.0;
    c[0] := 0.0;
    c[1] := 0.5;
    c[2] := 0.5;
    c[3] := 1.0;
    if A.Length0 == 4 && A.Length1 == 4 && b.Length == 4 && c.Length == 4 {
      assert b[..] == b[..4] && c[..] == c[..4];
      RowsOfRK4(A);
    }
  }

  /** A 4x4 matrix holding the entries `SetupRK4` writes has the rows of `RK4()`. */
  lemma RowsOfRK4(A: array2<real>)
    requires A.Length0 == 4 && A.Length1 == 4
    requires forall i, j :: 0 <= i < 4 && 0 <= j < 4 ==> A[i, j] == RK4Entry(i, j)
    ensures Rows(A) == RK4().a
  {
    var rows, a := Rows(A), RK4().a;
    forall i | 0 <= i < 4 ensures rows[i] == a[i] {
      assert forall j :: 0 <= j < 4 ==> rows[i][j] == a[i][j];
    }
  }

  // ---------------------------------------------------------------------
  // What the tableaus compute
  // ---------------------------------------------------------------------

  /** The RK2 tableau run by `ExplicitRungeKutta` is the improved Euler step of src/timestepper.hpp. */
  lemma RK2IsHeun(rhs: Rhs, tau: real, y: Vec)
    requires Square(rhs) && |y| == rhs.dimX
    ensures RKStep(RK2(), rhs, tau, y) == HeunStep(rhs, tau, y)
  {
    var t := RK2();
    var k0 := rhs.f(y);
    assert Slopes(t, rhs, tau, y, 1) == [k0];
    var p := Combine(y, tau, t.a[1], [k0], 1);
    var p0 := Combine(y, tau, t.a[1], [k0], 0);
    var s := tau * t.a[1][0];
    assert p0 == y && s == tau / 2.0;
    assert p == AddScaled(p0, s, k0);
    assert p == Predictor(rhs, tau, y);
    var k1 := rhs.f(p);
    assert Slopes(t, rhs, tau, y, 2) == [k0, k1];
    assert tau * 0.0 == 0.0 && tau * 1.0 == tau;
    AddScaledZero(y, k0);
    assert Combine(y, tau, t.b, [k0, k1], 1) == y;
  }

  /**
   * Two multiples of the same vector add up. The scales are quantified, so
   * that the solver matches them as they occur instead of equating products.
   */
  lemma AddScaledTwice(y: Vec, c: Vec)
    requires |y| == |c|
    ensures forall a, b, t {:trigger AddScaled(AddScaled(y, a, c), b, c), AddScaled(y, t, c)} ::
      t == a + b ==> AddScaled(AddScaled(y, a, c), b, c) == AddScaled(y, t, c)
  {
    forall a, b, t | t == a + b ensures AddScaled(AddScaled(y, a, c), b, c) == AddScaled(y, t, c) {
      forall i | 0 <= i < |y| ensures AddScaled(AddScaled(y, a, c), b, c)[i] == AddScaled(y, t, c)[i] {
        assert y[i] + a * c[i] + b * c[i] == y[i] + (a + b) * c[i];
      }
    }
  }

  /** Adding the same `c` with the weights `w` adds `c` once with their sum. */
  lemma {:induction false} CombineConstant(y: Vec, tau: real, w: seq<real>, ks: seq<Vec>, c: Vec, m: nat)
    requires m <= |w| && m <= |ks| && |c| == |y|
    requires forall l :: 0 <= l < m ==> ks[l] == c
    ensures Combine(y, tau, w, ks, m) == AddScaled(y, tau * Sum(w[..m]), c)
  {
    if m == 0 {
      assert w[..0] == [];
      assert tau * 0.0 == 0.0;
      AddScaledZero(y, c);
    } else {
      CombineConstant(y, tau, w, ks, c, m - 1);
      assert w[..m][..m - 1] == w[..m - 1];
      assert Sum(w[..m]) == Sum(w[..m - 1]) + w[m - 1];
      assert tau * Sum(w[..m]) == tau * Sum(w[..m - 1]) + tau * w[m - 1];
      assert ks[m - 1] == c;
      AddScaledTwice(y, c);
    }
  }

  /**
   * Any tableau whose weights sum to one is exact for a constant right-hand
   * side `c`: one step gives `y + tau * c`.
   */
  lemma ConstantRhsIsExact(t: Tableau, rhs: Rhs, c: Vec, tau: real, y: Vec)
    requires Shaped(t) && Sum(t.b) == 1.0
    requires Square(rhs) && |y| == rhs.dimX && |c| == rhs.dimF && forall x :: rhs.f(x) == c
    ensures RKStep(t, rhs, tau, y) == AddScaled(y, tau, c)
  {
    var s := |t.c|;
    var ks := Slopes(t, rhs, tau, y, s);
    forall l | 0 <= l < s ensures ks[l] == c {
      SlopeAtStage(t, rhs, tau, y, l, s);
    }
    CombineConstant(y, tau, t.b, ks, c, s);
    assert t.b[..s] == t.b;
    assert tau * Sum(t.b) == tau;
    SameScale(y, c);
  }

  /** Equal scales give equal results, whatever terms the scales are written as. */
  lemma SameScale(y: Vec, c: Vec)
    requires |y| == |c|
    ensures forall s1, s2 {:trigger AddScaled(y, s1, c), AddScaled(y, s2, c)} ::
      s1 == s2 ==> AddScaled(y, s1, c) == AddScaled(y, s2, c)
  {
  }

  /** In particular both tableaus of the comparison are exact for constant right-hand sides. */
  lemma SetupTableausExactForConstants(rhs: Rhs, c: Vec, tau: real, y: Vec)
    requires Square(rhs) && |y| == rhs.dimX && |c| == rhs.dimF && forall x :: rhs.f(x) == c
    ensures RKStep(RK2(), rhs, tau, y) == AddScaled(y, tau, c)
    ensures RKStep(RK4(), rhs, tau, y) == AddScaled(y, tau, c)
  {
    RK2Properties();
    RK4Properties();
    ConstantRhsIsExact(RK2(), rhs, c, tau, y);
    ConstantRhsIsExact(RK4(), rhs, c, tau, y);
  }

  // ---------------------------------------------------------------------
  // MassSpringRHS
  // ---------------------------------------------------------------------

  /** What `evaluate` writes for the state `(y, v)`: `(v, -y)`. */
  function Eval(u: Vec): (f: Vec)
    requires |u| == 2
    ensures |f| == 2
  {
    [u[1], -u[0]]
  }

  /** What `evaluateDeriv` writes: `[[0, 1], [-1, 0]]`. */
  function Jacobian(): (df: seq<seq<real>>)
    ensures |df| == 2 && |df[0]| == 2 && |df[1]| == 2
  {
    [[0.0, 1.0], [-1.0, 0.0]]
  }

  /** `MassSpringRHS` as the right-hand side a stepper sees: dimensions 2 and 2. */
  function MassSpringRhs(): (rhs: Rhs)
    ensures rhs.dimX == 2 && Square(rhs)
    ensures forall u :: |u| == 2 ==> rhs.f(u) == Eval(u)
  {
    Rhs(2, 2, u => if |u| == 2 then Eval(u) else [0.0, 0.0])
  }

  /** The constant `df` is the exact Jacobian: moving the state by `h` moves `f` by `df * h`. */
  lemma JacobianIsExact(u: Vec, h: Vec)
    requires |u| == 2 && |h| == 2
    ensures Eval(Add(u, h)) == Add(Eval(u), ImprovedEulerExercise.Apply(Jacobian(), h))
  {
    var a := Eval(Add(u, h));
    var b := Add(Eval(u), ImprovedEulerExercise.Apply(Jacobian(), h));
    assert a[0] == b[0] && a[1] == b[1];
  }

  /** It is Exercise 17.2.2's `MassSpring` with unit mass and unit stiffness. */
  lemma IsUnitMassSpring(u: Vec)
    requires |u| == 2
    ensures Eval(u) == ImprovedEulerExercise.Eval(ImprovedEulerExercise.MassSpring(1.0, 1.0), u)
    ensures Jacobian() == ImprovedEulerExercise.Jacobian(ImprovedEulerExercise.MassSpring(1.0, 1.0))
  {
    var e := ImprovedEulerExercise.Eval(ImprovedEulerExercise.MassSpring(1.0, 1.0), u);
    assert e[0] == u[1];
    assert e[1] == -1.0 / 1.0 * u[0] == -u[0];
  }

  /**
   * `evaluate(u, f)`: both entries of `u` are read before `f` is written, so
   * the result is right even when `u` and `f` are the same vector.
   */
  method Evaluate(u: array<real>, f: array<real>)
    requires u.Length == 2 && f.Length == 2
    modifies f
    ensures f[..] == Eval(old(u[..]))
  {
    var y := u[0];
    var v := u[1];
    f[0] := v;
    f[1] := -y;
    assert f[..] == [f[0], f[1]];
  }

  /** `evaluateDeriv(u, df)`: `df = 0`, then the two non-zero entries. */
  method EvaluateDeriv(u: array<real>, df: array2<real>)
    requires df.Length0 == 2 && df.Length1 == 2
    modifies df
    ensures forall i, j :: 0 <= i < 2 && 0 <= j < 2 ==> df[i, j] == Jacobian()[i][j]
  {
    FillMatrix(df, 0.0);
    df[0, 1] := 1.0;
    df[1, 0] := -1.0;
  }

  /**
   * One RK2 step of the comparison's oscillator from `(y, v)` is
   * `(y + tau v - tau^2/2 y, v - tau y - tau^2/2 v)`.
   */
  lemma RK2OscillatorStep(tau: real, y: real, v: real)
    ensures RKStep(RK2(), MassSpringRhs(), tau, [y, v])
      == [y + tau * v - tau * tau / 2.0 * y, v - tau * y - tau * tau / 2.0 * v]
  {
    RK2IsUnitHeun(tau, [y, v]);
    ImprovedEulerExercise.UnitOscillatorStep(tau, y, v);
  }

  /** On this oscillator RK2 computes Exercise 17.2.2's improved Euler step for `m = k = 1`. */
  lemma RK2IsUnitHeun(tau: real, u: Vec)
    requires |u| == 2
    ensures RKStep(RK2(), MassSpringRhs(), tau, u)
      == ImprovedEulerExercise.HeunStepEx(ImprovedEulerExercise.AsRhs(ImprovedEulerExercise.MassSpring(1.0, 1.0)), tau, u)
  {
    RK2IsHeun(MassSpringRhs(), tau, u);
    UnitHeunAgrees(tau, u);
    UnitHeunIsTimeStepper(tau, u);
  }

  /** The two oscillators agree on every state, so their improved Euler steps agree. */
  lemma UnitHeunAgrees(tau: real, u: Vec)
    requires |u| == 2
    ensures HeunStep(MassSpringRhs(), tau, u)
      == HeunStep(ImprovedEulerExercise.AsRhs(ImprovedEulerExercise.MassSpring(1.0, 1.0)), tau, u)
  {
    var rhs := MassSpringRhs();
    var unit := ImprovedEulerExercise.AsRhs(ImprovedEulerExercise.MassSpring(1.0, 1.0));
    forall x | |x| == 2 ensures rhs.f(x) == unit.f(x) {
      IsUnitMassSpring(x);
    }
    HeunStepAgrees(rhs, unit, tau, u);
  }

  lemma UnitHeunIsTimeStepper(tau: real, u: Vec)
    requires |u| == 2
    ensures ImprovedEulerExercise.HeunStepEx(ImprovedEulerExercise.AsRhs(ImprovedEulerExercise.MassSpring(1.0, 1.0)), tau, u)
      == HeunStep(ImprovedEulerExercise.AsRhs(ImprovedEulerExercise.MassSpring(1.0, 1.0)), tau, u)
  {
    ImprovedEulerExercise.SameAsTimeStepper(ImprovedEulerExercise.AsRhs(ImprovedEulerExercise.MassSpring(1.0, 1.0)), tau, u);
  }
}
