/**
 * Exercise1/ex17.2.2/Improved_Euler.cpp: a linear mass-spring oscillator
 * written as a first-order system in `(x, v)`, with its constant Jacobian,
 * and a second implementation of the improved Euler (Heun) step that forms
 * its predictor as `y + 0.5 * tau * f(y)` in one expression.
 */
module ImprovedEulerExercise {
  import opened Vectors
  import opened Steppers

  /** `MassSpring(m, k)`: `x' = v`, `v' = -(k/m) x`. */
  datatype MassSpring = MassSpring(mass: real, stiffness: real)

  /** What `evaluate` writes for the state `(x, v)`. */
  function Eval(ms: MassSpring, x: Vec): (f: Vec)
    requires ms.mass != 0.0 && |x| == 2
    ensures |f| == 2
  {
    [x[1], -ms.stiffness / ms.mass * x[0]]
  }

  /** What `evaluateDeriv` writes: `[[0, 1], [-k/m, 0]]`. */
  function Jacobian(ms: MassSpring): (df: seq<seq<real>>)
    requires ms.mass != 0.0
    ensures |df| == 2 && |df[0]| == 2 && |df[1]| == 2
  {
    [[0.0, 1.0], [-ms.stiffness / ms.mass, 0.0]]
  }

  /** A 2x2 matrix times a 2-vector. */
  function Apply(m: seq<seq<real>>, h: Vec): (r: Vec)
    requires |m| == 2 && |m[0]| == 2 && |m[1]| == 2 && |h| == 2
    ensures |r| == 2 && forall i :: 0 <= i < 2 ==> r[i] == m[i][0] * h[0] + m[i][1] * h[1]
  {
    [m[0][0] * h[0] + m[0][1] * h[1], m[1][0] * h[0] + m[1][1] * h[1]]
  }

  /** The right-hand side the stepper sees: dimensions 2 and 2. */
  function AsRhs(ms: MassSpring): (rhs: Rhs)
    requires ms.mass != 0.0
    ensures rhs.dimX == 2 && Square(rhs)
    ensures forall x :: |x| == 2 ==> rhs.f(x) == Eval(ms, x)
  {
    Rhs(2, 2, x => if |x| == 2 then Eval(ms, x) else [0.0, 0.0])
  }

  /**
   * The Jacobian is exact: `evaluate` is linear, so moving the state by any
   * `h` moves `f` by exactly `df * h`.
   */
  lemma JacobianIsExact(ms: MassSpring, x: Vec, h: Vec)
    requires ms.mass != 0.0 && |x| == 2 && |h| == 2
    ensures Eval(ms, Add(x, h)) == Add(Eval(ms, x), Apply(Jacobian(ms), h))
  {
    var a := Eval(ms, Add(x, h));
    var b := Add(Eval(ms, x), Apply(Jacobian(ms), h));
    var q := -ms.stiffness / ms.mass;
    assert a[1] == q * (x[0] + h[0]);
    assert b[1] == q * x[0] + (q * h[0] + 0.0 * h[1]);
    assert a[1] == b[1];
  }

  /** `evaluate(x, f)`: `f(0) = x(1)`, `f(1) = -k/m * x(0)`. */
  method Evaluate(ms: MassSpring, x: array<real>, f: array<real>)
    requires ms.mass != 0.0 && x.Length == 2 && f.Length == 2 && x != f
    modifies f
    ensures f[..] == Eval(ms, x[..])
  {
    f[0] := x[1];
    f[1] := -ms.stiffness / ms.mass * x[0];
    assert f[0] == x[1];
    assert f[1] == Eval(ms, x[..])[1];
    assert f[..] == [f[0], f[1]];
  }

  /** `evaluateDeriv(x, df)`: `df = 0`, then the two non-zero entries. */
  method EvaluateDeriv(ms: MassSpring, x: array<real>, df: array2<real>)
    requires ms.mass != 0.0 && df.Length0 == 2 && df.Length1 == 2
    modifies df
    ensures forall i, j :: 0 <= i < 2 && 0 <= j < 2 ==> df[i, j] == Jacobian(ms)[i][j]
  {
    FillMatrix(df, 0.0);
    df[0, 1] := 1.0;
    df[1, 0] := -ms.stiffness / ms.mass;
  }

  /** This file's Heun step: `y + tau * f(y + 0.5 * tau * f(y))`. */
  function HeunStepEx(rhs: Rhs, tau: real, y: Vec): (r: Vec)
    requires Square(rhs) && |y| == rhs.dimX
    ensures |r| == |y|
  {
    AddScaled(y, tau, rhs.f(Add(y, Scale(0.5 * tau, rhs.f(y)))))
  }

  /** It computes exactly the step of src/timestepper.hpp's `ImprovedEuler`, for every right-hand side. */
  lemma SameAsTimeStepper(rhs: Rhs, tau: real, y: Vec)
    requires Square(rhs) && |y| == rhs.dimX
    ensures HeunStepEx(rhs, tau, y) == HeunStep(rhs, tau, y)
  {
    var v := rhs.f(y);
    assert Add(y, Scale(0.5 * tau, v)) == Predictor(rhs, tau, y) by {
      forall i | 0 <= i < |y|
        ensures Add(y, Scale(0.5 * tau, v))[i] == Predictor(rhs, tau, y)[i]
      {
        assert 0.5 * tau * v[i] == tau / 2.0 * v[i];
      }
    }
  }

  /** With `tau == 0` the state is unchanged. */
  lemma ZeroStep(rhs: Rhs, y: Vec)
    requires Square(rhs) && |y| == rhs.dimX
    ensures HeunStepEx(rhs, 0.0, y) == y
  {
    SameAsTimeStepper(rhs, 0.0, y);
    ZeroStepIsIdentity(rhs, y);
  }

  /** For `k = m = 1` one step maps `(x, v)` to `(x + tau v - tau^2/2 x, v - tau x - tau^2/2 v)`. */
  lemma UnitOscillatorStep(tau: real, x: real, v: real)
    ensures HeunStepEx(AsRhs(MassSpring(1.0, 1.0)), tau, [x, v])
      == [x + tau * v - tau * tau / 2.0 * x, v - tau * x - tau * tau / 2.0 * v]
  {
    var rhs := AsRhs(MassSpring(1.0, 1.0));
    var y := [x, v];
    var g := rhs.f(Add(y, Scale(0.5 * tau, rhs.f(y))));
    UnitCorrector(tau, x, v);
    var r := AddScaled(y, tau, g);
    UnitOscillatorArith(tau, x, v, g[0], g[1], r[0], r[1]);
    assert r == [r[0], r[1]];
  }

  /** The predictor for `k = m = 1`: `(x, v) + tau/2 * (v, -x)`. */
  lemma UnitPredictor(tau: real, x: real, v: real)
    ensures var rhs := AsRhs(MassSpring(1.0, 1.0));
      Add([x, v], Scale(0.5 * tau, rhs.f([x, v]))) == [x + 0.5 * tau * v, v - 0.5 * tau * x]
  {
    UnitSlope(x, v);
    HalfStep(tau, x, v);
  }

  /** For `k = m = 1` the slope at `(x, v)` is `(v, -x)`. */
  lemma UnitSlope(x: real, v: real)
    ensures AsRhs(MassSpring(1.0, 1.0)).f([x, v]) == [v, -x]
  {
    var f0 := Eval(MassSpring(1.0, 1.0), [x, v]);
    assert f0[1] == -x;
  }

  lemma HalfStep(tau: real, x: real, v: real)
    ensures Add([x, v], Scale(0.5 * tau, [v, -x])) == [x + 0.5 * tau * v, v - 0.5 * tau * x]
  {
    var yt := Add([x, v], Scale(0.5 * tau, [v, -x]));
    assert yt[0] == x + 0.5 * tau * v && yt[1] == v - 0.5 * tau * x;
    assert yt == [yt[0], yt[1]];
  }

  /** The corrector slope for `k = m = 1`: `f` at the predictor `(x + tau/2 v, v - tau/2 x)`. */
  lemma UnitCorrector(tau: real, x: real, v: real)
    ensures var rhs := AsRhs(MassSpring(1.0, 1.0));
      rhs.f(Add([x, v], Scale(0.5 * tau, rhs.f([x, v])))) == [v - 0.5 * tau * x, -x - 0.5 * tau * v]
  {
    var ms := MassSpring(1.0, 1.0);
    UnitPredictor(tau, x, v);
    var yt := [x + 0.5 * tau * v, v - 0.5 * tau * x];
    var f1 := AsRhs(ms).f(yt);
    assert f1 == Eval(ms, yt);
    assert f1[0] == v - 0.5 * tau * x && f1[1] == -x - 0.5 * tau * v;
    assert f1 == [f1[0], f1[1]];
  }

  lemma UnitOscillatorArith(tau: real, x: real, v: real, g0: real, g1: real, r0: real, r1: real)
    requires g0 == v - 0.5 * tau * x && g1 == -x - 0.5 * tau * v
    requires r0 == x + tau * g0 && r1 == v + tau * g1
    ensures r0 == x + tau * v - tau * tau / 2.0 * x
    ensures r1 == v - tau * x - tau * tau / 2.0 * v
  {
  }

  /** This file's `ImprovedEuler`: scratch `m_vecf`, `m_vecf_tilde` and `m_ytilde`, all of size `dimF`. */
  class ImprovedEuler {
    const rhs: Rhs
    const vecf: array<real>
    const vecfTilde: array<real>
    const ytilde: array<real>

    ghost predicate Valid()
    {
      && Square(rhs) && vecf.Length == rhs.dimF && vecfTilde.Length == rhs.dimF && ytilde.Length == rhs.dimF
      && vecf != vecfTilde && vecf != ytilde && vecfTilde != ytilde
    }

    constructor (rhs: Rhs)
      requires Square(rhs)
      ensures this.rhs == rhs && Valid() && fresh(vecf) && fresh(vecfTilde) && fresh(ytilde)
    {
      this.rhs := rhs;
      vecf := new real[rhs.dimF];
      vecfTilde := new real[rhs.dimF];
      ytilde := new real[rhs.dimF];
    }

    /**
     * Predictor `m_ytilde = y + 0.5 * tau * m_vecf`, then corrector
     * `y += tau * f(m_ytilde)`: `m_ytilde` is formed before `y` changes.
     */
    method DoStep(tau: real, y: array<real>)
      requires Valid() && y.Length == rhs.dimX
      requires y != vecf && y != vecfTilde && y != ytilde
      modifies y, vecf, vecfTilde, ytilde
      ensures y[..] == HeunStepEx(rhs, tau, old(y[..]))
      ensures ytilde[..] == Add(old(y[..]), Scale(0.5 * tau, rhs.f(old(y[..]))))
    {
      Assign(vecf, rhs.f(y[..]));
      Assign(ytilde, Add(y[..], Scale(0.5 * tau, vecf[..])));
      Assign(vecfTilde, rhs.f(ytilde[..]));
      AddScaledTo(y, tau, vecfTilde[..]);
    }
  }
}
