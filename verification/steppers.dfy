/**
 * The explicit one-step methods of src/timestepper.hpp. A right-hand side
 * (`NonlinearFunction`) is a value: its dimensions and the map `evaluate`
 * computes. A stepper keeps that right-hand side, fixed at construction,
 * and scratch vectors whose sizes are fixed at construction; `DoStep`
 * overwrites the scratch vectors and updates the state `y` in place.
 */
module Steppers {
  import opened Vectors

  /** A `NonlinearFunction`: `dimX`, `dimF` and what `evaluate(x, f)` writes into `f`. */
  datatype Rhs = Rhs(dimX: nat, dimF: nat, f: Vec -> Vec)

  /** `evaluate` maps `dimX` vectors to `dimF` vectors, and the two agree, as the explicit steppers need. */
  ghost predicate Square(rhs: Rhs) {
    rhs.dimX == rhs.dimF && forall x :: |x| == rhs.dimX ==> |rhs.f(x)| == rhs.dimF
  }

  /** One explicit Euler step: `y + tau * f(y)`. */
  function EulerStep(rhs: Rhs, tau: real, y: Vec): (r: Vec)
    requires Square(rhs) && |y| == rhs.dimX
    ensures |r| == |y|
  {
    AddScaled(y, tau, rhs.f(y))
  }

  /** The predictor of the improved Euler method: half a step of Euler, `y + (tau/2) * f(y)`. */
  function Predictor(rhs: Rhs, tau: real, y: Vec): (r: Vec)
    requires Square(rhs) && |y| == rhs.dimX
    ensures |r| == |y|
  {
    AddScaled(y, tau / 2.0, rhs.f(y))
  }

  /** One improved Euler (Heun midpoint) step: `y + tau * f(y + (tau/2) * f(y))`. */
  function HeunStep(rhs: Rhs, tau: real, y: Vec): (r: Vec)
    requires Square(rhs) && |y| == rhs.dimX
    ensures |r| == |y|
  {
    AddScaled(y, tau, rhs.f(Predictor(rhs, tau, y)))
  }

  /**
   * The improved Euler step sees a right-hand side only through its values
   * on states of the right length: two functions that agree there step alike.
   */
  lemma HeunStepAgrees(r1: Rhs, r2: Rhs, tau: real, y: Vec)
    requires Square(r1) && Square(r2) && r1.dimX == r2.dimX && |y| == r1.dimX
    requires forall x :: |x| == |y| ==> r1.f(x) == r2.f(x)
    ensures HeunStep(r1, tau, y) == HeunStep(r2, tau, y)
  {
    assert Predictor(r1, tau, y) == Predictor(r2, tau, y);
  }

  /** Adding a zero multiple changes nothing. */
  lemma AddScaledZero(y: Vec, v: Vec)
    requires |y| == |v|
    ensures AddScaled(y, 0.0, v) == y
  {
    assert forall i :: 0 <= i < |y| ==> AddScaled(y, 0.0, v)[i] == y[i];
  }

  /** With `tau == 0` both steps leave the state as it is. */
  lemma ZeroStepIsIdentity(rhs: Rhs, y: Vec)
    requires Square(rhs) && |y| == rhs.dimX
    ensures EulerStep(rhs, 0.0, y) == y && HeunStep(rhs, 0.0, y) == y
  {
    AddScaledZero(y, rhs.f(y));
    AddScaledZero(y, rhs.f(Predictor(rhs, 0.0, y)));
  }

  /** For a constant right-hand side `c` both steps give `y + tau * c`. */
  lemma ConstantRhsStep(rhs: Rhs, c: Vec, tau: real, y: Vec)
    requires Square(rhs) && |y| == rhs.dimX
    requires |c| == rhs.dimF && forall x :: rhs.f(x) == c
    ensures EulerStep(rhs, tau, y) == AddScaled(y, tau, c)
    ensures HeunStep(rhs, tau, y) == AddScaled(y, tau, c)
  {
    assert rhs.f(y) == c;
    assert rhs.f(Predictor(rhs, tau, y)) == c;
  }

  /** `ExplicitEuler`: one scratch vector `m_vecf` of size `dimF`. */
  class ExplicitEuler {
    const rhs: Rhs
    const vecf: array<real>

    ghost predicate Valid()
    {
      Square(rhs) && vecf.Length == rhs.dimF
    }

    constructor (rhs: Rhs)
      requires Square(rhs)
      ensures this.rhs == rhs && Valid() && fresh(vecf)
    {
      this.rhs := rhs;
      vecf := new real[rhs.dimF];
    }

    /** `evaluate(y, m_vecf); y += tau * m_vecf`. */
    method DoStep(tau: real, y: array<real>)
      requires Valid() && y.Length == rhs.dimX && y != vecf
      modifies y, vecf
      ensures y[..] == EulerStep(rhs, tau, old(y[..]))
      ensures vecf[..] == rhs.f(old(y[..]))
    {
      Assign(vecf, rhs.f(y[..]));
      AddScaledTo(y, tau, vecf[..]);
    }
  }

  /** `ImprovedEuler`: scratch vectors `m_vecf` of size `dimF` and `m_y_hat` of size `dimX`. */
  class ImprovedEuler {
    const rhs: Rhs
    const vecf: array<real>
    const yHat: array<real>

    ghost predicate Valid()
    {
      Square(rhs) && vecf.Length == rhs.dimF && yHat.Length == rhs.dimX && vecf != yHat
    }

    constructor (rhs: Rhs)
      requires Square(rhs)
      ensures this.rhs == rhs && Valid() && fresh(vecf) && fresh(yHat)
    {
      this.rhs := rhs;
      vecf := new real[rhs.dimF];
      yHat := new real[rhs.dimX];
    }

    /**
     * `evaluate(y, m_vecf); m_y_hat = y; m_y_hat += (tau/2) * m_vecf;
     * evaluate(m_y_hat, m_vecf); y += tau * m_vecf`: the second evaluation
     * overwrites `m_vecf` only after the predictor has been formed.
     */
    method DoStep(tau: real, y: array<real>)
      requires Valid() && y.Length == rhs.dimX && y != vecf && y != yHat
      modifies y, vecf, yHat
      ensures y[..] == HeunStep(rhs, tau, old(y[..]))
      ensures yHat[..] == Predictor(rhs, tau, old(y[..]))
      ensures vecf[..] == rhs.f(Predictor(rhs, tau, old(y[..])))
    {
      Assign(vecf, rhs.f(y[..]));
      Assign(yHat, y[..]);
      AddScaledTo(yHat, tau / 2.0, vecf[..]);
      Assign(vecf, rhs.f(yHat[..]));
      AddScaledTo(y, tau, vecf[..]);
    }
  }
}
