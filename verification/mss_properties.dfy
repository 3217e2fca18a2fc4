/**
 * Properties of the force table and the Jacobian that `MSS_Function<D>`
 * assembles: what a spring touches, conservation of the internal forces,
 * free fall, the degenerate cases and the symmetry of `df/dx`.
 */
module MssProperties {
  import opened Vectors
  import opened MassSpring
  import opened MssFunction

  // ------------------------------------------------------------ locality

  /** A spring only changes the rows of its mass endpoints. */
  lemma {:induction false} SpringsTouchOnlyTheirMasses(r: Registry, rows: seq<Vec>, ss: seq<Spring>, x: seq<real>,
                                                        norm: NormFn, i: nat)
    requires Fits(r, x) && IsTable(r, rows) && SpringsAttached(r, ss) && i < |rows|
    requires forall k :: 0 <= k < |ss| ==> i !in MassEnds(ss[k].c1, ss[k].c2)
    ensures ApplySprings(r, rows, ss, x, norm)[i] == rows[i]
    decreases |ss|
  {
    if ss != [] {
      SpringsTouchOnlyTheirMasses(r, rows, ss[..|ss| - 1], x, norm, i);
    }
  }

  /** A constraint only changes the rows of its mass endpoints. */
  lemma {:induction false} ConstraintsTouchOnlyTheirMasses(r: Registry, rows: seq<Vec>, cs: seq<DistanceConstraint>,
                                                            x: seq<real>, norm: NormFn, i: nat)
    requires Fits(r, x) && IsTable(r, rows) && ConstraintsAttached(r, cs) && i < |rows|
    requires forall k :: 0 <= k < |cs| ==> i !in MassEnds(cs[k].c1, cs[k].c2)
    ensures ApplyConstraints(r, rows, cs, x, norm)[i] == rows[i]
    decreases |cs|
  {
    if cs != [] {
      ConstraintsTouchOnlyTheirMasses(r, rows, cs[..|cs| - 1], x, norm, i);
    }
  }

  /** A mass row is non-finite through the springs exactly when a spring of length zero ends at it. */
  lemma ZeroLengthEndsExactly(r: Registry, ss: seq<Spring>, x: seq<real>, norm: NormFn, i: nat)
    requires Fits(r, x) && SpringsAttached(r, ss)
    ensures i in ZeroLengthEnds(r, ss, x, norm) <==>
      exists k :: 0 <= k < |ss| && SpringLength(r, ss[k], x, norm) == 0.0 && i in MassEnds(ss[k].c1, ss[k].c2)
  {
    if i in ZeroLengthEnds(r, ss, x, norm) {
      ZeroLengthEndHasSpring(r, ss, x, norm, i);
    }
    forall k | 0 <= k < |ss| && SpringLength(r, ss[k], x, norm) == 0.0 && i in MassEnds(ss[k].c1, ss[k].c2)
      ensures i in ZeroLengthEnds(r, ss, x, norm)
    {
      ZeroLengthSpringEnds(r, ss, x, norm, k, i);
    }
  }

  /** Each row of `ZeroLengthEnds` is the mass end of some spring of length zero. */
  lemma {:induction false} ZeroLengthEndHasSpring(r: Registry, ss: seq<Spring>, x: seq<real>, norm: NormFn, i: nat)
    requires Fits(r, x) && SpringsAttached(r, ss) && i in ZeroLengthEnds(r, ss, x, norm)
    ensures exists k :: 0 <= k < |ss| && SpringLength(r, ss[k], x, norm) == 0.0 && i in MassEnds(ss[k].c1, ss[k].c2)
    decreases |ss|
  {
    var init := ss[..|ss| - 1];
    if i in ZeroLengthEnds(r, init, x, norm) {
      ZeroLengthEndHasSpring(r, init, x, norm, i);
      var k :| 0 <= k < |init| && SpringLength(r, init[k], x, norm) == 0.0 && i in MassEnds(init[k].c1, init[k].c2);
      assert ss[k] == init[k];
    } else {
      assert SpringLength(r, ss[|ss| - 1], x, norm) == 0.0 && i in MassEnds(ss[|ss| - 1].c1, ss[|ss| - 1].c2);
    }
  }

  /** Both mass ends of a spring of length zero are rows of `ZeroLengthEnds`. */
  lemma {:induction false} ZeroLengthSpringEnds(r: Registry, ss: seq<Spring>, x: seq<real>, norm: NormFn, k: nat, i: nat)
    requires Fits(r, x) && SpringsAttached(r, ss) && k < |ss|
    requires SpringLength(r, ss[k], x, norm) == 0.0 && i in MassEnds(ss[k].c1, ss[k].c2)
    ensures i in ZeroLengthEnds(r, ss, x, norm)
    decreases |ss|
  {
    var init := ss[..|ss| - 1];
    if k < |init| {
      assert init[k] == ss[k];
      ZeroLengthSpringEnds(r, init, x, norm, k, i);
    }
  }

  /**
   * A mass that no spring and no constraint touches falls freely: its row of
   * `f(x)` is `g`, and it is finite when its mass is not zero.
   */
  lemma DetachedMassFalls(r: Registry, x: seq<real>, norm: NormFn, i: nat)
    requires Fits(r, x) && i < |r.masses| && r.masses[i].mass != 0.0
    requires forall k :: 0 <= k < |r.springs| ==> i !in MassEnds(r.springs[k].c1, r.springs[k].c2)
    requires forall k :: 0 <= k < |r.constraints| ==> i !in MassEnds(r.constraints[k].c1, r.constraints[k].c2)
    ensures i !in NonFiniteRows(r, x, norm)
    ensures Forces(r, x, norm)[i] == r.gravity
  {
    var weights := GravityRows(r);
    var sprung := ApplySprings(r, weights, r.springs, x, norm);
    SpringsTouchOnlyTheirMasses(r, weights, r.springs, x, norm, i);
    ConstraintsTouchOnlyTheirMasses(r, sprung, r.constraints, x, norm, i);
    ZeroLengthEndsExactly(r, r.springs, x, norm, i);
    var m := r.masses[i].mass;
    assert Forces(r, x, norm)[i] == Scale(1.0 / m, Scale(m, r.gravity));
    ScaleInverse(m, r.gravity);
  }

  // ------------------------------------------------------- conservation

  /** Component `k` summed over all rows. */
  function ComponentSum(rows: seq<Vec>, k: nat): real
    requires forall i :: 0 <= i < |rows| ==> k < |rows[i]|
    decreases |rows|
  {
    if rows == [] then 0.0 else ComponentSum(rows[..|rows| - 1], k) + rows[|rows| - 1][k]
  }

  /** Replacing one row changes the sum by the difference. */
  lemma {:induction false} ComponentSumUpdate(rows: seq<Vec>, b: nat, w: Vec, k: nat)
    requires forall i :: 0 <= i < |rows| ==> k < |rows[i]|
    requires b < |rows| && k < |w|
    ensures ComponentSum(rows[b := w], k) == ComponentSum(rows, k) - rows[b][k] + w[k]
    decreases |rows|
  {
    var n := |rows|;
    var rows' := rows[b := w];
    assert rows'[..n - 1] == if b < n - 1 then rows[..n - 1][b := w] else rows[..n - 1];
    if b < n - 1 {
      ComponentSumUpdate(rows[..n - 1], b, w, k);
    }
  }

  /** Both endpoints are masses: the force acts inside the system. */
  predicate Internal(c1: Connector, c2: Connector) {
    c1.kind == MASS && c2.kind == MASS
  }

  /** `+F` on one mass and `-F` on another leave the total unchanged. */
  lemma PairConserves(r: Registry, rows: seq<Vec>, c1: Connector, c2: Connector, F: Vec, k: nat)
    requires IsTable(r, rows) && Attached(r, c1) && Attached(r, c2) && |F| == r.d && k < r.d
    requires Internal(c1, c2)
    ensures ComponentSum(SubAt(r, AddAt(r, rows, c1, F), c2, F), k) == ComponentSum(rows, k)
  {
    var rows1 := AddAt(r, rows, c1, F);
    ComponentSumUpdate(rows, c1.nr, Add(rows[c1.nr], F), k);
    ComponentSumUpdate(rows1, c2.nr, Sub(rows1[c2.nr], F), k);
  }

  /** Springs between masses only exchange forces: the sum of each component is kept (Newton's third law). */
  lemma {:induction false} InternalSpringsConserve(r: Registry, rows: seq<Vec>, ss: seq<Spring>, x: seq<real>,
                                                    norm: NormFn, k: nat)
    requires Fits(r, x) && IsTable(r, rows) && SpringsAttached(r, ss) && k < r.d
    requires forall q :: 0 <= q < |ss| ==> Internal(ss[q].c1, ss[q].c2)
    ensures ComponentSum(ApplySprings(r, rows, ss, x, norm), k) == ComponentSum(rows, k)
    decreases |ss|
  {
    if ss != [] {
      var sp := ss[|ss| - 1];
      var before := ApplySprings(r, rows, ss[..|ss| - 1], x, norm);
      InternalSpringsConserve(r, rows, ss[..|ss| - 1], x, norm, k);
      if SpringLength(r, sp, x, norm) != 0.0 {
        PairConserves(r, before, sp.c1, sp.c2, SpringForce(r, sp, x, norm), k);
      }
    }
  }

  /** Constraints between masses only exchange forces as well. */
  lemma {:induction false} InternalConstraintsConserve(r: Registry, rows: seq<Vec>, cs: seq<DistanceConstraint>,
                                                        x: seq<real>, norm: NormFn, k: nat)
    requires Fits(r, x) && IsTable(r, rows) && ConstraintsAttached(r, cs) && k < r.d
    requires forall q :: 0 <= q < |cs| ==> Internal(cs[q].c1, cs[q].c2)
    ensures ComponentSum(ApplyConstraints(r, rows, cs, x, norm), k) == ComponentSum(rows, k)
    decreases |cs|
  {
    if cs != [] {
      var dc := cs[|cs| - 1];
      var before := ApplyConstraints(r, rows, cs[..|cs| - 1], x, norm);
      InternalConstraintsConserve(r, rows, cs[..|cs| - 1], x, norm, k);
      if ConstraintLength(r, dc, x, norm) >= DegenerateLength {
        PairConserves(r, before, dc.c1, dc.c2, ConstraintForce(r, dc, x, norm), k);
      }
    }
  }

  /**
   * In a system with no fixes in its springs and constraints the net force
   * on all masses together is the total weight: `sum_i m_i f_i(x) = (sum_i m_i) g`
   * before the division by the masses.
   */
  lemma NetForceIsWeight(r: Registry, x: seq<real>, norm: NormFn, k: nat)
    requires Fits(r, x) && k < r.d
    requires forall q :: 0 <= q < |r.springs| ==> Internal(r.springs[q].c1, r.springs[q].c2)
    requires forall q :: 0 <= q < |r.constraints| ==> Internal(r.constraints[q].c1, r.constraints[q].c2)
    ensures ComponentSum(ApplyConstraints(r, ApplySprings(r, GravityRows(r), r.springs, x, norm), r.constraints, x, norm), k)
         == ComponentSum(GravityRows(r), k)
  {
    var weights := GravityRows(r);
    InternalSpringsConserve(r, weights, r.springs, x, norm, k);
    InternalConstraintsConserve(r, ApplySprings(r, weights, r.springs, x, norm), r.constraints, x, norm, k);
  }

  /** A spring at its rest length pulls on nothing. */
  lemma RelaxedSpringIsInert(r: Registry, rows: seq<Vec>, sp: Spring, x: seq<real>, norm: NormFn)
    requires Fits(r, x) && IsTable(r, rows) && SpringAttached(r, sp)
    requires SpringLength(r, sp, x, norm) == sp.length
    ensures ApplySpring(r, rows, sp, x, norm) == rows
  {
    if sp.length != 0.0 {
      var F := SpringForce(r, sp, x, norm);
      assert Tension(r, sp, x, norm) == 0.0;
      assert F == Zero(r.d);
      if sp.c1.kind == MASS {
        assert Add(rows[sp.c1.nr], F) == rows[sp.c1.nr];
      }
      var rows1 := AddAt(r, rows, sp.c1, F);
      assert rows1 == rows;
      if sp.c2.kind == MASS {
        assert Sub(rows1[sp.c2.nr], F) == rows1[sp.c2.nr];
      }
    }
  }

  // ------------------------------------------------------------ Jacobian

  /**
   * The two routines treat a spring of length zero differently: `evaluate`
   * divides by its length and leaves its mass rows non-finite, while
   * `evaluateDeriv` skips it.
   */
  lemma ZeroLengthSpringContrast(r: Registry, x: seq<real>, norm: NormFn, q: nat, rb: nat, cb: nat, i: nat, j: nat)
    requires Fits(r, x) && q < |r.springs| && i < r.d && j < r.d
    requires SpringLength(r, r.springs[q], x, norm) == 0.0 && DerivLength(r, r.springs[q], x, norm) == 0.0
    ensures MassEnds(r.springs[q].c1, r.springs[q].c2) <= NonFiniteRows(r, x, norm)
    ensures SpringJacobian(r, r.springs[q], x, norm, rb, cb, i, j) == 0.0
  {
    forall m | m in MassEnds(r.springs[q].c1, r.springs[q].c2)
      ensures m in NonFiniteRows(r, x, norm)
    {
      ZeroLengthEndsExactly(r, r.springs, x, norm, m);
    }
  }

  /** `df/dx` is symmetric: entry `(rb*D + i, cb*D + j)` equals entry `(cb*D + j, rb*D + i)`. */
  lemma {:induction false} JacobianSymmetric(r: Registry, ss: seq<Spring>, x: seq<real>, norm: NormFn,
                                              rb: nat, cb: nat, i: nat, j: nat)
    requires Fits(r, x) && SpringsAttached(r, ss) && i < r.d && j < r.d
    ensures Jacobian(r, ss, x, norm, rb, cb, i, j) == Jacobian(r, ss, x, norm, cb, rb, j, i)
    decreases |ss|
  {
    if ss != [] {
      var sp := ss[|ss| - 1];
      JacobianSymmetric(r, ss[..|ss| - 1], x, norm, rb, cb, i, j);
      if DerivLength(r, sp, x, norm) >= DegenerateLength {
        assert SpringStiffness(r, sp, x, norm, i, j) == SpringStiffness(r, sp, x, norm, j, i);
      }
    }
  }

  /** A block row of `df/dx` is zero unless a spring ends at that mass. */
  lemma {:induction false} JacobianRowOfUnsprungMass(r: Registry, ss: seq<Spring>, x: seq<real>, norm: NormFn,
                                                      rb: nat, cb: nat, i: nat, j: nat)
    requires Fits(r, x) && SpringsAttached(r, ss) && i < r.d && j < r.d
    requires forall q :: 0 <= q < |ss| ==> rb !in MassEnds(ss[q].c1, ss[q].c2)
    ensures Jacobian(r, ss, x, norm, rb, cb, i, j) == 0.0
    decreases |ss|
  {
    if ss != [] {
      JacobianRowOfUnsprungMass(r, ss[..|ss| - 1], x, norm, rb, cb, i, j);
    }
  }

  /** `sum_{cb < n} Jacobian(rb, cb, i, j)`. */
  function BlockRowSum(r: Registry, ss: seq<Spring>, x: seq<real>, norm: NormFn, rb: nat, i: nat, j: nat, n: nat): real
    requires Fits(r, x) && SpringsAttached(r, ss) && i < r.d && j < r.d
  {
    if n == 0 then 0.0 else BlockRowSum(r, ss, x, norm, rb, i, j, n - 1) + Jacobian(r, ss, x, norm, rb, n - 1, i, j)
  }

  /** `sum_{cb < n} SpringJacobian(rb, cb, i, j)` of one spring. */
  function SpringRowSum(r: Registry, sp: Spring, x: seq<real>, norm: NormFn, rb: nat, i: nat, j: nat, n: nat): real
    requires Fits(r, x) && SpringAttached(r, sp) && i < r.d && j < r.d
  {
    if n == 0 then 0.0 else SpringRowSum(r, sp, x, norm, rb, i, j, n - 1) + SpringJacobian(r, sp, x, norm, rb, n - 1, i, j)
  }

  lemma {:induction false} BlockRowSumSplit(r: Registry, ss: seq<Spring>, x: seq<real>, norm: NormFn,
                                             rb: nat, i: nat, j: nat, n: nat)
    requires Fits(r, x) && SpringsAttached(r, ss) && ss != [] && i < r.d && j < r.d
    ensures BlockRowSum(r, ss, x, norm, rb, i, j, n)
         == BlockRowSum(r, ss[..|ss| - 1], x, norm, rb, i, j, n) + SpringRowSum(r, ss[|ss| - 1], x, norm, rb, i, j, n)
  {
    if n > 0 {
      BlockRowSumSplit(r, ss, x, norm, rb, i, j, n - 1);
    }
  }

  /** The four blocks of one spring summed over the first `n` block columns. */
  lemma {:induction false} SpringRowSumClosed(r: Registry, sp: Spring, x: seq<real>, norm: NormFn,
                                               rb: nat, i: nat, j: nat, n: nat)
    requires Fits(r, x) && SpringAttached(r, sp) && i < r.d && j < r.d
    requires Internal(sp.c1, sp.c2) && DerivLength(r, sp, x, norm) >= DegenerateLength
    ensures var K := SpringStiffness(r, sp, x, norm, i, j);
      SpringRowSum(r, sp, x, norm, rb, i, j, n)
        == (if rb == sp.c1.nr && sp.c1.nr < n then -K else 0.0) + (if rb == sp.c2.nr && sp.c2.nr < n then -K else 0.0)
         + (if rb == sp.c1.nr && sp.c2.nr < n then K else 0.0) + (if rb == sp.c2.nr && sp.c1.nr < n then K else 0.0)
  {
    if n > 0 {
      SpringRowSumClosed(r, sp, x, norm, rb, i, j, n - 1);
    }
  }

  /**
   * When every spring joins two masses, moving all masses by the same
   * vector changes no spring force: every block row of `df/dx` sums to zero.
   */
  lemma {:induction false} RigidTranslationInKernel(r: Registry, ss: seq<Spring>, x: seq<real>, norm: NormFn,
                                                     rb: nat, i: nat, j: nat)
    requires Fits(r, x) && SpringsAttached(r, ss) && i < r.d && j < r.d
    requires forall q :: 0 <= q < |ss| ==> Internal(ss[q].c1, ss[q].c2)
    ensures BlockRowSum(r, ss, x, norm, rb, i, j, |r.masses|) == 0.0
    decreases |ss|
  {
    var n := |r.masses|;
    if ss == [] {
      JacobianRowOfUnsprungMass(r, ss, x, norm, rb, 0, i, j);
      ZeroSum(r, ss, x, norm, rb, i, j, n);
    } else {
      var sp := ss[|ss| - 1];
      RigidTranslationInKernel(r, ss[..|ss| - 1], x, norm, rb, i, j);
      BlockRowSumSplit(r, ss, x, norm, rb, i, j, n);
      if DerivLength(r, sp, x, norm) >= DegenerateLength {
        SpringRowSumClosed(r, sp, x, norm, rb, i, j, n);
      } else {
        ZeroSpringSum(r, sp, x, norm, rb, i, j, n);
      }
    }
  }

  lemma {:induction false} ZeroSum(r: Registry, ss: seq<Spring>, x: seq<real>, norm: NormFn, rb: nat, i: nat, j: nat, n: nat)
    requires Fits(r, x) && ss == [] && i < r.d && j < r.d
    ensures BlockRowSum(r, ss, x, norm, rb, i, j, n) == 0.0
  {
    if n > 0 {
      ZeroSum(r, ss, x, norm, rb, i, j, n - 1);
    }
  }

  lemma {:induction false} ZeroSpringSum(r: Registry, sp: Spring, x: seq<real>, norm: NormFn, rb: nat, i: nat, j: nat, n: nat)
    requires Fits(r, x) && SpringAttached(r, sp) && i < r.d && j < r.d
    requires DerivLength(r, sp, x, norm) < DegenerateLength
    ensures SpringRowSum(r, sp, x, norm, rb, i, j, n) == 0.0
  {
    if n > 0 {
      ZeroSpringSum(r, sp, x, norm, rb, i, j, n - 1);
    }
  }
}
