/**
 * `MSS_Function<D>` of mechsystem/mass_spring.hpp: the right-hand side of the
 * mass-spring system, `f(x) = M^-1 (m g + spring forces + constraint forces)`
 * row by row, and its Jacobian `df/dx` from the springs.
 *
 * The unknown `x` is the `|masses| x D` row-major matrix of mass positions.
 * The Euclidean norm of the vector library is a parameter `norm`; its square
 * root is not modelled.
 */
module MssFunction {
  import opened Vectors
  import opened MassSpring

  type NormFn = Vec -> real

  /** `norm(v)`. */
  function Length(norm: NormFn, v: Vec): real {
    norm(v)
  }

  /** The penalty stiffness `kp` of a distance constraint. */
  const PenaltyStiffness: real := 10000.0

  /** Constraints and Jacobian terms whose length is below `1e-12` are skipped. */
  const DegenerateLength: real := 0.000000000001

  /** `x` holds one `D`-row per mass of a well-formed registry. */
  predicate Fits(r: Registry, x: seq<real>) {
    Wired(r) && |r.masses| * r.d <= |x|
  }

  predicate Attached(r: Registry, c: Connector) {
    ConnectorIn(c, |r.fixes|, |r.masses|)
  }

  /** The position of a connector: the fix's stored position, or row `nr` of `x`. */
  function EndPos(r: Registry, c: Connector, x: seq<real>): (p: Vec)
    requires Fits(r, x) && Attached(r, c)
    ensures |p| == r.d
    ensures c.kind == FIX ==> p == r.fixes[c.nr].pos
    ensures c.kind == MASS ==> c.nr * r.d + r.d <= |x| && p == Block(x, c.nr, r.d)
  {
    if c.kind == FIX then r.fixes[c.nr].pos
    else BlockInside(c.nr, |r.masses|, r.d); Block(x, c.nr, r.d)
  }

  /** The rows a force table has: one `D`-vector per mass. */
  predicate IsTable(r: Registry, rows: seq<Vec>) {
    |rows| == |r.masses| && forall i :: 0 <= i < |rows| ==> |rows[i]| == r.d
  }

  /** `if (c.type == Connector::MASS) fmat.row(c.nr) += v`. */
  function AddAt(r: Registry, rows: seq<Vec>, c: Connector, v: Vec): (res: seq<Vec>)
    requires IsTable(r, rows) && Attached(r, c) && |v| == r.d
    ensures IsTable(r, res)
  {
    if c.kind == MASS then rows[c.nr := Add(rows[c.nr], v)] else rows
  }

  /** `if (c.type == Connector::MASS) fmat.row(c.nr) -= v`. */
  function SubAt(r: Registry, rows: seq<Vec>, c: Connector, v: Vec): (res: seq<Vec>)
    requires IsTable(r, rows) && Attached(r, c) && |v| == r.d
    ensures IsTable(r, res)
  {
    if c.kind == MASS then rows[c.nr := Sub(rows[c.nr], v)] else rows
  }

  predicate SpringAttached(r: Registry, sp: Spring) {
    Attached(r, sp.c1) && Attached(r, sp.c2)
  }

  predicate ConstraintAttached(r: Registry, dc: DistanceConstraint) {
    Attached(r, dc.c1) && Attached(r, dc.c2)
  }

  /** `norm(p1 - p2)`, the current length of a spring. */
  function SpringLength(r: Registry, sp: Spring, x: seq<real>, norm: NormFn): real
    requires Fits(r, x) && SpringAttached(r, sp)
  {
    Length(norm, Sub(EndPos(r, sp.c1, x), EndPos(r, sp.c2, x)))
  }

  /** Hooke's law: the tension `k (L - L0)` of a spring. */
  function Tension(r: Registry, sp: Spring, x: seq<real>, norm: NormFn): real
    requires Fits(r, x) && SpringAttached(r, sp)
  {
    sp.stiffness * (SpringLength(r, sp, x, norm) - sp.length)
  }

  /** `1/norm(p1 - p2) * (p2 - p1)`: the unit vector from `p1` towards `p2`. */
  function Direction(r: Registry, sp: Spring, x: seq<real>, norm: NormFn): (v: Vec)
    requires Fits(r, x) && SpringAttached(r, sp) && SpringLength(r, sp, x, norm) != 0.0
    ensures |v| == r.d
  {
    Scale(1.0 / SpringLength(r, sp, x, norm), Sub(EndPos(r, sp.c2, x), EndPos(r, sp.c1, x)))
  }

  /** The force on the first endpoint; the second endpoint receives its negative. */
  function SpringForce(r: Registry, sp: Spring, x: seq<real>, norm: NormFn): (v: Vec)
    requires Fits(r, x) && SpringAttached(r, sp) && SpringLength(r, sp, x, norm) != 0.0
    ensures |v| == r.d
  {
    Scale(Tension(r, sp, x, norm), Direction(r, sp, x, norm))
  }

  /**
   * One spring's contribution to the force table. A spring of length zero
   * makes the source divide by zero and leaves non-finite values in its mass
   * rows; those rows are reported by `NonFiniteRows` and the table keeps
   * them as they were.
   */
  function ApplySpring(r: Registry, rows: seq<Vec>, sp: Spring, x: seq<real>, norm: NormFn): (res: seq<Vec>)
    requires Fits(r, x) && IsTable(r, rows) && SpringAttached(r, sp)
    ensures IsTable(r, res)
  {
    if SpringLength(r, sp, x, norm) == 0.0 then rows
    else
      var F := SpringForce(r, sp, x, norm);
      SubAt(r, AddAt(r, rows, sp.c1, F), sp.c2, F)
  }

  predicate SpringsAttached(r: Registry, ss: seq<Spring>) {
    forall k :: 0 <= k < |ss| ==> SpringAttached(r, ss[k])
  }

  predicate ConstraintsAttached(r: Registry, cs: seq<DistanceConstraint>) {
    forall k :: 0 <= k < |cs| ==> ConstraintAttached(r, cs[k])
  }

  /** The springs applied in order. */
  function ApplySprings(r: Registry, rows: seq<Vec>, ss: seq<Spring>, x: seq<real>, norm: NormFn): (res: seq<Vec>)
    requires Fits(r, x) && IsTable(r, rows) && SpringsAttached(r, ss)
    ensures IsTable(r, res)
    decreases |ss|
  {
    if ss == [] then rows
    else ApplySpring(r, ApplySprings(r, rows, ss[..|ss| - 1], x, norm), ss[|ss| - 1], x, norm)
  }

  /** `norm(p1 - p2)`, the current distance a constraint controls. */
  function ConstraintLength(r: Registry, dc: DistanceConstraint, x: seq<real>, norm: NormFn): real
    requires Fits(r, x) && ConstraintAttached(r, dc)
  {
    Length(norm, Sub(EndPos(r, dc.c1, x), EndPos(r, dc.c2, x)))
  }

  /** The penalty force `-kp (L - L_rest) d / L` on the first endpoint, `d = p1 - p2`. */
  function ConstraintForce(r: Registry, dc: DistanceConstraint, x: seq<real>, norm: NormFn): (v: Vec)
    requires Fits(r, x) && ConstraintAttached(r, dc)
    requires ConstraintLength(r, dc, x, norm) >= DegenerateLength
    ensures |v| == r.d
  {
    var d := Sub(EndPos(r, dc.c1, x), EndPos(r, dc.c2, x));
    var L := Length(norm, d);
    var dir := Div(d, L);
    var phi := L - dc.restLength;
    Scale(-PenaltyStiffness * phi, dir)
  }

  /** One constraint's contribution; a degenerate constraint adds nothing. */
  function ApplyConstraint(r: Registry, rows: seq<Vec>, dc: DistanceConstraint, x: seq<real>, norm: NormFn): (res: seq<Vec>)
    requires Fits(r, x) && IsTable(r, rows) && ConstraintAttached(r, dc)
    ensures IsTable(r, res)
  {
    if ConstraintLength(r, dc, x, norm) < DegenerateLength then rows
    else
      var F := ConstraintForce(r, dc, x, norm);
      SubAt(r, AddAt(r, rows, dc.c1, F), dc.c2, F)
  }

  function ApplyConstraints(r: Registry, rows: seq<Vec>, cs: seq<DistanceConstraint>, x: seq<real>, norm: NormFn): (res: seq<Vec>)
    requires Fits(r, x) && IsTable(r, rows) && ConstraintsAttached(r, cs)
    ensures IsTable(r, res)
    decreases |cs|
  {
    if cs == [] then rows
    else ApplyConstraint(r, ApplyConstraints(r, rows, cs[..|cs| - 1], x, norm), cs[|cs| - 1], x, norm)
  }

  /** Row `i` starts as the weight `m_i g`. */
  function GravityRows(r: Registry): (rows: seq<Vec>)
    requires Wired(r)
    ensures IsTable(r, rows)
    ensures forall i :: 0 <= i < |rows| ==> rows[i] == Scale(r.masses[i].mass, r.gravity)
  {
    seq(|r.masses|, i requires 0 <= i < |r.masses| => Scale(r.masses[i].mass, r.gravity))
  }

  /** Row `i` is multiplied by `1/m_i`; a massless row is left as it is (it is non-finite in the source). */
  function ScaleRows(r: Registry, rows: seq<Vec>): (res: seq<Vec>)
    requires IsTable(r, rows)
    ensures IsTable(r, res)
  {
    seq(|rows|, i requires 0 <= i < |rows| =>
      if r.masses[i].mass == 0.0 then rows[i] else Scale(1.0 / r.masses[i].mass, rows[i]))
  }

  /** The accelerations `f(x)`, row `i` for mass `i`. */
  function Forces(r: Registry, x: seq<real>, norm: NormFn): (rows: seq<Vec>)
    requires Fits(r, x)
    ensures IsTable(r, rows)
  {
    var weights := GravityRows(r);
    var sprung := ApplySprings(r, weights, r.springs, x, norm);
    ScaleRows(r, ApplyConstraints(r, sprung, r.constraints, x, norm))
  }

  /** The masses among two endpoints. */
  function MassEnds(c1: Connector, c2: Connector): (s: set<nat>)
    ensures forall i :: i in s <==> (c1.kind == MASS && c1.nr == i) || (c2.kind == MASS && c2.nr == i)
  {
    (if c1.kind == MASS then {c1.nr} else {}) + (if c2.kind == MASS then {c2.nr} else {})
  }

  /** Mass rows touched by a spring of length zero; they are all rows of the table. */
  function ZeroLengthEnds(r: Registry, ss: seq<Spring>, x: seq<real>, norm: NormFn): (s: set<nat>)
    requires Fits(r, x) && SpringsAttached(r, ss)
    ensures forall i :: i in s ==> i < |r.masses|
    decreases |ss|
  {
    if ss == [] then {}
    else
      var last := ss[|ss| - 1];
      ZeroLengthEnds(r, ss[..|ss| - 1], x, norm)
        + (if SpringLength(r, last, x, norm) == 0.0 then MassEnds(last.c1, last.c2) else {})
  }

  function ZeroMassRows(r: Registry, n: nat): (s: set<nat>)
    requires n <= |r.masses|
    ensures forall i: nat :: i in s <==> i < n && r.masses[i].mass == 0.0
  {
    set i: nat | i < n && r.masses[i].mass == 0.0
  }

  lemma ZeroMassRowsStep(r: Registry, i: nat)
    requires i < |r.masses|
    ensures ZeroMassRows(r, i + 1) == ZeroMassRows(r, i) + (if r.masses[i].mass == 0.0 then {i} else {})
  {
    var a, b := ZeroMassRows(r, i + 1), ZeroMassRows(r, i) + (if r.masses[i].mass == 0.0 then {i} else {});
    forall j: nat ensures j in a <==> j in b {
    }
  }

  /** The rows of `f(x)` the source leaves as NaN or infinity. */
  function NonFiniteRows(r: Registry, x: seq<real>, norm: NormFn): set<nat>
    requires Fits(r, x)
  {
    ZeroLengthEnds(r, r.springs, x, norm) + ZeroMassRows(r, |r.masses|)
  }

  // ---------------------------------------------------------------- Jacobian

  /** `norm(p2 - p1)`, the length `evaluateDeriv` uses. */
  function DerivLength(r: Registry, sp: Spring, x: seq<real>, norm: NormFn): real
    requires Fits(r, x) && SpringAttached(r, sp)
  {
    Length(norm, Sub(EndPos(r, sp.c2, x), EndPos(r, sp.c1, x)))
  }

  /**
   * `K_ij = k n_i n_j + (k (L - L0) / L) (delta_ij - n_i n_j)` with
   * `n = (p2 - p1) / L`: the stiffness of a spring between its endpoints.
   */
  function SpringStiffness(r: Registry, sp: Spring, x: seq<real>, norm: NormFn, i: nat, j: nat): real
    requires Fits(r, x) && SpringAttached(r, sp) && i < r.d && j < r.d
    requires DerivLength(r, sp, x, norm) >= DegenerateLength
  {
    var d := Sub(EndPos(r, sp.c2, x), EndPos(r, sp.c1, x));
    var L := Length(norm, d);
    var n := Div(d, L);
    var fmag := sp.stiffness * (L - sp.length);
    var a := fmag / L;
    var dij := n[i] * n[j];
    sp.stiffness * dij + a * ((if i == j then 1.0 else 0.0) - dij)
  }

  /**
   * What one spring writes into block `(rb, cb)` for a stiffness `K`: `-K`
   * into the diagonal block of each mass endpoint, `+K` into the two
   * off-diagonal blocks when both endpoints are masses.
   */
  function BlockTerm(sp: Spring, rb: nat, cb: nat, K: real): real {
    var m1 := sp.c1.kind == MASS;
    var m2 := sp.c2.kind == MASS;
    (if m1 && rb == sp.c1.nr && cb == sp.c1.nr then -K else 0.0)
    + (if m2 && rb == sp.c2.nr && cb == sp.c2.nr then -K else 0.0)
    + (if m1 && m2 && rb == sp.c1.nr && cb == sp.c2.nr then K else 0.0)
    + (if m1 && m2 && rb == sp.c2.nr && cb == sp.c1.nr then K else 0.0)
  }

  /** Entry `(rb*D + i, cb*D + j)` of one spring's contribution; a degenerate spring contributes nothing. */
  function SpringJacobian(r: Registry, sp: Spring, x: seq<real>, norm: NormFn, rb: nat, cb: nat, i: nat, j: nat): real
    requires Fits(r, x) && SpringAttached(r, sp) && i < r.d && j < r.d
  {
    if DerivLength(r, sp, x, norm) < DegenerateLength then 0.0
    else BlockTerm(sp, rb, cb, SpringStiffness(r, sp, x, norm, i, j))
  }

  /** Entry `(rb*D + i, cb*D + j)` of `df/dx` after the springs `ss`. */
  function Jacobian(r: Registry, ss: seq<Spring>, x: seq<real>, norm: NormFn, rb: nat, cb: nat, i: nat, j: nat): real
    requires Fits(r, x) && SpringsAttached(r, ss) && i < r.d && j < r.d
    decreases |ss|
  {
    if ss == [] then 0.0
    else Jacobian(r, ss[..|ss| - 1], x, norm, rb, cb, i, j) + SpringJacobian(r, ss[|ss| - 1], x, norm, rb, cb, i, j)
  }

  /** Entry `(rb*D + i, cb*D + j)` of a matrix, zero when it is outside. */
  function Entry(df: array2<real>, d: nat, rb: nat, i: nat, cb: nat, j: nat): real
    reads df
  {
    if rb * d + i < df.Length0 && cb * d + j < df.Length1 then df[rb * d + i, cb * d + j] else 0.0
  }

  /** The top-left `n*d x n*d` corner of `df` is the Jacobian of the springs `ss`. */
  ghost predicate HoldsJacobian(df: array2<real>, r: Registry, ss: seq<Spring>, x: seq<real>, norm: NormFn)
    reads df
  {
    && Fits(r, x) && SpringsAttached(r, ss)
    && forall rb: nat, i: nat, cb: nat, j: nat :: rb < |r.masses| && cb < |r.masses| && i < r.d && j < r.d ==>
         Entry(df, r.d, rb, i, cb, j) == Jacobian(r, ss, x, norm, rb, cb, i, j)
  }

  /** As `HoldsJacobian`, with the entries `(i, j)` of spring `sp` added for `i < ii`, and for `i == ii, j < jj`. */
  ghost predicate HoldsPartial(df: array2<real>, r: Registry, ss: seq<Spring>, sp: Spring, x: seq<real>, norm: NormFn,
                               ii: nat, jj: nat)
    reads df
  {
    && Fits(r, x) && SpringsAttached(r, ss) && SpringAttached(r, sp)
    && forall rb: nat, i: nat, cb: nat, j: nat :: rb < |r.masses| && cb < |r.masses| && i < r.d && j < r.d ==>
         Entry(df, r.d, rb, i, cb, j) == Jacobian(r, ss, x, norm, rb, cb, i, j)
           + (if i < ii || (i == ii && j < jj) then SpringJacobian(r, sp, x, norm, rb, cb, i, j) else 0.0)
  }

  /** A zero matrix holds the Jacobian of no springs and is zero outside any corner. */
  lemma ZeroHoldsNoSprings(df: array2<real>, r: Registry, x: seq<real>, norm: NormFn, n: nat)
    requires Fits(r, x)
    requires forall i, j :: 0 <= i < df.Length0 && 0 <= j < df.Length1 ==> df[i, j] == 0.0
    ensures HoldsJacobian(df, r, [], x, norm) && ZeroOutside(df, n)
  {
    forall rb: nat, i: nat, cb: nat, j: nat | rb < |r.masses| && cb < |r.masses| && i < r.d && j < r.d
      ensures Entry(df, r.d, rb, i, cb, j) == Jacobian(r, [], x, norm, rb, cb, i, j)
    {
      ZeroEntry(df, r.d, rb, i, cb, j);
    }
  }

  lemma ZeroEntry(df: array2<real>, d: nat, rb: nat, i: nat, cb: nat, j: nat)
    requires forall i, j :: 0 <= i < df.Length0 && 0 <= j < df.Length1 ==> df[i, j] == 0.0
    ensures Entry(df, d, rb, i, cb, j) == 0.0
  {
  }

  /** Every entry outside the top-left `n x n` corner is zero. */
  ghost predicate ZeroOutside(df: array2<real>, n: nat)
    reads df
  {
    forall row, col :: 0 <= row < df.Length0 && 0 <= col < df.Length1 && (n <= row || n <= col) ==> df[row, col] == 0.0
  }

  /** Row-major indices of different blocks or offsets differ. */
  lemma BlockIndexEq(b1: nat, i1: nat, b2: nat, i2: nat, d: nat)
    requires i1 < d && i2 < d
    ensures b1 * d + i1 == b2 * d + i2 <==> b1 == b2 && i1 == i2
  {
    if b1 < b2 {
      MulStep(b1, b2, d);
    } else if b2 < b1 {
      MulStep(b2, b1, d);
    }
  }

  /** `df(rb*D + i, cb*D + j) += v`, inside the top-left `n*D x n*D` corner. */
  method AddEntry(df: array2<real>, n: nat, d: nat, rb: nat, i: nat, cb: nat, j: nat, v: real)
    requires rb < n && cb < n && i < d && j < d && n * d <= df.Length0 && n * d <= df.Length1
    modifies df
    ensures forall b1: nat, i1: nat, b2: nat, j1: nat :: b1 < n && b2 < n && i1 < d && j1 < d ==>
      Entry(df, d, b1, i1, b2, j1) == old(Entry(df, d, b1, i1, b2, j1)) + (if b1 == rb && i1 == i && b2 == cb && j1 == j then v else 0.0)
    ensures forall row, col :: 0 <= row < df.Length0 && 0 <= col < df.Length1 && (n * d <= row || n * d <= col) ==>
      df[row, col] == old(df[row, col])
  {
    BlockInside(rb, n, d);
    BlockInside(cb, n, d);
    df[rb * d + i, cb * d + j] := df[rb * d + i, cb * d + j] + v;
    forall b1: nat, i1: nat, b2: nat, j1: nat | b1 < n && b2 < n && i1 < d && j1 < d
      ensures Entry(df, d, b1, i1, b2, j1) == old(Entry(df, d, b1, i1, b2, j1)) + (if b1 == rb && i1 == i && b2 == cb && j1 == j then v else 0.0)
    {
      BlockInside(b1, n, d);
      BlockInside(b2, n, d);
      BlockIndexEq(b1, i1, rb, i, d);
      BlockIndexEq(b2, j1, cb, j, d);
    }
  }

  /** The four updates of one spring at offsets `(ii, jj)`. */
  method AddSpringEntries(df: array2<real>, n: nat, d: nat, sp: Spring, ii: nat, jj: nat, K: real)
    requires ii < d && jj < d && n * d <= df.Length0 && n * d <= df.Length1
    requires sp.c1.kind == MASS ==> sp.c1.nr < n
    requires sp.c2.kind == MASS ==> sp.c2.nr < n
    modifies df
    ensures forall rb: nat, i: nat, cb: nat, j: nat :: rb < n && cb < n && i < d && j < d ==>
      Entry(df, d, rb, i, cb, j) == old(Entry(df, d, rb, i, cb, j)) + (if i == ii && j == jj then BlockTerm(sp, rb, cb, K) else 0.0)
    ensures forall row, col :: 0 <= row < df.Length0 && 0 <= col < df.Length1 && (n * d <= row || n * d <= col) ==>
      df[row, col] == old(df[row, col])
  {
    if sp.c1.kind == MASS {
      AddEntry(df, n, d, sp.c1.nr, ii, sp.c1.nr, jj, -K);
    }
    if sp.c2.kind == MASS {
      AddEntry(df, n, d, sp.c2.nr, ii, sp.c2.nr, jj, -K);
    }
    if sp.c1.kind == MASS && sp.c2.kind == MASS {
      AddEntry(df, n, d, sp.c1.nr, ii, sp.c2.nr, jj, K);
      AddEntry(df, n, d, sp.c2.nr, ii, sp.c1.nr, jj, K);
    }
  }

  /**
   * `MSS_Function<D>`: evaluates the system it refers to. `DimX` and `DimF`
   * are both `D * |masses|`; the multipliers of the distance constraints have
   * no entries of their own here.
   */
  class MSSFunction {
    const mss: MassSpringSystem

    constructor (mss: MassSpringSystem)
      ensures this.mss == mss
    {
      this.mss := mss;
    }

    function DimX(): nat
      reads mss
    {
      |mss.masses| * mss.D
    }

    function DimF(): nat
      reads mss
    {
      |mss.masses| * mss.D
    }

    /**
     * `evaluate(x, f)`: the rows of `f` are the accelerations `Forces`,
     * except the rows in `nonFinite`, which the source leaves as NaN or
     * infinity; the entries of `f` after row `|masses| - 1` are zero.
     */
    method Evaluate(x: array<real>, f: array<real>, norm: NormFn) returns (nonFinite: set<nat>)
      requires Fits(mss.Snapshot(), x[..]) && DimF() <= f.Length && x != f
      modifies f
      ensures nonFinite == NonFiniteRows(mss.Snapshot(), x[..], norm)
      ensures forall b :: 0 <= b < |mss.masses| && b !in nonFinite ==>
        b * mss.D + mss.D <= f.Length && Block(f[..], b, mss.D) == Forces(mss.Snapshot(), x[..], norm)[b]
      ensures forall j :: DimF() <= j < f.Length ==> f[j] == 0.0
    {
      var r := mss.Snapshot();
      var xs := x[..];
      var n := |mss.masses|;
      Fill(f, 0.0);
      ghost var rows := AddWeights(f, r);
      var zeroLength;
      rows, zeroLength := AddSpringForces(f, r, xs, norm, rows);
      rows := AddConstraintForces(f, r, xs, norm, rows);
      var massless;
      rows, massless := DivideByMass(f, r, rows);
      nonFinite := zeroLength + massless;
      forall b | 0 <= b < n
        ensures b * mss.D + mss.D <= f.Length && Block(f[..], b, mss.D) == rows[b]
      {
        BlockOfPrefix(f[..], n, b, mss.D);
        FlattenBlock(rows, mss.D, b);
      }
    }

    /** `f.row(i) = m_i * g` for every mass, into an all-zero `f`. */
    method AddWeights(f: array<real>, r: Registry) returns (ghost rows: seq<Vec>)
      requires Wired(r) && r.d == mss.D && |r.masses| * r.d <= f.Length
      requires forall j :: 0 <= j < f.Length ==> f[j] == 0.0
      modifies f
      ensures rows == GravityRows(r) && HoldsRows(f, rows, mss.D)
    {
      var D := mss.D;
      var n := |r.masses|;
      rows := [];
      var i := 0;
      while i < n
        invariant 0 <= i <= n && rows == GravityRows(r)[..i]
        invariant HoldsRows(f, rows, D)
      {
        MulStep(i, n, D);
        ghost var before := f[..];
        var weight := Scale(r.masses[i].mass, r.gravity);
        WriteBlock(f, i, D, weight);
        HoldsRowsAppend(before, f, rows, D, weight);
        assert GravityRows(r)[..i + 1] == rows + [weight];
        rows := rows + [weight];
        i := i + 1;
      }
    }

    /** The spring loop of `evaluate`; it also reports the rows a zero-length spring makes non-finite. */
    method AddSpringForces(f: array<real>, r: Registry, xs: seq<real>, norm: NormFn, ghost rows0: seq<Vec>)
      returns (ghost rows: seq<Vec>, zeroLength: set<nat>)
      requires Fits(r, xs) && r.d == mss.D && IsTable(r, rows0) && HoldsRows(f, rows0, mss.D)
      modifies f
      ensures IsTable(r, rows) && HoldsRows(f, rows, mss.D)
      ensures rows == ApplySprings(r, rows0, r.springs, xs, norm)
      ensures zeroLength == ZeroLengthEnds(r, r.springs, xs, norm)
    {
      rows := rows0;
      zeroLength := {};
      var k := 0;
      while k < |r.springs|
        invariant 0 <= k <= |r.springs|
        invariant IsTable(r, rows) && HoldsRows(f, rows, mss.D)
        invariant rows == ApplySprings(r, rows0, r.springs[..k], xs, norm)
        invariant zeroLength == ZeroLengthEnds(r, r.springs[..k], xs, norm)
      {
        assert r.springs[..k + 1][..k] == r.springs[..k];
        var zero;
        rows, zero := AddSpringForce(f, r, xs, norm, rows, r.springs[k]);
        zeroLength := zeroLength + zero;
        k := k + 1;
      }
      assert r.springs[..k] == r.springs;
    }

    /** The constraint loop of `evaluate`: penalty forces, degenerate constraints skipped. */
    method AddConstraintForces(f: array<real>, r: Registry, xs: seq<real>, norm: NormFn, ghost rows0: seq<Vec>)
      returns (ghost rows: seq<Vec>)
      requires Fits(r, xs) && r.d == mss.D && IsTable(r, rows0) && HoldsRows(f, rows0, mss.D)
      modifies f
      ensures IsTable(r, rows) && HoldsRows(f, rows, mss.D)
      ensures rows == ApplyConstraints(r, rows0, r.constraints, xs, norm)
    {
      rows := rows0;
      var k := 0;
      while k < |r.constraints|
        invariant 0 <= k <= |r.constraints|
        invariant IsTable(r, rows) && HoldsRows(f, rows, mss.D)
        invariant rows == ApplyConstraints(r, rows0, r.constraints[..k], xs, norm)
      {
        assert r.constraints[..k + 1][..k] == r.constraints[..k];
        rows := AddConstraintForce(f, r, xs, norm, rows, r.constraints[k]);
        k := k + 1;
      }
      assert r.constraints[..k] == r.constraints;
    }

    /** One pass of the spring loop. */
    method AddSpringForce(f: array<real>, r: Registry, xs: seq<real>, norm: NormFn, ghost rows0: seq<Vec>, sp: Spring)
      returns (ghost rows: seq<Vec>, zero: set<nat>)
      requires Fits(r, xs) && r.d == mss.D && IsTable(r, rows0) && HoldsRows(f, rows0, mss.D)
      requires SpringAttached(r, sp)
      modifies f
      ensures IsTable(r, rows) && HoldsRows(f, rows, mss.D)
      ensures rows == ApplySpring(r, rows0, sp, xs, norm)
      ensures zero == if SpringLength(r, sp, xs, norm) == 0.0 then MassEnds(sp.c1, sp.c2) else {}
    {
      rows := rows0;
      zero := {};
      if SpringLength(r, sp, xs, norm) == 0.0 {
        zero := MassEnds(sp.c1, sp.c2);
      } else {
        var F := SpringForce(r, sp, xs, norm);
        rows := PushRow(f, r, rows, sp.c1, F, true);
        rows := PushRow(f, r, rows, sp.c2, F, false);
      }
    }

    /** One pass of the constraint loop. */
    method AddConstraintForce(f: array<real>, r: Registry, xs: seq<real>, norm: NormFn, ghost rows0: seq<Vec>,
                              dc: DistanceConstraint)
      returns (ghost rows: seq<Vec>)
      requires Fits(r, xs) && r.d == mss.D && IsTable(r, rows0) && HoldsRows(f, rows0, mss.D)
      requires ConstraintAttached(r, dc)
      modifies f
      ensures IsTable(r, rows) && HoldsRows(f, rows, mss.D)
      ensures rows == ApplyConstraint(r, rows0, dc, xs, norm)
    {
      rows := rows0;
      if ConstraintLength(r, dc, xs, norm) >= DegenerateLength {
        var f12 := ConstraintForce(r, dc, xs, norm);
        rows := PushRow(f, r, rows, dc.c1, f12, true);
        rows := PushRow(f, r, rows, dc.c2, f12, false);
      }
    }

    /** `f.row(i) *= 1/m_i`; a massless row is reported instead (the source divides by zero). */
    method DivideByMass(f: array<real>, r: Registry, ghost rows0: seq<Vec>)
      returns (ghost rows: seq<Vec>, massless: set<nat>)
      requires Wired(r) && r.d == mss.D && IsTable(r, rows0) && HoldsRows(f, rows0, mss.D)
      modifies f
      ensures IsTable(r, rows) && HoldsRows(f, rows, mss.D)
      ensures rows == ScaleRows(r, rows0)
      ensures massless == ZeroMassRows(r, |r.masses|)
    {
      var n := |r.masses|;
      rows := rows0;
      massless := {};
      var i := 0;
      while i < n
        invariant 0 <= i <= n
        invariant IsTable(r, rows) && HoldsRows(f, rows, mss.D)
        invariant forall b :: 0 <= b < i ==> rows[b] == ScaleRows(r, rows0)[b]
        invariant forall b :: i <= b < n ==> rows[b] == rows0[b]
        invariant massless == ZeroMassRows(r, i)
      {
        var m := r.masses[i].mass;
        if m == 0.0 {
          massless := massless + {i};
        } else {
          rows := ScaleRow(f, r, rows, i, 1.0 / m);
        }
        ZeroMassRowsStep(r, i);
        i := i + 1;
      }
    }

    /** `f.row(i) *= s` for one row of the table. */
    method ScaleRow(f: array<real>, r: Registry, ghost rows: seq<Vec>, i: nat, s: real) returns (ghost rows': seq<Vec>)
      requires r.d == mss.D && IsTable(r, rows) && HoldsRows(f, rows, mss.D) && i < |rows|
      modifies f
      ensures IsTable(r, rows') && HoldsRows(f, rows', mss.D)
      ensures rows' == rows[i := Scale(s, rows[i])]
    {
      BlockInside(i, |rows|, mss.D);
      ghost var before := f[..];
      ScaleBlock(f, i, mss.D, s);
      HoldsRowsSplice(before, f, rows, mss.D, i, Scale(s, Block(before, i, mss.D)));
      rows' := rows[i := Scale(s, rows[i])];
    }

    /**
     * `evaluateDeriv(x, df)`: block `(rb, cb)` of `df` is the spring
     * Jacobian `Jacobian`; the constraints add nothing and every entry
     * outside the `DimF() x DimX()` corner is zero.
     */
    method EvaluateDeriv(x: array<real>, df: array2<real>, norm: NormFn)
      requires Fits(mss.Snapshot(), x[..]) && DimF() <= df.Length0 && DimX() <= df.Length1
      modifies df
      ensures forall rb: nat, i: nat, cb: nat, j: nat :: rb < |mss.masses| && cb < |mss.masses| && i < mss.D && j < mss.D ==>
        Entry(df, mss.D, rb, i, cb, j) == Jacobian(mss.Snapshot(), mss.springs, x[..], norm, rb, cb, i, j)
      ensures ZeroOutside(df, DimX())
    {
      var r := mss.Snapshot();
      var xs := x[..];
      FillMatrix(df, 0.0);
      ZeroHoldsNoSprings(df, r, xs, norm, DimX());
      AddSpringJacobians(df, r, xs, norm);
    }

    /** The spring loop of `evaluateDeriv`: the Jacobian blocks of every spring, added in order. */
    method AddSpringJacobians(df: array2<real>, r: Registry, xs: seq<real>, norm: NormFn)
      requires r.d == mss.D && |r.masses| == |mss.masses| && Fits(r, xs)
      requires HoldsJacobian(df, r, [], xs, norm)
      requires DimF() <= df.Length0 && DimX() <= df.Length1 && ZeroOutside(df, DimX())
      modifies df
      ensures HoldsJacobian(df, r, r.springs, xs, norm) && ZeroOutside(df, DimX())
    {
      var s := 0;
      while s < |r.springs|
        invariant 0 <= s <= |r.springs|
        invariant HoldsJacobian(df, r, r.springs[..s], xs, norm)
        invariant ZeroOutside(df, DimX())
      {
        var sp := r.springs[s];
        assert r.springs[..s + 1] == r.springs[..s] + [sp];
        AddSpringJacobian(df, r, xs, norm, r.springs[..s], sp);
        s := s + 1;
      }
      assert r.springs[..s] == r.springs;
    }

    /** One pass of the spring loop of `evaluateDeriv`. */
    method AddSpringJacobian(df: array2<real>, r: Registry, xs: seq<real>, norm: NormFn, ghost done: seq<Spring>, sp: Spring)
      requires r.d == mss.D && |r.masses| == |mss.masses|
      requires HoldsJacobian(df, r, done, xs, norm) && SpringAttached(r, sp)
      requires DimF() <= df.Length0 && DimX() <= df.Length1 && ZeroOutside(df, DimX())
      modifies df
      ensures HoldsJacobian(df, r, done + [sp], xs, norm) && ZeroOutside(df, DimX())
    {
      var n := |r.masses|;
      var D := r.d;
      assert (done + [sp])[..|done|] == done;
      if DerivLength(r, sp, xs, norm) >= DegenerateLength {
        var i := 0;
        while i < D
          invariant 0 <= i <= D
          invariant HoldsPartial(df, r, done, sp, xs, norm, i, 0) && ZeroOutside(df, DimX())
        {
          var j := 0;
          while j < D
            invariant 0 <= j <= D
            invariant HoldsPartial(df, r, done, sp, xs, norm, i, j) && ZeroOutside(df, DimX())
          {
            var Kij := SpringStiffness(r, sp, xs, norm, i, j);
            AddSpringEntries(df, n, D, sp, i, j, Kij);
            j := j + 1;
          }
          i := i + 1;
        }
      }
    }

    /** `fmat.row(c.nr) += v` (`add`) or `-= v` for a mass endpoint; a fix is left alone. */
    method PushRow(f: array<real>, ghost r: Registry, ghost rows: seq<Vec>, c: Connector, v: Vec, add: bool)
      returns (ghost rows': seq<Vec>)
      requires Wired(r) && r.d == mss.D && IsTable(r, rows) && HoldsRows(f, rows, mss.D)
      requires Attached(r, c) && |v| == mss.D
      modifies f
      ensures IsTable(r, rows') && HoldsRows(f, rows', mss.D)
      ensures rows' == if add then AddAt(r, rows, c, v) else SubAt(r, rows, c, v)
    {
      rows' := rows;
      if c.kind == MASS {
        BlockInside(c.nr, |rows|, mss.D);
        ghost var before := f[..];
        if add {
          AddToBlock(f, c.nr, mss.D, v);
          HoldsRowsSplice(before, f, rows, mss.D, c.nr, Add(Block(before, c.nr, mss.D), v));
          rows' := rows[c.nr := Add(rows[c.nr], v)];
        } else {
          SubFromBlock(f, c.nr, mss.D, v);
          HoldsRowsSplice(before, f, rows, mss.D, c.nr, Sub(Block(before, c.nr, mss.D), v));
          rows' := rows[c.nr := Sub(rows[c.nr], v)];
        }
      }
    }
  }
}
