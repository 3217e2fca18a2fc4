/**
 * The mechanical entities and the append-only `MassSpringSystem<D>` registry
 * of mechsystem/mass_spring.hpp. `Vec<D>` is a `seq<real>` of length `D`.
 */
module MassSpring {
  import opened Vectors

  /** `Connector::CONTYPE`. */
  datatype ConType = FIX | MASS

  /** A tagged index into the fix array or the mass array of one system. */
  datatype Connector = Connector(kind: ConType, nr: nat)

  datatype Mass = Mass(mass: real, pos: Vec, vel: Vec, acc: Vec)

  datatype Fix = Fix(pos: Vec)

  datatype Spring = Spring(length: real, stiffness: real, c1: Connector, c2: Connector)

  datatype DistanceConstraint = DistanceConstraint(c1: Connector, c2: Connector, restLength: real)

  predicate MassHasDim(m: Mass, d: nat) {
    |m.pos| == d && |m.vel| == d && |m.acc| == d
  }

  predicate MassesHaveDim(ms: seq<Mass>, d: nat) {
    forall i :: 0 <= i < |ms| ==> MassHasDim(ms[i], d)
  }

  predicate FixesHaveDim(fs: seq<Fix>, d: nat) {
    forall i :: 0 <= i < |fs| ==> |fs[i].pos| == d
  }

  /**
   * A mass given only its mass and position (aggregate initialisation of
   * `Mass<D>`): the member initialisers `vel = 0.0`, `acc = 0.0` apply.
   */
  function NewMass(m: real, p: Vec): (r: Mass)
    ensures r.mass == m && r.pos == p
    ensures MassHasDim(r, |p|) && IsZero(r.vel) && IsZero(r.acc)
  {
    Mass(m, p, Zero(|p|), Zero(|p|))
  }

  /** The contents of a `MassSpringSystem<D>` at one moment, as a value. */
  datatype Registry = Registry(d: nat, fixes: seq<Fix>, masses: seq<Mass>, springs: seq<Spring>,
                               constraints: seq<DistanceConstraint>, gravity: Vec)

  /** A connector refers to an existing fix or mass. */
  predicate ConnectorIn(c: Connector, nFixes: nat, nMasses: nat) {
    match c.kind
    case FIX => c.nr < nFixes
    case MASS => c.nr < nMasses
  }

  predicate SpringsIn(ss: seq<Spring>, nFixes: nat, nMasses: nat) {
    forall i :: 0 <= i < |ss| ==> ConnectorIn(ss[i].c1, nFixes, nMasses) && ConnectorIn(ss[i].c2, nFixes, nMasses)
  }

  predicate ConstraintsIn(cs: seq<DistanceConstraint>, nFixes: nat, nMasses: nat) {
    forall i :: 0 <= i < |cs| ==> ConnectorIn(cs[i].c1, nFixes, nMasses) && ConnectorIn(cs[i].c2, nFixes, nMasses)
  }

  /**
   * Every vector has `d` entries and every spring and constraint names an
   * existing fix or mass: what the force assembly indexes without checking.
   */
  predicate Wired(r: Registry) {
    && |r.gravity| == r.d && FixesHaveDim(r.fixes, r.d) && MassesHaveDim(r.masses, r.d)
    && SpringsIn(r.springs, |r.fixes|, |r.masses|)
    && ConstraintsIn(r.constraints, |r.fixes|, |r.masses|)
  }

  /** Registries only grow, so a connector stays valid once it is valid. */
  lemma ConnectorStaysIn(c: Connector, f: nat, m: nat, f': nat, m': nat)
    requires ConnectorIn(c, f, m) && f <= f' && m <= m'
    ensures ConnectorIn(c, f', m')
  {
  }

  /** Rows of the flat position, velocity and acceleration vectors. */
  function PosRows(ms: seq<Mass>): (r: seq<Vec>)
    ensures |r| == |ms| && forall i :: 0 <= i < |ms| ==> r[i] == ms[i].pos
  {
    seq(|ms|, i requires 0 <= i < |ms| => ms[i].pos)
  }

  function VelRows(ms: seq<Mass>): (r: seq<Vec>)
    ensures |r| == |ms| && forall i :: 0 <= i < |ms| ==> r[i] == ms[i].vel
  {
    seq(|ms|, i requires 0 <= i < |ms| => ms[i].vel)
  }

  function AccRows(ms: seq<Mass>): (r: seq<Vec>)
    ensures |r| == |ms| && forall i :: 0 <= i < |ms| ==> r[i] == ms[i].acc
  {
    seq(|ms|, i requires 0 <= i < |ms| => ms[i].acc)
  }

  /** The masses after `setState`: row `i` of each flat vector becomes mass `i`'s pos, vel, acc. */
  function WithState(ms: seq<Mass>, x: seq<real>, dx: seq<real>, ddx: seq<real>, d: nat): (r: seq<Mass>)
    requires |ms| * d <= |x| && |ms| * d <= |dx| && |ms| * d <= |ddx|
    ensures |r| == |ms| && MassesHaveDim(r, d)
    ensures forall i :: 0 <= i < |ms| ==> r[i].mass == ms[i].mass
  {
    seq(|ms|, i requires 0 <= i < |ms| =>
      BlockInside(i, |ms|, d);
      Mass(ms[i].mass, Block(x, i, d), Block(dx, i, d), Block(ddx, i, d)))
  }

  /** `getState` followed by `setState` with the same vectors leaves every mass unchanged. */
  lemma {:induction false} GetSetRoundTrip(ms: seq<Mass>, d: nat, x: seq<real>, dx: seq<real>, ddx: seq<real>)
    requires MassesHaveDim(ms, d)
    requires |ms| * d <= |x| && |ms| * d <= |dx| && |ms| * d <= |ddx|
    requires x[..|ms| * d] == Flatten(PosRows(ms), d)
    requires dx[..|ms| * d] == Flatten(VelRows(ms), d)
    requires ddx[..|ms| * d] == Flatten(AccRows(ms), d)
    ensures WithState(ms, x, dx, ddx, d) == ms
  {
    var r := WithState(ms, x, dx, ddx, d);
    forall i | 0 <= i < |ms| ensures r[i] == ms[i] {
      BlockOfPrefix(x, |ms|, i, d);
      BlockOfPrefix(dx, |ms|, i, d);
      BlockOfPrefix(ddx, |ms|, i, d);
      FlattenBlock(PosRows(ms), d, i);
      FlattenBlock(VelRows(ms), d, i);
      FlattenBlock(AccRows(ms), d, i);
    }
  }

  /** `setState` followed by `getState` gives back the first `|masses|*D` entries of the vectors. */
  lemma SetGetRoundTrip(ms: seq<Mass>, d: nat, x: seq<real>, dx: seq<real>, ddx: seq<real>)
    requires |ms| * d <= |x| && |ms| * d <= |dx| && |ms| * d <= |ddx|
    ensures Flatten(PosRows(WithState(ms, x, dx, ddx, d)), d) == x[..|ms| * d]
    ensures Flatten(VelRows(WithState(ms, x, dx, ddx, d)), d) == dx[..|ms| * d]
    ensures Flatten(AccRows(WithState(ms, x, dx, ddx, d)), d) == ddx[..|ms| * d]
  {
    var r := WithState(ms, x, dx, ddx, d);
    forall b | 0 <= b < |ms|
      ensures b * d + d <= |ms| * d
      ensures Block(x[..|ms| * d], b, d) == PosRows(r)[b]
      ensures Block(dx[..|ms| * d], b, d) == VelRows(r)[b]
      ensures Block(ddx[..|ms| * d], b, d) == AccRows(r)[b]
    {
      BlockOfPrefix(x, |ms|, b, d);
      BlockOfPrefix(dx, |ms|, b, d);
      BlockOfPrefix(ddx, |ms|, b, d);
    }
    FlattenUnique(PosRows(r), d, x[..|ms| * d]);
    FlattenUnique(VelRows(r), d, dx[..|ms| * d]);
    FlattenUnique(AccRows(r), d, ddx[..|ms| * d]);
  }

  /** The first `|rows|` blocks of `a` hold `rows`; the rest of `a` still holds `orig`. */
  ghost predicate RowsWritten(a: array<real>, orig: seq<real>, rows: seq<Vec>, d: nat)
    reads a
  {
    && (forall j :: 0 <= j < |rows| ==> |rows[j]| == d)
    && |rows| * d <= |orig|
    && a[..] == Flatten(rows, d) + orig[|rows| * d..]
  }

  /** Once all rows are written, the front of `a` is their flattening and the rest is as it was. */
  lemma RowsWrittenSplit(a: array<real>, orig: seq<real>, rows: seq<Vec>, d: nat)
    requires RowsWritten(a, orig, rows, d)
    ensures a[..|rows| * d] == Flatten(rows, d) && a[|rows| * d..] == orig[|rows| * d..]
  {
  }

  /** `MassSpringSystem<D>`: four append-only registries and a gravity vector. */
  class MassSpringSystem {
    const D: nat
    var fixes: seq<Fix>
    var masses: seq<Mass>
    var springs: seq<Spring>
    var constraints: seq<DistanceConstraint>
    var gravity: Vec

    /** Every `Vec<D>` held by the system has `D` entries. */
    predicate Valid()
      reads this
    {
      |gravity| == D && FixesHaveDim(fixes, D) && MassesHaveDim(masses, D)
    }

    function Snapshot(): (r: Registry)
      reads this
      ensures r.d == D && r.masses == masses && r.fixes == fixes && r.springs == springs
      ensures r.constraints == constraints && r.gravity == gravity
    {
      Registry(D, fixes, masses, springs, constraints, gravity)
    }

    /** The system owns the entity a connector names. */
    predicate Has(c: Connector)
      reads this
    {
      ConnectorIn(c, |fixes|, |masses|)
    }

    /** The default constructor: empty registries, `m_gravity = 0.0`. */
    constructor (d: nat)
      ensures Valid() && D == d
      ensures fixes == [] && masses == [] && springs == [] && constraints == []
      ensures gravity == Zero(d)
    {
      D := d;
      fixes, masses, springs, constraints := [], [], [], [];
      gravity := Zero(d);
    }

    method SetGravity(g: Vec)
      requires Valid() && |g| == D
      modifies this`gravity
      ensures Valid() && gravity == g
    {
      gravity := g;
    }

    method GetGravity() returns (g: Vec)
      requires Valid()
      ensures |g| == D && g == gravity
    {
      g := gravity;
    }

    method AddFix(p: Fix) returns (c: Connector)
      requires Valid() && |p.pos| == D
      modifies this`fixes
      ensures Valid()
      ensures fixes == old(fixes) + [p]
      ensures c == Connector(FIX, old(|fixes|)) && Has(c)
    {
      fixes := fixes + [p];
      c := Connector(FIX, |fixes| - 1);
    }

    method AddMass(m: Mass) returns (c: Connector)
      requires Valid() && MassHasDim(m, D)
      modifies this`masses
      ensures Valid()
      ensures masses == old(masses) + [m]
      ensures c == Connector(MASS, old(|masses|)) && Has(c)
    {
      masses := masses + [m];
      c := Connector(MASS, |masses| - 1);
    }

    /** The endpoints are not checked: a spring may name entities added later, or none at all. */
    method AddSpring(s: Spring) returns (index: nat)
      requires Valid()
      modifies this`springs
      ensures Valid()
      ensures springs == old(springs) + [s]
      ensures index == old(|springs|) && springs[index] == s
    {
      springs := springs + [s];
      index := |springs| - 1;
    }

    method AddDistanceConstraint(dc: DistanceConstraint)
      requires Valid()
      modifies this`constraints
      ensures Valid()
      ensures constraints == old(constraints) + [dc]
    {
      constraints := constraints + [dc];
    }

    /**
     * Copy every mass's pos, vel and acc into row `i` of the `|masses| x D`
     * row-major views of `values`, `dvalues`, `ddvalues`; entries after the
     * first `|masses|*D` are left alone.
     */
    method GetState(values: array<real>, dvalues: array<real>, ddvalues: array<real>)
      requires Valid()
      requires |masses| * D <= values.Length && |masses| * D <= dvalues.Length && |masses| * D <= ddvalues.Length
      requires values != dvalues && values != ddvalues && dvalues != ddvalues
      modifies values, dvalues, ddvalues
      ensures values[..|masses| * D] == Flatten(PosRows(masses), D)
      ensures dvalues[..|masses| * D] == Flatten(VelRows(masses), D)
      ensures ddvalues[..|masses| * D] == Flatten(AccRows(masses), D)
      ensures values[|masses| * D..] == old(values[|masses| * D..])
      ensures dvalues[|masses| * D..] == old(dvalues[|masses| * D..])
      ensures ddvalues[|masses| * D..] == old(ddvalues[|masses| * D..])
    {
      var n := |masses|;
      ghost var ps, vs, acs := PosRows(masses), VelRows(masses), AccRows(masses);
      var i := 0;
      while i < n
        invariant 0 <= i <= n && i * D <= n * D
        invariant RowsWritten(values, old(values[..]), ps[..i], D)
        invariant RowsWritten(dvalues, old(dvalues[..]), vs[..i], D)
        invariant RowsWritten(ddvalues, old(ddvalues[..]), acs[..i], D)
      {
        BlockInside(i, n, D);
        WriteRow(values, i, masses[i].pos, old(values[..]), ps[..i]);
        WriteRow(dvalues, i, masses[i].vel, old(dvalues[..]), vs[..i]);
        WriteRow(ddvalues, i, masses[i].acc, old(ddvalues[..]), acs[..i]);
        PrefixStep(ps, i);
        PrefixStep(vs, i);
        PrefixStep(acs, i);
        i := i + 1;
      }
      assert ps[..n] == ps && vs[..n] == vs && acs[..n] == acs;
      RowsWrittenSplit(values, old(values[..]), ps, D);
      RowsWrittenSplit(dvalues, old(dvalues[..]), vs, D);
      RowsWrittenSplit(ddvalues, old(ddvalues[..]), acs, D);
    }

    /** One step of `GetState`: row `i` is written, and the written prefix grows by one row. */
    method WriteRow(a: array<real>, i: nat, v: Vec, ghost orig: seq<real>, ghost done: seq<Vec>)
      requires |v| == D && i * D + D <= a.Length && |orig| == a.Length
      requires |done| == i && RowsWritten(a, orig, done, D)
      modifies a
      ensures RowsWritten(a, orig, done + [v], D)
    {
      WriteBlock(a, i, D, v);
      assert (done + [v])[..|done|] == done;
    }

    /** Overwrite every mass's pos, vel and acc with row `i` of the three views. */
    method SetState(values: array<real>, dvalues: array<real>, ddvalues: array<real>)
      requires Valid()
      requires |masses| * D <= values.Length && |masses| * D <= dvalues.Length && |masses| * D <= ddvalues.Length
      modifies this`masses
      ensures Valid()
      ensures masses == WithState(old(masses), values[..], dvalues[..], ddvalues[..], D)
    {
      var n := |masses|;
      ghost var target := WithState(masses, values[..], dvalues[..], ddvalues[..], D);
      var i := 0;
      while i < n
        invariant 0 <= i <= n && |masses| == n
        invariant masses[..i] == target[..i]
        invariant masses[i..] == old(masses)[i..]
        invariant FixesHaveDim(fixes, D) && |gravity| == D
      {
        BlockInside(i, n, D);
        masses := masses[i := Mass(masses[i].mass, values[i * D .. i * D + D], dvalues[i * D .. i * D + D], ddvalues[i * D .. i * D + D])];
        assert masses[i] == target[i];
        assert masses[..i + 1] == masses[..i] + [masses[i]];
        i := i + 1;
      }
      assert masses == masses[..n];
    }
  }
}
