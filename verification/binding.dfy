/**
 * The Python binding of `MassSpringSystem<3>` in mechsystem/bind_mass_spring.cpp:
 * the `Mass` factory, the `add` overloads, `__getitem__`, the `gravity`
 * property, the `getState` lambda and `simulate`, which packs the mass state
 * into vectors augmented by one Lagrange multiplier per distance constraint,
 * hands them to the generalized-alpha solver and unpacks the result.
 *
 * The solver `SolveODE_Alpha` is not part of this model: it is a parameter
 * that maps the system, the end time, the step count, `rho_inf` and the
 * three augmented vectors to three new vectors.
 */
module Binding {
  import opened Vectors
  import opened MassSpring

  /** `rho_inf`, the high-frequency damping `simulate` asks for. */
  const AlphaRho: real := 0.8

  /** The positions, velocities and accelerations the solver works on. */
  datatype State = State(x: seq<real>, dx: seq<real>, ddx: seq<real>)

  type Solver = (Registry, real, nat, real, State) -> State

  /** `m.def("Mass", ...)`: a mass from its mass and position, at rest. */
  function MakeMass(m: real, p: seq<real>): (r: Mass)
    requires |p| == 3
    ensures r.mass == m && r.pos == p && MassHasDim(r, 3)
    ensures r.vel == [0.0, 0.0, 0.0] && r.acc == [0.0, 0.0, 0.0]
  {
    NewMass(m, p)
  }

  /** What `add` accepts. */
  datatype Item = MassItem(m: Mass) | FixItem(f: Fix) | SpringItem(s: Spring)

  /** What `add` returns: a connector for a mass or fix, an index for a spring. */
  datatype Added = Conn(c: Connector) | Index(i: nat)

  /** What `__getitem__` returns. */
  datatype Entity = FixEntity(f: Fix) | MassEntity(m: Mass)

  /** `__getitem__`: a FIX connector selects a fix, any other a mass. */
  function GetItem(r: Registry, c: Connector): (e: Entity)
    requires c.kind == FIX ==> c.nr < |r.fixes|
    requires c.kind != FIX ==> c.nr < |r.masses|
    ensures e.FixEntity? <==> c.kind == FIX
  {
    if c.kind == FIX then FixEntity(r.fixes[c.nr]) else MassEntity(r.masses[c.nr])
  }

  /** The connector `addMass` or `addFix` returns retrieves the entity just added. */
  lemma AddedIsRetrieved(r: Registry, m: Mass, f: Fix)
    ensures var r' := r.(masses := r.masses + [m]);
      GetItem(r', Connector(MASS, |r.masses|)) == MassEntity(m)
    ensures var r' := r.(fixes := r.fixes + [f]);
      GetItem(r', Connector(FIX, |r.fixes|)) == FixEntity(f)
  {
  }

  /** Items earlier added stay retrievable through their connectors after any later `add`. */
  lemma OldConnectorsStable(r: Registry, it: Item, c: Connector)
    requires c.kind == FIX ==> c.nr < |r.fixes|
    requires c.kind != FIX ==> c.nr < |r.masses|
    ensures var r' := match it
        case MassItem(m) => r.(masses := r.masses + [m])
        case FixItem(f) => r.(fixes := r.fixes + [f])
        case SpringItem(s) => r.(springs := r.springs + [s]);
      GetItem(r', c) == GetItem(r, c)
  {
  }

  /** The three `add` overloads. */
  method Add(mss: MassSpringSystem, it: Item) returns (res: Added)
    requires mss.Valid() && mss.D == 3
    requires it.MassItem? ==> MassHasDim(it.m, 3)
    requires it.FixItem? ==> |it.f.pos| == 3
    modifies mss`masses, mss`fixes, mss`springs
    ensures mss.Valid() && mss.constraints == old(mss.constraints) && mss.gravity == old(mss.gravity)
    ensures match it
      case MassItem(m) =>
        && mss.masses == old(mss.masses) + [m] && mss.fixes == old(mss.fixes) && mss.springs == old(mss.springs)
        && res == Conn(Connector(MASS, old(|mss.masses|)))
        && GetItem(mss.Snapshot(), res.c) == MassEntity(m)
      case FixItem(f) =>
        && mss.fixes == old(mss.fixes) + [f] && mss.masses == old(mss.masses) && mss.springs == old(mss.springs)
        && res == Conn(Connector(FIX, old(|mss.fixes|)))
        && GetItem(mss.Snapshot(), res.c) == FixEntity(f)
      case SpringItem(s) =>
        && mss.springs == old(mss.springs) + [s] && mss.masses == old(mss.masses) && mss.fixes == old(mss.fixes)
        && res == Index(old(|mss.springs|))
  {
    match it
    case MassItem(m) =>
      var c := mss.AddMass(m);
      res := Conn(c);
    case FixItem(f) =>
      var c := mss.AddFix(f);
      res := Conn(c);
    case SpringItem(s) =>
      var i := mss.AddSpring(s);
      res := Index(i);
  }

  /** The `gravity` property: what the setter stores, the getter returns. */
  method SetThenGetGravity(mss: MassSpringSystem, g: seq<real>) returns (read: seq<real>)
    requires mss.Valid() && mss.D == 3 && |g| == 3
    modifies mss`gravity
    ensures read == g && mss.Valid()
  {
    mss.SetGravity(g);
    read := mss.GetGravity();
  }

  /** The positions of all masses, row-major. */
  function Positions(r: Registry): (x: seq<real>)
    requires MassesHaveDim(r.masses, r.d)
    ensures |x| == |r.masses| * r.d
    ensures forall i :: 0 <= i < |r.masses| ==> i * r.d + r.d <= |x| && Block(x, i, r.d) == r.masses[i].pos
  {
    var x := Flatten(PosRows(r.masses), r.d);
    forall i | 0 <= i < |r.masses|
      ensures i * r.d + r.d <= |x| && Block(x, i, r.d) == r.masses[i].pos
    {
      FlattenBlock(PosRows(r.masses), r.d, i);
    }
    x
  }

  /** The `getState` lambda: only the positions are returned, `3*|masses|` of them. */
  method GetStateBinding(mss: MassSpringSystem) returns (x: seq<real>)
    requires mss.Valid() && mss.D == 3
    ensures x == Positions(mss.Snapshot())
  {
    var n := 3 * |mss.masses|;
    var values := new real[n];
    var dvalues := new real[n];
    var ddvalues := new real[n];
    mss.GetState(values, dvalues, ddvalues);
    x := values[..];
    assert x == values[..n];
  }

  /**
   * The vectors `simulate` hands to the solver: `3*|masses| + |constraints|`
   * entries each, the state of the masses first, the multipliers zero. With
   * a constraint they are longer than the `DimX() = 3*|masses|` of the
   * right-hand side the solver is given.
   */
  function Augmented(r: Registry): (s: State)
    requires MassesHaveDim(r.masses, r.d)
    ensures var n := |r.masses| * r.d;
      && |s.x| == |s.dx| == |s.ddx| == n + |r.constraints|
      && s.x[..n] == Flatten(PosRows(r.masses), r.d)
      && s.dx[..n] == Flatten(VelRows(r.masses), r.d)
      && s.ddx[..n] == Flatten(AccRows(r.masses), r.d)
      && IsZero(s.x[n..]) && IsZero(s.dx[n..]) && IsZero(s.ddx[n..])
  {
    var tail := Zero(|r.constraints|);
    var s := State(Flatten(PosRows(r.masses), r.d) + tail, Flatten(VelRows(r.masses), r.d) + tail,
                   Flatten(AccRows(r.masses), r.d) + tail);
    assert s.x[|r.masses| * r.d..] == tail;
    assert s.dx[|r.masses| * r.d..] == tail;
    assert s.ddx[|r.masses| * r.d..] == tail;
    s
  }

  /** What the solver returns for the packed state of `r`. */
  function Solved(r: Registry, tend: real, steps: nat, solver: Solver): State
    requires MassesHaveDim(r.masses, r.d)
  {
    solver(r, tend, steps, AlphaRho, Augmented(r))
  }

  /** The solver keeps the length of the three vectors it updates in place. */
  predicate SolverFits(r: Registry, tend: real, steps: nat, solver: Solver)
    requires MassesHaveDim(r.masses, r.d)
  {
    var out := Solved(r, tend, steps, solver);
    var n := |r.masses| * r.d + |r.constraints|;
    |out.x| == n && |out.dx| == n && |out.ddx| == n
  }

  /**
   * `simulate(tend, steps)`: only the first `3*|masses|` entries of the
   * solved vectors come back, through `setState`; the masses' `mass`, the
   * fixes, springs, constraints and gravity are untouched.
   */
  method Simulate(mss: MassSpringSystem, tend: real, steps: nat, solver: Solver)
    requires mss.Valid() && mss.D == 3
    requires SolverFits(mss.Snapshot(), tend, steps, solver)
    modifies mss`masses
    ensures mss.Valid() && |mss.masses| == old(|mss.masses|)
    ensures var out := Solved(old(mss.Snapshot()), tend, steps, solver);
      mss.masses == WithState(old(mss.masses), out.x, out.dx, out.ddx, 3)
  {
    ghost var r := mss.Snapshot();
    var x, dx, ddx := PackState(mss);
    var out := solver(mss.Snapshot(), tend, steps, AlphaRho, State(x[..], dx[..], ddx[..]));
    assert out == Solved(r, tend, steps, solver);
    Assign(x, out.x);
    Assign(dx, out.dx);
    Assign(ddx, out.ddx);
    UnpackState(mss, x, dx, ddx);
  }

  /** The unpacking half of `simulate`: the first `3*|masses|` entries go back through `setState`. */
  method UnpackState(mss: MassSpringSystem, x: array<real>, dx: array<real>, ddx: array<real>)
    requires mss.Valid() && mss.D == 3
    requires 3 * |mss.masses| <= x.Length && 3 * |mss.masses| <= dx.Length && 3 * |mss.masses| <= ddx.Length
    modifies mss`masses
    ensures mss.Valid() && |mss.masses| == old(|mss.masses|)
    ensures mss.masses == WithState(old(mss.masses), x[..], dx[..], ddx[..], 3)
  {
    var nMassDofs := 3 * |mss.masses|;
    var xMass := new real[nMassDofs];
    var dxMass := new real[nMassDofs];
    var ddxMass := new real[nMassDofs];
    CopyPrefix(xMass, x, nMassDofs);
    CopyPrefix(dxMass, dx, nMassDofs);
    CopyPrefix(ddxMass, ddx, nMassDofs);
    assert xMass[..] == xMass[..nMassDofs] && dxMass[..] == dxMass[..nMassDofs] && ddxMass[..] == ddxMass[..nMassDofs];
    BlocksOfPrefix(mss.masses, x[..], dx[..], ddx[..], nMassDofs);
    mss.SetState(xMass, dxMass, ddxMass);
  }

  /** The packing half of `simulate`: zeroed augmented vectors, then the mass state copied in. */
  method PackState(mss: MassSpringSystem) returns (x: array<real>, dx: array<real>, ddx: array<real>)
    requires mss.Valid() && mss.D == 3
    ensures fresh(x) && fresh(dx) && fresh(ddx) && x != dx && x != ddx && dx != ddx
    ensures State(x[..], dx[..], ddx[..]) == Augmented(mss.Snapshot())
  {
    ghost var r := mss.Snapshot();
    var nMassDofs := 3 * |mss.masses|;
    var nTotal := nMassDofs + |mss.constraints|;
    var xMass, dxMass, ddxMass := MassState(mss, nMassDofs);
    x := ZeroPadded(xMass, nTotal);
    dx := ZeroPadded(dxMass, nTotal);
    ddx := ZeroPadded(ddxMass, nTotal);
    SamePackedState(r, x[..], dx[..], ddx[..], xMass[..], dxMass[..], ddxMass[..]);
  }

  /** `x_mass`, `dx_mass`, `ddx_mass`: fresh vectors of length `3 * |masses|` filled by `getState`. */
  method MassState(mss: MassSpringSystem, nMassDofs: nat) returns (x: array<real>, dx: array<real>, ddx: array<real>)
    requires mss.Valid() && mss.D == 3 && nMassDofs == 3 * |mss.masses|
    ensures fresh(x) && fresh(dx) && fresh(ddx)
    ensures x[..] == Flatten(PosRows(mss.masses), 3)
    ensures dx[..] == Flatten(VelRows(mss.masses), 3)
    ensures ddx[..] == Flatten(AccRows(mss.masses), 3)
  {
    x := new real[nMassDofs];
    dx := new real[nMassDofs];
    ddx := new real[nMassDofs];
    mss.GetState(x, dx, ddx);
    assert x[..] == x[..nMassDofs] && dx[..] == dx[..nMassDofs] && ddx[..] == ddx[..nMassDofs];
  }

  /** A fresh vector of length `total`: `src` first, zeros after. */
  method ZeroPadded(src: array<real>, total: nat) returns (a: array<real>)
    requires src.Length <= total
    ensures fresh(a) && a.Length == total
    ensures a[..src.Length] == src[..] && IsZero(a[src.Length..])
  {
    a := new real[total];
    Fill(a, 0.0);
    CopyPrefix(a, src, src.Length);
    assert src[..] == src[..src.Length];
  }

  lemma SamePackedState(r: Registry, x: seq<real>, dx: seq<real>, ddx: seq<real>, xm: seq<real>, dxm: seq<real>, ddxm: seq<real>)
    requires MassesHaveDim(r.masses, r.d)
    requires xm == Flatten(PosRows(r.masses), r.d) && dxm == Flatten(VelRows(r.masses), r.d) && ddxm == Flatten(AccRows(r.masses), r.d)
    requires var n := |r.masses| * r.d;
      && |x| == |dx| == |ddx| == n + |r.constraints| && |xm| == |dxm| == |ddxm| == n
      && x[..n] == xm && dx[..n] == dxm && ddx[..n] == ddxm
      && IsZero(x[n..]) && IsZero(dx[n..]) && IsZero(ddx[n..])
    ensures State(x, dx, ddx) == Augmented(r)
  {
    var n := |r.masses| * r.d;
    var a := Augmented(r);
    assert x == x[..n] + x[n..] && dx == dx[..n] + dx[n..] && ddx == ddx[..n] + ddx[n..];
    assert a.x == a.x[..n] + a.x[n..] && a.dx == a.dx[..n] + a.dx[n..] && a.ddx == a.ddx[..n] + a.ddx[n..];
    assert x[n..] == a.x[n..] && dx[n..] == a.dx[n..] && ddx[n..] == a.ddx[n..];
  }

  /** `for (i = 0; i < n; i++) dst(i) = src(i)`. */
  method CopyPrefix(dst: array<real>, src: array<real>, n: nat)
    requires n <= dst.Length && n <= src.Length && dst != src
    modifies dst
    ensures dst[..n] == src[..n] && dst[n..] == old(dst[n..])
  {
    var i := 0;
    while i < n
      invariant 0 <= i <= n
      invariant dst[..i] == src[..i] && dst[i..] == old(dst[i..])
    {
      dst[i] := src[i];
      assert dst[..i + 1] == src[..i + 1];
      i := i + 1;
    }
  }

  /** `setState` reads only the first `|masses|*d` entries. */
  lemma BlocksOfPrefix(ms: seq<Mass>, x: seq<real>, dx: seq<real>, ddx: seq<real>, n: nat)
    requires n == |ms| * 3 && n <= |x| && n <= |dx| && n <= |ddx|
    ensures WithState(ms, x[..n], dx[..n], ddx[..n], 3) == WithState(ms, x, dx, ddx, 3)
  {
    forall i | 0 <= i < |ms|
      ensures WithState(ms, x[..n], dx[..n], ddx[..n], 3)[i] == WithState(ms, x, dx, ddx, 3)[i]
    {
      BlockOfPrefix(x, |ms|, i, 3);
      BlockOfPrefix(dx, |ms|, i, 3);
      BlockOfPrefix(ddx, |ms|, i, 3);
    }
  }

  /** A solver that leaves its vectors alone leaves every mass where it was. */
  lemma IdleSolverKeepsMasses(r: Registry, tend: real, steps: nat, solver: Solver)
    requires MassesHaveDim(r.masses, r.d)
    requires Solved(r, tend, steps, solver) == Augmented(r)
    ensures var out := Solved(r, tend, steps, solver);
      WithState(r.masses, out.x, out.dx, out.ddx, r.d) == r.masses
  {
    var a := Augmented(r);
    GetSetRoundTrip(r.masses, r.d, a.x, a.dx, a.ddx);
  }
}
