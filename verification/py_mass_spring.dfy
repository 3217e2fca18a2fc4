/**
 * The pure-Python stand-in for the mass-spring system in
 * mechsystem/mass_spring.py: `Mass` objects own a mutable position list,
 * `MassSpringSystem3d` appends objects to four lists, and its placeholder
 * `simulate` moves every listed mass once by `vel * time_step`, or stops
 * with `IndexError` at the first mass whose lists are too short.
 *
 * A `Mass` is a class because `simulate` changes its position list in
 * place; that list is an array, so the same `Mass` added twice is moved
 * twice. Fixes, springs and constraints are never changed after
 * construction and are values.
 */
module PyMassSpring {

  datatype Option<T> = None | Some(value: T)

  /**
   * `Mass(mass, pos)`: a private copy of `pos`, at rest. Nothing in the
   * mock reassigns `vel` or `acc`, so they are constants here.
   */
  class PyMass {
    const mass: real
    const pos: array<real>
    const vel: seq<real>
    const acc: seq<real>

    constructor (mass: real, p: seq<real>)
      ensures this.mass == mass && fresh(pos) && pos[..] == p
      ensures vel == [0.0, 0.0, 0.0] && acc == [0.0, 0.0, 0.0]
    {
      this.mass := mass;
      pos := new real[|p|](i requires 0 <= i < |p| => p[i]);
      vel := [0.0, 0.0, 0.0];
      acc := [0.0, 0.0, 0.0];
    }
  }

  /** What the mock can be handed: any Python object, sorted by class. */
  datatype PyObject =
    | MassObj(m: PyMass)
    | FixObj(f: PyFix)
    | SpringObj(s: PySpring)
    | ConstraintObj(c: PyConstraint)
    | Other

  /** `Fix(pos)`. */
  datatype PyFix = PyFix(pos: seq<real>)

  /** `Spring(length, stiffness, connectors)`: `connectors` is any list of objects. */
  datatype PySpring = PySpring(length: real, stiffness: real, connectors: seq<PyObject>)

  /** `DistanceConstraint(c1, c2, rest_length)`. */
  datatype PyConstraint = PyConstraint(c1: PyObject, c2: PyObject, restLength: real)

  /**
   * How many of `pos[0]`, `pos[1]`, `pos[2]` the loop body of `simulate`
   * updates for `m`: it stops with `IndexError` at the first `k` with no
   * `pos[k]` or no `vel[k]`.
   */
  function Reach(m: PyMass): nat
  {
    if m.pos.Length < 3 || |m.vel| < 3 then
      if m.pos.Length < |m.vel| then m.pos.Length else |m.vel|
    else 3
  }

  /** Every listed mass has the three position and velocity entries `simulate` indexes. */
  predicate ThreeDim(ms: seq<PyMass>)
  {
    forall i :: 0 <= i < |ms| ==> ms[i].pos.Length >= 3 && |ms[i].vel| >= 3
  }

  /**
   * How far `simulate` moves entry `k` of the list `a`: one `vel[k] * dt` for
   * every listed mass whose position list is `a` and whose loop body reached `k`.
   */
  function Drift(ms: seq<PyMass>, a: array<real>, k: nat, dt: real): real
  {
    if |ms| == 0 then 0.0
    else
      var last := ms[|ms| - 1];
      Drift(ms[..|ms| - 1], a, k, dt) + (if last.pos == a && k < Reach(last) then last.vel[k] * dt else 0.0)
  }

  /** A list no listed mass owns does not move. */
  lemma {:induction false} DriftOfUnlisted(ms: seq<PyMass>, a: array<real>, k: nat, dt: real)
    requires forall i :: 0 <= i < |ms| ==> ms[i].pos != a
    ensures Drift(ms, a, k, dt) == 0.0
  {
    if |ms| > 0 {
      DriftOfUnlisted(ms[..|ms| - 1], a, k, dt);
    }
  }

  /** Entries past the third never move. */
  lemma {:induction false} DriftPastThird(ms: seq<PyMass>, a: array<real>, k: nat, dt: real)
    requires k >= 3
    ensures Drift(ms, a, k, dt) == 0.0
  {
    if |ms| > 0 {
      DriftPastThird(ms[..|ms| - 1], a, k, dt);
    }
  }

  /** A mass listed once, owning its position list alone, moves by exactly `vel[k] * dt` for `k < 3`. */
  lemma {:induction false} DriftOfOwnList(ms: seq<PyMass>, j: nat, k: nat, dt: real)
    requires ThreeDim(ms) && k < 3 && j < |ms|
    requires forall i :: 0 <= i < |ms| && i != j ==> ms[i].pos != ms[j].pos
    ensures Drift(ms, ms[j].pos, k, dt) == ms[j].vel[k] * dt
  {
    var n := |ms| - 1;
    assert Reach(ms[j]) == 3;
    if j == n {
      DriftOfUnlisted(ms[..n], ms[j].pos, k, dt);
    } else {
      DriftOfOwnList(ms[..n], j, k, dt);
    }
  }

  /** The same mass listed twice and no other owner of its list: it moves twice. */
  lemma DriftOfRepeatedMass(m: PyMass, k: nat, dt: real)
    requires m.pos.Length >= 3 && |m.vel| >= 3 && k < 3
    ensures Drift([m, m], m.pos, k, dt) == 2.0 * m.vel[k] * dt
  {
    assert [m, m][..1] == [m];
    assert [m][..0] == [];
    assert Drift([m], m.pos, k, dt) == m.vel[k] * dt;
  }

  /** `Drift` over one more listed mass. */
  lemma DriftStep(ms: seq<PyMass>, i: nat, a: array<real>, k: nat, dt: real)
    requires i < |ms|
    ensures Drift(ms[..i + 1], a, k, dt) == Drift(ms[..i], a, k, dt) + (if ms[i].pos == a && k < Reach(ms[i]) then ms[i].vel[k] * dt else 0.0)
  {
    assert ms[..i + 1][..i] == ms[..i];
  }

  /** With every velocity entry `k` zero, entry `k` does not move. */
  lemma {:induction false} DriftAtRest(ms: seq<PyMass>, a: array<real>, k: nat, dt: real)
    requires forall i :: 0 <= i < |ms| && k < |ms[i].vel| ==> ms[i].vel[k] == 0.0
    ensures Drift(ms, a, k, dt) == 0.0
  {
    if |ms| > 0 {
      DriftAtRest(ms[..|ms| - 1], a, k, dt);
    }
  }

  /** `MassSpringSystem3d`: four append-only lists and a gravity vector. */
  class MassSpringSystem3d {
    var masses: seq<PyMass>
    var springs: seq<PySpring>
    var fixes: seq<PyFix>
    var constraints: seq<PyConstraint>
    var gravity: seq<real>

    constructor ()
      ensures masses == [] && springs == [] && fixes == [] && constraints == []
      ensures gravity == [0.0, 0.0, -9.81]
    {
      masses := [];
      springs := [];
      fixes := [];
      constraints := [];
      gravity := [0.0, 0.0, -9.81];
    }

    /**
     * `add(obj)`: a Mass, Fix or Spring is appended to its own list and
     * handed back; anything else, a `DistanceConstraint` included, gives
     * `None` and changes nothing.
     */
    method Add(obj: PyObject) returns (r: Option<PyObject>)
      modifies this
      ensures gravity == old(gravity) && constraints == old(constraints)
      ensures r.Some? <==> (obj.MassObj? || obj.FixObj? || obj.SpringObj?)
      ensures r.Some? ==> r.value == obj
      ensures masses == old(masses) + (if obj.MassObj? then [obj.m] else [])
      ensures fixes == old(fixes) + (if obj.FixObj? then [obj.f] else [])
      ensures springs == old(springs) + (if obj.SpringObj? then [obj.s] else [])
    {
      match obj
      case MassObj(m) =>
        masses := masses + [m];
        r := Some(obj);
      case FixObj(f) =>
        fixes := fixes + [f];
        r := Some(obj);
      case SpringObj(s) =>
        springs := springs + [s];
        r := Some(obj);
      case _ =>
        r := None;
    }

    /** `addDistanceConstraint(constraint)`: appended to `constraints` only. */
    method AddDistanceConstraint(c: PyConstraint)
      modifies this
      ensures constraints == old(constraints) + [c]
      ensures masses == old(masses) && fixes == old(fixes) && springs == old(springs) && gravity == old(gravity)
    {
      constraints := constraints + [c];
    }

    /** `getState()`: the masses' own position lists, in insertion order, shared and not copied. */
    method GetState() returns (state: seq<array<real>>)
      ensures |state| == |masses|
      ensures forall i :: 0 <= i < |masses| ==> state[i] == masses[i].pos
    {
      state := [];
      var i := 0;
      while i < |masses|
        invariant 0 <= i <= |masses|
        invariant |state| == i
        invariant forall j :: 0 <= j < i ==> state[j] == masses[j].pos
      {
        state := state + [masses[i].pos];
        i := i + 1;
      }
    }

    /**
     * `simulate(time_step, num_steps)`: one pass over `masses`, adding
     * `vel[k] * time_step` to `pos[k]` for `k < 3`, whatever `num_steps` is.
     * A position list owned by several listed masses collects all of their
     * moves; entries past the third and everything but positions stay.
     * When a listed mass has fewer than three `pos` or `vel` entries the
     * pass stops with `IndexError` at that mass, `Some(i)`: the masses
     * before it have moved, and it has moved the entries it reached.
     */
    method Simulate(timeStep: real, numSteps: int) returns (indexError: Option<nat>)
      modifies set i | 0 <= i < |masses| :: masses[i].pos
      ensures indexError.None? <==> ThreeDim(masses)
      ensures indexError.Some? ==>
        indexError.value < |masses| && ThreeDim(masses[..indexError.value]) && Reach(masses[indexError.value]) < 3
      ensures var moved := if indexError.Some? then indexError.value + 1 else |masses|;
        forall j, k :: 0 <= j < |masses| && 0 <= k < masses[j].pos.Length ==>
          masses[j].pos[k] == old(masses[j].pos[k]) + Drift(masses[..moved], masses[j].pos, k, timeStep)
    {
      ghost var ms := masses;
      ghost var start := seq(|ms|, j requires 0 <= j < |ms| reads set x | 0 <= x < |ms| :: ms[x].pos => ms[j].pos[..]);
      assert Moved(masses, start, 0, timeStep) by {
        assert forall j, k :: 0 <= j < |masses| && 0 <= k < masses[j].pos.Length ==> Drift(masses[..0], masses[j].pos, k, timeStep) == 0.0;
      }
      indexError := MoveAll(masses, timeStep, start);
      ghost var moved := if indexError.Some? then indexError.value + 1 else |masses|;
      Unmoved(masses, start, moved, timeStep);
    }
  }

  /** `simulate`'s loop over the listed masses, up to the first `IndexError`. */
  method MoveAll(ms: seq<PyMass>, dt: real, ghost start: seq<seq<real>>) returns (indexError: Option<nat>)
    requires Moved(ms, start, 0, dt)
    modifies set i | 0 <= i < |ms| :: ms[i].pos
    ensures indexError.None? <==> ThreeDim(ms)
    ensures indexError.Some? ==> indexError.value < |ms| && ThreeDim(ms[..indexError.value]) && Reach(ms[indexError.value]) < 3
    ensures Moved(ms, start, if indexError.Some? then indexError.value + 1 else |ms|, dt)
  {
    var i := 0;
    while i < |ms|
      invariant 0 <= i <= |ms|
      invariant forall j :: 0 <= j < i ==> Reach(ms[j]) == 3
      invariant Moved(ms, start, i, dt)
    {
      var ok := MoveListed(ms, i, dt, start);
      if !ok {
        ThreeDimPrefix(ms, i);
        assert !(ms[i].pos.Length >= 3 && |ms[i].vel| >= 3);
        return Some(i);
      }
      i := i + 1;
    }
    ThreeDimPrefix(ms, i);
    assert ms[..i] == ms;
    return None;
  }

  /** The first `n` masses, each of full reach, are `ThreeDim`. */
  lemma ThreeDimPrefix(ms: seq<PyMass>, n: nat)
    requires n <= |ms| && forall j :: 0 <= j < n ==> Reach(ms[j]) == 3
    ensures ThreeDim(ms[..n])
  {
  }

  /**
   * Every listed position list holds its entries in `start` plus what the
   * first `n` passes of `simulate`'s loop added to it.
   */
  ghost predicate Moved(ms: seq<PyMass>, start: seq<seq<real>>, n: nat, dt: real)
    reads set j | 0 <= j < |ms| :: ms[j].pos
  {
    && n <= |ms| && |start| == |ms|
    && (forall j :: 0 <= j < |ms| ==> |start[j]| == ms[j].pos.Length)
    && forall j, k :: 0 <= j < |ms| && 0 <= k < ms[j].pos.Length ==>
      ms[j].pos[k] == start[j][k] + Drift(ms[..n], ms[j].pos, k, dt)
  }

  /** `Moved` read back entry by entry. */
  lemma Unmoved(ms: seq<PyMass>, start: seq<seq<real>>, n: nat, dt: real)
    requires Moved(ms, start, n, dt)
    ensures forall j, k :: 0 <= j < |ms| && 0 <= k < ms[j].pos.Length ==>
      ms[j].pos[k] == start[j][k] + Drift(ms[..n], ms[j].pos, k, dt)
  {
  }

  /** `Move` on listed mass `i`: one more pass of `simulate`'s loop is `Moved`. */
  method MoveListed(ms: seq<PyMass>, i: nat, dt: real, ghost start: seq<seq<real>>) returns (ok: bool)
    requires i < |ms| && Moved(ms, start, i, dt)
    modifies ms[i].pos
    ensures ok <==> Reach(ms[i]) == 3
    ensures Moved(ms, start, i + 1, dt)
  {
    ok := Move(ms[i], dt);
    forall j, k | 0 <= j < |ms| && 0 <= k < ms[j].pos.Length
      ensures ms[j].pos[k] == start[j][k] + Drift(ms[..i + 1], ms[j].pos, k, dt)
    {
      var a := ms[j].pos;
      assert old(a[k]) == start[j][k] + Drift(ms[..i], a, k, dt);
      DriftStep(ms, i, a, k, dt);
    }
  }

  /**
   * The body of `simulate`'s loop for one mass: `pos[k] += vel[k] * time_step`
   * for `k = 0, 1, 2` in turn; `false` when it stops with `IndexError` at
   * the first missing `pos[k]` or `vel[k]`, after the entries before it.
   */
  method Move(m: PyMass, dt: real) returns (ok: bool)
    modifies m.pos
    ensures ok <==> Reach(m) == 3
    ensures forall k :: 0 <= k < m.pos.Length ==> m.pos[k] == old(m.pos[k]) + (if k < Reach(m) then m.vel[k] * dt else 0.0)
  {
    if m.pos.Length < 1 || |m.vel| < 1 {
      return false;
    }
    m.pos[0] := m.pos[0] + m.vel[0] * dt;
    if m.pos.Length < 2 || |m.vel| < 2 {
      return false;
    }
    m.pos[1] := m.pos[1] + m.vel[1] * dt;
    if m.pos.Length < 3 || |m.vel| < 3 {
      return false;
    }
    m.pos[2] := m.pos[2] + m.vel[2] * dt;
    ok := true;
  }
}
