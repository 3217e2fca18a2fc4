/**
 * `build_crane` of mechsystem/crane.py, run against the compiled binding:
 * a tower of `floors` cubes standing on four fixes, an arm of `arm_length`
 * cubes glued to the top cube's side, and a load hanging from the arm's tip
 * by two cables. `math.sqrt` is a parameter.
 */
module Crane {
  import opened Vectors
  import opened MassSpring
  import Binding

  type Sqrt = real -> real

  const L: real := 1.0
  const Floors: nat := 10
  const ArmLength: nat := 8
  const UnitMass: real := 1.0
  const LoadMass: real := 20.0
  const Stiffness: real := 2000.0
  const CableStiffness: real := Stiffness / 2.0

  /** The four corners of a square at height `z`, counter-clockwise from the origin. */
  function FloorCoords(z: real): (ps: seq<Vec>)
    ensures |ps| == 4 && forall k :: 0 <= k < 4 ==> |ps[k]| == 3 && ps[k][2] == z
  {
    [[0.0, 0.0, z], [L, 0.0, z], [L, L, z], [0.0, L, z]]
  }

  /** The four corners of the arm face at `x`, between the two top floors. */
  function ArmCoords(x: real, floors: nat): (ps: seq<Vec>)
    ensures |ps| == 4 && forall k :: 0 <= k < 4 ==> |ps[k]| == 3 && ps[k][0] == x
  {
    var zBot := (floors - 1) as real * L;
    var zTop := floors as real * L;
    [[x, 0.0, zBot], [x, L, zBot], [x, L, zTop], [x, 0.0, zTop]]
  }

  /** `Mass(m, pos)` at each of `ps`. */
  function MassesAt(ps: seq<Vec>, m: real): (r: seq<Mass>)
    requires forall k :: 0 <= k < |ps| ==> |ps[k]| == 3
    ensures |r| == |ps| && MassesHaveDim(r, 3)
    ensures forall k :: 0 <= k < |ps| ==> r[k].mass == m && r[k].pos == ps[k] && IsZero(r[k].vel) && IsZero(r[k].acc)
  {
    seq(|ps|, k requires 0 <= k < |ps| => Binding.MakeMass(m, ps[k]))
  }

  /** The fixes of floor 0. */
  function CraneFixes(): (fs: seq<Fix>)
    ensures |fs| == 4 && FixesHaveDim(fs, 3) && forall k :: 0 <= k < 4 ==> fs[k].pos[2] == 0.0
  {
    var ps := FloorCoords(0.0);
    [Fix(ps[0]), Fix(ps[1]), Fix(ps[2]), Fix(ps[3])]
  }

  /** The masses of floors 1 to `n`, four per floor. */
  function TowerMasses(n: nat): (ms: seq<Mass>)
    ensures |ms| == 4 * n
  {
    if n == 0 then [] else TowerMasses(n - 1) + MassesAt(FloorCoords(n as real * L), UnitMass)
  }

  /** The masses of arm faces 1 to `n`, four per face. */
  function ArmMasses(n: nat, floors: nat): (ms: seq<Mass>)
    ensures |ms| == 4 * n
  {
    if n == 0 then [] else ArmMasses(n - 1, floors) + MassesAt(ArmCoords(L + n as real * L, floors), UnitMass)
  }

  /** Three-dimensional masses of unit mass, all at rest. */
  predicate UnitsAtRest(ms: seq<Mass>) {
    && MassesHaveDim(ms, 3)
    && forall i :: 0 <= i < |ms| ==> ms[i].mass == UnitMass && IsZero(ms[i].vel) && IsZero(ms[i].acc)
  }

  lemma UnitsAtRestAppend(a: seq<Mass>, b: seq<Mass>)
    requires UnitsAtRest(a) && UnitsAtRest(b)
    ensures UnitsAtRest(a + b)
  {
    forall i | 0 <= i < |a + b|
      ensures MassHasDim((a + b)[i], 3) && (a + b)[i].mass == UnitMass
      ensures IsZero((a + b)[i].vel) && IsZero((a + b)[i].acc)
    {
      if i < |a| {
        assert (a + b)[i] == a[i];
      } else {
        assert (a + b)[i] == b[i - |a|];
      }
    }
  }

  /** Every tower mass is a unit mass at rest. */
  lemma {:induction false} TowerMassesAtRest(n: nat)
    ensures UnitsAtRest(TowerMasses(n))
  {
    if n > 0 {
      TowerMassesAtRest(n - 1);
      UnitsAtRestAppend(TowerMasses(n - 1), MassesAt(FloorCoords(n as real * L), UnitMass));
    }
  }

  /** Every arm mass is a unit mass at rest. */
  lemma {:induction false} ArmMassesAtRest(n: nat, floors: nat)
    ensures UnitsAtRest(ArmMasses(n, floors))
  {
    if n > 0 {
      ArmMassesAtRest(n - 1, floors);
      UnitsAtRestAppend(ArmMasses(n - 1, floors), MassesAt(ArmCoords(L + n as real * L, floors), UnitMass));
    }
  }

  /** Where the load hangs: mid-way under the arm's tip, one unit below it. */
  function LoadPos(floors: nat, armLength: nat): (p: Vec)
    ensures |p| == 3
  {
    [L + armLength as real * L, L / 2.0, (floors - 1) as real * L - 1.0]
  }

  /** The connectors `add` returns for the corners of floor `f`. */
  function TowerFloor(f: nat): (face: seq<Connector>)
    ensures |face| == 4
  {
    if f == 0 then [Connector(FIX, 0), Connector(FIX, 1), Connector(FIX, 2), Connector(FIX, 3)]
    else var b := 4 * (f - 1);
      [Connector(MASS, b), Connector(MASS, b + 1), Connector(MASS, b + 2), Connector(MASS, b + 3)]
  }

  /** Floor 0 is made of the four fixes, floor `f > 0` of masses registered before floor `f + 1`'s. */
  lemma TowerFloorIn(f: nat)
    ensures forall c :: c in TowerFloor(f) ==>
      if f == 0 then c.kind == FIX && c.nr < 4 else c.kind == MASS && c.nr < 4 * f
  {
  }

  /**
   * The arm face `j`: face 0 is the side of the top tower cube the arm is
   * glued to, face `j > 0` the `j`-th group of four masses after the tower's.
   */
  function ArmFace(j: nat, floors: nat): (face: seq<Connector>)
    requires floors >= 2
    ensures |face| == 4
  {
    if j == 0 then
      var below, top := TowerFloor(floors - 1), TowerFloor(floors);
      [below[1], below[2], top[2], top[1]]
    else var b := 4 * floors + 4 * (j - 1);
      [Connector(MASS, b), Connector(MASS, b + 1), Connector(MASS, b + 2), Connector(MASS, b + 3)]
  }

  /** Every arm face, the first included, is made of masses registered before face `j + 1`'s. */
  lemma ArmFaceIn(j: nat, floors: nat)
    requires floors >= 2
    ensures forall c :: c in ArmFace(j, floors) ==> c.kind == MASS && c.nr < 4 * floors + 4 * j
  {
    var face := ArmFace(j, floors);
    forall c | c in face
      ensures c.kind == MASS && c.nr < 4 * floors + 4 * j
    {
      var k :| 0 <= k < 4 && face[k] == c;
    }
  }

  /** The four springs corner `k` contributes between faces `a` and `b`: edge, ring and the two diagonals. */
  function Quad(a: seq<Connector>, b: seq<Connector>, k: nat, diag: real): seq<Spring>
    requires |a| == 4 && |b| == 4 && k < 4
  {
    var n := (k + 1) % 4;
    [Spring(L, Stiffness, a[k], b[k]), Spring(L, Stiffness, b[k], b[n]),
     Spring(diag, Stiffness, a[k], b[n]), Spring(diag, Stiffness, a[n], b[k])]
  }

  /** The springs of corners `0 .. k-1` between faces `a` and `b`. */
  function Quads(a: seq<Connector>, b: seq<Connector>, k: nat, diag: real): (ss: seq<Spring>)
    requires |a| == 4 && |b| == 4 && k <= 4
    ensures |ss| == 4 * k
  {
    if k == 0 then [] else Quads(a, b, k - 1, diag) + Quad(a, b, k - 1, diag)
  }

  /** Beam springs from face `a` or `b` to face `b`. */
  predicate Joins(ss: seq<Spring>, a: seq<Connector>, b: seq<Connector>) {
    forall i :: 0 <= i < |ss| ==>
      ss[i].c2 in b && (ss[i].c1 in a || ss[i].c1 in b) && ss[i].stiffness == Stiffness
  }

  /** Each spring between two faces ends on the new face and starts on one of the two. */
  lemma {:induction false} QuadsJoin(a: seq<Connector>, b: seq<Connector>, k: nat, diag: real)
    requires |a| == 4 && |b| == 4 && k <= 4
    ensures Joins(Quads(a, b, k, diag), a, b)
  {
    if k > 0 {
      QuadsJoin(a, b, k - 1, diag);
      var n := k % 4;
      assert a[k - 1] in a && b[k - 1] in b && a[n] in a && b[n] in b;
      var p: seq<Spring>, q: seq<Spring> := Quads(a, b, k - 1, diag), Quad(a, b, k - 1, diag);
      forall i | 0 <= i < |p + q|
        ensures (p + q)[i].c2 in b && ((p + q)[i].c1 in a || (p + q)[i].c1 in b) && (p + q)[i].stiffness == Stiffness
      {
        if i < |p| {
          assert (p + q)[i] == p[i];
        } else {
          assert (p + q)[i] == q[i - |p|];
        }
      }
    }
  }

  /** One cube bay between two faces: 16 springs. */
  function Bay(a: seq<Connector>, b: seq<Connector>, diag: real): (ss: seq<Spring>)
    requires |a| == 4 && |b| == 4
    ensures |ss| == 16
  {
    Quads(a, b, 4, diag)
  }

  /** The tower's springs between floors `0 .. n`. */
  function TowerBays(n: nat, diag: real): (ss: seq<Spring>)
    ensures |ss| == 16 * n
  {
    if n == 0 then [] else TowerBays(n - 1, diag) + Bay(TowerFloor(n - 1), TowerFloor(n), diag)
  }

  /** The arm's springs between faces `0 .. n`. */
  function ArmBays(n: nat, floors: nat, diag: real): (ss: seq<Spring>)
    requires floors >= 2
    ensures |ss| == 16 * n
  {
    if n == 0 then [] else ArmBays(n - 1, floors, diag) + Bay(ArmFace(n - 1, floors), ArmFace(n, floors), diag)
  }

  /** The two cables from the lower tip corners to the load. */
  function Cables(tip: seq<Connector>, load: Connector, cableLen: real): seq<Spring>
    requires |tip| == 4
  {
    [Spring(cableLen, CableStiffness, tip[0], load), Spring(cableLen, CableStiffness, tip[1], load)]
  }

  function Diag(sqrt: Sqrt): real {
    sqrt(2.0) * L
  }

  function CableLen(sqrt: Sqrt): real {
    sqrt((L / 2.0) * (L / 2.0) + 1.0 * 1.0)
  }

  /** The masses `build_crane` registers: tower, arm, then the load. */
  function CraneMassSeq(floors: nat, armLength: nat): seq<Mass>
    requires floors >= 2
  {
    TowerMasses(floors) + ArmMasses(armLength, floors) + [Binding.MakeMass(LoadMass, LoadPos(floors, armLength))]
  }

  /**
   * The springs `build_crane` registers: tower bays, arm bays, then the two
   * cables. Every spring ends on a mass, so none joins two fixes; every
   * connector names an existing fix or mass; beams have stiffness 2000, the
   * two cables 1000.
   */
  function CraneSpringSeq(floors: nat, armLength: nat, sqrt: Sqrt): (ss: seq<Spring>)
    requires floors >= 2
    ensures |ss| == 16 * floors + 16 * armLength + 2
    ensures SpringsIn(ss, 4, 4 * floors + 4 * armLength + 1)
    ensures forall i :: 0 <= i < |ss| ==>
      && ss[i].c2.kind == MASS
      && ss[i].stiffness == (if i < 16 * floors + 16 * armLength then 2000.0 else 1000.0)
  {
    var nm := 4 * floors + 4 * armLength;
    var tower := TowerBays(floors, Diag(sqrt));
    var arm := ArmBays(armLength, floors, Diag(sqrt));
    var cables := Cables(ArmFace(armLength, floors), Connector(MASS, nm), CableLen(sqrt));
    TowerBaysFit(floors, nm, Diag(sqrt));
    ArmBaysFit(armLength, floors, nm, Diag(sqrt));
    CablesFit(armLength, floors, nm, CableLen(sqrt));
    SpringsOfParts(tower + arm + cables, tower, arm, cables, nm);
    tower + arm + cables
  }

  /** The system `build_crane` returns, for a tower of `floors` cubes and an arm of `armLength`. */
  function CraneRegistry(floors: nat, armLength: nat, sqrt: Sqrt): Registry
    requires floors >= 2
  {
    Registry(3, CraneFixes(), CraneMassSeq(floors, armLength), CraneSpringSeq(floors, armLength, sqrt),
             [], [0.0, 0.0, -9.81])
  }

  lemma AppendAssoc<T>(a: seq<T>, b: seq<T>, c: seq<T>)
    ensures a + b + c == a + (b + c)
  {
  }

  lemma TowerBaysStep(n: nat, diag: real)
    ensures TowerBays(n + 1, diag) == TowerBays(n, diag) + Bay(TowerFloor(n), TowerFloor(n + 1), diag)
  {
  }

  lemma ArmBaysStep(n: nat, floors: nat, diag: real)
    requires floors >= 2
    ensures ArmBays(n + 1, floors, diag) == ArmBays(n, floors, diag) + Bay(ArmFace(n, floors), ArmFace(n + 1, floors), diag)
  {
  }

  /** Tower springs end on a tower mass and start on a fix or a tower mass. */
  predicate TowerLike(ss: seq<Spring>, nm: nat) {
    forall i :: 0 <= i < |ss| ==>
      && ss[i].c2.kind == MASS && ss[i].c2.nr < nm && ss[i].stiffness == Stiffness
      && ConnectorIn(ss[i].c1, 4, nm)
  }

  /** Arm springs join two masses. */
  predicate ArmLike(ss: seq<Spring>, nm: nat) {
    forall i :: 0 <= i < |ss| ==>
      && ss[i].c1.kind == MASS && ss[i].c2.kind == MASS && ss[i].stiffness == Stiffness
      && ss[i].c1.nr < nm && ss[i].c2.nr < nm
  }

  /** Cables run from a mass to the load, mass `nm`. */
  predicate CableLike(ss: seq<Spring>, nm: nat) {
    forall i :: 0 <= i < |ss| ==>
      && ss[i].c1.kind == MASS && ss[i].c1.nr < nm && ss[i].c2 == Connector(MASS, nm)
      && ss[i].stiffness == CableStiffness
  }

  /** The tower's bays fit a registry of four fixes and at least `4 * n` masses. */
  lemma {:induction false} TowerBaysFit(n: nat, nm: nat, diag: real)
    requires 4 * n <= nm
    ensures TowerLike(TowerBays(n, diag), nm)
  {
    if n > 0 {
      TowerBaysFit(n - 1, nm, diag);
      TowerBayFits(n, nm, diag);
      TowerLikeAppend(TowerBays(n - 1, diag), Bay(TowerFloor(n - 1), TowerFloor(n), diag), nm);
    }
  }

  /** The bay below floor `f` ends on floor `f`'s masses and starts on floor `f - 1` or `f`. */
  lemma TowerBayFits(f: nat, nm: nat, diag: real)
    requires 1 <= f && 4 * f <= nm
    ensures TowerLike(Bay(TowerFloor(f - 1), TowerFloor(f), diag), nm)
  {
    QuadsJoin(TowerFloor(f - 1), TowerFloor(f), 4, diag);
    TowerFloorIn(f - 1);
    TowerFloorIn(f);
  }

  lemma TowerLikeAppend(p: seq<Spring>, q: seq<Spring>, nm: nat)
    requires TowerLike(p, nm) && TowerLike(q, nm)
    ensures TowerLike(p + q, nm)
  {
    forall i | |p| <= i < |p + q| ensures (p + q)[i] == q[i - |p|] { }
  }

  /** The arm's bays join masses of a registry of at least `4 * floors + 4 * n` masses. */
  lemma {:induction false} ArmBaysFit(n: nat, floors: nat, nm: nat, diag: real)
    requires floors >= 2 && 4 * floors + 4 * n <= nm
    ensures ArmLike(ArmBays(n, floors, diag), nm)
  {
    if n > 0 {
      ArmBaysFit(n - 1, floors, nm, diag);
      ArmBayFits(n, floors, nm, diag);
      ArmLikeAppend(ArmBays(n - 1, floors, diag), Bay(ArmFace(n - 1, floors), ArmFace(n, floors), diag), nm);
    }
  }

  /** The bay behind arm face `j` joins masses of faces `j - 1` and `j`. */
  lemma ArmBayFits(j: nat, floors: nat, nm: nat, diag: real)
    requires 1 <= j && floors >= 2 && 4 * floors + 4 * j <= nm
    ensures ArmLike(Bay(ArmFace(j - 1, floors), ArmFace(j, floors), diag), nm)
  {
    QuadsJoin(ArmFace(j - 1, floors), ArmFace(j, floors), 4, diag);
    ArmFaceIn(j - 1, floors);
    ArmFaceIn(j, floors);
  }

  lemma ArmLikeAppend(p: seq<Spring>, q: seq<Spring>, nm: nat)
    requires ArmLike(p, nm) && ArmLike(q, nm)
    ensures ArmLike(p + q, nm)
  {
    forall i | |p| <= i < |p + q| ensures (p + q)[i] == q[i - |p|] { }
  }

  lemma CablesFit(armLength: nat, floors: nat, nm: nat, cableLen: real)
    requires floors >= 2 && nm == 4 * floors + 4 * armLength
    ensures CableLike(Cables(ArmFace(armLength, floors), Connector(MASS, nm), cableLen), nm)
  {
    var tip := ArmFace(armLength, floors);
    ArmFaceIn(armLength, floors);
    assert tip[0] in tip && tip[1] in tip;
  }

  /** The facts of `CraneSpringSeq`, from those of the tower's, the arm's and the cables' springs. */
  lemma SpringsOfParts(ss: seq<Spring>, tower: seq<Spring>, arm: seq<Spring>, cables: seq<Spring>, nm: nat)
    requires ss == tower + arm + cables
    requires TowerLike(tower, nm) && ArmLike(arm, nm) && CableLike(cables, nm)
    ensures |ss| == |tower| + |arm| + |cables|
    ensures SpringsIn(ss, 4, nm + 1)
    ensures forall i :: 0 <= i < |ss| ==>
      ss[i].c2.kind == MASS && ss[i].stiffness == (if i < |tower| + |arm| then 2000.0 else 1000.0)
  {
    forall i | 0 <= i < |ss|
      ensures ss[i].c2.kind == MASS && ss[i].stiffness == (if i < |tower| + |arm| then 2000.0 else 1000.0)
      ensures ConnectorIn(ss[i].c1, 4, nm + 1) && ConnectorIn(ss[i].c2, 4, nm + 1)
    {
      if i < |tower| {
        assert ss[i] == tower[i];
      } else if i < |tower| + |arm| {
        assert ss[i] == arm[i - |tower|];
      } else {
        assert ss[i] == cables[i - |tower| - |arm|];
      }
    }
  }

  /**
   * Four masses per floor above the ground, four per arm face and the load;
   * every mass weighs 1 except the load, which weighs 20, and all start at
   * rest.
   */
  lemma CraneMasses(floors: nat, armLength: nat)
    requires floors >= 2
    ensures var ms := CraneMassSeq(floors, armLength);
      && |ms| == 4 * floors + 4 * armLength + 1 && MassesHaveDim(ms, 3)
      && (forall i :: 0 <= i < |ms| ==>
            && ms[i].mass == (if i == 4 * floors + 4 * armLength then 20.0 else 1.0)
            && IsZero(ms[i].vel) && IsZero(ms[i].acc))
  {
    var all := CraneMassSeq(floors, armLength);
    var nm := 4 * floors + 4 * armLength;
    var ms := TowerMasses(floors) + ArmMasses(armLength, floors);
    TowerMassesAtRest(floors);
    ArmMassesAtRest(armLength, floors);
    UnitsAtRestAppend(TowerMasses(floors), ArmMasses(armLength, floors));
    forall i | 0 <= i < |all|
      ensures all[i].mass == (if i == nm then 20.0 else 1.0)
      ensures MassHasDim(all[i], 3) && IsZero(all[i].vel) && IsZero(all[i].acc)
    {
      if i < nm {
        assert all[i] == ms[i];
      }
    }
  }

  /** The registered system is wired: what the force assembly needs of it. */
  lemma CraneWired(floors: nat, armLength: nat, sqrt: Sqrt)
    requires floors >= 2
    ensures Wired(CraneRegistry(floors, armLength, sqrt))
  {
    CraneMasses(floors, armLength);
  }

  /** The crane `build_crane` actually builds: 4 fixes, 73 masses, 290 springs, none joining two fixes. */
  lemma BuiltCrane(sqrt: Sqrt)
    ensures var r := CraneRegistry(Floors, ArmLength, sqrt);
      && |r.fixes| == 4 && |r.masses| == 73 && |r.springs| == 290 && |r.constraints| == 0
      && Wired(r)
      && (forall i :: 0 <= i < |r.springs| ==> r.springs[i].c2.kind == MASS)
  {
    CraneMasses(Floors, ArmLength);
    CraneWired(Floors, ArmLength, sqrt);
  }

  /**
   * `build_crane()`: the tower, the arm, the load, on a fresh
   * `MassSpringSystem3d` whose gravity is set first.
   */
  method BuildCrane(sqrt: Sqrt) returns (mss: MassSpringSystem)
    ensures fresh(mss) && mss.Valid() && mss.Snapshot() == CraneRegistry(Floors, ArmLength, sqrt)
  {
    mss := new MassSpringSystem(3);
    mss.SetGravity([0.0, 0.0, -9.81]);
    var floors := Floors;
    var nodes := BuildTower(mss, floors);
    ConnectTower(mss, nodes, floors, sqrt);
    assert mss.springs == TowerBays(floors, Diag(sqrt));
    var prevFace, currentX, zBot := BuildArm(mss, nodes, floors, ArmLength, sqrt);
    ghost var tip := Connector(MASS, |mss.masses|);
    assert tip == Connector(MASS, 4 * floors + 4 * ArmLength);
    HangLoad(mss, prevFace, currentX, zBot, sqrt);
    CraneRegistryIs(mss.Snapshot(), sqrt);
  }

  /** The registry the three steps leave behind is the crane's. */
  lemma CraneRegistryIs(r: Registry, sqrt: Sqrt)
    requires r.d == 3 && r.fixes == CraneFixes() && r.constraints == [] && r.gravity == [0.0, 0.0, -9.81]
    requires r.masses == TowerMasses(Floors) + ArmMasses(ArmLength, Floors)
      + [Binding.MakeMass(LoadMass, [L + ArmLength as real * L, L / 2.0, (Floors - 1) as real * L - 1.0])]
    requires r.springs == TowerBays(Floors, Diag(sqrt)) + ArmBays(ArmLength, Floors, Diag(sqrt))
      + Cables(ArmFace(ArmLength, Floors), Connector(MASS, 4 * Floors + 4 * ArmLength), CableLen(sqrt))
    ensures r == CraneRegistry(Floors, ArmLength, sqrt)
  {
  }

  /**
   * Step 1, the floors: floor 0's corners become fixes, every higher
   * floor's corners unit masses; `nodes[f]` holds floor `f`'s connectors.
   */
  method BuildTower(mss: MassSpringSystem, floors: nat) returns (nodes: seq<seq<Connector>>)
    requires mss.Valid() && mss.D == 3 && mss.fixes == [] && mss.masses == []
    modifies mss`masses, mss`fixes, mss`springs
    ensures mss.Valid() && mss.springs == old(mss.springs)
    ensures mss.fixes == CraneFixes() && mss.masses == TowerMasses(floors)
    ensures |nodes| == floors + 1 && forall f :: 0 <= f <= floors ==> nodes[f] == TowerFloor(f)
  {
    nodes := [];
    var i := 0;
    while i < floors + 1
      invariant 0 <= i <= floors + 1
      invariant mss.Valid() && mss.springs == old(mss.springs)
      invariant |nodes| == i && forall f :: 0 <= f < i ==> nodes[f] == TowerFloor(f)
      invariant mss.fixes == (if i == 0 then [] else CraneFixes())
      invariant mss.masses == TowerMasses(if i == 0 then 0 else i - 1)
    {
      var floorNodes := AddFloor(mss, i);
      NodesStep(nodes, floorNodes, i);
      nodes := nodes + [floorNodes];
      i := i + 1;
    }
  }

  lemma NodesStep(nodes: seq<seq<Connector>>, floorNodes: seq<Connector>, i: nat)
    requires |nodes| == i && forall f :: 0 <= f < i ==> nodes[f] == TowerFloor(f)
    requires floorNodes == TowerFloor(i)
    ensures forall f :: 0 <= f < i + 1 ==> (nodes + [floorNodes])[f] == TowerFloor(f)
  {
  }

  /**
   * The `for pos in coords` loop of floor `i`: a fix at each
   * corner of floor 0, a unit mass at each corner of a higher floor.
   */
  method AddFloor(mss: MassSpringSystem, i: nat) returns (floorNodes: seq<Connector>)
    requires mss.Valid() && mss.D == 3
    requires i == 0 ==> |mss.fixes| == 0
    requires i > 0 ==> |mss.masses| == 4 * (i - 1)
    modifies mss`masses, mss`fixes, mss`springs
    ensures mss.Valid() && mss.springs == old(mss.springs)
    ensures floorNodes == TowerFloor(i)
    ensures mss.fixes == old(mss.fixes) + (if i == 0 then CraneFixes() else [])
    ensures mss.masses == old(mss.masses) + (if i == 0 then [] else MassesAt(FloorCoords(i as real * L), UnitMass))
  {
    ghost var fixes, masses := CraneFixes(), MassesAt(FloorCoords(i as real * L), UnitMass);
    floorNodes := [];
    var k := 0;
    while k < 4
      invariant 0 <= k <= 4
      invariant mss.Valid() && mss.springs == old(mss.springs)
      invariant floorNodes == TowerFloor(i)[..k]
      invariant mss.fixes == old(mss.fixes) + (if i == 0 then fixes[..k] else [])
      invariant mss.masses == old(mss.masses) + (if i == 0 then [] else masses[..k])
    {
      var c := AddCorner(mss, i, k);
      floorNodes := floorNodes + [c];
      PrefixStep(TowerFloor(i), k);
      PrefixStep(fixes, k);
      PrefixStep(masses, k);
      k := k + 1;
    }
    assert fixes[..4] == fixes;
    assert masses[..4] == masses;
  }

  /** Corner `k` of floor `i`: a fix on the ground floor, a unit mass above it. */
  method AddCorner(mss: MassSpringSystem, i: nat, k: nat) returns (c: Connector)
    requires mss.Valid() && mss.D == 3 && k < 4
    requires i == 0 ==> |mss.fixes| == k
    requires i > 0 ==> |mss.masses| == 4 * (i - 1) + k
    modifies mss`masses, mss`fixes, mss`springs
    ensures mss.Valid() && mss.springs == old(mss.springs)
    ensures c == TowerFloor(i)[k]
    ensures mss.fixes == old(mss.fixes) + (if i == 0 then [CraneFixes()[k]] else [])
    ensures mss.masses == old(mss.masses) + (if i == 0 then [] else [MassesAt(FloorCoords(i as real * L), UnitMass)[k]])
  {
    var pos := FloorCoords(i as real * L)[k];
    var res;
    if i == 0 {
      res := Binding.Add(mss, Binding.FixItem(Fix(pos)));
    } else {
      res := Binding.Add(mss, Binding.MassItem(Binding.MakeMass(UnitMass, pos)));
    }
    c := res.c;
  }

  /** Step 1, the beams: one bay of springs between each floor and the next. */
  method ConnectTower(mss: MassSpringSystem, nodes: seq<seq<Connector>>, floors: nat, sqrt: Sqrt)
    requires mss.Valid() && mss.D == 3
    requires |nodes| == floors + 1 && forall f :: 0 <= f <= floors ==> nodes[f] == TowerFloor(f)
    modifies mss`masses, mss`fixes, mss`springs
    ensures mss.Valid() && mss.masses == old(mss.masses) && mss.fixes == old(mss.fixes)
    ensures mss.springs == old(mss.springs) + TowerBays(floors, Diag(sqrt))
  {
    var i := 0;
    while i < floors
      invariant 0 <= i <= floors
      invariant mss.Valid() && mss.masses == old(mss.masses) && mss.fixes == old(mss.fixes)
      invariant mss.springs == old(mss.springs) + TowerBays(i, Diag(sqrt))
    {
      JoinFaces(mss, nodes[i], nodes[i + 1], sqrt);
      TowerBaysStep(i, Diag(sqrt));
      AppendAssoc(old(mss.springs), TowerBays(i, Diag(sqrt)), Bay(TowerFloor(i), TowerFloor(i + 1), Diag(sqrt)));
      i := i + 1;
    }
  }

  /**
   * The `for k in range(4)` loops of both the tower and the arm: for each
   * corner an edge from `a` to `b`, a ring edge on `b` and the two
   * diagonals of the side face.
   */
  method JoinFaces(mss: MassSpringSystem, a: seq<Connector>, b: seq<Connector>, sqrt: Sqrt)
    requires mss.Valid() && mss.D == 3 && |a| == 4 && |b| == 4
    modifies mss`masses, mss`fixes, mss`springs
    ensures mss.Valid() && mss.masses == old(mss.masses) && mss.fixes == old(mss.fixes)
    ensures mss.springs == old(mss.springs) + Bay(a, b, Diag(sqrt))
  {
    var k := 0;
    while k < 4
      invariant 0 <= k <= 4
      invariant mss.Valid() && mss.masses == old(mss.masses) && mss.fixes == old(mss.fixes)
      invariant mss.springs == old(mss.springs) + Quads(a, b, k, Diag(sqrt))
    {
      AddQuad(mss, a, b, k, sqrt);
      assert Quads(a, b, k + 1, Diag(sqrt)) == Quads(a, b, k, Diag(sqrt)) + Quad(a, b, k, Diag(sqrt));
      k := k + 1;
    }
  }

  /** One pass of those loops: the four springs of corner `k`. */
  method AddQuad(mss: MassSpringSystem, a: seq<Connector>, b: seq<Connector>, k: nat, sqrt: Sqrt)
    requires mss.Valid() && mss.D == 3 && |a| == 4 && |b| == 4 && k < 4
    modifies mss`masses, mss`fixes, mss`springs
    ensures mss.Valid() && mss.masses == old(mss.masses) && mss.fixes == old(mss.fixes)
    ensures mss.springs == old(mss.springs) + Quad(a, b, k, Diag(sqrt))
  {
    var cOld, cNew := a[k], b[k];
    var cNewNeighbor, cOldNeighbor := b[(k + 1) % 4], a[(k + 1) % 4];
    var diagLen := sqrt(2.0) * L;
    var idx := Binding.Add(mss, Binding.SpringItem(Spring(L, Stiffness, cOld, cNew)));
    idx := Binding.Add(mss, Binding.SpringItem(Spring(L, Stiffness, cNew, cNewNeighbor)));
    idx := Binding.Add(mss, Binding.SpringItem(Spring(diagLen, Stiffness, cOld, cNewNeighbor)));
    idx := Binding.Add(mss, Binding.SpringItem(Spring(diagLen, Stiffness, cOldNeighbor, cNew)));
  }

  /**
   * Step 2, the arm: starting from the side of the top tower cube, each new
   * face of four unit masses one unit further out is joined to the last.
   */
  method BuildArm(mss: MassSpringSystem, nodes: seq<seq<Connector>>, floors: nat, armLength: nat, sqrt: Sqrt)
    returns (prevFace: seq<Connector>, currentX: real, zBot: real)
    requires mss.Valid() && mss.D == 3 && floors >= 2 && armLength >= 1
    requires |nodes| == floors + 1 && forall f :: 0 <= f <= floors ==> nodes[f] == TowerFloor(f)
    requires mss.masses == TowerMasses(floors)
    modifies mss`masses, mss`fixes, mss`springs
    ensures mss.Valid() && mss.fixes == old(mss.fixes)
    ensures mss.masses == TowerMasses(floors) + ArmMasses(armLength, floors)
    ensures mss.springs == old(mss.springs) + ArmBays(armLength, floors, Diag(sqrt))
    ensures prevFace == ArmFace(armLength, floors)
    ensures currentX == L + armLength as real * L && zBot == (floors - 1) as real * L
  {
    prevFace := [nodes[floors - 1][1], nodes[floors - 1][2], nodes[floors][2], nodes[floors][1]];
    currentX, zBot := 0.0, 0.0;
    var j := 1;
    while j < armLength + 1
      invariant 1 <= j <= armLength + 1
      invariant mss.Valid() && mss.D == 3 && mss.fixes == old(mss.fixes)
      invariant mss.masses == TowerMasses(floors) + ArmMasses(j - 1, floors)
      invariant mss.springs == old(mss.springs) + ArmBays(j - 1, floors, Diag(sqrt))
      invariant prevFace == ArmFace(j - 1, floors)
      invariant j > 1 ==> currentX == L + (j - 1) as real * L && zBot == (floors - 1) as real * L
    {
      prevFace, currentX, zBot := ArmSection(mss, prevFace, j, floors, sqrt, old(mss.springs));
      j := j + 1;
    }
    assert j - 1 == armLength;
  }

  /** One pass of the arm loop: face `j`'s four masses, then the bay joining it to face `j - 1`. */
  method ArmSection(mss: MassSpringSystem, prevFace: seq<Connector>, j: nat, floors: nat, sqrt: Sqrt, ghost base: seq<Spring>)
    returns (currentFace: seq<Connector>, currentX: real, zBot: real)
    requires mss.Valid() && mss.D == 3 && floors >= 2 && j >= 1
    requires mss.masses == TowerMasses(floors) + ArmMasses(j - 1, floors)
    requires mss.springs == base + ArmBays(j - 1, floors, Diag(sqrt))
    requires prevFace == ArmFace(j - 1, floors)
    modifies mss`masses, mss`fixes, mss`springs
    ensures mss.Valid() && mss.fixes == old(mss.fixes)
    ensures mss.masses == TowerMasses(floors) + ArmMasses(j, floors)
    ensures mss.springs == base + ArmBays(j, floors, Diag(sqrt))
    ensures currentFace == ArmFace(j, floors)
    ensures currentX == L + j as real * L && zBot == (floors - 1) as real * L
  {
    currentX := L + j as real * L;
    zBot := (floors - 1) as real * L;
    var zTop := floors as real * L;
    var armCoords := [[currentX, 0.0, zBot], [currentX, L, zBot], [currentX, L, zTop], [currentX, 0.0, zTop]];
    assert armCoords == ArmCoords(currentX, floors);
    currentFace := AddFace(mss, armCoords);
    ArmMassesStep(j, floors);
    ArmFaceAfter(j, floors);
    JoinFaces(mss, prevFace, currentFace, sqrt);
    ArmBaysStep(j - 1, floors, Diag(sqrt));
    AppendAssoc(base, ArmBays(j - 1, floors, Diag(sqrt)), Bay(ArmFace(j - 1, floors), ArmFace(j, floors), Diag(sqrt)));
  }

  lemma ArmMassesStep(j: nat, floors: nat)
    requires j >= 1
    ensures TowerMasses(floors) + ArmMasses(j, floors)
      == TowerMasses(floors) + ArmMasses(j - 1, floors) + MassesAt(ArmCoords(L + j as real * L, floors), UnitMass)
  {
    AppendAssoc(TowerMasses(floors), ArmMasses(j - 1, floors), MassesAt(ArmCoords(L + j as real * L, floors), UnitMass));
  }

  lemma ArmFaceAfter(j: nat, floors: nat)
    requires j >= 1 && floors >= 2
    ensures var b := |TowerMasses(floors) + ArmMasses(j - 1, floors)|;
      ArmFace(j, floors) == [Connector(MASS, b), Connector(MASS, b + 1), Connector(MASS, b + 2), Connector(MASS, b + 3)]
  {
  }

  /** `for pos in arm_coords: current_face.append(mss.add(Mass(mass, pos)))`. */
  method AddFace(mss: MassSpringSystem, coords: seq<Vec>) returns (face: seq<Connector>)
    requires mss.Valid() && mss.D == 3 && |coords| == 4
    requires forall k :: 0 <= k < 4 ==> |coords[k]| == 3
    modifies mss`masses, mss`fixes, mss`springs
    ensures mss.Valid() && mss.fixes == old(mss.fixes) && mss.springs == old(mss.springs)
    ensures mss.masses == old(mss.masses) + MassesAt(coords, UnitMass)
    ensures var b := old(|mss.masses|);
      face == [Connector(MASS, b), Connector(MASS, b + 1), Connector(MASS, b + 2), Connector(MASS, b + 3)]
  {
    face := [];
    var k := 0;
    while k < 4
      invariant 0 <= k <= 4
      invariant mss.Valid() && mss.fixes == old(mss.fixes) && mss.springs == old(mss.springs)
      invariant mss.masses == old(mss.masses) + MassesAt(coords, UnitMass)[..k]
      invariant |face| == k && forall i :: 0 <= i < k ==> face[i] == Connector(MASS, old(|mss.masses|) + i)
    {
      var res := Binding.Add(mss, Binding.MassItem(Binding.MakeMass(UnitMass, coords[k])));
      assert MassesAt(coords, UnitMass)[..k + 1] == MassesAt(coords, UnitMass)[..k] + [Binding.MakeMass(UnitMass, coords[k])];
      face := face + [res.c];
      k := k + 1;
    }
    assert MassesAt(coords, UnitMass)[..4] == MassesAt(coords, UnitMass);
  }

  /** Step 3, the load: a heavy mass under the arm's tip, hung from its two lower corners. */
  method HangLoad(mss: MassSpringSystem, prevFace: seq<Connector>, currentX: real, zBot: real, sqrt: Sqrt)
    requires mss.Valid() && mss.D == 3 && |prevFace| == 4
    modifies mss`masses, mss`fixes, mss`springs
    ensures mss.Valid() && mss.fixes == old(mss.fixes)
    ensures mss.masses == old(mss.masses) + [Binding.MakeMass(LoadMass, [currentX, L / 2.0, zBot - 1.0])]
    ensures mss.springs == old(mss.springs) + Cables(prevFace, Connector(MASS, old(|mss.masses|)), CableLen(sqrt))
  {
    var loadPos := [currentX, L / 2.0, zBot - 1.0];
    var res := Binding.Add(mss, Binding.MassItem(Binding.MakeMass(LoadMass, loadPos)));
    var loadMass := res.c;
    var cableLen := sqrt((L / 2.0) * (L / 2.0) + 1.0 * 1.0);
    var idx := Binding.Add(mss, Binding.SpringItem(Spring(cableLen, Stiffness / 2.0, prevFace[0], loadMass)));
    idx := Binding.Add(mss, Binding.SpringItem(Spring(cableLen, Stiffness / 2.0, prevFace[1], loadMass)));
  }
}
