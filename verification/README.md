# ASC-ODE team 09: the exact core, in Dafny

This project models the parts of the ASC-ODE exercises that are bookkeeping
and exact algebra. Every number is a Dafny `real`, so rounding is not
modelled. It covers three components.

- **Mass-spring systems** (mechsystem/). `MassSpringSystem<D>` is an
  append-only registry of fixes, masses, springs and distance constraints,
  addressed through typed `Connector`s. `getState`/`setState` copy the mass
  state to and from flat row-major vectors. `MSS_Function<D>` assembles the
  accelerations `f(x)` and the spring Jacobian `df/dx` by index arithmetic.
  The model also covers:
  - the Python binding's `add`, `__getitem__`, `gravity`, `getState` and
    `simulate`, which packs the state into vectors augmented by one
    multiplier per distance constraint;
  - the pure-Python mock `MassSpringSystem3d`;
  - the crane that `build_crane` registers: 4 fixes, 73 masses and 290
    springs.

  The Euclidean `norm`, `math.sqrt` and the generalized-alpha solver are
  function parameters.
- **Explicit one-step methods**:
  - explicit Euler and improved Euler (Heun) in src/timestepper.hpp;
  - the second Heun class of Exercise1/ex17.2.2, with its linear oscillator;
  - the `s`-stage `ExplicitRungeKutta` of Exercise2/19.4;
  - the RK2 and RK4 tableaus that `SetupRK2`/`SetupRK4` write.

  Each `DoStep` updates an array in place. It is proved equal to a step
  function on sequences. The lemmas relate the methods to each other: the
  one-stage tableau is Euler, RK2 is Heun, and the Heun variants agree.
- **Forward-mode automatic differentiation**. `AutoDiff<N>` is a value
  paired with a gradient, and its ring and field operators are the sum,
  product and quotient rules. `LegendrePolynomials` fills a vector with the
  three-term recurrence, at `T = AutoDiff<N>`.

A right-hand side (`NonlinearFunction`) is a value `Rhs(dimX, dimF, f)`. Its
`f` is an arbitrary function on `seq<real>`.

Two behaviours of the code are easy to miss; the model follows the code:
- `MSS_Function::dimX`/`dimF` count `D * |masses|` only, while `simulate`
  hands the solver vectors with one extra entry per constraint
  (`Binding.Augmented`).
- `evaluate` does not skip springs of length zero. Only distance constraints
  are skipped below `1e-12`. `evaluateDeriv` skips short springs. A
  zero-length spring makes `evaluate` divide by zero. The model reports the
  rows this leaves non-finite (`MssFunction.NonFiniteRows`) and specifies
  every other row exactly (`MssProperties.ZeroLengthSpringContrast`).

## Model

| member | source | states |
|---|---|---|
| Vectors.Div | mechsystem/mass_spring.hpp:13-21 | `v / s` has the length of `v` and entry `i` equal to `v[i] / s` |
| Vectors.ScaleInverse | mechsystem/mass_spring.hpp:236-237 | scaling by `m` and then by `1/m` gives the vector back, for `m != 0` |
| Vectors.AddScaledTo | src/timestepper.hpp:32 | `y += s * v` in place: the new array is `old + s * v` entry by entry |
| Vectors.Fill | mechsystem/mass_spring.hpp:177 | `f = 0.0` sets every entry |
| Vectors.FillMatrix | mechsystem/mass_spring.hpp:243 | `df = 0.0` sets every entry of the matrix |
| Vectors.Assign | src/timestepper.hpp:73 | `a = v` copies the vector, entry by entry |
| MassSpring.NewMass | mechsystem/mass_spring.hpp:25-33 | a mass built from its mass and position has `D`-vectors and zero `vel` and `acc` |
| MassSpring.ConnectorStaysIn | mechsystem/mass_spring.hpp:88-114 | since the registries only grow, a connector that is valid stays valid |
| MassSpring.GetSetRoundTrip | mechsystem/mass_spring.hpp:116-142 | `setState` of what `getState` wrote leaves every mass unchanged |
| MassSpring.SetGetRoundTrip | mechsystem/mass_spring.hpp:116-142 | `getState` after `setState` returns the first `|masses|*D` entries of each vector |
| MassSpring.MassSpringSystem.constructor | mechsystem/mass_spring.hpp:76-83 | empty registries; gravity is the zero `D`-vector |
| MassSpring.MassSpringSystem.SetGravity | mechsystem/mass_spring.hpp:85 | gravity becomes `g`; nothing else changes |
| MassSpring.MassSpringSystem.GetGravity | mechsystem/mass_spring.hpp:86 | returns the stored gravity, a `D`-vector |
| MassSpring.MassSpringSystem.AddFix | mechsystem/mass_spring.hpp:88-92 | appends one fix and returns `{FIX, previous fix count}`; only `fixes` changes |
| MassSpring.MassSpringSystem.AddMass | mechsystem/mass_spring.hpp:94-98 | appends one mass and returns `{MASS, previous mass count}`; only `masses` changes |
| MassSpring.MassSpringSystem.AddSpring | mechsystem/mass_spring.hpp:100-104 | appends the spring unchecked and returns its index, the old count |
| MassSpring.MassSpringSystem.AddDistanceConstraint | mechsystem/mass_spring.hpp:111-114 | appends to `constraints` only |
| MassSpring.MassSpringSystem.GetState | mechsystem/mass_spring.hpp:116-128 | `values[i*D+k] = pos_i[k]`, and the same for `vel`/`acc` into `dvalues`/`ddvalues`; later entries are untouched |
| MassSpring.MassSpringSystem.WriteRow | mechsystem/mass_spring.hpp:122-127 | one loop pass: row `i` is written and the written prefix grows by one row |
| MassSpring.MassSpringSystem.SetState | mechsystem/mass_spring.hpp:130-142 | mass `i` takes row `i` of the three vectors as pos, vel and acc; `mass`, fixes, springs, constraints and gravity stay |
| MssFunction.EndPos | mechsystem/mass_spring.hpp:187-196 | a FIX endpoint is at the fix's stored position, a MASS endpoint at row `nr` of `x` |
| MssFunction.GravityRows | mechsystem/mass_spring.hpp:182-183 | row `i` starts as `m_i * g` |
| MssFunction.MassEnds | mechsystem/mass_spring.hpp:200-203 | exactly the MASS endpoints of a spring or constraint |
| MssFunction.ZeroLengthEnds | mechsystem/mass_spring.hpp:198-203 | the rows zero-length springs write into are mass rows |
| MssFunction.ZeroMassRows | mechsystem/mass_spring.hpp:236-237 | exactly the rows of massless masses, which `1/mass` makes non-finite |
| MssFunction.AddEntry | mechsystem/mass_spring.hpp:282 | `df(rb*D+i, cb*D+j) += v` changes that one entry of the corner and nothing else |
| MssFunction.AddSpringEntries | mechsystem/mass_spring.hpp:280-295 | `-K` into the diagonal block of each MASS endpoint, `+K` into both off-diagonal blocks when both ends are masses |
| MssFunction.MSSFunction.constructor | mechsystem/mass_spring.hpp:169-170 | refers to the given system |
| MssFunction.MSSFunction.Evaluate | mechsystem/mass_spring.hpp:175-238 | every row outside the non-finite set is `Forces(x)`: weight, then spring and constraint forces, then `1/m`; entries past `DimF()` are 0 |
| MssFunction.MSSFunction.AddWeights | mechsystem/mass_spring.hpp:182-183 | the table becomes `m_i * g` row by row |
| MssFunction.MSSFunction.AddSpringForces | mechsystem/mass_spring.hpp:185-204 | the springs are applied in order; reports the rows zero-length springs make non-finite |
| MssFunction.MSSFunction.AddSpringForce | mechsystem/mass_spring.hpp:187-203 | one spring: `+F` on the c1 row, `-F` on the c2 row, mass endpoints only |
| MssFunction.MSSFunction.AddConstraintForces | mechsystem/mass_spring.hpp:206-232 | the penalty forces are applied in order |
| MssFunction.MSSFunction.AddConstraintForce | mechsystem/mass_spring.hpp:211-231 | a constraint shorter than `1e-12` adds nothing; otherwise `+f12` on c1 and `-f12` on c2 |
| MssFunction.MSSFunction.DivideByMass | mechsystem/mass_spring.hpp:235-236 | row `i` is scaled by `1/m_i`; the massless rows are reported |
| MssFunction.MSSFunction.ScaleRow | mechsystem/mass_spring.hpp:236 | row `i` of the table is scaled by `s`; every other row is unchanged |
| MssFunction.MSSFunction.PushRow | mechsystem/mass_spring.hpp:200-203 | `fmat.row(nr) += v` or `-= v` for a MASS connector; a FIX leaves `f` alone |
| MssFunction.MSSFunction.EvaluateDeriv | mechsystem/mass_spring.hpp:240-298 | every block of the `DimF() x DimX()` corner is the spring Jacobian; constraints add nothing; every other entry is 0 |
| MssFunction.ZeroHoldsNoSprings | mechsystem/mass_spring.hpp:242 | the zeroed matrix holds the Jacobian of no springs and is zero outside any corner |
| MssFunction.MSSFunction.AddSpringJacobians | mechsystem/mass_spring.hpp:248-297 | after the spring loop, `df` holds the Jacobian of all the springs and is still zero outside the corner |
| MssFunction.MSSFunction.AddSpringJacobian | mechsystem/mass_spring.hpp:249-296 | one spring adds its `K_ij` blocks, or nothing when shorter than `1e-12` |
| MssProperties.SpringsTouchOnlyTheirMasses | mechsystem/mass_spring.hpp:185-204 | a row no spring ends at keeps its value |
| MssProperties.ConstraintsTouchOnlyTheirMasses | mechsystem/mass_spring.hpp:209-232 | a row no constraint ends at keeps its value |
| MssProperties.ZeroLengthEndsExactly | mechsystem/mass_spring.hpp:198-203 | a row is made non-finite by the springs if and only if a zero-length spring ends at that mass |
| MssProperties.ZeroLengthEndHasSpring | mechsystem/mass_spring.hpp:198-203 | each non-finite row is the mass end of some spring of length zero |
| MssProperties.ZeroLengthSpringEnds | mechsystem/mass_spring.hpp:198-203 | both mass ends of a spring of length zero are non-finite rows |
| MssProperties.DetachedMassFalls | mechsystem/mass_spring.hpp:177-237 | a mass with nothing attached and mass `!= 0` has finite acceleration exactly `g` |
| MssProperties.PairConserves | mechsystem/mass_spring.hpp:200-203 | `+F` on one mass and `-F` on another keep each component's total |
| MssProperties.InternalSpringsConserve | mechsystem/mass_spring.hpp:185-204 | springs between masses keep the total force (equal and opposite) |
| MssProperties.InternalConstraintsConserve | mechsystem/mass_spring.hpp:209-232 | constraints between masses keep the total force |
| MssProperties.NetForceIsWeight | mechsystem/mass_spring.hpp:177-232 | without fixed endpoints, the forces before `1/m` sum to the total weight |
| MssProperties.RelaxedSpringIsInert | mechsystem/mass_spring.hpp:198-203 | a spring at rest length adds nothing |
| MssProperties.ZeroLengthSpringContrast | mechsystem/mass_spring.hpp:198-260 | a zero-length spring makes `evaluate` non-finite at its masses but adds nothing to `evaluateDeriv` |
| MssProperties.JacobianSymmetric | mechsystem/mass_spring.hpp:271-295 | entry `(rb*D+i, cb*D+j)` equals entry `(cb*D+j, rb*D+i)` |
| MssProperties.JacobianRowOfUnsprungMass | mechsystem/mass_spring.hpp:249-296 | a block row is zero unless a spring ends at that mass |
| MssProperties.SpringRowSumClosed | mechsystem/mass_spring.hpp:280-295 | for a MASS-MASS spring, a row's diagonal and off-diagonal blocks sum to zero |
| MssProperties.RigidTranslationInKernel | mechsystem/mass_spring.hpp:249-296 | when every spring joins two masses, every block row of `df/dx` sums to zero |
| Binding.MakeMass | mechsystem/bind_mass_spring.cpp:39-41 | the given mass and position, zero velocity and acceleration |
| Binding.GetItem | mechsystem/bind_mass_spring.cpp:105-108 | a FIX connector selects a fix, any other type a mass |
| Binding.AddedIsRetrieved | mechsystem/bind_mass_spring.cpp:97-108 | the connector `add` returns retrieves the mass or fix just added |
| Binding.OldConnectorsStable | mechsystem/bind_mass_spring.cpp:97-108 | a later `add` of any kind does not change what an earlier connector retrieves |
| Binding.Add | mechsystem/bind_mass_spring.cpp:97-99 | Mass goes to `addMass`, Fix to `addFix`, Spring to `addSpring`, with their results; the other lists stay |
| Binding.SetThenGetGravity | mechsystem/bind_mass_spring.cpp:94-95 | the getter returns what the setter stored |
| Binding.Positions | mechsystem/bind_mass_spring.cpp:110-116 | `3*|masses|` entries; block `i` is mass `i`'s position |
| Binding.GetStateBinding | mechsystem/bind_mass_spring.cpp:110-116 | returns exactly the positions; velocities and accelerations are dropped |
| Binding.Augmented | mechsystem/bind_mass_spring.cpp:129-150 | length `3*|masses| + |constraints|`, so longer than `MSS_Function`'s `dimX = 3*|masses|` by one entry per constraint; the mass state first, then zero multipliers |
| Binding.ZeroPadded | mechsystem/bind_mass_spring.cpp:133-149 | a zeroed vector of the total length with the source copied to its front |
| Binding.MassState | mechsystem/bind_mass_spring.cpp:139-142 | `x_mass`, `dx_mass`, `ddx_mass` hold the flattened positions, velocities and accelerations of the masses |
| Binding.CopyPrefix | mechsystem/bind_mass_spring.cpp:145-149 | the first `n` entries are copied; the rest stay |
| Binding.PackState | mechsystem/bind_mass_spring.cpp:129-150 | the three vectors handed to the solver are `Augmented(mss)` |
| Binding.UnpackState | mechsystem/bind_mass_spring.cpp:159-165 | only the first `3*|masses|` entries go back, through `setState` |
| Binding.BlocksOfPrefix | mechsystem/bind_mass_spring.cpp:160-165 | `setState` reads only the first `3*|masses|` entries, so the trailing multipliers do not matter |
| Binding.Simulate | mechsystem/bind_mass_spring.cpp:127-166 | the masses become the solver's output via `setState`; the counts, fixes, springs, constraints and gravity are unchanged |
| Binding.IdleSolverKeepsMasses | mechsystem/bind_mass_spring.cpp:139-165 | a solver that returns its input leaves every mass as it was |
| PyMassSpring.PyMass.constructor | mechsystem/mass_spring.py:3-7 | a fresh copy of `pos`; `vel = acc = [0, 0, 0]` |
| PyMassSpring.MassSpringSystem3d.constructor | mechsystem/mass_spring.py:42-47 | four empty lists; gravity `(0, 0, -9.81)` |
| PyMassSpring.MassSpringSystem3d.Add | mechsystem/mass_spring.py:50-66 | Mass, Fix or Spring: appended to its own list and returned; anything else returns `None` and changes nothing |
| PyMassSpring.MassSpringSystem3d.AddDistanceConstraint | mechsystem/mass_spring.py:69-71 | appends to `constraints` only |
| PyMassSpring.MassSpringSystem3d.GetState | mechsystem/mass_spring.py:74-75 | the masses' own position lists, one per mass, in insertion order |
| PyMassSpring.MassSpringSystem3d.Simulate | mechsystem/mass_spring.py:78-87 | one pass whatever `num_steps` is: `pos[k]` gains `vel[k]*dt` once per listed mass owning that list, for `k < 3`; nothing else changes; it stops with `IndexError` exactly when some mass has fewer than three `pos` or `vel` entries, naming the first such mass, after the masses before it and the entries that mass reached have moved |
| PyMassSpring.MoveAll | mechsystem/mass_spring.py:84-87 | the loop over the listed masses: every mass moved in order, up to and including the first one that raises `IndexError`, which it names |
| PyMassSpring.Move | mechsystem/mass_spring.py:85-87 | `pos[k] += vel[k]*dt` for `k = 0, 1, 2` in turn, other entries unchanged; fails exactly when a `pos[k]` or `vel[k]` is missing, having moved the entries before it |
| PyMassSpring.DriftPastThird | mechsystem/mass_spring.py:85-87 | `simulate` never moves an entry past the third |
| PyMassSpring.DriftOfOwnList | mechsystem/mass_spring.py:84-87 | a mass listed once that alone owns its list moves by exactly `vel[k]*dt` |
| PyMassSpring.DriftOfUnlisted | mechsystem/mass_spring.py:84-87 | a list no listed mass owns does not move |
| PyMassSpring.DriftOfRepeatedMass | mechsystem/mass_spring.py:84-87 | a mass added twice moves twice |
| PyMassSpring.DriftAtRest | mechsystem/mass_spring.py:84-87 | with every `vel[k]` zero, no `pos[k]` changes |
| Crane.FloorCoords | mechsystem/crane.py:25-30 | four 3-D corners at height `z` |
| Crane.ArmCoords | mechsystem/crane.py:79-84 | four 3-D corners in the plane `x = current_x` |
| Crane.MassesAt | mechsystem/crane.py:86-89 | a mass of the given weight at each position, at rest |
| Crane.CraneFixes | mechsystem/crane.py:32-34 | four 3-D fixes, all on floor 0 (`z = 0`) |
| Crane.TowerMassesAtRest | mechsystem/crane.py:32-36 | every tower mass is a unit 3-D mass at rest |
| Crane.ArmMassesAtRest | mechsystem/crane.py:86-89 | every arm mass is a unit 3-D mass at rest |
| Crane.TowerFloorIn | mechsystem/crane.py:32-40 | floor 0's connectors are the four fixes; floor `f`'s are masses registered before floor `f+1`'s |
| Crane.ArmFaceIn | mechsystem/crane.py:67-89 | every arm face, the glued tower side included, consists of masses registered before the next face |
| Crane.QuadsJoin | mechsystem/crane.py:47-62 | every beam between two faces ends on the new face, starts on one of the two, and has stiffness 2000 |
| Crane.Bay | mechsystem/crane.py:47-62 | one cube bay is 16 springs |
| Crane.TowerBays | mechsystem/crane.py:43-62 | `floors` bays, so 160 springs |
| Crane.ArmBays | mechsystem/crane.py:91-103 | `arm_length` bays, so 128 springs |
| Crane.TowerBaysFit | mechsystem/crane.py:43-62 | tower springs end on a tower mass and start on a fix or a mass |
| Crane.ArmBaysFit | mechsystem/crane.py:91-103 | arm springs join two existing masses |
| Crane.TowerBayFits | mechsystem/crane.py:43-62 | the bay below floor `f` ends on floor `f`'s masses and starts on floor `f-1` or `f` |
| Crane.ArmBayFits | mechsystem/crane.py:91-103 | the bay behind arm face `j` joins masses of faces `j-1` and `j` |
| Crane.CablesFit | mechsystem/crane.py:119-120 | the two cables run from the tip's lower corners to the load, with stiffness 1000 |
| Crane.SpringsOfParts | mechsystem/crane.py:43-120 | the combined springs name existing entities, end on masses, and have stiffness 2000 (beams) or 1000 (cables) |
| Crane.CraneSpringSeq | mechsystem/crane.py:43-120 | `16*floors + 16*arm_length + 2` springs naming existing entities, each ending on a mass; beams have stiffness 2000, the cables 1000 |
| Crane.CraneMasses | mechsystem/crane.py:21-112 | `4*floors + 4*arm_length + 1` masses at rest, all of mass 1 except the load's 20 |
| Crane.CraneWired | mechsystem/crane.py:8-122 | every vector is 3-D and every connector names an existing fix or mass |
| Crane.BuiltCrane | mechsystem/crane.py:8-122 | 4 fixes, 73 masses, 290 springs, no constraints, every connector valid; every spring's second end is a mass, so none joins two fixes |
| Crane.BuildCrane | mechsystem/crane.py:8-122 | the system returned is exactly `CraneRegistry(10, 8)`, with gravity `(0, 0, -9.81)` |
| Crane.BuildTower | mechsystem/crane.py:19-40 | fixes on floor 0, unit masses on floors 1 to 10; `nodes[f]` is floor `f`'s connectors |
| Crane.AddFloor | mechsystem/crane.py:21-38 | one floor: four fixes on floor 0, four unit masses higher up; their connectors are returned |
| Crane.AddCorner | mechsystem/crane.py:32-38 | corner `k` of floor `i`: a fix on floor 0, a unit mass higher up; its connector is corner `k` of the floor |
| Crane.ConnectTower | mechsystem/crane.py:43-62 | appends the tower's bays and nothing else |
| Crane.JoinFaces | mechsystem/crane.py:47-62 | for each corner: edge, ring edge and two diagonals, 16 springs |
| Crane.AddQuad | mechsystem/crane.py:48-62 | the four springs of corner `k` in order: edge, ring edge, then the two diagonals of length `sqrt(2)*L` |
| Crane.BuildArm | mechsystem/crane.py:64-105 | appends the arm's masses and bays; returns the tip face, `current_x` and `z_bot` |
| Crane.ArmSection | mechsystem/crane.py:74-105 | one arm face of four masses plus its bay to the previous face |
| Crane.AddFace | mechsystem/crane.py:86-89 | four unit masses appended; returns their four consecutive connectors |
| Crane.HangLoad | mechsystem/crane.py:107-120 | the 20 kg load at `(x, L/2, z_bot - 1)` and two cables of stiffness 1000 |
| Steppers.ZeroStepIsIdentity | src/timestepper.hpp:29-77 | with `tau == 0`, both Euler and improved Euler leave `y` unchanged |
| Steppers.ConstantRhsStep | src/timestepper.hpp:29-77 | for a constant `f = c`, both steps give `y + tau*c` |
| Steppers.ExplicitEuler.constructor | src/timestepper.hpp:16-28 | `m_rhs` is fixed once; the scratch `m_vecf` has `dimF` entries |
| Steppers.ExplicitEuler.DoStep | src/timestepper.hpp:29-33 | `y := y + tau*f(y_old)`; `m_vecf` holds `f(y_old)` |
| Steppers.ImprovedEuler.constructor | src/timestepper.hpp:64-68 | `m_vecf` has `dimF` entries and `m_y_hat` has `dimX` |
| Steppers.ImprovedEuler.DoStep | src/timestepper.hpp:70-77 | `y := y + tau*f(y + tau/2*f(y))`; `m_y_hat` is the predictor, formed before `m_vecf` is overwritten |
| Steppers.HeunStepAgrees | src/timestepper.hpp:70-77 | two right-hand sides that agree on every vector give the same improved Euler step |
| ImprovedEulerExercise.AsRhs | Exercise1/ex17.2.2/Improved_Euler.cpp:23-30 | a 2x2 right-hand side whose `evaluate` is `(x1, -(k/m)*x0)` |
| ImprovedEulerExercise.JacobianIsExact | Exercise1/ex17.2.2/Improved_Euler.cpp:26-37 | `f(x + h) == f(x) + df*h` for all `x`, `h`: `df = [[0,1],[-k/m,0]]` is the exact Jacobian |
| ImprovedEulerExercise.Evaluate | Exercise1/ex17.2.2/Improved_Euler.cpp:26-30 | `f = (x1, -(k/m)*x0)` |
| ImprovedEulerExercise.EvaluateDeriv | Exercise1/ex17.2.2/Improved_Euler.cpp:32-37 | `df = [[0, 1], [-k/m, 0]]` |
| ImprovedEulerExercise.SameAsTimeStepper | Exercise1/ex17.2.2/Improved_Euler.cpp:57-66 | for every `f`, this Heun step equals `ImprovedEuler` of src/timestepper.hpp |
| ImprovedEulerExercise.ZeroStep | Exercise1/ex17.2.2/Improved_Euler.cpp:57-66 | with `tau == 0`, `y` is unchanged |
| ImprovedEulerExercise.UnitCorrector | Exercise1/ex17.2.2/Improved_Euler.cpp:60-64 | for `k = m = 1`, the corrector slope is `(v - tau/2*x, -x - tau/2*v)` |
| ImprovedEulerExercise.UnitPredictor | Exercise1/ex17.2.2/Improved_Euler.cpp:60-61 | for `k = m = 1`, the predictor is `(x + tau/2*v, v - tau/2*x)` |
| ImprovedEulerExercise.UnitSlope | Exercise1/ex17.2.2/Improved_Euler.cpp:26-30 | for `k = m = 1`, the slope at `(x, v)` is `(v, -x)` |
| ImprovedEulerExercise.UnitOscillatorStep | Exercise1/ex17.2.2/Improved_Euler.cpp:57-66 | for `k = m = 1`, one step maps `(x, v)` to `(x + tau*v - tau²/2*x, v - tau*x - tau²/2*v)` |
| ImprovedEulerExercise.ImprovedEuler.constructor | Exercise1/ex17.2.2/Improved_Euler.cpp:50-55 | three distinct scratch vectors of `dimF` entries |
| ImprovedEulerExercise.ImprovedEuler.DoStep | Exercise1/ex17.2.2/Improved_Euler.cpp:57-66 | `y := y + tau*f(y + 0.5*tau*f(y))`; `m_ytilde` is the predictor from the incoming `y` |
| ExplicitRK.Rows | Exercise2/19.4/explicitRK.hpp:31 | the copied matrix: entry `(i, j)` of the rows is `A(i, j)` |
| ExplicitRK.SlopesPrefix | Exercise2/19.4/explicitRK.hpp:46-55 | later stages never revise earlier slopes |
| ExplicitRK.SlopeAtStage | Exercise2/19.4/explicitRK.hpp:48-54 | `k_j = f(y + tau*sum_{l<j} A(j,l)*k_l)` |
| ExplicitRK.CombineReadsPrefix | Exercise2/19.4/explicitRK.hpp:51-52 | a stage reads only the first `j` weights and slopes |
| ExplicitRK.SameSlopes | Exercise2/19.4/explicitRK.hpp:46-55 | tableaus that agree strictly below the diagonal give the same slopes |
| ExplicitRK.OnlyStrictlyLowerRead | Exercise2/19.4/explicitRK.hpp:43-60 | `DoStep` reads neither `A` on or above the diagonal nor `c` |
| ExplicitRK.OneStageIsEuler | Exercise2/19.4/explicitRK.hpp:43-60 | `s = 1`, `b = [1]` is explicit Euler, whatever `A(0,0)` and `c0` are |
| ExplicitRK.FormStage | Exercise2/19.4/explicitRK.hpp:48-52 | block `j` of `m_y` becomes `y + tau*sum_{l<j} A(j,l)*k_l` |
| ExplicitRK.Accumulate | Exercise2/19.4/explicitRK.hpp:58-59 | `y` becomes `y_old + tau*sum_j b_j*k_j` |
| ExplicitRK.ExplicitRungeKutta.constructor | Exercise2/19.4/explicitRK.hpp:26-36 | the tableau is copied; `m_k` and `m_y` have `s*n` entries, with `n = dimX` |
| ExplicitRK.ExplicitRungeKutta.ComputeStage | Exercise2/19.4/explicitRK.hpp:48-54 | stage `j`'s slope is added to `m_k` as block `j` |
| ExplicitRK.ExplicitRungeKutta.DoStep | Exercise2/19.4/explicitRK.hpp:43-60 | `y := RKStep(tableau, f, tau, y_old)`: every stage is computed from the incoming `y` |
| ExplicitRK.Create | Exercise2/19.4/explicitRK.hpp:26-41 | throws, with the source's messages, iff `A` is not `s x s` or `|b| != s`; otherwise a valid stepper with the copied tableau |
| RkCompare.RK2 | Exercise2/19.4/Rk_compare.cpp:42-52 | a well-shaped 2-stage tableau |
| RkCompare.RK4 | Exercise2/19.4/Rk_compare.cpp:55-71 | a well-shaped 4-stage tableau |
| RkCompare.RK2Properties | Exercise2/19.4/Rk_compare.cpp:42-52 | strictly lower triangular, weights sum to 1, `c_j` = row sum of `A` |
| RkCompare.RK4Properties | Exercise2/19.4/Rk_compare.cpp:55-71 | strictly lower, weights sum to 1, `c_j` = row sums, `b0 == b3` and `b1 == b2` |
| RkCompare.SetupRK2 | Exercise2/19.4/Rk_compare.cpp:42-52 | all of `A` becomes 0 but `A(1,0) = 0.5`; `b = (0, 1)` and `c = (0, 0.5)`; at size 2 this is `RK2()` |
| RkCompare.SetupRK4 | Exercise2/19.4/Rk_compare.cpp:55-71 | all of `A` becomes 0 but the subdiagonal `0.5, 0.5, 1`; `b` and `c` as written; at size 4 this is `RK4()` |
| RkCompare.RowsOfRK4 | Exercise2/19.4/Rk_compare.cpp:57-60 | a 4x4 matrix with those entries has the rows of `RK4()` |
| RkCompare.RK2IsHeun | Exercise2/19.4/Rk_compare.cpp:42-52 | for every `f`, `ExplicitRungeKutta` with `SetupRK2` computes the improved Euler step |
| RkCompare.CombineConstant | Exercise2/19.4/explicitRK.hpp:58-59 | adding the same slope `c` with weights `w` adds it once with weight `sum(w)` |
| RkCompare.ConstantRhsIsExact | Exercise2/19.4/explicitRK.hpp:43-60 | any tableau whose weights sum to 1 gives `y + tau*c` for a constant `f = c` |
| RkCompare.SetupTableausExactForConstants | Exercise2/19.4/Rk_compare.cpp:42-71 | RK2 and RK4 are both exact for constant right-hand sides |
| RkCompare.MassSpringRhs | Exercise2/19.4/Rk_compare.cpp:19-31 | a 2x2 right-hand side with `f(y, v) = (v, -y)` |
| RkCompare.JacobianIsExact | Exercise2/19.4/Rk_compare.cpp:25-38 | `f(u + h) == f(u) + df*h`, so `[[0,1],[-1,0]]` is the exact Jacobian |
| RkCompare.IsUnitMassSpring | Exercise2/19.4/Rk_compare.cpp:25-38 | equals Exercise 17.2.2's `MassSpring` with `m = k = 1`, value and Jacobian |
| RkCompare.Evaluate | Exercise2/19.4/Rk_compare.cpp:25-31 | `f = (v, -y)`, correct even when `u` and `f` alias |
| RkCompare.EvaluateDeriv | Exercise2/19.4/Rk_compare.cpp:33-38 | `df = [[0, 1], [-1, 0]]` |
| RkCompare.RK2OscillatorStep | Exercise2/19.4/Rk_compare.cpp:42-52 | one RK2 step of the oscillator is `(y + tau*v - tau²/2*y, v - tau*y - tau²/2*v)` |
| RkCompare.RK2IsUnitHeun | Exercise2/19.4/Rk_compare.cpp:42-52 | one RK2 step of this oscillator is the improved Euler step of Exercise 17.2.2's mass-spring with `k = m = 1` |
| RkCompare.UnitHeunAgrees | Exercise2/19.4/Rk_compare.cpp:25-31 | this oscillator and `MassSpring(1, 1)` give the same improved Euler step |
| RkCompare.UnitHeunIsTimeStepper | Exercise1/ex17.2.2/Improved_Euler.cpp:57-66 | for `MassSpring(1, 1)` the exercise's step equals the improved Euler step of src/timestepper.hpp |
| AutoDiffs.Default | src/autodiff.hpp:31 | value 0 and an all-zero gradient of length `N` |
| AutoDiffs.Const | src/autodiff.hpp:32-36 | value `v` and, since scalar `derivative` is 0, an all-zero gradient |
| AutoDiffs.Variable | src/autodiff.hpp:38-42 | value `v` and gradient `e_I` |
| AutoDiffs.Add | src/autodiff.hpp:72-78 | the value is `a + b` and the gradient the vector sum `a' + b'` |
| AutoDiffs.AddScalar | src/autodiff.hpp:80-81 | `s + b` is `AutoDiff(s) + b`, with `b`'s gradient length |
| AutoDiffs.Mul | src/autodiff.hpp:84-91 | the product keeps the gradient length; the product rule is fixed by `MulVariables` together with `Commute`, `Distributes` and `MulConst` |
| AutoDiffs.Sub | src/autodiff.hpp:109-117 | keeps the gradient length; stated by `SubIsAddNeg` and `OperatorChecks` |
| AutoDiffs.Neg | src/autodiff.hpp:122-129 | keeps the gradient length; `AddNeg` makes it the additive inverse |
| AutoDiffs.Div | src/autodiff.hpp:132-144 | defined only for `b.value != 0`; keeps the gradient length; `MulUndoesDiv` makes `a / b` the unique `q` with `q * b == a` |
| AutoDiffs.DefaultIsConstZero | src/autodiff.hpp:31-36 | `AutoDiff()` equals `AutoDiff(0)` |
| AutoDiffs.AddScalarShifts | src/autodiff.hpp:72-81 | `s + b` has value `s + b.value` and exactly `b`'s gradient |
| AutoDiffs.SubIsAddNeg | src/autodiff.hpp:72-129 | `a - b == a + (-b)`, value and gradient |
| AutoDiffs.NegNeg | src/autodiff.hpp:122-129 | `-(-a) == a` |
| AutoDiffs.Commute | src/autodiff.hpp:72-91 | `a + b == b + a` and `a * b == b * a` |
| AutoDiffs.Distributes | src/autodiff.hpp:72-91 | `a * (b + c) == a*b + a*c`, gradients included |
| AutoDiffs.MulConst | src/autodiff.hpp:84-91 | multiplying by `AutoDiff(c)` gives value `c*a` and gradient `c*a'` |
| AutoDiffs.AddZero | src/autodiff.hpp:72-78 | adding `AutoDiff(0)` changes nothing |
| AutoDiffs.AddNeg | src/autodiff.hpp:72-129 | `a + (-a) == AutoDiff(0)`, value and gradient |
| AutoDiffs.MulVariables | src/autodiff.hpp:38-91 | the product of variables `e_i` at `x` and `e_j` at `y` has value `x*y` and gradient `y*e_i + x*e_j` |
| AutoDiffs.SquareAtZero | src/autodiff.hpp:38-91 | the square of a variable at 0 is the constant 0, gradient included |
| AutoDiffs.MulCancel | src/autodiff.hpp:84-91 | `p * b == a * b` with `b.value != 0` gives `p == a` |
| AutoDiffs.MulUndoesDiv | src/autodiff.hpp:84-144 | `(a / b) * b == a` for `b.value != 0`, gradients included |
| AutoDiffs.DivUndoesMul | src/autodiff.hpp:84-144 | `(a * b) / b == a` for `b.value != 0`, gradients included |
| AutoDiffs.DivConst | src/autodiff.hpp:132-144 | dividing by `AutoDiff(k)`, `k != 0`, scales value and gradient by `1/k` |
| AutoDiffs.OperatorChecks | Exercise2/ex_184/demo_autodiff_new.cpp:21-34 | at `x = Var0(2)`, `y = Var1(4)`: `x - y = (-2, [1, -1])`, `-x = (-2, [-1, 0])`, `x / y = (0.5, [0.25, -0.125])` |
| Legendre.PolysPrefix | Exercise2/ex18.4/test_legendre.cpp:23-24 | a longer run begins with every shorter one |
| Legendre.NextTimesK | Exercise2/ex18.4/test_legendre.cpp:24 | `k * Next == (2k-1)*x*p1 - (k-1)*p2` for every `p1`, `p2` |
| Legendre.EntryIsNext | Exercise2/ex18.4/test_legendre.cpp:23-24 | entry `k >= 2` is the step from entries `k-1` and `k-2` |
| Legendre.FirstTwo | Exercise2/ex18.4/test_legendre.cpp:17-20 | `P[0] == 1`, and `P[1] == x` for `n >= 1` |
| Legendre.Recurrence | Exercise2/ex18.4/test_legendre.cpp:23-24 | `k*P[k] == (2k-1)*x*P[k-1] - (k-1)*P[k-2]` for `2 <= k <= n` |
| Legendre.NextAtOne | Exercise2/ex18.4/test_legendre.cpp:24 | the step keeps the constant 1 at `x = 1` |
| Legendre.AtOne | Exercise2/ex18.4/test_legendre.cpp:17-24 | every `P[k](1) == 1` |
| Legendre.NextEven | Exercise2/ex18.4/test_legendre.cpp:24 | for even `k`, the step at `-x` from `(-p1, p2)` equals the step at `x` |
| Legendre.NextOdd | Exercise2/ex18.4/test_legendre.cpp:24 | for odd `k`, the step at `-x` from `(p1, -p2)` is minus the step at `x` |
| Legendre.Parity | Exercise2/ex18.4/test_legendre.cpp:17-24 | `P[k](-x) == (-1)^k * P[k](x)` |
| Legendre.ParityNext | Exercise2/ex18.4/test_legendre.cpp:24 | a step from values with the parities of `P_{n-1}` and `P_{n-2}` has the parity of `P_n` |
| Legendre.AtMinusOne | Exercise2/ex18.4/test_legendre.cpp:17-24 | `P[k](-1) == (-1)^k` |
| Legendre.NextADValue | Exercise2/ex18.4/test_legendre.cpp:24 | the value part of the AutoDiff step is the plain step on the values |
| Legendre.ValuesArePolys | Exercise2/ex18.4/test_legendre.cpp:17-24 | the AutoDiff entries' values are the Legendre polynomials at `x.value` |
| Legendre.PolysADPrefix | Exercise2/ex18.4/test_legendre.cpp:23-24 | a longer AutoDiff run begins with every shorter one |
| Legendre.FirstGradients | demos/legendre184.cpp:17-20 | with `x = Variable<0>(v)` in `AutoDiff<1>`: `P[0] = (1, [0])` and `P[1] = (v, [1])` |
| Legendre.FifthAtOne | demos/legendre184.cpp:40-48 | at `x = 1`, `P[5].value() == 1` |
| Legendre.PolysADLast | Exercise2/ex18.4/test_legendre.cpp:23-24 | AutoDiff entry `n >= 2` is the step from the last entries of the two shorter runs |
| Legendre.MulInOne | src/autodiff.hpp:84-91 | the product rule in `AutoDiff<1>` |
| Legendre.SubInOne | src/autodiff.hpp:109-117 | the difference in `AutoDiff<1>` |
| Legendre.NextADAtOne | Exercise2/ex18.4/test_legendre.cpp:24 | one AutoDiff step at `x = Variable<0>(1)` from entries of value 1 and slopes `d1`, `d2` has value 1 and slope `((2k-1)(1+d1) - (k-1)d2)/k` |
| Legendre.TriStep | Exercise2/ex18.4/test_legendre.cpp:24 | the triangular numbers `k(k+1)/2` satisfy that slope step |
| Legendre.GradientAtOne | demos/legendre184.cpp:40-48 | at `x = Variable<0>(1)`, every `P[k]` is `(1, [k(k+1)/2])`: the printed `P_k'(1)` |
| Legendre.FifthGradientAtOne | demos/legendre184.cpp:40-48 | at `x = 1` the printed `P[5].deriv()[0]` is 15 |
| Legendre.Resize | Exercise2/ex18.4/test_legendre.cpp:15 | `resize(m)`: length `m`, old entries kept, new ones value-initialised |
| Legendre.LegendrePolynomials | Exercise2/ex18.4/test_legendre.cpp:9-27 | `n < 0` clears `P`; otherwise `P` is exactly `P_0 .. P_n` (length `n+1`, every entry overwritten); demos/legendre184.cpp:9-27 is an identical copy |

## Left out

- Not part of this model: `ImplicitEuler` (src/timestepper.hpp:36-56), the implicit Runge-Kutta methods, `NewtonSolver`, the nonlinear-function algebra, `SolveODE_Alpha`/Newmark and `SystemMassFunction`. They depend on code outside the modelled files. `simulate`'s solver is a function parameter instead.
- `sin`, `cos`, `exp` and `log` on `AutoDiff`, and the right-hand sides that use them: transcendental functions have no exact model over reals.
- Floating-point behaviour: rounding, convergence order and stability. The model computes over exact reals.
- The square root inside `norm` and `math.sqrt`: both are parameters. No force magnitude is proved.
- The `main` drivers, `SolveAndWrite`, CSV output, `operator<<` printers, `__str__`, the `print` calls in mass_spring.py, and the plotting scripts: output only.
- pybind11 registration glue, the 2-D bindings, and the integer-cast `Connector.type` setter.
- `MssFunction.MSSFunction.DimX`/`DimF`: stated as plain functions without a contract of their own. Their value `D*|masses|` is used by `Evaluate`, `EvaluateDeriv` and `Binding.Augmented`.
- `__getitem__` takes the system by value in the source. The model reads the registry as a value, so the copy is not visible.
- AutoDiffs.Mul: its own contract states only the gradient length. The product rule is stated through `MulVariables` on the variables, extended to all numbers by `Distributes`, `Commute` and `MulConst`.
- AutoDiffs.Sub: its own contract states only the gradient length. Its rule is stated through `SubIsAddNeg` and `OperatorChecks`.
- AutoDiffs.Neg: its own contract states only the gradient length. Its rule is stated through `AddNeg`, which makes `-a` the additive inverse of `a`.
- AutoDiffs.Div: its own contract states only the gradient length. The quotient rule is stated through `MulUndoesDiv` and `DivUndoesMul`, with `DivConst` for constant divisors. A zero `b.value` is excluded: there the source divides by zero.
- Legendre.NextAD: the recurrence is stated for the values (`Recurrence`, through `ValuesArePolys`). The gradients are stated at `P_0`, `P_1` for every `x`, and for every `P_k` only at `x = 1` (`GradientAtOne`).
- ImprovedEulerExercise.Evaluate and ImprovedEulerExercise.EvaluateDeriv: they require `mass != 0`, as do the other members of that file. With `m = 0` the source computes `-k/m` as a floating-point infinity or NaN, which exact reals cannot represent.
- Legendre.LegendrePolynomials: `P` is passed by reference in the source. The model takes the old contents and returns the new ones as a sequence.
- Crane.TowerMasses and Crane.ArmMasses: their own contracts state only the counts. Weights and rest state are in `TowerMassesAtRest`, `ArmMassesAtRest` and `CraneMasses`.
- PyMassSpring.MassSpringSystem3d.Simulate: the `IndexError` is a returned outcome instead of a raised exception. Only the position lists are arrays. Nothing in the mock reassigns a mass's `vel` or `acc`, so they are constants. The model does not cover a caller that changes them from outside.
