# gtracr core, modelled in Dafny

gtracr traces cosmic-ray trajectories through the Earth's magnetic field.
The particle is launched from a site given by latitude, longitude and
altitude, in a direction given by zenith and azimuth. The tracer then
integrates the relativistic Lorentz-force equations in spherical
coordinates `(r, theta, phi, p_r, p_theta, p_phi)` with a fourth-order
Runge-Kutta step. It stops when the particle escapes beyond an escape
radius, falls back below the surface, or runs out of iterations.

A geomagnetic cutoff survey repeats this over a zenith/azimuth grid for
every site, particle and energy. It records 1 where the trajectory is
allowed and 0 where the particle returns to the ground.

This project models the following parts:

- `real_math.dfy` (`RealMath`): real arithmetic helpers.
  - `sqrt`, `sin`, `cos`, `arccos` and `arctan` are uninterpreted functions.
  - The laws the proofs need (`sqrt` of a square, `sin^2 + cos^2 = 1`, the cofunction identity, `sin 0 = 0`, `cos 0 = 1`) are named predicates. A lemma that relies on one takes it as a precondition.
- `constants.dfy` (`Constants`): the physical constants as positive reals.
- `magnetic_field.dfy` (`MagneticFields`): the ideal dipole `MagneticField` of `MagneticField.hpp`.
- `particle.dfy` (`Particles`): the C++ `Particle` class, a class whose setters overwrite momentum, velocity and rigidity together.
- `stepping.dfy` (`Stepping`): the shared shape of the stepping loops.
  - A step function is applied repeatedly, and each new state is tested.
  - The loop stops at the first state that passes the test, or at the iteration budget.
- `trajectory_tracer.dfy` (`TrajectoryTracer`): the C++ `uTrajectoryTracer`.
  - Its six right-hand sides and its gamma.
  - The in-place Runge-Kutta step.
  - The two stepping loops: `evaluate`, and `evaluate_and_get_trajectory`, which records the trajectory.
- `runge_kutta.dfy` (`ObsoleteRungeKutta`): the older Python Runge-Kutta integrator, a pure function of the seven-entry state.
- `launch.dfy` (`Launch`): the driver `func` of `tests/test.py`.
  - It builds the launch site and the displaced first point in local-tangent-plane and Earth-centred coordinates.
  - It runs the integration loop into seven preallocated columns and trims their trailing zeros.
- `geomagnetic_cutoff.dfy` (`GeomagneticCutoff`): the cutoff survey. This covers `get_cutoffs` and the nested dictionary the main block fills.
- `add_particle.dfy` (`ParticleCatalog`): the particle dictionary and `add_to_dict`.

The source changes state in three places, and the model keeps each one imperative:

- The tracer updates its trajectory vector in place.
- `Particle`'s setters and assignment update the object.
- The Python drivers fill arrays and dictionaries in loops.

Each loop is a `method`. Its contract ties the final state to a specification function, and the properties are proved about that function.

Where the documented behaviour and the code differ, the model follows the code:

- The energy/rigidity constructor tests are inverted (see Findings).
- `evaluate` reads `vec0[6]` from a six-entry array.
- The charge is multiplied by the elementary charge twice.
- The mass is converted with `KG_PER_GEVC2` twice.
- The Runge-Kutta increment divides the position components by `6 rel_mass` as well as the momenta.

## Model

| member | source | states |
|---|---|---|
| MagneticFields.MagneticField.Values | gtracr/lib/include/MagneticField.hpp:24-33 | the dipole field never has an azimuthal component |
| MagneticFields.Dipole | gtracr/lib/include/MagneticField.hpp:20 | the default field strength B0 is negative (-29404.8 nT, a southward-pointing dipole moment) |
| MagneticFields.AsField | gtracr/lib/include/MagneticField.hpp:24-33 | the field the tracer holds agrees with `values` at every point |
| MagneticFields.IndependentOfPhi | gtracr/lib/include/MagneticField.hpp:24-33 | the field is axially symmetric: it does not depend on the longitude phi |
| MagneticFields.SurfaceValues | gtracr/lib/include/MagneticField.hpp:24-33 | at r = RE the field is (2 B0 cos theta, B0 sin theta, 0) |
| MagneticFields.DipoleLineRelation | gtracr/lib/include/MagneticField.hpp:24-33 | B_r sin theta = 2 B_theta cos theta everywhere, the differential equation of dipole field lines |
| MagneticFields.InverseCubeScaling | gtracr/lib/include/MagneticField.hpp:24-33 | scaling the radius by k divides both components by k^3 |
| MagneticFields.EquatorialField | gtracr/lib/include/MagneticField.hpp:20-33 | on the magnetic equator the radial field vanishes and B_theta is negative |
| Particles.AbsCharge | gtracr/lib/src/Particle.cc:123 | abs(charge) is non-negative and zero exactly for a neutral particle |
| Particles.VelocityOf | gtracr/lib/src/Particle.cc:119-122 | as written, p sc / sqrt(p^2 + (m sc)^2); properties in VelocityBelowLightSpeed and MomentumVelocityRoundTrip |
| Particles.LorentzFactor | gtracr/lib/src/Particle.cc:110-113 | as written, 1 / sqrt(1 - (vel / sc)^2); properties in MomentumVelocityRoundTrip |
| Particles.MomentumOf | gtracr/lib/src/Particle.cc:146-151 | as written, gamma(vel) m vel; properties in MomentumVelocityRoundTrip |
| Particles.MomentumFromEnergy | gtracr/lib/src/Particle.cc:116-118 | as written, sqrt(E^2 - m^2); used by SetFromEnergy and the energy branch of the constructors |
| Particles.Particle.Gamma | gtracr/lib/src/Particle.cc:104-108 | as written, the Lorentz factor of the stored velocity; no further property |
| Particles.Particle.EnergyRigidity | gtracr/lib/src/Particle.cc:153-158 | as written, sqrt(p^2 + m^2) R abs(charge); no further property |
| Particles.ConstructorBranch | gtracr/lib/src/Particle.cc:57-73 | the constructor's branch as written: the energy branch exactly when the energy is below 1e-10, and a throw exactly when both arguments reach 1e-10 |
| Particles.IntendedBranch | gtracr/lib/src/Particle.cc:60-72 | the branch the comment describes: energy exactly when only the energy is given, rigidity exactly when only the rigidity is given, a throw exactly when both or neither are given |
| Particles.Particle.Default | gtracr/lib/src/Particle.cc:34-42 | the default proton with momentum sqrt(m^2 + 1), the velocity of that momentum, and rigidity = momentum / abs(charge) |
| Particles.Particle.constructor | gtracr/lib/src/Particle.cc:46-54 | the identity fields are as given, and the 1 GeV kinematics keep rigidity = momentum / abs(charge) |
| Particles.Particle.Identity | gtracr/lib/src/Particle.cc:57-58 | the member initialiser list of the energy/rigidity constructor |
| Particles.Particle.WithEnergyOrRigidity | gtracr/lib/src/Particle.cc:57-73 | throws exactly when ConstructorBranch says so; otherwise a fresh particle with the given identity, momentum from the energy or from the rigidity as the branch selects, the velocity of that momentum, and rigidity = momentum / abs(charge) in the energy branch and the given rigidity in the rigidity branch |
| Particles.Particle.WithGivenEnergyOrRigidity | gtracr/lib/src/Particle.cc:60-72 | the corrected constructor: the same guarantees (identity, momentum, velocity, rigidity per branch) with IntendedBranch in place of ConstructorBranch |
| Particles.Particle.Copy | gtracr/lib/src/Particle.cc:80-87 | every field equals the copied particle's |
| Particles.Particle.Assign | gtracr/lib/src/Particle.cc:89-102 | every field takes the source particle's old value, self-assignment included |
| Particles.Particle.SetFromEnergy | gtracr/lib/src/Particle.cc:116-124 | momentum sqrt(E^2 - m^2), the velocity of that momentum, and rigidity consistent with it |
| Particles.Particle.SetFromMomentum | gtracr/lib/src/Particle.cc:126-134 | momentum as given, its velocity, and a consistent rigidity |
| Particles.Particle.SetFromRigidity | gtracr/lib/src/Particle.cc:136-144 | rigidity as given and momentum = rigidity * abs(charge), so the two stay consistent |
| Particles.Particle.SetFromVelocity | gtracr/lib/src/Particle.cc:146-151 | velocity as given, momentum gamma(v) m v, and a consistent rigidity |
| Particles.VelocityBelowLightSpeed | gtracr/lib/src/Particle.cc:126-133 | the velocity computed from any non-negative momentum lies in [0, sc) |
| Particles.MomentumVelocityRoundTrip | gtracr/lib/src/Particle.cc:110-151 | set_from_velocity inverts set_from_momentum: gamma(v) m v gives back the momentum v came from |
| Particles.GivenEnergyIsIgnored | gtracr/lib/src/Particle.cc:60-68 | energy given, rigidity 0: the code takes the rigidity branch, while the intended branch is the energy |
| Particles.GivenRigidityIsIgnored | gtracr/lib/src/Particle.cc:60-68 | rigidity given, energy 0: the code takes the energy branch, while the intended branch is the rigidity |
| Stepping.Prefix | gtracr/lib/src/uTrajectoryTracer.cc:176-226 | the first n states of an iteration, in order |
| Stepping.ExitIndex | gtracr/lib/src/uTrajectoryTracer.cc:78-118 | the number of steps a break-on-test loop takes: between 1 and the budget, stopping at the first state that passes the test and at no earlier one |
| Stepping.ExitFrom | gtracr/lib/src/uTrajectoryTracer.cc:78-118 | the same count, searched from step i |
| Stepping.ExitIndexIs | gtracr/lib/src/uTrajectoryTracer.cc:78-118 | the first stopping step (or the budget) is the exit index |
| Stepping.PrefixAppend | gtracr/lib/src/uTrajectoryTracer.cc:176-226 | recording one more state appends it |
| Stepping.Advance | gtracr/lib/src/uTrajectoryTracer.cc:78-118 | one loop iteration: the step produces the next iterate, and the loop breaks exactly at the exit index |
| TrajectoryTracer.ScaleZero | gtracr/lib/src/uTrajectoryTracer.cc:315-408 | helper for StagesAtStationaryPoint and StagesAtRest: scaling the zero six-vector gives zero |
| TrajectoryTracer.AddZero | gtracr/lib/src/uTrajectoryTracer.cc:315-408 | helper for StagesAtStationaryPoint and StagesAtRest: adding the zero six-vector changes nothing |
| TrajectoryTracer.DrDt | gtracr/lib/src/uTrajectoryTracer.cc:248-251 | as written, dr/dt = p_r; properties in DerivativesAtRest and StagesAtStationaryPoint |
| TrajectoryTracer.DthetaDt | gtracr/lib/src/uTrajectoryTracer.cc:253-257 | as written, dtheta/dt = p_theta / r; properties in DerivativesAtRest |
| TrajectoryTracer.DphiDt | gtracr/lib/src/uTrajectoryTracer.cc:259-262 | as written, dphi/dt = p_phi / (r sin theta); properties in DerivativesAtRest |
| TrajectoryTracer.DprDt | gtracr/lib/src/uTrajectoryTracer.cc:264-273 | as written, with the field components taken from the tracer's field; properties in FieldFreeRadialDerivative and DerivativesAtRest |
| TrajectoryTracer.DpthetaDt | gtracr/lib/src/uTrajectoryTracer.cc:276-287 | as written, with the field components taken from the tracer's field; properties in DerivativesAtRest |
| TrajectoryTracer.DpphiDt | gtracr/lib/src/uTrajectoryTracer.cc:290-302 | as written, with the field components taken from the tracer's field; properties in DerivativesAtRest |
| TrajectoryTracer.Gamma | gtracr/lib/src/uTrajectoryTracer.cc:305-313 | as written, sqrt(1 + (abs(p) / (mass c))^2); properties in GammaAtLeastOne and GammaIsOneIff |
| TrajectoryTracer.RelMass | gtracr/lib/src/uTrajectoryTracer.cc:325-327 | as written, mass_ gamma KG_PER_GEVC2 at the start-of-step momenta; its role in the increment is stated by StepIsRk4OverRelMass |
| TrajectoryTracer.StagesAt | gtracr/lib/src/uTrajectoryTracer.cc:329-384 | as written, the four stages k1..k4 of every component; properties in StagesAtStationaryPoint |
| TrajectoryTracer.Increment | gtracr/lib/src/uTrajectoryTracer.cc:386-399 | as written, (k1 + 2k2 + 2k3 + k4) / (6 rel_mass) per component; properties in StepIsRk4OverRelMass, ScaledCombination and IncrementAtRest |
| TrajectoryTracer.Step | gtracr/lib/src/uTrajectoryTracer.cc:315-408 | each step advances time by exactly stepsize |
| TrajectoryTracer.Start | gtracr/lib/src/uTrajectoryTracer.cc:69-75 | the start point is t0 with vec0[1..6] |
| TrajectoryTracer.Column | gtracr/lib/src/uTrajectoryTracer.cc:176-226 | a recorded column holds the chosen component of each recorded point, in order |
| TrajectoryTracer.TrajectoryData | gtracr/lib/src/uTrajectoryTracer.cc:229-243 | the returned map has exactly the seven column keys plus "final_values"; each column is as long as the recording and holds its components; final_values is the last point without t |
| TrajectoryTracer.Stop | gtracr/lib/src/uTrajectoryTracer.cc:105-117 | as written, the escape test r > RE + escape_radius_ or the surface test r < RE; properties in NextStep and ShellUntilExit |
| TrajectoryTracer.StepsTaken | gtracr/lib/src/uTrajectoryTracer.cc:78-118 | as written, the exit index of the step function under Stop with budget max_iter_; Tracer.Evaluate ends after this many steps, and ShellUntilExit states where its states lie |
| TrajectoryTracer.Tracer.Default | gtracr/lib/src/uTrajectoryTracer.cc:22-26 | the default proton tracer: dipole field, charge e, mass 0.938 GeV/c^2 in kg, escape radius 10 RE, step 1e-5, 10000 steps, not escaped |
| TrajectoryTracer.Tracer.constructor | gtracr/lib/src/uTrajectoryTracer.cc:29-47 | charge scaled by e, mass by KG_PER_GEVC2, the other parameters as given, and the dipole field for every field type |
| TrajectoryTracer.Tracer.PerformRkStep | gtracr/lib/src/uTrajectoryTracer.cc:315-408 | the in-place step leaves the trajectory vector at Step of its old value |
| TrajectoryTracer.Tracer.Evaluate | gtracr/lib/src/uTrajectoryTracer.cc:65-119 | the final state is the start iterated StepsTaken times; particle_escaped_ keeps its old value (it is never reset) and is set when the last state is beyond RE + escape radius |
| TrajectoryTracer.Tracer.EvaluateAndGetTrajectory | gtracr/lib/src/uTrajectoryTracer.cc:146-244 | as Evaluate (final state, and particle_escaped_ kept and set when the last state is beyond RE + escape radius), and the returned map records every state before each step (Prefix of the iteration), with the final state under "final_values" |
| TrajectoryTracer.NextStep | gtracr/lib/src/uTrajectoryTracer.cc:96-117 | one iteration of the tracer's loop: the break test holds exactly at the exit index |
| TrajectoryTracer.RecordingEmpty | gtracr/lib/src/uTrajectoryTracer.cc:167-173 | the empty arrays record the empty trajectory |
| TrajectoryTracer.RecordingAppend | gtracr/lib/src/uTrajectoryTracer.cc:183-197 | pushing each component of a point keeps the arrays in step with the recorded points |
| TrajectoryTracer.RecordingData | gtracr/lib/src/uTrajectoryTracer.cc:229-243 | arrays that record the points build exactly TrajectoryData of those points |
| TrajectoryTracer.ColumnsAppend | gtracr/lib/src/uTrajectoryTracer.cc:191-197 | every column of a longer recording is the old column plus the new component |
| TrajectoryTracer.GammaAtLeastOne | gtracr/lib/src/uTrajectoryTracer.cc:305-313 | the Lorentz factor from momenta is at least 1 |
| TrajectoryTracer.GammaIsOneIff | gtracr/lib/src/uTrajectoryTracer.cc:305-313 | the Lorentz factor is exactly 1 iff all three momenta are zero |
| TrajectoryTracer.FieldFreeRadialDerivative | gtracr/lib/src/uTrajectoryTracer.cc:264-273 | with no field, dp_r/dt is the centripetal term (p_theta^2 + p_phi^2)/r and is never negative |
| TrajectoryTracer.DerivativesAtRest | gtracr/lib/src/uTrajectoryTracer.cc:248-302 | at zero momenta all six derivatives vanish |
| TrajectoryTracer.StagesAtStationaryPoint | gtracr/lib/src/uTrajectoryTracer.cc:329-384 | where the derivatives vanish, all four Runge-Kutta stages vanish |
| TrajectoryTracer.IncrementAtRest | gtracr/lib/src/uTrajectoryTracer.cc:386-399 | at rest the step adds nothing to any component |
| TrajectoryTracer.ScaledSumOfZeroStages | gtracr/lib/src/uTrajectoryTracer.cc:386-399 | helper for IncrementAtRest: zero stages give a zero increment, whatever the factor |
| TrajectoryTracer.WeightedSumOfZeroStages | gtracr/lib/src/uTrajectoryTracer.cc:386-399 | helper for ScaledSumOfZeroStages: zero stages have a zero weighted sum |
| TrajectoryTracer.RestIsFixedPoint | gtracr/lib/src/uTrajectoryTracer.cc:315-408 | a particle at rest stays where it is; only time advances |
| TrajectoryTracer.WeightsSplit | gtracr/lib/src/uTrajectoryTracer.cc:386-399 | helper for ScaledCombination: multiplying a stage sum by 1/(6 m) is multiplying a sixth of it by 1/m |
| TrajectoryTracer.ScaledCombination | gtracr/lib/src/uTrajectoryTracer.cc:386-399 | the source's (k1 + 2k2 + 2k3 + k4)/(6 m) is the classical combination k1/6 + k2/3 + k3/3 + k4/6 divided by m |
| TrajectoryTracer.StepIsRk4OverRelMass | gtracr/lib/src/uTrajectoryTracer.cc:315-408 | the increment is the classical RK4 combination of the stages divided by rel_mass |
| TrajectoryTracer.ShellUntilExit | gtracr/lib/src/uTrajectoryTracer.cc:96-117 | every state before the last lies between RE and RE + escape radius; the last is outside that shell unless the budget ran out |
| ObsoleteRungeKutta.Dprdt | gtracr/obsolete/runge_kutta.py:28-35 | as written, Lorentz term plus curvilinear term; properties in FieldFreeRadialRate, ChargeReversal and RatesAtRest |
| ObsoleteRungeKutta.Dpthetadt | gtracr/obsolete/runge_kutta.py:43-49 | as written, Lorentz term plus curvilinear terms; properties in ChargeReversal and RatesAtRest |
| ObsoleteRungeKutta.Dpphidt | gtracr/obsolete/runge_kutta.py:59-65 | as written, Lorentz term minus curvilinear terms; properties in ChargeReversal and RatesAtRest |
| ObsoleteRungeKutta.Rates | gtracr/obsolete/runge_kutta.py:97-156 | as written, the six rates each stage multiplies by stepSize; properties in RatesAtRest |
| ObsoleteRungeKutta.StartGamma | gtracr/obsolete/runge_kutta.py:91-92 | as written, the Lorentz factor from the start-of-step momenta; properties in StartGammaAtLeastOne |
| ObsoleteRungeKutta.StagesOf | gtracr/obsolete/runge_kutta.py:97-156 | as written, the four stages, all with the start-of-step gamma; properties in StagesAtRest and ZeroScaledStages |
| ObsoleteRungeKutta.Advanced | gtracr/obsolete/runge_kutta.py:159-172 | as written, the 1/6, 1/3, 1/3, 1/6 update of the six components; properties in AdvancedAtRest and ZeroStepIsIdentity |
| ObsoleteRungeKutta.SixAt | gtracr/obsolete/runge_kutta.py:83-89 | the six-vector is the input's entries 1 to 6 |
| ObsoleteRungeKutta.Evaluate | gtracr/obsolete/runge_kutta.py:80-174 | the result has seven entries, and its time is the input time plus stepSize |
| ObsoleteRungeKutta.StartGammaAtLeastOne | gtracr/obsolete/runge_kutta.py:91-92 | the start-of-step Lorentz factor is at least 1 |
| ObsoleteRungeKutta.FieldFreeRadialRate | gtracr/obsolete/runge_kutta.py:28-35 | with no field, dp_r/dt is (p_theta^2 + p_phi^2)/r and is non-negative |
| ObsoleteRungeKutta.ChargeReversal | gtracr/obsolete/runge_kutta.py:28-65 | reversing the charge reverses each Lorentz term and keeps each curvilinear term |
| ObsoleteRungeKutta.RatesAtRest | gtracr/obsolete/runge_kutta.py:28-65 | at zero momenta every rate vanishes |
| ObsoleteRungeKutta.StagesAtRest | gtracr/obsolete/runge_kutta.py:97-156 | zero rates give zero stages |
| ObsoleteRungeKutta.AdvancedAtRest | gtracr/obsolete/runge_kutta.py:159-172 | a state at rest is left unchanged |
| ObsoleteRungeKutta.RestIsFixedPoint | gtracr/obsolete/runge_kutta.py:80-174 | evaluate at rest returns the same state with the time advanced |
| ObsoleteRungeKutta.ZeroCombination | gtracr/obsolete/runge_kutta.py:159-164 | helper for AdvancedAtRest and ZeroStepIsIdentity: zero stages have a zero weighted combination |
| ObsoleteRungeKutta.ZeroStepIsIdentity | gtracr/obsolete/runge_kutta.py:80-174 | a zero step size returns the input state unchanged |
| ObsoleteRungeKutta.ZeroScaledStages | gtracr/obsolete/runge_kutta.py:97-156 | a zero step size gives zero stages |
| Launch.Origin | tests/test.py:22-26 | r0 = EARTH_RADIUS + start_altitude, theta0 = pi/2 - latitude in radians, phi0 = longitude in radians |
| Launch.Cartesian | tests/test.py:28-30 | as written, r sin theta cos phi, r sin theta sin phi, r cos theta; properties in UnitDirection and ThirdColumnIsRadial |
| Launch.TangentToEcef | tests/test.py:46-54 | as written, tf_matrix; properties in ColumnsOrthonormal, ThirdColumnIsRadial and RotationKeepsLength |
| Launch.TangentVector | tests/test.py:57-63 | as written, (xt, yt, zt); properties in TangentVectorLength and UnitSphereDirection |
| Launch.Displaced | tests/test.py:65-68 | as written, the site plus the rotated launch vector; properties in VerticalLaunchRadius |
| Launch.ToSpherical | tests/test.py:76-79 | the radius is the Euclidean norm of the point |
| Launch.NormSqOfScaled | tests/test.py:61-68 | scaling a vector by k scales its squared length by k^2 |
| Launch.UnitDirection | tests/test.py:28-30 | the Cartesian direction of a latitude/longitude pair has unit length |
| Launch.TangentVectorLength | tests/test.py:57-63 | the local launch vector has length l = stepSize in every direction |
| Launch.UnitSphereDirection | tests/test.py:61-63 | the zenith/azimuth direction has unit length |
| Launch.ThirdColumnIsRadial | tests/test.py:46-54 | the rotation maps the local vertical to the radial unit vector at the site |
| Launch.VerticalLaunchRadius | tests/test.py:57-79 | a launch straight up puts the first point at r0 + stepSize |
| Launch.OrthonormalCombination | tests/test.py:46-68 | a combination of orthonormal columns has squared length x^2 + y^2 + z^2 |
| Launch.NormSqOfSum | tests/test.py:68 | helper for OrthonormalCombination: the squared length of a sum expands with its cross term |
| Launch.DotOfPlus | tests/test.py:68 | helper for OrthonormalCombination: the dot product distributes over a sum |
| Launch.DotOfScaled | tests/test.py:68 | helper for OrthonormalCombination: scalars factor out of a dot product |
| Launch.RotationKeepsLength | tests/test.py:46-68 | the tangent-plane-to-ECEF matrix preserves lengths |
| Launch.ApplyByColumns | tests/test.py:54-68 | helper for RotationKeepsLength: a matrix-vector product is the combination of the columns |
| Launch.ColumnsOrthonormal | tests/test.py:46-54 | the three columns of the matrix are orthonormal |
| Launch.KeyOf | tests/test.py:37 | every component has one of the seven result keys |
| Launch.Zeros | tests/test.py:38 | np.zeros(n) is n zeros |
| Launch.TrimTrailingZeros | tests/test.py:439-440 | trim_zeros 'b' returns a prefix, removes only zeros, and leaves no zero at the end |
| Launch.InitialValues | tests/test.py:365-384 | the integrator starts at t = t0 + stepSize = stepSize |
| Launch.LaunchVelocity | tests/test.py:242-297 | as written, the speed along the launch direction rotated by tf_matrix and projected on the spherical unit vectors; the rotated vector's length is stated by RotationKeepsLength and TangentVectorLength |
| Launch.Ends | tests/test.py:423-429 | as written, the escape test then the surface test; properties in NextCall and StopsOnlyOutsideShell |
| Launch.EndTest | tests/test.py:423-429 | as written, Ends as the loop's test function; the loop's budget `MaxLoopSteps` = maxStep - 4 (i from 2 while i < maxStep - 2, line 392) is stated in LoopLength |
| Launch.WithMomenta | tests/test.py:403-421 | converting velocities to momenta keeps t and the position |
| Launch.Records | tests/test.py:391-436 | m integrator calls record m points |
| Launch.Points | tests/test.py:374-436 | func writes between 2 and maxStep - 2 points |
| Launch.Filled | tests/test.py:38 | a column always has maxStep entries |
| Launch.Results.constructor | tests/test.py:37-38 | the seven fresh columns hold maxStep zeros, written with no points yet |
| Launch.Results.Put | tests/test.py:415-421 | writing a point at the next index gives the columns filled with one more point |
| Launch.Results.Trimmed | tests/test.py:439-440 | the result has the seven keys, each holding its filled column with trailing zeros trimmed |
| Launch.Integrate | tests/test.py:391-436 | the columns hold the head followed by one record per integrator call, up to the exit index of the end test |
| Launch.CallAndRecord | tests/test.py:392-421 | the k-th integrator call produces the (k+1)-th iterate and writes its record at index k + 2; the end test holds exactly when the exit index is k + 1 |
| Launch.NextCall | tests/test.py:423-429 | one iteration of func's loop: the loop breaks exactly at the exit index |
| Launch.Func | tests/test.py:17-446 | each returned column is the trimmed column of Points: the site, the displaced point, then every integrated point |
| Launch.RecordsAppend | tests/test.py:415-421 | one more integrator call appends one more record |
| Launch.RecordsStep | tests/test.py:391-436 | no calls record nothing, and each call appends its state |
| Launch.PointsAre | tests/test.py:374-436 | the points are the site at t = 0 with zero momenta, the first state, then the records |
| Launch.FilledStep | tests/test.py:415-421 | writing at the index equal to the length of pts turns the columns for pts into the columns for pts + [p] |
| Launch.FirstEntries | tests/test.py:374-381 | entry 0 is the site at t = 0 with zero momenta; entry 1 is at t = stepSize and at the displaced radius |
| Launch.LoopLength | tests/test.py:391-436 | the loop calls the integrator between 1 and maxStep - 4 times |
| Launch.StopsOnlyOutsideShell | tests/test.py:423-429 | every integrated point but the last lies between the surface and the stop altitude; if the loop ended early, the last lies outside that shell |
| Launch.TrimFilled | tests/test.py:439-440 | trimming a column whose last written value is non-zero gives back exactly the written values |
| Launch.RecordsAt | tests/test.py:391-436 | the k-th record is the state after k + 1 integrator calls |
| GeomagneticCutoff.Linspace | gtracr/geomagnetic_cutoff.py:79-80 | num values, starting at start, evenly spaced by (stop - start)/num (no endpoint) |
| GeomagneticCutoff.ZenithGrid | gtracr/geomagnetic_cutoff.py:78-79 | as written, linspace(0, 180, num) without the endpoint, num being the global `Num` = 20; properties in SurveyGrids |
| GeomagneticCutoff.AzimuthGrid | gtracr/geomagnetic_cutoff.py:78-80 | as written, linspace(0, 360, num) without the endpoint, num = 20; properties in SurveyGrids |
| GeomagneticCutoff.EnergyList | gtracr/geomagnetic_cutoff.py:84 | as written, the energies 5, 30 and 50 GeV in that order; ParticleGrids is proved to loop over exactly this list |
| GeomagneticCutoff.Cutoff | gtracr/geomagnetic_cutoff.py:53-62 | the cutoff is 0 or 1, and 0 exactly when the end point is below ground |
| GeomagneticCutoff.CutoffRow | gtracr/geomagnetic_cutoff.py:48-68 | as written, one row: num zeros, each slot below the length of zenith_arr overwritten by the cutoff of that zenith at the row's azimuth; properties in GridEntries |
| GeomagneticCutoff.CutoffGrid | gtracr/geomagnetic_cutoff.py:46-70 | as written, one CutoffRow per azimuth; GetCutoffs and ContentsIsGrid are proved equal to it, and GridEntries states its entries |
| GeomagneticCutoff.Trajectory | gtracr/geomagnetic_cutoff.py:106-107 | as written, ParticleTrajectory for one particle, energy and site, as the end altitude of each zenith/azimuth pair; the tracer itself is the parameter endAltitude |
| GeomagneticCutoff.GetCutoffs | gtracr/geomagnetic_cutoff.py:46-70 | one fresh array per azimuth, no two rows the same array, each row the cutoffs over the zenith grid padded to num |
| GeomagneticCutoff.Contents | gtracr/geomagnetic_cutoff.py:46-70 | the grid is the arrays' contents, row by row |
| GeomagneticCutoff.EnergyGrids | gtracr/geomagnetic_cutoff.py:99-113 | the keys are the rigidities of the energies; the last energy's grid is stored under its rigidity |
| GeomagneticCutoff.ParticleEntries | gtracr/geomagnetic_cutoff.py:97-113 | one entry per particle label, each the energy grids of that particle |
| GeomagneticCutoff.LocationEntries | gtracr/geomagnetic_cutoff.py:95-113 | one entry per site name; the last site's entries are stored under its name |
| GeomagneticCutoff.ParticleGrids | gtracr/geomagnetic_cutoff.py:99-113 | the energy loop builds exactly EnergyGrids over energy_list |
| GeomagneticCutoff.UpdateTwice | gtracr/geomagnetic_cutoff.py:96-113 | helper for FillParticles: writing a key twice keeps only the second value |
| GeomagneticCutoff.CutoffSurvey.constructor | gtracr/geomagnetic_cutoff.py:88-92 | the dictionary holds the two grids and an empty location entry |
| GeomagneticCutoff.CutoffSurvey.FillParticles | gtracr/geomagnetic_cutoff.py:96-113 | the site's entry is reset and becomes ParticleEntries, and no other site entry changes |
| GeomagneticCutoff.CutoffSurvey.FillLocations | gtracr/geomagnetic_cutoff.py:95-113 | the location entry becomes LocationEntries of the sites |
| GeomagneticCutoff.RunSurvey | gtracr/geomagnetic_cutoff.py:75-113 | the grids are the 20-point zenith and azimuth grids, and the locations are LocationEntries |
| GeomagneticCutoff.SurveyGrids | gtracr/geomagnetic_cutoff.py:78-80 | 20 zenith angles 0, 9, ..., 171 and 20 azimuths 0, 18, ..., 342 |
| GeomagneticCutoff.GridEntries | gtracr/geomagnetic_cutoff.py:46-70 | the grid has one row per azimuth and num entries per row, each 0 or 1; an entry is 0 exactly when it is a padding slot or the trajectory ends below ground |
| GeomagneticCutoff.EnergyGridsFrom | gtracr/geomagnetic_cutoff.py:101-113 | every rigidity key comes from some energy of the list |
| GeomagneticCutoff.LocationEntriesAt | gtracr/geomagnetic_cutoff.py:95-113 | a site name holds the entries of its last occurrence |
| GeomagneticCutoff.EnergyGridsStep | gtracr/geomagnetic_cutoff.py:99-113 | one more energy adds or replaces its rigidity's grid |
| GeomagneticCutoff.ParticleEntriesStep | gtracr/geomagnetic_cutoff.py:97-113 | one more particle adds or replaces its entry |
| GeomagneticCutoff.LocationEntriesStep | gtracr/geomagnetic_cutoff.py:95-113 | one more site adds or replaces its entry |
| GeomagneticCutoff.ContentsIsGrid | gtracr/geomagnetic_cutoff.py:46-70 | arrays holding the cutoff rows form the cutoff grid |
| ParticleCatalog.Registered | gtracr/add_particle.py:20-32 | the keys are the starting keys plus every label added, and the last particle is stored under its label |
| ParticleCatalog.Registry.Empty | gtracr/add_particle.py:17 | the dictionary starts empty |
| ParticleCatalog.Registry.AddToDict | gtracr/add_particle.py:20-22 | the particle is stored under its label and no other entry changes |
| ParticleCatalog.Registry.Loaded | gtracr/add_particle.py:17-32 | after the module body the dictionary is the four particles added in order |
| ParticleCatalog.RegisteredSnoc | gtracr/add_particle.py:31-32 | one more add_to_dict call updates one key |
| ParticleCatalog.RegisteredEntries | gtracr/add_particle.py:20-32 | an entry survives unless a later particle has its label, and every new key holds a listed particle with that label |
| ParticleCatalog.LoadedCatalog | gtracr/add_particle.py:26-32 | the loaded dictionary is exactly e+, e-, p+, p-; each particle and its antiparticle share a mass and have opposite charges and PDG ids |
| ParticleCatalog.LoadedInOrder | gtracr/add_particle.py:31-32 | the four calls in order build the four-entry map |
| ParticleCatalog.LeptonsLoaded | gtracr/add_particle.py:26-32 | the first two calls build the e+/e- map |
| ParticleCatalog.RegisteredEmpty | gtracr/add_particle.py:17 | helper for LeptonsLoaded and ReAddReplaces: no calls leave the dictionary as it was |
| ParticleCatalog.ReAddReplaces | gtracr/add_particle.py:20-22 | re-adding a label replaces its entry and adds no key; adding the same particle twice is the same as once |

## Left out

- Floating point: all arithmetic is on exact reals. Rounding, overflow, NaN and infinities are not modelled.
- `sqrt`, `sin`, `cos`, `tan`, `arccos` and `arctan` are uninterpreted. Their laws are stated as named predicates, and only the lemmas that need a law assume it. Results that depend on the exact value of these functions are not proved.
- Physical constants (RE, the elementary charge, KG_PER_GEVC2, the speed of light, EARTH_RADIUS) are arbitrary positive reals. Their numerical values do not matter to any proved property.
- Printing (`Particle::print`, the `print` calls of the Python drivers), plotting (`plot_heatmap`, the trajectory plot at the end of `func`) and the pickle export (`export_as_pkl`) are output only.
- `func`'s integrator (`runge_kutta`/`euler` of gtracr.runge_kutta) is a parameter `integrate`. The factor `gamma(|v|) mass` that turns its velocities into momenta is a parameter `scale`. Those modules are not part of this model.
- `func` changes its Python particle in place: `set_momentum_from_energy(energy)` (tests/test.py:155), `set_velocity()` (240), `set_momentum_from_velocity()` (301), and in the loop the direct `particle.momentum = ...` (404) and `set_rigidity_from_momentum()` (406). The Python particle class is not part of this model, so these updates are not modelled. The model reads the particle only through `particle.velocity` after line 240, as the parameter `speed`, and through `particle.mass` in the factor `scale`.
- `func` passes that same particle to `runge_kutta(particle, stepSize, initial_values)` at every iteration (tests/test.py:396). The model's `integrate: TrajPoint -> TrajPoint` assumes that the integrator reads nothing of the particle that the loop changes (momentum and rigidity), so that it is one fixed function of the state. The obsolete integrator in this model is built from the particle's mass and charge only (gtracr/obsolete/runge_kutta.py:19-24), which supports the assumption.
- The azimuth phi of the displaced point comes from `np.arctan(y / x)`. It is kept as that abstract expression, with no range proved.
- The Python particle module and `ParticleTrajectory` are not part of this model. In the cutoff survey, the rigidity of a particle at an energy and the end altitude of a traced trajectory are parameters.
- `location_dict` is not part of this model. The sites are an input sequence of (name, site) pairs, and the dictionaries' iteration order is the sequence order.
- GeomagneticCutoff.GetCutoffs: requires at most num zenith angles, because numpy raises IndexError on a longer grid.
- GeomagneticCutoff.CutoffSurvey.FillParticles: each energy's grids are built in a map and stored at once. The source writes into the nested dictionary in place; the final dictionary is the same.
- The obsolete integrator computes `gamma2` to `gamma4` and never uses them, so the model does not compute them. Every stage uses the start-of-step gamma, as the source does. The obsolete `dvrdt`-style velocity functions below `evaluate` are not modelled.
- The `Br`/`Btheta`/`Bphi` accessors of `MagneticField` are commented out, yet `dpr_dt`, `dptheta_dt` and `dpphi_dt` call them (gtracr/lib/src/uTrajectoryTracer.cc:268-269, 282, 296). The model gives those calls the components of `values` at the same point (`cfg.bfield(r, theta, phi)` in TrajectoryTracer.DprDt, DpthetaDt and DpphiDt). The commented-out IGRF field is not code. The constructor's `bfield_type` switch selects the dipole for every value, which is what the switch falls through to.
- The unused `t` argument of the derivative functions is dropped.
- C++ lifetime and aliasing: `gamma()` and `get_energy_rigidity()` return references to temporaries. The model returns values.
- TrajectoryTracer.Tracer.Evaluate: requires seven entries in `vec0`, because the source reads `vec0[1]` to `vec0[6]` from a `std::array<double, 6>`. That read is out of bounds in the source, and the model states what happens when the entries exist.
- The charge is multiplied by the elementary charge once in the constructor and again in `dpr_dt`, `dptheta_dt` and `dpphi_dt`. The model keeps both multiplications.
- The mass is converted with `KG_PER_GEVC2` once in the constructors (gtracr/lib/src/uTrajectoryTracer.cc:24, 36) and again in `rel_mass` (326-327). The model keeps both conversions (TrajectoryTracer.Tracer.constructor and TrajectoryTracer.RelMass).
- The increment `1/(6 rel_mass)` also scales the position components. The model keeps this as written.
- Particles.Particle.Gamma, Particles.Particle.EnergyRigidity: modelled as functions without a proved property beyond their definitions. `EnergyRigidity` multiplies by the rigidity and abs(charge) as written.

## Findings

| source | as written | input that shows it | evidently intended | confidence | as-written member | corrected member |
|---|---|---|---|---|---|---|
| gtracr/lib/src/Particle.cc:60-72 | takes the energy branch when abs(energy) < 1e-10 and the rigidity branch when abs(rigidity) < 1e-10 | energy 10, rigidity 0 takes the rigidity branch with rigidity 0, so the given energy is ignored; energy 0, rigidity 5 sets the momentum from energy 0 | use whichever of energy and rigidity is given (abs >= 1e-10), and throw when both or neither are given | not executed | Particles.GivenEnergyIsIgnored | Particles.IntendedBranch |
