/** uTrajectoryTracer: integrates the relativistic Lorentz-force equations
    in spherical coordinates (r, theta, phi, p_r, p_theta, p_phi) with a
    fourth-order Runge-Kutta step until the particle escapes, returns to the
    Earth's surface or the iteration budget runs out. */
module TrajectoryTracer {
  import opened RealMath
  import opened Constants
  import opened MagneticFields
  import opened Stepping

  /** traj_vector_: the time and the six-vector. */
  datatype TrajPoint = TrajPoint(t: real, r: real, theta: real, phi: real,
                                 pr: real, ptheta: real, pphi: real)

  /** The six-vector alone: a stage value k_i or a set of derivatives. */
  datatype Six = Six(r: real, theta: real, phi: real, pr: real, ptheta: real, pphi: real)

  /** The members perform_rkstep reads: the field, charge_ and mass_ (both
      already in SI units) and stepsize_. */
  datatype Config = Config(bfield: Field, charge: real, mass: real, stepsize: real)

  function Add(a: Six, b: Six): (c: Six)
  {
    Six(a.r + b.r, a.theta + b.theta, a.phi + b.phi, a.pr + b.pr, a.ptheta + b.ptheta, a.pphi + b.pphi)
  }

  function Scale(c: real, a: Six): (b: Six)
  {
    Six(c * a.r, c * a.theta, c * a.phi, c * a.pr, c * a.ptheta, c * a.pphi)
  }

  function Zero(): Six
  {
    Six(0.0, 0.0, 0.0, 0.0, 0.0, 0.0)
  }

  lemma ScaleZero(c: real)
    ensures Scale(c, Zero()) == Zero()
  {
  }

  lemma AddZero(a: Six)
    ensures Add(a, Zero()) == a
  {
  }

  function SixOf(p: TrajPoint): Six
  {
    Six(p.r, p.theta, p.phi, p.pr, p.ptheta, p.pphi)
  }

  /** dr_dt, dtheta_dt, dphi_dt: the position derivatives. */
  function DrDt(pr: real): real
  {
    pr
  }

  function DthetaDt(r: real, ptheta: real): real
  {
    Div(ptheta, r)
  }

  function DphiDt(r: real, theta: real, pphi: real): real
  {
    Div(pphi, r * Sin(theta))
  }

  /** dpr_dt: Lorentz term (-charge_ e)(p_theta B_phi - B_theta p_phi) plus
      the centripetal terms p_theta^2 / r + p_phi^2 / r. charge_ is already
      a charge in coulomb and is multiplied by the elementary charge again. */
  function DprDt(cfg: Config, r: real, theta: real, phi: real, pr: real, ptheta: real, pphi: real): real
  {
    var b := cfg.bfield(r, theta, phi);
    (-1.0 * cfg.charge * ElementaryCharge) * (ptheta * b.bphi - b.btheta * pphi)
      + (Div(Sq(ptheta), r) + Div(Sq(pphi), r))
  }

  /** dptheta_dt: (charge_ e)(B_phi p_r - p_phi B_r)
      + p_phi^2 cos(theta) / (r sin(theta)) - p_r p_theta / r. */
  function DpthetaDt(cfg: Config, r: real, theta: real, phi: real, pr: real, ptheta: real, pphi: real): real
  {
    var b := cfg.bfield(r, theta, phi);
    (cfg.charge * ElementaryCharge) * (b.bphi * pr - pphi * b.br)
      + (Div(Sq(pphi) * Cos(theta), r * Sin(theta)) - Div(pr * ptheta, r))
  }

  /** dpphi_dt: (-charge_ e)(p_r B_theta - B_r p_theta)
      - (p_r p_phi / r + p_theta p_phi cos(theta) / (r sin(theta))). */
  function DpphiDt(cfg: Config, r: real, theta: real, phi: real, pr: real, ptheta: real, pphi: real): real
  {
    var b := cfg.bfield(r, theta, phi);
    (-1.0 * cfg.charge * ElementaryCharge) * (pr * b.btheta - b.br * ptheta)
      - (Div(pr * pphi, r) + Div(ptheta * pphi * Cos(theta), r * Sin(theta)))
  }

  /** The six derivatives at one point. */
  function Derivatives(cfg: Config, s: Six): Six
  {
    Six(DrDt(s.pr), DthetaDt(s.r, s.ptheta), DphiDt(s.r, s.theta, s.pphi),
        DprDt(cfg, s.r, s.theta, s.phi, s.pr, s.ptheta, s.pphi),
        DpthetaDt(cfg, s.r, s.theta, s.phi, s.pr, s.ptheta, s.pphi),
        DpphiDt(cfg, s.r, s.theta, s.phi, s.pr, s.ptheta, s.pphi))
  }

  /** gamma(pr, ptheta, pphi) = sqrt(1 + (|p| / (mass_ c))^2). */
  function Gamma(mass: real, pr: real, ptheta: real, pphi: real): real
  {
    Sqrt(1.0 + Sq(Div(Sqrt(Sq(pr) + Sq(ptheta) + Sq(pphi)), mass * SpeedOfLight)))
  }

  /** rel_mass: mass_ gamma KG_PER_GEVC2, from the start-of-step momenta
      (mass_ has already been converted with KG_PER_GEVC2 once). */
  function RelMass(cfg: Config, p: TrajPoint): real
  {
    cfg.mass * Gamma(cfg.mass, p.pr, p.ptheta, p.pphi) * KgPerGeVc2
  }

  /** The four stages k1 .. k4 of perform_rkstep, each stepsize_ times the
      derivatives at the classical Runge-Kutta sample points. */
  datatype Stages = Stages(k1: Six, k2: Six, k3: Six, k4: Six)

  function StagesAt(cfg: Config, s: Six): Stages
  {
    var k1 := Scale(cfg.stepsize, Derivatives(cfg, s));
    var k2 := Scale(cfg.stepsize, Derivatives(cfg, Add(s, Scale(0.5, k1))));
    var k3 := Scale(cfg.stepsize, Derivatives(cfg, Add(s, Scale(0.5, k2))));
    var k4 := Scale(cfg.stepsize, Derivatives(cfg, Add(s, k3)));
    Stages(k1, k2, k3, k4)
  }

  /** k1 + 2 k2 + 2 k3 + k4 */
  function WeightedSum(ks: Stages): Six
  {
    Add(Add(ks.k1, Scale(2.0, ks.k2)), Add(Scale(2.0, ks.k3), ks.k4))
  }

  /** (k1 + 2 k2 + 2 k3 + k4) / (6 rel_mass): what perform_rkstep adds to
      each component of the six-vector. */
  function Increment(cfg: Config, p: TrajPoint): Six
  {
    Scale(Div(1.0, 6.0 * RelMass(cfg, p)), WeightedSum(StagesAt(cfg, SixOf(p))))
  }

  /** One perform_rkstep on a trajectory point: every component of the
      six-vector grows by (k1 + 2 k2 + 2 k3 + k4) / (6 rel_mass), the
      positions included, and t grows by stepsize_. */
  function Step(cfg: Config, p: TrajPoint): (q: TrajPoint)
    ensures q.t == p.t + cfg.stepsize
  {
    var inc := Increment(cfg, p);
    TrajPoint(p.t + cfg.stepsize, p.r + inc.r, p.theta + inc.theta, p.phi + inc.phi,
              p.pr + inc.pr, p.ptheta + inc.ptheta, p.pphi + inc.pphi)
  }

  function StepFn(cfg: Config): TrajPoint -> TrajPoint
  {
    (p: TrajPoint) => Step(cfg, p)
  }

  /** The loop's break test: escaped beyond RE + escape_radius_ or back
      below the surface RE. */
  function Stop(escapeRadius: real): TrajPoint -> bool
  {
    (p: TrajPoint) => p.r > RE + escapeRadius || p.r < RE
  }

  /** The trajectory point built from t0 and vec0[1] .. vec0[6]. */
  function Start(t0: real, vec0: seq<real>): (p: TrajPoint)
    requires 7 <= |vec0|
    ensures p.t == t0 && SixOf(p) == Six(vec0[1], vec0[2], vec0[3], vec0[4], vec0[5], vec0[6])
  {
    TrajPoint(t0, vec0[1], vec0[2], vec0[3], vec0[4], vec0[5], vec0[6])
  }

  /** The seven recorded quantities of a trajectory point. */
  datatype Component = T | R | Theta | Phi | Pr | Ptheta | Pphi

  function Get(c: Component, p: TrajPoint): real
  {
    match c
    case T => p.t
    case R => p.r
    case Theta => p.theta
    case Phi => p.phi
    case Pr => p.pr
    case Ptheta => p.ptheta
    case Pphi => p.pphi
  }

  /** One component of every point of a trajectory, in order. */
  function Column(ps: seq<TrajPoint>, c: Component): (col: seq<real>)
    ensures |col| == |ps|
    ensures forall k :: 0 <= k < |ps| ==> col[k] == Get(c, ps[k])
  {
    if |ps| == 0 then [] else Column(ps[..|ps| - 1], c) + [Get(c, ps[|ps| - 1])]
  }

  /** The keys of the map evaluate_and_get_trajectory returns. */
  const ColumnKeys: set<string> := {"t", "r", "theta", "phi", "pr", "ptheta", "pphi"}

  /** The map evaluate_and_get_trajectory returns for the points recorded
      before each step and the point after the last step. */
  function TrajectoryData(recorded: seq<TrajPoint>, last: TrajPoint): (data: map<string, seq<real>>)
    ensures data.Keys == ColumnKeys + {"final_values"}
    ensures forall key :: key in ColumnKeys ==> |data[key]| == |recorded|
    ensures forall k :: 0 <= k < |recorded| ==>
      data["t"][k] == recorded[k].t && data["r"][k] == recorded[k].r &&
      data["theta"][k] == recorded[k].theta && data["phi"][k] == recorded[k].phi &&
      data["pr"][k] == recorded[k].pr && data["ptheta"][k] == recorded[k].ptheta &&
      data["pphi"][k] == recorded[k].pphi
    ensures data["final_values"] == [last.r, last.theta, last.phi, last.pr, last.ptheta, last.pphi]
  {
    map["t" := Column(recorded, T), "r" := Column(recorded, R),
        "theta" := Column(recorded, Theta), "phi" := Column(recorded, Phi),
        "pr" := Column(recorded, Pr), "ptheta" := Column(recorded, Ptheta),
        "pphi" := Column(recorded, Pphi),
        "final_values" := [last.r, last.theta, last.phi, last.pr, last.ptheta, last.pphi]]
  }

  /** The number of Runge-Kutta steps evaluate performs from s0. */
  function StepsTaken(cfg: Config, escapeRadius: real, maxIter: int, s0: TrajPoint): nat
  {
    ExitIndex(StepFn(cfg), s0, Stop(escapeRadius), maxIter)
  }

  class Tracer {
    var bfield: Field
    var charge: real
    var mass: real
    var escapeRadius: real
    var stepsize: real
    var maxIter: int
    var particleEscaped: bool
    var traj: TrajPoint

    /** What perform_rkstep depends on besides traj_vector_. */
    function Params(): Config
      reads this`bfield, this`charge, this`mass, this`stepsize
    {
      Config(bfield, charge, mass, stepsize)
    }

    /** The default tracer: a proton (charge e, mass 0.938 GeV/c^2) in the
        dipole field, escape radius 10 RE, step 1e-5, at most 10000 steps. */
    constructor Default()
      ensures bfield == AsField(Dipole()) && charge == 1.0 * ElementaryCharge
      ensures mass == 0.938 * KgPerGeVc2 && escapeRadius == 10.0 * RE
      ensures stepsize == 0.00001 && maxIter == 10000 && !particleEscaped
    {
      bfield := AsField(Dipole());
      charge := 1.0 * ElementaryCharge;
      mass := 0.938 * KgPerGeVc2;
      escapeRadius := 10.0 * RE;
      stepsize := 0.00001;
      maxIter := 10000;
      particleEscaped := false;
    }

    /** The tracer for a particle of integer charge (in units of e) and mass
        (in GeV/c^2); every field type selects the dipole. */
    constructor (charge: int, mass: real, escapeRadius: real := 10.0 * RE,
                 stepsize: real := 0.00001, maxIter: int := 10000, bfieldType: char := 'd')
      ensures bfield == AsField(Dipole()) && this.charge == charge as real * ElementaryCharge
      ensures this.mass == mass * KgPerGeVc2 && this.escapeRadius == escapeRadius
      ensures this.stepsize == stepsize && this.maxIter == maxIter && !particleEscaped
    {
      this.charge := charge as real * ElementaryCharge;
      this.mass := mass * KgPerGeVc2;
      this.escapeRadius := escapeRadius;
      this.stepsize := stepsize;
      this.maxIter := maxIter;
      particleEscaped := false;
      bfield := AsField(Dipole());
    }

    /** perform_rkstep: one Runge-Kutta step of traj_vector_, in place. */
    method PerformRkStep()
      modifies this`traj
      ensures traj == Step(Params(), old(traj))
    {
      var inc := Increment(Params(), traj);
      traj := traj.(r := traj.r + inc.r);
      traj := traj.(theta := traj.theta + inc.theta);
      traj := traj.(phi := traj.phi + inc.phi);
      traj := traj.(pr := traj.pr + inc.pr);
      traj := traj.(ptheta := traj.ptheta + inc.ptheta);
      traj := traj.(pphi := traj.pphi + inc.pphi);
      traj := traj.(t := traj.t + stepsize);
    }

    /** evaluate: step from (t0, vec0[1..6]) until the particle escapes
        (setting particle_escaped_), falls below the surface, or max_iter_
        steps are done. vec0 is a std::array<double, 6> in the source, so the
        read of vec0[6] is out of bounds there: every call in the source fails
        the precondition below. */
    method Evaluate(t0: real, vec0: array<real>)
      requires 7 <= vec0.Length
      modifies this`traj, this`particleEscaped
      ensures var n := StepsTaken(Params(), escapeRadius, maxIter, Start(t0, vec0[..]));
        && traj == Iterate(StepFn(Params()), Start(t0, vec0[..]), n)
        && particleEscaped == (old(particleEscaped) || (0 < n && traj.r > RE + escapeRadius))
    {
      // The loop needs only that each step applies Step, not what Step computes.
      hide Step;
      traj := TrajPoint(t0, vec0[1], vec0[2], vec0[3], vec0[4], vec0[5], vec0[6]);
      ghost var s0 := traj;
      ghost var f := StepFn(Params());
      ghost var stop := Stop(escapeRadius);
      ghost var n := ExitIndex(f, s0, stop, maxIter);
      var i := 0;
      while i < maxIter
        invariant 0 <= i <= n
        invariant i < maxIter ==> i < n
        invariant 0 < i ==> traj.r <= RE + escapeRadius
        invariant traj == Iterate(f, s0, i)
        invariant particleEscaped == old(particleEscaped)
      {
        Advance(f, s0, stop, maxIter, i, traj);
        PerformRkStep();
        i := i + 1;
        if traj.r > RE + escapeRadius {
          particleEscaped := true;
          break;
        }
        if traj.r < RE {
          break;
        }
      }
    }

    /** evaluate_and_get_trajectory: as evaluate, recording the point before
        each step; the point after the last step is returned only under
        "final_values". */
    method EvaluateAndGetTrajectory(t0: real, vec0: array<real>) returns (data: map<string, seq<real>>)
      requires 7 <= vec0.Length
      modifies this`traj, this`particleEscaped
      ensures var n := StepsTaken(Params(), escapeRadius, maxIter, Start(t0, vec0[..]));
        && traj == Iterate(StepFn(Params()), Start(t0, vec0[..]), n)
        && data == TrajectoryData(Prefix(StepFn(Params()), Start(t0, vec0[..]), n), traj)
        && particleEscaped == (old(particleEscaped) || (0 < n && traj.r > RE + escapeRadius))
    {
      // The loop needs only that each step applies Step, not what Step computes.
      hide Step, Recording, TrajectoryData;
      traj := TrajPoint(t0, vec0[1], vec0[2], vec0[3], vec0[4], vec0[5], vec0[6]);
      ghost var s0 := traj;
      ghost var f := StepFn(Params());
      ghost var stop := Stop(escapeRadius);
      ghost var n := ExitIndex(f, s0, stop, maxIter);
      ghost var cfg := Params();
      assert s0 == Start(t0, vec0[..]) && f == StepFn(cfg);
      assert n == StepsTaken(cfg, escapeRadius, maxIter, s0);
      ghost var recorded: seq<TrajPoint> := [];
      assert traj == Iterate(f, s0, 0) && recorded == Prefix(f, s0, 0);
      hide Iterate, Prefix, ExitIndex, StepFn, Stop, Start, StepsTaken;
      var timeArr, rArr, thetaArr, phiArr, prArr, pthetaArr, pphiArr := [], [], [], [], [], [], [];
      RecordingEmpty();
      var i := 0;
      while i < maxIter
        invariant 0 <= i <= n
        invariant i < maxIter ==> i < n
        invariant 0 < i ==> traj.r <= RE + escapeRadius
        invariant traj == Iterate(f, s0, i)
        invariant particleEscaped == old(particleEscaped)
        invariant recorded == Prefix(f, s0, i)
        invariant Recording(recorded, timeArr, rArr, thetaArr, phiArr, prArr, pthetaArr, pphiArr)
      {
        RecordingAppend(recorded, traj, timeArr, rArr, thetaArr, phiArr, prArr, pthetaArr, pphiArr);
        timeArr := timeArr + [traj.t];
        rArr := rArr + [traj.r];
        thetaArr := thetaArr + [traj.theta];
        phiArr := phiArr + [traj.phi];
        prArr := prArr + [traj.pr];
        pthetaArr := pthetaArr + [traj.ptheta];
        pphiArr := pphiArr + [traj.pphi];
        PrefixAppend(f, s0, i);
        recorded := recorded + [traj];
        NextStep(Params(), escapeRadius, maxIter, s0, i, traj);
        PerformRkStep();
        i := i + 1;
        if traj.r > RE + escapeRadius {
          particleEscaped := true;
          break;
        }
        if traj.r < RE {
          break;
        }
      }
      assert recorded == Prefix(f, s0, n) && traj == Iterate(f, s0, n);
      assert Params() == cfg && vec0[..] == old(vec0[..]);
      RecordingData(recorded, traj, timeArr, rArr, thetaArr, phiArr, prArr, pthetaArr, pphiArr);
      data := map["t" := timeArr, "r" := rArr, "theta" := thetaArr, "phi" := phiArr,
                  "pr" := prArr, "ptheta" := pthetaArr, "pphi" := pphiArr,
                  "final_values" := [traj.r, traj.theta, traj.phi, traj.pr, traj.ptheta, traj.pphi]];
    }
  }

  /** Advance, with the break tests of the tracing loops written out. */
  lemma NextStep(cfg: Config, escapeRadius: real, maxIter: int, s0: TrajPoint, i: nat, p: TrajPoint)
    requires i < ExitIndex(StepFn(cfg), s0, Stop(escapeRadius), maxIter)
    requires p == Iterate(StepFn(cfg), s0, i)
    ensures Step(cfg, p) == Iterate(StepFn(cfg), s0, i + 1)
    ensures Step(cfg, p).r > RE + escapeRadius || Step(cfg, p).r < RE
            ==> ExitIndex(StepFn(cfg), s0, Stop(escapeRadius), maxIter) == i + 1
    ensures !(Step(cfg, p).r > RE + escapeRadius || Step(cfg, p).r < RE) && i + 1 < maxIter
            ==> i + 1 < ExitIndex(StepFn(cfg), s0, Stop(escapeRadius), maxIter)
  {
    Advance(StepFn(cfg), s0, Stop(escapeRadius), maxIter, i, p);
  }

  /** The seven vectors evaluate_and_get_trajectory fills hold the columns
      of the recorded points. */
  ghost predicate Recording(ps: seq<TrajPoint>, ts: seq<real>, rs: seq<real>, thetas: seq<real>,
                            phis: seq<real>, prs: seq<real>, pthetas: seq<real>, pphis: seq<real>)
  {
    ts == Column(ps, T) && rs == Column(ps, R) && thetas == Column(ps, Theta) && phis == Column(ps, Phi)
    && prs == Column(ps, Pr) && pthetas == Column(ps, Ptheta) && pphis == Column(ps, Pphi)
  }

  lemma RecordingEmpty()
    ensures Recording([], [], [], [], [], [], [], [])
  {
  }

  /** push_back of one point onto each vector keeps them its columns. */
  lemma RecordingAppend(ps: seq<TrajPoint>, x: TrajPoint, ts: seq<real>, rs: seq<real>, thetas: seq<real>,
                        phis: seq<real>, prs: seq<real>, pthetas: seq<real>, pphis: seq<real>)
    requires Recording(ps, ts, rs, thetas, phis, prs, pthetas, pphis)
    ensures Recording(ps + [x], ts + [x.t], rs + [x.r], thetas + [x.theta], phis + [x.phi],
                      prs + [x.pr], pthetas + [x.ptheta], pphis + [x.pphi])
  {
    ColumnsAppend(ps, x);
  }

  /** The returned map is TrajectoryData of the recorded points. */
  lemma RecordingData(ps: seq<TrajPoint>, last: TrajPoint, ts: seq<real>, rs: seq<real>, thetas: seq<real>,
                      phis: seq<real>, prs: seq<real>, pthetas: seq<real>, pphis: seq<real>)
    requires Recording(ps, ts, rs, thetas, phis, prs, pthetas, pphis)
    ensures TrajectoryData(ps, last) ==
      map["t" := ts, "r" := rs, "theta" := thetas, "phi" := phis,
          "pr" := prs, "ptheta" := pthetas, "pphi" := pphis,
          "final_values" := [last.r, last.theta, last.phi, last.pr, last.ptheta, last.pphi]]
  {
  }

  /** Recording one more point appends it to every column. */
  lemma ColumnsAppend(ps: seq<TrajPoint>, x: TrajPoint)
    ensures forall c :: Column(ps + [x], c) == Column(ps, c) + [Get(c, x)]
  {
    assert (ps + [x])[..|ps|] == ps;
  }

  /** gamma(pr, ptheta, pphi) is a Lorentz factor: never below 1. */
  lemma GammaAtLeastOne(mass: real, pr: real, ptheta: real, pphi: real)
    requires SqrtLaw()
    ensures 1.0 <= Gamma(mass, pr, ptheta, pphi)
  {
    var ratio := Div(Sqrt(Sq(pr) + Sq(ptheta) + Sq(pphi)), mass * SpeedOfLight);
    SqNonNegative(ratio);
    SqrtAtLeastOne(1.0 + Sq(ratio));
  }

  /** For a particle with mass, gamma is exactly 1 when, and only when, the
      particle is at rest. */
  lemma GammaIsOneIff(mass: real, pr: real, ptheta: real, pphi: real)
    requires SqrtLaw() && mass != 0.0
    ensures Gamma(mass, pr, ptheta, pphi) == 1.0 <==> pr == 0.0 && ptheta == 0.0 && pphi == 0.0
  {
    SqNonNegative(pr);
    SqNonNegative(ptheta);
    SqNonNegative(pphi);
    var sum := Sq(pr) + Sq(ptheta) + Sq(pphi);
    var d := mass * SpeedOfLight;
    assert d != 0.0 by {
      if 0.0 < mass { MulPositive(mass, SpeedOfLight); } else { MulPositive(-mass, SpeedOfLight); }
    }
    var ratio := Div(Sqrt(sum), d);
    SqNonNegative(ratio);
    SqrtOneIff(1.0 + Sq(ratio));
    if ratio != 0.0 {
      SqPositive(ratio);
    }
    SqrtZeroIff(sum);
    assert ratio == 0.0 <==> Sqrt(sum) == 0.0;
    if pr != 0.0 { SqPositive(pr); }
    if ptheta != 0.0 { SqPositive(ptheta); }
    if pphi != 0.0 { SqPositive(pphi); }
  }

  /** With no field, the radial momentum derivative is the centripetal term
      (p_theta^2 + p_phi^2) / r alone, which never points inwards. */
  lemma FieldFreeRadialDerivative(cfg: Config, r: real, theta: real, phi: real,
                                  pr: real, ptheta: real, pphi: real)
    requires cfg.bfield(r, theta, phi) == FieldValues(0.0, 0.0, 0.0)
    requires 0.0 < r
    ensures DprDt(cfg, r, theta, phi, pr, ptheta, pphi) == (Sq(ptheta) + Sq(pphi)) / r
    ensures 0.0 <= DprDt(cfg, r, theta, phi, pr, ptheta, pphi)
  {
    SqNonNegative(ptheta);
    SqNonNegative(pphi);
    var a := Sq(ptheta) + Sq(pphi);
    assert Div(Sq(ptheta), r) + Div(Sq(pphi), r) == a / r;
    assert 0.0 <= a / r;
  }

  /** At rest, and away from the centre and the poles, every derivative
      vanishes, whatever the field, charge and mass. */
  lemma DerivativesAtRest(cfg: Config, s: Six)
    requires s.pr == 0.0 && s.ptheta == 0.0 && s.pphi == 0.0
    requires s.r != 0.0 && Sin(s.theta) != 0.0
    ensures Derivatives(cfg, s) == Zero()
  {
    assert s.r * Sin(s.theta) != 0.0;
    assert Sq(0.0) == 0.0;
  }

  /** Where the derivatives vanish, so do all four stages. */
  lemma StagesAtStationaryPoint(cfg: Config, s: Six)
    requires Derivatives(cfg, s) == Zero()
    ensures StagesAt(cfg, s) == Stages(Zero(), Zero(), Zero(), Zero())
  {
    hide Derivatives;
    var z := Zero();
    ScaleZero(cfg.stepsize);
    ScaleZero(0.5);
    AddZero(s);
    hide Scale, Add;
    assert StagesAt(cfg, s) == Stages(z, z, z, z);
  }

  lemma IncrementAtRest(cfg: Config, p: TrajPoint)
    requires p.pr == 0.0 && p.ptheta == 0.0 && p.pphi == 0.0
    requires p.r != 0.0 && Sin(p.theta) != 0.0
    ensures Increment(cfg, p) == Zero()
  {
    hide Derivatives, StagesAt, RelMass, Div, Scale, WeightedSum;
    DerivativesAtRest(cfg, SixOf(p));
    StagesAtStationaryPoint(cfg, SixOf(p));
    ScaledSumOfZeroStages(Div(1.0, 6.0 * RelMass(cfg, p)), StagesAt(cfg, SixOf(p)));
  }

  lemma ScaledSumOfZeroStages(c: real, ks: Stages)
    requires ks == Stages(Zero(), Zero(), Zero(), Zero())
    ensures Scale(c, WeightedSum(ks)) == Zero()
  {
    hide WeightedSum;
    WeightedSumOfZeroStages(ks);
    assert Scale(c, Zero()) == Zero();
  }

  lemma WeightedSumOfZeroStages(ks: Stages)
    requires ks == Stages(Zero(), Zero(), Zero(), Zero())
    ensures WeightedSum(ks) == Zero()
  {
  }

  /** A particle at rest stays where it is: a step only advances the time. */
  lemma RestIsFixedPoint(cfg: Config, p: TrajPoint)
    requires p.pr == 0.0 && p.ptheta == 0.0 && p.pphi == 0.0
    requires p.r != 0.0 && Sin(p.theta) != 0.0
    ensures Step(cfg, p) == p.(t := p.t + cfg.stepsize)
  {
    hide Increment;
    IncrementAtRest(cfg, p);
  }

  /** The classical fourth-order weights 1/6, 1/3, 1/3, 1/6. */
  function Rk4Combination(ks: Stages): Six
  {
    Add(Add(Scale(1.0 / 6.0, ks.k1), Scale(1.0 / 3.0, ks.k2)),
        Add(Scale(1.0 / 3.0, ks.k3), Scale(1.0 / 6.0, ks.k4)))
  }

  /** A factor 1 / (6 m) applied to a sum x is 1 / m applied to x / 6. */
  lemma WeightsSplit(m: real, x: real, y: real)
    requires m != 0.0 && y == x / 6.0
    ensures Div(1.0, 6.0 * m) * x == (1.0 / m) * y
  {
    assert Div(1.0, 6.0 * m) == (1.0 / m) * (1.0 / 6.0);
  }

  /** perform_rkstep is the classical Runge-Kutta update of the six-vector
      with every stage divided by the relativistic mass. */
  lemma StepIsRk4OverRelMass(cfg: Config, p: TrajPoint)
    requires RelMass(cfg, p) != 0.0
    ensures Increment(cfg, p) == Scale(1.0 / RelMass(cfg, p), Rk4Combination(StagesAt(cfg, SixOf(p))))
  {
    var m := RelMass(cfg, p);
    var ks := StagesAt(cfg, SixOf(p));
    assert Increment(cfg, p) == Scale(Div(1.0, 6.0 * m), WeightedSum(ks));
    hide RelMass, StagesAt, Increment;
    ScaledCombination(m, ks);
  }

  /** Dividing the weighted stage sum by 6 m is the classical combination
      divided by m. */
  lemma ScaledCombination(m: real, ks: Stages)
    requires m != 0.0
    ensures Scale(Div(1.0, 6.0 * m), WeightedSum(ks)) == Scale(1.0 / m, Rk4Combination(ks))
  {
    var x, y := WeightedSum(ks), Rk4Combination(ks);
    WeightsSplit(m, x.r, y.r);
    WeightsSplit(m, x.theta, y.theta);
    WeightsSplit(m, x.phi, y.phi);
    WeightsSplit(m, x.pr, y.pr);
    WeightsSplit(m, x.ptheta, y.ptheta);
    WeightsSplit(m, x.pphi, y.pphi);
  }

  /** Every point after a step and before the last one lies in the shell
      RE <= r <= RE + escapeRadius; the last one lies outside it unless the
      iteration budget ran out first. */
  lemma ShellUntilExit(cfg: Config, escapeRadius: real, maxIter: int, s0: TrajPoint, k: nat)
    requires 1 <= k <= StepsTaken(cfg, escapeRadius, maxIter, s0)
    ensures k < StepsTaken(cfg, escapeRadius, maxIter, s0) ==>
      RE <= Iterate(StepFn(cfg), s0, k).r <= RE + escapeRadius
    ensures k == StepsTaken(cfg, escapeRadius, maxIter, s0) && k < maxIter ==>
      Iterate(StepFn(cfg), s0, k).r > RE + escapeRadius || Iterate(StepFn(cfg), s0, k).r < RE
  {
    var n := StepsTaken(cfg, escapeRadius, maxIter, s0);
    if k < n {
      assert !StopsAfter(StepFn(cfg), s0, Stop(escapeRadius), k);
    }
  }
}
