/** The obsolete Python stepper, class RungeKutta: one fourth-order
    Runge-Kutta step of the same six-vector, with the Lorentz force scaled by
    charge / (mass gamma) inside the momentum derivatives instead of dividing
    the whole update by a relativistic mass. Every method is a pure
    computation: evaluate returns a fresh array and leaves the object alone. */
module ObsoleteRungeKutta {
  import opened RealMath
  import opened Constants
  import opened MagneticFields
  import opened TrajectoryTracer

  /** __init__: the field object (MagneticField() of gtracr.magnetic_field,
      which is not part of this model, so any field), charge, mass and
      step size. */
  datatype RungeKutta = RungeKutta(bfield: Field, mass: real, charge: real, stepSize: real)

  /** charge / (mass gamma), the factor of every Lorentz term. */
  function Coefficient(rk: RungeKutta, gamma: real): real
  {
    Div(rk.charge, rk.mass * gamma)
  }

  /** The Lorentz terms of dprdt, dpthetadt and dpphidt (term1 of each). */
  function LorentzR(rk: RungeKutta, gamma: real, r: real, theta: real, phi: real,
                    pr: real, ptheta: real, pphi: real): real
  {
    var b := rk.bfield(r, theta, phi);
    Coefficient(rk, gamma) * (ptheta * b.bphi - b.btheta * pphi)
  }

  function LorentzTheta(rk: RungeKutta, gamma: real, r: real, theta: real, phi: real,
                        pr: real, ptheta: real, pphi: real): real
  {
    var b := rk.bfield(r, theta, phi);
    Coefficient(rk, gamma) * (pphi * b.br - b.bphi * pr)
  }

  function LorentzPhi(rk: RungeKutta, gamma: real, r: real, theta: real, phi: real,
                      pr: real, ptheta: real, pphi: real): real
  {
    var b := rk.bfield(r, theta, phi);
    Coefficient(rk, gamma) * (b.btheta * pr - b.br * ptheta)
  }

  /** The curvilinear terms, which do not involve the field or the charge. */
  function CurvilinearR(r: real, ptheta: real, pphi: real): real
  {
    Div(Sq(ptheta), r) + Div(Sq(pphi), r)
  }

  function CurvilinearTheta(r: real, theta: real, pr: real, ptheta: real, pphi: real): real
  {
    Div(Sq(pphi), r * Tan(theta)) - Div(pr * ptheta, r)
  }

  function CurvilinearPhi(r: real, theta: real, pr: real, ptheta: real, pphi: real): real
  {
    -Div(pr * pphi, r) - Div(ptheta * pphi, r * Tan(theta))
  }

  /** dprdt, dpthetadt, dpphidt (their t argument is never read). */
  function Dprdt(rk: RungeKutta, r: real, theta: real, phi: real,
                 pr: real, ptheta: real, pphi: real, gamma: real): real
  {
    LorentzR(rk, gamma, r, theta, phi, pr, ptheta, pphi) + CurvilinearR(r, ptheta, pphi)
  }

  function Dpthetadt(rk: RungeKutta, r: real, theta: real, phi: real,
                     pr: real, ptheta: real, pphi: real, gamma: real): real
  {
    LorentzTheta(rk, gamma, r, theta, phi, pr, ptheta, pphi) + CurvilinearTheta(r, theta, pr, ptheta, pphi)
  }

  function Dpphidt(rk: RungeKutta, r: real, theta: real, phi: real,
                   pr: real, ptheta: real, pphi: real, gamma: real): real
  {
    LorentzPhi(rk, gamma, r, theta, phi, pr, ptheta, pphi) + CurvilinearPhi(r, theta, pr, ptheta, pphi)
  }

  /** The six rates at one sample point: the spherical position rates
      pr, ptheta / r, pphi / (r sin theta) and the three momentum rates. */
  function Rates(rk: RungeKutta, gamma: real, s: Six): Six
  {
    Six(s.pr, Div(s.ptheta, s.r), Div(s.pphi, s.r * Sin(s.theta)),
        Dprdt(rk, s.r, s.theta, s.phi, s.pr, s.ptheta, s.pphi, gamma),
        Dpthetadt(rk, s.r, s.theta, s.phi, s.pr, s.ptheta, s.pphi, gamma),
        Dpphidt(rk, s.r, s.theta, s.phi, s.pr, s.ptheta, s.pphi, gamma))
  }

  /** The start-of-step Lorentz factor sqrt(1 + (|p| / (mass c))^2). */
  function StartGamma(mass: real, pr: real, ptheta: real, pphi: real): real
  {
    MomentumLorentzFactor(Div(Sqrt(Sq(pr) + Sq(ptheta) + Sq(pphi)), mass * PySpeedOfLight))
  }

  /** (k, l, m, a, b, c)_1 .. _4: stepSize times the rates at the classical
      sample points, every stage with the same start-of-step gamma. */
  function StagesOf(rk: RungeKutta, gamma: real, s: Six): Stages
  {
    var k1 := Scale(rk.stepSize, Rates(rk, gamma, s));
    var k2 := Scale(rk.stepSize, Rates(rk, gamma, Add(s, Scale(0.5, k1))));
    var k3 := Scale(rk.stepSize, Rates(rk, gamma, Add(s, Scale(0.5, k2))));
    var k4 := Scale(rk.stepSize, Rates(rk, gamma, Add(s, k3)));
    Stages(k1, k2, k3, k4)
  }

  /** The six-vector ival[1..7]. */
  function SixAt(ival: seq<real>): (s: Six)
    requires 7 <= |ival|
    ensures [s.r, s.theta, s.phi, s.pr, s.ptheta, s.pphi] == ival[1..7]
  {
    Six(ival[1], ival[2], ival[3], ival[4], ival[5], ival[6])
  }

  /** The six-vector after one step from s. */
  function Advanced(rk: RungeKutta, s: Six): Six
  {
    Add(s, Rk4Combination(StagesOf(rk, StartGamma(rk.mass, s.pr, s.ptheta, s.pphi), s)))
  }

  /** evaluate(ival): one step; the new array is t + stepSize followed by the
      advanced six-vector. gamma2, gamma3 and gamma4 are computed in the
      source and then discarded, so they are not computed here. */
  function Evaluate(rk: RungeKutta, ival: seq<real>): (out: seq<real>)
    requires 7 <= |ival|
    ensures |out| == 7
    ensures out[0] == ival[0] + rk.stepSize
  {
    var n := Advanced(rk, SixAt(ival));
    [ival[0] + rk.stepSize, n.r, n.theta, n.phi, n.pr, n.ptheta, n.pphi]
  }

  /** The start-of-step gamma is a Lorentz factor: at least 1. */
  lemma StartGammaAtLeastOne(mass: real, pr: real, ptheta: real, pphi: real)
    requires SqrtLaw()
    ensures 1.0 <= StartGamma(mass, pr, ptheta, pphi)
  {
    hide MomentumLorentzFactor;
    MomentumLorentzFactorAtLeastOne(Div(Sqrt(Sq(pr) + Sq(ptheta) + Sq(pphi)), mass * PySpeedOfLight));
  }

  /** With no field, dprdt is the centripetal term alone, (p_theta^2 + p_phi^2) / r,
      which is never negative outside the centre. */
  lemma FieldFreeRadialRate(rk: RungeKutta, r: real, theta: real, phi: real,
                            pr: real, ptheta: real, pphi: real, gamma: real)
    requires rk.bfield(r, theta, phi) == FieldValues(0.0, 0.0, 0.0)
    requires 0.0 < r
    ensures Dprdt(rk, r, theta, phi, pr, ptheta, pphi, gamma) == (Sq(ptheta) + Sq(pphi)) / r
    ensures 0.0 <= Dprdt(rk, r, theta, phi, pr, ptheta, pphi, gamma)
  {
    SqNonNegative(ptheta);
    SqNonNegative(pphi);
    var a := Sq(ptheta) + Sq(pphi);
    assert CurvilinearR(r, ptheta, pphi) == a / r;
    assert 0.0 <= a / r;
    var c := Coefficient(rk, gamma);
    assert LorentzR(rk, gamma, r, theta, phi, pr, ptheta, pphi) == c * (ptheta * 0.0 - 0.0 * pphi);
  }

  /** Reversing the charge reverses each Lorentz term and leaves the
      curvilinear terms as they are. */
  lemma ChargeReversal(rk: RungeKutta, r: real, theta: real, phi: real,
                       pr: real, ptheta: real, pphi: real, gamma: real)
    requires rk.mass != 0.0 && gamma != 0.0
    ensures var rk' := rk.(charge := -rk.charge);
      && Dprdt(rk', r, theta, phi, pr, ptheta, pphi, gamma)
         == -LorentzR(rk, gamma, r, theta, phi, pr, ptheta, pphi) + CurvilinearR(r, ptheta, pphi)
      && Dpthetadt(rk', r, theta, phi, pr, ptheta, pphi, gamma)
         == -LorentzTheta(rk, gamma, r, theta, phi, pr, ptheta, pphi) + CurvilinearTheta(r, theta, pr, ptheta, pphi)
      && Dpphidt(rk', r, theta, phi, pr, ptheta, pphi, gamma)
         == -LorentzPhi(rk, gamma, r, theta, phi, pr, ptheta, pphi) + CurvilinearPhi(r, theta, pr, ptheta, pphi)
  {
    var rk' := rk.(charge := -rk.charge);
    assert rk.mass * gamma != 0.0;
    NegatedQuotient(rk.charge, rk.mass * gamma);
    var c := Coefficient(rk, gamma);
    assert Coefficient(rk', gamma) == -c;
    hide Coefficient, CurvilinearR, CurvilinearTheta, CurvilinearPhi;
    var b := rk.bfield(r, theta, phi);
    assert LorentzR(rk', gamma, r, theta, phi, pr, ptheta, pphi) == -c * (ptheta * b.bphi - b.btheta * pphi);
    assert LorentzTheta(rk', gamma, r, theta, phi, pr, ptheta, pphi) == -c * (pphi * b.br - b.bphi * pr);
    assert LorentzPhi(rk', gamma, r, theta, phi, pr, ptheta, pphi) == -c * (b.btheta * pr - b.br * ptheta);
  }

  lemma NegatedQuotient(a: real, b: real)
    ensures Div(-a, b) == -Div(a, b) || b == 0.0
  {
    if b != 0.0 {
      assert (-a) / b == -(a / b);
    }
  }

  /** At rest, and away from the centre, the poles and the equator (where
      tan theta vanishes), every rate is zero whatever the field and gamma. */
  lemma RatesAtRest(rk: RungeKutta, gamma: real, s: Six)
    requires s.pr == 0.0 && s.ptheta == 0.0 && s.pphi == 0.0
    requires s.r != 0.0 && Sin(s.theta) != 0.0 && Tan(s.theta) != 0.0
    ensures Rates(rk, gamma, s) == Zero()
  {
    assert s.r * Sin(s.theta) != 0.0;
    assert s.r * Tan(s.theta) != 0.0;
    assert Sq(0.0) == 0.0;
  }

  lemma StagesAtRest(rk: RungeKutta, gamma: real, s: Six)
    requires Rates(rk, gamma, s) == Zero()
    ensures StagesOf(rk, gamma, s) == Stages(Zero(), Zero(), Zero(), Zero())
  {
    hide Rates;
    var z := Zero();
    ScaleZero(rk.stepSize);
    ScaleZero(0.5);
    AddZero(s);
    hide Scale, Add;
    assert StagesOf(rk, gamma, s) == Stages(z, z, z, z);
  }

  lemma AdvancedAtRest(rk: RungeKutta, s: Six)
    requires s.pr == 0.0 && s.ptheta == 0.0 && s.pphi == 0.0
    requires s.r != 0.0 && Sin(s.theta) != 0.0 && Tan(s.theta) != 0.0
    ensures Advanced(rk, s) == s
  {
    hide Rates, StagesOf, StartGamma, Rk4Combination;
    var g := StartGamma(rk.mass, s.pr, s.ptheta, s.pphi);
    RatesAtRest(rk, g, s);
    StagesAtRest(rk, g, s);
    ZeroCombination(StagesOf(rk, g, s));
    assert Add(s, Zero()) == s;
  }

  /** A particle at rest keeps its position and zero momenta; only t moves on. */
  lemma RestIsFixedPoint(rk: RungeKutta, ival: seq<real>)
    requires 7 <= |ival|
    requires ival[4] == 0.0 && ival[5] == 0.0 && ival[6] == 0.0
    requires ival[1] != 0.0 && Sin(ival[2]) != 0.0 && Tan(ival[2]) != 0.0
    ensures Evaluate(rk, ival) == [ival[0] + rk.stepSize, ival[1], ival[2], ival[3], 0.0, 0.0, 0.0]
  {
    hide Advanced;
    AdvancedAtRest(rk, SixAt(ival));
  }

  lemma ZeroCombination(ks: Stages)
    requires ks == Stages(Zero(), Zero(), Zero(), Zero())
    ensures Rk4Combination(ks) == Zero()
  {
  }

  /** A step of size zero returns the six-vector unchanged, whatever the
      rates are (over the reals; in floating point an infinite rate would
      still give NaN). */
  lemma ZeroStepIsIdentity(rk: RungeKutta, ival: seq<real>)
    requires 7 <= |ival| && rk.stepSize == 0.0
    ensures Evaluate(rk, ival) == ival[..7]
  {
    hide Rates, StartGamma, Rk4Combination;
    var s := SixAt(ival);
    var g := StartGamma(rk.mass, s.pr, s.ptheta, s.pphi);
    ZeroScaledStages(rk, g, s);
    ZeroCombination(StagesOf(rk, g, s));
    assert Add(s, Zero()) == s;
  }

  lemma ZeroScaledStages(rk: RungeKutta, gamma: real, s: Six)
    requires rk.stepSize == 0.0
    ensures StagesOf(rk, gamma, s) == Stages(Zero(), Zero(), Zero(), Zero())
  {
    hide Rates;
    forall x: Six
      ensures Scale(0.0, x) == Zero()
    {
    }
  }
}
