/** The C++ Particle class: identity (name, PDG id, mass, charge, label) and
    three kinematic fields (momentum, velocity, rigidity) that every setter
    overwrites together. */
module Particles {
  import opened RealMath
  import opened Constants

  /** Below this magnitude the energy/rigidity constructor treats an
      argument as "not given". */
  const GivenTolerance: real := 0.0000000001

  /** abs(charge) as the double the setters multiply or divide by. */
  function AbsCharge(charge: int): (a: real)
    ensures 0.0 <= a && (a == 0.0 <==> charge == 0)
  {
    if charge < 0 then (-charge) as real else charge as real
  }

  /** Velocity of rest mass m at momentum p: p sc / sqrt(p^2 + (m sc)^2). */
  function VelocityOf(p: real, m: real): real
  {
    Div(p * Sc, Sqrt(Sq(p) + Sq(m * Sc)))
  }

  /** gamma(vel) = 1 / sqrt(1 - (vel / sc)^2). */
  function LorentzFactor(vel: real): real
  {
    Div(1.0, Sqrt(1.0 - Sq(vel / Sc)))
  }

  /** Momentum of rest mass m moving at vel: gamma(vel) m vel. */
  function MomentumOf(vel: real, m: real): real
  {
    LorentzFactor(vel) * m * vel
  }

  /** Momentum for total energy e: sqrt(e^2 - m^2). */
  function MomentumFromEnergy(e: real, m: real): real
  {
    Sqrt(Sq(e) - Sq(m))
  }

  /** The branch the energy/rigidity constructor takes. */
  datatype Branch = FromEnergy | FromRigidity | Throws

  function ConstructorBranch(energy: real, rigidity: real): (b: Branch)
    ensures b == Throws <==> GivenTolerance <= Abs(energy) && GivenTolerance <= Abs(rigidity)
    ensures b == FromEnergy <==> Abs(energy) < GivenTolerance
  {
    if Abs(energy) < GivenTolerance then FromEnergy
    else if Abs(rigidity) < GivenTolerance then FromRigidity
    else Throws
  }

  /** The branch the constructor's comment describes ("energy xor rigidity
      is given"): an argument counts as given when its magnitude reaches the
      tolerance. */
  function IntendedBranch(energy: real, rigidity: real): (b: Branch)
    ensures b == FromEnergy <==> GivenTolerance <= Abs(energy) && Abs(rigidity) < GivenTolerance
    ensures b == FromRigidity <==> Abs(energy) < GivenTolerance && GivenTolerance <= Abs(rigidity)
    ensures b == Throws <==> (GivenTolerance <= Abs(energy) <==> GivenTolerance <= Abs(rigidity))
  {
    var energyGiven := GivenTolerance <= Abs(energy);
    var rigidityGiven := GivenTolerance <= Abs(rigidity);
    if energyGiven && !rigidityGiven then FromEnergy
    else if rigidityGiven && !energyGiven then FromRigidity
    else Throws
  }

  /** Outcome of the constructor that may throw std::runtime_error. */
  datatype Construction = Constructed(particle: Particle) | Thrown(message: string)

  class Particle {
    var name: string
    var pid: int
    var mass: real
    var charge: int
    var lbl: string
    var momentum: real
    var velocity: real
    var rigidity: real

    /** The kinematic fields agree with each other as every setter leaves them. */
    predicate RigidityConsistent()
      reads this`momentum, this`rigidity, this`charge
    {
      charge != 0 ==> rigidity * AbsCharge(charge) == momentum
    }

    /** Particle(): a proton at momentum sqrt(m^2 + 1). */
    constructor Default()
      ensures name == "Proton" && pid == 2212 && mass == 0.938272 && charge == 1 && lbl == "p+"
      ensures momentum == Sqrt(Sq(mass) + 1.0)
      ensures velocity == VelocityOf(momentum, mass)
      ensures rigidity == momentum && RigidityConsistent()
    {
      name, pid, mass, charge, lbl := "Proton", 2212, 0.938272, 1, "p+";
      new;
      momentum := Sqrt(Sq(mass) + 1.0);
      velocity := VelocityOf(momentum, mass);
      rigidity := Div(momentum, AbsCharge(charge));
    }

    /** Particle(name, pdgid, mass, charge, label): momentum sqrt(m^2 + 1). */
    constructor (name: string, pdgid: int, mass: real, charge: int, lbl: string)
      ensures this.name == name && pid == pdgid && this.mass == mass
      ensures this.charge == charge && this.lbl == lbl
      ensures momentum == Sqrt(Sq(mass) + 1.0)
      ensures velocity == VelocityOf(momentum, mass)
      ensures rigidity == Div(momentum, AbsCharge(charge)) && RigidityConsistent()
    {
      this.name, pid, this.mass, this.charge, this.lbl := name, pdgid, mass, charge, lbl;
      new;
      momentum := Sqrt(Sq(mass) + 1.0);
      velocity := VelocityOf(momentum, mass);
      rigidity := Div(momentum, AbsCharge(charge));
    }

    /** The member initialiser list of the energy/rigidity constructor,
        before its body runs: the kinematic fields are not yet set. */
    constructor Identity(name: string, pdgid: int, mass: real, charge: int, lbl: string)
      ensures this.name == name && pid == pdgid && this.mass == mass
      ensures this.charge == charge && this.lbl == lbl
    {
      this.name, pid, this.mass, this.charge, this.lbl := name, pdgid, mass, charge, lbl;
    }

    /** Particle(name, pdgid, mass, charge, label, energy, rigidity): sets the
        kinematics from the energy when |energy| < 1e-10, else from the
        rigidity when |rigidity| < 1e-10, and throws otherwise. */
    static method WithEnergyOrRigidity(name: string, pdgid: int, mass: real, charge: int, lbl: string,
                                       energy: real := 0.0, rigidity: real := 0.0)
      returns (res: Construction)
      ensures res.Thrown? <==> ConstructorBranch(energy, rigidity) == Throws
      ensures res.Constructed? ==> fresh(res.particle)
      ensures res.Constructed? ==>
        var p := res.particle;
        p.name == name && p.pid == pdgid && p.mass == mass && p.charge == charge && p.lbl == lbl &&
        p.RigidityConsistent()
      ensures res.Constructed? ==> res.particle.velocity == VelocityOf(res.particle.momentum, mass)
      ensures res.Constructed? && ConstructorBranch(energy, rigidity) == FromEnergy ==>
        res.particle.momentum == MomentumFromEnergy(energy, mass) &&
        res.particle.rigidity == Div(res.particle.momentum, AbsCharge(charge))
      ensures res.Constructed? && ConstructorBranch(energy, rigidity) == FromRigidity ==>
        res.particle.rigidity == rigidity && res.particle.momentum == rigidity * AbsCharge(charge)
    {
      var p := new Particle.Identity(name, pdgid, mass, charge, lbl);
      if Abs(energy) < GivenTolerance {
        p.SetFromEnergy(energy);
      } else if Abs(rigidity) < GivenTolerance {
        p.SetFromRigidity(rigidity);
      } else {
        return Thrown("Input energy or rigidity, but not both or none!");
      }
      res := Constructed(p);
    }

    /** The energy/rigidity constructor as its comment describes it: the
        kinematics come from whichever of energy and rigidity is given, and
        giving both or neither throws. */
    static method WithGivenEnergyOrRigidity(name: string, pdgid: int, mass: real, charge: int, lbl: string,
                                            energy: real := 0.0, rigidity: real := 0.0)
      returns (res: Construction)
      ensures res.Thrown? <==> IntendedBranch(energy, rigidity) == Throws
      ensures res.Constructed? ==> fresh(res.particle)
      ensures res.Constructed? ==>
        var p := res.particle;
        p.name == name && p.pid == pdgid && p.mass == mass && p.charge == charge && p.lbl == lbl &&
        p.RigidityConsistent()
      ensures res.Constructed? ==> res.particle.velocity == VelocityOf(res.particle.momentum, mass)
      ensures res.Constructed? && IntendedBranch(energy, rigidity) == FromEnergy ==>
        res.particle.momentum == MomentumFromEnergy(energy, mass) &&
        res.particle.rigidity == Div(res.particle.momentum, AbsCharge(charge))
      ensures res.Constructed? && IntendedBranch(energy, rigidity) == FromRigidity ==>
        res.particle.rigidity == rigidity && res.particle.momentum == rigidity * AbsCharge(charge)
    {
      var p := new Particle.Identity(name, pdgid, mass, charge, lbl);
      if GivenTolerance <= Abs(energy) && Abs(rigidity) < GivenTolerance {
        p.SetFromEnergy(energy);
      } else if Abs(energy) < GivenTolerance && GivenTolerance <= Abs(rigidity) {
        p.SetFromRigidity(rigidity);
      } else {
        return Thrown("Input energy or rigidity, but not both or none!");
      }
      res := Constructed(p);
    }

    /** The copy constructor. */
    constructor Copy(part: Particle)
      ensures name == part.name && pid == part.pid && mass == part.mass && charge == part.charge
      ensures lbl == part.lbl && momentum == part.momentum && velocity == part.velocity
      ensures rigidity == part.rigidity
    {
      name, pid, mass, charge, lbl := part.name, part.pid, part.mass, part.charge, part.lbl;
      momentum, velocity, rigidity := part.momentum, part.velocity, part.rigidity;
    }

    /** The copy assignment operator (safe for self-assignment). */
    method Assign(part: Particle)
      modifies this
      ensures name == old(part.name) && pid == old(part.pid) && mass == old(part.mass)
      ensures charge == old(part.charge) && lbl == old(part.lbl)
      ensures momentum == old(part.momentum) && velocity == old(part.velocity)
      ensures rigidity == old(part.rigidity)
    {
      name := part.name;
      pid := part.pid;
      mass := part.mass;
      charge := part.charge;
      lbl := part.lbl;
      momentum := part.momentum;
      velocity := part.velocity;
      rigidity := part.rigidity;
    }

    /** gamma(): the Lorentz factor of the stored velocity. */
    function Gamma(): real
      reads this`velocity
    {
      LorentzFactor(velocity)
    }

    /** get_energy_rigidity(): sqrt(p^2 + m^2) R |charge|. */
    function EnergyRigidity(): real
      reads this`momentum, this`mass, this`rigidity, this`charge
    {
      Sqrt(Sq(momentum) + Sq(mass)) * rigidity * AbsCharge(charge)
    }

    method SetFromEnergy(energy: real)
      modifies this`momentum, this`velocity, this`rigidity
      ensures momentum == MomentumFromEnergy(energy, mass)
      ensures velocity == VelocityOf(momentum, mass)
      ensures rigidity == Div(momentum, AbsCharge(charge)) && RigidityConsistent()
    {
      momentum := MomentumFromEnergy(energy, mass);
      velocity := VelocityOf(momentum, mass);
      rigidity := Div(momentum, AbsCharge(charge));
    }

    method SetFromMomentum(mmtum: real)
      modifies this`momentum, this`velocity, this`rigidity
      ensures momentum == mmtum
      ensures velocity == VelocityOf(mmtum, mass)
      ensures rigidity == Div(mmtum, AbsCharge(charge)) && RigidityConsistent()
    {
      momentum := mmtum;
      velocity := VelocityOf(momentum, mass);
      rigidity := Div(momentum, AbsCharge(charge));
    }

    method SetFromRigidity(rgdty: real)
      modifies this`momentum, this`velocity, this`rigidity
      ensures rigidity == rgdty
      ensures momentum == rgdty * AbsCharge(charge)
      ensures velocity == VelocityOf(momentum, mass) && RigidityConsistent()
    {
      momentum := rgdty * AbsCharge(charge);
      velocity := VelocityOf(momentum, mass);
      rigidity := rgdty;
    }

    method SetFromVelocity(vel: real)
      modifies this`momentum, this`velocity, this`rigidity
      ensures velocity == vel
      ensures momentum == MomentumOf(vel, mass)
      ensures rigidity == Div(momentum, AbsCharge(charge)) && RigidityConsistent()
    {
      momentum := LorentzFactor(vel) * mass * vel;
      velocity := vel;
      rigidity := Div(momentum, AbsCharge(charge));
    }
  }

  /** A positive rest mass keeps the derived velocity in [0, sc) for every
      non-negative momentum. */
  lemma VelocityBelowLightSpeed(p: real, m: real)
    requires SqrtLaw() && 0.0 <= p && 0.0 < m
    ensures 0.0 <= VelocityOf(p, m) < Sc
  {
    var ms := m * Sc;
    MulPositive(m, Sc);
    SqPositive(ms);
    SqrtAbove(p, Sq(p) + Sq(ms));
    var d := Sqrt(Sq(p) + Sq(ms));
    assert VelocityOf(p, m) == (p * Sc) / d;
    assert (p * Sc) / d == (p / d) * Sc;
  }

  /** The quotient of squares is the square of the quotient. */
  lemma SqQuotient(u: real, d: real)
    requires d != 0.0
    ensures Sq(u / d) == Sq(u) / Sq(d)
  {
  }

  /** With d the hypotenuse of p and ms, the speed ratio p c / d / c leaves
      1 - ratio^2 equal to (ms / d)^2. */
  lemma SpeedRatioComplement(p: real, ms: real, d: real, c: real, v: real)
    requires 0.0 < d && 0.0 < c && Sq(d) == Sq(p) + Sq(ms) && v == (p * c) / d
    ensures 1.0 - Sq(v / c) == Sq(ms / d)
  {
    assert v / c == p / d;
    SqQuotient(p, d);
    SqQuotient(ms, d);
    SqPositive(d);
    OneMinusQuotient(Sq(p), Sq(d));
  }

  lemma OneMinusQuotient(a: real, b: real)
    requires b != 0.0
    ensures 1.0 - a / b == (b - a) / b
  {
    assert (b - a) / b == b / b - a / b;
  }

  lemma ReciprocalOfQuotient(a: real, b: real)
    requires a != 0.0 && b != 0.0
    ensures 1.0 / (a / b) == b / a
  {
  }

  lemma CancelFactors(p: real, m: real, c: real, d: real)
    requires 0.0 < m && 0.0 < c && 0.0 < d
    ensures (d / (m * c)) * m * ((p * c) / d) == p
  {
    MulPositive(m, c);
  }

  /** Momentum -> velocity -> momentum returns the momentum exactly. */
  lemma MomentumVelocityRoundTrip(p: real, m: real)
    requires SqrtLaw() && 0.0 < m
    ensures MomentumOf(VelocityOf(p, m), m) == p
  {
    var ms := m * Sc;
    MulPositive(m, Sc);
    SqPositive(ms);
    SqNonNegative(p);
    SqrtPositive(Sq(p) + Sq(ms));
    var d := Sqrt(Sq(p) + Sq(ms));
    assert SqrtAt(Sq(p) + Sq(ms));
    var v := VelocityOf(p, m);
    assert v == (p * Sc) / d;
    SpeedRatioComplement(p, ms, d, Sc, v);
    assert 1.0 - Sq(v / Sc) == Sq(ms / d);
    SqrtOfSquare(ms / d);
    assert Sqrt(1.0 - Sq(v / Sc)) == ms / d;
    ReciprocalOfQuotient(ms, d);
    assert LorentzFactor(v) == d / ms;
    CancelFactors(p, m, Sc, d);
  }

  /** With an energy given and no rigidity (the documented use), the
      constructor takes the rigidity branch: the energy is ignored and the
      particle is at rest. */
  lemma GivenEnergyIsIgnored(energy: real)
    requires GivenTolerance <= Abs(energy)
    ensures ConstructorBranch(energy, 0.0) == FromRigidity
    ensures IntendedBranch(energy, 0.0) == FromEnergy
  {
  }

  /** Conversely a given rigidity with no energy is ignored: the momentum
      is taken from the (absent) energy. */
  lemma GivenRigidityIsIgnored(rigidity: real)
    requires GivenTolerance <= Abs(rigidity)
    ensures ConstructorBranch(0.0, rigidity) == FromEnergy
    ensures IntendedBranch(0.0, rigidity) == FromRigidity
  {
  }
}
