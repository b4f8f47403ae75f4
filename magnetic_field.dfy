/** The Earth's field as the tracer sees it: a function of a spherical
    position returning the three spherical components, with the centred
    dipole of MagneticField.hpp as the one concrete instance. */
module MagneticFields {
  import opened RealMath
  import opened Constants

  /** std::array<double, 3>: components 0, 1, 2 are B_r, B_theta, B_phi. */
  datatype FieldValues = FieldValues(br: real, btheta: real, bphi: real)

  /** Any field model: (r, theta, phi) to its components. */
  type Field = (real, real, real) -> FieldValues

  /** B0 at the magnetic equator, in tesla: -29404.8 nT. */
  const EquatorialB0: real := -29404.8 * 0.000000001

  datatype MagneticField = MagneticField(B0: real)
  {
    /** The centred dipole: (RE/r)^3 B0 (2 cos theta, sin theta, 0). */
    function Values(r: real, theta: real, phi: real): (v: FieldValues)
      ensures v.bphi == 0.0
    {
      var q := Div(RE, r);
      FieldValues(2.0 * q * q * q * B0 * Cos(theta), q * q * q * B0 * Sin(theta), 0.0)
    }
  }

  /** The default constructor: the field every tracer uses. */
  function Dipole(): (mf: MagneticField)
    ensures mf.B0 < 0.0
  {
    MagneticField(EquatorialB0)
  }

  /** A MagneticField object seen through the abstract field interface. */
  function AsField(mf: MagneticField): (f: Field)
    ensures forall r, theta, phi :: f(r, theta, phi) == mf.Values(r, theta, phi)
  {
    (r, theta, phi) => mf.Values(r, theta, phi)
  }

  lemma IndependentOfPhi(mf: MagneticField, r: real, theta: real, phi1: real, phi2: real)
    ensures mf.Values(r, theta, phi1) == mf.Values(r, theta, phi2)
  {
  }

  /** On the reference sphere the field is B0 (2 cos theta, sin theta, 0). */
  lemma SurfaceValues(mf: MagneticField, theta: real, phi: real)
    ensures mf.Values(RE, theta, phi) == FieldValues(2.0 * mf.B0 * Cos(theta), mf.B0 * Sin(theta), 0.0)
  {
  }

  /** The dipole's field lines: B_r sin theta = 2 B_theta cos theta. */
  lemma DipoleLineRelation(mf: MagneticField, r: real, theta: real, phi: real)
    requires 0.0 < r
    ensures mf.Values(r, theta, phi).br * Sin(theta) == 2.0 * mf.Values(r, theta, phi).btheta * Cos(theta)
  {
    var q := RE / r;
    var a := q * q * q * mf.B0;
    assert mf.Values(r, theta, phi).br == 2.0 * a * Cos(theta);
    assert mf.Values(r, theta, phi).btheta == a * Sin(theta);
  }

  /** Moving k times further out divides each component by k^3. */
  lemma InverseCubeScaling(mf: MagneticField, r: real, k: real, theta: real, phi: real)
    requires 0.0 < r && 0.0 < k
    ensures mf.Values(k * r, theta, phi).br == mf.Values(r, theta, phi).br / (k * k * k)
    ensures mf.Values(k * r, theta, phi).btheta == mf.Values(r, theta, phi).btheta / (k * k * k)
    ensures mf.Values(k * r, theta, phi).bphi == mf.Values(r, theta, phi).bphi
  {
    var q := RE / r;
    var q' := RE / (k * r);
    assert q' == q / k;
    var k3 := k * k * k;
    assert 0.0 < k3;
    assert q' * q' * q' == (q * q * q) / k3;
    var c := q * q * q * mf.B0;
    assert q' * q' * q' * mf.B0 == c / k3;
    assert mf.Values(k * r, theta, phi).br == 2.0 * (c / k3) * Cos(theta);
    assert mf.Values(k * r, theta, phi).btheta == (c / k3) * Sin(theta);
  }

  /** Over the equator the default dipole is horizontal and points south
      (B_theta < 0, B_r = 0), because B0 is negative. */
  lemma EquatorialField(r: real, phi: real)
    requires CofunctionLaw() && ZeroAngleLaw()
    requires 0.0 < r
    ensures Dipole().Values(r, Pi / 2.0, phi).br == 0.0
    ensures Dipole().Values(r, Pi / 2.0, phi).btheta < 0.0
  {
    RightAngle();
    var q := RE / r;
    assert 0.0 < q;
    assert 0.0 < q * q * q;
    assert q * q * q * EquatorialB0 < 0.0;
  }
}
