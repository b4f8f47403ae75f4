/** The launch driver func of tests/test.py: it turns a geographic launch site
    and a zenith/azimuth direction into the first two points of a trajectory
    (the site itself and a point one step away along the launch direction),
    then repeatedly calls an integrator and records every new point into
    seven preallocated columns until the particle escapes, returns to the
    ground or the columns are nearly full. */
module Launch {
  import opened RealMath
  import opened Constants
  import opened Stepping
  import opened TrajectoryTracer

  /** A Cartesian triple (ECEF or local tangent-plane coordinates). */
  datatype Vec3 = Vec3(x: real, y: real, z: real)

  /** A 3x3 matrix given by its rows. */
  datatype Mat3 = Mat3(row1: Vec3, row2: Vec3, row3: Vec3)

  /** A point in Earth-centred spherical coordinates. */
  datatype Spherical = Spherical(r: real, theta: real, phi: real)

  function Dot(a: Vec3, b: Vec3): real
  {
    a.x * b.x + a.y * b.y + a.z * b.z
  }

  /** np.dot(matrix, vector). */
  function Apply(m: Mat3, v: Vec3): Vec3
  {
    Vec3(Dot(m.row1, v), Dot(m.row2, v), Dot(m.row3, v))
  }

  function Plus(a: Vec3, b: Vec3): Vec3
  {
    Vec3(a.x + b.x, a.y + b.y, a.z + b.z)
  }

  function Times(k: real, v: Vec3): Vec3
  {
    Vec3(k * v.x, k * v.y, k * v.z)
  }

  /** x^2 + y^2 + z^2. */
  function NormSq(v: Vec3): real
  {
    Sq(v.x) + Sq(v.y) + Sq(v.z)
  }

  /** The third column of a matrix: what it maps the local z axis to. */
  function ThirdColumn(m: Mat3): Vec3
  {
    Vec3(m.row1.z, m.row2.z, m.row3.z)
  }

  /** The launch site: r0 = EARTH_RADIUS + start_altitude, the colatitude
      theta0 = (90 - latitude) in radians and the longitude phi0 in radians. */
  function Origin(latitude: real, longitude: real, startAltitude: real): (o: Spherical)
    ensures o.r - startAltitude == EarthRadius
    ensures o.theta == Pi / 2.0 - latitude * DegToRad
    ensures o.phi == longitude * DegToRad
  {
    Spherical(EarthRadius + startAltitude, (90.0 - latitude) * DegToRad, longitude * DegToRad)
  }

  /** (r sin(theta) cos(phi), r sin(theta) sin(phi), r cos(theta)). */
  function Cartesian(p: Spherical): Vec3
  {
    Vec3(p.r * Sin(p.theta) * Cos(p.phi), p.r * Sin(p.theta) * Sin(p.phi), p.r * Cos(p.theta))
  }

  /** The rotation from the local tangent plane (east, north, up) at the
      given latitude and longitude to Earth-centred axes. */
  function TangentToEcef(latitude: real, longitude: real): Mat3
  {
    var lat := latitude * DegToRad;
    var lon := longitude * DegToRad;
    Mat3(Vec3(-Sin(lon), -Cos(lon) * Sin(lat), Cos(lat) * Cos(lon)),
         Vec3(Cos(lon), -Sin(lat) * Sin(lon), Cos(lat) * Sin(lon)),
         Vec3(0.0, Cos(lat), Sin(lat)))
  }

  /** A vector of length l in the local tangent plane, at angle zenith from
      the local vertical and at angle azimuth within the plane. */
  function TangentVector(l: real, zenith: real, azimuth: real): Vec3
  {
    var xi := zenith * DegToRad;
    var alpha := azimuth * DegToRad;
    Vec3(l * Sin(xi) * Cos(alpha), l * Sin(xi) * Sin(alpha), l * Cos(xi))
  }

  /** The point one launch vector away from the site, in Earth-centred axes. */
  function Displaced(latitude: real, longitude: real, startAltitude: real,
                     l: real, zenith: real, azimuth: real): Vec3
  {
    Plus(Cartesian(Origin(latitude, longitude, startAltitude)),
         Apply(TangentToEcef(latitude, longitude), TangentVector(l, zenith, azimuth)))
  }

  /** Back to spherical coordinates: r = sqrt(x^2 + y^2 + z^2),
      theta = arccos(z / r), phi = arctan(y / x). */
  function ToSpherical(v: Vec3): (p: Spherical)
    ensures p.r == Sqrt(NormSq(v))
  {
    var r := Sqrt(NormSq(v));
    Spherical(r, Arccos(Div(v.z, r)), Arctan(Div(v.y, v.x)))
  }

  lemma SqOfProduct(a: real, b: real)
    ensures Sq(a * b) == Sq(a) * Sq(b)
  {
  }

  /** Scaling a vector by k scales its squared length by k^2. */
  lemma NormSqOfScaled(k: real, v: Vec3)
    ensures NormSq(Times(k, v)) == Sq(k) * NormSq(v)
  {
    SqOfProduct(k, v.x);
    SqOfProduct(k, v.y);
    SqOfProduct(k, v.z);
  }

  /** (cos a cos b, cos a sin b, sin a) is a unit vector. */
  lemma UnitDirection(a: real, b: real)
    requires PythagoreanLaw()
    ensures NormSq(Vec3(Cos(a) * Cos(b), Cos(a) * Sin(b), Sin(a))) == 1.0
  {
    assert PythagoreanAt(a) && PythagoreanAt(b);
    SqOfProduct(Cos(a), Cos(b));
    SqOfProduct(Cos(a), Sin(b));
    assert Sq(Cos(a)) * Sq(Cos(b)) + Sq(Cos(a)) * Sq(Sin(b))
        == Sq(Cos(a)) * (Sq(Sin(b)) + Sq(Cos(b)));
  }

  /** The local launch vector has length l whatever the zenith and azimuth. */
  lemma TangentVectorLength(l: real, zenith: real, azimuth: real)
    requires PythagoreanLaw()
    ensures NormSq(TangentVector(l, zenith, azimuth)) == Sq(l)
    ensures SqrtLaw() && 0.0 <= l ==> Sqrt(NormSq(TangentVector(l, zenith, azimuth))) == l
  {
    var xi := zenith * DegToRad;
    var alpha := azimuth * DegToRad;
    var v := TangentVector(l, zenith, azimuth);
    assert v == Times(l, Vec3(Sin(xi) * Cos(alpha), Sin(xi) * Sin(alpha), Cos(xi)));
    NormSqOfScaled(l, Vec3(Sin(xi) * Cos(alpha), Sin(xi) * Sin(alpha), Cos(xi)));
    UnitSphereDirection(xi, alpha);
    if SqrtLaw() && 0.0 <= l {
      SqrtOfSquare(l);
    }
  }

  /** (sin a cos b, sin a sin b, cos a) is a unit vector. */
  lemma UnitSphereDirection(a: real, b: real)
    requires PythagoreanLaw()
    ensures NormSq(Vec3(Sin(a) * Cos(b), Sin(a) * Sin(b), Cos(a))) == 1.0
  {
    assert PythagoreanAt(a) && PythagoreanAt(b);
    SqOfProduct(Sin(a), Cos(b));
    SqOfProduct(Sin(a), Sin(b));
    assert Sq(Sin(a)) * Sq(Cos(b)) + Sq(Sin(a)) * Sq(Sin(b))
        == Sq(Sin(a)) * (Sq(Sin(b)) + Sq(Cos(b)));
  }

  /** The third column of the rotation is the unit radial direction at the
      launch site: the local vertical points straight away from the centre. */
  lemma ThirdColumnIsRadial(latitude: real, longitude: real, startAltitude: real)
    requires CofunctionLaw()
    ensures ThirdColumn(TangentToEcef(latitude, longitude))
         == Cartesian(Spherical(1.0, Origin(latitude, longitude, startAltitude).theta,
                                Origin(latitude, longitude, startAltitude).phi))
  {
    var lat := latitude * DegToRad;
    var o := Origin(latitude, longitude, startAltitude);
    assert Sin(o.theta) == Cos(lat);
    CosOfComplement(lat);
    assert Cos(o.theta) == Sin(lat);
  }

  /** A launch straight up (zenith 0) lands one step l further out:
      the displaced point lies at radius r0 + l. */
  lemma VerticalLaunchRadius(latitude: real, longitude: real, startAltitude: real,
                             l: real, azimuth: real)
    requires SqrtLaw() && PythagoreanLaw() && CofunctionLaw() && ZeroAngleLaw()
    requires 0.0 <= EarthRadius + startAltitude + l
    ensures ToSpherical(Displaced(latitude, longitude, startAltitude, l, 0.0, azimuth)).r
         == Origin(latitude, longitude, startAltitude).r + l
  {
    var lat := latitude * DegToRad;
    var lon := longitude * DegToRad;
    var r0 := EarthRadius + startAltitude;
    var u := Vec3(Cos(lat) * Cos(lon), Cos(lat) * Sin(lon), Sin(lat));
    var tf := TangentToEcef(latitude, longitude);
    assert TangentVector(l, 0.0, azimuth) == Vec3(0.0, 0.0, l);
    assert Apply(tf, Vec3(0.0, 0.0, l)) == Times(l, u);
    ThirdColumnIsRadial(latitude, longitude, startAltitude);
    var o := Origin(latitude, longitude, startAltitude);
    assert Sin(o.theta) == Cos(lat);
    CosOfComplement(lat);
    assert Cartesian(o) == Times(r0, u);
    var d := Displaced(latitude, longitude, startAltitude, l, 0.0, azimuth);
    assert d == Times(r0 + l, u);
    NormSqOfScaled(r0 + l, u);
    UnitDirection(lat, lon);
    SqrtOfSquare(r0 + l);
  }

  /** Two columns sum to the same vector length when they are orthonormal:
      |x c1 + y c2 + z c3|^2 = x^2 + y^2 + z^2. */
  lemma OrthonormalCombination(x: real, y: real, z: real, c1: Vec3, c2: Vec3, c3: Vec3)
    requires NormSq(c1) == 1.0 && NormSq(c2) == 1.0 && NormSq(c3) == 1.0
    requires Dot(c1, c2) == 0.0 && Dot(c1, c3) == 0.0 && Dot(c2, c3) == 0.0
    ensures NormSq(Plus(Times(x, c1), Plus(Times(y, c2), Times(z, c3)))) == Sq(x) + Sq(y) + Sq(z)
  {
    var a, b, c := Times(x, c1), Times(y, c2), Times(z, c3);
    NormSqOfSum(a, Plus(b, c));
    NormSqOfSum(b, c);
    DotOfPlus(a, b, c);
    NormSqOfScaled(x, c1);
    NormSqOfScaled(y, c2);
    NormSqOfScaled(z, c3);
    DotOfScaled(x, c1, y, c2);
    DotOfScaled(x, c1, z, c3);
    DotOfScaled(y, c2, z, c3);
  }

  lemma NormSqOfSum(a: Vec3, b: Vec3)
    ensures NormSq(Plus(a, b)) == NormSq(a) + 2.0 * Dot(a, b) + NormSq(b)
  {
  }

  lemma DotOfPlus(a: Vec3, b: Vec3, c: Vec3)
    ensures Dot(a, Plus(b, c)) == Dot(a, b) + Dot(a, c)
  {
  }

  lemma DotOfScaled(x: real, a: Vec3, y: real, b: Vec3)
    ensures Dot(Times(x, a), Times(y, b)) == x * y * Dot(a, b)
  {
  }

  /** The columns of the tangent-plane rotation. */
  function EastColumn(m: Mat3): Vec3
  {
    Vec3(m.row1.x, m.row2.x, m.row3.x)
  }

  function NorthColumn(m: Mat3): Vec3
  {
    Vec3(m.row1.y, m.row2.y, m.row3.y)
  }

  /** The tangent-plane matrix is a rotation: it keeps the length of every
      vector, so the launch step stays stepSize long and the launch velocity
      keeps the particle's speed in Earth-centred axes. */
  lemma RotationKeepsLength(latitude: real, longitude: real, v: Vec3)
    requires PythagoreanLaw()
    ensures NormSq(Apply(TangentToEcef(latitude, longitude), v)) == NormSq(v)
  {
    var m := TangentToEcef(latitude, longitude);
    ColumnsOrthonormal(latitude, longitude);
    hide TangentToEcef;
    ApplyByColumns(m, v);
    OrthonormalCombination(v.x, v.y, v.z, EastColumn(m), NorthColumn(m), ThirdColumn(m));
  }

  /** A matrix applied to v is the combination of its columns with v's entries. */
  lemma ApplyByColumns(m: Mat3, v: Vec3)
    ensures Apply(m, v)
         == Plus(Times(v.x, EastColumn(m)), Plus(Times(v.y, NorthColumn(m)), Times(v.z, ThirdColumn(m))))
  {
  }

  /** The three columns of the tangent-plane matrix are orthonormal. */
  lemma ColumnsOrthonormal(latitude: real, longitude: real)
    requires PythagoreanLaw()
    ensures var m := TangentToEcef(latitude, longitude);
      && NormSq(EastColumn(m)) == 1.0 && NormSq(NorthColumn(m)) == 1.0
      && NormSq(ThirdColumn(m)) == 1.0
      && Dot(EastColumn(m), NorthColumn(m)) == 0.0 && Dot(EastColumn(m), ThirdColumn(m)) == 0.0
      && Dot(NorthColumn(m), ThirdColumn(m)) == 0.0
  {
    var lat := latitude * DegToRad;
    var lon := longitude * DegToRad;
    var m := TangentToEcef(latitude, longitude);
    assert PythagoreanAt(lat) && PythagoreanAt(lon);
    assert NormSq(EastColumn(m)) == 1.0;
    assert NorthColumn(m) == Vec3(-(Sin(lat) * Cos(lon)), -(Sin(lat) * Sin(lon)), Cos(lat));
    assert NormSq(NorthColumn(m)) == 1.0 by {
      SqOfProduct(Sin(lat), Cos(lon));
      SqOfProduct(Sin(lat), Sin(lon));
      assert Sq(Sin(lat)) * Sq(Cos(lon)) + Sq(Sin(lat)) * Sq(Sin(lon))
          == Sq(Sin(lat)) * (Sq(Sin(lon)) + Sq(Cos(lon)));
    }
    UnitDirection(lat, lon);
    CrossTerm(Sin(lat), Cos(lat), Sin(lon), Cos(lon));
  }

  lemma CrossTerm(sa: real, ca: real, sb: real, cb: real)
    requires Sq(sb) + Sq(cb) == 1.0
    ensures -(sa * cb) * (ca * cb) + -(sa * sb) * (ca * sb) + ca * sa == 0.0
  {
    assert -(sa * cb) * (ca * cb) + -(sa * sb) * (ca * sb) + ca * sa
        == sa * ca * (1.0 - (Sq(sb) + Sq(cb)));
  }

  /** maxStep and stepSize of func. */
  const MaxStep: nat := 10000
  const StepSize: real := 0.1

  /** The key of each recorded column in the results dictionary. */
  function KeyOf(c: Component): (key: string)
    ensures key in ColumnKeys
  {
    match c
    case T => "t"
    case R => "r"
    case Theta => "theta"
    case Phi => "phi"
    case Pr => "pr"
    case Ptheta => "ptheta"
    case Pphi => "pphi"
  }

  /** A numpy zeros array of length n. */
  function Zeros(n: nat): (z: seq<real>)
    ensures |z| == n && forall k :: 0 <= k < n ==> z[k] == 0.0
  {
    seq(n, _ => 0.0)
  }

  /** np.trim_zeros(arr, 'b'): drop the zeros at the back of the array,
      and only those. */
  function TrimTrailingZeros(a: seq<real>): (b: seq<real>)
    ensures |b| <= |a| && b == a[..|b|]
    ensures forall k :: |b| <= k < |a| ==> a[k] == 0.0
    ensures b == [] || b[|b| - 1] != 0.0
  {
    if a == [] || a[|a| - 1] != 0.0 then a else TrimTrailingZeros(a[..|a| - 1])
  }

  /** The initial velocity components (vr, vtheta, vphi) at the displaced
      point p: the particle's speed along the launch direction, rotated to
      Earth-centred axes and projected on the spherical unit vectors at p. */
  function LaunchVelocity(latitude: real, longitude: real, zenith: real, azimuth: real,
                          speed: real, p: Spherical): Vec3
  {
    var v := Apply(TangentToEcef(latitude, longitude), TangentVector(speed, zenith, azimuth));
    Vec3(v.x * Sin(p.theta) * Cos(p.phi) + v.y * Sin(p.theta) * Sin(p.phi) + v.z * Cos(p.theta),
         Div(v.x * Cos(p.theta) * Cos(p.phi) + v.y * Cos(p.theta) * Sin(p.phi) - v.z * Sin(p.theta), p.r),
         Div(-v.x * Sin(p.phi) + v.y * Cos(p.phi), p.r * Sin(p.theta)))
  }

  /** initial_values: t = t0 + stepSize, the displaced point and the launch
      velocity components, which the integrator carries in the momentum slots. */
  function InitialValues(latitude: real, longitude: real, startAltitude: real,
                         zenith: real, azimuth: real, speed: real): (s: TrajPoint)
    ensures s.t == StepSize
  {
    var p := ToSpherical(Displaced(latitude, longitude, startAltitude, StepSize, zenith, azimuth));
    var v := LaunchVelocity(latitude, longitude, zenith, azimuth, speed, p);
    TrajPoint(0.0 + StepSize, p.r, p.theta, p.phi, v.x, v.y, v.z)
  }

  /** The recorded form of an integrator state: the velocity components
      turned into momenta by the factor gamma(|v|) * mass, which scale gives. */
  function WithMomenta(scale: TrajPoint -> real, s: TrajPoint): (p: TrajPoint)
    ensures p.t == s.t && p.r == s.r && p.theta == s.theta && p.phi == s.phi
  {
    var k := scale(s);
    TrajPoint(s.t, s.r, s.theta, s.phi, k * s.pr, k * s.ptheta, k * s.pphi)
  }

  /** The loop ends after a point that has escaped above stop_altitude or
      fallen below the surface. */
  predicate Ends(stopAltitude: real, s: TrajPoint)
  {
    s.r > EarthRadius + stopAltitude || s.r < EarthRadius
  }

  function EndTest(stopAltitude: real): TrajPoint -> bool
  {
    s => Ends(stopAltitude, s)
  }

  /** Loop iterations: i runs from 2 while i < maxStep - 2. */
  const MaxLoopSteps: nat := MaxStep - 4

  /** The points recorded by the first m integrator calls from s0. */
  function Records(integrate: TrajPoint -> TrajPoint, scale: TrajPoint -> real,
                   s0: TrajPoint, m: nat): (ps: seq<TrajPoint>)
    ensures |ps| == m
  {
    if m == 0 then [] else Records(integrate, scale, s0, m - 1) + [WithMomenta(scale, Iterate(integrate, s0, m))]
  }

  /** Every point func records, in order: the launch site at t = 0 with zero
      momenta, the displaced point at t = stepSize, then one point per
      integrator call until the end test or the iteration budget stops it. */
  function Points(latitude: real, longitude: real, startAltitude: real, stopAltitude: real,
                  zenith: real, azimuth: real, speed: real,
                  integrate: TrajPoint -> TrajPoint, scale: TrajPoint -> real): (pts: seq<TrajPoint>)
    ensures 2 <= |pts| <= MaxStep - 2
  {
    var o := Origin(latitude, longitude, startAltitude);
    var s0 := InitialValues(latitude, longitude, startAltitude, zenith, azimuth, speed);
    var n := ExitIndex(integrate, s0, EndTest(stopAltitude), MaxLoopSteps);
    [TrajPoint(0.0, o.r, o.theta, o.phi, 0.0, 0.0, 0.0), WithMomenta(scale, s0)]
      + Records(integrate, scale, s0, n)
  }

  /** A preallocated column after the first |pts| entries have been written. */
  function Filled(pts: seq<TrajPoint>, c: Component): (col: seq<real>)
    requires |pts| <= MaxStep
    ensures |col| == MaxStep
  {
    Column(pts, c) + Zeros(MaxStep - |pts|)
  }

  /** The results dictionary of func: seven arrays of maxStep entries, one
      per key, each holding Filled(pts, c) for the points pts written so far. */
  class Results {
    const t: array<real>
    const r: array<real>
    const theta: array<real>
    const phi: array<real>
    const pr: array<real>
    const ptheta: array<real>
    const pphi: array<real>

    /** The seven columns are separate arrays holding the points pts. */
    ghost predicate Holds(pts: seq<TrajPoint>)
      reads this, t, r, theta, phi, pr, ptheta, pphi
    {
      && t != r && t != theta && t != phi && t != pr && t != ptheta && t != pphi
      && r != theta && r != phi && r != pr && r != ptheta && r != pphi && theta != phi
      && theta != pr && theta != ptheta && theta != pphi && phi != pr && phi != ptheta
      && phi != pphi && pr != ptheta && pr != pphi && ptheta != pphi
      && |pts| <= MaxStep
      && t[..] == Filled(pts, T) && r[..] == Filled(pts, R)
      && theta[..] == Filled(pts, Theta) && phi[..] == Filled(pts, Phi)
      && pr[..] == Filled(pts, Pr) && ptheta[..] == Filled(pts, Ptheta)
      && pphi[..] == Filled(pts, Pphi)
    }

    /** {key: np.zeros(maxStep) for key in key_list} */
    constructor ()
      ensures Holds([])
      ensures fresh(t) && fresh(r) && fresh(theta) && fresh(phi)
      ensures fresh(pr) && fresh(ptheta) && fresh(pphi)
    {
      t := new real[MaxStep](_ => 0.0);
      r := new real[MaxStep](_ => 0.0);
      theta := new real[MaxStep](_ => 0.0);
      phi := new real[MaxStep](_ => 0.0);
      pr := new real[MaxStep](_ => 0.0);
      ptheta := new real[MaxStep](_ => 0.0);
      pphi := new real[MaxStep](_ => 0.0);
      new;
      assert t[..] == Zeros(MaxStep) && r[..] == Zeros(MaxStep);
      assert theta[..] == Zeros(MaxStep) && phi[..] == Zeros(MaxStep);
      assert pr[..] == Zeros(MaxStep) && ptheta[..] == Zeros(MaxStep);
      assert pphi[..] == Zeros(MaxStep);
    }

    /** results[key][i] = p's value for key, for every key. */
    method Put(i: nat, p: TrajPoint, ghost pts: seq<TrajPoint>)
      requires Holds(pts) && i == |pts| < MaxStep
      modifies t, r, theta, phi, pr, ptheta, pphi
      ensures Holds(pts + [p])
    {
      FilledStep(pts, p);
      hide Filled;
      t[i] := p.t;
      r[i] := p.r;
      theta[i] := p.theta;
      phi[i] := p.phi;
      pr[i] := p.pr;
      ptheta[i] := p.ptheta;
      pphi[i] := p.pphi;
      assert t[..] == Filled(pts + [p], T) && r[..] == Filled(pts + [p], R);
      assert theta[..] == Filled(pts + [p], Theta) && phi[..] == Filled(pts + [p], Phi);
      assert pr[..] == Filled(pts + [p], Pr) && ptheta[..] == Filled(pts + [p], Ptheta);
      assert pphi[..] == Filled(pts + [p], Pphi);
    }

    /** The dictionary after trimming every array's trailing zeros. */
    method Trimmed(ghost pts: seq<TrajPoint>) returns (results: map<string, seq<real>>)
      requires Holds(pts)
      ensures results.Keys == ColumnKeys
      ensures forall c :: results[KeyOf(c)] == TrimTrailingZeros(Filled(pts, c))
    {
      hide TrimTrailingZeros, Filled;
      results := map["t" := TrimTrailingZeros(t[..]), "r" := TrimTrailingZeros(r[..]),
                     "theta" := TrimTrailingZeros(theta[..]), "phi" := TrimTrailingZeros(phi[..]),
                     "pr" := TrimTrailingZeros(pr[..]), "ptheta" := TrimTrailingZeros(ptheta[..]),
                     "pphi" := TrimTrailingZeros(pphi[..])];
      forall c ensures results[KeyOf(c)] == TrimTrailingZeros(Filled(pts, c)) {
        match c
        case T => case R => case Theta => case Phi => case Pr => case Ptheta => case Pphi =>
      }
    }
  }

  /** The stepping loop of func: from index 2, call the integrator, record
      the new point at the current index and stop right after a point that
      has left the shell between the surface and stop_altitude; at most
      maxStep - 4 calls. */
  method Integrate(columns: Results, initialValues: TrajPoint, stopAltitude: real,
                   integrate: TrajPoint -> TrajPoint, scale: TrajPoint -> real,
                   ghost head: seq<TrajPoint>)
    requires |head| == 2 && columns.Holds(head)
    modifies columns.t, columns.r, columns.theta, columns.phi, columns.pr, columns.ptheta, columns.pphi
    ensures columns.Holds(head + Records(integrate, scale, initialValues,
                                         ExitIndex(integrate, initialValues, EndTest(stopAltitude), MaxLoopSteps)))
  {
    ghost var n := ExitIndex(integrate, initialValues, EndTest(stopAltitude), MaxLoopSteps);
    assert Iterate(integrate, initialValues, 0) == initialValues;
    RecordsStep(integrate, scale, initialValues, 0);
    assert head + Records(integrate, scale, initialValues, 0) == head;
    hide Results.Holds, Records, ExitIndex, Iterate, EndTest;
    var current := initialValues;
    var i := 2;
    ghost var k := 0;
    while i < MaxStep - 2
      invariant i == k + 2 && k <= n
      invariant i < MaxStep - 2 ==> k < n
      invariant current == Iterate(integrate, initialValues, k)
      invariant columns.Holds(head + Records(integrate, scale, initialValues, k))
    {
      current := CallAndRecord(columns, i, current, initialValues, stopAltitude, integrate, scale, head, k);
      k := k + 1;
      // escaped above stop_altitude, or back below the surface
      if current.r > EarthRadius + stopAltitude || current.r < EarthRadius {
        break;
      }
      i := i + 1;
    }
  }

  /** The body of func's loop before its break tests: the k-th integrator
      call on the current state, its point written at index i = k + 2. */
  method CallAndRecord(columns: Results, i: nat, current: TrajPoint, initialValues: TrajPoint,
                       stopAltitude: real, integrate: TrajPoint -> TrajPoint, scale: TrajPoint -> real,
                       ghost head: seq<TrajPoint>, ghost k: nat)
    returns (next: TrajPoint)
    requires |head| == 2 && i == k + 2 < MaxStep - 2
    requires k < ExitIndex(integrate, initialValues, EndTest(stopAltitude), MaxLoopSteps)
    requires current == Iterate(integrate, initialValues, k)
    requires columns.Holds(head + Records(integrate, scale, initialValues, k))
    modifies columns.t, columns.r, columns.theta, columns.phi, columns.pr, columns.ptheta, columns.pphi
    ensures next == integrate(current) == Iterate(integrate, initialValues, k + 1)
    ensures columns.Holds(head + Records(integrate, scale, initialValues, k + 1))
    ensures Ends(stopAltitude, next)
            ==> ExitIndex(integrate, initialValues, EndTest(stopAltitude), MaxLoopSteps) == k + 1
    ensures !Ends(stopAltitude, next) && k + 1 < MaxLoopSteps
            ==> k + 1 < ExitIndex(integrate, initialValues, EndTest(stopAltitude), MaxLoopSteps)
  {
    NextCall(integrate, initialValues, stopAltitude, k, current);
    RecordsAppend(head, integrate, scale, initialValues, k);
    hide Results.Holds, Filled, Records, WithMomenta, ExitIndex, Iterate, EndTest;
    next := integrate(current);
    columns.Put(i, WithMomenta(scale, next), head + Records(integrate, scale, initialValues, k));
  }

  /** Advance, for the end test of func's loop. */
  lemma NextCall(integrate: TrajPoint -> TrajPoint, s0: TrajPoint, stopAltitude: real, j: nat, s: TrajPoint)
    requires j < ExitIndex(integrate, s0, EndTest(stopAltitude), MaxLoopSteps)
    requires s == Iterate(integrate, s0, j)
    ensures integrate(s) == Iterate(integrate, s0, j + 1)
    ensures Ends(stopAltitude, integrate(s)) ==> ExitIndex(integrate, s0, EndTest(stopAltitude), MaxLoopSteps) == j + 1
    ensures !Ends(stopAltitude, integrate(s)) && j + 1 < MaxLoopSteps
         ==> j + 1 < ExitIndex(integrate, s0, EndTest(stopAltitude), MaxLoopSteps)
  {
    Advance(integrate, s0, EndTest(stopAltitude), MaxLoopSteps, j, s);
  }

  /** func: build the launch state, run the integration loop writing into
      seven preallocated columns of maxStep zeros, and return the columns with
      their trailing zeros trimmed. The integrator (runge_kutta of
      gtracr.runge_kutta) and the factor gamma(|v|) * mass that turns the
      integrator's velocities into momenta are parameters; so is the speed the
      particle has after set_velocity. */
  method Func(latitude: real, longitude: real, startAltitude: real, stopAltitude: real,
              zenith: real, azimuth: real, speed: real,
              integrate: TrajPoint -> TrajPoint, scale: TrajPoint -> real)
    returns (results: map<string, seq<real>>)
    ensures results.Keys == ColumnKeys
    ensures forall c :: results[KeyOf(c)] == TrimTrailingZeros(Filled(
      Points(latitude, longitude, startAltitude, stopAltitude, zenith, azimuth, speed, integrate, scale), c))
  {
    var o := Origin(latitude, longitude, startAltitude);
    var site := TrajPoint(0.0, o.r, o.theta, o.phi, 0.0, 0.0, 0.0);
    var initialValues := InitialValues(latitude, longitude, startAltitude, zenith, azimuth, speed);
    var first := WithMomenta(scale, initialValues);
    var columns := new Results();
    PointsAre(latitude, longitude, startAltitude, stopAltitude, zenith, azimuth, speed, integrate, scale);
    hide Results.Holds, Filled, Points, Records, InitialValues, WithMomenta, TrimTrailingZeros, ExitIndex, Origin;

    // results[key][0:2] = [t0, t], [r0, r], ...
    columns.Put(0, site, []);
    assert [] + [site] == [site];
    columns.Put(1, first, [site]);
    assert [site] + [first] == [site, first];
    Integrate(columns, initialValues, stopAltitude, integrate, scale, [site, first]);

    // trim all zeros
    results := columns.Trimmed(Points(latitude, longitude, startAltitude, stopAltitude, zenith, azimuth,
                                      speed, integrate, scale));
  }

  /** One more integrator call appends one more record after the head. */
  lemma RecordsAppend(head: seq<TrajPoint>, integrate: TrajPoint -> TrajPoint,
                      scale: TrajPoint -> real, s0: TrajPoint, m: nat)
    ensures head + Records(integrate, scale, s0, m + 1)
         == (head + Records(integrate, scale, s0, m)) + [WithMomenta(scale, Iterate(integrate, s0, m + 1))]
  {
    assert Records(integrate, scale, s0, m + 1)
        == Records(integrate, scale, s0, m) + [WithMomenta(scale, Iterate(integrate, s0, m + 1))];
  }

  lemma RecordsStep(integrate: TrajPoint -> TrajPoint, scale: TrajPoint -> real, s0: TrajPoint, m: nat)
    ensures Records(integrate, scale, s0, 0) == []
    ensures Records(integrate, scale, s0, m + 1)
         == Records(integrate, scale, s0, m) + [WithMomenta(scale, Iterate(integrate, s0, m + 1))]
  {
  }

  lemma PointsAre(latitude: real, longitude: real, startAltitude: real, stopAltitude: real,
                  zenith: real, azimuth: real, speed: real,
                  integrate: TrajPoint -> TrajPoint, scale: TrajPoint -> real)
    ensures var o := Origin(latitude, longitude, startAltitude);
      var s0 := InitialValues(latitude, longitude, startAltitude, zenith, azimuth, speed);
      Points(latitude, longitude, startAltitude, stopAltitude, zenith, azimuth, speed, integrate, scale)
        == [TrajPoint(0.0, o.r, o.theta, o.phi, 0.0, 0.0, 0.0), WithMomenta(scale, s0)]
           + Records(integrate, scale, s0, ExitIndex(integrate, s0, EndTest(stopAltitude), MaxLoopSteps))
  {
  }

  /** Writing p's values at index |pts| of the filled columns gives the
      columns filled with one more point. */
  lemma FilledStep(pts: seq<TrajPoint>, p: TrajPoint)
    requires |pts| < MaxStep
    ensures forall c :: Filled(pts, c)[|pts| := Get(c, p)] == Filled(pts + [p], c)
  {
    ColumnsAppend(pts, p);
    forall c ensures Filled(pts, c)[|pts| := Get(c, p)] == Filled(pts + [p], c) {
      assert Zeros(MaxStep - |pts|)[1..] == Zeros(MaxStep - |pts| - 1);
    }
  }

  /** The first two entries of every column: the launch site at t = 0 with
      zero momenta, then the displaced point at t = stepSize. */
  lemma FirstEntries(latitude: real, longitude: real, startAltitude: real, stopAltitude: real,
                     zenith: real, azimuth: real, speed: real,
                     integrate: TrajPoint -> TrajPoint, scale: TrajPoint -> real)
    ensures var pts := Points(latitude, longitude, startAltitude, stopAltitude, zenith, azimuth,
                              speed, integrate, scale);
      && pts[0].t == 0.0 && pts[0].r == EarthRadius + startAltitude
      && pts[0].theta == Pi / 2.0 - latitude * DegToRad && pts[0].phi == longitude * DegToRad
      && pts[0].pr == 0.0 && pts[0].ptheta == 0.0 && pts[0].pphi == 0.0
      && pts[1].t == StepSize
      && pts[1].r == ToSpherical(Displaced(latitude, longitude, startAltitude, StepSize, zenith, azimuth)).r
  {
  }

  /** The loop calls the integrator at least once and at most maxStep - 4
      times, so between 3 and maxStep - 2 entries are written. */
  lemma LoopLength(latitude: real, longitude: real, startAltitude: real, stopAltitude: real,
                   zenith: real, azimuth: real, speed: real,
                   integrate: TrajPoint -> TrajPoint, scale: TrajPoint -> real)
    ensures 3 <= |Points(latitude, longitude, startAltitude, stopAltitude, zenith, azimuth,
                         speed, integrate, scale)| <= MaxStep - 2
  {
  }

  /** Every integrated point but the last lies between the surface and the
      escape altitude; if the loop ended before its budget ran out, the last
      point is outside that shell. */
  lemma StopsOnlyOutsideShell(latitude: real, longitude: real, startAltitude: real, stopAltitude: real,
                              zenith: real, azimuth: real, speed: real,
                              integrate: TrajPoint -> TrajPoint, scale: TrajPoint -> real)
    ensures var pts := Points(latitude, longitude, startAltitude, stopAltitude, zenith, azimuth,
                              speed, integrate, scale);
      && (forall k :: 2 <= k < |pts| - 1 ==> EarthRadius <= pts[k].r <= EarthRadius + stopAltitude)
      && (|pts| < MaxStep - 2 ==> Ends(stopAltitude, pts[|pts| - 1]))
  {
    var s0 := InitialValues(latitude, longitude, startAltitude, zenith, azimuth, speed);
    var n := ExitIndex(integrate, s0, EndTest(stopAltitude), MaxLoopSteps);
    var pts := Points(latitude, longitude, startAltitude, stopAltitude, zenith, azimuth,
                      speed, integrate, scale);
    forall k | 2 <= k < |pts| - 1
      ensures EarthRadius <= pts[k].r <= EarthRadius + stopAltitude
    {
      RecordsAt(integrate, scale, s0, n, k - 2);
      assert !StopsAfter(integrate, s0, EndTest(stopAltitude), k - 1);
    }
    if |pts| < MaxStep - 2 {
      RecordsAt(integrate, scale, s0, n, n - 1);
      assert StopsAfter(integrate, s0, EndTest(stopAltitude), n);
    }
  }

  /** Trimming a column whose last written value is non-zero gives back
      exactly the written values: only the unwritten zeros go. */
  lemma TrimFilled(pts: seq<TrajPoint>, c: Component)
    requires 0 < |pts| <= MaxStep && Get(c, pts[|pts| - 1]) != 0.0
    ensures TrimTrailingZeros(Filled(pts, c)) == Column(pts, c)
  {
    var a := Filled(pts, c);
    var b := TrimTrailingZeros(a);
    assert a[|pts| - 1] != 0.0;
    assert |b| == |pts|;
    assert a[..|pts|] == Column(pts, c);
  }

  /** The k-th record is the state after k + 1 integrator calls. */
  lemma {:induction false} RecordsAt(integrate: TrajPoint -> TrajPoint, scale: TrajPoint -> real,
                                     s0: TrajPoint, m: nat, k: nat)
    requires k < m
    ensures Records(integrate, scale, s0, m)[k] == WithMomenta(scale, Iterate(integrate, s0, k + 1))
    decreases m
  {
    if k < m - 1 {
      RecordsAt(integrate, scale, s0, m - 1, k);
    }
  }
}
