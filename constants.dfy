/** Physical constants. The C++ engine takes them from constants.h and the
    Python scripts from gtracr/constants.py; neither file is part of this
    model, so every constant is an arbitrary positive real. */
module Constants {
  import opened RealMath

  /** constants::RE, the Earth radius used by the C++ tracer and field. */
  const RE: PosReal
  /** constants::ELEMENTARY_CHARGE */
  const ElementaryCharge: PosReal
  /** constants::KG_PER_GEVC2 */
  const KgPerGeVc2: PosReal
  /** constants::SPEED_OF_LIGHT, used by the tracer's Lorentz factor. */
  const SpeedOfLight: PosReal
  /** constants::sc, the speed of light used by Particle. */
  const Sc: PosReal

  /** EARTH_RADIUS of gtracr/constants.py */
  const EarthRadius: PosReal
  /** SPEED_OF_LIGHT of gtracr/constants.py */
  const PySpeedOfLight: PosReal
  /** DEG_TO_RAD of gtracr/constants.py: pi / 180. */
  const DegToRad: real := Pi / 180.0
}
