/**
 * Range constraints that the record classes place on their numeric fields. A value outside
 * the range cannot be built at all (the constructor raises a validation error), so each
 * constraint is a subset type. Python floats are modelled as reals.
 */
module Bounds {
  import opened Wrappers

  /** Degrees north, in [-90, 90]. */
  type Latitude = r: real | -90.0 <= r <= 90.0

  /** Degrees east, in [-180, 180]. */
  type Longitude = r: real | -180.0 <= r <= 180.0

  /** A confidence score, in [0, 1]. */
  type Confidence = r: real | 0.0 <= r <= 1.0 witness 0.5

  /** The confidence every entity gets when none is given. */
  const DefaultConfidence: Confidence := 0.5

  predicate IsLatitude(r: real) {
    -90.0 <= r <= 90.0
  }

  predicate IsLongitude(r: real) {
    -180.0 <= r <= 180.0
  }

  /** A confidence field given `r`: accepted exactly when `r` lies in [0, 1]. */
  function CheckConfidence(r: real): (c: Option<Confidence>)
    ensures c.Some? <==> 0.0 <= r <= 1.0
    ensures c.Some? ==> c.value == r
  {
    if 0.0 <= r <= 1.0 then Some(r) else None
  }
}
