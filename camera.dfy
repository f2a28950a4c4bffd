// The orbit camera of Multi::Update: spherical coordinates around the origin,
// changed by mouse drags and clamped.

module Camera {
  import opened Transforms

  /** theta (azimuth), phi (polar angle) and radius, as the fields of class Multi hold them. */
  datatype Orbit = Orbit(theta: real, phi: real, radius: real)

  const PhiMin: real := 0.1
  const PhiMax: real := Pi - 0.1
  const RadiusMin: real := 3.0
  const RadiusMax: real := 15.0

  /** The camera that Multi::Init sets up: XM_PIDIV4, 1.3, 5. */
  const Start: Orbit := Orbit(Pi / 4.0, 1.3, 5.0)

  /** Radians of arc per pixel of a left-button drag: a quarter of a degree. */
  function OrbitAngle(pixels: real): real
  {
    Radians(0.25 * pixels)
  }

  /** Units of radius per pixel of a right-button drag. */
  const DollyRate: real := 0.05

  predicate InRange(c: Orbit)
  {
    PhiMin <= c.phi <= PhiMax && RadiusMin <= c.radius <= RadiusMax
  }

  /** `x < lo ? lo : (x > hi ? hi : x)`, the clamp written out twice in Update. */
  function Clamp(x: real, lo: real, hi: real): (r: real)
    requires lo <= hi
    ensures lo <= r <= hi
    ensures lo <= x <= hi ==> r == x
  {
    if x < lo then lo else if x > hi then hi else x
  }

  /** The clamp returns the point of [lo, hi] nearest to x. */
  lemma ClampNearest(x: real, lo: real, hi: real, y: real)
    requires lo <= hi && lo <= y <= hi
    ensures Dist(Clamp(x, lo, hi), x) <= Dist(y, x)
  {
  }

  function Dist(a: real, b: real): real
  {
    if a < b then b - a else a - b
  }

  /**
   * One frame of the camera controller. dx and dy are the mouse movement in
   * pixels since the previous frame. The left button orbits; only when it is
   * not held does the right button dolly.
   */
  function Drag(c: Orbit, dx: real, dy: real, left: bool, right: bool): (r: Orbit)
    ensures InRange(c) ==> InRange(r)
    ensures left ==> (r.theta == c.theta + OrbitAngle(dx) && r.radius == c.radius &&
                      PhiMin <= r.phi <= PhiMax)
    ensures left && PhiMin <= c.phi + OrbitAngle(dy) <= PhiMax ==> r.phi == c.phi + OrbitAngle(dy)
    ensures left && c.phi + OrbitAngle(dy) < PhiMin ==> r.phi == PhiMin
    ensures left && c.phi + OrbitAngle(dy) > PhiMax ==> r.phi == PhiMax
    ensures !left && right ==> (r.theta == c.theta && r.phi == c.phi &&
                                RadiusMin <= r.radius <= RadiusMax)
    ensures !left && right && RadiusMin <= c.radius + DollyRate * (dx - dy) <= RadiusMax
            ==> r.radius == c.radius + DollyRate * (dx - dy)
    ensures !left && right && c.radius + DollyRate * (dx - dy) < RadiusMin ==> r.radius == RadiusMin
    ensures !left && right && c.radius + DollyRate * (dx - dy) > RadiusMax ==> r.radius == RadiusMax
    ensures !left && !right ==> r == c
  {
    if left then
      var theta := c.theta + OrbitAngle(dx);
      var phi := c.phi + OrbitAngle(dy);
      Orbit(theta, Clamp(phi, PhiMin, PhiMax), c.radius)
    else if right then
      var radius := c.radius + (DollyRate * dx - DollyRate * dy);
      Orbit(c.theta, c.phi, Clamp(radius, RadiusMin, RadiusMax))
    else
      c
  }

  /** Init's camera is within the clamps. */
  lemma StartInRange()
    ensures InRange(Start)
  {
  }

  /** From theta = pi/4, phi = 1.3, radius = 5, a 40-pixel horizontal orbit turns theta by 10 degrees and keeps phi. */
  lemma HorizontalOrbit()
    ensures Drag(Start, 40.0, 0.0, true, false) == Orbit(Start.theta + Radians(10.0), 1.3, 5.0)
  {
  }
}
