/**
 * The celestial bodies the viewer animates (src/solar_viewer.cpp): each has
 * fixed angular rates, a radius and an orbital distance, two angles the
 * timer advances, and a world position `update_body_positions` recomputes.
 * Rotation matrices are floating-point trigonometry the model does not
 * compute: they are function values supplied by the caller (`Geometry`).
 */
module Bodies {
  import opened Vectors

  /** `M_PI`. */
  const Pi: real := 3.14159265358979323846

  /** The six bodies keys 1 to 6 select, in that order. */
  datatype BodyName = Sun | Mercury | Venus | Earth | Moon | Mars

  /** `BodyAt(i)` is the body key `1 + i` selects. */
  function BodyAt(i: int): (b: BodyName)
    requires 0 <= i < 6
    ensures b == [Sun, Mercury, Venus, Earth, Moon, Mars][i]
  {
    if i == 0 then Sun
    else if i == 1 then Mercury
    else if i == 2 then Venus
    else if i == 3 then Earth
    else if i == 4 then Moon
    else Mars
  }

  /** A planet: rates in radians per day, radius, distance from what it orbits,
      its two current angles (radians) and its world position. */
  datatype Planet = Planet(
    orbitRate: real, selfRate: real, radius: real, distance: real,
    angleOrbit: real, angleSelf: real, pos: Vec4)

  /** The angles and position a planet has before the first timer step. */
  datatype Pose = Pose(angleOrbit: real, angleSelf: real, pos: Vec4)

  /**
   * What the model does not compute itself: `rotX(a, v)` and `rotY(a, v)` are
   * `mat4::rotate_x(a) * v` and `mat4::rotate_y(a) * v` for an angle `a` in
   * degrees; `yaw(d)` and `pitch(d)` are the billboard angles, in degrees, for
   * the direction `d` from the sun to the eye.
   */
  datatype Geometry = Geometry(
    rotX: (real, Vec4) -> Vec4, rotY: (real, Vec4) -> Vec4,
    yaw: Vec4 -> real, pitch: Vec4 -> real)

  function MakePlanet(orbitRate: real, selfRate: real, radius: real, distance: real, p: Pose): Planet {
    Planet(orbitRate, selfRate, radius, distance, p.angleOrbit, p.angleSelf, p.pos)
  }

  /** The planets as the viewer's constructor creates them. */
  function InitialPlanet(b: BodyName, p: Pose): (r: Planet)
    ensures r.angleOrbit == p.angleOrbit && r.angleSelf == p.angleSelf && r.pos == p.pos
    ensures b == Sun ==> r.orbitRate == 0.0 && r.radius == 1.0 && r.distance == 0.0
    ensures b == Earth ==> r.radius == 0.25 && r.distance == -3.3
  {
    match b
    case Sun => MakePlanet(0.0, 2.0 * Pi / 26.0, 1.0, 0.0, p)
    case Mercury => MakePlanet(2.0 * Pi / 116.0, 2.0 * Pi / 58.5, 0.075, -1.4, p)
    case Venus => MakePlanet(2.0 * Pi / 225.0, 2.0 * Pi / 243.0, 0.2, -2.2, p)
    case Earth => MakePlanet(2.0 * Pi / 365.0, 2.0 * Pi, 0.25, -3.3, p)
    case Moon => MakePlanet(2.0 * Pi / 27.0, 0.0, 0.04, -0.4, p)
    case Mars => MakePlanet(2.0 * Pi / 687.0, 2.0 * Pi * 24.0 / 25.0, 0.15, -5.0, p)
  }

  /** The star sphere: radius 21, neither orbiting nor spinning. */
  function InitialStars(p: Pose): Planet {
    MakePlanet(0.0, 0.0, 21.0, 0.0, p)
  }

  /** `Planet::time_step(dt)`: both angles advance by their rate times `dt`. */
  function TimeStep(p: Planet, dt: real): (r: Planet)
    ensures r.orbitRate == p.orbitRate && r.selfRate == p.selfRate
    ensures r.radius == p.radius && r.distance == p.distance && r.pos == p.pos
  {
    p.(angleOrbit := p.angleOrbit + p.orbitRate * dt, angleSelf := p.angleSelf + p.selfRate * dt)
  }

  /** Two steps advance the angles as far as one step of the summed length. */
  lemma StepsAdd(p: Planet, dt1: real, dt2: real)
    ensures TimeStep(TimeStep(p, dt1), dt2) == TimeStep(p, dt1 + dt2)
  {
    Distributes(p.orbitRate, dt1, dt2);
    Distributes(p.selfRate, dt1, dt2);
    var q := TimeStep(p, dt1);
    assert q.angleOrbit == p.angleOrbit + p.orbitRate * dt1;
    assert TimeStep(q, dt2).angleOrbit == p.angleOrbit + p.orbitRate * dt1 + p.orbitRate * dt2;
    assert TimeStep(p, dt1 + dt2).angleOrbit == p.angleOrbit + p.orbitRate * (dt1 + dt2);
    assert q.angleSelf == p.angleSelf + p.selfRate * dt1;
    assert TimeStep(q, dt2).angleSelf == p.angleSelf + p.selfRate * dt1 + p.selfRate * dt2;
    assert TimeStep(p, dt1 + dt2).angleSelf == p.angleSelf + p.selfRate * (dt1 + dt2);
  }

  lemma Distributes(a: real, x: real, y: real)
    ensures a * x + a * y == a * (x + y)
  {
  }

  /** The `place_orbiting` lambda: the point at `distance` on the x axis,
      rotated clockwise about the y axis by the orbit angle (converted to
      degrees, sign negated), then translated by `center`. */
  function PlaceOrbiting(geo: Geometry, body: Planet, center: Vec4): Vec4 {
    var degrees := body.angleOrbit * 180.0 / Pi;
    var rotated := geo.rotY(-degrees, Vec4(body.distance, 0.0, 0.0, 1.0));
    Translate(Vec4(center.x, center.y, center.z, 0.0), rotated)
  }

  /** The squared length of the x, y, z part. */
  function Norm2(v: Vec4): real {
    v.x * v.x + v.y * v.y + v.z * v.z
  }

  /** What a rotation about the y axis keeps: w, y and the length of (x, y, z). */
  ghost predicate AboutVertical(rot: (real, Vec4) -> Vec4) {
    forall a: real, v: Vec4 {:trigger rot(a, v)} ::
      rot(a, v).w == v.w && rot(a, v).y == v.y && Norm2(rot(a, v)) == Norm2(v)
  }

  /** With a genuine rotation about y, `place_orbiting` puts the body on the
      horizontal circle of radius |distance| around `center`, whatever the angle. */
  lemma OrbitCircle(geo: Geometry, body: Planet, center: Vec4)
    requires AboutVertical(geo.rotY)
    ensures var p := PlaceOrbiting(geo, body, center);
      && p.w == 1.0 && p.y == center.y
      && Norm2(Sub(p, center)) == body.distance * body.distance
  {
    var degrees := body.angleOrbit * 180.0 / Pi;
    var local := Vec4(body.distance, 0.0, 0.0, 1.0);
    var rotated := geo.rotY(-degrees, local);
    assert rotated.w == 1.0 && rotated.y == 0.0 && Norm2(rotated) == Norm2(local);
    var p := PlaceOrbiting(geo, body, center);
    assert p == Vec4(rotated.x + center.x, center.y, rotated.z + center.z, 1.0);
    assert Sub(p, center).x == rotated.x && Sub(p, center).z == rotated.z;
  }
}
