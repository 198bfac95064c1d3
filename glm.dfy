/** The glm values the renderer passes around. Positions and colours are vectors of
    reals; the camera's matrices and the projections are named rather than computed,
    since their entries come from floating-point trigonometry and the Camera class,
    which are not part of this model. A rotation is given by its cosine and sine. */
module Glm {

  datatype Vec3 = Vec3(x: real, y: real, z: real)

  /** glm::vec3(v): the same value in every component. */
  function Splat(v: real): Vec3 {
    Vec3(v, v, v)
  }

  /** A 4x4 matrix, by how it was built. */
  datatype Mat4 =
    | TranslateScale(translation: Vec3, scale: Vec3)  // glm::translate(t) * glm::scale(s)
    | CameraView                                      // gCamera.GetViewMatrix()
    | OrthoProjection                                 // glm::ortho(-2.15, 2.15, -2.15, 2.15, 0.1, 100)
    | PerspectiveProjection                           // glm::perspective(zoom, 800 / 600, 0.1, 100)

  /** A rotation by some angle: its cosine and sine. */
  datatype Rotation = Rotation(cos: real, sin: real)

  predicate IsRotation(r: Rotation) {
    r.cos * r.cos + r.sin * r.sin == 1.0
  }

  /** glm::rotate(angle, (0, 1, 0)) applied to the point p. */
  function RotateY(r: Rotation, p: Vec3): Vec3 {
    Vec3(r.cos * p.x + r.sin * p.z, p.y, r.cos * p.z - r.sin * p.x)
  }

  /** The squared distance of p from the Y axis. */
  function AxisDistanceSquared(p: Vec3): (d: real)
    ensures d >= 0.0
  {
    p.x * p.x + p.z * p.z
  }

  /** Rotating about the Y axis keeps a point's height and its distance from the axis. */
  lemma RotateYKeepsOrbit(r: Rotation, p: Vec3)
    requires IsRotation(r)
    ensures RotateY(r, p).y == p.y
    ensures AxisDistanceSquared(RotateY(r, p)) == AxisDistanceSquared(p)
  {
    var c, s, x, z := r.cos, r.sin, p.x, p.z;
    calc {
      AxisDistanceSquared(RotateY(r, p));
      (c * x + s * z) * (c * x + s * z) + (c * z - s * x) * (c * z - s * x);
      (c * c + s * s) * (x * x) + (c * c + s * s) * (z * z);
      x * x + z * z;
    }
  }

  /** Rotation about the Y axis commutes with reflection through it. */
  lemma RotateYMirror(r: Rotation, p: Vec3)
    ensures RotateY(r, Vec3(-p.x, p.y, -p.z)) == Vec3(-RotateY(r, p).x, p.y, -RotateY(r, p).z)
  {
  }
}
