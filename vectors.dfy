/** Homogeneous 4-vectors over the reals (the source's `vec4`, float rounding left out). */
module Vectors {
  datatype Vec4 = Vec4(x: real, y: real, z: real, w: real)

  const Origin: Vec4 := Vec4(0.0, 0.0, 0.0, 1.0)

  function Add(a: Vec4, b: Vec4): Vec4 {
    Vec4(a.x + b.x, a.y + b.y, a.z + b.z, a.w + b.w)
  }

  function Sub(a: Vec4, b: Vec4): Vec4 {
    Vec4(a.x - b.x, a.y - b.y, a.z - b.z, a.w - b.w)
  }

  /** A product of two reals under a name, so that two products are
      recognised as equal from their arguments alone. */
  function Mul(a: real, b: real): real {
    a * b
  }

  function Scale(k: real, a: Vec4): Vec4 {
    Vec4(k * a.x, k * a.y, k * a.z, k * a.w)
  }

  /** `mat4::translate(t) * p`: adds `t` scaled by the point's w to x, y and z. */
  function Translate(t: Vec4, p: Vec4): (r: Vec4)
    ensures p.w == 1.0 ==> r == Vec4(p.x + t.x, p.y + t.y, p.z + t.z, 1.0)
  {
    Vec4(p.x + t.x * p.w, p.y + t.y * p.w, p.z + t.z * p.w, p.w)
  }

  /** Adding then subtracting the same vector gives back the other one. */
  lemma AddThenSub(c: Vec4, v: Vec4)
    ensures Sub(Add(c, v), c) == v && Sub(Add(v, c), c) == v
  {
  }
}
