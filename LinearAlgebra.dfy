/**
 * Exact real-valued counterparts of the gl-matrix `vec3`, `vec4` and `mat4`
 * values the renderer passes around. A `mat4` is 16 numbers in column-major
 * order: entry `e(c*4 + r)` is row `r` of column `c`, as in gl-matrix and
 * `mat4.fromValues`. Floating-point rounding is not modelled.
 */
module LinearAlgebra {

  datatype Vec3 = Vec3(x: real, y: real, z: real)

  datatype Vec4 = Vec4(x: real, y: real, z: real, w: real)

  datatype Mat4 = Mat4(
    e0: real, e1: real, e2: real, e3: real,
    e4: real, e5: real, e6: real, e7: real,
    e8: real, e9: real, e10: real, e11: real,
    e12: real, e13: real, e14: real, e15: real)
  {
    /** The entry a `Float32Array` would hold at index `k`. */
    function At(k: nat): real
      requires k < 16
    {
      match k
      case 0 => e0 case 1 => e1 case 2 => e2 case 3 => e3
      case 4 => e4 case 5 => e5 case 6 => e6 case 7 => e7
      case 8 => e8 case 9 => e9 case 10 => e10 case 11 => e11
      case 12 => e12 case 13 => e13 case 14 => e14 case _ => e15
    }
  }

  function ZeroVec3(): Vec3 { Vec3(0.0, 0.0, 0.0) }

  function Add(a: Vec3, b: Vec3): Vec3 { Vec3(a.x + b.x, a.y + b.y, a.z + b.z) }

  function Scale(a: Vec3, s: real): Vec3 { Vec3(a.x * s, a.y * s, a.z * s) }

  function SquaredLength(a: Vec3): real { a.x * a.x + a.y * a.y + a.z * a.z }

  /** `mat4.create()` and `mat4.identity`. */
  function Identity(): Mat4 {
    Mat4(1.0, 0.0, 0.0, 0.0,
         0.0, 1.0, 0.0, 0.0,
         0.0, 0.0, 1.0, 0.0,
         0.0, 0.0, 0.0, 1.0)
  }

  /** `mat4.transpose`. */
  function Transpose(a: Mat4): Mat4 {
    Mat4(a.e0, a.e4, a.e8, a.e12, a.e1, a.e5, a.e9, a.e13,
         a.e2, a.e6, a.e10, a.e14, a.e3, a.e7, a.e11, a.e15)
  }

  /**
   * The gl-matrix routines kept abstract: `mat4.mul(out, a, b)` and
   * `mat4.copy(out, a); mat4.invert(out, out)`. Their floating-point results
   * are outside the model; the program only ever composes them.
   */
  datatype MatrixLibrary = MatrixLibrary(multiply: (Mat4, Mat4) -> Mat4, invert: Mat4 -> Mat4)

  /** The quadric form pᵀ·M·p of a homogeneous point p. */
  function QuadricForm(m: Mat4, p: Vec4): real {
    p.x * m.e0 * p.x + p.x * m.e4 * p.y + p.x * m.e8 * p.z + p.x * m.e12 * p.w
    + p.y * m.e1 * p.x + p.y * m.e5 * p.y + p.y * m.e9 * p.z + p.y * m.e13 * p.w
    + p.z * m.e2 * p.x + p.z * m.e6 * p.y + p.z * m.e10 * p.z + p.z * m.e14 * p.w
    + p.w * m.e3 * p.x + p.w * m.e7 * p.y + p.w * m.e11 * p.z + p.w * m.e15 * p.w
  }

  lemma TransposeInvolution(a: Mat4)
    ensures Transpose(Transpose(a)) == a
  {}
}
