/**
 * The matrix builders the scene and the camera use (source/MatrixMath.ts).
 * `Math.sin` and `Math.cos` are outside the model: every rotation takes them
 * as a `Trig` value, and products go through the abstract `MatrixLibrary`. Arguments of `mat4.set` are in column-major order, so
 * each builder lists its 16 numbers exactly as the source writes them.
 */
module MatrixMath {
  import opened LinearAlgebra

  /** `Math.PI`, the double nearest to π, written out in decimal. */
  const Pi: real := 3.141592653589793

  /** The sine and cosine the host provides. */
  datatype Trig = Trig(sin: real -> real, cos: real -> real)

  /** The trigonometric identities the builders below need at angle zero. */
  predicate ExactAtZero(t: Trig) {
    t.sin(0.0) == 0.0 && t.cos(0.0) == 1.0
  }

  /** `glMatrix.toRadian`: degrees times π/180. */
  function ToRadian(degrees: real): real { degrees * (Pi / 180.0) }

  function RollRotate(t: Trig, roll: real): Mat4 {
    Mat4(t.cos(roll), -t.sin(roll), 0.0, 0.0,
         t.sin(roll), t.cos(roll), 0.0, 0.0,
         0.0, 0.0, 1.0, 0.0,
         0.0, 0.0, 0.0, 1.0)
  }

  function PitchRotate(t: Trig, pitch: real): Mat4 {
    Mat4(1.0, 0.0, 0.0, 0.0,
         0.0, t.cos(pitch), -t.sin(pitch), 0.0,
         0.0, t.sin(pitch), t.cos(pitch), 0.0,
         0.0, 0.0, 0.0, 1.0)
  }

  function YawRotate(t: Trig, yaw: real): Mat4 {
    Mat4(t.cos(yaw), 0.0, t.sin(yaw), 0.0,
         0.0, 1.0, 0.0, 0.0,
         -t.sin(yaw), 0.0, t.cos(yaw), 0.0,
         0.0, 0.0, 0.0, 1.0)
  }

  /** `translate` / `translation`: the offset sits at indices 3, 7 and 11. */
  function Translation(p: Vec3): Mat4 {
    Mat4(1.0, 0.0, 0.0, p.x,
         0.0, 1.0, 0.0, p.y,
         0.0, 0.0, 1.0, p.z,
         0.0, 0.0, 0.0, 1.0)
  }

  /** `rotation(yaw, pitch, roll)`: roll · pitch · yaw. */
  function Rotation(lib: MatrixLibrary, t: Trig, yaw: real, pitch: real, roll: real): Mat4 {
    lib.multiply(lib.multiply(RollRotate(t, roll), PitchRotate(t, pitch)), YawRotate(t, yaw))
  }

  function Scaling(x: real, y: real, z: real): Mat4 {
    Mat4(x, 0.0, 0.0, 0.0,
         0.0, y, 0.0, 0.0,
         0.0, 0.0, z, 0.0,
         0.0, 0.0, 0.0, 1.0)
  }
}
