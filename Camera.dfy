/**
 * The fly-through camera (source/Camera.ts). Its primary state is the
 * position, the three Euler angles and the projection parameters; every
 * mutator ends in `update`, which recomputes the homogeneous position, the
 * rotation, view, projection and ray-direction matrices, and the basis
 * vectors read off the rotation. Matrix products and inverses go through the
 * abstract `MatrixLibrary`, sine and cosine through `Trig`, and the
 * perspective matrix (which needs `Math.tan`) is a host-supplied function.
 */
module Cameras {
  import opened LinearAlgebra
  import opened MatrixMath
  import opened Uniforms

  /** `worldUp`, the axis `moveAlong` lifts along. */
  function WorldUp(): Vec3 { Vec3(0.0, 1.0, 0.0) }

  /** `MatrixMath.perspectiveProjection` as a function of (fovy, aspect, near, far). */
  type Perspective = (real, real, real, real) -> Mat4

  /** The pitch `rotateTo` stores: kept strictly inside (-π/2, π/2). */
  function ClampPitch(pitch: real): (r: real)
    ensures -Pi * 0.5 < r < Pi * 0.5
    ensures -Pi * 0.5 < pitch < Pi * 0.5 ==> r == pitch
    ensures pitch >= Pi * 0.5 ==> r == Pi * 0.5 - 0.01
    ensures pitch <= -1.0 * Pi * 0.5 ==> r == -1.0 * Pi * 0.5 + 0.01
  {
    var p := if pitch >= Pi * 0.5 then Pi * 0.5 - 0.01 else pitch;
    if p <= -1.0 * Pi * 0.5 then -1.0 * Pi * 0.5 + 0.01 else p
  }

  /** Clamping a pitch that is already clamped changes nothing. */
  lemma ClampIdempotent(pitch: real)
    ensures ClampPitch(ClampPitch(pitch)) == ClampPitch(pitch)
  {}

  /** The displacement `moveAlong(delta)` makes: delta[0] along `right`,
      delta[1] along the world up axis and delta[2] along `forward`. */
  function Along(delta: Vec3, right: Vec3, forward: Vec3): Vec3 {
    Add(Add(Scale(right, delta.x), Scale(WorldUp(), delta.y)), Scale(forward, delta.z))
  }

  /** Two walks in the same basis add up to one walk by the sum of the deltas. */
  lemma AlongAdditive(d1: Vec3, d2: Vec3, right: Vec3, forward: Vec3)
    ensures Add(Along(d1, right, forward), Along(d2, right, forward)) == Along(Add(d1, d2), right, forward)
  {
    assert right.x * d1.x + right.x * d2.x == right.x * (d1.x + d2.x);
    assert right.y * d1.x + right.y * d2.x == right.y * (d1.x + d2.x);
    assert right.z * d1.x + right.z * d2.x == right.z * (d1.x + d2.x);
    assert forward.x * d1.z + forward.x * d2.z == forward.x * (d1.z + d2.z);
    assert forward.y * d1.z + forward.y * d2.z == forward.y * (d1.z + d2.z);
    assert forward.z * d1.z + forward.z * d2.z == forward.z * (d1.z + d2.z);
  }

  /** A zero delta does not move the camera. */
  lemma AlongZero(right: Vec3, forward: Vec3)
    ensures Along(ZeroVec3(), right, forward) == ZeroVec3()
  {}

  /** The vertical component of a walk is the up-delta alone when the basis is level. */
  lemma AlongLevel(delta: Vec3, right: Vec3, forward: Vec3)
    requires right.y == 0.0 && forward.y == 0.0
    ensures Along(delta, right, forward).y == delta.y
  {}

  /** Column 2 of the rotation, negated: the direction the camera looks in. */
  function ForwardOf(m: Mat4): Vec4 {
    Vec4(-1.0 * m.e2, -1.0 * m.e6, -1.0 * m.e10, -1.0 * m.e14)
  }

  /** Row 0 of the rotation (entries 0, 4, 8, 12). */
  function RightOf(m: Mat4): Vec4 {
    Vec4(1.0 * m.e0, 1.0 * m.e4, 1.0 * m.e8, 1.0 * m.e12)
  }

  /** Row 1 of the rotation (entries 1, 5, 9, 13). */
  function UpOf(m: Mat4): Vec4 {
    Vec4(1.0 * m.e1, 1.0 * m.e5, 1.0 * m.e9, 1.0 * m.e13)
  }

  function Xyz(v: Vec4): Vec3 { Vec3(v.x, v.y, v.z) }

  /** The basis vectors are fixed entries of the rotation matrix. */
  lemma BasisEntries(m: Mat4)
    ensures Xyz(ForwardOf(m)) == Vec3(-m.At(2), -m.At(6), -m.At(10))
    ensures Xyz(RightOf(m)) == Vec3(m.At(0), m.At(4), m.At(8))
    ensures Xyz(UpOf(m)) == Vec3(m.At(1), m.At(5), m.At(9))
  {}

  /** The yaw rotation alone looks down -z at yaw 0 and has a level right vector at every yaw. */
  lemma YawBasis(t: Trig, yaw: real)
    ensures Xyz(RightOf(YawRotate(t, yaw))) == Vec3(t.cos(yaw), 0.0, -t.sin(yaw))
    ensures Xyz(ForwardOf(YawRotate(t, yaw))) == Vec3(-t.sin(yaw), 0.0, -t.cos(yaw))
    ensures ExactAtZero(t) ==> Xyz(ForwardOf(YawRotate(t, 0.0))) == Vec3(0.0, 0.0, -1.0)
  {}

  /** `updateViewMatrix`: the inverse of rotation · translation. */
  function ViewOf(lib: MatrixLibrary, rotation: Mat4, position: Vec3): Mat4 {
    lib.invert(lib.multiply(rotation, Translation(position)))
  }

  /** The `perspectiveProjection` matrix for a field of view, aspect ratio and clip planes. */
  function ProjectionOf(perspective: Perspective, fov: real, aspect: real, near: real, far: real): Mat4 {
    perspective(fov, aspect, near, far)
  }

  /** The matrix the program turns screen positions into ray directions with:
      the inverse of translation · (view · projection). */
  function RayDirOf(lib: MatrixLibrary, view: Mat4, projection: Mat4, position: Vec3): Mat4 {
    lib.invert(lib.multiply(Translation(position), lib.multiply(view, projection)))
  }

  datatype CameraLocations = CameraLocations(position: Location, rayDirMatrix: Location)

  class Camera {
    const lib: MatrixLibrary
    const trig: Trig
    const perspective: Perspective

    var position: Vec3
    var positionXYZ1: Vec4
    var roll: real
    var pitch: real
    var yaw: real

    var forward: Vec3
    var right: Vec3
    var up: Vec3

    var fieldOfView: real
    var aspectRatio: real
    var near: real
    var far: real

    var mRotation: Mat4
    var mRayDir: Mat4

    /** Everything `update` derives agrees with the primary state. */
    ghost predicate Valid()
      reads this
    {
      && positionXYZ1 == Vec4(position.x, position.y, position.z, 1.0)
      && mRotation == Rotation(lib, trig, yaw, pitch, roll)
      && mRayDir == RayDirOf(lib, ViewOf(lib, mRotation, position),
                             ProjectionOf(perspective, fieldOfView, aspectRatio, near, far), position)
      && forward == Xyz(ForwardOf(mRotation))
      && right == Xyz(RightOf(mRotation))
      && up == Xyz(UpOf(mRotation))
    }

    /** The primary state: what the mutators set and `update` reads. */
    function Pose(): (Vec3, real, real, real)
      reads this
    {
      (position, roll, pitch, yaw)
    }

    function Projection(): (real, real, real, real)
      reads this
    {
      (fieldOfView, aspectRatio, near, far)
    }

    constructor (lib: MatrixLibrary, trig: Trig, perspective: Perspective)
      ensures this.lib == lib && this.trig == trig && this.perspective == perspective
      ensures Pose() == (ZeroVec3(), 0.0, 0.0, 0.0)
      ensures Projection() == (ToRadian(75.0), 1.0, 0.01, 100.0)
      ensures Valid()
    {
      this.lib, this.trig, this.perspective := lib, trig, perspective;
      position, positionXYZ1 := ZeroVec3(), Vec4(0.0, 0.0, 0.0, 1.0);
      roll, pitch, yaw := 0.0, 0.0, 0.0;
      forward, right, up := Vec3(0.0, 0.0, -1.0), Vec3(1.0, 0.0, 0.0), Vec3(0.0, 1.0, 0.0);
      fieldOfView, aspectRatio, near, far := ToRadian(75.0), 1.0, 0.01, 100.0;
      mRotation, mRayDir := Identity(), Identity();
      new;
      Update();
    }

    /** `update`: recomputes every derived field from the primary state. The
        rotation is `updateRotationMatrices`, roll · pitch · yaw, and the view
        matrix is `updateViewMatrix`; the view, projection and view-projection
        matrices and the homogeneous basis vectors are only read inside this
        method, so they are locals here. */
    method Update()
      modifies this
      ensures Pose() == old(Pose()) && Projection() == old(Projection())
      ensures Valid()
    {
      var rotation := Rotation(lib, trig, yaw, pitch, roll);
      var mView := ViewOf(lib, rotation, position);
      var mProjection := ProjectionOf(perspective, fieldOfView, aspectRatio, near, far);
      var rayDir := RayDirOf(lib, mView, mProjection, position);
      var forwardXYZ0, rightXYZ0, upXYZ0 := ForwardOf(rotation), RightOf(rotation), UpOf(rotation);
      positionXYZ1, mRotation, mRayDir := Vec4(position.x, position.y, position.z, 1.0), rotation, rayDir;
      forward, right, up := Xyz(forwardXYZ0), Xyz(rightXYZ0), Xyz(upXYZ0);
    }

    /** `rescale`: a new aspect ratio, nothing else. */
    method Rescale(newAspect: real)
      modifies this
      ensures Pose() == old(Pose())
      ensures Projection() == (old(fieldOfView), newAspect, old(near), old(far))
      ensures Valid()
    {
      aspectRatio := newAspect;
      Update();
    }

    /** `configure`: a field of view in degrees and the clip planes; the aspect ratio stays. */
    method Configure(fov: real, near: real, far: real)
      modifies this
      ensures Pose() == old(Pose())
      ensures Projection() == (ToRadian(fov), old(aspectRatio), near, far)
      ensures Valid()
    {
      fieldOfView := ToRadian(fov);
      this.near := near;
      this.far := far;
      Update();
    }

    /** `move`: a displacement in world coordinates. */
    method Move(delta: Vec3)
      modifies this
      ensures Pose() == (Add(old(position), delta), old(roll), old(pitch), old(yaw))
      ensures Projection() == old(Projection())
      ensures Valid()
    {
      position := Add(position, delta);
      Update();
    }

    /** `moveAlong`: a displacement in the camera's basis as it was before the call. */
    method MoveAlong(delta: Vec3)
      modifies this
      ensures Pose() == (Add(old(position), Along(delta, old(right), old(forward))), old(roll), old(pitch), old(yaw))
      ensures Projection() == old(Projection())
      ensures Valid()
      ensures old(Valid()) ==> right == old(right) && forward == old(forward) && up == old(up)
    {
      var p := Add(position, Scale(right, delta.x));
      p := Add(p, Scale(WorldUp(), delta.y));
      p := Add(p, Scale(forward, delta.z));
      position := p;
      Update();
    }

    /** `moveTo`: the position is set exactly. */
    method MoveTo(pos: Vec3)
      modifies this
      ensures Pose() == (pos, old(roll), old(pitch), old(yaw))
      ensures Projection() == old(Projection())
      ensures Valid()
    {
      position := Vec3(pos.x, pos.y, pos.z);
      Update();
    }

    /** `rotate`: adds the deltas, with no clamp on the pitch. */
    method Rotate(deltaYaw: real, deltaPitch: real)
      modifies this
      ensures Pose() == (old(position), old(roll), old(pitch) + deltaPitch, old(yaw) + deltaYaw)
      ensures Projection() == old(Projection())
      ensures Valid()
    {
      yaw := yaw + deltaYaw;
      pitch := pitch + deltaPitch;
      Update();
    }

    /** `rotateTo`: the yaw as given and the pitch clamped inside (-π/2, π/2). */
    method RotateTo(yaw: real, pitch: real)
      modifies this
      ensures Pose() == (old(position), old(roll), ClampPitch(pitch), yaw)
      ensures Projection() == old(Projection())
      ensures Valid()
    {
      this.yaw := yaw;
      this.pitch := ClampPitch(pitch);
      Update();
    }

    /** `applyUniforms`: the homogeneous position, then the ray-direction matrix. */
    function Uploads(u: CameraLocations): (us: seq<Upload>)
      reads this
      requires Valid()
      ensures us == [Upload(u.position, Vec4Value(Vec4(position.x, position.y, position.z, 1.0))),
                     Upload(u.rayDirMatrix, MatrixValue(RayDirOf(lib, ViewOf(lib, Rotation(lib, trig, yaw, pitch, roll), position),
                                                               ProjectionOf(perspective, fieldOfView, aspectRatio, near, far), position)))]
    {
      [Upload(u.position, Vec4Value(positionXYZ1)), Upload(u.rayDirMatrix, MatrixValue(mRayDir))]
    }
  }

  /** The program reads back the camera's position, with w = 1, and its ray matrix. */
  lemma CameraRoundTrip(c: Camera, store: Store)
    requires c.Valid()
    ensures var s := Apply(store, c.Uploads(CameraLocations(Named(CameraPosition), Named(CameraRayDirMatrix))));
      CameraPosition in s && s[CameraPosition] == Vec4Value(Vec4(c.position.x, c.position.y, c.position.z, 1.0))
      && CameraRayDirMatrix in s && s[CameraRayDirMatrix] == MatrixValue(c.mRayDir)
  {
    var us := c.Uploads(CameraLocations(Named(CameraPosition), Named(CameraRayDirMatrix)));
    ApplyDistinct(store, us, 0);
    ApplyDistinct(store, us, 1);
  }
}
