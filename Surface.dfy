/**
 * Quadric surfaces (source/Surface.ts). A `QuadraticSurfaceMatrix` keeps a
 * fixed quadric `M`, a cumulative transform `T`, and the derived matrix
 * `MT = T⁻¹·M·(T⁻¹)ᵀ` that the program intersects rays with; `MT` is
 * recomputed by every mutation. A `Surface` pairs a shape quadric `Q` with a
 * clipping quadric `C` and a material slot.
 */
module Surfaces {
  import opened LinearAlgebra
  import opened Uniforms
  import opened Outcomes

  /** The quadric M seen through the transform t: t⁻¹·M·(t⁻¹)ᵀ. */
  function Effective(lib: MatrixLibrary, t: Mat4, m: Mat4): Mat4 {
    var inv := lib.invert(t);
    lib.multiply(lib.multiply(inv, m), Transpose(inv))
  }

  class QuadraticSurfaceMatrix {
    var T: Mat4
    var Tinv: Mat4
    var TinvT: Mat4
    var MT: Mat4
    const M: Mat4
    const lib: MatrixLibrary

    /** The three caches agree with the current transform. */
    ghost predicate Valid()
      reads this
    {
      Tinv == lib.invert(T) && TinvT == Transpose(Tinv) && MT == lib.multiply(lib.multiply(Tinv, M), TinvT)
    }

    constructor (m: Mat4, lib: MatrixLibrary)
      ensures M == m && this.lib == lib && T == Identity() && Valid()
    {
      M := m;
      this.lib := lib;
      T, Tinv, TinvT, MT := Identity(), Identity(), Identity(), Identity();
      new;
      Update();
    }

    /** `transform`: T := T·deltaT; returns this object so that calls chain. */
    method Transform(deltaT: Mat4) returns (self: QuadraticSurfaceMatrix)
      modifies this
      ensures self == this
      ensures T == lib.multiply(old(T), deltaT) && Valid()
    {
      T := lib.multiply(T, deltaT);
      Update();
      self := this;
    }

    /** `transformTo`: T := t; returns this object so that calls chain. */
    method TransformTo(t: Mat4) returns (self: QuadraticSurfaceMatrix)
      modifies this
      ensures self == this
      ensures T == t && Valid()
    {
      T := t;
      Update();
      self := this;
    }

    /** `update`: recomputes the caches from T and M, in the source's order. */
    method Update()
      modifies this
      ensures T == old(T) && Valid()
    {
      Tinv := T;
      Tinv := lib.invert(Tinv);
      TinvT := Tinv;
      TinvT := Transpose(TinvT);
      MT := Tinv;
      MT := lib.multiply(MT, M);
      MT := lib.multiply(MT, TinvT);
    }

    /** The `matrix` getter: the cache, which is never stale. */
    function Matrix(): (m: Mat4)
      reads this
      requires Valid()
      ensures m == Effective(lib, T, M)
    {
      MT
    }
  }

  datatype SurfaceLocations = SurfaceLocations(q: Location, c: Location, materialId: Location)

  function AllLocations(slot: nat): SurfaceLocations {
    SurfaceLocations(Named(SurfaceQ(slot)), Named(SurfaceC(slot)), Named(SurfaceMaterialId(slot)))
  }

  /** What a surface contributes to the program: its material slot and its two matrices. */
  datatype SurfaceData = SurfaceData(materialId: int, q: Mat4, c: Mat4)

  /** `Surface.applyUniforms`: materialId, then Q, then C. */
  function UploadsOf(d: SurfaceData, locs: SurfaceLocations): (us: seq<Upload>)
    ensures |us| == 3
    ensures us[0].location == locs.materialId && us[0].value == IntValue(d.materialId)
    ensures us[1].location == locs.q && us[2].location == locs.c
  {
    [Upload(locs.materialId, IntValue(d.materialId)),
     Upload(locs.q, MatrixValue(d.q)),
     Upload(locs.c, MatrixValue(d.c))]
  }

  function ReadSurface(store: Store, slot: nat): Option<SurfaceData> {
    var i, q, c := SurfaceMaterialId(slot), SurfaceQ(slot), SurfaceC(slot);
    if i in store && store[i].IntValue? && q in store && store[q].MatrixValue?
       && c in store && store[c].MatrixValue?
    then Some(SurfaceData(store[i].i, store[q].m, store[c].m))
    else None
  }

  /** A surface's three calls read back as that surface. */
  lemma SurfaceRoundTrip(d: SurfaceData, slot: nat, store: Store)
    ensures ReadSurface(Apply(store, UploadsOf(d, AllLocations(slot))), slot) == Some(d)
  {
    var us := UploadsOf(d, AllLocations(slot));
    forall i | 0 <= i < 3
      ensures us[i].location.name in Apply(store, us)
      ensures Apply(store, us)[us[i].location.name] == us[i].value
    {
      ApplyDistinct(store, us, i);
    }
  }

  class Surface {
    /** `_Q`, the shape. */
    const shape: QuadraticSurfaceMatrix
    /** `_C`, the clipping volume. */
    const clip: QuadraticSurfaceMatrix
    const materialId: int

    constructor (q: QuadraticSurfaceMatrix, c: QuadraticSurfaceMatrix, materialId: int)
      ensures shape == q && clip == c && this.materialId == materialId
    {
      shape := q;
      clip := c;
      this.materialId := materialId;
    }

    ghost predicate Valid()
      reads shape, clip
    {
      shape.Valid() && clip.Valid()
    }

    /** The `Q` getter. */
    function Q(): (m: Mat4)
      reads shape
      requires shape.Valid()
      ensures m == Effective(shape.lib, shape.T, shape.M)
    {
      shape.Matrix()
    }

    /** The `C` getter. */
    function C(): (m: Mat4)
      reads clip
      requires clip.Valid()
      ensures m == Effective(clip.lib, clip.T, clip.M)
    {
      clip.Matrix()
    }

    method TransformQ(deltaT: Mat4)
      modifies shape
      ensures shape.T == shape.lib.multiply(old(shape.T), deltaT) && shape.Valid()
      ensures clip != shape ==> unchanged(clip)
    {
      var self := shape.Transform(deltaT);
    }

    method TransformC(deltaT: Mat4)
      modifies clip
      ensures clip.T == clip.lib.multiply(old(clip.T), deltaT) && clip.Valid()
      ensures clip != shape ==> unchanged(shape)
    {
      var self := clip.Transform(deltaT);
    }

    method TransformQTo(t: Mat4)
      modifies shape
      ensures shape.T == t && shape.Valid()
      ensures clip != shape ==> unchanged(clip)
    {
      var self := shape.TransformTo(t);
    }

    method TransformCTo(t: Mat4)
      modifies clip
      ensures clip.T == t && clip.Valid()
      ensures clip != shape ==> unchanged(shape)
    {
      var self := clip.TransformTo(t);
    }

    /** What `applyUniforms` reads from this surface: its material slot and the
        two cached matrices. */
    function Snapshot(): SurfaceData
      reads shape, clip
    {
      SurfaceData(materialId, shape.MT, clip.MT)
    }

    /** `applyUniforms`: materialId, then the Q getter, then the C getter. */
    function Uploads(locs: SurfaceLocations): (us: seq<Upload>)
      reads shape, clip
      ensures |us| == 3
      ensures us[0] == Upload(locs.materialId, IntValue(materialId))
      ensures us[1] == Upload(locs.q, MatrixValue(shape.MT))
      ensures us[2] == Upload(locs.c, MatrixValue(clip.MT))
    {
      UploadsOf(Snapshot(), locs)
    }
  }

  /** The matrices a surface uploads are never stale: they are the quadrics
      seen through the current transforms. */
  lemma UploadsCurrent(s: Surface, locs: SurfaceLocations)
    requires s.Valid()
    ensures s.Uploads(locs) ==
      [Upload(locs.materialId, IntValue(s.materialId)),
       Upload(locs.q, MatrixValue(Effective(s.shape.lib, s.shape.T, s.shape.M))),
       Upload(locs.c, MatrixValue(Effective(s.clip.lib, s.clip.T, s.clip.M)))]
  {
    assert s.Q() == s.shape.MT;
    assert s.C() == s.clip.MT;
  }

  /** `createUnitPlane`: the plane y = 0. */
  function UnitPlane(): (m: Mat4)
    ensures forall x: real, y: real, z: real :: QuadricForm(m, Vec4(x, y, z, 1.0)) == y
  {
    Mat4(0.0, 0.0, 0.0, 0.0,
         0.0, 0.0, 0.0, 0.0,
         0.0, 0.0, 0.0, 0.0,
         0.0, 1.0, 0.0, 0.0)
  }

  /** `createUnitSphere`: diag(1, 1, 1, -1). */
  function UnitSphere(): (m: Mat4)
    ensures forall x: real, y: real, z: real ::
      QuadricForm(m, Vec4(x, y, z, 1.0)) == x * x + y * y + z * z - 1.0
  {
    Mat4(1.0, 0.0, 0.0, 0.0,
         0.0, 1.0, 0.0, 0.0,
         0.0, 0.0, 1.0, 0.0,
         0.0, 0.0, 0.0, -1.0)
  }

  /** `createEverywhere`: a single non-zero entry, -1 at index 15; every point is inside. */
  function Everywhere(): (m: Mat4)
    ensures forall k :: 0 <= k < 15 ==> m.At(k) == 0.0
    ensures m.At(15) == -1.0
    ensures forall x: real, y: real, z: real :: QuadricForm(m, Vec4(x, y, z, 1.0)) == -1.0
  {
    Mat4(0.0, 0.0, 0.0, 0.0,
         0.0, 0.0, 0.0, 0.0,
         0.0, 0.0, 0.0, 0.0,
         0.0, 0.0, 0.0, -1.0)
  }

  /** `createUnitHyperboloid`: diag(1, 1, -1, -1). */
  function UnitHyperboloid(): (m: Mat4)
    ensures forall x: real, y: real, z: real ::
      QuadricForm(m, Vec4(x, y, z, 1.0)) == x * x + y * y - z * z - 1.0
  {
    Mat4(1.0, 0.0, 0.0, 0.0,
         0.0, 1.0, 0.0, 0.0,
         0.0, 0.0, -1.0, 0.0,
         0.0, 0.0, 0.0, -1.0)
  }

  /** `createEllipsoid(a, b, c)`: diag(a, b, c, -1). */
  function Ellipsoid(a: real, b: real, c: real): (m: Mat4)
    ensures forall x: real, y: real, z: real ::
      QuadricForm(m, Vec4(x, y, z, 1.0)) == a * x * x + b * y * y + c * z * z - 1.0
  {
    Mat4(a, 0.0, 0.0, 0.0,
         0.0, b, 0.0, 0.0,
         0.0, 0.0, c, 0.0,
         0.0, 0.0, 0.0, -1.0)
  }

  /** `createHyperboloid(a, b, c)`: diag(a, b, -c, -1). */
  function Hyperboloid(a: real, b: real, c: real): (m: Mat4)
    ensures forall x: real, y: real, z: real ::
      QuadricForm(m, Vec4(x, y, z, 1.0)) == a * x * x + b * y * y - c * z * z - 1.0
  {
    Mat4(a, 0.0, 0.0, 0.0,
         0.0, b, 0.0, 0.0,
         0.0, 0.0, -c, 0.0,
         0.0, 0.0, 0.0, -1.0)
  }

  method CreateUnitPlane(lib: MatrixLibrary) returns (s: QuadraticSurfaceMatrix)
    ensures fresh(s) && s.M == UnitPlane() && s.lib == lib && s.T == Identity() && s.Valid()
  {
    s := new QuadraticSurfaceMatrix(UnitPlane(), lib);
  }

  method CreateUnitSphere(lib: MatrixLibrary) returns (s: QuadraticSurfaceMatrix)
    ensures fresh(s) && s.M == UnitSphere() && s.lib == lib && s.T == Identity() && s.Valid()
  {
    s := new QuadraticSurfaceMatrix(UnitSphere(), lib);
  }

  method CreateEverywhere(lib: MatrixLibrary) returns (s: QuadraticSurfaceMatrix)
    ensures fresh(s) && s.M == Everywhere() && s.lib == lib && s.T == Identity() && s.Valid()
  {
    s := new QuadraticSurfaceMatrix(Everywhere(), lib);
  }

  method CreateUnitHyperboloid(lib: MatrixLibrary) returns (s: QuadraticSurfaceMatrix)
    ensures fresh(s) && s.M == UnitHyperboloid() && s.lib == lib && s.T == Identity() && s.Valid()
  {
    s := new QuadraticSurfaceMatrix(UnitHyperboloid(), lib);
  }

  method CreateEllipsoid(a: real, b: real, c: real, lib: MatrixLibrary) returns (s: QuadraticSurfaceMatrix)
    ensures fresh(s) && s.M == Ellipsoid(a, b, c) && s.lib == lib && s.T == Identity() && s.Valid()
  {
    s := new QuadraticSurfaceMatrix(Ellipsoid(a, b, c), lib);
  }

  method CreateHyperboloid(a: real, b: real, c: real, lib: MatrixLibrary) returns (s: QuadraticSurfaceMatrix)
    ensures fresh(s) && s.M == Hyperboloid(a, b, c) && s.lib == lib && s.T == Identity() && s.Valid()
  {
    s := new QuadraticSurfaceMatrix(Hyperboloid(a, b, c), lib);
  }
}
