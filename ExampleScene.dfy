/**
 * The demo scene (source/ExampleScene.ts): a room of six walls, four objects,
 * eight materials and three point lights. `createUnitCylinder` is not part of
 * this model: its quadric is taken as a parameter.
 */
module ExampleScenes {
  import opened LinearAlgebra
  import opened MatrixMath
  import opened Outcomes
  import opened Surfaces
  import opened Materials
  import opened PointLights
  import opened Scenes
  import opened Uniforms

  /** The material slot of each surface, in the order they are added. */
  const SurfaceMaterialIds: seq<int> := [6, 3, 6, 6, 0, 0, 1, 1, 2, 2]

  /** The literal angle the walls are rotated by (not `Math.PI`). */
  const QuarterTurn: real := 3.14159265 / 2.0

  function ExampleMaterials(): seq<Material> {
    [Material(Vec3(1.0, 0.05, 0.05), Vec3(0.1, 0.1, 0.1), 12.0, Vec3(0.0, 0.0, 0.0)),
     Material(Vec3(0.05, 1.0, 0.05), Vec3(0.1, 0.1, 0.1), 12.0, Vec3(0.0, 0.0, 0.0)),
     Material(Vec3(0.05, 0.05, 1.0), Vec3(0.1, 0.1, 0.1), 12.0, Vec3(0.0, 0.0, 0.0)),
     Material(Vec3(1.0, 1.0, 0.05), Vec3(0.3, 0.3, 0.3), 80.0, Vec3(0.0, 0.0, 0.0)),
     Material(Vec3(1.0, 0.05, 1.0), Vec3(0.3, 0.3, 0.3), 80.0, Vec3(0.0, 0.0, 0.0)),
     Material(Vec3(0.05, 1.0, 1.0), Vec3(0.3, 0.3, 0.3), 80.0, Vec3(0.0, 0.0, 0.0)),
     Material(Vec3(1.0, 1.0, 1.0), Vec3(0.5, 0.5, 0.5), 240.0, Vec3(0.0, 0.0, 0.0)),
     Material(Vec3(0.0, 0.0, 0.0), Vec3(0.0, 0.0, 0.0), 1.0, Vec3(15.0, 1.0, 1.0))]
  }

  function ExampleLights(): seq<PointLight> {
    [PointLight(Vec3(0.0, 4.0, 0.0), Vec3(2.0, 2.0, 2.0), Vec3(1.0, 0.55, 0.75)),
     PointLight(Vec3(2.0, 7.0, -2.0), Vec3(2.0, 2.0, 2.0), Vec3(1.0, 0.15, 0.25)),
     PointLight(Vec3(-2.0, 1.0, 2.0), Vec3(2.0, 2.0, 2.0), Vec3(1.0, 0.15, 0.25))]
  }

  /** A room wall: an unclipped unit plane moved by `transform`. */
  method Wall(lib: MatrixLibrary, transform: Mat4, materialId: int) returns (w: Surface)
    ensures fresh(w) && w.materialId == materialId
  {
    var q := CreateUnitPlane(lib);
    q := q.Transform(transform);
    var c := CreateEverywhere(lib);
    w := new Surface(q, c, materialId);
  }

  /** A room wall: an unclipped unit plane rotated by `rotation`, then moved by `translation`. */
  method TurnedWall(lib: MatrixLibrary, rotation: Mat4, translation: Mat4, materialId: int)
    returns (w: Surface)
    ensures fresh(w) && w.materialId == materialId
  {
    var q := CreateUnitPlane(lib);
    q := q.Transform(rotation);
    q := q.Transform(translation);
    var c := CreateEverywhere(lib);
    w := new Surface(q, c, materialId);
  }

  /** `ROOM_WALLS`: floor, ceiling and four side walls, with material slots 0, 0, 1, 1, 2, 2. */
  method RoomWalls(lib: MatrixLibrary, t: Trig) returns (walls: seq<Surface>)
    ensures |walls| == 6
    ensures walls[0].materialId == 0 && walls[1].materialId == 0
    ensures walls[2].materialId == 1 && walls[3].materialId == 1
    ensures walls[4].materialId == 2 && walls[5].materialId == 2
  {
    var floor := Wall(lib, Translation(Vec3(0.0, 0.0, 0.0)), 0);
    var ceiling := Wall(lib, Translation(Vec3(0.0, 8.0, 0.0)), 0);
    var back := TurnedWall(lib, Rotation(lib, t, 0.0, -QuarterTurn, 0.0), Translation(Vec3(0.0, 0.0, -4.0)), 1);
    var front := TurnedWall(lib, Rotation(lib, t, 0.0, -QuarterTurn, 0.0), Translation(Vec3(0.0, 0.0, 4.0)), 1);
    var right := TurnedWall(lib, Rotation(lib, t, 0.0, 0.0, QuarterTurn), Translation(Vec3(4.0, 0.0, 0.0)), 2);
    var left := TurnedWall(lib, Rotation(lib, t, 0.0, 0.0, QuarterTurn), Translation(Vec3(-4.0, 0.0, 0.0)), 2);
    walls := [floor, ceiling, back, front, right, left];
  }

  /** A fresh quadric `m` moved to `at`. */
  method Placed(lib: MatrixLibrary, m: Mat4, at: Vec3) returns (q: QuadraticSurfaceMatrix)
    ensures fresh(q) && q.M == m && q.Valid()
  {
    q := new QuadraticSurfaceMatrix(m, lib);
    q := q.Transform(Translation(at));
  }

  /** The clipping volume of the hyperboloid: a unit sphere scaled by 1.25, then moved up by 4. */
  method ScaledSphere(lib: MatrixLibrary) returns (q: QuadraticSurfaceMatrix)
    ensures fresh(q) && q.M == UnitSphere() && q.Valid()
  {
    q := CreateUnitSphere(lib);
    q := q.Transform(Scaling(1.25, 1.25, 1.25));
    q := q.Transform(Translation(Vec3(0.0, 4.0, 0.0)));
  }

  /** The sphere at (-2, 3, 0), unclipped, material slot 6. */
  method LeftSphere(lib: MatrixLibrary) returns (s: Surface)
    ensures fresh(s) && s.materialId == 6
  {
    var q := Placed(lib, UnitSphere(), Vec3(-2.0, 3.0, 0.0));
    var c := CreateEverywhere(lib);
    s := new Surface(q, c, 6);
  }

  /** The sphere at the origin clipped by a sphere at (0.5, 0.5, 0), material slot 3. */
  method ClippedSphere(lib: MatrixLibrary) returns (s: Surface)
    ensures fresh(s) && s.materialId == 3
  {
    var q := Placed(lib, UnitSphere(), Vec3(0.0, 0.0, 0.0));
    var c := Placed(lib, UnitSphere(), Vec3(0.5, 0.5, 0.0));
    s := new Surface(q, c, 3);
  }

  /** The unit cylinder at (2, 5, 0), unclipped, material slot 6. */
  method Cylinder(lib: MatrixLibrary, unitCylinder: Mat4) returns (s: Surface)
    ensures fresh(s) && s.materialId == 6
  {
    var q := Placed(lib, unitCylinder, Vec3(2.0, 5.0, 0.0));
    var c := CreateEverywhere(lib);
    s := new Surface(q, c, 6);
  }

  /** The hyperboloid (6, 4, 6) at (0, 4, 0), clipped by the scaled sphere, material slot 6. */
  method ClippedHyperboloid(lib: MatrixLibrary) returns (s: Surface)
    ensures fresh(s) && s.materialId == 6
  {
    var q := Placed(lib, Hyperboloid(6.0, 4.0, 6.0), Vec3(0.0, 4.0, 0.0));
    var c := ScaledSphere(lib);
    s := new Surface(q, c, 6);
  }

  /** The four objects of `createScene`, with material slots 6, 3, 6, 6. */
  method SceneObjects(lib: MatrixLibrary, unitCylinder: Mat4) returns (objects: seq<Surface>)
    ensures |objects| == 4
    ensures objects[0].materialId == 6 && objects[1].materialId == 3
    ensures objects[2].materialId == 6 && objects[3].materialId == 6
  {
    var s0 := LeftSphere(lib);
    var s1 := ClippedSphere(lib);
    var s2 := Cylinder(lib, unitCylinder);
    var s3 := ClippedHyperboloid(lib);
    objects := [s0, s1, s2, s3];
  }

  /** `createScene`: capacities (16, 8, 8); no add call throws, every list
      stays within capacity, and every surface's material id is a valid slot. */
  method CreateScene(lib: MatrixLibrary, t: Trig, unitCylinder: Mat4) returns (s: Scene, r: Outcome<SceneError>)
    ensures r == Pass
    ensures s.maxSurfaceCount == 16 && s.maxMaterialCount == 8 && s.maxPointLightCount == 8
    ensures s.materials == ExampleMaterials() && s.pointLights == ExampleLights()
    ensures |s.surfaces| == 10 && s.Valid()
    ensures forall i :: 0 <= i < 10 ==> s.surfaces[i].materialId == SurfaceMaterialIds[i]
    ensures forall i :: 0 <= i < |s.surfaces| ==>
      ValidMaterialId(s.surfaces[i].materialId, s.maxMaterialCount)
    ensures s.shouldApplyUniforms && fresh(s)
  {
    var walls := RoomWalls(lib, t);
    s := new Scene(16, 8, 8);
    r := s.AddMaterial(ExampleMaterials());
    if r.Pass? {
      r := s.AddPointLight(ExampleLights());
      if r.Pass? {
        var objects := SceneObjects(lib, unitCylinder);
        r := s.AddSurface(objects + walls);
      }
    }
  }

  /** Once the program is introspected, the uniform pass over the example
      scene cannot throw. */
  lemma ExampleScenePasses(sd: SceneData)
    requires Introspected(sd)
    requires sd.maxSurfaces == 16 && sd.maxMaterials == 8 && sd.maxLights == 8
    requires sd.materials == ExampleMaterials() && sd.lights == ExampleLights()
    requires |sd.surfaces| == 10
    requires forall i :: 0 <= i < 10 ==> sd.surfaces[i].materialId == SurfaceMaterialIds[i]
    ensures FullPass(sd).outcome == Pass
  {
    assert WithinCapacity(sd) by {
      assert |ExampleMaterials()| == 8 && |ExampleLights()| == 3;
    }
    assert AllMaterialIdsValid(sd) by {
      forall i | 0 <= i < |sd.surfaces| ensures ValidMaterialId(sd.surfaces[i].materialId, sd.maxMaterials) {
        assert sd.surfaces[i].materialId == SurfaceMaterialIds[i];
      }
    }
    PassSucceedsIff(sd);
  }

  /** The example scene, once introspected, passes its uniform pass. */
  lemma CreatedScenePasses(s: Scene)
    requires SurfaceLocationsResolved(s.surfaceLocations, s.maxSurfaceCount)
    requires MaterialLocationsResolved(s.materialLocations, s.maxMaterialCount)
    requires LightLocationsResolved(s.lightLocations, s.maxPointLightCount)
    requires s.maxSurfaceCount == 16 && s.maxMaterialCount == 8 && s.maxPointLightCount == 8
    requires s.materials == ExampleMaterials() && s.pointLights == ExampleLights()
    requires |s.surfaces| == 10
    requires forall i :: 0 <= i < 10 ==> s.surfaces[i].materialId == SurfaceMaterialIds[i]
    ensures FullPass(s.Data()).outcome == Pass
  {
    var sd := s.Data();
    forall i | 0 <= i < 10 ensures sd.surfaces[i].materialId == SurfaceMaterialIds[i] {
      assert sd.surfaces[i] == s.surfaces[i].Snapshot();
    }
    ExampleScenePasses(sd);
  }

  /** `createScene`, introspection and the first `applyUniforms`: the pass
      cannot throw and clears the flag, and what it uploads is the uniform
      pass over the scene just built. */
  method CreateAndApplyScene(lib: MatrixLibrary, t: Trig, unitCylinder: Mat4)
    returns (s: Scene, r: Outcome<SceneError>, uploads: seq<Upload>)
    ensures r == Pass && !s.shouldApplyUniforms
    ensures Emission(r, uploads) == FullPass(s.Data())
  {
    var created;
    s, created := CreateScene(lib, t, unitCylinder);
    s.IntrospectPathtracer();
    CreatedScenePasses(s);
    r, uploads := s.ApplyUniforms();
  }
}
