/**
 * The scene registry (source/Scene.ts): fixed-capacity lists of surfaces,
 * materials and point lights, the uniform locations found by introspecting
 * the pathtracing program, and the dirty flag that gates the uniform pass.
 *
 * A thrown `Error` is a `Fail` outcome; state changed before the throw stays
 * changed. The uniform pass is specified by `FullPass` over a value snapshot
 * of the scene (`SceneData`), as a prefix of slot emissions per section.
 */
module Scenes {
  import opened LinearAlgebra
  import opened Uniforms
  import opened Outcomes
  import Materials
  import PointLights
  import Surfaces

  datatype SceneError =
    | TooManySurfaces(max: nat)
    | TooManyMaterials(max: nat)
    | TooManyPointLights(max: nat)
    | InvalidMaterialId(id: int)
    /** Reading a field of a location record that was never built: the
        `TypeError` a pass before `introspectPathtracer` runs into. */
    | LocationsNotIntrospected

  /** How far a pass got and the uniform calls it made on the way. */
  datatype Emission = Emission(outcome: Outcome<SceneError>, uploads: seq<Upload>)

  /** Run `b` after `a`, unless `a` has thrown. */
  function Then(a: Emission, b: Emission): Emission {
    if a.outcome.Fail? then a else Emission(b.outcome, a.uploads + b.uploads)
  }

  /** Introspection looks up only diffuse, specular and emissive of a material slot. */
  function SceneMaterialLocations(slot: nat): Materials.MaterialLocations {
    Materials.MaterialLocations(
      Named(MaterialDiffuse(slot)), Named(MaterialSpecular(slot)), Named(MaterialEmissive(slot)),
      Missing, Missing, Missing)
  }

  datatype SceneData = SceneData(
    maxSurfaces: nat, maxMaterials: nat, maxLights: nat,
    surfaceLocations: seq<Surfaces.SurfaceLocations>, surfaces: seq<Surfaces.SurfaceData>,
    materialLocations: seq<Materials.MaterialLocations>, materials: seq<Materials.Material>,
    lightLocations: seq<PointLights.PointLightLocations>, lights: seq<PointLights.PointLight>)

  /** The three loops of `applyUniforms`. */
  datatype Section = SurfaceSlots | MaterialSlots | LightSlots

  function SlotCount(sd: SceneData, sec: Section): nat {
    match sec
    case SurfaceSlots => sd.maxSurfaces
    case MaterialSlots => sd.maxMaterials
    case LightSlots => sd.maxLights
  }

  /** The range check on a surface's material: against the capacity, not the count added. */
  predicate ValidMaterialId(id: int, maxMaterials: nat) {
    0 <= id < maxMaterials
  }

  /** One iteration of one loop of `applyUniforms`. */
  function Slot(sd: SceneData, sec: Section, i: nat): Emission {
    match sec
    case SurfaceSlots =>
      if i < |sd.surfaces| && !ValidMaterialId(sd.surfaces[i].materialId, sd.maxMaterials) then
        Emission(Fail(InvalidMaterialId(sd.surfaces[i].materialId)), [])
      else if i >= |sd.surfaceLocations| then Emission(Fail(LocationsNotIntrospected), [])
      else if i < |sd.surfaces| then
        Emission(Pass, Surfaces.UploadsOf(sd.surfaces[i], sd.surfaceLocations[i]))
      else Emission(Pass, [Upload(sd.surfaceLocations[i].materialId, IntValue(-1))])
    case MaterialSlots =>
      if i >= |sd.materials| then Emission(Pass, [])
      else if i >= |sd.materialLocations| then Emission(Fail(LocationsNotIntrospected), [])
      else Emission(Pass, Materials.Uploads(sd.materials[i], sd.materialLocations[i]))
    case LightSlots =>
      if i >= |sd.lightLocations| then Emission(Fail(LocationsNotIntrospected), [])
      else if i < |sd.lights| then
        Emission(Pass, [Upload(sd.lightLocations[i].enabled, IntValue(1))]
                       + PointLights.Uploads(sd.lights[i], sd.lightLocations[i]))
      else Emission(Pass, [Upload(sd.lightLocations[i].enabled, IntValue(0))])
  }

  /** The first `n` iterations of a loop. */
  function Prefix(sd: SceneData, sec: Section, n: nat): Emission
    decreases n
  {
    if n == 0 then Emission(Pass, []) else Then(Prefix(sd, sec, n - 1), Slot(sd, sec, n - 1))
  }

  /** The body of `applyUniforms` when the flag is set. */
  function FullPass(sd: SceneData): Emission {
    Then(Then(Prefix(sd, SurfaceSlots, sd.maxSurfaces), Prefix(sd, MaterialSlots, sd.maxMaterials)),
         Prefix(sd, LightSlots, sd.maxLights))
  }

  predicate SurfaceLocationsResolved(locs: seq<Surfaces.SurfaceLocations>, n: nat) {
    |locs| == n && forall j :: 0 <= j < n ==> locs[j] == Surfaces.AllLocations(j)
  }

  predicate MaterialLocationsResolved(locs: seq<Materials.MaterialLocations>, n: nat) {
    |locs| == n && forall j :: 0 <= j < n ==> locs[j] == SceneMaterialLocations(j)
  }

  predicate LightLocationsResolved(locs: seq<PointLights.PointLightLocations>, n: nat) {
    |locs| == n && forall j :: 0 <= j < n ==> locs[j] == PointLights.AllLocations(j)
  }

  /** The location tables as `introspectPathtracer` leaves them. */
  predicate Introspected(sd: SceneData) {
    SurfaceLocationsResolved(sd.surfaceLocations, sd.maxSurfaces)
    && MaterialLocationsResolved(sd.materialLocations, sd.maxMaterials)
    && LightLocationsResolved(sd.lightLocations, sd.maxLights)
  }

  /** No list exceeds its capacity. */
  predicate WithinCapacity(sd: SceneData) {
    |sd.surfaces| <= sd.maxSurfaces && |sd.materials| <= sd.maxMaterials
    && |sd.lights| <= sd.maxLights
  }

  predicate AllMaterialIdsValid(sd: SceneData) {
    forall i :: 0 <= i < |sd.surfaces| ==> ValidMaterialId(sd.surfaces[i].materialId, sd.maxMaterials)
  }

  /** Once a loop has thrown, later iterations change nothing. */
  lemma {:induction false} FailSticks(sd: SceneData, sec: Section, m: nat, n: nat)
    requires m <= n && Prefix(sd, sec, m).outcome.Fail?
    ensures Prefix(sd, sec, n) == Prefix(sd, sec, m)
    decreases n
  {
    if n > m {
      FailSticks(sd, sec, m, n - 1);
    }
  }

  /** After introspection the surface loop throws exactly when a surface in
      its range names a material slot outside [0, maxMaterials). */
  lemma {:induction false} SurfaceLoopPasses(sd: SceneData, n: nat)
    requires Introspected(sd) && n <= sd.maxSurfaces
    ensures Prefix(sd, SurfaceSlots, n).outcome == Pass <==>
      forall i :: 0 <= i < n && i < |sd.surfaces| ==>
        ValidMaterialId(sd.surfaces[i].materialId, sd.maxMaterials)
    decreases n
  {
    if n > 0 {
      SurfaceLoopPasses(sd, n - 1);
    }
  }

  /** After introspection the material and light loops never throw. */
  lemma {:induction false} OtherLoopsPass(sd: SceneData, sec: Section, n: nat)
    requires Introspected(sd) && sec != SurfaceSlots && n <= SlotCount(sd, sec)
    ensures Prefix(sd, sec, n).outcome == Pass
    decreases n
  {
    if n > 0 {
      OtherLoopsPass(sd, sec, n - 1);
    }
  }

  /** After introspection the whole pass succeeds exactly when every surface's
      material id is within the material capacity. */
  lemma PassSucceedsIff(sd: SceneData)
    requires Introspected(sd) && WithinCapacity(sd)
    ensures FullPass(sd).outcome == Pass <==> AllMaterialIdsValid(sd)
  {
    SurfaceLoopPasses(sd, sd.maxSurfaces);
    OtherLoopsPass(sd, MaterialSlots, sd.maxMaterials);
    OtherLoopsPass(sd, LightSlots, sd.maxLights);
  }

  /** The first surface with a bad material id makes the pass throw with that
      id, after the calls for all earlier surface slots and before any material
      or light call. */
  lemma FirstInvalidIdThrows(sd: SceneData, k: nat)
    requires Introspected(sd) && WithinCapacity(sd)
    requires k < |sd.surfaces| && !ValidMaterialId(sd.surfaces[k].materialId, sd.maxMaterials)
    requires forall j :: 0 <= j < k ==> ValidMaterialId(sd.surfaces[j].materialId, sd.maxMaterials)
    ensures Prefix(sd, SurfaceSlots, k).outcome == Pass
    ensures FullPass(sd) ==
      Emission(Fail(InvalidMaterialId(sd.surfaces[k].materialId)), Prefix(sd, SurfaceSlots, k).uploads)
  {
    SurfaceLoopPasses(sd, k);
    FailSticks(sd, SurfaceSlots, k + 1, sd.maxSurfaces);
  }

  // ----- What the program sees after a successful pass -----

  predicate IsSurfaceName(nm: UniformName) {
    nm.SurfaceQ? || nm.SurfaceC? || nm.SurfaceMaterialId?
  }

  predicate IsLightName(nm: UniformName) {
    nm.LightPosition? || nm.LightIntensity? || nm.LightFalloff? || nm.LightEnabled?
  }

  /** The names a loop can write: for materials, only the three looked-up
      fields of slots that hold a material. */
  predicate SectionName(sd: SceneData, sec: Section, nm: UniformName) {
    match sec
    case SurfaceSlots => IsSurfaceName(nm)
    case MaterialSlots =>
      (nm.MaterialDiffuse? || nm.MaterialSpecular? || nm.MaterialEmissive?)
      && nm.slot < |sd.materials|
    case LightSlots => IsLightName(nm)
  }

  /** A name written by iteration `j` of a loop: a name of that loop, for slot `j`. */
  predicate WrittenBy(sd: SceneData, sec: Section, j: nat, nm: UniformName) {
    SectionName(sd, sec, nm) && !nm.CameraPosition? && !nm.CameraRayDirMatrix? && !nm.Time?
    && nm.slot == j
  }

  lemma SurfaceUploadsTargets(d: Surfaces.SurfaceData, j: nat, nm: UniformName)
    requires nm in Targets(Surfaces.UploadsOf(d, Surfaces.AllLocations(j)))
    ensures IsSurfaceName(nm) && nm.slot == j
  {
    TargetsAre(Surfaces.UploadsOf(d, Surfaces.AllLocations(j)), nm);
  }

  lemma LightUploadsTargets(sd: SceneData, j: nat, nm: UniformName)
    requires j < |sd.lights|
    requires nm in Targets([Upload(Named(LightEnabled(j)), IntValue(1))]
                           + PointLights.Uploads(sd.lights[j], PointLights.AllLocations(j)))
    ensures IsLightName(nm) && nm.slot == j
  {
    var first := [Upload(Named(LightEnabled(j)), IntValue(1))];
    var rest := PointLights.Uploads(sd.lights[j], PointLights.AllLocations(j));
    TargetsAppend(first, rest);
    TargetsAre(first, nm);
    TargetsAre(rest, nm);
  }

  lemma SlotTargets(sd: SceneData, sec: Section, j: nat, nm: UniformName)
    requires Introspected(sd) && j < SlotCount(sd, sec)
    requires nm in Targets(Slot(sd, sec, j).uploads)
    ensures WrittenBy(sd, sec, j, nm)
  {
    var us := Slot(sd, sec, j).uploads;
    match sec
    case SurfaceSlots =>
      if j < |sd.surfaces| {
        assert sd.surfaceLocations[j] == Surfaces.AllLocations(j);
        SurfaceUploadsTargets(sd.surfaces[j], j, nm);
      } else {
        assert us == [Upload(Named(SurfaceMaterialId(j)), IntValue(-1))];
        TargetsAre(us, nm);
      }
    case MaterialSlots =>
      assert j < |sd.materials|;
      assert us == Materials.Uploads(sd.materials[j], SceneMaterialLocations(j));
      Materials.UploadsTargets(sd.materials[j], SceneMaterialLocations(j), nm);
    case LightSlots =>
      if j < |sd.lights| {
        assert sd.lightLocations[j] == PointLights.AllLocations(j);
        LightUploadsTargets(sd, j, nm);
      } else {
        assert us == [Upload(Named(LightEnabled(j)), IntValue(0))];
        TargetsAre(us, nm);
      }
  }

  lemma SlotTargetsInSection(sd: SceneData, sec: Section, j: nat)
    requires Introspected(sd) && j < SlotCount(sd, sec)
    ensures forall nm :: nm in Targets(Slot(sd, sec, j).uploads) ==> SectionName(sd, sec, nm)
  {
    forall nm | nm in Targets(Slot(sd, sec, j).uploads) ensures SectionName(sd, sec, nm) {
      SlotTargets(sd, sec, j, nm);
    }
  }

  lemma {:induction false} PrefixTargets(sd: SceneData, sec: Section, n: nat)
    requires Introspected(sd) && n <= SlotCount(sd, sec)
    ensures forall nm :: nm in Targets(Prefix(sd, sec, n).uploads) ==> SectionName(sd, sec, nm)
    decreases n
  {
    if n > 0 {
      PrefixTargets(sd, sec, n - 1);
      var p, s := Prefix(sd, sec, n - 1), Slot(sd, sec, n - 1);
      if p.outcome.Pass? {
        TargetsAppend(p.uploads, s.uploads);
        SlotTargetsInSection(sd, sec, n - 1);
      }
    }
  }

  /** The store after the first `n` iterations of a loop, one slot at a time. */
  function Run(store: Store, sd: SceneData, sec: Section, n: nat): Store
    decreases n
  {
    if n == 0 then store else Apply(Run(store, sd, sec, n - 1), Slot(sd, sec, n - 1).uploads)
  }

  /** Running the iterations one by one is applying their calls at once. */
  lemma {:induction false} RunIsPrefix(store: Store, sd: SceneData, sec: Section, n: nat)
    requires Prefix(sd, sec, n).outcome == Pass
    ensures Run(store, sd, sec, n) == Apply(store, Prefix(sd, sec, n).uploads)
    decreases n
  {
    if n > 0 {
      RunIsPrefix(store, sd, sec, n - 1);
      ApplyAppend(store, Prefix(sd, sec, n - 1).uploads, Slot(sd, sec, n - 1).uploads);
    }
  }

  ghost predicate SurfaceStored(st: Store, sd: SceneData, i: nat) {
    if i < |sd.surfaces| then Surfaces.ReadSurface(st, i) == Some(sd.surfaces[i])
    else SurfaceMaterialId(i) in st && st[SurfaceMaterialId(i)] == IntValue(-1)
  }

  /** The looked-up material fields hold the material, specular carrying shininess. */
  ghost predicate MaterialStored(st: Store, sd: SceneData, i: nat)
    requires i < |sd.materials|
  {
    var m := sd.materials[i];
    MaterialDiffuse(i) in st && st[MaterialDiffuse(i)] == Vec3Value(m.diffuse)
    && MaterialSpecular(i) in st
    && st[MaterialSpecular(i)] == Vec4Value(Vec4(m.specular.x, m.specular.y, m.specular.z, m.shininess))
    && MaterialEmissive(i) in st && st[MaterialEmissive(i)] == Vec3Value(m.emissive)
  }

  ghost predicate LightStored(st: Store, sd: SceneData, i: nat) {
    LightEnabled(i) in st
    && if i < |sd.lights| then
         st[LightEnabled(i)] == IntValue(1) && PointLights.ReadPointLight(st, i) == Some(sd.lights[i])
       else st[LightEnabled(i)] == IntValue(0)
  }

  lemma SurfaceStoredKept(st: Store, us: seq<Upload>, sd: SceneData, i: nat)
    requires SurfaceStored(st, sd, i)
    requires forall nm :: nm in Targets(us) ==> !IsSurfaceName(nm) || nm.slot != i
    ensures SurfaceStored(Apply(st, us), sd, i)
  {
    ApplyElsewhere(st, us, SurfaceMaterialId(i));
    ApplyElsewhere(st, us, SurfaceQ(i));
    ApplyElsewhere(st, us, SurfaceC(i));
  }

  lemma MaterialStoredKept(st: Store, us: seq<Upload>, sd: SceneData, i: nat)
    requires i < |sd.materials| && MaterialStored(st, sd, i)
    requires MaterialDiffuse(i) !in Targets(us) && MaterialSpecular(i) !in Targets(us)
    requires MaterialEmissive(i) !in Targets(us)
    ensures MaterialStored(Apply(st, us), sd, i)
  {
    ApplyElsewhere(st, us, MaterialDiffuse(i));
    ApplyElsewhere(st, us, MaterialSpecular(i));
    ApplyElsewhere(st, us, MaterialEmissive(i));
  }

  lemma LightStoredKept(st: Store, us: seq<Upload>, sd: SceneData, i: nat)
    requires LightStored(st, sd, i)
    requires forall nm :: nm in Targets(us) ==> !IsLightName(nm) || nm.slot != i
    ensures LightStored(Apply(st, us), sd, i)
  {
    ApplyElsewhere(st, us, LightEnabled(i));
    ApplyElsewhere(st, us, LightPosition(i));
    ApplyElsewhere(st, us, LightIntensity(i));
    ApplyElsewhere(st, us, LightFalloff(i));
  }

  /** Slot `i` of a successful surface loop: a real surface reads back as
      itself, an empty slot has material id -1. */
  lemma {:induction false} SurfaceLoopStores(sd: SceneData, n: nat, store: Store, i: nat)
    requires Introspected(sd) && i < n <= sd.maxSurfaces
    requires Prefix(sd, SurfaceSlots, n).outcome == Pass
    ensures SurfaceStored(Run(store, sd, SurfaceSlots, n), sd, i)
    decreases n
  {
    var s := Slot(sd, SurfaceSlots, n - 1);
    var st := Run(store, sd, SurfaceSlots, n - 1);
    if i == n - 1 {
      if i < |sd.surfaces| {
        Surfaces.SurfaceRoundTrip(sd.surfaces[i], i, st);
      } else {
        ApplyDistinct(st, s.uploads, 0);
      }
    } else {
      SurfaceLoopStores(sd, n - 1, store, i);
      forall nm | nm in Targets(s.uploads) ensures !IsSurfaceName(nm) || nm.slot != i {
        SlotTargets(sd, SurfaceSlots, n - 1, nm);
      }
      SurfaceStoredKept(st, s.uploads, sd, i);
    }
  }

  lemma MaterialSlotStores(st: Store, sd: SceneData, i: nat)
    requires i < |sd.materials|
    ensures MaterialStored(Apply(st, Materials.Uploads(sd.materials[i], SceneMaterialLocations(i))), sd, i)
  {
    var us := Materials.Uploads(sd.materials[i], SceneMaterialLocations(i));
    ApplyDistinct(st, us, 0);
    ApplyDistinct(st, us, 1);
    ApplyDistinct(st, us, 2);
  }

  lemma OtherMaterialSlotKeeps(st: Store, sd: SceneData, j: nat, i: nat)
    requires j < |sd.materials| && i < |sd.materials| && j != i && MaterialStored(st, sd, i)
    ensures MaterialStored(Apply(st, Materials.Uploads(sd.materials[j], SceneMaterialLocations(j))), sd, i)
  {
    var m, locs := sd.materials[j], SceneMaterialLocations(j);
    Materials.UploadsTargets(m, locs, MaterialDiffuse(i));
    Materials.UploadsTargets(m, locs, MaterialSpecular(i));
    Materials.UploadsTargets(m, locs, MaterialEmissive(i));
    MaterialStoredKept(st, Materials.Uploads(m, locs), sd, i);
  }

  /** Iteration `j` of the material loop stores slot `j` and keeps every
      other stored slot. */
  lemma MaterialSlotEffect(sd: SceneData, st: Store, j: nat, i: nat)
    requires Introspected(sd) && j < sd.maxMaterials && i < |sd.materials|
    requires i != j ==> MaterialStored(st, sd, i)
    ensures MaterialStored(Apply(st, Slot(sd, MaterialSlots, j).uploads), sd, i)
  {
    var s := Slot(sd, MaterialSlots, j);
    if i == j {
      assert s.uploads == Materials.Uploads(sd.materials[i], SceneMaterialLocations(i));
      MaterialSlotStores(st, sd, i);
    } else if j < |sd.materials| {
      assert s.uploads == Materials.Uploads(sd.materials[j], SceneMaterialLocations(j));
      OtherMaterialSlotKeeps(st, sd, j, i);
    }
  }

  lemma {:induction false} MaterialLoopStores(sd: SceneData, n: nat, store: Store, i: nat)
    requires Introspected(sd) && i < n <= sd.maxMaterials && i < |sd.materials|
    ensures MaterialStored(Run(store, sd, MaterialSlots, n), sd, i)
    decreases n
  {
    var st := Run(store, sd, MaterialSlots, n - 1);
    if i != n - 1 {
      MaterialLoopStores(sd, n - 1, store, i);
    }
    MaterialSlotEffect(sd, st, n - 1, i);
  }

  /** Iteration `i` of the light loop stores slot `i`. */
  lemma LightSlotStores(sd: SceneData, st: Store, i: nat)
    requires Introspected(sd) && i < sd.maxLights
    ensures LightStored(Apply(st, Slot(sd, LightSlots, i).uploads), sd, i)
  {
    var s := Slot(sd, LightSlots, i);
    if i < |sd.lights| {
      var first := [Upload(Named(LightEnabled(i)), IntValue(1))];
      var rest := PointLights.Uploads(sd.lights[i], PointLights.AllLocations(i));
      assert s.uploads == first + rest;
      ApplyAppend(st, first, rest);
      ApplyDistinct(st, first, 0);
      PointLights.PointLightRoundTrip(sd.lights[i], i, Apply(st, first));
      ApplyElsewhere(Apply(st, first), rest, LightEnabled(i));
    } else {
      ApplyDistinct(st, s.uploads, 0);
    }
  }

  /** Iteration `j` of the light loop leaves what slot `i != j` stored. */
  lemma LightSlotKeeps(sd: SceneData, st: Store, j: nat, i: nat)
    requires Introspected(sd) && j < sd.maxLights && i != j
    requires LightStored(st, sd, i)
    ensures LightStored(Apply(st, Slot(sd, LightSlots, j).uploads), sd, i)
  {
    var us := Slot(sd, LightSlots, j).uploads;
    forall nm | nm in Targets(us) ensures !IsLightName(nm) || nm.slot != i {
      SlotTargets(sd, LightSlots, j, nm);
    }
    LightStoredKept(st, us, sd, i);
  }

  /** Slot `i` of the light loop: enabled is 1 and the light reads back for a
      real light, enabled is 0 for an empty slot. */
  lemma {:induction false} LightLoopStores(sd: SceneData, n: nat, store: Store, i: nat)
    requires Introspected(sd) && i < n <= sd.maxLights
    ensures LightStored(Run(store, sd, LightSlots, n), sd, i)
    decreases n
  {
    if i == n - 1 {
      LightSlotStores(sd, Run(store, sd, LightSlots, n - 1), i);
    } else {
      LightLoopStores(sd, n - 1, store, i);
      LightSlotKeeps(sd, Run(store, sd, LightSlots, n - 1), n - 1, i);
    }
  }

  /** A successful pass is the three loops' calls, one after another. */
  lemma PassSections(sd: SceneData)
    requires Introspected(sd) && WithinCapacity(sd) && AllMaterialIdsValid(sd)
    ensures FullPass(sd).outcome == Pass
    ensures Prefix(sd, SurfaceSlots, sd.maxSurfaces).outcome == Pass
    ensures FullPass(sd).uploads ==
      (Prefix(sd, SurfaceSlots, sd.maxSurfaces).uploads + Prefix(sd, MaterialSlots, sd.maxMaterials).uploads)
      + Prefix(sd, LightSlots, sd.maxLights).uploads
  {
    PassSucceedsIff(sd);
    SurfaceLoopPasses(sd, sd.maxSurfaces);
    OtherLoopsPass(sd, MaterialSlots, sd.maxMaterials);
  }

  /** The store after a successful pass: the three loops run one after another. */
  lemma PassStore(sd: SceneData, store: Store)
    requires Introspected(sd) && WithinCapacity(sd) && AllMaterialIdsValid(sd)
    ensures Apply(store, FullPass(sd).uploads) ==
      Run(Run(Run(store, sd, SurfaceSlots, sd.maxSurfaces), sd, MaterialSlots, sd.maxMaterials),
          sd, LightSlots, sd.maxLights)
  {
    PassSections(sd);
    var s := Prefix(sd, SurfaceSlots, sd.maxSurfaces).uploads;
    var m := Prefix(sd, MaterialSlots, sd.maxMaterials).uploads;
    var l := Prefix(sd, LightSlots, sd.maxLights).uploads;
    ApplyAppend(store, s + m, l);
    ApplyAppend(store, s, m);
    RunIsPrefix(store, sd, SurfaceSlots, sd.maxSurfaces);
    OtherLoopsPass(sd, MaterialSlots, sd.maxMaterials);
    RunIsPrefix(Apply(store, s), sd, MaterialSlots, sd.maxMaterials);
    OtherLoopsPass(sd, LightSlots, sd.maxLights);
    RunIsPrefix(Apply(Apply(store, s), m), sd, LightSlots, sd.maxLights);
  }

  /** An iteration of the material or light loop leaves a stored surface slot alone. */
  lemma SurfaceSlotKeeps(sd: SceneData, st: Store, sec: Section, j: nat, i: nat)
    requires Introspected(sd) && sec != SurfaceSlots && j < SlotCount(sd, sec)
    requires SurfaceStored(st, sd, i)
    ensures SurfaceStored(Apply(st, Slot(sd, sec, j).uploads), sd, i)
  {
    var us := Slot(sd, sec, j).uploads;
    forall nm | nm in Targets(us) ensures !IsSurfaceName(nm) || nm.slot != i {
      SlotTargets(sd, sec, j, nm);
    }
    SurfaceStoredKept(st, us, sd, i);
  }

  /** An iteration of the light loop leaves a stored material slot alone. */
  lemma MaterialSlotKeepsAcrossLights(sd: SceneData, st: Store, j: nat, i: nat)
    requires Introspected(sd) && j < sd.maxLights && i < |sd.materials|
    requires MaterialStored(st, sd, i)
    ensures MaterialStored(Apply(st, Slot(sd, LightSlots, j).uploads), sd, i)
  {
    var us := Slot(sd, LightSlots, j).uploads;
    if MaterialDiffuse(i) in Targets(us) { SlotTargets(sd, LightSlots, j, MaterialDiffuse(i)); }
    if MaterialSpecular(i) in Targets(us) { SlotTargets(sd, LightSlots, j, MaterialSpecular(i)); }
    if MaterialEmissive(i) in Targets(us) { SlotTargets(sd, LightSlots, j, MaterialEmissive(i)); }
    MaterialStoredKept(st, us, sd, i);
  }

  /** The material and light loops leave a stored surface slot alone. */
  lemma {:induction false} SurfaceRunKept(st: Store, sd: SceneData, sec: Section, n: nat, i: nat)
    requires Introspected(sd) && sec != SurfaceSlots && n <= SlotCount(sd, sec)
    requires SurfaceStored(st, sd, i)
    ensures SurfaceStored(Run(st, sd, sec, n), sd, i)
    decreases n
  {
    if n > 0 {
      SurfaceRunKept(st, sd, sec, n - 1, i);
      SurfaceSlotKeeps(sd, Run(st, sd, sec, n - 1), sec, n - 1, i);
    }
  }

  /** The light loop leaves a stored material slot alone. */
  lemma {:induction false} MaterialRunKept(st: Store, sd: SceneData, n: nat, i: nat)
    requires Introspected(sd) && n <= sd.maxLights && i < |sd.materials|
    requires MaterialStored(st, sd, i)
    ensures MaterialStored(Run(st, sd, LightSlots, n), sd, i)
    decreases n
  {
    if n > 0 {
      MaterialRunKept(st, sd, n - 1, i);
      MaterialSlotKeepsAcrossLights(sd, Run(st, sd, LightSlots, n - 1), n - 1, i);
    }
  }

  /** After a successful pass every surface slot holds the scene's surface, or
      material id -1 when it is empty. */
  lemma PassStoresSurfaces(sd: SceneData, store: Store, i: nat)
    requires Introspected(sd) && WithinCapacity(sd) && AllMaterialIdsValid(sd)
    requires i < sd.maxSurfaces
    ensures SurfaceStored(Apply(store, FullPass(sd).uploads), sd, i)
  {
    PassStore(sd, store);
    PassSections(sd);
    var s1 := Run(store, sd, SurfaceSlots, sd.maxSurfaces);
    SurfaceLoopStores(sd, sd.maxSurfaces, store, i);
    SurfaceRunKept(s1, sd, MaterialSlots, sd.maxMaterials, i);
    SurfaceRunKept(Run(s1, sd, MaterialSlots, sd.maxMaterials), sd, LightSlots, sd.maxLights, i);
  }

  /** After a successful pass every occupied material slot holds its diffuse,
      specular-with-shininess and emissive values. */
  lemma PassStoresMaterials(sd: SceneData, store: Store, i: nat)
    requires Introspected(sd) && WithinCapacity(sd) && AllMaterialIdsValid(sd)
    requires i < |sd.materials|
    ensures MaterialStored(Apply(store, FullPass(sd).uploads), sd, i)
  {
    PassStore(sd, store);
    var s1 := Run(store, sd, SurfaceSlots, sd.maxSurfaces);
    MaterialLoopStores(sd, sd.maxMaterials, s1, i);
    MaterialRunKept(Run(s1, sd, MaterialSlots, sd.maxMaterials), sd, sd.maxLights, i);
  }

  /** After a successful pass light slot i has enabled = 1 and the light's data
      when the scene holds a light there, and enabled = 0 otherwise. */
  lemma PassStoresLights(sd: SceneData, store: Store, i: nat)
    requires Introspected(sd) && WithinCapacity(sd) && AllMaterialIdsValid(sd)
    requires i < sd.maxLights
    ensures LightStored(Apply(store, FullPass(sd).uploads), sd, i)
  {
    PassStore(sd, store);
    var s2 := Run(Run(store, sd, SurfaceSlots, sd.maxSurfaces), sd, MaterialSlots, sd.maxMaterials);
    LightLoopStores(sd, sd.maxLights, s2, i);
  }

  /** Every name a successful pass writes belongs to one of the three loops. */
  lemma PassTargets(sd: SceneData, nm: UniformName)
    requires Introspected(sd) && WithinCapacity(sd) && AllMaterialIdsValid(sd)
    requires nm in Targets(FullPass(sd).uploads)
    ensures IsSurfaceName(nm) || IsLightName(nm) || SectionName(sd, MaterialSlots, nm)
  {
    PassSections(sd);
    var s := Prefix(sd, SurfaceSlots, sd.maxSurfaces).uploads;
    var m := Prefix(sd, MaterialSlots, sd.maxMaterials).uploads;
    var l := Prefix(sd, LightSlots, sd.maxLights).uploads;
    TargetsAppend(s + m, l);
    TargetsAppend(s, m);
    if nm in Targets(s) {
      PrefixTargets(sd, SurfaceSlots, sd.maxSurfaces);
    } else if nm in Targets(m) {
      PrefixTargets(sd, MaterialSlots, sd.maxMaterials);
    } else {
      PrefixTargets(sd, LightSlots, sd.maxLights);
    }
  }

  /** An empty material slot gets no call at all, and no material's
      reflectivity, refractivity or ior is ever written: introspection never
      looked those locations up. */
  lemma PassSkipsMaterialFields(sd: SceneData, i: nat)
    requires Introspected(sd) && WithinCapacity(sd) && AllMaterialIdsValid(sd)
    ensures i >= |sd.materials| ==>
      MaterialDiffuse(i) !in Targets(FullPass(sd).uploads)
      && MaterialSpecular(i) !in Targets(FullPass(sd).uploads)
      && MaterialEmissive(i) !in Targets(FullPass(sd).uploads)
    ensures MaterialReflectivity(i) !in Targets(FullPass(sd).uploads)
    ensures MaterialRefractivity(i) !in Targets(FullPass(sd).uploads)
    ensures MaterialIor(i) !in Targets(FullPass(sd).uploads)
  {
    var targets := Targets(FullPass(sd).uploads);
    if MaterialReflectivity(i) in targets { PassTargets(sd, MaterialReflectivity(i)); }
    if MaterialRefractivity(i) in targets { PassTargets(sd, MaterialRefractivity(i)); }
    if MaterialIor(i) in targets { PassTargets(sd, MaterialIor(i)); }
    if i >= |sd.materials| {
      if MaterialDiffuse(i) in targets { PassTargets(sd, MaterialDiffuse(i)); }
      if MaterialSpecular(i) in targets { PassTargets(sd, MaterialSpecular(i)); }
      if MaterialEmissive(i) in targets { PassTargets(sd, MaterialEmissive(i)); }
    }
  }

  // ----- The registry -----

  class Scene {
    const maxSurfaceCount: nat
    const maxMaterialCount: nat
    const maxPointLightCount: nat

    var surfaceLocations: seq<Surfaces.SurfaceLocations>
    var surfaces: seq<Surfaces.Surface>
    var materialLocations: seq<Materials.MaterialLocations>
    var materials: seq<Materials.Material>
    var lightLocations: seq<PointLights.PointLightLocations>
    var pointLights: seq<PointLights.PointLight>
    var shouldApplyUniforms: bool

    /** No list ever exceeds its capacity. */
    ghost predicate Valid()
      reads this
    {
      |surfaces| <= maxSurfaceCount && |materials| <= maxMaterialCount
      && |pointLights| <= maxPointLightCount
    }

    /** The value of everything `applyUniforms` reads. */
    function Data(): (sd: SceneData)
      reads this`surfaceLocations, this`surfaces, this`materialLocations, this`materials
      reads this`lightLocations, this`pointLights
      reads (set s | s in surfaces :: s.shape), (set s | s in surfaces :: s.clip)
      ensures sd.maxSurfaces == maxSurfaceCount && sd.maxMaterials == maxMaterialCount
      ensures sd.maxLights == maxPointLightCount
      ensures sd.surfaceLocations == surfaceLocations && sd.materialLocations == materialLocations
      ensures sd.lightLocations == lightLocations
      ensures sd.materials == materials && sd.lights == pointLights
      ensures |sd.surfaces| == |surfaces|
      ensures forall i :: 0 <= i < |surfaces| ==> sd.surfaces[i] == surfaces[i].Snapshot()
    {
      SceneData(maxSurfaceCount, maxMaterialCount, maxPointLightCount,
                surfaceLocations, Snapshots(surfaces), materialLocations, materials,
                lightLocations, pointLights)
    }

    constructor (maxSurfaceCount: nat, maxMaterialCount: nat, maxPointLightCount: nat)
      ensures this.maxSurfaceCount == maxSurfaceCount && this.maxMaterialCount == maxMaterialCount
      ensures this.maxPointLightCount == maxPointLightCount
      ensures surfaceLocations == [] && surfaces == [] && materialLocations == [] && materials == []
      ensures lightLocations == [] && pointLights == []
      ensures shouldApplyUniforms && Valid()
    {
      this.maxSurfaceCount := maxSurfaceCount;
      this.maxMaterialCount := maxMaterialCount;
      this.maxPointLightCount := maxPointLightCount;
      surfaceLocations, surfaces := [], [];
      materialLocations, materials := [], [];
      lightLocations, pointLights := [], [];
      shouldApplyUniforms := true;
    }

    /** `introspectPathtracer`: one location record per slot of each capacity,
        however many slots are occupied; sets the flag. */
    method IntrospectPathtracer()
      modifies this`surfaceLocations, this`materialLocations, this`lightLocations
      modifies this`shouldApplyUniforms
      ensures SurfaceLocationsResolved(surfaceLocations, maxSurfaceCount)
      ensures MaterialLocationsResolved(materialLocations, maxMaterialCount)
      ensures LightLocationsResolved(lightLocations, maxPointLightCount)
      ensures shouldApplyUniforms
    {
      surfaceLocations := [];
      materialLocations := [];
      lightLocations := [];
      var i := 0;
      while i < maxSurfaceCount
        invariant i <= maxSurfaceCount
        invariant SurfaceLocationsResolved(surfaceLocations, i)
        invariant materialLocations == [] && lightLocations == []
      {
        surfaceLocations := surfaceLocations + [Surfaces.AllLocations(i)];
        i := i + 1;
      }
      i := 0;
      while i < maxMaterialCount
        invariant i <= maxMaterialCount
        invariant MaterialLocationsResolved(materialLocations, i)
        invariant SurfaceLocationsResolved(surfaceLocations, maxSurfaceCount)
        invariant lightLocations == []
      {
        materialLocations := materialLocations + [SceneMaterialLocations(i)];
        i := i + 1;
      }
      i := 0;
      while i < maxPointLightCount
        invariant i <= maxPointLightCount
        invariant LightLocationsResolved(lightLocations, i)
        invariant SurfaceLocationsResolved(surfaceLocations, maxSurfaceCount)
        invariant MaterialLocationsResolved(materialLocations, maxMaterialCount)
      {
        lightLocations := lightLocations + [PointLights.AllLocations(i)];
        i := i + 1;
      }
      shouldApplyUniforms := true;
    }

    /** `addSurface(...args)`: appends in order, throwing when the list is
        already full; the arguments before the throw stay appended, and only a
        complete call sets the flag. */
    method AddSurface(args: seq<Surfaces.Surface>) returns (r: Outcome<SceneError>)
      requires Valid()
      modifies this`surfaces, this`shouldApplyUniforms
      ensures Valid()
      ensures |old(surfaces)| + |args| <= maxSurfaceCount ==>
        r == Pass && surfaces == old(surfaces) + args && shouldApplyUniforms
      ensures |old(surfaces)| + |args| > maxSurfaceCount ==>
        r == Fail(TooManySurfaces(maxSurfaceCount))
        && surfaces == old(surfaces) + args[..maxSurfaceCount - |old(surfaces)|]
        && shouldApplyUniforms == old(shouldApplyUniforms)
    {
      var k := 0;
      while k < |args|
        invariant k <= |args| && |old(surfaces)| + k <= maxSurfaceCount
        invariant surfaces == old(surfaces) + args[..k]
        invariant shouldApplyUniforms == old(shouldApplyUniforms)
      {
        if |surfaces| >= maxSurfaceCount {
          return Fail(TooManySurfaces(maxSurfaceCount));
        }
        surfaces := surfaces + [args[k]];
        k := k + 1;
      }
      assert args[..k] == args;
      shouldApplyUniforms := true;
      r := Pass;
    }

    /** `addMaterial(...args)`, with the same partial-append behaviour. */
    method AddMaterial(args: seq<Materials.Material>) returns (r: Outcome<SceneError>)
      requires Valid()
      modifies this`materials, this`shouldApplyUniforms
      ensures Valid()
      ensures |old(materials)| + |args| <= maxMaterialCount ==>
        r == Pass && materials == old(materials) + args && shouldApplyUniforms
      ensures |old(materials)| + |args| > maxMaterialCount ==>
        r == Fail(TooManyMaterials(maxMaterialCount))
        && materials == old(materials) + args[..maxMaterialCount - |old(materials)|]
        && shouldApplyUniforms == old(shouldApplyUniforms)
    {
      var k := 0;
      while k < |args|
        invariant k <= |args| && |old(materials)| + k <= maxMaterialCount
        invariant materials == old(materials) + args[..k]
        invariant shouldApplyUniforms == old(shouldApplyUniforms)
      {
        if |materials| >= maxMaterialCount {
          return Fail(TooManyMaterials(maxMaterialCount));
        }
        materials := materials + [args[k]];
        k := k + 1;
      }
      assert args[..k] == args;
      shouldApplyUniforms := true;
      r := Pass;
    }

    /** `addPointLight(...args)`, with the same partial-append behaviour. */
    method AddPointLight(args: seq<PointLights.PointLight>) returns (r: Outcome<SceneError>)
      requires Valid()
      modifies this`pointLights, this`shouldApplyUniforms
      ensures Valid()
      ensures |old(pointLights)| + |args| <= maxPointLightCount ==>
        r == Pass && pointLights == old(pointLights) + args && shouldApplyUniforms
      ensures |old(pointLights)| + |args| > maxPointLightCount ==>
        r == Fail(TooManyPointLights(maxPointLightCount))
        && pointLights == old(pointLights) + args[..maxPointLightCount - |old(pointLights)|]
        && shouldApplyUniforms == old(shouldApplyUniforms)
    {
      var k := 0;
      while k < |args|
        invariant k <= |args| && |old(pointLights)| + k <= maxPointLightCount
        invariant pointLights == old(pointLights) + args[..k]
        invariant shouldApplyUniforms == old(shouldApplyUniforms)
      {
        if |pointLights| >= maxPointLightCount {
          return Fail(TooManyPointLights(maxPointLightCount));
        }
        pointLights := pointLights + [args[k]];
        k := k + 1;
      }
      assert args[..k] == args;
      shouldApplyUniforms := true;
      r := Pass;
    }

    /** `applyUniforms`: nothing while the flag is clear; otherwise the calls
        of `FullPass`, clearing the flag only when the pass completes. */
    method ApplyUniforms() returns (r: Outcome<SceneError>, uploads: seq<Upload>)
      modifies this`shouldApplyUniforms
      ensures !old(shouldApplyUniforms) ==> r == Pass && uploads == [] && !shouldApplyUniforms
      ensures old(shouldApplyUniforms) ==>
        Emission(r, uploads) == FullPass(old(Data())) && shouldApplyUniforms == r.Fail?
      ensures Data() == old(Data())
    {
      r, uploads := Pass, [];
      if !shouldApplyUniforms {
        return;
      }
      ghost var sd := Data();
      var e := SurfaceUniforms();
      if e.outcome.Pass? {
        var m := MaterialUniforms();
        e := Then(e, m);
        if e.outcome.Pass? {
          var l := LightUniforms();
          e := Then(e, l);
        }
      }
      assert e == FullPass(sd);
      r, uploads := e.outcome, e.uploads;
      if r.Pass? {
        shouldApplyUniforms := false;
      }
    }

    /** The surface loop of `applyUniforms`: a surface's calls for an occupied
        slot, material id -1 for an empty one, throwing on a bad material id. */
    method SurfaceUniforms() returns (e: Emission)
      ensures e == Prefix(Data(), SurfaceSlots, maxSurfaceCount)
    {
      ghost var sd := Data();
      var uploads := [];
      var i := 0;
      while i < maxSurfaceCount
        invariant i <= maxSurfaceCount
        invariant Prefix(sd, SurfaceSlots, i) == Emission(Pass, uploads)
      {
        assert Prefix(sd, SurfaceSlots, i + 1) == Then(Prefix(sd, SurfaceSlots, i), Slot(sd, SurfaceSlots, i));
        if i < |surfaces| {
          var surf := surfaces[i];
          if surf.materialId < 0 || surf.materialId >= maxMaterialCount {
            e := Emission(Fail(InvalidMaterialId(surf.materialId)), uploads);
            FailSticks(sd, SurfaceSlots, i + 1, maxSurfaceCount);
            return;
          }
          if i >= |surfaceLocations| {
            e := Emission(Fail(LocationsNotIntrospected), uploads);
            FailSticks(sd, SurfaceSlots, i + 1, maxSurfaceCount);
            return;
          }
          assert sd.surfaces[i] == surf.Snapshot();
          uploads := uploads + surf.Uploads(surfaceLocations[i]);
        } else {
          if i >= |surfaceLocations| {
            e := Emission(Fail(LocationsNotIntrospected), uploads);
            FailSticks(sd, SurfaceSlots, i + 1, maxSurfaceCount);
            return;
          }
          uploads := uploads + [Upload(surfaceLocations[i].materialId, IntValue(-1))];
        }
        i := i + 1;
      }
      e := Emission(Pass, uploads);
    }

    /** The material loop of `applyUniforms`: calls for occupied slots only. */
    method MaterialUniforms() returns (e: Emission)
      ensures e == Prefix(Data(), MaterialSlots, maxMaterialCount)
    {
      ghost var sd := Data();
      var uploads := [];
      var i := 0;
      while i < maxMaterialCount
        invariant i <= maxMaterialCount
        invariant Prefix(sd, MaterialSlots, i) == Emission(Pass, uploads)
      {
        if i < |materials| {
          if i >= |materialLocations| {
            e := Emission(Fail(LocationsNotIntrospected), uploads);
            FailSticks(sd, MaterialSlots, i + 1, maxMaterialCount);
            return;
          }
          uploads := uploads + Materials.Uploads(materials[i], materialLocations[i]);
        }
        i := i + 1;
      }
      e := Emission(Pass, uploads);
    }

    /** The light loop of `applyUniforms`: enabled = 1 and the light's calls for
        an occupied slot, enabled = 0 for an empty one. */
    method LightUniforms() returns (e: Emission)
      ensures e == Prefix(Data(), LightSlots, maxPointLightCount)
    {
      ghost var sd := Data();
      var uploads := [];
      var i := 0;
      while i < maxPointLightCount
        invariant i <= maxPointLightCount
        invariant Prefix(sd, LightSlots, i) == Emission(Pass, uploads)
      {
        if i >= |lightLocations| {
          e := Emission(Fail(LocationsNotIntrospected), uploads);
          FailSticks(sd, LightSlots, i + 1, maxPointLightCount);
          return;
        }
        if i < |pointLights| {
          uploads := uploads + [Upload(lightLocations[i].enabled, IntValue(1))];
          uploads := uploads + PointLights.Uploads(pointLights[i], lightLocations[i]);
        } else {
          uploads := uploads + [Upload(lightLocations[i].enabled, IntValue(0))];
        }
        i := i + 1;
      }
      e := Emission(Pass, uploads);
    }
  }

  function Snapshots(ss: seq<Surfaces.Surface>): (ds: seq<Surfaces.SurfaceData>)
    reads (set s | s in ss :: s.shape), (set s | s in ss :: s.clip)
    ensures |ds| == |ss|
    ensures forall i :: 0 <= i < |ss| ==> ds[i] == ss[i].Snapshot()
  {
    if ss == [] then [] else [ss[0].Snapshot()] + Snapshots(ss[1..])
  }
}
