/** Materials (source/Material.ts): immutable values and their six uniform calls. */
module Materials {
  import opened LinearAlgebra
  import opened Uniforms
  import opened Outcomes

  /** The constructor's defaults are the source's: black specular and emission,
      shininess 1, no reflection or refraction, index of refraction 1. */
  datatype Material = Material(
    diffuse: Vec3,
    specular: Vec3 := Vec3(0.0, 0.0, 0.0),
    shininess: real := 1.0,
    emissive: Vec3 := Vec3(0.0, 0.0, 0.0),
    reflectivity: Vec4 := Vec4(0.0, 0.0, 0.0, 0.0),
    refractivity: Vec4 := Vec4(0.0, 0.0, 0.0, 0.0),
    ior: real := 1.0)

  datatype MaterialLocations = MaterialLocations(
    diffuse: Location, specular: Location, emissive: Location,
    reflectivity: Location, refractivity: Location, ior: Location)

  /** Every field of slot `slot` looked up by name. */
  function AllLocations(slot: nat): MaterialLocations {
    MaterialLocations(
      Named(MaterialDiffuse(slot)), Named(MaterialSpecular(slot)), Named(MaterialEmissive(slot)),
      Named(MaterialReflectivity(slot)), Named(MaterialRefractivity(slot)), Named(MaterialIor(slot)))
  }

  /** `applyUniforms`: diffuse, specular with shininess as its 4th component,
      emissive, reflectivity, refractivity, ior, in this order. */
  function Uploads(m: Material, locs: MaterialLocations): (us: seq<Upload>)
    ensures |us| == 6
    ensures us[0].location == locs.diffuse && us[1].location == locs.specular
    ensures us[2].location == locs.emissive && us[3].location == locs.reflectivity
    ensures us[4].location == locs.refractivity && us[5].location == locs.ior
    ensures us[1].value.Vec4Value? && us[1].value.v4.w == m.shininess
  {
    [Upload(locs.diffuse, Vec3Value(m.diffuse)),
     Upload(locs.specular, Vec4Value(Vec4(m.specular.x, m.specular.y, m.specular.z, m.shininess))),
     Upload(locs.emissive, Vec3Value(m.emissive)),
     Upload(locs.reflectivity, Vec4Value(m.reflectivity)),
     Upload(locs.refractivity, Vec4Value(m.refractivity)),
     Upload(locs.ior, FloatValue(m.ior))]
  }

  /** The material the program reads back from slot `slot`, if every field is set. */
  function ReadMaterial(store: Store, slot: nat): Option<Material> {
    var d, s, e := MaterialDiffuse(slot), MaterialSpecular(slot), MaterialEmissive(slot);
    var rl, rr, i := MaterialReflectivity(slot), MaterialRefractivity(slot), MaterialIor(slot);
    if d in store && store[d].Vec3Value? && s in store && store[s].Vec4Value?
       && e in store && store[e].Vec3Value? && rl in store && store[rl].Vec4Value?
       && rr in store && store[rr].Vec4Value? && i in store && store[i].FloatValue?
    then
      var sp := store[s].v4;
      Some(Material(store[d].v3, Vec3(sp.x, sp.y, sp.z), sp.w, store[e].v3,
                    store[rl].v4, store[rr].v4, store[i].f))
    else None
  }

  /** The names the six calls write: those of the locations that were resolved. */
  lemma UploadsTargets(m: Material, locs: MaterialLocations, nm: UniformName)
    ensures nm in Targets(Uploads(m, locs)) <==>
      Named(nm) in [locs.diffuse, locs.specular, locs.emissive,
                    locs.reflectivity, locs.refractivity, locs.ior]
  {
    TargetsAre(Uploads(m, locs), nm);
  }

  /** What `applyUniforms` writes with every location resolved is exactly the material. */
  lemma MaterialRoundTrip(m: Material, slot: nat, store: Store)
    ensures ReadMaterial(Apply(store, Uploads(m, AllLocations(slot))), slot) == Some(m)
  {
    var us := Uploads(m, AllLocations(slot));
    forall i | 0 <= i < 6
      ensures us[i].location.name in Apply(store, us)
      ensures Apply(store, us)[us[i].location.name] == us[i].value
    {
      ApplyDistinct(store, us, i);
    }
  }
}
