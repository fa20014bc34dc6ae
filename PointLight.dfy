/** Point lights (source/PointLight.ts): immutable values and their three uniform calls. */
module PointLights {
  import opened LinearAlgebra
  import opened Uniforms
  import opened Outcomes

  datatype PointLight = PointLight(position: Vec3, intensity: Vec3, falloff: Vec3)

  datatype PointLightLocations = PointLightLocations(
    position: Location, intensity: Location, falloff: Location, enabled: Location)

  function AllLocations(slot: nat): PointLightLocations {
    PointLightLocations(Named(LightPosition(slot)), Named(LightIntensity(slot)),
                        Named(LightFalloff(slot)), Named(LightEnabled(slot)))
  }

  /** `applyUniforms`: position, intensity and falloff, in this order; the
      `enabled` location is left to the scene. */
  function Uploads(l: PointLight, locs: PointLightLocations): (us: seq<Upload>)
    ensures |us| == 3
    ensures us[0].location == locs.position && us[1].location == locs.intensity
    ensures us[2].location == locs.falloff
    ensures forall u :: u in us ==> u.value.Vec3Value?
  {
    [Upload(locs.position, Vec3Value(l.position)),
     Upload(locs.intensity, Vec3Value(l.intensity)),
     Upload(locs.falloff, Vec3Value(l.falloff))]
  }

  function ReadPointLight(store: Store, slot: nat): Option<PointLight> {
    var p, i, f := LightPosition(slot), LightIntensity(slot), LightFalloff(slot);
    if p in store && store[p].Vec3Value? && i in store && store[i].Vec3Value?
       && f in store && store[f].Vec3Value?
    then Some(PointLight(store[p].v3, store[i].v3, store[f].v3))
    else None
  }

  /** Each call passes components 0, 1, 2 unchanged: the light reads back intact,
      and its `enabled` flag is not touched. */
  lemma PointLightRoundTrip(l: PointLight, slot: nat, store: Store)
    ensures ReadPointLight(Apply(store, Uploads(l, AllLocations(slot))), slot) == Some(l)
    ensures LightEnabled(slot) !in Targets(Uploads(l, AllLocations(slot)))
  {
    var us := Uploads(l, AllLocations(slot));
    forall i | 0 <= i < 3
      ensures us[i].location.name in Apply(store, us)
      ensures Apply(store, us)[us[i].location.name] == us[i].value
    {
      ApplyDistinct(store, us, i);
    }
    TargetsAre(us, LightEnabled(slot));
  }
}
