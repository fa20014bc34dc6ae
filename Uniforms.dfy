/**
 * The uniform interface between the CPU-side objects and the pathtracing
 * program. A uniform call (`gl.uniform1i`, `uniform3f`, `uniformMatrix4fv`, …)
 * is an `Upload`; the values the program would then read are a `Store`.
 * `gl.getUniformLocation` handles are modelled by the name they were looked
 * up with; `Missing` is a location the caller never looked up (an
 * `undefined` field), for which WebGL ignores the call.
 */
module Uniforms {
  import opened LinearAlgebra

  datatype UniformName =
    | SurfaceQ(slot: nat)
    | SurfaceC(slot: nat)
    | SurfaceMaterialId(slot: nat)
    | MaterialDiffuse(slot: nat)
    | MaterialSpecular(slot: nat)
    | MaterialEmissive(slot: nat)
    | MaterialReflectivity(slot: nat)
    | MaterialRefractivity(slot: nat)
    | MaterialIor(slot: nat)
    | LightPosition(slot: nat)
    | LightIntensity(slot: nat)
    | LightFalloff(slot: nat)
    | LightEnabled(slot: nat)
    | CameraPosition
    | CameraRayDirMatrix
    | Time

  datatype Location = Named(name: UniformName) | Missing

  /** The value of one call; the constructor says which `gl.uniform*` it was. */
  datatype Value =
    | IntValue(i: int)          // uniform1i
    | FloatValue(f: real)       // uniform1f
    | Vec3Value(v3: Vec3)       // uniform3f
    | Vec4Value(v4: Vec4)       // uniform4f, uniform4fv
    | MatrixValue(m: Mat4)      // uniformMatrix4fv, not transposed

  datatype Upload = Upload(location: Location, value: Value)

  type Store = map<UniformName, Value>

  function Write(store: Store, u: Upload): Store {
    match u.location
    case Missing => store
    case Named(n) => store[n := u.value]
  }

  /** The store after the calls `us`, issued in order. */
  function Apply(store: Store, us: seq<Upload>): Store
    decreases |us|
  {
    if us == [] then store else Apply(Write(store, us[0]), us[1..])
  }

  /** The names the calls `us` write. */
  function Targets(us: seq<Upload>): set<UniformName>
    decreases |us|
  {
    if us == [] then {}
    else (if us[0].location.Named? then {us[0].location.name} else {}) + Targets(us[1..])
  }

  lemma {:induction false} ApplyAppend(store: Store, a: seq<Upload>, b: seq<Upload>)
    ensures Apply(store, a + b) == Apply(Apply(store, a), b)
    decreases |a|
  {
    if a == [] {
      assert a + b == b;
    } else {
      assert (a + b)[0] == a[0];
      assert (a + b)[1..] == a[1..] + b;
      ApplyAppend(Write(store, a[0]), a[1..], b);
    }
  }

  lemma {:induction false} TargetsAppend(a: seq<Upload>, b: seq<Upload>)
    ensures Targets(a + b) == Targets(a) + Targets(b)
    decreases |a|
  {
    if a == [] {
      assert a + b == b;
    } else {
      assert (a + b)[0] == a[0];
      assert (a + b)[1..] == a[1..] + b;
      TargetsAppend(a[1..], b);
    }
  }

  /** A name no call writes keeps its value (or stays unset). */
  lemma {:induction false} ApplyElsewhere(store: Store, us: seq<Upload>, n: UniformName)
    requires n !in Targets(us)
    ensures n in Apply(store, us) <==> n in store
    ensures n in store ==> Apply(store, us)[n] == store[n]
    decreases |us|
  {
    if us != [] {
      ApplyElsewhere(Write(store, us[0]), us[1..], n);
    }
  }

  /** The value a name holds after the calls: the last value written to it wins. */
  lemma {:induction false} ApplyLastWrite(store: Store, us: seq<Upload>, i: nat)
    requires i < |us| && us[i].location.Named?
    requires us[i].location.name !in Targets(us[i + 1..])
    ensures us[i].location.name in Apply(store, us)
    ensures Apply(store, us)[us[i].location.name] == us[i].value
    decreases |us|
  {
    var n := us[i].location.name;
    if i == 0 {
      assert us[1..] == us[i + 1..];
      ApplyElsewhere(Write(store, us[0]), us[1..], n);
    } else {
      assert us[1..][i - 1] == us[i];
      assert us[1..][i - 1 + 1..] == us[i + 1..];
      ApplyLastWrite(Write(store, us[0]), us[1..], i - 1);
    }
  }

  lemma {:induction false} TargetsAre(us: seq<Upload>, n: UniformName)
    ensures n in Targets(us) <==> exists j :: 0 <= j < |us| && us[j].location == Named(n)
    decreases |us|
  {
    if us != [] {
      TargetsAre(us[1..], n);
      if exists j :: 0 <= j < |us[1..]| && us[1..][j].location == Named(n) {
        var j :| 0 <= j < |us[1..]| && us[1..][j].location == Named(n);
        assert us[j + 1].location == Named(n);
      }
      if exists j :: 0 <= j < |us| && us[j].location == Named(n) {
        var j :| 0 <= j < |us| && us[j].location == Named(n);
        if j > 0 {
          assert us[1..][j - 1].location == Named(n);
        }
      }
    }
  }

  /** Calls to pairwise different locations each leave their own value behind. */
  lemma ApplyDistinct(store: Store, us: seq<Upload>, i: nat)
    requires i < |us| && us[i].location.Named?
    requires forall j :: i < j < |us| ==> us[j].location != us[i].location
    ensures us[i].location.name in Apply(store, us)
    ensures Apply(store, us)[us[i].location.name] == us[i].value
  {
    var n := us[i].location.name;
    var rest := us[i + 1..];
    forall j | 0 <= j < |rest| ensures rest[j].location != Named(n) {
      assert rest[j] == us[i + 1 + j];
    }
    TargetsAre(rest, n);
    ApplyLastWrite(store, us, i);
  }
}
