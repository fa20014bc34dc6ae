/**
 * Keyboard and mouse input (source/Input.ts). Key presses set the three
 * movement axes of `fpsMovementState`; mouse drags rotate the camera; each
 * frame, `update` walks the camera along the normalised axes. What the handlers
 * ask of the host (`signalDrop`, `togglePause`, `takeScreenshot`) is returned
 * as requests; the camera and the timer are the objects the host shares.
 */
module InputHandling {
  import opened Outcomes
  import opened LinearAlgebra
  import opened Cameras
  import opened Timers

  const MovementSpeed: real := 4.0
  const MouseSensitivity: real := 0.005

  datatype HostRequest = SignalDrop | TogglePause | TakeScreenshot

  /** `fpsMovementState`: forward, up and right, each -1, 0 or 1. */
  datatype Axes = Axes(forward: int, up: int, right: int)

  function Still(): Axes { Axes(0, 0, 0) }

  ghost predicate UnitAxes(a: Axes) {
    a.forward in {-1, 0, 1} && a.up in {-1, 0, 1} && a.right in {-1, 0, 1}
  }

  /** `toLowerCase` on the characters a key name can hold here: ASCII letters
      are folded, everything else is kept. */
  function LowerChar(c: char): (r: char)
    ensures 'A' <= c <= 'Z' ==> 'a' <= r <= 'z'
    ensures !('A' <= c <= 'Z') ==> r == c
  {
    if 'A' <= c <= 'Z' then (c as int + 32) as char else c
  }

  function Lower(s: string): (r: string)
    ensures |r| == |s| && forall i :: 0 <= i < |s| ==> r[i] == LowerChar(s[i])
  {
    seq(|s|, i requires 0 <= i < |s| => LowerChar(s[i]))
  }

  /** The axes after a keydown of the (lower-cased) key `k`. */
  function KeyDown(a: Axes, k: string): Axes {
    match k
    case "w" => a.(forward := 1)
    case "s" => a.(forward := -1)
    case "d" => a.(right := 1)
    case "a" => a.(right := -1)
    case "e" => a.(up := 1)
    case "q" => a.(up := -1)
    case _ => a
  }

  /** The axes after a keyup of the (lower-cased) key `k`, and what it asks of the host. */
  function KeyUp(a: Axes, k: string): (Axes, Option<HostRequest>) {
    match k
    case "w" => (a.(forward := 0), None)
    case "s" => (a.(forward := 0), None)
    case "d" => (a.(right := 0), None)
    case "a" => (a.(right := 0), None)
    case "e" => (a.(up := 0), None)
    case "q" => (a.(up := 0), None)
    case " " => (a, Some(TogglePause))
    case "p" => (a, Some(TakeScreenshot))
    case _ => (a, None)
  }

  /** Keys keep every axis in {-1, 0, 1}; keys outside the table change nothing. */
  lemma KeysKeepUnitAxes(a: Axes, k: string)
    requires UnitAxes(a)
    ensures UnitAxes(KeyDown(a, k)) && UnitAxes(KeyUp(a, k).0)
    ensures k !in {"w", "s", "d", "a", "e", "q"} ==> KeyDown(a, k) == a && KeyUp(a, k).0 == a
  {}

  /** Releasing either key of an axis stops that axis, whatever was pressed
      before, and leaves the other two axes as they were. */
  lemma ReleaseStopsAxis(a: Axes, pressed: string, released: string)
    ensures released in {"w", "s"} ==> KeyUp(KeyDown(a, pressed), released).0 == KeyDown(a, pressed).(forward := 0)
    ensures released in {"d", "a"} ==> KeyUp(KeyDown(a, pressed), released).0 == KeyDown(a, pressed).(right := 0)
    ensures released in {"e", "q"} ==> KeyUp(KeyDown(a, pressed), released).0 == KeyDown(a, pressed).(up := 0)
  {}

  /** Key names are matched without regard to case. */
  lemma KeysIgnoreCase(a: Axes)
    ensures KeyDown(a, Lower("W")) == KeyDown(a, "w") && KeyDown(a, Lower("S")) == KeyDown(a, "s")
    ensures KeyDown(a, Lower("D")) == KeyDown(a, "d") && KeyDown(a, Lower("A")) == KeyDown(a, "a")
    ensures KeyDown(a, Lower("E")) == KeyDown(a, "e") && KeyDown(a, Lower("Q")) == KeyDown(a, "q")
    ensures KeyUp(a, Lower("P")) == KeyUp(a, "p")
  {
    assert Lower("W") == "w" && Lower("S") == "s" && Lower("D") == "d";
    assert Lower("A") == "a" && Lower("E") == "e" && Lower("Q") == "q" && Lower("P") == "p";
  }

  /** The axes as a vector: (right, up, forward). */
  function AxesVector(a: Axes): Vec3 { Vec3(a.right as real, a.up as real, a.forward as real) }

  /** `vec3.normalize` given the length `norm` of `v`: a zero vector stays zero. */
  function Normalize(v: Vec3, norm: real): Vec3
    requires norm >= 0.0 && norm * norm == SquaredLength(v)
  {
    Scale(v, if SquaredLength(v) > 0.0 then 1.0 / norm else 0.0)
  }

  /** The step `update` takes: the normalised axes scaled by speed times frame time. */
  function Movement(a: Axes, norm: real, dt: real): Vec3
    requires norm >= 0.0 && norm * norm == SquaredLength(AxesVector(a))
  {
    Scale(Normalize(AxesVector(a), norm), MovementSpeed * dt)
  }

  lemma ScaleSquaredLength(v: Vec3, s: real)
    ensures SquaredLength(Scale(v, s)) == s * s * SquaredLength(v)
  {}

  /** A non-zero vector normalises to unit length. */
  lemma NormalizeUnit(v: Vec3, norm: real)
    requires norm >= 0.0 && norm * norm == SquaredLength(v) && SquaredLength(v) > 0.0
    ensures SquaredLength(Normalize(v, norm)) == 1.0
  {
    var f := 1.0 / norm;
    assert f * norm == 1.0;
    ScaleSquaredLength(v, f);
    assert f * f * (norm * norm) == (f * norm) * (f * norm);
  }

  /** Some axis is set exactly when the axes vector has positive squared length. */
  lemma AxesVectorNonZero(a: Axes)
    ensures SquaredLength(AxesVector(a)) > 0.0 <==> a != Still()
  {
    var v := AxesVector(a);
    assert v.x * v.x >= 0.0 && v.y * v.y >= 0.0 && v.z * v.z >= 0.0;
    if a.right != 0 {
      assert v.x * v.x > 0.0;
    } else if a.up != 0 {
      assert v.y * v.y > 0.0;
    } else if a.forward != 0 {
      assert v.z * v.z > 0.0;
    }
  }

  lemma ProductNonZero(x: real, y: real)
    requires x != 0.0 && y != 0.0
    ensures x * y != 0.0
  {}

  /** A length whose square is positive is positive. */
  lemma NormPositive(norm: real, sq: real)
    requires norm >= 0.0 && norm * norm == sq && sq > 0.0
    ensures norm > 0.0
  {
    assert norm == 0.0 ==> norm * norm == 0.0;
  }

  /** The squared length of the step: the squared speed times frame time when
      some axis is set, zero otherwise. */
  lemma MovementLength(a: Axes, norm: real, dt: real)
    requires norm >= 0.0 && norm * norm == SquaredLength(AxesVector(a))
    ensures SquaredLength(Movement(a, norm, dt)) ==
      if a != Still() then (MovementSpeed * dt) * (MovementSpeed * dt) else 0.0
  {
    var v := AxesVector(a);
    var n := Normalize(v, norm);
    ScaleSquaredLength(n, MovementSpeed * dt);
    AxesVectorNonZero(a);
    if a != Still() {
      NormalizeUnit(v, norm);
    } else {
      assert n == ZeroVec3();
    }
  }

  /** `update` moves the camera exactly when some axis is set and the frame took time. */
  lemma MovementGate(a: Axes, norm: real, dt: real)
    requires norm >= 0.0 && norm * norm == SquaredLength(AxesVector(a))
    ensures Movement(a, norm, dt) != ZeroVec3() <==> a != Still() && dt != 0.0
  {
    var v := AxesVector(a);
    var m := Movement(a, norm, dt);
    AxesVectorNonZero(a);
    if a != Still() {
      NormPositive(norm, SquaredLength(v));
      var f := 1.0 / norm;
      assert f != 0.0;
      if dt != 0.0 {
        var g := MovementSpeed * dt;
        assert g != 0.0;
        if v.x != 0.0 {
          ProductNonZero(v.x, f);
          ProductNonZero(v.x * f, g);
        } else if v.y != 0.0 {
          ProductNonZero(v.y, f);
          ProductNonZero(v.y * f, g);
        } else {
          ProductNonZero(v.z, f);
          ProductNonZero(v.z * f, g);
        }
      }
    }
  }

  class Input {
    var movement: Axes
    var fpsMovement: Vec3
    var doRotate: bool
    const camera: Camera
    const timer: Timer

    constructor (camera: Camera, timer: Timer)
      ensures movement == Still() && fpsMovement == ZeroVec3() && !doRotate
      ensures this.camera == camera && this.timer == timer
    {
      movement := Still();
      fpsMovement := ZeroVec3();
      doRotate := false;
      this.camera := camera;
      this.timer := timer;
    }

    method OnKeyDown(key: string)
      modifies this`movement
      ensures movement == KeyDown(old(movement), Lower(key))
    {
      var k := Lower(key);
      if k == "w" {
        movement := movement.(forward := 1);
      } else if k == "s" {
        movement := movement.(forward := -1);
      } else if k == "d" {
        movement := movement.(right := 1);
      } else if k == "a" {
        movement := movement.(right := -1);
      } else if k == "e" {
        movement := movement.(up := 1);
      } else if k == "q" {
        movement := movement.(up := -1);
      }
    }

    method OnKeyUp(key: string) returns (request: Option<HostRequest>)
      modifies this`movement
      ensures (movement, request) == KeyUp(old(movement), Lower(key))
    {
      var k := Lower(key);
      request := None;
      if k == "w" || k == "s" {
        movement := movement.(forward := 0);
      } else if k == "d" || k == "a" {
        movement := movement.(right := 0);
      } else if k == "e" || k == "q" {
        movement := movement.(up := 0);
      } else if k == " " {
        request := Some(TogglePause);
      } else if k == "p" {
        request := Some(TakeScreenshot);
      }
    }

    /** Mouse or touch down: dragging starts. */
    method OnMouseDown()
      modifies this`doRotate
      ensures doRotate
    {
      doRotate := true;
    }

    /** Mouse or touch up: dragging stops. */
    method OnMouseUp()
      modifies this`doRotate
      ensures !doRotate
    {
      doRotate := false;
    }

    /** A mouse move by (dx, dy) turns the camera while dragging and then asks
        for the accumulated image to be dropped; otherwise it does nothing. */
    method OnMouseMove(dx: real, dy: real) returns (requests: seq<HostRequest>)
      modifies camera
      ensures doRotate ==>
        && requests == [SignalDrop]
        && camera.Pose() == (old(camera.position), old(camera.roll),
                             old(camera.pitch) + -1.0 * dy * MouseSensitivity,
                             old(camera.yaw) + -1.0 * dx * MouseSensitivity)
        && camera.Projection() == old(camera.Projection()) && camera.Valid()
      ensures !doRotate ==> requests == [] && unchanged(camera)
    {
      requests := [];
      if doRotate {
        camera.Rotate(-1.0 * dx * MouseSensitivity, -1.0 * dy * MouseSensitivity);
        requests := [SignalDrop];
      }
    }

    /** `update`, with `norm` the length of the axes vector (`Math.sqrt` is the
        host's): the step is stored in `fpsMovement`; a step of positive length,
        that is a non-zero step, walks the camera along it and asks for a drop. */
    method Update(norm: real) returns (requests: seq<HostRequest>)
      requires norm >= 0.0 && norm * norm == SquaredLength(AxesVector(movement))
      modifies this`fpsMovement, camera
      ensures fpsMovement == Movement(movement, norm, timer.deltaTime)
      ensures var moved := movement != Still() && timer.deltaTime != 0.0;
        && (requests == if moved then [SignalDrop] else [])
        && (moved ==> camera.Pose() == (Add(old(camera.position), Along(fpsMovement, old(camera.right), old(camera.forward))),
                                        old(camera.roll), old(camera.pitch), old(camera.yaw))
                      && camera.Projection() == old(camera.Projection()) && camera.Valid())
        && (!moved ==> unchanged(camera))
    {
      MovementGate(movement, norm, timer.deltaTime);
      fpsMovement := AxesVector(movement);
      fpsMovement := Normalize(fpsMovement, norm);
      fpsMovement := Scale(fpsMovement, MovementSpeed * timer.deltaTime);
      requests := [];
      if fpsMovement != ZeroVec3() {
        camera.MoveAlong(fpsMovement);
        requests := [SignalDrop];
      }
    }
  }
}
