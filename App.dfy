/**
 * The application shell (source/App.ts): the drop, pause and recreate flags,
 * the resize handler and the order of work in one animation frame. The DOM,
 * the canvas element and `requestAnimationFrame` are the host's; the frame's
 * clock reading, the movement length and the framebuffer status answers are
 * parameters.
 */
module Application {
  import opened Outcomes
  import opened LinearAlgebra
  import opened MatrixMath
  import opened Cameras
  import opened InputHandling
  import Timers
  import Renderers
  import Compositors

  /** How many of the requests ask to toggle the pause. */
  function PauseToggles(requests: seq<HostRequest>): nat
    decreases |requests|
  {
    if requests == [] then 0
    else (if requests[0] == TogglePause then 1 else 0) + PauseToggles(requests[1..])
  }

  lemma {:induction false} PauseTogglesAppend(a: seq<HostRequest>, b: seq<HostRequest>)
    ensures PauseToggles(a + b) == PauseToggles(a) + PauseToggles(b)
    decreases |a|
  {
    if a == [] {
      assert a + b == b;
    } else {
      assert (a + b)[1..] == a[1..] + b;
      PauseTogglesAppend(a[1..], b);
    }
  }

  /** The pause flag after toggling `toggles` times from `paused`. */
  function Toggled(paused: bool, toggles: nat): bool {
    if toggles % 2 == 0 then paused else !paused
  }

  /** Toggling twice restores the flag, and the order of toggles is irrelevant:
      only their parity counts. */
  lemma TogglePairsCancel(paused: bool, toggles: nat)
    ensures Toggled(paused, toggles + 2) == Toggled(paused, toggles)
    ensures Toggled(Toggled(paused, 1), 1) == paused
    ensures Toggled(Toggled(paused, toggles), 1) == Toggled(paused, toggles + 1)
  {}

  class App {
    var dropSignaled: bool
    var loadingRemoved: bool
    var paused: bool
    var disposeRecreate: bool
    var width: int
    var height: int
    var renderer: Renderers.Renderer?
    var compositor: Compositors.Compositor?
    const timer: Timers.Timer
    const camera: Camera
    const input: Input

    /** The input drives this app's camera and reads its timer; an existing
        renderer and compositor are consistent; unless a recreate is pending,
        a compositor exists. */
    ghost predicate Valid()
      reads this, renderer, compositor
    {
      input.camera == camera && input.timer == timer
      && (renderer != null ==> renderer.Valid())
      && (compositor != null ==> compositor.Valid() && compositor.numRenderTargets == Compositors.N)
      && (disposeRecreate || compositor != null)
    }

    /** The constructor builds the timer from two clock readings, the camera and
        the input; the renderer and the compositor wait for the first frame. */
    constructor (startNow: int, lastNow: int, lib: MatrixLibrary, trig: Trig, perspective: Perspective)
      ensures !dropSignaled && !loadingRemoved && !paused && disposeRecreate
      ensures renderer == null && compositor == null
      ensures timer.State() == Timers.Clock(startNow, lastNow, 0.0, 0.0)
      ensures camera.Pose() == (ZeroVec3(), 0.0, 0.0, 0.0) && camera.Valid()
      ensures input.movement == Still() && !input.doRotate
      ensures Valid()
    {
      dropSignaled, loadingRemoved, paused, disposeRecreate := false, false, false, true;
      width, height := 0, 0;
      renderer, compositor := null, null;
      var t := new Timers.Timer(startNow, lastNow);
      var c := new Camera(lib, trig, perspective);
      timer, camera := t, c;
      input := new Input(c, t);
    }

    method SignalDrop()
      modifies this`dropSignaled
      ensures dropSignaled
    {
      dropSignaled := true;
    }

    method UnsignalDrop()
      modifies this`dropSignaled
      ensures !dropSignaled
    {
      dropSignaled := false;
    }

    /** `togglePause`; showing or hiding the paused text is the DOM's. */
    method TogglePause()
      modifies this`paused
      ensures paused == !old(paused)
    {
      paused := !paused;
    }

    /** Carries out what the input handlers ask of their host, in order: a drop
        signal sets the flag, however often it is repeated, and each pause
        request flips the pause flag. App.ts defines no `takeScreenshot`, so
        that request changes nothing here. */
    method HandleRequests(requests: seq<HostRequest>)
      modifies this`dropSignaled, this`paused
      ensures dropSignaled == (old(dropSignaled) || InputHandling.SignalDrop in requests)
      ensures paused == Toggled(old(paused), PauseToggles(requests))
    {
      var i := 0;
      while i < |requests|
        invariant i <= |requests|
        invariant dropSignaled == (old(dropSignaled) || InputHandling.SignalDrop in requests[..i])
        invariant paused == Toggled(old(paused), PauseToggles(requests[..i]))
      {
        assert requests[..i + 1] == requests[..i] + [requests[i]];
        PauseTogglesAppend(requests[..i], [requests[i]]);
        assert PauseToggles([requests[i]]) == (if requests[i] == InputHandling.TogglePause then 1 else 0) + PauseToggles([]);
        if requests[i] == InputHandling.SignalDrop {
          SignalDrop();
        } else if requests[i] == InputHandling.TogglePause {
          TogglePause();
        }
        i := i + 1;
      }
      assert requests[..i] == requests;
    }

    /** `onWindowResized` for a window of the given size: the canvas takes the
        size, the camera the new aspect ratio, and the next frame recreates the
        renderer and the compositor. */
    method OnWindowResized(innerWidth: int, innerHeight: int)
      requires innerHeight != 0
      modifies this`width, this`height, this`disposeRecreate, camera
      ensures width == innerWidth && height == innerHeight && disposeRecreate
      ensures camera.Pose() == old(camera.Pose())
      ensures camera.Projection() == (old(camera.fieldOfView), innerWidth as real / innerHeight as real, old(camera.near), old(camera.far))
      ensures camera.Valid()
    {
      width := innerWidth;
      height := innerHeight;
      camera.Rescale(width as real / height as real);
      disposeRecreate := true;
    }

    /** The recreate step of a frame: dispose the renderer if there is one, build
        a new one (its constructor creates the framebuffers and throws on an
        incomplete one), dispose the compositor if there is one and build a new
        one. A throw leaves the fields as they were at that point. */
    method Recreate(complete: nat -> bool) returns (r: Outcome<Renderers.RendererError>)
      requires disposeRecreate && (renderer != null ==> renderer.Valid())
      modifies this`disposeRecreate, this`renderer, this`compositor, renderer, compositor
      ensures !disposeRecreate
      ensures r == Renderers.CreationResult(complete)
      ensures old(renderer) != null ==>
        old(renderer).log == old(renderer.log) + Renderers.DeleteAll(old(renderer.pingPongBuffers))
      ensures r == Pass ==>
        && renderer != null && fresh(renderer) && renderer.Valid()
        && renderer.log == Renderers.CreationOps(complete)
        && compositor != null && fresh(compositor) && compositor.Valid() && compositor.numRenderTargets == Compositors.N
        && compositor.State() == Compositors.Initial() && compositor.log == Compositors.CreateOps(Compositors.N)
      ensures r == Pass && old(compositor) != null ==>
        old(compositor).log == old(compositor.log) + Compositors.DisposeOps(old(compositor.renderTargets))
      ensures r.Fail? ==>
        && renderer == old(renderer) && compositor == old(compositor)
        && (compositor != null ==> unchanged(compositor))
    {
      disposeRecreate := false;
      if renderer != null {
        renderer.Dispose();
      }
      var built := new Renderers.Renderer();
      r := built.CreateFramebuffers(complete);
      if r.Fail? {
        return;
      }
      renderer := built;
      if compositor != null {
        compositor.Dispose();
      }
      compositor := new Compositors.Compositor();
    }

    /** The second half of a frame: recreate if asked, render the compositor
        with the drop flag as it stands, and clear the flag. A throw from the
        recreate step ends the frame there. */
    method RecreateAndRender(complete: nat -> bool) returns (r: Outcome<Renderers.RendererError>)
      requires Valid()
      modifies this`disposeRecreate, this`renderer, this`compositor, this`dropSignaled, renderer, compositor
      ensures r == Pass ==> Valid() && !dropSignaled && !disposeRecreate && compositor != null
      ensures old(disposeRecreate) && r == Pass ==>
        var tick := Compositors.Tick(Compositors.N, Compositors.Initial(), old(dropSignaled));
        compositor.State() == tick.state && compositor.log == Compositors.CreateOps(Compositors.N) + tick.ops
      ensures r.Fail? ==> old(disposeRecreate) && r == Renderers.CreationResult(complete) && dropSignaled == old(dropSignaled)
      ensures !old(disposeRecreate) ==>
        var tick := Compositors.Tick(Compositors.N, old(compositor.State()), old(dropSignaled));
        && r == Pass && compositor == old(compositor) && renderer == old(renderer)
        && compositor.State() == tick.state && compositor.log == old(compositor.log) + tick.ops
    {
      r := Pass;
      if disposeRecreate {
        r := Recreate(complete);
        if r.Fail? {
          return;
        }
      }
      compositor.Render(dropSignaled);
      UnsignalDrop();
    }

    /** The first half of a frame: remove the loading text once, update the
        timer with the clock reading `now`, then update the input, whose drop
        request sets the flag. */
    method UpdateTimerAndInput(now: int, norm: real)
      requires Valid()
      requires norm >= 0.0 && norm * norm == SquaredLength(AxesVector(input.movement))
      modifies this`loadingRemoved, this`dropSignaled, this`paused, timer, input`fpsMovement, camera
      ensures Valid() && loadingRemoved && paused == old(paused)
      ensures timer.State() == Timers.Tick(old(timer.State()), now)
      ensures input.fpsMovement == Movement(input.movement, norm, timer.deltaTime)
      ensures dropSignaled == (old(dropSignaled) || (input.movement != Still() && timer.deltaTime != 0.0))
    {
      if !loadingRemoved {
        loadingRemoved := true;
      }
      timer.Update(now);
      var requests := input.Update(norm);
      HandleRequests(requests);
    }

    /** `onAnimationFrame`: remove the loading text once, update the timer with
        the clock reading `now`, update the input (which may signal a drop), then
        recreate and render. The compositor sees the drop flag as the input left
        it, so a drop raised during the frame is consumed by the same frame. */
    method OnAnimationFrame(now: int, norm: real, complete: nat -> bool) returns (r: Outcome<Renderers.RendererError>)
      requires Valid()
      requires norm >= 0.0 && norm * norm == SquaredLength(AxesVector(input.movement))
      modifies this, timer, input`fpsMovement, camera, renderer, compositor
      ensures loadingRemoved && paused == old(paused)
      ensures timer.State() == Timers.Tick(old(timer.State()), now)
      ensures input.fpsMovement == Movement(input.movement, norm, timer.deltaTime)
      ensures r == Pass ==> Valid() && !dropSignaled && !disposeRecreate && compositor != null
      ensures old(disposeRecreate) && r == Pass ==>
        var drop := old(dropSignaled) || (input.movement != Still() && timer.deltaTime != 0.0);
        var tick := Compositors.Tick(Compositors.N, Compositors.Initial(), drop);
        compositor.State() == tick.state && compositor.log == Compositors.CreateOps(Compositors.N) + tick.ops
      ensures r.Fail? ==>
        && old(disposeRecreate) && r == Renderers.CreationResult(complete)
        && dropSignaled == (old(dropSignaled) || (input.movement != Still() && timer.deltaTime != 0.0))
      ensures !old(disposeRecreate) ==>
        var drop := old(dropSignaled) || (input.movement != Still() && timer.deltaTime != 0.0);
        var tick := Compositors.Tick(Compositors.N, old(compositor.State()), drop);
        && r == Pass && compositor == old(compositor) && renderer == old(renderer)
        && compositor.State() == tick.state && compositor.log == old(compositor.log) + tick.ops
    {
      UpdateTimerAndInput(now, norm);
      r := RecreateAndRender(complete);
    }
  }
}
