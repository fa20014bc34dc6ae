/**
 * The legacy progressive renderer (source/Renderer.ts): two ping-pong render
 * targets, one written by the pathtracing pass while the other is sampled as
 * the previous frame, then shown on the canvas. GPU calls are events in a
 * log; a render target is named by the index it was created at.
 */
module Renderers {
  import opened Outcomes

  /** The length of `pingPongBuffers`. */
  const PingPongCount: nat := 2

  datatype RendererError = IncompleteFramebuffer(index: nat)

  datatype RenderOp =
    | CreateBuffer(index: nat)            // texture and framebuffer number `index`
    | DeleteBuffer(index: nat)
    | ClearBuffer(index: nat)
    | UnsignalDrop                        // the host's `unsignalDrop()`
    | Trace(target: nat, previous: nat)   // pathtracer pass into target, sampling previous
    | ClearScreen
    | Show(source: nat)                   // textured pass of source onto the canvas

  /** The first target from `i` on whose framebuffer is incomplete, or
      `PingPongCount` when there is none. */
  function FirstIncomplete(complete: nat -> bool, i: nat): (e: nat)
    requires i <= PingPongCount
    ensures i <= e <= PingPongCount
    ensures forall k :: i <= k < e ==> complete(k)
    ensures e < PingPongCount ==> !complete(e)
    decreases PingPongCount - i
  {
    if i == PingPongCount then PingPongCount
    else if !complete(i) then i
    else FirstIncomplete(complete, i + 1)
  }

  /** What `createFramebuffers` creates: each target up to and including the
      first incomplete one. */
  function CreationOps(complete: nat -> bool): seq<RenderOp> {
    var e := FirstIncomplete(complete, 0);
    seq(if e < PingPongCount then e + 1 else PingPongCount, k requires 0 <= k => CreateBuffer(k))
  }

  /** The slots after `createFramebuffers`: the array starts as two nulls and
      slot k is filled once target k proved complete. */
  function StoredTargets(complete: nat -> bool): seq<Option<nat>> {
    var e := FirstIncomplete(complete, 0);
    seq(PingPongCount, k requires 0 <= k => if k < e then Some(k) else None)
  }

  /** The error `createFramebuffers` throws, if any. */
  function CreationResult(complete: nat -> bool): Outcome<RendererError> {
    var e := FirstIncomplete(complete, 0);
    if e < PingPongCount then Fail(IncompleteFramebuffer(e)) else Pass
  }

  /** Creation succeeds exactly when both framebuffers are complete, and then
      stores targets 0 and 1; on failure it names an incomplete target whose
      predecessors are stored, and that target itself is created but not stored. */
  lemma CreationOutcome(complete: nat -> bool)
    ensures CreationResult(complete) == Pass <==> complete(0) && complete(1)
    ensures CreationResult(complete) == Pass ==>
      StoredTargets(complete) == [Some(0), Some(1)] && CreationOps(complete) == [CreateBuffer(0), CreateBuffer(1)]
    ensures CreationResult(complete).Fail? ==>
      var e := CreationResult(complete).error.index;
      && e < PingPongCount && !complete(e) && (forall k :: 0 <= k < e ==> complete(k))
      && CreationOps(complete)[e] == CreateBuffer(e) && StoredTargets(complete)[e] == None
      && (forall k :: 0 <= k < e ==> StoredTargets(complete)[k] == Some(k))
  {
    var e := FirstIncomplete(complete, 0);
    if e == PingPongCount {
      assert complete(0) && complete(1);
    } else if e == 0 {
      assert !complete(0);
    }
  }

  /** Which slot the pathtracer writes next: the one after the current one. */
  function NextTarget(t: nat): (r: nat)
    requires t < PingPongCount
    ensures r < PingPongCount && r != t
  {
    (t + 1) % PingPongCount
  }

  /** Two switches bring the write target back. */
  lemma NextTwice(t: nat)
    requires t < PingPongCount
    ensures NextTarget(NextTarget(t)) == t
  {}

  /** The events of one `render` with write target `t`. */
  function RenderOps(t: nat, dropSignaled: bool): seq<RenderOp>
    requires t < PingPongCount
  {
    (if dropSignaled then [ClearBuffer(0), ClearBuffer(1), UnsignalDrop] else [])
    + [ClearBuffer(t), Trace(t, NextTarget(t)), ClearScreen, Show(t)]
  }

  /** The pathtracer never samples the target it writes, both are real slots,
      and the target it has just written is the one shown. */
  lemma RenderSeparatesTargets(t: nat, dropSignaled: bool)
    requires t < PingPongCount
    ensures forall op :: op in RenderOps(t, dropSignaled) && op.Trace? ==>
      op.target == t && op.previous != op.target && op.previous < PingPongCount
    ensures forall op :: op in RenderOps(t, dropSignaled) && op.Show? ==> op.source == t
    ensures dropSignaled <==> UnsignalDrop in RenderOps(t, dropSignaled)
  {
    var tail := [ClearBuffer(t), Trace(t, NextTarget(t)), ClearScreen, Show(t)];
    assert UnsignalDrop !in tail;
    if dropSignaled {
      assert RenderOps(t, dropSignaled)[2] == UnsignalDrop;
    } else {
      assert RenderOps(t, dropSignaled) == tail;
    }
  }

  /** A drop clears both targets, and the slot written in the frame after it is the
      one sampled as previous in the frame of it: the two frames use opposite slots. */
  lemma AlternatingFrames(t: nat, d1: bool, d2: bool)
    requires t < PingPongCount
    ensures Trace(NextTarget(t), t) in RenderOps(NextTarget(t), d2)
    ensures Trace(t, NextTarget(t)) in RenderOps(t, d1)
    ensures d1 ==> ClearBuffer(0) in RenderOps(t, d1) && ClearBuffer(1) in RenderOps(t, d1)
  {
    var u := NextTarget(t);
    assert RenderOps(u, d2)[|RenderOps(u, d2)| - 3] == Trace(u, t);
    assert RenderOps(t, d1)[|RenderOps(t, d1)| - 3] == Trace(t, u);
    if d1 {
      assert RenderOps(t, d1)[0] == ClearBuffer(0);
      assert RenderOps(t, d1)[1] == ClearBuffer(1);
    }
  }

  function DeleteAll(buffers: seq<Option<nat>>): seq<RenderOp> {
    if buffers == [] then []
    else (if buffers[0].Some? then [DeleteBuffer(buffers[0].value)] else []) + DeleteAll(buffers[1..])
  }

  lemma {:induction false} DeleteAllAppend(a: seq<Option<nat>>, b: seq<Option<nat>>)
    ensures DeleteAll(a + b) == DeleteAll(a) + DeleteAll(b)
    decreases |a|
  {
    if a == [] {
      assert a + b == b;
    } else {
      assert (a + b)[0] == a[0];
      assert (a + b)[1..] == a[1..] + b;
      DeleteAllAppend(a[1..], b);
    }
  }

  /** After a complete creation, `dispose` deletes exactly the targets created. */
  lemma DisposeMatchesCreation(complete: nat -> bool)
    requires complete(0) && complete(1)
    ensures CreationOps(complete) == [CreateBuffer(0), CreateBuffer(1)]
    ensures DeleteAll(StoredTargets(complete)) == [DeleteBuffer(0), DeleteBuffer(1)]
  {
    CreationOutcome(complete);
    var stored := StoredTargets(complete);
    assert stored == [Some(0), Some(1)];
    DeleteAllAppend([Some(0)], [Some(1)]);
    assert DeleteAll([Some(0)]) == [DeleteBuffer(0)] + DeleteAll([]);
    assert DeleteAll([Some(1)]) == [DeleteBuffer(1)] + DeleteAll([]);
  }

  class Renderer {
    /** `pingPongBuffers`: `None` where the source holds `null`. */
    var pingPongBuffers: seq<Option<nat>>
    var pingPongTarget: nat
    var log: seq<RenderOp>

    /** Both targets exist and the write index selects one of them. */
    ghost predicate Valid()
      reads this
    {
      pingPongBuffers == [Some(0), Some(1)] && pingPongTarget < PingPongCount
    }

    /** The object before `createFramebuffers` runs; shader and geometry
        creation are not part of this model. */
    constructor ()
      ensures pingPongBuffers == [] && pingPongTarget == 0 && log == []
    {
      pingPongBuffers := [];
      pingPongTarget := 0;
      log := [];
    }

    /** `createFramebuffers`, with `complete(i)` the host's answer to the
        framebuffer status check for target i. */
    method CreateFramebuffers(complete: nat -> bool) returns (r: Outcome<RendererError>)
      modifies this`pingPongBuffers, this`log
      ensures pingPongBuffers == StoredTargets(complete)
      ensures log == old(log) + CreationOps(complete)
      ensures r == CreationResult(complete)
      ensures r == Pass <==> pingPongBuffers == [Some(0), Some(1)]
    {
      ghost var e := FirstIncomplete(complete, 0);
      pingPongBuffers := [None, None];
      var i := 0;
      while i < PingPongCount
        invariant i <= e && i <= PingPongCount
        invariant pingPongBuffers == seq(PingPongCount, k requires 0 <= k => if k < i then Some(k) else None)
        invariant log == old(log) + seq(i, k requires 0 <= k => CreateBuffer(k))
      {
        log := log + [CreateBuffer(i)];
        if !complete(i) {
          assert e == i;
          assert pingPongBuffers[i] == None;
          return Fail(IncompleteFramebuffer(i));
        }
        pingPongBuffers := pingPongBuffers[i := Some(i)];
        i := i + 1;
      }
      return Pass;
    }

    /** `dispose`: every stored target is deleted. */
    method Dispose()
      requires Valid()
      modifies this`log
      ensures log == old(log) + DeleteAll(pingPongBuffers)
    {
      var i := 0;
      while i < |pingPongBuffers|
        modifies this`log
        invariant i <= |pingPongBuffers|
        invariant log == old(log) + DeleteAll(pingPongBuffers[..i])
      {
        DeleteAllAppend(pingPongBuffers[..i], [pingPongBuffers[i]]);
        assert pingPongBuffers[..i + 1] == pingPongBuffers[..i] + [pingPongBuffers[i]];
        log := log + [DeleteBuffer(pingPongBuffers[i].value)];
        i := i + 1;
      }
      assert pingPongBuffers[..i] == pingPongBuffers;
    }

    /** `render`: on a drop, clear both targets and unsignal; then trace into the
        current target while sampling the other, show it, and switch targets. */
    method Render(dropSignaled: bool)
      requires Valid()
      modifies this`log, this`pingPongTarget
      ensures Valid()
      ensures pingPongTarget == NextTarget(old(pingPongTarget))
      ensures log == old(log) + RenderOps(old(pingPongTarget), dropSignaled)
    {
      if dropSignaled {
        var i := 0;
        while i < |pingPongBuffers|
          modifies this`log
          invariant i <= |pingPongBuffers|
          invariant log == old(log) + seq(i, k requires 0 <= k => ClearBuffer(k))
        {
          log := log + [ClearBuffer(pingPongBuffers[i].value)];
          i := i + 1;
        }
        log := log + [UnsignalDrop];
      }
      var t := pingPongTarget;
      log := log + [ClearBuffer(pingPongBuffers[t].value),
                    Trace(pingPongBuffers[t].value, pingPongBuffers[(t + 1) % |pingPongBuffers|].value),
                    ClearScreen,
                    Show(pingPongBuffers[t].value)];
      pingPongTarget := (t + 1) % |pingPongBuffers|;
    }
  }
}
