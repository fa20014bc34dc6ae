/**
 * The progressive accumulation state machine (source/Compositor.ts).
 *
 * Render targets are identifiers: the pool slots `Pool(0)` … `Pool(N-1)`,
 * the preview target and the accumulator. Every GPU call the compositor
 * makes is an event appended to a log; what the blend and average programs
 * compute is left to those programs. A tick of `render` is specified on
 * values by `Tick`, over the three counters of the compositor.
 */
module Compositors {
  import opened Arithmetic

  /** `numRenderTargets`. */
  const N: nat := 16

  datatype Target = Pool(index: nat) | Preview | Accumulator

  datatype Program = BlendProgram | AvgProgram

  /** A GL object the compositor owns: a render target (its framebuffer plus
      texture) or a linked program. */
  datatype GlObject = TargetObject(target: Target) | ProgramObject(program: Program)

  datatype GpuOp =
    | Create(obj: GlObject)
    | Delete(obj: GlObject)
    /** Bind the target's framebuffer and clear it to black. */
    | Clear(target: Target)
    /** `renderer.renderScene()` into the target. */
    | RenderScene(target: Target)
    /** The blend program over textures `a` and `b`, drawn into `dst`. */
    | Blend(a: Target, b: Target, dst: Target)
    /** The average program over `a` and `b` with uniform `frameCount`, drawn into `dst`. */
    | Avg(a: Target, b: Target, dst: Target, frameCount: int)
    /** Clear the screen and draw the blend program over `a` and `b` onto it. */
    | Present(a: Target, b: Target)

  /** The three counters of the compositor. */
  datatype CompositorState = CompositorState(
    currentTargetIndex: nat, accumulationCount: nat, finishedAccumulation: bool)

  /** The state a compositor starts in, and the state `dropResults` restores. */
  function Initial(): CompositorState {
    CompositorState(0, 1, false)
  }

  function PoolTargets(n: nat): (pool: seq<Target>)
    ensures |pool| == n && forall i :: 0 <= i < n ==> pool[i] == Pool(i)
  {
    seq(n, i requires 0 <= i => Pool(i))
  }

  // ---------------------------------------------------------------------
  // Resources

  /** The objects `createResources` makes: the pool in order, the preview and
      accumulator targets, the blend program and the average program. */
  function CreateOps(n: nat): (ops: seq<GpuOp>)
    ensures |ops| == n + 4
  {
    PoolCreates(n)
    + [Create(TargetObject(Preview)), Create(TargetObject(Accumulator)),
       Create(ProgramObject(BlendProgram)), Create(ProgramObject(AvgProgram))]
  }

  function PoolCreates(n: nat): (ops: seq<GpuOp>)
    ensures |ops| == n && forall i :: 0 <= i < n ==> ops[i] == Create(TargetObject(Pool(i)))
  {
    seq(n, i requires 0 <= i => Create(TargetObject(Pool(i))))
  }

  /** The objects `dispose` deletes: every pool target, the preview and the
      accumulator, and the blend program. */
  function DisposeOps(pool: seq<Target>): (ops: seq<GpuOp>)
    ensures |ops| == |pool| + 3
  {
    PoolDeletes(pool)
    + [Delete(TargetObject(Preview)), Delete(TargetObject(Accumulator)),
       Delete(ProgramObject(BlendProgram))]
  }

  function PoolDeletes(pool: seq<Target>): (ops: seq<GpuOp>)
    ensures |ops| == |pool| && forall i :: 0 <= i < |pool| ==> ops[i] == Delete(TargetObject(pool[i]))
  {
    seq(|pool|, i requires 0 <= i < |pool| => Delete(TargetObject(pool[i])))
  }

  /** `dispose` as evidently intended: the average program is deleted too. */
  function CompleteDisposeOps(pool: seq<Target>): (ops: seq<GpuOp>)
    ensures |ops| == |pool| + 4
    ensures ops[..|pool| + 3] == DisposeOps(pool)
  {
    DisposeOps(pool) + [Delete(ProgramObject(AvgProgram))]
  }

  function Effect(live: set<GlObject>, op: GpuOp): set<GlObject> {
    match op
    case Create(o) => live + {o}
    case Delete(o) => live - {o}
    case _ => live
  }

  /** The objects still allocated after the calls `ops`, starting from `live`. */
  function Live(live: set<GlObject>, ops: seq<GpuOp>): set<GlObject>
    decreases |ops|
  {
    if ops == [] then live else Live(Effect(live, ops[0]), ops[1..])
  }

  lemma {:induction false} LiveAppend(live: set<GlObject>, a: seq<GpuOp>, b: seq<GpuOp>)
    ensures Live(live, a + b) == Live(Live(live, a), b)
    decreases |a|
  {
    if a == [] {
      assert a + b == b;
    } else {
      assert (a + b)[0] == a[0];
      assert (a + b)[1..] == a[1..] + b;
      LiveAppend(Effect(live, a[0]), a[1..], b);
    }
  }

  function PoolObjects(n: nat): set<GlObject> {
    set i: nat | 0 <= i < n :: TargetObject(Pool(i))
  }

  lemma {:induction false} LiveCreatesPool(live: set<GlObject>, n: nat, k: nat)
    requires k <= n
    ensures Live(live, PoolCreates(n)[k..])
         == live + (set i: nat | k <= i < n :: TargetObject(Pool(i)))
    decreases n - k
  {
    var ops := PoolCreates(n);
    if k == n {
      assert ops[k..] == [];
      assert (set i: nat | k <= i < n :: TargetObject(Pool(i))) == {};
    } else {
      assert ops[k..][0] == Create(TargetObject(Pool(k)));
      assert ops[k..][1..] == ops[k + 1..];
      LiveCreatesPool(live + {TargetObject(Pool(k))}, n, k + 1);
      assert (set i: nat | k <= i < n :: TargetObject(Pool(i)))
          == {TargetObject(Pool(k))} + (set i: nat | k + 1 <= i < n :: TargetObject(Pool(i)));
    }
  }

  lemma {:induction false} LiveDeletesPool(live: set<GlObject>, n: nat, k: nat)
    requires k <= n
    ensures Live(live, DisposeOps(PoolTargets(n))[k..n])
         == live - (set i: nat | k <= i < n :: TargetObject(Pool(i)))
    decreases n - k
  {
    var ops := DisposeOps(PoolTargets(n));
    if k == n {
      assert ops[k..n] == [];
      assert (set i: nat | k <= i < n :: TargetObject(Pool(i))) == {};
    } else {
      assert ops[k..n][0] == Delete(TargetObject(Pool(k)));
      assert ops[k..n][1..] == ops[k + 1..n];
      LiveDeletesPool(live - {TargetObject(Pool(k))}, n, k + 1);
      assert (set i: nat | k <= i < n :: TargetObject(Pool(i)))
          == {TargetObject(Pool(k))} + (set i: nat | k + 1 <= i < n :: TargetObject(Pool(i)));
    }
  }

  lemma LiveOne(live: set<GlObject>, op: GpuOp)
    ensures Live(live, [op]) == Effect(live, op)
  {
    assert [op][1..] == [];
  }

  lemma {:induction false} LiveSteps(live: set<GlObject>, ops: seq<GpuOp>)
    requires |ops| == 3 || |ops| == 4
    ensures |ops| == 3 ==> Live(live, ops) == Effect(Effect(Effect(live, ops[0]), ops[1]), ops[2])
    ensures |ops| == 4 ==>
      Live(live, ops) == Effect(Effect(Effect(Effect(live, ops[0]), ops[1]), ops[2]), ops[3])
  {
    assert ops == [ops[0]] + ops[1..];
    LiveAppend(live, [ops[0]], ops[1..]);
    LiveOne(live, ops[0]);
    var rest := ops[1..];
    assert rest == [rest[0]] + rest[1..];
    LiveAppend(Effect(live, ops[0]), [rest[0]], rest[1..]);
    LiveOne(Effect(live, ops[0]), rest[0]);
    var last := rest[1..];
    assert last == [last[0]] + last[1..];
    LiveAppend(Effect(Effect(live, ops[0]), ops[1]), [last[0]], last[1..]);
    LiveOne(Effect(Effect(live, ops[0]), ops[1]), last[0]);
    if |ops| == 4 {
      assert last[1..] == [ops[3]];
      LiveOne(Effect(Effect(Effect(live, ops[0]), ops[1]), ops[2]), ops[3]);
    } else {
      assert last[1..] == [];
    }
  }

  /** What is left allocated after `createResources` then `dispose`, starting from nothing. */
  lemma LiveAfterDispose(n: nat)
    ensures Live({}, CreateOps(n) + DisposeOps(PoolTargets(n)))
         == {ProgramObject(AvgProgram)}
  {
    var creates := PoolCreates(n);
    var extra := [Create(TargetObject(Preview)), Create(TargetObject(Accumulator)),
                  Create(ProgramObject(BlendProgram)), Create(ProgramObject(AvgProgram))];
    var dispose := DisposeOps(PoolTargets(n));
    var others := {TargetObject(Preview), TargetObject(Accumulator),
                   ProgramObject(BlendProgram), ProgramObject(AvgProgram)};
    LiveAppend({}, CreateOps(n), dispose);
    LiveAppend({}, creates, extra);
    assert creates[0..] == creates;
    LiveCreatesPool({}, n, 0);
    LiveSteps(PoolObjects(n), extra);
    var afterCreate := PoolObjects(n) + others;
    assert Live({}, CreateOps(n)) == afterCreate;
    assert dispose == dispose[..n] + dispose[n..];
    LiveAppend(afterCreate, dispose[..n], dispose[n..]);
    assert dispose[..n] == dispose[0..n];
    LiveDeletesPool(afterCreate, n, 0);
    assert afterCreate - PoolObjects(n) == others;
    LiveSteps(others, dispose[n..]);
  }

  /** With the average program deleted as well, nothing is left allocated. */
  lemma CompleteDisposeFreesAll(n: nat)
    ensures Live({}, CreateOps(n) + CompleteDisposeOps(PoolTargets(n))) == {}
  {
    var pool := PoolTargets(n);
    LiveAfterDispose(n);
    assert CreateOps(n) + CompleteDisposeOps(pool)
        == (CreateOps(n) + DisposeOps(pool)) + [Delete(ProgramObject(AvgProgram))];
    LiveAppend({}, CreateOps(n) + DisposeOps(pool), [Delete(ProgramObject(AvgProgram))]);
  }

  // ---------------------------------------------------------------------
  // One tick of `render`

  /** `dropResults`: clear every pool target, then the accumulator. */
  function DropOps(pool: seq<Target>): (ops: seq<GpuOp>)
    ensures |ops| == |pool| + 1
  {
    PoolClears(pool) + [Clear(Accumulator)]
  }

  function PoolClears(pool: seq<Target>): (ops: seq<GpuOp>)
    ensures |ops| == |pool| && forall i :: 0 <= i < |pool| ==> ops[i] == Clear(pool[i])
  {
    seq(|pool|, i requires 0 <= i < |pool| => Clear(pool[i]))
  }

  /** `renderToCurrent` then `presentPreview`: render into the current pool
      slot, then show the accumulator once a reduction exists, else that slot. */
  function FillOps(s: CompositorState): seq<GpuOp> {
    var current := Pool(s.currentTargetIndex);
    [RenderScene(current),
     if s.finishedAccumulation then Present(Accumulator, Accumulator) else Present(current, current)]
  }

  /** One round of the reduction, from slot `i` on: pair `i` with `i + step/2`
      into the accumulator, then copy the accumulator back into slot `i`. */
  function RoundOps(n: nat, step: nat, i: nat): seq<GpuOp>
    requires step > 0
    decreases n - i
  {
    if i >= n then []
    else [Blend(Pool(i), Pool(i + step / 2), Accumulator), Blend(Accumulator, Accumulator, Pool(i))]
         + RoundOps(n, step, i + step)
  }

  /** The rounds `half`, `half/2`, … while `half > 1`, each with `step = n/half`. */
  function ReductionOps(n: nat, half: nat): seq<GpuOp>
    requires half <= n
    decreases half
  {
    if half > 1 then RoundOps(n, n / half, 0) + ReductionOps(n, half / 2) else []
  }

  /** The rounds as evidently intended: down to `half == 1`, whose single
      pair `(0, n/2)` joins the two halves of the pool. */
  function CompleteReductionOps(n: nat, half: nat): seq<GpuOp>
    requires half <= n
    decreases half
  {
    if half >= 1 then RoundOps(n, n / half, 0) + CompleteReductionOps(n, half / 2) else []
  }

  /** The merge into the running accumulator: an average weighted by the
      batch count after the first batch, a copy of `pool[0]` for the first. */
  function MergeOps(accumulationCount: nat): seq<GpuOp> {
    if accumulationCount > 1 then [Avg(Pool(1), Pool(0), Accumulator, accumulationCount)]
    else [Blend(Pool(0), Pool(0), Accumulator)]
  }

  /** `accumulateTargets`: save the accumulator to the preview target, reduce
      the pool, move the saved accumulator into `pool[1]`, merge. */
  function AccumulateOps(n: nat, accumulationCount: nat): seq<GpuOp> {
    [Blend(Accumulator, Accumulator, Preview)]
    + ReductionOps(n, n / 2)
    + [Blend(Preview, Preview, Pool(1))]
    + MergeOps(accumulationCount)
  }

  /** `accumulateTargets` with the complete reduction. */
  function CompleteAccumulateOps(n: nat, accumulationCount: nat): seq<GpuOp> {
    [Blend(Accumulator, Accumulator, Preview)]
    + CompleteReductionOps(n, n / 2)
    + [Blend(Preview, Preview, Pool(1))]
    + MergeOps(accumulationCount)
  }

  datatype TickResult = TickResult(state: CompositorState, ops: seq<GpuOp>)

  /** A whole call of `render` on a pool of `n` targets: consume the drop
      signal, then fill or reduce, then advance the index. */
  function Tick(n: nat, s: CompositorState, dropSignaled: bool): (t: TickResult)
    ensures s.currentTargetIndex <= n || dropSignaled ==> 1 <= t.state.currentTargetIndex <= n || n == 0
    ensures s.accumulationCount >= 1 ==> t.state.accumulationCount >= 1
  {
    var s1 := if dropSignaled then Initial() else s;
    var dropped := if dropSignaled then DropOps(PoolTargets(n)) else [];
    if s1.currentTargetIndex >= n then
      TickResult(CompositorState(1, s1.accumulationCount + 1, true),
                 dropped + AccumulateOps(n, s1.accumulationCount))
    else
      TickResult(s1.(currentTargetIndex := s1.currentTargetIndex + 1), dropped + FillOps(s1))
  }

  /** Whether the tick runs the reduction rather than a fill. */
  predicate Reduces(n: nat, s: CompositorState, dropSignaled: bool) {
    !dropSignaled && s.currentTargetIndex >= n
  }

  /** `k` ticks without a drop signal. */
  function Run(n: nat, s: CompositorState, k: nat): CompositorState
    decreases k
  {
    if k == 0 then s else Run(n, Tick(n, s, false).state, k - 1)
  }

  /** The calls of `k` ticks without a drop signal, in order. */
  function RunOps(n: nat, s: CompositorState, k: nat): seq<GpuOp>
    decreases k
  {
    if k == 0 then [] else Tick(n, s, false).ops + RunOps(n, Tick(n, s, false).state, k - 1)
  }

  /** A dropped tick clears the pool and the accumulator, renders into
      `pool[0]`, shows that slot and ends at index 1 with the counters reset. */
  lemma DroppedTick(n: nat, s: CompositorState)
    requires n >= 1
    ensures Tick(n, s, true).state == CompositorState(1, 1, false)
    ensures Tick(n, s, true).ops
         == DropOps(PoolTargets(n)) + [RenderScene(Pool(0)), Present(Pool(0), Pool(0))]
  {
  }

  /** Repeated drops collapse: a dropped tick ends in the same state whatever came before. */
  lemma DropsCollapse(n: nat, s: CompositorState, s': CompositorState)
    ensures Tick(n, s, true) == Tick(n, s', true)
  {
  }

  /** `dropResults` clears each pool slot and the accumulator and nothing else;
      the preview target keeps its contents. */
  lemma DropClears(n: nat, t: Target)
    ensures Clear(t) in DropOps(PoolTargets(n)) <==> (t.Pool? && t.index < n) || t == Accumulator
    ensures forall op :: op in DropOps(PoolTargets(n)) ==> op.Clear?
  {
    var ops := DropOps(PoolTargets(n));
    if t.Pool? && t.index < n {
      assert ops[t.index] == Clear(t);
    }
    if Clear(t) in ops && t != Accumulator {
      var j :| 0 <= j < |ops| && ops[j] == Clear(t);
      assert j < n;
    }
  }

  /** A fill tick renders into the current slot, then shows the accumulator
      once a reduction exists and that same slot before. */
  lemma FillTick(n: nat, s: CompositorState)
    requires s.currentTargetIndex < n
    ensures Tick(n, s, false).state == s.(currentTargetIndex := s.currentTargetIndex + 1)
    ensures Tick(n, s, false).ops[0] == RenderScene(Pool(s.currentTargetIndex))
    ensures s.finishedAccumulation ==> Tick(n, s, false).ops[1] == Present(Accumulator, Accumulator)
    ensures !s.finishedAccumulation ==>
      Tick(n, s, false).ops[1] == Present(Pool(s.currentTargetIndex), Pool(s.currentTargetIndex))
    ensures |Tick(n, s, false).ops| == 2
  {
  }

  /** A reduction tick counts one more batch, marks the accumulation finished
      and leaves the index at 1 (reset to 0, then advanced). */
  lemma ReductionTick(n: nat, s: CompositorState)
    requires Reduces(n, s, false)
    ensures Tick(n, s, false).state
         == CompositorState(1, s.accumulationCount + 1, true)
    ensures Tick(n, s, false).ops == AccumulateOps(n, s.accumulationCount)
  {
  }

  /** Ticks without a drop from index `i` fill slots `i`, `i+1`, … up to the pool's end. */
  lemma {:induction false} RunFills(n: nat, s: CompositorState, k: nat)
    requires s.currentTargetIndex + k <= n
    ensures Run(n, s, k) == s.(currentTargetIndex := s.currentTargetIndex + k)
    decreases k
  {
    if k > 0 {
      var s1 := Tick(n, s, false).state;
      assert s1 == s.(currentTargetIndex := s.currentTargetIndex + 1);
      RunFills(n, s1, k - 1);
    }
  }

  /** From a fresh or dropped compositor (index 0), the first `n` calls fill
      the pool and call `n + 1` is the first reduction. */
  lemma FirstReduction(n: nat, s: CompositorState)
    requires s.currentTargetIndex == 0
    ensures forall k :: 0 <= k < n ==> !Reduces(n, Run(n, s, k), false)
    ensures Reduces(n, Run(n, s, n), false)
    ensures Run(n, s, n + 1) == CompositorState(1, s.accumulationCount + 1, true)
  {
    forall k | 0 <= k < n ensures !Reduces(n, Run(n, s, k), false) {
      RunFills(n, s, k);
    }
    RunFills(n, s, n);
    RunAppend(n, s, n, 1);
  }

  /** After a reduction (index 1), the next reduction is exactly `n` calls
      later: `n - 1` fills, then the reduction. */
  lemma ReductionPeriod(n: nat, s: CompositorState)
    requires n >= 1 && s.currentTargetIndex == 1
    ensures forall k :: 0 <= k < n - 1 ==> !Reduces(n, Run(n, s, k), false)
    ensures Reduces(n, Run(n, s, n - 1), false)
    ensures Run(n, s, n) == CompositorState(1, s.accumulationCount + 1, true)
  {
    forall k | 0 <= k < n - 1 ensures !Reduces(n, Run(n, s, k), false) {
      RunFills(n, s, k);
    }
    RunFills(n, s, n - 1);
    RunAppend(n, s, n - 1, 1);
  }

  lemma {:induction false} RunAppend(n: nat, s: CompositorState, a: nat, b: nat)
    ensures Run(n, s, a + b) == Run(n, Run(n, s, a), b)
    decreases a
  {
    if a > 0 {
      RunAppend(n, Tick(n, s, false).state, a - 1, b);
    }
  }

  lemma {:induction false} RunOpsAppend(n: nat, s: CompositorState, a: nat, b: nat)
    ensures RunOps(n, s, a + b) == RunOps(n, s, a) + RunOps(n, Run(n, s, a), b)
    decreases a
  {
    if a > 0 {
      var t := Tick(n, s, false);
      RunOpsAppend(n, t.state, a - 1, b);
      assert RunOps(n, s, a + b) == t.ops + RunOps(n, t.state, (a - 1) + b);
    } else {
      assert RunOps(n, s, a) == [];
    }
  }

  /** The merge reads only `pool[1]` (the saved accumulator) and `pool[0]`;
      the average program is given a frame count of at least 2, the current
      batch count. */
  lemma MergeWeights(n: nat, count: nat)
    ensures forall op :: op in MergeOps(count) ==>
      (op.Avg? && op == Avg(Pool(1), Pool(0), Accumulator, count) && count >= 2)
      || (op == Blend(Pool(0), Pool(0), Accumulator) && count <= 1)
  {
  }

  predicate InPool(t: Target, n: nat) {
    t.Pool? ==> t.index < n
  }

  /** Every call is a blend whose pool targets exist, and every pair it reads
      from the pool is two different slots, blended into the accumulator. */
  predicate WellFormedReduction(ops: seq<GpuOp>, n: nat) {
    forall op :: op in ops ==>
      op.Blend? && InPool(op.a, n) && InPool(op.b, n) && InPool(op.dst, n)
      && (op.a.Pool? ==> op.b.Pool? && op.a.index < op.b.index && op.dst == Accumulator)
  }

  lemma {:induction false} RoundWellFormed(n: nat, step: nat, k: nat, m: nat)
    requires step >= 2 && step % 2 == 0 && n == step * m
    ensures WellFormedReduction(RoundOps(n, step, step * k), n)
    decreases n - step * k
  {
    var i := step * k;
    if i < n {
      GroupWithin(n, step, i, k, m);
      assert step * (k + 1) == i + step;
      RoundWellFormed(n, step, k + 1, m);
    }
  }

  lemma {:induction false} RoundsWellFormed(n: nat, half: nat)
    requires IsPow2(n) && IsPow2(half) && 2 * half <= n
    ensures WellFormedReduction(ReductionOps(n, half), n)
    decreases half
  {
    if half > 1 {
      var q := Pow2Divides(n, half);
      DivExact(n, half, q);
      assert n == q * half;
      RoundWellFormed(n, q, 0, half);
      RoundsWellFormed(n, half / 2);
    }
  }

  /** For a pool whose size is a power of two, every index the reduction
      reads or writes is a pool slot, and every pair is two different slots. */
  lemma ReductionWellFormed(n: nat)
    requires IsPow2(n) && n >= 2
    ensures WellFormedReduction(ReductionOps(n, n / 2), n)
  {
    RoundsWellFormed(n, n / 2);
  }

  /** The complete rounds are the rounds as written followed by the single
      round with `half == 1`, whose only pair is `(0, n/2)`. */
  lemma {:induction false} CompleteReductionExtends(n: nat, half: nat)
    requires 1 <= half <= n
    ensures CompleteReductionOps(n, half) == ReductionOps(n, half) + RoundOps(n, n, 0)
    decreases half
  {
    if half > 1 {
      CompleteReductionExtends(n, half / 2);
    } else {
      assert n / half == n;
    }
  }

  /** The complete reduction stays inside the pool as well, with distinct pairs. */
  lemma CompleteReductionWellFormed(n: nat)
    requires IsPow2(n) && n >= 2
    ensures WellFormedReduction(CompleteReductionOps(n, n / 2), n)
  {
    CompleteReductionExtends(n, n / 2);
    ReductionWellFormed(n);
    RoundWellFormed(n, n, 0, 1);
    var written, last := ReductionOps(n, n / 2), RoundOps(n, n, 0);
    forall op | op in written + last ensures op in written || op in last {}
  }

  lemma PoolSizeIsPow2()
    ensures IsPow2(N) && N >= 2
  {
    assert IsPow2(1);
    assert IsPow2(2);
    assert IsPow2(4);
    assert IsPow2(8);
  }

  /** For a pool whose size is a power of two, every call of a reduction
      tick stays inside the pool, and the average program only ever runs on
      `pool[1]` and `pool[0]` with a frame count of at least 2. */
  lemma AccumulationWellFormed(n: nat, count: nat)
    requires IsPow2(n) && n >= 2
    ensures forall op :: op in AccumulateOps(n, count) ==>
      (op.Blend? && InPool(op.a, n) && InPool(op.b, n) && InPool(op.dst, n))
      || (op == Avg(Pool(1), Pool(0), Accumulator, count) && count >= 2)
  {
    ReductionWellFormed(n);
    MergeWeights(n, count);
  }

  /** The same holds for a reduction tick with the complete reduction. */
  lemma CompleteAccumulationWellFormed(n: nat, count: nat)
    requires IsPow2(n) && n >= 2
    ensures forall op :: op in CompleteAccumulateOps(n, count) ==>
      (op.Blend? && InPool(op.a, n) && InPool(op.b, n) && InPool(op.dst, n))
      || (op == Avg(Pool(1), Pool(0), Accumulator, count) && count >= 2)
  {
    CompleteReductionWellFormed(n);
    MergeWeights(n, count);
  }

  // ---------------------------------------------------------------------
  // The compositor object

  class Compositor {
    /** The pool size, fixed when the compositor is built. */
    const numRenderTargets: nat
    var renderTargets: seq<Target>
    var currentTargetIndex: nat
    var accumulationCount: nat
    var finishedAccumulation: bool
    /** Every GPU call made so far, oldest first. */
    var log: seq<GpuOp>

    function State(): CompositorState
      reads this`currentTargetIndex, this`accumulationCount, this`finishedAccumulation
    {
      CompositorState(currentTargetIndex, accumulationCount, finishedAccumulation)
    }

    /** The pool is allocated, the index has not passed the pool's end, and
        at least one batch is being counted. */
    ghost predicate Valid()
      reads this`renderTargets, this`currentTargetIndex, this`accumulationCount
    {
      IsPow2(numRenderTargets) && numRenderTargets >= 2
      && renderTargets == PoolTargets(numRenderTargets)
      && currentTargetIndex <= numRenderTargets && accumulationCount >= 1
    }

    constructor()
      ensures numRenderTargets == N
      ensures State() == Initial() && Valid()
      ensures log == CreateOps(N)
    {
      numRenderTargets := N;
      currentTargetIndex := 0;
      accumulationCount := 1;
      finishedAccumulation := false;
      renderTargets := [];
      log := [];
      new;
      PoolSizeIsPow2();
      CreateResources();
    }

    method CreateResources()
      modifies this`renderTargets, this`log
      ensures renderTargets == PoolTargets(numRenderTargets)
      ensures log == old(log) + CreateOps(numRenderTargets)
    {
      renderTargets := [];
      var i := 0;
      while i < numRenderTargets
        invariant 0 <= i <= numRenderTargets
        invariant renderTargets == PoolTargets(i)
        invariant log == old(log) + PoolCreates(i)
      {
        assert PoolTargets(i + 1) == PoolTargets(i) + [Pool(i)];
        assert PoolCreates(i + 1) == PoolCreates(i) + [Create(TargetObject(Pool(i)))];
        renderTargets := renderTargets + [Pool(i)];
        log := log + [Create(TargetObject(Pool(i)))];
        i := i + 1;
      }
      log := log + [Create(TargetObject(Preview)), Create(TargetObject(Accumulator))];
      log := log + [Create(ProgramObject(BlendProgram))];
      log := log + [Create(ProgramObject(AvgProgram))];
    }

    /** `dispose`: the average program is not deleted. */
    method Dispose()
      modifies this`renderTargets, this`log
      ensures renderTargets == []
      ensures log == old(log) + DisposeOps(old(renderTargets))
    {
      var i := 0;
      while i < |renderTargets|
        modifies this`log
        invariant 0 <= i <= |renderTargets|
        invariant log == old(log) + PoolDeletes(renderTargets[..i])
      {
        assert renderTargets[..i + 1] == renderTargets[..i] + [renderTargets[i]];
        assert PoolDeletes(renderTargets[..i + 1])
            == PoolDeletes(renderTargets[..i]) + [Delete(TargetObject(renderTargets[i]))];
        log := log + [Delete(TargetObject(renderTargets[i]))];
        i := i + 1;
      }
      assert renderTargets[..i] == renderTargets;
      log := log + [Delete(TargetObject(Preview)), Delete(TargetObject(Accumulator))];
      log := log + [Delete(ProgramObject(BlendProgram))];
      assert log == old(log) + DisposeOps(renderTargets);
      renderTargets := [];
    }

    method RenderToCurrent()
      requires currentTargetIndex < |renderTargets|
      modifies this`log
      ensures log == old(log) + [RenderScene(renderTargets[currentTargetIndex])]
    {
      var target := renderTargets[currentTargetIndex];
      log := log + [RenderScene(target)];
    }

    method PresentPreview()
      requires !finishedAccumulation ==> currentTargetIndex < |renderTargets|
      modifies this`log
      ensures finishedAccumulation ==> log == old(log) + [Present(Accumulator, Accumulator)]
      ensures !finishedAccumulation ==>
        log == old(log) + [Present(renderTargets[currentTargetIndex], renderTargets[currentTargetIndex])]
    {
      if finishedAccumulation {
        log := log + [Present(Accumulator, Accumulator)];
      } else {
        var currentTarget := renderTargets[currentTargetIndex];
        log := log + [Present(currentTarget, currentTarget)];
      }
    }

    method AccumulateInto(a: Target, b: Target, destination: Target)
      modifies this`log
      ensures log == old(log) + [Blend(a, b, destination)]
    {
      log := log + [Blend(a, b, destination)];
    }

    method AvgInto(a: Target, b: Target, destination: Target)
      modifies this`log
      ensures log == old(log) + [Avg(a, b, destination, accumulationCount)]
    {
      log := log + [Avg(a, b, destination, accumulationCount)];
    }

    method AccumulateTargets()
      requires Valid()
      modifies this`currentTargetIndex, this`accumulationCount, this`finishedAccumulation, this`log
      ensures State() == CompositorState(0, old(accumulationCount) + 1, true)
      ensures log == old(log) + AccumulateOps(numRenderTargets, old(accumulationCount))
    {
      AccumulateInto(Accumulator, Accumulator, Preview);
      ReducePool();
      AccumulateInto(Preview, Preview, renderTargets[1]);
      if accumulationCount > 1 {
        AvgInto(renderTargets[1], renderTargets[0], Accumulator);
      } else {
        AccumulateInto(renderTargets[0], renderTargets[0], Accumulator);
      }
      finishedAccumulation := true;
      currentTargetIndex := 0;
      accumulationCount := accumulationCount + 1;
    }

    /** The `while (half > 1)` loop of `accumulateTargets`. */
    method ReducePool()
      requires IsPow2(numRenderTargets) && numRenderTargets >= 2
      requires renderTargets == PoolTargets(numRenderTargets)
      modifies this`log
      ensures log == old(log) + ReductionOps(numRenderTargets, numRenderTargets / 2)
    {
      var n := numRenderTargets;
      var half := n / 2;
      ghost var done: seq<GpuOp> := [];
      while half > 1
        invariant IsPow2(half) && 2 * half <= n
        invariant done + ReductionOps(n, half) == ReductionOps(n, n / 2)
        invariant log == old(log) + done
      {
        var step := n / half;
        RoundStep(n, half);
        BlendRound(step);
        assert ReductionOps(n, half) == RoundOps(n, step, 0) + ReductionOps(n, half / 2);
        done := done + RoundOps(n, step, 0);
        half := half / 2;
      }
    }

    /** One pass of the `for` loop of `accumulateTargets`, over groups of `step` slots. */
    method BlendRound(step: nat)
      requires step >= 2 && step % 2 == 0 && numRenderTargets % step == 0
      requires renderTargets == PoolTargets(numRenderTargets)
      modifies this`log
      ensures log == old(log) + RoundOps(numRenderTargets, step, 0)
    {
      var n := numRenderTargets;
      ghost var groups: nat := n / step;
      assert n == step * groups;
      var i := 0;
      ghost var k: nat := 0;
      ghost var round: seq<GpuOp> := [];
      while i < n
        invariant i == step * k
        invariant round + RoundOps(n, step, i) == RoundOps(n, step, 0)
        invariant log == old(log) + round
      {
        GroupWithin(n, step, i, k, groups);
        var aIndex := i;
        var bIndex := i + step / 2;
        var a := renderTargets[aIndex];
        var b := renderTargets[bIndex];
        AccumulateInto(a, b, Accumulator);
        AccumulateInto(Accumulator, Accumulator, a);
        var pair := [Blend(a, b, Accumulator), Blend(Accumulator, Accumulator, a)];
        assert RoundOps(n, step, i) == pair + RoundOps(n, step, i + step);
        round := round + pair;
        assert step * (k + 1) == step * k + step;
        i := i + step;
        k := k + 1;
      }
    }

    method DropResults()
      requires |renderTargets| == numRenderTargets
      modifies this`currentTargetIndex, this`accumulationCount, this`finishedAccumulation, this`log
      ensures State() == Initial()
      ensures log == old(log) + DropOps(renderTargets)
    {
      var i := 0;
      while i < numRenderTargets
        modifies this`log
        invariant 0 <= i <= numRenderTargets
        invariant log == old(log) + PoolClears(renderTargets[..i])
      {
        assert renderTargets[..i + 1] == renderTargets[..i] + [renderTargets[i]];
        assert PoolClears(renderTargets[..i + 1]) == PoolClears(renderTargets[..i]) + [Clear(renderTargets[i])];
        log := log + [Clear(renderTargets[i])];
        i := i + 1;
      }
      assert renderTargets[..i] == renderTargets;
      log := log + [Clear(Accumulator)];
      currentTargetIndex := 0;
      accumulationCount := 1;
      finishedAccumulation := false;
    }

    /** One frame; the host's drop signal is a parameter. */
    method Render(dropSignaled: bool)
      requires Valid()
      modifies this`currentTargetIndex, this`accumulationCount, this`finishedAccumulation, this`log
      ensures Valid()
      ensures State() == Tick(numRenderTargets, old(State()), dropSignaled).state
      ensures log == old(log) + Tick(numRenderTargets, old(State()), dropSignaled).ops
    {
      if dropSignaled {
        DropResults();
      }
      if currentTargetIndex >= numRenderTargets {
        AccumulateTargets();
      } else {
        RenderToCurrent();
        PresentPreview();
      }
      currentTargetIndex := currentTargetIndex + 1;
    }
  }
}
