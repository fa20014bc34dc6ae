/**
 * Which rendered frames the reduction of `accumulateTargets` lets through to
 * the accumulator. Whatever the blend and average programs compute, their
 * output is made from both of their inputs; a `Sources` assignment records,
 * for every target, the pool slots whose frame of the current batch its
 * image is made from.
 */
module Reduction {
  import opened Arithmetic
  import opened Compositors

  type Sources = Target -> set<nat>

  /** The sources after one GPU call. */
  function Step(c: Sources, op: GpuOp): Sources {
    match op
    case Blend(a, b, dst) => (t: Target) => if t == dst then c(a) + c(b) else c(t)
    case Avg(a, b, dst, _) => (t: Target) => if t == dst then c(a) + c(b) else c(t)
    case Clear(cleared) => (t: Target) => if t == cleared then {} else c(t)
    case RenderScene(target) =>
      (t: Target) => if t == target && target.Pool? then {target.index} else c(t)
    case _ => c
  }

  /** The sources after the calls `ops`, in order. */
  function Flow(c: Sources, ops: seq<GpuOp>): Sources
    decreases |ops|
  {
    if ops == [] then c else Flow(Step(c, ops[0]), ops[1..])
  }

  /** A full pool: every slot holds its own frame, nothing else holds a frame of this batch. */
  function Filled(): Sources {
    (t: Target) => if t.Pool? then {t.index} else {}
  }

  /** The frames `lo` … `lo + w - 1`. */
  function Block(lo: nat, w: nat): set<nat>
    decreases w
  {
    if w == 0 then {} else {lo} + Block(lo + 1, w - 1)
  }

  lemma {:induction false} InBlock(lo: nat, w: nat, x: nat)
    ensures x in Block(lo, w) <==> lo <= x < lo + w
    decreases w
  {
    if w > 0 {
      InBlock(lo + 1, w - 1, x);
    }
  }

  function Slot(w: nat, j: nat): Target {
    Pool(w * j)
  }

  /** From group `from` on, each slot at a multiple of `w` below `n` holds the
      `w` frames starting at its own index. */
  ghost predicate Blocked(c: Sources, n: nat, w: nat, from: nat) {
    forall j: nat {:trigger Slot(w, j)} :: from <= j && w * j < n ==> c(Slot(w, j)) == Block(w * j, w)
  }

  lemma {:induction false} FlowAppend(c: Sources, a: seq<GpuOp>, b: seq<GpuOp>)
    ensures Flow(c, a + b) == Flow(Flow(c, a), b)
    decreases |a|
  {
    if a == [] {
      assert a + b == b;
    } else {
      assert (a + b)[0] == a[0];
      assert (a + b)[1..] == a[1..] + b;
      FlowAppend(Step(c, a[0]), a[1..], b);
    }
  }

  lemma FlowPair(c: Sources, i: nat, w: nat)
    ensures var c2 := Flow(c, [Blend(Pool(i), Pool(i + w), Accumulator), Blend(Accumulator, Accumulator, Pool(i))]);
      c2(Pool(i)) == c(Pool(i)) + c(Pool(i + w))
      && forall t :: t != Pool(i) && t != Accumulator ==> c2(t) == c(t)
  {
    var pair := [Blend(Pool(i), Pool(i + w), Accumulator), Blend(Accumulator, Accumulator, Pool(i))];
    var c1 := Step(c, pair[0]);
    var c2 := Step(c1, pair[1]);
    assert Flow(c, pair) == Flow(c1, pair[1..]);
    assert pair[1..][0] == pair[1] && pair[1..][1..] == [];
    assert Flow(c1, pair[1..]) == c2;
    assert c1(Accumulator) == c(Pool(i)) + c(Pool(i + w));
    assert c2(Pool(i)) == c1(Accumulator) + c1(Accumulator);
    forall t | t != Pool(i) && t != Accumulator ensures c2(t) == c(t) {
      assert c2(t) == c1(t);
    }
  }

  lemma BlockJoin(lo: nat, w: nat)
    ensures Block(lo, w) + Block(lo + w, w) == Block(lo, 2 * w)
  {
    forall x: nat ensures x in Block(lo, w) + Block(lo + w, w) <==> x in Block(lo, 2 * w) {
      InBlock(lo, w, x);
      InBlock(lo + w, w, x);
      InBlock(lo, 2 * w, x);
    }
  }

  /** One round with groups of `s = 2w` slots, from the group `k` at slot `i`
      on, turns blocks of `w` frames into blocks of `s`, and leaves the slots
      before `i` and every target outside the pool but the accumulator alone. */
  lemma {:induction false} RoundFlow(c: Sources, n: nat, s: nat, w: nat, i: nat, k: nat, m: nat)
    requires w >= 1 && s == 2 * w && i == s * k && n == s * m
    requires Blocked(c, n, w, 2 * k)
    ensures Blocked(Flow(c, RoundOps(n, s, i)), n, s, k)
    ensures forall x: nat :: x < i ==> Flow(c, RoundOps(n, s, i))(Pool(x)) == c(Pool(x))
    ensures forall t: Target :: !t.Pool? && t != Accumulator ==> Flow(c, RoundOps(n, s, i))(t) == c(t)
    decreases n - i
  {
    var final := Flow(c, RoundOps(n, s, i));
    if i >= n {
      assert RoundOps(n, s, i) == [];
      forall j: nat | k <= j && s * j < n ensures false {
        MulMono(s, k, j);
      }
    } else {
      GroupWithin(n, s, i, k, m);
      var next := i + s;
      var pair := [Blend(Pool(i), Pool(i + w), Accumulator), Blend(Accumulator, Accumulator, Pool(i))];
      assert RoundOps(n, s, i) == pair + RoundOps(n, s, next);
      FlowAppend(c, pair, RoundOps(n, s, next));
      var c2 := Flow(c, pair);
      FlowPair(c, i, w);
      PairStep(c, n, s, w, i, k);
      assert next == s * (k + 1);
      RoundFlow(c2, n, s, w, next, k + 1, m);
      BlockedFrom(final, n, s, i, k);
    }
  }

  /** The first pair of the round turns the blocks at `i` and `i + w` into a
      block of `s` at `i`, and leaves the later half-blocks alone. */
  lemma PairStep(c: Sources, n: nat, s: nat, w: nat, i: nat, k: nat)
    requires w >= 1 && s == 2 * w && i == s * k && i + s <= n
    requires Blocked(c, n, w, 2 * k)
    ensures var c2 := Flow(c, [Blend(Pool(i), Pool(i + w), Accumulator), Blend(Accumulator, Accumulator, Pool(i))]);
      c2(Pool(i)) == Block(i, s) && Blocked(c2, n, w, 2 * (k + 1))
  {
    var c2 := Flow(c, [Blend(Pool(i), Pool(i + w), Accumulator), Blend(Accumulator, Accumulator, Pool(i))]);
    FlowPair(c, i, w);
    PairBlocks(c, n, w, i, k);
    forall j: nat | 2 * (k + 1) <= j && w * j < n
      ensures c2(Slot(w, j)) == Block(w * j, w)
    {
      MulMono(w, 2 * (k + 1), j);
      assert w * (2 * (k + 1)) == i + s;
    }
  }

  /** Group `k` at slot `i` holding its block extends `Blocked` from `k + 1` down to `k`. */
  lemma BlockedFrom(c: Sources, n: nat, s: nat, i: nat, k: nat)
    requires i == s * k && c(Pool(i)) == Block(i, s)
    requires Blocked(c, n, s, k + 1)
    ensures Blocked(c, n, s, k)
  {
    forall j: nat | k <= j && s * j < n
      ensures c(Slot(s, j)) == Block(s * j, s)
    {
      if j == k {
        assert Slot(s, j) == Pool(i);
      }
    }
  }

  /** The two half-blocks a pair of the round reads. */
  lemma PairBlocks(c: Sources, n: nat, w: nat, i: nat, k: nat)
    requires Blocked(c, n, w, 2 * k) && i == 2 * w * k && i + 2 * w <= n && w >= 1
    ensures c(Pool(i)) + c(Pool(i + w)) == Block(i, 2 * w)
  {
    assert w * (2 * k) == i && w * (2 * k + 1) == i + w;
    assert Slot(w, 2 * k) == Pool(i) && Slot(w, 2 * k + 1) == Pool(i + w);
    BlockJoin(i, w);
  }

  lemma {:induction false} FlowOne(c: Sources, op: GpuOp)
    ensures Flow(c, [op]) == Step(c, op)
  {
    assert [op][1..] == [];
  }

  /** Halving `half` doubles the group size. */
  lemma NextGroupSize(n: nat, half: nat)
    requires IsPow2(n) && IsPow2(half) && 2 * half <= n && half > 1
    ensures half / 2 >= 1 && n / (half / 2) / 2 == n / half
  {
    RoundStep(n, half);
    var step := n / half;
    var h2 := half / 2;
    assert half == 2 * h2;
    assert n == step * half;
    Regroup(step, h2);
    DivExact(n, h2, 2 * step);
  }

  /** The rounds `half`, `half/2`, … `2` grow blocks of `n/half/2` frames into blocks of `n/2`. */
  lemma {:induction false} ReductionFlow(c: Sources, n: nat, half: nat)
    requires IsPow2(n) && IsPow2(half) && 2 * half <= n
    requires Blocked(c, n, n / half / 2, 0)
    ensures Blocked(Flow(c, ReductionOps(n, half)), n, n / 2, 0)
    ensures forall t: Target :: !t.Pool? && t != Accumulator ==> Flow(c, ReductionOps(n, half))(t) == c(t)
    decreases half
  {
    if half > 1 {
      RoundStep(n, half);
      var step := n / half;
      RoundFlow(c, n, step, step / 2, 0, 0, half);
      var c2 := Flow(c, RoundOps(n, step, 0));
      FlowAppend(c, RoundOps(n, step, 0), ReductionOps(n, half / 2));
      NextGroupSize(n, half);
      ReductionFlow(c2, n, half / 2);
    } else {
      assert ReductionOps(n, half) == [];
    }
  }

  /** The complete rounds `half`, … `1` grow blocks of `n/half/2` frames into one block of `n`. */
  lemma {:induction false} CompleteReductionFlow(c: Sources, n: nat, half: nat)
    requires IsPow2(n) && IsPow2(half) && 2 * half <= n
    requires Blocked(c, n, n / half / 2, 0)
    ensures Blocked(Flow(c, CompleteReductionOps(n, half)), n, n, 0)
    ensures forall t: Target :: !t.Pool? && t != Accumulator ==> Flow(c, CompleteReductionOps(n, half))(t) == c(t)
    decreases half
  {
    RoundStep(n, half);
    var step := n / half;
    RoundFlow(c, n, step, step / 2, 0, 0, half);
    var c2 := Flow(c, RoundOps(n, step, 0));
    FlowAppend(c, RoundOps(n, step, 0), CompleteReductionOps(n, half / 2));
    if half > 1 {
      NextGroupSize(n, half);
      CompleteReductionFlow(c2, n, half / 2);
    } else {
      assert CompleteReductionOps(n, half / 2) == [];
      assert step == n;
    }
  }

  lemma FilledBlocked(n: nat)
    ensures Blocked(Filled(), n, 1, 0)
  {
    forall j: nat | 0 <= j && 1 * j < n ensures Filled()(Slot(1, j)) == Block(1 * j, 1) {
      assert Block(j, 1) == {j} + Block(j + 1, 0);
    }
  }

  /** The first round's group size for a pool of `n`: blocks of one frame. */
  lemma FirstGroupSize(n: nat)
    requires IsPow2(n) && n >= 2
    ensures IsPow2(n / 2) && 2 * (n / 2) <= n && n / (n / 2) / 2 == 1
  {
    assert n == 2 * (n / 2);
    DivExact(n, n / 2, 2);
  }

  /** After reducing a full pool as the rounds are written, the upper half
      of the pool is held, reduced, in slot `n/2`, and slot 0 holds only
      the lower half. */
  lemma ReductionHalves(n: nat)
    requires IsPow2(n) && n >= 2
    ensures Flow(Filled(), ReductionOps(n, n / 2))(Pool(0)) == Block(0, n / 2)
    ensures Flow(Filled(), ReductionOps(n, n / 2))(Pool(n / 2)) == Block(n / 2, n / 2)
  {
    FirstGroupSize(n);
    FilledBlocked(n);
    ReductionFlow(Filled(), n, n / 2);
    assert Slot(n / 2, 0) == Pool(0);
    assert Slot(n / 2, 1) == Pool(n / 2);
  }

  /** The merge steps after the rounds, from sources `c` in which the
      preview target holds no frame of this batch. */
  lemma MergeFlow(c: Sources, count: nat)
    requires c(Preview) == {}
    ensures Flow(c, [Blend(Preview, Preview, Pool(1))] + MergeOps(count))(Accumulator) == c(Pool(0))
  {
    var save := [Blend(Preview, Preview, Pool(1))];
    FlowAppend(c, save, MergeOps(count));
    FlowOne(c, save[0]);
    var c1 := Step(c, save[0]);
    assert c1(Pool(1)) == {} && c1(Pool(0)) == c(Pool(0));
    FlowOne(c1, MergeOps(count)[0]);
  }

  /** As written, the accumulator receives exactly frames `0 … n/2 - 1` of a
      batch in which every slot holds its own frame (the first batch after
      construction or a drop): the frames rendered into the upper half of
      the pool never reach it. */
  lemma AccumulatorMissesUpperHalf(n: nat, count: nat)
    requires IsPow2(n) && n >= 2
    ensures Flow(Filled(), AccumulateOps(n, count))(Accumulator) == Block(0, n / 2)
  {
    var first := [Blend(Accumulator, Accumulator, Preview)];
    var rest := [Blend(Preview, Preview, Pool(1))] + MergeOps(count);
    assert AccumulateOps(n, count) == first + (ReductionOps(n, n / 2) + rest);
    FlowAppend(Filled(), first, ReductionOps(n, n / 2) + rest);
    FlowOne(Filled(), first[0]);
    var c1 := Step(Filled(), first[0]);
    FlowAppend(c1, ReductionOps(n, n / 2), rest);
    FirstGroupSize(n);
    FilledBlocked(n);
    assert Blocked(c1, n, 1, 0) by {
      forall j: nat | 0 <= j && 1 * j < n ensures c1(Slot(1, j)) == Block(1 * j, 1) {
        assert c1(Slot(1, j)) == Filled()(Slot(1, j));
      }
    }
    ReductionFlow(c1, n, n / 2);
    var c2 := Flow(c1, ReductionOps(n, n / 2));
    assert c1(Preview) == {};
    assert Slot(n / 2, 0) == Pool(0);
    MergeFlow(c2, count);
  }

  /** Nothing holds a frame of a batch that has not started. */
  function Empty(): Sources {
    (t: Target) => {}
  }

  /** The frames the pool slots `slots` hold between them. */
  function Gather(c: Sources, slots: set<nat>): set<nat> {
    set i, x | i in slots && x in c(Pool(i)) :: x
  }

  lemma GatherUnion(c: Sources, a: set<nat>, b: set<nat>)
    ensures Gather(c, a + b) == Gather(c, a) + Gather(c, b)
  {
    forall x | x in Gather(c, a + b) ensures x in Gather(c, a) + Gather(c, b) {
      var i :| i in a + b && x in c(Pool(i));
      if i in a {
        assert x in Gather(c, a);
      } else {
        assert x in Gather(c, b);
      }
    }
  }

  lemma GatherOne(c: Sources, i: nat)
    ensures Gather(c, {i}) == c(Pool(i))
  {
    forall x | x in c(Pool(i)) ensures x in Gather(c, {i}) {
      assert i in {i};
    }
  }

  /** Calls that only combine images move frames the same way whatever they
      are: if `e` holds, at every target, what the slots named by `d` hold
      under `c`, that stays so after the calls. */
  lemma {:induction false} FlowGathers(c: Sources, d: Sources, e: Sources, ops: seq<GpuOp>)
    requires forall t :: e(t) == Gather(c, d(t))
    requires forall op :: op in ops ==> !op.RenderScene?
    ensures forall t :: Flow(e, ops)(t) == Gather(c, Flow(d, ops)(t))
    decreases |ops|
  {
    if ops != [] {
      var op := ops[0];
      var e1, d1 := Step(e, op), Step(d, op);
      forall t ensures e1(t) == Gather(c, d1(t)) {
        match op
        case Blend(a, b, dst) =>
          if t == dst {
            GatherUnion(c, d(a), d(b));
          }
        case Avg(a, b, dst, _) =>
          if t == dst {
            GatherUnion(c, d(a), d(b));
          }
        case Clear(cleared) =>
          if t == cleared {
            assert Gather(c, {}) == {};
          }
        case _ =>
      }
      forall op' | op' in ops[1..] ensures !op'.RenderScene? {
        assert op' in ops;
      }
      FlowGathers(c, d1, e1, ops[1..]);
    }
  }

  /** As written, whatever the pool holds when the reduction starts, the
      accumulator receives exactly what slots `0 … n/2 - 1` hold, as long as
      no target outside the pool holds a frame of the batch. */
  lemma AccumulatorGathersLowerHalf(c: Sources, n: nat, count: nat)
    requires IsPow2(n) && n >= 2
    requires forall t: Target :: !t.Pool? ==> c(t) == {}
    ensures Flow(c, AccumulateOps(n, count))(Accumulator) == Gather(c, Block(0, n / 2))
  {
    forall t ensures c(t) == Gather(c, Filled()(t)) {
      if t.Pool? {
        GatherOne(c, t.index);
      } else {
        assert Gather(c, {}) == {};
      }
    }
    AccumulationWellFormed(n, count);
    FlowGathers(c, Filled(), c, AccumulateOps(n, count));
    AccumulatorMissesUpperHalf(n, count);
  }

  /** `c` after slots `lo … lo + k - 1` have each been rendered into. */
  function Rendered(c: Sources, lo: nat, k: nat): Sources {
    (t: Target) => if t.Pool? && lo <= t.index < lo + k then {t.index} else c(t)
  }

  /** Slots `j … j + k - 1` hold their own frames and no other target holds any. */
  ghost predicate HoldsOwnFrames(c: Sources, j: nat, k: nat) {
    forall t :: c(t) == Rendered(Empty(), j, k)(t)
  }

  /** `k` fills without a drop, from index `j`, put frame `i` into slot `i`
      for `j <= i < j + k` and leave every other target alone. */
  lemma {:induction false} FillsFlow(n: nat, s: CompositorState, k: nat, c: Sources)
    requires s.currentTargetIndex + k <= n
    ensures forall t :: Flow(c, RunOps(n, s, k))(t) == Rendered(c, s.currentTargetIndex, k)(t)
    decreases k
  {
    if k == 0 {
      assert RunOps(n, s, k) == [];
    } else {
      var tick := Tick(n, s, false);
      var fill := FillOps(s);
      assert tick.ops == fill;
      FlowAppend(c, fill, RunOps(n, tick.state, k - 1));
      FlowAppend(c, [fill[0]], [fill[1]]);
      assert [fill[0]] + [fill[1]] == fill;
      FlowOne(c, fill[0]);
      FlowOne(Step(c, fill[0]), fill[1]);
      var c1 := Flow(c, fill);
      FillsFlow(n, tick.state, k - 1, c1);
    }
  }

  /** The fills of a batch, from an empty record. */
  lemma FillsFromEmpty(n: nat, s: CompositorState)
    requires s.currentTargetIndex <= n
    ensures var j := s.currentTargetIndex;
      HoldsOwnFrames(Flow(Empty(), RunOps(n, s, n - j)), j, n - j)
  {
    FillsFlow(n, s, n - s.currentTargetIndex, Empty());
  }

  /** As written, a batch never hands its upper half to the accumulator. A
      batch that starts at index 0 (after construction or a drop) fills
      slots `0 … n-1`; every later batch starts at index 1 and fills slots
      `1 … n-1`, since `pool[0]` still holds the previous reduction. The
      reduction that ends the batch gives the accumulator frames
      `j … n/2 - 1` of it, for the starting index `j`, and nothing else. */
  lemma BatchMissesUpperHalf(n: nat, s: CompositorState)
    requires IsPow2(n) && n >= 2 && s.currentTargetIndex <= 1
    ensures var j := s.currentTargetIndex;
      Flow(Empty(), RunOps(n, s, n - j + 1))(Accumulator) == Block(j, n / 2 - j)
  {
    BatchOps(n, s);
    FillsThenReduce(n, s);
  }

  /** The fills of a batch followed by the reduction as written. */
  lemma FillsThenReduce(n: nat, s: CompositorState)
    requires IsPow2(n) && n >= 2 && s.currentTargetIndex <= 1
    ensures var j := s.currentTargetIndex;
      Flow(Empty(), RunOps(n, s, n - j) + AccumulateOps(n, s.accumulationCount))(Accumulator)
        == Block(j, n / 2 - j)
  {
    var j, fills := s.currentTargetIndex, RunOps(n, s, n - s.currentTargetIndex);
    FillsFromEmpty(n, s);
    ReduceAfterFillsFrom(fills, n, s);
  }

  /** Any calls that leave slots `j … n-1` holding their own frames and
      nothing else holding any, for the starting index `j` of `s`, followed
      by the reduction as written. */
  lemma ReduceAfterFillsFrom(fills: seq<GpuOp>, n: nat, s: CompositorState)
    requires IsPow2(n) && n >= 2 && s.currentTargetIndex <= 1
    requires HoldsOwnFrames(Flow(Empty(), fills), s.currentTargetIndex, n - s.currentTargetIndex)
    ensures var j := s.currentTargetIndex;
      Flow(Empty(), fills + AccumulateOps(n, s.accumulationCount))(Accumulator) == Block(j, n / 2 - j)
  {
    ReduceAfterFills(fills, n, s.currentTargetIndex, s.accumulationCount);
  }

  /** Any calls that leave slots `j … n-1` holding their own frames and
      nothing else holding any, followed by the reduction as written. */
  lemma ReduceAfterFills(fills: seq<GpuOp>, n: nat, j: nat, count: nat)
    requires IsPow2(n) && n >= 2 && j <= 1
    requires HoldsOwnFrames(Flow(Empty(), fills), j, n - j)
    ensures Flow(Empty(), fills + AccumulateOps(n, count))(Accumulator) == Block(j, n / 2 - j)
  {
    FlowAppend(Empty(), fills, AccumulateOps(n, count));
    var c := Flow(Empty(), fills);
    forall t: Target | !t.Pool? ensures c(t) == {} {
      assert c(t) == Rendered(Empty(), j, n - j)(t);
    }
    AccumulatorGathersLowerHalf(c, n, count);
    FilledFromGather(c, n, j);
  }

  /** A batch's calls: `n - j` fills, then the reduction. */
  lemma BatchOps(n: nat, s: CompositorState)
    requires n >= 1 && s.currentTargetIndex <= 1
    ensures var j := s.currentTargetIndex;
      RunOps(n, s, n - j + 1) == RunOps(n, s, n - j) + AccumulateOps(n, s.accumulationCount)
  {
    var k := n - s.currentTargetIndex;
    RunOpsAppend(n, s, k, 1);
    RunFills(n, s, k);
    var last := Run(n, s, k);
    assert RunOps(n, last, 1) == AccumulateOps(n, s.accumulationCount) + RunOps(n, Tick(n, last, false).state, 0);
  }

  /** Slots `j … n-1` holding their own frames and nothing else holding any:
      the lower half of the pool holds frames `j … n/2 - 1`. */
  lemma FilledFromGather(c: Sources, n: nat, j: nat)
    requires j <= 1 && n >= 2
    requires HoldsOwnFrames(c, j, n - j)
    ensures Gather(c, Block(0, n / 2)) == Block(j, n / 2 - j)
  {
    forall x: nat ensures x in Gather(c, Block(0, n / 2)) <==> x in Block(j, n / 2 - j) {
      InBlock(j, n / 2 - j, x);
      InBlock(0, n / 2, x);
      if x in Gather(c, Block(0, n / 2)) {
        var i :| i in Block(0, n / 2) && x in c(Pool(i));
        InBlock(0, n / 2, i);
      }
      if x in Block(j, n / 2 - j) {
        assert x in c(Pool(x));
      }
    }
  }

  /** With the complete rounds, the accumulator receives every frame of the batch. */
  lemma CompleteAccumulationMergesAll(n: nat, count: nat)
    requires IsPow2(n) && n >= 2
    ensures Flow(Filled(), CompleteAccumulateOps(n, count))(Accumulator) == Block(0, n)
  {
    var first := [Blend(Accumulator, Accumulator, Preview)];
    var rest := [Blend(Preview, Preview, Pool(1))] + MergeOps(count);
    assert CompleteAccumulateOps(n, count) == first + (CompleteReductionOps(n, n / 2) + rest);
    FlowAppend(Filled(), first, CompleteReductionOps(n, n / 2) + rest);
    FlowOne(Filled(), first[0]);
    var c1 := Step(Filled(), first[0]);
    FlowAppend(c1, CompleteReductionOps(n, n / 2), rest);
    FirstGroupSize(n);
    FilledBlocked(n);
    assert Blocked(c1, n, 1, 0) by {
      forall j: nat | 0 <= j && 1 * j < n ensures c1(Slot(1, j)) == Block(1 * j, 1) {
        assert c1(Slot(1, j)) == Filled()(Slot(1, j));
      }
    }
    CompleteReductionFlow(c1, n, n / 2);
    var c2 := Flow(c1, CompleteReductionOps(n, n / 2));
    assert c1(Preview) == {};
    assert Slot(n, 0) == Pool(0);
    MergeFlow(c2, count);
  }

  /** With the complete rounds, whatever the pool holds, the accumulator
      receives what all `n` slots hold between them. */
  lemma CompleteAccumulatorGathersAll(c: Sources, n: nat, count: nat)
    requires IsPow2(n) && n >= 2
    requires forall t: Target :: !t.Pool? ==> c(t) == {}
    ensures Flow(c, CompleteAccumulateOps(n, count))(Accumulator) == Gather(c, Block(0, n))
  {
    forall t ensures c(t) == Gather(c, Filled()(t)) {
      if t.Pool? {
        GatherOne(c, t.index);
      } else {
        assert Gather(c, {}) == {};
      }
    }
    CompleteAccumulationWellFormed(n, count);
    FlowGathers(c, Filled(), c, CompleteAccumulateOps(n, count));
    CompleteAccumulationMergesAll(n, count);
  }

  /** Slots `j … n-1` holding their own frames and nothing else holding any:
      the whole pool holds frames `j … n-1`. */
  lemma FilledGatherAll(c: Sources, n: nat, j: nat)
    requires j <= 1 && n >= 2
    requires HoldsOwnFrames(c, j, n - j)
    ensures Gather(c, Block(0, n)) == Block(j, n - j)
  {
    forall x: nat ensures x in Gather(c, Block(0, n)) <==> x in Block(j, n - j) {
      InBlock(j, n - j, x);
      InBlock(0, n, x);
      if x in Gather(c, Block(0, n)) {
        var i :| i in Block(0, n) && x in c(Pool(i));
        InBlock(0, n, i);
      }
      if x in Block(j, n - j) {
        assert x in c(Pool(x));
      }
    }
  }

  /** With the complete rounds, every frame a batch renders reaches the
      accumulator: frames `0 … n-1` of a batch starting at index 0, and
      frames `1 … n-1` of every later batch, whose `pool[0]` holds the
      previous reduction rather than a frame of the batch. */
  lemma CompleteBatchMergesAll(n: nat, s: CompositorState)
    requires IsPow2(n) && n >= 2 && s.currentTargetIndex <= 1
    ensures var j := s.currentTargetIndex;
      Flow(Empty(), RunOps(n, s, n - j) + CompleteAccumulateOps(n, s.accumulationCount))(Accumulator)
        == Block(j, n - j)
  {
    var j, fills := s.currentTargetIndex, RunOps(n, s, n - s.currentTargetIndex);
    FillsFromEmpty(n, s);
    CompleteReduceAfterFillsFrom(fills, n, s);
  }

  /** Any calls that leave slots `j … n-1` holding their own frames and
      nothing else holding any, for the starting index `j` of `s`, followed
      by the complete reduction. */
  lemma CompleteReduceAfterFillsFrom(fills: seq<GpuOp>, n: nat, s: CompositorState)
    requires IsPow2(n) && n >= 2 && s.currentTargetIndex <= 1
    requires HoldsOwnFrames(Flow(Empty(), fills), s.currentTargetIndex, n - s.currentTargetIndex)
    ensures var j := s.currentTargetIndex;
      Flow(Empty(), fills + CompleteAccumulateOps(n, s.accumulationCount))(Accumulator) == Block(j, n - j)
  {
    CompleteReduceAfterFills(fills, n, s.currentTargetIndex, s.accumulationCount);
  }

  /** Any calls that leave slots `j … n-1` holding their own frames and
      nothing else holding any, followed by the complete reduction. */
  lemma CompleteReduceAfterFills(fills: seq<GpuOp>, n: nat, j: nat, count: nat)
    requires IsPow2(n) && n >= 2 && j <= 1
    requires HoldsOwnFrames(Flow(Empty(), fills), j, n - j)
    ensures Flow(Empty(), fills + CompleteAccumulateOps(n, count))(Accumulator) == Block(j, n - j)
  {
    FlowAppend(Empty(), fills, CompleteAccumulateOps(n, count));
    var c := Flow(Empty(), fills);
    forall t: Target | !t.Pool? ensures c(t) == {} {
      assert c(t) == Rendered(Empty(), j, n - j)(t);
    }
    CompleteAccumulatorGathersAll(c, n, count);
    FilledGatherAll(c, n, j);
  }
}
