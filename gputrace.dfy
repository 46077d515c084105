/**
 * The GPU side of the program, seen from the host: every command list that
 * an engine executes, every fence signal and every fence wait it puts on a
 * queue, in submission order. The engines keep one such trace per queue.
 */
module GpuTrace {

  /** The three fences of the pipeline: the compute engine's shared fence,
   *  the render engine's frame fence and its cross-queue copy fence. */
  datatype Fence = ComputeFence | RenderFence | CopyFence

  /** Buffers named from the point of view of the current wiring:
   *  SharedPosition(i) is position buffer i placed in the compute engine's
   *  shared heap (the render engine opens the same heap), Velocity(i) is the
   *  compute engine's velocity buffer i, LocalPosition(i) is the render
   *  engine's vertex buffer i, PreviousShared(i) is buffer i of the shared
   *  heap of a compute engine being replaced. */
  datatype Buffer =
    | SharedPosition(i: nat)
    | Velocity(i: nat)
    | LocalPosition(i: nat)
    | PreviousShared(i: nat)

  datatype Event =
    | Wait(fence: Fence, value: nat)               // queue waits until fence >= value
    | Signal(fence: Fence, value: nat)             // queue sets fence to value
    | Upload(dst: Buffer)                          // host data copied into dst
    | Copy(dst: Buffer, src: Buffer, bytes: nat)   // CopyBufferRegion(dst, 0, src, 0, bytes)
    | Dispatch(tableBase: nat, groups: nat)        // compute shader over the UAV window at tableBase
    | UavBarrier(target: Buffer)                   // all writes to target complete
    | DrawParticles(src: Buffer, count: nat)       // DrawInstanced over a vertex buffer

  const Two64: nat := 0x1_0000_0000_0000_0000
  const Two32: nat := 0x1_0000_0000

  /** UINT64 subtraction, which wraps below zero. Fence counters themselves are
   *  unbounded here; only the wrap of a subtraction below zero is modelled. */
  function Sub64(a: nat, b: nat): (r: nat)
    requires b <= Two64
    ensures (r + b) % Two64 == a % Two64
    ensures b <= a ==> r == a - b
    ensures a < b ==> r >= Two64 - b
  {
    if b <= a then a - b else Two64 + a - b
  }

  /** UINT (32-bit) addition, which wraps at 2^32. */
  function Add32(a: nat, b: nat): (r: nat)
    requires a < Two32 && b < Two32
    ensures r < Two32
    ensures a + b < Two32 ==> r == a + b
    ensures a + b >= Two32 ==> r == a + b - Two32
  {
    (a + b) % Two32
  }

  /** The values lo, lo+1, ..., hi-1. */
  function Iota(lo: nat, hi: nat): (r: seq<nat>)
    ensures |r| == if lo <= hi then hi - lo else 0
    decreases hi
  {
    if hi <= lo then [] else Iota(lo, hi - 1) + [hi - 1]
  }

  lemma {:induction false} IotaAt(lo: nat, hi: nat, i: nat)
    requires lo <= hi && i < hi - lo
    ensures Iota(lo, hi)[i] == lo + i
    decreases hi
  {
    if i < hi - 1 - lo {
      IotaAt(lo, hi - 1, i);
    }
  }

  /** A sequence of signal values in which every value is strictly larger
   *  than all the earlier ones. */
  predicate StrictlyIncreasing(s: seq<nat>) {
    forall i, j :: 0 <= i < j < |s| ==> s[i] < s[j]
  }

  lemma IotaStrictlyIncreasing(lo: nat, hi: nat)
    ensures StrictlyIncreasing(Iota(lo, hi))
  {
    forall i, j | 0 <= i < j < |Iota(lo, hi)|
      ensures Iota(lo, hi)[i] < Iota(lo, hi)[j]
    {
      IotaAt(lo, hi, i);
      IotaAt(lo, hi, j);
    }
  }

  /** The values signalled on fence f, in queue order. */
  function Signals(t: seq<Event>, f: Fence): (r: seq<nat>)
    ensures |r| <= |t|
  {
    if t == [] then []
    else
      var last := t[|t| - 1];
      Signals(t[..|t| - 1], f) + (if last.Signal? && last.fence == f then [last.value] else [])
  }

  /** The values signalled on fence f are 1, 2, ..., n - 1, in order. It is stated through
   *  m so that the solver expands it only where a term Iota(1, _) is at hand. */
  ghost predicate SignalledUpTo(t: seq<Event>, f: Fence, n: nat) {
    forall m :: m == n ==> Signals(t, f) == Iota(1, m)
  }

  lemma {:induction false} SignalsAppend(t: seq<Event>, u: seq<Event>, f: Fence)
    ensures Signals(t + u, f) == Signals(t, f) + Signals(u, f)
    decreases |u|
  {
    if u == [] {
      assert t + u == t;
    } else {
      var u' := u[..|u| - 1];
      assert (t + u)[..|t + u| - 1] == t + u';
      SignalsAppend(t, u', f);
    }
  }

  /** A stretch of commands without any signal adds nothing to Signals. */
  lemma {:induction false} SignalsNone(t: seq<Event>, f: Fence)
    requires forall i :: 0 <= i < |t| ==> !t[i].Signal?
    ensures Signals(t, f) == []
    decreases |t|
  {
    if t != [] {
      SignalsNone(t[..|t| - 1], f);
    }
  }

  /** Commands adding no signal on f keep SignalledUpTo as it is. */
  lemma SignalledNone(t: seq<Event>, u: seq<Event>, f: Fence, n: nat)
    requires SignalledUpTo(t, f, n) && Signals(u, f) == []
    ensures SignalledUpTo(t + u, f, n)
  {
    assert Signals(t, f) == Iota(1, n);
    SignalsAppend(t, u, f);
  }

  /** Commands signalling exactly the next value on f advance SignalledUpTo by one. */
  lemma SignalledNext(t: seq<Event>, u: seq<Event>, f: Fence, n: nat)
    requires 1 <= n && SignalledUpTo(t, f, n) && Signals(u, f) == [n]
    ensures SignalledUpTo(t + u, f, n + 1)
  {
    assert Signals(t, f) == Iota(1, n);
    SignalsAppend(t, u, f);
    assert Iota(1, n + 1) == Iota(1, n) + [n];
  }

  /** Every value in the trace that a Signal on f carries is one of Signals(t, f). */
  lemma {:induction false} SignalIsRecorded(t: seq<Event>, f: Fence, k: nat)
    requires k < |t| && t[k].Signal? && t[k].fence == f
    ensures t[k].value in Signals(t, f)
    decreases |t|
  {
    if k < |t| - 1 {
      SignalIsRecorded(t[..|t| - 1], f, k);
    }
  }

  /** Does the event read or write buffer b? */
  predicate ReadsFrom(e: Event, b: Buffer) {
    match e
    case Copy(_, src, _) => src == b
    case DrawParticles(src, _) => src == b
    case _ => false
  }

  predicate WritesTo(e: Event, b: Buffer) {
    match e
    case Copy(dst, _, _) => dst == b
    case Upload(dst) => dst == b
    case _ => false
  }

  /** The data flow of a run of commands: the buffer whose data b holds once the
   *  commands have run in order, named by where that data was before they ran. The
   *  last copy into b decides; a buffer that no copy writes keeps its own data.
   *  Copy sizes are not tracked here. */
  function Holds(t: seq<Event>, b: Buffer): Buffer
    decreases |t|
  {
    if t == [] then b
    else
      var last := t[|t| - 1];
      if last.Copy? && last.dst == b then Holds(t[..|t| - 1], last.src)
      else Holds(t[..|t| - 1], b)
  }

  /** Running t and then u: what b holds after u is looked up after t. */
  lemma {:induction false} HoldsAppend(t: seq<Event>, u: seq<Event>, b: Buffer)
    ensures Holds(t + u, b) == Holds(t, Holds(u, b))
    decreases |u|
  {
    if u == [] {
      assert t + u == t;
    } else {
      var u' := u[..|u| - 1];
      var last := u[|u| - 1];
      assert (t + u)[..|t + u| - 1] == t + u';
      if last.Copy? && last.dst == b {
        HoldsAppend(t, u', last.src);
      } else {
        HoldsAppend(t, u', b);
      }
    }
  }
}
