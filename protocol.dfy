/**
 * One steady-state frame of the two-adapter pipeline, as Particles::Draw
 * drives it: the orchestrator reads the compute engine's next fence value,
 * Render::Draw queues the copy and the draw, and Compute::Simulate is given
 * the copy fence value Draw hands back. This module states the frame on
 * values so that properties across several frames can be proved; the
 * engine classes produce exactly these commands (their Draw and Simulate
 * postconditions) and the orchestrator keeps the wiring invariant.
 */
module FrameProtocol {
  import opened GpuTrace
  import opened ComputeEngine
  import opened RenderEngine

  /** The counters and indices that decide a frame's commands: the compute engine's
   *  buffer index and next fence value, the render engine's shared and current buffer
   *  indices, its next render fence value and its last copy fence value. */
  datatype Pipeline = Pipeline(bufferIndex: nat, computeFence: nat,
                               sharedIndex: nat, currentIndex: nat,
                               renderFence: nat, copyFence: nat)

  /** The particle counts of one frame. */
  datatype Counts = Counts(rendered: nat, copied: nat, simulated: nat)

  /** The commands one frame adds to each of the three queues. */
  datatype FrameTrace = FrameTrace(compute: seq<Event>, copy: seq<Event>, render: seq<Event>)

  ghost predicate Indices(p: Pipeline) {
    p.bufferIndex < NumBuffers && p.sharedIndex < NumBuffers && p.currentIndex < NumBuffers
  }

  /** After ShareHandles the render engine's shared index is the compute engine's buffer index. */
  ghost predicate Wired(p: Pipeline) {
    Indices(p) && p.sharedIndex == p.bufferIndex
  }

  /** The commands of one frame, as written. */
  function FrameEvents(p: Pipeline, n: Counts): (t: FrameTrace)
    requires Indices(p)
  {
    FrameTrace(
      SimulateEvents(p.bufferIndex, p.computeFence, p.copyFence + 1, n.simulated),
      CopyEvents(p.renderFence, p.sharedIndex, p.currentIndex, p.computeFence, n.copied, p.copyFence),
      DrawEvents(p.currentIndex, n.rendered, p.copyFence + 1, p.renderFence))
  }

  /** The counters and indices after one frame. */
  function Next(p: Pipeline): (q: Pipeline)
    requires Indices(p)
    ensures Indices(q)
  {
    Pipeline(1 - p.bufferIndex, p.computeFence + 1, 1 - p.sharedIndex, 1 - p.currentIndex,
             p.renderFence + 1, p.copyFence + 1)
  }

  /** k frames in a row. */
  function Run(p: Pipeline, k: nat): (q: Pipeline)
    requires Indices(p)
    ensures Indices(q)
  {
    if k == 0 then p else Next(Run(p, k - 1))
  }

  /** The wiring survives any number of frames, and every counter advances by one per frame. */
  lemma {:induction false} RunKeepsWiring(p: Pipeline, k: nat)
    requires Wired(p)
    ensures Wired(Run(p, k))
    ensures Run(p, k).computeFence == p.computeFence + k
    ensures Run(p, k).renderFence == p.renderFence + k
    ensures Run(p, k).copyFence == p.copyFence + k
    ensures Run(p, k).bufferIndex == (if k % 2 == 0 then p.bufferIndex else 1 - p.bufferIndex)
  {
    if k > 0 {
      RunKeepsWiring(p, k - 1);
    }
  }

  /** The compute queue's wait targets the copy value signalled before this frame's
   *  copy: Simulate's "sharedFenceValue - 1" never wraps inside a frame. */
  lemma SimulateWaitsForPreviousCopy(p: Pipeline, n: Counts)
    requires Indices(p)
    ensures FrameEvents(p, n).compute[0] == Wait(CopyFence, p.copyFence)
    ensures FrameEvents(p, n).copy[4] == Signal(CopyFence, p.copyFence + 1)
  {
  }

  /** The copy queue's first wait targets the render signal of the previous frame, which
   *  comes after the draw that read the local buffer this frame's copy overwrites. */
  lemma {:induction false} CopyWaitsForPreviousDraw(p: Pipeline, n0: Counts, n1: Counts)
    requires Indices(p) && p.renderFence >= 1
    ensures var f0 := FrameEvents(p, n0);
            var f1 := FrameEvents(Next(p), n1);
            f1.copy[0] == Wait(RenderFence, f0.render[2].value) &&
            f0.render[2] == Signal(RenderFence, p.renderFence) &&
            ReadsFrom(f0.render[0], LocalPosition(p.currentIndex)) &&
            WritesTo(f1.copy[2], LocalPosition(p.currentIndex))
  {
    var q := Next(p);
    assert Sub64(q.renderFence, 1) == p.renderFence;
  }

  /** The frame after a copy draws the local buffer that copy wrote. */
  lemma NextFrameDrawsCopiedBuffer(p: Pipeline, n0: Counts, n1: Counts)
    requires Indices(p)
    ensures var written := FrameEvents(p, n0).copy[2].dst;
            ReadsFrom(FrameEvents(Next(p), n1).render[0], written)
  {
  }

  /** Within a frame neither the copy nor the dispatch waits for the other: the copy
   *  queue's only wait before its copy is on the render fence, and the compute queue's
   *  only wait before its dispatch targets a copy value already reached before this
   *  frame's copy is signalled. */
  lemma CopyAndDispatchUnordered(p: Pipeline, n: Counts)
    requires Indices(p)
    ensures var f := FrameEvents(p, n);
            f.copy[2].Copy? && f.compute[1].Dispatch? &&
            (forall i :: 0 <= i < 2 ==> f.copy[i].Wait? ==> f.copy[i].fence == RenderFence) &&
            f.compute[0].Wait? && f.compute[0].fence == CopyFence &&
            f.compute[0].value < f.copy[4].value
  {
  }

  /** As written, the copy of a wired frame reads the very shared buffer that the same
   *  frame's dispatch writes: the comments at both index computations promise the opposite. */
  lemma {:induction false} CopySourceIsSimulateDestination(p: Pipeline, n: Counts, d: seq<View>)
    requires Wired(p) && IsSharedLayout(d)
    ensures var f := FrameEvents(p, n);
            f.copy[2].src in DispatchOutputs(d, f.compute[1].tableBase) &&
            f.copy[2].src == SharedPosition(1 - p.bufferIndex)
  {
    DispatchPingPong(d, p.bufferIndex);
  }

  /** The same holds in every later frame, however many frames have run. */
  lemma {:induction false} CopySourceIsSimulateDestinationForever(p: Pipeline, k: nat, n: Counts, d: seq<View>)
    requires Wired(p) && IsSharedLayout(d)
    ensures var f := FrameEvents(Run(p, k), n);
            f.copy[2].src in DispatchOutputs(d, f.compute[1].tableBase)
  {
    RunKeepsWiring(p, k);
    CopySourceIsSimulateDestination(Run(p, k), n, d);
  }

  /** As written, the copy of frame k+1 reads the buffer that frame k's dispatch read,
   *  not the one it wrote: the delivered positions are those of two dispatches back. */
  lemma {:induction false} CopyReadsStaleBuffer(p: Pipeline, n0: Counts, n1: Counts, d: seq<View>)
    requires Wired(p) && IsSharedLayout(d)
    ensures var f0 := FrameEvents(p, n0);
            var f1 := FrameEvents(Next(p), n1);
            f1.copy[2].src in DispatchInputs(d, f0.compute[1].tableBase) &&
            f1.copy[2].src !in DispatchOutputs(d, f0.compute[1].tableBase)
  {
    DispatchPingPong(d, p.bufferIndex);
  }

  /** The source index the comment at the copy describes: the shared buffer pointed to
   *  by m_sharedBufferIndex. */
  function IntendedCopySource(sharedIndex: nat): (b: Buffer)
    requires sharedIndex < NumBuffers
    ensures b.SharedPosition? && b.i < NumBuffers
  {
    SharedPosition(sharedIndex)
  }

  /** The copy-queue commands with the intended source index. */
  function IntendedCopyEvents(p: Pipeline, n: Counts): (r: seq<Event>)
    requires Indices(p)
  {
    var events := CopyEvents(p.renderFence, p.sharedIndex, p.currentIndex, p.computeFence, n.copied, p.copyFence);
    events[1 := UavBarrier(IntendedCopySource(p.sharedIndex))]
          [2 := Copy(LocalPosition(1 - p.currentIndex), IntendedCopySource(p.sharedIndex), n.copied * ParticleBytes)]
  }

  /** With the intended index the copy never reads what the same frame's dispatch writes,
   *  and it reads exactly what the previous frame's dispatch wrote, after the copy queue
   *  has waited (at the end of the previous frame) for that dispatch's fence signal. */
  lemma {:induction false} IntendedCopyIsRaceFree(p: Pipeline, n0: Counts, n1: Counts, d: seq<View>)
    requires Wired(p) && IsSharedLayout(d)
    ensures var q := Next(p);
            var f1 := FrameEvents(q, n1);
            IntendedCopyEvents(q, n1)[2].src !in DispatchOutputs(d, f1.compute[1].tableBase)
    ensures var f0 := FrameEvents(p, n0);
            var q := Next(p);
            IntendedCopyEvents(q, n1)[2].src in DispatchOutputs(d, f0.compute[1].tableBase) &&
            f0.compute[3] == Signal(ComputeFence, p.computeFence) &&
            IntendedCopyEvents(p, n0)[3] == Wait(ComputeFence, p.computeFence)
  {
    var q := Next(p);
    DispatchPingPong(d, p.bufferIndex);
    DispatchPingPong(d, q.bufferIndex);
  }
}
