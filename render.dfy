/**
 * The render engine (Particles/Render.cpp): a direct queue that draws from
 * one of two local vertex buffers, a copy queue that pulls the compute
 * engine's latest results from the shared heap into the other local buffer,
 * a frame fence on the direct queue and a copy fence, shared with the
 * compute engine, on the copy queue.
 */
module RenderEngine {
  import opened GpuTrace
  import Extension
  import opened ComputeEngine

  const DxgiPresentAllowTearing: nat := 0x200

  /** Present's arguments: the sync interval follows the vsync setting, and tearing
   *  is requested only for a windowed swap chain that supports it with vsync off. */
  function PresentParameters(vsync: bool, windowedSupportsTearing: bool, fullScreen: bool): (r: (nat, nat))
    ensures r.0 == 1 <==> vsync
    ensures r.0 == 0 <==> !vsync
    ensures r.1 == DxgiPresentAllowTearing <==> windowedSupportsTearing && !fullScreen && !vsync
    ensures r.1 == 0 <==> !(windowedSupportsTearing && !fullScreen && !vsync)
  {
    var syncInterval := if vsync then 1 else 0;
    var presentFlags := if windowedSupportsTearing && !fullScreen && syncInterval == 0 then DxgiPresentAllowTearing else 0;
    (syncInterval, presentFlags)
  }

  /** What creating a swap chain leaves in m_windowedSupportsTearing: false in full
   *  screen, true when the factory allows tearing, and otherwise the previous value. */
  function TearingAfterSwapChain(previous: bool, fullScreen: bool, allowTearing: bool): (r: bool)
    ensures fullScreen ==> !r
    ensures !fullScreen && allowTearing ==> r
    ensures !fullScreen && !allowTearing ==> r == previous
  {
    if fullScreen then false else if allowTearing then true else previous
  }

  /** The copy-queue commands of CopySimulationResults as written: wait for the previous
   *  frame's render signal, copy 'numCopied' particles from shared buffer 1 - sharedIndex
   *  into local buffer 1 - currentIndex, wait for the compute fence to reach the value
   *  passed in, then signal the next copy fence value. */
  function CopyEvents(renderFenceValue: nat, sharedIndex: nat, currentIndex: nat, computeFenceValue: nat,
                      numCopied: nat, copyFenceValue: nat): (r: seq<Event>)
    requires sharedIndex < NumBuffers && currentIndex < NumBuffers
  {
    [ Wait(RenderFence, Sub64(renderFenceValue, 1)),
      UavBarrier(SharedPosition(1 - sharedIndex)),
      Copy(LocalPosition(1 - currentIndex), SharedPosition(1 - sharedIndex), numCopied * ParticleBytes),
      Wait(ComputeFence, computeFenceValue),
      Signal(CopyFence, copyFenceValue + 1) ]
  }

  /** The direct-queue commands of Draw: draw the current local buffer, wait for the
   *  copy signalled this frame, then the end-of-frame signal of MoveToNextFrame. */
  function DrawEvents(currentIndex: nat, numActive: nat, copyFenceValue: nat, renderFenceValue: nat): (r: seq<Event>)
  {
    [ DrawParticles(LocalPosition(currentIndex), numActive),
      Wait(CopyFence, copyFenceValue),
      Signal(RenderFence, renderFenceValue) ]
  }

  /** SetShared's initial copy, on the direct queue: every shared buffer into the
   *  local buffer of the same index, each a full buffer. */
  function InitialCopies(k: nat, bytes: nat): seq<Event>
  {
    seq(k, i requires 0 <= i => Copy(LocalPosition(i), SharedPosition(i), bytes))
  }

  /** After the initial copy, local buffer i < k holds shared buffer i, and no other
   *  buffer changes. */
  lemma {:induction false} InitialCopiesHold(k: nat, bytes: nat, b: Buffer)
    ensures Holds(InitialCopies(k, bytes), b) == if b.LocalPosition? && b.i < k then SharedPosition(b.i) else b
    decreases k
  {
    if k > 0 {
      var t := InitialCopies(k, bytes);
      assert t[..k - 1] == InitialCopies(k - 1, bytes);
      if b == LocalPosition(k - 1) {
        InitialCopiesHold(k - 1, bytes, SharedPosition(k - 1));
      } else {
        InitialCopiesHold(k - 1, bytes, b);
      }
    }
  }

  class Render {
    const numParticles: nat
    /** NUM_FRAMES, the swap chain's buffer count. */
    const numFrames: nat
    const extensionEnabled: bool
    const fullScreen: bool
    /** m_bufferSize: the bytes of one local position buffer. */
    const bufferSize: nat
    const frameFenceValues: array<nat>

    var usingExtension: bool
    var queuesCreated: nat
    var windowedSupportsTearing: bool
    var frameIndex: nat
    var renderFenceValue: nat
    var copyFenceValue: nat
    var currentBufferIndex: nat
    var sharedBufferIndex: nat
    /** Offsets of the placed shared buffers opened by SetShared. */
    var sharedOffsets: seq<nat>
    /** Whether SetShared has opened the compute engine's heap and fence. */
    var shared: bool

    ghost var renderQueue: seq<Event>
    ghost var copyQueue: seq<Event>

    /** Render-fence signals are 1, ..., renderFenceValue - 1 (all on the direct queue);
     *  copy-fence signals are 1, ..., copyFenceValue (all on the copy queue); every
     *  recorded frame value has already been signalled or is the initial 0. */
    ghost predicate FenceInvariant()
      reads this, frameFenceValues
    {
      renderFenceValue >= 1 &&
      SignalledUpTo(renderQueue, RenderFence, renderFenceValue) &&
      SignalledUpTo(copyQueue, CopyFence, copyFenceValue + 1) &&
      frameFenceValues.Length == numFrames &&
      forall i :: 0 <= i < numFrames ==> frameFenceValues[i] < renderFenceValue
    }

    ghost predicate Valid()
      reads this, frameFenceValues
    {
      FenceInvariant() &&
      numFrames >= 1 && frameIndex < numFrames &&
      currentBufferIndex < NumBuffers && sharedBufferIndex < NumBuffers &&
      bufferSize == numParticles * ParticleBytes &&
      (!extensionEnabled ==> !usingExtension) &&
      (fullScreen ==> !windowedSupportsTearing)
    }

    /** Models the constructor with CreateCommandQueue, CreateSwapChain and LoadAssets.
     *  'allowTearing' is the factory's tearing support and 'backBufferIndex' the new
     *  swap chain's current back buffer. */
    constructor (numParticles: nat, numFrames: nat, useExtension: bool, extensionEnabled: bool,
                 fullScreen: bool, allowTearing: bool, backBufferIndex: nat)
      requires 1 <= numFrames && backBufferIndex < numFrames
      ensures Valid() && fresh(frameFenceValues)
      ensures this.numParticles == numParticles && this.numFrames == numFrames
      ensures this.extensionEnabled == extensionEnabled && this.fullScreen == fullScreen
      ensures usingExtension == (useExtension && extensionEnabled) && queuesCreated == 1
      ensures windowedSupportsTearing == (!fullScreen && allowTearing)
      ensures frameIndex == backBufferIndex && currentBufferIndex == 0
      ensures renderFenceValue == 2 && copyFenceValue == 1
      ensures renderQueue == [Wait(CopyFence, 1), Signal(RenderFence, 1)] && copyQueue == [Signal(CopyFence, 1)]
      ensures forall i :: 0 <= i < numFrames ==> frameFenceValues[i] == 0
      ensures !shared
    {
      this.numParticles := numParticles;
      this.numFrames := numFrames;
      this.extensionEnabled := extensionEnabled;
      this.fullScreen := fullScreen;
      bufferSize := numParticles * ParticleBytes;
      frameFenceValues := new nat[numFrames](_ => 0);
      currentBufferIndex := 0;
      renderFenceValue := 0;
      copyFenceValue := 0;
      windowedSupportsTearing := false;
      usingExtension := useExtension && extensionEnabled;
      queuesCreated := 0;
      frameIndex := 0;
      // Render.cpp sets m_sharedBufferIndex only in SetShared; 0 is an assumed starting
      // value (Render.h is not part of this model), and SetShared overwrites it before use.
      sharedBufferIndex := 0;
      sharedOffsets := [];
      shared := false;
      renderQueue := [];
      copyQueue := [];
      new;
      CreateCommandQueue(allowTearing, backBufferIndex);
      LoadAssets();
    }

    /** Models CreateCommandQueue, which always ends by recreating the swap chain. */
    method CreateCommandQueue(allowTearing: bool, backBufferIndex: nat)
      requires backBufferIndex < numFrames
      modifies this
      ensures queuesCreated == old(queuesCreated) + 1
      ensures windowedSupportsTearing == TearingAfterSwapChain(old(windowedSupportsTearing), fullScreen, allowTearing)
      ensures frameIndex == backBufferIndex
      ensures usingExtension == old(usingExtension) && renderFenceValue == old(renderFenceValue)
      ensures copyFenceValue == old(copyFenceValue) && renderQueue == old(renderQueue) && copyQueue == old(copyQueue)
      ensures currentBufferIndex == old(currentBufferIndex) && sharedBufferIndex == old(sharedBufferIndex)
      ensures sharedOffsets == old(sharedOffsets) && shared == old(shared)
    {
      queuesCreated := queuesCreated + 1;
      // CreateSwapChain
      if fullScreen {
        windowedSupportsTearing := false;
      } else if allowTearing {
        windowedSupportsTearing := true;
      }
      frameIndex := backBufferIndex;
    }

    /** The fence part of LoadAssets: the render fence is created at 0 and the counter
     *  advances to 1, the copy fence is created at 0, and setup is drained. */
    method LoadAssets()
      requires renderFenceValue == 0 && copyFenceValue == 0 && renderQueue == [] && copyQueue == []
      requires frameFenceValues.Length == numFrames && forall i :: 0 <= i < numFrames ==> frameFenceValues[i] == 0
      modifies this
      ensures FenceInvariant()
      ensures renderFenceValue == 2 && copyFenceValue == 1
      ensures renderQueue == [Wait(CopyFence, 1), Signal(RenderFence, 1)] && copyQueue == [Signal(CopyFence, 1)]
      ensures usingExtension == old(usingExtension) && queuesCreated == old(queuesCreated)
      ensures windowedSupportsTearing == old(windowedSupportsTearing) && frameIndex == old(frameIndex)
      ensures currentBufferIndex == old(currentBufferIndex) && sharedBufferIndex == old(sharedBufferIndex)
      ensures sharedOffsets == old(sharedOffsets) && shared == old(shared)
    {
      renderFenceValue := renderFenceValue + 1;
      copyFenceValue := 0;
      WaitForGpu();
    }

    /** Models WaitForGpu: the copy queue signals the next copy value, the direct queue
     *  waits for it and then signals the render fence, and the host waits for that. */
    method WaitForGpu()
      requires renderFenceValue >= 1
      requires SignalledUpTo(renderQueue, RenderFence, renderFenceValue)
      requires SignalledUpTo(copyQueue, CopyFence, copyFenceValue + 1)
      requires frameFenceValues.Length == numFrames && forall i :: 0 <= i < numFrames ==> frameFenceValues[i] < renderFenceValue
      modifies this
      ensures FenceInvariant()
      ensures copyFenceValue == old(copyFenceValue) + 1 && renderFenceValue == old(renderFenceValue) + 1
      ensures copyQueue == old(copyQueue) + [Signal(CopyFence, copyFenceValue)]
      ensures renderQueue == old(renderQueue) + [Wait(CopyFence, copyFenceValue), Signal(RenderFence, old(renderFenceValue))]
      ensures usingExtension == old(usingExtension) && queuesCreated == old(queuesCreated)
      ensures windowedSupportsTearing == old(windowedSupportsTearing) && frameIndex == old(frameIndex)
      ensures currentBufferIndex == old(currentBufferIndex) && sharedBufferIndex == old(sharedBufferIndex)
      ensures sharedOffsets == old(sharedOffsets) && shared == old(shared)
    {
      copyFenceValue := copyFenceValue + 1;
      SignalledNext(copyQueue, [Signal(CopyFence, copyFenceValue)], CopyFence, copyFenceValue);
      copyQueue := copyQueue + [Signal(CopyFence, copyFenceValue)];
      var tail := [Wait(CopyFence, copyFenceValue), Signal(RenderFence, renderFenceValue)];
      assert Signals(tail, RenderFence) == [renderFenceValue] by {
        assert tail[..1] == [Wait(CopyFence, copyFenceValue)];
        SignalsNone(tail[..1], RenderFence);
      }
      SignalledNext(renderQueue, tail, RenderFence, renderFenceValue);
      renderQueue := renderQueue + tail;
      renderFenceValue := renderFenceValue + 1;
    }

    /** Models SetUseIntelCommandQueueExtension; recreating the queues recreates the
     *  swap chain, whose tearing support and back-buffer index are inputs. */
    method SetUseIntelCommandQueueExtension(desired: bool, allowTearing: bool, backBufferIndex: nat)
      requires Valid() && backBufferIndex < numFrames
      modifies this
      ensures Valid()
      ensures var r := Extension.Reconfigure(old(usingExtension), desired, extensionEnabled);
              usingExtension == r.using &&
              queuesCreated == old(queuesCreated) + (if r.recreateQueue then 1 else 0) &&
              frameIndex == (if r.recreateQueue then backBufferIndex else old(frameIndex)) &&
              windowedSupportsTearing == (if r.recreateQueue then TearingAfterSwapChain(old(windowedSupportsTearing), fullScreen, allowTearing)
                                          else old(windowedSupportsTearing))
      ensures renderFenceValue == old(renderFenceValue) && copyFenceValue == old(copyFenceValue)
      ensures renderQueue == old(renderQueue) && copyQueue == old(copyQueue)
      ensures currentBufferIndex == old(currentBufferIndex) && sharedBufferIndex == old(sharedBufferIndex)
      ensures sharedOffsets == old(sharedOffsets) && shared == old(shared)
    {
      var setting := desired && extensionEnabled;
      if usingExtension != setting {
        usingExtension := setting;
        CreateCommandQueue(allowTearing, backBufferIndex);
      }
    }

    /** Models SetShared: take the compute engine's buffer index, place both shared buffers
     *  at i * alignedDataSize of the opened heap, copy both of them into the local buffers
     *  on the direct queue, and drain. */
    method SetShared(handles: SharedHandles)
      requires Valid() && handles.bufferIndex < NumBuffers
      modifies this
      ensures Valid()
      ensures sharedBufferIndex == handles.bufferIndex && shared
      ensures |sharedOffsets| == NumBuffers
      ensures forall i :: 0 <= i < NumBuffers ==> sharedOffsets[i] == i * handles.alignedDataSize
      ensures copyFenceValue == old(copyFenceValue) + 1 && renderFenceValue == old(renderFenceValue) + 1
      ensures renderQueue == old(renderQueue) + InitialCopies(NumBuffers, bufferSize)
                             + [Wait(CopyFence, copyFenceValue), Signal(RenderFence, old(renderFenceValue))]
      ensures copyQueue == old(copyQueue) + [Signal(CopyFence, copyFenceValue)]
      ensures currentBufferIndex == old(currentBufferIndex) && frameIndex == old(frameIndex)
      ensures usingExtension == old(usingExtension) && queuesCreated == old(queuesCreated)
      ensures windowedSupportsTearing == old(windowedSupportsTearing)
    {
      sharedBufferIndex := handles.bufferIndex;
      shared := true;
      var offsets: seq<nat> := [];
      for i := 0 to NumBuffers
        invariant |offsets| == i
        invariant forall j :: 0 <= j < i ==> offsets[j] == j * handles.alignedDataSize
      {
        offsets := offsets + [i * handles.alignedDataSize];
      }
      sharedOffsets := offsets;
      var copies: seq<Event> := [];
      for i := 0 to NumBuffers
        invariant copies == InitialCopies(i, bufferSize)
      {
        copies := copies + [Copy(LocalPosition(i), SharedPosition(i), bufferSize)];
      }
      SignalsNone(copies, RenderFence);
      SignalledNone(renderQueue, copies, RenderFence, renderFenceValue);
      renderQueue := renderQueue + copies;
      WaitForGpu();
    }

    /** Models CopySimulationResults(computeFenceValue, numCopied), as written. */
    method CopySimulationResults(computeFenceValue: nat, numCopied: nat)
      requires Valid()
      modifies this
      ensures Valid()
      ensures copyQueue == old(copyQueue) + CopyEvents(renderFenceValue, old(sharedBufferIndex), currentBufferIndex,
                                                       computeFenceValue, numCopied, old(copyFenceValue))
      ensures sharedBufferIndex == 1 - old(sharedBufferIndex)
      ensures copyFenceValue == old(copyFenceValue) + 1
      ensures renderQueue == old(renderQueue) && renderFenceValue == old(renderFenceValue)
      ensures currentBufferIndex == old(currentBufferIndex) && frameIndex == old(frameIndex)
      ensures usingExtension == old(usingExtension) && queuesCreated == old(queuesCreated)
      ensures windowedSupportsTearing == old(windowedSupportsTearing)
      ensures sharedOffsets == old(sharedOffsets) && shared == old(shared)
    {
      var srcSharedIndex := 1 - sharedBufferIndex;
      var dstLocalIndex := 1 - currentBufferIndex;
      var events := CopyEvents(renderFenceValue, sharedBufferIndex, currentBufferIndex,
                               computeFenceValue, numCopied, copyFenceValue);
      sharedBufferIndex := 1 - sharedBufferIndex;
      copyFenceValue := copyFenceValue + 1;
      assert events[2] == Copy(LocalPosition(dstLocalIndex), SharedPosition(srcSharedIndex), numCopied * ParticleBytes);
      assert Signals(events, CopyFence) == [copyFenceValue] by {
        SignalsNone(events[..4], CopyFence);
        assert events[..4][..3] == events[..3];
      }
      SignalledNext(copyQueue, events, CopyFence, copyFenceValue);
      copyQueue := copyQueue + events;
    }

    /** Models MoveToNextFrame: record, signal and advance the render fence, take the new
     *  back buffer, and report whether the host has to wait for that frame's fence value
     *  ('completedValue' is what the fence reports as completed). */
    method MoveToNextFrame(backBufferIndex: nat, completedValue: nat) returns (waitNeeded: bool)
      requires Valid() && backBufferIndex < numFrames
      modifies this, frameFenceValues
      ensures Valid()
      ensures frameFenceValues[..] == old(frameFenceValues[..])[old(frameIndex) := old(renderFenceValue)]
      ensures renderQueue == old(renderQueue) + [Signal(RenderFence, old(renderFenceValue))]
      ensures renderFenceValue == old(renderFenceValue) + 1
      ensures frameIndex == backBufferIndex
      ensures waitNeeded <==> completedValue < frameFenceValues[backBufferIndex]
      ensures copyQueue == old(copyQueue) && copyFenceValue == old(copyFenceValue)
      ensures currentBufferIndex == old(currentBufferIndex) && sharedBufferIndex == old(sharedBufferIndex)
      ensures usingExtension == old(usingExtension) && queuesCreated == old(queuesCreated)
      ensures windowedSupportsTearing == old(windowedSupportsTearing)
      ensures sharedOffsets == old(sharedOffsets) && shared == old(shared)
    {
      frameFenceValues[frameIndex] := renderFenceValue;
      SignalledNext(renderQueue, [Signal(RenderFence, renderFenceValue)], RenderFence, renderFenceValue);
      renderQueue := renderQueue + [Signal(RenderFence, renderFenceValue)];
      renderFenceValue := renderFenceValue + 1;
      frameIndex := backBufferIndex;
      waitNeeded := completedValue < frameFenceValues[frameIndex];
    }

    /** Models Draw(numActive, particles, fenceValue, numCopied): start the copy for the
     *  next frame, draw the current local buffer and flip it, present, make the direct
     *  queue wait for this frame's copy, hand back the copy fence value and move to the
     *  next frame. 'vsync' is the orchestrator's setting read at present time. */
    method Draw(numActive: nat, numCopied: nat, vsync: bool, computeFenceValue: nat,
                backBufferIndex: nat, completedValue: nat)
      returns (copyFenceOut: nat, waitNeeded: bool, syncInterval: nat, presentFlags: nat)
      requires Valid() && backBufferIndex < numFrames
      modifies this, frameFenceValues
      ensures Valid()
      ensures copyQueue == old(copyQueue) + CopyEvents(old(renderFenceValue), old(sharedBufferIndex), old(currentBufferIndex),
                                                       computeFenceValue, numCopied, old(copyFenceValue))
      ensures renderQueue == old(renderQueue) + DrawEvents(old(currentBufferIndex), numActive, copyFenceOut, old(renderFenceValue))
      ensures copyFenceOut == old(copyFenceValue) + 1 && copyFenceValue == copyFenceOut
      ensures renderFenceValue == old(renderFenceValue) + 1
      ensures sharedBufferIndex == 1 - old(sharedBufferIndex) && currentBufferIndex == 1 - old(currentBufferIndex)
      ensures frameFenceValues[..] == old(frameFenceValues[..])[old(frameIndex) := old(renderFenceValue)]
      ensures frameIndex == backBufferIndex
      ensures waitNeeded <==> completedValue < frameFenceValues[backBufferIndex]
      ensures (syncInterval, presentFlags) == PresentParameters(vsync, windowedSupportsTearing, fullScreen)
      ensures usingExtension == old(usingExtension) && queuesCreated == old(queuesCreated)
      ensures windowedSupportsTearing == old(windowedSupportsTearing)
      ensures sharedOffsets == old(sharedOffsets) && shared == old(shared)
    {
      CopySimulationResults(computeFenceValue, numCopied);
      var drawn := currentBufferIndex;
      var work := [DrawParticles(LocalPosition(drawn), numActive), Wait(CopyFence, copyFenceValue)];
      currentBufferIndex := 1 - currentBufferIndex;
      var present := PresentParameters(vsync, windowedSupportsTearing, fullScreen);
      syncInterval, presentFlags := present.0, present.1;
      SignalsNone(work, RenderFence);
      SignalledNone(renderQueue, work, RenderFence, renderFenceValue);
      renderQueue := renderQueue + work;
      copyFenceOut := copyFenceValue;
      waitNeeded := MoveToNextFrame(backBufferIndex, completedValue);
    }
  }
}
