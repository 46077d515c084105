/**
 * The compute engine (Particles/Compute.cpp): two ping-pong position buffers
 * placed in a cross-adapter shared heap, two velocity buffers, a six-entry
 * UAV descriptor heap whose duplicated entries let one descriptor-table base
 * select "read buffer b, write buffer 1-b", and a shared fence that it
 * signals once per simulated frame.
 */
module ComputeEngine {
  import opened GpuTrace
  import Extension

  const NumBuffers: nat := 2
  const BlockSize: nat := 64
  /** sizeof(Particle). Particle is declared in Render.h, which is not part of this
   *  model; 16 bytes (one four-component float position) is an assumed value. */
  const ParticleBytes: nat := 16
  /** sizeof(ParticleVelocity): one XMFLOAT3 velocity (Compute.h:59-62). */
  const VelocityBytes: nat := 12

  // Slots of the UAV descriptor heap (DescriptorHeapIndex).
  const UavParticlePos0: nat := 0
  const UavParticlePos1: nat := 1
  const UavParticlePos0Copy: nat := 2
  const UavParticleVel0: nat := 3
  const UavParticleVel1: nat := 4
  const UavParticleVel0Copy: nat := 5
  const DescriptorCount: nat := 6
  /** The root signature's UAV range: five registers u0..u4 from the table base. */
  const TableSize: nat := 5

  /** What a descriptor-heap slot views. */
  datatype View = NoView | PositionView(i: nat) | VelocityView(i: nat)

  /** The handles the compute engine hands to the render engine. The heap and
   *  fence handles are operating-system objects and are left out. */
  datatype SharedHandles = SharedHandles(alignedDataSize: nat, bufferIndex: nat)

  /** The size of one shared position buffer, computed in a UINT. */
  function SharedDataBytes(numParticles: nat): (r: nat)
    ensures r < Two32
    ensures numParticles * ParticleBytes < Two32 ==> r == numParticles * ParticleBytes
  {
    (numParticles * ParticleBytes) % Two32
  }

  /** The thread-group count of a dispatch over n particles: ceil(n / BLOCK_SIZE). */
  function DispatchGroups(n: nat): (groups: nat)
    ensures groups * BlockSize >= n
    ensures groups > 0 ==> (groups - 1) * BlockSize < n
    ensures n == 0 <==> groups == 0
  {
    (n + BlockSize - 1) / BlockSize
  }

  /** The buffer a view refers to, from the compute engine's side. */
  function ViewedBuffer(v: View): Buffer
    requires !v.NoView?
  {
    match v
    case PositionView(i) => SharedPosition(i)
    case VelocityView(i) => Velocity(i)
  }

  /** The descriptor heap as the source lays it out: a predicate on the
   *  heap contents, read slot by slot. */
  predicate IsSharedLayout(d: seq<View>) {
    |d| == DescriptorCount &&
    (forall i :: 0 <= i < NumBuffers ==>
       d[UavParticlePos0 + i] == PositionView(i) && d[UavParticleVel0 + i] == VelocityView(i)) &&
    d[UavParticlePos0Copy] == PositionView(0) &&
    d[UavParticleVel0Copy] == VelocityView(0)
  }

  /** Models CreateSharedBuffers: place position buffer i at offset i * alignedDataSize
   *  of a heap holding NumBuffers of them, and write the position and velocity
   *  views into slots Pos0 + i and Vel0 + i; then the two "copy" slots repeat buffer 0. */
  method CreateSharedBuffers(alignedDataSize: nat) returns (heapBytes: nat, offsets: seq<nat>, descriptors: seq<View>)
    ensures heapBytes == NumBuffers * alignedDataSize
    ensures |offsets| == NumBuffers
    ensures forall i :: 0 <= i < NumBuffers ==> offsets[i] == i * alignedDataSize
    ensures IsSharedLayout(descriptors)
  {
    heapBytes := NumBuffers * alignedDataSize;
    offsets := [];
    descriptors := seq(DescriptorCount, _ => NoView);
    var i := 0;
    while i < NumBuffers
      invariant 0 <= i <= NumBuffers
      invariant |offsets| == i
      invariant forall j :: 0 <= j < i ==> offsets[j] == j * alignedDataSize
      invariant |descriptors| == DescriptorCount
      invariant forall j :: 0 <= j < i ==>
        descriptors[UavParticlePos0 + j] == PositionView(j) && descriptors[UavParticleVel0 + j] == VelocityView(j)
      invariant forall k :: UavParticlePos0 + i <= k < UavParticleVel0 || UavParticleVel0 + i <= k < DescriptorCount ==>
        descriptors[k] == NoView
    {
      offsets := offsets + [i * alignedDataSize];
      descriptors := descriptors[UavParticlePos0 + i := PositionView(i)];
      descriptors := descriptors[UavParticleVel0 + i := VelocityView(i)];
      i := i + 1;
    }
    descriptors := descriptors[UavParticlePos0Copy := PositionView(0)];
    descriptors := descriptors[UavParticleVel0Copy := VelocityView(0)];
  }

  /** Moving the table base to b selects buffer b as the source and buffer 1-b
   *  as the destination, for positions (u0 -> u1) and velocities (u3 -> u4),
   *  and the five-register window stays inside the heap. */
  lemma {:induction false} LayoutWindow(d: seq<View>, b: nat)
    requires IsSharedLayout(d) && b < NumBuffers
    ensures UavParticlePos0 + b + TableSize <= DescriptorCount
    ensures d[UavParticlePos0 + b] == PositionView(b)
    ensures d[UavParticlePos0 + b + 1] == PositionView(1 - b)
    ensures d[UavParticlePos0 + b + 3] == VelocityView(b)
    ensures d[UavParticlePos0 + b + 4] == VelocityView(1 - b)
  {
    if b == 0 {
      assert d[UavParticlePos0 + 1] == PositionView(1);
      assert d[UavParticleVel0 + 0] == VelocityView(0);
      assert d[UavParticleVel0 + 1] == VelocityView(1);
    } else {
      assert d[UavParticlePos0 + 1] == PositionView(1);
      assert d[UavParticleVel0 + 0] == VelocityView(0);
      assert d[UavParticleVel0 + 1] == VelocityView(1);
    }
  }

  /** The placed buffers lie inside the heap and do not overlap, provided the
   *  allocation size reported for one buffer covers its data. */
  lemma {:induction false} PlacementsDisjoint(heapBytes: nat, offsets: seq<nat>, alignedDataSize: nat, dataBytes: nat)
    requires heapBytes == NumBuffers * alignedDataSize
    requires |offsets| == NumBuffers
    requires forall i :: 0 <= i < NumBuffers ==> offsets[i] == i * alignedDataSize
    requires dataBytes <= alignedDataSize
    ensures forall i :: 0 <= i < NumBuffers ==> offsets[i] + dataBytes <= heapBytes
    ensures forall i, j :: 0 <= i < j < NumBuffers ==> offsets[i] + dataBytes <= offsets[j]
  {
    assert offsets[0] == 0 && offsets[1] == alignedDataSize;
  }

  /** What the shader reads when the table base is 'tableBase': the buffers of its
   *  u0 (positions) and u3 (velocities) registers. */
  function DispatchInputs(d: seq<View>, tableBase: nat): (r: set<Buffer>)
    requires IsSharedLayout(d) && tableBase < NumBuffers
  {
    LayoutWindow(d, tableBase);
    {ViewedBuffer(d[tableBase]), ViewedBuffer(d[tableBase + 3])}
  }

  /** What the shader writes: the buffers of its u1 (positions) and u4 (velocities) registers. */
  function DispatchOutputs(d: seq<View>, tableBase: nat): (r: set<Buffer>)
    requires IsSharedLayout(d) && tableBase < NumBuffers
  {
    LayoutWindow(d, tableBase);
    {ViewedBuffer(d[tableBase + 1]), ViewedBuffer(d[tableBase + 4])}
  }

  /** The dispatch of a frame whose buffer index is b reads buffer b and writes buffer 1-b,
   *  and never reads and writes the same buffer. */
  lemma {:induction false} DispatchPingPong(d: seq<View>, b: nat)
    requires IsSharedLayout(d) && b < NumBuffers
    ensures DispatchInputs(d, UavParticlePos0 + b) == {SharedPosition(b), Velocity(b)}
    ensures DispatchOutputs(d, UavParticlePos0 + b) == {SharedPosition(1 - b), Velocity(1 - b)}
    ensures DispatchInputs(d, UavParticlePos0 + b) !! DispatchOutputs(d, UavParticlePos0 + b)
  {
    LayoutWindow(d, b);
  }

  /** The commands Simulate puts on the compute queue: wait for the previous copy,
   *  dispatch over the window at the current buffer, a UAV barrier on the buffer
   *  just written, and the end-of-frame signal. */
  function SimulateEvents(bufferIndex: nat, fenceValue: nat, sharedFenceValue: nat, numActive: nat): (r: seq<Event>)
    requires bufferIndex < NumBuffers
  {
    [ Wait(CopyFence, Sub64(sharedFenceValue, 1)),
      Dispatch(UavParticlePos0 + bufferIndex, DispatchGroups(numActive)),
      UavBarrier(SharedPosition(1 - bufferIndex)),
      Signal(ComputeFence, fenceValue) ]
  }

  /** CopyState's first pass: both position buffers pulled from the previous engine's heap. */
  function PullPositions(k: nat, bytes: nat): seq<Event>
  {
    seq(k, i requires 0 <= i => Copy(SharedPosition(i), PreviousShared(i), bytes))
  }

  /** CopyState's second pass, on the previous engine: velocities parked in its position buffers. */
  function ParkVelocities(k: nat, bytes: nat): seq<Event>
  {
    seq(k, i requires 0 <= i => Copy(SharedPosition(i), Velocity(i), bytes))
  }

  /** CopyState's third pass: velocities pulled from the previous engine's heap. */
  function PullVelocities(k: nat, bytes: nat): seq<Event>
  {
    seq(k, i requires 0 <= i => Copy(Velocity(i), PreviousShared(i), bytes))
  }

  /** After the position pulls, position buffer i < k holds the previous engine's shared
   *  buffer i, and no other buffer changes. */
  lemma {:induction false} PullPositionsHold(k: nat, bytes: nat, b: Buffer)
    ensures Holds(PullPositions(k, bytes), b) == if b.SharedPosition? && b.i < k then PreviousShared(b.i) else b
    decreases k
  {
    if k > 0 {
      var t := PullPositions(k, bytes);
      assert t[..k - 1] == PullPositions(k - 1, bytes);
      if b == SharedPosition(k - 1) {
        PullPositionsHold(k - 1, bytes, PreviousShared(k - 1));
      } else {
        PullPositionsHold(k - 1, bytes, b);
      }
    }
  }

  /** On the previous engine, after the park its position buffer i < k holds its velocity
   *  buffer i, and no other buffer changes. */
  lemma {:induction false} ParkVelocitiesHold(k: nat, bytes: nat, b: Buffer)
    ensures Holds(ParkVelocities(k, bytes), b) == if b.SharedPosition? && b.i < k then Velocity(b.i) else b
    decreases k
  {
    if k > 0 {
      var t := ParkVelocities(k, bytes);
      assert t[..k - 1] == ParkVelocities(k - 1, bytes);
      if b == SharedPosition(k - 1) {
        ParkVelocitiesHold(k - 1, bytes, Velocity(k - 1));
      } else {
        ParkVelocitiesHold(k - 1, bytes, b);
      }
    }
  }

  /** After the velocity pulls, velocity buffer i < k holds the previous engine's shared
   *  buffer i, and no other buffer changes: the positions pulled before are kept. */
  lemma {:induction false} PullVelocitiesHold(k: nat, bytes: nat, b: Buffer)
    ensures Holds(PullVelocities(k, bytes), b) == if b.Velocity? && b.i < k then PreviousShared(b.i) else b
    decreases k
  {
    if k > 0 {
      var t := PullVelocities(k, bytes);
      assert t[..k - 1] == PullVelocities(k - 1, bytes);
      if b == Velocity(k - 1) {
        PullVelocitiesHold(k - 1, bytes, PreviousShared(k - 1));
      } else {
        PullVelocitiesHold(k - 1, bytes, b);
      }
    }
  }

  /** The state CopyState hands over. The new engine's position buffer i ends with what
   *  the previous engine's shared buffer i held at the first pull, its positions, and its
   *  velocity buffer i with what that buffer held at the second pull. In between, the
   *  previous engine's park leaves its velocity buffer i in that shared buffer. CopyState
   *  drains each stretch before the next is queued, so these three happen in this order. */
  lemma CopyStateHandsOver(pb: nat, vb: nat, v: nat, w: nat, i: nat)
    requires i < NumBuffers
    ensures var first := PullPositions(NumBuffers, pb) + [Signal(ComputeFence, v)];
            Holds(first, SharedPosition(i)) == PreviousShared(i) && Holds(first, Velocity(i)) == Velocity(i)
    ensures Holds(ParkVelocities(NumBuffers, vb) + [Signal(ComputeFence, w)], SharedPosition(i)) == Velocity(i)
    ensures var last := PullVelocities(NumBuffers, vb) + [Signal(ComputeFence, v + 1)];
            Holds(last, Velocity(i)) == PreviousShared(i) && Holds(last, SharedPosition(i)) == SharedPosition(i)
  {
    var first := PullPositions(NumBuffers, pb);
    HoldsAppend(first, [Signal(ComputeFence, v)], SharedPosition(i));
    HoldsAppend(first, [Signal(ComputeFence, v)], Velocity(i));
    PullPositionsHold(NumBuffers, pb, SharedPosition(i));
    PullPositionsHold(NumBuffers, pb, Velocity(i));
    var park := ParkVelocities(NumBuffers, vb);
    HoldsAppend(park, [Signal(ComputeFence, w)], SharedPosition(i));
    ParkVelocitiesHold(NumBuffers, vb, SharedPosition(i));
    var last := PullVelocities(NumBuffers, vb);
    HoldsAppend(last, [Signal(ComputeFence, v + 1)], Velocity(i));
    HoldsAppend(last, [Signal(ComputeFence, v + 1)], SharedPosition(i));
    PullVelocitiesHold(NumBuffers, vb, Velocity(i));
    PullVelocitiesHold(NumBuffers, vb, SharedPosition(i));
  }

  /** The size warning of the park: each parking copy moves no more bytes than one position
   *  buffer's data, because a velocity is no larger than a particle. */
  lemma ParkFits(k: nat, numParticles: nat)
    ensures forall j :: 0 <= j < |ParkVelocities(k, numParticles * VelocityBytes)| ==>
              var e := ParkVelocities(k, numParticles * VelocityBytes)[j];
              e.Copy? && e.dst.SharedPosition? && e.bytes <= numParticles * ParticleBytes
  {
  }

  /** InitializeParticles: both position buffers and both velocity buffers get the generated data. */
  function InitialUploads(): seq<Event> {
    [Upload(SharedPosition(0)), Upload(SharedPosition(1)), Upload(Velocity(0)), Upload(Velocity(1))]
  }

  class Compute {
    const numParticles: nat
    /** Whether the device's extension helper reports the extension as enabled. */
    const extensionEnabled: bool
    const alignedDataSize: nat
    const heapBytes: nat
    const placedOffsets: seq<nat>
    const descriptors: seq<View>
    /** The constant buffer's first two parameters: particle count and group count. */
    const constants: seq<nat>
    const frameFenceValues: array<nat>

    var usingExtension: bool
    /** How many times the command queue has been (re)created. */
    var queuesCreated: nat
    var fenceValue: nat
    var bufferIndex: nat
    var sharedHandles: SharedHandles
    /** Whether the render engine's copy fence has been opened (GetSharedHandles). */
    var sharedFenceOpened: bool

    /** Every command put on the compute queue, in submission order. */
    ghost var queue: seq<Event>
    /** The value the fence was created with. */
    ghost var fenceInitialValue: nat

    /** The fence protocol: the signals so far are exactly 1, 2, ..., fenceValue - 1,
     *  and every frame's recorded fence value is one already signalled (or the initial 0). */
    ghost predicate FenceInvariant()
      reads this, frameFenceValues
    {
      fenceValue >= 1 &&
      SignalledUpTo(queue, ComputeFence, fenceValue) &&
      frameFenceValues.Length == NumBuffers &&
      forall i :: 0 <= i < NumBuffers ==> frameFenceValues[i] < fenceValue
    }

    /** What the constructor fixes for good: the descriptor layout, the placement of
     *  the shared buffers and the constant buffer. */
    ghost predicate Layout() {
      IsSharedLayout(descriptors) &&
      heapBytes == NumBuffers * alignedDataSize &&
      |placedOffsets| == NumBuffers &&
      (forall i :: 0 <= i < NumBuffers ==> placedOffsets[i] == i * alignedDataSize) &&
      constants == [numParticles, DispatchGroups(numParticles)]
    }

    ghost predicate Valid()
      reads this, frameFenceValues
    {
      FenceInvariant() &&
      bufferIndex < NumBuffers &&
      sharedHandles.alignedDataSize == alignedDataSize &&
      sharedHandles.bufferIndex < NumBuffers &&
      (!extensionEnabled ==> !usingExtension)
    }

    /** Models the constructor with Initialize, SetAdapter, CreateSharedBuffers and either
     *  InitializeParticles (no previous engine) or CopyState (from the previous engine),
     *  each of which ends by draining the queue. 'alignedDataSize' is what the device
     *  reports for one shared buffer. */
    constructor (numParticles: nat, alignedDataSize: nat, useExtension: bool, extensionEnabled: bool,
                 previous: Compute?)
      requires previous != null ==> previous.Valid()
      modifies if previous == null then {} else {previous}
      ensures Valid() && Layout() && fresh(frameFenceValues)
      ensures this.numParticles == numParticles && this.alignedDataSize == alignedDataSize
      ensures this.extensionEnabled == extensionEnabled
      ensures usingExtension == (useExtension && extensionEnabled)
      ensures bufferIndex == 0 && frameFenceValues[..] == [0, 0]
      ensures !sharedFenceOpened
      ensures previous == null ==> queue == [Signal(ComputeFence, 1)] + InitialUploads() + [Signal(ComputeFence, 2), Signal(ComputeFence, 3)]
      ensures previous == null ==> fenceValue == 4
      ensures previous != null ==>
        queue == [Signal(ComputeFence, 1)] + PullPositions(NumBuffers, numParticles * ParticleBytes) + [Signal(ComputeFence, 2)]
                 + PullVelocities(NumBuffers, numParticles * VelocityBytes) + [Signal(ComputeFence, 3), Signal(ComputeFence, 4)]
      ensures previous != null ==> fenceValue == 5
      ensures previous != null ==> previous.Valid() && unchanged(previous`bufferIndex, previous`sharedHandles)
      ensures previous != null ==>
        previous.queue == old(previous.queue) + ParkVelocities(NumBuffers, numParticles * VelocityBytes) + [Signal(ComputeFence, old(previous.fenceValue))]
      ensures previous != null ==> previous.fenceValue == old(previous.fenceValue) + 1
    {
      var heap, offsets, views := CreateSharedBuffers(alignedDataSize);
      this.numParticles := numParticles;
      this.extensionEnabled := extensionEnabled;
      this.alignedDataSize := alignedDataSize;
      heapBytes := heap;
      placedOffsets := offsets;
      descriptors := views;
      constants := [numParticles, DispatchGroups(numParticles)];
      frameFenceValues := new nat[NumBuffers](_ => 0);
      bufferIndex := 0;
      usingExtension := useExtension;
      fenceValue := 0;
      queue := [];
      queuesCreated := 0;
      fenceInitialValue := 0;
      sharedHandles := SharedHandles(alignedDataSize, 0);
      sharedFenceOpened := false;
      new;
      Initialize();
      if previous == null {
        InitializeParticles();
      } else {
        CopyState(previous);
      }
      WaitForGpu();
    }

    /** Models the fence and queue part of Initialize: SetAdapter, then the drain after
     *  the constant-buffer upload. */
    method Initialize()
      requires queue == [] && fenceValue == 0
      requires frameFenceValues.Length == NumBuffers && frameFenceValues[..] == [0, 0]
      modifies this
      ensures FenceInvariant()
      ensures queue == [Signal(ComputeFence, 1)] && fenceValue == 2
      ensures usingExtension == (old(usingExtension) && extensionEnabled)
      ensures queuesCreated == old(queuesCreated) + 1
      ensures bufferIndex == old(bufferIndex) && sharedHandles == old(sharedHandles)
      ensures sharedFenceOpened == old(sharedFenceOpened)
    {
      SetAdapter();
      WaitForGpu();
    }

    /** Models the fence and queue part of SetAdapter: the extension is used only if the
     *  device supports it, the command queue is created, and the fence is created with
     *  the current counter (0) before the counter advances to 1. */
    method SetAdapter()
      requires queue == [] && fenceValue == 0
      requires frameFenceValues.Length == NumBuffers && frameFenceValues[..] == [0, 0]
      modifies this
      ensures FenceInvariant()
      ensures fenceInitialValue == 0 && fenceValue == 1 && queue == []
      ensures usingExtension == (old(usingExtension) && extensionEnabled)
      ensures queuesCreated == old(queuesCreated) + 1
      ensures bufferIndex == old(bufferIndex) && sharedHandles == old(sharedHandles)
      ensures sharedFenceOpened == old(sharedFenceOpened)
    {
      usingExtension := usingExtension && extensionEnabled;
      queuesCreated := queuesCreated + 1;
      fenceInitialValue := fenceValue;
      fenceValue := fenceValue + 1;
      assert frameFenceValues[0] == 0 && frameFenceValues[1] == 0;
    }

    /** Models WaitForGpu: signal the next fence value and wait on the host for it. */
    method WaitForGpu()
      requires FenceInvariant()
      modifies this
      ensures FenceInvariant()
      ensures queue == old(queue) + [Signal(ComputeFence, old(fenceValue))]
      ensures fenceValue == old(fenceValue) + 1
      ensures bufferIndex == old(bufferIndex) && usingExtension == old(usingExtension)
      ensures queuesCreated == old(queuesCreated) && sharedHandles == old(sharedHandles)
      ensures sharedFenceOpened == old(sharedFenceOpened)
    {
      SignalledNext(queue, [Signal(ComputeFence, fenceValue)], ComputeFence, fenceValue);
      queue := queue + [Signal(ComputeFence, fenceValue)];
      fenceValue := fenceValue + 1;
    }

    method InitializeParticles()
      requires FenceInvariant()
      modifies this
      ensures FenceInvariant()
      ensures queue == old(queue) + InitialUploads() + [Signal(ComputeFence, old(fenceValue))]
      ensures fenceValue == old(fenceValue) + 1
      ensures bufferIndex == old(bufferIndex) && usingExtension == old(usingExtension)
      ensures queuesCreated == old(queuesCreated) && sharedHandles == old(sharedHandles)
      ensures sharedFenceOpened == old(sharedFenceOpened)
    {
      SignalsNone(InitialUploads(), ComputeFence);
      SignalledNone(queue, InitialUploads(), ComputeFence, fenceValue);
      queue := queue + InitialUploads();
      WaitForGpu();
    }

    /** Models CopyState: positions are pulled from the previous engine's shared heap;
     *  the previous engine then copies its velocities into its own (shared) position
     *  buffers, and those are pulled into this engine's velocity buffers. */
    method CopyState(previous: Compute)
      requires FenceInvariant() && previous.Valid() && previous != this
      modifies this, previous
      ensures FenceInvariant() && previous.Valid()
      ensures queue == old(queue) + PullPositions(NumBuffers, numParticles * ParticleBytes) + [Signal(ComputeFence, old(fenceValue))]
                       + PullVelocities(NumBuffers, numParticles * VelocityBytes) + [Signal(ComputeFence, old(fenceValue) + 1)]
      ensures fenceValue == old(fenceValue) + 2
      ensures previous.queue == old(previous.queue) + ParkVelocities(NumBuffers, numParticles * VelocityBytes) + [Signal(ComputeFence, old(previous.fenceValue))]
      ensures previous.fenceValue == old(previous.fenceValue) + 1
      ensures unchanged(previous`bufferIndex, previous`sharedHandles, previous`usingExtension)
      ensures bufferIndex == old(bufferIndex) && usingExtension == old(usingExtension)
      ensures queuesCreated == old(queuesCreated) && sharedHandles == old(sharedHandles)
      ensures sharedFenceOpened == old(sharedFenceOpened)
    {
      var positionBytes := numParticles * ParticleBytes;
      var velocityBytes := numParticles * VelocityBytes;
      var pulls: seq<Event> := [];
      for i := 0 to NumBuffers
        invariant pulls == PullPositions(i, positionBytes)
      {
        pulls := pulls + [Copy(SharedPosition(i), PreviousShared(i), positionBytes)];
      }
      SignalsNone(pulls, ComputeFence);
      SignalledNone(queue, pulls, ComputeFence, fenceValue);
      queue := queue + pulls;
      WaitForGpu();

      var parks: seq<Event> := [];
      for i := 0 to NumBuffers
        invariant parks == ParkVelocities(i, velocityBytes)
      {
        parks := parks + [Copy(SharedPosition(i), Velocity(i), velocityBytes)];
      }
      SignalsNone(parks, ComputeFence);
      SignalledNone(previous.queue, parks, ComputeFence, previous.fenceValue);
      previous.queue := previous.queue + parks;
      previous.WaitForGpu();

      var velocityPulls: seq<Event> := [];
      for i := 0 to NumBuffers
        invariant velocityPulls == PullVelocities(i, velocityBytes)
      {
        velocityPulls := velocityPulls + [Copy(Velocity(i), PreviousShared(i), velocityBytes)];
      }
      SignalsNone(velocityPulls, ComputeFence);
      SignalledNone(queue, velocityPulls, ComputeFence, fenceValue);
      queue := queue + velocityPulls;
      WaitForGpu();
    }

    /** Models SetUseIntelCommandQueueExtension. */
    method SetUseIntelCommandQueueExtension(desired: bool)
      requires Valid()
      modifies this
      ensures Valid()
      ensures var r := Extension.Reconfigure(old(usingExtension), desired, extensionEnabled);
              usingExtension == r.using && queuesCreated == old(queuesCreated) + (if r.recreateQueue then 1 else 0)
      ensures queue == old(queue) && fenceValue == old(fenceValue) && bufferIndex == old(bufferIndex)
      ensures sharedHandles == old(sharedHandles) && sharedFenceOpened == old(sharedFenceOpened)
    {
      var setting := desired && extensionEnabled;
      if usingExtension != setting {
        usingExtension := setting;
        queuesCreated := queuesCreated + 1;
      }
    }

    /** Models GetSharedHandles: open the render engine's copy fence and publish the
     *  current buffer index with the heap description. */
    method GetSharedHandles() returns (h: SharedHandles)
      requires Valid()
      modifies this
      ensures Valid()
      ensures h == SharedHandles(alignedDataSize, bufferIndex) && sharedHandles == h
      ensures sharedFenceOpened
      ensures queue == old(queue) && fenceValue == old(fenceValue) && bufferIndex == old(bufferIndex)
      ensures usingExtension == old(usingExtension) && queuesCreated == old(queuesCreated)
    {
      sharedFenceOpened := true;
      sharedHandles := sharedHandles.(bufferIndex := bufferIndex);
      h := sharedHandles;
    }

    /** Models the private MoveToNextFrame: record, signal and advance the fence value,
     *  and flip the buffer index. */
    method MoveToNextFrame()
      requires Valid()
      modifies this, frameFenceValues
      ensures Valid()
      ensures frameFenceValues[..] == old(frameFenceValues[..])[old(bufferIndex) := old(fenceValue)]
      ensures queue == old(queue) + [Signal(ComputeFence, old(fenceValue))]
      ensures fenceValue == old(fenceValue) + 1
      ensures bufferIndex == 1 - old(bufferIndex)
      ensures usingExtension == old(usingExtension) && queuesCreated == old(queuesCreated)
      ensures sharedHandles == old(sharedHandles) && sharedFenceOpened == old(sharedFenceOpened)
    {
      frameFenceValues[bufferIndex] := fenceValue;
      SignalledNext(queue, [Signal(ComputeFence, fenceValue)], ComputeFence, fenceValue);
      queue := queue + [Signal(ComputeFence, fenceValue)];
      fenceValue := fenceValue + 1;
      bufferIndex := 1 - bufferIndex;
    }

    /** Models Simulate(numActive, sharedFenceValue): the compute queue waits for the
     *  copy fence to reach sharedFenceValue - 1 (a UINT64 subtraction), runs the shader
     *  over the window at the current buffer index and ends the frame. */
    method Simulate(numActive: nat, sharedFenceValue: nat)
      requires Valid()
      modifies this, frameFenceValues
      ensures Valid()
      ensures queue == old(queue) + SimulateEvents(old(bufferIndex), old(fenceValue), sharedFenceValue, numActive)
      ensures fenceValue == old(fenceValue) + 1
      ensures bufferIndex == 1 - old(bufferIndex)
      ensures frameFenceValues[..] == old(frameFenceValues[..])[old(bufferIndex) := old(fenceValue)]
      ensures usingExtension == old(usingExtension) && queuesCreated == old(queuesCreated)
      ensures sharedHandles == old(sharedHandles) && sharedFenceOpened == old(sharedFenceOpened)
    {
      var oldIndex := bufferIndex;
      var newIndex := 1 - oldIndex;
      var work := [ Wait(CopyFence, Sub64(sharedFenceValue, 1)),
                    Dispatch(UavParticlePos0 + oldIndex, DispatchGroups(numActive)),
                    UavBarrier(SharedPosition(newIndex)) ];
      SignalsNone(work, ComputeFence);
      SignalledNone(queue, work, ComputeFence, fenceValue);
      queue := queue + work;
      MoveToNextFrame();
    }
  }
}
