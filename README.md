# Multi-Adapter Particles, modelled in Dafny

Multi-Adapter Particles is a Direct3D 12 sample. It simulates a particle system
on one GPU and draws it on another one. The two adapters share a cross-adapter
heap with two ping-pong position buffers and are synchronised by three fences:

- the compute engine's shared fence;
- the render engine's frame fence;
- the render engine's cross-queue copy fence.

Each frame runs these steps:

1. The render engine copies the newest simulation results from the shared heap
   into one of its two local vertex buffers.
2. It draws the other local buffer.
3. The compute engine simulates into the position buffer the render engine is not
   reading.

The orchestrator does several jobs:

- It picks the adapters: the last integrated (UMA) adapter computes, and the last
  discrete adapter renders.
- It wires the engines together.
- It drives every frame.
- It rebuilds an engine whenever the user picks another adapter, toggles full
  screen or toggles the vendor's command-queue extension.

The repository also holds several helpers:

- two command-line parsers;
- a CPU frame timer that averages over a ring buffer;
- a GPU timestamp timer;
- the vendor extension header, with its version macros and its DLL loader.

The model covers the integer bookkeeping around the GPU calls. Each engine is a
class whose fields are the source's counters and indices. Every command an
engine puts on a queue is appended to a ghost trace of that queue. The trace
records fence `Wait`s and `Signal`s, buffer copies, uploads, dispatches and draws.
The fence values a device reports are method inputs, and so is the swap chain's
back-buffer index.

The modules are:

- `GpuTrace` (gputrace.dfy): queue events, buffers and fences. It also holds UINT64
  subtraction and UINT32 addition with their wrap, and the sequence of signalled
  values.
- `Extension` (extension.dfy): the command-queue extension toggle that both
  engines share.
- `ComputeEngine` (compute.dfy): the `Compute` class; the shared-heap placement;
  the six-slot UAV descriptor layout that lets one table base pick "read b, write
  1-b"; the dispatch group count; the fence protocol.
- `RenderEngine` (render.dfy): the `Render` class with its render and copy fences,
  shared and local buffer indices, frame index, and `Draw`'s copy, draw and present
  logic.
- `FrameProtocol` (protocol.dfy): one steady-state frame of the two-engine pipeline
  as a function on the engines' counters. This module holds the lemmas spanning
  several frames, including the ping-pong result under "Findings".
- `Orchestrator` (particles.dfy): the `Particles` class. It covers adapter
  filtering, role assignment, `ShareHandles`, the command-line registrations, the
  frame and the change detection with its rebuilds.
- `ArgParse` (argparser.dfy): the case-insensitive token matcher of `ArgParser.h`, and
  the `std::stoi` conversion its int registrations use.
- `CommandLine` (cmdline.dfy): the argument classes of `CmdLine.h` and their
  `Parse` methods, which erase tokens in place, plus `CmdLine::Parse`'s two passes.
- `Timing` (timer.dfy): `TimerAverageOver`.
- `GpuTiming` (gputimer.dfy): `D3D12GpuTimer`.
- `IntelExtension` (intelext.dfy): the `D3D12_EXT_*VERSION*` macros, the
  `ExtensionVersion` union, and the candidate paths and attempt order of
  `D3D12LoadIntelExtensionsLibrary`.

Where the source's comments and its code disagree, the model follows the code:

- `CmdLine.h:92` and `CmdLine.h:110` describe `SwitchArg` in two ways. One says
  the switch sets the value to true when present. The other says any token
  starting with the switch flips it. The code (`CmdLine.h:111-126`) flips the value
  once for every token *equal* to the switch.
- `Render.cpp:782` says the copy reads the shared buffer that
  `m_sharedBufferIndex` points to, but the code reads `1 - m_sharedBufferIndex`.
  The engines keep the code's index. The consequence is under "Findings".
- The functions `ResetFromAsyncHelper`, `SetAsync`, `SetAsyncMode`, `GetFence`,
  `GetBuffers` and `GetBufferIndex` are called at `Particles.cpp:196-207`, some on
  the compute engine and some on the render engine. They are not defined in the
  compute and render sources, so the orchestrator records only the order of those
  calls.

## Model

| member | source | states |
|---|---|---|
| GpuTrace.Sub64 | Particles/Compute.cpp:700 | UINT64 subtraction: exact when no underflow, otherwise congruent modulo 2^64 and at least 2^64 - b |
| GpuTrace.Add32 | include/Timer.h:101 | UINT (32-bit) increment: exact below 2^32, reduced by 2^32 at the wrap |
| GpuTrace.Iota | Particles/Compute.cpp:654-665 | the run of fence values lo..hi-1 a counter signals, of length hi - lo |
| GpuTrace.IotaStrictlyIncreasing | Particles/Compute.cpp:657-661 | signalling a counter that is incremented after each signal gives strictly increasing values |
| GpuTrace.Signals | Particles/Compute.cpp:657 | the values signalled on one fence, in queue order, never more than the queue's commands |
| GpuTrace.SignalsAppend | Particles/Compute.cpp:687 | the signals of two command stretches queued one after the other are the signals of each, concatenated |
| GpuTrace.SignalsNone | Particles/Compute.cpp:700 | a stretch without signals (waits, copies, dispatches) signals nothing |
| GpuTrace.SignalledNone | Particles/Render.cpp:780-798 | appending commands without a signal on a fence keeps that fence's signals at 1..n-1 |
| GpuTrace.SignalledNext | Particles/Render.cpp:812-813 | appending exactly the next value's signal extends the fence's signals from 1..n-1 to 1..n |
| GpuTrace.SignalIsRecorded | Particles/Compute.cpp:687 | every signal command in a queue carries one of the values Signals lists for its fence |
| GpuTrace.Holds | Particles/Compute.cpp:276-279 | reference definition of the data flow of a run of copies: which buffer's earlier data a buffer holds afterwards, decided by the last copy into it; HoldsAppend and the *Hold lemmas of the engines state its meaning |
| GpuTrace.HoldsAppend | Particles/Compute.cpp:272-333 | the data flow of two stretches run one after the other composes: a buffer's data after the second is looked up after the first |
| Extension.Reconfigure | Particles/Compute.cpp:99-107 | only a device that supports the extension uses it, and a supporting device follows the request; a request matching the current state recreates nothing, and the queue is recreated exactly when the setting changes |
| Extension.ReconfigureIdempotent | Particles/Render.cpp:156-164 | asking a second time for the same setting keeps it and recreates no queue |
| Extension.NeverUsedWithoutSupport | Particles/Compute.cpp:101 | a device whose extension helper is disabled never uses the extension, whatever is asked |
| ComputeEngine.SharedDataBytes | Particles/Compute.cpp:129 | the UINT size of one shared position buffer: particles times 16 bytes when that fits in 32 bits, always below 2^32 |
| ComputeEngine.DispatchGroups | Particles/Compute.cpp:729 | the group count is ceil(n / 64): groups * 64 covers n, one group fewer does not, and no groups for no particles |
| ComputeEngine.CreateSharedBuffers | Particles/Compute.cpp:138-198 | the heap holds two buffers, buffer i is placed at i * alignedDataSize, slots Pos0+i and Vel0+i hold the position and velocity views of buffer i, and the two copy slots repeat buffer 0 |
| ComputeEngine.LayoutWindow | Particles/Compute.cpp:52-62 | with table base b in {0,1} the five-register window stays in the heap, u0/u3 name buffer b and u1/u4 name buffer 1-b |
| ComputeEngine.PlacementsDisjoint | Particles/Compute.cpp:140-173 | the two placed buffers lie inside the heap and do not overlap when one buffer's data fits its aligned size |
| ComputeEngine.DispatchPingPong | Particles/Compute.cpp:702-729 | the dispatch of a frame with buffer index b reads position and velocity b, writes 1-b, and never reads what it writes |
| ComputeEngine.SimulateEvents | Particles/Compute.cpp:697-742 | reference definition of Simulate's queue commands: the copy-fence wait at sharedFenceValue - 1 (UINT64), the dispatch at table base Pos0 + b, the UAV barrier on shared buffer 1 - b, the end-of-frame signal; DispatchPingPong and the FrameProtocol lemmas state their meaning |
| ComputeEngine.PullPositions | Particles/Compute.cpp:272-282 | reference definition of CopyState's first loop; Compute.CopyState states that its loop produces it and PullPositionsHold states its data flow |
| ComputeEngine.ParkVelocities | Particles/Compute.cpp:299-309 | reference definition of CopyState's second loop, on the previous engine; Compute.CopyState states that its loop produces it, and ParkVelocitiesHold and ParkFits state its meaning |
| ComputeEngine.PullVelocities | Particles/Compute.cpp:320-330 | reference definition of CopyState's third loop; Compute.CopyState states that its loop produces it and PullVelocitiesHold states its data flow |
| ComputeEngine.PullPositionsHold | Particles/Compute.cpp:272-282 | after the first loop, position buffer i holds the previous engine's shared buffer i for each i below the count, and every other buffer keeps its data |
| ComputeEngine.ParkVelocitiesHold | Particles/Compute.cpp:299-309 | after the park, the previous engine's position buffer i holds its velocity buffer i, and every other buffer keeps its data |
| ComputeEngine.PullVelocitiesHold | Particles/Compute.cpp:320-330 | after the third loop, velocity buffer i holds the previous engine's shared buffer i, and the positions pulled before are not overwritten |
| ComputeEngine.CopyStateHandsOver | Particles/Compute.cpp:270-336 | each of CopyState's three drained stretches, signal included: the positions arrive first and the velocities stay; the previous engine parks its velocities in its shared buffers; then the velocities arrive and the positions stay |
| ComputeEngine.ParkFits | Particles/Compute.cpp:292-293 | every parking copy writes a position buffer and moves no more bytes than a position buffer's data, because a velocity is no larger than a particle |
| ComputeEngine.InitialUploads | Particles/Compute.cpp:609-632 | reference definition of the four uploads of InitializeParticles (both position buffers, both velocity buffers); Compute.InitializeParticles and Compute.constructor state that the queue receives exactly them, between the fence signals |
| ComputeEngine.Compute.constructor | Particles/Compute.cpp:202-225 | a new engine has buffer index 0 and zero frame values; its queue holds exactly the uploads with signals 1..3 (or, built from a previous engine, CopyState's pulls with signals 1..4), and the previous engine gets the velocity copies and one signal |
| ComputeEngine.Compute.Initialize | Particles/Compute.cpp:384-498 | SetAdapter, then the drain after the constant-buffer upload: the only signal is 1 and the counter ends at 2 |
| ComputeEngine.Compute.SetAdapter | Particles/Compute.cpp:344-379 | the fence is created at the counter's value 0 and the counter then advances to 1; the extension is used only when supported |
| ComputeEngine.Compute.WaitForGpu | Particles/Compute.cpp:654-665 | exactly one signal of the current counter value is queued and the counter grows by one; the fence invariant (signals are 1..counter-1) is kept |
| ComputeEngine.Compute.InitializeParticles | Particles/Compute.cpp:549-649 | the four buffers get the generated data, and the queue is drained with one signal |
| ComputeEngine.Compute.CopyState | Particles/Compute.cpp:241-339 | the three copy loops in order, with a drain after each of this engine's loops and one on the previous engine after its own loop; the previous engine's buffer index, handles and extension are unchanged |
| ComputeEngine.Compute.SetUseIntelCommandQueueExtension | Particles/Compute.cpp:99-107 | the new setting and queue recreation are those of Extension.Reconfigure; fences, indices and trace are untouched |
| ComputeEngine.Compute.GetSharedHandles | Particles/Compute.cpp:669-675 | the render engine's fence is opened and the returned handles carry the current buffer index and the aligned buffer size |
| ComputeEngine.Compute.MoveToNextFrame | Particles/Compute.cpp:681-692 | the frame value at the old buffer index becomes the old counter, that value is signalled, the counter grows by one and the index flips; nothing else changes |
| ComputeEngine.Compute.Simulate | Particles/Compute.cpp:697-742 | the queue gets: wait on the copy fence at sharedFenceValue-1 (UINT64), the dispatch over the window at the entry index, a UAV barrier on buffer 1-b, the end-of-frame signal; then the index is 1-b |
| RenderEngine.PresentParameters | Particles/Render.cpp:894-900 | sync interval 1 exactly with vsync; the tearing flag exactly for a windowed chain that supports tearing with vsync off |
| RenderEngine.TearingAfterSwapChain | Particles/Render.cpp:300-311 | after creating a swap chain, tearing support is off in full screen, on when the factory allows it, and otherwise unchanged |
| RenderEngine.InitialCopies | Particles/Render.cpp:268-271 | reference definition of SetShared's initial copies; Render.SetShared states that its loop produces it and InitialCopiesHold states its data flow |
| RenderEngine.InitialCopiesHold | Particles/Render.cpp:268-271 | after the initial copy, local buffer i holds shared buffer i for each i below the count, and every other buffer keeps its data |
| RenderEngine.CopyEvents | Particles/Render.cpp:780-813 | reference definition of the copy-queue commands as written: the render-fence wait at counter - 1, the UAV barrier and copy from shared 1 - s into local 1 - c, the compute-fence wait, the copy signal; the FrameProtocol lemmas state what they order |
| RenderEngine.DrawEvents | Particles/Render.cpp:871-907 | reference definition of the direct-queue commands of Draw: the draw of local buffer c, the wait for this frame's copy value, the end-of-frame render signal (Render.cpp:650) |
| RenderEngine.Render.constructor | Particles/Render.cpp:168-199 | after CreateCommandQueue, the swap chain and LoadAssets: render counter 2, copy counter 1, local index 0, frame index from the swap chain, and the queues hold exactly LoadAssets' drain; the shared index starts at an assumed 0 that SetShared overwrites |
| RenderEngine.Render.CreateCommandQueue | Particles/Render.cpp:125-150 | one more queue creation; the swap chain is recreated, so the tearing support and the frame index are those of the new chain; no fence or trace changes |
| RenderEngine.Render.LoadAssets | Particles/Render.cpp:580-616 | the render fence is created at 0 and its counter advances to 1, the copy fence is created at 0, and the closing WaitForGpu leaves render counter 2 and copy counter 1 |
| RenderEngine.Render.WaitForGpu | Particles/Render.cpp:622-638 | the copy counter is incremented and signalled, the direct queue waits for it and signals the render counter, which then grows by one |
| RenderEngine.Render.SetUseIntelCommandQueueExtension | Particles/Render.cpp:156-164 | the setting follows Extension.Reconfigure, and only a recreated queue takes a new swap chain's frame index and tearing support |
| RenderEngine.Render.SetShared | Particles/Render.cpp:227-279 | the shared index becomes the handles' buffer index, shared buffer i is placed at i * alignedDataSize, both buffers are copied to the local ones and the queues are drained |
| RenderEngine.Render.CopySimulationResults | Particles/Render.cpp:773-814 | the copy queue gets: wait on the render fence at counter-1 (UINT64), a UAV barrier on shared 1-s, copy shared 1-s into local 1-c of count*16 bytes, wait on the compute fence for the value passed in, and signal the incremented copy counter; s flips and c is unchanged |
| RenderEngine.Render.MoveToNextFrame | Particles/Render.cpp:644-666 | the frame value at the old frame index becomes the render counter, which is signalled and incremented; a wait is needed exactly when the completed value is below the new frame's recorded value |
| RenderEngine.Render.Draw | Particles/Render.cpp:822-914 | copy as above, draw local buffer c, flip c, present with PresentParameters, wait on the copy value just signalled, hand that value back and move to the next frame |
| FrameProtocol.FrameEvents | Particles/Particles.cpp:446-448 | reference definition of the commands one frame puts on the compute, copy and direct queues (Simulate, then Render::Draw's copy and draw parts); Particles.SubmitFrame and RunFrame state that the queues grow by exactly these, and SimulateWaitsForPreviousCopy, CopyWaitsForPreviousDraw, NextFrameDrawsCopiedBuffer and CopySourceIsSimulateDestination state their ordering and data flow |
| FrameProtocol.Next | Particles/Particles.cpp:446-448 | one frame keeps every buffer index in {0,1} |
| FrameProtocol.Run | Particles/Particles.cpp:432-448 | any number of frames keeps every buffer index in {0,1} |
| FrameProtocol.RunKeepsWiring | Particles/Compute.cpp:673 | after the hand-off, render's shared index equals compute's buffer index at every frame start; every counter grows by one per frame and the index flips each frame |
| FrameProtocol.SimulateWaitsForPreviousCopy | Particles/Particles.cpp:446-448 | Simulate's wait targets the copy value signalled before this frame's copy, so sharedFenceValue-1 never wraps, and this frame's copy signals one more |
| FrameProtocol.CopyWaitsForPreviousDraw | Particles/Render.cpp:780 | the copy queue's first wait targets the previous frame's end-of-frame render signal; that frame drew the local buffer this copy overwrites |
| FrameProtocol.NextFrameDrawsCopiedBuffer | Particles/Render.cpp:828-862 | the buffer drawn in frame k+1 is the local buffer frame k's copy wrote |
| FrameProtocol.CopyAndDispatchUnordered | Particles/Render.cpp:780-809 | within a frame the copy waits only on the render fence before copying, and the dispatch waits only for an earlier copy value, so neither orders the other |
| FrameProtocol.CopySourceIsSimulateDestination | Particles/Render.cpp:782 | as written, a wired frame's copy source 1 - sharedIdx is the shared buffer the same frame's dispatch writes (1 - bufIdx, Compute.cpp:702-703) |
| FrameProtocol.CopySourceIsSimulateDestinationForever | Particles/Render.cpp:782-784 | the same clash holds in every frame after any number of frames |
| FrameProtocol.CopyReadsStaleBuffer | Particles/Render.cpp:782 | as written, frame k+1's copy reads the buffer frame k's dispatch read, never the one it wrote |
| FrameProtocol.IntendedCopySource | Particles/Render.cpp:782 | the commented source index: shared buffer m_sharedBufferIndex, a position buffer in {0,1} |
| FrameProtocol.IntendedCopyEvents | Particles/Render.cpp:782-798 | reference definition of the copy-queue commands with the copy source corrected to the commented shared buffer m_sharedBufferIndex; IntendedCopyIsRaceFree states that this copy reads the previous dispatch's output and never the current one's |
| FrameProtocol.IntendedCopyIsRaceFree | Particles/Render.cpp:782 | with the commented index, the copy never reads what the same frame's dispatch writes, and it reads what the previous dispatch wrote, after waiting for that dispatch's signal |
| Orchestrator.Usable | Particles/Particles.cpp:107 | reference definition of the enumeration filter: no software flag and vendor id other than 5140; UsableAdapters and UsableAdaptersComplete state that exactly these adapters are kept |
| Orchestrator.UsableAdapters | Particles/Particles.cpp:103-122 | the kept adapters are enumerated ones without the software flag and with vendor id other than 5140, in order |
| Orchestrator.UsableAdaptersComplete | Particles/Particles.cpp:108 | no adapter passing the filter is dropped |
| Orchestrator.EnumerateAdapters | Particles/Particles.cpp:103-122 | the enumeration loop keeps exactly UsableAdapters |
| Orchestrator.LastWith | Particles/Particles.cpp:219-235 | the highest index whose UMA report has the given value, or none when there is none |
| Orchestrator.AssignedRoles | Particles/Particles.cpp:212-243 | reference definition of AssignAdapters' choice as (render, compute); AssignedRolesInRange and AssignedRolesPreferUma state its meaning |
| Orchestrator.AssignedRolesInRange | Particles/Particles.cpp:212-243 | both roles are adapter indices; one adapter takes both roles, and two or more adapters never share a role |
| Orchestrator.AssignedRolesPreferUma | Particles/Particles.cpp:219-235 | compute is the highest-index UMA adapter if one exists, and render the highest-index non-UMA adapter if one exists |
| Orchestrator.AssignAdapters | Particles/Particles.cpp:212-243 | the loop (from indices 0/0, Particles.cpp:53-54) and the tie-break give AssignedRoles, both in range |
| Orchestrator.DefaultSettings | Particles/Particles.cpp:56-72 | reference definition of the member initialisers: all four counts equal to the maximum, linked, UI and extensions on, vsync on, windowed; ParseCommandLine and TrailingCountEnds start from it |
| Orchestrator.Registrations | Particles/Particles.cpp:251-267 | reference definition of the ten AddArg names and their callbacks, in the order they are added; Registered states how the parser stores them and ParseCommandLine that its firings come from them |
| Orchestrator.Apply | Particles/Particles.cpp:250-267 | reference definition of one callback of ParseCommandLine, None where std::stoi throws; ApplyConverts, ApplyFlips and ApplyUnlinks state what each does |
| Orchestrator.StoreCount | Particles/Particles.cpp:251-256 | reference definition of what a count lambda stores once std::stoi has read its value; ApplyConverts states it |
| Orchestrator.Toggle | include/ArgParser.h:133 | reference definition of the registrations without a conversion; ApplyFlips states it |
| Orchestrator.ApplyConverts | Particles/Particles.cpp:250-267 | in the model, a callback ends the process exactly when it is a count whose value std::stoi rejects (the source also ends when std::stof rejects a size or intensity value, see Left out); numparticles stores the value read in all four counts, and numCopy, numDraw and numSim each in their own |
| Orchestrator.ApplyAll | Particles/Particles.cpp:250-269 | reference definition of the callbacks run in firing order up to the first exception; ApplyAllEnds, TogglesFollowParity and LinkedUnlessCountGiven state the outcome |
| Orchestrator.ApplyAllEnds | Particles/Particles.cpp:250-269 | in the model, the callbacks end the process exactly when some firing is a count whose value std::stoi rejects (the std::stof exits of size and intensity are listed under Left out) |
| Orchestrator.ApplyFlips | include/ArgParser.h:133 | each bool callback flips its own setting and leaves the other toggles, whenever the callback returns |
| Orchestrator.TogglesFollowParity | Particles/Particles.cpp:258-263 | when no callback throws, each bool setting ends flipped exactly when its switch fired an odd number of times |
| Orchestrator.ApplyUnlinks | Particles/Particles.cpp:265-267 | only numCopy, numDraw and numSim unlink the particle counts, whenever the callback returns |
| Orchestrator.LinkedUnlessCountGiven | Particles/Particles.cpp:265-267 | when no callback throws, the counts stay linked exactly when none of the three count switches fired |
| Orchestrator.ParseCommandLine | Particles/Particles.cpp:248-270 | the settings are the defaults with every firing of the registered parser applied in order, or None when a std::stoi conversion throws and the process ends (in the model; the std::stof exits are listed under Left out); the listing appears exactly for two tokens with "?" second |
| Orchestrator.TrailingCountEnds | include/ArgParser.h:124 | a command line whose last token names numparticles, numCopy, numDraw or numSim, in any spelling, ends the process: that switch gets the empty string, which std::stoi cannot convert |
| Orchestrator.Registered | include/ArgParser.h:82-85 | each registration is stored with its name lower-cased and its handler, in order |
| Orchestrator.ShareHandlesCalls | Particles/Particles.cpp:191-208 | ResetFromAsyncHelper, GetSharedHandles, SetShared, then SetAsync exactly in async mode, then SetAsyncMode with that mode |
| Orchestrator.DetectChanges | Particles/Particles.cpp:458-463 | compute and extension changes are exact differences; full screen and a new render adapter force a render change; nothing changes when nothing differs |
| Orchestrator.DrainCalls | Particles/Particles.cpp:467-471 | reference definition of the drain: render, then compute, exactly when either adapter changes; DrainsPrecedeRebuilds and Particles.DrainFor state it |
| Orchestrator.RenderRebuildCalls | Particles/Particles.cpp:488-509 | reference definition of the render rebuild: a new Render on the render adapter, then ShareHandles; ShareHandlesFollowsRebuild and Particles.RebuildRenderFor state it |
| Orchestrator.ComputeRebuildCalls | Particles/Particles.cpp:512-522 | reference definition of the compute rebuild: a new Compute on the compute adapter, the old one deleted, then ShareHandles; ShareHandlesFollowsRebuild and Particles.RebuildComputeFor state it |
| Orchestrator.ExtensionCalls | Particles/Particles.cpp:526-531 | reference definition of the queue-extension call, made exactly on an extension change; NoChangeNoCalls and Particles.ApplyExtensionFor state it |
| Orchestrator.ReconfigurationCalls | Particles/Particles.cpp:467-531 | reference definition of the reconfiguration calls in source order: drains, render rebuild, compute rebuild, extension; DrainsPrecedeRebuilds, ShareHandlesFollowsRebuild and NoChangeNoCalls state its order and emptiness, and Particles.Reconfigure that the log grows by exactly it |
| Orchestrator.NoChangeNoCalls | Particles/Particles.cpp:467-531 | no detected change makes no drain, rebuild or extension call |
| Orchestrator.DrainsPrecedeRebuilds | Particles/Particles.cpp:467-471 | both engines are drained, render first, before any engine is rebuilt |
| Orchestrator.ShareHandlesFollowsRebuild | Particles/Particles.cpp:488-519 | a new render engine is followed at once by ShareHandles; a new compute engine by the old one's deletion and then ShareHandles |
| Orchestrator.FrameCounts | Particles/Particles.cpp:439-443 | linked counts hand the rendered count to the copy and the simulation; unlinked counts without UI pass through |
| Orchestrator.NewEngines | Particles/Particles.cpp:130-131 | both engines created on their adapters with the extension off, valid and with separate frame-value arrays |
| Orchestrator.NewComputeFrom | Particles/Particles.cpp:514-516 | the new compute engine is built on the chosen adapter from the old one, using the extension only where supported |
| Orchestrator.Particles.constructor | Particles/Particles.cpp:124-170 | a render and a compute engine on the assigned adapters, wired by ShareHandles, with the toggle history equal to the current toggles; the counts must not be negative |
| Orchestrator.Particles.ShareHandles | Particles/Particles.cpp:191-208 | the calls of ShareHandlesCalls; afterwards render's shared index equals compute's buffer index, render's queues hold the initial copies and one drain, and compute's queue, fence and index are unchanged |
| Orchestrator.Particles.RecordToggles | Particles/Particles.cpp:533-537 | the toggle history takes the current adapters, extension and full-screen settings |
| Orchestrator.Particles.LinkCounts | Particles/Particles.cpp:439-443 | linked: the copied and simulated counts become the rendered count; unlinked: unchanged |
| Orchestrator.Particles.ApplyEdits | Particles/Particles.cpp:309-421 | the toggles and counts become what the user interface wrote, and the copy and simulation sliders are ignored while linked |
| Orchestrator.Particles.SubmitFrame | Particles/Particles.cpp:446-448 | Render::Draw with compute's next fence value, then Simulate with the copy value Draw hands back; the queues grow by exactly FrameProtocol.FrameEvents and the counters move to FrameProtocol.Next |
| Orchestrator.Particles.PrepareFrame | Particles/Particles.cpp:439-443 | the counts handed to the engines are FrameCounts of the fields before the frame |
| Orchestrator.Particles.RunFrame | Particles/Particles.cpp:432-448 | one frame: the counts, the edits and the engine commands FrameEvents, keeping the wiring |
| Orchestrator.Particles.DrainFor | Particles/Particles.cpp:467-471 | both engines drain when either is rebuilt, and nothing happens otherwise |
| Orchestrator.Particles.RebuildRenderFor | Particles/Particles.cpp:488-509 | on a render change a fresh render engine on the current adapter and mode, then ShareHandles |
| Orchestrator.Particles.RebuildComputeFor | Particles/Particles.cpp:512-522 | on a compute change a fresh compute engine built from the old one before it goes, then ShareHandles; the extension flag follows the new engine |
| Orchestrator.Particles.ApplyExtensionFor | Particles/Particles.cpp:526-531 | on an extension change the compute queue follows the setting and the flag becomes "either engine uses it" |
| Orchestrator.Particles.Rebuild | Particles/Particles.cpp:467-522 | drains, then the render rebuild, then the compute rebuild, each only when asked for |
| Orchestrator.Particles.Finish | Particles/Particles.cpp:526-537 | the extension change, then the history reset, which leaves the counters and indices untouched |
| Orchestrator.Particles.Reconfigure | Particles/Particles.cpp:458-537 | exactly the calls ReconfigurationCalls of the detected changes; on exit the history equals the current toggles, so an unchanged next frame rebuilds nothing |
| Orchestrator.Particles.Draw | Particles/Particles.cpp:432-538 | the frame's two engine calls, then the reconfiguration calls of the changes the edits caused; without an engine change the engines are kept and the counters are FrameProtocol.Next |
| Orchestrator.Create | Particles/Particles.cpp:101-141 | null exactly when no adapter passes the filter, standing for the process terminating at the bare throw with no exception in flight; otherwise the usable adapters, AssignedRoles and the initial calls; the counts must not be negative |
| ArgParse.LowerChar | include/ArgParser.h:84 | towlower in the "C" locale, the one the program runs in since nothing calls setlocale: the ASCII capitals A-Z become the letter 32 code points later, every other character is kept, and no ASCII capital remains |
| ArgParse.Lower | include/ArgParser.h:84 | a string of the same length without capitals |
| ArgParse.LowerAt | include/ArgParser.h:84 | character i of the lower-cased string is LowerChar of character i, the indexwise reading of Lower |
| ArgParse.LowerIdempotent | include/ArgParser.h:88 | lower-casing the stored (already lower-cased) name again changes nothing |
| ArgParse.CaseEquivalentLower | include/ArgParser.h:84-89 | two spellings differing only in letter case lower-case to the same string |
| ArgParse.LowerCase | include/ArgParser.h:84 | the in-place loop produces Lower of its input |
| ArgParse.Matches | include/ArgParser.h:86-89 | reference definition of TestEqual's comparison, the stored name against the lower-cased token; MatchIgnoresCase states that it ignores letter case |
| ArgParse.ValueAfter | include/ArgParser.h:124 | reference definition of the value handed to a callback (the next token, or "" after the last); FiringsAtComplete and FiringComplete state that every match receives it |
| ArgParse.FiringsAt | include/ArgParser.h:122-125 | at one position no more firings than registrations |
| ArgParse.FiringsAtSound | include/ArgParser.h:86-93 | every firing at a position comes from a registration whose name equals the lower-cased token |
| ArgParse.FiringsAtComplete | include/ArgParser.h:122-125 | every registration matching the token at a position fires there with ValueAfter |
| ArgParse.FiringsUpTo | include/ArgParser.h:120-126 | reference definition of the firings of the whole parse, by position then registration; FiringSound and FiringComplete state that they are exactly the matches |
| ArgParse.FiringSound | include/ArgParser.h:120-126 | every firing of the whole parse is a match at some position |
| ArgParse.FiringComplete | include/ArgParser.h:120-126 | every match at every position, index 0 included, fires |
| ArgParse.MatchIgnoresCase | include/ArgParser.h:82-93 | a name registered in any spelling matches a token in any other spelling |
| ArgParse.Count | include/ArgParser.h:133 | the number of firings of one handler: zero exactly when the handler never fires, and all of them exactly when every firing is that handler's |
| ArgParse.Toggled | include/ArgParser.h:133 | reference definition of a bool registration after its firings, one flip per firing; ToggledParity states that only the parity counts |
| ArgParse.ToggledParity | include/ArgParser.h:133 | a bool registration ends flipped exactly when it fired an odd number of times, whatever values it got |
| ArgParse.Names | include/ArgParser.h:113-116 | reference definition of the help listing, the stored names in registration order; ArgParse.ArgParser.Parse states that its listing loop produces it |
| ArgParse.SkipSpace | include/ArgParser.h:131 | std::stoi's skip of leading white space: what is left does not start with white space and is no longer than the value |
| ArgParse.SkipSpaceDropsSpace | include/ArgParser.h:131 | what SkipSpace leaves is a suffix of the value, and everything it drops is white space |
| ArgParse.DigitRun | include/ArgParser.h:131 | the length of the leading run of digits: within the value, and the next character, if any, is not a digit |
| ArgParse.DigitRunDigits | include/ArgParser.h:131 | every character of the run DigitRun measures is a digit |
| ArgParse.Decimal | include/ArgParser.h:131 | the decimal digits of a number, a non-empty run of digits |
| ArgParse.DecimalValue | include/ArgParser.h:131 | the digits of n are worth n |
| ArgParse.StoI | include/ArgParser.h:131 | reference definition of std::stoi in base 10, None for its exceptions; StoIDecimal, StoIRejects, StoIOutOfRange, StoIUnsigned and StoINegated state its meaning |
| ArgParse.ReadInt | include/ArgParser.h:131 | reference definition of the sign and digits part of std::stoi; StoIUnsigned and StoINegated state it |
| ArgParse.ReadDigits | include/ArgParser.h:131 | reference definition of the leading digits' value; ReadAllDigits and ReadDecimal state it |
| ArgParse.ReadAllDigits | include/ArgParser.h:131 | a string made only of digits is read whole |
| ArgParse.ReadDecimal | include/ArgParser.h:131 | the decimal digits of n read back as n |
| ArgParse.StoIUnsigned | include/ArgParser.h:131 | digits worth m convert to m exactly when m fits an int, otherwise out_of_range |
| ArgParse.StoINegated | include/ArgParser.h:131 | the same digits after a minus sign convert to -m exactly when -m fits an int |
| ArgParse.StoIDecimal | include/ArgParser.h:131 | every int written in decimal, with a minus sign when negative, converts back to itself |
| ArgParse.StoIRejects | include/ArgParser.h:131 | an empty value, or one starting with anything but white space, a sign or a digit, makes std::stoi throw |
| ArgParse.StoIOutOfRange | include/ArgParser.h:131 | values just outside the int range, either sign, make std::stoi throw |
| ArgParse.ArgParser.constructor | include/ArgParser.h:100 | a new parser has no registrations |
| ArgParse.ArgParser.AddArg | include/ArgParser.h:73 | one registration is appended, with its name lower-cased |
| ArgParse.ArgParser.Parse | include/ArgParser.h:105-127 | the listing (the stored names) exactly for two tokens with "?" second; the firings are FiringsUpTo over every token, which FiringSound and FiringComplete characterise |
| CommandLine.SetRequired | include/CmdLine.h:30-35 | AF_REQUIRED is its own bit: setting it leaves the greedy and hidden bits |
| CommandLine.SetGreedy | include/CmdLine.h:30-35 | AF_GREEDY is its own bit: setting it leaves the required and hidden bits |
| CommandLine.SetBoth | include/CmdLine.h:388 | setting both the required and greedy bits leaves the hidden bit |
| CommandLine.NoFlags | include/CmdLine.h:80-84 | no flags: neither hidden, greedy nor required |
| CommandLine.IsHidden | include/CmdLine.h:80 | reference definition of the AF_HIDDEN test; SetRequired, SetGreedy and SetBoth state that other flags leave it |
| CommandLine.IsGreedy | include/CmdLine.h:82 | reference definition of the AF_GREEDY test; NewUnnamedArgs and NewUnnamedArg state that unnamed arguments always have it |
| CommandLine.IsRequired | include/CmdLine.h:84 | reference definition of the AF_REQUIRED test; NewValueArg and NewUnnamedArg state when it is set |
| CommandLine.Dash | include/CmdLine.h:89 | the switch as written on the command line: a '-' followed by the name |
| CommandLine.NewSwitchArg | include/CmdLine.h:104-108 | a switch starts at its default (false unless given), with no flags |
| CommandLine.NewValueArg | include/CmdLine.h:277-281 | a value argument is required exactly when built without a default or with the required flag, and starts at its default |
| CommandLine.NewUnnamedArgs | include/CmdLine.h:344 | unnamed arguments are always greedy, with no values yet |
| CommandLine.NewUnnamedArg | include/CmdLine.h:388-389 | a single unnamed argument is greedy, and required when built without a default |
| CommandLine.Without | include/CmdLine.h:113-125 | the list with the switch erased: no longer, and without the switch |
| CommandLine.Occurrences | include/CmdLine.h:116-119 | the number of tokens equal to the switch, at most the list's length |
| CommandLine.WithoutCounts | include/CmdLine.h:113-125 | erasing removes exactly the switch's occurrences and keeps every other token with its multiplicity |
| CommandLine.OccurrencesCount | include/CmdLine.h:116-119 | the flip count is the switch's multiplicity in the list |
| CommandLine.FirstIndex | include/CmdLine.h:285-308 | the position of the first token equal to the switch, none exactly when absent |
| CommandLine.Unswitched | include/CmdLine.h:353 | reference definition of a token without a leading dash (the empty token included, whose first character is the terminator); UnswitchedPartition states how it splits a list |
| CommandLine.UnswitchedTokens | include/CmdLine.h:350-362 | the tokens not starting with '-', at most the list's length |
| CommandLine.SwitchedTokens | include/CmdLine.h:350-362 | the tokens starting with '-', at most the list's length |
| CommandLine.UnswitchedPartition | include/CmdLine.h:350-362 | the unnamed and named tokens together are the list, each group holding only its kind |
| CommandLine.FirstUnswitched | include/CmdLine.h:393-407 | the position of the first token not starting with '-', none exactly when every token starts with it |
| CommandLine.ParseSpec | include/CmdLine.h:111-410 | reference definition of every Parse method on the token list; ParseSwitch, ParseValue, ParseUnnamedArgs and ParseUnnamedArg are proved equal to it, and ParseSpecShrinks, ValueParseErasesPair, SwitchParseIdempotent and WithoutCounts state its meaning |
| CommandLine.ParseSpecShrinks | include/CmdLine.h:111-410 | a Parse of any kind keeps its argument's kind, flags, switch and minimum and only erases tokens |
| CommandLine.ValueParseErasesPair | include/CmdLine.h:289-297 | on success a value argument holds a value, and exactly one switch token and one value token are erased |
| CommandLine.SwitchParseIdempotent | include/CmdLine.h:111-126 | parsing a switch again on what is left changes nothing |
| CommandLine.WithoutAbsent | include/CmdLine.h:113-125 | an absent switch leaves the list as it was and is not flipped |
| CommandLine.ParseSwitch | include/CmdLine.h:111-126 | every token equal to the switch is erased, the rest kept in order, and 'on' flipped once per erased token |
| CommandLine.ParseValue | include/CmdLine.h:283-311 | the first switch and the token after it are erased and that token is the value; a trailing switch is erased and "Expected argument." raised; an absent switch raises "Missing required argument." only when required |
| CommandLine.ParseUnnamedArgs | include/CmdLine.h:346-365 | 'values' is replaced by the unnamed tokens in order, which are erased; fewer than min raises "Not enough arguments for command." |
| CommandLine.ParseUnnamedArg | include/CmdLine.h:391-410 | the first unnamed token is erased and becomes the value; none raises "Missing required unnamed argument." only when required |
| CommandLine.ParseArgument | include/CmdLine.h:67 | the virtual Parse: each kind as specified by ParseSpec |
| CommandLine.Pass | include/CmdLine.h:171-178 | one registration-order pass: arguments past the pass's end are untouched and the argument count is kept |
| CommandLine.ParseAll | include/CmdLine.h:170-178 | the non-greedy pass, then, unless it raised, the greedy pass, keeping the argument count |
| CommandLine.PassShrinks | include/CmdLine.h:171-178 | a pass keeps every argument's shape and only erases tokens |
| CommandLine.PassSkipsOtherGroup | include/CmdLine.h:172-177 | a pass leaves every argument of the other greedy group as it was |
| CommandLine.ParseAllShrinks | include/CmdLine.h:164-178 | both passes keep every argument's shape and only erase tokens |
| CommandLine.RunPass | include/CmdLine.h:171-173 | the loop over the registered arguments computes Pass |
| CommandLine.HelpSwitch | include/CmdLine.h:151 | the parser's own "-?" switch, off and not greedy |
| CommandLine.CmdLine.constructor | include/CmdLine.h:146-152 | a new parser holds only its help switch and no path |
| CommandLine.CmdLine.AddArgument | include/CmdLine.h:156 | the argument is appended to the registration list |
| CommandLine.CmdLine.Parse | include/CmdLine.h:159-203 | argv[0] becomes the path; the arguments are parsed by ParseAll of argv[1..]; an exception fails, a set help switch shows help, otherwise the unparsed tokens, a sub-multiset of argv[1..], remain |
| Timing.Sum | include/Timer.h:111-112 | the sum of the samples, zero for none |
| Timing.SumUpdate | include/Timer.h:111-113 | overwriting one sample moves the sum by the difference, so the running sum stays exact |
| Timing.SumZeros | include/Timer.h:87 | the initial zero samples sum to zero |
| Timing.Advance | include/Timer.h:110 | the ring step: one on, or back to 0 at the end, always below the size |
| Timing.AdvanceBy | include/Timer.h:110 | after k recorded samples the index is still inside the ring |
| Timing.AdvanceByIsModular | include/Timer.h:110 | the index after k samples is (start + k) mod size |
| Timing.Records | include/Timer.h:101-102 | reference definition of Update's test after the UINT increment of the counter; NextCount, RecordsEveryNth and StaleCountRecordsNothing state when it holds |
| Timing.NextCount | include/Timer.h:101-104 | the counter returns to 0 exactly when the call records (or the UINT wraps), and otherwise grows by one |
| Timing.CountAfter | include/Timer.h:101-104 | the skip counter after k calls stays a UINT |
| Timing.RecordsEveryNth | include/Timer.h:101-104 | from a zero counter, call k+1 records exactly when k+1 is a multiple of everyN |
| Timing.StaleCountRecordsNothing | include/Timer.h:84-85 | as written, a counter starting at or above everyN records nothing until the 32-bit wrap |
| Timing.StaleCountExample | include/Timer.h:84-85 | with everyN = 1 a counter left at 5 records on neither the first call nor the next thousand |
| Timing.TimerAverageOver.AsWritten | include/Timer.h:84-90 | n zero samples, sum 0, index 0, previous time 0, and the skip counter whatever memory held |
| Timing.TimerAverageOver.constructor | include/Timer.h:84-90 | as AsWritten with the counter 0, so the timer records every everyN-th call from the start |
| Timing.TimerAverageOver.Start | include/Timer.h:92-97 | no skipping from now on, the region starts now, and the samples and sum are kept |
| Timing.TimerAverageOver.Update | include/Timer.h:99-115 | on the everyN-th call the next slot takes the time since the previous sample, the sum stays the sum of the slots and the counter resets; other calls only count |
| Timing.TimerAverageOver.Get | include/Timer.h:117-120 | the result times (size * everyN) is the sum of the samples |
| GpuTiming.Double32 | include/D3D12GpuTimer.h:77 | the UINT doubling: 2n while it fits, always below 2^32 |
| GpuTiming.BeginSlot | include/D3D12GpuTimer.h:117-121 | the begin slot is a UINT |
| GpuTiming.EndSlot | include/D3D12GpuTimer.h:125-129 | the end slot is a UINT |
| GpuTiming.SlotsInRange | include/D3D12GpuTimer.h:117-129 | timer i uses slots 2i and 2i+1, both below the total of 2 * numTimers |
| GpuTiming.SlotsDisjoint | include/D3D12GpuTimer.h:117-129 | a timer's two slots differ and different timers share no slot |
| GpuTiming.Elapsed | include/D3D12GpuTimer.h:145-149 | the tick delta is the absolute difference of the two timestamps, without unsigned wrap |
| GpuTiming.Smoothed | include/D3D12GpuTimer.h:151-153 | reference definition of the moving-average step (old average weighted k - 1, sample weighted 1, over k); SmoothedBetween and SmoothedSteady state its meaning |
| GpuTiming.SmoothedBetween | include/D3D12GpuTimer.h:151-153 | the new average lies between the old average and the new sample |
| GpuTiming.SmoothedSteady | include/D3D12GpuTimer.h:151-153 | a steady sample is a fixed point, and with k = 1 the average is the last sample |
| GpuTiming.Resolved | include/D3D12GpuTimer.h:151-153 | resolving keeps the timer's name |
| GpuTiming.GpuTimer.constructor | include/D3D12GpuTimer.h:71-103 | 2 * numTimers slots in UINT, numTimers default entries, the averaging weight and the queue's frequency |
| GpuTiming.GpuTimer.SetTimerName | include/D3D12GpuTimer.h:107-113 | the name of entry index is replaced when index is in range; otherwise nothing changes |
| GpuTiming.GpuTimer.ResolveAllTimers | include/D3D12GpuTimer.h:133-160 | every timer i is resolved from timestamps 2i and 2i+1 with the queue's current frequency, and the frequency is stored |
| IntelExtension.MakeVersion | include/igd12ext.h:61 | reference definition of D3D12_EXT_MAKE_VERSION: major and minor cut to 8 bits in bits 24-31 and 16-23; ShortVersionHasNoRevision and NoRevisionIsShortVersion relate it to the full version |
| IntelExtension.MakeFullVersion | include/igd12ext.h:62 | reference definition of D3D12_EXT_MAKE_FULL_VERSION: as MakeVersion with the revision cut to 16 bits in bits 0-15; the round-trip lemmas below read each part back |
| IntelExtension.GetMajor | include/igd12ext.h:63 | reference definition of D3D12_EXT_GET_VERSION_MAJOR; MajorRoundTrip and VersionIsItsParts state that it inverts the packing |
| IntelExtension.GetMinor | include/igd12ext.h:64 | reference definition of D3D12_EXT_GET_VERSION_MINOR; MinorRoundTrip and VersionIsItsParts state that it inverts the packing |
| IntelExtension.GetRevision | include/igd12ext.h:65 | reference definition of D3D12_EXT_GET_VERSION_REVISION; RevisionRoundTrip and VersionIsItsParts state that it inverts the packing |
| IntelExtension.GetNoRevision | include/igd12ext.h:66 | reference definition of D3D12_EXT_GET_VERSION_NO_REVISION; NoRevisionIsShortVersion states that it turns a full version into the short one |
| IntelExtension.MajorRoundTrip | include/igd12ext.h:62-63 | GET_VERSION_MAJOR of a full version is the major cut to 8 bits |
| IntelExtension.MinorRoundTrip | include/igd12ext.h:62-64 | GET_VERSION_MINOR of a full version is the minor cut to 8 bits |
| IntelExtension.RevisionRoundTrip | include/igd12ext.h:62-65 | GET_VERSION_REVISION of a full version is the revision cut to 16 bits |
| IntelExtension.NoRevisionIsShortVersion | include/igd12ext.h:61-66 | dropping the revision of a full version gives MAKE_VERSION of the same major and minor |
| IntelExtension.ShortVersionHasNoRevision | include/igd12ext.h:61-65 | MAKE_VERSION has revision 0 |
| IntelExtension.VersionIsItsParts | include/igd12ext.h:62-65 | any version is the full version of its major, minor and revision |
| IntelExtension.Fields | include/igd12ext.h:88-97 | reading the union's bit fields gives the macros' major, minor and revision |
| IntelExtension.FullVersion | include/igd12ext.h:88-97 | writing the bit fields gives MAKE_FULL_VERSION of them |
| IntelExtension.FieldsRoundTrip | include/igd12ext.h:88-97 | the bit-field and full-version views of the union agree both ways |
| IntelExtension.ExtDll | include/igd12ext.h:54-58 | reference definition of ID3D12_EXT_DLL per target; ProcessDirCandidate and DriverCandidate state that every candidate ends with it |
| IntelExtension.UmdDll | include/igd12ext.h:54-58 | reference definition of ID3D12_UMD_DLL per target; DriverCandidateIsDriverDirectory states that a driver candidate exists exactly when it occurs in the module path |
| IntelExtension.HandleSize | include/igd12ext.h:1119 | reference definition of sizeof(HMODULE) per target, 8 or 4 bytes; AsWrittenBoundOverruns and OverrunExample use it |
| IntelExtension.RFind | include/igd12ext.h:1093 | rfind of a character: none exactly when absent, else a position holding it with none after |
| IntelExtension.FindFrom | include/igd12ext.h:1127 | find of a substring from k: the first occurrence at or after k, none when there is none |
| IntelExtension.Find | include/igd12ext.h:1127 | find of a substring: the first occurrence, none when there is none |
| IntelExtension.ProcessDirCandidate | include/igd12ext.h:1093-1104 | the process-directory candidate ends with the extension DLL's name |
| IntelExtension.ProcessDirIsDirectory | include/igd12ext.h:1093-1104 | the kept part is empty for a path without a backslash, else the prefix up to and including the last backslash |
| IntelExtension.DriverCandidate | include/igd12ext.h:1126-1131 | a driver candidate ends with the extension DLL's name |
| IntelExtension.DriverCandidateIsDriverDirectory | include/igd12ext.h:1126-1131 | a module yields a candidate exactly when its path contains the UMD name, and the candidate keeps the prefix before its first occurrence |
| IntelExtension.ModuleCandidate | include/igd12ext.h:1121-1131 | one module contributes at most one candidate |
| IntelExtension.DriverCandidates | include/igd12ext.h:1119-1141 | the scanned modules contribute at most one candidate each, in order |
| IntelExtension.FirstLoadable | include/igd12ext.h:1107-1111 | what is loaded is a candidate that loads |
| IntelExtension.FirstLoadableIsFirst | include/igd12ext.h:1086-1144 | NULL exactly when no candidate loads; otherwise the earliest candidate that loads |
| IntelExtension.FirstLoadableSkips | include/igd12ext.h:1107-1115 | candidates in front of which none loads can be skipped: a failed process-directory attempt leaves the outcome to the module scan |
| IntelExtension.AsWrittenBound | include/igd12ext.h:1119 | reference definition of the loop bound as written, cbNeeded / sizeof(HMODULE); AsWrittenBoundOverruns states exactly when it passes the end of hMods |
| IntelExtension.AsWrittenBoundOverruns | include/igd12ext.h:1119 | as written, the loop bound exceeds the 1024 entries of hMods, so the last index read is 1024 or more, exactly when cbNeeded covers 1025 handles |
| IntelExtension.OverrunExample | include/igd12ext.h:1119 | the smallest overrun: 1025 modules give a loop bound of 1025 on both platforms, so hMods[1024] is read |
| IntelExtension.ScannedModules | include/igd12ext.h:1080 | the corrected bound: at most 1024, at most the written bound, and equal to it whenever that fits |
| IntelExtension.Candidates | include/igd12ext.h:1086-1141 | reference definition of the paths the loader tries, in order: the process-directory candidate when asked for and known, then each scanned module's driver candidate; ProcessDirTriedFirst and NothingToTry state its edge cases |
| IntelExtension.LoadIntelExtensionsLibrary | include/igd12ext.h:1076-1145 | the loaded path is the first loadable one of: the process-directory candidate (only when asked for and the path is known), then each scanned driver module's candidate in order |
| IntelExtension.ScanModules | include/igd12ext.h:1116-1142 | the module loop returns the first loadable driver candidate among the first n modules |
| IntelExtension.ProcessDirTriedFirst | include/igd12ext.h:1086-1111 | when asked for and loadable, the process-directory candidate wins whatever the modules are |
| IntelExtension.NothingToTry | include/igd12ext.h:1086-1144 | without the process directory and without an enumeration NULL is returned |

## Left out

- All Direct3D 12 and DXGI objects: devices, heaps, resources, descriptors,
  barriers other than the UAV barrier, root signatures, pipeline states, command
  lists. They matter only through the queue events they cause.
- GPU concurrency and host waits. A fence's completed value is an input, and
  `WaitForSingleObject` is not modelled.
- `LoadParticles` and the float and random work of `InitializeParticles`. The
  model keeps only the uploads and the drain.
- Swap-chain creation details, window styling, `UpdateCamera`, `SimpleCamera`, the
  user interface (`DrawGUI`, `InitGui`) and the message pump. What the user interface
  writes into the orchestrator's fields is an input of each frame (`Edits`).
- `ExtensionHelper.h`. Whether the extension is enabled on a device is an input.
- The frame timer and the GPU timers' calls inside the engines.
- Floats become exact reals in `Timing` and `GpuTiming`. Float rounding of the
  dispatch group count for more than 2^24 particles is not modelled.
- The float registrations `size` and `intensity` of `ParseCommandLine`. They set
  floats the model does not keep.
- `atoi` and the typed `ArgTraits::Parse` conversions of `CmdLine.h`. `ValueArg`
  keeps the token string as its value. `std::stoi` itself is modelled (`ArgParse.StoI`),
  for base 10 and a 32-bit long.
- Orchestrator.ApplyConverts, Orchestrator.ApplyAllEnds, Orchestrator.ParseCommandLine: the
  float registrations' `std::stof` can throw as well, for instance on the empty
  value after a trailing `size` or `intensity`, and the process then ends. The model
  treats both registrations as doing nothing.
- Orchestrator.Particles.constructor: requires counts that are not negative.
  `std::stoi` reads negative counts, which `ParseCommandLine` returns and the int
  members keep. The engines then take them through UINT parameters, a size_t product
  and a float-to-UINT cast, and the model's engines do not describe that.
- Orchestrator.Create: requires counts that are not negative, for the same reason.
- `CmdLine::Usage`, `PrintUsage` and `exit(0)`. `CmdLine.Parse` returns `ShowHelp`
  or `Failed` instead of printing. `OnParsed` does nothing for any argument kind.
- CommandLine: arguments are values held in the parser's sequence, not objects the
  caller keeps a reference to. So the aliasing between a caller's argument and the
  registration list is not captured.
- The `MAX_PATH` truncation of `GetModuleFileNameA`/`GetModuleFileNameExA`. The
  names are inputs, and so are the outcome of `EnumProcessModules` and the set of
  paths `LoadLibraryExA` succeeds on.
- The structs and function typedefs of `igd12ext.h`.
- The bodies of `ResetFromAsyncHelper`, `SetAsync`, `SetAsyncMode`, `GetFence`,
  `GetBuffers` and `GetBufferIndex`. They are not defined in the compute and render
  sources, so only their call order is kept.
- Timing.TimerAverageOver.Update: requires a non-empty ring when the call
  records, because the source's modulo by a zero size is undefined.
- Timing.TimerAverageOver.Get: requires a non-empty ring and everyN >= 1. The
  source's float division by zero gives an infinity or NaN, which is not a real.
- GpuTiming.GpuTimer.ResolveAllTimers: requires a non-zero frequency and
  averageOver >= 1. A zero divisor gives a float infinity or NaN, and averageOver
  - 1 would wrap. It also requires 2 * numTimers below 2^32, so that the slot count
  does not wrap.
- Orchestrator.Create: returns null where the constructor executes `throw;` with no
  exception in flight (`Particles.cpp:140`). In C++ that calls `std::terminate`, so no
  caller ever receives the failure; null stands for the process ending.
- The particle size: `sizeof(Particle)` comes from `Render.h`, which is not
  part of this model. The value 16 (one four-component float position) is assumed.
- CommandLine.CmdLine.Parse: requires at least argv[0], which the source reads
  unconditionally.
- ComputeEngine.Compute.SetAdapter, ComputeEngine.Compute.Initialize,
  RenderEngine.Render.LoadAssets: these model only the fence and queue part. They
  require the freshly constructed state they are called in.

## Findings

| source | as written | input that shows it | evidently intended | confidence | as-written member | corrected member |
|---|---|---|---|---|---|---|
| Particles/Render.cpp:782 | the copy reads shared buffer 1 - m_sharedBufferIndex, and render's shared index equals compute's buffer index, so the copy reads the buffer Simulate (1 - m_bufferIndex, Compute.cpp:702-703) writes in the same frame, with no fence ordering the two | any wired frame, e.g. both indices 0 after ShareHandles: copy source and dispatch destination are both shared buffer 1 | read shared buffer m_sharedBufferIndex, as the comment says: the buffer the previous frame's dispatch wrote, after the copy queue's wait on that dispatch's signal | high by proof; not executed | FrameProtocol.CopySourceIsSimulateDestination | FrameProtocol.IntendedCopyIsRaceFree |
| include/Timer.h:84-85 | m_skipCount is not initialised, so Update compares everyN with whatever the memory held | everyN = 1 and a leftover counter of 5: no sample on the first call nor on the next thousand | m_skipCount starts at 0, so every everyN-th call records | medium (depends on the memory's contents); not executed | Timing.StaleCountExample | Timing.RecordsEveryNth |
| include/igd12ext.h:1119 | the loop runs to cbNeeded / sizeof(HMODULE), the number of modules the process has, even when hMods holds only 1024 | a process with 1025 modules: the loop reads hMods[1024] | stop at the smaller of that count and 1024 | high by proof; not executed | IntelExtension.AsWrittenBoundOverruns | IntelExtension.LoadIntelExtensionsLibrary |

For the ping-pong row, the engine classes keep the source's index, because the
model describes the program as it is. `FrameProtocol.IntendedCopySource` and
`FrameProtocol.IntendedCopyEvents` define the corrected copy, and the race-freedom
lemma is proved about them. For the timer row, the default constructor
`Timing.TimerAverageOver.constructor` sets the counter to 0, and
`Timing.TimerAverageOver.AsWritten` keeps the uninitialised value as a parameter.
For the loader row, `IntelExtension.LoadIntelExtensionsLibrary` scans
`IntelExtension.ScannedModules(cbNeeded)` modules, while
`IntelExtension.AsWrittenBound` is the bound as written.
