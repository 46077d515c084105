/**
 * The orchestrator (Particles/Particles.cpp): it keeps the usable adapters,
 * assigns the render and compute roles, owns one render engine and one compute
 * engine, wires them together, drives every frame and rebuilds an engine when
 * the user interface changes its adapter, the full-screen mode or the queue
 * extension setting. The window, the user interface's drawing and the frame
 * timer are left out; what the interface edits is an input of each frame.
 */
module Orchestrator {
  import opened GpuTrace
  import opened ComputeEngine
  import opened RenderEngine
  import FrameProtocol
  import ArgParse

  const DxgiAdapterFlagSoftware: bv32 := 2
  /** The vendor whose adapters are skipped (the software rasterizer's vendor id). */
  const SkippedVendorId: nat := 5140
  const MinNumParticles: nat := 256 * 1024

  /** What the program learns about one enumerated adapter: its description flags and
   *  vendor id, whether its device reports a unified memory architecture, whether the
   *  extension helper enables the queue extension on it, and the allocation size its
   *  device reports for one shared position buffer. */
  datatype Adapter = Adapter(flags: bv32, vendorId: nat, uma: bool, extensionEnabled: bool,
                             alignedDataSize: nat)

  /** The filter of the constructor's enumeration loop. */
  predicate Usable(a: Adapter) {
    a.flags & DxgiAdapterFlagSoftware == 0 && a.vendorId != SkippedVendorId
  }

  /** The usable adapters, in enumeration order. */
  function UsableAdapters(all: seq<Adapter>): (r: seq<Adapter>)
    ensures |r| <= |all|
    ensures forall a :: a in r ==> a in all && Usable(a)
    decreases |all|
  {
    if all == [] then []
    else UsableAdapters(all[..|all| - 1]) + (if Usable(all[|all| - 1]) then [all[|all| - 1]] else [])
  }

  /** No usable adapter is dropped. */
  lemma {:induction false} UsableAdaptersComplete(all: seq<Adapter>, a: Adapter)
    requires a in all && Usable(a)
    ensures a in UsableAdapters(all)
    decreases |all|
  {
    if a != all[|all| - 1] {
      assert a in all[..|all| - 1];
      UsableAdaptersComplete(all[..|all| - 1], a);
    }
  }

  /** Models the enumeration loop of the constructor: keep every usable adapter. */
  method EnumerateAdapters(all: seq<Adapter>) returns (kept: seq<Adapter>)
    ensures kept == UsableAdapters(all)
  {
    kept := [];
    for i := 0 to |all|
      invariant kept == UsableAdapters(all[..i])
    {
      assert all[..i + 1][..i] == all[..i];
      if all[i].flags & DxgiAdapterFlagSoftware == 0 && all[i].vendorId != SkippedVendorId {
        kept := kept + [all[i]];
      }
    }
    assert all[..|all|] == all;
  }

  /** The highest index whose UMA report is 'uma', if there is one. */
  function LastWith(adapters: seq<Adapter>, uma: bool): (r: ArgParse.Option<nat>)
    ensures r.Some? ==> r.value < |adapters| && adapters[r.value].uma == uma &&
                        forall j :: r.value < j < |adapters| ==> adapters[j].uma != uma
    ensures r.None? ==> forall j :: 0 <= j < |adapters| ==> adapters[j].uma != uma
    decreases |adapters|
  {
    if adapters == [] then ArgParse.None
    else if adapters[|adapters| - 1].uma == uma then ArgParse.Some(|adapters| - 1)
    else LastWith(adapters[..|adapters| - 1], uma)
  }

  function IndexOr(o: ArgParse.Option<nat>, d: nat): nat {
    if o.Some? then o.value else d
  }

  /** The roles AssignAdapters chooses, as (render, compute): the last non-UMA adapter
   *  renders and the last UMA adapter computes (both starting from 0), and when these
   *  coincide compute takes the first adapter and render the last. */
  function AssignedRoles(adapters: seq<Adapter>): (r: (nat, nat))
    requires |adapters| > 0
  {
    var render := IndexOr(LastWith(adapters, false), 0);
    var compute := IndexOr(LastWith(adapters, true), 0);
    if render == compute then (|adapters| - 1, 0) else (render, compute)
  }

  /** Both roles are adapters; one adapter serves both roles, and two or more never share one. */
  lemma AssignedRolesInRange(adapters: seq<Adapter>)
    requires |adapters| > 0
    ensures AssignedRoles(adapters).0 < |adapters| && AssignedRoles(adapters).1 < |adapters|
    ensures |adapters| == 1 ==> AssignedRoles(adapters) == (0, 0)
    ensures |adapters| >= 2 ==> AssignedRoles(adapters).0 != AssignedRoles(adapters).1
  {
  }

  /** Compute is the highest-index UMA adapter when there is one, and render the
   *  highest-index non-UMA adapter when there is one. */
  lemma {:induction false} AssignedRolesPreferUma(adapters: seq<Adapter>)
    requires |adapters| > 0
    ensures forall i :: 0 <= i < |adapters| && adapters[i].uma ==>
              var c := AssignedRoles(adapters).1;
              adapters[c].uma && i <= c
    ensures forall i :: 0 <= i < |adapters| && !adapters[i].uma ==>
              var r := AssignedRoles(adapters).0;
              !adapters[r].uma && i <= r
  {
    var render := LastWith(adapters, false);
    var compute := LastWith(adapters, true);
    if render.Some? && compute.Some? {
      assert render.value != compute.value;
    }
  }

  /** Models AssignAdapters: the loop overwrites the compute index for a UMA adapter and
   *  the render index otherwise, then separates the roles when they coincide. The
   *  result is returned as (render, compute). */
  method AssignAdapters(adapters: seq<Adapter>) returns (render: nat, compute: nat)
    requires |adapters| > 0
    ensures (render, compute) == AssignedRoles(adapters)
    ensures render < |adapters| && compute < |adapters|
  {
    AssignedRolesInRange(adapters);
    render, compute := 0, 0;
    for i := 0 to |adapters|
      invariant render == IndexOr(LastWith(adapters[..i], false), 0)
      invariant compute == IndexOr(LastWith(adapters[..i], true), 0)
    {
      assert adapters[..i + 1][..i] == adapters[..i];
      if adapters[i].uma {
        compute := i;
      } else {
        render := i;
      }
    }
    assert adapters[..|adapters|] == adapters;
    if compute == render {
      compute := 0;
      render := |adapters| - 1;
    }
  }

  //---------------------------------------------------------------------------
  // Command line
  //---------------------------------------------------------------------------

  /** The registrations of ParseCommandLine. */
  datatype Switch = NumParticles | NoGui | NoExt | Size | Intensity | NoVsync | FullScreen
                  | NumCopy | NumDraw | NumSim

  /** The settings ParseCommandLine can change (the particle size and intensity are
   *  floats and are left out). The counts are the int members of the orchestrator. */
  datatype Settings = Settings(maxNumParticles: int, rendered: int, copied: int, simulated: int,
                               linked: bool, enableUI: bool, enableExtensions: bool,
                               vsync: bool, fullScreen: bool)

  /** None of the counts is negative. stoi can read a negative count, which the int members
   *  keep; the engines then receive it through UINT parameters and a float-to-UINT cast,
   *  and the model's engines take only counts that are not negative. */
  predicate CountsNonNegative(s: Settings) {
    s.maxNumParticles >= 0 && s.rendered >= 0 && s.copied >= 0 && s.simulated >= 0
  }

  /** The member initialisers of the constructor. */
  function DefaultSettings(maxNumParticles: nat): Settings {
    Settings(maxNumParticles, maxNumParticles, maxNumParticles, maxNumParticles, true, true, true, true, false)
  }

  /** The registration names, in the order ParseCommandLine adds them. */
  function Registrations(): seq<(string, Switch)> {
    [("numparticles", NumParticles), ("nogui", NoGui), ("noext", NoExt), ("size", Size),
     ("intensity", Intensity), ("novsync", NoVsync), ("fullscreen", FullScreen),
     ("numCopy", NumCopy), ("numDraw", NumDraw), ("numSim", NumSim)]
  }

  /** The registrations whose callbacks convert their value with std::stoi. */
  predicate IsCount(h: Switch) {
    h in {NumParticles, NumCopy, NumDraw, NumSim}
  }

  /** One callback: the four count lambdas store the value std::stoi reads (and the last
   *  three unlink the sliders), the bool registrations flip their flag, the float
   *  registrations are left out. None stands for an exception out of std::stoi: nothing
   *  catches it, so the process ends there. */
  function Apply(s: Settings, f: ArgParse.Firing<Switch>): ArgParse.Option<Settings> {
    if IsCount(f.handler) then
      match ArgParse.StoI(f.value)
      case None => ArgParse.None
      case Some(n) => ArgParse.Some(StoreCount(s, f.handler, n))
    else ArgParse.Some(Toggle(s, f.handler))
  }

  /** What a count lambda stores once stoi has read n. */
  function StoreCount(s: Settings, h: Switch, n: int): Settings
    requires IsCount(h)
  {
    match h
    case NumParticles => s.(maxNumParticles := n, rendered := n, copied := n, simulated := n)
    case NumCopy => s.(copied := n, linked := false)
    case NumDraw => s.(rendered := n, linked := false)
    case NumSim => s.(simulated := n, linked := false)
  }

  /** What a registration without a conversion does: the bool ones flip their flag. */
  function Toggle(s: Settings, h: Switch): Settings
    requires !IsCount(h)
  {
    match h
    case NoGui => s.(enableUI := !s.enableUI)
    case NoExt => s.(enableExtensions := !s.enableExtensions)
    case NoVsync => s.(vsync := !s.vsync)
    case FullScreen => s.(fullScreen := !s.fullScreen)
    case Size => s
    case Intensity => s
  }

  /** The callbacks run in firing order, up to the first one that ends the process. */
  function ApplyAll(s: Settings, fired: seq<ArgParse.Firing<Switch>>): ArgParse.Option<Settings>
    decreases |fired|
  {
    if fired == [] then ArgParse.Some(s)
    else
      match ApplyAll(s, fired[..|fired| - 1])
      case None => ArgParse.None
      case Some(t) => Apply(t, fired[|fired| - 1])
  }

  /** The callback of f throws: f is a count whose value stoi rejects. */
  predicate Throws(f: ArgParse.Firing<Switch>) {
    IsCount(f.handler) && ArgParse.StoI(f.value).None?
  }

  /** A callback ends the process exactly when it throws; a count stores the value read. */
  lemma ApplyConverts(s: Settings, f: ArgParse.Firing<Switch>)
    ensures Apply(s, f).None? <==> Throws(f)
    ensures Apply(s, f).Some? && f.handler == NumParticles ==>
            var n := ArgParse.StoI(f.value).value;
            Apply(s, f).value.maxNumParticles == n && Apply(s, f).value.rendered == n &&
            Apply(s, f).value.copied == n && Apply(s, f).value.simulated == n
    ensures Apply(s, f).Some? && f.handler == NumCopy ==> Apply(s, f).value.copied == ArgParse.StoI(f.value).value
    ensures Apply(s, f).Some? && f.handler == NumDraw ==> Apply(s, f).value.rendered == ArgParse.StoI(f.value).value
    ensures Apply(s, f).Some? && f.handler == NumSim ==> Apply(s, f).value.simulated == ArgParse.StoI(f.value).value
  {
  }

  /** Each callback flips the bool setting of its own switch and leaves the other three. */
  lemma ApplyFlips(s: Settings, f: ArgParse.Firing<Switch>)
    requires Apply(s, f).Some?
    ensures Apply(s, f).value.enableUI == (s.enableUI != (f.handler == NoGui))
    ensures Apply(s, f).value.vsync == (s.vsync != (f.handler == NoVsync))
    ensures Apply(s, f).value.fullScreen == (s.fullScreen != (f.handler == FullScreen))
    ensures Apply(s, f).value.enableExtensions == (s.enableExtensions != (f.handler == NoExt))
  {
    if IsCount(f.handler) {
      assert Apply(s, f).value == StoreCount(s, f.handler, ArgParse.StoI(f.value).value);
    } else {
      assert Apply(s, f).value == Toggle(s, f.handler);
    }
  }

  /** The callbacks end the process exactly when one of the firings throws. */
  lemma {:induction false} ApplyAllEnds(s: Settings, fired: seq<ArgParse.Firing<Switch>>)
    ensures ApplyAll(s, fired).None? <==> exists j :: 0 <= j < |fired| && Throws(fired[j])
    decreases |fired|
  {
    if fired != [] {
      var front := fired[..|fired| - 1];
      var last := fired[|fired| - 1];
      ApplyAllEnds(s, front);
      if ApplyAll(s, front).None? {
        assert ApplyAll(s, fired).None?;
        var j :| 0 <= j < |front| && Throws(front[j]);
        assert fired[j] == front[j];
      } else {
        var t := ApplyAll(s, front).value;
        assert ApplyAll(s, fired) == Apply(t, last);
        ApplyConverts(t, last);
        if Throws(last) {
          assert Throws(fired[|fired| - 1]);
        } else {
          forall j | 0 <= j < |fired|
            ensures !Throws(fired[j])
          {
            if j < |front| {
              assert fired[j] == front[j];
            }
          }
        }
      }
    }
  }

  /** Every bool setting ends flipped exactly when its switch fired an odd number of times. */
  lemma {:induction false} TogglesFollowParity(s: Settings, fired: seq<ArgParse.Firing<Switch>>)
    requires ApplyAll(s, fired).Some?
    ensures ApplyAll(s, fired).value.enableUI == ArgParse.Toggled(s.enableUI, fired, NoGui)
    ensures ApplyAll(s, fired).value.vsync == ArgParse.Toggled(s.vsync, fired, NoVsync)
    ensures ApplyAll(s, fired).value.fullScreen == ArgParse.Toggled(s.fullScreen, fired, FullScreen)
    ensures ApplyAll(s, fired).value.enableExtensions == ArgParse.Toggled(s.enableExtensions, fired, NoExt)
    decreases |fired|
  {
    if fired != [] {
      var front := fired[..|fired| - 1];
      TogglesFollowParity(s, front);
      ApplyFlips(ApplyAll(s, front).value, fired[|fired| - 1]);
    }
  }

  /** Only the three count switches unlink the sliders. */
  lemma ApplyUnlinks(s: Settings, f: ArgParse.Firing<Switch>)
    requires Apply(s, f).Some?
    ensures Apply(s, f).value.linked == (s.linked && f.handler !in {NumCopy, NumDraw, NumSim})
  {
  }

  /** The sliders stay linked exactly when none of the three count switches fired. */
  lemma {:induction false} LinkedUnlessCountGiven(s: Settings, fired: seq<ArgParse.Firing<Switch>>)
    requires s.linked && ApplyAll(s, fired).Some?
    ensures ApplyAll(s, fired).value.linked <==>
            forall j :: 0 <= j < |fired| ==> fired[j].handler !in {NumCopy, NumDraw, NumSim}
    decreases |fired|
  {
    if fired != [] {
      LinkedUnlessCountGiven(s, fired[..|fired| - 1]);
      ApplyUnlinks(ApplyAll(s, fired[..|fired| - 1]).value, fired[|fired| - 1]);
      assert forall j :: 0 <= j < |fired| - 1 ==> fired[..|fired| - 1][j] == fired[j];
    }
  }

  /** Models ParseCommandLine on the tokens of the command line. The settings are None
   *  when a callback's std::stoi throws, which ends the process. */
  method ParseCommandLine(cmdLine: seq<string>, maxNumParticles: nat)
    returns (s: ArgParse.Option<Settings>, listing: ArgParse.Option<seq<string>>)
    ensures var parser := Registered(Registrations());
            s == ApplyAll(DefaultSettings(maxNumParticles), ArgParse.FiringsUpTo(parser, cmdLine, |cmdLine|)) &&
            (listing.Some? <==> |cmdLine| == 2 && cmdLine[1] == "?") &&
            (listing.Some? ==> listing.value == ArgParse.Names(parser))
  {
    var parser := new ArgParse.ArgParser<Switch>();
    var regs := Registrations();
    for k := 0 to |regs|
      invariant parser.args == Registered(regs[..k])
    {
      assert regs[..k + 1][..k] == regs[..k];
      parser.AddArg(regs[k].0, regs[k].1);
    }
    assert regs[..|regs|] == regs;
    var fired;
    listing, fired := parser.Parse(cmdLine);
    s := ApplyAll(DefaultSettings(maxNumParticles), fired);
  }

  /** A command line whose last token names a count switch, in any spelling, ends the
   *  process: that switch's value is the empty string, which stoi cannot convert. */
  lemma TrailingCountEnds(cmdLine: seq<string>, maxNumParticles: nat, k: nat)
    requires 1 <= |cmdLine| && k < |Registrations()| && IsCount(Registrations()[k].1)
    requires ArgParse.CaseEquivalent(Registrations()[k].0, cmdLine[|cmdLine| - 1])
    ensures ApplyAll(DefaultSettings(maxNumParticles),
                     ArgParse.FiringsUpTo(Registered(Registrations()), cmdLine, |cmdLine|)).None?
  {
    var parser := Registered(Registrations());
    var i := |cmdLine| - 1;
    ArgParse.MatchIgnoresCase(Registrations()[k].0, Registrations()[k].1, cmdLine[i]);
    assert ArgParse.Matches(parser[k], cmdLine[i]);
    ArgParse.FiringComplete(parser, cmdLine, |cmdLine|, i, k);
    var fired := ArgParse.FiringsUpTo(parser, cmdLine, |cmdLine|);
    var f := ArgParse.Firing(parser[k].handler, ArgParse.ValueAfter(cmdLine, i));
    var j :| 0 <= j < |fired| && fired[j] == f;
    ArgParse.StoIRejects("");
    ApplyAllEnds(DefaultSettings(maxNumParticles), fired);
  }

  /** The parser's registrations after each name has been stored lower-cased. */
  function Registered(regs: seq<(string, Switch)>): (r: seq<ArgParse.ArgPair<Switch>>)
    ensures |r| == |regs|
    ensures forall k :: 0 <= k < |regs| ==> r[k] == ArgParse.ArgPair(ArgParse.Lower(regs[k].0), regs[k].1)
    decreases |regs|
  {
    if regs == [] then []
    else Registered(regs[..|regs| - 1]) + [ArgParse.ArgPair(ArgParse.Lower(regs[|regs| - 1].0), regs[|regs| - 1].1)]
  }

  //---------------------------------------------------------------------------
  // Wiring and reconfiguration
  //---------------------------------------------------------------------------

  /** The calls the orchestrator makes, in order, that change which engine exists or
   *  how the engines are wired. ResetFromAsyncHelper, SetAsync and SetAsyncMode are
   *  not defined in the compute and render sources, so they are kept only as entries. */
  datatype Call =
    | RenderDraw | Simulate
    | DrainRender | DrainCompute
    | NewRender(adapter: nat) | NewCompute(adapter: nat) | DeleteCompute
    | ResetFromAsyncHelper | GetSharedHandles | SetShared | SetAsync | SetAsyncMode(async: bool)
    | SetComputeExtension(desired: bool)

  /** The calls of ShareHandles. */
  function ShareHandlesCalls(async: bool): (r: seq<Call>)
    ensures 4 <= |r| <= 5
    ensures r[..3] == [ResetFromAsyncHelper, GetSharedHandles, SetShared]
    ensures r[|r| - 1] == SetAsyncMode(async)
    ensures SetAsync in r <==> async
  {
    [ResetFromAsyncHelper, GetSharedHandles, SetShared] + (if async then [SetAsync] else []) + [SetAsyncMode(async)]
  }

  /** The four settings whose change is detected after a frame. */
  datatype Toggles = Toggles(renderAdapter: nat, computeAdapter: nat, queueExtension: bool, fullScreen: bool)

  /** What the change detection of Draw decides. */
  datatype Changes = Changes(render: bool, compute: bool, queueExtension: bool, fullScreen: bool)

  /** Change detection: a render-device change is a new render adapter, a full-screen
   *  change, or an extension change on a render device that supports the extension. */
  function DetectChanges(prev: Toggles, cur: Toggles, renderSupportsExtension: bool): (ch: Changes)
    ensures prev == cur ==> ch == Changes(false, false, false, false)
    ensures ch.compute <==> prev.computeAdapter != cur.computeAdapter
    ensures ch.queueExtension <==> prev.queueExtension != cur.queueExtension
    ensures ch.fullScreen ==> ch.render
    ensures prev.renderAdapter != cur.renderAdapter ==> ch.render
    ensures prev.renderAdapter == cur.renderAdapter && prev.fullScreen == cur.fullScreen && !renderSupportsExtension
            ==> !ch.render
  {
    var changeFullScreen := prev.fullScreen != cur.fullScreen;
    var changeQueueExtension := prev.queueExtension != cur.queueExtension;
    var changeCompute := prev.computeAdapter != cur.computeAdapter;
    var changeRender := prev.renderAdapter != cur.renderAdapter
                        || (changeQueueExtension && renderSupportsExtension)
                        || changeFullScreen;
    Changes(changeRender, changeCompute, changeQueueExtension, changeFullScreen)
  }

  /** The extension setting handed to SetUseIntelCommandQueueExtension: after a new
   *  compute engine it is what that engine ended up using. */
  function ExtensionAfterRebuild(ch: Changes, desired: bool, computeSupportsExtension: bool): bool {
    if ch.compute then desired && computeSupportsExtension else desired
  }

  function DrainCalls(ch: Changes): seq<Call> {
    if ch.render || ch.compute then [DrainRender, DrainCompute] else []
  }

  function RenderRebuildCalls(ch: Changes, cur: Toggles): seq<Call> {
    if ch.render then [NewRender(cur.renderAdapter)] + ShareHandlesCalls(cur.renderAdapter == cur.computeAdapter) else []
  }

  function ComputeRebuildCalls(ch: Changes, cur: Toggles): seq<Call> {
    if ch.compute then [NewCompute(cur.computeAdapter), DeleteCompute] + ShareHandlesCalls(cur.renderAdapter == cur.computeAdapter)
    else []
  }

  function ExtensionCalls(ch: Changes, extension: bool): seq<Call> {
    if ch.queueExtension then [SetComputeExtension(extension)] else []
  }

  /** The calls of the reconfiguration part of Draw, in order. */
  function ReconfigurationCalls(ch: Changes, cur: Toggles, extension: bool): (r: seq<Call>)
  {
    DrainCalls(ch) + RenderRebuildCalls(ch, cur) + ComputeRebuildCalls(ch, cur) + ExtensionCalls(ch, extension)
  }

  /** Four calls appended one after another make one append of the four. */
  lemma ConcatFour(log: seq<Call>, a: seq<Call>, b: seq<Call>, c: seq<Call>, d: seq<Call>)
    ensures log + a + b + c + d == log + (a + b + c + d)
  {
  }

  lemma AppendAssoc(log: seq<Call>, a: seq<Call>, b: seq<Call>)
    ensures log + a + b == log + (a + b)
  {
  }

  predicate IsRebuild(c: Call) {
    c.NewRender? || c.NewCompute?
  }

  /** Nothing changed, nothing is called. */
  lemma NoChangeNoCalls(ch: Changes, cur: Toggles, extension: bool)
    requires ch == Changes(false, false, false, false)
    ensures ReconfigurationCalls(ch, cur, extension) == []
  {
  }

  /** Both engines are drained before any engine is rebuilt. */
  lemma {:induction false} DrainsPrecedeRebuilds(ch: Changes, cur: Toggles, extension: bool)
    ensures var r := ReconfigurationCalls(ch, cur, extension);
            forall j :: 0 <= j < |r| && IsRebuild(r[j]) ==> 2 <= j && r[0] == DrainRender && r[1] == DrainCompute
  {
    var r := ReconfigurationCalls(ch, cur, extension);
    if !(ch.render || ch.compute) {
      assert r == ExtensionCalls(ch, extension);
    }
  }

  /** A new render engine is followed at once by ShareHandles; a new compute engine is
   *  followed by the deletion of the old one and then by ShareHandles. */
  lemma {:induction false} ShareHandlesFollowsRebuild(ch: Changes, cur: Toggles, extension: bool)
    ensures var r := ReconfigurationCalls(ch, cur, extension);
            var share := ShareHandlesCalls(cur.renderAdapter == cur.computeAdapter);
            (ch.render ==> r[2] == NewRender(cur.renderAdapter) && r[3..3 + |share|] == share) &&
            (ch.compute ==>
               var j := if ch.render then 3 + |share| else 2;
               r[j] == NewCompute(cur.computeAdapter) && r[j + 1] == DeleteCompute &&
               r[j + 2..j + 2 + |share|] == share)
  {
    var share := ShareHandlesCalls(cur.renderAdapter == cur.computeAdapter);
    var drains := DrainCalls(ch);
    var renders := RenderRebuildCalls(ch, cur);
    var computes := ComputeRebuildCalls(ch, cur);
    var r := ReconfigurationCalls(ch, cur, extension);
    if ch.render {
      assert r[2..3 + |share|] == renders;
      assert r[3..3 + |share|] == renders[1..];
    }
    if ch.compute {
      var j := if ch.render then 3 + |share| else 2;
      assert |drains + renders| == j;
      assert r[j..j + 2 + |share|] == computes;
      assert r[j + 2..j + 2 + |share|] == computes[2..];
    }
  }

  /** Options of a frame that the environment decides: the swap chain's back-buffer
   *  index after Present, the render fence's completed value, whether the factory
   *  allows tearing, and the back-buffer index of a swap chain created this frame. */
  datatype Environment = Environment(backBufferIndex: nat, completedValue: nat, allowTearing: bool,
                                     newBackBufferIndex: nat)

  /** The values the user interface leaves in the fields it edits during a frame. */
  datatype Edits = Edits(renderAdapter: nat, computeAdapter: nat, queueExtension: bool, vsync: bool,
                         fullScreen: bool, rendered: nat, copied: nat, simulated: nat, linked: bool)

  /** The toggles after a frame whose user interface left 'edits'. */
  function Edited(t: Toggles, edits: Edits, enableUI: bool): Toggles {
    if enableUI then Toggles(edits.renderAdapter, edits.computeAdapter, edits.queueExtension, edits.fullScreen) else t
  }

  /** The particle counts a frame hands to the engines: linked sliders copy the rendered
   *  count first, and the simulated count is read after the user interface ran. */
  function FrameCounts(rendered: nat, copied: nat, simulated: nat, linked: bool, edits: Edits, enableUI: bool): (n: FrameProtocol.Counts)
    ensures linked ==> n == FrameProtocol.Counts(rendered, rendered, rendered)
    ensures !linked && !enableUI ==> n == FrameProtocol.Counts(rendered, copied, simulated)
  {
    FrameProtocol.Counts(rendered, if linked then rendered else copied,
                         if enableUI && !linked then edits.simulated else if linked then rendered else simulated)
  }

  /** The two engines of the constructor, both with the extension off: the render engine
   *  on adapter ra in full-screen mode fs, the compute engine on adapter ca. */
  method NewEngines(numParticles: nat, numFrames: nat, ra: Adapter, ca: Adapter, fs: bool,
                    allowTearing: bool, backBufferIndex: nat)
    returns (r: Render, c: Compute)
    requires 1 <= numFrames && backBufferIndex < numFrames
    ensures fresh(r) && fresh(r.frameFenceValues) && fresh(c) && fresh(c.frameFenceValues)
    ensures r.Valid() && c.Valid() && r.frameFenceValues != c.frameFenceValues
    ensures r.numParticles == numParticles && c.numParticles == numParticles && r.numFrames == numFrames
    ensures r.extensionEnabled == ra.extensionEnabled && r.fullScreen == fs
    ensures c.extensionEnabled == ca.extensionEnabled && c.alignedDataSize == ca.alignedDataSize
    ensures !r.usingExtension && !c.usingExtension
  {
    r := new Render(numParticles, numFrames, false, ra.extensionEnabled, fs, allowTearing, backBufferIndex);
    c := new Compute(numParticles, ca.alignedDataSize, false, ca.extensionEnabled, null);
  }

  /** A compute engine on adapter a that takes over the state of 'previous'. */
  method NewComputeFrom(numParticles: nat, a: Adapter, useExtension: bool, previous: Compute)
    returns (c: Compute)
    requires previous.Valid()
    modifies previous
    ensures fresh(c) && fresh(c.frameFenceValues) && c.Valid()
    ensures c.numParticles == numParticles && c.extensionEnabled == a.extensionEnabled &&
            c.alignedDataSize == a.alignedDataSize
    ensures c.usingExtension == (useExtension && a.extensionEnabled)
  {
    c := new Compute(numParticles, a.alignedDataSize, useExtension, a.extensionEnabled, previous);
  }

  class Particles {
    const adapters: seq<Adapter>
    const maxNumParticles: nat
    /** Render::GetNumFrames(), the swap chain's buffer count. */
    const numFrames: nat
    const enableUI: bool
    const enableExtensions: bool

    var render: Render
    var compute: Compute

    var renderAdapterIndex: nat
    var computeAdapterIndex: nat
    var queueExtensionEnabled: bool
    var vsyncEnabled: bool
    var fullScreen: bool
    var numRendered: nat
    var numCopied: nat
    var numSimulated: nat
    var linked: bool

    var prevRenderAdapterIndex: nat
    var prevComputeAdapterIndex: nat
    var prevQueueExtension: bool
    var prevFullScreen: bool

    /** Every call of the list above, in order. */
    ghost var log: seq<Call>

    ghost function Current(): Toggles
      reads this`renderAdapterIndex, this`computeAdapterIndex, this`queueExtensionEnabled, this`fullScreen
    {
      Toggles(renderAdapterIndex, computeAdapterIndex, queueExtensionEnabled, fullScreen)
    }

    ghost function Previous(): Toggles
      reads this`prevRenderAdapterIndex, this`prevComputeAdapterIndex, this`prevQueueExtension, this`prevFullScreen
    {
      Toggles(prevRenderAdapterIndex, prevComputeAdapterIndex, prevQueueExtension, prevFullScreen)
    }

    /** The counters and indices of the frame protocol. */
    ghost function Pipeline(): FrameProtocol.Pipeline
      reads this`render, this`compute, render, compute
    {
      FrameProtocol.Pipeline(compute.bufferIndex, compute.fenceValue, render.sharedBufferIndex,
                             render.currentBufferIndex, render.renderFenceValue, render.copyFenceValue)
    }

    /** Both engines are consistent, sized for maxNumParticles, and keep separate fence-value arrays. */
    ghost predicate EnginesValid()
      reads this`render, this`compute, render, compute, render.frameFenceValues, compute.frameFenceValues
    {
      render.Valid() && compute.Valid() && render.frameFenceValues != compute.frameFenceValues &&
      render.numParticles == maxNumParticles && compute.numParticles == maxNumParticles &&
      render.numFrames == numFrames
    }

    /** ShareHandles has run: the render engine shares the compute engine's heap and
     *  fence and its shared index is the compute engine's buffer index. */
    ghost predicate Connected()
      reads this`render, this`compute, render, compute
    {
      render.shared && compute.sharedFenceOpened && render.sharedBufferIndex == compute.bufferIndex
    }

    /** Render engine r is built on adapter a in full-screen mode fs. */
    ghost predicate RenderBuiltOn(r: Render, a: nat, fs: bool) {
      a < |adapters| && r.extensionEnabled == adapters[a].extensionEnabled && r.fullScreen == fs
    }

    /** Compute engine c is built on adapter a. */
    ghost predicate ComputeBuiltOn(c: Compute, a: nat) {
      a < |adapters| && c.extensionEnabled == adapters[a].extensionEnabled &&
      c.alignedDataSize == adapters[a].alignedDataSize
    }

    ghost predicate Valid()
      reads this`render, this`compute, this`renderAdapterIndex, this`computeAdapterIndex,
            this`queueExtensionEnabled, this`fullScreen, this`prevRenderAdapterIndex,
            this`prevComputeAdapterIndex, this`prevQueueExtension, this`prevFullScreen
      reads render, compute, render.frameFenceValues, compute.frameFenceValues
    {
      EnginesValid() && Connected() &&
      RenderBuiltOn(render, renderAdapterIndex, fullScreen) && ComputeBuiltOn(compute, computeAdapterIndex) &&
      Previous() == Current()
    }

    /** Models the constructor after the enumeration loop and AssignAdapters, which chose
     *  the render adapter r and the compute adapter c: create both engines with the
     *  extension off, wire them, and record the toggles. The enumeration, its failure and
     *  the role assignment are modelled by Create. */
    constructor (adapters: seq<Adapter>, r: nat, c: nat, settings: Settings, numFrames: nat,
                 allowTearing: bool, backBufferIndex: nat)
      requires r < |adapters| && c < |adapters| && 1 <= numFrames && backBufferIndex < numFrames
      requires CountsNonNegative(settings)
      ensures Valid()
      ensures this.adapters == adapters && maxNumParticles == settings.maxNumParticles
      ensures renderAdapterIndex == r && computeAdapterIndex == c
      ensures !queueExtensionEnabled && fullScreen == settings.fullScreen && vsyncEnabled == settings.vsync
      ensures numRendered == settings.rendered && numCopied == settings.copied && numSimulated == settings.simulated
      ensures linked == settings.linked && enableUI == settings.enableUI
      ensures log == [NewRender(renderAdapterIndex), NewCompute(computeAdapterIndex)]
                     + ShareHandlesCalls(renderAdapterIndex == computeAdapterIndex)
      ensures fresh(render) && fresh(compute)
    {
      this.adapters := adapters;
      maxNumParticles := settings.maxNumParticles;
      this.numFrames := numFrames;
      enableUI := settings.enableUI;
      enableExtensions := settings.enableExtensions;
      renderAdapterIndex := r;
      computeAdapterIndex := c;
      queueExtensionEnabled := false;
      vsyncEnabled := settings.vsync;
      fullScreen := settings.fullScreen;
      numRendered := settings.rendered;
      numCopied := settings.copied;
      numSimulated := settings.simulated;
      linked := settings.linked;
      var re, co := NewEngines(settings.maxNumParticles, numFrames, adapters[r], adapters[c],
                               settings.fullScreen, allowTearing, backBufferIndex);
      render, compute := re, co;
      prevRenderAdapterIndex := r;
      prevComputeAdapterIndex := c;
      prevQueueExtension := false;
      prevFullScreen := settings.fullScreen;
      log := [NewRender(r), NewCompute(c)];
      new;
      ShareHandles();
    }

    /** Models ShareHandles: the compute engine publishes its handles and buffer index,
     *  the render engine opens them, and the asynchronous mode is set when both roles
     *  are on one adapter. */
    method ShareHandles()
      requires EnginesValid()
      modifies render, compute, this`log
      ensures EnginesValid() && Connected()
      ensures log == old(log) + ShareHandlesCalls(renderAdapterIndex == computeAdapterIndex)
      ensures compute.bufferIndex == old(compute.bufferIndex) && compute.queue == old(compute.queue)
      ensures compute.fenceValue == old(compute.fenceValue) && compute.usingExtension == old(compute.usingExtension)
      ensures render.renderQueue == old(render.renderQueue) + InitialCopies(NumBuffers, render.bufferSize)
                                    + [Wait(CopyFence, render.copyFenceValue), Signal(RenderFence, old(render.renderFenceValue))]
      ensures render.copyQueue == old(render.copyQueue) + [Signal(CopyFence, render.copyFenceValue)]
      ensures render.usingExtension == old(render.usingExtension)
    {
      var handles := compute.GetSharedHandles();
      render.SetShared(handles);
      Record(ShareHandlesCalls(renderAdapterIndex == computeAdapterIndex));
    }

    /** Every field update of a method that keeps both engines valid goes through one of
     *  the small methods below, so that the caller's frame names just that field. */
    ghost method Record(calls: seq<Call>)
      modifies this`log
      ensures log == old(log) + calls
    {
      log := log + calls;
    }

    method SetRender(r: Render)
      modifies this`render
      ensures render == r
    {
      render := r;
    }

    method SetCompute(c: Compute)
      modifies this`compute
      ensures compute == c
    {
      compute := c;
    }

    method SetQueueExtension(b: bool)
      modifies this`queueExtensionEnabled
      ensures queueExtensionEnabled == b
    {
      queueExtensionEnabled := b;
    }

    /** The toggle history takes the current settings. */
    method RecordToggles()
      requires EnginesValid() && Connected()
      requires RenderBuiltOn(render, renderAdapterIndex, fullScreen) && ComputeBuiltOn(compute, computeAdapterIndex)
      modifies this`prevRenderAdapterIndex, this`prevComputeAdapterIndex, this`prevQueueExtension, this`prevFullScreen
      ensures Valid() && Previous() == Current()
    {
      prevRenderAdapterIndex := renderAdapterIndex;
      prevComputeAdapterIndex := computeAdapterIndex;
      prevQueueExtension := queueExtensionEnabled;
      prevFullScreen := fullScreen;
    }

    /** The linked sliders copy the rendered count into the other two. */
    method LinkCounts()
      modifies this`numCopied, this`numSimulated
      ensures linked ==> numCopied == numRendered && numSimulated == numRendered
      ensures !linked ==> numCopied == old(numCopied) && numSimulated == old(numSimulated)
    {
      if linked {
        numCopied := numRendered;
        numSimulated := numRendered;
      }
    }

    /** What DrawGUI writes: the adapter list boxes, the check boxes and the sliders,
     *  whose copied and simulated entries edit the rendered count while linked. */
    method ApplyEdits(edits: Edits)
      modifies this`renderAdapterIndex, this`computeAdapterIndex, this`queueExtensionEnabled,
               this`vsyncEnabled, this`fullScreen, this`numRendered, this`numCopied,
               this`numSimulated, this`linked
      ensures Current() == Toggles(edits.renderAdapter, edits.computeAdapter, edits.queueExtension, edits.fullScreen)
      ensures vsyncEnabled == edits.vsync && numRendered == edits.rendered && linked == edits.linked
      ensures old(linked) ==> numCopied == old(numCopied) && numSimulated == old(numSimulated)
      ensures !old(linked) ==> numCopied == edits.copied && numSimulated == edits.simulated
    {
      renderAdapterIndex := edits.renderAdapter;
      computeAdapterIndex := edits.computeAdapter;
      queueExtensionEnabled := edits.queueExtension;
      vsyncEnabled := edits.vsync;
      fullScreen := edits.fullScreen;
      numRendered := edits.rendered;
      if !linked {
        numCopied := edits.copied;
        numSimulated := edits.simulated;
      }
      linked := edits.linked;
    }

    /** The engine calls of a frame: Render::Draw with the compute engine's next fence
     *  value, then Compute::Simulate with the copy fence value Draw hands back. */
    method SubmitFrame(n: FrameProtocol.Counts, vsync: bool, env: Environment)
      requires EnginesValid() && Connected() && env.backBufferIndex < numFrames
      modifies render, render.frameFenceValues, compute, compute.frameFenceValues, this`log
      ensures EnginesValid() && Connected()
      ensures Pipeline() == FrameProtocol.Next(old(Pipeline()))
      ensures var f := FrameProtocol.FrameEvents(old(Pipeline()), n);
              compute.queue == old(compute.queue) + f.compute &&
              render.copyQueue == old(render.copyQueue) + f.copy &&
              render.renderQueue == old(render.renderQueue) + f.render
      ensures log == old(log) + [RenderDraw, Simulate]
      ensures render.usingExtension == old(render.usingExtension) && compute.usingExtension == old(compute.usingExtension)
    {
      var fenceValue := compute.fenceValue;
      var copyFenceValue, waitNeeded, syncInterval, presentFlags :=
        render.Draw(n.rendered, n.copied, vsync, fenceValue, env.backBufferIndex, env.completedValue);
      compute.Simulate(n.simulated, copyFenceValue);
      Record([RenderDraw, Simulate]);
    }

    /** The settings part of a frame: link the counts, then let the user interface, drawn
     *  inside Render::Draw before the present, leave 'edits' in the fields it controls.
     *  The counts handed to the engines are returned. */
    method PrepareFrame(edits: Edits) returns (n: FrameProtocol.Counts)
      modifies this`renderAdapterIndex, this`computeAdapterIndex, this`queueExtensionEnabled,
               this`vsyncEnabled, this`fullScreen, this`numRendered, this`numCopied,
               this`numSimulated, this`linked
      ensures n == FrameCounts(old(numRendered), old(numCopied), old(numSimulated), old(linked), edits, enableUI)
      ensures Current() == Edited(old(Current()), edits, enableUI)
      ensures !enableUI ==> vsyncEnabled == old(vsyncEnabled)
    {
      LinkCounts();
      var rendered, copied := numRendered, numCopied;
      if enableUI {
        ApplyEdits(edits);
      }
      n := FrameProtocol.Counts(rendered, copied, numSimulated);
    }

    /** One frame of Draw up to the change detection: the settings part, then the engines. */
    method RunFrame(edits: Edits, env: Environment)
      requires Valid()
      requires edits.renderAdapter < |adapters| && edits.computeAdapter < |adapters|
      requires env.backBufferIndex < numFrames
      modifies this`renderAdapterIndex, this`computeAdapterIndex, this`queueExtensionEnabled,
               this`vsyncEnabled, this`fullScreen, this`numRendered, this`numCopied,
               this`numSimulated, this`linked, this`log
      modifies render, render.frameFenceValues, compute, compute.frameFenceValues
      ensures EnginesValid() && Connected()
      ensures Pipeline() == FrameProtocol.Next(old(Pipeline()))
      ensures var f := FrameProtocol.FrameEvents(old(Pipeline()),
                         FrameCounts(old(numRendered), old(numCopied), old(numSimulated), old(linked), edits, enableUI));
              compute.queue == old(compute.queue) + f.compute &&
              render.copyQueue == old(render.copyQueue) + f.copy &&
              render.renderQueue == old(render.renderQueue) + f.render
      ensures Current() == Edited(old(Current()), edits, enableUI)
      ensures Current().renderAdapter < |adapters| && Current().computeAdapter < |adapters|
      ensures log == old(log) + [RenderDraw, Simulate]
    {
      var n := PrepareFrame(edits);
      SubmitFrame(n, vsyncEnabled, env);
    }

    /** Both engines drain their queues when either engine is rebuilt. */
    method DrainFor(ch: Changes)
      requires EnginesValid() && Connected()
      modifies render, compute, this`log
      ensures EnginesValid() && Connected()
      ensures log == old(log) + DrainCalls(ch)
      ensures render.usingExtension == old(render.usingExtension) && compute.usingExtension == old(compute.usingExtension)
      ensures !(ch.render || ch.compute) ==> unchanged(render, compute)
    {
      if ch.render || ch.compute {
        render.WaitForGpu();
        compute.WaitForGpu();
        Record([DrainRender, DrainCompute]);
      }
    }

    /** On a render change, a new render engine on the current render adapter and mode,
     *  then ShareHandles. */
    method RebuildRenderFor(ch: Changes, env: Environment)
      requires EnginesValid() && Connected() && renderAdapterIndex < |adapters| && env.newBackBufferIndex < numFrames
      requires !ch.render ==> RenderBuiltOn(render, renderAdapterIndex, fullScreen)
      modifies this`render, this`log, compute
      ensures EnginesValid() && Connected() && RenderBuiltOn(render, renderAdapterIndex, fullScreen)
      ensures ch.render ==> fresh(render) &&
                            render.usingExtension == (queueExtensionEnabled && adapters[renderAdapterIndex].extensionEnabled)
      ensures !ch.render ==> render == old(render) && unchanged(compute)
      ensures compute.usingExtension == old(compute.usingExtension)
      ensures log == old(log) + RenderRebuildCalls(ch, Current())
    {
      if ch.render {
        var r := new Render(maxNumParticles, numFrames, queueExtensionEnabled,
                            adapters[renderAdapterIndex].extensionEnabled, fullScreen,
                            env.allowTearing, env.newBackBufferIndex);
        SetRender(r);
        ghost var log0 := log;
        Record([NewRender(renderAdapterIndex)]);
        ShareHandles();
        AppendAssoc(log0, [NewRender(renderAdapterIndex)], ShareHandlesCalls(renderAdapterIndex == computeAdapterIndex));
      }
    }

    /** On a compute change, a new compute engine on the current compute adapter, built
     *  from the old one before the old one goes, then ShareHandles; the extension flag
     *  follows the new engine. */
    method RebuildComputeFor(ch: Changes)
      requires EnginesValid() && Connected() && computeAdapterIndex < |adapters|
      requires !ch.compute ==> ComputeBuiltOn(compute, computeAdapterIndex)
      modifies this`compute, this`log, this`queueExtensionEnabled, compute, render
      ensures EnginesValid() && Connected() && ComputeBuiltOn(compute, computeAdapterIndex)
      ensures ch.compute ==> fresh(compute) && queueExtensionEnabled == compute.usingExtension &&
                             compute.usingExtension == (old(queueExtensionEnabled) && adapters[computeAdapterIndex].extensionEnabled)
      ensures !ch.compute ==> compute == old(compute) && unchanged(compute, render) &&
                              queueExtensionEnabled == old(queueExtensionEnabled)
      ensures render.usingExtension == old(render.usingExtension)
      ensures log == old(log) + ComputeRebuildCalls(ch, old(Current()))
    {
      if ch.compute {
        var previous := compute;
        var c := NewComputeFrom(maxNumParticles, adapters[computeAdapterIndex], queueExtensionEnabled, previous);
        SetCompute(c);
        ghost var log0 := log;
        Record([NewCompute(computeAdapterIndex), DeleteCompute]);
        ShareHandles();
        AppendAssoc(log0, [NewCompute(computeAdapterIndex), DeleteCompute],
                    ShareHandlesCalls(renderAdapterIndex == computeAdapterIndex));
        SetQueueExtension(compute.usingExtension);
      }
    }

    /** On an extension change the compute queue is recreated with or without the
     *  extension; the flag then reports whether either engine uses it. */
    method ApplyExtensionFor(ch: Changes)
      requires EnginesValid() && Connected()
      modifies compute, this`log, this`queueExtensionEnabled
      ensures EnginesValid() && Connected()
      ensures log == old(log) + ExtensionCalls(ch, old(queueExtensionEnabled))
      ensures ch.queueExtension ==> compute.usingExtension == (old(queueExtensionEnabled) && compute.extensionEnabled) &&
                                    queueExtensionEnabled == (compute.usingExtension || render.usingExtension)
      ensures !ch.queueExtension ==> unchanged(compute) && queueExtensionEnabled == old(queueExtensionEnabled)
      ensures compute.bufferIndex == old(compute.bufferIndex) && compute.fenceValue == old(compute.fenceValue)
    {
      if ch.queueExtension {
        compute.SetUseIntelCommandQueueExtension(queueExtensionEnabled);
        Record([SetComputeExtension(queueExtensionEnabled)]);
        SetQueueExtension(compute.usingExtension || render.usingExtension);
      }
    }

    /** The drains and rebuilds that change ch asks for, in the order of Draw. */
    method Rebuild(ch: Changes, env: Environment)
      requires EnginesValid() && Connected()
      requires renderAdapterIndex < |adapters| && computeAdapterIndex < |adapters|
      requires !ch.render ==> RenderBuiltOn(render, renderAdapterIndex, fullScreen)
      requires !ch.compute ==> ComputeBuiltOn(compute, computeAdapterIndex)
      requires env.newBackBufferIndex < numFrames
      modifies this`render, this`compute, this`queueExtensionEnabled, this`log, render, compute
      ensures EnginesValid() && Connected()
      ensures RenderBuiltOn(render, renderAdapterIndex, fullScreen) && ComputeBuiltOn(compute, computeAdapterIndex)
      ensures log == old(log) + DrainCalls(ch) + RenderRebuildCalls(ch, old(Current())) + ComputeRebuildCalls(ch, old(Current()))
      ensures queueExtensionEnabled == ExtensionAfterRebuild(ch, old(queueExtensionEnabled),
                                                             adapters[computeAdapterIndex].extensionEnabled)
      ensures (ch.render ==> fresh(render)) && (!ch.render ==> render == old(render))
      ensures (ch.compute ==> fresh(compute)) && (!ch.compute ==> compute == old(compute))
      ensures !ch.render && !ch.compute ==> unchanged(render, compute)
    {
      DrainFor(ch);
      RebuildRenderFor(ch, env);
      RebuildComputeFor(ch);
    }

    /** The extension change, then the toggle history reset. */
    method Finish(ch: Changes)
      requires EnginesValid() && Connected()
      requires RenderBuiltOn(render, renderAdapterIndex, fullScreen) && ComputeBuiltOn(compute, computeAdapterIndex)
      modifies compute, this`log, this`queueExtensionEnabled,
               this`prevRenderAdapterIndex, this`prevComputeAdapterIndex, this`prevQueueExtension, this`prevFullScreen
      ensures Valid()
      ensures log == old(log) + ExtensionCalls(ch, old(queueExtensionEnabled))
      ensures Pipeline() == old(Pipeline())
    {
      ApplyExtensionFor(ch);
      RecordToggles();
    }

    /** The change detection and rebuilds of Draw, ending with the toggle history reset. */
    method Reconfigure(env: Environment)
      requires EnginesValid() && Connected()
      requires RenderBuiltOn(render, prevRenderAdapterIndex, prevFullScreen) && ComputeBuiltOn(compute, prevComputeAdapterIndex)
      requires renderAdapterIndex < |adapters| && computeAdapterIndex < |adapters|
      requires env.newBackBufferIndex < numFrames
      modifies this`render, this`compute, this`queueExtensionEnabled, this`log,
               this`prevRenderAdapterIndex, this`prevComputeAdapterIndex, this`prevQueueExtension, this`prevFullScreen
      modifies render, render.frameFenceValues, compute, compute.frameFenceValues
      ensures Valid()
      ensures var ch := DetectChanges(old(Previous()), old(Current()), old(render.extensionEnabled));
              log == old(log) + ReconfigurationCalls(ch, old(Current()),
                                  ExtensionAfterRebuild(ch, old(queueExtensionEnabled),
                                                        adapters[old(computeAdapterIndex)].extensionEnabled)) &&
              (ch.render ==> fresh(render)) && (!ch.render ==> render == old(render)) &&
              (ch.compute ==> fresh(compute)) && (!ch.compute ==> compute == old(compute)) &&
              (!ch.render && !ch.compute ==> Pipeline() == old(Pipeline()))
    {
      var ch := DetectChanges(Toggles(prevRenderAdapterIndex, prevComputeAdapterIndex, prevQueueExtension, prevFullScreen),
                              Toggles(renderAdapterIndex, computeAdapterIndex, queueExtensionEnabled, fullScreen),
                              render.extensionEnabled);
      ghost var cur := Current();
      ghost var log0 := log;
      Rebuild(ch, env);
      ghost var extension := queueExtensionEnabled;
      Finish(ch);
      ConcatFour(log0, DrainCalls(ch), RenderRebuildCalls(ch, cur), ComputeRebuildCalls(ch, cur),
                 ExtensionCalls(ch, extension));
    }

    /** Models Draw: one frame, then the change detection and rebuilds. */
    method Draw(edits: Edits, env: Environment)
      requires Valid()
      requires edits.renderAdapter < |adapters| && edits.computeAdapter < |adapters|
      requires env.backBufferIndex < numFrames && env.newBackBufferIndex < numFrames
      modifies this`render, this`compute, this`renderAdapterIndex, this`computeAdapterIndex,
               this`queueExtensionEnabled, this`vsyncEnabled, this`fullScreen, this`numRendered,
               this`numCopied, this`numSimulated, this`linked, this`log,
               this`prevRenderAdapterIndex, this`prevComputeAdapterIndex, this`prevQueueExtension, this`prevFullScreen
      modifies render, render.frameFenceValues, compute, compute.frameFenceValues
      ensures Valid()
      ensures var cur := Edited(old(Current()), edits, enableUI);
              var ch := DetectChanges(old(Current()), cur, old(render.extensionEnabled));
              log == old(log) + [RenderDraw, Simulate] +
                     ReconfigurationCalls(ch, cur, ExtensionAfterRebuild(ch, cur.queueExtension,
                                                                         adapters[cur.computeAdapter].extensionEnabled)) &&
              (!ch.render && !ch.compute ==> render == old(render) && compute == old(compute) &&
                                             Pipeline() == FrameProtocol.Next(old(Pipeline())))
    {
      RunFrame(edits, env);
      Reconfigure(env);
    }
  }

  /** Models the constructor as a whole: keep the usable adapters, assign the roles and
   *  build the orchestrator. With no usable adapter the constructor executes `throw;`
   *  with no exception in flight, which terminates the process; null stands for that. */
  method Create(all: seq<Adapter>, settings: Settings, numFrames: nat, allowTearing: bool, backBufferIndex: nat)
    returns (p: Particles?)
    requires 1 <= numFrames && backBufferIndex < numFrames && CountsNonNegative(settings)
    ensures p == null <==> UsableAdapters(all) == []
    ensures p != null ==> fresh(p) && p.Valid() && p.adapters == UsableAdapters(all) &&
                          (p.renderAdapterIndex, p.computeAdapterIndex) == AssignedRoles(p.adapters) &&
                          p.log == [NewRender(p.renderAdapterIndex), NewCompute(p.computeAdapterIndex)]
                                   + ShareHandlesCalls(p.renderAdapterIndex == p.computeAdapterIndex)
  {
    var kept := EnumerateAdapters(all);
    if kept == [] {
      p := null;
    } else {
      var r, c := AssignAdapters(kept);
      p := new Particles(kept, r, c, settings, numFrames, allowTearing, backBufferIndex);
    }
  }
}
