/**
 * The parts of include/igd12ext.h that are not declarations: the
 * D3D12_EXT_*VERSION* packing macros, the bit layout of the ExtensionVersion
 * union, and D3D12LoadIntelExtensionsLibrary, which looks for the extension
 * DLL next to the executable and then next to the vendor's user-mode driver
 * among the process's modules. Every system call the loader makes is an
 * input: the process image path, the module enumeration, the file name of
 * each enumerated module, and the set of paths LoadLibraryExA succeeds on.
 */
module IntelExtension {

  datatype Option<T> = None | Some(value: T)

  //---------------------------------------------------------------------------
  // Version numbers
  //---------------------------------------------------------------------------

  /** D3D12_EXT_MAKE_VERSION: major in bits 24-31, minor in bits 16-23, no revision. */
  function MakeVersion(major: bv32, minor: bv32): bv32 {
    ((major & 0xFF) << 24) | ((minor & 0xFF) << 16)
  }

  /** D3D12_EXT_MAKE_FULL_VERSION: as MakeVersion, with the revision in bits 0-15. */
  function MakeFullVersion(major: bv32, minor: bv32, revision: bv32): bv32 {
    ((major & 0xFF) << 24) | ((minor & 0xFF) << 16) | (revision & 0xFFFF)
  }

  function GetMajor(version: bv32): bv32 { (version & 0xFF00_0000) >> 24 }
  function GetMinor(version: bv32): bv32 { (version & 0x00FF_0000) >> 16 }
  function GetRevision(version: bv32): bv32 { version & 0x0000_FFFF }
  function GetNoRevision(version: bv32): bv32 { version & 0xFFFF_0000 }

  /** Each part reads back what was packed, cut to its width. */
  lemma MajorRoundTrip(major: bv32, minor: bv32, revision: bv32)
    ensures GetMajor(MakeFullVersion(major, minor, revision)) == major & 0xFF
  {
  }

  lemma MinorRoundTrip(major: bv32, minor: bv32, revision: bv32)
    ensures GetMinor(MakeFullVersion(major, minor, revision)) == minor & 0xFF
  {
  }

  lemma RevisionRoundTrip(major: bv32, minor: bv32, revision: bv32)
    ensures GetRevision(MakeFullVersion(major, minor, revision)) == revision & 0xFFFF
  {
  }

  /** Dropping the revision of a full version gives the short version, whose revision is 0. */
  lemma NoRevisionIsShortVersion(major: bv32, minor: bv32, revision: bv32)
    ensures GetNoRevision(MakeFullVersion(major, minor, revision)) == MakeVersion(major, minor)
  {
    ShortVersionHasNoRevision(major, minor);
    HighHalfOf(MakeVersion(major, minor), revision);
  }

  lemma ShortVersionHasNoRevision(major: bv32, minor: bv32)
    ensures GetRevision(MakeVersion(major, minor)) == 0
  {
  }

  /** A version with a clear low half keeps its high half when a revision is or'ed in. */
  lemma HighHalfOf(high: bv32, revision: bv32)
    requires GetRevision(high) == 0
    ensures GetNoRevision(high | (revision & 0xFFFF)) == high
  {
  }

  /** A version is its three parts: packing what the getters read gives it back. */
  lemma VersionIsItsParts(version: bv32)
    ensures MakeFullVersion(GetMajor(version), GetMinor(version), GetRevision(version)) == version
  {
  }

  /** The Version view of the ExtensionVersion union: Revision in bits 0-15, Minor in
   *  bits 16-23, Major in bits 24-31 of FullVersion, as its comments state. */
  datatype VersionFields = VersionFields(revision: bv16, minor: bv8, major: bv8)

  /** Reading the Version members of a union holding FullVersion. */
  function Fields(full: bv32): (f: VersionFields)
    ensures f.major as bv32 == GetMajor(full)
    ensures f.minor as bv32 == GetMinor(full)
    ensures f.revision as bv32 == GetRevision(full)
  {
    VersionFields((full & 0xFFFF) as bv16, ((full >> 16) & 0xFF) as bv8, (full >> 24) as bv8)
  }

  /** Writing the Version members, as ExtensionHelper does for the requested version. */
  function FullVersion(f: VersionFields): (full: bv32)
    ensures full == MakeFullVersion(f.major as bv32, f.minor as bv32, f.revision as bv32)
  {
    ((f.major as bv32) << 24) | ((f.minor as bv32) << 16) | (f.revision as bv32)
  }

  /** The two views of the union agree both ways. */
  lemma FieldsRoundTrip(f: VersionFields)
    ensures Fields(FullVersion(f)) == f
  {
  }

  //---------------------------------------------------------------------------
  // Strings
  //---------------------------------------------------------------------------

  /** The build's target (32- or 64-bit), which picks the DLL names and the handle size. */
  datatype Platform = Win64 | Win32

  /** ID3D12_EXT_DLL. */
  function ExtDll(p: Platform): string {
    if p.Win64? then "igdext64.dll" else "igdext32.dll"
  }

  /** ID3D12_UMD_DLL, the base name of the user-mode driver. */
  function UmdDll(p: Platform): string {
    if p.Win64? then "igd12umd64" else "igd12umd32"
  }

  /** sizeof(HMODULE). */
  function HandleSize(p: Platform): nat {
    if p.Win64? then 8 else 4
  }

  predicate EndsWith(s: string, suffix: string) {
    |suffix| <= |s| && s[|s| - |suffix|..] == suffix
  }

  /** std::string::rfind of a character: the last position holding c. */
  function RFind(s: string, c: char): (r: Option<nat>)
    ensures r.None? <==> c !in s
    ensures r.Some? ==> r.value < |s| && s[r.value] == c && c !in s[r.value + 1..]
    decreases |s|
  {
    if s == [] then None
    else if s[|s| - 1] == c then Some(|s| - 1)
    else
      assert s == s[..|s| - 1] + [s[|s| - 1]];
      var front := RFind(s[..|s| - 1], c);
      if front.None? then None
      else
        assert s[front.value + 1..] == s[..|s| - 1][front.value + 1..] + [s[|s| - 1]];
        front
  }

  predicate OccursAt(s: string, sub: string, i: nat) {
    i + |sub| <= |s| && s[i..i + |sub|] == sub
  }

  /** std::string::find of a substring, from position k on. */
  function FindFrom(s: string, sub: string, k: nat): (r: Option<nat>)
    requires k <= |s|
    ensures r.None? ==> forall i :: k <= i <= |s| ==> !OccursAt(s, sub, i)
    ensures r.Some? ==> k <= r.value && OccursAt(s, sub, r.value) &&
                        forall i :: k <= i < r.value ==> !OccursAt(s, sub, i)
    decreases |s| - k
  {
    if OccursAt(s, sub, k) then Some(k)
    else if k == |s| then None
    else FindFrom(s, sub, k + 1)
  }

  function Find(s: string, sub: string): (r: Option<nat>)
    ensures r.None? ==> forall i :: 0 <= i <= |s| ==> !OccursAt(s, sub, i)
    ensures r.Some? ==> OccursAt(s, sub, r.value) && forall i :: 0 <= i < r.value ==> !OccursAt(s, sub, i)
  {
    FindFrom(s, sub, 0)
  }

  //---------------------------------------------------------------------------
  // The candidate paths
  //---------------------------------------------------------------------------

  /** The candidate next to the executable: its path cut after the last backslash, then
   *  the DLL name; the DLL name alone for a path without a backslash. */
  function ProcessDirCandidate(path: string, p: Platform): (r: string)
    ensures EndsWith(r, ExtDll(p))
  {
    var pos := RFind(path, '\\');
    if pos.Some? then path[..pos.value] + "\\" + ExtDll(p) else ExtDll(p)
  }

  /** What is kept of the executable's path is its directory: empty when the path has no
   *  backslash, else the prefix up to and including the last one. */
  lemma ProcessDirIsDirectory(path: string, p: Platform)
    ensures var r := ProcessDirCandidate(path, p);
            var dir := r[..|r| - |ExtDll(p)|];
            (dir == [] && '\\' !in path) ||
            (dir <= path && |dir| >= 1 && dir[|dir| - 1] == '\\' && '\\' !in path[|dir|..])
  {
    var pos := RFind(path, '\\');
    if pos.Some? {
      DirectoryPrefix(path, pos.value, ExtDll(p));
    } else {
      assert ProcessDirCandidate(path, p) == ExtDll(p);
    }
  }

  /** The step of ProcessDirIsDirectory for any DLL name e: cutting at a last backslash
   *  and appending one keeps the prefix up to and including that backslash. */
  lemma DirectoryPrefix(path: string, pos: nat, e: string)
    requires pos < |path| && path[pos] == '\\' && '\\' !in path[pos + 1..]
    ensures var r := path[..pos] + "\\" + e;
            var dir := r[..|r| - |e|];
            dir == path[..pos + 1] && dir <= path && |dir| >= 1 && dir[|dir| - 1] == '\\' &&
            '\\' !in path[|dir|..]
  {
    var r := path[..pos] + "\\" + e;
    assert r[..|r| - |e|] == path[..pos + 1];
  }

  /** The candidate next to a module that is the driver: the module's path cut before the
   *  first occurrence of the driver's name, then the DLL name; none for another module. */
  function DriverCandidate(path: string, p: Platform): (r: Option<string>)
    ensures r.Some? ==> EndsWith(r.value, ExtDll(p))
  {
    var pos := Find(path, UmdDll(p));
    if pos.None? then None else Some(path[..pos.value] + ExtDll(p))
  }

  /** A module is the driver exactly when its path contains the driver's name, and the
   *  candidate keeps the path up to the first occurrence. */
  lemma DriverCandidateIsDriverDirectory(path: string, p: Platform)
    ensures var r := DriverCandidate(path, p);
            (r.None? <==> forall i :: 0 <= i <= |path| ==> !OccursAt(path, UmdDll(p), i)) &&
            (r.Some? ==> var dir := r.value[..|r.value| - |ExtDll(p)|];
                         dir <= path && OccursAt(path, UmdDll(p), |dir|) &&
                         forall i :: 0 <= i < |dir| ==> !OccursAt(path, UmdDll(p), i))
  {
    var pos := Find(path, UmdDll(p));
    if pos.Some? {
      var r := path[..pos.value] + ExtDll(p);
      assert r[..|r| - |ExtDll(p)|] == path[..pos.value];
    }
  }

  /** What one enumerated module contributes: its driver candidate, if its file name
   *  could be read (Some) and it is the driver. */
  function ModuleCandidate(name: Option<string>, p: Platform): (r: seq<string>)
    ensures |r| <= 1
  {
    if name.Some? && DriverCandidate(name.value, p).Some? then [DriverCandidate(name.value, p).value] else []
  }

  /** The driver candidates of the scanned modules, in enumeration order. */
  function DriverCandidates(names: seq<Option<string>>, p: Platform): (r: seq<string>)
    ensures |r| <= |names|
    decreases |names|
  {
    if names == [] then [] else ModuleCandidate(names[0], p) + DriverCandidates(names[1..], p)
  }

  /** The scan looks at one more module. */
  lemma DriverCandidatesStep(names: seq<Option<string>>, i: nat, n: nat, p: Platform)
    requires i < n <= |names|
    ensures DriverCandidates(names[i..n], p) == ModuleCandidate(names[i], p) + DriverCandidates(names[i + 1..n], p)
  {
    assert names[i..n][0] == names[i];
    assert names[i..n][1..] == names[i + 1..n];
  }

  /** The first candidate that loads. */
  function FirstLoadable(candidates: seq<string>, loads: set<string>): (r: Option<string>)
    ensures r.Some? ==> r.value in loads && r.value in candidates
    decreases |candidates|
  {
    if candidates == [] then None
    else if candidates[0] in loads then Some(candidates[0])
    else FirstLoadable(candidates[1..], loads)
  }

  /** Nothing is loaded exactly when no candidate loads, and what is loaded is the
   *  earliest candidate that loads. */
  lemma {:induction false} FirstLoadableIsFirst(candidates: seq<string>, loads: set<string>)
    ensures var r := FirstLoadable(candidates, loads);
            (r.None? <==> forall i :: 0 <= i < |candidates| ==> candidates[i] !in loads) &&
            (r.Some? ==> exists i :: 0 <= i < |candidates| && candidates[i] == r.value &&
                                     forall j :: 0 <= j < i ==> candidates[j] !in loads)
    decreases |candidates|
  {
    if candidates != [] && candidates[0] !in loads {
      var tail := candidates[1..];
      FirstLoadableIsFirst(tail, loads);
      var r := FirstLoadable(tail, loads);
      if r.Some? {
        var i :| 0 <= i < |tail| && tail[i] == r.value && forall j :: 0 <= j < i ==> tail[j] !in loads;
        assert candidates[i + 1] == r.value;
        assert forall j :: 0 <= j < i + 1 ==> candidates[j] !in loads by {
          forall j | 0 <= j < i + 1 ensures candidates[j] !in loads {
            if j > 0 { assert candidates[j] == tail[j - 1]; }
          }
        }
      } else {
        forall i | 0 <= i < |candidates| ensures candidates[i] !in loads {
          if i > 0 { assert candidates[i] == tail[i - 1]; }
        }
      }
    }
  }

  /** A prefix of which nothing loads does not change the outcome. */
  lemma {:induction false} FirstLoadableSkips(a: seq<string>, b: seq<string>, loads: set<string>)
    requires FirstLoadable(a, loads).None?
    ensures FirstLoadable(a + b, loads) == FirstLoadable(b, loads)
    decreases |a|
  {
    if a != [] {
      assert (a + b)[0] == a[0];
      assert (a + b)[1..] == a[1..] + b;
      FirstLoadableSkips(a[1..], b, loads);
    } else {
      assert a + b == b;
    }
  }

  //---------------------------------------------------------------------------
  // The module scan
  //---------------------------------------------------------------------------

  /** The length of hMods. */
  const MaxModules: nat := 1024

  /** The loop bound as written, cbNeeded / sizeof(HMODULE): the number of modules the
   *  process has, which EnumProcessModules reports even when hMods holds fewer. */
  function AsWrittenBound(cbNeeded: nat, p: Platform): nat {
    cbNeeded / HandleSize(p)
  }

  /** a * h grows with a. */
  lemma MulMonotone(a: nat, b: nat, h: nat)
    requires a <= b
    ensures a * h <= b * h
  {
    assert b * h == a * h + (b - a) * h;
  }

  /** The quotient by h reaches k exactly when the dividend reaches k * h. */
  lemma DivAtLeast(x: nat, h: nat, k: nat)
    requires h > 0
    ensures x / h >= k <==> x >= k * h
  {
    var q, r := x / h, x % h;
    assert x == q * h + r && r < h;
    if q >= k {
      MulMonotone(k, q, h);
    } else {
      MulMonotone(q + 1, k, h);
      assert (q + 1) * h == q * h + h;
    }
  }

  /** As written, the loop reads an index past hMods (the last one it reads is the bound
   *  minus one) exactly when the process has more modules than hMods holds, that is,
   *  when cbNeeded covers MaxModules + 1 handles. */
  lemma AsWrittenBoundOverruns(cbNeeded: nat, p: Platform)
    ensures AsWrittenBound(cbNeeded, p) > MaxModules <==> cbNeeded >= (MaxModules + 1) * HandleSize(p)
    ensures AsWrittenBound(cbNeeded, p) > MaxModules ==> AsWrittenBound(cbNeeded, p) - 1 >= MaxModules
  {
    DivAtLeast(cbNeeded, HandleSize(p), MaxModules + 1);
  }

  /** The smallest case: a process with 1025 modules makes the loop read hMods[1024]. */
  lemma OverrunExample()
    ensures AsWrittenBound(1025 * HandleSize(Win64), Win64) == MaxModules + 1
    ensures AsWrittenBound(1025 * HandleSize(Win32), Win32) == MaxModules + 1
  {
    AsWrittenBoundOverruns(1025 * HandleSize(Win64), Win64);
    AsWrittenBoundOverruns(1025 * HandleSize(Win32), Win32);
  }

  /** The bound capped at the buffer, as evidently intended: only the handles that
   *  EnumProcessModules stored are read. */
  function ScannedModules(cbNeeded: nat, p: Platform): (n: nat)
    ensures n <= MaxModules
    ensures n <= AsWrittenBound(cbNeeded, p)
    ensures AsWrittenBound(cbNeeded, p) <= MaxModules ==> n == AsWrittenBound(cbNeeded, p)
  {
    var n := cbNeeded / HandleSize(p);
    if n <= MaxModules then n else MaxModules
  }

  /** Every path the loader tries, in order. */
  function Candidates(p: Platform, useCurrentProcessDir: bool, processPath: Option<string>,
                      enumerated: bool, cbNeeded: nat, names: seq<Option<string>>): seq<string>
    requires |names| == MaxModules
  {
    (if useCurrentProcessDir && processPath.Some? then [ProcessDirCandidate(processPath.value, p)] else []) +
    (if enumerated then DriverCandidates(names[..ScannedModules(cbNeeded, p)], p) else [])
  }

  /** Models D3D12LoadIntelExtensionsLibrary with the scan capped at hMods' length.
   *  processPath is what GetModuleFileNameA gives for the executable (None if it fails),
   *  enumerated and cbNeeded what EnumProcessModules reports, names[i] what
   *  GetModuleFileNameExA gives for hMods[i], and loads the paths LoadLibraryExA
   *  succeeds on. The result is the path that was loaded, None for NULL. */
  method LoadIntelExtensionsLibrary(p: Platform, useCurrentProcessDir: bool, processPath: Option<string>,
                                    enumerated: bool, cbNeeded: nat, names: seq<Option<string>>,
                                    loads: set<string>) returns (r: Option<string>)
    requires |names| == MaxModules
    ensures r == FirstLoadable(Candidates(p, useCurrentProcessDir, processPath, enumerated, cbNeeded, names), loads)
  {
    ghost var scan := if enumerated then DriverCandidates(names[..ScannedModules(cbNeeded, p)], p) else [];
    if useCurrentProcessDir && processPath.Some? {
      var szPath := processPath.value;
      var pos := RFind(szPath, '\\');
      if pos.Some? {
        szPath := szPath[..pos.value];
        szPath := szPath + "\\";
        szPath := szPath + ExtDll(p);
      } else {
        szPath := ExtDll(p);
      }
      assert [szPath] + scan == Candidates(p, useCurrentProcessDir, processPath, enumerated, cbNeeded, names);
      if szPath in loads {
        return Some(szPath);
      }
      FirstLoadableSkips([szPath], scan, loads);
    } else {
      assert scan == Candidates(p, useCurrentProcessDir, processPath, enumerated, cbNeeded, names);
    }
    if enumerated {
      r := ScanModules(p, ScannedModules(cbNeeded, p), names, loads);
    } else {
      r := None;
    }
  }

  /** The second half of D3D12LoadIntelExtensionsLibrary: the first n enumerated modules
   *  in order, trying the driver candidate of each module that is the driver. */
  method ScanModules(p: Platform, n: nat, names: seq<Option<string>>, loads: set<string>) returns (r: Option<string>)
    requires n <= |names|
    ensures r == FirstLoadable(DriverCandidates(names[..n], p), loads)
  {
    assert names[..n] == names[0..n];
    for i := 0 to n
      invariant FirstLoadable(DriverCandidates(names[..n], p), loads) == FirstLoadable(DriverCandidates(names[i..n], p), loads)
    {
      DriverCandidatesStep(names, i, n, p);
      ghost var here := ModuleCandidate(names[i], p);
      if names[i].Some? {
        var szPath := names[i].value;
        var pos := Find(szPath, UmdDll(p));
        if pos.Some? {
          szPath := szPath[..pos.value];
          szPath := szPath + ExtDll(p);
          assert here == [szPath];
          if szPath in loads {
            return Some(szPath);
          }
          assert FirstLoadable(here, loads).None?;
        } else {
          assert here == [];
        }
      } else {
        assert here == [];
      }
      FirstLoadableSkips(here, DriverCandidates(names[i + 1..n], p), loads);
    }
    assert DriverCandidates(names[n..n], p) == [];
    r := None;
  }

  /** The executable's directory wins whenever it is tried and loads. */
  lemma ProcessDirTriedFirst(p: Platform, processPath: string, enumerated: bool, cbNeeded: nat,
                             names: seq<Option<string>>, loads: set<string>)
    requires |names| == MaxModules && ProcessDirCandidate(processPath, p) in loads
    ensures FirstLoadable(Candidates(p, true, Some(processPath), enumerated, cbNeeded, names), loads)
            == Some(ProcessDirCandidate(processPath, p))
  {
  }

  /** Without the process directory and without a module enumeration nothing is loaded. */
  lemma NothingToTry(p: Platform, processPath: Option<string>, cbNeeded: nat,
                     names: seq<Option<string>>, loads: set<string>)
    requires |names| == MaxModules
    ensures FirstLoadable(Candidates(p, false, processPath, false, cbNeeded, names), loads).None?
  {
  }
}
