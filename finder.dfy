/**
 * The artifact resolver of the common crate. Given the directory of one
 * target (what the packaging context reports for a triple), the set of paths
 * that exist on disk and the platform the tool was compiled for, it maps an
 * abstract output to a `FinderResult` of three optional paths, walking an
 * ordered chain of candidate file names and stopping at the first that exists.
 */
module Finder {
  import opened Wrappers
  import opened Paths
  import opened CommonOutput

  /** The `cfg(unix)` / `cfg(windows)` split, as a parameter. */
  datatype Platform = Unix | Windows

  datatype LibType = Dynamic | Static

  datatype FinderResult = FinderResult(path: Option<Path>, debugInfo: Option<Path>, exports: Option<Path>)

  /** The "nothing found" result: every field absent, never an error. */
  const Absent := FinderResult(None, None, None)

  /** `"lib" + name + ext` and `name + ext`. */
  function Prefixed(name: string, ext: string): string { "lib" + name + ext }
  function Plain(name: string, ext: string): string { name + ext }

  /** Candidate names for the primary artifact, in the order the resolver tries them. */
  function PathCandidates(platform: Platform, libType: LibType, output: Output): (r: seq<string>)
    ensures 1 <= |r| <= 4
    ensures output.Config? || output.Other? ==> r == [output.name]
    ensures output.Bin? ==> |r| == 1 && (r[0] == output.name <==> platform == Unix)
  {
    match output
    case Bin(n) => if platform == Unix then [n] else [Plain(n, ".exe")]
    case Lib(n) =>
      (match (platform, libType)
       case (Unix, Dynamic) => [Prefixed(n, ".dylib"), Prefixed(n, ".so"), Plain(n, ".dylib"), Plain(n, ".so")]
       case (Windows, Dynamic) => [Plain(n, ".dll"), Prefixed(n, ".dll")]
       case (Unix, Static) => [Prefixed(n, ".a"), Plain(n, ".a")]
       case (Windows, Static) => [Plain(n, ".lib"), Prefixed(n, ".lib")])
    case Config(n) => [n]
    case Other(n) => [n]
  }

  /** Candidate names for the debug-info companion. */
  function DebugCandidates(platform: Platform, output: Output): (r: seq<string>)
    ensures |r| <= 2
    ensures |r| == 0 <==> output.Config? || output.Other?
  {
    match output
    case Bin(n) => if platform == Unix then [Plain(n, ".d")] else [Plain(n, ".pdb")]
    case Lib(n) => if platform == Unix then [Prefixed(n, ".d"), Plain(n, ".d")] else [Plain(n, ".pdb"), Prefixed(n, ".pdb")]
    case Config(_) => []
    case Other(_) => []
  }

  /** Candidate names for the import library; only a Windows dynamic library has any. */
  function ExportCandidates(platform: Platform, libType: LibType, output: Output): (r: seq<string>)
    ensures |r| == 0 || |r| == 4
    ensures |r| == 4 <==> output.Lib? && platform == Windows && libType == Dynamic
  {
    if output.Lib? && platform == Windows && libType == Dynamic then
      [Plain(output.name, ".dll.lib"), Prefixed(output.name, ".dll.lib"), Plain(output.name, ".lib"), Prefixed(output.name, ".lib")]
    else []
  }

  /** Iterator `find`: the first element satisfying `pred`. */
  function Find(s: seq<Output>, pred: Output -> bool): (r: Option<Output>)
    ensures r.None? <==> forall i :: 0 <= i < |s| ==> !pred(s[i])
    ensures r.Some? ==> exists i :: 0 <= i < |s| && s[i] == r.value && pred(s[i]) &&
                                    forall j :: 0 <= j < i ==> !pred(s[j])
  {
    if |s| == 0 then None
    else if pred(s[0]) then Some(s[0])
    else
      var r := Find(s[1..], pred);
      assert r.Some? ==> exists i :: 0 <= i < |s| && s[i] == r.value && pred(s[i]) &&
                                     forall j :: 0 <= j < i ==> !pred(s[j]) by {
        if r.Some? {
          var i :| 0 <= i < |s| - 1 && s[1..][i] == r.value && pred(s[1..][i]) &&
                   forall j :: 0 <= j < i ==> !pred(s[1..][j]);
          forall j | 0 <= j < i + 1 ensures !pred(s[j]) {
            if j > 0 { assert s[j] == s[1..][j - 1]; }
          }
          assert s[i + 1] == r.value;
        }
      }
      r
  }

  /**
   * A resolver bound to one target directory. `existing` is the set of paths
   * for which `Path::exists` holds; `outputs` is what the context's
   * `get_outputs` yields.
   */
  datatype Finder = Finder(targetDir: Path, existing: set<Path>, platform: Platform, outputs: seq<Output>)
  {
    /** True when `name` exists under the target directory. */
    predicate Exists(name: string) { Join(targetDir, name) in existing }

    /** `r` is what walking `names` in order and stopping at the first existing one gives. */
    predicate FirstFound(r: Option<Path>, names: seq<string>)
    {
      if forall i :: 0 <= i < |names| ==> !Exists(names[i]) then r.None?
      else exists i :: 0 <= i < |names| && Exists(names[i]) && r == Some(Join(targetDir, names[i])) &&
                       forall j :: 0 <= j < i ==> !Exists(names[j])
    }

    /** `get_path`: the joined path when it exists, nothing otherwise. */
    function GetPath(fileName: string): (r: Option<Path>)
      ensures r.Some? <==> Join(targetDir, fileName) in existing
      ensures r.Some? ==> r.value == Join(targetDir, fileName)
    {
      var path := Join(targetDir, fileName);
      if path in existing then Some(path) else None
    }

    /** The `or_else` chain over `names`. */
    function FirstExisting(names: seq<string>): (r: Option<Path>)
      ensures FirstFound(r, names)
    {
      if |names| == 0 then None
      else
        var rest := FirstExisting(names[1..]);
        assert FirstFound(rest, names[1..]);
        var r := OrElse(GetPath(names[0]), rest);
        assert FirstFound(r, names) by {
          if !Exists(names[0]) && exists i :: 0 <= i < |names| && Exists(names[i]) {
            var i :| 0 <= i < |names| - 1 && Exists(names[1..][i]) && rest == Some(Join(targetDir, names[1..][i])) &&
                     forall j :: 0 <= j < i ==> !Exists(names[1..][j]);
            assert names[i + 1] == names[1..][i];
            forall j | 0 <= j < i + 1 ensures !Exists(names[j]) {
              if j > 0 { assert names[j] == names[1..][j - 1]; }
            }
          } else if !Exists(names[0]) {
            forall i | 0 <= i < |names| - 1 ensures !Exists(names[1..][i]) {
              assert names[1..][i] == names[i + 1];
            }
          }
        }
        r
    }

    /** `resolve_output`: each field is the first existing name of its chain. */
    function ResolveOutput(libType: LibType, output: Output): (r: FinderResult)
      ensures FirstFound(r.path, PathCandidates(platform, libType, output))
      ensures FirstFound(r.debugInfo, DebugCandidates(platform, output))
      ensures FirstFound(r.exports, ExportCandidates(platform, libType, output))
    {
      FinderResult(FirstExisting(PathCandidates(platform, libType, output)),
                   FirstExisting(DebugCandidates(platform, output)),
                   FirstExisting(ExportCandidates(platform, libType, output)))
    }

    /** `find_first`: resolve the first output the predicate accepts, or `Absent`. */
    function FindFirst(libType: LibType, pred: Output -> bool): (r: FinderResult)
      ensures (forall i :: 0 <= i < |outputs| ==> !pred(outputs[i])) ==> r == Absent
      ensures forall i :: 0 <= i < |outputs| && pred(outputs[i]) && (forall j :: 0 <= j < i ==> !pred(outputs[j])) ==>
                r == ResolveOutput(libType, outputs[i])
    {
      match Find(outputs, pred)
      case None => Absent
      case Some(v) =>
        assert forall i :: 0 <= i < |outputs| && pred(outputs[i]) && (forall j :: 0 <= j < i ==> !pred(outputs[j])) ==>
                 outputs[i] == v;
        ResolveOutput(libType, v)
    }

    /** The linkages `resolve_output_all` tries for an output, in push order. */
    function Linkages(output: Output): seq<LibType>
    {
      if output.IsLib() then [Static, Dynamic] else [Dynamic]
    }

    /** Reference definition of `resolve_output_all`: resolve under every linkage, keep the found ones. */
    function KeepFound(output: Output, lts: seq<LibType>): (r: seq<FinderResult>)
      ensures |r| <= |lts|
      ensures forall k :: 0 <= k < |r| ==> r[k].path.Some?
    {
      if |lts| == 0 then []
      else
        var res := ResolveOutput(lts[0], output);
        (if res.path.Some? then [res] else []) + KeepFound(output, lts[1..])
    }

    /** `resolve_output_all`: conditional pushes, static before dynamic. */
    method ResolveOutputAll(output: Output) returns (results: seq<FinderResult>)
      ensures results == KeepFound(output, Linkages(output))
      ensures forall k :: 0 <= k < |results| ==> results[k].path.Some?
      ensures |results| <= if output.IsLib() then 2 else 1
    {
      results := [];
      if output.IsLib() {
        var rstatic := ResolveOutput(Static, output);
        var rdynamic := ResolveOutput(Dynamic, output);
        if rstatic.path.Some? {
          results := results + [rstatic];
        }
        if rdynamic.path.Some? {
          results := results + [rdynamic];
        }
      } else {
        var rdynamic := ResolveOutput(Dynamic, output);
        if rdynamic.path.Some? {
          results := results + [rdynamic];
        }
      }
    }
  }

  /** A path the resolver reports is an existing path naming one of the chain's candidates. */
  lemma FoundIsExistingCandidate(f: Finder, r: Option<Path>, names: seq<string>)
    requires f.FirstFound(r, names)
    ensures r.Some? ==> r.value in f.existing && |r.value| == |f.targetDir| + 1 &&
                        r.value[..|f.targetDir|] == f.targetDir && r.value[|f.targetDir|] in names
    ensures r.None? <==> forall i :: 0 <= i < |names| ==> !f.Exists(names[i])
  {
    if r.Some? {
      var i :| 0 <= i < |names| && f.Exists(names[i]) && r == Some(Join(f.targetDir, names[i])) &&
               forall j :: 0 <= j < i ==> !f.Exists(names[j]);
    }
  }

  /** The first candidate of a chain wins whenever it exists, whatever else exists. */
  lemma FirstCandidateWins(f: Finder, r: Option<Path>, names: seq<string>)
    requires f.FirstFound(r, names)
    requires |names| > 0 && f.Exists(names[0])
    ensures r == Some(Join(f.targetDir, names[0]))
  {
    var i :| 0 <= i < |names| && f.Exists(names[i]) && r == Some(Join(f.targetDir, names[i])) &&
             forall j :: 0 <= j < i ==> !f.Exists(names[j]);
    assert i == 0;
  }

  /** When no candidate of any chain exists the result is `Absent`: a miss is never an error. */
  lemma NothingOnDiskIsAbsent(f: Finder, libType: LibType, output: Output)
    requires forall p :: p in f.existing ==> |p| != |f.targetDir| + 1 || p[..|f.targetDir|] != f.targetDir
    ensures f.ResolveOutput(libType, output) == Absent
  {
    var r := f.ResolveOutput(libType, output);
    forall name: string ensures !f.Exists(name) {
      var p := Join(f.targetDir, name);
      assert p[..|f.targetDir|] == f.targetDir;
    }
    FoundIsExistingCandidate(f, r.path, PathCandidates(f.platform, libType, output));
    FoundIsExistingCandidate(f, r.debugInfo, DebugCandidates(f.platform, output));
    FoundIsExistingCandidate(f, r.exports, ExportCandidates(f.platform, libType, output));
  }

  /** A binary is resolved the same way whatever linkage is asked for. */
  lemma BinIgnoresLinkage(f: Finder, name: string)
    ensures f.ResolveOutput(Static, Bin(name)) == f.ResolveOutput(Dynamic, Bin(name))
    ensures f.ResolveOutput(Dynamic, Bin(name)).exports.None?
  {
    assert PathCandidates(f.platform, Static, Bin(name)) == PathCandidates(f.platform, Dynamic, Bin(name));
  }

  /** Only a dynamic library on Windows can have an exports (import library) path. */
  lemma ExportsOnlyForWindowsDynamicLib(f: Finder, libType: LibType, output: Output)
    ensures f.ResolveOutput(libType, output).exports.Some? ==>
              f.platform == Windows && libType == Dynamic && output.Lib?
  {
  }

  /** Config and Other outputs use their name literally and carry no companions. */
  lemma LiteralNames(f: Finder, libType: LibType, output: Output)
    requires output.Config? || output.Other?
    ensures var r := f.ResolveOutput(libType, output);
            r.debugInfo.None? && r.exports.None? &&
            (r.path.Some? <==> Join(f.targetDir, output.name) in f.existing) &&
            (r.path.Some? ==> r.path.value == Join(f.targetDir, output.name))
  {
    var r := f.ResolveOutput(libType, output);
    FoundIsExistingCandidate(f, r.path, [output.name]);
    FoundIsExistingCandidate(f, r.debugInfo, []);
    FoundIsExistingCandidate(f, r.exports, []);
  }

  /** With exactly two files on disk, a name exists iff it is one of them. */
  lemma ExistsInPair(f: Finder, a: string, b: string, name: string)
    requires f.existing == {f.targetDir + [a], f.targetDir + [b]}
    ensures f.Exists(name) <==> name == a || name == b
  {
    var p := Join(f.targetDir, name);
    if p == f.targetDir + [a] { assert p[|f.targetDir|] == a; }
    if p == f.targetDir + [b] { assert p[|f.targetDir|] == b; }
  }

  /** Windows, library `net`, only `net.dll` and `net.lib` on disk: (`net.dll`, none, `net.lib`). */
  lemma WindowsNetScenario(dir: Path, outputs: seq<Output>)
    ensures var f := Finder(dir, {dir + ["net.dll"], dir + ["net.lib"]}, Windows, outputs);
            f.ResolveOutput(Dynamic, Lib("net")) ==
              FinderResult(Some(dir + ["net.dll"]), None, Some(dir + ["net.lib"]))
  {
    var f := Finder(dir, {dir + ["net.dll"], dir + ["net.lib"]}, Windows, outputs);
    var r := f.ResolveOutput(Dynamic, Lib("net"));
    NetPath(f, r.path);
    NetDebug(f, r.debugInfo);
    NetExports(f, r.exports);
  }

  lemma NetPath(f: Finder, r: Option<Path>)
    requires f.existing == {f.targetDir + ["net.dll"], f.targetDir + ["net.lib"]}
    requires f.FirstFound(r, PathCandidates(Windows, Dynamic, Lib("net")))
    ensures r == Some(f.targetDir + ["net.dll"])
  {
    assert Plain("net", ".dll") == "net.dll";
    ExistsInPair(f, "net.dll", "net.lib", "net.dll");
    FirstCandidateWins(f, r, PathCandidates(Windows, Dynamic, Lib("net")));
  }

  lemma NetDebug(f: Finder, r: Option<Path>)
    requires f.existing == {f.targetDir + ["net.dll"], f.targetDir + ["net.lib"]}
    requires f.FirstFound(r, DebugCandidates(Windows, Lib("net")))
    ensures r.None?
  {
    var names := DebugCandidates(Windows, Lib("net"));
    assert |names| == 2 && names[0] == "net.pdb" && names[1] == "libnet.pdb";
    ExistsInPair(f, "net.dll", "net.lib", "net.pdb");
    ExistsInPair(f, "net.dll", "net.lib", "libnet.pdb");
    FoundIsExistingCandidate(f, r, names);
  }

  lemma NetExports(f: Finder, r: Option<Path>)
    requires f.existing == {f.targetDir + ["net.dll"], f.targetDir + ["net.lib"]}
    requires f.FirstFound(r, ExportCandidates(Windows, Dynamic, Lib("net")))
    ensures r == Some(f.targetDir + ["net.lib"])
  {
    var names := ExportCandidates(Windows, Dynamic, Lib("net"));
    assert |names| == 4 && names[0] == "net.dll.lib" && names[1] == "libnet.dll.lib" && names[2] == "net.lib";
    ExistsInPair(f, "net.dll", "net.lib", "net.dll.lib");
    ExistsInPair(f, "net.dll", "net.lib", "libnet.dll.lib");
    ExistsInPair(f, "net.dll", "net.lib", "net.lib");
    assert |"net.dll.lib"| == 11 && |"libnet.dll.lib"| == 14 && |"net.dll"| == 7;
    assert !f.Exists(names[0]) && !f.Exists(names[1]) && f.Exists(names[2]);
    var i :| 0 <= i < |names| && f.Exists(names[i]) && r == Some(Join(f.targetDir, names[i])) &&
             forall j :: 0 <= j < i ==> !f.Exists(names[j]);
    assert i == 2;
  }

  /** Every result `KeepFound` returns is the resolution under one of the linkages tried. */
  lemma {:induction false} KeepFoundMembers(f: Finder, output: Output, lts: seq<LibType>)
    ensures forall res :: res in f.KeepFound(output, lts) ==>
              exists lt :: lt in lts && res == f.ResolveOutput(lt, output)
  {
    if |lts| > 0 {
      KeepFoundMembers(f, output, lts[1..]);
      var res := f.ResolveOutput(lts[0], output);
      var head := if res.path.Some? then [res] else [];
      var r := f.KeepFound(output, lts);
      assert r == head + f.KeepFound(output, lts[1..]);
      forall x | x in r ensures exists lt :: lt in lts && x == f.ResolveOutput(lt, output) {
        if x in head {
          assert x == f.ResolveOutput(lts[0], output);
        } else {
          var lt :| lt in lts[1..] && x == f.ResolveOutput(lt, output);
          assert lt in lts;
        }
      }
    }
  }

  /** A library shipped both static and dynamic is returned twice: static first, then dynamic. */
  lemma LibraryFoundBothWays(f: Finder, name: string)
    requires f.ResolveOutput(Static, Lib(name)).path.Some?
    requires f.ResolveOutput(Dynamic, Lib(name)).path.Some?
    ensures f.KeepFound(Lib(name), f.Linkages(Lib(name))) ==
              [f.ResolveOutput(Static, Lib(name)), f.ResolveOutput(Dynamic, Lib(name))]
  {
    assert f.Linkages(Lib(name))[1..] == [Dynamic];
    assert f.Linkages(Lib(name))[1..][1..] == [];
  }

  /** For an output that is not a library, at most the dynamic resolution is returned. */
  lemma NonLibraryFoundOnce(f: Finder, output: Output)
    requires !output.IsLib()
    ensures var r := f.KeepFound(output, f.Linkages(output));
            r == (if f.ResolveOutput(Dynamic, output).path.Some? then [f.ResolveOutput(Dynamic, output)] else [])
  {
    assert f.Linkages(output)[1..] == [];
  }
}
