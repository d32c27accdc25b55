/**
 * The builder interface of bp3d-make (build-tools layout): path-carrying
 * outputs, the accumulating output list, modules, the shared build context
 * with its platform-extension helpers, and the shape of the builder contract.
 */
module BuilderInterface {
  import opened Wrappers
  import opened Paths

  /** A build output carrying a path; exactly one of four kinds. */
  datatype Output = Bin(value: Path) | Lib(value: Path) | Config(value: Path) | Other(value: Path)
  {
    /** `Output::path`: the payload, whichever variant carries it. */
    function PathOf(): (r: Path)
      ensures this == Bin(r) || this == Lib(r) || this == Config(r) || this == Other(r)
    {
      match this
      case Bin(v) => v
      case Lib(v) => v
      case Config(v) => v
      case Other(v) => v
    }
  }

  /** The tuple struct `OutputList(Vec<Output>)`, an append-only list. */
  class OutputList {
    var entries: seq<Output>

    constructor ()
      ensures entries == []
    {
      entries := [];
    }

    method AddBin(p: Path)
      modifies this
      ensures entries == old(entries) + [Bin(p)]
    {
      entries := entries + [Bin(p)];
    }

    method AddLib(p: Path)
      modifies this
      ensures entries == old(entries) + [Lib(p)]
    {
      entries := entries + [Lib(p)];
    }

    method AddConfig(p: Path)
      modifies this
      ensures entries == old(entries) + [Config(p)]
    {
      entries := entries + [Config(p)];
    }

    method AddOther(p: Path)
      modifies this
      ensures entries == old(entries) + [Other(p)]
    {
      entries := entries + [Other(p)];
    }

    /** `as_ref`: the entries in insertion order. */
    function AsRef(): (r: seq<Output>)
      reads this
      ensures r == entries
    {
      entries
    }
  }

  /** A workspace member being built: its display name and its project root. */
  datatype Module = Module(name: string, path: Path)

  /** `sub` occurs in `t` starting at index `i`. */
  ghost predicate OccursAt(sub: string, t: string, i: int)
  {
    0 <= i && i + |sub| <= |t| && t[i..i + |sub|] == sub
  }

  /** `sub` occurs in `t` as a contiguous slice. */
  ghost predicate Occurs(sub: string, t: string)
  {
    exists i :: OccursAt(sub, t, i)
  }

  /** An occurrence past the first character is an occurrence in the tail. */
  lemma OccursAtTail(sub: string, t: string, i: int)
    requires 0 < i && OccursAt(sub, t, i)
    ensures OccursAt(sub, t[1..], i - 1)
  {
    assert t[1..][i - 1..i - 1 + |sub|] == t[i..i + |sub|];
  }

  /** An occurrence in the tail is an occurrence one character further on. */
  lemma OccursAtFromTail(sub: string, t: string, i: int)
    requires |t| > 0 && OccursAt(sub, t[1..], i)
    ensures OccursAt(sub, t, i + 1)
  {
    assert t[i + 1..i + 1 + |sub|] == t[1..][i..i + |sub|];
  }

  /** When the pattern is not a prefix, it occurs in `t` exactly when it occurs in the tail. */
  lemma OccursShift(sub: string, t: string)
    requires |t| >= |sub| && t[..|sub|] != sub
    ensures Occurs(sub, t) <==> Occurs(sub, t[1..])
  {
    if Occurs(sub, t) {
      var i :| OccursAt(sub, t, i);
      assert i != 0;
      OccursAtTail(sub, t, i);
    }
    if Occurs(sub, t[1..]) {
      var i :| OccursAt(sub, t[1..], i);
      OccursAtFromTail(sub, t, i);
    }
  }

  /** `str::contains` for a string pattern. */
  function Contains(t: string, sub: string): (r: bool)
    ensures r <==> Occurs(sub, t)
    decreases |t|
  {
    if |t| < |sub| then
      assert forall i :: !OccursAt(sub, t, i);
      false
    else if t[..|sub|] == sub then
      assert OccursAt(sub, t, 0);
      true
    else
      OccursShift(sub, t);
      Contains(t[1..], sub)
  }

  /**
   * The parameters shared by every module of one invocation. `host` (the
   * compile-time `CURRENT_PLATFORM`) is passed where the source reads it.
   */
  datatype Context = Context(root: Path, target: Option<string>, release: bool, allFeatures: bool, features: seq<string>)
  {
    /** `Context::target`: the explicit triple, else the host's. */
    function Target(host: string): (r: string)
      ensures target.Some? ==> r == target.value
      ensures target.None? ==> r == host
    {
      match target
      case Some(t) => t
      case None => host
    }

    /** `.dylib` for Apple triples, else `.dll` for Windows ones, else `.so`. */
    function GetDynlibExtension(host: string): (r: string)
      ensures r == ".dylib" <==> Occurs("apple", Target(host))
      ensures r == ".dll" <==> !Occurs("apple", Target(host)) && Occurs("windows", Target(host))
      ensures r == ".so" <==> !Occurs("apple", Target(host)) && !Occurs("windows", Target(host))
    {
      if Contains(Target(host), "apple") then ".dylib"
      else if Contains(Target(host), "windows") then ".dll"
      else ".so"
    }

    /** `.lib` exactly for Windows triples, else `.a`. */
    function GetStaticlibExtension(host: string): (r: string)
      ensures r == ".lib" <==> Occurs("windows", Target(host))
      ensures r == ".a" <==> !Occurs("windows", Target(host))
    {
      if Contains(Target(host), "windows") then ".lib" else ".a"
    }

    /** `.exe` exactly for Windows triples, else nothing. */
    function GetExeExtension(host: string): (r: string)
      ensures r == ".exe" <==> Occurs("windows", Target(host))
      ensures r == "" <==> !Occurs("windows", Target(host))
    {
      if Contains(Target(host), "windows") then ".exe" else ""
    }
  }

  /** An Apple triple that also names Windows gets `.dylib`: the Apple test comes first. */
  lemma AppleCheckedFirst(ctx: Context, host: string)
    requires Occurs("apple", ctx.Target(host)) && Occurs("windows", ctx.Target(host))
    ensures ctx.GetDynlibExtension(host) == ".dylib"
    ensures ctx.GetStaticlibExtension(host) == ".lib" && ctx.GetExeExtension(host) == ".exe"
  {
  }

  /** The steps a builder's lifecycle consists of, in the order the orchestrator runs them. */
  datatype Step = Configure | Compile | ListOutputs
}
