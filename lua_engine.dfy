/**
 * The scripting bridge of bp3d-make: a Lua interpreter seen only through its
 * table of globals. The interpreter itself (reading and running a script,
 * calling a Lua function) is an oracle handed in by the caller.
 */
module LuaEngine {
  import opened Wrappers
  import opened Paths

  /** The Lua values the bridge writes or reads. */
  datatype Value =
    | Nil
    | Bool(flag: bool)
    | Str(text: string)
    | StrList(items: seq<string>)
    | Table(fields: map<string, Value>)
    | HostFunction(hostName: string)
    | ScriptFunction(id: nat)
  {
    /** What `Function::from_lua` accepts. */
    predicate IsFunction() { HostFunction? || ScriptFunction? }
  }

  type Globals = map<string, Value>

  /** Running a function value against the globals: the globals afterwards, and the outcome. */
  type Interpreter = (Value, Globals) -> (Globals, Result<(), string>)

  /** Reading a script file and executing its chunk: the globals afterwards, and the outcome. */
  type ScriptLoader = (Path, Globals) -> (Globals, Result<(), string>)

  const TargetKey := "BP3D_MAKE_TARGET"
  const ReleaseKey := "BP3D_MAKE_RELEASE"
  const FeatureAllKey := "BP3D_MAKE_FEATURE_ALL"
  const FeaturesKey := "BP3D_MAKE_FEATURES"
  const FeaturePrefix := "BP3D_MAKE_FEATURE_"

  /** The name and functions of the `command` library installed by `new`. */
  const CommandLibName := "command"
  const CommandLib: map<string, Value> := map["run" := HostFunction("run"), "output" := HostFunction("output")]

  /** ASCII upper-casing of one character. */
  function UpperChar(c: char): (r: char)
    ensures 'a' <= c <= 'z' ==> r as int == c as int - 32
    ensures !('a' <= c <= 'z') ==> r == c
  {
    if 'a' <= c <= 'z' then (c as int - 32) as char else c
  }

  /** `str::to_uppercase`, restricted to ASCII letters. */
  function Upper(s: string): (r: string)
    ensures |r| == |s| && forall i :: 0 <= i < |s| ==> r[i] == UpperChar(s[i])
  {
    seq(|s|, i requires 0 <= i < |s| => UpperChar(s[i]))
  }

  /** The global that flags one enabled feature. */
  function FeatureKey(feature: string): (r: string)
    ensures |r| == |FeaturePrefix| + |feature| && r[..|FeaturePrefix|] == FeaturePrefix
    ensures r[|FeaturePrefix|..] == Upper(feature)
  {
    FeaturePrefix + Upper(feature)
  }

  /** The globals after the loop of `set_features` has flagged every feature of `fs`, in order. */
  function MarkFeatures(g: Globals, fs: seq<string>): Globals
  {
    if |fs| == 0 then g
    else MarkFeatures(g, fs[..|fs| - 1])[FeatureKey(fs[|fs| - 1]) := Bool(true)]
  }

  /** The globals after `set_features(fs)`: every feature flagged, then the list itself stored. */
  function WithFeatures(g: Globals, fs: seq<string>): Globals
  {
    MarkFeatures(g, fs)[FeaturesKey := StrList(fs)]
  }

  /** The globals after `set_all_features(b)`. */
  function WithAllFeatures(g: Globals, b: bool): Globals
  {
    if b then g[FeatureAllKey := Bool(b)][FeaturesKey := StrList(["all"])]
    else g[FeatureAllKey := Bool(b)]
  }

  /** `set_all_features`: the flag is always written; the list only when the flag is on. */
  lemma AllFeaturesEffect(g: Globals, b: bool)
    ensures FeatureAllKey in WithAllFeatures(g, b) && WithAllFeatures(g, b)[FeatureAllKey] == Bool(b)
    ensures b ==> WithAllFeatures(g, b)[FeaturesKey] == StrList(["all"])
    ensures !b ==> (FeaturesKey in WithAllFeatures(g, b) <==> FeaturesKey in g)
    ensures !b && FeaturesKey in g ==> WithAllFeatures(g, b)[FeaturesKey] == g[FeaturesKey]
    ensures forall k :: k != FeatureAllKey && k != FeaturesKey ==>
              (k in WithAllFeatures(g, b) <==> k in g) &&
              (k in g ==> WithAllFeatures(g, b)[k] == g[k])
  {
  }

  /** Every feature of the list ends up flagged `true`. */
  lemma {:induction false} FeaturesMarked(g: Globals, fs: seq<string>)
    ensures forall i :: 0 <= i < |fs| ==>
              FeatureKey(fs[i]) in MarkFeatures(g, fs) && MarkFeatures(g, fs)[FeatureKey(fs[i])] == Bool(true)
  {
    if |fs| > 0 {
      var init := fs[..|fs| - 1];
      FeaturesMarked(g, init);
      forall i | 0 <= i < |fs|
        ensures FeatureKey(fs[i]) in MarkFeatures(g, fs) && MarkFeatures(g, fs)[FeatureKey(fs[i])] == Bool(true)
      {
        if i < |fs| - 1 {
          assert fs[i] == init[i];
        }
      }
    }
  }

  /** A global that is not the flag of a listed feature is left exactly as it was. */
  lemma {:induction false} OnlyFeatureKeysChange(g: Globals, fs: seq<string>, k: string)
    requires forall f :: f in fs ==> FeatureKey(f) != k
    ensures k in MarkFeatures(g, fs) <==> k in g
    ensures k in g ==> MarkFeatures(g, fs)[k] == g[k]
  {
    if |fs| > 0 {
      var init := fs[..|fs| - 1];
      assert fs[|fs| - 1] in fs;
      forall f | f in init ensures FeatureKey(f) != k {
        assert f in fs;
      }
      OnlyFeatureKeysChange(g, init, k);
    }
  }

  /** `set_features` never writes `false`: a false global afterwards was already false before. */
  lemma {:induction false} FeaturesNeverFalse(g: Globals, fs: seq<string>, k: string)
    requires k in MarkFeatures(g, fs) && MarkFeatures(g, fs)[k] == Bool(false)
    ensures k in g && g[k] == Bool(false)
  {
    if |fs| > 0 {
      var init := fs[..|fs| - 1];
      assert k != FeatureKey(fs[|fs| - 1]);
      FeaturesNeverFalse(g, init, k);
    }
  }

  /** `set_features` stores the list in input order, the empty list included. */
  lemma FeatureListStored(g: Globals, fs: seq<string>)
    ensures FeaturesKey in WithFeatures(g, fs) && WithFeatures(g, fs)[FeaturesKey] == StrList(fs)
    ensures fs == [] ==> WithFeatures(g, fs) == g[FeaturesKey := StrList([])]
  {
  }

  /** The interpreter state of one builder: its table of globals. */
  class Engine {
    var globals: Globals

    /** `LuaEngine::new`: a fresh interpreter with the `command` library installed. */
    constructor ()
      ensures globals == map[CommandLibName := Table(CommandLib)]
    {
      globals := map[];
      new;
      LoadLib(CommandLibName, CommandLib);
    }

    /** `load_lib`: store the library's table under its name. */
    method LoadLib(name: string, table: map<string, Value>)
      modifies this
      ensures globals == old(globals)[name := Table(table)]
    {
      globals := globals[name := Table(table)];
    }

    method SetTarget(target: string)
      modifies this
      ensures globals == old(globals)[TargetKey := Str(target)]
    {
      globals := globals[TargetKey := Str(target)];
    }

    method SetRelease(release: bool)
      modifies this
      ensures globals == old(globals)[ReleaseKey := Bool(release)]
    {
      globals := globals[ReleaseKey := Bool(release)];
    }

    method SetAllFeatures(allFeatures: bool)
      modifies this
      ensures globals == WithAllFeatures(old(globals), allFeatures)
    {
      globals := globals[FeatureAllKey := Bool(allFeatures)];
      if allFeatures {
        globals := globals[FeaturesKey := StrList(["all"])];
      }
    }

    /** `set_features`: flag each feature while collecting the list, then store the list. */
    method SetFeatures(features: seq<string>)
      modifies this
      ensures globals == WithFeatures(old(globals), features)
    {
      var collected: seq<string> := [];
      var i := 0;
      while i < |features|
        invariant 0 <= i <= |features|
        invariant collected == features[..i]
        invariant globals == MarkFeatures(old(globals), features[..i])
      {
        var feature := features[i];
        collected := collected + [feature];
        globals := globals[FeatureKey(feature) := Bool(true)];
        i := i + 1;
        assert features[..i][..i - 1] == features[..i - 1];
      }
      assert features[..i] == features;
      globals := globals[FeaturesKey := StrList(collected)];
    }

    /** `load_script`: read the file and run it; the loader decides the outcome. */
    method LoadScript(path: Path, loader: ScriptLoader) returns (r: Result<(), string>)
      modifies this
      ensures (globals, r) == loader(path, old(globals))
    {
      var (g, outcome) := loader(path, globals);
      globals := g;
      r := outcome;
    }

    /** `call`: fails unless the global `name` holds a function; otherwise runs it. */
    method Call(name: string, interp: Interpreter) returns (r: Result<(), string>)
      modifies this
      ensures !CallsFunction(old(globals), name) ==> r == Err(NotCallable(name)) && globals == old(globals)
      ensures CallsFunction(old(globals), name) ==> (globals, r) == interp(old(globals)[name], old(globals))
    {
      var v := if name in globals then globals[name] else Nil;
      if !v.IsFunction() {
        return Err(NotCallable(name));
      }
      var (g, outcome) := interp(v, globals);
      globals := g;
      r := outcome;
    }
  }

  /** Whether `call(name)` reaches the interpreter: the global exists and is a function. */
  predicate CallsFunction(g: Globals, name: string)
  {
    name in g && g[name].IsFunction()
  }

  /**
   * The conversion error `call` reports for a global that is not a function.
   * The text stands in for mlua's conversion error, whose wording is not
   * modelled; what counts is that it names the global.
   */
  function NotCallable(name: string): string
  {
    "error converting Lua value to function: " + name
  }
}
