/**
 * The Lua builder of bp3d-make: choosing the module script, preparing the
 * interpreter's globals from the build context, and running the script's
 * `doConfigure` and `doCompile` entry points.
 */
module LuaBuilder {
  import opened Wrappers
  import opened Paths
  import opened LuaEngine
  import BuilderInterface

  const ScriptFileName := "bp3d-make.lua"

  /** The index of the last `.` in `s`, if any. */
  function LastDot(s: string): (r: Option<nat>)
    ensures r.Some? ==> r.value < |s| && s[r.value] == '.' && forall j :: r.value < j < |s| ==> s[j] != '.'
    ensures r.None? ==> forall j :: 0 <= j < |s| ==> s[j] != '.'
  {
    if |s| == 0 then None
    else if s[|s| - 1] == '.' then Some(|s| - 1)
    else LastDot(s[..|s| - 1])
  }

  /**
   * The extension of a file name, as `Path::extension` splits it: the text
   * after the last dot, except for `..` and for a name whose only dot leads it.
   */
  function FileExtension(name: string): (r: Option<string>)
    ensures r.Some? <==> name != ".." && LastDot(name).Some? && LastDot(name).value > 0
    ensures r.Some? ==> r.value == name[LastDot(name).value + 1..]
  {
    if name == ".." then None
    else match LastDot(name)
      case None => None
      case Some(i) => if i == 0 then None else Some(name[i + 1..])
  }

  /** `Path::extension`: the extension of the last component, if there is one. */
  function Extension(p: Path): (r: Option<string>)
    ensures |p| == 0 ==> r.None?
    ensures |p| > 0 ==> r == FileExtension(p[|p| - 1])
  {
    if |p| == 0 then None else FileExtension(p[|p| - 1])
  }

  /** ASCII lower-casing of one character. */
  function LowerChar(c: char): (r: char)
    ensures 'A' <= c <= 'Z' ==> r as int == c as int + 32
    ensures !('A' <= c <= 'Z') ==> r == c
  {
    if 'A' <= c <= 'Z' then (c as int + 32) as char else c
  }

  /** `str::to_lowercase`, restricted to ASCII letters. */
  function Lower(s: string): (r: string)
    ensures |r| == |s| && forall i :: 0 <= i < |s| ==> r[i] == LowerChar(s[i])
  {
    seq(|s|, i requires 0 <= i < |s| => LowerChar(s[i]))
  }

  /** The module path names a script itself: its extension, lower-cased, is `lua`. */
  predicate IsLuaScript(p: Path)
    ensures IsLuaScript(p) ==> |p| > 0 && Extension(p).Some? && |Extension(p).value| == 3
  {
    Extension(p).Some? && Lower(Extension(p).value) == "lua"
  }

  /** The script `do_configure` loads for a module path. */
  function ScriptPath(modulePath: Path): (r: Path)
    ensures |r| >= |modulePath| && r[..|modulePath|] == modulePath
    ensures r == modulePath <==> IsLuaScript(modulePath)
    ensures r != modulePath ==> r == modulePath + [ScriptFileName]
  {
    if IsLuaScript(modulePath) then modulePath else Join(modulePath, ScriptFileName)
  }

  /** The last dot of `stem.ext` is the one before `ext` when `ext` has none. */
  lemma {:induction false} LastDotBeforeExtension(stem: string, ext: string)
    requires forall j :: 0 <= j < |ext| ==> ext[j] != '.'
    ensures LastDot(stem + "." + ext) == Some(|stem|)
  {
    var s := stem + "." + ext;
    if |ext| > 0 {
      var shorter := ext[..|ext| - 1];
      assert s[..|s| - 1] == stem + "." + shorter;
      assert s[|s| - 1] == ext[|ext| - 1];
      LastDotBeforeExtension(stem, shorter);
    } else {
      assert s[|s| - 1] == '.';
    }
  }

  /** `Path::extension` of `stem.ext`: `ext` for a non-empty stem, nothing for a hidden file. */
  lemma FileExtensionOf(stem: string, ext: string)
    requires forall j :: 0 <= j < |ext| ==> ext[j] != '.'
    ensures |stem| > 0 && stem + "." + ext != ".." ==> FileExtension(stem + "." + ext) == Some(ext)
    ensures |stem| == 0 ==> FileExtension(stem + "." + ext) == None
  {
    var s := stem + "." + ext;
    LastDotBeforeExtension(stem, ext);
    assert s[|stem| + 1..] == ext;
  }

  lemma ScriptFileNameIsLua()
    ensures FileExtension(ScriptFileName) == Some("lua")
  {
    assert ScriptFileName == "bp3d-make" + "." + "lua";
    FileExtensionOf("bp3d-make", "lua");
  }

  /**
   * The chosen script always has the `lua` extension; a path that already
   * has it is used as is, and any other path gets `bp3d-make.lua` joined on.
   */
  lemma ScriptPathChoice(modulePath: Path)
    ensures IsLuaScript(ScriptPath(modulePath))
    ensures IsLuaScript(modulePath) ==> ScriptPath(modulePath) == modulePath
    ensures !IsLuaScript(modulePath) ==>
              |ScriptPath(modulePath)| == |modulePath| + 1 &&
              ScriptPath(modulePath)[..|modulePath|] == modulePath &&
              ScriptPath(modulePath)[|modulePath|] == ScriptFileName
    ensures ScriptPath(ScriptPath(modulePath)) == ScriptPath(modulePath)
  {
    ScriptFileNameIsLua();
    assert Lower("lua") == "lua";
  }

  /** A hidden file named `.lua` has no extension, so it is treated as a directory. */
  lemma HiddenLuaFileIsDirectory(dir: Path)
    ensures ScriptPath(dir + [".lua"]) == dir + [".lua", ScriptFileName]
  {
    var p := dir + [".lua"];
    assert p[|p| - 1] == ".lua";
    assert ".lua" == "" + "." + "lua";
    FileExtensionOf("", "lua");
    assert Join(p, ScriptFileName) == dir + [".lua", ScriptFileName];
  }

  /** The extension test ignores case: `BUILD.LUA` is a script. */
  lemma UpperCaseExtensionIsScript(dir: Path)
    ensures ScriptPath(dir + ["BUILD.LUA"]) == dir + ["BUILD.LUA"]
  {
    var name := "BUILD.LUA";
    var p := dir + [name];
    assert p[|p| - 1] == name;
    assert name == "BUILD" + "." + "LUA";
    FileExtensionOf("BUILD", "LUA");
    var low := Lower("LUA");
    assert low[0] == 'l' && low[1] == 'u' && low[2] == 'a';
    assert low == "lua";
  }

  /** The globals of a fresh engine. */
  const FreshGlobals: Globals := map[CommandLibName := Table(CommandLib)]

  /** The globals once `do_configure` has run its setters: features, release, target, all-features. */
  function PreludeGlobals(ctx: BuilderInterface.Context, host: string): Globals
  {
    WithAllFeatures(WithFeatures(FreshGlobals, ctx.features)[ReleaseKey := Bool(ctx.release)][TargetKey := Str(ctx.Target(host))],
                    ctx.allFeatures)
  }

  /**
   * Because all-features is set last, its `["all"]` list replaces the
   * explicit feature list; without it the explicit list, in order, is kept.
   */
  lemma PreludeFeatureList(ctx: BuilderInterface.Context, host: string)
    ensures FeaturesKey in PreludeGlobals(ctx, host)
    ensures ctx.allFeatures ==> PreludeGlobals(ctx, host)[FeaturesKey] == StrList(["all"])
    ensures !ctx.allFeatures ==> PreludeGlobals(ctx, host)[FeaturesKey] == StrList(ctx.features)
  {
  }

  /** The script sees `context.target()`: the host triple when no target was given; and the release flag. */
  lemma PreludeTargetAndRelease(ctx: BuilderInterface.Context, host: string)
    ensures TargetKey in PreludeGlobals(ctx, host) && ReleaseKey in PreludeGlobals(ctx, host)
    ensures ctx.target.None? ==> PreludeGlobals(ctx, host)[TargetKey] == Str(host)
    ensures ctx.target.Some? ==> PreludeGlobals(ctx, host)[TargetKey] == Str(ctx.target.value)
    ensures PreludeGlobals(ctx, host)[ReleaseKey] == Bool(ctx.release)
    ensures PreludeGlobals(ctx, host)[FeatureAllKey] == Bool(ctx.allFeatures)
  {
  }

  /** A feature flag global never coincides with the release, target or feature-list global. */
  lemma FeatureKeyDistinct(f: string)
    ensures FeatureKey(f) != ReleaseKey && FeatureKey(f) != TargetKey && FeatureKey(f) != FeaturesKey
  {
    var k := FeatureKey(f);
    assert k[..|FeaturePrefix|] == FeaturePrefix;
    if |f| == 1 {
      assert k[|FeaturePrefix| - 1] == '_' && FeaturesKey[|FeaturePrefix| - 1] == 'S';
    }
    assert k[10] == 'F' && ReleaseKey[10] == 'R' && TargetKey[10] == 'T';
  }

  /** `FeatureKey(f)` is the all-features flag exactly when `f` upper-cases to `ALL`. */
  lemma FeatureKeyIsAllFlag(f: string)
    ensures FeatureKey(f) == FeatureAllKey <==> Upper(f) == "ALL"
  {
    var k := FeatureKey(f);
    if Upper(f) == "ALL" {
      assert k == FeaturePrefix + "ALL";
    }
    if k == FeatureAllKey {
      assert k[|FeaturePrefix|..] == "ALL";
    }
  }

  /** Every listed feature is flagged `true` for the script, unless its flag is the all-features flag. */
  lemma PreludeFeatureFlags(ctx: BuilderInterface.Context, host: string)
    ensures forall i :: 0 <= i < |ctx.features| && Upper(ctx.features[i]) != "ALL" ==>
              FeatureKey(ctx.features[i]) in PreludeGlobals(ctx, host) &&
              PreludeGlobals(ctx, host)[FeatureKey(ctx.features[i])] == Bool(true)
  {
    FeaturesMarked(FreshGlobals, ctx.features);
    forall i | 0 <= i < |ctx.features| && Upper(ctx.features[i]) != "ALL"
      ensures FeatureKey(ctx.features[i]) in PreludeGlobals(ctx, host) &&
              PreludeGlobals(ctx, host)[FeatureKey(ctx.features[i])] == Bool(true)
    {
      FeatureKeyDistinct(ctx.features[i]);
      FeatureKeyIsAllFlag(ctx.features[i]);
    }
  }

  /**
   * A feature named `all` shares its flag with all-features, which is set
   * afterwards: without all-features the script sees that flag `false`.
   */
  lemma FeatureNamedAllIsCleared(ctx: BuilderInterface.Context, host: string)
    requires "all" in ctx.features && !ctx.allFeatures
    ensures FeatureKey("all") == FeatureAllKey && PreludeGlobals(ctx, host)[FeatureKey("all")] == Bool(false)
  {
    var u := Upper("all");
    assert u[0] == 'A' && u[1] == 'L' && u[2] == 'L';
    assert u == "ALL";
    FeatureKeyIsAllFlag("all");
  }

  /** Reference definition of `do_configure`: the setters, the script, then `doConfigure`. */
  function ConfigureSpec(ctx: BuilderInterface.Context, host: string, modulePath: Path,
                         loader: ScriptLoader, interp: Interpreter): Result<Globals, string>
  {
    var (loaded, loadResult) := loader(ScriptPath(modulePath), PreludeGlobals(ctx, host));
    if loadResult.Err? then Err(loadResult.error)
    else if !CallsFunction(loaded, "doConfigure") then Err(NotCallable("doConfigure"))
    else
      var (configured, callResult) := interp(loaded["doConfigure"], loaded);
      if callResult.Err? then Err(callResult.error) else Ok(configured)
  }

  /** `doConfigure` runs only after the script loaded: a load failure is the result, whatever the interpreter. */
  lemma LoadFailureSkipsConfigure(ctx: BuilderInterface.Context, host: string, modulePath: Path,
                                  loader: ScriptLoader, interp1: Interpreter, interp2: Interpreter)
    requires loader(ScriptPath(modulePath), PreludeGlobals(ctx, host)).1.Err?
    ensures ConfigureSpec(ctx, host, modulePath, loader, interp1) == ConfigureSpec(ctx, host, modulePath, loader, interp2)
    ensures ConfigureSpec(ctx, host, modulePath, loader, interp1) ==
            Err(loader(ScriptPath(modulePath), PreludeGlobals(ctx, host)).1.error)
  {
  }

  /** Configure succeeds exactly when the script loads, defines `doConfigure` as a function, and that call succeeds. */
  lemma ConfigureSucceeds(ctx: BuilderInterface.Context, host: string, modulePath: Path,
                          loader: ScriptLoader, interp: Interpreter)
    ensures ConfigureSpec(ctx, host, modulePath, loader, interp).Ok? <==>
            var loaded := loader(ScriptPath(modulePath), PreludeGlobals(ctx, host));
            loaded.1.Ok? && CallsFunction(loaded.0, "doConfigure") && interp(loaded.0["doConfigure"], loaded.0).1.Ok?
  {
  }

  /** `Lua::do_configure`: build the engine, set its globals, load the module script, call `doConfigure`. */
  method DoConfigure(ctx: BuilderInterface.Context, host: string, target: BuilderInterface.Module,
                     loader: ScriptLoader, interp: Interpreter) returns (r: Result<Engine, string>)
    ensures r.Ok? <==> ConfigureSpec(ctx, host, target.path, loader, interp).Ok?
    ensures r.Ok? ==> fresh(r.value) && r.value.globals == ConfigureSpec(ctx, host, target.path, loader, interp).value
    ensures r.Err? ==> r.error == ConfigureSpec(ctx, host, target.path, loader, interp).error
  {
    var engine := new Engine();
    engine.SetFeatures(ctx.features);
    engine.SetRelease(ctx.release);
    engine.SetTarget(ctx.Target(host));
    engine.SetAllFeatures(ctx.allFeatures);
    assert engine.globals == PreludeGlobals(ctx, host);
    var loaded;
    if IsLuaScript(target.path) {
      loaded := engine.LoadScript(target.path, loader);
    } else {
      loaded := engine.LoadScript(Join(target.path, ScriptFileName), loader);
    }
    if loaded.Err? {
      return Err(loaded.error);
    }
    var called := engine.Call("doConfigure", interp);
    if called.Err? {
      return Err(called.error);
    }
    r := Ok(engine);
  }

  /** `Lua::do_compile`: call the script's `doCompile`, and nothing else. */
  method DoCompile(engine: Engine, interp: Interpreter) returns (r: Result<(), string>)
    modifies engine
    ensures !CallsFunction(old(engine.globals), "doCompile") ==> r == Err(NotCallable("doCompile")) && engine.globals == old(engine.globals)
    ensures CallsFunction(old(engine.globals), "doCompile") ==>
              (engine.globals, r) == interp(old(engine.globals)["doCompile"], old(engine.globals))
  {
    r := engine.Call("doCompile", interp);
  }
}
