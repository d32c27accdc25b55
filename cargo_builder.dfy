/**
 * The native (Cargo) backend of bp3d-make. Loading a manifest is an oracle
 * `load` from a file path to a manifest or a parse error, and running
 * `cargo` is an oracle `run` from a command to an exit status or a spawn error.
 */
module CargoBuilder {
  import opened Wrappers
  import opened Paths
  import CommonOutput
  import opened CargoManifest
  import opened BuilderInterface
  import BuilderUtil
  import MakeOutputList
  import opened Process

  /** `simple_error!` of cargo.rs: an I/O error or a manifest error. */
  datatype Error = Io(ioMessage: string) | Cargo(cargoMessage: string)

  /** The configured builder: the manifests, in the order `list_outputs` visits them. */
  datatype CargoState = CargoState(manifests: seq<Manifest>)

  /** `dir.join("Cargo.toml")`. */
  function ManifestPath(dir: Path): Path { Join(dir, "Cargo.toml") }

  /** The path of a workspace member's manifest. */
  function MemberManifestPath(modulePath: Path, member: Path): Path
  {
    ManifestPath(JoinPath(modulePath, member))
  }

  /** Reference definition: load every member in order; the first failure wins. */
  function LoadMembers(load: Path -> Result<Manifest, string>, modulePath: Path, members: seq<Path>): Result<seq<Manifest>, Error>
    decreases |members|
  {
    if |members| == 0 then Ok([])
    else
      match load(MemberManifestPath(modulePath, members[0]))
      case Err(e) => Err(Cargo(e))
      case Ok(m) =>
        match LoadMembers(load, modulePath, members[1..])
        case Err(e) => Err(e)
        case Ok(ms) => Ok([m] + ms)
  }

  /** Reference definition of `do_configure`: members first, the root manifest last. */
  function ConfigureSpec(load: Path -> Result<Manifest, string>, member: Module): Result<CargoState, Error>
  {
    match load(ManifestPath(member.path))
    case Err(e) => Err(Cargo(e))
    case Ok(root) =>
      var members := if root.workspace.Some? then root.workspace.value else [];
      match LoadMembers(load, member.path, members)
      case Err(e) => Err(e)
      case Ok(ms) => Ok(CargoState(ms + [root]))
  }

  /** Loading a prefix of the members and then one more member. */
  lemma {:induction false} LoadMembersSnoc(load: Path -> Result<Manifest, string>, modulePath: Path, members: seq<Path>, i: nat)
    requires i < |members|
    requires LoadMembers(load, modulePath, members[..i]).Ok?
    ensures LoadMembers(load, modulePath, members[..i + 1]) ==
              match load(MemberManifestPath(modulePath, members[i]))
              case Err(e) => Err(Cargo(e))
              case Ok(m) => Ok(LoadMembers(load, modulePath, members[..i]).value + [m])
  {
    if i > 0 {
      assert members[..i][1..] == members[1..][..i - 1];
      assert members[..i + 1][1..] == members[1..][..i];
      assert members[..i][0] == members[0] == members[..i + 1][0];
      assert members[1..][i - 1] == members[i];
      LoadMembersSnoc(load, modulePath, members[1..], i - 1);
      var m0 := load(MemberManifestPath(modulePath, members[0])).value;
      var x := LoadMembers(load, modulePath, members[1..][..i - 1]).value;
      assert LoadMembers(load, modulePath, members[..i]).value == [m0] + x;
      match load(MemberManifestPath(modulePath, members[i]))
      case Err(e) =>
      case Ok(m) =>
        assert [m0] + (x + [m]) == ([m0] + x) + [m];
    } else {
      assert members[..1][1..] == [];
      assert members[..1][0] == members[0];
      assert LoadMembers(load, modulePath, members[..1][1..]) == Ok([]);
      match load(MemberManifestPath(modulePath, members[0]))
      case Err(e) =>
      case Ok(m) =>
        assert [m] + [] == [] + [m];
    }
  }

  /** `Cargo::do_configure`. */
  method DoConfigure(load: Path -> Result<Manifest, string>, member: Module) returns (r: Result<CargoState, Error>)
    ensures r == ConfigureSpec(load, member)
  {
    var rootResult := load(ManifestPath(member.path));
    if rootResult.Err? {
      return Err(Cargo(rootResult.error));
    }
    var root := rootResult.value;
    var manifests: seq<Manifest> := [];
    if root.workspace.Some? {
      var members := root.workspace.value;
      var i := 0;
      while i < |members|
        invariant 0 <= i <= |members|
        invariant LoadMembers(load, member.path, members[..i]) == Ok(manifests)
      {
        LoadMembersSnoc(load, member.path, members, i);
        var m := load(MemberManifestPath(member.path, members[i]));
        if m.Err? {
          FailureSticks(load, member.path, members, i + 1);
          return Err(Cargo(m.error));
        }
        manifests := manifests + [m.value];
        i := i + 1;
      }
      assert members[..i] == members;
    }
    manifests := manifests + [root];
    r := Ok(CargoState(manifests));
  }

  /** Once a prefix fails to load, the whole list fails with the same error. */
  lemma {:induction false} FailureSticks(load: Path -> Result<Manifest, string>, modulePath: Path, members: seq<Path>, i: nat)
    requires i <= |members|
    requires LoadMembers(load, modulePath, members[..i]).Err?
    ensures LoadMembers(load, modulePath, members) == LoadMembers(load, modulePath, members[..i])
  {
    if i > 0 {
      assert members[..i][1..] == members[1..][..i - 1];
      if load(MemberManifestPath(modulePath, members[0])).Ok? {
        FailureSticks(load, modulePath, members[1..], i - 1);
      }
    }
  }

  /** A successful load yields the members' manifests in member order. */
  lemma {:induction false} LoadMembersOk(load: Path -> Result<Manifest, string>, modulePath: Path, members: seq<Path>)
    ensures LoadMembers(load, modulePath, members).Ok? <==>
              forall i :: 0 <= i < |members| ==> load(MemberManifestPath(modulePath, members[i])).Ok?
    ensures LoadMembers(load, modulePath, members).Ok? ==>
              var ms := LoadMembers(load, modulePath, members).value;
              |ms| == |members| &&
              forall i :: 0 <= i < |members| ==> load(MemberManifestPath(modulePath, members[i])) == Ok(ms[i])
  {
    if |members| > 0 {
      LoadMembersOk(load, modulePath, members[1..]);
      assert forall i :: 1 <= i < |members| ==> members[i] == members[1..][i - 1];
    }
  }

  /** A failed load reports the error of the first member that failed. */
  lemma {:induction false} LoadMembersFirstError(load: Path -> Result<Manifest, string>, modulePath: Path, members: seq<Path>, k: nat)
    requires k < |members|
    requires load(MemberManifestPath(modulePath, members[k])).Err?
    requires forall i :: 0 <= i < k ==> load(MemberManifestPath(modulePath, members[i])).Ok?
    ensures LoadMembers(load, modulePath, members) == Err(Cargo(load(MemberManifestPath(modulePath, members[k])).error))
  {
    if k > 0 {
      assert forall i :: 0 <= i < k - 1 ==> members[1..][i] == members[i + 1];
      LoadMembersFirstError(load, modulePath, members[1..], k - 1);
    }
  }

  /** Configuration order: every workspace member in order, then the root manifest. */
  lemma ConfigureOrder(load: Path -> Result<Manifest, string>, member: Module)
    requires ConfigureSpec(load, member).Ok?
    ensures var root := load(ManifestPath(member.path)).value;
            var members := if root.workspace.Some? then root.workspace.value else [];
            var ms := ConfigureSpec(load, member).value.manifests;
            |ms| == |members| + 1 && ms[|members|] == root &&
            forall i :: 0 <= i < |members| ==> load(MemberManifestPath(member.path, members[i])) == Ok(ms[i])
  {
    var root := load(ManifestPath(member.path)).value;
    var members := if root.workspace.Some? then root.workspace.value else [];
    LoadMembersOk(load, member.path, members);
  }

  /** Configuration fails exactly when the root or some member manifest fails to load. */
  lemma ConfigureFails(load: Path -> Result<Manifest, string>, member: Module)
    ensures var rootR := load(ManifestPath(member.path));
            ConfigureSpec(load, member).Err? <==>
              (rootR.Err? ||
               (rootR.value.workspace.Some? &&
                exists i :: 0 <= i < |rootR.value.workspace.value| &&
                            load(MemberManifestPath(member.path, rootR.value.workspace.value[i])).Err?))
    ensures load(ManifestPath(member.path)).Err? ==>
              ConfigureSpec(load, member) == Err(Cargo(load(ManifestPath(member.path)).error))
  {
    var rootR := load(ManifestPath(member.path));
    if rootR.Ok? {
      var members := if rootR.value.workspace.Some? then rootR.value.workspace.value else [];
      LoadMembersOk(load, member.path, members);
    }
  }

  /** `member.path/target[/<triple>]/<release|debug>`. */
  function TargetPath(modulePath: Path, ctx: Context): (r: Path)
    ensures |r| == |modulePath| + (if ctx.target.Some? then 3 else 2)
    ensures r[..|modulePath|] == modulePath && r[|modulePath|] == "target"
    ensures ctx.target.Some? ==> r[|modulePath| + 1] == ctx.target.value
    ensures r[|r| - 1] == if ctx.release then "release" else "debug"
  {
    Join(BuilderUtil.JoinOption(Join(modulePath, "target"), ctx.target), if ctx.release then "release" else "debug")
  }

  /** The free `list_outputs`: one target path and the manifest's declared outputs. */
  method ListManifestOutputs(m: Manifest, ctx: Context, member: Module, outputs: MakeOutputList.OutputList)
    modifies outputs
    ensures outputs.paths == old(outputs.paths) + [TargetPath(member.path, ctx)]
    ensures outputs.outputs == old(outputs.outputs) + DeclaredOutputs(m)
  {
    outputs.AddTargetPath(TargetPath(member.path, ctx));
    var i := 0;
    while i < |m.bin|
      invariant 0 <= i <= |m.bin|
      invariant outputs.paths == old(outputs.paths) + [TargetPath(member.path, ctx)]
      invariant outputs.outputs == old(outputs.outputs) + BinOutputs(m)[..i]
    {
      outputs.AddBin(ProductName(m.bin[i], m));
      assert BinOutputs(m)[..i + 1] == BinOutputs(m)[..i] + [CommonOutput.Bin(ProductName(m.bin[i], m))];
      i := i + 1;
    }
    assert BinOutputs(m)[..i] == BinOutputs(m);
    if m.lib.Some? {
      outputs.AddLib(ProductName(m.lib.value, m));
    }
  }

  /** Reference definition: the per-manifest outputs concatenated in manifest order. */
  function AllOutputs(ms: seq<Manifest>): seq<CommonOutput.Output>
  {
    if |ms| == 0 then [] else AllOutputs(ms[..|ms| - 1]) + DeclaredOutputs(ms[|ms| - 1])
  }

  /** `Builder::list_outputs` for Cargo: every manifest in stored order into a fresh list. */
  method ListOutputs(state: CargoState, ctx: Context, member: Module) returns (outputs: MakeOutputList.OutputList)
    ensures fresh(outputs)
    ensures outputs.outputs == AllOutputs(state.manifests)
    ensures outputs.paths == seq(|state.manifests|, _ => TargetPath(member.path, ctx))
  {
    outputs := new MakeOutputList.OutputList();
    var i := 0;
    while i < |state.manifests|
      invariant 0 <= i <= |state.manifests|
      invariant outputs.outputs == AllOutputs(state.manifests[..i])
      invariant outputs.paths == seq(i, _ => TargetPath(member.path, ctx))
    {
      ListManifestOutputs(state.manifests[i], ctx, member, outputs);
      assert state.manifests[..i + 1][..i] == state.manifests[..i];
      i := i + 1;
    }
    assert state.manifests[..i] == state.manifests;
  }

  /** A two-member workspace, `A` with binary `a` and `B` with library `b`, reports `Bin("a")` then `Lib("b")`. */
  lemma TwoPackageWorkspace(a: Manifest, b: Manifest, root: Manifest)
    requires a.bin == [Product(Some("a"))] && a.lib.None?
    requires b.bin == [] && b.lib == Some(Product(Some("b")))
    requires root.bin == [] && root.lib.None?
    ensures AllOutputs([a, b, root]) == [CommonOutput.Bin("a"), CommonOutput.Lib("b")]
  {
    assert BinOutputs(a) == [CommonOutput.Bin("a")];
    assert DeclaredOutputs(a) == [CommonOutput.Bin("a")];
    assert DeclaredOutputs(b) == [CommonOutput.Lib("b")];
    assert DeclaredOutputs(root) == [];
    assert [a, b, root][..2] == [a, b];
    assert [a, b][..1] == [a];
    assert [a][..0] == [];
    assert AllOutputs([a]) == [CommonOutput.Bin("a")];
    assert AllOutputs([a, b]) == [CommonOutput.Bin("a"), CommonOutput.Lib("b")];
  }

  /** The argument vector of `cargo build` derived from the context. */
  function CompileArgs(ctx: Context): (r: seq<string>)
    ensures |r| > 0 && r[0] == "build"
  {
    ["build"]
      + (if ctx.release then ["--release"] else [])
      + (if ctx.allFeatures then ["--all-features"]
         else if |ctx.features| > 0 then ["--features"] + ctx.features
         else [])
      + (if ctx.target.Some? then ["--target", ctx.target.value] else [])
  }

  /** A Cargo feature name: non-empty and not starting with a dash, so never mistaken for a flag. */
  predicate ValidFeature(f: string) { |f| > 0 && f[0] != '-' }

  /** What an argument vector asks cargo for. */
  datatype CompileFlags = CompileFlags(release: bool, allFeatures: bool, features: seq<string>, target: Option<string>)

  /** What a command line built from `ctx` requests: the explicit features are dropped under `--all-features`. */
  function Requested(ctx: Context): CompileFlags
  {
    CompileFlags(ctx.release, ctx.allFeatures, if ctx.allFeatures then [] else ctx.features, ctx.target)
  }

  /** Splits a trailing `--target <t>` off an argument list. */
  function SplitTarget(rest: seq<string>): (seq<string>, Option<string>)
  {
    if |rest| >= 2 && rest[|rest| - 2] == "--target" then (rest[..|rest| - 2], Some(rest[|rest| - 1]))
    else (rest, None)
  }

  /** Reads the feature flags: nothing, `--all-features`, or `--features` and valid names. */
  function ParseFeatures(flags: seq<string>): Option<(bool, seq<string>)>
  {
    if flags == [] then Some((false, []))
    else if flags == ["--all-features"] then Some((true, []))
    else if flags[0] == "--features" && |flags| > 1 && forall i :: 1 <= i < |flags| ==> ValidFeature(flags[i]) then
      Some((false, flags[1..]))
    else None
  }

  /** Reads a `cargo build` argument vector back; the inverse of `CompileArgs`. */
  function ParseCompileArgs(args: seq<string>): Option<CompileFlags>
  {
    if |args| == 0 || args[0] != "build" then None
    else
      var (body, target) := SplitTarget(args[1..]);
      var release := |body| > 0 && body[0] == "--release";
      match ParseFeatures(if release then body[1..] else body)
      case None => None
      case Some((all, features)) => Some(CompileFlags(release, all, features, target))
  }

  /** The release and feature part of the command line. */
  function FlagArgs(ctx: Context): seq<string>
  {
    (if ctx.release then ["--release"] else [])
      + (if ctx.allFeatures then ["--all-features"]
         else if |ctx.features| > 0 then ["--features"] + ctx.features
         else [])
  }

  lemma FlagArgsNoTarget(ctx: Context)
    requires forall i :: 0 <= i < |ctx.features| ==> ValidFeature(ctx.features[i])
    ensures var f := FlagArgs(ctx); |f| >= 2 ==> f[|f| - 2] != "--target"
  {
    var f := FlagArgs(ctx);
    if |f| >= 2 && !ctx.allFeatures && |ctx.features| > 0 {
      var k := |f| - 2;
      if ctx.release {
        if k >= 2 { assert f[k] == ctx.features[k - 2]; }
      } else {
        if k >= 1 { assert f[k] == ctx.features[k - 1]; }
      }
    }
  }

  lemma SplitTargetOf(ctx: Context)
    requires forall i :: 0 <= i < |ctx.features| ==> ValidFeature(ctx.features[i])
    ensures SplitTarget(CompileArgs(ctx)[1..]) == (FlagArgs(ctx), ctx.target)
  {
    var targetPart: seq<string> := if ctx.target.Some? then ["--target", ctx.target.value] else [];
    assert CompileArgs(ctx) == ["build"] + FlagArgs(ctx) + targetPart;
    var rest := CompileArgs(ctx)[1..];
    assert rest == FlagArgs(ctx) + targetPart;
    if ctx.target.Some? {
      assert rest[..|rest| - 2] == FlagArgs(ctx);
    } else {
      assert rest == FlagArgs(ctx);
      FlagArgsNoTarget(ctx);
    }
  }

  lemma ParseFeaturesOf(ctx: Context)
    requires forall i :: 0 <= i < |ctx.features| ==> ValidFeature(ctx.features[i])
    ensures var flags := if ctx.allFeatures then ["--all-features"]
                         else if |ctx.features| > 0 then ["--features"] + ctx.features
                         else [];
            ParseFeatures(flags) == Some((ctx.allFeatures, if ctx.allFeatures then [] else ctx.features))
  {
    if !ctx.allFeatures && |ctx.features| > 0 {
      var flags := ["--features"] + ctx.features;
      assert flags[1..] == ctx.features;
      assert flags != ["--all-features"];
      forall i | 1 <= i < |flags| ensures ValidFeature(flags[i]) {
        assert flags[i] == ctx.features[i - 1];
      }
    }
  }

  /** Round trip: parsing the command line gives back exactly what the context requests. */
  lemma CompileArgsRoundTrip(ctx: Context)
    requires forall i :: 0 <= i < |ctx.features| ==> ValidFeature(ctx.features[i])
    ensures ParseCompileArgs(CompileArgs(ctx)) == Some(Requested(ctx))
  {
    SplitTargetOf(ctx);
    ParseFeaturesOf(ctx);
    var body := FlagArgs(ctx);
    var flags: seq<string> := if ctx.allFeatures then ["--all-features"]
                              else if |ctx.features| > 0 then ["--features"] + ctx.features
                              else [];
    if ctx.release {
      assert body[1..] == flags;
    } else {
      assert body == flags;
      assert |body| > 0 ==> body[0] != "--release" by {
        if |body| > 0 && !ctx.allFeatures { assert body[0] == "--features"; }
      }
    }
  }

  /** Builds the `cargo build` command by successive `arg` calls. */
  method CompileCommand(ctx: Context, member: Module) returns (cmd: Command)
    ensures cmd == Command("cargo", CompileArgs(ctx), member.path)
  {
    var args := ["build"];
    if ctx.release {
      args := args + ["--release"];
    }
    if ctx.allFeatures {
      args := args + ["--all-features"];
    } else if |ctx.features| > 0 {
      args := args + ["--features"] + ctx.features;
    }
    if ctx.target.Some? {
      args := args + ["--target"] + [ctx.target.value];
    }
    cmd := Command("cargo", args, member.path);
  }

  /** `do_compile`: `Ok` whatever the exit status; only a spawn failure is an `Io` error. */
  method DoCompile(ctx: Context, member: Module, run: Runner) returns (r: Result<(), Error>)
    ensures var status := run(Command("cargo", CompileArgs(ctx), member.path));
            (r.Ok? <==> status.Ok?) && (status.Err? ==> r == Err(Io(status.error)))
  {
    var cmd := CompileCommand(ctx, member);
    var status := run(cmd);
    if status.Err? {
      return Err(Io(status.error));
    }
    r := Ok(());
  }
}
