/**
 * The packager interface of bp3d-package: build configurations, the
 * per-target output directory, the packaging context, and the hooks a
 * packager provides, with the defaults the interface supplies.
 */
module PackageInterface {
  import opened Wrappers
  import opened Paths
  import opened Process
  import CargoManifest

  datatype Config = Debug | Release

  /** The directory name of a configuration under `target/<triple>`. */
  function ConfigDirName(c: Config): (r: string)
    ensures c == Debug <==> r == "debug"
    ensures c == Release <==> r == "release"
  {
    match c
    case Debug => "debug"
    case Release => "release"
  }

  /** `root.join("target").join(target).join(config_path_name)`. */
  function TargetDir(root: Path, config: Config, target: string): Path
  {
    Join(Join(Join(root, "target"), target), ConfigDirName(config))
  }

  /** The layout of a target directory: `root`, then `target`, the triple and the configuration. */
  lemma TargetDirLayout(root: Path, config: Config, target: string)
    ensures TargetDir(root, config, target) == root + ["target", target, ConfigDirName(config)]
    ensures |TargetDir(root, config, target)| == |root| + 3
    ensures TargetDir(root, config, target)[..|root|] == root
  {
  }

  /** Different triples or configurations under one root never share a directory. */
  lemma TargetDirInjective(root: Path, c1: Config, t1: string, c2: Config, t2: string)
    ensures TargetDir(root, c1, t1) == TargetDir(root, c2, t2) <==> c1 == c2 && t1 == t2
  {
    TargetDirLayout(root, c1, t1);
    TargetDirLayout(root, c2, t2);
    if TargetDir(root, c1, t1) == TargetDir(root, c2, t2) {
      assert TargetDir(root, c1, t1)[|root| + 1] == t1;
      assert TargetDir(root, c2, t2)[|root| + 1] == t2;
      assert ConfigDirName(c1) == ConfigDirName(c2);
    }
  }

  /** The packaging context: the crate root, its manifest, the configuration and the target triples. */
  datatype Context = Context(root: Path, package: CargoManifest.Manifest, config: Config, targets: seq<string>)
  {
    /** `Context::get_target_path`: where the rust build for `target` lands. */
    function GetTargetPath(target: string): (r: Path)
      ensures r == TargetDir(root, config, target)
    {
      TargetDir(root, config, target)
    }
  }

  /**
   * A packager, seen through the outcome of each hook for the context it
   * runs in: one outcome per target for the per-target hooks.
   */
  datatype Packager = Packager(
    name: string,
    buildTarget: string -> Result<(), string>,
    build: Result<(), string>,
    packageTarget: string -> Result<(), string>,
    package: Result<(), string>)

  /** The command the default `do_build_target` spawns: `cargo build --target <t>` in the root. */
  function BuildTargetCommand(ctx: Context, target: string): (cmd: Command)
    ensures cmd.program == "cargo" && cmd.cwd == ctx.root
    ensures |cmd.args| == 3 && cmd.args[0] == "build" && cmd.args[1] == "--target" && cmd.args[2] == target
  {
    Command("cargo", ["build", "--target", target], ctx.root)
  }

  /** The default `do_build_target`: an error only when the process cannot be spawned. */
  function DefaultBuildTarget(ctx: Context, run: Runner, target: string): (r: Result<(), string>)
    ensures r.Ok? <==> run(BuildTargetCommand(ctx, target)).Ok?
    ensures r.Err? ==> r.error == run(BuildTargetCommand(ctx, target)).error
  {
    match run(BuildTargetCommand(ctx, target))
    case Ok(_) => Ok(())
    case Err(e) => Err(e)
  }

  /** A packager that overrides nothing: every hook is the interface's default. */
  function DefaultPackager(name: string, ctx: Context, run: Runner): Packager
  {
    Packager(name, t => DefaultBuildTarget(ctx, run, t), Ok(()), t => Ok(()), Ok(()))
  }

  /**
   * The default hooks: the post-build, per-target packaging and final
   * packaging hooks always succeed, and building a target succeeds
   * whenever `cargo` could be spawned, even when it exits with a failure.
   */
  lemma DefaultHooks(name: string, ctx: Context, run: Runner, target: string)
    ensures DefaultPackager(name, ctx, run).build == Ok(())
    ensures DefaultPackager(name, ctx, run).packageTarget(target) == Ok(())
    ensures DefaultPackager(name, ctx, run).package == Ok(())
    ensures run(BuildTargetCommand(ctx, target)) == Ok(ExitStatus(false, Some(101))) ==>
              DefaultPackager(name, ctx, run).buildTarget(target) == Ok(())
    ensures DefaultPackager(name, ctx, run).buildTarget(target).Ok? <==> run(BuildTargetCommand(ctx, target)).Ok?
  {
  }
}
