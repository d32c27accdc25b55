/**
 * The stand-alone packager at the repository root: its entry point fills in
 * the command-line defaults, loads the root manifest and runs the packager.
 * Its configuration, context, hooks and `run_packager` are the same as those
 * of bp3d-package and are modelled once, in PackageInterface and PackageCore.
 */
module LegacyPackager {
  import opened Wrappers
  import opened Paths
  import opened Termination
  import CargoManifest
  import opened PackageInterface
  import opened PackageCore

  /** The parsed command line: target triples, the release flag and the optional crate root. */
  datatype Args = Args(targetList: seq<string>, release: bool, root: Option<Path>)

  /** `PathBuf::from("./")`. */
  const DefaultRoot: Path := ["."]

  /** The manifest `main` loads, relative to the root. */
  const ManifestFileName := "Cargo.toml"

  /**
   * The conditional push of `main`: an empty target list becomes the host
   * triple alone; any other list is kept as given.
   */
  method DefaultTargets(targetList: seq<string>, host: string) returns (targets: seq<string>)
    ensures |targetList| == 0 ==> targets == [host]
    ensures |targetList| != 0 ==> targets == targetList
    ensures |targets| >= 1 && forall t :: t in targetList ==> t in targets
  {
    targets := targetList;
    if |targets| == 0 {
      targets := targets + [host];
    }
  }

  /** The targets `main` hands to the packager. */
  function TargetsOf(args: Args, host: string): (r: seq<string>)
    ensures |r| >= 1
    ensures r == [host] <==> args.targetList == [] || args.targetList == [host]
  {
    if |args.targetList| == 0 then [host] else args.targetList
  }

  /** `args.root.unwrap_or(PathBuf::from("./"))`. */
  function RootOf(args: Args): (r: Path)
    ensures args.root.Some? ==> r == args.root.value
    ensures args.root.None? ==> r == DefaultRoot
  {
    match args.root
    case Some(p) => p
    case None => DefaultRoot
  }

  /** The build configuration is `Release` exactly when the release flag is set. */
  function ConfigOf(release: bool): (c: Config)
    ensures c == Release <==> release
    ensures c == Debug <==> !release
  {
    if release then Release else Debug
  }

  /**
   * The target directory of a context `main` builds: `<root>/target/<triple>/`
   * then `release` exactly when the release flag was given, `debug` otherwise.
   */
  lemma TargetPathFromFlag(root: Path, manifest: CargoManifest.Manifest, release: bool, targets: seq<string>, target: string)
    ensures var p := Context(root, manifest, ConfigOf(release), targets).GetTargetPath(target);
            p == root + ["target", target, if release then "release" else "debug"]
  {
    TargetDirLayout(root, ConfigOf(release), target);
  }

  /**
   * Reference definition of `main`, with the host triple, the manifest
   * reader and the packager's configuration parser as parameters: a root
   * manifest that cannot be read ends the process before any phase,
   * otherwise the run is `run_packager`'s on the defaulted context.
   */
  function StartSpec(args: Args, host: string, readManifest: Path -> Result<CargoManifest.Manifest, string>,
                     parse: Path -> Result<Packager, string>): ExitOr<Run>
  {
    var root := RootOf(args);
    match ExpectExit(readManifest(Join(root, ManifestFileName)), "Failed to load root manifest", 1)
    case Exit(code, message) => Exit(code, message)
    case Continue(_) => Continue(RunSpec(TargetsOf(args, host), parse(root)))
  }

  /** `main`: apply the defaults, load the root manifest, build the context and run the packager. */
  method Start(args: Args, host: string, readManifest: Path -> Result<CargoManifest.Manifest, string>,
               parse: Path -> Result<Packager, string>) returns (r: ExitOr<Run>)
    ensures r == StartSpec(args, host, readManifest, parse)
  {
    var targets := DefaultTargets(args.targetList, host);
    var root := RootOf(args);
    var manifest := ExpectExit(readManifest(Join(root, ManifestFileName)), "Failed to load root manifest", 1);
    if manifest.Exit? {
      return Exit(manifest.code, manifest.message);
    }
    var ctx := Context(root, manifest.value, ConfigOf(args.release), targets);
    var run := RunPackager(ctx, parse);
    r := Continue(run);
  }

  /**
   * `main` ends with status 1 and the manifest error before any phase when
   * the root manifest cannot be read; otherwise the packager is configured
   * from the defaulted root and runs over the defaulted targets.
   */
  lemma StartOutcome(args: Args, host: string, readManifest: Path -> Result<CargoManifest.Manifest, string>,
                     parse: Path -> Result<Packager, string>)
    ensures var m := readManifest(RootOf(args) + [ManifestFileName]);
            m.Err? ==> StartSpec(args, host, readManifest, parse) == Exit(1, "Failed to load root manifest: " + m.error)
    ensures var m := readManifest(RootOf(args) + [ManifestFileName]);
            m.Ok? ==> StartSpec(args, host, readManifest, parse) == Continue(RunSpec(TargetsOf(args, host), parse(RootOf(args))))
    ensures args.root.None? ==> (readManifest(["."] + [ManifestFileName]).Ok? <==> StartSpec(args, host, readManifest, parse).Continue?)
  {
  }

  /**
   * With no target given and every phase succeeding, the packager builds and
   * packages the host triple alone: load, build the host, post-build,
   * package the host, full package.
   */
  lemma HostOnlyRun(args: Args, host: string, readManifest: Path -> Result<CargoManifest.Manifest, string>,
                    parse: Path -> Result<Packager, string>)
    requires args.targetList == []
    requires StartSpec(args, host, readManifest, parse).Continue?
    requires StartSpec(args, host, readManifest, parse).value.exit.Continue?
    ensures StartSpec(args, host, readManifest, parse).value.trace ==
            [Load, BuildTarget(host), Build, PackageTarget(host), FullPackage]
  {
    var targets := TargetsOf(args, host);
    assert targets == [host];
    RunFollowsPlan(targets, parse(RootOf(args)));
    PlanLayout(targets);
  }
}
