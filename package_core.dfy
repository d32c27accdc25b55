/**
 * The core of bp3d-package: what a Cargo manifest tells a packager about
 * its package, and `run_packager`, the fixed phase sequence every packager
 * goes through, ending the process at the first phase that fails.
 */
module PackageCore {
  import opened Wrappers
  import opened Paths
  import opened Termination
  import opened CargoManifest
  import CommonOutput
  import opened PackageInterface

  /** `Package::get_name` for a manifest. */
  function GetName(m: Manifest): (r: string)
    ensures r == m.package.name
  {
    m.package.name
  }

  /** `Package::get_version` for a manifest. */
  function GetVersion(m: Manifest): (r: string)
    ensures r == m.package.version
  {
    m.package.version
  }

  /** `Package::get_outputs` for a manifest: the binaries chained with the library. */
  function GetOutputs(m: Manifest): (r: seq<CommonOutput.Output>)
    ensures |r| == |m.bin| + (if m.lib.Some? then 1 else 0)
    ensures forall i :: 0 <= i < |r| ==> (r[i].Lib? <==> i == |m.bin|)
  {
    BinOutputs(m) + LibOutputs(m)
  }

  /**
   * One `Bin` per declared binary, in order, then at most one `Lib`, so
   * every `Bin` precedes the `Lib`; an unnamed product takes the package's name.
   */
  lemma GetOutputsShape(m: Manifest)
    ensures |GetOutputs(m)| == |m.bin| + (if m.lib.Some? then 1 else 0)
    ensures forall i :: 0 <= i < |m.bin| ==>
              GetOutputs(m)[i] == CommonOutput.Bin(if m.bin[i].name.Some? then m.bin[i].name.value else GetName(m))
    ensures m.lib.Some? ==>
              GetOutputs(m)[|m.bin|] == CommonOutput.Lib(if m.lib.value.name.Some? then m.lib.value.name.value else GetName(m))
    ensures forall i :: 0 <= i < |GetOutputs(m)| - 1 ==> GetOutputs(m)[i].Bin?
  {
    DeclaredOutputsShape(m);
    assert GetOutputs(m) == DeclaredOutputs(m);
  }

  /** The phases of `run_packager`. */
  datatype Phase = Load | BuildTarget(target: string) | Build | PackageTarget(target: string) | FullPackage

  /** The message `expect_exit` prints before the error when a phase fails. */
  function FailureMessage(p: Phase): (r: string)
    ensures |r| > 10
  {
    match p
    case Load => "Failed to load packager configuration from root manifest"
    case BuildTarget(_) => "Failed to build target"
    case Build => "Failed to run post-build phase"
    case PackageTarget(_) => "Failed to package target"
    case FullPackage => "Failed to generate full package"
  }

  /** Building each target, in order. */
  function BuildPhases(targets: seq<string>): (r: seq<Phase>)
    ensures |r| == |targets| && forall i :: 0 <= i < |targets| ==> r[i] == BuildTarget(targets[i])
  {
    seq(|targets|, i requires 0 <= i < |targets| => BuildTarget(targets[i]))
  }

  /** Packaging each target, in order. */
  function PackagePhases(targets: seq<string>): (r: seq<Phase>)
    ensures |r| == |targets| && forall i :: 0 <= i < |targets| ==> r[i] == PackageTarget(targets[i])
  {
    seq(|targets|, i requires 0 <= i < |targets| => PackageTarget(targets[i]))
  }

  /** The phases after loading: build each target, post-build, package each target, full package. */
  function PhasesAfterLoad(targets: seq<string>): seq<Phase>
  {
    BuildPhases(targets) + [Build] + PackagePhases(targets) + [FullPackage]
  }

  /** Every phase `run_packager` would run, in order, if none failed. */
  function Plan(targets: seq<string>): seq<Phase>
  {
    [Load] + PhasesAfterLoad(targets)
  }

  /** Where each phase sits among the phases after loading. */
  lemma PhasesAfterLoadLayout(targets: seq<string>)
    ensures |PhasesAfterLoad(targets)| == 2 * |targets| + 2
    ensures forall i :: 0 <= i < |targets| ==> PhasesAfterLoad(targets)[i] == BuildTarget(targets[i])
    ensures PhasesAfterLoad(targets)[|targets|] == Build
    ensures forall i :: 0 <= i < |targets| ==> PhasesAfterLoad(targets)[|targets| + 1 + i] == PackageTarget(targets[i])
    ensures PhasesAfterLoad(targets)[2 * |targets| + 1] == FullPackage
    ensures forall k :: 0 <= k <= |targets| ==> !PhasesAfterLoad(targets)[k].PackageTarget?
  {
    var b := BuildPhases(targets);
    var p := PackagePhases(targets);
    var after := PhasesAfterLoad(targets);
    assert after == b + ([Build] + p + [FullPackage]);
    assert forall k :: 0 <= k < |targets| ==> after[k] == b[k];
    assert forall k :: 0 <= k < |targets| ==> after[|targets| + 1 + k] == p[k];
  }

  /** The order of the plan: load, every build in target order, post-build, every packaging in target order, full package. */
  lemma PlanLayout(targets: seq<string>)
    ensures |Plan(targets)| == 2 * |targets| + 3
    ensures Plan(targets)[0] == Load
    ensures forall i :: 0 <= i < |targets| ==> Plan(targets)[1 + i] == BuildTarget(targets[i])
    ensures Plan(targets)[|targets| + 1] == Build
    ensures forall i :: 0 <= i < |targets| ==> Plan(targets)[|targets| + 2 + i] == PackageTarget(targets[i])
    ensures Plan(targets)[2 * |targets| + 2] == FullPackage
    ensures targets == [] ==> Plan(targets) == [Load, Build, FullPackage]
    ensures forall k :: 0 <= k <= |targets| + 1 ==> !Plan(targets)[k].PackageTarget?
  {
    PhasesAfterLoadLayout(targets);
    var plan := Plan(targets);
    var after := PhasesAfterLoad(targets);
    var n := |targets|;
    forall i | 0 <= i < n ensures plan[1 + i] == BuildTarget(targets[i]) {
      assert plan[1 + i] == after[i];
    }
    assert plan[n + 1] == after[n];
    forall i | 0 <= i < n ensures plan[n + 2 + i] == PackageTarget(targets[i]) {
      assert plan[n + 2 + i] == after[n + 1 + i];
    }
    assert plan[2 * n + 2] == after[2 * n + 1];
    forall k | 0 <= k <= n + 1 ensures !plan[k].PackageTarget? {
      if k > 0 {
        assert plan[k] == after[k - 1];
      }
    }
  }

  /** `p` and `q` are the same phase up to the target they name. */
  predicate SameKind(p: Phase, q: Phase)
  {
    (p.Load? && q.Load?) || (p.BuildTarget? && q.BuildTarget?) || (p.Build? && q.Build?) ||
    (p.PackageTarget? && q.PackageTarget?) || (p.FullPackage? && q.FullPackage?)
  }

  /** The length of each failure message; no two kinds of phase share one. */
  lemma FailureMessageLength(p: Phase)
    ensures |FailureMessage(p)| ==
            match p
            case Load => 56
            case BuildTarget(_) => 22
            case Build => 30
            case PackageTarget(_) => 24
            case FullPackage => 31
  {
  }

  /** The failure message tells the kind of phase that failed. */
  lemma FailureMessageNamesPhase(p: Phase, q: Phase)
    ensures FailureMessage(p) == FailureMessage(q) <==> SameKind(p, q)
  {
    FailureMessageLength(p);
    FailureMessageLength(q);
  }

  /** The outcome of one phase after loading, for the loaded packager. */
  function Outcome(pk: Packager, p: Phase): Result<(), string>
  {
    match p
    case Load => Ok(())
    case BuildTarget(t) => pk.buildTarget(t)
    case Build => pk.build
    case PackageTarget(t) => pk.packageTarget(t)
    case FullPackage => pk.package
  }

  /** The phases a run went through, and how it ended. */
  datatype Run = Run(trace: seq<Phase>, exit: ExitOr<()>)

  /** How a phase ends the run, if it fails: `expect_exit` with the phase's message. */
  function PhaseExit(pk: Packager, p: Phase): (x: ExitOr<()>)
    ensures x.Continue? <==> Outcome(pk, p).Ok?
    ensures x.Exit? ==> x == Exit(1, FailureMessage(p) + ": " + Outcome(pk, p).error)
  {
    ExpectExit(Outcome(pk, p), FailureMessage(p), 1)
  }

  /** The first phase at or after `i` that fails, if any. */
  function FirstFailureFrom(pk: Packager, phases: seq<Phase>, i: nat): (r: Option<nat>)
    requires i <= |phases|
    ensures r.None? ==> forall m :: i <= m < |phases| ==> Outcome(pk, phases[m]).Ok?
    ensures r.Some? ==> i <= r.value < |phases| && Outcome(pk, phases[r.value]).Err? &&
                        forall m :: i <= m < r.value ==> Outcome(pk, phases[m]).Ok?
    decreases |phases| - i
  {
    if i == |phases| then None
    else if Outcome(pk, phases[i]).Err? then Some(i)
    else FirstFailureFrom(pk, phases, i + 1)
  }

  /** Reference definition of running `phases` in order: everything up to and including the first failure. */
  function Execute(pk: Packager, phases: seq<Phase>): Run
  {
    match FirstFailureFrom(pk, phases, 0)
    case None => Run(phases, Continue(()))
    case Some(k) => Run(phases[..k + 1], PhaseExit(pk, phases[k]))
  }

  /** Reference definition of `run_packager`, given the outcome of parsing the packager configuration. */
  function RunSpec(targets: seq<string>, load: Result<Packager, string>): Run
  {
    match ExpectExit(load, FailureMessage(Load), 1)
    case Exit(code, message) => Run([Load], Exit(code, message))
    case Continue(pk) =>
      var r := Execute(pk, PhasesAfterLoad(targets));
      Run([Load] + r.trace, r.exit)
  }

  /** A failing phase preceded, from `i` on, only by successful ones is the first failure from `i`. */
  lemma {:induction false} FirstFailureFromAt(pk: Packager, phases: seq<Phase>, i: nat, k: nat)
    requires i <= k < |phases| && Outcome(pk, phases[k]).Err?
    requires forall m :: i <= m < k ==> Outcome(pk, phases[m]).Ok?
    ensures FirstFailureFrom(pk, phases, i) == Some(k)
    decreases k - i
  {
    if i < k {
      FirstFailureFromAt(pk, phases, i + 1, k);
    }
  }

  /**
   * Fail-fast: a run goes through a prefix of the phases; it completes,
   * through all of them, exactly when every phase succeeds; otherwise it
   * ends with status 1 at the phase that failed, after all earlier ones succeeded.
   */
  lemma ExecuteFailFast(pk: Packager, phases: seq<Phase>)
    ensures var r := Execute(pk, phases);
            |r.trace| <= |phases| && r.trace == phases[..|r.trace|]
    ensures Execute(pk, phases).exit.Continue? <==> forall i :: 0 <= i < |phases| ==> Outcome(pk, phases[i]).Ok?
    ensures Execute(pk, phases).exit.Continue? ==> Execute(pk, phases).trace == phases
    ensures var r := Execute(pk, phases);
            r.exit.Exit? ==>
              (|r.trace| > 0 &&
               (forall i :: 0 <= i < |r.trace| - 1 ==> Outcome(pk, r.trace[i]).Ok?) &&
               Outcome(pk, r.trace[|r.trace| - 1]).Err? &&
               r.exit == Exit(1, FailureMessage(r.trace[|r.trace| - 1]) + ": " + Outcome(pk, r.trace[|r.trace| - 1]).error))
  {
    var f := FirstFailureFrom(pk, phases, 0);
    if f.Some? {
      var k := f.value;
      assert Outcome(pk, phases[k]).Err?;
      var r := Execute(pk, phases);
      assert r.trace == phases[..k + 1];
      forall i | 0 <= i < |r.trace| - 1 ensures Outcome(pk, r.trace[i]).Ok? {
        assert r.trace[i] == phases[i];
      }
    } else {
      assert phases[..|phases|] == phases;
    }
  }

  /** Every one of the first `k` phases succeeds. */
  predicate SucceedsBefore(pk: Packager, phases: seq<Phase>, k: nat)
    requires k <= |phases|
  {
    forall m :: 0 <= m < k ==> Outcome(pk, phases[m]).Ok?
  }

  /** One more successful phase extends a successful prefix. */
  lemma SucceedsSnoc(pk: Packager, phases: seq<Phase>, k: nat)
    requires k < |phases| && SucceedsBefore(pk, phases, k) && Outcome(pk, phases[k]).Ok?
    ensures SucceedsBefore(pk, phases, k + 1)
  {
  }

  /** A loaded packager whose phase `k` is the first to fail: the run is the plan up to it, ending there. */
  lemma RunStopsAt(pk: Packager, targets: seq<string>, k: nat)
    requires k < |PhasesAfterLoad(targets)| && Outcome(pk, PhasesAfterLoad(targets)[k]).Err?
    requires SucceedsBefore(pk, PhasesAfterLoad(targets), k)
    ensures RunSpec(targets, Ok(pk)) ==
            Run([Load] + PhasesAfterLoad(targets)[..k + 1], PhaseExit(pk, PhasesAfterLoad(targets)[k]))
  {
    FirstFailureFromAt(pk, PhasesAfterLoad(targets), 0, k);
  }

  /** The phase that builds target `i`. */
  lemma BuildPhaseAt(targets: seq<string>, i: nat)
    requires i < |targets|
    ensures |PhasesAfterLoad(targets)| == 2 * |targets| + 2
    ensures PhasesAfterLoad(targets)[i] == BuildTarget(targets[i])
  {
    PhasesAfterLoadLayout(targets);
  }

  /** The phase that packages target `j`. */
  lemma PackagePhaseAt(targets: seq<string>, j: nat)
    requires j < |targets|
    ensures |PhasesAfterLoad(targets)| == 2 * |targets| + 2
    ensures PhasesAfterLoad(targets)[|targets| + 1 + j] == PackageTarget(targets[j])
  {
    PhasesAfterLoadLayout(targets);
  }

  /**
   * One phase of `run_packager` after the phases before it succeeded: the
   * trace grows by that phase, and either the run ends there as the reference
   * definition says or every phase up to it has succeeded.
   */
  lemma PhaseStep(pk: Packager, targets: seq<string>, k: nat, e: ExitOr<()>)
    requires k < |PhasesAfterLoad(targets)| && SucceedsBefore(pk, PhasesAfterLoad(targets), k)
    requires e == PhaseExit(pk, PhasesAfterLoad(targets)[k])
    ensures PhasesAfterLoad(targets)[..k] + [PhasesAfterLoad(targets)[k]] == PhasesAfterLoad(targets)[..k + 1]
    ensures e.Exit? ==> RunSpec(targets, Ok(pk)) == Run([Load] + PhasesAfterLoad(targets)[..k + 1], e)
    ensures e.Continue? ==> SucceedsBefore(pk, PhasesAfterLoad(targets), k + 1)
  {
    PrefixSnoc(PhasesAfterLoad(targets), k);
    if e.Exit? {
      RunStopsAt(pk, targets, k);
    } else {
      SucceedsSnoc(pk, PhasesAfterLoad(targets), k);
    }
  }

  /** With every phase from `i` on succeeding, nothing fails from `i` on. */
  lemma {:induction false} FirstFailureFromNone(pk: Packager, phases: seq<Phase>, i: nat)
    requires i <= |phases|
    requires forall m :: i <= m < |phases| ==> Outcome(pk, phases[m]).Ok?
    ensures FirstFailureFrom(pk, phases, i) == None
    decreases |phases| - i
  {
    if i < |phases| {
      FirstFailureFromNone(pk, phases, i + 1);
    }
  }

  /** A loaded packager whose phases all succeed: the run is the whole plan. */
  lemma RunCompletes(pk: Packager, targets: seq<string>)
    requires SucceedsBefore(pk, PhasesAfterLoad(targets), |PhasesAfterLoad(targets)|)
    ensures RunSpec(targets, Ok(pk)) == Run(Plan(targets), Continue(()))
  {
    FirstFailureFromNone(pk, PhasesAfterLoad(targets), 0);
  }

  /** Extending a prefix by the next element gives the next prefix. */
  lemma PrefixSnoc(s: seq<Phase>, k: nat)
    requires k < |s|
    ensures s[..k] + [s[k]] == s[..k + 1]
  {
  }

  /**
   * The loop of `run_packager` that builds every target: either every build
   * succeeds and the trace is the build phases, or the run ends as the
   * reference definition says.
   */
  method BuildTargets(pk: Packager, targets: seq<string>) returns (trace: seq<Phase>, e: ExitOr<()>)
    ensures e.Continue? ==> trace == PhasesAfterLoad(targets)[..|targets|] &&
                            SucceedsBefore(pk, PhasesAfterLoad(targets), |targets|)
    ensures e.Exit? ==> RunSpec(targets, Ok(pk)) == Run([Load] + trace, e)
  {
    ghost var plan := PhasesAfterLoad(targets);
    trace := [];
    e := Continue(());
    var i := 0;
    while i < |targets|
      invariant 0 <= i <= |targets|
      invariant trace == plan[..i]
      invariant SucceedsBefore(pk, plan, i)
      invariant e.Continue?
    {
      e := ExpectExit(pk.buildTarget(targets[i]), "Failed to build target", 1);
      BuildPhaseAt(targets, i);
      PhaseStep(pk, targets, i, e);
      trace := trace + [BuildTarget(targets[i])];
      if e.Exit? {
        return;
      }
      i := i + 1;
    }
  }

  /**
   * The loop of `run_packager` that packages every target, entered after the
   * builds and the post-build phase succeeded: either every packaging
   * succeeds and the trace reaches the full-package phase, or the run ends
   * as the reference definition says.
   */
  method PackageTargets(pk: Packager, targets: seq<string>, before: seq<Phase>) returns (trace: seq<Phase>, e: ExitOr<()>)
    requires before == PhasesAfterLoad(targets)[..|targets| + 1]
    requires SucceedsBefore(pk, PhasesAfterLoad(targets), |targets| + 1)
    ensures e.Continue? ==> trace == PhasesAfterLoad(targets)[..2 * |targets| + 1] &&
                            SucceedsBefore(pk, PhasesAfterLoad(targets), 2 * |targets| + 1)
    ensures e.Exit? ==> RunSpec(targets, Ok(pk)) == Run([Load] + trace, e)
  {
    ghost var plan := PhasesAfterLoad(targets);
    var n := |targets|;
    trace := before;
    e := Continue(());
    var j := 0;
    ghost var k := n + 1;
    while j < n
      invariant 0 <= j <= n && k == n + 1 + j
      invariant trace == plan[..k]
      invariant SucceedsBefore(pk, plan, k)
      invariant e.Continue?
    {
      e := ExpectExit(pk.packageTarget(targets[j]), "Failed to package target", 1);
      PackagePhaseAt(targets, j);
      PhaseStep(pk, targets, k, e);
      trace := trace + [PackageTarget(targets[j])];
      if e.Exit? {
        return;
      }
      j, k := j + 1, k + 1;
    }
  }

  /** `run_packager`: load the packager, then each phase in turn, ending the process at the first failure. */
  method RunPackager(ctx: Context, parse: Path -> Result<Packager, string>) returns (run: Run)
    ensures run == RunSpec(ctx.targets, parse(ctx.root))
  {
    var loaded := ExpectExit(parse(ctx.root), "Failed to load packager configuration from root manifest", 1);
    if loaded.Exit? {
      return Run([Load], Exit(loaded.code, loaded.message));
    }
    var pk := loaded.value;
    assert parse(ctx.root) == Ok(pk);
    var targets := ctx.targets;
    ghost var plan := PhasesAfterLoad(targets);
    PhasesAfterLoadLayout(targets);
    var n := |targets|;
    var trace, e := BuildTargets(pk, targets);
    if e.Exit? {
      return Run([Load] + trace, e);
    }
    assert plan[n] == Build;
    var built := ExpectExit(pk.build, "Failed to run post-build phase", 1);
    PhaseStep(pk, targets, n, built);
    trace := trace + [Build];
    if built.Exit? {
      return Run([Load] + trace, built);
    }
    trace, e := PackageTargets(pk, targets, trace);
    if e.Exit? {
      return Run([Load] + trace, e);
    }
    assert plan[2 * n + 1] == FullPackage;
    var packaged := ExpectExit(pk.package, "Failed to generate full package", 1);
    PhaseStep(pk, targets, 2 * n + 1, packaged);
    trace := trace + [FullPackage];
    if packaged.Exit? {
      return Run([Load] + trace, packaged);
    }
    assert trace == plan;
    RunCompletes(pk, targets);
    run := Run([Load] + trace, Continue(()));
  }

  /**
   * A run follows the plan: it starts by loading, goes through a prefix of
   * the plan, and completes exactly when loading and every phase succeed.
   */
  lemma RunFollowsPlan(targets: seq<string>, load: Result<Packager, string>)
    ensures var r := RunSpec(targets, load);
            |r.trace| >= 1 && r.trace[0] == Load && r.trace == Plan(targets)[..|r.trace|]
    ensures RunSpec(targets, load).exit.Continue? <==>
              load.Ok? && forall i :: 0 <= i < |PhasesAfterLoad(targets)| ==> Outcome(load.value, PhasesAfterLoad(targets)[i]).Ok?
    ensures RunSpec(targets, load).exit.Continue? ==> RunSpec(targets, load).trace == Plan(targets)
    ensures load.Err? ==> RunSpec(targets, load) == Run([Load], Exit(1, FailureMessage(Load) + ": " + load.error))
    ensures RunSpec(targets, load).exit.Exit? ==> RunSpec(targets, load).exit.code == 1
  {
    if load.Ok? {
      var phases := PhasesAfterLoad(targets);
      ExecuteFailFast(load.value, phases);
      var r := Execute(load.value, phases);
      assert ([Load] + r.trace) == Plan(targets)[..1 + |r.trace|];
    }
  }

  /** The phases of a run are a prefix of the plan, starting with loading. */
  lemma RunIsPlanPrefix(targets: seq<string>, load: Result<Packager, string>)
    ensures var r := RunSpec(targets, load);
            1 <= |r.trace| <= |Plan(targets)| && r.trace == Plan(targets)[..|r.trace|]
  {
    if load.Ok? {
      ExecuteFailFast(load.value, PhasesAfterLoad(targets));
      var r := Execute(load.value, PhasesAfterLoad(targets));
      assert ([Load] + r.trace) == Plan(targets)[..1 + |r.trace|];
    }
  }

  /** In a prefix of the plan, a packaging phase comes after every build and the post-build phase. */
  lemma PrefixPackagingAfterBuilds(targets: seq<string>, trace: seq<Phase>, k: nat)
    requires |trace| <= |Plan(targets)| && trace == Plan(targets)[..|trace|]
    requires k < |trace| && trace[k].PackageTarget?
    ensures Build in trace
    ensures forall t :: t in targets ==> BuildTarget(t) in trace
  {
    PlanLayout(targets);
    var n := |targets|;
    assert trace[k] == Plan(targets)[k];
    assert n + 1 < |trace|;
    assert trace[n + 1] == Build;
    forall t | t in targets ensures BuildTarget(t) in trace {
      var i :| 0 <= i < n && targets[i] == t;
      assert trace[1 + i] == Plan(targets)[1 + i];
    }
  }

  /** No target is packaged before every target was built and the post-build phase ran. */
  lemma PackagingAfterBuilds(targets: seq<string>, load: Result<Packager, string>, k: nat)
    requires k < |RunSpec(targets, load).trace| && RunSpec(targets, load).trace[k].PackageTarget?
    ensures Build in RunSpec(targets, load).trace
    ensures forall t :: t in targets ==> BuildTarget(t) in RunSpec(targets, load).trace
  {
    RunIsPlanPrefix(targets, load);
    PrefixPackagingAfterBuilds(targets, RunSpec(targets, load).trace, k);
  }
}
