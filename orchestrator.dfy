/**
 * The bp3d-make driver: each module goes through configure, compile and
 * list-outputs on one builder instance, any failure ends the whole run with
 * exit code 1, and all modules append into one shared output list. What a
 * backend does in each step is an oracle `Backend`, indexed by builder type.
 */
module Orchestrator {
  import opened Wrappers
  import opened Paths
  import opened Termination
  import opened BuilderInterface
  import opened BuilderUtil

  /** The outcome of one builder's three steps; `listed` is what `list_outputs` appends before it returns. */
  datatype BuilderRun = BuilderRun(configure: Result<(), string>, compile: Result<(), string>,
                                   listed: seq<Output>, listResult: Result<(), string>)

  /** What the backend of each type does for a module. */
  type Backend = (BuilderType, Module) -> BuilderRun

  /** The per-module state machine; `Aborted` is the terminal `exit(1)`. */
  datatype ModuleState = Unconfigured | Configured | Compiled | OutputsListed | Aborted(code: int, message: string)

  /** The context string `run_builder` reports with each step's failure. */
  function FailureContext(step: Step): string
  {
    match step
    case Configure => "Failed to configure module"
    case Compile => "Failed to compile module"
    case ListOutputs => "Failed to get module outputs"
  }

  /** One transition: the state a step's result moves the machine to. */
  function Advance(state: ModuleState, step: Step, r: Result<(), string>): ModuleState
  {
    match ExpectExit(r, FailureContext(step), 1)
    case Exit(code, msg) => Aborted(code, msg)
    case Continue(_) =>
      match step
      case Configure => Configured
      case Compile => Compiled
      case ListOutputs => OutputsListed
  }

  /** The steps a run reaches, in order: each one only after every earlier one succeeded. */
  function StepsTaken(run: BuilderRun): (steps: seq<Step>)
    ensures 1 <= |steps| <= 3 && steps == [Configure, Compile, ListOutputs][..|steps|]
  {
    if run.configure.Err? then [Configure]
    else if run.compile.Err? then [Configure, Compile]
    else [Configure, Compile, ListOutputs]
  }

  /** The state a run ends in. */
  function FinalState(run: BuilderRun): ModuleState
  {
    var s1 := Advance(Unconfigured, Configure, run.configure);
    if s1.Aborted? then s1
    else
      var s2 := Advance(s1, Compile, run.compile);
      if s2.Aborted? then s2 else Advance(s2, ListOutputs, run.listResult)
  }

  /** `run_builder`: configure, then compile, then list outputs into the shared list. */
  method RunBuilder(run: BuilderRun, outputs: OutputList) returns (state: ModuleState, steps: seq<Step>)
    modifies outputs
    ensures state == FinalState(run)
    ensures steps == StepsTaken(run)
    ensures outputs.entries == old(outputs.entries) + (if ListOutputs in steps then run.listed else [])
  {
    state := Unconfigured;
    steps := [Configure];
    state := Advance(state, Configure, run.configure);
    if state.Aborted? {
      return;
    }
    steps := steps + [Compile];
    state := Advance(state, Compile, run.compile);
    if state.Aborted? {
      return;
    }
    steps := steps + [ListOutputs];
    outputs.entries := outputs.entries + run.listed;
    state := Advance(state, ListOutputs, run.listResult);
  }

  /** A run either completes all three steps or stops at its first failing step with exit code 1. */
  lemma RunBuilderFailFast(run: BuilderRun)
    ensures FinalState(run) == OutputsListed <==>
              run.configure.Ok? && run.compile.Ok? && run.listResult.Ok?
    ensures FinalState(run).Aborted? ==> FinalState(run).code == 1
    ensures run.configure.Err? ==>
              (StepsTaken(run) == [Configure] &&
               FinalState(run) == Aborted(1, "Failed to configure module: " + run.configure.error))
    ensures run.configure.Ok? && run.compile.Err? ==>
              (StepsTaken(run) == [Configure, Compile] &&
               FinalState(run) == Aborted(1, "Failed to compile module: " + run.compile.error))
    ensures run.configure.Ok? && run.compile.Ok? && run.listResult.Err? ==>
              (StepsTaken(run) == [Configure, Compile, ListOutputs] &&
               FinalState(run) == Aborted(1, "Failed to get module outputs: " + run.listResult.error))
    ensures ListOutputs in StepsTaken(run) <==> run.configure.Ok? && run.compile.Ok?
  {
  }

  /** A workspace member: its builder tag and an optional path override. */
  datatype Member = Member(ty: BuilderType, path: Option<Path>)

  /** The workspace declaration, in the iteration order of its module table. */
  datatype Workspace = Workspace(modules: seq<(string, Member)>)

  /** `root.join(member.path.unwrap_or(name))`. */
  function ModulePath(root: Path, name: string, member: Member): (r: Path)
    ensures member.path.Some? ==> r == JoinPath(root, member.path.value)
    ensures member.path.None? ==> r == Join(root, name)
  {
    match member.path
    case Some(p) => JoinPath(root, p)
    case None => Join(root, name)
  }

  /** One printed step of the run: which module, which step. */
  datatype Event = Event(moduleName: string, step: Step)

  /** What a run has done so far: the events, the shared list, and the exit if it ended. */
  datatype Summary = Summary(events: seq<Event>, outputs: seq<Output>, exit: Option<ModuleState>)

  /** The module the loop builds for a workspace entry: named after the entry, and under the root. */
  function ModuleOf(root: Path, entry: (string, Member)): (r: Module)
    ensures r.name == entry.0
    ensures |r.path| >= |root| && r.path[..|root|] == root
  {
    Module(entry.0, ModulePath(root, entry.0, entry.1))
  }

  function EventsOf(name: string, steps: seq<Step>): (r: seq<Event>)
    ensures |r| == |steps| && forall i :: 0 <= i < |r| ==> r[i] == Event(name, steps[i])
  {
    seq(|steps|, i requires 0 <= i < |steps| => Event(name, steps[i]))
  }

  /** One turn of the module loop: skip when the run has already ended, otherwise run the module's builder. */
  function RunModule(root: Path, backend: Backend, before: Summary, entry: (string, Member)): Summary
  {
    if before.exit.Some? then before
    else
      var run := backend(entry.1.ty, ModuleOf(root, entry));
      var steps := StepsTaken(run);
      Summary(before.events + EventsOf(entry.0, steps),
              before.outputs + (if ListOutputs in steps then run.listed else []),
              if FinalState(run).Aborted? then Some(FinalState(run)) else None)
  }

  /** Reference definition of the module loop: modules in order, stopping after the first that aborts. */
  function RunModules(root: Path, backend: Backend, modules: seq<(string, Member)>): Summary
  {
    if |modules| == 0 then Summary([], [], None)
    else RunModule(root, backend, RunModules(root, backend, modules[..|modules| - 1]), modules[|modules| - 1])
  }

  lemma RunModulesPrefix(root: Path, backend: Backend, modules: seq<(string, Member)>, k: nat)
    requires k < |modules|
    ensures RunModules(root, backend, modules[..k + 1]) ==
            RunModule(root, backend, RunModules(root, backend, modules[..k]), modules[k])
  {
    var pre := modules[..k + 1];
    assert pre[..|pre| - 1] == modules[..k];
    assert pre[|pre| - 1] == modules[k];
  }

  /** `BuilderType::call`: run exactly the builder of the tag's own type. */
  method Call(ty: BuilderType, backend: Backend, target: Module, outputs: OutputList) returns (state: ModuleState, steps: seq<Step>)
    modifies outputs
    ensures state == FinalState(backend(ty, target)) && steps == StepsTaken(backend(ty, target))
    ensures outputs.entries == old(outputs.entries) + (if ListOutputs in steps then backend(ty, target).listed else [])
  {
    match ty
    case Cargo => state, steps := RunBuilder(backend(Cargo, target), outputs);
    case Lua => state, steps := RunBuilder(backend(Lua, target), outputs);
  }

  /** Why the workspace file could not be used. */
  datatype ConfigError = ReadFailed(readError: string) | ParseFailed(parseError: string)

  /**
   * `run_workspace`. `config` is the outcome of reading and parsing
   * `bp3d-make.toml` under the root; `None` for `exit` means every module succeeded.
   */
  method RunWorkspace(ctx: Context, config: Result<Workspace, ConfigError>, backend: Backend)
    returns (exit: Option<ModuleState>, events: seq<Event>, outputs: OutputList)
    ensures fresh(outputs)
    ensures config.Err? ==> events == [] && outputs.entries == [] && exit.Some? && exit.value.Aborted? && exit.value.code == 1
    ensures config.Err? && config.error.ReadFailed? ==>
              exit == Some(Aborted(1, "Failed to load workspace configuration: " + config.error.readError))
    ensures config.Err? && config.error.ParseFailed? ==>
              exit == Some(Aborted(1, "Failed to read workspace configuration: " + config.error.parseError))
    ensures config.Ok? ==> var s := RunModules(ctx.root, backend, config.value.modules);
                           exit == s.exit && events == s.events && outputs.entries == s.outputs
  {
    outputs := new OutputList();
    events := [];
    if config.Err? {
      var msg := match config.error
        case ReadFailed(e) => "Failed to load workspace configuration: " + e
        case ParseFailed(e) => "Failed to read workspace configuration: " + e;
      return Some(Aborted(1, msg)), events, outputs;
    }
    var modules := config.value.modules;
    exit := None;
    var i := 0;
    while i < |modules|
      invariant 0 <= i <= |modules|
      invariant exit.None?
      invariant RunModules(ctx.root, backend, modules[..i]) == Summary(events, outputs.entries, None)
    {
      var (name, member) := modules[i];
      var m := ModuleOf(ctx.root, modules[i]);
      assert modules[..i + 1][..i] == modules[..i];
      var state, steps := Call(member.ty, backend, m, outputs);
      events := events + EventsOf(name, steps);
      i := i + 1;
      if state.Aborted? {
        exit := Some(state);
        AbortSticks(ctx.root, backend, modules, i);
        return;
      }
    }
    assert modules[..i] == modules;
  }

  /** Once some prefix of the modules has aborted, later modules change nothing. */
  lemma {:induction false} AbortSticks(root: Path, backend: Backend, modules: seq<(string, Member)>, i: nat)
    requires i <= |modules|
    requires RunModules(root, backend, modules[..i]).exit.Some?
    ensures RunModules(root, backend, modules) == RunModules(root, backend, modules[..i])
    decreases |modules| - i
  {
    if i < |modules| {
      assert modules[..i + 1][..i] == modules[..i];
      AbortSticks(root, backend, modules, i + 1);
      if i + 1 < |modules| { } else { assert modules[..i + 1] == modules; }
    } else {
      assert modules[..i] == modules;
    }
  }

  /** Fail-fast: once a module aborts, no later module is configured, compiled or listed. */
  lemma {:induction false} NoEventsAfterAbort(root: Path, backend: Backend, modules: seq<(string, Member)>, k: nat)
    requires k < |modules|
    requires RunModules(root, backend, modules[..k]).exit.None?
    requires FinalState(backend(modules[k].1.ty, ModuleOf(root, modules[k]))).Aborted?
    ensures RunModules(root, backend, modules) == RunModules(root, backend, modules[..k + 1])
    ensures RunModules(root, backend, modules).exit == Some(FinalState(backend(modules[k].1.ty, ModuleOf(root, modules[k]))))
  {
    assert modules[..k + 1][..k] == modules[..k];
    AbortSticks(root, backend, modules, k + 1);
  }

  /** A module whose compile fails is configured and compiled but never listed, and adds nothing to the shared list. */
  lemma CompileFailureListsNothing(root: Path, backend: Backend, modules: seq<(string, Member)>, k: nat)
    requires k < |modules|
    requires RunModules(root, backend, modules[..k]).exit.None?
    requires var run := backend(modules[k].1.ty, ModuleOf(root, modules[k])); run.configure.Ok? && run.compile.Err?
    ensures var before := RunModules(root, backend, modules[..k]);
            var all := RunModules(root, backend, modules);
            all.outputs == before.outputs &&
            all.events == before.events + [Event(modules[k].0, Configure), Event(modules[k].0, Compile)]
  {
    var run := backend(modules[k].1.ty, ModuleOf(root, modules[k]));
    RunBuilderFailFast(run);
    NoEventsAfterAbort(root, backend, modules, k);
    RunModulesPrefix(root, backend, modules, k);
    var e := EventsOf(modules[k].0, [Configure, Compile]);
    assert e == [Event(modules[k].0, Configure), Event(modules[k].0, Compile)];
  }

  /** `events` is, module by module, the configure, compile and list steps of `modules`. */
  predicate FullTrace(events: seq<Event>, modules: seq<(string, Member)>)
  {
    |events| == 3 * |modules| &&
    forall i :: 0 <= i < |modules| ==>
      events[3 * i] == Event(modules[i].0, Configure) &&
      events[3 * i + 1] == Event(modules[i].0, Compile) &&
      events[3 * i + 2] == Event(modules[i].0, ListOutputs)
  }

  /** Every module's builder gets through all three steps. */
  predicate AllListed(root: Path, backend: Backend, modules: seq<(string, Member)>)
  {
    forall i :: 0 <= i < |modules| ==> FinalState(backend(modules[i].1.ty, ModuleOf(root, modules[i]))) == OutputsListed
  }

  lemma FullTraceSnoc(events: seq<Event>, modules: seq<(string, Member)>, entry: (string, Member))
    requires FullTrace(events, modules)
    ensures FullTrace(events + EventsOf(entry.0, [Configure, Compile, ListOutputs]), modules + [entry])
  {
    var tail := EventsOf(entry.0, [Configure, Compile, ListOutputs]);
    var e := events + tail;
    var ms := modules + [entry];
    var n := |modules|;
    forall i | 0 <= i < |ms|
      ensures e[3 * i] == Event(ms[i].0, Configure) &&
              e[3 * i + 1] == Event(ms[i].0, Compile) &&
              e[3 * i + 2] == Event(ms[i].0, ListOutputs)
    {
      if i < n {
        assert ms[i] == modules[i];
      } else {
        assert e[3 * i] == tail[0];
        assert e[3 * i + 1] == tail[1];
        assert e[3 * i + 2] == tail[2];
      }
    }
  }

  /** A module whose builder gets through all three steps keeps the run going and adds those three events. */
  lemma ListedStep(root: Path, backend: Backend, before: Summary, entry: (string, Member))
    requires before.exit.None?
    requires FinalState(backend(entry.1.ty, ModuleOf(root, entry))) == OutputsListed
    ensures RunModule(root, backend, before, entry).exit.None?
    ensures RunModule(root, backend, before, entry).events ==
            before.events + EventsOf(entry.0, [Configure, Compile, ListOutputs])
  {
    RunBuilderFailFast(backend(entry.1.ty, ModuleOf(root, entry)));
  }

  lemma AllListedPrefix(root: Path, backend: Backend, modules: seq<(string, Member)>, k: nat)
    requires k <= |modules| && AllListed(root, backend, modules)
    ensures AllListed(root, backend, modules[..k])
  {
    forall i | 0 <= i < k ensures modules[..k][i] == modules[i] { }
  }

  /** The events of a run in which every module is listed: each module's three steps, in order. */
  function ListedTrace(modules: seq<(string, Member)>): seq<Event>
  {
    if |modules| == 0 then []
    else ListedTrace(modules[..|modules| - 1]) + EventsOf(modules[|modules| - 1].0, [Configure, Compile, ListOutputs])
  }

  lemma {:induction false} ListedTraceLayout(modules: seq<(string, Member)>)
    ensures FullTrace(ListedTrace(modules), modules)
  {
    if |modules| > 0 {
      var n := |modules| - 1;
      ListedTraceLayout(modules[..n]);
      FullTraceSnoc(ListedTrace(modules[..n]), modules[..n], modules[n]);
      assert modules[..n] + [modules[n]] == modules;
    }
  }

  lemma {:induction false} AllSucceedEvents(root: Path, backend: Backend, modules: seq<(string, Member)>)
    requires AllListed(root, backend, modules)
    ensures RunModules(root, backend, modules).exit.None?
    ensures RunModules(root, backend, modules).events == ListedTrace(modules)
  {
    if |modules| > 0 {
      var n := |modules| - 1;
      AllListedPrefix(root, backend, modules, n);
      AllSucceedEvents(root, backend, modules[..n]);
      ListedStep(root, backend, RunModules(root, backend, modules[..n]), modules[n]);
    }
  }

  /** With no failure anywhere, no run ends early and every module contributes its three steps. */
  lemma AllSucceed(root: Path, backend: Backend, modules: seq<(string, Member)>)
    requires AllListed(root, backend, modules)
    ensures RunModules(root, backend, modules).exit.None?
    ensures FullTrace(RunModules(root, backend, modules).events, modules)
  {
    AllSucceedEvents(root, backend, modules);
    ListedTraceLayout(modules);
  }
}
