# bp3d build tools, modelled in Dafny

This project models the core of the BlockProject 3D SDK build tools. There are two tools:

- **bp3d-make** builds every module of a workspace. For each module it picks a builder backend: the native Cargo backend, or a Lua backend whose module script is run by an embedded interpreter. Each module goes through configure, compile and list-outputs, and all modules fill one shared output list. Any failure ends the process with exit code 1.
- **bp3d-package** (and the older stand-alone packager at the repository root) runs a packager through a fixed phase sequence: load its configuration, build every target triple, run the post-build phase, package every target, generate the full package. The process ends at the first phase that fails.

The artifact resolver of the common crate sits between the two. It maps an abstract output (binary, library, configuration, other) to the files a build left in a target directory.

How the model is built:

- Paths are sequences of components.
- The filesystem is the set of paths that exist.
- The compile-time platform (`cfg(unix)` or `cfg(windows)`) and the host triple are parameters.
- Everything the tools hand to the outside world is an oracle parameter: reading and parsing a manifest, spawning a process, running a Lua chunk or function, and what a builder backend does for a module.
- Ending the process (`expect_exit`) is a terminal value that carries the exit code and the line written to standard error.
- Objects the source mutates in place are classes: the output lists, the Lua engine's globals and the Lua output-list wrapper.
- Loops over inputs are `while` loops proved against reference functions: workspace members, modules, features, manifests and packager phases.

Modules:

- `Paths`, `Wrappers`, `Process`, `Termination`: paths, `Option`/`Result`, process commands, `expect_exit`.
- `CommonOutput`, `Finder`: the common crate's output kinds and the artifact resolver.
- `BuilderInterface`, `MakeOutputList`, `BuilderUtil`: the two layouts of the bp3d-make builder interface, the path helpers and the builder registry.
- `CargoManifest`, `CargoBuilder`: the slice of `Cargo.toml` the tools read, and the Cargo backend.
- `Orchestrator`: `run_builder` and `run_workspace`.
- `LuaEngine`, `LuaBuilder`, `LuaOutputList`: the Lua engine, the Lua backend and the output list handed to scripts.
- `PackageInterface`, `PackageCore`, `LegacyPackager`: the packager interface, `run_packager`, and the entry point of the stand-alone packager.

The stand-alone packager (`src/packager/mod.rs`, `src/main.rs`) has the same configuration, context, default hooks, `expect_exit` and `run_packager` as bp3d-package. `LegacyPackager` therefore reuses `PackageInterface` and `PackageCore` and adds only what `main` does: it fills in the defaults and loads the root manifest.

Three behaviours of the code are stated as written:

- The default `do_build_target` of both packagers returns `Ok` whatever cargo's exit status. So does the Cargo backend's `do_compile`. Only a failure to spawn the process is an error (`PackageInterface.DefaultHooks`, `CargoBuilder.DoCompile`).
- The Lua backend sets the all-features flag after the features. A feature named `all` maps to the same global as the all-features flag, so without all-features the script sees `BP3D_MAKE_FEATURE_ALL` as `false` (`LuaBuilder.FeatureNamedAllIsCleared`).
- With all-features on, the script's feature list is `["all"]` and the explicit list is lost (`LuaBuilder.PreludeFeatureList`).

## Model

| member | source | states |
|---|---|---|
| BuilderInterface.Output.PathOf | build-tools/bp3d-make/src/builder/interface.rs:42-49 | the path returned is the payload of whichever of the four variants the output is |
| BuilderInterface.OutputList.constructor | build-tools/bp3d-make/src/builder/interface.rs:55-57 | a new list is empty |
| BuilderInterface.OutputList.AddBin | build-tools/bp3d-make/src/builder/interface.rs:59-61 | exactly one binary output with the given path is appended, after every earlier entry |
| BuilderInterface.OutputList.AddLib | build-tools/bp3d-make/src/builder/interface.rs:62-64 | exactly one library output with the given path is appended |
| BuilderInterface.OutputList.AddConfig | build-tools/bp3d-make/src/builder/interface.rs:65-67 | exactly one configuration output with the given path is appended |
| BuilderInterface.OutputList.AddOther | build-tools/bp3d-make/src/builder/interface.rs:68-70 | exactly one other output with the given path is appended |
| BuilderInterface.OutputList.AsRef | build-tools/bp3d-make/src/builder/interface.rs:73-77 | the entries, in insertion order |
| BuilderInterface.OccursShift | build-tools/bp3d-make/src/builder/interface.rs:98 | when the pattern is not a prefix of the text, it occurs in the text exactly when it occurs in the text without its first character |
| BuilderInterface.Contains | build-tools/bp3d-make/src/builder/interface.rs:98 | `contains` is true exactly when the pattern occurs as a contiguous slice of the text |
| BuilderInterface.Context.Target | build-tools/bp3d-make/src/builder/interface.rs:93-95 | the explicit target triple when one is given, otherwise the host triple |
| BuilderInterface.Context.GetDynlibExtension | build-tools/bp3d-make/src/builder/interface.rs:97-105 | `.dylib` iff the triple names apple; `.dll` iff it names windows but not apple; `.so` iff it names neither |
| BuilderInterface.Context.GetStaticlibExtension | build-tools/bp3d-make/src/builder/interface.rs:107-113 | `.lib` iff the triple names windows, `.a` otherwise |
| BuilderInterface.Context.GetExeExtension | build-tools/bp3d-make/src/builder/interface.rs:115-121 | `.exe` iff the triple names windows, the empty suffix otherwise |
| BuilderInterface.AppleCheckedFirst | build-tools/bp3d-make/src/builder/interface.rs:97-121 | a triple naming both apple and windows gets `.dylib` for dynamic libraries but `.lib` and `.exe` for the others: the apple test is made first only for dynamic libraries |
| BuilderUtil.JoinOption | build-tools/bp3d-make/src/builder/util.rs:36-41 | no component leaves the path unchanged; a component is joined onto it |
| BuilderUtil.Tag | build-tools/bp3d-make/src/builder/util.rs:48-52 | the two builder types have the distinct snake_case tags `cargo` and `lua`, neither equal to the builder's name; `TagRoundTrip` states the round trip |
| BuilderUtil.ParseTag | build-tools/bp3d-make/src/builder/util.rs:48-52 | a tag is accepted exactly when some builder type carries it, and then it names that type |
| BuilderUtil.TagRoundTrip | build-tools/bp3d-make/src/builder/util.rs:48-52 | every type's tag parses back to that type, and no two types share a tag |
| BuilderUtil.RegistryComplete | build-tools/bp3d-make/src/builder/util.rs:44-62 | every builder type is in the registry, and the registry lists its two types once each |
| MakeOutputList.OutputList.constructor | bp3d-make/src/builder/interface.rs:40-45 | a new list has no outputs and no target paths |
| MakeOutputList.OutputList.AddTargetPath | bp3d-make/src/builder/interface.rs:47-49 | exactly one target path is appended; the outputs are unchanged |
| MakeOutputList.OutputList.AddBin | bp3d-make/src/builder/interface.rs:51-53 | exactly one binary named as given is appended; the target paths are unchanged |
| MakeOutputList.OutputList.AddLib | bp3d-make/src/builder/interface.rs:54-56 | exactly one library named as given is appended; the target paths are unchanged |
| MakeOutputList.OutputList.AddConfig | bp3d-make/src/builder/interface.rs:57-59 | exactly one configuration named as given is appended; the target paths are unchanged |
| MakeOutputList.OutputList.AddOther | bp3d-make/src/builder/interface.rs:60-62 | exactly one other output named as given is appended; the target paths are unchanged |
| MakeOutputList.OutputList.Iter | bp3d-make/src/builder/interface.rs:70-77 | one item per target path, in insertion order; every item pairs that path with the whole output list |
| MakeOutputList.IterNeedsPaths | bp3d-make/src/builder/interface.rs:71-76 | with outputs but no target paths, the iteration yields nothing |
| Finder.Find | common/src/finder.rs:72 | `find` gives nothing exactly when no output satisfies the predicate, and otherwise the first one that does |
| Finder.Finder.GetPath | common/src/finder.rs:62-69 | a path is returned exactly when the target directory joined with the file name exists, and it is that joined path |
| Finder.Finder.FirstExisting | common/src/finder.rs:124-141 | an `or_else` chain of `get_path` calls gives the first candidate, in chain order, that exists, and nothing when none does |
| Finder.PathCandidates | common/src/finder.rs:103-175 | one to four candidate names in chain order; a configuration or other file is looked up under its literal name, a binary under one name that is the bare name exactly on Unix; `FoundIsExistingCandidate` ties the chains to the resolution |
| Finder.DebugCandidates | common/src/finder.rs:103-175 | at most two debug-info candidates, none exactly for configuration and other files |
| Finder.ExportCandidates | common/src/finder.rs:103-175 | four import-library candidates for a dynamic library on Windows, none in every other case |
| Finder.Finder.ResolveOutput | common/src/finder.rs:103-175 | each of the three fields is the first existing name of its platform- and linkage-specific candidate chain |
| Finder.Finder.FindFirst | common/src/finder.rs:71-81 | with no matching output every field is absent; otherwise the first matching output is resolved |
| Finder.Finder.KeepFound | common/src/finder.rs:83-101 | at most one result per linkage tried, and every result kept has a primary path |
| Finder.Finder.ResolveOutputAll | common/src/finder.rs:83-101 | the results are the found resolutions under static then dynamic linkage for a library, dynamic alone otherwise; each has a path; at most two for a library and one otherwise |
| Finder.FoundIsExistingCandidate | common/src/finder.rs:62-69 | a reported path exists, lies directly under the target directory and names one of the chain's candidates; nothing is reported exactly when no candidate exists |
| Finder.FirstCandidateWins | common/src/finder.rs:124-127 | when the first candidate of a chain exists it is the answer, whatever else exists |
| Finder.NothingOnDiskIsAbsent | common/src/finder.rs:103-175 | with nothing on disk under the target directory every field is absent: a missing artifact is never an error |
| Finder.BinIgnoresLinkage | common/src/finder.rs:105-118 | a binary resolves identically under either linkage and never has an exports path |
| Finder.ExportsOnlyForWindowsDynamicLib | common/src/finder.rs:132-142 | only a dynamic library on Windows can have an exports path |
| Finder.LiteralNames | common/src/finder.rs:164-173 | a configuration or other output is looked up under its literal name and has no debug-info or exports path |
| Finder.ExistsInPair | common/src/finder.rs:62-69 | with exactly two files in the target directory, a name exists exactly when it is one of them |
| Finder.WindowsNetScenario | common/src/finder.rs:133-142 | on Windows, with only `net.dll` and `net.lib` present, dynamic library `net` resolves to `net.dll`, no debug info, and `net.lib` as exports |
| Finder.KeepFoundMembers | common/src/finder.rs:83-101 | every returned result is the resolution of the output under one of the linkages tried |
| Finder.LibraryFoundBothWays | common/src/finder.rs:85-93 | a library found under both linkages is returned twice, static before dynamic |
| Finder.NonLibraryFoundOnce | common/src/finder.rs:94-99 | an output that is not a library yields its dynamic resolution when that has a path, and nothing otherwise |
| CargoManifest.ProductName | build-tools/bp3d-make/src/builder/cargo.rs:56 | a product's explicit name when it has one, the package's name otherwise |
| CargoManifest.BinOutputs | build-tools/bp3d-make/src/builder/cargo.rs:52-57 | one binary per declared `[[bin]]`, in order, each named by `ProductName` |
| CargoManifest.LibOutputs | build-tools/bp3d-make/src/builder/cargo.rs:59-60 | a library output exactly when a `[lib]` is declared, named by `ProductName` |
| CargoManifest.DeclaredOutputs | build-tools/bp3d-make/src/builder/cargo.rs:52-60 | the binaries first, then at most one library; `DeclaredOutputsShape` gives the full layout |
| CargoManifest.DeclaredOutputsShape | build-tools/bp3d-make/src/builder/cargo.rs:52-70 | one binary per declared binary in declaration order, then the library when one is declared and only then; the library is the last entry |
| CargoBuilder.LoadMembersSnoc | build-tools/bp3d-make/src/builder/cargo.rs:83-87 | loading one more member after a successful prefix either fails with that member's error or appends its manifest |
| CargoBuilder.DoConfigure | build-tools/bp3d-make/src/builder/cargo.rs:78-93 | the configured state, or the error, is exactly the reference: root manifest first, then every workspace member in order, the first failure wins, and the root manifest is stored last |
| CargoBuilder.FailureSticks | build-tools/bp3d-make/src/builder/cargo.rs:84-85 | once a prefix of the members fails to load, loading all of them fails with the same error |
| CargoBuilder.LoadMembersOk | build-tools/bp3d-make/src/builder/cargo.rs:83-87 | loading succeeds exactly when every member's manifest loads, and then yields those manifests in member order |
| CargoBuilder.LoadMembersFirstError | build-tools/bp3d-make/src/builder/cargo.rs:84-85 | a failed load reports the error of the first member that fails |
| CargoBuilder.ConfigureOrder | build-tools/bp3d-make/src/builder/cargo.rs:81-89 | a configured builder holds every member's manifest in member order followed by the root manifest |
| CargoBuilder.ConfigureFails | build-tools/bp3d-make/src/builder/cargo.rs:78-93 | configuration fails exactly when the root manifest or some member manifest fails to load; a root failure is reported as a manifest error |
| CargoBuilder.TargetPath | build-tools/bp3d-make/src/builder/cargo.rs:49-50 | `<module>/target[/<triple>]/<release or debug>`: the triple component is there exactly when a target is given |
| CargoBuilder.ListManifestOutputs | build-tools/bp3d-make/src/builder/cargo.rs:48-72 | one target path is appended, then the manifest's declared outputs, binaries first and the library last |
| CargoBuilder.ListOutputs | build-tools/bp3d-make/src/builder/cargo.rs:115-121 | a fresh list holding every manifest's declared outputs in stored order, and one target path per manifest |
| CargoBuilder.TwoPackageWorkspace | build-tools/bp3d-make/src/builder/cargo.rs:115-121 | a workspace whose members declare binary `a` and library `b` lists `Bin("a")` then `Lib("b")` |
| CargoBuilder.CompileArgs | build-tools/bp3d-make/src/builder/cargo.rs:96-108 | the argument vector always starts with `build` |
| CargoBuilder.FlagArgsNoTarget | build-tools/bp3d-make/src/builder/cargo.rs:98-105 | the release and feature flags never end in a `--target` pair when feature names are valid |
| CargoBuilder.SplitTargetOf | build-tools/bp3d-make/src/builder/cargo.rs:106-108 | the trailing `--target <t>` is present exactly when a target is given |
| CargoBuilder.ParseFeaturesOf | build-tools/bp3d-make/src/builder/cargo.rs:101-105 | the feature flags read back as all-features, or the explicit list when all-features is off |
| CargoBuilder.CompileArgsRoundTrip | build-tools/bp3d-make/src/builder/cargo.rs:96-108 | reading the argument vector back gives exactly the release flag, all-features flag, feature list (dropped under `--all-features`) and target of the context |
| CargoBuilder.CompileCommand | build-tools/bp3d-make/src/builder/cargo.rs:96-109 | the command is `cargo` with the reference argument vector, run in the module's directory |
| CargoBuilder.DoCompile | build-tools/bp3d-make/src/builder/cargo.rs:95-113 | `Ok` exactly when cargo could be spawned, whatever its exit status; a spawn failure is an I/O error carrying the spawn error |
| Orchestrator.StepsTaken | build-tools/bp3d-make/src/core.rs:33-40 | between one and three steps, always a prefix of configure, compile, list outputs |
| Orchestrator.RunBuilder | build-tools/bp3d-make/src/core.rs:33-40 | the module state and steps are the reference ones, and the shared list grows by what `list_outputs` appended exactly when that step was reached |
| Orchestrator.RunBuilderFailFast | build-tools/bp3d-make/src/core.rs:33-40 | a builder completes exactly when all three steps succeed; otherwise it stops at the first failing step with exit code 1 and that step's message (`Failed to configure module`, `Failed to compile module` or `Failed to get module outputs`, then the error); outputs are listed exactly when configure and compile succeeded |
| Orchestrator.ModuleOf | build-tools/bp3d-make/src/core.rs:47-51 | the module built for a workspace entry carries the entry's name and a path under the root |
| Orchestrator.ModulePath | build-tools/bp3d-make/src/core.rs:47 | a module's path is the root joined with its explicit path when it has one, else with its name |
| Orchestrator.EventsOf | build-tools/bp3d-make/src/core.rs:34-38 | one event per step taken, in order, each naming the module |
| Orchestrator.RunModulesPrefix | build-tools/bp3d-make/src/core.rs:46-53 | running one more module after a prefix is one turn of the module loop on the prefix's summary |
| Orchestrator.Call | build-tools/bp3d-make/src/builder/util.rs:55-59 | the tag dispatches to the builder of its own type: state, steps and appended outputs are that builder's |
| Orchestrator.RunWorkspace | build-tools/bp3d-make/src/core.rs:42-54 | an unreadable workspace file ends with exit code 1 and `Failed to load workspace configuration: <error>`, an unparsable one with `Failed to read workspace configuration: <error>`, both before any module; otherwise the exit, events and shared list are the reference module loop's |
| Orchestrator.AbortSticks | build-tools/bp3d-make/src/core.rs:46-53 | once a prefix of the modules has aborted, the later modules change nothing |
| Orchestrator.NoEventsAfterAbort | build-tools/bp3d-make/src/core.rs:46-53 | when module `k` aborts, no later module is configured, compiled or listed, and the run's exit is module `k`'s |
| Orchestrator.CompileFailureListsNothing | build-tools/bp3d-make/src/core.rs:36-39 | a module whose compile fails is configured and compiled, never listed, and adds nothing to the shared list |
| Orchestrator.FullTraceSnoc | build-tools/bp3d-make/src/core.rs:46-53 | a full trace of a module list, extended by the three steps of one more module, is a full trace of the longer list |
| Orchestrator.ListedStep | build-tools/bp3d-make/src/core.rs:46-53 | a module whose builder gets through all three steps keeps the run going and adds exactly its configure, compile and list events |
| Orchestrator.AllListedPrefix | build-tools/bp3d-make/src/core.rs:46-53 | when every module's builder succeeds, so does every module of any prefix |
| Orchestrator.ListedTraceLayout | build-tools/bp3d-make/src/core.rs:46-53 | the events of an all-succeeding run are, module by module, configure, compile and list outputs |
| Orchestrator.AllSucceedEvents | build-tools/bp3d-make/src/core.rs:42-54 | when every builder succeeds the run does not exit and its events are the all-succeeding trace |
| Orchestrator.AllSucceed | build-tools/bp3d-make/src/core.rs:42-54 | when every builder succeeds the run does not exit, and the events are, module by module in workspace order, configure, compile and list outputs |
| LuaEngine.UpperChar | build-tools/bp3d-make/src/lua/engine.rs:81 | an ASCII lower-case letter is mapped to its upper-case letter; every other character is kept |
| LuaEngine.Upper | build-tools/bp3d-make/src/lua/engine.rs:81 | upper-casing keeps the length and maps every character independently |
| LuaEngine.FeatureKey | build-tools/bp3d-make/src/lua/engine.rs:81 | a feature's global is `BP3D_MAKE_FEATURE_` followed by the upper-cased feature name |
| LuaEngine.AllFeaturesEffect | build-tools/bp3d-make/src/lua/engine.rs:69-75 | the all-features flag global is always written; the feature list becomes `["all"]` only when the flag is on, and is otherwise untouched; no other global changes |
| LuaEngine.FeaturesMarked | build-tools/bp3d-make/src/lua/engine.rs:79-82 | every listed feature's global ends up `true` |
| LuaEngine.OnlyFeatureKeysChange | build-tools/bp3d-make/src/lua/engine.rs:79-82 | a global that is not the flag of a listed feature is left exactly as it was, present or absent |
| LuaEngine.FeaturesNeverFalse | build-tools/bp3d-make/src/lua/engine.rs:79-82 | the feature loop never writes `false`: a global that is `false` afterwards was already `false` before |
| LuaEngine.FeatureListStored | build-tools/bp3d-make/src/lua/engine.rs:83 | the feature list global holds the features in input order, the empty list included |
| LuaEngine.Engine.constructor | build-tools/bp3d-make/src/lua/engine.rs:58-63 | a new engine's globals hold exactly the `command` library table with its `run` and `output` functions |
| LuaEngine.Engine.LoadLib | build-tools/bp3d-make/src/lua/engine.rs:45-50 | the library's table is stored under its name; no other global changes |
| LuaEngine.Engine.SetTarget | build-tools/bp3d-make/src/lua/engine.rs:65-67 | only `BP3D_MAKE_TARGET` changes, to the given triple |
| LuaEngine.Engine.SetRelease | build-tools/bp3d-make/src/lua/engine.rs:87-89 | only `BP3D_MAKE_RELEASE` changes, to the given flag |
| LuaEngine.Engine.SetAllFeatures | build-tools/bp3d-make/src/lua/engine.rs:69-75 | the new globals are the reference all-features update of the old ones |
| LuaEngine.Engine.SetFeatures | build-tools/bp3d-make/src/lua/engine.rs:77-85 | the new globals are the old ones with every feature flagged in order and then the collected list stored |
| LuaEngine.Engine.LoadScript | build-tools/bp3d-make/src/lua/engine.rs:52-56 | the globals and the outcome are what reading and running the script at that path gives |
| LuaEngine.Engine.Call | build-tools/bp3d-make/src/lua/engine.rs:91-95 | a name that is not bound to a function is a conversion error and changes nothing; otherwise the function is run and its globals and outcome are the result |
| LuaBuilder.LastDot | build-tools/bp3d-make/src/builder/lua.rs:46 | the index of the last dot of a name, and nothing exactly when the name has no dot |
| LuaBuilder.FileExtension | build-tools/bp3d-make/src/builder/lua.rs:46 | a name has an extension exactly when it is not `..` and its last dot is not its first character; the extension is the text after that dot |
| LuaBuilder.Extension | build-tools/bp3d-make/src/builder/lua.rs:46 | a path's extension is that of its last component, and an empty path has none |
| LuaBuilder.LowerChar | build-tools/bp3d-make/src/builder/lua.rs:47 | an ASCII upper-case letter is mapped to its lower-case letter; every other character is kept |
| LuaBuilder.Lower | build-tools/bp3d-make/src/builder/lua.rs:47 | lower-casing keeps the length and maps every character independently |
| LuaBuilder.FileExtensionOf | build-tools/bp3d-make/src/builder/lua.rs:46 | `stem.ext` with a dot-free `ext` has extension `ext` when the stem is not empty, and none when it is |
| LuaBuilder.ScriptFileNameIsLua | build-tools/bp3d-make/src/builder/lua.rs:51 | the default script name `bp3d-make.lua` has extension `lua` |
| LuaBuilder.IsLuaScript | build-tools/bp3d-make/src/builder/lua.rs:46-52 | a path names a script only when it has a last component with a three-letter extension (`lua` in any case) |
| LuaBuilder.ScriptPath | build-tools/bp3d-make/src/builder/lua.rs:46-52 | the chosen script extends the module path; it is the module path itself exactly when that is a script, else the module path with `bp3d-make.lua` joined |
| LuaBuilder.ScriptPathChoice | build-tools/bp3d-make/src/builder/lua.rs:46-52 | the chosen script always has the `lua` extension; a module path that has it is used as is, any other gets `bp3d-make.lua` joined on; choosing twice changes nothing |
| LuaBuilder.HiddenLuaFileIsDirectory | build-tools/bp3d-make/src/builder/lua.rs:46-52 | a component named `.lua` has no extension, so `bp3d-make.lua` is joined under it |
| LuaBuilder.UpperCaseExtensionIsScript | build-tools/bp3d-make/src/builder/lua.rs:46-49 | the extension test ignores case: `BUILD.LUA` is loaded as the script itself |
| LuaBuilder.PreludeFeatureList | build-tools/bp3d-make/src/builder/lua.rs:42-45 | with all-features the script's feature list is `["all"]`, replacing the explicit list; without it the explicit list is kept in order |
| LuaBuilder.PreludeTargetAndRelease | build-tools/bp3d-make/src/builder/lua.rs:43-45 | the script sees the given triple, or the host triple when none was given, the release flag and the all-features flag |
| LuaBuilder.FeatureKeyDistinct | build-tools/bp3d-make/src/lua/engine.rs:81-88 | a feature's global never coincides with the release, target or feature-list global |
| LuaBuilder.FeatureKeyIsAllFlag | build-tools/bp3d-make/src/lua/engine.rs:70-81 | a feature's global is the all-features flag exactly when the feature upper-cases to `ALL` |
| LuaBuilder.PreludeFeatureFlags | build-tools/bp3d-make/src/builder/lua.rs:42-45 | every listed feature is `true` for the script unless its global is the all-features flag |
| LuaBuilder.FeatureNamedAllIsCleared | build-tools/bp3d-make/src/builder/lua.rs:42-45 | a feature named `all` shares its global with the all-features flag, which is written afterwards: without all-features the script sees it `false` |
| LuaBuilder.LoadFailureSkipsConfigure | build-tools/bp3d-make/src/builder/lua.rs:46-53 | when the script fails to load, that error is the result and `doConfigure` is never run |
| LuaBuilder.ConfigureSucceeds | build-tools/bp3d-make/src/builder/lua.rs:40-57 | configuration succeeds exactly when the script loads, binds `doConfigure` to a function, and that call succeeds |
| LuaBuilder.DoConfigure | build-tools/bp3d-make/src/builder/lua.rs:40-57 | the builder is created exactly when the reference succeeds, then with a fresh engine whose globals are the reference's; otherwise the error is the reference's |
| LuaBuilder.DoCompile | build-tools/bp3d-make/src/builder/lua.rs:59-62 | compiling is calling `doCompile`: a missing or non-function `doCompile` is a conversion error that changes nothing; otherwise it is the interpreter's outcome |
| LuaOutputList.MethodName | build-tools/bp3d-make/src/lua/output_list.rs:46-67 | every registered method name starts with `add`; `MethodNameRoundTrip` states that the names are distinct and resolve back |
| LuaOutputList.ParseMethod | build-tools/bp3d-make/src/lua/output_list.rs:46-67 | a name resolves only to the method registered under that name |
| LuaOutputList.MethodNameRoundTrip | build-tools/bp3d-make/src/lua/output_list.rs:46-67 | every method resolves under its own name, and a name resolves exactly when some method is registered under it |
| LuaOutputList.OutputOf | build-tools/bp3d-make/src/lua/output_list.rs:51-66 | the output carries the given name, and its kind is the one the method names |
| LuaOutputList.OutputListWrapper.constructor | build-tools/bp3d-make/src/lua/output_list.rs:36-38 | wraps a fresh list with no outputs and no target paths |
| LuaOutputList.OutputListWrapper.IntoInner | build-tools/bp3d-make/src/lua/output_list.rs:40-42 | gives back the wrapped list itself |
| LuaOutputList.OutputListWrapper.Invoke | build-tools/bp3d-make/src/lua/output_list.rs:47-66 | every method succeeds; `addTargetPath` appends one path and leaves the outputs alone; each other method appends one output of its kind and leaves the paths alone |
| LuaOutputList.OutputListWrapper.CallByName | build-tools/bp3d-make/src/lua/output_list.rs:46-67 | an unknown method name is an error and leaves the list unchanged; a known one succeeds and adds exactly one entry |
| Wrappers.OrElse | common/src/finder.rs:124-127 | `or_else` keeps a present value and otherwise takes the fallback |
| Termination.ExpectExit | util/src/lib.rs:36-44 | `Ok(v)` continues with `v`; an error ends the process with the given code and the line `msg: error` |
| PackageCore.GetName | bp3d-package/src/core.rs:52-54 | the name of the manifest's package |
| PackageCore.GetVersion | bp3d-package/src/core.rs:56-58 | the version of the manifest's package |
| PackageCore.GetOutputs | bp3d-package/src/core.rs:60-62 | one output per declared binary plus one when a library is declared; the library, and only it, sits right after the binaries; `GetOutputsShape` states names and order |
| PackageCore.GetOutputsShape | bp3d-package/src/core.rs:60-62 | one binary per declared binary in order, then the library when one is declared; unnamed products take the package name; every entry but the last is a binary |
| PackageCore.BuildPhases | bp3d-package/src/core.rs:70-73 | one build phase per target, in target order |
| PackageCore.PackagePhases | bp3d-package/src/core.rs:77-80 | one packaging phase per target, in target order |
| PackageCore.PhasesAfterLoadLayout | bp3d-package/src/core.rs:69-82 | after loading come `n` builds in target order, the post-build phase, `n` packagings in target order and the full package, `2n + 2` phases in all; nothing before the post-build phase is a packaging |
| PackageCore.PlanLayout | bp3d-package/src/core.rs:65-83 | the whole plan is load, every build, post-build, every packaging, full package; with no targets it is load, post-build, full package |
| PackageCore.FailureMessage | bp3d-package/src/core.rs:68-82 | the five literal `expect_exit` messages of `run_packager`, one per kind of phase |
| PackageCore.FailureMessageLength | bp3d-package/src/core.rs:68-82 | the length of each phase's message; no two kinds of phase share a length |
| PackageCore.FailureMessageNamesPhase | bp3d-package/src/core.rs:68-82 | two phases fail with the same message exactly when they are the same kind of phase, so the message tells which phase failed |
| PackageCore.PhaseExit | bp3d-package/src/core.rs:39-48 | a phase continues exactly when its hook succeeds; a failing phase exits with code 1 and that phase's message followed by the error |
| PackageCore.FirstFailureFrom | bp3d-package/src/core.rs:65-83 | either every phase from the start index succeeds, or the index returned is a failing phase preceded only by successful ones |
| PackageCore.FirstFailureFromAt | bp3d-package/src/core.rs:65-83 | a failing phase preceded only by successful ones is the first failure |
| PackageCore.FirstFailureFromNone | bp3d-package/src/core.rs:65-83 | when every phase succeeds, there is no first failure |
| PackageCore.ExecuteFailFast | bp3d-package/src/core.rs:65-83 | the phases run are a prefix of the plan; the run completes, through every phase, exactly when every phase succeeds; otherwise it ends with code 1 at the first failing phase, all phases before it having succeeded |
| PackageCore.BuildPhaseAt | bp3d-package/src/core.rs:70-73 | phase `i` after loading builds target `i` |
| PackageCore.PackagePhaseAt | bp3d-package/src/core.rs:77-80 | phase `n + 1 + j` after loading packages target `j` |
| PackageCore.PhaseStep | bp3d-package/src/core.rs:39-48 | after the phases before it succeeded, one phase extends the trace by itself and either ends the run as the reference does or joins the successful phases |
| PackageCore.RunStopsAt | bp3d-package/src/core.rs:65-83 | when phase `k` is the first to fail, the run is load and the phases up to `k`, ending with `k`'s exit |
| PackageCore.RunCompletes | bp3d-package/src/core.rs:65-83 | when every phase succeeds, the run is the whole plan and does not exit |
| PackageCore.BuildTargets | bp3d-package/src/core.rs:70-73 | either every target builds and the trace is the build phases, or the run ends exactly as the reference ends it |
| PackageCore.PackageTargets | bp3d-package/src/core.rs:77-80 | entered after every build and the post-build phase succeeded: either every target is packaged and the trace reaches the full-package phase, or the run ends exactly as the reference ends it |
| PackageCore.RunPackager | bp3d-package/src/core.rs:65-83 | the phases run and the exit are exactly the reference run on the parsed configuration |
| PackageCore.RunFollowsPlan | bp3d-package/src/core.rs:65-83 | a run starts by loading and follows a prefix of the plan; it completes exactly when loading and every phase succeed, and then it is the whole plan; a load failure exits with code 1 before any phase; every exit has code 1 |
| PackageCore.RunIsPlanPrefix | bp3d-package/src/core.rs:65-83 | the phases of any run, starting with loading, are a prefix of the plan |
| PackageCore.PrefixPackagingAfterBuilds | bp3d-package/src/core.rs:70-80 | in any prefix of the plan, a packaging phase comes after every build and the post-build phase |
| PackageCore.PackagingAfterBuilds | bp3d-package/src/core.rs:70-80 | no target is packaged before every target was built and the post-build phase ran |
| PackageInterface.ConfigDirName | bp3d-package/src/packager/interface.rs:60-63 | `debug` exactly for the debug configuration, `release` exactly for the release one |
| PackageInterface.TargetDirLayout | bp3d-package/src/packager/interface.rs:64 | a target directory is the root followed by `target`, the triple and the configuration's name |
| PackageInterface.TargetDirInjective | bp3d-package/src/packager/interface.rs:59-65 | two target directories under one root coincide exactly when their triples and configurations coincide |
| PackageInterface.Context.GetTargetPath | bp3d-package/src/packager/interface.rs:59-65 | the context's target path for a triple is the target directory of its root and configuration |
| PackageInterface.BuildTargetCommand | bp3d-package/src/packager/interface.rs:74-78 | the default build spawns `cargo build --target <triple>` in the crate root |
| PackageInterface.DefaultBuildTarget | bp3d-package/src/packager/interface.rs:73-81 | the default build of a target fails exactly when cargo cannot be spawned, with the spawn error |
| PackageInterface.DefaultHooks | bp3d-package/src/packager/interface.rs:73-93 | the default post-build, packaging and full-package hooks succeed; the default target build succeeds whenever cargo could be spawned, even when cargo exits with a failure |
| LegacyPackager.DefaultTargets | src/main.rs:101-103 | an empty target list becomes exactly the host triple; any other list is kept as given; the result is never empty |
| LegacyPackager.TargetsOf | src/main.rs:101-104 | the targets handed to the packager are never empty, and they are the host triple alone exactly when no target or only the host was given |
| LegacyPackager.RootOf | src/main.rs:105 | the given root, or `./` when none was given |
| LegacyPackager.ConfigOf | src/main.rs:109 | the release configuration exactly when the release flag is set |
| LegacyPackager.TargetPathFromFlag | src/packager/mod.rs:52-58 | a context built from the release flag puts a triple's build in `<root>/target/<triple>/release` with the flag and `.../debug` without |
| LegacyPackager.Start | src/main.rs:99-113 | the outcome is exactly the reference: defaults applied, root manifest loaded, then the packager run on that context |
| LegacyPackager.StartOutcome | src/main.rs:105-112 | an unreadable root manifest ends the process with code 1 and `Failed to load root manifest: <error>` before any phase; otherwise the packager is configured from the defaulted root and runs over the defaulted targets |
| LegacyPackager.HostOnlyRun | src/main.rs:79-103 | with no target given and every phase succeeding, the run is load, build the host, post-build, package the host, full package |

## Left out

- Parsing of `Cargo.toml`, `bp3d-make.toml` and the packager configuration (`parse_manifest`): parsing is an oracle, and the manifest keeps only the fields the tools read.
- `Path::join` with an absolute component, which replaces the path: only relative joins are modelled.
- Non-UTF-8 file names: in the extension test of the Lua backend such a name never counts as a script. The model has only strings.
- `LuaEngine.Upper`, `LuaBuilder.Lower`: these do ASCII case mapping only. `str::to_uppercase` and `str::to_lowercase` also map non-ASCII letters, and Unicode case tables are not modelled.
- The Lua interpreter itself: the safe standard library, reading a script file, executing a chunk and calling a Lua function are oracles over the table of globals. Failures of `Lua::new_with`, of `create_table` and of the global setters are not modelled; the setters always succeed.
- The contents of the `command` library (`lua/lib_command.rs`): the library is modelled as a table holding its `run` and `output` functions.
- The Lua backend's `list_outputs`: it calls `call_outputs`, which is not defined in the engine shown, so its behaviour is unknown. In the orchestrator it is the backend oracle's listed outputs and result.
- `LuaEngine.NotCallable`: the error text for a global that is not a function stands in for mlua's `FromLuaConversionError` message, whose wording is not modelled.
- The wrapper methods of `LuaOutputList` are modelled as calls by name. The mlua userdata machinery, and the argument conversion errors mlua raises before a method runs, are not modelled.
- The packagers themselves (`packager/framework.rs`, `build-tools/bp3d-package/src/packager/util.rs`), `src/manifest_ext.rs` and the command-line parsers (`args.rs`, `build-tools/bp3d-package/src/main.rs`): they are outside this model. A packager is given by the outcome of each of its hooks.
- Console output (`println!`, and the `eprintln!` of `expect_exit` beyond the message it carries): it is not modelled. The orchestrator records one event per step reached, naming the module; the line printed before listing outputs (`Adding output files...`) does not name it.
- `Orchestrator.Call`: `BuilderType::call` declares its list parameter as `&mut Vec<PathBuf>`, while `run_builder` takes, and `run_workspace` passes, an `OutputList`. The two signatures do not agree, and `Call` follows `run_workspace`'s types: it appends to the shared `OutputList`.
- The builder registry is instantiated with the two backends shown, Cargo and Lua; the list of registered backends is not part of the sources.
- `Context` of the older bp3d-make interface (`bp3d-make/src/builder/interface.rs`) has the same fields and `target()` as the newer one and is modelled once, as `BuilderInterface.Context`.
- Module names and output names are single path components: a name containing `/` is one element of a `Path`, whereas `Path::join` splits it, so `["a/b"]` and `["a", "b"]` differ here but name the same file on disk (`Orchestrator.ModulePath`, `Finder.Finder.GetPath`).
- `Manifest::package()` panics for a virtual manifest. `PackageCore.GetName` and `PackageCore.GetVersion` go through it, and so do `CargoManifest.ProductName` and `PackageCore.GetOutputs`, because `unwrap_or` evaluates the package name even for a named product. Listing the outputs of a package-less manifest with a `[[bin]]` or `[lib]` therefore panics in the source. That case is not modelled, because every manifest here has a package.
- Process exit codes beyond `expect_exit`'s fixed code 1, signals, and concurrency: not modelled.
