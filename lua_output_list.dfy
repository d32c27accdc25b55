/**
 * The output list handed to Lua scripts: a wrapper around the bp3d-make
 * output list whose methods scripts call by name.
 */
module LuaOutputList {
  import opened Wrappers
  import opened Paths
  import CommonOutput
  import MakeOutputList

  /** The methods a script can call on the wrapper. */
  datatype WrapperMethod = AddTargetPath | AddBin | AddLib | AddConfig | AddOther

  /** The name under which each method is registered. */
  function MethodName(m: WrapperMethod): (r: string)
    ensures |r| > 3 && r[..3] == "add"
  {
    match m
    case AddTargetPath => "addTargetPath"
    case AddBin => "addBin"
    case AddLib => "addLib"
    case AddConfig => "addConfig"
    case AddOther => "addOther"
  }

  /** Method lookup by name, as the userdata's method table resolves a call. */
  function ParseMethod(name: string): (r: Option<WrapperMethod>)
    ensures r.Some? ==> MethodName(r.value) == name
  {
    if name == "addTargetPath" then Some(AddTargetPath)
    else if name == "addBin" then Some(AddBin)
    else if name == "addLib" then Some(AddLib)
    else if name == "addConfig" then Some(AddConfig)
    else if name == "addOther" then Some(AddOther)
    else None
  }

  /** Every registered method is found under its own name, and only names of methods are found. */
  lemma MethodNameRoundTrip(m: WrapperMethod, name: string)
    ensures ParseMethod(MethodName(m)) == Some(m)
    ensures ParseMethod(name).Some? <==> exists w :: MethodName(w) == name
  {
    if exists w :: MethodName(w) == name {
      var w :| MethodName(w) == name;
      match w
      case AddTargetPath =>
      case AddBin =>
      case AddLib =>
      case AddConfig =>
      case AddOther =>
    }
  }

  /** The output a name-taking method appends. */
  function OutputOf(m: WrapperMethod, name: string): (r: CommonOutput.Output)
    requires m != AddTargetPath
    ensures r.name == name
    ensures (m == AddBin <==> r.Bin?) && (m == AddLib <==> r.Lib?) &&
            (m == AddConfig <==> r.Config?) && (m == AddOther <==> r.Other?)
  {
    match m
    case AddBin => CommonOutput.Bin(name)
    case AddLib => CommonOutput.Lib(name)
    case AddConfig => CommonOutput.Config(name)
    case AddOther => CommonOutput.Other(name)
  }

  /** `OutputListWrapper`: the Lua-visible handle on one output list. */
  class OutputListWrapper {
    const inner: MakeOutputList.OutputList

    /** `OutputListWrapper::new`: wraps a fresh, empty list. */
    constructor ()
      ensures fresh(inner) && inner.outputs == [] && inner.paths == []
    {
      inner := new MakeOutputList.OutputList();
    }

    /** `into_inner`: the wrapped list, with everything the script added. */
    method IntoInner() returns (l: MakeOutputList.OutputList)
      ensures l == inner
    {
      l := inner;
    }

    /**
     * One method call from the script. `toPath` is `PathBuf::from` on the
     * string argument. Each method appends exactly one element to exactly
     * one of the list's sequences and reports success.
     */
    method Invoke(m: WrapperMethod, arg: string, toPath: string -> Path) returns (r: Result<(), string>)
      modifies inner
      ensures r.Ok?
      ensures m == AddTargetPath ==> inner.paths == old(inner.paths) + [toPath(arg)] && inner.outputs == old(inner.outputs)
      ensures m != AddTargetPath ==> inner.outputs == old(inner.outputs) + [OutputOf(m, arg)] && inner.paths == old(inner.paths)
    {
      r := Ok(());
      match m
      case AddTargetPath => inner.AddTargetPath(toPath(arg));
      case AddBin => inner.AddBin(arg);
      case AddLib => inner.AddLib(arg);
      case AddConfig => inner.AddConfig(arg);
      case AddOther => inner.AddOther(arg);
    }

    /**
     * A call by method name: an unknown name is an error and leaves the list
     * alone; a known name does what the method registered under it does.
     */
    method CallByName(name: string, arg: string, toPath: string -> Path) returns (r: Result<(), string>)
      modifies inner
      ensures ParseMethod(name).None? ==> r.Err? && inner.outputs == old(inner.outputs) && inner.paths == old(inner.paths)
      ensures ParseMethod(name) == Some(AddTargetPath) ==>
                r.Ok? && inner.paths == old(inner.paths) + [toPath(arg)] && inner.outputs == old(inner.outputs)
      ensures ParseMethod(name).Some? && ParseMethod(name).value != AddTargetPath ==>
                r.Ok? && inner.outputs == old(inner.outputs) + [OutputOf(ParseMethod(name).value, arg)] &&
                inner.paths == old(inner.paths)
    {
      match ParseMethod(name)
      case None =>
        r := Err("attempt to call a missing method '" + name + "'");
      case Some(m) =>
        r := Invoke(m, arg, toPath);
    }
  }
}
