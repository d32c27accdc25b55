/**
 * The output list of the bp3d-make builder interface (the layout with target
 * base paths): an append-only list of name-carrying outputs plus a list of
 * directories the resolver should search under.
 */
module MakeOutputList {
  import opened Paths
  import opened CommonOutput

  /** One item of `iter`: the whole output list paired with one target path. */
  datatype PathOutputList = PathOutputList(outputs: seq<Output>, path: Path)

  class OutputList {
    var outputs: seq<Output>
    var paths: seq<Path>

    /** `OutputList::new`. */
    constructor ()
      ensures outputs == [] && paths == []
    {
      outputs := [];
      paths := [];
    }

    method AddTargetPath(path: Path)
      modifies this
      ensures paths == old(paths) + [path]
      ensures outputs == old(outputs)
    {
      paths := paths + [path];
    }

    method AddBin(name: string)
      modifies this
      ensures outputs == old(outputs) + [Bin(name)]
      ensures paths == old(paths)
    {
      outputs := outputs + [Bin(name)];
    }

    method AddLib(name: string)
      modifies this
      ensures outputs == old(outputs) + [Lib(name)]
      ensures paths == old(paths)
    {
      outputs := outputs + [Lib(name)];
    }

    method AddConfig(name: string)
      modifies this
      ensures outputs == old(outputs) + [Config(name)]
      ensures paths == old(paths)
    {
      outputs := outputs + [Config(name)];
    }

    method AddOther(name: string)
      modifies this
      ensures outputs == old(outputs) + [Other(name)]
      ensures paths == old(paths)
    {
      outputs := outputs + [Other(name)];
    }

    /** `iter`: one item per target path, in insertion order, each seeing every output. */
    function Iter(): (r: seq<PathOutputList>)
      reads this
      ensures |r| == |paths|
      ensures forall i :: 0 <= i < |r| ==> r[i].path == paths[i] && r[i].outputs == outputs
    {
      seq(|paths|, i requires 0 <= i < |paths| reads this => PathOutputList(outputs, paths[i]))
    }
  }

  /** Without target paths `iter` yields nothing, however many outputs were added. */
  lemma IterNeedsPaths(l: OutputList)
    requires l.paths == [] && l.outputs != []
    ensures l.Iter() == []
  {
  }
}
