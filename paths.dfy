/**
 * Filesystem paths as sequences of components. `Path::join` with a relative
 * component appends it; the absolute-path-replaces case is not modelled.
 */
module Paths {
  type Path = seq<string>

  /** `path.join(component)` for a single relative component. */
  function Join(p: Path, component: string): (r: Path)
    ensures |r| == |p| + 1 && r[..|p|] == p && r[|p|] == component
  {
    p + [component]
  }

  /** `path.join(other)` for a relative multi-component path. */
  function JoinPath(p: Path, other: Path): (r: Path)
    ensures |r| == |p| + |other| && r[..|p|] == p && r[|p|..] == other
  {
    p + other
  }
}
