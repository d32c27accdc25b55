/**
 * Helpers of the bp3d-make builder module: `PathExt::join_option` and the
 * closed registry of builder backends. The registry is instantiated with the
 * two backends modelled here, the native Cargo backend and the Lua backend.
 */
module BuilderUtil {
  import opened Wrappers
  import opened Paths

  /** `join_option`: join the component when there is one, else keep the path. */
  function JoinOption(p: Path, component: Option<string>): (r: Path)
    ensures component.None? ==> r == p
    ensures component.Some? ==> r == Join(p, component.value)
  {
    match component
    case None => p
    case Some(v) => Join(p, v)
  }

  /** One variant per registered builder. */
  datatype BuilderType = Cargo | Lua

  /** Every registered builder type, in registration order. */
  const AllBuilderTypes: seq<BuilderType> := [Cargo, Lua]

  /** `Builder::NAME` of each backend. */
  function Name(t: BuilderType): string
  {
    match t
    case Cargo => "Cargo"
    case Lua => "Lua"
  }

  /** The tag a workspace declares (`serde(rename_all = "snake_case")`). */
  function Tag(t: BuilderType): (r: string)
    ensures r == "cargo" <==> t == Cargo
    ensures r == "lua" <==> t == Lua
    ensures r != Name(t)
  {
    match t
    case Cargo => "cargo"
    case Lua => "lua"
  }

  /** Deserialising a tag: exactly the registered tags are accepted. */
  function ParseTag(s: string): (r: Option<BuilderType>)
    ensures r.Some? <==> exists t :: Tag(t) == s
    ensures r.Some? ==> Tag(r.value) == s
  {
    if s == "cargo" then assert Tag(Cargo) == s; Some(Cargo)
    else if s == "lua" then assert Tag(Lua) == s; Some(Lua)
    else
      assert forall t :: Tag(t) != s;
      None
  }

  /** Tags round-trip and are distinct, so the registry is a bijection between tags and types. */
  lemma TagRoundTrip(t: BuilderType)
    ensures ParseTag(Tag(t)) == Some(t)
    ensures forall u :: Tag(u) == Tag(t) ==> u == t
  {
  }

  /** The registry lists every variant exactly once. */
  lemma RegistryComplete(t: BuilderType)
    ensures t in AllBuilderTypes
    ensures |AllBuilderTypes| == 2 && AllBuilderTypes[0] != AllBuilderTypes[1]
  {
  }
}
