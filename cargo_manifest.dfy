/**
 * The slice of a Cargo manifest (`Cargo.toml`) the tools read: the package's
 * name and version, the declared binaries and library with optional explicit
 * names, and the workspace member list. Parsing is not modelled.
 */
module CargoManifest {
  import opened Wrappers
  import opened Paths
  import opened CommonOutput

  datatype Package = Package(name: string, version: string)

  /** A `[[bin]]` or `[lib]` entry; only its optional name matters here. */
  datatype Product = Product(name: Option<string>)

  datatype Manifest = Manifest(package: Package, bin: seq<Product>, lib: Option<Product>, workspace: Option<seq<Path>>)

  /** `product.name.as_deref().unwrap_or(package.name)`. */
  function ProductName(p: Product, m: Manifest): (r: string)
    ensures p.name.Some? ==> r == p.name.value
    ensures p.name.None? ==> r == m.package.name
  {
    match p.name
    case Some(n) => n
    case None => m.package.name
  }

  /** One `Bin` per declared binary, in declaration order. */
  function BinOutputs(m: Manifest): (r: seq<Output>)
    ensures |r| == |m.bin|
    ensures forall i :: 0 <= i < |r| ==> r[i].Bin? && r[i].name == ProductName(m.bin[i], m)
  {
    seq(|m.bin|, i requires 0 <= i < |m.bin| => Bin(ProductName(m.bin[i], m)))
  }

  /** At most one `Lib`, present exactly when a library is declared. */
  function LibOutputs(m: Manifest): (r: seq<Output>)
    ensures |r| <= 1 && (|r| == 1 <==> m.lib.Some?)
    ensures |r| == 1 ==> r[0].Lib? && r[0].name == ProductName(m.lib.value, m)
  {
    if m.lib.Some? then [Lib(ProductName(m.lib.value, m))] else []
  }

  /** Every output a manifest declares: the binaries, then the library. */
  function DeclaredOutputs(m: Manifest): (r: seq<Output>)
    ensures |r| == |m.bin| + (if m.lib.Some? then 1 else 0)
    ensures r[..|m.bin|] == BinOutputs(m)
  {
    BinOutputs(m) + LibOutputs(m)
  }

  /** The shape of `DeclaredOutputs`: binaries in order first, the library (if any) last, names falling back to the package's. */
  lemma DeclaredOutputsShape(m: Manifest)
    ensures |DeclaredOutputs(m)| == |m.bin| + (if m.lib.Some? then 1 else 0)
    ensures forall i :: 0 <= i < |m.bin| ==> DeclaredOutputs(m)[i] == Bin(ProductName(m.bin[i], m))
    ensures m.lib.Some? ==> DeclaredOutputs(m)[|m.bin|] == Lib(ProductName(m.lib.value, m))
    ensures forall i :: 0 <= i < |DeclaredOutputs(m)| ==> (DeclaredOutputs(m)[i].Lib? <==> i == |m.bin|)
  {
  }
}
