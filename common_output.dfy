/**
 * The abstract artifact descriptor of the common crate: one of four closed
 * kinds, each carrying a logical name (never a path).
 */
module CommonOutput {
  datatype Output = Bin(name: string) | Lib(name: string) | Config(name: string) | Other(name: string)
  {
    /** `Output::is_lib`. */
    predicate IsLib() { Lib? }
  }
}
