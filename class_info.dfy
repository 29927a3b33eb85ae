/** The runtime class-hierarchy record: for one bound native type, its
    identity and, for every ancestor reachable through its bases, the
    displacement that turns a pointer to the type into a pointer to that
    ancestor. */
module ClassInfo {
  import opened Wrappers

  /** A native type descriptor (`boost::typeindex::type_info`). Two
      descriptors denote the same type exactly when they are equal; `name` is
      what `name()` reports, used only in error messages. */
  datatype TypeInfo = TypeInfo(token: nat, name: string)

  /** Object addresses are plain integers; address 0 is the null pointer. */
  type Address = int
  const Null: Address := 0

  /** `std::numeric_limits<std::ptrdiff_t>::min()` on a 64-bit target: the
      offset that marks a base as reachable along more than one equally
      direct path. */
  const ErrorAmbiguousBase: int := -0x8000_0000_0000_0000

  /** One entry of a class's base table: the displacement to the base
      sub-object (or `ErrorAmbiguousBase`) and the number of classes between
      the derived class and that base on the path the entry came from
      (0 for a direct base). */
  datatype BaseRelation = BaseRelation(offset: int, nIntermediateBases: nat)

  /** A base table maps the static id of each known ancestor to its relation. */
  type BaseTable = map<nat, BaseRelation>

  /** `class_info`: the descriptor of the type, its static id and its base table. */
  datatype ClassInfo = ClassInfo(rttiType: TypeInfo, staticId: nat, bases: BaseTable)

  /** Lookup of one key, as `bases.find(k)` compared with `bases.end()`. */
  function Get(t: BaseTable, k: nat): Option<BaseRelation>
  {
    if k in t then Some(t[k]) else None
  }
}
