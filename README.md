# apollo class-hierarchy metadata, modelled in Dafny

apollo binds C++ classes, including classes with multiple inheritance, to
Lua. At run time it keeps, for every bound class, a `class_info` record: the
class's type descriptor, its static id, and a base table that maps the id of
every reachable base class to the displacement from the derived object to
that base sub-object, with the number of intermediate classes on the path.
This project models the code in `src/class_info.cpp` that maintains and uses
these records:

- **Type-id allocation** (`allocate_class_id`): a process-wide table from
  type to a dense id, first use wins. Modelled as the class
  `ClassIdAllocator`, whose fields are the map and the next id.
- **Building a record** (`make_class_info_impl`): the nested loop over the
  direct bases and each base's own table, with its three-way merge, exactly
  as written. It is modelled as the method `MakeClassInfo`, proved against
  the specification function `BuildBases`, and lemmas about `BuildBases`.
- **Casting** (`try_cast_class`, `cast_class`, `n_class_conversion_steps`):
  pure lookups over a finished record. Addresses are integers and errors
  are values.
- **Per-state registry** (`registered_classes`, `registered_class_opt`,
  `registered_class`): the class `LuaState`, whose registry slot is empty
  until the first access creates the map.

Modules: `Wrappers` (Option, Result), `ClassInfo` (the record, the ambiguity
marker `ErrorAmbiguousBase` = minimum of a 64-bit `ptrdiff_t`), `ClassIdAllocator`,
`ClassInfoBuilder`, `CastEngine`, `ClassRegistry`, `IntendedBuilder` (the
corrected merge, see Findings) and `Scenarios` (worked hierarchies).

The merge compares the stored depth with the indirect entry's own depth
`indirect_base.second.n_intermediate_bases`, not with the composite depth
one greater (src/class_info.cpp:150-159). The comment at
src/class_info.cpp:133-136 describes a most-direct-path rule.
The model follows the code. The difference is logged under Findings.

## Model

| member | source | states |
|---|---|---|
| `ClassIdAllocator.ClassIdAllocator.constructor` | src/class_info.cpp:31-39 | the id table starts empty with next id 0, and the density invariant holds |
| `ClassIdAllocator.ClassIdAllocator.AllocateClassId` | src/class_info.cpp:24-44 | a known type gets its stored id and nothing changes; a new type gets the current next id, which then grows by exactly 1; ids stay dense (`\|ids\| == nextId`, all below it) and distinct types never share an id |
| `ClassInfoBuilder.MakeClassInfo` | src/class_info.cpp:123-164 | the nested loop builds a record with the given type and static id, whose base table is `BuildBases` of the direct bases in order (empty with no bases), whatever order the inner loop visits a base's table in |
| `ClassInfoBuilder.MergeBaseCases` | src/class_info.cpp:142-160 | per key: an absent key gets `{d+o, n+1}`; a stored depth greater than `n` is replaced by it; a stored depth equal to `n` keeps its depth and gets the ambiguity offset; a smaller one stays; keys the base does not know keep their entries |
| `ClassInfoBuilder.BuildBasesKeys` | src/class_info.cpp:137-162 | the built table's keys are exactly the direct bases' ids plus every key of their own tables; no direct bases gives the empty table |
| `ClassInfoBuilder.LastDirectBaseEntry` | src/class_info.cpp:141-160 | the last direct base of a type ends at depth 0 with its own offset, overwriting any earlier entry and ambiguity mark; later merges never replace it and only turn its offset into the marker, exactly when it or a later base lists that type at depth 0 |
| `ClassInfoBuilder.BuildBasesDepthNeverGrows` | src/class_info.cpp:137-162 | once a key is in the table it stays, and its depth never increases as further direct bases are processed |
| `CastEngine.TryCastClass` | src/class_info.cpp:93-110 | success exactly for the class itself (address unchanged, table not consulted) or a base whose entry is not the marker (address plus offset); otherwise null with "Requested type is no base class." for an absent target and "Requested type is ambigous base class." for a marked one |
| `CastEngine.CastClass` | src/class_info.cpp:78-91 | succeeds exactly when the non-throwing cast reports no error, with its address; otherwise fails with that error message and the source class's type name |
| `CastEngine.NClassConversionSteps` | src/class_info.cpp:112-121 | 0 exactly for the class itself, `no_conversion` exactly for an absent target, otherwise the entry's depth plus one, the ambiguity marker notwithstanding |
| `CastEngine.ConversionStepsAgreeWithCast` | src/class_info.cpp:97-120 | a successful cast has a step count; `no_conversion` coincides with the "no base class" error; an ambiguous base still gets a count of at least one |
| `CastEngine.CastToDirectBase` | src/class_info.cpp:141-160 | in a built record, the cast to the last direct base of a type gives the address plus that base's offset at one step, unless that base or a later one lists the type at depth 0 (then ambiguous) |
| `ClassRegistry.ClassInfoMap.constructor` | src/class_info.cpp:54 | a newly created class map is empty |
| `ClassRegistry.LuaState.constructor` | src/class_info.cpp:49-52 | a fresh state has no class map in its registry slot |
| `ClassRegistry.LuaState.RegisteredClasses` | src/class_info.cpp:46-57 | returns the stored map when there is one; otherwise stores and returns a fresh empty map, so later calls return the same map |
| `ClassRegistry.LuaState.RegisteredClassOpt` | src/class_info.cpp:60-67 | returns the entry for the type exactly when it is in the state's map, nothing otherwise; it creates the map on first access |
| `ClassRegistry.LuaState.RegisteredClass` | src/class_info.cpp:69-76 | for a registered type (the assertion becomes a precondition) returns its entry and leaves the slot as it was |
| `IntendedBuilder.DirectMergeIsOverwrite` | src/class_info.cpp:141 | when the direct base types are pairwise distinct, merging a direct entry by the corrected rule gives `{offset, 0}`, the same as the unconditional assignment |
| `IntendedBuilder.IntendedMostDirect` | src/class_info.cpp:131-136 | corrected merge: every entry equals the reference resolution `Resolve` of all candidate paths to that ancestor: present exactly when some path reaches it, with the least path depth and the offset of the only path of that depth, or the marker when several paths share it |
| `Scenarios.BaseClassTables` | src/class_info.cpp:137-162 | the builder gives single-base classes one depth-0 entry, and gives `B : A, B1(: A)` an ambiguous depth-0 entry for `A` |
| `Scenarios.DiamondAsWritten` | src/class_info.cpp:150-154 | as written, the classic diamond keeps the path through the last base at depth 1 and the cast to the shared base succeeds |
| `Scenarios.DiamondIntended` | src/class_info.cpp:133-136 | with the corrected merge the classic diamond is ambiguous and the cast fails |
| `Scenarios.InheritedAmbiguityAsWritten` | src/class_info.cpp:143 | as written, an ambiguity mark inherited from a base at a nonzero offset becomes an ordinary offset and the cast succeeds with a displaced address |
| `Scenarios.InheritedAmbiguityIntended` | src/class_info.cpp:133-136 | with the corrected merge, the diamond `BD : B1, B2` built by that merge has `A` marked at depth 1, and `D : X, BD` keeps `A` marked at depth 2, so the cast fails |
| `Scenarios.SinglePath` | src/class_info.cpp:137-149 | a single path to an indirect base is found at depth 1, with offset equal to the base's offset plus the indirect offset; a self-cast leaves the address alone at 0 steps |
| `Scenarios.SinglePathThroughOneBase` | src/class_info.cpp:146-149 | with two bases where only one derives from `A`, the single path to `A` goes through it at depth 1, in both builders |
| `Scenarios.PathTableOfC` | src/class_info.cpp:137-162 | the builder gives `Y : A` and `C : Y` the tables used in the order scenarios (`A` at depth 1 in `C`) |
| `Scenarios.OrderDependenceAsWritten` | src/class_info.cpp:150-159 | as written the result depends on base order: `D : B1, C` marks `A` ambiguous at depth 1, while `D : C, B1` resolves `A` through `B1` at `{12, 1}` |
| `Scenarios.ShortestPathPreferredIntended` | src/class_info.cpp:133-136 | with the corrected merge the depth-1 path through `B1` beats the depth-2 path through `C` in both orders |
| `Scenarios.UnrelatedClasses` | src/class_info.cpp:100-103 | unrelated classes: "no base class" error, `no_conversion`, and a throwing cast that carries the source type's name |

## Left out

- The Lua registry plumbing is not modelled (`lua_rawgetp`, `lua_touserdata`, `push_gc_object`, `lua_rawsetp` and the light key). It is reduced to one optional slot in `LuaState`, and garbage collection of the map is not modelled.
- The address probe `base.cast(1) - 1` is not modelled. Each direct base's offset is an input of `BaseInfo`.
- Boost's exception and error-info machinery is not modelled. `cast_class`'s throw becomes a `Failure` holding the message and `TypeInfo.name`, the stand-in for `rtti_type->name()`.
- MakeClassInfo: does not model `ptrdiff_t` overflow in `base_offset + indirect offset`. Offsets are unbounded integers, so a sum that would wrap stays exact.
- AllocateClassId: does not model wrap-around of the `size_t` counter, which is unbounded here.
- NClassConversionSteps: the numeric value of `no_conversion` is defined in a header that is not part of this model. It is a separate result value, so the model cannot show a step count colliding with it or unsigned wrap of `+ 1`.
- RegisteredClassOpt: returns a copy of the entry, not a pointer into the map. Aliasing through that pointer is not modelled.
- The order in which the inner loop visits an `unordered_map` is unspecified. The model picks keys in an arbitrary order. That order cannot change the result, because the keys of one table are distinct.
- Adding classes to the per-state map happens in registration code that is not part of this model.
- Concurrency is not modelled. The id table is single-threaded state.
- include/apollo/detail/signature.hpp, include/apollo/detail/smart_ptr.hpp and include/apollo/ctor_wrapper.hpp are not modelled. They are compile-time template code with no run-time logic.

## Findings

| source | as written | input that shows it | evidently intended | confidence | as-written member | corrected member |
|---|---|---|---|---|---|---|
| src/class_info.cpp:150-159 | compares the stored depth with the indirect entry's own depth, not with the composite depth one greater | `A`; `B1 : A`; `B2 : A`; `D : B1, B2`: `D`'s entry for `A` is the path through `B2`, depth 1, not ambiguous, so the cast succeeds. Second input: with `C : Y`, `Y : A`, `D : B1, C` marks `A` ambiguous but `D : C, B1` resolves it through `B1`, so the result depends on base order (`Scenarios.OrderDependenceAsWritten`) | per the comment at :133-136, the most direct path wins and a tie is ambiguous: the diamond's `D` to `A` fails, and `D : B1, C` and `D : C, B1` both resolve `A` through `B1` | high; not executed | `Scenarios.DiamondAsWritten` | `IntendedBuilder.IntendedMostDirect` |
| src/class_info.cpp:143 | adds the base offset to an indirect offset even when that is the ambiguity marker | as written, `B : A, B1` with `B1 : A` marks `A` ambiguous in `B`; `D : X, B` with `B` at offset 8 stores marker + 8, and the cast returns the object address plus that | an ancestor ambiguous in a base stays ambiguous in the derived class. Under the corrected rule `B : A, B1` is not ambiguous, so the corrected half uses the diamond `BD : B1, B2` (ambiguous at depth 1): `D : X, BD` with `BD` at offset 8 keeps `A` marked at depth 2 and the cast throws | medium; not executed | `Scenarios.InheritedAmbiguityAsWritten` | `Scenarios.InheritedAmbiguityIntended` |

`MakeClassInfo` and `BuildBases` stay the model of `make_class_info_impl`,
because they are what the code computes. `IntendedBuilder.BuildBasesIntended`
is the corrected definition. It compares depths with the candidate path's
depth, keeps an inherited marker, and merges the direct entry by the same
rule. `IntendedBuilder.DirectMergeIsOverwrite` proves that this coincides
with the unconditional overwrite whenever direct base types are distinct, as
C++ requires. The intended-behaviour scenarios use it.
The cast engine works on any record, whichever builder made it.
