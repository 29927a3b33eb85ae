/** The cast engine: read-only queries over a finished `class_info` that
    adjust an object address to one of its bases (`try_cast_class`,
    `cast_class`) or report how far away that base is
    (`n_class_conversion_steps`). */
module CastEngine {
  import opened Wrappers
  import opened ClassInfo
  import opened ClassInfoBuilder

  const NoBaseClassMessage: string := "Requested type is no base class."
  const AmbiguousBaseMessage: string := "Requested type is ambigous base class."

  /** What `try_cast_class` hands back: the returned address and what its
      `err` out-parameter holds afterwards (`None` for `nullptr`). */
  datatype TryCastResult = TryCastResult(ptr: Address, err: Option<string>)

  /** `class_conversion_error` with its `errinfo::msg` and
      `errinfo::source_typeid_name` parts. */
  datatype ClassConversionError = ClassConversionError(msg: string, sourceTypeIdName: string)

  /** The result of `n_class_conversion_steps`: a step count, or the
      `no_conversion` marker, whose numeric value is defined outside this
      model. */
  datatype ConversionSteps = Steps(n: nat) | NoConversion

  /** `try_cast_class`: the cast succeeds exactly for the class itself
      (address unchanged, base table not consulted) and for a base whose
      entry is not marked ambiguous (address plus the entry's offset).
      Otherwise the address is null and the error names the reason. */
  function TryCastClass(obj: Address, from: ClassInfo, to: nat): (r: TryCastResult)
    ensures r.err.None? <==>
      to == from.staticId || (to in from.bases && from.bases[to].offset != ErrorAmbiguousBase)
    ensures to == from.staticId ==> r == TryCastResult(obj, None)
    ensures to != from.staticId && r.err.None? ==> r.ptr == obj + from.bases[to].offset
    ensures r.err.Some? ==> r.ptr == Null
    ensures r.err == Some(NoBaseClassMessage) <==> to != from.staticId && to !in from.bases
    ensures r.err == Some(AmbiguousBaseMessage) <==>
      to != from.staticId && to in from.bases && from.bases[to].offset == ErrorAmbiguousBase
  {
    if from.staticId == to then TryCastResult(obj, None)
    else if to !in from.bases then TryCastResult(Null, Some(NoBaseClassMessage))
    else if from.bases[to].offset == ErrorAmbiguousBase then TryCastResult(Null, Some(AmbiguousBaseMessage))
    else TryCastResult(obj + from.bases[to].offset, None)
  }

  /** `cast_class`: the throwing form. It returns what `try_cast_class`
      returns whenever that reports no error, and otherwise fails with the
      error message and the source class's type name. */
  function CastClass(obj: Address, from: ClassInfo, to: nat): (r: Result<Address, ClassConversionError>)
    ensures r.Success? <==> TryCastClass(obj, from, to).err.None?
    ensures r.Success? ==> r.value == TryCastClass(obj, from, to).ptr
    ensures r.Failure? ==> r.error.sourceTypeIdName == from.rttiType.name
    ensures r.Failure? ==> r.error.msg == TryCastClass(obj, from, to).err.value
    ensures r.Failure? ==> r.error.msg == NoBaseClassMessage || r.error.msg == AmbiguousBaseMessage
  {
    var t := TryCastClass(obj, from, to);
    if t.err.Some? then Failure(ClassConversionError(t.err.value, from.rttiType.name))
    else Success(t.ptr)
  }

  /** `n_class_conversion_steps`: 0 for the class itself, `no_conversion`
      for a type that is not in the base table, and otherwise the entry's
      depth plus one, without looking at the ambiguity marker. */
  function NClassConversionSteps(from: ClassInfo, to: nat): (r: ConversionSteps)
    ensures r == Steps(0) <==> to == from.staticId
    ensures r == NoConversion <==> to != from.staticId && to !in from.bases
    ensures to != from.staticId && to in from.bases ==>
      r == Steps(from.bases[to].nIntermediateBases + 1)
  {
    if from.staticId == to then Steps(0)
    else if to !in from.bases then NoConversion
    else Steps(from.bases[to].nIntermediateBases + 1)
  }

  /** The step count and the cast agree on convertibility except for
      ambiguous bases: a successful cast always has a step count, an absent
      target is the "no base class" error, and an ambiguous base still gets
      a step count of at least one. */
  lemma ConversionStepsAgreeWithCast(obj: Address, from: ClassInfo, to: nat)
    ensures TryCastClass(obj, from, to).err.None? ==> NClassConversionSteps(from, to).Steps?
    ensures NClassConversionSteps(from, to) == NoConversion <==>
      TryCastClass(obj, from, to).err == Some(NoBaseClassMessage)
    ensures TryCastClass(obj, from, to).err == Some(AmbiguousBaseMessage) ==>
      NClassConversionSteps(from, to).Steps? && NClassConversionSteps(from, to).n >= 1
  {
  }

  /** Casting to the last direct base `bs[j]` of its type in a class built
      from `bs` yields the object address plus that base's offset at one
      step, unless the base's own table or a later base's marks it
      ambiguous (or its offset happens to equal the marker). */
  lemma {:induction false} CastToDirectBase(obj: Address, rttiType: TypeInfo, staticId: nat, bs: seq<BaseInfo>, j: nat)
    requires j < |bs|
    requires forall i :: j < i < |bs| ==> bs[i].info.staticId != bs[j].info.staticId
    requires staticId != bs[j].info.staticId
    ensures var from := ClassInfo(rttiType, staticId, BuildBases(bs));
      var id := bs[j].info.staticId;
      && NClassConversionSteps(from, id) == Steps(1)
      && TryCastClass(obj, from, id) ==
        if (exists i :: j <= i < |bs| && MarksDirectAmbiguous(bs[i], id)) || bs[j].offset == ErrorAmbiguousBase
        then TryCastResult(Null, Some(AmbiguousBaseMessage))
        else TryCastResult(obj + bs[j].offset, None)
  {
    LastDirectBaseEntry(bs, j);
  }
}
