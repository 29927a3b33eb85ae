/** `make_class_info_impl`: builds the base table of a new class from its
    ordered direct bases, each given with its own finished `class_info` and
    the offset of its sub-object. The specification functions below describe the
    table the C++ loop computes, merge rule exactly as written; the method
    `MakeClassInfo` is the loop itself. */
module ClassInfoBuilder {
  import opened Wrappers
  import opened ClassInfo

  /** One direct base (`base_info`): its finished class info and the
      displacement of its sub-object inside the derived object, which the
      C++ obtains by probing the base's cast function with address 1. */
  datatype BaseInfo = BaseInfo(info: ClassInfo, offset: int)

  /** How one entry `indirect` of a direct base's table, seen through that
      base at `baseOffset`, is merged into the derived class's entry for the
      same key. The comparisons at src/class_info.cpp:151-152 and :156-157
      compare the existing depth with the indirect entry's OWN depth, not
      with the composite depth `+ 1`. */
  function MergeIndirect(existing: Option<BaseRelation>, baseOffset: int, indirect: BaseRelation): BaseRelation
  {
    var composite := BaseRelation(baseOffset + indirect.offset, indirect.nIntermediateBases + 1);
    match existing
    case None => composite
    case Some(e) =>
      if e.nIntermediateBases > indirect.nIntermediateBases then composite
      else if e.nIntermediateBases == indirect.nIntermediateBases then e.(offset := ErrorAmbiguousBase)
      else e
  }

  /** The derived table after the inner loop has merged every entry of
      `baseBases` (the direct base's own table) into `t`. */
  function MergeBase(t: BaseTable, baseOffset: int, baseBases: BaseTable): BaseTable
  {
    map k | k in t.Keys + baseBases.Keys ::
      if k in baseBases then MergeIndirect(Get(t, k), baseOffset, baseBases[k]) else t[k]
  }

  /** One iteration of the outer loop: record the direct base at depth 0,
      overwriting whatever was there, then merge its own table. */
  function AddBase(t: BaseTable, b: BaseInfo): BaseTable
  {
    MergeBase(t[b.info.staticId := BaseRelation(b.offset, 0)], b.offset, b.info.bases)
  }

  /** The table built from the direct bases `bs`, processed in order. */
  function BuildBases(bs: seq<BaseInfo>): BaseTable
  {
    if |bs| == 0 then map[] else AddBase(BuildBases(bs[..|bs| - 1]), bs[|bs| - 1])
  }

  /** The ids of the direct bases. */
  function DirectIds(bs: seq<BaseInfo>): set<nat>
  {
    set i | 0 <= i < |bs| :: bs[i].info.staticId
  }

  /** The ids every direct base already knows as its own ancestors. */
  function InheritedIds(bs: seq<BaseInfo>): set<nat>
  {
    set i, k | 0 <= i < |bs| && k in bs[i].info.bases :: k
  }

  /** Direct base `b` finds key `id` in its own table at depth 0, which makes
      the merge mark a depth-0 entry for `id` ambiguous. */
  predicate MarksDirectAmbiguous(b: BaseInfo, id: nat)
  {
    id in b.info.bases && b.info.bases[id].nIntermediateBases == 0
  }

  lemma MergeBaseStep(t: BaseTable, baseOffset: int, baseBases: BaseTable, remaining: set<nat>, k: nat)
    requires remaining <= baseBases.Keys && k in remaining
    ensures MergeBase(t, baseOffset, baseBases - (remaining - {k}))
         == MergeBase(t, baseOffset, baseBases - remaining)[k := MergeIndirect(Get(t, k), baseOffset, baseBases[k])]
  {
    var done := baseBases - remaining;
    var done' := baseBases - (remaining - {k});
    var lhs := MergeBase(t, baseOffset, done');
    var rhs := MergeBase(t, baseOffset, done)[k := MergeIndirect(Get(t, k), baseOffset, baseBases[k])];
    assert done'.Keys == done.Keys + {k};
    assert lhs.Keys == rhs.Keys;
    forall j | j in lhs.Keys
      ensures lhs[j] == rhs[j]
    {
      if j != k {
        assert j in done' <==> j in done;
      }
    }
  }

  /** `make_class_info_impl`: the nested loop over the direct bases and each
      base's own table. The inner loop visits the keys of an unordered map,
      so the model takes them in an unspecified order. */
  method MakeClassInfo(rttiType: TypeInfo, staticId: nat, bases: seq<BaseInfo>) returns (info: ClassInfo)
    ensures info.rttiType == rttiType && info.staticId == staticId
    ensures info.bases == BuildBases(bases)
    ensures |bases| == 0 ==> info.bases == map[]
  {
    var table: BaseTable := map[];
    for i := 0 to |bases|
      invariant table == BuildBases(bases[..i])
    {
      var base := bases[i];
      var baseOffset := base.offset;
      table := table[base.info.staticId := BaseRelation(baseOffset, 0)];
      ghost var afterDirect := table;
      var remaining := base.info.bases.Keys;
      while remaining != {}
        invariant remaining <= base.info.bases.Keys
        invariant table == MergeBase(afterDirect, baseOffset, base.info.bases - remaining)
        decreases remaining
      {
        var k :| k in remaining;
        MergeBaseStep(afterDirect, baseOffset, base.info.bases, remaining, k);
        assert Get(table, k) == Get(afterDirect, k);
        var indirect := base.info.bases[k];
        var offset := baseOffset + indirect.offset;
        var nIntermediateBases := indirect.nIntermediateBases + 1;
        if k !in table {
          table := table[k := BaseRelation(offset, nIntermediateBases)];
        } else if table[k].nIntermediateBases > indirect.nIntermediateBases {
          table := table[k := BaseRelation(offset, nIntermediateBases)];
        } else if table[k].nIntermediateBases == indirect.nIntermediateBases {
          table := table[k := table[k].(offset := ErrorAmbiguousBase)];
        }
        remaining := remaining - {k};
      }
      assert base.info.bases - {} == base.info.bases;
      assert bases[..i + 1][..i] == bases[..i];
    }
    assert bases[..|bases|] == bases;
    info := ClassInfo(rttiType, staticId, table);
  }

  /** The merge rule of the inner loop, key by key: an absent key gets the
      composite entry; an existing entry deeper than the indirect entry's own
      depth is replaced by it; one of exactly that depth keeps its depth and
      gets the ambiguity offset; a shallower one stays. Keys that the direct
      base does not know keep their entries. */
  lemma MergeBaseCases(t: BaseTable, baseOffset: int, baseBases: BaseTable, k: nat)
    ensures var m := MergeBase(t, baseOffset, baseBases);
      && (k in m <==> k in t || k in baseBases)
      && (k !in baseBases && k in t ==> m[k] == t[k])
      && (k in baseBases ==>
            var ind := baseBases[k];
            var composite := BaseRelation(baseOffset + ind.offset, ind.nIntermediateBases + 1);
            && (k !in t ==> m[k] == composite)
            && (k in t && t[k].nIntermediateBases > ind.nIntermediateBases ==> m[k] == composite)
            && (k in t && t[k].nIntermediateBases == ind.nIntermediateBases ==>
                  m[k] == BaseRelation(ErrorAmbiguousBase, t[k].nIntermediateBases))
            && (k in t && t[k].nIntermediateBases < ind.nIntermediateBases ==> m[k] == t[k]))
  {
  }

  /** The built table knows exactly the direct bases and everything they
      know; in particular it is empty when there are no direct bases. */
  lemma {:induction false} BuildBasesKeys(bs: seq<BaseInfo>)
    ensures BuildBases(bs).Keys == DirectIds(bs) + InheritedIds(bs)
    ensures |bs| == 0 ==> BuildBases(bs) == map[]
  {
    if |bs| > 0 {
      var p, b := bs[..|bs| - 1], bs[|bs| - 1];
      BuildBasesKeys(p);
      assert forall i :: 0 <= i < |p| ==> p[i] == bs[i];
      assert DirectIds(bs) == DirectIds(p) + {b.info.staticId} by {
        assert b.info.staticId == bs[|bs| - 1].info.staticId;
      }
      assert InheritedIds(bs) == InheritedIds(p) + b.info.bases.Keys by {
        forall k | k in InheritedIds(bs)
          ensures k in InheritedIds(p) + b.info.bases.Keys
        {
          var i :| 0 <= i < |bs| && k in bs[i].info.bases;
          if i < |p| {
            assert k in p[i].info.bases;
          }
        }
        forall k | k in b.info.bases.Keys
          ensures k in InheritedIds(bs)
        {
          assert k in bs[|bs| - 1].info.bases;
        }
      }
    }
  }

  /** For the last direct base `bs[j]` of its type, the built entry has depth
      0 and is never replaced: the direct assignment overwrites any earlier
      entry, ambiguity marks included, and later merges can at most set its
      offset to the ambiguity marker, which happens exactly when `bs[j]` or
      a later direct base has the same type at depth 0 in its own table. */
  lemma {:induction false} LastDirectBaseEntry(bs: seq<BaseInfo>, j: nat)
    requires j < |bs|
    requires forall i :: j < i < |bs| ==> bs[i].info.staticId != bs[j].info.staticId
    ensures bs[j].info.staticId in BuildBases(bs)
    ensures BuildBases(bs)[bs[j].info.staticId] ==
      BaseRelation(
        if exists i :: j <= i < |bs| && MarksDirectAmbiguous(bs[i], bs[j].info.staticId)
        then ErrorAmbiguousBase else bs[j].offset,
        0)
  {
    var id := bs[j].info.staticId;
    var p, b := bs[..|bs| - 1], bs[|bs| - 1];
    if j < |bs| - 1 {
      LastDirectBaseEntry(p, j);
      assert forall i :: 0 <= i < |p| ==> p[i] == bs[i];
      assert b.info.staticId != id;
      if MarksDirectAmbiguous(b, id) {
        assert MarksDirectAmbiguous(bs[|bs| - 1], id);
      }
    } else {
      if MarksDirectAmbiguous(b, id) {
        assert MarksDirectAmbiguous(bs[|bs| - 1], id);
      }
    }
  }

  /** Along the outer loop the depth recorded for a key never grows, and a
      key once present stays present. */
  lemma {:induction false} BuildBasesDepthNeverGrows(bs: seq<BaseInfo>, i: nat, k: nat)
    requires i <= |bs| && k in BuildBases(bs[..i])
    ensures k in BuildBases(bs)
    ensures BuildBases(bs)[k].nIntermediateBases <= BuildBases(bs[..i])[k].nIntermediateBases
  {
    if i < |bs| {
      var p := bs[..|bs| - 1];
      assert bs[..i] == p[..i];
      BuildBasesDepthNeverGrows(p, i, k);
    } else {
      assert bs[..i] == bs;
    }
  }
}
