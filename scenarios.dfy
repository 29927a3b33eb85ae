/** Small hierarchies, worked through both the as-written builder and the
    corrected one: the classic diamond, an ambiguity inherited from a base,
    single and shortest paths, and unrelated classes. */
module Scenarios {
  import opened Wrappers
  import opened ClassInfo
  import opened ClassInfoBuilder
  import opened CastEngine
  import opened IntendedBuilder

  const TypeA := TypeInfo(0, "A")
  const TypeB1 := TypeInfo(1, "B1")
  const TypeB2 := TypeInfo(2, "B2")
  const TypeD := TypeInfo(3, "D")
  const TypeE := TypeInfo(4, "E")
  const TypeX := TypeInfo(5, "X")
  const TypeB := TypeInfo(6, "B")

  /** `A` and `X` have no bases; `B1 : A` with `A` at offset 12 and
      `B2 : A` with `A` at offset 8. */
  const InfoA := ClassInfo(TypeA, 0, map[])
  const InfoX := ClassInfo(TypeX, 5, map[])
  const InfoB1 := ClassInfo(TypeB1, 1, map[0 := BaseRelation(12, 0)])
  const InfoB2 := ClassInfo(TypeB2, 2, map[0 := BaseRelation(8, 0)])

  /** `B : A, B1` with `B1` at offset 8; as written its entry for `A` is
      marked ambiguous at depth 0. */
  const InfoB := ClassInfo(TypeB, 6, map[0 := BaseRelation(ErrorAmbiguousBase, 0), 1 := BaseRelation(8, 0)])

  lemma BuildOne(b: BaseInfo)
    ensures BuildBases([b]) == AddBase(map[], b)
    ensures BuildBasesIntended([b]) == AddBaseIntended(map[], b)
  {
    assert [b][..0] == [];
  }

  lemma BuildTwo(b: BaseInfo, c: BaseInfo)
    ensures BuildBases([b, c]) == AddBase(AddBase(map[], b), c)
    ensures BuildBasesIntended([b, c]) == AddBaseIntended(AddBaseIntended(map[], b), c)
  {
    assert [b, c][..1] == [b];
    BuildOne(b);
  }

  /** The base classes above are what the builder makes of them. */
  lemma BaseClassTables()
    ensures BuildBases([BaseInfo(InfoA, 12)]) == InfoB1.bases
    ensures BuildBases([BaseInfo(InfoA, 8)]) == InfoB2.bases
    ensures BuildBases([BaseInfo(InfoA, 0), BaseInfo(InfoB1, 8)]) == InfoB.bases
  {
    BuildOne(BaseInfo(InfoA, 12));
    BuildOne(BaseInfo(InfoA, 8));
    BuildTwo(BaseInfo(InfoA, 0), BaseInfo(InfoB1, 8));
    BuildOne(BaseInfo(InfoA, 0));
    var t := BuildBases([BaseInfo(InfoA, 0), BaseInfo(InfoB1, 8)]);
    assert t.Keys == InfoB.bases.Keys;
  }

  /** As written, the classic diamond `D : B1, B2` (`B2` at offset 16) is not
      detected: the path through `B2`, merged last, replaces the one through
      `B1`, and the cast to `A` silently succeeds through `B2`. */
  lemma DiamondAsWritten(obj: Address)
    ensures var t := BuildBases([BaseInfo(InfoB1, 0), BaseInfo(InfoB2, 16)]);
      && 0 in t && t[0] == BaseRelation(24, 1)
      && TryCastClass(obj, ClassInfo(TypeD, 3, t), 0) == TryCastResult(obj + 24, None)
  {
    BuildTwo(BaseInfo(InfoB1, 0), BaseInfo(InfoB2, 16));
    var t1 := AddBase(map[], BaseInfo(InfoB1, 0));
    assert 0 in t1 && t1[0] == BaseRelation(12, 1);
  }

  /** With the intended rule both paths of the diamond have depth 1 and `A`
      is ambiguous. */
  lemma DiamondIntended(obj: Address)
    ensures var t := BuildBasesIntended([BaseInfo(InfoB1, 0), BaseInfo(InfoB2, 16)]);
      && 0 in t && t[0] == BaseRelation(ErrorAmbiguousBase, 1)
      && TryCastClass(obj, ClassInfo(TypeD, 3, t), 0) == TryCastResult(Null, Some(AmbiguousBaseMessage))
  {
    BuildTwo(BaseInfo(InfoB1, 0), BaseInfo(InfoB2, 16));
    var t1 := AddBaseIntended(map[], BaseInfo(InfoB1, 0));
    assert 0 in t1 && t1[0] == BaseRelation(12, 1);
  }

  /** As written, the ambiguity of `A` in `B` is lost in `D : X, B` (`B` at
      offset 8): the marker plus `B`'s offset is an ordinary offset, and the
      cast to `A` returns an address displaced by that sum, although the
      cast from `B` itself fails. */
  lemma InheritedAmbiguityAsWritten(obj: Address)
    ensures TryCastClass(obj, InfoB, 0) == TryCastResult(Null, Some(AmbiguousBaseMessage))
    ensures var t := BuildBases([BaseInfo(InfoX, 0), BaseInfo(InfoB, 8)]);
      && 0 in t && t[0] == BaseRelation(ErrorAmbiguousBase + 8, 1)
      && TryCastClass(obj, ClassInfo(TypeD, 3, t), 0) == TryCastResult(obj + ErrorAmbiguousBase + 8, None)
  {
    BuildTwo(BaseInfo(InfoX, 0), BaseInfo(InfoB, 8));
    assert AddBase(map[], BaseInfo(InfoX, 0)) == map[5 := BaseRelation(0, 0)];
  }

  /** `BD : B1, B2` (`B2` at offset 16) built by the corrected rule: the
      classic diamond, `A` ambiguous at depth 1. */
  const InfoDiamondIntended := ClassInfo(TypeB, 6, BuildBasesIntended([BaseInfo(InfoB1, 0), BaseInfo(InfoB2, 16)]))

  /** With the intended rule an ancestor that is ambiguous in a base stays
      ambiguous in the derived class: `D : X, BD` (`BD` at offset 8) keeps
      `A` marked, at depth 2, and the cast fails. (Under the intended rule
      `B : A, B1` itself is not ambiguous, so this uses the diamond.) */
  lemma InheritedAmbiguityIntended(obj: Address)
    ensures TryCastClass(obj, InfoDiamondIntended, 0) == TryCastResult(Null, Some(AmbiguousBaseMessage))
    ensures var t := BuildBasesIntended([BaseInfo(InfoX, 0), BaseInfo(InfoDiamondIntended, 8)]);
      && 0 in t && t[0] == BaseRelation(ErrorAmbiguousBase, 2)
      && TryCastClass(obj, ClassInfo(TypeD, 3, t), 0) == TryCastResult(Null, Some(AmbiguousBaseMessage))
  {
    DiamondIntended(obj);
    BuildTwo(BaseInfo(InfoX, 0), BaseInfo(InfoDiamondIntended, 8));
    assert AddBaseIntended(map[], BaseInfo(InfoX, 0)) == map[5 := BaseRelation(0, 0)];
  }

  /** `E : B1` with `B1` at offset 4: one path to `A`, at depth 1, whose
      offset is `B1`'s offset in `E` plus `A`'s offset in `B1`; both builders
      agree. Casting `E` to itself leaves the address alone. */
  lemma SinglePath(obj: Address)
    ensures BuildBases([BaseInfo(InfoB1, 4)]) == map[1 := BaseRelation(4, 0), 0 := BaseRelation(16, 1)]
    ensures BuildBasesIntended([BaseInfo(InfoB1, 4)]) == BuildBases([BaseInfo(InfoB1, 4)])
    ensures var infoE := ClassInfo(TypeE, 4, BuildBases([BaseInfo(InfoB1, 4)]));
      && TryCastClass(obj, infoE, 0) == TryCastResult(obj + 16, None)
      && NClassConversionSteps(infoE, 0) == Steps(2)
      && TryCastClass(obj, infoE, 4) == TryCastResult(obj, None)
      && NClassConversionSteps(infoE, 4) == Steps(0)
  {
    BuildOne(BaseInfo(InfoB1, 4));
    var t := BuildBases([BaseInfo(InfoB1, 4)]);
    assert t.Keys == {0, 1};
    var u := BuildBasesIntended([BaseInfo(InfoB1, 4)]);
    assert u.Keys == {0, 1};
  }

  /** `D : B1, X` where only `B1` derives from `A`: the single path to `A`
      goes through `B1`, at depth 1, in both builders. */
  lemma SinglePathThroughOneBase(obj: Address)
    ensures var t := BuildBases([BaseInfo(InfoB1, 0), BaseInfo(InfoX, 16)]);
      0 in t && t[0] == BaseRelation(12, 1)
    ensures var t := BuildBasesIntended([BaseInfo(InfoB1, 0), BaseInfo(InfoX, 16)]);
      0 in t && t[0] == BaseRelation(12, 1)
  {
    BuildTwo(BaseInfo(InfoB1, 0), BaseInfo(InfoX, 16));
    var t1 := AddBase(map[], BaseInfo(InfoB1, 0));
    assert 0 in t1 && t1[0] == BaseRelation(12, 1);
    var u1 := AddBaseIntended(map[], BaseInfo(InfoB1, 0));
    assert 0 in u1 && u1[0] == BaseRelation(12, 1);
  }

  /** `Y : A` with `A` at offset 16, and `C : Y` with `Y` at offset 4, so
      that `C` reaches `A` at depth 1. */
  const TypeY := TypeInfo(8, "Y")
  const TypeC := TypeInfo(7, "C")
  const InfoY := ClassInfo(TypeY, 8, map[0 := BaseRelation(16, 0)])
  const InfoC := ClassInfo(TypeC, 7, map[8 := BaseRelation(4, 0), 0 := BaseRelation(20, 1)])

  lemma PathTableOfC()
    ensures BuildBases([BaseInfo(InfoA, 16)]) == InfoY.bases
    ensures BuildBases([BaseInfo(InfoY, 4)]) == InfoC.bases
  {
    BuildOne(BaseInfo(InfoA, 16));
    BuildOne(BaseInfo(InfoY, 4));
    var t := BuildBases([BaseInfo(InfoY, 4)]);
    assert t.Keys == InfoC.bases.Keys;
  }

  /** As written the result depends on the order of the direct bases.
      `D : B1, C` (`A` at depth 1 through `B1`, depth 2 through `C`) marks
      `A` ambiguous, because `C`'s own entry for `A` has depth 1, equal to
      the stored one; `D : C, B1` resolves `A` through `B1`. */
  lemma OrderDependenceAsWritten()
    ensures var t := BuildBases([BaseInfo(InfoB1, 0), BaseInfo(InfoC, 32)]);
      0 in t && t[0] == BaseRelation(ErrorAmbiguousBase, 1)
    ensures var t := BuildBases([BaseInfo(InfoC, 32), BaseInfo(InfoB1, 0)]);
      0 in t && t[0] == BaseRelation(12, 1)
  {
    BuildTwo(BaseInfo(InfoB1, 0), BaseInfo(InfoC, 32));
    var t1 := AddBase(map[], BaseInfo(InfoB1, 0));
    assert 0 in t1 && t1[0] == BaseRelation(12, 1);
    BuildTwo(BaseInfo(InfoC, 32), BaseInfo(InfoB1, 0));
    var u1 := AddBase(map[], BaseInfo(InfoC, 32));
    assert 0 in u1 && u1[0] == BaseRelation(52, 2);
  }

  /** With the intended rule the shorter path through `B1` wins in both
      orders. */
  lemma ShortestPathPreferredIntended()
    ensures var t := BuildBasesIntended([BaseInfo(InfoB1, 0), BaseInfo(InfoC, 32)]);
      0 in t && t[0] == BaseRelation(12, 1)
    ensures var t := BuildBasesIntended([BaseInfo(InfoC, 32), BaseInfo(InfoB1, 0)]);
      0 in t && t[0] == BaseRelation(12, 1)
  {
    BuildTwo(BaseInfo(InfoB1, 0), BaseInfo(InfoC, 32));
    var t1 := AddBaseIntended(map[], BaseInfo(InfoB1, 0));
    assert 0 in t1 && t1[0] == BaseRelation(12, 1);
    BuildTwo(BaseInfo(InfoC, 32), BaseInfo(InfoB1, 0));
    var u1 := AddBaseIntended(map[], BaseInfo(InfoC, 32));
    assert 0 in u1 && u1[0] == BaseRelation(52, 2);
  }

  /** Unrelated classes: no base, no step count, and the throwing cast
      reports the source type's name. */
  lemma UnrelatedClasses(obj: Address)
    ensures TryCastClass(obj, InfoA, 5) == TryCastResult(Null, Some(NoBaseClassMessage))
    ensures NClassConversionSteps(InfoA, 5) == NoConversion
    ensures CastClass(obj, InfoA, 5) == Failure(ClassConversionError(NoBaseClassMessage, "A"))
  {
  }
}
