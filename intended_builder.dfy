/** The base-table construction that the comment at the top of the C++ loop
    describes: for every ancestor, the entry of the most direct path wins,
    and a tie between paths of that least depth leaves the ancestor
    ambiguous. Compared with `ClassInfoBuilder` it compares the stored depth
    with the CANDIDATE path's depth, keeps an ambiguity mark inherited from
    a base, and merges the direct entry by the same rule. The reference
    definition `Resolve` says what each entry must be, in terms of all
    candidate paths; `IntendedMostDirect` proves that the merge meets it. */
module IntendedBuilder {
  import opened Wrappers
  import opened ClassInfo
  import opened ClassInfoBuilder

  /** Merge one candidate path into the stored entry for its key. */
  function MergeCandidate(existing: Option<BaseRelation>, c: BaseRelation): BaseRelation
  {
    match existing
    case None => c
    case Some(e) =>
      if e.nIntermediateBases > c.nIntermediateBases then c
      else if e.nIntermediateBases == c.nIntermediateBases then e.(offset := ErrorAmbiguousBase)
      else e
  }

  /** The path to an ancestor that a direct base at `baseOffset` knows as
      `indirect`: one class deeper, displaced by the base's offset, and still
      ambiguous when it was ambiguous in the base. */
  function IndirectCandidate(baseOffset: int, indirect: BaseRelation): BaseRelation
  {
    BaseRelation(
      if indirect.offset == ErrorAmbiguousBase then ErrorAmbiguousBase else baseOffset + indirect.offset,
      indirect.nIntermediateBases + 1)
  }

  function AddBaseIntended(t: BaseTable, b: BaseInfo): BaseTable
  {
    var t1 := t[b.info.staticId := MergeCandidate(Get(t, b.info.staticId), BaseRelation(b.offset, 0))];
    map k | k in t1.Keys + b.info.bases.Keys ::
      if k in b.info.bases then MergeCandidate(Get(t1, k), IndirectCandidate(b.offset, b.info.bases[k]))
      else t1[k]
  }

  /** The corrected table built from the direct bases `bs`, in order. */
  function BuildBasesIntended(bs: seq<BaseInfo>): BaseTable
  {
    if |bs| == 0 then map[] else AddBaseIntended(BuildBasesIntended(bs[..|bs| - 1]), bs[|bs| - 1])
  }

  /** The candidate paths to `k` that direct base `b` contributes: itself at
      depth 0 when it is `k`, and its own entry for `k`. */
  function LocalCandidates(b: BaseInfo, k: nat): seq<BaseRelation>
  {
    (if k == b.info.staticId then [BaseRelation(b.offset, 0)] else [])
    + (if k in b.info.bases then [IndirectCandidate(b.offset, b.info.bases[k])] else [])
  }

  /** Every candidate path to `k` through the direct bases `bs`, in order. */
  function Candidates(bs: seq<BaseInfo>, k: nat): seq<BaseRelation>
  {
    if |bs| == 0 then [] else Candidates(bs[..|bs| - 1], k) + LocalCandidates(bs[|bs| - 1], k)
  }

  /** The least depth among the candidates. */
  function MinDepth(s: seq<BaseRelation>): (m: nat)
    requires |s| > 0
    ensures forall i :: 0 <= i < |s| ==> m <= s[i].nIntermediateBases
    ensures exists i :: 0 <= i < |s| && s[i].nIntermediateBases == m
  {
    if |s| == 1 then s[0].nIntermediateBases
    else
      var m' := MinDepth(s[..|s| - 1]);
      if s[|s| - 1].nIntermediateBases < m' then s[|s| - 1].nIntermediateBases else m'
  }

  /** The number of candidates at depth `n`. */
  function CountAt(s: seq<BaseRelation>, n: nat): nat
  {
    if |s| == 0 then 0
    else CountAt(s[..|s| - 1], n) + (if s[|s| - 1].nIntermediateBases == n then 1 else 0)
  }

  /** The offset of the last candidate at depth `n`. */
  function LastOffsetAt(s: seq<BaseRelation>, n: nat): int
  {
    if |s| == 0 then 0
    else if s[|s| - 1].nIntermediateBases == n then s[|s| - 1].offset
    else LastOffsetAt(s[..|s| - 1], n)
  }

  /** Reference definition of the intended entry: nothing without candidate
      paths; otherwise the least depth, with the offset of the only path of
      that depth, or the ambiguity marker when there are several. */
  function Resolve(s: seq<BaseRelation>): Option<BaseRelation>
  {
    if |s| == 0 then None
    else
      var m := MinDepth(s);
      Some(BaseRelation(if CountAt(s, m) == 1 then LastOffsetAt(s, m) else ErrorAmbiguousBase, m))
  }

  /** Merging the candidates one after the other, starting from `cur`. */
  function FoldCandidates(cur: Option<BaseRelation>, s: seq<BaseRelation>): Option<BaseRelation>
  {
    if |s| == 0 then cur else Some(MergeCandidate(FoldCandidates(cur, s[..|s| - 1]), s[|s| - 1]))
  }

  lemma {:induction false} CountAtPositive(s: seq<BaseRelation>, n: nat)
    ensures CountAt(s, n) > 0 <==> exists i :: 0 <= i < |s| && s[i].nIntermediateBases == n
  {
    if |s| > 0 {
      var p := s[..|s| - 1];
      CountAtPositive(p, n);
      assert forall i :: 0 <= i < |p| ==> p[i] == s[i];
      if CountAt(p, n) > 0 {
        var i :| 0 <= i < |p| && p[i].nIntermediateBases == n;
        assert s[i].nIntermediateBases == n;
      }
    }
  }

  /** Adding one candidate to the reference resolution is one merge step. */
  lemma ResolveSnoc(s: seq<BaseRelation>, c: BaseRelation)
    ensures Resolve(s + [c]) == Some(MergeCandidate(Resolve(s), c))
  {
    var s' := s + [c];
    assert s'[..|s'| - 1] == s;
    if |s| > 0 {
      var m := MinDepth(s);
      if c.nIntermediateBases < m {
        CountAtPositive(s, c.nIntermediateBases);
      } else if c.nIntermediateBases == m {
        CountAtPositive(s, m);
      }
    }
  }

  lemma {:induction false} FoldAppend(cur: Option<BaseRelation>, s1: seq<BaseRelation>, s2: seq<BaseRelation>)
    ensures FoldCandidates(cur, s1 + s2) == FoldCandidates(FoldCandidates(cur, s1), s2)
  {
    if |s2| == 0 {
      assert s1 + s2 == s1;
    } else {
      var p := s2[..|s2| - 1];
      FoldAppend(cur, s1, p);
      assert (s1 + s2)[..|s1 + s2| - 1] == s1 + p;
    }
  }

  /** Merging all candidates from an empty entry gives the reference
      resolution, whatever their order. */
  lemma {:induction false} FoldResolves(s: seq<BaseRelation>)
    ensures FoldCandidates(None, s) == Resolve(s)
  {
    if |s| > 0 {
      var p := s[..|s| - 1];
      FoldResolves(p);
      assert p + [s[|s| - 1]] == s;
      ResolveSnoc(p, s[|s| - 1]);
    }
  }

  lemma AddBaseIntendedEntry(t: BaseTable, b: BaseInfo, k: nat)
    ensures Get(AddBaseIntended(t, b), k) == FoldCandidates(Get(t, k), LocalCandidates(b, k))
  {
    var l := LocalCandidates(b, k);
    if |l| == 2 {
      var direct := BaseRelation(b.offset, 0);
      var t1 := t[k := MergeCandidate(Get(t, k), direct)];
      assert l[..1] == [direct] && l[1] == IndirectCandidate(b.offset, b.info.bases[k]);
      assert [direct][..0] == [];
      assert FoldCandidates(Get(t, k), l[..1]) == Some(MergeCandidate(Get(t, k), direct)) == Get(t1, k);
    } else if |l| == 1 {
      assert l[..0] == [];
    }
  }

  lemma {:induction false} BuildBasesIntendedFold(bs: seq<BaseInfo>, k: nat)
    ensures Get(BuildBasesIntended(bs), k) == FoldCandidates(None, Candidates(bs, k))
  {
    if |bs| > 0 {
      var p, b := bs[..|bs| - 1], bs[|bs| - 1];
      BuildBasesIntendedFold(p, k);
      AddBaseIntendedEntry(BuildBasesIntended(p), b, k);
      FoldAppend(None, Candidates(p, k), LocalCandidates(b, k));
    }
  }

  /** The corrected table agrees, key by key, with the reference
      resolution of all candidate paths: an entry exactly for the ancestors
      with a candidate path; the least candidate depth; the offset of the
      only candidate of that depth, or the ambiguity marker when two or more
      candidates share it. */
  lemma IntendedMostDirect(bs: seq<BaseInfo>, k: nat)
    ensures Get(BuildBasesIntended(bs), k) == Resolve(Candidates(bs, k))
  {
    BuildBasesIntendedFold(bs, k);
    FoldResolves(Candidates(bs, k));
  }

  /** Only a direct base contributes a candidate of depth 0. */
  lemma {:induction false} ZeroDepthCandidateIsDirect(bs: seq<BaseInfo>, k: nat, i: nat)
    requires i < |Candidates(bs, k)| && Candidates(bs, k)[i].nIntermediateBases == 0
    ensures k in DirectIds(bs)
  {
    var p, b := bs[..|bs| - 1], bs[|bs| - 1];
    var cp := Candidates(p, k);
    if i < |cp| {
      ZeroDepthCandidateIsDirect(p, k, i);
      var j :| 0 <= j < |p| && p[j].info.staticId == k;
      assert bs[j].info.staticId == k;
    } else {
      assert LocalCandidates(b, k)[i - |cp|].nIntermediateBases == 0;
      assert k == bs[|bs| - 1].info.staticId;
    }
  }

  /** When the direct base types are pairwise distinct, as C++ requires,
      merging the direct entry of `bs[j]` by the corrected rule gives
      `{offset, 0}`, the same as the unconditional assignment of the
      as-written loop. */
  lemma DirectMergeIsOverwrite(bs: seq<BaseInfo>, j: nat)
    requires j < |bs|
    requires forall i :: 0 <= i < j ==> bs[i].info.staticId != bs[j].info.staticId
    ensures var id := bs[j].info.staticId;
      MergeCandidate(Get(BuildBasesIntended(bs[..j]), id), BaseRelation(bs[j].offset, 0))
        == BaseRelation(bs[j].offset, 0)
  {
    var id, p := bs[j].info.staticId, bs[..j];
    IntendedMostDirect(p, id);
    var c := Candidates(p, id);
    if |c| > 0 && MinDepth(c) == 0 {
      var i :| 0 <= i < |c| && c[i].nIntermediateBases == 0;
      ZeroDepthCandidateIsDirect(p, id, i);
      assert false;
    }
  }
}
