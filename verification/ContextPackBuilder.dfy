/** The loops of the builder, each proved to compute its part of the selection. */
module ContextPackBuilder {
  import opened Wrappers
  import opened Sorting
  import opened ContextPack
  import opened ContextPackLaws

  lemma FirstsAppend(xs: seq<Ranked>, x: Ranked)
    ensures Firsts(xs + [x]) == if Seen(Firsts(xs), Key(x)) then Firsts(xs) else Firsts(xs) + [x]
  {
    assert (xs + [x])[..|xs|] == xs;
  }

  // One candidate's chunks, after those `before`: a text already seen is counted, a new one is kept.
  method AddPieces(pieces: seq<Ranked>, ghost before: seq<Ranked>, ranked0: seq<Ranked>, seen0: set<string>, duplicates0: nat)
    returns (ranked: seq<Ranked>, seen: set<string>, duplicates: nat)
    requires ranked0 == Firsts(before) && duplicates0 == |before| - |ranked0|
    requires forall key :: key in seen0 <==> Seen(ranked0, key)
    ensures ranked == Firsts(before + pieces) && duplicates == |before| + |pieces| - |ranked|
    ensures forall key :: key in seen <==> Seen(ranked, key)
  {
    ranked, seen, duplicates := ranked0, seen0, duplicates0;
    assert pieces[..0] == [] && before + [] == before;
    for j := 0 to |pieces|
      invariant ranked == Firsts(before + pieces[..j]) && duplicates == |before| + j - |ranked|
      invariant forall key :: key in seen <==> Seen(ranked, key)
    {
      var x := pieces[j];
      assert before + pieces[..j + 1] == before + pieces[..j] + [x];
      FirstsAppend(before + pieces[..j], x);
      if Key(x) in seen {
        duplicates := duplicates + 1;
      } else {
        SeenAppend(ranked, x);
        seen := seen + {Key(x)};
        ranked := ranked + [x];
      }
    }
    assert pieces[..|pieces|] == pieces;
  }

  lemma AllPiecesNext(b: Builder, q: Request, cs: seq<Candidate>, i: nat)
    requires i < |cs|
    ensures AllPieces(b, q, cs[..i + 1]) == AllPieces(b, q, cs[..i]) + RankedPieces(b, q, cs[i])
  {
    assert cs[..i + 1][..i] == cs[..i];
  }

  // Scores every candidate, slices it, and keeps each canonical text once.
  method Rank(b: Builder, q: Request, cs: seq<Candidate>) returns (ranked: seq<Ranked>, duplicates: nat)
    ensures ranked == Firsts(AllPieces(b, q, cs)) && duplicates == |AllPieces(b, q, cs)| - |ranked|
  {
    ranked, duplicates := [], 0;
    var seen := {};
    for i := 0 to |cs|
      invariant ranked == Firsts(AllPieces(b, q, cs[..i])) && duplicates == |AllPieces(b, q, cs[..i])| - |ranked|
      invariant forall key :: key in seen <==> Seen(ranked, key)
    {
      AllPiecesNext(b, q, cs, i);
      ranked, seen, duplicates := AddPieces(RankedPieces(b, q, cs[i]), AllPieces(b, q, cs[..i]), ranked, seen, duplicates);
    }
    assert cs[..|cs|] == cs;
  }

  // First under each category's share.
  method PackShares(budget: nat, ranked: seq<Ranked>) returns (selected: seq<Ranked>, deferred: seq<Ranked>, total: nat)
    ensures (selected, deferred) == FirstPass(budget, ranked) && total == Cost(selected)
  {
    var used := map["RECENT_CHAPTER" := 0, "CHARACTER" := 0, "TIMELINE" := 0, "LORE" := 0, "NARRATIVE" := 0, "OTHER" := 0];
    selected, deferred, total := [], [], 0;
    for i := 0 to |ranked|
      invariant (selected, deferred) == FirstPass(budget, ranked[..i]) && total == Cost(selected)
      invariant forall x: Ranked :: Category(x) in used
      invariant forall category | category in used :: used[category] == CategoryCost(selected, category)
    {
      var x := ranked[i];
      var category := Category(x);
      assert ranked[..i + 1][..i] == ranked[..i];
      if total + x.chunk.tokens <= budget && used[category] + x.chunk.tokens <= Cap(budget, category) {
        forall other { CostAppend(selected, x, other); }
        selected, total := selected + [x], total + x.chunk.tokens;
        used := used[category := used[category] + x.chunk.tokens];
      } else {
        deferred := deferred + [x];
      }
    }
    assert ranked[..|ranked|] == ranked;
  }

  // Then from the pooled remainder.
  method PackRanked(budget: nat, ranked: seq<Ranked>) returns (selected: seq<Ranked>, total: nat)
    ensures selected == Packed(budget, ranked).0 && total == Cost(selected)
  {
    var deferred;
    selected, deferred, total := PackShares(budget, ranked);
    ghost var first := selected;
    for i := 0 to |deferred|
      invariant selected == SecondPass(budget, first, deferred[..i]).0 && total == Cost(selected)
    {
      var x := deferred[i];
      assert deferred[..i + 1][..i] == deferred[..i];
      if total + x.chunk.tokens <= budget {
        CostAppend(selected, x, "");
        selected, total := selected + [x], total + x.chunk.tokens;
      }
    }
    assert deferred[..|deferred|] == deferred;
  }

  method BuildPack(b: Builder, q: Request, enabled: bool, cs: seq<Candidate>) returns (pack: Pack)
    ensures pack == Build(b, q, enabled, cs)
  {
    if !enabled { return Pack(false, [], 0, b.budget, [], 0, []); }
    var omitted := SortedSet(OmittedIds(q.cloud, cs));
    var ranked, duplicates := Rank(b, q, Sort(Admitted(q.cloud, cs), CandidateLe));
    RankLeTotal();
    SortSorts(ranked, RankLe);
    ranked := Sort(ranked, RankLe);
    var selected, total := PackRanked(b.budget, ranked);
    return Pack(true, ChunksOf(Presented(ranked, selected)), total, b.budget, omitted, duplicates,
                SortedSet(LeftOutIds(ranked, selected)));
  }
}
