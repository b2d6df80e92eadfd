/**
 What the numbers of the selection are: spelling and estimate of a content, score and reasons, shares of the budget,
 and that nothing admitted vanishes.
 */
module ContextPackExact {
  import opened Wrappers
  import opened Sorting
  import opened ContextPack
  import opened ContextPackLaws

  /******* the spelling of a text *******/

  function HexValue(c: char): Option<nat> {
    if '0' <= c <= '9' then Some(c as int - '0' as int)
    else if 'a' <= c <= 'f' then Some(c as int - 'a' as int + 10)
    else if 'A' <= c <= 'F' then Some(c as int - 'A' as int + 10)
    else None
  }

  function Prefixed(c: char, rest: Option<string>): Option<string> {
    if rest.Some? then Some([c] + rest.value) else None
  }

  // The text that the inside of a JSON string stands for, by section 7 of RFC 8259; of the numbered escapes only those
  // below 256 are read.
  function Unescaped(s: string): Option<string>
    decreases |s|
  {
    if s == "" then Some("")
    else if s[0] == '\"' || s[0] as int < 0x20 then None
    else if s[0] != '\\' then Prefixed(s[0], Unescaped(s[1..]))
    else if |s| == 1 then None
    else if s[1] == '\"' || s[1] == '\\' || s[1] == '/' then Prefixed(s[1], Unescaped(s[2..]))
    else if s[1] == 'b' then Prefixed(0x08 as char, Unescaped(s[2..]))
    else if s[1] == 'f' then Prefixed(0x0C as char, Unescaped(s[2..]))
    else if s[1] == 'n' then Prefixed(0x0A as char, Unescaped(s[2..]))
    else if s[1] == 'r' then Prefixed(0x0D as char, Unescaped(s[2..]))
    else if s[1] == 't' then Prefixed(0x09 as char, Unescaped(s[2..]))
    else if |s| < 6 || s[1] != 'u' || s[2] != '0' || s[3] != '0' || HexValue(s[4]).None? || HexValue(s[5]).None? then None
    else Prefixed((HexValue(s[4]).value * 16 + HexValue(s[5]).value) as char, Unescaped(s[6..]))
  }

  lemma HexReads(n: nat)
    requires n < 16
    ensures HexValue(HexDigit(n)) == Some(n)
  {}

  lemma EscapeReads(c: char, s: string)
    ensures Unescaped(Escaped(c) + s) == Prefixed(c, Unescaped(s))
  {
    var e := Escaped(c);
    assert (e + s)[|e|..] == s;
    if c as int < 32 {
      HexReads(c as int / 16);
      HexReads(c as int % 16);
    }
  }

  predicate Plain(c: char) { c != '\"' && c != '\\' && c as int >= 0x20 }

  lemma PlainEscape(c: char)
    ensures Plain(c) <==> Escaped(c) == [c]
    ensures !Plain(c) ==> |Escaped(c)| == if c as int in {0x08, 0x09, 0x0A, 0x0C, 0x0D, 0x22, 0x5C} then 2 else 6
  {}

  // A text with nothing to escape stands as it is.
  lemma {:induction false} PlainStands(s: string)
    requires forall i | 0 <= i < |s| :: Plain(s[i])
    ensures EscapedAll(s) == s
  {
    if s != "" {
      PlainEscape(s[0]);
      PlainStands(s[1..]);
      assert s == [s[0]] + s[1..];
    }
  }

  // The canonical form of a text reads back as that text.
  lemma {:induction false} EscapedReads(s: string)
    ensures Unescaped(EscapedAll(s)) == Some(s)
  {
    if s != "" {
      EscapedReads(s[1..]);
      EscapeReads(s[0], EscapedAll(s[1..]));
      assert s == [s[0]] + s[1..];
    }
  }

  // Deduplication confuses no two texts.
  lemma TextsApart(s: string, t: string)
    ensures Canonical(Text(s)) == Canonical(Text(t)) <==> s == t
  {
    if Canonical(Text(s)) == Canonical(Text(t)) {
      var a, b := EscapedAll(s), EscapedAll(t);
      assert Canonical(Text(s))[1..|a| + 1] == a && Canonical(Text(t))[1..|b| + 1] == b;
      EscapedReads(s);
      EscapedReads(t);
    }
  }

  // A token for every four characters of the canonical form, begun ones included, and never none.
  lemma TokensExactly(c: Content)
    ensures var length := |Canonical(c)|;
            && 4 * Tokens(c) >= length && Tokens(c) >= 1
            && (Tokens(c) == 1 || 4 * (Tokens(c) - 1) < length)
  {}

  /******* score and reasons *******/

  // The priority is the candidate's own, or the place of its kind among the five known ones.
  lemma PriorityExactly(b: Builder, c: Candidate)
    ensures var kinds := ["RECENT_CHAPTER", "CHARACTER", "TIMELINE", "LORE", "NARRATIVE"];
            var kind := b.upper(c.sourceType);
            if c.priority.Some? then Priority(b, c) == c.priority.value
            else if kind in kinds then 0 <= Priority(b, c) < 5 && kinds[Priority(b, c)] == kind
            else Priority(b, c) == 5
  {}

  ghost predicate SharesCharacter(q: Request, c: Candidate) {
    exists id :: id in q.characters && id in c.characterIds
  }

  function SharedTerms(b: Builder, q: Request, c: Candidate): set<string> {
    set t | t in q.terms && t in b.terms([Canonical(c.content)] + c.keywords)
  }

  // 1000 points for each place in the order of kinds below the eleventh, 100 for each word shared with the query, 500 for a
  // requested character, and one for each chapter that a near one is nearer than 100.
  lemma ScoreExactly(b: Builder, q: Request, c: Candidate, near: int)
    requires near == if q.chapter.None? || c.chapter.None? then 0
                     else if q.chapter.value <= c.chapter.value then 100 - (c.chapter.value - q.chapter.value)
                     else 100 - (q.chapter.value - c.chapter.value)
    ensures Score(b, q, c) == (10 - Priority(b, c)) * 1000 + 100 * |SharedTerms(b, q, c)|
                              + (if SharesCharacter(q, c) then 500 else 0) + if near > 0 then near else 0
  {
    assert SharedTerms(b, q, c) == q.terms * b.terms([Canonical(c.content)] + c.keywords);
    CharactersMeet(q, c);
  }

  lemma CharactersMeet(q: Request, c: Candidate)
    ensures SharesCharacter(q, c) <==> !(q.characters !! c.characterIds)
  {
    if !SharesCharacter(q, c) {
      assert forall id | id in q.characters :: id !in c.characterIds;
    }
  }

  // Each reason is given exactly when the score counts it.
  lemma ReasonsExactly(b: Builder, q: Request, c: Candidate)
    ensures var reasons := Reasons(b, q, c);
            && reasons[0] == "SOURCE_PRIORITY:" + b.upper(c.sourceType)
            && ("QUERY_RELEVANCE" in reasons[1..] <==> SharedTerms(b, q, c) != {})
            && ("CHARACTER_RELEVANCE" in reasons[1..] <==> SharesCharacter(q, c))
            && ("CHAPTER_RECENCY" in reasons[1..] <==>
                  q.chapter.Some? && c.chapter.Some? && -100 < q.chapter.value - c.chapter.value < 100)
  {
    assert SharedTerms(b, q, c) == q.terms * b.terms([Canonical(c.content)] + c.keywords);
    CharactersMeet(q, c);
    assert Reasons(b, q, c)[1..] == (if Overlap(b, q, c) > 0 then ["QUERY_RELEVANCE"] else [])
                                    + (if q.characters !! c.characterIds then [] else ["CHARACTER_RELEVANCE"])
                                    + (if Recency(q, c) > 0 then ["CHAPTER_RECENCY"] else []);
  }

  /******* the first pass *******/

  predicate SameCategory(x: Ranked, y: Ranked) {
    || x.chunk.sourceType == y.chunk.sourceType
    || (x.chunk.sourceType !in ["RECENT_CHAPTER", "CHARACTER", "TIMELINE", "LORE", "NARRATIVE"]
        && y.chunk.sourceType !in ["RECENT_CHAPTER", "CHARACTER", "TIMELINE", "LORE", "NARRATIVE"])
  }

  function SpentLike(xs: seq<Ranked>, x: Ranked): nat {
    if xs == [] then 0 else SpentLike(xs[..|xs| - 1], x) + if SameCategory(xs[|xs| - 1], x) then xs[|xs| - 1].chunk.tokens else 0
  }

  lemma {:induction false} SpentIsCategoryCost(xs: seq<Ranked>, x: Ranked)
    ensures SpentLike(xs, x) == CategoryCost(xs, Category(x))
  {
    if xs != [] { SpentIsCategoryCost(xs[..|xs| - 1], x); }
  }

  predicate HundredthsOf(kind: string, percent: nat) {
    && (kind == "RECENT_CHAPTER" ==> percent == 35) && (kind == "CHARACTER" ==> percent == 25)
    && (kind == "TIMELINE" ==> percent == 20) && (kind == "LORE" ==> percent == 15)
    && (kind !in ["RECENT_CHAPTER", "CHARACTER", "TIMELINE", "LORE"] ==> percent == 5)
  }

  lemma PercentReads(x: Ranked, percent: nat)
    requires HundredthsOf(x.chunk.sourceType, percent)
    ensures Percent(Category(x)) == percent
  {}

  // Chunk by chunk: one is taken in the first pass exactly when it fits the budget and, with what was taken of its
  // category before, its share of it: 35, 25, 20 and 15 hundredths for the four leading kinds and 5 for any other.
  lemma FirstPassTakesExactly(budget: nat, xs: seq<Ranked>, i: nat, percent: nat)
    requires i < |xs| && HundredthsOf(xs[i].chunk.sourceType, percent)
    ensures var before, after := FirstPass(budget, xs[..i]).0, FirstPass(budget, xs[..i + 1]).0;
            if TokenSum(ChunksOf(before)) + xs[i].chunk.tokens <= budget
               && (SpentLike(before, xs[i]) + xs[i].chunk.tokens) * 100 <= budget * percent
            then after == before + [xs[i]] else after == before
  {
    var before := FirstPass(budget, xs[..i]).0;
    assert xs[..i + 1][..i] == xs[..i];
    PercentReads(xs[i], percent);
    CostIsTokenSum(before);
    SpentIsCategoryCost(before, xs[i]);
    FloorFits(SpentLike(before, xs[i]) + xs[i].chunk.tokens, budget * percent);
  }

  lemma FloorFits(n: nat, m: nat)
    ensures n <= m / 100 <==> n * 100 <= m
  {}

  /******* nothing vanishes *******/

  lemma {:induction false} PieceIsMet(b: Builder, q: Request, cs: seq<Candidate>, c: Candidate, k: nat)
    requires c in cs && k < |Pieces(b, c)|
    ensures RankedPiece(b, q, c, Pieces(b, c)[k], k) in AllPieces(b, q, cs)
  {
    var n := |cs| - 1;
    var front, last := AllPieces(b, q, cs[..n]), RankedPieces(b, q, cs[n]);
    assert AllPieces(b, q, cs) == front + last;
    if c == cs[n] {
      assert last[k] in last;
    } else {
      PieceIsMet(b, q, cs[..n], c, k);
    }
  }

  // Every piece of every candidate given, except the local-only ones of a cloud request, is in the pool: itself, or a
  // chunk of the same text.
  lemma PieceIsRanked(b: Builder, q: Request, cs: seq<Candidate>, c: Candidate, k: nat)
    requires c in cs && !Dropped(q.cloud, c) && k < |Pieces(b, c)|
    ensures exists x :: x in Ranking(b, q, Admitted(q.cloud, cs)) && Canonical(x.chunk.content) == Canonical(Pieces(b, c)[k])
  {
    var admitted := Admitted(q.cloud, cs);
    var sorted := Sort(admitted, CandidateLe);
    var pieces := AllPieces(b, q, sorted);
    AdmittedCounts(q.cloud, cs, c);
    assert c in multiset(cs) && c in multiset(admitted);
    CandidateLeTotal();
    SortSorts(admitted, CandidateLe);
    PieceIsMet(b, q, sorted, c, k);
    var p := RankedPiece(b, q, c, Pieces(b, c)[k], k);
    var i :| 0 <= i < |pieces| && pieces[i] == p;
    assert Seen(pieces, Key(p));
    FirstsDistinct(pieces);
    var j :| 0 <= j < |Firsts(pieces)| && Key(Firsts(pieces)[j]) == Key(p);
    RankLeTotal();
    SortSorts(Firsts(pieces), RankLe);
    assert Firsts(pieces)[j] in Ranking(b, q, admitted);
  }

  // Each such piece is returned under its text, or the budget had no room left for a chunk of that text.
  lemma PieceReturnedOrTooDear(b: Builder, q: Request, cs: seq<Candidate>, c: Candidate, k: nat)
    requires c in cs && !Dropped(q.cloud, c) && k < |Pieces(b, c)|
    ensures var pack := Build(b, q, true, cs);
            || (exists chunk :: chunk in pack.chunks && Canonical(chunk.content) == Canonical(Pieces(b, c)[k]))
            || Tokens(Pieces(b, c)[k]) > pack.budget - pack.tokens
  {
    var ranked := Ranking(b, q, Admitted(q.cloud, cs));
    PieceIsRanked(b, q, cs, c, k);
    var x :| x in ranked && Canonical(x.chunk.content) == Canonical(Pieces(b, c)[k]);
    TruncatedExactly(b, q, cs, "");
    RankedHasSource(b, q, Admitted(q.cloud, cs), x);
  }

  function PieceCount(b: Builder, cs: seq<Candidate>): nat {
    if cs == [] then 0 else PieceCount(b, cs[..|cs| - 1]) + |Pieces(b, cs[|cs| - 1])|
  }

  lemma {:induction false} AllPiecesCount(b: Builder, q: Request, cs: seq<Candidate>)
    ensures |AllPieces(b, q, cs)| == PieceCount(b, cs)
  {
    if cs != [] { AllPiecesCount(b, q, cs[..|cs| - 1]); }
  }

  // With room for the whole pool, all of it is returned and no source is reported truncated.
  lemma AmpleBudgetKeepsAll(b: Builder, q: Request, cs: seq<Candidate>)
    requires Cost(Ranking(b, q, Admitted(q.cloud, cs))) <= b.budget
    ensures var pack, ranked := Build(b, q, true, cs), Ranking(b, q, Admitted(q.cloud, cs));
            && (forall x | x in ranked :: x.chunk in pack.chunks)
            && |pack.chunks| == |ranked| && pack.truncated == [] && pack.tokens == Cost(ranked)
  {
    var ranked := Ranking(b, q, Admitted(q.cloud, cs));
    AmpleBudgetTakesAll(b.budget, ranked);
    var selected := Packed(b.budget, ranked).0;
    var presented := Presented(ranked, selected);
    PresentedPermutes(ranked, selected);
    assert |presented| == |multiset(presented)| == |multiset(ranked)| == |ranked|;
    CostPermutes(selected, ranked);
    forall x | x in ranked ensures x.chunk in ChunksOf(presented) ensures x in selected {
      assert x in multiset(ranked) && x in multiset(selected);
      ChunkReturned(ranked, selected, [], presented, x);
    }
    NoneLeftOut(ranked, selected);
  }

  lemma AmpleBudgetTakesAll(budget: nat, ranked: seq<Ranked>)
    requires Cost(ranked) <= budget
    ensures Packed(budget, ranked).1 == [] && multiset(Packed(budget, ranked).0) == multiset(ranked)
  {
    var (taken, left) := Packed(budget, ranked);
    PackedMaximal(budget, ranked);
    assert multiset(taken + left) == multiset(ranked);
    CostPermutes(taken + left, ranked);
    CostConcat(taken, left);
    OneCostsAtMost(left);
  }

  lemma OneCostsAtMost(xs: seq<Ranked>)
    ensures xs != [] ==> exists x :: x in xs && x.chunk.tokens <= Cost(xs)
  {
    if xs != [] { assert xs[|xs| - 1] in xs; }
  }

  lemma {:induction false} NoneLeftOut(ranked: seq<Ranked>, taken: seq<Ranked>)
    requires forall x | x in ranked :: x in taken
    ensures LeftOutIds(ranked, taken) == []
  {
    if ranked != [] {
      assert ranked[0] in taken;
      var i :| 0 <= i < |taken| && taken[i] == ranked[0];
      assert HasId(taken, ranked[0].chunk.chunkId);
      NoneLeftOut(ranked[1..], taken);
    }
  }

  // A disabled build is empty, whatever it is given; an enabled one says so.
  lemma DisabledIsEmpty(b: Builder, q: Request, cs: seq<Candidate>)
    ensures var pack := Build(b, q, false, cs);
            && !pack.enabled && pack.chunks == [] && pack.tokens == 0 && pack.budget == b.budget
            && pack.omitted == [] && pack.duplicates == 0 && pack.truncated == []
    ensures Build(b, q, true, cs).enabled
  {}

  // What is reported as duplicate: the pieces of all admitted candidates beyond one for each text.
  lemma DuplicatesExactly(b: Builder, q: Request, cs: seq<Candidate>)
    ensures Build(b, q, true, cs).duplicates
              == PieceCount(b, Sort(Admitted(q.cloud, cs), CandidateLe)) - |Ranking(b, q, Admitted(q.cloud, cs))|
  {
    AllPiecesCount(b, q, Sort(Admitted(q.cloud, cs), CandidateLe));
  }
}
