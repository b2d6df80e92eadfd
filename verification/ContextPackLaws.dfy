/** What the selection promises, for every list of candidates, query and budget. */
module ContextPackLaws {
  import opened Wrappers
  import opened Sorting
  import opened ContextPack
  import T = Text

  /******* orders *******/

  lemma CandidateLeTotal()
    ensures Total(CandidateLe)
    ensures forall x, y :: CandidateLe(x, y) && CandidateLe(y, x) ==> CandidateKey(x) == CandidateKey(y)
  {
    forall x, y ensures CandidateLe(x, y) || CandidateLe(y, x)
                ensures CandidateLe(x, y) && CandidateLe(y, x) ==> CandidateKey(x) == CandidateKey(y) {
      LexTotal(CandidateKey(x), CandidateKey(y));
    }
    forall x, y, z | CandidateLe(x, y) && CandidateLe(y, z) ensures CandidateLe(x, z) {
      LexTransitive(CandidateKey(x), CandidateKey(y), CandidateKey(z));
    }
  }

  lemma RankLeTotal()
    ensures Total(RankLe)
    ensures forall x, y :: RankLe(x, y) && RankLe(y, x) ==> RankKey(x) == RankKey(y)
  {
    forall x, y ensures RankLe(x, y) || RankLe(y, x)
                ensures RankLe(x, y) && RankLe(y, x) ==> RankKey(x) == RankKey(y) {
      LexTotal(RankKey(x), RankKey(y));
    }
    forall x, y, z | RankLe(x, y) && RankLe(y, z) ensures RankLe(x, z) {
      if LexLe(RankKey(x), RankKey(y)) && LexLe(RankKey(y), RankKey(z)) {
        LexTransitive(RankKey(x), RankKey(y), RankKey(z));
      }
    }
  }

  /******* order independence *******/

  predicate Dropped(cloud: bool, c: Candidate) { cloud && c.localOnly }

  lemma {:induction false} AdmittedCounts(cloud: bool, cs: seq<Candidate>, c: Candidate)
    ensures multiset(Admitted(cloud, cs))[c] == if Dropped(cloud, c) then 0 else multiset(cs)[c]
  {
    if cs != [] {
      AdmittedCounts(cloud, cs[1..], c);
      assert cs == [cs[0]] + cs[1..];
    }
  }

  lemma AdmittedPermutes(cloud: bool, cs: seq<Candidate>, cs': seq<Candidate>)
    requires multiset(cs) == multiset(cs')
    ensures multiset(Admitted(cloud, cs)) == multiset(Admitted(cloud, cs'))
  {
    forall c ensures multiset(Admitted(cloud, cs))[c] == multiset(Admitted(cloud, cs'))[c] {
      AdmittedCounts(cloud, cs, c);
      AdmittedCounts(cloud, cs', c);
    }
  }

  lemma {:induction false} OmittedFrom(cloud: bool, cs: seq<Candidate>, id: string)
    ensures id in OmittedIds(cloud, cs) <==> exists c :: c in multiset(cs) && Dropped(cloud, c) && c.sourceId == id
  {
    if cs != [] {
      OmittedFrom(cloud, cs[1..], id);
      assert cs == [cs[0]] + cs[1..];
      assert multiset(cs) == multiset{cs[0]} + multiset(cs[1..]);
    }
  }

  // Candidates with the same source, type and canonical content are the same candidate.
  predicate KeysTellApart(cs: seq<Candidate>) {
    forall i, j | 0 <= i < |cs| && 0 <= j < |cs| && CandidateKey(cs[i]) == CandidateKey(cs[j]) :: cs[i] == cs[j]
  }

  lemma SortedAdmittedSame(cloud: bool, cs: seq<Candidate>, cs': seq<Candidate>)
    requires multiset(cs) == multiset(cs') && KeysTellApart(cs)
    ensures Sort(Admitted(cloud, cs), CandidateLe) == Sort(Admitted(cloud, cs'), CandidateLe)
  {
    CandidateLeTotal();
    AdmittedPermutes(cloud, cs, cs');
    var a := Admitted(cloud, cs);
    forall x, y | x in a && y in a && CandidateLe(x, y) && CandidateLe(y, x) ensures x == y {
      AdmittedCounts(cloud, cs, x);
      AdmittedCounts(cloud, cs, y);
      assert x in multiset(a) && y in multiset(a);
      assert x in cs && y in cs;
    }
    SortForgetsOrder(a, Admitted(cloud, cs'), CandidateLe);
  }

  // Reordering the candidates changes nothing: not the deduplication winners, not the chunk order, not what is left out.
  lemma BuildForgetsOrder(b: Builder, q: Request, enabled: bool, cs: seq<Candidate>, cs': seq<Candidate>)
    requires multiset(cs) == multiset(cs') && KeysTellApart(cs)
    ensures Build(b, q, enabled, cs) == Build(b, q, enabled, cs')
  {
    SortedAdmittedSame(q.cloud, cs, cs');
    forall id ensures id in OmittedIds(q.cloud, cs) <==> id in OmittedIds(q.cloud, cs') {
      OmittedFrom(q.cloud, cs, id);
      OmittedFrom(q.cloud, cs', id);
    }
    SortedSetUnique(OmittedIds(q.cloud, cs), OmittedIds(q.cloud, cs'));
  }

  // In a cloud request a local-only candidate contributes its source id to the omitted list, and nothing else.
  lemma LocalOnlyStaysLocal(b: Builder, q: Request, enabled: bool, cs: seq<Candidate>, cs': seq<Candidate>)
    requires Admitted(q.cloud, cs) == Admitted(q.cloud, cs')
    requires forall id :: id in OmittedIds(q.cloud, cs) <==> id in OmittedIds(q.cloud, cs')
    ensures Build(b, q, enabled, cs) == Build(b, q, enabled, cs')
  {
    SortedSetUnique(OmittedIds(q.cloud, cs), OmittedIds(q.cloud, cs'));
  }

  /******* what the score says *******/

  // Of two sources of equal priority and overlap, one with a requested character comes first however old it is.
  lemma CharacterOutweighsRecency(b: Builder, q: Request, c: Candidate, d: Candidate)
    requires Priority(b, c) == Priority(b, d) && Overlap(b, q, c) == Overlap(b, q, d)
    requires !(q.characters !! c.characterIds) && q.characters !! d.characterIds
    ensures Score(b, q, c) > Score(b, q, d)
  {
    assert Recency(q, d) <= 100;
  }

  // A source of better priority comes first, unless the other shares at least four more terms with the query.
  lemma PriorityOutweighs(b: Builder, q: Request, c: Candidate, d: Candidate)
    requires Priority(b, c) < Priority(b, d) && Score(b, q, c) <= Score(b, q, d)
    ensures Overlap(b, q, d) >= Overlap(b, q, c) + 4
  {
    assert Recency(q, c) >= 0 && Recency(q, d) <= 100;
  }

  /******* slicing *******/

  function Joined(parts: seq<string>): string {
    if parts == [] then "" else parts[0] + Joined(parts[1..])
  }

  predicate Narrow(parts: seq<string>, width: Positive) {
    forall i | 0 <= i < |parts| :: 0 < |parts[i]| <= width
  }

  lemma OneMorePart(h: string, rest: seq<string>, width: Positive)
    requires 0 < |h| <= width && Narrow(rest, width)
    ensures Joined([h] + rest) == h + Joined(rest) && Narrow([h] + rest, width)
  {
    assert ([h] + rest)[1..] == rest;
  }

  // The slices of a text are the text, cut, and none is empty or wider than asked.
  lemma {:induction false} SlicesJoin(s: string, width: Positive)
    ensures Joined(Slices(s, width)) == s && Narrow(Slices(s, width), width)
    decreases |s|
  {
    if s != "" && |s| <= width {
      OneMorePart(s, [], width);
      assert [s] + [] == [s];
    } else if s != "" {
      SlicesJoin(s[width..], width);
      OneMorePart(s[..width], Slices(s[width..], width), width);
      assert s == s[..width] + s[width..];
    }
  }

  lemma {:induction false} EscapingNeverShortens(s: string)
    ensures |EscapedAll(s)| >= |s|
  {
    if s != "" { EscapingNeverShortens(s[1..]); }
  }

  // A full slice never meets the limit it was cut for: the quotes alone put it over.
  lemma FullSliceExceedsLimit(b: Builder, s: string)
    requires |s| == b.limit * 4
    ensures Tokens(Text(s)) > b.limit
  {
    EscapingNeverShortens(s);
  }

  // The pieces of a candidate are all within the limit exactly when the candidate was: slicing, which is only ever
  // reached by a text above the limit, never brings it under.
  lemma PiecesWithinLimitExactly(b: Builder, c: Candidate)
    ensures (forall i | 0 <= i < |Pieces(b, c)| :: Tokens(Pieces(b, c)[i]) <= b.limit) <==> Tokens(c.content) <= b.limit
  {
    var pieces := Pieces(b, c);
    if c.content.Structured? || Tokens(c.content) <= b.limit {
      assert pieces[0] == c.content;
    } else {
      var s, width := c.content.text, b.limit * 4;
      assert pieces[0] == Text(Slices(s, width)[0]);
      if |s| <= width {
        assert pieces[0] == c.content;
      } else {
        FullSliceExceedsLimit(b, s[..width]);
      }
    }
  }

  // A text of three characters under a limit of one token: cut into itself, and still two tokens.
  lemma SmallTextOverLimit(b: Builder, c: Candidate)
    requires b.limit == 1 && c.content == Text("abc")
    ensures Pieces(b, c) == [Text("abc")] && Tokens(Text("abc")) == 2 > b.limit
  {
    assert EscapedAll("abc") == "abc" by {
      assert EscapedAll("c") == "c" + EscapedAll("");
      assert EscapedAll("bc") == "b" + EscapedAll("c");
    }
    assert Slices("abc", 4) == ["abc"];
  }

  /******* deduplication *******/

  // Each canonical text is kept once, at its first occurrence.
  lemma {:induction false} FirstsDistinct(xs: seq<Ranked>)
    ensures forall i, j | 0 <= i < j < |Firsts(xs)| :: Key(Firsts(xs)[i]) != Key(Firsts(xs)[j])
    ensures forall key :: Seen(Firsts(xs), key) <==> Seen(xs, key)
    ensures |Firsts(xs)| <= |xs|
  {
    if xs != [] {
      var front, last := xs[..|xs| - 1], xs[|xs| - 1];
      FirstsDistinct(front);
      assert forall key :: Seen(xs, key) <==> Seen(front, key) || Key(last) == key by {
        assert xs == front + [last];
        SeenAppend(front, last);
      }
      SeenAppend(Firsts(front), last);
    }
  }

  lemma SeenAppend(xs: seq<Ranked>, x: Ranked)
    ensures forall key :: Seen(xs + [x], key) <==> Seen(xs, key) || Key(x) == key
  {
    forall key ensures Seen(xs + [x], key) <==> Seen(xs, key) || Key(x) == key {
      assert (xs + [x])[|xs|] == x;
      if Seen(xs, key) {
        var i :| 0 <= i < |xs| && Key(xs[i]) == key;
        assert (xs + [x])[i] == xs[i];
      }
    }
  }

  lemma {:induction false} FirstsAreFirst(xs: seq<Ranked>, x: Ranked)
    requires x in Firsts(xs)
    ensures exists i :: 0 <= i < |xs| && xs[i] == x && !Seen(xs[..i], Key(x))
  {
    if xs != [] {
      var n := |xs| - 1;
      var front := xs[..n];
      FirstsDistinct(front);
      if x in Firsts(front) {
        FirstsAreFirst(front, x);
        var i :| 0 <= i < n && front[i] == x && !Seen(front[..i], Key(x));
        assert xs[..i] == front[..i];
      } else {
        assert x == xs[n];
        assert xs[..n] == front && !Seen(front, Key(x));
      }
    }
  }

  /******* packing *******/

  lemma CostAppend(xs: seq<Ranked>, x: Ranked, category: string)
    ensures Cost(xs + [x]) == Cost(xs) + x.chunk.tokens
    ensures CategoryCost(xs + [x], category) == CategoryCost(xs, category) + if Category(x) == category then x.chunk.tokens else 0
  {
    assert (xs + [x])[..|xs|] == xs;
  }

  // The first pass drops nothing, stays in budget, and keeps every category under its share.
  lemma {:induction false} FirstPassOk(budget: nat, xs: seq<Ranked>, category: string)
    ensures var (selected, deferred) := FirstPass(budget, xs);
            && multiset(selected) + multiset(deferred) == multiset(xs)
            && Cost(selected) <= budget && CategoryCost(selected, category) <= Cap(budget, category)
  {
    if xs != [] {
      var front, x := xs[..|xs| - 1], xs[|xs| - 1];
      FirstPassOk(budget, front, category);
      assert xs == front + [x];
      CostAppend(FirstPass(budget, front).0, x, category);
    }
  }

  lemma {:induction false} SecondPassKeepsAll(budget: nat, selected: seq<Ranked>, deferred: seq<Ranked>)
    ensures var (taken, left) := SecondPass(budget, selected, deferred);
            multiset(taken) + multiset(left) == multiset(selected) + multiset(deferred) && selected <= taken
    decreases |deferred|
  {
    if deferred != [] {
      var front, x := deferred[..|deferred| - 1], deferred[|deferred| - 1];
      SecondPassKeepsAll(budget, selected, front);
      var (taken, left) := SecondPass(budget, selected, front);
      assert deferred == front + [x];
      assert multiset(deferred) == multiset(front) + multiset{x};
      assert multiset(taken + [x]) == multiset(taken) + multiset{x} && multiset(left + [x]) == multiset(left) + multiset{x};
      assert taken <= taken + [x] && selected <= taken + [x];
      if Cost(taken) + x.chunk.tokens <= budget {
        assert SecondPass(budget, selected, deferred) == (taken + [x], left);
        assert multiset(taken + [x]) + multiset(left) == (multiset(taken) + multiset(left)) + multiset{x};
      } else {
        assert SecondPass(budget, selected, deferred) == (taken, left + [x]);
      }
      assert multiset(selected) + multiset(deferred) == (multiset(selected) + multiset(front)) + multiset{x};
    }
  }

  // The second pass stays in budget and leaves out only what no longer fits.
  lemma {:induction false} SecondPassMaximal(budget: nat, selected: seq<Ranked>, deferred: seq<Ranked>)
    requires Cost(selected) <= budget
    ensures var (taken, left) := SecondPass(budget, selected, deferred);
            Cost(taken) <= budget && forall x | x in left :: Cost(taken) + x.chunk.tokens > budget
    decreases |deferred|
  {
    if deferred != [] {
      var front, x := deferred[..|deferred| - 1], deferred[|deferred| - 1];
      SecondPassMaximal(budget, selected, front);
      var (taken, left) := SecondPass(budget, selected, front);
      CostAppend(taken, x, "");
      assert forall y :: y in left + [x] <==> y in left || y == x;
    }
  }

  // Packing in budget, with every chunk either taken or too dear for what remains.
  lemma PackedMaximal(budget: nat, xs: seq<Ranked>)
    ensures var (taken, left) := Packed(budget, xs);
            && multiset(taken) + multiset(left) == multiset(xs)
            && Cost(taken) <= budget
            && FirstPass(budget, xs).0 <= taken
            && forall x | x in left :: x.chunk.tokens > budget - Cost(taken)
  {
    FirstPassOk(budget, xs, "");
    SecondPassKeepsAll(budget, FirstPass(budget, xs).0, FirstPass(budget, xs).1);
    SecondPassMaximal(budget, FirstPass(budget, xs).0, FirstPass(budget, xs).1);
  }

  /******* the result *******/

  function TokenSum(chunks: seq<Chunk>): nat {
    if chunks == [] then 0 else TokenSum(chunks[..|chunks| - 1]) + chunks[|chunks| - 1].tokens
  }

  lemma {:induction false} CostIsTokenSum(xs: seq<Ranked>)
    ensures TokenSum(ChunksOf(xs)) == Cost(xs)
  {
    if xs != [] {
      CostIsTokenSum(xs[..|xs| - 1]);
      assert ChunksOf(xs)[..|xs| - 1] == ChunksOf(xs[..|xs| - 1]);
    }
  }

  lemma {:induction false} CostConcat(xs: seq<Ranked>, ys: seq<Ranked>)
    ensures Cost(xs + ys) == Cost(xs) + Cost(ys)
  {
    if ys == [] {
      assert xs + ys == xs;
    } else {
      CostConcat(xs, ys[..|ys| - 1]);
      assert (xs + ys)[..|xs + ys| - 1] == xs + ys[..|ys| - 1];
    }
  }

  lemma {:induction false} CostPermutes(xs: seq<Ranked>, ys: seq<Ranked>)
    requires multiset(xs) == multiset(ys)
    ensures Cost(xs) == Cost(ys)
  {
    if xs == [] {
      assert |multiset(ys)| == 0;
    } else {
      var front, x := xs[..|xs| - 1], xs[|xs| - 1];
      assert xs == front + [x];
      assert x in multiset(ys);
      var i :| 0 <= i < |ys| && ys[i] == x;
      var without := ys[..i] + ys[i + 1..];
      assert ys == ys[..i] + [x] + ys[i + 1..];
      assert multiset(without) == multiset(ys) - multiset{x};
      CostPermutes(front, without);
      CostConcat(ys[..i], ys[i + 1..]);
      CostAppend(ys[..i], x, "");
      CostConcat(ys[..i] + [x], ys[i + 1..]);
    }
  }

  lemma PresentedLeTotal(ranked: seq<Ranked>)
    ensures Total(PresentedLe(ranked))
  {
    RankLeTotal();
  }

  lemma PresentedPermutes(ranked: seq<Ranked>, selected: seq<Ranked>)
    ensures multiset(Presented(ranked, selected)) == multiset(selected)
  {
    PresentedLeTotal(ranked);
    SortSorts(selected, PresentedLe(ranked));
  }

  // The tokens reported are the tokens of the chunks returned, and they are within the budget.
  lemma BuildWithinBudget(b: Builder, q: Request, enabled: bool, cs: seq<Candidate>)
    ensures var pack := Build(b, q, enabled, cs);
            pack.tokens == TokenSum(pack.chunks) && pack.tokens <= pack.budget == b.budget
  {
    if enabled {
      var ranked := Ranking(b, q, Admitted(q.cloud, cs));
      var selected := Packed(b.budget, ranked).0;
      PackedMaximal(b.budget, ranked);
      PresentedPermutes(ranked, selected);
      CostPermutes(Presented(ranked, selected), selected);
      CostIsTokenSum(Presented(ranked, selected));
    }
  }

  // The pool that packing draws on: distinct canonical texts, one for each text met.
  lemma RankingDistinct(b: Builder, q: Request, admitted: seq<Candidate>)
    ensures var pieces := AllPieces(b, q, Sort(admitted, CandidateLe));
            var ranked := Ranking(b, q, admitted);
            && Sorted(ranked, RankLe) && multiset(ranked) == multiset(Firsts(pieces))
            && (forall x, y | x in ranked && y in ranked && Key(x) == Key(y) :: x == y)
            && (forall x | x in ranked :: multiset(ranked)[x] == 1)
  {
    var pieces := AllPieces(b, q, Sort(admitted, CandidateLe));
    var firsts := Firsts(pieces);
    RankLeTotal();
    SortSorts(firsts, RankLe);
    FirstsDistinct(pieces);
    forall x | x in firsts ensures multiset(firsts)[x] == 1 { CountOne(firsts, x); }
  }

  lemma {:induction false} CountOne(xs: seq<Ranked>, x: Ranked)
    requires x in xs && forall i, j | 0 <= i < j < |xs| :: xs[i] != xs[j]
    ensures multiset(xs)[x] == 1
  {
    var i :| 0 <= i < |xs| && xs[i] == x;
    assert xs == xs[..i] + [x] + xs[i + 1..];
    assert x !in xs[..i] && x !in xs[i + 1..];
  }

  predicate IdsTellApart(xs: seq<Ranked>) {
    forall i, j | 0 <= i < |xs| && 0 <= j < |xs| && xs[i].chunk.chunkId == xs[j].chunk.chunkId :: xs[i] == xs[j]
  }

  lemma {:induction false} FirstWithIdIsItself(ranked: seq<Ranked>, x: Ranked)
    requires x in ranked && forall y | y in ranked && y.chunk.chunkId == x.chunk.chunkId :: y == x
    ensures FirstWithIdOf(ranked, x) == x
  {
    if ranked[0].chunk.chunkId != x.chunk.chunkId { FirstWithIdIsItself(ranked[1..], x); }
  }

  function Restricted(ranked: seq<Ranked>, selected: seq<Ranked>): seq<Ranked> {
    if ranked == [] then [] else (if ranked[0] in selected then [ranked[0]] else []) + Restricted(ranked[1..], selected)
  }

  lemma {:induction false} RestrictedCounts(ranked: seq<Ranked>, selected: seq<Ranked>, x: Ranked)
    ensures multiset(Restricted(ranked, selected))[x] == if x in selected then multiset(ranked)[x] else 0
  {
    if ranked != [] {
      RestrictedCounts(ranked[1..], selected, x);
      assert ranked == [ranked[0]] + ranked[1..];
    }
  }

  lemma {:induction false} RestrictedSorted(ranked: seq<Ranked>, selected: seq<Ranked>, le: (Ranked, Ranked) -> bool)
    requires Sorted(ranked, le)
    ensures Sorted(Restricted(ranked, selected), le)
    ensures forall x | x in Restricted(ranked, selected) :: x in ranked && x in selected
  {
    if ranked != [] {
      RestrictedSorted(ranked[1..], selected, le);
      var rest := Restricted(ranked[1..], selected);
      forall x | x in rest ensures le(ranked[0], x) {
        var j :| 0 <= j < |ranked[1..]| && ranked[1..][j] == x;
        assert ranked[j + 1] == x;
      }
    }
  }

  // With chunk ids that tell chunks apart, the chunks come back in rank order: the ranking with the left-out ones removed.
  lemma PresentedInRankOrder(b: Builder, q: Request, admitted: seq<Candidate>)
    requires IdsTellApart(Ranking(b, q, admitted))
    ensures var ranked := Ranking(b, q, admitted);
            var selected := Packed(b.budget, ranked).0;
            Presented(ranked, selected) == Restricted(ranked, selected)
  {
    var ranked := Ranking(b, q, admitted);
    var selected := Packed(b.budget, ranked).0;
    RankingDistinct(b, q, admitted);
    PackedMaximal(b.budget, ranked);
    SelectedOnce(ranked, selected, Packed(b.budget, ranked).1);
    PresentedRestricts(ranked, selected);
  }

  lemma PresentedRestricts(ranked: seq<Ranked>, selected: seq<Ranked>)
    requires IdsTellApart(ranked) && Sorted(ranked, RankLe)
    requires forall x, y | x in ranked && y in ranked && Key(x) == Key(y) :: x == y
    requires forall x | x in ranked :: multiset(ranked)[x] == 1
    requires forall x | x in selected :: x in ranked && multiset(selected)[x] == 1
    ensures Presented(ranked, selected) == Restricted(ranked, selected)
  {
    var le, kept := PresentedLe(ranked), Restricted(ranked, selected);
    PresentedLeTotal(ranked);
    PresentedAgrees(ranked);
    RestrictedSorted(ranked, selected, le);
    forall x ensures multiset(kept)[x] == multiset(selected)[x] { RestrictedCounts(ranked, selected, x); }
    SortSorts(selected, le);
    SortedUnique(kept, Sort(selected, le), le);
  }

  lemma PresentedAgrees(ranked: seq<Ranked>)
    requires IdsTellApart(ranked) && Sorted(ranked, RankLe)
    requires forall x, y | x in ranked && y in ranked && Key(x) == Key(y) :: x == y
    ensures Sorted(ranked, PresentedLe(ranked)) && TiesEqual(ranked, PresentedLe(ranked))
  {
    RankLeTotal();
    forall x | x in ranked ensures FirstWithIdOf(ranked, x) == x { FirstWithIdIsItself(ranked, x); }
    forall i, j | 0 <= i < j < |ranked| ensures PresentedLe(ranked)(ranked[i], ranked[j]) {
      assert RankLe(ranked[i], ranked[j]);
    }
    forall x, y | x in ranked && y in ranked && PresentedLe(ranked)(x, y) && PresentedLe(ranked)(y, x) ensures x == y {
      assert RankKey(x)[2] == RankKey(y)[2];
    }
  }

  // Of two chunks returned, the earlier one has at least the later one's score.
  lemma EarlierScoresHigher(b: Builder, q: Request, cs: seq<Candidate>, i: nat, j: nat)
    requires IdsTellApart(Ranking(b, q, Admitted(q.cloud, cs)))
    requires i < j < |Build(b, q, true, cs).chunks|
    ensures Build(b, q, true, cs).chunks[i].score >= Build(b, q, true, cs).chunks[j].score
  {
    var ranked := Ranking(b, q, Admitted(q.cloud, cs));
    var shown := Restricted(ranked, Packed(b.budget, ranked).0);
    PresentedInRankOrder(b, q, Admitted(q.cloud, cs));
    RankingDistinct(b, q, Admitted(q.cloud, cs));
    RestrictedSorted(ranked, Packed(b.budget, ranked).0, RankLe);
    assert RankLe(shown[i], shown[j]);
  }

  // Without that the order can break: a chunk that shares its id with a better one is placed right behind it, before
  // chunks that score higher.
  lemma SharedIdMisplaces(x: Ranked, y: Ranked, z: Ranked)
    requires x.chunk.score > y.chunk.score > z.chunk.score
    requires x.chunk.chunkId == z.chunk.chunkId != y.chunk.chunkId
    ensures Sorted([x, y, z], RankLe) && Presented([x, y, z], [x, y, z]) == [x, z, y]
  {
    var ranked := [x, y, z];
    var le := PresentedLe(ranked);
    RankLeTotal();
    assert ranked[1..] == [y, z] && [y, z][1..] == [z] && [z][1..] == [];
    assert FirstWithIdOf(ranked, x) == x && FirstWithIdOf(ranked, z) == x;
    assert FirstWithIdOf(ranked, y) == FirstWithIdOf([y, z], y) == y;
    assert !le(y, z) && le(z, y) && le(x, z);
    assert Sort([z], le) == [z];
    assert Sort([y, z], le) == Insert(y, [z], le) == [z, y];
    assert Sort(ranked, le) == Insert(x, [z, y], le) == [x, z, y];
  }

  /******* where a returned chunk comes from *******/

  predicate PieceOf(b: Builder, q: Request, c: Candidate, chunk: Chunk) {
    exists k | 0 <= k < |Pieces(b, c)| :: chunk == RankedPiece(b, q, c, Pieces(b, c)[k], k).chunk
  }

  lemma {:induction false} PieceHasSource(b: Builder, q: Request, cs: seq<Candidate>, x: Ranked)
    requires x in AllPieces(b, q, cs)
    ensures exists c, k :: c in cs && 0 <= k < |Pieces(b, c)| && x == RankedPiece(b, q, c, Pieces(b, c)[k], k)
  {
    var n := |cs| - 1;
    if x in AllPieces(b, q, cs[..n]) {
      PieceHasSource(b, q, cs[..n], x);
    } else {
      var k :| 0 <= k < |RankedPieces(b, q, cs[n])| && RankedPieces(b, q, cs[n])[k] == x;
      assert cs[n] in cs && x == RankedPiece(b, q, cs[n], Pieces(b, cs[n])[k], k);
    }
  }

  lemma RankedHasSource(b: Builder, q: Request, admitted: seq<Candidate>, x: Ranked)
    requires x in Ranking(b, q, admitted)
    ensures exists c, k :: c in admitted && 0 <= k < |Pieces(b, c)| && x == RankedPiece(b, q, c, Pieces(b, c)[k], k)
  {
    var sorted := Sort(admitted, CandidateLe);
    CandidateLeTotal();
    RankLeTotal();
    SortSorts(admitted, CandidateLe);
    SortSorts(Firsts(AllPieces(b, q, sorted)), RankLe);
    FirstsAreFirst(AllPieces(b, q, sorted), x);
    PieceHasSource(b, q, sorted, x);
  }

  lemma PresentedRanked(budget: nat, ranked: seq<Ranked>, x: Ranked)
    requires x in Presented(ranked, Packed(budget, ranked).0)
    ensures x in ranked
  {
    var (selected, left) := Packed(budget, ranked);
    PackedMaximal(budget, ranked);
    PresentedPermutes(ranked, selected);
    assert x in multiset(Presented(ranked, selected));
    assert x in multiset(selected) + multiset(left);
    assert x in multiset(ranked);
  }

  lemma AdmittedGiven(cloud: bool, cs: seq<Candidate>, c: Candidate)
    requires c in Admitted(cloud, cs)
    ensures c in cs && !Dropped(cloud, c)
  {
    assert c in multiset(Admitted(cloud, cs));
    AdmittedCounts(cloud, cs, c);
    assert c in multiset(cs);
  }

  lemma PresentedHasSource(b: Builder, q: Request, admitted: seq<Candidate>, i: nat)
    requires i < |Presented(Ranking(b, q, admitted), Packed(b.budget, Ranking(b, q, admitted)).0)|
    ensures exists c :: c in admitted && PieceOf(b, q, c, Presented(Ranking(b, q, admitted), Packed(b.budget, Ranking(b, q, admitted)).0)[i].chunk)
  {
    var ranked := Ranking(b, q, admitted);
    var x := Presented(ranked, Packed(b.budget, ranked).0)[i];
    PresentedRanked(b.budget, ranked, x);
    RankedHasSource(b, q, admitted, x);
    var c, k :| c in admitted && 0 <= k < |Pieces(b, c)| && x == RankedPiece(b, q, c, Pieces(b, c)[k], k);
    assert PieceOf(b, q, c, x.chunk);
  }

  // Every chunk returned is a piece of a candidate that was given and, in a cloud request, is not local-only.
  lemma ChunkHasSource(b: Builder, q: Request, enabled: bool, cs: seq<Candidate>, i: nat)
    requires i < |Build(b, q, enabled, cs).chunks|
    ensures exists c :: c in cs && !Dropped(q.cloud, c) && PieceOf(b, q, c, Build(b, q, enabled, cs).chunks[i])
  {
    var chunk := Build(b, q, enabled, cs).chunks[i];
    PresentedHasSource(b, q, Admitted(q.cloud, cs), i);
    var c :| c in Admitted(q.cloud, cs) && PieceOf(b, q, c, chunk);
    AdmittedGiven(q.cloud, cs, c);
  }

  // Of two chunks returned, the earlier is of an equal or better kind (when neither candidate has a priority of its own),
  // unless its candidate shares at least four more terms with the query; at equal priority and equally many shared terms,
  // a candidate with a requested character comes before one without, however recent that one is.
  lemma BetterKindFirst(b: Builder, q: Request, cs: seq<Candidate>, i: nat, j: nat, c: Candidate, d: Candidate)
    requires IdsTellApart(Ranking(b, q, Admitted(q.cloud, cs))) && i < j < |Build(b, q, true, cs).chunks|
    requires PieceOf(b, q, c, Build(b, q, true, cs).chunks[i]) && PieceOf(b, q, d, Build(b, q, true, cs).chunks[j])
    ensures var chunks := Build(b, q, true, cs).chunks;
            c.priority.None? && d.priority.None? ==>
              || SourcePriority(chunks[i].sourceType) <= SourcePriority(chunks[j].sourceType)
              || Overlap(b, q, c) >= Overlap(b, q, d) + 4
    ensures Priority(b, c) == Priority(b, d) && Overlap(b, q, c) == Overlap(b, q, d) && !(q.characters !! d.characterIds) ==>
              !(q.characters !! c.characterIds)
  {
    EarlierScoresHigher(b, q, cs, i, j);
    if Priority(b, d) < Priority(b, c) { PriorityOutweighs(b, q, d, c); }
    if Priority(b, c) == Priority(b, d) && Overlap(b, q, c) == Overlap(b, q, d) && q.characters !! c.characterIds
       && !(q.characters !! d.characterIds) {
      CharacterOutweighsRecency(b, q, d, c);
    }
  }

  /******* when chunk ids tell chunks apart *******/

  function Label(b: Builder, c: Candidate): string { b.upper(c.sourceType) + ":" + c.sourceId }

  // Equal ids mean the same label and the same position: the numeral after the last colon can be read off.
  lemma ChunkIdsDiffer(b: Builder, c: Candidate, i: nat, d: Candidate, j: nat)
    requires ChunkId(b, c, i) == ChunkId(b, d, j)
    ensures Label(b, c) == Label(b, d) && i == j
  {
    var x, y := T.Decimal(i), T.Decimal(j);
    LastColon(Label(b, c), x, Label(b, d), y);
    T.DecimalInjective(i, j);
  }

  lemma LaterColon(a: string, x: string, b: string, y: string)
    requires a + ":" + x == b + ":" + y && |a| < |b|
    ensures ':' in x
  {
    var s := a + ":" + x;
    assert s[|b|] == ':' && s[|b|] == x[|b| - |a| - 1];
  }

  lemma LastColon(a: string, x: string, b: string, y: string)
    requires a + ":" + x == b + ":" + y && ':' !in x && ':' !in y
    ensures a == b && x == y
  {
    if |a| < |b| { LaterColon(a, x, b, y); }
    if |b| < |a| { LaterColon(b, y, a, x); }
    var s := a + ":" + x;
    assert s[..|a|] == a && s[..|b|] == b;
    assert s[|a| + 1..] == x && s[|b| + 1..] == y;
  }

  // No two different admitted candidates have the same upper-cased type and source.
  predicate LabelsTellApart(b: Builder, cs: seq<Candidate>) {
    forall i, j | 0 <= i < |cs| && 0 <= j < |cs| && Label(b, cs[i]) == Label(b, cs[j]) :: cs[i] == cs[j]
  }

  // Then no two different chunks have the same id, and the laws above that ask for it apply.
  lemma LabelsTellChunksApart(b: Builder, q: Request, admitted: seq<Candidate>)
    requires LabelsTellApart(b, admitted)
    ensures IdsTellApart(Ranking(b, q, admitted))
  {
    var ranked := Ranking(b, q, admitted);
    forall i, j | 0 <= i < |ranked| && 0 <= j < |ranked| && ranked[i].chunk.chunkId == ranked[j].chunk.chunkId
      ensures ranked[i] == ranked[j]
    {
      var x, y := ranked[i], ranked[j];
      RankedHasSource(b, q, admitted, x);
      RankedHasSource(b, q, admitted, y);
      var c, k :| c in admitted && 0 <= k < |Pieces(b, c)| && x == RankedPiece(b, q, c, Pieces(b, c)[k], k);
      var d, l :| d in admitted && 0 <= l < |Pieces(b, d)| && y == RankedPiece(b, q, d, Pieces(b, d)[l], l);
      ChunkIdsDiffer(b, c, k, d, l);
    }
  }

  lemma SelectedOnce(ranked: seq<Ranked>, taken: seq<Ranked>, left: seq<Ranked>)
    requires multiset(taken) + multiset(left) == multiset(ranked)
    requires forall x | x in ranked :: multiset(ranked)[x] == 1
    ensures forall x | x in taken :: x in ranked && x !in left && multiset(taken)[x] == 1
  {
    forall x | x in taken ensures x in ranked && x !in left && multiset(taken)[x] == 1 {
      assert x in multiset(taken);
      assert multiset(ranked)[x] == multiset(taken)[x] + multiset(left)[x];
      assert x in multiset(ranked);
      assert x in left ==> x in multiset(left);
    }
  }

  lemma {:induction false} LeftOutIdsOf(ranked: seq<Ranked>, selected: seq<Ranked>, id: string)
    ensures id in LeftOutIds(ranked, selected) <==>
              exists x :: x in ranked && !HasId(selected, x.chunk.chunkId) && x.chunk.sourceId == id
  {
    if ranked != [] {
      LeftOutIdsOf(ranked[1..], selected, id);
      assert ranked[0] in ranked;
      assert forall x :: x in ranked <==> x == ranked[0] || x in ranked[1..];
    }
  }

  // A source is reported truncated exactly when the id of one of its chunks is borne by no returned chunk. With ids that
  // tell chunks apart, that is exactly when one of its chunks was left out; every chunk left out costs more than the
  // budget that remains.
  lemma TruncatedExactly(b: Builder, q: Request, cs: seq<Candidate>, id: string)
    ensures var ranked := Ranking(b, q, Admitted(q.cloud, cs));
            var pack := Build(b, q, true, cs);
            && (id in pack.truncated <==>
                  exists x :: x in ranked && !Returned(pack.chunks, x.chunk.chunkId) && x.chunk.sourceId == id)
            && (IdsTellApart(ranked) ==>
                  (id in pack.truncated <==> exists x :: x in ranked && x.chunk !in pack.chunks && x.chunk.sourceId == id))
            && (forall x | x in ranked && x.chunk !in pack.chunks :: x.chunk.tokens > pack.budget - pack.tokens)
  {
    var ranked := Ranking(b, q, Admitted(q.cloud, cs));
    var (selected, left) := Packed(b.budget, ranked);
    var presented := Presented(ranked, selected);
    PackedMaximal(b.budget, ranked);
    LeftOutIdsOf(ranked, selected, id);
    SortedSetOk(LeftOutIds(ranked, selected));
    PresentedPermutes(ranked, selected);
    forall x | x in ranked ensures HasId(selected, x.chunk.chunkId) <==> Returned(ChunksOf(presented), x.chunk.chunkId)
                           ensures x.chunk !in ChunksOf(presented) ==> x in left
                           ensures IdsTellApart(ranked) ==>
                                     (Returned(ChunksOf(presented), x.chunk.chunkId) <==> x.chunk in ChunksOf(presented)) {
      ChunkReturned(ranked, selected, left, presented, x);
    }
  }

  predicate Returned(chunks: seq<Chunk>, id: string) {
    exists i | 0 <= i < |chunks| :: chunks[i].chunkId == id
  }

  lemma ChunkReturned(ranked: seq<Ranked>, selected: seq<Ranked>, left: seq<Ranked>, presented: seq<Ranked>, x: Ranked)
    requires x in ranked && multiset(selected) + multiset(left) == multiset(ranked)
    requires multiset(presented) == multiset(selected)
    ensures HasId(selected, x.chunk.chunkId) <==> Returned(ChunksOf(presented), x.chunk.chunkId)
    ensures x.chunk !in ChunksOf(presented) ==> x in left
    ensures IdsTellApart(ranked) ==> (Returned(ChunksOf(presented), x.chunk.chunkId) <==> x.chunk in ChunksOf(presented))
  {
    assert forall y :: y in presented <==> y in selected by {
      forall y ensures y in presented <==> y in selected { assert y in multiset(presented) <==> y in multiset(selected); }
    }
    if HasId(selected, x.chunk.chunkId) {
      var i :| 0 <= i < |selected| && selected[i].chunk.chunkId == x.chunk.chunkId;
      assert selected[i] in presented;
      var j :| 0 <= j < |presented| && presented[j] == selected[i];
      assert ChunksOf(presented)[j].chunkId == x.chunk.chunkId;
    }
    if x in selected {
      var i :| 0 <= i < |presented| && presented[i] == x;
      assert ChunksOf(presented)[i] == x.chunk;
    } else {
      assert x in multiset(ranked) && x !in multiset(selected);
    }
    if x.chunk in ChunksOf(presented) {
      var i :| 0 <= i < |presented| && ChunksOf(presented)[i] == x.chunk;
      assert ChunksOf(presented)[i].chunkId == x.chunk.chunkId;
    }
    if Returned(ChunksOf(presented), x.chunk.chunkId) {
      var i :| 0 <= i < |presented| && ChunksOf(presented)[i].chunkId == x.chunk.chunkId;
      assert presented[i] in selected;
      assert presented[i] in multiset(ranked) by { assert presented[i] in multiset(selected); }
      assert presented[i] in ranked;
    }
  }
}
