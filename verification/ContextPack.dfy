/**
 Long-context selection under a token budget: privacy admission, scoring, slicing, deduplication,
 and two-pass greedy packing.
 */
module ContextPack {
  import opened Wrappers
  import opened Sorting
  import T = Text

  // Anything that is not text is known by its canonical JSON.
  datatype Content = Text(text: string) | Structured(json: string)

  datatype Candidate = Candidate(
    sourceId: string, sourceType: string, content: Content, localOnly: bool, characterIds: set<string>,
    keywords: seq<string>, chapter: Option<int>, priority: Option<int>)

  datatype Chunk = Chunk(
    chunkId: string, sourceId: string, sourceType: string, content: Content, tokens: nat, score: int, reasons: seq<string>)

  // A chunk with the rest of its sort key.
  datatype Ranked = Ranked(priority: int, chunk: Chunk)

  datatype Request = Request(cloud: bool, terms: set<string>, characters: set<string>, chapter: Option<int>)

  // `upper` and `terms` are the library's upper-casing and word splitting.
  datatype Builder = Builder(budget: nat, limit: Positive, upper: string -> string, terms: seq<string> -> set<string>)

  type Positive = n: int | n >= 1 witness 1

  datatype Pack = Pack(
    enabled: bool, chunks: seq<Chunk>, tokens: nat, budget: nat, omitted: seq<string>, duplicates: int, truncated: seq<string>)

  /******* canonical text and cost *******/

  function HexDigit(n: nat): char
    requires n < 16
  {
    "0123456789abcdef"[n]
  }

  function Escaped(c: char): string {
    if c == '\"' then "\\\"" else if c == '\\' then "\\\\"
    else if c == '\n' then "\\n" else if c == '\r' then "\\r" else if c == '\t' then "\\t"
    else if c as int == 8 then "\\b" else if c as int == 12 then "\\f"
    else if c as int < 32 then "\\u00" + [HexDigit(c as int / 16), HexDigit(c as int % 16)]
    else [c]
  }

  function EscapedAll(s: string): string {
    if s == "" then "" else Escaped(s[0]) + EscapedAll(s[1..])
  }

  function Canonical(c: Content): string {
    match c
    case Text(s) => "\"" + EscapedAll(s) + "\""
    case Structured(json) => json
  }

  function Tokens(c: Content): nat {
    var n := (|Canonical(c)| + 3) / 4;
    if n < 1 then 1 else n
  }

  /******* slicing *******/

  function ChunkId(b: Builder, c: Candidate, i: nat): string {
    b.upper(c.sourceType) + ":" + c.sourceId + ":" + T.Decimal(i)
  }

  function Slices(s: string, width: Positive): seq<string>
    decreases |s|
  {
    if s == "" then [] else if |s| <= width then [s] else [s[..width]] + Slices(s[width..], width)
  }

  function Pieces(b: Builder, c: Candidate): seq<Content> {
    if c.content.Structured? || Tokens(c.content) <= b.limit then [c.content]
    else
      var slices := Slices(c.content.text, b.limit * 4);
      seq(|slices|, i requires 0 <= i < |slices| => Text(slices[i]))
  }

  /******* scoring *******/

  function SourcePriority(kind: string): int {
    if kind == "RECENT_CHAPTER" then 0 else if kind == "CHARACTER" then 1 else if kind == "TIMELINE" then 2
    else if kind == "LORE" then 3 else if kind == "NARRATIVE" then 4 else 5
  }

  function Abs(x: int): nat { if x < 0 then -x else x }

  function Recency(q: Request, c: Candidate): nat {
    if q.chapter.None? || c.chapter.None? || Abs(q.chapter.value - c.chapter.value) > 100 then 0
    else 100 - Abs(q.chapter.value - c.chapter.value)
  }

  function Priority(b: Builder, c: Candidate): int {
    if c.priority.Some? then c.priority.value else SourcePriority(b.upper(c.sourceType))
  }

  function Overlap(b: Builder, q: Request, c: Candidate): nat {
    |q.terms * b.terms([Canonical(c.content)] + c.keywords)|
  }

  function Score(b: Builder, q: Request, c: Candidate): int {
    10000 - Priority(b, c) * 1000 + Overlap(b, q, c) * 100 + (if q.characters !! c.characterIds then 0 else 500) + Recency(q, c)
  }

  function Reasons(b: Builder, q: Request, c: Candidate): seq<string> {
    ["SOURCE_PRIORITY:" + b.upper(c.sourceType)]
    + (if Overlap(b, q, c) > 0 then ["QUERY_RELEVANCE"] else [])
    + (if q.characters !! c.characterIds then [] else ["CHARACTER_RELEVANCE"])
    + (if Recency(q, c) > 0 then ["CHAPTER_RECENCY"] else [])
  }

  function RankedPiece(b: Builder, q: Request, c: Candidate, content: Content, i: nat): Ranked {
    Ranked(Priority(b, c), Chunk(ChunkId(b, c, i), c.sourceId, b.upper(c.sourceType), content, Tokens(content),
                                 Score(b, q, c), Reasons(b, q, c)))
  }

  function RankedPieces(b: Builder, q: Request, c: Candidate): seq<Ranked> {
    var pieces := Pieces(b, c);
    seq(|pieces|, i requires 0 <= i < |pieces| => RankedPiece(b, q, c, pieces[i], i))
  }

  function AllPieces(b: Builder, q: Request, cs: seq<Candidate>): seq<Ranked> {
    if cs == [] then [] else AllPieces(b, q, cs[..|cs| - 1]) + RankedPieces(b, q, cs[|cs| - 1])
  }

  function Key(x: Ranked): string { Canonical(x.chunk.content) }

  predicate Seen(xs: seq<Ranked>, key: string) {
    exists i | 0 <= i < |xs| :: Key(xs[i]) == key
  }

  // The first chunk of each canonical text.
  function Firsts(xs: seq<Ranked>): seq<Ranked> {
    if xs == [] then []
    else
      var front := Firsts(xs[..|xs| - 1]);
      if Seen(front, Key(xs[|xs| - 1])) then front else front + [xs[|xs| - 1]]
  }

  /******* the two orders *******/

  function CandidateKey(c: Candidate): seq<string> { [c.sourceId, c.sourceType, Canonical(c.content)] }

  predicate CandidateLe(x: Candidate, y: Candidate) { LexLe(CandidateKey(x), CandidateKey(y)) }

  function RankKey(x: Ranked): seq<string> { [x.chunk.sourceId, x.chunk.chunkId, Key(x)] }

  predicate RankLe(x: Ranked, y: Ranked) {
    if x.chunk.score != y.chunk.score then x.chunk.score > y.chunk.score
    else if x.priority != y.priority then x.priority < y.priority
    else LexLe(RankKey(x), RankKey(y))
  }

  /******* packing *******/

  function Percent(category: string): nat {
    if category == "RECENT_CHAPTER" then 35 else if category == "CHARACTER" then 25 else if category == "TIMELINE" then 20
    else if category == "LORE" then 15 else 5
  }

  function Category(x: Ranked): string {
    var t := x.chunk.sourceType;
    if t == "RECENT_CHAPTER" || t == "CHARACTER" || t == "TIMELINE" || t == "LORE" || t == "NARRATIVE" then t else "OTHER"
  }

  function Cap(budget: nat, category: string): nat { budget * Percent(category) / 100 }

  function Cost(xs: seq<Ranked>): nat {
    if xs == [] then 0 else Cost(xs[..|xs| - 1]) + xs[|xs| - 1].chunk.tokens
  }

  function CategoryCost(xs: seq<Ranked>, category: string): nat {
    if xs == [] then 0
    else CategoryCost(xs[..|xs| - 1], category) + if Category(xs[|xs| - 1]) == category then xs[|xs| - 1].chunk.tokens else 0
  }

  predicate FitsFirst(budget: nat, selected: seq<Ranked>, x: Ranked) {
    && Cost(selected) + x.chunk.tokens <= budget
    && CategoryCost(selected, Category(x)) + x.chunk.tokens <= Cap(budget, Category(x))
  }

  // Selected and deferred chunks of the pass that keeps every category under its share.
  function FirstPass(budget: nat, xs: seq<Ranked>): (seq<Ranked>, seq<Ranked>) {
    if xs == [] then ([], [])
    else
      var (selected, deferred) := FirstPass(budget, xs[..|xs| - 1]);
      var x := xs[|xs| - 1];
      if FitsFirst(budget, selected, x) then (selected + [x], deferred) else (selected, deferred + [x])
  }

  // The pass that pools what is left; its second part is what stays out.
  function SecondPass(budget: nat, selected: seq<Ranked>, deferred: seq<Ranked>): (seq<Ranked>, seq<Ranked>)
    decreases |deferred|
  {
    if deferred == [] then (selected, [])
    else
      var (taken, left) := SecondPass(budget, selected, deferred[..|deferred| - 1]);
      var x := deferred[|deferred| - 1];
      if Cost(taken) + x.chunk.tokens <= budget then (taken + [x], left) else (taken, left + [x])
  }

  function Packed(budget: nat, xs: seq<Ranked>): (seq<Ranked>, seq<Ranked>) {
    var (selected, deferred) := FirstPass(budget, xs);
    SecondPass(budget, selected, deferred)
  }

  /******* the whole build *******/

  function Admitted(cloud: bool, cs: seq<Candidate>): seq<Candidate> {
    if cs == [] then []
    else (if cloud && cs[0].localOnly then [] else [cs[0]]) + Admitted(cloud, cs[1..])
  }

  function OmittedIds(cloud: bool, cs: seq<Candidate>): seq<string> {
    if cs == [] then []
    else (if cloud && cs[0].localOnly then [cs[0].sourceId] else []) + OmittedIds(cloud, cs[1..])
  }

  function Ranking(b: Builder, q: Request, admitted: seq<Candidate>): seq<Ranked> {
    Sort(Firsts(AllPieces(b, q, Sort(admitted, CandidateLe))), RankLe)
  }

  predicate HasId(xs: seq<Ranked>, id: string) {
    exists i | 0 <= i < |xs| :: xs[i].chunk.chunkId == id
  }

  function LeftOutIds(ranked: seq<Ranked>, selected: seq<Ranked>): seq<string> {
    if ranked == [] then []
    else (if HasId(selected, ranked[0].chunk.chunkId) then [] else [ranked[0].chunk.sourceId]) + LeftOutIds(ranked[1..], selected)
  }

  // `next(key for key, chunk in ranked if chunk.chunk_id == x.chunk_id)`
  function FirstWithIdOf(ranked: seq<Ranked>, x: Ranked): Ranked {
    if ranked == [] then x else if ranked[0].chunk.chunkId == x.chunk.chunkId then ranked[0] else FirstWithIdOf(ranked[1..], x)
  }

  function PresentedLe(ranked: seq<Ranked>): (Ranked, Ranked) -> bool {
    (x, y) => RankLe(FirstWithIdOf(ranked, x), FirstWithIdOf(ranked, y))
  }

  function Presented(ranked: seq<Ranked>, selected: seq<Ranked>): seq<Ranked> {
    Sort(selected, PresentedLe(ranked))
  }

  function ChunksOf(xs: seq<Ranked>): seq<Chunk> {
    seq(|xs|, i requires 0 <= i < |xs| => xs[i].chunk)
  }

  function PackOf(b: Builder, omitted: seq<string>, total: nat, ranked: seq<Ranked>): Pack {
    var selected := Packed(b.budget, ranked).0;
    Pack(true, ChunksOf(Presented(ranked, selected)), Cost(selected), b.budget, omitted,
         total - |ranked|, SortedSet(LeftOutIds(ranked, selected)))
  }

  function Build(b: Builder, q: Request, enabled: bool, cs: seq<Candidate>): Pack {
    if !enabled then Pack(false, [], 0, b.budget, [], 0, [])
    else
      var admitted := Admitted(q.cloud, cs);
      PackOf(b, SortedSet(OmittedIds(q.cloud, cs)), |AllPieces(b, q, Sort(admitted, CandidateLe))|, Ranking(b, q, admitted))
  }
}
