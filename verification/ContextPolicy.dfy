/**
 Authority-aware selection of context items: deduplication, conflicts between structured facts,
 and one token share for each authority level.
 */
module ContextPolicy {
  import opened Wrappers
  import opened Sorting

  datatype Authority = Authoritative | Constraining | Supporting | Advisory

  datatype SourceType =
    | Canon | AcceptedChapter | Timeline | CharacterKnowledge | LoreMemory | NarrativeState | NarrativeFinding
    | EvidenceReference

  // `value` is the canonical JSON of the value; `other` stands for the fields that only the estimate reads.
  datatype Item = Item(
    source: SourceType, authority: Authority, id: string, version: Option<string>, localOnly: bool,
    factKey: Option<string>, reasons: seq<string>, value: string, other: string)

  datatype Conflict = Conflict(key: string, high: seq<string>, low: seq<string>, unresolved: bool)

  type Cost = n: int | n >= 1 witness 1

  // `estimate` is the token estimate, never below one.
  datatype Policy = Policy(budget: int, estimate: Item -> Cost)

  datatype Bucket = Bucket(emitted: seq<Item>, truncated: seq<Item>, used: int)

  datatype Outcome = Outcome(
    authoritative: Bucket, constraining: Bucket, supporting: Bucket, advisory: Bucket, conflicts: seq<Conflict>,
    duplicates: nat, authoritativeTruncated: bool)

  function Rank(a: Authority): nat {
    match a case Authoritative => 0 case Constraining => 1 case Supporting => 2 case Advisory => 3
  }

  function Order(s: SourceType): nat {
    match s
    case Canon => 0 case AcceptedChapter => 1 case Timeline => 2 case CharacterKnowledge => 3
    case LoreMemory => 4 case NarrativeState => 5 case NarrativeFinding => 6 case EvidenceReference => 7
  }

  function Percent(a: Authority): nat {
    match a case Authoritative => 40 case Constraining => 25 case Supporting => 25 case Advisory => 10
  }

  // Rounds down, also for a negative budget.
  function Cap(budget: int, a: Authority): int {
    budget * Percent(a) / 100
  }

  function SortText(x: Item): seq<string> {
    [if x.version.Some? then x.version.value else "", x.id, x.value]
  }

  predicate ItemLe(x: Item, y: Item) {
    if x.authority != y.authority then Rank(x.authority) < Rank(y.authority)
    else if x.source != y.source then Order(x.source) < Order(y.source)
    else LexLe(SortText(x), SortText(y))
  }

  function Eligible(cloud: bool, items: seq<Item>): seq<Item> {
    if items == [] then [] else (if cloud && items[0].localOnly then [] else [items[0]]) + Eligible(cloud, items[1..])
  }

  /******* deduplication *******/

  datatype DedupKey = DedupKey(source: SourceType, id: string, version: Option<string>, value: string)

  function KeyOf(x: Item): DedupKey { DedupKey(x.source, x.id, x.version, x.value) }

  // The position of the first item with this key, or the length.
  function Find(values: seq<Item>, key: DedupKey): (i: nat)
    ensures i <= |values| && (i < |values| ==> KeyOf(values[i]) == key)
    ensures forall j | 0 <= j < i :: KeyOf(values[j]) != key
  {
    if values == [] || KeyOf(values[0]) == key then 0 else 1 + Find(values[1..], key)
  }

  function Absorb(held: Item, x: Item): Item {
    held.(reasons := SortedSet(held.reasons + x.reasons))
  }

  function AddItem(values: seq<Item>, x: Item): seq<Item> {
    var i := Find(values, KeyOf(x));
    if i == |values| then values + [x] else values[i := Absorb(values[i], x)]
  }

  function Dedup(items: seq<Item>): seq<Item> {
    if items == [] then [] else AddItem(Dedup(items[..|items| - 1]), items[|items| - 1])
  }

  function Duplicates(items: seq<Item>): nat {
    if items == [] then 0
    else Duplicates(items[..|items| - 1])
         + if Find(Dedup(items[..|items| - 1]), KeyOf(items[|items| - 1])) == |Dedup(items[..|items| - 1])| then 0 else 1
  }

  /******* conflicts *******/

  // An empty fact key counts as none.
  predicate Keyed(x: Item, key: string) {
    x.factKey == Some(key) && key != ""
  }

  function Group(values: seq<Item>, key: string): seq<Item> {
    if values == [] then [] else (if Keyed(values[0], key) then [values[0]] else []) + Group(values[1..], key)
  }

  function FactKeys(values: seq<Item>): seq<string> {
    if values == [] then []
    else (if values[0].factKey.Some? && values[0].factKey.value != "" then [values[0].factKey.value] else [])
         + FactKeys(values[1..])
  }

  predicate Contradictory(group: seq<Item>) {
    exists x, y | x in group && y in group :: x.value != y.value
  }

  function Best(group: seq<Item>): (r: nat)
    requires group != []
    ensures exists x | x in group :: Rank(x.authority) == r
    ensures forall x | x in group :: r <= Rank(x.authority)
  {
    if |group| == 1 then Rank(group[0].authority)
    else
      var rest := Best(group[1..]);
      if Rank(group[0].authority) < rest then Rank(group[0].authority) else rest
  }

  function High(group: seq<Item>, best: nat): seq<Item> {
    if group == [] then [] else (if Rank(group[0].authority) == best then [group[0]] else []) + High(group[1..], best)
  }

  function Low(group: seq<Item>, best: nat): seq<Item> {
    if group == [] then [] else (if Rank(group[0].authority) == best then [] else [group[0]]) + Low(group[1..], best)
  }

  function Ids(xs: seq<Item>): seq<string> {
    seq(|xs|, i requires 0 <= i < |xs| => xs[i].id)
  }

  datatype Triple = Triple(source: SourceType, id: string, version: Option<string>)

  function TripleOf(x: Item): Triple { Triple(x.source, x.id, x.version) }

  function Triples(xs: seq<Item>): set<Triple> {
    set x | x in xs :: TripleOf(x)
  }

  // What one fact key contributes: its conflict, if any, and the triples it drops.
  function ConflictOf(values: seq<Item>, key: string): (seq<Conflict>, set<Triple>) {
    var group := Group(values, key);
    if !Contradictory(group) then ([], {})
    else
      var best := Best(group);
      var high, low := High(group, best), Low(group, best);
      var unresolved := Contradictory(high);
      ([Conflict(key, Sort(Ids(high), StrLe), Sort(Ids(low), StrLe), unresolved)], if unresolved then {} else Triples(low))
  }

  function Conflicts(values: seq<Item>, keys: seq<string>): (seq<Conflict>, set<Triple>) {
    if keys == [] then ([], {})
    else
      var (conflicts, omitted) := Conflicts(values, keys[..|keys| - 1]);
      var (c, o) := ConflictOf(values, keys[|keys| - 1]);
      (conflicts + c, omitted + o)
  }

  function Kept(values: seq<Item>, omitted: set<Triple>): seq<Item> {
    if values == [] then [] else (if TripleOf(values[0]) in omitted then [] else [values[0]]) + Kept(values[1..], omitted)
  }

  /******* shares *******/

  function OfAuthority(xs: seq<Item>, a: Authority): seq<Item> {
    if xs == [] then [] else (if xs[0].authority == a then [xs[0]] else []) + OfAuthority(xs[1..], a)
  }

  function Fill(p: Policy, cap: int, xs: seq<Item>): Bucket {
    if xs == [] then Bucket([], [], 0)
    else
      var b, x := Fill(p, cap, xs[..|xs| - 1]), xs[|xs| - 1];
      if b.used + p.estimate(x) > cap then b.(truncated := b.truncated + [x])
      else b.(emitted := b.emitted + [x], used := b.used + p.estimate(x))
  }

  function BucketOf(p: Policy, kept: seq<Item>, a: Authority): Bucket {
    Fill(p, Cap(p.budget, a), Sort(OfAuthority(kept, a), ItemLe))
  }

  function Values(cloud: bool, items: seq<Item>): seq<Item> {
    Dedup(Sort(Eligible(cloud, items), ItemLe))
  }

  function ConflictsIn(values: seq<Item>): (seq<Conflict>, set<Triple>) {
    Conflicts(values, SortedSet(FactKeys(values)))
  }

  function Survivors(cloud: bool, items: seq<Item>): seq<Item> {
    var values := Values(cloud, items);
    Kept(values, ConflictsIn(values).1)
  }

  predicate NamesOneOf(xs: seq<Item>, truncated: seq<Item>) {
    exists x, y | x in xs && y in truncated :: x.id == y.id
  }

  function Apply(p: Policy, cloud: bool, items: seq<Item>): Outcome {
    var kept := Survivors(cloud, items);
    var top := BucketOf(p, kept, Authoritative);
    Outcome(top, BucketOf(p, kept, Constraining), BucketOf(p, kept, Supporting), BucketOf(p, kept, Advisory),
            ConflictsIn(Values(cloud, items)).0, Duplicates(Sort(Eligible(cloud, items), ItemLe)),
            NamesOneOf(OfAuthority(kept, Authoritative), top.truncated))
  }

  function Emitted(o: Outcome): seq<Item> {
    o.authoritative.emitted + o.constraining.emitted + o.supporting.emitted + o.advisory.emitted
  }

  function Truncated(o: Outcome): seq<Item> {
    o.authoritative.truncated + o.constraining.truncated + o.supporting.truncated + o.advisory.truncated
  }
}

/** What the policy promises for every list of items. */
module ContextPolicyLaws {
  import opened Wrappers
  import opened Sorting
  import opened ContextPolicy

  lemma ItemLeTotal()
    ensures Total(ItemLe)
  {
    forall x, y ensures ItemLe(x, y) || ItemLe(y, x) { LexTotal(SortText(x), SortText(y)); }
    forall x, y, z | ItemLe(x, y) && ItemLe(y, z) ensures ItemLe(x, z) {
      if LexLe(SortText(x), SortText(y)) && LexLe(SortText(y), SortText(z)) {
        LexTransitive(SortText(x), SortText(y), SortText(z));
      }
    }
  }

  /******* privacy *******/

  // The items given that the request may see: for the cloud, those that are not local-only.
  function Shareable(cloud: bool, items: seq<Item>): seq<Item> {
    Filter((x: Item) => !(cloud && x.localOnly), items)
  }

  lemma {:induction false} EligibleIsShareable(cloud: bool, items: seq<Item>)
    ensures Eligible(cloud, items) == Shareable(cloud, items)
  {
    if items != [] {
      EligibleIsShareable(cloud, items[1..]);
      FilterStep((x: Item) => !(cloud && x.localOnly), items);
    }
  }

  // Nothing else of the given items can be told from the outcome: lists that agree once the items the request may not
  // see are taken out give the same outcome.
  lemma OutcomeOfShareable(p: Policy, cloud: bool, items: seq<Item>, items': seq<Item>)
    requires Shareable(cloud, items) == Shareable(cloud, items')
    ensures Apply(p, cloud, items) == Apply(p, cloud, items')
  {
    EligibleIsShareable(cloud, items);
    EligibleIsShareable(cloud, items');
  }

  // A given item behind a kept one: the same source, id, version and value, the same authority and fact key, and in a
  // cloud request not local-only.
  ghost predicate Behind(cloud: bool, items: seq<Item>, x: Item) {
    exists y :: y in items && !(cloud && y.localOnly) && KeyOf(y) == KeyOf(x) && y.authority == x.authority && y.factKey == x.factKey
  }

  lemma ValuesBehind(cloud: bool, items: seq<Item>, x: Item)
    requires x in Values(cloud, items)
    ensures Behind(cloud, items, x)
  {
    ItemLeTotal();
    SortSorts(Eligible(cloud, items), ItemLe);
    DedupFrom(Sort(Eligible(cloud, items), ItemLe), x);
    EligibleIsShareable(cloud, items);
    FilterKeeps((y: Item) => !(cloud && y.localOnly), items);
  }

  // Everything emitted or truncated, and every source a reported conflict names, comes from a given item that the
  // request may see.
  lemma NothingLocalLeaves(p: Policy, cloud: bool, items: seq<Item>)
    ensures var o := Apply(p, cloud, items);
            && (forall x | x in Emitted(o) || x in Truncated(o) :: Behind(cloud, items, x))
            && (forall c, id | c in o.conflicts && (id in c.high || id in c.low) ::
                  exists x :: Behind(cloud, items, x) && x.id == id && x.factKey == Some(c.key))
  {
    var o, values := Apply(p, cloud, items), Values(cloud, items);
    EmittedOrTruncated(p, cloud, items);
    KeptCounts(values, ConflictsIn(values).1);
    forall x | x in Emitted(o) || x in Truncated(o) ensures Behind(cloud, items, x) {
      assert x in multiset(Emitted(o)) + multiset(Truncated(o));
      assert x in multiset(Survivors(cloud, items));
      ValuesBehind(cloud, items, x);
    }
    forall c, id | c in o.conflicts && (id in c.high || id in c.low)
      ensures exists x :: Behind(cloud, items, x) && x.id == id && x.factKey == Some(c.key)
    {
      ConflictNamesSides(values, c, id);
      var x :| x in values && Keyed(x, c.key) && x.id == id;
      ValuesBehind(cloud, items, x);
    }
  }

  /******* budget *******/

  function Estimates(p: Policy, xs: seq<Item>): nat {
    if xs == [] then 0 else Estimates(p, xs[..|xs| - 1]) + p.estimate(xs[|xs| - 1])
  }

  lemma {:induction false} FillWithinCap(p: Policy, cap: int, xs: seq<Item>)
    ensures var b := Fill(p, cap, xs);
            b.used == Estimates(p, b.emitted) && (b.used <= cap || b.emitted == [])
  {
    if xs != [] {
      var front, x := xs[..|xs| - 1], xs[|xs| - 1];
      FillWithinCap(p, cap, front);
      var b := Fill(p, cap, front);
      assert (b.emitted + [x])[..|b.emitted|] == b.emitted;
    }
  }

  lemma {:induction false} FillKeepsAll(p: Policy, cap: int, xs: seq<Item>, x: Item)
    ensures multiset(Fill(p, cap, xs).emitted)[x] + multiset(Fill(p, cap, xs).truncated)[x] == multiset(xs)[x]
  {
    if xs != [] {
      FillKeepsAll(p, cap, xs[..|xs| - 1], x);
      assert xs == xs[..|xs| - 1] + [xs[|xs| - 1]];
    }
  }

  // What a bucket leaves out costs more than what is left of its share.
  lemma {:induction false} TruncatedTooDear(p: Policy, cap: int, xs: seq<Item>, x: Item)
    requires x in Fill(p, cap, xs).truncated
    ensures Fill(p, cap, xs).used + p.estimate(x) > cap
  {
    var front, last := xs[..|xs| - 1], xs[|xs| - 1];
    if x in Fill(p, cap, front).truncated { TruncatedTooDear(p, cap, front, x); }
  }

  // The four shares are 40, 25, 25 and 10 percent, rounded down, and each is used up to what no longer fits.
  lemma SharesUsedUp(p: Policy, cloud: bool, items: seq<Item>, x: Item)
    ensures var o := Apply(p, cloud, items);
            && (x in o.authoritative.truncated ==> o.authoritative.used + p.estimate(x) > p.budget * 40 / 100)
            && (x in o.constraining.truncated ==> o.constraining.used + p.estimate(x) > p.budget * 25 / 100)
            && (x in o.supporting.truncated ==> o.supporting.used + p.estimate(x) > p.budget * 25 / 100)
            && (x in o.advisory.truncated ==> o.advisory.used + p.estimate(x) > p.budget * 10 / 100)
  {
    var o, kept := Apply(p, cloud, items), Survivors(cloud, items);
    if x in o.authoritative.truncated { BucketTooDear(p, kept, Authoritative, x); }
    if x in o.constraining.truncated { BucketTooDear(p, kept, Constraining, x); }
    if x in o.supporting.truncated { BucketTooDear(p, kept, Supporting, x); }
    if x in o.advisory.truncated { BucketTooDear(p, kept, Advisory, x); }
  }

  lemma BucketTooDear(p: Policy, kept: seq<Item>, a: Authority, x: Item)
    requires x in BucketOf(p, kept, a).truncated
    ensures BucketOf(p, kept, a).used + p.estimate(x) > Cap(p.budget, a)
  {
    TruncatedTooDear(p, Cap(p.budget, a), Sort(OfAuthority(kept, a), ItemLe), x);
  }

  function Positive(n: int): nat { if n > 0 then n else 0 }

  lemma CapsWithinBudget(budget: int)
    ensures Positive(Cap(budget, Authoritative)) + Positive(Cap(budget, Constraining)) + Positive(Cap(budget, Supporting))
            + Positive(Cap(budget, Advisory)) <= Positive(budget)
  {}

  // Each bucket reports what its items cost, and together they never exceed the budget; a budget that is not
  // positive emits nothing.
  lemma BucketsWithinBudget(p: Policy, cloud: bool, items: seq<Item>)
    ensures var o := Apply(p, cloud, items);
            && o.authoritative.used == Estimates(p, o.authoritative.emitted)
            && o.constraining.used == Estimates(p, o.constraining.emitted)
            && o.supporting.used == Estimates(p, o.supporting.emitted)
            && o.advisory.used == Estimates(p, o.advisory.emitted)
            && o.authoritative.used + o.constraining.used + o.supporting.used + o.advisory.used <= Positive(p.budget)
            && (p.budget <= 0 ==> Emitted(o) == [])
  {
    var kept := Survivors(cloud, items);
    FillWithinCap(p, Cap(p.budget, Authoritative), Sort(OfAuthority(kept, Authoritative), ItemLe));
    FillWithinCap(p, Cap(p.budget, Constraining), Sort(OfAuthority(kept, Constraining), ItemLe));
    FillWithinCap(p, Cap(p.budget, Supporting), Sort(OfAuthority(kept, Supporting), ItemLe));
    FillWithinCap(p, Cap(p.budget, Advisory), Sort(OfAuthority(kept, Advisory), ItemLe));
    CapsWithinBudget(p.budget);
    forall b: Bucket | b.used == Estimates(p, b.emitted) && b.used <= 0 ensures b.emitted == [] { EstimatesPositive(p, b.emitted); }
  }

  lemma EstimatesPositive(p: Policy, xs: seq<Item>)
    ensures Estimates(p, xs) == 0 <==> xs == []
  {}

  /******* every item is accounted for *******/

  lemma {:induction false} DedupCounts(items: seq<Item>)
    ensures |Dedup(items)| + Duplicates(items) == |items|
  {
    if items != [] { DedupCounts(items[..|items| - 1]); }
  }

  lemma {:induction false} OfAuthorityCounts(xs: seq<Item>, a: Authority, x: Item)
    ensures multiset(OfAuthority(xs, a))[x] == if x.authority == a then multiset(xs)[x] else 0
  {
    if xs != [] {
      OfAuthorityCounts(xs[1..], a, x);
      assert xs == [xs[0]] + xs[1..];
    }
  }

  lemma BucketCounts(p: Policy, kept: seq<Item>, a: Authority, x: Item)
    ensures multiset(BucketOf(p, kept, a).emitted)[x] + multiset(BucketOf(p, kept, a).truncated)[x] ==
              if x.authority == a then multiset(kept)[x] else 0
  {
    ItemLeTotal();
    SortSorts(OfAuthority(kept, a), ItemLe);
    FillKeepsAll(p, Cap(p.budget, a), Sort(OfAuthority(kept, a), ItemLe), x);
    OfAuthorityCounts(kept, a, x);
  }

  lemma CountAcross(a: seq<Item>, b: seq<Item>, c: seq<Item>, d: seq<Item>, x: Item)
    ensures multiset(a + b + c + d)[x] == multiset(a)[x] + multiset(b)[x] + multiset(c)[x] + multiset(d)[x]
  {}

  lemma EmittedOrTruncated(p: Policy, cloud: bool, items: seq<Item>)
    ensures var o := Apply(p, cloud, items);
            multiset(Emitted(o)) + multiset(Truncated(o)) == multiset(Survivors(cloud, items))
  {
    var kept := Survivors(cloud, items);
    forall x { CountInBuckets(p, kept, x); }
    BucketsHoldAll(kept, BucketOf(p, kept, Authoritative), BucketOf(p, kept, Constraining), BucketOf(p, kept, Supporting),
                   BucketOf(p, kept, Advisory));
  }

  lemma CountInBuckets(p: Policy, kept: seq<Item>, x: Item)
    ensures multiset(BucketOf(p, kept, Authoritative).emitted)[x] + multiset(BucketOf(p, kept, Authoritative).truncated)[x]
            + multiset(BucketOf(p, kept, Constraining).emitted)[x] + multiset(BucketOf(p, kept, Constraining).truncated)[x]
            + multiset(BucketOf(p, kept, Supporting).emitted)[x] + multiset(BucketOf(p, kept, Supporting).truncated)[x]
            + multiset(BucketOf(p, kept, Advisory).emitted)[x] + multiset(BucketOf(p, kept, Advisory).truncated)[x]
            == multiset(kept)[x]
  {
    BucketCounts(p, kept, Authoritative, x);
    BucketCounts(p, kept, Constraining, x);
    BucketCounts(p, kept, Supporting, x);
    BucketCounts(p, kept, Advisory, x);
  }

  lemma BucketsHoldAll(kept: seq<Item>, a: Bucket, b: Bucket, c: Bucket, d: Bucket)
    requires forall x ::
               multiset(a.emitted)[x] + multiset(a.truncated)[x] + multiset(b.emitted)[x] + multiset(b.truncated)[x]
               + multiset(c.emitted)[x] + multiset(c.truncated)[x] + multiset(d.emitted)[x] + multiset(d.truncated)[x]
               == multiset(kept)[x]
    ensures multiset(a.emitted + b.emitted + c.emitted + d.emitted)
            + multiset(a.truncated + b.truncated + c.truncated + d.truncated) == multiset(kept)
  {
    var emitted, truncated := a.emitted + b.emitted + c.emitted + d.emitted, a.truncated + b.truncated + c.truncated + d.truncated;
    forall x ensures multiset(emitted)[x] + multiset(truncated)[x] == multiset(kept)[x] {
      CountAcross(a.emitted, b.emitted, c.emitted, d.emitted, x);
      CountAcross(a.truncated, b.truncated, c.truncated, d.truncated, x);
    }
  }

  function Omitted(values: seq<Item>, omitted: set<Triple>): seq<Item> {
    if values == [] then [] else (if TripleOf(values[0]) in omitted then [values[0]] else []) + Omitted(values[1..], omitted)
  }

  lemma {:induction false} KeptCounts(values: seq<Item>, omitted: set<Triple>)
    ensures multiset(Kept(values, omitted)) + multiset(Omitted(values, omitted)) == multiset(values)
    ensures forall x :: x in Kept(values, omitted) <==> x in values && TripleOf(x) !in omitted
    ensures forall x :: x in Omitted(values, omitted) <==> x in values && TripleOf(x) in omitted
  {
    if values != [] {
      KeptCounts(values[1..], omitted);
      assert values == [values[0]] + values[1..];
    }
  }

  /******* deduplication *******/

  predicate DistinctKeys(values: seq<Item>) {
    forall i, j | 0 <= i < j < |values| :: KeyOf(values[i]) != KeyOf(values[j])
  }

  ghost predicate Covers(values: seq<Item>, items: seq<Item>) {
    forall x | x in items :: exists v :: v in values && KeyOf(v) == KeyOf(x)
  }

  ghost predicate ReasonsFrom(values: seq<Item>, items: seq<Item>) {
    forall v, r | v in values && r in v.reasons :: exists x :: x in items && KeyOf(x) == KeyOf(v) && r in x.reasons
  }

  predicate ReasonsKept(values: seq<Item>, items: seq<Item>) {
    forall v, x, r | v in values && x in items && KeyOf(x) == KeyOf(v) && r in x.reasons :: r in v.reasons
  }

  // One item for each key that occurs, with all the reasons given for it and no others.
  lemma {:induction false} DedupMerges(items: seq<Item>)
    ensures DistinctKeys(Dedup(items)) && Covers(Dedup(items), items)
    ensures ReasonsFrom(Dedup(items), items) && ReasonsKept(Dedup(items), items)
  {
    if items != [] {
      var front, x := items[..|items| - 1], items[|items| - 1];
      DedupMerges(front);
      assert items == front + [x];
      KeysAfterMerge(Dedup(front), front, x);
      ReasonsAfterMerge(Dedup(front), front, x);
      ReasonsKeptAfterMerge(Dedup(front), front, x);
    }
  }

  lemma KeysAfterMerge(held: seq<Item>, front: seq<Item>, x: Item)
    requires DistinctKeys(held) && Covers(held, front)
    ensures DistinctKeys(AddItem(held, x)) && Covers(AddItem(held, x), front + [x])
  {
    var values, i := AddItem(held, x), Find(held, KeyOf(x));
    assert forall j | 0 <= j < |held| :: KeyOf(values[j]) == KeyOf(held[j]);
    assert values[i] in values && KeyOf(values[i]) == KeyOf(x);
    forall y | y in front + [x] ensures exists v :: v in values && KeyOf(v) == KeyOf(y) {
      if y in front {
        var v :| v in held && KeyOf(v) == KeyOf(y);
        var j :| 0 <= j < |held| && held[j] == v;
        assert values[j] in values;
      }
    }
  }

  lemma ReasonsAfterMerge(held: seq<Item>, front: seq<Item>, x: Item)
    requires ReasonsFrom(held, front)
    ensures ReasonsFrom(AddItem(held, x), front + [x])
  {
    var values, i := AddItem(held, x), Find(held, KeyOf(x));
    if i < |held| { SortedSetOk(held[i].reasons + x.reasons); }
    forall v, r | v in values && r in v.reasons
      ensures exists y :: y in front + [x] && KeyOf(y) == KeyOf(v) && r in y.reasons {
      var w := if v in held then v else if i < |held| then held[i] else x;
      assert KeyOf(w) == KeyOf(v);
      if w in held && r in w.reasons {
        var y :| y in front && KeyOf(y) == KeyOf(w) && r in y.reasons;
        assert y in front + [x];
      } else {
        assert x in front + [x] && r in x.reasons && KeyOf(x) == KeyOf(v);
      }
    }
  }

  lemma ReasonsKeptAfterMerge(held: seq<Item>, front: seq<Item>, x: Item)
    requires DistinctKeys(held) && Covers(held, front) && ReasonsKept(held, front)
    ensures ReasonsKept(AddItem(held, x), front + [x])
  {
    var values, i := AddItem(held, x), Find(held, KeyOf(x));
    if i < |held| { SortedSetOk(held[i].reasons + x.reasons); }
    forall v, y, r | v in values && y in front + [x] && KeyOf(y) == KeyOf(v) && r in y.reasons ensures r in v.reasons {
      var k :| 0 <= k < |values| && values[k] == v;
      if k != i {
        assert v == held[k] && KeyOf(v) != KeyOf(x);
        assert y in front;
      } else if i < |held| {
        assert y in front ==> r in held[i].reasons;
      } else {
        assert v == x && y !in front;
      }
    }
  }

  // Every given item that the request may see is accounted for. The items kept after deduplication hold each one's key
  // once; each of them is in exactly one of three places, omitted when its triple is overruled, truncated or emitted; the
  // others are counted as duplicates. Only a cloud request is kept from seeing anything.
  lemma EveryItemAccounted(p: Policy, cloud: bool, items: seq<Item>)
    ensures var o, values := Apply(p, cloud, items), Values(cloud, items);
            var omitted := Omitted(values, ConflictsIn(values).1);
            && DistinctKeys(values) && Covers(values, Shareable(cloud, items))
            && multiset(omitted) + multiset(Truncated(o)) + multiset(Emitted(o)) == multiset(values)
            && (forall x | x in values :: x in omitted <==> TripleOf(x) in ConflictsIn(values).1)
            && |Shareable(cloud, items)| == o.duplicates + |omitted| + |Truncated(o)| + |Emitted(o)|
    ensures Shareable(false, items) == items
  {
    EligibleIsShareable(cloud, items);
    FilterKeeps((x: Item) => !(false && x.localOnly), items);
    var o, values := Apply(p, cloud, items), Values(cloud, items);
    var omitted, kept := Omitted(values, ConflictsIn(values).1), Survivors(cloud, items);
    ItemLeTotal();
    SortSorts(Eligible(cloud, items), ItemLe);
    DedupCounts(Sort(Eligible(cloud, items), ItemLe));
    DedupMerges(Sort(Eligible(cloud, items), ItemLe));
    KeptCounts(values, ConflictsIn(values).1);
    EmittedOrTruncated(p, cloud, items);
    ThreePlaces(values, omitted, kept, Truncated(o), Emitted(o));
  }

  lemma ThreePlaces(values: seq<Item>, omitted: seq<Item>, kept: seq<Item>, truncated: seq<Item>, emitted: seq<Item>)
    requires multiset(kept) + multiset(omitted) == multiset(values) && multiset(emitted) + multiset(truncated) == multiset(kept)
    ensures multiset(omitted) + multiset(truncated) + multiset(emitted) == multiset(values)
    ensures |values| == |omitted| + |truncated| + |emitted|
  {
    assert multiset(omitted) + multiset(truncated) + multiset(emitted) == (multiset(emitted) + multiset(truncated)) + multiset(omitted);
    assert |multiset(values)| == |values|;
    assert |multiset(omitted) + multiset(truncated) + multiset(emitted)| == |omitted| + |truncated| + |emitted|;
  }

  // The copy that survives has the highest authority among those with its key.
  lemma {:induction false} DedupKeepsHighest(items: seq<Item>, x: Item)
    requires Sorted(items, ItemLe) && x in items
    ensures exists v :: v in Dedup(items) && KeyOf(v) == KeyOf(x) && Rank(v.authority) <= Rank(x.authority)
  {
    var front, last := items[..|items| - 1], items[|items| - 1];
    var held := Dedup(front);
    if x in front {
      DedupKeepsHighest(front, x);
      var v :| v in held && KeyOf(v) == KeyOf(x) && Rank(v.authority) <= Rank(x.authority);
      AddItemKeeps(held, last, v);
    } else {
      LastIsNotHigher(items);
    }
  }

  lemma AddItemKeeps(held: seq<Item>, x: Item, v: Item)
    requires v in held
    ensures exists w :: w in AddItem(held, x) && KeyOf(w) == KeyOf(v) && w.authority == v.authority
  {
    var j :| 0 <= j < |held| && held[j] == v;
    var w := AddItem(held, x)[j];
    assert w in AddItem(held, x) && KeyOf(w) == KeyOf(v) && w.authority == v.authority;
  }

  lemma EarlierRank(items: seq<Item>, y: Item)
    requires Sorted(items, ItemLe) && items != [] && y in items[..|items| - 1]
    ensures Rank(y.authority) <= Rank(items[|items| - 1].authority)
  {
    var k :| 0 <= k < |items| - 1 && items[..|items| - 1][k] == y;
    assert ItemLe(items[k], items[|items| - 1]);
  }

  lemma AddItemAt(held: seq<Item>, x: Item)
    ensures var i := Find(held, KeyOf(x));
            && i < |AddItem(held, x)| && KeyOf(AddItem(held, x)[i]) == KeyOf(x)
            && AddItem(held, x)[i].authority == if i < |held| then held[i].authority else x.authority
  {}

  // In sort order the last item meets, under its key, an item of at least its authority, or is new.
  lemma LastIsNotHigher(items: seq<Item>)
    requires Sorted(items, ItemLe) && items != []
    ensures var x := items[|items| - 1];
            exists v :: v in Dedup(items) && KeyOf(v) == KeyOf(x) && Rank(v.authority) <= Rank(x.authority)
  {
    var front, x := items[..|items| - 1], items[|items| - 1];
    var held := Dedup(front);
    var i := Find(held, KeyOf(x));
    AddItemAt(held, x);
    var w := AddItem(held, x)[i];
    assert w in Dedup(items);
    if i < |held| {
      DedupFrom(front, held[i]);
      var y :| y in front && KeyOf(y) == KeyOf(held[i]) && y.authority == held[i].authority;
      EarlierRank(items, y);
    }
  }

  lemma {:induction false} DedupFrom(items: seq<Item>, v: Item)
    requires v in Dedup(items)
    ensures exists x :: x in items && KeyOf(x) == KeyOf(v) && x.authority == v.authority && x.factKey == v.factKey
  {
    var front, last := items[..|items| - 1], items[|items| - 1];
    var held := Dedup(front);
    var i := Find(held, KeyOf(last));
    if i < |held| && v == Absorb(held[i], last) {
      DedupFrom(front, held[i]);
    } else if v in held {
      DedupFrom(front, v);
    }
  }

  /******* conflicts *******/

  lemma {:induction false} GroupOf(values: seq<Item>, key: string)
    ensures forall x :: x in Group(values, key) <==> x in values && Keyed(x, key)
  {
    if values != [] { GroupOf(values[1..], key); }
  }

  lemma {:induction false} FactKeysOf(values: seq<Item>, key: string)
    ensures key in FactKeys(values) <==> exists x :: x in values && Keyed(x, key)
  {
    if values != [] {
      FactKeysOf(values[1..], key);
      assert values[0] in values;
    }
  }

  lemma {:induction false} HighLowOf(group: seq<Item>, best: nat)
    ensures forall x :: x in High(group, best) <==> x in group && Rank(x.authority) == best
    ensures forall x :: x in Low(group, best) <==> x in group && Rank(x.authority) != best
  {
    if group != [] { HighLowOf(group[1..], best); }
  }

  lemma {:induction false} ConflictsFrom(values: seq<Item>, keys: seq<string>, key: string)
    requires key in keys
    ensures forall c | c in ConflictOf(values, key).0 :: c in Conflicts(values, keys).0
    ensures ConflictOf(values, key).1 <= Conflicts(values, keys).1
  {
    var front, last := keys[..|keys| - 1], keys[|keys| - 1];
    if key in front { ConflictsFrom(values, front, key); }
  }

  lemma {:induction false} ConflictsOnlyFrom(values: seq<Item>, keys: seq<string>)
    ensures forall c | c in Conflicts(values, keys).0 :: c.key in keys && ConflictOf(values, c.key).0 == [c]
    ensures forall t | t in Conflicts(values, keys).1 :: exists key :: key in keys && t in ConflictOf(values, key).1
  {
    if keys != [] {
      var front, last := keys[..|keys| - 1], keys[|keys| - 1];
      ConflictsOnlyFrom(values, front);
      assert last in keys;
    }
  }

  // A key is reported exactly when its items disagree, and as unresolved exactly when the most authoritative disagree.
  lemma ConflictExactly(values: seq<Item>, key: string)
    ensures var conflicts := ConflictsIn(values).0;
            && ((exists c :: c in conflicts && c.key == key) <==> Contradictory(Group(values, key)))
            && ((exists c :: c in conflicts && c.key == key && c.unresolved) <==>
                  Contradictory(Group(values, key)) && Contradictory(High(Group(values, key), Best(Group(values, key)))))
  {
    var keys := SortedSet(FactKeys(values));
    ConflictsOnlyFrom(values, keys);
    if Contradictory(Group(values, key)) {
      GroupOf(values, key);
      FactKeysOf(values, key);
      SortedSetOk(FactKeys(values));
      ConflictsFrom(values, keys, key);
      assert ConflictOf(values, key).0[0] in ConflictOf(values, key).0;
    }
  }

  lemma SortedIdsOf(xs: seq<Item>, id: string)
    ensures Sorted(Sort(Ids(xs), StrLe), StrLe)
    ensures id in Sort(Ids(xs), StrLe) <==> exists x :: x in xs && x.id == id
  {
    StrLeTotal();
    SortSorts(Ids(xs), StrLe);
    if id in Ids(xs) {
      var i :| 0 <= i < |xs| && Ids(xs)[i] == id;
      assert xs[i] in xs;
    }
    if x :| x in xs && x.id == id {
      var i :| 0 <= i < |xs| && xs[i] == x;
      assert Ids(xs)[i] == id;
    }
  }

  // A conflict names, in order, the sources of the highest authority among the items of its key, and those of the rest.
  lemma ConflictNamesSides(values: seq<Item>, c: Conflict, id: string)
    requires c in ConflictsIn(values).0
    ensures Group(values, c.key) != [] && Sorted(c.high, StrLe) && Sorted(c.low, StrLe)
    ensures id in c.high <==> exists x :: x in values && Keyed(x, c.key) && Rank(x.authority) == Best(Group(values, c.key)) && x.id == id
    ensures id in c.low <==> exists x :: x in values && Keyed(x, c.key) && Rank(x.authority) != Best(Group(values, c.key)) && x.id == id
  {
    ConflictsOnlyFrom(values, SortedSet(FactKeys(values)));
    var group := Group(values, c.key);
    assert Contradictory(group) && c == ConflictOf(values, c.key).0[0];
    GroupOf(values, c.key);
    HighLowOf(group, Best(group));
    SortedIdsOf(High(group, Best(group)), id);
    SortedIdsOf(Low(group, Best(group)), id);
  }

  lemma EmittedSurvives(p: Policy, cloud: bool, items: seq<Item>, x: Item)
    requires x in Emitted(Apply(p, cloud, items))
    ensures var values := Values(cloud, items);
            x in values && TripleOf(x) !in ConflictsIn(values).1
  {
    var o := Apply(p, cloud, items);
    EmittedOrTruncated(p, cloud, items);
    assert x in multiset(Emitted(o));
    assert x in multiset(Survivors(cloud, items));
    KeptCounts(Values(cloud, items), ConflictsIn(Values(cloud, items)).1);
  }

  // An item of a settled key that is emitted speaks with the highest authority.
  lemma LowIsOmitted(values: seq<Item>, x: Item, key: string)
    requires x in values && Keyed(x, key) && TripleOf(x) !in ConflictsIn(values).1
    requires Contradictory(Group(values, key))
    requires !Contradictory(High(Group(values, key), Best(Group(values, key))))
    ensures x in High(Group(values, key), Best(Group(values, key)))
  {
    var group := Group(values, key);
    GroupOf(values, key);
    HighLowOf(group, Best(group));
    FactKeysOf(values, key);
    SortedSetOk(FactKeys(values));
    ConflictsFrom(values, SortedSet(FactKeys(values)), key);
    assert forall y | y in Low(group, Best(group)) :: TripleOf(y) in Triples(Low(group, Best(group)));
  }

  // Two emitted items that share a fact key and disagree are reported as an unresolved conflict, unless the key is empty:
  // a contradiction under the empty key is never reported.
  lemma NoSilentContradiction(p: Policy, cloud: bool, items: seq<Item>, x: Item, y: Item, key: string)
    requires x in Emitted(Apply(p, cloud, items)) && y in Emitted(Apply(p, cloud, items))
    requires x.factKey == Some(key) && y.factKey == Some(key) && x.value != y.value
    ensures (exists c :: c in Apply(p, cloud, items).conflicts && c.key == key && c.unresolved) <==> key != ""
  {
    var values := Values(cloud, items);
    EmittedSurvives(p, cloud, items, x);
    EmittedSurvives(p, cloud, items, y);
    GroupOf(values, key);
    ConflictExactly(values, key);
    if key != "" {
      assert Contradictory(Group(values, key));
      if !Contradictory(High(Group(values, key), Best(Group(values, key)))) {
        LowIsOmitted(values, x, key);
        LowIsOmitted(values, y, key);
      }
    }
  }

  // Two items of different authority that give the empty fact key two values.
  function UnkeyedFact(top: bool): Item {
    if top then Item(Canon, Authoritative, "c", None, false, Some(""), [], "1", "")
    else Item(LoreMemory, Supporting, "l", None, false, Some(""), [], "2", "")
  }

  // Under any policy whose shares hold them, both are emitted and nothing is reported.
  lemma EmptyKeyIsSilent(p: Policy)
    requires p.estimate(UnkeyedFact(true)) <= Cap(p.budget, Authoritative)
    requires p.estimate(UnkeyedFact(false)) <= Cap(p.budget, Supporting)
    ensures var o := Apply(p, false, [UnkeyedFact(true), UnkeyedFact(false)]);
            && Emitted(o) == [UnkeyedFact(true), UnkeyedFact(false)] && o.conflicts == []
            && UnkeyedFact(true).factKey == UnkeyedFact(false).factKey && UnkeyedFact(true).value != UnkeyedFact(false).value
  {
    var a, b := UnkeyedFact(true), UnkeyedFact(false);
    var items := [a, b];
    AllEligible(items);
    SortOfSorted(items, ItemLe);
    AllDistinct(items);
    assert items[1..] == [b];
    assert FactKeys(items) == [] by { assert FactKeys([b]) == []; }
    assert ConflictsIn(items) == ([], {});
    assert Kept(items, {}) == items by { assert Kept([b], {}) == [b]; }
    assert OfAuthority(items, Authoritative) == [a] && OfAuthority(items, Supporting) == [b] by {
      assert OfAuthority([b], Authoritative) == [] && OfAuthority([b], Supporting) == [b];
    }
    assert OfAuthority(items, Constraining) == [] && OfAuthority(items, Advisory) == [] by {
      assert OfAuthority([b], Constraining) == [] && OfAuthority([b], Advisory) == [];
    }
    FillOne(p, Cap(p.budget, Authoritative), a);
    FillOne(p, Cap(p.budget, Supporting), b);
  }

  lemma FillOne(p: Policy, cap: int, x: Item)
    requires p.estimate(x) <= cap
    ensures Sort([x], ItemLe) == [x] && Fill(p, cap, [x]).emitted == [x]
  {
    assert Fill(p, cap, [x][..0]) == Bucket([], [], 0);
  }

  // Where the higher authority wins, every emitted item of the key carries its one value.
  lemma HigherAuthorityWins(p: Policy, cloud: bool, items: seq<Item>, c: Conflict, x: Item)
    requires c in Apply(p, cloud, items).conflicts && !c.unresolved
    requires x in Emitted(Apply(p, cloud, items)) && x.factKey == Some(c.key)
    ensures var group := Group(Values(cloud, items), c.key);
            && group != [] && Rank(x.authority) == Best(group)
            && forall y | y in group && Rank(y.authority) == Best(group) :: y.value == x.value
  {
    var values := Values(cloud, items);
    var group := Group(values, c.key);
    EmittedSurvives(p, cloud, items, x);
    ConflictsOnlyFrom(values, SortedSet(FactKeys(values)));
    ConflictExactly(values, c.key);
    GroupOf(values, c.key);
    HighLowOf(group, Best(group));
    LowIsOmitted(values, x, c.key);
  }

  // What is omitted: exactly the items that share source, id and version with a lower-authority item of a settled key.
  lemma OmittedExactly(values: seq<Item>, x: Item)
    ensures TripleOf(x) in ConflictsIn(values).1 <==>
              exists y, key :: y in values && TripleOf(y) == TripleOf(x) && Keyed(y, key) && Overruled(values, y, key)
  {
    var keys := SortedSet(FactKeys(values));
    SortedSetOk(FactKeys(values));
    ConflictsOnlyFrom(values, keys);
    if TripleOf(x) in ConflictsIn(values).1 {
      var key :| key in keys && TripleOf(x) in ConflictOf(values, key).1;
      var group := Group(values, key);
      GroupOf(values, key);
      HighLowOf(group, Best(group));
      var y :| y in Low(group, Best(group)) && TripleOf(y) == TripleOf(x);
      assert Keyed(y, key) && Overruled(values, y, key);
    }
    if y, key :| y in values && TripleOf(y) == TripleOf(x) && Keyed(y, key) && Overruled(values, y, key) {
      var group := Group(values, key);
      GroupOf(values, key);
      HighLowOf(group, Best(group));
      FactKeysOf(values, key);
      ConflictsFrom(values, keys, key);
      assert TripleOf(y) in Triples(Low(group, Best(group)));
    }
  }

  // The items of the key disagree, the most authoritative ones do not, and this one is not among them.
  predicate Overruled(values: seq<Item>, y: Item, key: string) {
    var group := Group(values, key);
    && Contradictory(group) && !Contradictory(High(group, Best(group))) && Rank(y.authority) != Best(group)
  }

  lemma OmittedIsGone(p: Policy, cloud: bool, items: seq<Item>, x: Item)
    requires TripleOf(x) in ConflictsIn(Values(cloud, items)).1
    ensures x !in Emitted(Apply(p, cloud, items)) && x !in Truncated(Apply(p, cloud, items))
  {
    var o := Apply(p, cloud, items);
    KeptCounts(Values(cloud, items), ConflictsIn(Values(cloud, items)).1);
    EmittedOrTruncated(p, cloud, items);
    assert x !in multiset(Survivors(cloud, items));
    assert x !in multiset(Emitted(o)) && x !in multiset(Truncated(o));
  }

  // So an item with no disagreement of its own can be dropped along with a neighbour from the same version.
  lemma CollateralOmission(p: Policy) returns (items: seq<Item>, x: Item)
    ensures x in items && x.factKey.None? && (forall y | y in items && y != x :: y.factKey != x.factKey)
    ensures x in Values(false, items) && x !in Emitted(Apply(p, false, items)) && x !in Truncated(Apply(p, false, items))
  {
    var canon := Item(Canon, Authoritative, "c", None, false, Some("k"), [], "1", "");
    var lore := Item(LoreMemory, Supporting, "l", None, false, Some("k"), [], "2", "");
    x := Item(LoreMemory, Supporting, "l", None, false, None, [], "3", "");
    items := [canon, lore, x];
    CollateralValues(canon, lore, x);
    CollateralOverruled(canon, lore, x);
    OmittedWith(p, items, lore, x, "k");
  }

  lemma OmittedWith(p: Policy, items: seq<Item>, y: Item, x: Item, key: string)
    requires Values(false, items) == items && y in items && TripleOf(y) == TripleOf(x)
    requires Keyed(y, key) && Overruled(items, y, key)
    ensures x !in Emitted(Apply(p, false, items)) && x !in Truncated(Apply(p, false, items))
  {
    OmittedExactly(items, x);
    OmittedIsGone(p, false, items, x);
  }

  lemma CollateralOverruled(canon: Item, lore: Item, x: Item)
    requires Keyed(canon, "k") && Keyed(lore, "k") && x.factKey.None?
    requires canon.authority == Authoritative && lore.authority == Supporting && canon.value != lore.value
    ensures Overruled([canon, lore, x], lore, "k")
  {
    var values := [canon, lore, x];
    var group := Group(values, "k");
    GroupOf(values, "k");
    HighLowOf(group, Best(group));
    assert canon in values && lore in values;
    assert forall y | y in group :: y == canon || y == lore;
  }

  lemma CollateralValues(canon: Item, lore: Item, x: Item)
    requires canon == Item(Canon, Authoritative, "c", None, false, Some("k"), [], "1", "")
    requires lore == Item(LoreMemory, Supporting, "l", None, false, Some("k"), [], "2", "")
    requires x == Item(LoreMemory, Supporting, "l", None, false, None, [], "3", "")
    ensures Values(false, [canon, lore, x]) == [canon, lore, x]
  {
    var items := [canon, lore, x];
    AllEligible(items);
    assert StrLt("2", "3");
    assert ItemLe(canon, lore) && ItemLe(canon, x) && ItemLe(lore, x);
    SortOfSorted(items, ItemLe);
    AllDistinct(items);
  }

  lemma {:induction false} AllEligible(items: seq<Item>)
    ensures Eligible(false, items) == items
  {
    if items != [] { AllEligible(items[1..]); }
  }

  lemma {:induction false} AllDistinct(items: seq<Item>)
    requires DistinctKeys(items)
    ensures Dedup(items) == items
  {
    if items != [] { AllDistinct(items[..|items| - 1]); }
  }
}

/** The loops of `apply`, each proved to compute its part of the outcome. */
module ContextPolicyRun {
  import opened Wrappers
  import opened Sorting
  import opened ContextPolicy

  lemma DedupNext(items: seq<Item>, i: nat)
    requires i < |items|
    ensures Dedup(items[..i + 1]) == AddItem(Dedup(items[..i]), items[i])
    ensures Duplicates(items[..i + 1]) ==
              Duplicates(items[..i]) + if Find(Dedup(items[..i]), KeyOf(items[i])) == |Dedup(items[..i])| then 0 else 1
  {
    assert items[..i + 1][..i] == items[..i];
  }

  // The dictionary gives the place of each key.
  predicate Placed(values: seq<Item>, place: map<DedupKey, nat>) {
    && (forall key | key in place :: place[key] == Find(values, key) && place[key] < |values|)
    && (forall j | 0 <= j < |values| :: KeyOf(values[j]) in place)
  }

  lemma PlacedNew(values: seq<Item>, place: map<DedupKey, nat>, x: Item)
    requires Placed(values, place) && KeyOf(x) !in place
    ensures Find(values, KeyOf(x)) == |values|
    ensures Placed(values + [x], place[KeyOf(x) := |values|])
  {
    var values', place' := values + [x], place[KeyOf(x) := |values|];
    forall key | key in place' ensures place'[key] == Find(values', key) && place'[key] < |values'| {
      FindAppend(values, x, key);
    }
    forall j | 0 <= j < |values'| ensures KeyOf(values'[j]) in place' {
      if j < |values| { assert values'[j] == values[j]; }
    }
  }

  lemma PlacedHeld(values: seq<Item>, place: map<DedupKey, nat>, x: Item)
    requires Placed(values, place) && KeyOf(x) in place
    ensures Find(values, KeyOf(x)) == place[KeyOf(x)] < |values|
    ensures Placed(values[place[KeyOf(x)] := Absorb(values[place[KeyOf(x)]], x)], place)
  {
    var values' := values[place[KeyOf(x)] := Absorb(values[place[KeyOf(x)]], x)];
    assert forall j | 0 <= j < |values| :: KeyOf(values'[j]) == KeyOf(values[j]);
    forall key | key in place ensures place[key] == Find(values', key) { FindSame(values, values', key); }
  }

  // `deduped` is a dictionary in insertion order: here the values in that order and the place of each key.
  method Deduplicate(items: seq<Item>) returns (values: seq<Item>, duplicates: nat)
    ensures values == Dedup(items) && duplicates == Duplicates(items)
  {
    values, duplicates := [], 0;
    var place: map<DedupKey, nat> := map[];
    for i := 0 to |items|
      invariant values == Dedup(items[..i]) && duplicates == Duplicates(items[..i]) && Placed(values, place)
    {
      var key := KeyOf(items[i]);
      DedupNext(items, i);
      if key !in place {
        PlacedNew(values, place, items[i]);
        place, values := place[key := |values|], values + [items[i]];
      } else {
        PlacedHeld(values, place, items[i]);
        duplicates := duplicates + 1;
        values := values[place[key] := Absorb(values[place[key]], items[i])];
      }
    }
    assert items[..|items|] == items;
  }

  lemma {:induction false} FindAppend(values: seq<Item>, x: Item, key: DedupKey)
    ensures Find(values + [x], key) == if Find(values, key) < |values| then Find(values, key)
                                       else if KeyOf(x) == key then |values| else |values| + 1
  {
    var i := Find(values + [x], key);
    assert forall j | 0 <= j < |values| :: (values + [x])[j] == values[j];
    assert (values + [x])[|values|] == x;
  }

  lemma FindSame(a: seq<Item>, b: seq<Item>, key: DedupKey)
    requires |a| == |b| && forall j | 0 <= j < |a| :: KeyOf(a[j]) == KeyOf(b[j])
    ensures Find(a, key) == Find(b, key)
  {}

  // The conflicts key by key, in key order, and the triples they drop.
  method Resolve(values: seq<Item>, keys: seq<string>) returns (conflicts: seq<Conflict>, omitted: set<Triple>)
    ensures (conflicts, omitted) == Conflicts(values, keys)
  {
    conflicts, omitted := [], {};
    for i := 0 to |keys|
      invariant (conflicts, omitted) == Conflicts(values, keys[..i])
    {
      assert keys[..i + 1][..i] == keys[..i];
      assert conflicts + [] == conflicts && omitted + {} == omitted;
      var group := Group(values, keys[i]);
      if Contradictory(group) {
        var best := Best(group);
        var high, low := High(group, best), Low(group, best);
        var unresolved := Contradictory(high);
        conflicts := conflicts + [Conflict(keys[i], Sort(Ids(high), StrLe), Sort(Ids(low), StrLe), unresolved)];
        if !unresolved { omitted := omitted + Triples(low); }
      }
    }
    assert keys[..|keys|] == keys;
  }

  method FillBucket(p: Policy, cap: int, xs: seq<Item>) returns (b: Bucket)
    ensures b == Fill(p, cap, xs)
  {
    var emitted, truncated, used := [], [], 0;
    for i := 0 to |xs|
      invariant Bucket(emitted, truncated, used) == Fill(p, cap, xs[..i])
    {
      assert xs[..i + 1][..i] == xs[..i];
      var cost := p.estimate(xs[i]);
      if used + cost > cap {
        truncated := truncated + [xs[i]];
      } else {
        used, emitted := used + cost, emitted + [xs[i]];
      }
    }
    assert xs[..|xs|] == xs;
    b := Bucket(emitted, truncated, used);
  }

  method ApplyPolicy(p: Policy, cloud: bool, items: seq<Item>) returns (o: Outcome)
    ensures o == Apply(p, cloud, items)
  {
    var values, duplicates := Deduplicate(Sort(Eligible(cloud, items), ItemLe));
    var conflicts, omitted := Resolve(values, SortedSet(FactKeys(values)));
    var kept := Kept(values, omitted);
    var a := FillBucket(p, Cap(p.budget, Authoritative), Sort(OfAuthority(kept, Authoritative), ItemLe));
    var b := FillBucket(p, Cap(p.budget, Constraining), Sort(OfAuthority(kept, Constraining), ItemLe));
    var c := FillBucket(p, Cap(p.budget, Supporting), Sort(OfAuthority(kept, Supporting), ItemLe));
    var d := FillBucket(p, Cap(p.budget, Advisory), Sort(OfAuthority(kept, Advisory), ItemLe));
    o := Outcome(a, b, c, d, conflicts, duplicates, NamesOneOf(OfAuthority(kept, Authoritative), a.truncated));
  }
}
