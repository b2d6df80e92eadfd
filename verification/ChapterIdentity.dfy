/**
 The durable chapter ledger: numbers, public tokens and the loader's own validity check.
 Every operation starts by loading the file, and the project lock makes it atomic.
 */
module ChapterIdentity {
  import opened Wrappers

  type Position = n: int | n > 0 witness 1

  datatype EntryState = Active | Deleted | Reserved | Ambiguous | Unknown(text: string)

  // The text of a UUID as Python prints it: section 4 of RFC 9562, in lower case.
  predicate UuidText(s: string) {
    && |s| == 36
    && forall i | 0 <= i < 36 ::
         if i == 8 || i == 13 || i == 18 || i == 23 then s[i] == '-' else '0' <= s[i] <= '9' || 'a' <= s[i] <= 'f'
  }

  type Uuid = s: string | UuidText(s) witness "00000000-0000-4000-8000-000000000000"

  // `Num(n)` is the decimal text of n, also for n <= 0; `Typed` is "~" and a canonical UUID; `Other` is any other text.
  datatype Token = Num(n: int) | Typed(uuid: Uuid) | Other(text: string)

  // An entry without a public token answers to its own number.
  datatype Entry = Entry(state: EntryState, token: Option<Token>)

  datatype Provenance = Allocated | Undocumented

  // Keys are the numbers whose decimal text is the key in the file.
  datatype Ledger = Ledger(highWater: int, allocations: map<int, Entry>, provenance: Provenance)

  // `Broken`: not a ledger object at all.
  datatype File = Absent | Broken | Stored(ledger: Ledger)

  // What the scan of a project without a ledger found.
  datatype Evidence = Evidence(numbers: set<Position>, active: set<Position>, contradicted: set<Position>)

  datatype Error = LedgerInvalid | Exists | BadNumber | NotFound | Unregistered | AmbiguousIdentity | NoEntry

  predicate Canonical(t: Token) {
    t.Typed? || (t.Num? && t.n > 0)
  }

  function TokenOf(n: int, e: Entry): Token {
    if e.token.Some? then e.token.value else Num(n)
  }

  predicate Carries(l: Ledger, n: int, t: Token) {
    n in l.allocations && TokenOf(n, l.allocations[n]) == t
  }

  predicate Taken(l: Ledger, t: Token) {
    exists n | n in l.allocations :: Carries(l, n, t)
  }

  predicate EntryOk(highWater: int, n: int, e: Entry) {
    0 < n <= highWater && !e.state.Unknown? && Canonical(TokenOf(n, e)) && (TokenOf(n, e).Num? ==> TokenOf(n, e) == Num(n))
  }

  // What the loader accepts.
  predicate Valid(l: Ledger) {
    && l.highWater >= 0
    && (forall n | n in l.allocations :: EntryOk(l.highWater, n, l.allocations[n]))
    && (forall m, n | m in l.allocations && n in l.allocations && m != n ::
          TokenOf(m, l.allocations[m]) != TokenOf(n, l.allocations[n]))
  }

  ghost function Highest(s: set<Position>): (m: int)
    ensures s == {} ==> m == 0
    ensures s != {} ==> m in s
    ensures forall x | x in s :: x <= m
  {
    if s == {} then 0
    else
      var x :| x in s;
      var m := Highest(s - {x});
      assert forall y | y in s :: y == x || y in s - {x};
      if x > m then x else m
  }

  function LegacyEntry(e: Evidence, n: Position): Entry {
    Entry(if n !in e.active then Deleted else if n in e.contradicted then Ambiguous else Active, None)
  }

  ghost function Legacy(e: Evidence): Ledger {
    var all := e.numbers + e.active;
    Ledger(Highest(all), map n: int | n in all :: LegacyEntry(e, n), Undocumented)
  }

  ghost function Pick<T>(s: set<T>): (x: T)
    requires s != {}
    ensures x in s
  {
    var x :| x in s;
    x
  }

  lemma HasNumber(s: set<int>)
    requires s != {}
    ensures exists n: int :: n in s
  {
    var n: int := Pick(s);
    assert n in s;
  }

  const EMPTY: Ledger := Ledger(0, map[], Allocated)

  /******* the operations on the file *******/

  ghost function Load(f: File, e: Evidence): (File, Result<Ledger, Error>) {
    match f
    case Absent => (Stored(Legacy(e)), Ok(Legacy(e)))
    case Broken => (f, Err(LedgerInvalid))
    case Stored(l) => (f, if Valid(l) then Ok(l) else Err(LedgerInvalid))
  }

  function ActiveIn(l: Ledger, n: int): Result<int, Error> {
    if n !in l.allocations then Err(Unregistered)
    else if l.allocations[n].state.Ambiguous? then Err(AmbiguousIdentity)
    else if !l.allocations[n].state.Active? then Err(NotFound)
    else Ok(n)
  }

  ghost function RequireActive(f: File, n: int, e: Evidence): (File, Result<int, Error>) {
    var (f', r) := Load(f, e);
    (f', if r.Ok? then ActiveIn(r.value, n) else Err(r.error))
  }

  function NumberIn(l: Ledger, requested: Option<int>, occupied: set<int>): Result<int, Error> {
    var n := if requested.Some? then requested.value else l.highWater + 1;
    if n <= 0 then Err(BadNumber)
    else if n in l.allocations || n in occupied then Err(Exists)
    else Ok(n)
  }

  // `occupied`: numbers for which a chapter file, document, history or summary already lies in the project.
  ghost function NextNumber(f: File, requested: Option<int>, occupied: set<int>, e: Evidence): (File, Result<int, Error>) {
    var (f', r) := Load(f, e);
    (f', if r.Ok? then NumberIn(r.value, requested, occupied) else Err(r.error))
  }

  function FreshToken(l: Ledger, n: int, uuid: Uuid): Token {
    if l.provenance.Allocated? then Num(n) else Typed(uuid)
  }

  ghost function AllocationToken(f: File, n: int, uuid: Uuid, e: Evidence): (File, Result<Token, Error>) {
    var (f', r) := Load(f, e);
    (f', if r.Err? then Err(r.error)
         else if Taken(r.value, FreshToken(r.value, n, uuid)) then Err(Exists)
         else Ok(FreshToken(r.value, n, uuid)))
  }

  // A missing or empty token stands for the number itself.
  function Wanted(n: int, token: Option<Token>): Token {
    if token.None? || token.value == Other("") then Num(n) else token.value
  }

  function Registered(l: Ledger, n: int, t: Token): Ledger {
    l.(highWater := if n > l.highWater then n else l.highWater, allocations := l.allocations[n := Entry(Reserved, Some(t))])
  }

  ghost function Reserve(f: File, n: int, token: Option<Token>, e: Evidence): (File, Result<int, Error>) {
    var (f', r) := Load(f, e);
    if r.Err? then (f', Err(r.error))
    else if n in r.value.allocations then (f', Err(Exists))
    else if !Canonical(Wanted(n, token)) then (f', Err(NotFound))
    else if Taken(r.value, Wanted(n, token)) then (f', Err(Exists))
    else (Stored(Registered(r.value, n, Wanted(n, token))), Ok(n))
  }

  function Moved(l: Ledger, n: int, s: EntryState): Ledger
    requires n in l.allocations
  {
    l.(allocations := l.allocations[n := l.allocations[n].(state := s)])
  }

  ghost function Transition(f: File, n: int, s: EntryState, e: Evidence): (File, Result<int, Error>) {
    var (f', r) := Load(f, e);
    if r.Err? then (f', Err(r.error))
    else if n !in r.value.allocations then (f', Err(NoEntry))
    else (Stored(Moved(r.value, n, s)), Ok(n))
  }

  function Matches(l: Ledger, t: Token): set<int> {
    set n | n in l.allocations && l.allocations[n].token == Some(t)
  }

  ghost function Lookup(l: Ledger, t: Token): Result<int, Error>
    requires Canonical(t)
  {
    if t.Typed? then
      if |Matches(l, t)| != 1 then Err(NotFound)
      else
        assert Matches(l, t) != {};
        HasNumber(Matches(l, t));
        var n: int :| n in Matches(l, t);
        ActiveIn(l, n)
    else if t.n in l.allocations && TokenOf(t.n, l.allocations[t.n]) != t then Err(NotFound)
    else ActiveIn(l, t.n)
  }

  // A typed token never makes a project without a ledger build one.
  ghost function Resolve(f: File, t: Token, e: Evidence): (File, Result<int, Error>) {
    if !Canonical(t) || (t.Typed? && f.Absent?) then (f, Err(NotFound))
    else
      var (f', r) := Load(f, e);
      (f', if r.Ok? then Lookup(r.value, t) else Err(r.error))
  }

  function PublicToken(l: Ledger, n: int): Token {
    if n in l.allocations then TokenOf(n, l.allocations[n]) else Num(n)
  }

  /******* one ledger *******/

  lemma LegacyValid(e: Evidence)
    ensures Valid(Legacy(e)) && Valid(EMPTY)
  {}

  lemma TokenOwnerUnique(l: Ledger, m: int, n: int, t: Token)
    requires Valid(l) && Carries(l, m, t) && Carries(l, n, t)
    ensures m == n
  {}

  lemma OneMatch(l: Ledger, t: Token)
    requires Valid(l) && t.Typed?
    ensures forall n :: n in Matches(l, t) <==> Carries(l, n, t)
    ensures forall n | n in Matches(l, t) :: Matches(l, t) == {n}
  {
    forall n | n in Matches(l, t) ensures Matches(l, t) == {n} {
      forall m | m in Matches(l, t) ensures m == n { TokenOwnerUnique(l, m, n, t); }
    }
  }

  // A token resolves to a number exactly when that number is active and carries it.
  lemma ResolveExactly(f: File, t: Token, n: int, e: Evidence)
    ensures Resolve(f, t, e).1 == Ok(n) <==>
              && !(t.Typed? && f.Absent?)
              && Load(f, e).1.Ok? && Carries(Load(f, e).1.value, n, t)
              && Load(f, e).1.value.allocations[n].state.Active?
  {
    LegacyValid(e);
    if Load(f, e).1.Ok? {
      var l := Load(f, e).1.value;
      if t.Typed? {
        OneMatch(l, t);
      }
    }
  }

  // The public id of a number resolves to that number when it is active, and to nothing otherwise.
  lemma PublicIdResolves(l: Ledger, n: int, e: Evidence)
    requires Valid(l)
    ensures Resolve(Stored(l), PublicToken(l, n), e).1 == Ok(n) <==> n in l.allocations && l.allocations[n].state.Active?
    ensures Resolve(Stored(l), PublicToken(l, n), e).1.Ok? ==> Resolve(Stored(l), PublicToken(l, n), e).1.value == n
  {
    var r := Resolve(Stored(l), PublicToken(l, n), e).1;
    ResolveExactly(Stored(l), PublicToken(l, n), n, e);
    if r.Ok? {
      ResolveExactly(Stored(l), PublicToken(l, n), r.value, e);
      if n in l.allocations { TokenOwnerUnique(l, n, r.value, PublicToken(l, n)); }
    }
  }

  // A reservation leaves a ledger the loader accepts exactly for a positive number under its own numeral or a typed token.
  // Any other accepted reservation locks the whole project out of its ledger.
  lemma ReserveKeepsValidExactly(l: Ledger, n: int, token: Option<Token>, e: Evidence)
    requires Valid(l)
    ensures var (f', r) := Reserve(Stored(l), n, token, e);
            r.Ok? ==>
              (f'.Stored? && (Valid(f'.ledger) <==> n > 0 && (Wanted(n, token).Typed? || Wanted(n, token) == Num(n))))
  {
    var (f', r) := Reserve(Stored(l), n, token, e);
    if r.Ok? {
      var l', t := f'.ledger, Wanted(n, token);
      assert forall m | m in l.allocations :: l'.allocations[m] == l.allocations[m] && !Carries(l, m, t);
      assert TokenOf(n, l'.allocations[n]) == t;
      if n > 0 && (t.Typed? || t == Num(n)) {
        assert forall m | m in l'.allocations :: EntryOk(l'.highWater, m, l'.allocations[m]);
      } else {
        assert !EntryOk(l'.highWater, n, l'.allocations[n]);
      }
    }
  }

  // Two reservations that succeed and after which nothing loads: a number that is not positive under any typed
  // token, and a number under another number's numeral.
  lemma ReserveCanLockTheLedger(uuid: Uuid, e: Evidence, e': Evidence)
    ensures var (f', r) := Reserve(Stored(EMPTY), 0, Some(Typed(uuid)), e);
            r == Ok(0) && Load(f', e').1 == Err(LedgerInvalid)
    ensures var (f', r) := Reserve(Stored(EMPTY), 1, Some(Num(2)), e);
            r == Ok(1) && Load(f', e').1 == Err(LedgerInvalid)
  {
    ReserveKeepsValidExactly(EMPTY, 0, Some(Typed(uuid)), e);
    ReserveKeepsValidExactly(EMPTY, 1, Some(Num(2)), e);
  }

  lemma TransitionKeepsValidExactly(l: Ledger, n: int, s: EntryState, e: Evidence)
    requires Valid(l)
    ensures var (f', r) := Transition(Stored(l), n, s, e);
            && (r.Ok? <==> n in l.allocations)
            && (r.Ok? ==> f'.Stored? && (Valid(f'.ledger) <==> !s.Unknown?))
  {
    if n in l.allocations {
      var l' := Moved(l, n, s);
      assert forall m | m in l.allocations :: TokenOf(m, l'.allocations[m]) == TokenOf(m, l.allocations[m]);
      assert l'.allocations[n].state == s;
      if s.Unknown? { assert !EntryOk(l'.highWater, n, l'.allocations[n]); }
    }
  }

  // The number offered is the one asked for, or the one after the high-water mark; it is refused exactly when it is not
  // positive, was ever allocated, or has files in the project.
  lemma NextNumberExactly(l: Ledger, requested: Option<int>, occupied: set<int>, e: Evidence)
    requires Valid(l)
    ensures var n, r := if requested.Some? then requested.value else l.highWater + 1, NextNumber(Stored(l), requested, occupied, e).1;
            && (r == Ok(n) <==> n > 0 && n !in l.allocations && n !in occupied)
            && (r == Err(BadNumber) <==> n <= 0)
            && (r == Err(Exists) <==> n > 0 && (n in l.allocations || n in occupied))
    ensures l.highWater + 1 !in occupied ==> NextNumber(Stored(l), None, occupied, e).1 == Ok(l.highWater + 1)
  {}

  // A project without a ledger: a chapter with a file resolves, unless its document or history contradicts it; one that is
  // only mentioned is gone; any other is not registered. A ledger with a negative mark is refused.
  lemma FirstLookup(e: Evidence, n: Position)
    ensures Resolve(Absent, Num(n), e).1 ==
              if n in e.active then (if n in e.contradicted then Err(AmbiguousIdentity) else Ok(n))
              else if n in e.numbers then Err(NotFound) else Err(Unregistered)
    ensures Load(Absent, e).1.Ok? && Load(Absent, e).0 == Stored(Load(Absent, e).1.value)
    ensures Load(Stored(EMPTY.(highWater := -1)), e).1 == Err(LedgerInvalid)
  {
    LegacyValid(e);
  }

  // A number given out by default lies above every number ever allocated; a requested one was never allocated.
  lemma NextNumberIsNew(l: Ledger, requested: Option<int>, occupied: set<int>, e: Evidence)
    requires Valid(l)
    ensures var r := NextNumber(Stored(l), requested, occupied, e).1;
            r.Ok? ==>
              (&& r.value > 0 && r.value !in l.allocations && r.value !in occupied
               && (requested.Some? ==> r.value == requested.value)
               && (requested.None? ==> forall m | m in l.allocations :: m < r.value))
  {}

  // With a complete allocation history the numeral of a free number is always free; a typed token is free unless carried.
  lemma AllocationTokenIsFree(l: Ledger, n: int, uuid: Uuid, e: Evidence)
    requires Valid(l) && n !in l.allocations
    ensures var r := AllocationToken(Stored(l), n, uuid, e).1;
            && (l.provenance.Allocated? ==> r == Ok(Num(n)))
            && (!l.provenance.Allocated? ==> (r.Ok? <==> forall m | m in l.allocations :: l.allocations[m].token != Some(Typed(uuid))))
  {
    if !l.provenance.Allocated? && Taken(l, Typed(uuid)) {
      var m :| m in l.allocations && Carries(l, m, Typed(uuid));
      assert l.allocations[m].token == Some(Typed(uuid));
    }
    if !l.provenance.Allocated? && exists m | m in l.allocations :: l.allocations[m].token == Some(Typed(uuid)) {
      var m :| m in l.allocations && l.allocations[m].token == Some(Typed(uuid));
      assert Carries(l, m, Typed(uuid));
    }
  }

  /******* runs *******/

  datatype Op =
    | OpNextNumber(requested: Option<int>, occupied: set<int>)
    | OpAllocationToken(number: int, uuid: Uuid)
    | OpReserve(number: int, token: Option<Token>)
    | OpTransition(number: int, state: EntryState)
    | OpResolve(wanted: Token)
    | OpRequireActive(number: int)

  datatype Call = Call(op: Op, evidence: Evidence)

  ghost function Apply(f: File, c: Call): File {
    match c.op
    case OpNextNumber(requested, occupied) => NextNumber(f, requested, occupied, c.evidence).0
    case OpAllocationToken(n, uuid) => AllocationToken(f, n, uuid, c.evidence).0
    case OpReserve(n, token) => Reserve(f, n, token, c.evidence).0
    case OpTransition(n, s) => Transition(f, n, s, c.evidence).0
    case OpResolve(t) => Resolve(f, t, c.evidence).0
    case OpRequireActive(n) => RequireActive(f, n, c.evidence).0
  }

  ghost function Exec(f: File, calls: seq<Call>): File
    decreases |calls|
  {
    if calls == [] then f else Apply(Exec(f, calls[..|calls| - 1]), calls[|calls| - 1])
  }

  // Numbers and their tokens are only ever added, and the high-water mark only rises.
  predicate Keeps(l: Ledger, l': Ledger) {
    && l.highWater <= l'.highWater && l.provenance == l'.provenance
    && forall n | n in l.allocations :: n in l'.allocations && TokenOf(n, l'.allocations[n]) == TokenOf(n, l.allocations[n])
  }

  // A file the loader refuses is never written again.
  predicate FileKeeps(f: File, f': File) {
    && (f.Stored? ==> f'.Stored? && Keeps(f.ledger, f'.ledger) && (!Valid(f.ledger) ==> f' == f))
    && (f.Broken? ==> f' == f)
  }

  lemma StepKeeps(f: File, c: Call)
    ensures FileKeeps(f, Apply(f, c))
  {}

  lemma {:induction false} RunKeeps(f: File, calls: seq<Call>)
    ensures FileKeeps(f, Exec(f, calls))
    decreases |calls|
  {
    if calls != [] {
      var front := calls[..|calls| - 1];
      RunKeeps(f, front);
      StepKeeps(Exec(f, front), calls[|calls| - 1]);
    }
  }

  // An identity that ever resolved to n can later only resolve to n or fail, whatever was called in between.
  lemma IdentityPermanent(f: File, t: Token, n: int, e: Evidence, calls: seq<Call>, e': Evidence)
    requires Resolve(f, t, e).1 == Ok(n)
    ensures var later := Resolve(Exec(Resolve(f, t, e).0, calls), t, e').1;
            later == Ok(n) || later.Err?
  {
    var f1 := Resolve(f, t, e).0;
    var f2 := Exec(f1, calls);
    var later := Resolve(f2, t, e').1;
    ResolveExactly(f, t, n, e);
    RunKeeps(f1, calls);
    if later.Ok? {
      ResolveExactly(f2, t, later.value, e');
      TokenOwnerUnique(f2.ledger, n, later.value, t);
    }
  }

  // It stays resolvable as long as the ledger loads and nobody moves its entry out of the active state.
  lemma ActiveIdentityStays(f: File, t: Token, n: int, e: Evidence, calls: seq<Call>, e': Evidence)
    requires Resolve(f, t, e).1 == Ok(n)
    ensures var f2 := Exec(Resolve(f, t, e).0, calls);
            f2.Stored? && n in f2.ledger.allocations
            && (Resolve(f2, t, e').1 == Ok(n) <==> Valid(f2.ledger) && f2.ledger.allocations[n].state.Active?)
  {
    var f1 := Resolve(f, t, e).0;
    ResolveExactly(f, t, n, e);
    RunKeeps(f1, calls);
    ResolveExactly(Exec(f1, calls), t, n, e');
  }

  // A number once allocated is never given out or reserved again.
  lemma NumbersNeverReissued(l: Ledger, n: int, calls: seq<Call>, e: Evidence, requested: Option<int>, occupied: set<int>,
                             token: Option<Token>)
    requires n in l.allocations
    ensures var f := Exec(Stored(l), calls);
            NextNumber(f, requested, occupied, e).1 != Ok(n) && Reserve(f, n, token, e).1.Err?
  {
    RunKeeps(Stored(l), calls);
  }

  /******* creating a chapter *******/

  predicate ValidFile(f: File) {
    f.Stored? && Valid(f.ledger)
  }

  function Created(l: Ledger, n: int, t: Token): Ledger {
    Moved(Registered(l, n, t), n, Active)
  }

  // What `create_chapter` and `delete` ask for: numbers from NextNumber under their own numeral or a typed token,
  // and the states the loader knows.
  predicate Disciplined(c: Call) {
    && (c.op.OpReserve? ==> c.op.number > 0 && (Wanted(c.op.number, c.op.token).Typed? || Wanted(c.op.number, c.op.token) == Num(c.op.number)))
    && (c.op.OpTransition? ==> !c.op.state.Unknown?)
  }

  lemma DisciplinedStepKeepsValid(l: Ledger, c: Call)
    requires Valid(l) && Disciplined(c)
    ensures ValidFile(Apply(Stored(l), c))
  {
    match c.op
    case OpReserve(n, token) => ReserveKeepsValidExactly(l, n, token, c.evidence);
    case OpTransition(n, s) => TransitionKeepsValidExactly(l, n, s, c.evidence);
    case _ =>
  }

  lemma {:induction false} DisciplinedRunKeepsValid(l: Ledger, calls: seq<Call>)
    requires Valid(l) && forall i | 0 <= i < |calls| :: Disciplined(calls[i])
    ensures ValidFile(Exec(Stored(l), calls))
    decreases |calls|
  {
    if calls != [] {
      var front := calls[..|calls| - 1];
      DisciplinedRunKeepsValid(l, front);
      DisciplinedStepKeepsValid(Exec(Stored(l), front).ledger, calls[|calls| - 1]);
    }
  }

  // A creation that succeeds issues an identity nobody ever had, resolvable at once; cut off after the
  // reservation, it leaves a valid ledger in which the number is spent.
  lemma CreateIssuesFreshIdentity(l: Ledger, requested: Option<int>, occupied: set<int>, uuid: Uuid, e: Evidence)
    requires Valid(l)
    requires NextNumber(Stored(l), requested, occupied, e).1.Ok?
    requires AllocationToken(Stored(l), NextNumber(Stored(l), requested, occupied, e).1.value, uuid, e).1.Ok?
    ensures var n := NextNumber(Stored(l), requested, occupied, e).1.value;
            var t := AllocationToken(Stored(l), n, uuid, e).1.value;
            var cut := Reserve(Stored(l), n, Some(t), e);
            var done := Transition(cut.0, n, Active, e);
            && cut.1.Ok? && ValidFile(cut.0) && Resolve(cut.0, t, e).1.Err?
            && done.1.Ok? && ValidFile(done.0) && Resolve(done.0, t, e).1 == Ok(n)
            && done.0.ledger == Created(l, n, t)
            && n !in l.allocations && !Taken(l, t)
  {
    var n := NextNumber(Stored(l), requested, occupied, e).1.value;
    var t := AllocationToken(Stored(l), n, uuid, e).1.value;
    ReserveKeepsValidExactly(l, n, Some(t), e);
    var cut := Reserve(Stored(l), n, Some(t), e);
    TransitionKeepsValidExactly(cut.0.ledger, n, Active, e);
    var done := Transition(cut.0, n, Active, e);
    ResolveExactly(done.0, t, n, e);
    assert Carries(cut.0.ledger, n, t);
    var r := Resolve(cut.0, t, e).1;
    if r.Ok? {
      ResolveExactly(cut.0, t, r.value, e);
      TokenOwnerUnique(cut.0.ledger, n, r.value, t);
    }
  }
}

/** The ledger file and the functions of the module that read and rewrite it, step by step. */
module ChapterLedgerFile {
  import opened Wrappers
  import opened ChapterIdentity

  class LedgerFile {
    var file: File

    constructor (file: File)
      ensures this.file == file
    {
      this.file := file;
    }

    // The loader's loop over the entries, with the set of tokens met so far.
    method Check(l: Ledger) returns (ok: bool)
      ensures ok <==> Valid(l)
    {
      if l.highWater < 0 { return false; }
      var rest, tokens := l.allocations.Keys, {};
      while rest != {}
        invariant rest <= l.allocations.Keys
        invariant forall n | n in l.allocations && n !in rest ::
            EntryOk(l.highWater, n, l.allocations[n]) && TokenOf(n, l.allocations[n]) in tokens
        invariant forall t | t in tokens :: exists n | n in l.allocations && n !in rest :: TokenOf(n, l.allocations[n]) == t
        invariant forall m, n | m in l.allocations && n in l.allocations && m !in rest && n !in rest && m != n ::
            TokenOf(m, l.allocations[m]) != TokenOf(n, l.allocations[n])
        decreases |rest|
      {
        HasNumber(rest);
        var n :| n in rest;
        var token := TokenOf(n, l.allocations[n]);
        if !EntryOk(l.highWater, n, l.allocations[n]) || token in tokens { return false; }
        rest, tokens := rest - {n}, tokens + {token};
      }
      return true;
    }

    // A project without a ledger: one entry for each number in evidence, and the mark at the highest.
    method BuildLegacy(e: Evidence) returns (l: Ledger)
      ensures l == Legacy(e)
    {
      var rest := e.numbers + e.active;
      var high, entries := 0, map[];
      while rest != {}
        invariant rest <= e.numbers + e.active
        invariant entries.Keys == (set n: int | n in e.numbers + e.active && n !in rest)
        invariant forall n | n in entries :: n > 0 && entries[n] == LegacyEntry(e, n) && n <= high
        invariant high == 0 || high in entries
        decreases |rest|
      {
        var n :| n in rest;
        rest := rest - {n};
        entries := entries[n := LegacyEntry(e, n)];
        if n > high { high := n; }
      }
      l := Ledger(high, entries, Undocumented);
      assert high == Highest(e.numbers + e.active) by {
        var top := Highest(e.numbers + e.active);
        assert top == 0 || top in entries;
      }
      assert entries == Legacy(e).allocations;
    }

    method LoadLedger(e: Evidence) returns (r: Result<Ledger, Error>)
      modifies this
      ensures (file, r) == Load(old(file), e)
    {
      match file
      case Broken => r := Err(LedgerInvalid);
      case Stored(l) =>
        var ok := Check(l);
        r := if ok then Ok(l) else Err(LedgerInvalid);
      case Absent =>
        var l := BuildLegacy(e);
        file := Stored(l);
        r := Ok(l);
    }

    method RequireActive(n: int, e: Evidence) returns (r: Result<int, Error>)
      modifies this
      ensures (file, r) == ChapterIdentity.RequireActive(old(file), n, e)
    {
      var loaded := LoadLedger(e);
      if loaded.Err? { return Err(loaded.error); }
      var l := loaded.value;
      if n !in l.allocations { return Err(Unregistered); }
      if l.allocations[n].state.Ambiguous? { return Err(AmbiguousIdentity); }
      if !l.allocations[n].state.Active? { return Err(NotFound); }
      return Ok(n);
    }

    method NextNumber(requested: Option<int>, occupied: set<int>, e: Evidence) returns (r: Result<int, Error>)
      modifies this
      ensures (file, r) == ChapterIdentity.NextNumber(old(file), requested, occupied, e)
    {
      var loaded := LoadLedger(e);
      if loaded.Err? { return Err(loaded.error); }
      var n := loaded.value.highWater + 1;
      if requested.Some? { n := requested.value; }
      if n <= 0 { return Err(BadNumber); }
      if n in loaded.value.allocations { return Err(Exists); }
      if n in occupied { return Err(Exists); }
      return Ok(n);
    }

    // `any(... == token)` over the entries.
    method FindToken(l: Ledger, t: Token) returns (found: bool)
      ensures found <==> Taken(l, t)
    {
      var rest := l.allocations.Keys;
      while rest != {}
        invariant rest <= l.allocations.Keys
        invariant forall n | n in l.allocations && n !in rest :: !Carries(l, n, t)
        decreases |rest|
      {
        HasNumber(rest);
        var n :| n in rest;
        if TokenOf(n, l.allocations[n]) == t {
          assert Carries(l, n, t);
          return true;
        }
        rest := rest - {n};
      }
      return false;
    }

    method AllocationToken(n: int, uuid: Uuid, e: Evidence) returns (r: Result<Token, Error>)
      modifies this
      ensures (file, r) == ChapterIdentity.AllocationToken(old(file), n, uuid, e)
    {
      var loaded := LoadLedger(e);
      if loaded.Err? { return Err(loaded.error); }
      var token := Typed(uuid);
      if loaded.value.provenance.Allocated? { token := Num(n); }
      var found := FindToken(loaded.value, token);
      if found { return Err(Exists); }
      return Ok(token);
    }

    method Reserve(n: int, publicToken: Option<Token>, e: Evidence) returns (r: Result<int, Error>)
      modifies this
      ensures (file, r) == ChapterIdentity.Reserve(old(file), n, publicToken, e)
    {
      var loaded := LoadLedger(e);
      if loaded.Err? { return Err(loaded.error); }
      var l := loaded.value;
      if n in l.allocations { return Err(Exists); }
      var token := Wanted(n, publicToken);
      if !Canonical(token) { return Err(NotFound); }
      var found := FindToken(l, token);
      if found { return Err(Exists); }
      if n > l.highWater { l := l.(highWater := n); }
      l := l.(allocations := l.allocations[n := Entry(Reserved, Some(token))]);
      file := Stored(l);
      return Ok(n);
    }

    method Transition(n: int, s: EntryState, e: Evidence) returns (r: Result<int, Error>)
      modifies this
      ensures (file, r) == ChapterIdentity.Transition(old(file), n, s, e)
    {
      var loaded := LoadLedger(e);
      if loaded.Err? { return Err(loaded.error); }
      var l := loaded.value;
      if n !in l.allocations { return Err(NoEntry); }
      file := Stored(l.(allocations := l.allocations[n := l.allocations[n].(state := s)]));
      return Ok(n);
    }

    // The numbers whose entry carries the typed token, collected entry by entry.
    method CollectMatches(l: Ledger, t: Token) returns (found: set<int>)
      ensures found == Matches(l, t)
    {
      var rest := l.allocations.Keys;
      found := {};
      while rest != {}
        invariant rest <= l.allocations.Keys
        invariant found == set n | n in l.allocations && n !in rest && l.allocations[n].token == Some(t)
        decreases |rest|
      {
        HasNumber(rest);
        var n :| n in rest;
        rest := rest - {n};
        if l.allocations[n].token == Some(t) { found := found + {n}; }
      }
    }

    method Resolve(t: Token, e: Evidence) returns (r: Result<int, Error>)
      modifies this
      ensures (file, r) == ChapterIdentity.Resolve(old(file), t, e)
    {
      if !Canonical(t) { return Err(NotFound); }
      if t.Typed? && file.Absent? { return Err(NotFound); }
      var loaded := LoadLedger(e);
      if loaded.Err? { return Err(loaded.error); }
      LegacyValid(e);
      var l, n := loaded.value, 0;
      if t.Typed? {
        var found := CollectMatches(l, t);
        if |found| != 1 { return Err(NotFound); }
        assert found != {};
        HasNumber(found);
        n :| n in found;
        OneMatch(l, t);
      } else {
        n := t.n;
        if n in l.allocations && TokenOf(n, l.allocations[n]) != t { return Err(NotFound); }
      }
      assert Load(file, e) == (file, Ok(l));
      r := RequireActive(n, e);
    }

    // `create_chapter`: number, token, reservation, text, activation.
    method Create(requested: Option<int>, occupied: set<int>, uuid: Uuid, e: Evidence) returns (r: Result<Token, Error>)
      modifies this
      ensures ValidFile(old(file)) ==> ValidFile(file)
      ensures ValidFile(old(file)) && r.Ok? ==>
                (exists n :: file == Stored(Created(old(file).ledger, n, r.value)) && n !in old(file).ledger.allocations)
                && !Taken(old(file).ledger, r.value)
      ensures r.Err? && old(file).Stored? ==> file == old(file)
    {
      var picked := NextNumber(requested, occupied, e);
      if picked.Err? { return Err(picked.error); }
      var n := picked.value;
      var named := AllocationToken(n, uuid, e);
      if named.Err? { return Err(named.error); }
      if ValidFile(old(file)) { CreateIssuesFreshIdentity(old(file).ledger, requested, occupied, uuid, e); }
      var reserved := Reserve(n, Some(named.value), e);
      if reserved.Err? { return Err(reserved.error); }
      var moved := Transition(n, Active, e);
      if moved.Err? { return Err(moved.error); }
      return Ok(named.value);
    }
  }
}
