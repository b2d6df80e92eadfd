/** The idempotency cache: one JSON document, one key touched per call. */
module IdempotencyStore {
  import opened Wrappers

  // A stored value: the two admission receipts, or anything `validate_receipt` refuses or another endpoint wrote;
  // `shaped` says that its record holds a date and a value and nothing else.
  datatype Receipt =
    | Reserved(incarnation: string, digest: string, jobId: string)
    | Recorded(incarnation: string, digest: string, jobId: string)
    | Unverified(text: string, shaped: bool)

  type Document = map<string, Receipt>

  // The file: it can be absent, undecodable, not JSON, JSON but no object, or the document.
  datatype File = Absent | NotText | NotJson | NotObject | Items(items: Document)

  function Contents(f: File): Document { if f.Items? then f.items else map[] }

  function AfterPut(d: Document, key: string, value: Receipt, o: SaveOutcome): Document {
    if key == "" || o == NotSaved then d else d[key := value]
  }

  // `put` starts from an empty document when the text is not JSON, and raises on the other two kinds of damage.
  function FileAfterPut(f: File, key: string, value: Receipt, o: SaveOutcome): File {
    if key == "" || o == NotSaved || f.NotText? || f.NotObject? then f else Items(AfterPut(Contents(f), key, value, o))
  }

  // `get`: an expired or undatable item is evicted; `stale` says that this one is.
  function GetLeaves(d: Document, key: string, stale: bool): Document {
    if key in d && stale then d - {key} else d
  }

  // An ordinary read removes the key it reads when that is stale, and nothing else.
  lemma GetEvictsExactly(d: Document, key: string, stale: bool, k: string)
    ensures k in GetLeaves(d, key, stale) <==> k in d && !(k == key && stale)
    ensures k in GetLeaves(d, key, stale) ==> GetLeaves(d, key, stale)[k] == d[k]
  {}

  // What the strict read accepts.
  predicate Readable(f: File, key: string) {
    f.Absent? || (f.Items? && (key in f.items && f.items[key].Unverified? ==> f.items[key].shaped))
  }

  // The strict read takes damage for damage, never for a miss. A write of another key changes what it says about a key
  // from damaged to free exactly when the whole text was not JSON: it drops that text.
  lemma DamageBecomesMissExactly(f: File, key: string, other: string, value: Receipt, o: SaveOutcome)
    requires key != "" && other != key && o != NotSaved
    ensures var f' := FileAfterPut(f, key, value, o);
            (!Readable(f, other) && Readable(f', other)) <==> f.NotJson?
    ensures f.NotJson? ==> other !in Contents(FileAfterPut(f, key, value, o))
  {}

  class Store {
    var file: File

    constructor (file: File)
      ensures this.file == file
    {
      this.file := file;
    }

    // `retained`: the strict observation that never evicts; None when it raises.
    method Retained(key: string) returns (r: Option<Option<Receipt>>)
      ensures r.Some? <==> Readable(file, key)
      ensures r.Some? ==> r.value == if key in Contents(file) then Some(Contents(file)[key]) else None
    {
      if file.Absent? { return Some(None); }
      if !file.Items? { return None; }
      if key !in file.items { return Some(None); }
      var item := file.items[key];
      if item.Unverified? && !item.shaped { return None; }
      return Some(Some(item));
    }

    // None when it raises.
    method Get(key: string, stale: bool) returns (r: Option<Option<Receipt>>)
      modifies this
      ensures r.None? <==> old(file).NotText? || old(file).NotObject?
      ensures Contents(file) == GetLeaves(Contents(old(file)), key, stale)
      ensures !old(file).Items? ==> file == old(file)
      ensures r.Some? ==> r.value == if key in Contents(old(file)) && !stale then Some(Contents(old(file))[key]) else None
    {
      if file.NotText? || file.NotObject? { return None; }
      if !file.Items? || key !in file.items { return Some(None); }
      if stale {
        file := Items(file.items - {key});
        return Some(None);
      }
      return Some(Some(file.items[key]));
    }

    method Put(key: string, value: Receipt, o: SaveOutcome) returns (raised: bool)
      modifies this
      ensures file == FileAfterPut(old(file), key, value, o)
      ensures raised <==> key != "" && (o != Saved || old(file).NotText? || old(file).NotObject?)
    {
      if key == "" { return false; }
      if file.NotText? || file.NotObject? { return true; }
      var data := if file.Items? then file.items else map[];
      if o != NotSaved { file := Items(data[key := value]); }
      return o != Saved;
    }
  }
}

/** The strings under which receipts are kept. */
module AdmissionKeys {

  predicate Operation(op: string) {
    op == "continue" || op == "rewrite" || op == "polish" || op == "brainstorm" || op == "review"
  }

  // `cache_scope` plus the caller's key; `authority` is a SHA-256 digest in hexadecimal.
  function ScopedKey(op: string, authority: string, key: string): string {
    "generate:" + (op + (":" + (authority + (":" + key))))
  }

  function LegacyKey(op: string, key: string): string {
    "generate:" + (op + (":" + key))
  }

  // What the other two endpoints that share the document use.
  predicate ForeignKey(k: string) {
    "novel-import:" <= k || "author-preview:" <= k
  }

  lemma AppendInjective(a: string, x: string, b: string, y: string)
    requires |a| == |b| && a + x == b + y
    ensures a == b && x == y
  {
    assert a == (a + x)[..|a|] && b == (b + y)[..|b|];
    assert x == (a + x)[|a|..] && y == (b + y)[|b|..];
  }

  // Operations contain no colon, so the first colon ends them.
  lemma OperationInjective(a: string, x: string, b: string, y: string)
    requires Operation(a) && Operation(b)
    requires a + (":" + x) == b + (":" + y)
    ensures a == b && x == y
  {
    var s := a + (":" + x);
    assert s[|a|] == ':' && s[|b|] == ':';
    assert |a| == |b| by {
      assert s[..|a|] == a && s[..|b|] == b;
    }
    AppendInjective(a, ":" + x, b, ":" + y);
    AppendInjective(":", x, ":", y);
  }

  // Two requests share a receipt exactly when operation, authority and key all agree.
  lemma ScopedKeyInjective(op: string, auth: string, key: string, op': string, auth': string, key': string)
    requires Operation(op) && Operation(op') && |auth| == |auth'|
    ensures ScopedKey(op, auth, key) == ScopedKey(op', auth', key') <==> op == op' && auth == auth' && key == key'
  {
    if ScopedKey(op, auth, key) == ScopedKey(op', auth', key') {
      AppendInjective("generate:", op + (":" + (auth + (":" + key))), "generate:", op' + (":" + (auth' + (":" + key'))));
      OperationInjective(op, auth + (":" + key), op', auth' + (":" + key'));
      AppendInjective(auth, ":" + key, auth', ":" + key');
      AppendInjective(":", key, ":", key');
    }
  }

  lemma ForeignKeysApart(op: string, auth: string, key: string, foreign: string)
    requires ForeignKey(foreign)
    ensures foreign != ScopedKey(op, auth, key)
  {
    assert foreign[0] == 'n' || foreign[0] == 'a';
    assert ScopedKey(op, auth, key)[0] == 'g';
  }

  // A caller's legacy key is another request's receipt key exactly when the operations agree and the caller's key
  // spells that request's authority digest and key.
  lemma LegacyHitsScopeExactly(op: string, key: string, op': string, auth: string, key': string)
    requires Operation(op) && Operation(op')
    ensures LegacyKey(op, key) == ScopedKey(op', auth, key') <==> op == op' && key == auth + (":" + key')
  {
    if LegacyKey(op, key) == ScopedKey(op', auth, key') {
      AppendInjective("generate:", op + (":" + key), "generate:", op' + (":" + (auth + (":" + key'))));
      OperationInjective(op, key, op', auth + (":" + key'));
    }
  }

  lemma ForeignKeysApartFromLegacy(op: string, key: string, foreign: string)
    requires ForeignKey(foreign)
    ensures foreign != LegacyKey(op, key)
  {
    assert foreign[0] == 'n' || foreign[0] == 'a';
    assert LegacyKey(op, key)[0] == 'g';
  }
}

/**
 Keyed admission of generation requests as a step system. The admission lock is held from
 entry to exit, so one request at a time is in flight; it can die between any two steps, and
 the other endpoints sharing the document can act between any two steps.
 */
module Admission {
  import opened Wrappers
  import opened IdempotencyStore
  import opened AdmissionKeys

  datatype Request = Request(op: string, authority: string, key: string, digest: string)

  datatype Stage =
    | AtLookup
    | AtReserve(incarnation: string, jobId: string)
    | AtStart(incarnation: string, jobId: string)
    | AtRecord(incarnation: string, jobId: string)
    | AtReply(jobId: string)

  datatype Flight = Flight(request: Request, stage: Stage)

  datatype Event = Event(request: Request, jobId: string)

  // `starts`: jobs handed to a worker; `replies`: successful responses. Both record history only.
  datatype State = State(store: Document, flight: Option<Flight>, starts: seq<Event>, replies: seq<Event>)

  // Everything outside decided during the lookup; each flag is one way to refuse.
  datatype LookupEnv = LookupEnv(
    readable: bool, ownerOk: bool, dated: bool, expired: bool, authorityOk: bool,
    prepared: bool, incarnation: string, jobId: string)

  datatype StartOutcome = Started | StartedThenRaised | NotStarted

  datatype Action =
    | Enter(request: Request)
    | Lookup(e: LookupEnv)
    | Reserve(o: SaveOutcome)
    | StartJob(authorityOk: bool, started: StartOutcome)
    | Record(o: SaveOutcome)
    | Reply(authorityOk: bool)
    | Die
    | ForeignPut(k: string, value: Receipt, o: SaveOutcome)
    | ForeignGet(k: string, stale: bool)

  function KeyOf(r: Request): string {
    ScopedKey(r.op, r.authority, r.key)
  }

  // The endpoint rejects other operations; the digest of the authority has a fixed length; no key, no receipt.
  predicate WellFormed(r: Request) {
    Operation(r.op) && |r.authority| == 64 && r.key != ""
  }

  function Init(store: Document): State {
    State(store, None, [], [])
  }

  function DoEnter(s: State, r: Request): State {
    if s.flight.Some? || !WellFormed(r) then s else s.(flight := Some(Flight(r, AtLookup)))
  }

  function MoveTo(s: State, stage: Stage): State
    requires s.flight.Some?
  {
    s.(flight := Some(s.flight.value.(stage := stage)))
  }

  function Leave(s: State): State {
    s.(flight := None)
  }

  // A receipt under the key answers, or refuses; it never leads to a start.
  function Answer(s: State, r: Request, receipt: Receipt, e: LookupEnv): State {
    if receipt.Unverified? || !e.ownerOk || !e.dated || e.expired || receipt.digest != r.digest || !e.authorityOk
       || receipt.Reserved?
    then Leave(s)
    else Leave(s.(replies := s.replies + [Event(r, receipt.jobId)]))
  }

  function DoLookup(s: State, e: LookupEnv): State {
    if s.flight.None? || !s.flight.value.stage.AtLookup? then s
    else
      var r := s.flight.value.request;
      if !e.readable || LegacyKey(r.op, r.key) in s.store then Leave(s)
      else if KeyOf(r) in s.store then Answer(s, r, s.store[KeyOf(r)], e)
      else if !e.authorityOk || !e.ownerOk || !e.prepared then Leave(s)
      else MoveTo(s, AtReserve(e.incarnation, e.jobId))
  }

  function DoReserve(s: State, o: SaveOutcome): State {
    if s.flight.None? || !s.flight.value.stage.AtReserve? then s
    else
      var f, st := s.flight.value, s.flight.value.stage;
      var s1 := s.(store := AfterPut(s.store, KeyOf(f.request), Reserved(st.incarnation, f.request.digest, st.jobId), o));
      if o == Saved then MoveTo(s1, AtStart(st.incarnation, st.jobId)) else Leave(s1)
  }

  function DoStartJob(s: State, authorityOk: bool, o: StartOutcome): State {
    if s.flight.None? || !s.flight.value.stage.AtStart? then s
    else if !authorityOk then Leave(s)
    else
      var f, st := s.flight.value, s.flight.value.stage;
      var s1 := if o == NotStarted then s else s.(starts := s.starts + [Event(f.request, st.jobId)]);
      if o == Started then MoveTo(s1, AtRecord(st.incarnation, st.jobId)) else Leave(s1)
  }

  function DoRecord(s: State, o: SaveOutcome): State {
    if s.flight.None? || !s.flight.value.stage.AtRecord? then s
    else
      var f, st := s.flight.value, s.flight.value.stage;
      var s1 := s.(store := AfterPut(s.store, KeyOf(f.request), Recorded(st.incarnation, f.request.digest, st.jobId), o));
      if o == Saved then MoveTo(s1, AtReply(st.jobId)) else Leave(s1)
  }

  function DoReply(s: State, authorityOk: bool): State {
    if s.flight.None? || !s.flight.value.stage.AtReply? then s
    else if !authorityOk then Leave(s)
    else Leave(s.(replies := s.replies + [Event(s.flight.value.request, s.flight.value.stage.jobId)]))
  }

  function Apply(s: State, a: Action): State {
    match a
    case Enter(r) => DoEnter(s, r)
    case Lookup(e) => DoLookup(s, e)
    case Reserve(o) => DoReserve(s, o)
    case StartJob(authorityOk, o) => DoStartJob(s, authorityOk, o)
    case Record(o) => DoRecord(s, o)
    case Reply(authorityOk) => DoReply(s, authorityOk)
    case Die => Leave(s)
    case ForeignPut(k, value, o) => if ForeignKey(k) then s.(store := AfterPut(s.store, k, value, o)) else s
    case ForeignGet(k, stale) => if ForeignKey(k) then s.(store := GetLeaves(s.store, k, stale)) else s
  }

  function Exec(s: State, actions: seq<Action>): State
    decreases |actions|
  {
    if actions == [] then s else Apply(Exec(s, actions[..|actions| - 1]), actions[|actions| - 1])
  }

  lemma {:induction false} ExecAppend(s: State, actions: seq<Action>, a: Action)
    ensures Exec(s, actions + [a]) == Apply(Exec(s, actions), a)
  {
    assert (actions + [a])[..|actions|] == actions;
  }

  /******* invariant *******/

  predicate Holds(s: State, ev: Event) {
    && WellFormed(ev.request) && KeyOf(ev.request) in s.store
    && var receipt := s.store[KeyOf(ev.request)];
       !receipt.Unverified? && receipt.digest == ev.request.digest && receipt.jobId == ev.jobId
  }

  predicate HoldsRecorded(s: State, ev: Event) {
    Holds(s, ev) && s.store[KeyOf(ev.request)].Recorded?
  }

  predicate NotStartedFor(s: State, k: string) {
    forall i | 0 <= i < |s.starts| :: KeyOf(s.starts[i].request) != k
  }

  predicate FlightInv(s: State) {
    s.flight.Some? ==>
      var r, k := s.flight.value.request, KeyOf(s.flight.value.request);
      && WellFormed(r)
      && match s.flight.value.stage
         case AtLookup => true
         case AtReserve(inc, j) => k !in s.store && NotStartedFor(s, k)
         case AtStart(inc, j) => k in s.store && s.store[k] == Reserved(inc, r.digest, j) && NotStartedFor(s, k)
         case AtRecord(inc, j) => k in s.store && s.store[k] == Reserved(inc, r.digest, j)
         case AtReply(j) => HoldsRecorded(s, Event(r, j))
  }

  predicate Inv(s: State) {
    && FlightInv(s)
    && (forall i | 0 <= i < |s.starts| :: Holds(s, s.starts[i]))
    && (forall i | 0 <= i < |s.replies| :: HoldsRecorded(s, s.replies[i]))
    && (forall i, j | 0 <= i < j < |s.starts| :: KeyOf(s.starts[i].request) != KeyOf(s.starts[j].request))
  }

  lemma InitInv(store: Document)
    ensures Inv(Init(store))
  {}

  lemma ForeignStepInv(s: State, a: Action)
    requires Inv(s) && (a.ForeignPut? || a.ForeignGet?)
    ensures Inv(Apply(s, a))
  {
    var s' := Apply(s, a);
    forall r: Request ensures (KeyOf(r) in s'.store <==> KeyOf(r) in s.store)
                              && (KeyOf(r) in s.store ==> s'.store[KeyOf(r)] == s.store[KeyOf(r)]) {
      if ForeignKey(a.k) { ForeignKeysApart(r.op, r.authority, r.key, a.k); }
    }
  }

  lemma LookupInv(s: State, e: LookupEnv)
    requires Inv(s)
    ensures Inv(DoLookup(s, e))
  {
    if s.flight.Some? && s.flight.value.stage.AtLookup? {
      var r := s.flight.value.request;
      forall i | 0 <= i < |s.starts| && KeyOf(s.starts[i].request) == KeyOf(r) ensures KeyOf(r) in s.store {
        assert Holds(s, s.starts[i]);
      }
    }
  }

  lemma ReserveInv(s: State, o: SaveOutcome)
    requires Inv(s)
    ensures Inv(DoReserve(s, o))
  {}

  lemma StartJobInv(s: State, authorityOk: bool, o: StartOutcome)
    requires Inv(s)
    ensures Inv(DoStartJob(s, authorityOk, o))
  {}

  lemma RecordInv(s: State, o: SaveOutcome)
    requires Inv(s)
    ensures Inv(DoRecord(s, o))
  {}

  lemma StepInv(s: State, a: Action)
    requires Inv(s)
    ensures Inv(Apply(s, a))
  {
    match a
    case Enter(r) =>
    case Lookup(e) => LookupInv(s, e);
    case Reserve(o) => ReserveInv(s, o);
    case StartJob(authorityOk, o) => StartJobInv(s, authorityOk, o);
    case Record(o) => RecordInv(s, o);
    case Reply(authorityOk) =>
    case Die =>
    case ForeignPut(_, _, _) => ForeignStepInv(s, a);
    case ForeignGet(_, _) => ForeignStepInv(s, a);
  }

  lemma {:induction false} ExecInv(s: State, actions: seq<Action>)
    requires Inv(s)
    ensures Inv(Exec(s, actions))
    decreases |actions|
  {
    if actions != [] {
      ExecInv(s, actions[..|actions| - 1]);
      StepInv(Exec(s, actions[..|actions| - 1]), actions[|actions| - 1]);
    }
  }

  /******* theorems over every run *******/

  predicate SameKey(a: Request, b: Request) {
    a.op == b.op && a.authority == b.authority && a.key == b.key
  }

  // For each key at most one job is ever started, all successful responses name one job, the started one
  // if there is one, and no request with another digest starts a job or receives a result.
  lemma AtMostOneDispatch(store: Document, actions: seq<Action>, i: nat, j: nat)
    ensures var s := Exec(Init(store), actions);
            && (i < j < |s.starts| ==> !SameKey(s.starts[i].request, s.starts[j].request))
            && (i < |s.replies| && j < |s.replies| && SameKey(s.replies[i].request, s.replies[j].request) ==>
                  s.replies[i] == s.replies[j])
            && (i < |s.starts| && j < |s.replies| && SameKey(s.starts[i].request, s.replies[j].request) ==>
                  s.starts[i] == s.replies[j])
  {
    InitInv(store);
    ExecInv(Init(store), actions);
    var s := Exec(Init(store), actions);
    if i < |s.starts| { assert Holds(s, s.starts[i]); }
    if i < |s.replies| { assert HoldsRecorded(s, s.replies[i]); }
    if j < |s.replies| { assert HoldsRecorded(s, s.replies[j]); }
  }

  // Every start finds its own durable reservation already written.
  lemma StartFollowsReservation(store: Document, actions: seq<Action>, a: Action)
    ensures var s := Exec(Init(store), actions);
            var s' := Apply(s, a);
            s'.starts != s.starts ==>
              && a.StartJob? && |s'.starts| == |s.starts| + 1
              && var ev := s'.starts[|s.starts|];
                 KeyOf(ev.request) in s.store && s.store[KeyOf(ev.request)].Reserved?
                 && s.store[KeyOf(ev.request)].jobId == ev.jobId && s.store[KeyOf(ev.request)].digest == ev.request.digest
  {
    InitInv(store);
    ExecInv(Init(store), actions);
  }

  // A step adds a start only when the live authority was confirmed just before, and a reply only when it was confirmed
  // just before, or, from a held receipt, when that is complete, unexpired, for this digest, owner and authority.
  lemma NothingWithoutAuthority(s: State, a: Action)
    ensures Apply(s, a).starts != s.starts ==> a.StartJob? && a.authorityOk && a.started != NotStarted
    ensures Apply(s, a).replies != s.replies ==>
              || (a.Reply? && a.authorityOk)
              || (a.Lookup? && s.flight.Some? && Permits(a.e, s.flight.value.request, s.store))
  {}

  // A held receipt from which the request may be answered.
  predicate Permits(e: LookupEnv, r: Request, store: Document) {
    && KeyOf(r) in store && store[KeyOf(r)].Recorded? && store[KeyOf(r)].digest == r.digest
    && e.readable && e.ownerOk && e.dated && !e.expired && e.authorityOk
  }

  // A receipt is never lost, and never names another job or digest, whatever follows.
  predicate Kept(s: State, s': State, k: string) {
    k in s.store && !s.store[k].Unverified? ==>
      && k in s'.store && !s'.store[k].Unverified?
      && s'.store[k].jobId == s.store[k].jobId && s'.store[k].digest == s.store[k].digest
      && (s.store[k].Recorded? ==> s'.store[k].Recorded?)
  }

  lemma ReceiptKeptByStep(s: State, a: Action, r: Request)
    requires Inv(s) && WellFormed(r)
    ensures Kept(s, Apply(s, a), KeyOf(r))
  {
    if (a.ForeignPut? || a.ForeignGet?) && ForeignKey(a.k) { ForeignKeysApart(r.op, r.authority, r.key, a.k); }
  }

  lemma {:induction false} ReceiptKept(s: State, later: seq<Action>, r: Request)
    requires Inv(s) && WellFormed(r)
    ensures Kept(s, Exec(s, later), KeyOf(r))
    decreases |later|
  {
    if later != [] {
      var front := later[..|later| - 1];
      ReceiptKept(s, front, r);
      ExecInv(s, front);
      ReceiptKeptByStep(Exec(s, front), later[|later| - 1], r);
    }
  }

  // An admission that died with its reservation written blocks the key: no later run starts a job for it.
  lemma ReservedKeyNeverStartsAgain(s: State, later: seq<Action>, r: Request)
    requires Inv(s) && WellFormed(r) && s.flight.None? && KeyOf(r) in s.store
    ensures forall i | |s.starts| <= i < |Exec(s, later).starts| :: !SameKey(Exec(s, later).starts[i].request, r)
    decreases |later|
  {
    BlockedStays(s, later, r);
  }

  // Before a start the key must be seen free; `Blocked` says that nobody in flight has seen that.
  predicate Blocked(s: State, r: Request) {
    && KeyOf(r) in s.store
    && (s.flight.Some? && SameKey(s.flight.value.request, r) ==> s.flight.value.stage.AtLookup?)
  }

  lemma BlockedStep(s: State, a: Action, r: Request)
    requires Inv(s) && WellFormed(r) && Blocked(s, r)
    ensures Blocked(Apply(s, a), r)
    ensures |s.starts| <= |Apply(s, a).starts| && Apply(s, a).starts[..|s.starts|] == s.starts
    ensures forall i | |s.starts| <= i < |Apply(s, a).starts| :: !SameKey(Apply(s, a).starts[i].request, r)
  {
    if (a.ForeignPut? || a.ForeignGet?) && ForeignKey(a.k) { ForeignKeysApart(r.op, r.authority, r.key, a.k); }
  }

  lemma {:induction false} BlockedStays(s: State, later: seq<Action>, r: Request)
    requires Inv(s) && WellFormed(r) && Blocked(s, r)
    ensures var s' := Exec(s, later);
            && Blocked(s', r) && |s.starts| <= |s'.starts|
            && forall i | |s.starts| <= i < |s'.starts| :: !SameKey(s'.starts[i].request, r)
    decreases |later|
  {
    if later != [] {
      var front := later[..|later| - 1];
      BlockedStays(s, front, r);
      ExecInv(s, front);
      var mid, s' := Exec(s, front), Exec(s, later);
      BlockedStep(mid, later[|later| - 1], r);
      forall i | |s.starts| <= i < |s'.starts| ensures !SameKey(s'.starts[i].request, r) {
        if i < |mid.starts| { assert s'.starts[i] == s'.starts[..|mid.starts|][i]; }
      }
    }
  }

  /******* the legacy lookup *******/

  // The caller's key spells the other request's authority digest and key.
  predicate Spells(r: Request, r': Request) {
    r.op == r'.op && r.key == r'.authority + (":" + r'.key)
  }

  predicate Entered(actions: seq<Action>, r: Request) {
    WellFormed(r) && Enter(r) in actions
  }

  // Every key outside the other endpoints' was there from the start, or is that of a request that entered.
  ghost predicate KeysExplained(store: Document, s: State, actions: seq<Action>) {
    && (s.flight.Some? ==> Entered(actions, s.flight.value.request))
    && (forall k | k in s.store && !ForeignKey(k) && k !in store :: exists r :: Entered(actions, r) && KeyOf(r) == k)
    && (forall k | k in store && !ForeignKey(k) :: k in s.store)
  }

  lemma ExplainedStep(store: Document, s: State, before: seq<Action>, a: Action)
    requires KeysExplained(store, s, before)
    ensures KeysExplained(store, Apply(s, a), before + [a])
  {
    var s', after := Apply(s, a), before + [a];
    assert forall r | Entered(before, r) :: Entered(after, r);
    assert a in after;
    if s'.flight.Some? { assert Entered(after, s'.flight.value.request); }
    forall k | k in s'.store && !ForeignKey(k) && k !in store ensures exists r :: Entered(after, r) && KeyOf(r) == k {
      if k in s.store {
        var r :| Entered(before, r) && KeyOf(r) == k;
        assert Entered(after, r);
      } else {
        assert Entered(after, s.flight.value.request) && KeyOf(s.flight.value.request) == k;
      }
    }
  }

  lemma {:induction false} ExplainedRun(store: Document, actions: seq<Action>)
    ensures KeysExplained(store, Exec(Init(store), actions), actions)
    decreases |actions|
  {
    if actions != [] {
      var front := actions[..|actions| - 1];
      ExplainedRun(store, front);
      ExplainedStep(store, Exec(Init(store), front), front, actions[|actions| - 1]);
      assert actions == front + [actions[|actions| - 1]];
    }
  }

  // The oracles let a fresh request pass.
  predicate LetsPass(e: LookupEnv) { e.readable && e.ownerOk && e.authorityOk && e.prepared }

  // A request that nothing else refuses and that finds no receipt of its own is turned away, in any run, exactly when
  // its unscoped key was in the store from the start, or it spells a request whose receipt is held.
  lemma LegacyRefusesExactly(store: Document, actions: seq<Action>, r: Request, e: LookupEnv)
    requires Exec(Init(store), actions).flight == Some(Flight(r, AtLookup)) && LetsPass(e)
    requires KeyOf(r) !in Exec(Init(store), actions).store
    ensures var s := Exec(Init(store), actions);
            DoLookup(s, e).flight.None? <==>
              || LegacyKey(r.op, r.key) in store
              || exists r' :: Entered(actions, r') && Spells(r, r') && KeyOf(r') in s.store
  {
    var s, k := Exec(Init(store), actions), LegacyKey(r.op, r.key);
    ExplainedRun(store, actions);
    if ForeignKey(k) { ForeignKeysApartFromLegacy(r.op, r.key, k); }
    if k in s.store && k !in store {
      var r' :| Entered(actions, r') && KeyOf(r') == k;
      LegacyHitsScopeExactly(r.op, r.key, r'.op, r'.authority, r'.key);
    }
    forall r' | Entered(actions, r') && Spells(r, r') && KeyOf(r') in s.store ensures k in s.store {
      LegacyHitsScopeExactly(r.op, r.key, r'.op, r'.authority, r'.key);
    }
  }

  function Digest(c: char): string { seq(64, _ => c) }

  // A run in which it happens: the second caller's key spells the first request's scope, and the second request is
  // turned away although no receipt of its own was ever written and nothing else refuses it.
  lemma LegacyLookupRefusesAStranger(e: LookupEnv)
    requires LetsPass(e)
    ensures var first := Request("continue", Digest('a'), "k", "d");
            var second := Request("continue", Digest('b'), Digest('a') + (":" + "k"), "d");
            var s := Exec(Init(map[]), [Enter(first), Lookup(e), Reserve(Saved), Die, Enter(second)]);
            && WellFormed(first) && WellFormed(second) && !SameKey(first, second)
            && s.flight == Some(Flight(second, AtLookup)) && KeyOf(second) !in s.store
            && DoLookup(s, e).flight.None?
  {
    var first := Request("continue", Digest('a'), "k", "d");
    var second := Request("continue", Digest('b'), Digest('a') + (":" + "k"), "d");
    assert Digest('a')[0] == 'a' && Digest('b')[0] == 'b';
    var s0 := Init(map[]);
    var s1 := DoEnter(s0, first);
    assert s1 == State(map[], Some(Flight(first, AtLookup)), [], []);
    var s2 := DoLookup(s1, e);
    assert s2 == State(map[], Some(Flight(first, AtReserve(e.incarnation, e.jobId))), [], []);
    var s4 := Leave(DoReserve(s2, Saved));
    assert s4 == State(map[KeyOf(first) := Reserved(e.incarnation, "d", e.jobId)], None, [], []);
    var s5 := DoEnter(s4, second);
    FiveSteps(s0, Enter(first), Lookup(e), Reserve(Saved), Die, Enter(second));
    ScopedKeyInjective("continue", second.authority, second.key, "continue", first.authority, first.key);
    LegacyHitsScopeExactly("continue", second.key, "continue", first.authority, first.key);
  }

  lemma FiveSteps(s: State, a: Action, b: Action, c: Action, d: Action, e: Action)
    ensures Exec(s, [a, b, c, d, e]) == Apply(Apply(Apply(Apply(Apply(s, a), b), c), d), e)
  {
    assert [] + [a] == [a] && [a] + [b] == [a, b] && [a, b] + [c] == [a, b, c];
    assert [a, b, c] + [d] == [a, b, c, d] && [a, b, c, d] + [e] == [a, b, c, d, e];
    ExecAppend(s, [], a);
    ExecAppend(s, [a], b);
    ExecAppend(s, [a, b], c);
    ExecAppend(s, [a, b, c], d);
    ExecAppend(s, [a, b, c, d], e);
  }
}

/** The endpoint itself: one request from entry to exit, updating the store and starting the job in place. */
module GenerateEndpoint {
  import opened Wrappers
  import opened IdempotencyStore
  import opened AdmissionKeys
  import opened Admission

  // What the world does during one call: the oracles, then the outcome of each effect in order.
  datatype CallEnv = CallEnv(
    lookup: LookupEnv, reserve: SaveOutcome, startAuthorityOk: bool, start: StartOutcome, record: SaveOutcome,
    replyAuthorityOk: bool)

  datatype Refusal =
    | RecordUnverified | OwnerChanged | KeyExpired | RequestMismatch | AuthorityChanged | AdmissionUnconfirmed
    | PreparationFailed | PersistenceUnconfirmed | StartUnconfirmed

  function CallActions(r: Request, e: CallEnv): seq<Action> {
    [Enter(r), Lookup(e.lookup), Reserve(e.reserve), StartJob(e.startAuthorityOk, e.start), Record(e.record),
     Reply(e.replyAuthorityOk)]
  }

  function FromReserve(s: State, e: CallEnv): State {
    DoReply(DoRecord(DoStartJob(DoReserve(s, e.reserve), e.startAuthorityOk, e.start), e.record), e.replyAuthorityOk)
  }

  function CallSpec(s: State, r: Request, e: CallEnv): State {
    FromReserve(DoLookup(DoEnter(s, r), e.lookup), e)
  }

  lemma CallHead(s: State, r: Request, e: CallEnv)
    ensures Exec(s, [Enter(r), Lookup(e.lookup), Reserve(e.reserve)]) == DoReserve(DoLookup(DoEnter(s, r), e.lookup), e.reserve)
  {
    ExecAppend(s, [], Enter(r));
    assert [] + [Enter(r)] == [Enter(r)];
    ExecAppend(s, [Enter(r)], Lookup(e.lookup));
    assert [Enter(r)] + [Lookup(e.lookup)] == [Enter(r), Lookup(e.lookup)];
    ExecAppend(s, [Enter(r), Lookup(e.lookup)], Reserve(e.reserve));
    assert [Enter(r), Lookup(e.lookup)] + [Reserve(e.reserve)] == [Enter(r), Lookup(e.lookup), Reserve(e.reserve)];
  }

  // A call that nothing interrupts is a run of the step system, so all its theorems speak about it.
  lemma CallIsARun(s: State, r: Request, e: CallEnv)
    ensures Exec(s, CallActions(r, e)) == CallSpec(s, r, e)
  {
    CallHead(s, r, e);
    var head := [Enter(r), Lookup(e.lookup), Reserve(e.reserve)];
    ExecAppend(s, head, StartJob(e.startAuthorityOk, e.start));
    ExecAppend(s, head + [StartJob(e.startAuthorityOk, e.start)], Record(e.record));
    ExecAppend(s, head + [StartJob(e.startAuthorityOk, e.start)] + [Record(e.record)], Reply(e.replyAuthorityOk));
    assert CallActions(r, e) == head + [StartJob(e.startAuthorityOk, e.start)] + [Record(e.record)] + [Reply(e.replyAuthorityOk)];
  }

  lemma IdleStays(s: State, e: CallEnv)
    requires s.flight.None?
    ensures FromReserve(s, e) == s
  {}

  // What the lookup makes of a call from a free lock.
  lemma CallCases(s: State, r: Request, e: CallEnv)
    requires s.flight.None? && WellFormed(r)
    ensures CallSpec(s, r, e) ==
              if !e.lookup.readable || LegacyKey(r.op, r.key) in s.store then s
              else if KeyOf(r) in s.store then Answer(s, r, s.store[KeyOf(r)], e.lookup)
              else if !e.lookup.authorityOk || !e.lookup.ownerOk || !e.lookup.prepared then s
              else FromReserve(s.(flight := Some(Flight(r, AtReserve(e.lookup.incarnation, e.lookup.jobId)))), e)
  {
    var looked := DoLookup(DoEnter(s, r), e.lookup);
    if looked.flight.None? {
      IdleStays(looked, e);
    } else {
      assert looked == s.(flight := Some(Flight(r, AtReserve(e.lookup.incarnation, e.lookup.jobId))));
    }
  }

  /******* what one call does *******/

  // The answer from a held receipt: its job, or the refusal of the first check that fails.
  predicate HeldReply(r: Request, receipt: Receipt, e: LookupEnv, reply: Result<string, Refusal>) {
    var readable, dated := !receipt.Unverified?, !receipt.Unverified? && e.ownerOk && e.dated;
    var current := dated && !e.expired;
    && (reply == Err(RecordUnverified) <==> receipt.Unverified? || (e.ownerOk && !e.dated))
    && (reply == Err(OwnerChanged) <==> readable && !e.ownerOk)
    && (reply == Err(KeyExpired) <==> dated && e.expired)
    && (reply == Err(RequestMismatch) <==> current && receipt.digest != r.digest)
    && (reply == Err(AuthorityChanged) <==> current && receipt.digest == r.digest && !e.authorityOk)
    && (reply == Err(AdmissionUnconfirmed) <==> current && receipt.digest == r.digest && e.authorityOk && receipt.Reserved?)
    && (reply.Ok? <==> current && receipt.Recorded? && receipt.digest == r.digest && e.authorityOk)
    && (reply.Ok? ==> reply.value == receipt.jobId)
  }

  // The answer of a request that was let pass: its job, or what is not confirmed.
  predicate FreshReply(e: CallEnv, reply: Result<string, Refusal>) {
    && (reply == Err(PersistenceUnconfirmed) <==>
          e.reserve != Saved || (e.startAuthorityOk && e.start == Started && e.record != Saved))
    && (reply == Err(AuthorityChanged) <==>
          e.reserve == Saved && (!e.startAuthorityOk || (e.start == Started && e.record == Saved && !e.replyAuthorityOk)))
    && (reply == Err(StartUnconfirmed) <==> e.reserve == Saved && e.startAuthorityOk && e.start != Started)
    && (reply.Ok? <==> e.reserve == Saved && e.startAuthorityOk && e.start == Started && e.record == Saved && e.replyAuthorityOk)
    && (reply.Ok? ==> reply.value == e.lookup.jobId)
  }

  // A request that finds the store unreadable, its unscoped key held, or its key free but not itself let pass, changes
  // nothing.
  lemma TurnedAwayUnchanged(s: State, r: Request, e: CallEnv)
    requires s.flight.None? && WellFormed(r)
    requires !e.lookup.readable || LegacyKey(r.op, r.key) in s.store || (KeyOf(r) !in s.store && !LetsPass(e.lookup))
    ensures CallSpec(s, r, e) == s
  {
    CallCases(s, r, e);
  }

  // Nothing is held under the request's key, the store can be read, and the oracles let it pass.
  predicate Free(s: State, r: Request, e: LookupEnv) {
    && s.flight.None? && WellFormed(r) && LetsPass(e)
    && KeyOf(r) !in s.store && LegacyKey(r.op, r.key) !in s.store
  }

  // A request that finds its key free starts its job exactly when its reservation is confirmed as saved, authority still
  // holds and the manager takes the job; it is answered with the prepared job exactly when, besides, the start returned,
  // the record is confirmed and authority holds once more. The receipt left says how far it came.
  lemma FreshCallExactly(s: State, r: Request, e: CallEnv)
    requires Free(s, r, e.lookup)
    ensures var s', ev := CallSpec(s, r, e), Event(r, e.lookup.jobId);
            var reserved := e.reserve == Saved && e.startAuthorityOk;
            var recorded := reserved && e.start == Started;
            && s'.flight.None?
            && s'.starts == s.starts + (if reserved && e.start != NotStarted then [ev] else [])
            && s'.replies == s.replies + (if recorded && e.record == Saved && e.replyAuthorityOk then [ev] else [])
            && s'.store == if e.reserve == NotSaved then s.store
                           else s.store[KeyOf(r) := if recorded && e.record != NotSaved
                                                    then Recorded(e.lookup.incarnation, r.digest, e.lookup.jobId)
                                                    else Reserved(e.lookup.incarnation, r.digest, e.lookup.jobId)]
  {
    CallCases(s, r, e);
    FreshReserve(s.(flight := Some(Flight(r, AtReserve(e.lookup.incarnation, e.lookup.jobId)))), r, e);
  }

  lemma FreshReserve(s: State, r: Request, e: CallEnv)
    requires s.flight == Some(Flight(r, AtReserve(e.lookup.incarnation, e.lookup.jobId))) && KeyOf(r) != ""
    ensures var s', ev := FromReserve(s, e), Event(r, e.lookup.jobId);
            var reserved := e.reserve == Saved && e.startAuthorityOk;
            var recorded := reserved && e.start == Started;
            && s'.flight.None?
            && s'.starts == s.starts + (if reserved && e.start != NotStarted then [ev] else [])
            && s'.replies == s.replies + (if recorded && e.record == Saved && e.replyAuthorityOk then [ev] else [])
            && s'.store == if e.reserve == NotSaved then s.store
                           else s.store[KeyOf(r) := if recorded && e.record != NotSaved
                                                    then Recorded(e.lookup.incarnation, r.digest, e.lookup.jobId)
                                                    else Reserved(e.lookup.incarnation, r.digest, e.lookup.jobId)]
  {}

  // A request whose key is held starts nothing and writes nothing; it is answered with the recorded job exactly when the
  // receipt is complete, of this digest, neither undated nor expired, and owner and authority hold.
  lemma HeldCallExactly(s: State, r: Request, e: CallEnv)
    requires s.flight.None? && WellFormed(r) && KeyOf(r) in s.store && LegacyKey(r.op, r.key) !in s.store
    ensures var s', held := CallSpec(s, r, e), s.store[KeyOf(r)];
            && s'.starts == s.starts && s'.store == s.store && s'.flight.None?
            && s'.replies == s.replies + (if Permits(e.lookup, r, s.store) then [Event(r, held.jobId)] else [])
  {
    CallCases(s, r, e);
  }

  class Endpoint {
    const store: Store
    var starts: seq<Event>
    var replies: seq<Event>

    constructor (store: Store)
      ensures this.store == store && starts == [] && replies == []
    {
      this.store, starts, replies := store, [], [];
    }

    function View(flight: Option<Flight>): State
      reads this, store
    {
      State(Contents(store.file), flight, starts, replies)
    }

    // What the two strict reads make of the file, when the file itself can be reached.
    function Seen(r: Request, e: LookupEnv): LookupEnv
      reads store
    {
      e.(readable := e.readable && Readable(store.file, LegacyKey(r.op, r.key)) && Readable(store.file, KeyOf(r)))
    }

    // The lock is free on entry and on every exit.
    method Generate(r: Request, e: CallEnv) returns (reply: Result<string, Refusal>)
      requires WellFormed(r)
      modifies this, store
      ensures View(None) == CallSpec(old(View(None)), r, e.(lookup := old(Seen(r, e.lookup))))
      ensures !old(Seen(r, e.lookup)).readable || LegacyKey(r.op, r.key) in old(Contents(store.file)) ==>
                reply == Err(RecordUnverified) && store.file == old(store.file)
      ensures old(Seen(r, e.lookup)).readable && LegacyKey(r.op, r.key) !in old(Contents(store.file)) ==>
                if KeyOf(r) in old(Contents(store.file)) then
                  HeldReply(r, old(Contents(store.file))[KeyOf(r)], e.lookup, reply)
                else
                  && (reply == Err(OwnerChanged) <==> !e.lookup.ownerOk)
                  && (e.lookup.ownerOk && !e.lookup.authorityOk ==> reply == Err(AuthorityChanged))
                  && (e.lookup.ownerOk && e.lookup.authorityOk && !e.lookup.prepared ==> reply == Err(PreparationFailed))
                  && (LetsPass(old(Seen(r, e.lookup))) ==> FreshReply(e, reply))
      ensures replies == old(replies) + if reply.Ok? then [Event(r, reply.value)] else []
    {
      CallCases(View(None), r, e.(lookup := Seen(r, e.lookup)));
      if !e.lookup.readable { return Err(RecordUnverified); }
      var legacy := store.Retained(LegacyKey(r.op, r.key));
      if legacy.None? { return Err(RecordUnverified); }
      var retained := store.Retained(KeyOf(r));
      if retained.None? || legacy.value.Some? { return Err(RecordUnverified); }
      if retained.value.Some? {
        reply := Replay(r, retained.value.value, e.lookup);
        return;
      }
      if !e.lookup.ownerOk { return Err(OwnerChanged); }
      if !e.lookup.authorityOk { return Err(AuthorityChanged); }
      if !e.lookup.prepared { return Err(PreparationFailed); }
      reply := Dispatch(r, e);
    }

    // The key is held: answer from the receipt or refuse, and start nothing.
    method Replay(r: Request, receipt: Receipt, e: LookupEnv) returns (reply: Result<string, Refusal>)
      modifies this
      ensures starts == old(starts)
      ensures View(None) == Answer(old(View(None)), r, receipt, e)
      ensures HeldReply(r, receipt, e, reply)
      ensures replies == old(replies) + if reply.Ok? then [Event(r, reply.value)] else []
    {
      if receipt.Unverified? { return Err(RecordUnverified); }
      if !e.ownerOk { return Err(OwnerChanged); }
      if !e.dated { return Err(RecordUnverified); }
      if e.expired { return Err(KeyExpired); }
      if receipt.digest != r.digest { return Err(RequestMismatch); }
      if !e.authorityOk { return Err(AuthorityChanged); }
      if receipt.Reserved? { return Err(AdmissionUnconfirmed); }
      replies := replies + [Event(r, receipt.jobId)];
      return Ok(receipt.jobId);
    }

    // The key is free: reserve, start, record, reply.
    method Dispatch(r: Request, e: CallEnv) returns (reply: Result<string, Refusal>)
      requires WellFormed(r) && (store.file.Absent? || store.file.Items?)
      modifies this, store
      ensures View(None) == FromReserve(old(View(Some(Flight(r, AtReserve(e.lookup.incarnation, e.lookup.jobId))))), e)
      ensures FreshReply(e, reply)
      ensures replies == old(replies) + if reply.Ok? then [Event(r, reply.value)] else []
    {
      var jobId := e.lookup.jobId;
      assert KeyOf(r) != "";
      var raised := store.Put(KeyOf(r), Reserved(e.lookup.incarnation, r.digest, jobId), e.reserve);
      if raised { return Err(PersistenceUnconfirmed); }
      if !e.startAuthorityOk { return Err(AuthorityChanged); }
      if e.start != NotStarted { starts := starts + [Event(r, jobId)]; }
      if e.start != Started { return Err(StartUnconfirmed); }
      raised := store.Put(KeyOf(r), Recorded(e.lookup.incarnation, r.digest, jobId), e.record);
      if raised { return Err(PersistenceUnconfirmed); }
      if !e.replyAuthorityOk { return Err(AuthorityChanged); }
      replies := replies + [Event(r, jobId)];
      return Ok(jobId);
    }
  }
}
