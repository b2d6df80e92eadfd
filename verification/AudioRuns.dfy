/**
 Any number of processes calling `mutate` and legacy `save` on one file. The file fence makes each
 half of `mutate`, and each save, one step; a callback runs between the halves. The lock of a process
 only forbids some of these interleavings, so it is left out. A callback may itself save or mutate:
 those are calls of their own.
 */
module AudioRuns {
  import opened Wrappers
  import opened Json
  import opened AudioState

  // What a callback leaves in the state it was given, and what it returns.
  datatype Callback<T> = Returned(after: Audio, result: T) | Raised

  datatype Flight<O, T> = Flight(op: O, seen: Audio, ran: Option<Callback<T>>)

  datatype Outcome<T> = Replied(result: T) | Failed(error: AudioError)

  datatype Committed<O, T> = ByCall(call: nat, op: O, result: T) | ByLegacy(data: Audio)

  // `begun`, `runs`, `log` and `done` record history: calls made, callback executions, writes, and answers.
  datatype State<O, T> = State(
    stored: Stored, flights: map<nat, Flight<O, T>>, begun: set<nat>, runs: multiset<nat>,
    log: seq<Committed<O, T>>, done: map<nat, Outcome<T>>)

  datatype Action<O> =
    | Begin(call: nat, op: O)
    | RunCallback(call: nat)
    | Finish(call: nat, o: SaveOutcome)
    | Die(call: nat)
    | SaveLegacy(data: Audio, o: SaveOutcome)

  function Init<O, T>(stored: Stored): State<O, T> {
    State(stored, map[], {}, multiset{}, [], map[])
  }

  function Leave<O, T>(s: State<O, T>, call: nat, outcome: Outcome<T>): State<O, T> {
    s.(flights := s.flights - {call}, done := s.done[call := outcome])
  }

  function DoBegin<O, T>(s: State<O, T>, call: nat, op: O): State<O, T> {
    if call in s.begun then s
    else
      var s1 := s.(begun := s.begun + {call});
      var loaded := Load(s.stored);
      if loaded.Err? then Leave(s1, call, Failed(loaded.error))
      else s1.(flights := s1.flights[call := Flight(op, loaded.value, None)])
  }

  function DoRunCallback<O, T>(run: (O, Audio) -> Callback<T>, s: State<O, T>, call: nat): State<O, T> {
    if call !in s.flights || s.flights[call].ran.Some? then s
    else
      var f := s.flights[call];
      var ran := run(f.op, f.seen);
      var s1 := s.(runs := s.runs[call := s.runs[call] + 1]);
      if ran.Raised? then Leave(s1, call, Failed(CallbackRaised)) else s1.(flights := s1.flights[call := f.(ran := Some(ran))])
  }

  predicate CanFinish<O, T>(s: State<O, T>, call: nat) {
    call in s.flights && s.flights[call].ran.Some? && s.flights[call].ran.value.Returned?
  }

  function DoFinish<O, T>(s: State<O, T>, call: nat, o: SaveOutcome): State<O, T> {
    if !CanFinish(s, call) then s
    else
      var f := s.flights[call];
      var (stored, r) := Commit(s.stored, f.seen, f.ran.value.after, o);
      var written := Load(s.stored) == Ok(f.seen) && o != NotSaved;
      var s1 := s.(stored := stored, log := s.log + if written then [ByCall(call, f.op, f.ran.value.result)] else []);
      Leave(s1, call, if r.Ok? then Replied(f.ran.value.result) else Failed(r.error))
  }

  function DoSaveLegacy<O, T>(s: State<O, T>, data: Audio, o: SaveOutcome): State<O, T> {
    var written := o != NotSaved && Load(s.stored).Ok? && LegacyPayload(Load(s.stored).value, data).Ok?;
    s.(stored := LegacySave(s.stored, data, o).0, log := s.log + if written then [ByLegacy(data)] else [])
  }

  function Apply<O, T>(run: (O, Audio) -> Callback<T>, s: State<O, T>, a: Action<O>): State<O, T> {
    match a
    case Begin(call, op) => DoBegin(s, call, op)
    case RunCallback(call) => DoRunCallback(run, s, call)
    case Finish(call, o) => DoFinish(s, call, o)
    case Die(call) => s.(flights := s.flights - {call})
    case SaveLegacy(data, o) => DoSaveLegacy(s, data, o)
  }

  function Exec<O, T>(run: (O, Audio) -> Callback<T>, s: State<O, T>, actions: seq<Action<O>>): State<O, T>
    decreases |actions|
  {
    if actions == [] then s else Apply(run, Exec(run, s, actions[..|actions| - 1]), actions[|actions| - 1])
  }

  /******* the sequential machine the runs are compared with *******/

  // One committed operation on its own, with nobody else about.
  function Perform<O, T>(run: (O, Audio) -> Callback<T>, a: Audio, c: Committed<O, T>): Audio {
    match c
    case ByCall(_, op, _) => var ran := run(op, a); if ran.Returned? then ran.after else a
    case ByLegacy(data) => var payload := LegacyPayload(a, data); if payload.Ok? then payload.value else a
  }

  function Replay<O, T>(run: (O, Audio) -> Callback<T>, a: Audio, log: seq<Committed<O, T>>): Audio
    decreases |log|
  {
    if log == [] then a else Perform(run, Replay(run, a, log[..|log| - 1]), log[|log| - 1])
  }

  // The answer recorded for the i-th committed call is the one the sequential machine gives at that point.
  predicate Answers<O, T(==)>(run: (O, Audio) -> Callback<T>, a: Audio, log: seq<Committed<O, T>>, i: nat)
    requires i < |log|
  {
    log[i].ByCall? ==>
      var ran := run(log[i].op, Replay(run, a, log[..i]));
      ran.Returned? && ran.result == log[i].result
  }

  ghost predicate Logged<O, T>(s: State<O, T>, call: nat) {
    exists i | 0 <= i < |s.log| :: s.log[i].ByCall? && s.log[i].call == call
  }

  ghost predicate LoggedWith<O, T>(s: State<O, T>, call: nat, result: T) {
    exists i | 0 <= i < |s.log| :: s.log[i].ByCall? && s.log[i].call == call && s.log[i].result == result
  }

  /******* invariant *******/

  ghost predicate FileInv<O, T>(run: (O, Audio) -> Callback<T>, a: Audio, s: State<O, T>) {
    && Load(s.stored) == Ok(Replay(run, a, s.log))
    && forall i: nat | i < |s.log| :: Answers(run, a, s.log, i)
  }

  ghost predicate FlightInv<O, T>(run: (O, Audio) -> Callback<T>, s: State<O, T>, call: nat) {
    call in s.flights ==>
      && call in s.begun && call !in s.done && !Logged(s, call)
      && s.runs[call] == (if s.flights[call].ran.Some? then 1 else 0)
      && (s.flights[call].ran.Some? ==> s.flights[call].ran.value == run(s.flights[call].op, s.flights[call].seen))
  }

  ghost predicate CallInv<O, T>(s: State<O, T>, call: nat) {
    && s.runs[call] <= 1
    && (call !in s.begun ==> s.runs[call] == 0 && call !in s.done && !Logged(s, call))
    && (Logged(s, call) ==> s.runs[call] == 1)
    && (call in s.done && s.done[call].Replied? ==> LoggedWith(s, call, s.done[call].result))
    && (call in s.done && s.done[call] == Failed(VersionConflict) ==> s.runs[call] == 1 && !Logged(s, call))
  }

  ghost predicate Inv<O, T>(run: (O, Audio) -> Callback<T>, a: Audio, s: State<O, T>) {
    && FileInv(run, a, s)
    && (forall call: nat :: FlightInv(run, s, call) && CallInv(s, call))
    && (forall i, j | 0 <= i < j < |s.log| && s.log[i].ByCall? && s.log[j].ByCall? :: s.log[i].call != s.log[j].call)
  }

  // Appending one committed operation to the log.
  lemma FileAppend<O, T>(run: (O, Audio) -> Callback<T>, a: Audio, s: State<O, T>, s': State<O, T>, c: Committed<O, T>)
    requires FileInv(run, a, s) && s'.log == s.log + [c]
    requires Load(s'.stored) == Ok(Perform(run, Load(s.stored).value, c))
    requires c.ByCall? ==> run(c.op, Load(s.stored).value).Returned? && run(c.op, Load(s.stored).value).result == c.result
    ensures FileInv(run, a, s')
  {
    assert s'.log[..|s'.log| - 1] == s.log;
    forall i: nat | i < |s'.log| ensures Answers(run, a, s'.log, i) {
      if i < |s.log| {
        assert s'.log[..i] == s.log[..i];
        assert Answers(run, a, s.log, i);
      }
    }
  }

  lemma BeginInv<O, T>(run: (O, Audio) -> Callback<T>, a: Audio, s: State<O, T>, call: nat, op: O)
    requires Inv(run, a, s)
    ensures Inv(run, a, DoBegin(s, call, op))
  {
    var s' := DoBegin(s, call, op);
    forall c: nat ensures FlightInv(run, s', c) && CallInv(s', c) {
      assert FlightInv(run, s, c) && CallInv(s, c);
      assert Logged(s', c) <==> Logged(s, c);
    }
  }

  lemma RunCallbackInv<O, T>(run: (O, Audio) -> Callback<T>, a: Audio, s: State<O, T>, call: nat)
    requires Inv(run, a, s)
    ensures Inv(run, a, DoRunCallback(run, s, call))
  {
    var s' := DoRunCallback(run, s, call);
    forall c: nat ensures FlightInv(run, s', c) && CallInv(s', c) {
      assert FlightInv(run, s, c) && CallInv(s, c) && FlightInv(run, s, call);
      assert Logged(s', c) <==> Logged(s, c);
    }
  }

  lemma LogGrows<O, T>(s: State<O, T>, s': State<O, T>, c: Committed<O, T>)
    requires s'.log == s.log + [c]
    ensures forall call: nat :: Logged(s', call) <==> Logged(s, call) || (c.ByCall? && c.call == call)
    ensures forall call: nat, t: T :: LoggedWith(s, call, t) ==> LoggedWith(s', call, t)
    ensures c.ByCall? ==> LoggedWith(s', c.call, c.result)
  {
    assert s'.log[|s.log|] == c;
    forall call: nat | Logged(s, call) ensures Logged(s', call) {
      var i :| 0 <= i < |s.log| && s.log[i].ByCall? && s.log[i].call == call;
      assert s'.log[i] == s.log[i];
    }
    forall call: nat, t: T | LoggedWith(s, call, t) ensures LoggedWith(s', call, t) {
      var i :| 0 <= i < |s.log| && s.log[i].ByCall? && s.log[i].call == call && s.log[i].result == t;
      assert s'.log[i] == s.log[i];
    }
  }

  predicate WritesNow<O, T>(s: State<O, T>, call: nat, o: SaveOutcome)
    requires CanFinish(s, call)
  {
    Load(s.stored) == Ok(s.flights[call].seen) && o != NotSaved
  }

  function CommittedBy<O, T>(s: State<O, T>, call: nat): Committed<O, T>
    requires CanFinish(s, call)
  {
    ByCall(call, s.flights[call].op, s.flights[call].ran.value.result)
  }

  // What the second half of `mutate` does to the whole state.
  ghost predicate Finished<O, T>(s: State<O, T>, s': State<O, T>, call: nat, o: SaveOutcome)
    requires CanFinish(s, call)
  {
    && s'.flights == s.flights - {call} && s'.begun == s.begun && s'.runs == s.runs
    && s'.done.Keys == s.done.Keys + {call} && (forall c | c in s.done && c != call :: s'.done[c] == s.done[c])
    && (WritesNow(s, call, o) ==>
          && s'.log == s.log + [CommittedBy(s, call)] && s'.stored == Held(s.flights[call].ran.value.after)
          && (s'.done[call] == Replied(CommittedBy(s, call).result) || s'.done[call] == Failed(WriteRaised)))
    && (!WritesNow(s, call, o) ==>
         s'.log == s.log && s'.stored == s.stored && s'.done[call].Failed?)
  }

  lemma FinishShape<O, T>(s: State<O, T>, call: nat, o: SaveOutcome)
    requires CanFinish(s, call)
    ensures Finished(s, DoFinish(s, call, o), call, o)
  {}

  lemma FinishInv<O, T>(run: (O, Audio) -> Callback<T>, a: Audio, s: State<O, T>, call: nat, o: SaveOutcome)
    requires Inv(run, a, s)
    ensures Inv(run, a, DoFinish(s, call, o))
  {
    if CanFinish(s, call) {
      FinishShape(s, call, o);
      FinishInvFrom(run, a, s, call, o, DoFinish(s, call, o));
    }
  }

  lemma FinishInvFrom<O, T>(run: (O, Audio) -> Callback<T>, a: Audio, s: State<O, T>, call: nat, o: SaveOutcome,
                            s': State<O, T>)
    requires Inv(run, a, s) && CanFinish(s, call) && Finished(s, s', call, o)
    ensures Inv(run, a, s')
  {
    assert FlightInv(run, s, call) && CallInv(s, call);
    if WritesNow(s, call, o) {
      FileAppend(run, a, s, s', CommittedBy(s, call));
      LogGrows(s, s', CommittedBy(s, call));
      forall i | 0 <= i < |s.log| && s.log[i].ByCall? ensures s.log[i].call != call { assert !Logged(s, call); }
    }
    forall c: nat ensures FlightInv(run, s', c) && CallInv(s', c) {
      assert FlightInv(run, s, c) && CallInv(s, c);
      if !WritesNow(s, call, o) {
        assert Logged(s', c) <==> Logged(s, c);
      }
    }
  }

  lemma SaveLegacyInv<O, T>(run: (O, Audio) -> Callback<T>, a: Audio, s: State<O, T>, data: Audio, o: SaveOutcome)
    requires Inv(run, a, s)
    ensures Inv(run, a, DoSaveLegacy(s, data, o))
  {
    var s' := DoSaveLegacy(s, data, o);
    if s'.log != s.log {
      FileAppend(run, a, s, s', ByLegacy(data));
      LogGrows(s, s', ByLegacy(data));
    }
    forall c: nat ensures FlightInv(run, s', c) && CallInv(s', c) {
      assert FlightInv(run, s, c) && CallInv(s, c);
    }
  }

  lemma StepInv<O, T>(run: (O, Audio) -> Callback<T>, a: Audio, s: State<O, T>, action: Action<O>)
    requires Inv(run, a, s)
    ensures Inv(run, a, Apply(run, s, action))
  {
    match action
    case Begin(call, op) => BeginInv(run, a, s, call, op);
    case RunCallback(call) => RunCallbackInv(run, a, s, call);
    case Finish(call, o) => FinishInv(run, a, s, call, o);
    case SaveLegacy(data, o) => SaveLegacyInv(run, a, s, data, o);
    case Die(call) =>
      var s' := Apply(run, s, action);
      forall c: nat ensures FlightInv(run, s', c) && CallInv(s', c) {
        assert FlightInv(run, s, c) && CallInv(s, c);
      }
  }

  lemma {:induction false} ExecInv<O, T>(run: (O, Audio) -> Callback<T>, stored: Stored, actions: seq<Action<O>>)
    requires Load(stored).Ok?
    ensures Inv(run, Load(stored).value, Exec(run, Init(stored), actions))
    decreases |actions|
  {
    if actions != [] {
      ExecInv(run, stored, actions[..|actions| - 1]);
      StepInv(run, Load(stored).value, Exec(run, Init(stored), actions[..|actions| - 1]), actions[|actions| - 1]);
    }
  }

  /******* theorems over every interleaving *******/

  // The stored state is the committed operations performed one after another, in commit order, on the state the
  // file began with; every committed call got the answer it gets there; and no call commits twice.
  lemma Linearizable<O, T>(run: (O, Audio) -> Callback<T>, stored: Stored, actions: seq<Action<O>>, i: nat, j: nat)
    requires Load(stored).Ok?
    ensures var s := Exec(run, Init(stored), actions);
            && Load(s.stored) == Ok(Replay(run, Load(stored).value, s.log))
            && (i < |s.log| ==> Answers(run, Load(stored).value, s.log, i))
            && (i < j < |s.log| && s.log[i].ByCall? && s.log[j].ByCall? ==> s.log[i].call != s.log[j].call)
  {
    ExecInv(run, stored, actions);
  }

  // A callback runs at most once per call. A call that is answered is in the log with that answer; a call
  // that meets a conflict has run its callback once and is not in the log.
  lemma CallsAccounted<O, T>(run: (O, Audio) -> Callback<T>, stored: Stored, actions: seq<Action<O>>, call: nat)
    requires Load(stored).Ok?
    ensures var s := Exec(run, Init(stored), actions);
            && s.runs[call] <= 1
            && (call in s.done && s.done[call].Replied? ==> LoggedWith(s, call, s.done[call].result))
            && (call in s.done && s.done[call] == Failed(VersionConflict) ==> s.runs[call] == 1 && !Logged(s, call))
  {
    ExecInv(run, stored, actions);
    assert CallInv(Exec(run, Init(stored), actions), call);
  }

  // The step that answers with a conflict changes nothing on file, and happens exactly when the file no longer
  // holds what the call first loaded.
  lemma ConflictExactly<O, T>(run: (O, Audio) -> Callback<T>, stored: Stored, actions: seq<Action<O>>, call: nat, o: SaveOutcome)
    requires Load(stored).Ok?
    requires CanFinish(Exec(run, Init(stored), actions), call)
    ensures var s := Exec(run, Init(stored), actions);
            var s' := Apply(run, s, Finish(call, o));
            && (s'.done[call] == Failed(VersionConflict) <==>
                  Replay(run, Load(stored).value, s.log) != s.flights[call].seen)
            && (s'.done[call] == Failed(VersionConflict) ==> s'.stored == s.stored && s'.log == s.log)
  {
    ExecInv(run, stored, actions);
  }

  // A `mutate` that nobody comes in between of: what its callback leaves is stored and what it returns is the answer,
  // as far as the write commits and returns; a callback that raises changes nothing; on a corrupt file it never runs.
  lemma MutateAlone<O, T>(run: (O, Audio) -> Callback<T>, s: State<O, T>, call: nat, op: O, o: SaveOutcome)
    requires call !in s.begun && call !in s.flights && s.runs[call] == 0
    ensures var s' := DoFinish(DoRunCallback(run, DoBegin(s, call, op), call), call, o);
            call !in s'.flights && call in s'.done &&
            match Load(s.stored)
            case Err(e) => s'.stored == s.stored && s'.runs[call] == 0 && s'.done[call] == Failed(e) && s'.log == s.log
            case Ok(a) =>
              && s'.runs[call] == 1
              && match run(op, a)
                 case Raised => s'.stored == s.stored && s'.done[call] == Failed(CallbackRaised) && s'.log == s.log
                 case Returned(after, result) =>
                   && s'.stored == (if o == NotSaved then s.stored else Held(after))
                   && s'.done[call] == (if o == Saved then Replied(result) else Failed(WriteRaised))
                   && s'.log == s.log + if o == NotSaved then [] else [ByCall(call, op, result)]
  {}

  // A corrupt file is never written by a legacy save or a `mutate`.
  lemma {:induction false} CorruptStays<O, T>(run: (O, Audio) -> Callback<T>, actions: seq<Action<O>>)
    ensures var s := Exec(run, Init<O, T>(Corrupt), actions);
            s.stored == Corrupt && s.flights == map[] && s.log == [] && s.runs == multiset{}
    decreases |actions|
  {
    if actions != [] { CorruptStays(run, actions[..|actions| - 1]); }
  }
}
