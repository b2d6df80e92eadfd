/** What every run of the review protocol keeps. */
module ReviewSafety {
  import opened Wrappers
  import opened GenerationJob
  import opened ReviewProtocol

  lemma {:induction false} ExecInv(s: State, actions: seq<Action>)
    requires Inv(s)
    ensures Inv(Exec(s, actions))
    decreases |actions|
  {
    if actions != [] {
      var front := actions[..|actions| - 1];
      ExecInv(s, front);
      StepInv(Exec(s, front), actions[|actions| - 1]);
    }
  }

  lemma ReachableInv(s: State)
    requires Reachable(s)
    ensures Inv(s)
  {
    var hooks, guarded, actions :| s == Exec(Init(hooks, guarded), actions);
    InitInv(hooks, guarded);
    ExecInv(Init(hooks, guarded), actions);
  }

  /******* at most one review decision takes effect *******/

  // The chapter-writing body of accept runs at most once, and at most one claim or rejection is ever saved.
  lemma AtMostOneDecision(s: State)
    requires Reachable(s)
    ensures s.entered <= 1 && s.claims + s.rejections <= 1 && s.entered <= s.claims
    ensures DurableDecision(s.durable) == ByAccept ==> s.claims == 1
    ensures DurableDecision(s.durable) == ByReject ==> s.rejections == 1
  {
    ReachableInv(s);
  }

  // A stored ACCEPTED means that the body of accept ran once and to its end; a stored ACCEPTANCE_UNCERTAIN that it was
  // entered; a claim or a rejection that a completion had been stored.
  lemma DecisionMeansWhatItSays(s: State)
    requires Reachable(s) && s.durable.Some?
    ensures s.durable.value.status == Accepted ==> s.entered == 1 && s.succeeded
    ensures s.durable.value.status == AcceptanceUncertain ==> s.entered == 1
    ensures s.durable.value.status in {Accepting, Accepted, AcceptanceUncertain, Rejected, Completed} ==> s.published
    ensures s.succeeded ==> s.entered == 1
  {
    ReachableInv(s);
  }

  // However a run goes on: no accept body after a saved rejection, none after a first one, no rejection after one.
  lemma DecisionsNeverMix(s: State, later: seq<Action>)
    requires Reachable(s)
    ensures DurableDecision(s.durable) == ByReject ==> Exec(s, later).entered == 0
    ensures s.entered == 1 ==> Exec(s, later).entered == 1 && DurableDecision(Exec(s, later).durable) != ByReject
    ensures DurableDecision(s.durable) != Undecided ==> !IsCompleted(Exec(s, later).durable)
  {
    ReachableInv(s);
    ExecInv(s, later);
  }

  /******* when a saved decision can be overwritten *******/

  predicate StaleCancel(s: State, a: Action) {
    a.Cancel? && CancelEnabled(s, a.m) && Executing(s.mem[a.m].status) && a.o != NotSaved
  }

  predicate Decided(s: State) {
    DurableDecision(s.durable) != Undecided
  }

  predicate SameDecision(s: State, s': State) {
    DurableDecision(s'.durable) == DurableDecision(s.durable)
  }

  lemma WorkerKeepsDecision(s: State, a: Action)
    requires Inv(s) && OfWorker(a) && Decided(s)
    ensures Apply(s, a).durable == s.durable
  {
    assert !PublishingNow(s);
    assert s.worker == AtHook(false) || s.worker.Finished?;
    if a.FinalHook? && s.worker.AtHook? && OwnerReady(s, s.worker) {
      HookShape(LocalOf(s, s.owner.value), a.e, false);
    }
  }

  lemma LoadingKeepsDecision(s: State, m: Manager, o: SaveOutcome)
    requires Inv(s) && Decided(s)
    ensures SameDecision(s, DoSnapshot(s, m)) && SameDecision(s, DoLoadDecided(s, m))
    ensures SameDecision(s, DoRecoverRead(s, m)) && SameDecision(s, DoRecoverWrite(s, o))
  {}

  lemma AcceptKeepsDecision(s: State, o: SaveOutcome, ok: bool)
    requires GlobalInv(s) && Decided(s)
    ensures SameDecision(s, DoAcceptPersistClaim(s, o)) && SameDecision(s, DoAcceptPersistDone(s, o, ok))
    ensures SameDecision(s, DoAcceptPersistUncertain(s, o))
  {}

  lemma OthersKeepDecision(s: State, a: Action)
    requires GlobalInv(s) && Decided(s)
    requires a.RequestCancel? || a.AcceptBegin? || a.AcceptEffects? || a.RejectBegin? || a.RejectPersist? || a.Crash?
    ensures SameDecision(s, Apply(s, a))
  {}

  lemma ReviewKeepsDecision(s: State, a: Action)
    requires Inv(s) && !OfWorker(a) && !a.Cancel? && Decided(s)
    ensures SameDecision(s, Apply(s, a))
  {
    match a
    case Snapshot(m) => LoadingKeepsDecision(s, m, Saved);
    case LoadDecided(m) => LoadingKeepsDecision(s, m, Saved);
    case RecoverRead(m) => LoadingKeepsDecision(s, m, Saved);
    case RecoverWrite(o) => LoadingKeepsDecision(s, 0, o);
    case AcceptPersistClaim(o) => AcceptKeepsDecision(s, o, true);
    case AcceptPersistDone(o, tailOk) => AcceptKeepsDecision(s, o, tailOk);
    case AcceptPersistUncertain(o) => AcceptKeepsDecision(s, o, true);
    case _ => OthersKeepDecision(s, a);
  }

  lemma CancelOverwrites(s: State, m: Manager, o: SaveOutcome)
    requires Inv(s) && Decided(s)
    ensures !SameDecision(s, DoCancel(s, m, o)) <==> StaleCancel(s, Cancel(m, o))
    ensures StaleCancel(s, Cancel(m, o)) ==> s.owner != Some(m)
  {}

  // A saved decision changes in a step exactly when a manager other than the worker's own
  // cancels from a copy that still reads as executing.
  lemma DecisionOverwrittenExactly(s: State, a: Action)
    requires Inv(s) && Decided(s)
    ensures !SameDecision(s, Apply(s, a)) <==> StaleCancel(s, a)
    ensures StaleCancel(s, a) ==> s.owner != Some(a.m)
  {
    if OfWorker(a) {
      WorkerKeepsDecision(s, a);
    } else if a.Cancel? {
      CancelOverwrites(s, a.m, a.o);
    } else {
      ReviewKeepsDecision(s, a);
    }
  }

  lemma ReachStep(s: State, a: Action)
    requires Reachable(s)
    ensures Reachable(Apply(s, a))
  {
    var hooks, guarded, actions :| s == Exec(Init(hooks, guarded), actions);
    assert (actions + [a])[..|actions|] == actions;
    assert Apply(s, a) == Exec(Init(hooks, guarded), actions + [a]);
  }

  const COPY := Mem(Queued, false, Unreported, NoError, false, false, false)

  // Manager 1 runs the job in status `one`; manager 2, if it has started, holds the copy `two`.
  function Beside(one: Status, two: Option<Mem>, durable: Status, w: Worker, section: Option<Section>): State {
    State(false, false, Some(Public(COPY.(status := durable))),
          if two.None? then map[1 := COPY.(status := one)] else map[1 := COPY.(status := one), 2 := two.value],
          map[], Some(1), w, section, 0, false, 0, 0, 0, false, durable == Completed)
  }

  // Manager 2 starts while manager 1's worker runs, marks the job failed, and refreshes its copy from
  // the worker's next write while refusing an accept. The worker publishes and manager 1 accepts.
  function Scenario(k: nat): State {
    var failed, stale := Some(COPY.(status := Failed)), Some(COPY.(status := Generating));
    match k
    case 0 => Init(false, false)
    case 1 => Beside(Queued, None, Queued, AtBegin, None)
    case 2 => Beside(Queued, None, Queued, AtBegin, None).(snaps := map[2 := Public(COPY)])
    case 3 => Beside(Queued, None, Queued, AtBegin, Some(Section(2, Restore(Public(COPY)))))
    case 4 => Beside(Queued, failed, Failed, AtBegin, None)
    case 5 => Beside(Generating, failed, Generating, AtRoutes, None)
    case 6 => Beside(Generating, stale, Generating, AtRoutes, None)
    case 7 => Beside(Generating, stale, Generating, AtPublish, None)
    case 8 => Beside(Completed, stale, Generating, Publishing, Some(Section(1, Publish(HookStage))))
    case 9 => Beside(Completed, stale, Generating, Publishing, Some(Section(1, Publish(CloseStage))))
    case 10 => Beside(Completed, stale, Completed, AtHook(false), None)
    case 11 => Beside(Completed, stale, Completed, AtHook(false), Some(Section(1, Claim)))
    case 12 => Beside(Accepting, stale, Accepting, AtHook(false), Some(Section(1, Effects))).(claims := 1, published := true)
    case 13 => Beside(Accepting, stale, Accepting, AtHook(false), Some(Section(1, Finish))).(claims := 1, entered := 1, succeeded := true, published := true)
    case _ => Beside(Accepting, Some(stale.value.(cancelled := true)), Accepting, AtHook(false), Some(Section(1, Finish))).(
                claims := 1, entered := 1, succeeded := true, published := true)
  }

  function ScenarioAction(k: nat): Action {
    match k
    case 0 => Start(1, true, Saved)
    case 1 => Snapshot(2)
    case 2 => RecoverRead(2)
    case 3 => RecoverWrite(Saved)
    case 4 => Begin(Saved)
    case 5 => AcceptBegin(2, true, true)
    case 6 => RouteDone
    case 7 => OpenPublication(false, Saved)
    case 8 => PublicationHook(HookEnv(false, false, Saved, false))
    case 9 => ClosePublication(false, Saved)
    case 10 => AcceptBegin(1, true, true)
    case 11 => AcceptPersistClaim(Saved)
    case 12 => AcceptEffects(true)
    case _ => RequestCancel(2)
  }

  lemma ScenarioStarts()
    ensures Apply(Scenario(0), ScenarioAction(0)) == Scenario(1)
    ensures Apply(Scenario(1), ScenarioAction(1)) == Scenario(2)
  {}

  lemma ScenarioReadsForRecovery()
    ensures Apply(Scenario(2), ScenarioAction(2)) == Scenario(3)
  {}

  lemma ScenarioRecovers()
    ensures Apply(Scenario(3), ScenarioAction(3)) == Scenario(4)
  {}

  lemma ScenarioRuns()
    ensures Apply(Scenario(4), ScenarioAction(4)) == Scenario(5)
  {}

  lemma ScenarioGoesStale()
    ensures Apply(Scenario(5), ScenarioAction(5)) == Scenario(6)
  {}

  lemma ScenarioRouteDone()
    ensures Apply(Scenario(6), ScenarioAction(6)) == Scenario(7)
  {}

  lemma ScenarioOpens()
    ensures Apply(Scenario(7), ScenarioAction(7)) == Scenario(8)
  {}

  lemma ScenarioRunsHook()
    ensures Apply(Scenario(8), ScenarioAction(8)) == Scenario(9)
  {}

  lemma ScenarioPublishes()
    ensures Apply(Scenario(9), ScenarioAction(9)) == Scenario(10)
  {}

  lemma ScenarioReadsForAccept()
    ensures Apply(Scenario(10), ScenarioAction(10)) == Scenario(11)
  {}

  lemma ScenarioClaims()
    ensures Apply(Scenario(11), ScenarioAction(11)) == Scenario(12)
  {}

  lemma ScenarioAccepts()
    ensures Apply(Scenario(12), ScenarioAction(12)) == Scenario(13)
  {}

  lemma ScenarioAsksToCancel()
    ensures Apply(Scenario(13), ScenarioAction(13)) == Scenario(14)
  {}

  lemma {:induction false} ScenarioReached(k: nat)
    requires k <= 14
    ensures Reachable(Scenario(k))
  {
    if k == 0 {
      assert Scenario(0) == Exec(Init(false, false), []);
    } else {
      ScenarioReached(k - 1);
      ReachStep(Scenario(k - 1), ScenarioAction(k - 1));
      ScenarioStarts(); ScenarioReadsForRecovery(); ScenarioRecovers(); ScenarioRuns(); ScenarioGoesStale(); ScenarioRouteDone(); ScenarioOpens();
      ScenarioRunsHook(); ScenarioPublishes(); ScenarioReadsForAccept(); ScenarioClaims(); ScenarioAccepts();
      ScenarioAsksToCancel();
    }
  }

  // The overwriting step exists: with the chapter already written, the stale copy's cancel is saved over the claim.
  lemma DecisionCanBeOverwritten() returns (s: State, a: Action)
    ensures Reachable(s) && s.entered == 1 && DurableDecision(s.durable) == ByAccept
    ensures StaleCancel(s, a) && Apply(s, a).durable.Some? && Apply(s, a).durable.value.status == Cancelled
  {
    ScenarioReached(14);
    s, a := Scenario(14), Cancel(2, Saved);
    ScenarioOverwrites(s);
  }

  lemma ScenarioOverwrites(s: State)
    requires s == Scenario(14)
    ensures s.entered == 1 && DurableDecision(s.durable) == ByAccept
    ensures StaleCancel(s, Cancel(2, Saved)) && Apply(s, Cancel(2, Saved)).durable.Some?
    ensures Apply(s, Cancel(2, Saved)).durable.value.status == Cancelled
  {}

  /******* when no manager is built beside a running worker, decisions are permanent *******/

  // Every listing of the store by a starting manager happens before the job starts or after its worker has ended.
  predicate LoadsWait(s: State, actions: seq<Action>) {
    forall i | 0 <= i < |actions| && actions[i].Snapshot? :: WorkerIdle(Exec(s, actions[..i]))
  }

  predicate WorkerIdle(s: State) {
    s.worker.Finished? || s.worker.NotStarted?
  }

  predicate NoStaleCopies(s: State) {
    && (!WorkerIdle(s) ==> s.snaps == map[] && (forall m | m in s.mem :: s.owner == Some(m))
                           && (s.section.Some? ==> s.owner == Some(s.section.value.manager)))
    && (forall m | m in s.mem && s.owner != Some(m) ::
          Terminal(s.mem[m].status) && s.durable.Some? && Terminal(s.durable.value.status))
    && (forall m | m in s.snaps && Terminal(s.snaps[m].status) :: s.durable.Some? && Terminal(s.durable.value.status))
  }

  // A write to `m`'s copy or to the record that keeps copies fresh.
  lemma KeepsFresh(s: State, s': State, m: Manager)
    requires NoStaleCopies(s) && m in s.mem
    requires s'.owner == s.owner && s'.worker == s.worker && s'.snaps == s.snaps
    requires s'.mem.Keys == s.mem.Keys && s'.mem == s.mem[m := s'.mem[m]]
    requires s'.durable == s.durable || (s'.durable.Some? && Terminal(s'.durable.value.status))
    requires s.owner != Some(m) ==> Terminal(s'.mem[m].status)
    requires s'.section.None? || s'.section.value.manager == m || s'.section == s.section
    ensures NoStaleCopies(s')
  {}

  lemma RunStepKeepsCopiesFresh(s: State, a: Action)
    requires GlobalInv(s) && NoStaleCopies(s)
    requires a.Start? || a.Begin? || a.Delta? || a.RouteFails? || a.RouteDone? || a.Handle?
    ensures NoStaleCopies(Apply(s, a))
  {}

  // A step of a running worker that moves only its own manager's copy.
  lemma OwnerStepKeepsFresh(s: State, s': State)
    requires NoStaleCopies(s) && !WorkerIdle(s) && s.owner.Some? && s'.owner == s.owner && s'.snaps == s.snaps
    requires s'.mem.Keys == s.mem.Keys && (s'.section.Some? ==> s.owner == Some(s'.section.value.manager))
    ensures NoStaleCopies(s')
  {}

  lemma PublishKeepsFresh(s: State, w: Manager, l: Local, next: PublishNext, section: Section, s': State)
    requires NoStaleCopies(s) && !WorkerIdle(s) && s.owner == Some(w) && w in s.mem && section.manager == w
    requires s' == AfterPublish(With(s, w, l).(section := Some(section), worker := Publishing), next)
    ensures NoStaleCopies(s')
  {
    OwnerStepKeepsFresh(s, s');
  }

  lemma OpenStepKeepsCopiesFresh(s: State, refused: bool, o: SaveOutcome)
    requires GlobalInv(s) && NoStaleCopies(s)
    ensures NoStaleCopies(DoOpenPublication(s, refused, o))
  {
    if OwnerReady(s, AtPublish) && s.section.None? {
      var w := s.owner.value;
      var r := PublishOpen(LocalOf(s, w), s.guarded, refused, o);
      PublishKeepsFresh(s, w, r.0, r.1, Section(w, Publish(HookStage)), DoOpenPublication(s, refused, o));
    }
  }

  lemma HookStepsKeepCopiesFresh(s: State, e: HookEnv, o: SaveOutcome)
    requires GlobalInv(s) && NoStaleCopies(s)
    ensures NoStaleCopies(DoPublicationHook(s, e)) && NoStaleCopies(DoPublicationHookSave(s, o))
  {
    if InSection(s, Publish(HookStage)) { OwnerStepKeepsFresh(s, DoPublicationHook(s, e)); }
    if InSection(s, Publish(HookSaveStage)) { OwnerStepKeepsFresh(s, DoPublicationHookSave(s, o)); }
  }

  lemma CloseStepKeepsCopiesFresh(s: State, refused: bool, o: SaveOutcome)
    requires GlobalInv(s) && NoStaleCopies(s)
    ensures NoStaleCopies(DoClosePublication(s, refused, o))
  {
    if InSection(s, Publish(CloseStage)) {
      var w := s.section.value.manager;
      var r := PublishClose(LocalOf(s, w), s.guarded, refused, o);
      PublishKeepsFresh(s, w, r.0, r.1, s.section.value, DoClosePublication(s, refused, o));
    }
  }

  lemma MarkStepKeepsCopiesFresh(s: State, o: SaveOutcome)
    requires GlobalInv(s) && NoStaleCopies(s)
    ensures NoStaleCopies(DoMarkPublicationUncertain(s, o))
  {}

  lemma PublishStepKeepsCopiesFresh(s: State, a: Action)
    requires GlobalInv(s) && NoStaleCopies(s)
    requires a.OpenPublication? || a.PublicationHook? || a.PublicationHookSave? || a.ClosePublication? || a.MarkPublicationUncertain?
    ensures NoStaleCopies(Apply(s, a))
  {
    match a
    case OpenPublication(refused, o) => OpenStepKeepsCopiesFresh(s, refused, o);
    case PublicationHook(e) => HookStepsKeepCopiesFresh(s, e, Saved);
    case PublicationHookSave(o) => HookStepsKeepCopiesFresh(s, HookEnv(false, false, Saved, false), o);
    case ClosePublication(refused, o) => CloseStepKeepsCopiesFresh(s, refused, o);
    case MarkPublicationUncertain(o) => MarkStepKeepsCopiesFresh(s, o);
    case _ =>
  }

  lemma FinalStepKeepsCopiesFresh(s: State, a: Action)
    requires GlobalInv(s) && NoStaleCopies(s)
    requires a.FinalHook? || a.FinalHookSave? || a.StartFailureSave?
    ensures NoStaleCopies(Apply(s, a))
  {}

  lemma WorkerStepKeepsCopiesFresh(s: State, a: Action)
    requires GlobalInv(s) && NoStaleCopies(s) && OfWorker(a)
    ensures NoStaleCopies(Apply(s, a))
  {
    if a.FinalHook? || a.FinalHookSave? || a.StartFailureSave? { FinalStepKeepsCopiesFresh(s, a); }
    else if a.Start? || a.Begin? || a.Delta? || a.RouteFails? || a.RouteDone? || a.Handle? { RunStepKeepsCopiesFresh(s, a); }
    else { PublishStepKeepsCopiesFresh(s, a); }
  }

  lemma SnapshotKeepsCopiesFresh(s: State, m: Manager)
    requires GlobalInv(s) && NoStaleCopies(s) && WorkerIdle(s)
    ensures NoStaleCopies(DoSnapshot(s, m))
  {}

  lemma RecoveryKeepsCopiesFresh(s: State, o: SaveOutcome)
    requires GlobalInv(s) && NoStaleCopies(s)
    ensures NoStaleCopies(DoRecoverWrite(s, o))
  {}

  lemma LoadKeepsCopiesFresh(s: State, m: Manager)
    requires GlobalInv(s) && NoStaleCopies(s)
    ensures NoStaleCopies(DoLoadDecided(s, m))
  {}

  // What taking over a listed record changes.
  predicate TakesOver(s: State, m: Manager, s': State) {
    && m in s.snaps && Unknown(s, m) && s'.snaps == s.snaps - {m} && s'.durable == s.durable
    && s'.owner == s.owner && s'.worker == s.worker
    && (s'.mem == s.mem || (m in s'.mem && s'.mem == s.mem[m := s'.mem[m]] && Terminal(s'.mem[m].status)
                            && s.durable.Some? && Terminal(s.durable.value.status)))
  }

  lemma ListedKeepsFresh(s: State, m: Manager, s': State)
    requires NoStaleCopies(s) && TakesOver(s, m, s')
    ensures NoStaleCopies(s')
  {
    assert WorkerIdle(s);
  }

  lemma ReadTakesOver(s: State, m: Manager)
    ensures var s' := DoRecoverRead(s, m);
            s' == s || TakesOver(s, m, s')
  {}

  lemma ReadKeepsCopiesFresh(s: State, m: Manager)
    requires NoStaleCopies(s)
    ensures NoStaleCopies(DoRecoverRead(s, m))
  {
    var s' := DoRecoverRead(s, m);
    ReadTakesOver(s, m);
    if s' != s { ListedKeepsFresh(s, m, s'); }
  }

  lemma CancelKeepsCopiesFresh(s: State, m: Manager, o: SaveOutcome)
    requires GlobalInv(s) && NoStaleCopies(s)
    ensures NoStaleCopies(DoCancel(s, m, o))
  {
    if CancelEnabled(s, m) {
      CancelShape(LocalOf(s, m), o);
      KeepsFresh(s, DoCancel(s, m, o), m);
    }
  }

  lemma RequestKeepsCopiesFresh(s: State, m: Manager)
    requires GlobalInv(s) && NoStaleCopies(s)
    ensures NoStaleCopies(DoRequestCancel(s, m))
  {}

  lemma CrashKeepsCopiesFresh(s: State, m: Manager)
    requires GlobalInv(s) && NoStaleCopies(s)
    ensures NoStaleCopies(DoCrash(s, m))
  {}

  lemma AcceptBeginKeepsCopiesFresh(s: State, m: Manager, available: bool, current: bool)
    requires GlobalInv(s) && NoStaleCopies(s)
    ensures NoStaleCopies(DoAcceptBegin(s, m, available, current))
  {
    if m in s.mem && s.section.None? && ConditionFree(s, m) {
      AcceptReadShape(LocalOf(s, m), available, current);
      KeepsFresh(s, DoAcceptBegin(s, m, available, current), m);
    }
  }

  // The writes made under the review lock by accept and reject all leave a decided copy and record.
  lemma ReviewWriteKeepsCopiesFresh(s: State, l': Local, section: Option<Section>, s': State)
    requires NoStaleCopies(s) && s.section.Some? && s.section.value.manager in s.mem
    requires Terminal(l'.mem.status) && (l'.durable == s.durable || (l'.durable.Some? && Terminal(l'.durable.value.status)))
    requires section.None? || section.value.manager == s.section.value.manager
    requires s' == With(s, s.section.value.manager, l').(section := section, claims := s'.claims, rejections := s'.rejections)
    ensures NoStaleCopies(s')
  {
    KeepsFresh(s, s', s.section.value.manager);
  }

  lemma ClaimKeepsCopiesFresh(s: State, o: SaveOutcome)
    requires NoStaleCopies(s)
    ensures NoStaleCopies(DoAcceptPersistClaim(s, o))
  {
    if InSection(s, Claim) {
      var s' := DoAcceptPersistClaim(s, o);
      ReviewWriteKeepsCopiesFresh(s, AcceptClaim(LocalOf(s, s.section.value.manager), o), s'.section, s');
    }
  }

  lemma DoneKeepsCopiesFresh(s: State, o: SaveOutcome, ok: bool)
    requires NoStaleCopies(s)
    ensures NoStaleCopies(DoAcceptPersistDone(s, o, ok))
  {
    if InSection(s, Finish) {
      var s' := DoAcceptPersistDone(s, o, ok);
      ReviewWriteKeepsCopiesFresh(s, AcceptFinish(LocalOf(s, s.section.value.manager), o), s'.section, s');
    }
  }

  lemma UncertainKeepsCopiesFresh(s: State, o: SaveOutcome)
    requires NoStaleCopies(s)
    ensures NoStaleCopies(DoAcceptPersistUncertain(s, o))
  {
    if InSection(s, MarkUncertain) {
      var l' := AcceptUncertain(LocalOf(s, s.section.value.manager), o);
      ReviewWriteKeepsCopiesFresh(s, l', None, DoAcceptPersistUncertain(s, o));
    }
  }

  lemma RejectKeepsCopiesFresh(s: State, o: SaveOutcome)
    requires NoStaleCopies(s)
    ensures NoStaleCopies(DoRejectPersist(s, o))
  {
    if InSection(s, WriteReject) {
      ReviewWriteKeepsCopiesFresh(s, RejectWrite(LocalOf(s, s.section.value.manager), o), None, DoRejectPersist(s, o));
    }
  }

  // Taking the lock by a manager with a copy, or handing it on within a manager.
  predicate OnlyLocks(s: State, s': State) {
    && s' == s.(section := s'.section, entered := s'.entered, succeeded := s'.succeeded)
    && (s'.section.Some? ==> var m := s'.section.value.manager; m in s.mem || (s.section.Some? && m == s.section.value.manager))
  }

  lemma SectionKeepsFresh(s: State, s': State)
    requires NoStaleCopies(s) && OnlyLocks(s, s')
    ensures NoStaleCopies(s')
  {}

  lemma EffectsOnlyLock(s: State, ok: bool)
    ensures OnlyLocks(s, DoAcceptEffects(s, ok))
  {}

  lemma RejectBeginOnlyLocks(s: State, m: Manager, available: bool)
    ensures OnlyLocks(s, DoRejectBegin(s, m, available))
  {}

  lemma LockKeepsCopiesFresh(s: State, m: Manager, ok: bool, available: bool)
    requires NoStaleCopies(s)
    ensures NoStaleCopies(DoAcceptEffects(s, ok)) && NoStaleCopies(DoRejectBegin(s, m, available))
  {
    EffectsOnlyLock(s, ok);
    RejectBeginOnlyLocks(s, m, available);
    SectionKeepsFresh(s, DoAcceptEffects(s, ok));
    SectionKeepsFresh(s, DoRejectBegin(s, m, available));
  }

  lemma AcceptStepKeepsCopiesFresh(s: State, a: Action)
    requires NoStaleCopies(s) && (a.AcceptPersistClaim? || a.AcceptPersistDone? || a.AcceptPersistUncertain?)
    ensures NoStaleCopies(Apply(s, a))
  {
    match a
    case AcceptPersistClaim(o) => ClaimKeepsCopiesFresh(s, o);
    case AcceptPersistDone(o, ok) => DoneKeepsCopiesFresh(s, o, ok);
    case AcceptPersistUncertain(o) => UncertainKeepsCopiesFresh(s, o);
    case _ =>
  }

  lemma LoadStepKeepsCopiesFresh(s: State, a: Action)
    requires GlobalInv(s) && NoStaleCopies(s) && (a.Snapshot? ==> WorkerIdle(s))
    requires a.Snapshot? || a.LoadDecided? || a.RecoverRead? || a.RecoverWrite?
    ensures NoStaleCopies(Apply(s, a))
  {
    match a
    case Snapshot(m) => SnapshotKeepsCopiesFresh(s, m);
    case LoadDecided(m) => LoadKeepsCopiesFresh(s, m);
    case RecoverRead(m) => ReadKeepsCopiesFresh(s, m);
    case RecoverWrite(o) => RecoveryKeepsCopiesFresh(s, o);
    case _ =>
  }

  lemma ReviewStepKeepsCopiesFresh(s: State, a: Action)
    requires GlobalInv(s) && NoStaleCopies(s) && !OfWorker(a) && (a.Snapshot? ==> WorkerIdle(s))
    ensures NoStaleCopies(Apply(s, a))
  {
    match a
    case RequestCancel(m) => RequestKeepsCopiesFresh(s, m);
    case Cancel(m, o) => CancelKeepsCopiesFresh(s, m, o);
    case Crash(m) => CrashKeepsCopiesFresh(s, m);
    case AcceptBegin(m, available, current) => AcceptBeginKeepsCopiesFresh(s, m, available, current);
    case AcceptEffects(ok) => LockKeepsCopiesFresh(s, 0, ok, true);
    case RejectBegin(m, available) => LockKeepsCopiesFresh(s, m, true, available);
    case RejectPersist(o) => RejectKeepsCopiesFresh(s, o);
    case Snapshot(_) => LoadStepKeepsCopiesFresh(s, a);
    case LoadDecided(_) => LoadStepKeepsCopiesFresh(s, a);
    case RecoverRead(_) => LoadStepKeepsCopiesFresh(s, a);
    case RecoverWrite(_) => LoadStepKeepsCopiesFresh(s, a);
    case _ => AcceptStepKeepsCopiesFresh(s, a);
  }

  lemma {:induction false} CopiesStayFresh(s: State, actions: seq<Action>)
    requires Inv(s) && NoStaleCopies(s) && LoadsWait(s, actions)
    ensures Inv(Exec(s, actions)) && NoStaleCopies(Exec(s, actions))
    decreases |actions|
  {
    if actions != [] {
      var front, a := actions[..|actions| - 1], actions[|actions| - 1];
      forall i | 0 <= i < |front| && front[i].Snapshot? ensures WorkerIdle(Exec(s, front[..i])) {
        assert front[..i] == actions[..i];
      }
      CopiesStayFresh(s, front);
      StepInv(Exec(s, front), a);
      if OfWorker(a) { WorkerStepKeepsCopiesFresh(Exec(s, front), a); }
      else { ReviewStepKeepsCopiesFresh(Exec(s, front), a); }
    }
  }

  lemma FreshStepKeepsDecision(s: State, a: Action)
    requires Inv(s) && NoStaleCopies(s) && Decided(s)
    ensures SameDecision(s, Apply(s, a))
  {
    if OfWorker(a) {
      WorkerKeepsDecision(s, a);
    } else if a.Cancel? {
      CancelOverwrites(s, a.m, a.o);
    } else {
      ReviewKeepsDecision(s, a);
    }
  }

  // In every such run a saved decision is never replaced by anything else, whatever happens later.
  lemma {:induction false} DecisionPermanentWhenLoadsWait(s: State, later: seq<Action>)
    requires Inv(s) && NoStaleCopies(s) && LoadsWait(s, later) && Decided(s)
    ensures SameDecision(s, Exec(s, later))
    decreases |later|
  {
    if later != [] {
      var front, a := later[..|later| - 1], later[|later| - 1];
      forall i | 0 <= i < |front| && front[i].Snapshot? ensures WorkerIdle(Exec(s, front[..i])) {
        assert front[..i] == later[..i];
      }
      DecisionPermanentWhenLoadsWait(s, front);
      CopiesStayFresh(s, front);
      FreshStepKeepsDecision(Exec(s, front), a);
    }
  }

  lemma {:induction false} ExecSplit(s: State, first: seq<Action>, later: seq<Action>)
    ensures Exec(s, first + later) == Exec(Exec(s, first), later)
    decreases |later|
  {
    if later == [] {
      assert first + later == first;
    } else {
      assert (first + later)[..|first + later| - 1] == first + later[..|later| - 1];
      ExecSplit(s, first, later[..|later| - 1]);
    }
  }

  lemma LoadsWaitSplit(s: State, first: seq<Action>, later: seq<Action>)
    requires LoadsWait(s, first + later)
    ensures LoadsWait(s, first) && LoadsWait(Exec(s, first), later)
  {
    var all := first + later;
    forall i | 0 <= i < |first| && first[i].Snapshot? ensures WorkerIdle(Exec(s, first[..i])) {
      assert all[i] == first[i] && all[..i] == first[..i];
    }
    forall i | 0 <= i < |later| && later[i].Snapshot? ensures WorkerIdle(Exec(Exec(s, first), later[..i])) {
      assert all[|first| + i] == later[i] && all[..|first| + i] == first + later[..i];
      ExecSplit(s, first, later[..i]);
    }
  }

  // From the start of a job: in a run in which no manager lists the store beside a running worker, the decision held at
  // any point is the one held at the end.
  lemma DecisionPermanentFromStart(hooks: bool, guarded: bool, first: seq<Action>, later: seq<Action>)
    requires LoadsWait(Init(hooks, guarded), first + later)
    requires Decided(Exec(Init(hooks, guarded), first))
    ensures SameDecision(Exec(Init(hooks, guarded), first), Exec(Init(hooks, guarded), first + later))
  {
    var start := Init(hooks, guarded);
    InitInv(hooks, guarded);
    LoadsWaitSplit(start, first, later);
    CopiesStayFresh(start, first);
    DecisionPermanentWhenLoadsWait(Exec(start, first), later);
    ExecSplit(start, first, later);
  }

  /******* accounting *******/

  // The hook runs at most once, and a saved completion or decision of a job with hooks
  // always carries the result of a hook that ran and returned.
  lemma AccountedBeforeReview(s: State)
    requires Reachable(s)
    ensures s.hookRuns <= 1
    ensures s.durable.Some? && s.hooks && (IsCompleted(s.durable) || Decided(s)) ==>
              s.durable.value.hook == HookCompleted && s.hookRuns == 1 && s.hookOk
    ensures s.durable.Some? ==> s.durable.value.hooksRequired == s.hooks
  {
    ReachableInv(s);
  }

  // Recovery changes the store only by a record it read as executing, which it saves as failed; nothing completed or
  // decided is there to be overwritten, and once something was completed it does not even begin.
  lemma RecoveryRewritesOnlyExecuting(s: State, m: Manager, o: SaveOutcome)
    requires Reachable(s)
    ensures DoRecoverWrite(s, o).durable != s.durable ==>
              && s.section.Some? && s.section.value.stage.Restore? && Executing(s.section.value.stage.found.status)
              && DoRecoverWrite(s, o).durable == Some(Recovered(s.section.value.stage.found))
              && DoRecoverWrite(s, o).durable.value.status == Failed
              && !IsCompleted(s.durable) && !Decided(s)
    ensures s.published ==> DoRecoverRead(s, m).section == s.section && DoRecoverWrite(s, o) == s
    ensures IsCompleted(s.durable) || Decided(s) ==> s.published
  {
    ReachableInv(s);
  }

  // No completion was ever saved and the worker can no longer save one.
  predicate Lost(s: State) {
    !BeforePublication(s.worker) && !PublishingNow(s) && !s.published
  }

  lemma FinalHookStaysLost(s: State, e: HookEnv)
    requires Inv(s) && Lost(s)
    ensures Lost(DoFinalHook(s, e))
  {
    if s.worker.AtHook? && OwnerReady(s, s.worker) { HookShape(LocalOf(s, s.owner.value), e, false); }
  }

  lemma WorkerStepStaysLost(s: State, a: Action)
    requires Inv(s) && Lost(s) && OfWorker(a)
    ensures Lost(Apply(s, a))
  {
    if a.FinalHook? { FinalHookStaysLost(s, a.e); }
  }

  lemma LoadStaysLost(s: State, a: Action)
    requires Lost(s) && (a.Snapshot? || a.LoadDecided? || a.RecoverRead? || a.RecoverWrite? || a.Crash? || a.RequestCancel?)
    ensures Lost(Apply(s, a))
  {}

  lemma LockedStaysLost(s: State, a: Action)
    requires GlobalInv(s) && Lost(s)
    requires a.AcceptPersistClaim? || a.AcceptPersistDone? || a.AcceptPersistUncertain? || a.AcceptEffects? || a.RejectPersist?
    ensures Lost(Apply(s, a))
  {}

  lemma TakenUpStaysLost(s: State, a: Action)
    requires Inv(s) && Lost(s) && (a.AcceptBegin? || a.RejectBegin? || a.Cancel?)
    ensures Lost(Apply(s, a))
  {
    if a.AcceptBegin? && a.m in s.mem { AcceptReadShape(LocalOf(s, a.m), a.available, a.current); }
  }

  lemma ReviewStepStaysLost(s: State, a: Action)
    requires Inv(s) && Lost(s) && !OfWorker(a)
    ensures Lost(Apply(s, a))
  {
    if a.Snapshot? || a.LoadDecided? || a.RecoverRead? || a.RecoverWrite? || a.Crash? || a.RequestCancel? { LoadStaysLost(s, a); }
    else if a.AcceptBegin? || a.RejectBegin? || a.Cancel? { TakenUpStaysLost(s, a); }
    else { LockedStaysLost(s, a); }
  }

  lemma LostStays(s: State, a: Action)
    requires Inv(s) && Lost(s)
    ensures Lost(Apply(s, a))
  {
    if OfWorker(a) { WorkerStepStaysLost(s, a); } else { ReviewStepStaysLost(s, a); }
  }

  // A settlement interrupted by a restart is marked failed for good: no later step of any run accepts or rejects it.
  lemma {:induction false} InterruptedSettlementIsFinal(s: State, later: seq<Action>)
    requires Inv(s) && s.section.Some? && s.section.value.stage.Restore? && s.section.value.stage.found.status == Settling
    ensures Lost(Exec(s, later)) && Exec(s, later).claims == 0 && Exec(s, later).rejections == 0
    decreases |later|
  {
    ExecInv(s, later);
    if later != [] {
      var front := later[..|later| - 1];
      InterruptedSettlementIsFinal(s, front);
      ExecInv(s, front);
      LostStays(Exec(s, front), later[|later| - 1]);
    }
  }
}
