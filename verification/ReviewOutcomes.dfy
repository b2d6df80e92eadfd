/** What each call of the manager leaves in its copy and in the store, status by status. */
module ReviewOutcomes {
  import opened Wrappers
  import opened GenerationJob
  import opened JobManager
  import P = ReviewProtocol

  // The status in the store, if there is a record.
  predicate Stored(d: Option<Record>, s: Status) {
    d.Some? && d.value.status == s
  }

  // The accounting as it stands in the record, or in the copy where the record says nothing.
  predicate AccountedTogether(m: Mem, d: Option<Record>) {
    m.hooksRequired || m.liveHook || (d.Some? && d.value.hooksRequired) ==>
      if d.Some? && d.value.hook != Unreported then d.value.hook == HookCompleted else m.hook == HookCompleted
  }

  /******* accept *******/

  // An accept is taken up exactly when its gates are open, the copy is accounted and not of uncertain persistence, the
  // stored draft (or the copy, where nothing is stored) is completed and accounted, and the chapter is at the base version.
  predicate Acceptable(l: Local, e: AcceptEnv) {
    && e.available && e.current
    && (l.mem.hooksRequired || l.mem.liveHook ==> l.mem.hook == HookCompleted)
    && l.mem.code != TerminalPersistenceUncertain
    && (if l.durable.Some? then l.durable.value.status == Completed else l.mem.status == Completed)
    && AccountedTogether(l.mem, l.durable)
  }

  lemma AcceptedExactly(l: Local, e: AcceptEnv)
    ensures AcceptSpec(l, e).1 == Refused <==> !Acceptable(l, e)
    ensures AcceptSpec(l, e).1 == ClaimUnsaved <==> Acceptable(l, e) && e.claimSave != Saved
    ensures AcceptSpec(l, e).1 == Done <==>
              Acceptable(l, e) && e.claimSave == Saved && e.effectsOk && e.doneSave == Saved && e.tailOk
  {}

  // A refused accept stores nothing; a claim that raised may be stored; a done one is ACCEPTED in copy and record; an
  // uncertain one is ACCEPTANCE_UNCERTAIN in the copy, and in the record when the last save committed. Otherwise the
  // record is ACCEPTED only if the body succeeded and its save committed, and still the claim if not.
  lemma AcceptOutcome(l: Local, e: AcceptEnv)
    ensures var (l', r) := AcceptSpec(l, e);
            match r
            case Refused => l'.durable == l.durable
            case ClaimUnsaved =>
              && l'.mem.status == Accepting
              && (if e.claimSave == SavedThenRaised then Stored(l'.durable, Accepting) else l'.durable == l.durable)
            case Done => l'.mem.status == Accepted && Stored(l'.durable, Accepted)
            case Uncertain =>
              && l'.mem.status == AcceptanceUncertain && l'.mem.code == OtherError
              && (e.uncertainSave != NotSaved ==> Stored(l'.durable, AcceptanceUncertain))
              && (e.uncertainSave == NotSaved ==>
                    Stored(l'.durable, if e.effectsOk && e.doneSave != NotSaved then Accepted else Accepting))
  {}

  // An accept that gets as far as the record takes its status and error code over into the copy, and of its accounting what
  // it says, even when it then refuses.
  lemma RefusedAcceptRefreshes(l: Local, e: AcceptEnv)
    requires AcceptSpec(l, e).1 == Refused && e.available && l.durable.Some? && l.mem.code != TerminalPersistenceUncertain
    requires l.mem.hooksRequired || l.mem.liveHook ==> l.mem.hook == HookCompleted
    ensures var m, r := AcceptSpec(l, e).0.mem, l.durable.value;
            && m.status == r.status && m.code == r.code
            && (m.hooksRequired <==> l.mem.hooksRequired || r.hooksRequired)
            && m.hook == (if r.hook == Unreported then l.mem.hook else r.hook)
            && m.liveHook == l.mem.liveHook && m.hookCalled == l.mem.hookCalled && m.cancelled == l.mem.cancelled
  {}

  /******* reject *******/

  // A rejection is written exactly when the gates are open, copy and record are completed, and both are accounted.
  predicate CanReject(l: Local, available: bool) {
    && available && l.mem.status == Completed
    && (l.mem.hooksRequired || l.mem.liveHook ==> l.mem.hook == HookCompleted)
    && (l.durable.Some? ==>
          l.durable.value.status == Completed && (l.durable.value.hooksRequired ==> l.durable.value.hook == HookCompleted))
  }

  lemma RejectOutcome(l: Local, available: bool, o: SaveOutcome)
    ensures var (l', done) := RejectSpec(l, available, o);
            && (done <==> CanReject(l, available) && o == Saved)
            && (!CanReject(l, available) ==> l' == l)
            && (CanReject(l, available) ==> l'.mem == l.mem.(status := Rejected))
            && (CanReject(l, available) && o == NotSaved ==> l'.durable == l.durable)
            && (CanReject(l, available) && o != NotSaved ==> Stored(l'.durable, Rejected))
  {}

  /******* publication *******/

  // A copy as the worker brings it to publication.
  predicate Unpublished(m: Mem) {
    Executing(m.status) && m.liveHook == m.hooksRequired && m.hook == Unreported && !m.hookCalled
  }

  // Nothing in the call stops the completion.
  predicate Undisturbed(m: Mem, guarded: bool, e: PublishEnv) {
    && !m.cancelled && e.closeSave == Saved
    && (guarded ==> !e.refusedAtEntry && !e.refusedAtClose)
    && (m.liveHook ==> e.settleSave == Saved && !e.hook.raises && e.hookSave == Saved
                       && (guarded ==> !e.hook.cancels && !e.hook.refused))
  }

  // The draft is COMPLETED in copy and record, with its accounting, exactly when nothing stops the completion.
  lemma PublishedExactly(l: Local, guarded: bool, e: PublishEnv)
    requires Unpublished(l.mem)
    ensures var l' := PublishSpec(l, guarded, e);
            && (l'.mem.status == Completed <==> Undisturbed(l.mem, guarded, e))
            && (Undisturbed(l.mem, guarded, e) ==>
                  Stored(l'.durable, Completed) && l'.durable.value.hook == (if l.mem.liveHook then HookCompleted else Unreported))
  {}

  // How a publication ends otherwise: CANCELLED when the signal was up before it or a guarded hook cancelled the job, as it
  // was when the authorization is gone at entry (the failure handler settles it), and FAILED in every other case.
  lemma PublicationEnds(l: Local, guarded: bool, e: PublishEnv)
    requires Unpublished(l.mem)
    ensures PublishSpec(l, guarded, e).mem.status
              == if l.mem.cancelled then Cancelled
                 else if guarded && e.refusedAtEntry then l.mem.status
                 else if l.mem.liveHook && e.settleSave == Saved && guarded && e.hook.cancels then Cancelled
                 else if Undisturbed(l.mem, guarded, e) then Completed else Failed
  {}

  // A completion whose last save raised: the copy is FAILED and marked, so that no accept takes it up, and so is the record
  // when the save after it committed; otherwise the record may be the completion.
  lemma UnconfirmedCompletion(l: Local, guarded: bool, e: PublishEnv)
    requires Unpublished(l.mem) && Undisturbed(l.mem, guarded, e.(closeSave := Saved)) && e.closeSave != Saved
    ensures var l' := PublishSpec(l, guarded, e);
            && l'.mem.status == Failed && l'.mem.code == TerminalPersistenceUncertain
            && (e.uncertainSave != NotSaved ==> Stored(l'.durable, Failed) && l'.durable.value.code == TerminalPersistenceUncertain)
            && (e.uncertainSave == NotSaved && e.closeSave == SavedThenRaised ==> Stored(l'.durable, Completed))
            && forall a: AcceptEnv :: AcceptSpec(l', a) == (l', Refused)
  {}

  // Authorization gone during the hook or at the last look: the job is FAILED in copy and record, for no lack of saving.
  lemma RefusedPublication(l: Local, e: PublishEnv)
    requires Unpublished(l.mem) && Undisturbed(l.mem, true, e.(refusedAtClose := false, hook := e.hook.(refused := false)))
    requires e.refusedAtClose || (l.mem.liveHook && e.hook.refused)
    ensures var l' := PublishSpec(l, true, e);
            && l'.mem.status == Failed && l'.mem.code == OtherError
            && Stored(l'.durable, Failed) && l'.durable.value.code == OtherError
  {}

  // A reader sees a completion whose accounting is due and not reported as SETTLING, and everything else as it is.
  lemma PublicReads(m: Mem)
    ensures var r, due := Public(m), m.status == Completed && (m.hooksRequired || m.liveHook) && m.hook == Unreported;
            && r.status == (if due then Settling else m.status)
            && r.hooksRequired == m.hooksRequired && r.hook == m.hook && r.code == m.code
  {}

  /******* the terminal hook *******/

  // What the copy reports of its accounting once the hook had its chance: nothing where none is due; MISSING where one is
  // required and gone; else COMPLETED or FAILED as it ended; and UNCERTAIN where the save of any of these raised.
  lemma HookReported(l: Local, e: HookEnv, publishing: bool, o: SaveOutcome)
    requires !l.mem.hookCalled && l.mem.hook == Unreported
    ensures var l' := FinishHookSpec(l, e, publishing, o);
            && l'.mem.hook == (if !l.mem.liveHook && !l.mem.hooksRequired then Unreported
                               else if (if l.mem.liveHook then o else e.save) != Saved then HookUncertain
                               else if !l.mem.liveHook then HookMissing
                               else if e.raises then HookFailed else HookCompleted)
            && (l'.mem.hookCalled <==> l.mem.liveHook)
            && (l.mem.liveHook && o != NotSaved ==>
                  l'.durable.Some? && l'.durable.value.hook == if e.raises then HookFailed else HookCompleted)
            && (!l.mem.liveHook && l.mem.hooksRequired && e.save != NotSaved ==>
                  l'.durable.Some? && l'.durable.value.hook == HookMissing)
  {}

  // A hook that was called, or whose result is in, is not called again.
  lemma HookOnlyOnce(l: Local, e: HookEnv, publishing: bool, o: SaveOutcome)
    requires l.mem.hookCalled || l.mem.hook != Unreported
    ensures FinishHookSpec(l, e, publishing, o) == l
  {}

  // A completion or a live job that a hook or its save lets down is FAILED; a cancelled or failed one keeps its status.
  lemma HookFailsTheJob(l: Local, e: HookEnv, o: SaveOutcome)
    requires l.mem.liveHook && !l.mem.hookCalled && l.mem.hook == Unreported && !e.cancels
    ensures var l' := FinishHookSpec(l, e, false, o);
            && (l.mem.status == Completed || l.mem.status == Settling ==>
                  l'.mem.status == if e.raises || o != Saved then Failed else l.mem.status)
            && (l.mem.status == Cancelled || l.mem.status == Failed ==> l'.mem.status == l.mem.status)
            && (e.raises || o != Saved ==> l'.mem.code != NoError)
  {}

  /******* the worker *******/

  predicate Live(s: Status) { s in [Prepared, Queued, Running, Generating, Settling] }

  // A live job is cancelled by its signal, in the copy and, when the save committed, in the record; no other job is.
  lemma CancelOutcome(l: Local, o: SaveOutcome)
    ensures var l' := CancelExecution(l, o);
            if Live(l.mem.status) then
              && l'.mem == l.mem.(status := Cancelled)
              && (if o == NotSaved then l'.durable == l.durable else Stored(l'.durable, Cancelled))
            else l' == l
  {}

  // The worker goes on exactly while the job is live, not cancelled, and its saves succeed.
  lemma WorkerGoesOn(l: Local, o: SaveOutcome)
    ensures var (l', next) := WorkerBegin(l, o);
            && (next == KeepRunning <==> Live(l.mem.status) && !l.mem.cancelled && o == Saved)
            && (next == ToHandler <==> Live(l.mem.status) && !l.mem.cancelled && o != Saved)
            && l'.mem.status == (if !Live(l.mem.status) then l.mem.status else if l.mem.cancelled then Cancelled else Generating)
            && (Live(l.mem.status) && o != NotSaved ==> Stored(l'.durable, l'.mem.status))
    ensures var (l', next) := WorkerDelta(l, o);
            && (next == KeepRunning <==> Live(l.mem.status) && !l.mem.cancelled && o == Saved)
            && (next == ToHandler <==> Live(l.mem.status) && !l.mem.cancelled && o != Saved)
            && l'.mem.status == (if Live(l.mem.status) && l.mem.cancelled then Cancelled else l.mem.status)
            && (Live(l.mem.status) && o != NotSaved ==> Stored(l'.durable, l'.mem.status))
  {}

  // A failure ends a live job as FAILED, unless it was the signal, and not a bound, that ended it.
  lemma FailureSettles(l: Local, bound: bool, o: SaveOutcome)
    ensures var l' := WorkerHandle(l, bound, o);
            if !Live(l.mem.status) then l' == l
            else
              && l'.mem.status == (if l.mem.cancelled && !bound then Cancelled else Failed)
              && (o != NotSaved ==> Stored(l'.durable, l'.mem.status))
              && (l'.mem.status == Failed ==> l'.mem.code == OtherError)
  {}

  /******* recovery *******/

  // A live record is FAILED after recovery, an interrupted settlement with its accounting lost; any other stays as it is.
  lemma RecoveredReads(r: Record)
    ensures var r' := Recovered(r);
            && (Live(r.status) ==> r'.status == Failed)
            && (!Live(r.status) ==> r' == r)
            && (r.status == Settling ==> r'.hooksRequired && r'.hook == HookMissing && r'.code == OtherError)
            && (r.status != Settling ==> r'.hooksRequired == r.hooksRequired && r'.hook == r.hook && r'.code == r.code)
  {}

  // A copy made from a record shows that record, and has no hook of its own, ran none, and bears no signal.
  lemma RestoredReads(r: Record)
    ensures var m := MemOf(r);
            && !m.liveHook && !m.hookCalled && !m.cancelled
            && m.status == r.status && m.hooksRequired == r.hooksRequired && m.hook == r.hook && m.code == r.code
  {}

  /******* steps of the protocol *******/

  // A job starts with its record saved as QUEUED, or not at all; a thread that does not start fails it, with its hook and
  // one more save to come.
  lemma StartReads(s: P.State, m: P.Manager, threadOk: bool, o: SaveOutcome)
    requires s.worker.NotStarted? && s.owner.None? && m !in s.mem && m !in s.snaps && s.section.None?
    ensures var s' := P.DoStart(s, m, threadOk, o);
            && s'.owner == Some(m) && (m in s'.mem <==> o == Saved)
            && (if o == NotSaved then s'.durable == s.durable else Stored(s'.durable, Queued) && s'.durable.value.hooksRequired == s.hooks)
            && (o != Saved ==> s'.worker == P.Finished)
            && (o == Saved ==>
                  && s'.mem[m].hook == Unreported && s'.mem[m].liveHook == s'.mem[m].hooksRequired == s.hooks
                  && !s'.mem[m].hookCalled && !s'.mem[m].cancelled
                  && (threadOk ==> s'.worker == P.AtBegin && s'.mem[m].status == Queued && s'.mem[m].code == NoError)
                  && (!threadOk ==> s'.worker == P.AtHook(true) && s'.mem[m].status == Failed && s'.mem[m].code == OtherError))
  {}

  // After its handler a worker has only the hook to come, and then it is finished; after a failed start it saves once more.
  lemma WorkerFinishes(s: P.State, bound: bool, e: HookEnv, o: SaveOutcome)
    ensures P.OwnerReady(s, P.AtHandler) ==> P.DoHandle(s, bound, o).worker == P.AtHook(false)
    ensures s.worker.AtHook? && P.OwnerReady(s, s.worker) ==>
              P.DoFinalHook(s, e).worker in {P.AtHookSave(s.worker.thenSave), if s.worker.thenSave then P.AtStartFailure else P.Finished}
    ensures P.OwnerReady(s, P.AtStartFailure) ==>
              P.DoStartFailureSave(s, o).worker == P.Finished && P.DoStartFailureSave(s, o).mem == s.mem
  {}

  // No copy is cancelled without the signal.
  lemma CancelNeedsSignal(s: P.State, m: P.Manager, o: SaveOutcome)
    ensures var s' := P.DoCancel(s, m, o);
            s'.mem != s.mem || s'.durable != s.durable ==>
              m in s.mem && s.mem[m].cancelled && Live(s.mem[m].status) && s'.mem == s.mem[m := s.mem[m].(status := Cancelled)]
  {
    if m in s.mem { assert s.mem[m := s.mem[m]] == s.mem; }
  }
}
