/**
 The manager's methods on one job, updating the job and the stored record in place.
 Each is proved against the composition of the blocks of GenerationJob in the order the
 method runs them; ReviewRuns shows that an uninterrupted call is a run of the protocol.
 */
module JobManager {
  import opened Wrappers
  import opened GenerationJob

  datatype PublishEnv = PublishEnv(
    refusedAtEntry: bool, settleSave: SaveOutcome, hook: HookEnv, hookSave: SaveOutcome,
    refusedAtClose: bool, closeSave: SaveOutcome, uncertainSave: SaveOutcome)

  datatype AcceptEnv = AcceptEnv(
    available: bool, current: bool, claimSave: SaveOutcome, effectsOk: bool,
    doneSave: SaveOutcome, tailOk: bool, uncertainSave: SaveOutcome)

  datatype AcceptResult = Refused | ClaimUnsaved | Done | Uncertain

  function FinishHookSpec(l: Local, e: HookEnv, publishing: bool, o: SaveOutcome): Local {
    var r := HookCall(l, e, publishing);
    if r.1 then HookSave(r.0, o) else r.0
  }

  function PublishSpec(l: Local, guarded: bool, e: PublishEnv): Local {
    var entry := PublishOpen(l, guarded, e.refusedAtEntry, e.settleSave);
    if entry.1 == ToUncertain then PublishUncertain(entry.0, e.uncertainSave)
    else if entry.1 != ToHook then entry.0
    else
      var closed := PublishClose(FinishHookSpec(entry.0, e.hook, guarded, e.hookSave), guarded, e.refusedAtClose, e.closeSave);
      if closed.1 == ToUncertain then PublishUncertain(closed.0, e.uncertainSave) else closed.0
  }

  function AcceptSpec(l: Local, e: AcceptEnv): (Local, AcceptResult) {
    var read := AcceptRead(l, e.available, e.current);
    if !read.1 then (read.0, Refused)
    else
      var claimed := AcceptClaim(read.0, e.claimSave);
      if e.claimSave != Saved then (claimed, ClaimUnsaved)
      else if !e.effectsOk then (AcceptUncertain(claimed, e.uncertainSave), Uncertain)
      else
        var done := AcceptFinish(claimed, e.doneSave);
        if e.doneSave == Saved && e.tailOk then (done, Done)
        else (AcceptUncertain(done, e.uncertainSave), Uncertain)
  }

  function RejectSpec(l: Local, available: bool, o: SaveOutcome): (Local, bool) {
    if Public(l.mem).status == Completed && Rejectable(l, available) then (RejectWrite(l, o), o == Saved) else (l, false)
  }

  class Repository {
    var stored: Option<Record>

    constructor ()
      ensures stored == None
    {
      stored := None;
    }

    method Write(r: Record, o: SaveOutcome) returns (raised: bool)
      modifies this
      ensures stored == Save(old(stored), r, o) && (raised <==> o != Saved)
    {
      if o != NotSaved { stored := Some(r); }
      raised := o != Saved;
    }
  }

  class Job {
    var status: Status
    var hooksRequired: bool
    var hook: Hook
    var code: ErrorCode
    var liveHook: bool
    var hookCalled: bool
    var cancelled: bool

    constructor (m: Mem)
      ensures View() == m
    {
      status, hooksRequired, hook, code := m.status, m.hooksRequired, m.hook, m.code;
      liveHook, hookCalled, cancelled := m.liveHook, m.hookCalled, m.cancelled;
    }

    function View(): Mem
      reads this
    {
      Mem(status, hooksRequired, hook, code, liveHook, hookCalled, cancelled)
    }
  }

  class Manager {
    const repository: Repository
    const job: Job
    // entries into the chapter-writing body of accept, and runs of the terminal hook
    var entered: nat
    var hookRuns: nat

    constructor (repository: Repository, job: Job)
      ensures this.repository == repository && this.job == job && entered == 0 && hookRuns == 0
    {
      this.repository, this.job := repository, job;
      entered, hookRuns := 0, 0;
    }

    function State(): Local
      reads job, repository
    {
      Local(job.View(), repository.stored)
    }

    method Emit(o: SaveOutcome) returns (raised: bool)
      modifies repository
      ensures State() == GenerationJob.Emit(old(State()), o) && (raised <==> o != Saved)
    {
      raised := repository.Write(Public(job.View()), o);
    }

    method CancelExecution(o: SaveOutcome) returns (raised: bool)
      modifies job, repository
      ensures State() == GenerationJob.CancelExecution(old(State()), o)
      ensures raised <==> o != Saved && Executing(old(job.status))
    {
      raised := false;
      if !Terminal(job.status) {
        job.status := Cancelled;
        raised := Emit(o);
      }
    }

    // `cancel`: the signal is set first, then the transition is tried under the job's condition.
    method Cancel(o: SaveOutcome) returns (raised: bool)
      modifies job, repository
      ensures State() == GenerationJob.CancelExecution(old(State()).(mem := old(job.View()).(cancelled := true)), o)
      ensures Terminal(old(job.status)) ==> repository.stored == old(repository.stored) && job.status == old(job.status)
    {
      job.cancelled := true;
      raised := false;
      if !Terminal(job.status) { raised := CancelExecution(o); }
    }

    // The hook itself, at most once for this copy; `due` tells that its result is still to be saved.
    method CallTerminalHook(e: HookEnv, publishing: bool) returns (due: bool)
      modifies this, job, repository
      ensures (State(), due) == HookCall(old(State()), e, publishing)
      ensures entered == old(entered)
      ensures hookRuns == old(hookRuns) + if due then 1 else 0
    {
      if job.hookCalled || job.hook != Unreported { return false; }
      if !job.liveHook {
        if job.hooksRequired {
          job.hook := HookMissing;
          var raised := Emit(e.save);
          if raised { job.hook := HookUncertain; }
        }
        return false;
      }
      job.hookCalled := true;
      hookRuns := hookRuns + 1;
      if e.cancels { var _ := CancelExecution(e.save); }
      if !e.raises {
        job.hook := HookCompleted;
      } else {
        job.hook, job.code := HookFailed, OtherError;
        if job.status == Completed || Executing(job.status) { job.status := Failed; }
      }
      if publishing && job.status == Settling && e.refused {
        job.status, job.code := Failed, OtherError;
      }
      return true;
    }

    method SaveHookResult(o: SaveOutcome)
      modifies job, repository
      ensures State() == HookSave(old(State()), o)
    {
      var raised := Emit(o);
      if raised {
        job.hook := HookUncertain;
        if job.status.Completed? || job.status.Settling? { job.status := Failed; }
        if job.code != TerminalPersistenceUncertain { job.code := OtherError; }
      }
    }

    // `_finish_terminal_hook`
    method FinishTerminalHook(e: HookEnv, publishing: bool, o: SaveOutcome)
      modifies this, job, repository
      ensures State() == FinishHookSpec(old(State()), e, publishing, o)
      ensures entered == old(entered) && old(hookRuns) <= hookRuns <= old(hookRuns) + 1
    {
      var due := CallTerminalHook(e, publishing);
      if due { SaveHookResult(o); }
    }

    method OpenPublication(guarded: bool, refused: bool, o: SaveOutcome) returns (next: PublishNext)
      modifies job, repository
      ensures (State(), next) == PublishOpen(old(State()), guarded, refused, o)
    {
      if Terminal(job.status) { return Leave; }
      if job.cancelled { var _ := CancelExecution(o); return Leave; }
      if guarded && refused { return LeaveToHandler; }
      job.status := if guarded then PublicationStatus(job.View()) else Completed;
      if !HasHooks(job.View()) { return ToHook; }
      var raised := Emit(o);
      return if raised then ToUncertain else ToHook;
    }

    method ClosePublication(guarded: bool, refused: bool, o: SaveOutcome) returns (next: PublishNext)
      modifies job, repository
      ensures (State(), next) == PublishClose(old(State()), guarded, refused, o)
    {
      if guarded && job.status != Failed {
        if job.status != PublicationStatus(job.View()) { return Leave; }
        if refused {
          job.status, job.code := Failed, OtherError;
          var _ := Emit(o);
          return Leave;
        }
        if job.cancelled {
          var unsaved := CancelExecution(o);
          return if unsaved then ToUncertain else Leave;
        }
        job.status := Completed;
      }
      var raised := Emit(o);
      return if raised then ToUncertain else Leave;
    }

    // The part of `_run` under the review lock; `guarded`: a live request authorization exists.
    method Publish(guarded: bool, e: PublishEnv)
      modifies this, job, repository
      ensures State() == PublishSpec(old(State()), guarded, e)
      ensures entered == old(entered) && old(hookRuns) <= hookRuns <= old(hookRuns) + 1
    {
      var next := OpenPublication(guarded, e.refusedAtEntry, e.settleSave);
      if next == ToHook {
        FinishTerminalHook(e.hook, guarded, e.hookSave);
        next := ClosePublication(guarded, e.refusedAtClose, e.closeSave);
      }
      if next == ToUncertain {
        job.status, job.code := Failed, TerminalPersistenceUncertain;
        var _ := Emit(e.uncertainSave);
      }
    }

    // `_restore_job` on an existing copy of the job, for a record read under the review lock.
    method Restore(item: Record, o: SaveOutcome) returns (raised: bool)
      modifies job, repository
      ensures job.View() == MemOf(Recovered(item))
      ensures repository.stored == if Executing(item.status) then Save(old(repository.stored), Recovered(item), o)
                                   else old(repository.stored)
    {
      var recovered := Executing(item.status);
      job.status, job.hooksRequired, job.hook, job.code := item.status, item.hooksRequired, item.hook, item.code;
      job.liveHook, job.hookCalled, job.cancelled := false, false, false;
      if item.status == Settling {
        job.status, job.code, job.hooksRequired, job.hook := Failed, OtherError, true, HookMissing;
      } else if recovered {
        job.status := Failed;
      }
      raised := false;
      if recovered { raised := Emit(o); }
    }

    // The gates of accept around the re-read of the stored record; true when the claim may be written.
    method ReadForAccept(available: bool, current: bool) returns (ready: bool)
      modifies job
      ensures (State(), ready) == AcceptRead(old(State()), available, current)
    {
      if !available || !Accounted(job.View()) || job.code == TerminalPersistenceUncertain { return false; }
      if repository.stored.Some? {
        var stored := repository.stored.value;
        job.status, job.code := stored.status, stored.code;
        if stored.hooksRequired { job.hooksRequired := true; }
        if stored.hook != Unreported { job.hook := stored.hook; }
      }
      return Accounted(job.View()) && job.status == Completed && current;
    }

    method Accept(e: AcceptEnv) returns (r: AcceptResult)
      modifies this, job, repository
      ensures (State(), r) == AcceptSpec(old(State()), e) && hookRuns == old(hookRuns)
      ensures r.Done? ==> e.effectsOk && job.status == Accepted && repository.stored.Some? && repository.stored.value.status == Accepted
      ensures r.Uncertain? ==> job.status == AcceptanceUncertain
      ensures r.Uncertain? && e.uncertainSave != NotSaved ==>
                repository.stored.Some? && repository.stored.value.status == AcceptanceUncertain
      ensures entered == old(entered) + if r.Done? || r.Uncertain? then 1 else 0
    {
      var ready := ReadForAccept(e.available, e.current);
      if !ready { return Refused; }
      job.status := Accepting;
      var raised := Emit(e.claimSave);
      if raised { return ClaimUnsaved; }
      entered := entered + 1;
      if e.effectsOk {
        job.status := Accepted;
        raised := Emit(e.doneSave);
        if !raised && e.tailOk { return Done; }
      }
      job.status, job.code := AcceptanceUncertain, OtherError;
      var _ := Emit(e.uncertainSave);
      return Uncertain;
    }

    method Reject(available: bool, o: SaveOutcome) returns (done: bool)
      modifies job, repository
      ensures (State(), done) == RejectSpec(old(State()), available, o)
      ensures done ==> job.status == Rejected && repository.stored.Some? && repository.stored.value.status == Rejected
    {
      if Public(job.View()).status != Completed || !available { return false; }
      var stored := repository.stored;
      if stored.Some? && stored.value.status != Completed { return false; }
      if stored.Some? && stored.value.hooksRequired && stored.value.hook != HookCompleted { return false; }
      if !Accounted(job.View()) { return false; }
      job.status := Rejected;
      var raised := Emit(o);
      return !raised;
    }
  }
}

/** Calls of the manager's methods as runs of the review protocol. */
module ReviewRuns {
  import opened Wrappers
  import opened GenerationJob
  import opened ReviewProtocol
  import opened JobManager

  // From a saved claim to the free lock.
  lemma AcceptTail(s: State, m: ReviewProtocol.Manager, e: AcceptEnv)
    requires m in s.mem && s.section == Some(Section(m, Effects))
    ensures var s1 := DoAcceptPersistDone(DoAcceptEffects(s, e.effectsOk), e.doneSave, e.tailOk);
            var s' := DoAcceptPersistUncertain(s1, e.uncertainSave);
            var l, done := LocalOf(s, m), AcceptFinish(LocalOf(s, m), e.doneSave);
            && s'.section.None? && m in s'.mem && s'.entered == s.entered + 1
            && LocalOf(s', m) == if !e.effectsOk then AcceptUncertain(l, e.uncertainSave)
                                 else if e.doneSave == Saved && e.tailOk then done
                                 else AcceptUncertain(done, e.uncertainSave)
  {
    var s1 := DoAcceptEffects(s, e.effectsOk);
    var s2 := DoAcceptPersistDone(s1, e.doneSave, e.tailOk);
    if !e.effectsOk {
      assert s2 == s1;
    } else {
      assert s2.mem[m] == AcceptFinish(LocalOf(s, m), e.doneSave).mem;
    }
  }

  // The four steps of an accept that follow its reading.
  function FromClaim(s: State, e: AcceptEnv): State {
    var s1 := DoAcceptEffects(DoAcceptPersistClaim(s, e.claimSave), e.effectsOk);
    DoAcceptPersistUncertain(DoAcceptPersistDone(s1, e.doneSave, e.tailOk), e.uncertainSave)
  }

  // What an accept by `m` has done to the job between `s` and `s'`: exactly what its specification says.
  predicate AcceptRan(s: State, s': State, m: ReviewProtocol.Manager, e: AcceptEnv) {
    && m in s.mem && m in s'.mem && s'.section.None?
    && var r := AcceptSpec(LocalOf(s, m), e);
       LocalOf(s', m) == r.0 && s'.entered == s.entered + (if r.1.Done? || r.1.Uncertain? then 1 else 0)
  }

  // Without the lock the later steps of an accept do nothing.
  lemma AcceptIdle(s: State, e: AcceptEnv)
    requires s.section.None?
    ensures FromClaim(s, e) == s
  {}

  lemma AcceptUnsaved(s: State, m: ReviewProtocol.Manager, e: AcceptEnv)
    requires m in s.mem && s.section == Some(Section(m, Claim)) && e.claimSave != Saved
    ensures var s' := FromClaim(s, e);
            s'.section.None? && m in s'.mem && LocalOf(s', m) == AcceptClaim(LocalOf(s, m), e.claimSave) && s'.entered == s.entered
  {}

  lemma AcceptFromClaim(s: State, m: ReviewProtocol.Manager, e: AcceptEnv)
    requires m in s.mem && s.section == Some(Section(m, Claim)) && e.claimSave == Saved
    ensures var s', l := FromClaim(s, e), AcceptClaim(LocalOf(s, m), Saved);
            && s'.section.None? && m in s'.mem && s'.entered == s.entered + 1
            && LocalOf(s', m) == if !e.effectsOk then AcceptUncertain(l, e.uncertainSave)
                                 else if e.doneSave == Saved && e.tailOk then AcceptFinish(l, e.doneSave)
                                 else AcceptUncertain(AcceptFinish(l, e.doneSave), e.uncertainSave)
  {
    var s1 := DoAcceptPersistClaim(s, Saved);
    assert LocalOf(s1, m) == AcceptClaim(LocalOf(s, m), Saved);
    AcceptTail(s1, m, e);
  }

  lemma AcceptAfterRead(s: State, s1: State, m: ReviewProtocol.Manager, e: AcceptEnv)
    requires m in s.mem && m in s1.mem && s1.entered == s.entered
    requires var read := AcceptRead(LocalOf(s, m), e.available, e.current);
             LocalOf(s1, m) == read.0 && s1.section == if read.1 then Some(Section(m, Claim)) else None
    ensures AcceptRan(s, FromClaim(s1, e), m, e)
  {
    if s1.section.None? { AcceptIdle(s1, e); }
    else if e.claimSave == Saved { AcceptFromClaim(s1, m, e); }
    else { AcceptUnsaved(s1, m, e); }
  }

  // An accept that nothing interrupts is the run of its five steps; it ends with the lock free,
  // and enters the chapter-writing body exactly when it reports Done or Uncertain.
  lemma AcceptIsARun(s: State, m: ReviewProtocol.Manager, e: AcceptEnv)
    requires m in s.mem && s.section.None? && ConditionFree(s, m)
    ensures AcceptRan(s, FromClaim(Apply(s, AcceptBegin(m, e.available, e.current)), e), m, e)
  {
    AcceptAfterRead(s, DoAcceptBegin(s, m, e.available, e.current), m, e);
  }

  lemma RejectIsARun(s: State, m: ReviewProtocol.Manager, available: bool, o: SaveOutcome)
    requires m in s.mem && s.section.None? && ConditionFree(s, m)
    ensures var s', r := DoRejectPersist(DoRejectBegin(s, m, available), o), RejectSpec(LocalOf(s, m), available, o);
            && s'.section.None? && m in s'.mem && LocalOf(s', m) == r.0
            && (r.1 ==> s'.rejections == s.rejections + 1)
  {
    var s1 := DoRejectBegin(s, m, available);
    if s1.section.Some? { RejectTail(s1, m, o); }
  }

  lemma RejectTail(s: State, m: ReviewProtocol.Manager, o: SaveOutcome)
    requires m in s.mem && s.section == Some(Section(m, WriteReject))
    ensures var s' := DoRejectPersist(s, o);
            && s'.section.None? && m in s'.mem && LocalOf(s', m) == RejectWrite(LocalOf(s, m), o)
            && s'.rejections == if o == NotSaved then s.rejections else s.rejections + 1
  {}

  // Likewise for the worker's publication block.
  lemma PublishTail(s: State, w: ReviewProtocol.Manager, e: PublishEnv)
    requires w in s.mem && s.section == Some(Section(w, Publish(CloseStage)))
    requires var open := if s.guarded then PublicationStatus(s.mem[w]) else Completed;
             s.mem[w].status == open || s.mem[w].status.Failed? || s.mem[w].status.Cancelled?
    ensures var s' := DoMarkPublicationUncertain(DoClosePublication(s, e.refusedAtClose, e.closeSave), e.uncertainSave);
            var closed := PublishClose(LocalOf(s, w), s.guarded, e.refusedAtClose, e.closeSave);
            && s'.section.None? && w in s'.mem
            && LocalOf(s', w) == if closed.1 == ToUncertain then PublishUncertain(closed.0, e.uncertainSave) else closed.0
  {
    PublishCloseShape(LocalOf(s, w), s.guarded, e.refusedAtClose, e.closeSave);
  }

  lemma PublishHookSteps(s: State, w: ReviewProtocol.Manager, e: PublishEnv)
    requires w in s.mem && s.section == Some(Section(w, Publish(HookStage)))
    ensures var s' := DoPublicationHookSave(DoPublicationHook(s, e.hook), e.hookSave);
            && s'.section == Some(Section(w, Publish(CloseStage))) && w in s'.mem && s'.guarded == s.guarded
            && LocalOf(s', w) == FinishHookSpec(LocalOf(s, w), e.hook, s.guarded, e.hookSave)
  {
    var s1 := DoPublicationHook(s, e.hook);
    PublicationHookStep(s, w, e.hook);
    if s1.section == Some(Section(w, Publish(HookSaveStage))) { PublicationHookSaveStep(s1, w, e.hookSave); }
  }

  lemma PublicationHookStep(s: State, w: ReviewProtocol.Manager, e: HookEnv)
    requires w in s.mem && s.section == Some(Section(w, Publish(HookStage)))
    ensures var s', r := DoPublicationHook(s, e), HookCall(LocalOf(s, w), e, s.guarded);
            && w in s'.mem && s'.guarded == s.guarded && LocalOf(s', w) == r.0
            && s'.section == Some(Section(w, Publish(if r.1 then HookSaveStage else CloseStage)))
  {}

  lemma PublicationHookSaveStep(s: State, w: ReviewProtocol.Manager, o: SaveOutcome)
    requires w in s.mem && s.section == Some(Section(w, Publish(HookSaveStage)))
    ensures var s' := DoPublicationHookSave(s, o);
            && w in s'.mem && s'.guarded == s.guarded && LocalOf(s', w) == HookSave(LocalOf(s, w), o)
            && s'.section == Some(Section(w, Publish(CloseStage)))
  {}

  lemma HookLeavesOpenOrEnded(l: Local, e: HookEnv, guarded: bool, o: SaveOutcome)
    requires l.mem.status == if guarded then PublicationStatus(l.mem) else Completed
    ensures var m := FinishHookSpec(l, e, guarded, o).mem;
            m.status == (if guarded then PublicationStatus(m) else Completed) || m.status.Failed? || m.status.Cancelled?
  {}

  function FromOpen(s: State, e: PublishEnv): State {
    var hooked := DoPublicationHookSave(DoPublicationHook(s, e.hook), e.hookSave);
    DoMarkPublicationUncertain(DoClosePublication(hooked, e.refusedAtClose, e.closeSave), e.uncertainSave)
  }

  lemma PublishFromHook(s: State, w: ReviewProtocol.Manager, e: PublishEnv)
    requires w in s.mem && s.section == Some(Section(w, Publish(HookStage)))
    requires s.mem[w].status == if s.guarded then PublicationStatus(s.mem[w]) else Completed
    ensures var s', l := FromOpen(s, e), FinishHookSpec(LocalOf(s, w), e.hook, s.guarded, e.hookSave);
            var closed := PublishClose(l, s.guarded, e.refusedAtClose, e.closeSave);
            && s'.section.None? && w in s'.mem
            && LocalOf(s', w) == if closed.1 == ToUncertain then PublishUncertain(closed.0, e.uncertainSave) else closed.0
  {
    PublishHookSteps(s, w, e);
    HookLeavesOpenOrEnded(LocalOf(s, w), e.hook, s.guarded, e.hookSave);
    PublishTail(DoPublicationHookSave(DoPublicationHook(s, e.hook), e.hookSave), w, e);
  }

  lemma PublishFromElsewhere(s: State, w: ReviewProtocol.Manager, e: PublishEnv)
    requires w in s.mem && (s.section.None? || s.section == Some(Section(w, Publish(UncertainStage))))
    ensures var s' := FromOpen(s, e);
            && s'.section.None? && w in s'.mem
            && LocalOf(s', w) == if s.section.None? then LocalOf(s, w) else PublishUncertain(LocalOf(s, w), e.uncertainSave)
  {}

  lemma PublishOpens(s: State, e: PublishEnv)
    requires OwnerReady(s, AtPublish) && s.section.None?
    ensures var s1, w := DoOpenPublication(s, e.refusedAtEntry, e.settleSave), s.owner.value;
            var open := PublishOpen(LocalOf(s, w), s.guarded, e.refusedAtEntry, e.settleSave);
            && w in s1.mem && LocalOf(s1, w) == open.0 && s1.guarded == s.guarded
            && (open.1 == ToHook ==> s1.section == Some(Section(w, Publish(HookStage)))
                                     && s1.mem[w].status == if s.guarded then PublicationStatus(s1.mem[w]) else Completed)
            && (open.1 == ToUncertain ==> s1.section == Some(Section(w, Publish(UncertainStage))))
            && (open.1 != ToHook && open.1 != ToUncertain ==> s1.section.None?)
  {
    PublishOpenShape(LocalOf(s, s.owner.value), s.guarded, e.refusedAtEntry, e.settleSave);
  }

  // A publication that nothing interrupts, from its first step under the lock to its last.
  lemma PublishIsARun(s: State, e: PublishEnv)
    requires OwnerReady(s, AtPublish) && s.section.None?
    ensures var s' := FromOpen(DoOpenPublication(s, e.refusedAtEntry, e.settleSave), e);
            && s'.section.None? && s.owner.value in s'.mem
            && LocalOf(s', s.owner.value) == PublishSpec(LocalOf(s, s.owner.value), s.guarded, e)
  {
    var w := s.owner.value;
    PublishOpens(s, e);
    var s1 := DoOpenPublication(s, e.refusedAtEntry, e.settleSave);
    if s1.section == Some(Section(w, Publish(HookStage))) {
      PublishFromHook(s1, w, e);
    } else {
      PublishFromElsewhere(s1, w, e);
    }
  }
}
