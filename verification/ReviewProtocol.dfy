/**
 The life of one generation job as a step system: any number of managers, each with
 its own copy of the job, one durable record, one host-wide review lock, one worker,
 and a crash of any manager between any two steps. A step is what the code does in one
 piece under the job's condition up to and including its next durable write or call
 into the outside; everything the environment chooses (whether a write commits, whether
 a hook raises, who runs next) is in the action.
 */
module ReviewProtocol {
  import opened Wrappers
  import opened GenerationJob

  type Manager = nat

  datatype PublishStage = HookStage | HookSaveStage | CloseStage | UncertainStage

  // What the holder of the review lock will do next.
  datatype Stage =
    | Publish(p: PublishStage)
    | Restore(found: Record)
    | Claim | Effects | Finish | MarkUncertain
    | WriteReject

  datatype Section = Section(manager: Manager, stage: Stage)

  // `thenSave`: the thread could not be started, one more write follows the hook.
  datatype Worker =
    | NotStarted | AtBegin | AtRoutes | AtHandler | AtPublish | Publishing
    | AtHook(thenSave: bool) | AtHookSave(thenSave: bool) | AtStartFailure | Finished

  // `hooks`, `guarded`: fixed for the job. The last seven fields record history only; `succeeded`: the body of accept
  // ran to its end.
  datatype State = State(
    hooks: bool, guarded: bool,
    durable: Option<Record>, mem: map<Manager, Mem>, snaps: map<Manager, Record>,
    owner: Option<Manager>, worker: Worker, section: Option<Section>,
    entered: nat, succeeded: bool, claims: nat, rejections: nat, hookRuns: nat, hookOk: bool, published: bool)

  datatype Action =
    | Start(m: Manager, threadOk: bool, o: SaveOutcome)
    | RequestCancel(m: Manager)
    | Cancel(m: Manager, o: SaveOutcome)
    | Begin(o: SaveOutcome)
    | Delta(o: SaveOutcome)
    | RouteFails
    | RouteDone
    | Handle(boundFailure: bool, o: SaveOutcome)
    | OpenPublication(refused: bool, o: SaveOutcome)
    | PublicationHook(e: HookEnv)
    | PublicationHookSave(o: SaveOutcome)
    | ClosePublication(refused: bool, o: SaveOutcome)
    | MarkPublicationUncertain(o: SaveOutcome)
    | FinalHook(e: HookEnv)
    | FinalHookSave(o: SaveOutcome)
    | StartFailureSave(o: SaveOutcome)
    | Snapshot(m: Manager)
    | LoadDecided(m: Manager)
    | RecoverRead(m: Manager)
    | RecoverWrite(o: SaveOutcome)
    | AcceptBegin(m: Manager, available: bool, current: bool)
    | AcceptPersistClaim(o: SaveOutcome)
    | AcceptEffects(ok: bool)
    | AcceptPersistDone(o: SaveOutcome, tailOk: bool)
    | AcceptPersistUncertain(o: SaveOutcome)
    | RejectBegin(m: Manager, available: bool)
    | RejectPersist(o: SaveOutcome)
    | Crash(m: Manager)

  function Init(hooks: bool, guarded: bool): State {
    State(hooks, guarded, None, map[], map[], None, NotStarted, None, 0, false, 0, 0, 0, false, false)
  }

  function LocalOf(s: State, m: Manager): Local
    requires m in s.mem
  {
    Local(s.mem[m], s.durable)
  }

  predicate IsCompleted(d: Option<Record>) {
    d.Some? && d.value.status == Completed
  }

  // `m`'s copy and the durable record after a block that ended in `l`.
  function With(s: State, m: Manager, l: Local): (s': State)
    ensures Grows(s, s')
  {
    s.(mem := s.mem[m := l.mem], durable := l.durable, published := s.published || IsCompleted(l.durable))
  }

  // No block of `m` is in progress under the job's condition.
  predicate ConditionFree(s: State, m: Manager) {
    && (s.section.Some? ==> s.section.value.manager != m || s.section.value.stage.Restore?)
    && !(s.owner == Some(m) && s.worker.AtHookSave?)
  }

  predicate OwnerReady(s: State, w: Worker) {
    s.worker == w && s.owner.Some? && s.owner.value in s.mem && ConditionFree(s, s.owner.value)
  }

  predicate InSection(s: State, stage: Stage) {
    s.section.Some? && s.section.value.stage == stage && s.section.value.manager in s.mem
  }

  // The job's configuration is fixed and its history only grows.
  predicate Grows(s: State, s': State) {
    && s'.hooks == s.hooks && s'.guarded == s.guarded
    && s.entered <= s'.entered && s.claims <= s'.claims && s.rejections <= s'.rejections
  }

  // A step of the worker moves only its own manager's copy.
  predicate OnlyOwnerMoves(s: State, s': State) {
    && s'.snaps == s.snaps && (s.owner.Some? ==> s'.owner == s.owner)
    && (s'.owner.None? ==> s' == s)
    && (s'.owner.Some? ==> s'.mem.Keys <= s.mem.Keys + {s'.owner.value})
  }

  /******* steps of the worker *******/

  function DoStart(s: State, m: Manager, threadOk: bool, o: SaveOutcome): (s': State)
    ensures Grows(s, s') && OnlyOwnerMoves(s, s')
  {
    if s.worker != NotStarted || s.owner.Some? || m in s.mem || m in s.snaps || s.section.Some? then s
    else
      var newJob := Mem(Queued, s.hooks, Unreported, NoError, s.hooks, false, false);
      var saved := Emit(Local(newJob, s.durable), o);
      if o != Saved then s.(durable := saved.durable, owner := Some(m), worker := Finished)
      else
        var s1 := With(s, m, saved).(owner := Some(m));
        if threadOk then s1.(worker := AtBegin)
        else s1.(worker := AtHook(true), mem := s1.mem[m := newJob.(status := Failed, code := OtherError)])
  }

  function After(next: WorkerNext): Worker {
    match next
    case KeepRunning => AtRoutes
    case ToHandler => AtHandler
    case ToFinally => AtHook(false)
  }

  function DoBegin(s: State, o: SaveOutcome): (s': State)
    ensures Grows(s, s') && OnlyOwnerMoves(s, s')
  {
    if !OwnerReady(s, AtBegin) then s
    else
      var r := WorkerBegin(LocalOf(s, s.owner.value), o);
      With(s, s.owner.value, r.0).(worker := After(r.1))
  }

  function DoDelta(s: State, o: SaveOutcome): (s': State)
    ensures Grows(s, s') && OnlyOwnerMoves(s, s')
  {
    if !OwnerReady(s, AtRoutes) then s
    else
      var r := WorkerDelta(LocalOf(s, s.owner.value), o);
      With(s, s.owner.value, r.0).(worker := After(r.1))
  }

  function DoHandle(s: State, bound: bool, o: SaveOutcome): (s': State)
    ensures Grows(s, s') && OnlyOwnerMoves(s, s')
  {
    if !OwnerReady(s, AtHandler) then s
    else With(s, s.owner.value, WorkerHandle(LocalOf(s, s.owner.value), bound, o)).(worker := AtHook(false))
  }

  function AfterPublish(s: State, next: PublishNext): (s': State)
    requires s.section.Some?
    ensures Grows(s, s')
  {
    match next
    case Leave => s.(section := None, worker := AtHook(false))
    case LeaveToHandler => s.(section := None, worker := AtHandler)
    case ToHook => s.(section := Some(Section(s.section.value.manager, Publish(HookStage))))
    case ToClose => s.(section := Some(Section(s.section.value.manager, Publish(CloseStage))))
    case ToUncertain => s.(section := Some(Section(s.section.value.manager, Publish(UncertainStage))))
  }

  function DoOpenPublication(s: State, refused: bool, o: SaveOutcome): (s': State)
    ensures Grows(s, s')
  {
    if !OwnerReady(s, AtPublish) || s.section.Some? then s
    else
      var w := s.owner.value;
      var r := PublishOpen(LocalOf(s, w), s.guarded, refused, o);
      AfterPublish(With(s, w, r.0).(section := Some(Section(w, Publish(HookStage))), worker := Publishing), r.1)
  }

  function CountHook(s: State, e: HookEnv): State {
    s.(hookRuns := s.hookRuns + 1, hookOk := s.hookOk || !e.raises)
  }

  function DoPublicationHook(s: State, e: HookEnv): (s': State)
    ensures Grows(s, s')
  {
    if !InSection(s, Publish(HookStage)) then s
    else
      var w := s.section.value.manager;
      var r := HookCall(LocalOf(s, w), e, s.guarded);
      var s1 := With(s, w, r.0);
      if r.1 then CountHook(s1, e).(section := Some(Section(w, Publish(HookSaveStage))))
      else AfterPublish(s1, ToClose)
  }

  function DoPublicationHookSave(s: State, o: SaveOutcome): (s': State)
    ensures Grows(s, s')
  {
    if !InSection(s, Publish(HookSaveStage)) then s
    else
      var w := s.section.value.manager;
      AfterPublish(With(s, w, HookSave(LocalOf(s, w), o)), ToClose)
  }

  function DoClosePublication(s: State, refused: bool, o: SaveOutcome): (s': State)
    ensures Grows(s, s')
  {
    if !InSection(s, Publish(CloseStage)) then s
    else
      var w := s.section.value.manager;
      var r := PublishClose(LocalOf(s, w), s.guarded, refused, o);
      AfterPublish(With(s, w, r.0), r.1)
  }

  function DoMarkPublicationUncertain(s: State, o: SaveOutcome): (s': State)
    ensures Grows(s, s')
  {
    if !InSection(s, Publish(UncertainStage)) then s
    else
      var w := s.section.value.manager;
      AfterPublish(With(s, w, PublishUncertain(LocalOf(s, w), o)), Leave)
  }

  function AfterFinal(thenSave: bool): Worker {
    if thenSave then AtStartFailure else Finished
  }

  function DoFinalHook(s: State, e: HookEnv): (s': State)
    ensures Grows(s, s') && OnlyOwnerMoves(s, s')
  {
    if !s.worker.AtHook? || !OwnerReady(s, s.worker) then s
    else
      var w := s.owner.value;
      var r := HookCall(LocalOf(s, w), e, false);
      var s1 := With(s, w, r.0);
      if r.1 then CountHook(s1, e).(worker := AtHookSave(s.worker.thenSave))
      else s1.(worker := AfterFinal(s.worker.thenSave))
  }

  function DoFinalHookSave(s: State, o: SaveOutcome): (s': State)
    ensures Grows(s, s') && OnlyOwnerMoves(s, s')
  {
    if !s.worker.AtHookSave? || s.owner.None? || s.owner.value !in s.mem then s
    else
      var w := s.owner.value;
      With(s, w, HookSave(LocalOf(s, w), o)).(worker := AfterFinal(s.worker.thenSave))
  }

  function DoStartFailureSave(s: State, o: SaveOutcome): (s': State)
    ensures Grows(s, s') && OnlyOwnerMoves(s, s')
  {
    if !OwnerReady(s, AtStartFailure) then s
    else With(s, s.owner.value, Emit(LocalOf(s, s.owner.value), o)).(worker := Finished)
  }

  /******* steps of any manager *******/

  function DoRequestCancel(s: State, m: Manager): (s': State)
    ensures Grows(s, s')
  {
    if m !in s.mem then s else s.(mem := s.mem[m := s.mem[m].(cancelled := true)])
  }

  predicate CancelEnabled(s: State, m: Manager) {
    m in s.mem && ConditionFree(s, m) && s.mem[m].cancelled
  }

  function DoCancel(s: State, m: Manager, o: SaveOutcome): (s': State)
    ensures Grows(s, s')
  {
    if !CancelEnabled(s, m) then s else With(s, m, CancelExecution(LocalOf(s, m), o))
  }

  predicate Unknown(s: State, m: Manager) {
    m !in s.mem && s.owner != Some(m)
  }

  // A starting manager lists the store before it examines any single record.
  function DoSnapshot(s: State, m: Manager): (s': State)
    ensures Grows(s, s')
  {
    if !Unknown(s, m) || m in s.snaps || s.durable.None? || (s.section.Some? && s.section.value.manager == m) then s
    else s.(snaps := s.snaps[m := s.durable.value])
  }

  // A listed record that is not executing is taken over as listed, however old it is.
  function DoLoadDecided(s: State, m: Manager): (s': State)
    ensures Grows(s, s')
  {
    if !Unknown(s, m) || m !in s.snaps || Executing(s.snaps[m].status) then s
    else s.(mem := s.mem[m := MemOf(s.snaps[m])], snaps := s.snaps - {m})
  }

  // A listed executing record is read again under the review lock.
  function DoRecoverRead(s: State, m: Manager): (s': State)
    ensures Grows(s, s')
  {
    if !Unknown(s, m) || m !in s.snaps || !Executing(s.snaps[m].status) || s.section.Some? || s.durable.None? then s
    else if Executing(s.durable.value.status) then
      s.(section := Some(Section(m, Restore(s.durable.value))), snaps := s.snaps - {m})
    else s.(mem := s.mem[m := MemOf(s.durable.value)], snaps := s.snaps - {m})
  }

  // A write that raises aborts the construction of the manager.
  function DoRecoverWrite(s: State, o: SaveOutcome): (s': State)
    ensures Grows(s, s')
  {
    if s.section.None? || !s.section.value.stage.Restore? || !Unknown(s, s.section.value.manager) then s
    else
      var m := s.section.value.manager;
      var saved := Emit(Local(MemOf(Recovered(s.section.value.stage.found)), s.durable), o);
      var s1 := s.(durable := saved.durable, section := None);
      if o == Saved then s1.(mem := s1.mem[m := saved.mem]) else s1
  }

  function DoAcceptBegin(s: State, m: Manager, available: bool, current: bool): (s': State)
    ensures Grows(s, s')
  {
    if m !in s.mem || s.section.Some? || !ConditionFree(s, m) then s
    else
      var r := AcceptRead(LocalOf(s, m), available, current);
      var s1 := With(s, m, r.0);
      if r.1 then s1.(section := Some(Section(m, Claim))) else s1
  }

  function DoAcceptPersistClaim(s: State, o: SaveOutcome): (s': State)
    ensures Grows(s, s')
  {
    if !InSection(s, Claim) then s
    else
      var m := s.section.value.manager;
      var s1 := With(s, m, AcceptClaim(LocalOf(s, m), o)).(claims := if o == NotSaved then s.claims else s.claims + 1);
      if o == Saved then s1.(section := Some(Section(m, Effects))) else s1.(section := None)
  }

  // `_accept_claimed`: the chapter, summary and canon writes.
  function DoAcceptEffects(s: State, ok: bool): (s': State)
    ensures Grows(s, s')
  {
    if !InSection(s, Effects) then s
    else s.(entered := s.entered + 1, succeeded := s.succeeded || ok,
            section := Some(Section(s.section.value.manager, if ok then Finish else MarkUncertain)))
  }

  function DoAcceptPersistDone(s: State, o: SaveOutcome, tailOk: bool): (s': State)
    ensures Grows(s, s')
  {
    if !InSection(s, Finish) then s
    else
      var m := s.section.value.manager;
      var s1 := With(s, m, AcceptFinish(LocalOf(s, m), o));
      if o == Saved && tailOk then s1.(section := None) else s1.(section := Some(Section(m, MarkUncertain)))
  }

  function DoAcceptPersistUncertain(s: State, o: SaveOutcome): (s': State)
    ensures Grows(s, s')
  {
    if !InSection(s, MarkUncertain) then s
    else
      var m := s.section.value.manager;
      With(s, m, AcceptUncertain(LocalOf(s, m), o)).(section := None)
  }

  function DoRejectBegin(s: State, m: Manager, available: bool): (s': State)
    ensures Grows(s, s')
  {
    if m !in s.mem || s.section.Some? || !ConditionFree(s, m) || !Rejectable(LocalOf(s, m), available) then s
    else s.(section := Some(Section(m, WriteReject)))
  }

  function DoRejectPersist(s: State, o: SaveOutcome): (s': State)
    ensures Grows(s, s')
  {
    if !InSection(s, WriteReject) then s
    else
      var m := s.section.value.manager;
      With(s, m, RejectWrite(LocalOf(s, m), o)).(
        section := None, rejections := if o == NotSaved then s.rejections else s.rejections + 1)
  }

  // The manager's process dies: its copies and its locks are gone.
  function DoCrash(s: State, m: Manager): (s': State)
    ensures Grows(s, s')
  {
    s.(mem := s.mem - {m}, snaps := s.snaps - {m},
       section := if s.section.Some? && s.section.value.manager == m then None else s.section,
       worker := if s.owner == Some(m) then Finished else s.worker)
  }

  function Apply(s: State, a: Action): (s': State)
    ensures Grows(s, s')
  {
    match a
    case Start(m, threadOk, o) => DoStart(s, m, threadOk, o)
    case RequestCancel(m) => DoRequestCancel(s, m)
    case Cancel(m, o) => DoCancel(s, m, o)
    case Begin(o) => DoBegin(s, o)
    case Delta(o) => DoDelta(s, o)
    case RouteFails => if OwnerReady(s, AtRoutes) then s.(worker := AtHandler) else s
    case RouteDone => if OwnerReady(s, AtRoutes) then s.(worker := AtPublish) else s
    case Handle(bound, o) => DoHandle(s, bound, o)
    case OpenPublication(refused, o) => DoOpenPublication(s, refused, o)
    case PublicationHook(e) => DoPublicationHook(s, e)
    case PublicationHookSave(o) => DoPublicationHookSave(s, o)
    case ClosePublication(refused, o) => DoClosePublication(s, refused, o)
    case MarkPublicationUncertain(o) => DoMarkPublicationUncertain(s, o)
    case FinalHook(e) => DoFinalHook(s, e)
    case FinalHookSave(o) => DoFinalHookSave(s, o)
    case StartFailureSave(o) => DoStartFailureSave(s, o)
    case Snapshot(m) => DoSnapshot(s, m)
    case LoadDecided(m) => DoLoadDecided(s, m)
    case RecoverRead(m) => DoRecoverRead(s, m)
    case RecoverWrite(o) => DoRecoverWrite(s, o)
    case AcceptBegin(m, available, current) => DoAcceptBegin(s, m, available, current)
    case AcceptPersistClaim(o) => DoAcceptPersistClaim(s, o)
    case AcceptEffects(ok) => DoAcceptEffects(s, ok)
    case AcceptPersistDone(o, tailOk) => DoAcceptPersistDone(s, o, tailOk)
    case AcceptPersistUncertain(o) => DoAcceptPersistUncertain(s, o)
    case RejectBegin(m, available) => DoRejectBegin(s, m, available)
    case RejectPersist(o) => DoRejectPersist(s, o)
    case Crash(m) => DoCrash(s, m)
  }

  function Exec(s: State, actions: seq<Action>): (s': State)
    ensures Grows(s, s')
    decreases |actions|
  {
    if actions == [] then s else Apply(Exec(s, actions[..|actions| - 1]), actions[|actions| - 1])
  }

  ghost predicate Reachable(s: State) {
    exists hooks, guarded, actions :: s == Exec(Init(hooks, guarded), actions)
  }

  /******* the invariant *******/

  // Before the worker has tried to publish, no hook result exists anywhere.
  predicate BeforePublication(w: Worker) {
    w.NotStarted? || w.AtBegin? || w.AtRoutes? || w.AtHandler? || w.AtPublish?
  }

  predicate HookSettled(m: Mem) {
    m.hookCalled || m.hook != Unreported || !HasHooks(m)
  }

  predicate PublishingNow(s: State) {
    s.section.Some? && s.section.value.stage.Publish?
  }

  // A record that may be durable, or be listed by a starting manager.
  predicate RecordOk(s: State, r: Record) {
    && r.hooksRequired == s.hooks
    && (r.status == Settling ==> s.hooks)
    && (r.hook != Unreported ==> s.hooks)
    && (r.hook == HookCompleted ==> s.hookOk)
    && (r.status == Completed || DecisionOf(r.status) != Undecided ==> s.published && (s.hooks ==> r.hook == HookCompleted))
    && (DecisionOf(r.status) == ByAccept ==> s.claims == 1)
    && (DecisionOf(r.status) == ByReject ==> s.rejections == 1)
    && (r.status == Accepted ==> s.succeeded)
    && (r.status == AcceptanceUncertain ==> s.entered == 1)
    && (BeforePublication(s.worker) ==> r.hook == Unreported && r.status != Settling)
  }

  predicate MemOk(s: State, m: Manager, x: Mem) {
    && x.hooksRequired == s.hooks
    && (x.liveHook <==> s.owner == Some(m) && s.hooks)
    && (x.hookCalled ==> s.hookRuns == 1)
    && (x.status == Settling ==> s.hooks)
    && (x.hook != Unreported ==> s.hooks)
    && (x.hook == HookCompleted ==> s.hookOk)
    && (Public(x).status == Completed || DecisionOf(x.status) != Undecided ==> s.hooks ==> x.hook == HookCompleted)
    && (DecisionOf(x.status) != Undecided ==> s.published)
    && (x.status == Accepted ==> s.succeeded)
    && (x.status == AcceptanceUncertain ==> s.entered == 1)
    && (x.status == Completed ==> s.published || (PublishingNow(s) && s.owner == Some(m)))
    && (BeforePublication(s.worker) ==> x.hook == Unreported && !x.hookCalled && x.status != Settling)
  }

  // The owner's copy between two writes of the publication block.
  predicate PublishStageOk(s: State, stage: PublishStage, x: Mem) {
    var open := if s.guarded then PublicationStatus(x) else Completed;
    match stage
    case HookStage => x.status == open && x.hook == Unreported && !x.hookCalled
    case HookSaveStage =>
      && s.hooks && x.hookCalled && (x.hook.HookCompleted? || x.hook.HookFailed?)
      && (x.status == open || x.status.Failed? || x.status.Cancelled?) && (x.status == open ==> x.hook == HookCompleted)
    case CloseStage =>
      && HookSettled(x) && (x.status == open || x.status.Failed? || x.status.Cancelled?)
      && (s.hooks && x.status == open ==> x.hook == HookCompleted)
    case UncertainStage => true
  }

  predicate OwnerInv(s: State) {
    && (s.owner.None? ==> s.worker == NotStarted && s.mem == map[] && s.snaps == map[] && s.durable.None?
                          && s.section.None? && !s.published && s.hookRuns == 0)
    && (s.owner.Some? ==> s.worker != NotStarted)
    && (s.owner.Some? && s.owner.value !in s.mem ==> s.worker == Finished)
    && (s.owner.Some? && s.owner.value in s.mem && s.hookRuns > 0 ==> s.mem[s.owner.value].hookCalled)
    && (s.worker.AtHookSave? ==> s.hooks)
    && s.hookRuns <= 1
    && (s.hookOk ==> s.hookRuns == 1)
    && (s.mem != map[] || s.snaps != map[] ==> s.durable.Some?)
    && (s.worker == Publishing <==> PublishingNow(s))
  }

  predicate SectionInv(s: State) {
    s.section.Some? ==>
      var m, stage := s.section.value.manager, s.section.value.stage;
      && (!stage.Restore? ==> m in s.mem)
      && (stage.Publish? ==> s.owner == Some(m) && PublishStageOk(s, stage.p, s.mem[m]))
      && (stage.Restore? ==> Unknown(s, m) && m !in s.snaps && !s.published && Executing(stage.found.status) && RecordOk(s, stage.found))
      && (stage.Claim? || stage.WriteReject? ==>
            s.published && s.claims + s.rejections == 0 && (s.hooks ==> s.mem[m].hook == HookCompleted))
      && (stage.Effects? || stage.Finish? || stage.MarkUncertain? ==>
            s.claims == 1 && (s.hooks ==> s.mem[m].hook == HookCompleted))
      && (stage == Effects ==> s.entered == 0)
      && (stage == Finish ==> s.succeeded)
      && (stage == Finish || stage == MarkUncertain ==> s.entered == 1)
  }

  // Once a completion was durable the worker has nothing left to write.
  predicate PublishedInv(s: State) {
    s.published ==>
      && s.owner.Some?
      && s.durable.Some? && Terminal(s.durable.value.status)
      && (s.owner.value in s.mem ==> HookSettled(s.mem[s.owner.value]) && Terminal(s.mem[s.owner.value].status))
      && (PublishingNow(s) ==> (s.section.value.stage.p.CloseStage? || s.section.value.stage.p.UncertainStage?)
                               && (s.section.value.stage.p == CloseStage ==> !s.guarded)
                               && s.claims + s.rejections == 0)
      && (!PublishingNow(s) ==> s.worker == AtHook(false) || s.worker.Finished?)
  }

  predicate DecisionInv(s: State) {
    && s.claims + s.rejections <= 1
    && s.entered <= s.claims
    && (s.succeeded ==> s.entered == 1)
    && (s.claims + s.rejections == 1 ==> s.published && !IsCompleted(s.durable))
  }

  predicate Inv(s: State) {
    && GlobalInv(s)
    && (forall m | m in s.mem :: MemOk(s, m, s.mem[m]))
    && (forall m | m in s.snaps :: RecordOk(s, s.snaps[m]))
  }

  predicate GlobalInv(s: State) {
    && OwnerInv(s) && SectionInv(s) && PublishedInv(s) && DecisionInv(s)
    && (s.durable.Some? ==> RecordOk(s, s.durable.value))
  }

  // What a step by `m` may change about everybody else.
  predicate Steady(s: State, s': State, m: Manager) {
    && s'.hooks == s.hooks && s'.owner == s.owner
    && s'.mem.Keys - {m} <= s.mem.Keys && (forall k | k in s'.mem && k != m :: s'.mem[k] == s.mem[k])
    && s'.snaps.Keys <= s.snaps.Keys && (forall k | k in s'.snaps :: s'.snaps[k] == s.snaps[k])
    && (s.published ==> s'.published) && (s.hookOk ==> s'.hookOk) && (s.hookRuns == 1 ==> s'.hookRuns == 1)
    && (s.claims == 1 ==> s'.claims == 1) && (s.rejections == 1 ==> s'.rejections == 1)
    && (s.entered == 1 ==> s'.entered == 1) && (s.succeeded ==> s'.succeeded)
    && (BeforePublication(s'.worker) ==> BeforePublication(s.worker))
    && (PublishingNow(s) && s.owner != Some(m) ==> PublishingNow(s'))
  }

  lemma SteadyInv(s: State, s': State, m: Manager)
    requires Inv(s) && Steady(s, s', m)
    requires GlobalInv(s')
    requires m in s'.mem ==> MemOk(s', m, s'.mem[m])
    ensures Inv(s')
  {
    forall k | k in s'.mem ensures MemOk(s', k, s'.mem[k]) {
      if k != m { assert MemOk(s, k, s.mem[k]); }
    }
    forall k | k in s'.snaps ensures RecordOk(s', s'.snaps[k]) {
      assert RecordOk(s, s.snaps[k]);
    }
  }

  // The parts of the invariant that a block of `m` can see.
  predicate Seen(s: State, m: Manager) {
    GlobalInv(s) && m in s.mem && MemOk(s, m, s.mem[m])
  }

  // A block before publication.
  lemma RunBlock(s: State, m: Manager, l': Local, w: Worker, s': State)
    requires Seen(s, m) && s.owner == Some(m) && BeforePublication(s.worker) && ConditionFree(s, m)
    requires PlainWrite(LocalOf(s, m), l')
    requires l'.mem.status == s.mem[m].status || l'.mem.status.Generating? || l'.mem.status.Failed? || l'.mem.status.Cancelled?
    requires w.AtRoutes? || w.AtHandler? || w == AtHook(false)
    requires s' == With(s, m, l').(worker := w)
    ensures GlobalInv(s') && MemOk(s', m, l'.mem) && Steady(s, s', m)
  {}

  lemma CancelKeepsGlobal(s: State, m: Manager, l': Local, s': State)
    requires Seen(s, m) && ConditionFree(s, m)
    requires PlainWrite(LocalOf(s, m), l') && l'.mem.status.Cancelled? && Executing(s.mem[m].status)
    requires s' == With(s, m, l')
    ensures GlobalInv(s')
  {}

  lemma CancelBlock(s: State, m: Manager, l': Local, s': State)
    requires Seen(s, m) && ConditionFree(s, m)
    requires PlainWrite(LocalOf(s, m), l') && l'.mem.status.Cancelled? && Executing(s.mem[m].status)
    requires s' == With(s, m, l')
    ensures GlobalInv(s') && MemOk(s', m, l'.mem) && Steady(s, s', m)
  {
    CancelKeepsGlobal(s, m, l', s');
  }

  lemma OpenBlock(s: State, m: Manager, l': Local, next: PublishNext, s': State)
    requires Seen(s, m) && s.owner == Some(m) && s.worker == AtPublish && s.section.None?
    requires PlainWrite(LocalOf(s, m), l')
    requires next.Leave? ==> (l' == LocalOf(s, m) && Terminal(s.mem[m].status)) || l'.mem.status.Cancelled?
    requires next.LeaveToHandler? ==> l' == LocalOf(s, m)
    requires next.ToHook? || next.ToUncertain? ==>
               Executing(s.mem[m].status) && l'.mem.status == if s.guarded then PublicationStatus(s.mem[m]) else Completed
    requires !s.hooks ==> !next.ToUncertain? && (next.ToHook? ==> l'.durable == s.durable)
    requires !next.ToClose?
    requires s' == AfterPublish(With(s, m, l').(section := Some(Section(m, Publish(HookStage))), worker := Publishing), next)
    ensures GlobalInv(s') && MemOk(s', m, l'.mem) && Steady(s, s', m)
  {}

  lemma CloseBlock(s: State, m: Manager, l': Local, next: PublishNext, s': State)
    requires Seen(s, m) && s.section == Some(Section(m, Publish(CloseStage)))
    requires PlainWrite(LocalOf(s, m), l')
    requires next.Leave? || next.ToUncertain?
    requires l'.mem.status.Failed? || l'.mem.status.Cancelled? || l'.mem.status.Completed?
    requires l'.mem.status.Completed? ==> s.hooks ==> s.mem[m].hook == HookCompleted
    requires l'.mem.status.Completed? && next.Leave? ==> l'.durable == Some(Public(l'.mem))
    requires s' == AfterPublish(With(s, m, l'), next)
    ensures GlobalInv(s') && MemOk(s', m, l'.mem) && Steady(s, s', m)
  {}

  lemma UncertainBlock(s: State, m: Manager, l': Local, s': State)
    requires Seen(s, m) && s.section == Some(Section(m, Publish(UncertainStage)))
    requires PlainWrite(LocalOf(s, m), l') && l'.mem.status.Failed?
    requires s' == AfterPublish(With(s, m, l'), Leave)
    ensures GlobalInv(s') && MemOk(s', m, l'.mem) && Steady(s, s', m)
  {}

  lemma PublicationHookBlock(s: State, m: Manager, l': Local, e: HookEnv, s': State)
    requires Seen(s, m) && s.section == Some(Section(m, Publish(HookStage))) && s.hooks
    requires HookRan(LocalOf(s, m), l', e)
    requires s' == CountHook(With(s, m, l'), e).(section := Some(Section(m, Publish(HookSaveStage))))
    ensures GlobalInv(s') && MemOk(s', m, l'.mem) && Steady(s, s', m)
  {}

  lemma FinalHookBlock(s: State, m: Manager, l': Local, e: HookEnv, s': State)
    requires Seen(s, m) && s.owner == Some(m) && s.worker.AtHook? && s.hooks && ConditionFree(s, m)
    requires !s.mem[m].hookCalled && s.mem[m].hook == Unreported
    requires HookRan(LocalOf(s, m), l', e)
    requires s' == CountHook(With(s, m, l'), e).(worker := AtHookSave(s.worker.thenSave))
    ensures GlobalInv(s') && MemOk(s', m, l'.mem) && Steady(s, s', m)
  {}

  lemma RefreshBlock(s: State, m: Manager, x: Mem, ok: bool, s': State)
    requires Seen(s, m) && s.section.None? && ConditionFree(s, m)
    requires x == s.mem[m] || x == (if s.durable.Some? then Refresh(s.mem[m], s.durable.value) else s.mem[m])
    requires ok ==> Accounted(x) && x.status.Completed? && IsCompleted(s.durable)
    requires s' == With(s, m, Local(x, s.durable)).(section := if ok then Some(Section(m, Claim)) else s.section)
    ensures GlobalInv(s') && MemOk(s', m, x) && Steady(s, s', m)
  {}

  lemma InitInv(hooks: bool, guarded: bool)
    ensures Inv(Init(hooks, guarded))
  {}

  lemma StartInv(s: State, m: Manager, threadOk: bool, o: SaveOutcome)
    requires Inv(s)
    ensures Inv(DoStart(s, m, threadOk, o))
  {}

  lemma RequestCancelBlock(s: State, m: Manager, x: Mem, s': State)
    requires Seen(s, m) && x == s.mem[m].(cancelled := true) && s' == s.(mem := s.mem[m := x])
    ensures GlobalInv(s') && MemOk(s', m, x) && Steady(s, s', m)
  {}

  lemma RequestCancelInv(s: State, m: Manager)
    requires Inv(s)
    ensures Inv(DoRequestCancel(s, m))
  {
    if m in s.mem {
      RequestCancelBlock(s, m, s.mem[m].(cancelled := true), DoRequestCancel(s, m));
      SteadyInv(s, DoRequestCancel(s, m), m);
    }
  }

  lemma CancelWriteInv(s: State, m: Manager, l': Local)
    requires Inv(s) && m in s.mem && ConditionFree(s, m)
    requires PlainWrite(LocalOf(s, m), l')
    requires if Terminal(s.mem[m].status) then l' == LocalOf(s, m) else l'.mem.status.Cancelled?
    ensures Inv(With(s, m, l'))
  {
    if l' == LocalOf(s, m) {
      assert With(s, m, l') == s;
    } else {
      CancelBlock(s, m, l', With(s, m, l'));
      SteadyInv(s, With(s, m, l'), m);
    }
  }

  lemma CancelInv(s: State, m: Manager, o: SaveOutcome)
    requires Inv(s)
    ensures Inv(DoCancel(s, m, o))
  {
    if CancelEnabled(s, m) {
      CancelShape(LocalOf(s, m), o);
      CancelWriteInv(s, m, CancelExecution(LocalOf(s, m), o));
    }
  }

  lemma BeginInv(s: State, o: SaveOutcome)
    requires Inv(s)
    ensures Inv(DoBegin(s, o))
  {
    if OwnerReady(s, AtBegin) {
      WorkerShapes(LocalOf(s, s.owner.value), false, o);
      var r := WorkerBegin(LocalOf(s, s.owner.value), o);
      RunStep(s, s.owner.value, r.0, After(r.1));
    }
  }

  lemma DeltaInv(s: State, o: SaveOutcome)
    requires Inv(s)
    ensures Inv(DoDelta(s, o))
  {
    if OwnerReady(s, AtRoutes) {
      WorkerShapes(LocalOf(s, s.owner.value), false, o);
      var r := WorkerDelta(LocalOf(s, s.owner.value), o);
      RunStep(s, s.owner.value, r.0, After(r.1));
    }
  }

  lemma HandleInv(s: State, bound: bool, o: SaveOutcome)
    requires Inv(s)
    ensures Inv(DoHandle(s, bound, o))
  {
    if OwnerReady(s, AtHandler) {
      WorkerShapes(LocalOf(s, s.owner.value), bound, o);
      RunStep(s, s.owner.value, WorkerHandle(LocalOf(s, s.owner.value), bound, o), AtHook(false));
    }
  }

  lemma RunStep(s: State, m: Manager, l': Local, w: Worker)
    requires Inv(s) && m in s.mem && s.owner == Some(m) && BeforePublication(s.worker) && ConditionFree(s, m)
    requires PlainWrite(LocalOf(s, m), l')
    requires l'.mem.status == s.mem[m].status || l'.mem.status.Generating? || l'.mem.status.Failed? || l'.mem.status.Cancelled?
    requires w.AtRoutes? || w.AtHandler? || w == AtHook(false)
    ensures Inv(With(s, m, l').(worker := w))
  {
    RunBlock(s, m, l', w, With(s, m, l').(worker := w));
    SteadyInv(s, With(s, m, l').(worker := w), m);
  }

  lemma OpenPublicationInv(s: State, refused: bool, o: SaveOutcome)
    requires Inv(s)
    ensures Inv(DoOpenPublication(s, refused, o))
  {
    if OwnerReady(s, AtPublish) && s.section.None? {
      var m := s.owner.value;
      PublishOpenShape(LocalOf(s, m), s.guarded, refused, o);
      var r := PublishOpen(LocalOf(s, m), s.guarded, refused, o);
      OpenBlock(s, m, r.0, r.1, DoOpenPublication(s, refused, o));
      SteadyInv(s, DoOpenPublication(s, refused, o), m);
    }
  }

  lemma PublicationHookInv(s: State, e: HookEnv)
    requires Inv(s)
    ensures Inv(DoPublicationHook(s, e))
  {
    if InSection(s, Publish(HookStage)) {
      var m := s.section.value.manager;
      HookShape(LocalOf(s, m), e, s.guarded);
      var r := HookCall(LocalOf(s, m), e, s.guarded);
      if r.1 {
        PublicationHookBlock(s, m, r.0, e, DoPublicationHook(s, e));
      } else {
        assert s.mem[m := s.mem[m]] == s.mem;
      }
      SteadyInv(s, DoPublicationHook(s, e), m);
    }
  }

  lemma HookSavedBlock(s: State, m: Manager, l': Local, s': State)
    requires Seen(s, m) && s.section == Some(Section(m, Publish(HookSaveStage)))
    requires HookSaved(LocalOf(s, m), l') && s' == AfterPublish(With(s, m, l'), ToClose)
    ensures GlobalInv(s') && MemOk(s', m, l'.mem) && Steady(s, s', m)
  {}

  lemma PublicationHookSaveInv(s: State, o: SaveOutcome)
    requires Inv(s)
    ensures Inv(DoPublicationHookSave(s, o))
  {
    if InSection(s, Publish(HookSaveStage)) {
      var m := s.section.value.manager;
      var l' := HookSave(LocalOf(s, m), o);
      HookSaveShape(LocalOf(s, m), o);
      HookSavedBlock(s, m, l', DoPublicationHookSave(s, o));
      SteadyInv(s, DoPublicationHookSave(s, o), m);
    }
  }

  lemma ClosedBlock(s: State, m: Manager, refused: bool, o: SaveOutcome, s': State)
    requires Seen(s, m) && s.section == Some(Section(m, Publish(CloseStage)))
    requires var r := PublishClose(LocalOf(s, m), s.guarded, refused, o);
             s' == AfterPublish(With(s, m, r.0), r.1)
    ensures GlobalInv(s') && m in s'.mem && MemOk(s', m, s'.mem[m]) && Steady(s, s', m)
  {
    var r := PublishClose(LocalOf(s, m), s.guarded, refused, o);
    PublishCloseShape(LocalOf(s, m), s.guarded, refused, o);
    CloseBlock(s, m, r.0, r.1, s');
  }

  lemma ClosePublicationInv(s: State, refused: bool, o: SaveOutcome)
    requires Inv(s)
    ensures Inv(DoClosePublication(s, refused, o))
  {
    if InSection(s, Publish(CloseStage)) {
      var m := s.section.value.manager;
      ClosedBlock(s, m, refused, o, DoClosePublication(s, refused, o));
      SteadyInv(s, DoClosePublication(s, refused, o), m);
    }
  }

  lemma MarkPublicationUncertainInv(s: State, o: SaveOutcome)
    requires Inv(s)
    ensures Inv(DoMarkPublicationUncertain(s, o))
  {
    if InSection(s, Publish(UncertainStage)) {
      var m := s.section.value.manager;
      UncertainBlock(s, m, PublishUncertain(LocalOf(s, m), o), DoMarkPublicationUncertain(s, o));
      SteadyInv(s, DoMarkPublicationUncertain(s, o), m);
    }
  }

  lemma FinalHookRunsInv(s: State, m: Manager, l': Local, e: HookEnv, s': State)
    requires Inv(s) && m in s.mem && s.owner == Some(m) && s.worker.AtHook? && s.hooks && ConditionFree(s, m)
    requires !s.mem[m].hookCalled && s.mem[m].hook == Unreported
    requires HookRan(LocalOf(s, m), l', e)
    requires s' == CountHook(With(s, m, l'), e).(worker := AtHookSave(s.worker.thenSave))
    ensures Inv(s')
  {
    FinalHookBlock(s, m, l', e, s');
    SteadyInv(s, s', m);
  }

  lemma FinalHookSkippedInv(s: State)
    requires Inv(s) && s.worker.AtHook? && s.owner.Some? && s.owner.value in s.mem && HookSettled(s.mem[s.owner.value])
    ensures Inv(s.(worker := AfterFinal(s.worker.thenSave)))
  {
    SteadyInv(s, s.(worker := AfterFinal(s.worker.thenSave)), s.owner.value);
  }

  lemma FinalHookInv(s: State, e: HookEnv)
    requires Inv(s)
    ensures Inv(DoFinalHook(s, e))
  {
    if s.worker.AtHook? && OwnerReady(s, s.worker) {
      var m := s.owner.value;
      assert MemOk(s, m, s.mem[m]);
      HookShape(LocalOf(s, m), e, false);
      var r := HookCall(LocalOf(s, m), e, false);
      if r.1 {
        FinalHookRunsInv(s, m, r.0, e, DoFinalHook(s, e));
      } else {
        assert s.mem[m := s.mem[m]] == s.mem;
        FinalHookSkippedInv(s);
      }
    }
  }

  lemma FinalHookSaveBlock(s: State, m: Manager, l': Local, s': State)
    requires Seen(s, m) && s.owner == Some(m) && s.worker.AtHookSave?
    requires HookSaved(LocalOf(s, m), l')
    requires s' == With(s, m, l').(worker := AfterFinal(s.worker.thenSave))
    ensures GlobalInv(s') && MemOk(s', m, l'.mem) && Steady(s, s', m)
  {}

  lemma FinalHookSaveInv(s: State, o: SaveOutcome)
    requires Inv(s)
    ensures Inv(DoFinalHookSave(s, o))
  {
    if s.worker.AtHookSave? && s.owner.Some? && s.owner.value in s.mem {
      var m := s.owner.value;
      HookSaveShape(LocalOf(s, m), o);
      FinalHookSaveBlock(s, m, HookSave(LocalOf(s, m), o), DoFinalHookSave(s, o));
      SteadyInv(s, DoFinalHookSave(s, o), m);
    }
  }

  lemma StartFailureSaveInv(s: State, o: SaveOutcome)
    requires Inv(s)
    ensures Inv(DoStartFailureSave(s, o))
  {
    if OwnerReady(s, AtStartFailure) {
      SteadyInv(s, DoStartFailureSave(s, o), s.owner.value);
    }
  }

  lemma SnapshotBlock(s: State, m: Manager, r: Record, s': State)
    requires GlobalInv(s) && Unknown(s, m) && s.durable == Some(r) && s' == s.(snaps := s.snaps[m := r])
    requires s.section.Some? ==> s.section.value.manager != m
    ensures GlobalInv(s') && RecordOk(s', r)
  {}

  lemma SnapshotInv(s: State, m: Manager)
    requires Inv(s)
    ensures Inv(DoSnapshot(s, m))
  {
    var s' := DoSnapshot(s, m);
    if s' != s {
      SnapshotBlock(s, m, s.durable.value, s');
      forall k | k in s'.mem ensures MemOk(s', k, s'.mem[k]) { assert MemOk(s, k, s.mem[k]); }
      forall k | k in s'.snaps ensures RecordOk(s', s'.snaps[k]) {
        if k != m { assert RecordOk(s, s.snaps[k]); }
      }
    }
  }

  // Adopting a listed or re-read record that is not executing.
  lemma AdoptInv(s: State, m: Manager, r: Record)
    requires Inv(s) && Unknown(s, m) && s.durable.Some? && RecordOk(s, r) && !Executing(r.status)
    requires s.section.Some? ==> s.section.value.manager != m
    ensures Inv(s.(mem := s.mem[m := MemOf(r)], snaps := s.snaps - {m}))
  {
    var s' := s.(mem := s.mem[m := MemOf(r)], snaps := s.snaps - {m});
    assert GlobalInv(s');
    assert MemOk(s', m, MemOf(r));
    SteadyInv(s, s', m);
  }

  lemma LoadDecidedInv(s: State, m: Manager)
    requires Inv(s)
    ensures Inv(DoLoadDecided(s, m))
  {
    if DoLoadDecided(s, m) != s { AdoptInv(s, m, s.snaps[m]); }
  }

  lemma RecoverReadInv(s: State, m: Manager)
    requires Inv(s)
    ensures Inv(DoRecoverRead(s, m))
  {
    var s' := DoRecoverRead(s, m);
    if s' != s && Executing(s.durable.value.status) {
      assert s' == s.(section := Some(Section(m, Restore(s.durable.value))), snaps := s.snaps - {m});
      SteadyInv(s, s', m);
    } else if s' != s {
      AdoptInv(s, m, s.durable.value);
    }
  }

  lemma RecoverBlock(s: State, m: Manager, x: Mem, d: Option<Record>, made: bool, s': State)
    requires GlobalInv(s) && s.section.Some? && s.section.value.manager == m && s.section.value.stage.Restore?
    requires x == MemOf(Recovered(s.section.value.stage.found)) && (d == s.durable || d == Some(Public(x))) && (made ==> d.Some?)
    requires s' == s.(durable := d, section := None, mem := if made then s.mem[m := x] else s.mem)
    ensures GlobalInv(s') && (made ==> MemOk(s', m, x)) && Steady(s, s', m)
  {}

  lemma RecoverWriteInv(s: State, o: SaveOutcome)
    requires Inv(s)
    ensures Inv(DoRecoverWrite(s, o))
  {
    var s' := DoRecoverWrite(s, o);
    if s' != s {
      var m := s.section.value.manager;
      RecoverBlock(s, m, MemOf(Recovered(s.section.value.stage.found)), s'.durable, o == Saved, s');
      SteadyInv(s, s', m);
    }
  }

  lemma AcceptBeginInv(s: State, m: Manager, available: bool, current: bool)
    requires Inv(s)
    ensures Inv(DoAcceptBegin(s, m, available, current))
  {
    if m in s.mem && s.section.None? && ConditionFree(s, m) {
      AcceptReadShape(LocalOf(s, m), available, current);
      var r := AcceptRead(LocalOf(s, m), available, current);
      RefreshBlock(s, m, r.0.mem, r.1, DoAcceptBegin(s, m, available, current));
      SteadyInv(s, DoAcceptBegin(s, m, available, current), m);
    }
  }

  lemma ClaimBlock(s: State, m: Manager, o: SaveOutcome, s': State)
    requires Seen(s, m) && s.section == Some(Section(m, Claim))
    requires s' == With(s, m, AcceptClaim(LocalOf(s, m), o)).(
                     claims := if o == NotSaved then s.claims else s.claims + 1,
                     section := if o == Saved then Some(Section(m, Effects)) else None)
    ensures GlobalInv(s') && MemOk(s', m, s'.mem[m]) && Steady(s, s', m)
  {}

  lemma AcceptPersistClaimInv(s: State, o: SaveOutcome)
    requires Inv(s)
    ensures Inv(DoAcceptPersistClaim(s, o))
  {
    if InSection(s, Claim) {
      var m := s.section.value.manager;
      ClaimBlock(s, m, o, DoAcceptPersistClaim(s, o));
      SteadyInv(s, DoAcceptPersistClaim(s, o), m);
    }
  }

  lemma AcceptEffectsInv(s: State, ok: bool)
    requires Inv(s)
    ensures Inv(DoAcceptEffects(s, ok))
  {
    if InSection(s, Effects) { SteadyInv(s, DoAcceptEffects(s, ok), s.section.value.manager); }
  }

  lemma FinishBlock(s: State, m: Manager, o: SaveOutcome, over: bool, s': State)
    requires Seen(s, m) && s.section == Some(Section(m, Finish))
    requires s' == With(s, m, AcceptFinish(LocalOf(s, m), o)).(section := if over then None else Some(Section(m, MarkUncertain)))
    ensures GlobalInv(s') && MemOk(s', m, s'.mem[m]) && Steady(s, s', m)
  {}

  lemma AcceptPersistDoneInv(s: State, o: SaveOutcome, tailOk: bool)
    requires Inv(s)
    ensures Inv(DoAcceptPersistDone(s, o, tailOk))
  {
    if InSection(s, Finish) {
      var m := s.section.value.manager;
      FinishBlock(s, m, o, o == Saved && tailOk, DoAcceptPersistDone(s, o, tailOk));
      SteadyInv(s, DoAcceptPersistDone(s, o, tailOk), m);
    }
  }

  lemma AcceptPersistUncertainInv(s: State, o: SaveOutcome)
    requires Inv(s)
    ensures Inv(DoAcceptPersistUncertain(s, o))
  {
    if InSection(s, MarkUncertain) { SteadyInv(s, DoAcceptPersistUncertain(s, o), s.section.value.manager); }
  }

  lemma RejectBeginInv(s: State, m: Manager, available: bool)
    requires Inv(s)
    ensures Inv(DoRejectBegin(s, m, available))
  {
    if DoRejectBegin(s, m, available) != s { SteadyInv(s, DoRejectBegin(s, m, available), m); }
  }

  lemma RejectBlock(s: State, m: Manager, o: SaveOutcome, s': State)
    requires Seen(s, m) && s.section == Some(Section(m, WriteReject))
    requires s' == With(s, m, RejectWrite(LocalOf(s, m), o)).(
                     section := None, rejections := if o == NotSaved then s.rejections else s.rejections + 1)
    ensures GlobalInv(s') && MemOk(s', m, s'.mem[m]) && Steady(s, s', m)
  {}

  lemma RejectPersistInv(s: State, o: SaveOutcome)
    requires Inv(s)
    ensures Inv(DoRejectPersist(s, o))
  {
    if InSection(s, WriteReject) {
      var m := s.section.value.manager;
      RejectBlock(s, m, o, DoRejectPersist(s, o));
      SteadyInv(s, DoRejectPersist(s, o), m);
    }
  }

  lemma CrashBlock(s: State, m: Manager)
    requires GlobalInv(s)
    ensures GlobalInv(DoCrash(s, m)) && Steady(s, DoCrash(s, m), m) && m !in DoCrash(s, m).mem
  {}

  lemma CrashInv(s: State, m: Manager)
    requires Inv(s)
    ensures Inv(DoCrash(s, m))
  {
    CrashBlock(s, m);
    SteadyInv(s, DoCrash(s, m), m);
  }

  lemma RouteInv(s: State)
    requires Inv(s)
    ensures Inv(Apply(s, RouteFails)) && Inv(Apply(s, RouteDone))
  {
    if OwnerReady(s, AtRoutes) {
      SteadyInv(s, Apply(s, RouteFails), s.owner.value);
      SteadyInv(s, Apply(s, RouteDone), s.owner.value);
    }
  }

  predicate OfWorker(a: Action) {
    a.Start? || a.Begin? || a.Delta? || a.RouteFails? || a.RouteDone? || a.Handle? || a.OpenPublication?
    || a.PublicationHook? || a.PublicationHookSave? || a.ClosePublication? || a.MarkPublicationUncertain?
    || a.FinalHook? || a.FinalHookSave? || a.StartFailureSave?
  }

  lemma WorkerStepInv(s: State, a: Action)
    requires Inv(s) && OfWorker(a)
    ensures Inv(Apply(s, a))
  {
    match a
    case Start(m, threadOk, o) => StartInv(s, m, threadOk, o);
    case Begin(o) => BeginInv(s, o);
    case Delta(o) => DeltaInv(s, o);
    case RouteFails => RouteInv(s);
    case RouteDone => RouteInv(s);
    case Handle(bound, o) => HandleInv(s, bound, o);
    case OpenPublication(refused, o) => OpenPublicationInv(s, refused, o);
    case PublicationHook(e) => PublicationHookInv(s, e);
    case PublicationHookSave(o) => PublicationHookSaveInv(s, o);
    case ClosePublication(refused, o) => ClosePublicationInv(s, refused, o);
    case MarkPublicationUncertain(o) => MarkPublicationUncertainInv(s, o);
    case FinalHook(e) => FinalHookInv(s, e);
    case FinalHookSave(o) => FinalHookSaveInv(s, o);
    case StartFailureSave(o) => StartFailureSaveInv(s, o);
    case _ =>
  }

  lemma ManagerStepInv(s: State, a: Action)
    requires Inv(s) && !OfWorker(a)
    ensures Inv(Apply(s, a))
  {
    match a
    case RequestCancel(m) => RequestCancelInv(s, m);
    case Cancel(m, o) => CancelInv(s, m, o);
    case Snapshot(m) => SnapshotInv(s, m);
    case LoadDecided(m) => LoadDecidedInv(s, m);
    case RecoverRead(m) => RecoverReadInv(s, m);
    case RecoverWrite(o) => RecoverWriteInv(s, o);
    case AcceptBegin(m, available, current) => AcceptBeginInv(s, m, available, current);
    case AcceptPersistClaim(o) => AcceptPersistClaimInv(s, o);
    case AcceptEffects(ok) => AcceptEffectsInv(s, ok);
    case AcceptPersistDone(o, tailOk) => AcceptPersistDoneInv(s, o, tailOk);
    case AcceptPersistUncertain(o) => AcceptPersistUncertainInv(s, o);
    case RejectBegin(m, available) => RejectBeginInv(s, m, available);
    case RejectPersist(o) => RejectPersistInv(s, o);
    case Crash(m) => CrashInv(s, m);
    case _ =>
  }

  lemma StepInv(s: State, a: Action)
    requires Inv(s)
    ensures Inv(Apply(s, a))
  {
    if OfWorker(a) { WorkerStepInv(s, a); } else { ManagerStepInv(s, a); }
  }
}
