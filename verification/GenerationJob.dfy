/**
 One generation job as one manager sees it: the durable record, the in-memory
 `Job`, and every atomic block of `JobManager` as a function on the pair of them.
 The functions are shared by the interleaving model (ReviewProtocol) and by the
 specifications of the manager's methods (JobManager).
 */
module GenerationJob {
  import opened Wrappers

  datatype Status =
    | Prepared | Queued | Running | Generating | Settling
    | Completed | Failed | Cancelled
    | Accepting | Accepted | AcceptanceUncertain | Rejected

  // `terminal_hook_status`
  datatype Hook = Unreported | HookCompleted | HookFailed | HookMissing | HookUncertain

  // `error_code`, as far as a later step reads it
  datatype ErrorCode = NoError | TerminalPersistenceUncertain | OtherError

  // The persisted projection.
  datatype Record = Record(status: Status, hooksRequired: bool, hook: Hook, code: ErrorCode)

  // The in-memory job. The last three fields are transient and never persisted.
  datatype Mem = Mem(
    status: Status, hooksRequired: bool, hook: Hook, code: ErrorCode,
    liveHook: bool, hookCalled: bool, cancelled: bool)

  datatype Local = Local(mem: Mem, durable: Option<Record>)

  datatype Decision = Undecided | ByAccept | ByReject

  predicate Terminal(s: Status) {
    s.Completed? || s.Failed? || s.Cancelled? || s.Accepted? || s.Rejected? || s.Accepting? || s.AcceptanceUncertain?
  }

  predicate Executing(s: Status) {
    s.Settling? || s.Running? || s.Generating? || s.Queued? || s.Prepared?
  }

  function DecisionOf(s: Status): Decision {
    match s
    case Accepting | Accepted | AcceptanceUncertain => ByAccept
    case Rejected => ByReject
    case _ => Undecided
  }

  function DurableDecision(d: Option<Record>): Decision {
    if d.Some? then DecisionOf(d.value.status) else Undecided
  }

  predicate HasHooks(m: Mem) {
    m.hooksRequired || m.liveHook
  }

  // `Job.public` / `Job.record`: a completion whose required hook is unreported reads SETTLING.
  function Public(m: Mem): Record {
    Record(if m.status == Completed && HasHooks(m) && m.hook == Unreported then Settling else m.status,
           m.hooksRequired, m.hook, m.code)
  }

  // `require_generation_accounting`
  predicate Accounted(m: Mem) {
    HasHooks(m) ==> m.hook == HookCompleted
  }

  function Save(d: Option<Record>, r: Record, o: SaveOutcome): Option<Record> {
    if o == NotSaved then d else Some(r)
  }

  function Emit(l: Local, o: SaveOutcome): Local {
    l.(durable := Save(l.durable, Public(l.mem), o))
  }

  function CancelExecution(l: Local, o: SaveOutcome): Local {
    if Terminal(l.mem.status) then l else Emit(l.(mem := l.mem.(status := Cancelled)), o)
  }

  /******* worker *******/

  datatype WorkerNext = KeepRunning | ToHandler | ToFinally

  function WorkerBegin(l: Local, o: SaveOutcome): (Local, WorkerNext) {
    if l.mem.cancelled then (CancelExecution(l, o), ToFinally)
    else if Terminal(l.mem.status) then (l, ToFinally)
    else (Emit(l.(mem := l.mem.(status := Generating)), o), if o == Saved then KeepRunning else ToHandler)
  }

  function WorkerDelta(l: Local, o: SaveOutcome): (Local, WorkerNext) {
    if Terminal(l.mem.status) then (l, ToFinally)
    else if l.mem.cancelled then (CancelExecution(l, o), ToFinally)
    else (Emit(l, o), if o == Saved then KeepRunning else ToHandler)
  }

  // The outer exception handler of `_run`.
  function WorkerHandle(l: Local, boundFailure: bool, o: SaveOutcome): Local {
    if Terminal(l.mem.status) then l
    else if !boundFailure && l.mem.cancelled then CancelExecution(l, o)
    else Emit(l.(mem := l.mem.(status := Failed, code := OtherError)), o)
  }

  /******* the once-only accounting hook *******/

  datatype HookEnv = HookEnv(raises: bool, cancels: bool, save: SaveOutcome, refused: bool)

  // `_finish_terminal_hook` up to its final write; true when that write is still due.
  // `publishing` is true when a publication guard was passed in.
  function HookCall(l: Local, e: HookEnv, publishing: bool): (Local, bool) {
    var m := l.mem;
    if m.hookCalled || m.hook != Unreported then (l, false)
    else if !m.liveHook then
      if !m.hooksRequired then (l, false)
      else
        var saved := Emit(l.(mem := m.(hook := HookMissing)), e.save);
        (if e.save == Saved then saved else saved.(mem := m.(hook := HookUncertain)), false)
    else
      var l1 := l.(mem := m.(hookCalled := true));
      var l2 := if e.cancels then CancelExecution(l1, e.save) else l1;
      (l2.(mem := HookOutcome(l2.mem, e, publishing)), true)
  }

  function HookOutcome(m: Mem, e: HookEnv, publishing: bool): Mem {
    var m1 :=
      if !e.raises then m.(hook := HookCompleted)
      else m.(hook := HookFailed, code := OtherError,
              status := if m.status == Completed || Executing(m.status) then Failed else m.status);
    if publishing && m1.status == Settling && e.refused then m1.(status := Failed, code := OtherError) else m1
  }

  // The write that ends `_finish_terminal_hook`.
  function HookSave(l: Local, o: SaveOutcome): Local {
    var saved := Emit(l, o);
    if o == Saved then saved
    else saved.(mem := l.mem.(hook := HookUncertain,
                              status := if l.mem.status.Completed? || l.mem.status.Settling? then Failed else l.mem.status,
                              code := if l.mem.code == TerminalPersistenceUncertain then l.mem.code else OtherError))
  }

  /******* publication, under the review lock *******/

  datatype PublishNext = Leave | LeaveToHandler | ToHook | ToClose | ToUncertain

  function PublicationStatus(m: Mem): Status {
    if HasHooks(m) then Settling else Generating
  }

  // From lock entry to just before the hook. `guarded`: a live request authorization exists.
  function PublishOpen(l: Local, guarded: bool, refused: bool, o: SaveOutcome): (Local, PublishNext) {
    if Terminal(l.mem.status) then (l, Leave)
    else if l.mem.cancelled then (CancelExecution(l, o), Leave)
    else if guarded && refused then (l, LeaveToHandler)
    else
      var l1 := l.(mem := l.mem.(status := if guarded then PublicationStatus(l.mem) else Completed));
      if !HasHooks(l.mem) then (l1, ToHook)
      else (Emit(l1, o), if o == Saved then ToHook else ToUncertain)
  }

  // From the end of the hook to the completing write.
  function PublishClose(l: Local, guarded: bool, refused: bool, o: SaveOutcome): (Local, PublishNext) {
    var next := if o == Saved then Leave else ToUncertain;
    if !guarded then (Emit(l, o), next)
    else if l.mem.status == Failed then (Emit(l, o), next)
    else if l.mem.status != PublicationStatus(l.mem) then (l, Leave)
    else if refused then (Emit(l.(mem := l.mem.(status := Failed, code := OtherError)), o), Leave)
    else if l.mem.cancelled then (CancelExecution(l, o), next)
    else (Emit(l.(mem := l.mem.(status := Completed)), o), next)
  }

  // A completion that could not be confirmed as saved.
  function PublishUncertain(l: Local, o: SaveOutcome): Local {
    Emit(l.(mem := l.mem.(status := Failed, code := TerminalPersistenceUncertain)), o)
  }

  /******* recovery *******/

  function Recovered(r: Record): Record {
    if r.status == Settling then Record(Failed, true, HookMissing, OtherError)
    else if Executing(r.status) then r.(status := Failed)
    else r
  }

  function MemOf(r: Record): Mem {
    Mem(r.status, r.hooksRequired, r.hook, r.code, false, false, false)
  }

  /******* review *******/

  // Keys the record omits when false or null leave the in-memory value alone.
  function Refresh(m: Mem, r: Record): Mem {
    m.(status := r.status, hooksRequired := m.hooksRequired || r.hooksRequired,
       hook := if r.hook == Unreported then m.hook else r.hook, code := r.code)
  }

  // `available`: content, adoption and feature gates; `current`: the chapter exists at the base version.
  function AcceptRead(l: Local, available: bool, current: bool): (Local, bool) {
    if !available || !Accounted(l.mem) || l.mem.code == TerminalPersistenceUncertain then (l, false)
    else
      var m := if l.durable.Some? then Refresh(l.mem, l.durable.value) else l.mem;
      (l.(mem := m), Accounted(m) && m.status == Completed && current)
  }

  function AcceptClaim(l: Local, o: SaveOutcome): Local {
    Emit(l.(mem := l.mem.(status := Accepting)), o)
  }

  function AcceptFinish(l: Local, o: SaveOutcome): Local {
    Emit(l.(mem := l.mem.(status := Accepted)), o)
  }

  function AcceptUncertain(l: Local, o: SaveOutcome): Local {
    Emit(l.(mem := l.mem.(status := AcceptanceUncertain, code := OtherError)), o)
  }

  predicate Rejectable(l: Local, available: bool) {
    && available
    && (l.durable.Some? ==>
          l.durable.value.status == Completed
          && (l.durable.value.hooksRequired ==> l.durable.value.hook == HookCompleted))
    && Public(l.mem).status == Completed
    && Accounted(l.mem)
  }

  function RejectWrite(l: Local, o: SaveOutcome): Local {
    Emit(l.(mem := l.mem.(status := Rejected)), o)
  }

  /******* what the blocks have in common *******/

  // Only status and error code changed, and the write, if it committed, is the new copy.
  predicate PlainWrite(l: Local, l': Local) {
    && l'.mem == l.mem.(status := l'.mem.status, code := l'.mem.code)
    && (l'.durable == l.durable || l'.durable == Some(Public(l'.mem)))
  }

  lemma CancelShape(l: Local, o: SaveOutcome)
    ensures var l' := CancelExecution(l, o);
            PlainWrite(l, l') && (if Terminal(l.mem.status) then l' == l else l'.mem.status.Cancelled?)
  {}

  lemma WorkerShapes(l: Local, bound: bool, o: SaveOutcome)
    ensures var r := WorkerBegin(l, o);
            PlainWrite(l, r.0) && (r.0.mem.status == l.mem.status || r.0.mem.status.Generating? || r.0.mem.status.Cancelled?)
    ensures var r := WorkerDelta(l, o);
            PlainWrite(l, r.0) && (r.0.mem.status == l.mem.status || r.0.mem.status.Cancelled?)
    ensures var l' := WorkerHandle(l, bound, o);
            PlainWrite(l, l') && (l'.mem.status == l.mem.status || l'.mem.status.Failed? || l'.mem.status.Cancelled?)
  {}

  lemma PublishOpenShape(l: Local, guarded: bool, refused: bool, o: SaveOutcome)
    ensures var r := PublishOpen(l, guarded, refused, o);
            && PlainWrite(l, r.0)
            && (r.1.Leave? ==> (r.0 == l && Terminal(l.mem.status)) || r.0.mem.status.Cancelled?)
            && (r.1.LeaveToHandler? ==> r.0 == l)
            && (!HasHooks(l.mem) && r.1.ToHook? ==> r.0.durable == l.durable)
            && (!HasHooks(l.mem) ==> !r.1.ToUncertain?)
            && !r.1.ToClose?
            && (r.1.ToHook? || r.1.ToUncertain? ==>
                  Executing(l.mem.status) && r.0.mem.status == if guarded then PublicationStatus(l.mem) else Completed)
  {}

  lemma PublishCloseShape(l: Local, guarded: bool, refused: bool, o: SaveOutcome)
    requires var open := if guarded then PublicationStatus(l.mem) else Completed;
             l.mem.status == open || l.mem.status.Failed? || l.mem.status.Cancelled?
    ensures var r := PublishClose(l, guarded, refused, o);
            && PlainWrite(l, r.0)
            && (r.1.Leave? || r.1.ToUncertain?)
            && (r.0.mem.status.Failed? || r.0.mem.status.Cancelled? || r.0.mem.status.Completed?)
            && (r.0.mem.status.Completed? ==> l.mem.status == (if guarded then PublicationStatus(l.mem) else Completed)
                                              && (r.1.Leave? ==> r.0.durable == Some(Public(r.0.mem))))
  {}

  // A hook that really ran: its result is in the copy, and a cancellation inside it may have been written.
  predicate HookRan(l: Local, l': Local, e: HookEnv) {
    && l'.mem == l.mem.(hookCalled := true, hook := l'.mem.hook, status := l'.mem.status, code := l'.mem.code)
    && l'.mem.hook == (if e.raises then HookFailed else HookCompleted)
    && (l'.mem.status == l.mem.status || (l'.mem.status.Failed? && Executing(l.mem.status))
        || (l'.mem.status.Failed? && l.mem.status.Completed?) || (l'.mem.status.Cancelled? && Executing(l.mem.status)))
    && (e.raises ==> !l'.mem.status.Completed? && Terminal(l'.mem.status))
    && (l'.durable == l.durable
        || (Executing(l.mem.status) && l'.durable == Some(Public(l.mem.(status := Cancelled)))))
  }

  lemma HookShape(l: Local, e: HookEnv, publishing: bool)
    requires l.mem.liveHook <==> l.mem.hooksRequired
    ensures var r := HookCall(l, e, publishing);
            && (r.1 <==> l.mem.liveHook && !l.mem.hookCalled && l.mem.hook == Unreported)
            && (!r.1 ==> r.0 == l)
            && (r.1 ==> HookRan(l, r.0, e))
  {}

  // The result is saved, or the account is uncertain and the job failed.
  predicate HookSaved(l: Local, l': Local) {
    && (l'.durable == l.durable || l'.durable == Some(Public(l.mem)))
    && (l'.mem == l.mem
        || (l'.mem == l.mem.(hook := HookUncertain, status := l'.mem.status, code := l'.mem.code)
            && l'.mem.status == (if l.mem.status.Completed? || l.mem.status.Settling? then Failed else l.mem.status)))
  }

  lemma HookSaveShape(l: Local, o: SaveOutcome)
    ensures HookSaved(l, HookSave(l, o))
  {}

  lemma AcceptReadShape(l: Local, available: bool, current: bool)
    ensures var r := AcceptRead(l, available, current);
            && r.0.durable == l.durable
            && (r.0 == l || r.0.mem == (if l.durable.Some? then Refresh(l.mem, l.durable.value) else l.mem))
            && (r.1 ==> Accounted(r.0.mem) && r.0.mem.status.Completed?
                        && (l.durable.Some? ==> l.durable.value.status.Completed?))
  {}
}
