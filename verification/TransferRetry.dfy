/**
 Retries and timers of one id under the orderings the orchestrator relies on: the admission of a call runs
 without interruption by another event of the id, two verdict handlers for the id do not overlap before its
 record is settled, and pruning drops its record only when that is settled. What happens to other ids is free.
 */
module TransferRetry {
  import opened Wrappers
  import opened TransferModel
  import opened TransferWorld
  import opened TransferUnlock

  // ---------------------------------------------------------------- disciplined events

  /** The handler has yet to settle its record. */
  predicate Open(handler: Handler) {
    handler.phase.Announcing? || handler.phase.Deleting? || handler.phase.Unlocking? || handler.phase.Reporting?
  }

  ghost predicate NoOpenHandler(c: Controller, id: Id) {
    forall h :: 0 <= h < |c.handlers| && Open(c.handlers[h]) ==> c.handlers[h].id != id
  }

  ghost predicate NoAdmission(c: Controller, id: Id) {
    forall k :: 0 <= k < |c.calls| && c.calls[k].phase.Archiving? ==> c.calls[k].id != id
  }

  /** The id that a call's event is about. */
  ghost function CallSubject(c: Controller, now: int, e: CallEvent): (id: Id)
    requires CallEnabled(World(c, INIT.env.(now := now)), e)
  {
    match e
    case CallTransfer(exportId, _, _, _) => TransferIdOf(c, exportId)
    case FailBeforeTransfer(exportId, _, _) => exportId
    case _ => c.calls[e.k].id
  }

  /** The id that a handler's event is about. */
  ghost function HandlerSubject(w: World, e: HandlerEvent): (id: Id)
    requires HandlerEnabled(w, e)
  {
    match e
    case VerdictArrives(message) => message.id
    case TimerFires(t) => w.controller.timers[t].id
    case _ => w.controller.handlers[e.h].id
  }

  ghost predicate Concerns(w: World, e: Event, id: Id)
    requires Enabled(w, e)
  {
    match e
    case Outside(_) => false
    case InCall(call) => CallSubject(w.controller, w.env.now, call) == id
    case InHandler(handler) => HandlerSubject(w, handler) == id
  }

  /** The ids whose records pruning drops. */
  function Evicted(e: Event): (ids: set<Id>) {
    match e
    case Outside(OtherOperationPrunes(evicted, _, _)) => evicted
    case InHandler(Settles(_, evicted, _, _)) => evicted
    case _ => {}
  }

  predicate Judges(e: Event) {
    e.InHandler? && (e.handler.VerdictArrives? || e.handler.TimerFires?)
  }

  ghost predicate EvictsSettled(c: Controller, evicted: set<Id>, id: Id)
    requires Linked(c)
  {
    id in evicted && id in c.activeTransfers ==> !IsLive(c.records[c.activeTransfers[id]].status)
  }

  /** The orderings that the orchestrator relies on, as far as they concern the id. */
  ghost predicate Disciplined(w: World, e: Event, id: Id)
    requires Enabled(w, e) && Linked(w.controller)
  {
    var c := w.controller;
    && EvictsSettled(c, Evicted(e), id)
    && (Concerns(w, e, id) ==>
          && (forall k :: 0 <= k < |c.calls| && c.calls[k].phase.Archiving? && c.calls[k].id == id ==>
                e == InCall(Archived(k)))
          && (Judges(e) && Awaits(c, id) ==> NoOpenHandler(c, id)))
  }

  // ---------------------------------------------------------------- the invariant

  type Registry = map<Id, nat>
  type Records = map<nat, Record>

  predicate Replaceable(active: Registry, records: Records, id: Id) {
    id in active ==> active[id] in records && records[active[id]].status.Failed? && !records[active[id]].preserved
  }

  predicate Names(active: Registry, records: Records, id: Id, attempt: nat, status: Status) {
    id in active && active[id] == attempt && attempt in records && records[attempt].status == status
  }

  /** A call on its way owns the record its id names. */
  predicate CallOwns(call: Call, k: nat, active: Registry, records: Records) {
    && (call.phase.Archiving? ==> Replaceable(active, records, call.id) && call.phase.operation.status.Transporting?)
    && (call.phase.Recording? || call.phase.Sending? ==> Names(active, records, call.id, k, Transporting))
  }

  /** An open handler owns the record its id names; that record awaits, with no timer left. */
  predicate HandlerOwns(handler: Handler, active: Registry, records: Records) {
    Open(handler) ==>
      && Names(active, records, handler.id, handler.attempt, AwaitingValidation)
      && records[handler.attempt].timer.None?
      && records[handler.attempt].preserved == handler.verdict.destinationPreserved
  }

  /** A pending timer hangs on the record its id names, and the call that armed it created that record. */
  predicate TimerOwns(timer: Timer, t: nat, active: Registry, records: Records) {
    && Names(active, records, timer.id, timer.armer, AwaitingValidation)
    && records[timer.armer].timer == Some(t)
  }

  ghost predicate CallsOwn(c: Controller, id: Id) {
    forall k :: 0 <= k < |c.calls| && c.calls[k].id == id ==> CallOwns(c.calls[k], k, c.activeTransfers, c.records)
  }

  ghost predicate HandlersOwn(c: Controller, id: Id) {
    forall h :: 0 <= h < |c.handlers| && c.handlers[h].id == id ==>
      HandlerOwns(c.handlers[h], c.activeTransfers, c.records)
  }

  ghost predicate TimersOwn(c: Controller, id: Id) {
    forall t :: t in c.timers && c.timers[t].id == id ==> TimerOwns(c.timers[t], t, c.activeTransfers, c.records)
  }

  ghost predicate OneOpenHandler(c: Controller, id: Id) {
    forall g, h :: 0 <= g < h < |c.handlers| && Open(c.handlers[g]) && Open(c.handlers[h]) ==>
      c.handlers[g].id != id || c.handlers[h].id != id
  }

  /** The record that the id names has at most one owner: a call on its way, an open handler or a timer. */
  ghost predicate Owned(c: Controller, id: Id) {
    WellFormed(c) && CallsOwn(c, id) && HandlersOwn(c, id) && TimersOwn(c, id) && OneOpenHandler(c, id)
  }

  // ---------------------------------------------------------------- events of other ids

  ghost predicate SameActive(c: Controller, r: Controller, id: Id) {
    && (id in r.activeTransfers <==> id in c.activeTransfers)
    && (id in c.activeTransfers ==> r.activeTransfers[id] == c.activeTransfers[id])
  }

  ghost predicate SameRecords(c: Controller, r: Controller, id: Id) {
    forall k :: k in c.records && c.records[k].id == id ==> k in r.records && r.records[k] == c.records[k]
  }

  ghost predicate SameCalls(c: Controller, r: Controller, id: Id) {
    forall k :: 0 <= k < |r.calls| && r.calls[k].id == id ==> k < |c.calls| && r.calls[k] == c.calls[k]
  }

  ghost predicate SameHandlers(c: Controller, r: Controller, id: Id) {
    && |c.handlers| <= |r.handlers|
    && (forall h :: 0 <= h < |c.handlers| && c.handlers[h].id == id ==> r.handlers[h] == c.handlers[h])
    && (forall h :: 0 <= h < |r.handlers| && r.handlers[h].id == id ==> h < |c.handlers| && c.handlers[h].id == id)
  }

  ghost predicate FewerTimers(c: Controller, r: Controller, id: Id) {
    forall t :: t in r.timers && r.timers[t].id == id ==> t in c.timers && r.timers[t] == c.timers[t]
  }

  /** All that belongs to the id is as it was, except that timers may be gone. */
  ghost predicate SameSlice(c: Controller, r: Controller, id: Id) {
    && SameActive(c, r, id) && SameRecords(c, r, id) && SameCalls(c, r, id) && SameHandlers(c, r, id)
    && FewerTimers(c, r, id)
  }

  lemma SliceKeepsCalls(c: Controller, r: Controller, id: Id)
    requires Owned(c, id) && WellFormed(r) && SameSlice(c, r, id)
    ensures CallsOwn(r, id)
  {
    forall k | 0 <= k < |r.calls| && r.calls[k].id == id
      ensures CallOwns(r.calls[k], k, r.activeTransfers, r.records)
    {
      assert CallOwns(c.calls[k], k, c.activeTransfers, c.records);
    }
  }

  lemma SliceKeepsOwned(c: Controller, r: Controller, id: Id)
    requires Owned(c, id) && WellFormed(r) && SameSlice(c, r, id)
    ensures Owned(r, id)
  {
    SliceKeepsCalls(c, r, id);
    forall h | 0 <= h < |r.handlers| && r.handlers[h].id == id
      ensures HandlerOwns(r.handlers[h], r.activeTransfers, r.records)
    {
      assert HandlerOwns(c.handlers[h], c.activeTransfers, c.records);
    }
    forall t | t in r.timers && r.timers[t].id == id ensures TimerOwns(r.timers[t], t, r.activeTransfers, r.records) {
      assert TimerOwns(c.timers[t], t, c.activeTransfers, c.records);
    }
  }

  lemma SliceGoesOn(a: Controller, b: Controller, c: Controller, id: Id)
    requires SameSlice(a, b, id) && SameSlice(b, c, id)
    ensures SameSlice(a, c, id)
  {
    forall k | k in a.records && a.records[k].id == id ensures k in c.records && c.records[k] == a.records[k] {
      assert b.records[k] == a.records[k];
    }
  }

  lemma WriteLeavesSlice(c: Controller, attempt: nat, record: Record, id: Id)
    requires attempt in c.records && c.records[attempt].id != id
    ensures SameSlice(c, SetRecord(c, attempt, record), id)
  {
  }

  lemma CallMoveLeavesSlice(c: Controller, k: nat, call: Call, id: Id)
    requires k < |c.calls| && c.calls[k].id != id && call.id == c.calls[k].id
    ensures SameSlice(c, SetCall(c, k, call), id)
  {
  }

  lemma HandlerMoveLeavesSlice(c: Controller, h: nat, handler: Handler, id: Id)
    requires h < |c.handlers| && c.handlers[h].id != id && handler.id == c.handlers[h].id
    ensures SameSlice(c, c.(handlers := c.handlers[h := handler]), id)
  {
  }

  /** Storage, intents and unlock requests belong to no record. */
  lemma BesidesLeaveSlice(c: Controller, r: Controller, id: Id)
    requires r == c.(pendingTransfers := r.pendingTransfers, writes := r.writes, unlocks := r.unlocks,
                     platformStorage := r.platformStorage)
    ensures SameSlice(c, r, id)
  {
  }

  lemma EvictionLeavesSlice(c: Controller, evicted: set<Id>, id: Id)
    requires id !in evicted
    ensures SameSlice(c, Evict(c, evicted), id)
  {
  }

  lemma NewCallLeavesSlice(c: Controller, r: Controller, id: Id)
    requires OneNewCall(c, r) && r.calls[|c.calls|].id != id
    requires r == c.(calls := r.calls, unlocks := r.unlocks)
    ensures SameSlice(c, r, id)
  {
    forall k | 0 <= k < |r.calls| && r.calls[k].id == id ensures k < |c.calls| && r.calls[k] == c.calls[k] {
      assert k < |c.calls| ==> r.calls[k] == r.calls[..|c.calls|][k];
    }
  }

  lemma BeginEffect(c: Controller, exportId: Id, online: bool, entry: Entry, startedAt: int)
    requires Linked(c)
    ensures var r := BeginCall(c, exportId, online, entry, startedAt);
            r == c.(calls := r.calls, unlocks := r.unlocks) && r.calls[|c.calls|].id == TransferIdOf(c, exportId)
  {
  }

  lemma InstallLeavesSlice(c: Controller, k: nat, id: Id)
    requires WellFormed(c) && k < |c.calls| && c.calls[k].phase.Archiving? && c.calls[k].id != id
    ensures SameSlice(c, InstallRecord(c, k), id)
  {
    var r := InstallRecord(c, k);
    forall j | j in c.records && c.records[j].id == id ensures j in r.records && r.records[j] == c.records[j] {
      assert c.records[j].id == c.calls[j].id;
    }
  }

  lemma ArmingLeavesSlice(c: Controller, k: nat, id: Id)
    requires WellFormed(c) && k < |c.calls| && c.calls[k].id != id
    ensures SameSlice(c, ArmTimer(c, k), id)
  {
  }

  lemma AwaitingLeavesSlice(c: Controller, k: nat, now: int, id: Id)
    requires WellFormed(c) && k < |c.calls| && k in c.records && c.calls[k].id != id
    ensures SameSlice(c, EnterAwaitingValidation(c, k, now), id)
  {
    var awaiting := SetStatus(c, k, AwaitingValidation);
    WriteLeavesSlice(c, k, c.records[k].(status := AwaitingValidation), id);
    ArmingLeavesSlice(awaiting, k, id);
    BesidesLeaveSlice(ArmTimer(awaiting, k), EnterAwaitingValidation(c, k, now), id);
    SliceGoesOn(c, awaiting, ArmTimer(awaiting, k), id);
    SliceGoesOn(c, ArmTimer(awaiting, k), EnterAwaitingValidation(c, k, now), id);
  }

  lemma RollingBackLeavesSlice(c: Controller, k: nat, id: Id)
    requires WellFormed(c) && k < |c.calls| && c.calls[k].id != id
    ensures SameSlice(c, RollBackCall(c, k), id)
  {
    var call := c.calls[k];
    if call.outcome.Rejected? && call.id in c.activeTransfers {
      var a := c.activeTransfers[call.id];
      WriteLeavesSlice(c, a, c.records[a].(status := Failed), id);
      BesidesLeaveSlice(SetStatus(c, a, Failed), RollBackCall(c, k), id);
      SliceGoesOn(c, SetStatus(c, a, Failed), RollBackCall(c, k), id);
    } else {
      BesidesLeaveSlice(c, RollBackCall(c, k), id);
    }
  }

  lemma ReplyLeavesSlice(c: Controller, k: nat, outcome: SendOutcome, now: int, id: Id)
    requires WellFormed(c) && k < |c.calls| && c.calls[k].phase.Sending? && k in c.records && c.calls[k].id != id
    ensures SameSlice(c, ReceiveImportReply(c, k, outcome, now), id)
  {
    var call := c.calls[k].(phase := AfterImportReply(c, c.calls[k].id, outcome), outcome := outcome);
    var replied := SetCall(c, k, call);
    CallMoveLeavesSlice(c, k, call, id);
    if outcome.Accepted? || outcome.SessionLost? {
      AwaitingLeavesSlice(replied, k, now, id);
      SliceGoesOn(c, replied, EnterAwaitingValidation(replied, k, now), id);
    } else if call.phase.RollingBack? {
      RollingBackLeavesSlice(replied, k, id);
      SliceGoesOn(c, replied, RollBackCall(replied, k), id);
    }
  }

  lemma CallLeavesSlice(w: World, e: CallEvent, id: Id)
    requires WellFormed(w.controller) && CallEnabled(w, e) && CallSubject(w.controller, w.env.now, e) != id
    ensures SameSlice(w.controller, ApplyCall(w.controller, w.env.now, e), id)
  {
    var c := w.controller;
    match e
    case CallTransfer(exportId, online, entry, startedAt) =>
      BeginEffect(c, exportId, online, entry, startedAt);
      NewCallLeavesSlice(c, BeginCall(c, exportId, online, entry, startedAt), id);
    case FailBeforeTransfer(exportId, entry, startedAt) =>
      NewCallLeavesSlice(c, RefuseCall(c, exportId, entry, startedAt), id);
    case Archived(k) => InstallLeavesSlice(c, k, id);
    case Recorded(k) => CallMoveLeavesSlice(c, k, c.calls[k].(phase := Sending, outcome := InFlight), id);
    case ImportReplies(k, outcome) => ReplyLeavesSlice(c, k, outcome, w.env.now, id);
    case CallUnlockReplies(k) => CallMoveLeavesSlice(c, k, ReceiveCallUnlockReply(c, k).calls[k], id);
    case InstanceUnlocks(k) => BesidesLeaveSlice(c, SendUnlock(c, c.calls[k].id, ByCall(k)), id);
  }

  lemma LateVerdictLeavesSlice(c: Controller, attempt: nat, verdict: Verdict, id: Id)
    requires attempt in c.records && c.records[attempt].id != id
    ensures SameSlice(c, TakeLateVerdict(c, attempt, verdict), id)
  {
    var record := TakeLateVerdict(c, attempt, verdict).records[attempt];
    WriteLeavesSlice(c, attempt, record, id);
  }

  lemma ClearingLeavesSlice(c: Controller, attempt: nat, id: Id)
    requires attempt in c.records && c.records[attempt].id != id
    ensures SameSlice(c, ClearTimer(c, attempt), id)
  {
  }

  lemma StartingLeavesSlice(c: Controller, other: Id, attempt: nat, verdict: Verdict, id: Id)
    requires attempt in c.records && other != id
    ensures SameSlice(c, StartHandler(c, other, attempt, verdict), id)
  {
  }

  lemma JudgingLeavesSlice(c: Controller, other: Id, verdict: Verdict, id: Id)
    requires WellFormed(c) && other != id && Awaits(c, other)
    ensures SameSlice(c, TakeVerdict(c, other, verdict), id)
  {
    var a := c.activeTransfers[other];
    var record := c.records[a].(preserved := verdict.destinationPreserved);
    var adopted := SetRecord(c, a, record);
    var cleared := ClearTimer(adopted, a);
    WriteLeavesSlice(c, a, record, id);
    ClearingLeavesSlice(adopted, a, id);
    StartingLeavesSlice(cleared, other, a, verdict, id);
    SliceGoesOn(c, adopted, cleared, id);
    SliceGoesOn(c, cleared, StartHandler(cleared, other, a, verdict), id);
  }

  lemma TakingLeavesSlice(c: Controller, other: Id, verdict: Verdict, id: Id)
    requires WellFormed(c) && other != id
    ensures SameSlice(c, TakeVerdict(c, other, verdict), id)
  {
    if other in c.activeTransfers {
      if Awaits(c, other) {
        JudgingLeavesSlice(c, other, verdict, id);
      } else {
        LateVerdictLeavesSlice(c, c.activeTransfers[other], verdict, id);
      }
    }
  }

  lemma FiringLeavesSlice(c: Controller, t: nat, id: Id)
    requires WellFormed(c) && t in c.timers && c.timers[t].id != id
    ensures SameSlice(c, FireTimer(c, t), id)
  {
    var fired := c.(timers := c.timers - {t});
    assert SameSlice(c, fired, id);
    if Awaits(c, c.timers[t].id) {
      TakingLeavesSlice(fired, c.timers[t].id, TIMEOUT_VERDICT, id);
      SliceGoesOn(c, fired, FireTimer(c, t), id);
    }
  }

  lemma AnnouncingLeavesSlice(c: Controller, h: nat, id: Id)
    requires h < |c.handlers| && c.handlers[h].id != id
    ensures SameSlice(c, FinishAnnouncing(c, h), id)
  {
    var r := FinishAnnouncing(c, h);
    var moved := c.(handlers := c.handlers[h := r.handlers[h]]);
    HandlerMoveLeavesSlice(c, h, r.handlers[h], id);
    BesidesLeaveSlice(moved, r, id);
    SliceGoesOn(c, moved, r, id);
  }

  lemma ClosingLeavesSlice(c: Controller, h: nat, status: Status, phase: HandlerPhase, id: Id)
    requires WellFormed(c) && h < |c.handlers| && c.handlers[h].id != id
    ensures SameSlice(c, SetHandlerPhase(SetStatus(c, c.handlers[h].attempt, status), h, phase), id)
  {
    var a := c.handlers[h].attempt;
    var settled := SetStatus(c, a, status);
    WriteLeavesSlice(c, a, c.records[a].(status := status), id);
    HandlerMoveLeavesSlice(settled, h, c.handlers[h].(phase := phase), id);
    SliceGoesOn(c, settled, SetHandlerPhase(settled, h, phase), id);
  }

  lemma CompletingLeavesSlice(c: Controller, h: nat, id: Id)
    requires h < |c.handlers| && c.handlers[h].attempt in c.records && c.handlers[h].id != id
    ensures SameSlice(c, FinishCompleting(c, h), id)
  {
    var moved := SetHandlerPhase(c, h, Storing);
    HandlerMoveLeavesSlice(c, h, c.handlers[h].(phase := Storing), id);
    BesidesLeaveSlice(moved, FinishCompleting(c, h), id);
    SliceGoesOn(c, moved, FinishCompleting(c, h), id);
  }

  lemma EndingLeavesSlice(c: Controller, h: nat, evicted: set<Id>, id: Id)
    requires h < |c.handlers| && c.handlers[h].id != id && id !in evicted
    ensures SameSlice(c, Settle(c, h, evicted), id)
  {
    var moved := SetHandlerPhase(c, h, Finished);
    HandlerMoveLeavesSlice(c, h, c.handlers[h].(phase := Finished), id);
    EvictionLeavesSlice(moved, evicted, id);
    BesidesLeaveSlice(Evict(moved, evicted), Settle(c, h, evicted), id);
    SliceGoesOn(c, moved, Evict(moved, evicted), id);
    SliceGoesOn(c, Evict(moved, evicted), Settle(c, h, evicted), id);
  }

  lemma ReplyToHandlerLeavesSlice(w: World, e: HandlerEvent, id: Id)
    requires WellFormed(w.controller) && HandlerEnabled(w, e) && HandlerSubject(w, e) != id
    requires e.DeleteReplies? || e.UnlockReplies? || e.Reported?
    ensures SameSlice(w.controller, ApplyHandler(w, e), id)
  {
    var c := w.controller;
    match e
    case DeleteReplies(h, reply) => ClosingLeavesSlice(c, h, SettledStatus(reply), SettledPhase(reply), id);
    case UnlockReplies(h, failed) => HandlerMoveLeavesSlice(c, h, c.handlers[h].(phase := Reporting(failed)), id);
    case Reported(h) =>
      ClosingLeavesSlice(c, h, if c.handlers[h].verdict.cleanupFailed then CleanupFailed else Failed,
                         Persisting(c.handlers[h].phase.rollbackFailed), id);
  }

  lemma HandlerLeavesSlice(w: World, e: HandlerEvent, id: Id)
    requires WellFormed(w.controller) && HandlerEnabled(w, e)
    requires HandlerSubject(w, e) != id && id !in Evicted(InHandler(e))
    ensures SameSlice(w.controller, ApplyHandler(w, e), id)
  {
    var c := w.controller;
    match e
    case VerdictArrives(message) => TakingLeavesSlice(c, message.id, message.verdict, id);
    case TimerFires(t) => FiringLeavesSlice(c, t, id);
    case Announced(h) => AnnouncingLeavesSlice(c, h, id);
    case CompletionRecorded(h) => CompletingLeavesSlice(c, h, id);
    case Settles(h, evicted, _, _) => EndingLeavesSlice(c, h, evicted, id);
    case _ => ReplyToHandlerLeavesSlice(w, e, id);
  }

  function SettledStatus(reply: DeleteReply): (status: Status) {
    if reply.Deleted? then Completed else if reply.DeleteRefused? then CleanupFailed else Error
  }

  function SettledPhase(reply: DeleteReply): (phase: HandlerPhase) {
    if reply.Deleted? then Completing else if reply.DeleteRefused? then Refusing else Finished
  }

  // ---------------------------------------------------------------- events of the id's calls

  /** An id whose record is in transit has no open handler, no timer and no second call on its way. */
  lemma TransportingHasOneOwner(c: Controller, k: nat)
    requires k < |c.calls| && c.calls[k].phase.Sending? && Owned(c, c.calls[k].id)
    ensures NoOpenHandler(c, c.calls[k].id)
    ensures forall t :: t in c.timers ==> c.timers[t].id != c.calls[k].id
    ensures forall j :: 0 <= j < |c.calls| && j != k && c.calls[j].id == c.calls[k].id ==>
              !c.calls[j].phase.Recording? && !c.calls[j].phase.Sending?
  {
  }

  lemma NewCallKeepsOwned(c: Controller, r: Controller, id: Id)
    requires Owned(c, id) && WellFormed(r) && OneNewCall(c, r) && r == c.(calls := r.calls, unlocks := r.unlocks)
    requires CallOwns(r.calls[|c.calls|], |c.calls|, c.activeTransfers, c.records)
    ensures Owned(r, id)
  {
    forall k | 0 <= k < |r.calls| && r.calls[k].id == id
      ensures CallOwns(r.calls[k], k, r.activeTransfers, r.records)
    {
      assert k < |c.calls| ==> r.calls[k] == r.calls[..|c.calls|][k];
    }
  }

  lemma BeginOwns(c: Controller, exportId: Id, online: bool, entry: Entry, startedAt: int)
    requires Linked(c)
    ensures var r := BeginCall(c, exportId, online, entry, startedAt);
            CallOwns(r.calls[|c.calls|], |c.calls|, c.activeTransfers, c.records)
  {
  }

  lemma BeginKeepsOwned(c: Controller, exportId: Id, online: bool, entry: Entry, startedAt: int, id: Id)
    requires Owned(c, id)
    ensures Owned(BeginCall(c, exportId, online, entry, startedAt), id)
  {
    BeginEffect(c, exportId, online, entry, startedAt);
    BeginOwns(c, exportId, online, entry, startedAt);
    NewCallKeepsOwned(c, BeginCall(c, exportId, online, entry, startedAt), id);
  }

  lemma RefuseKeepsOwned(c: Controller, other: Id, entry: Entry, startedAt: int, id: Id)
    requires Owned(c, id)
    ensures Owned(RefuseCall(c, other, entry, startedAt), id)
  {
    NewCallKeepsOwned(c, RefuseCall(c, other, entry, startedAt), id);
  }

  lemma ReplaceableHasNoOwner(c: Controller, id: Id)
    requires Owned(c, id) && Replaceable(c.activeTransfers, c.records, id)
    ensures NoOpenHandler(c, id)
    ensures forall t :: t in c.timers ==> c.timers[t].id != id
    ensures forall k :: 0 <= k < |c.calls| && c.calls[k].id == id ==>
              !c.calls[k].phase.Recording? && !c.calls[k].phase.Sending?
  {
  }

  lemma InstallKeepsOwned(c: Controller, k: nat)
    requires k < |c.calls| && c.calls[k].phase.Archiving? && Owned(c, c.calls[k].id)
    requires forall j :: 0 <= j < |c.calls| && c.calls[j].phase.Archiving? && c.calls[j].id == c.calls[k].id ==> j == k
    ensures Owned(InstallRecord(c, k), c.calls[k].id)
  {
    assert CallOwns(c.calls[k], k, c.activeTransfers, c.records);
    ReplaceableHasNoOwner(c, c.calls[k].id);
  }

  lemma SendKeepsOwned(c: Controller, k: nat)
    requires k < |c.calls| && c.calls[k].phase.Recording? && Owned(c, c.calls[k].id)
    ensures Owned(SendImport(c, k), c.calls[k].id)
  {
  }

  /** A record in transit that no call on its way owns any more. */
  ghost predicate Released(c: Controller, k: nat) {
    && k < |c.calls| && Names(c.activeTransfers, c.records, c.calls[k].id, k, Transporting)
    && (forall j :: 0 <= j < |c.calls| && c.calls[j].id == c.calls[k].id ==>
          !c.calls[j].phase.Recording? && !c.calls[j].phase.Sending?)
  }

  lemma ReleasedHasNoOwner(c: Controller, k: nat)
    requires Released(c, k) && Owned(c, c.calls[k].id)
    ensures NoOpenHandler(c, c.calls[k].id)
    ensures forall t :: t in c.timers ==> c.timers[t].id != c.calls[k].id
  {
  }

  lemma ReturningReleases(c: Controller, k: nat, call: Call)
    requires k < |c.calls| && c.calls[k].phase.Sending? && Owned(c, c.calls[k].id)
    requires call.id == c.calls[k].id && (call.phase.Returned? || call.phase.RollingBack?)
    ensures Owned(SetCall(c, k, call), call.id) && Released(SetCall(c, k, call), k)
  {
    TransportingHasOneOwner(c, k);
  }

  lemma SettlingReleasedKeepsOwned(c: Controller, k: nat, status: Status)
    requires Released(c, k) && Owned(c, c.calls[k].id) && NoAdmission(c, c.calls[k].id)
    ensures Owned(SetStatus(c, k, status), c.calls[k].id)
  {
    ReleasedHasNoOwner(c, k);
  }

  ghost predicate Unguarded(c: Controller, k: nat) {
    && k < |c.calls| && Names(c.activeTransfers, c.records, c.calls[k].id, k, AwaitingValidation)
    && NoOpenHandler(c, c.calls[k].id)
    && (forall t :: t in c.timers ==> c.timers[t].id != c.calls[k].id)
  }

  lemma ArmingKeepsOwned(c: Controller, k: nat)
    requires Unguarded(c, k) && Owned(c, c.calls[k].id) && NoAdmission(c, c.calls[k].id)
    ensures Owned(ArmTimer(c, k), c.calls[k].id)
  {
  }

  lemma BesidesKeepOwned(c: Controller, r: Controller, id: Id)
    requires Owned(c, id) && WellFormed(r)
    requires r == c.(pendingTransfers := r.pendingTransfers, writes := r.writes, unlocks := r.unlocks,
                     platformStorage := r.platformStorage)
    ensures Owned(r, id)
  {
    BesidesLeaveSlice(c, r, id);
    SliceKeepsOwned(c, r, id);
  }

  lemma AwaitingKeepsOwned(c: Controller, k: nat, now: int)
    requires Released(c, k) && Owned(c, c.calls[k].id) && NoAdmission(c, c.calls[k].id)
    ensures Owned(EnterAwaitingValidation(c, k, now), c.calls[k].id)
  {
    ReleasedHasNoOwner(c, k);
    SettlingReleasedKeepsOwned(c, k, AwaitingValidation);
    ArmingKeepsOwned(SetStatus(c, k, AwaitingValidation), k);
    BesidesKeepOwned(ArmTimer(SetStatus(c, k, AwaitingValidation), k), EnterAwaitingValidation(c, k, now),
                     c.calls[k].id);
  }

  lemma RollingBackKeepsOwned(c: Controller, k: nat)
    requires Released(c, k) && Owned(c, c.calls[k].id) && NoAdmission(c, c.calls[k].id)
    ensures Owned(RollBackCall(c, k), c.calls[k].id)
  {
    if c.calls[k].outcome.Rejected? {
      SettlingReleasedKeepsOwned(c, k, Failed);
      BesidesKeepOwned(SetStatus(c, k, Failed), RollBackCall(c, k), c.calls[k].id);
    } else {
      BesidesKeepOwned(c, RollBackCall(c, k), c.calls[k].id);
    }
  }

  lemma ReplyKeepsOwned(c: Controller, k: nat, outcome: SendOutcome, now: int)
    requires k < |c.calls| && c.calls[k].phase.Sending? && k in c.records
    requires Owned(c, c.calls[k].id) && NoAdmission(c, c.calls[k].id)
    requires !outcome.NotSent? && !outcome.InFlight?
    ensures Owned(ReceiveImportReply(c, k, outcome, now), c.calls[k].id)
  {
    var call := c.calls[k].(phase := AfterImportReply(c, c.calls[k].id, outcome), outcome := outcome);
    ReturningReleases(c, k, call);
    if outcome.Accepted? || outcome.SessionLost? {
      AwaitingKeepsOwned(SetCall(c, k, call), k, now);
    } else {
      RollingBackKeepsOwned(SetCall(c, k, call), k);
    }
  }

  lemma CallReplyKeepsOwned(c: Controller, k: nat, id: Id)
    requires Owned(c, id)
    requires k < |c.calls| && (c.calls[k].phase.RollingBack? || c.calls[k].phase.UnlockingRefused?)
    ensures Owned(ReceiveCallUnlockReply(c, k), id)
  {
  }

  // ---------------------------------------------------------------- events of the id's handlers

  lemma LateVerdictEffect(c: Controller, id: Id, verdict: Verdict)
    requires WellFormed(c) && id in c.activeTransfers && !Awaits(c, id)
    ensures var r := TakeVerdict(c, id, verdict);
            && r == c.(records := c.records[c.activeTransfers[id] := r.records[c.activeTransfers[id]]])
            && (!c.records[c.activeTransfers[id]].status.Failed? ==> r == c)
  {
  }

  lemma LateVerdictKeepsOwned(c: Controller, id: Id, verdict: Verdict)
    requires Owned(c, id) && NoAdmission(c, id) && id in c.activeTransfers && !Awaits(c, id)
    ensures Owned(TakeVerdict(c, id, verdict), id)
  {
    LateVerdictEffect(c, id, verdict);
  }

  lemma AdoptingKeepsOwned(c: Controller, id: Id, preserved: bool)
    requires Owned(c, id) && NoAdmission(c, id) && Awaits(c, id) && NoOpenHandler(c, id)
    ensures Owned(SetRecord(c, c.activeTransfers[id], c.records[c.activeTransfers[id]].(preserved := preserved)), id)
  {
  }

  lemma ClearingKeepsOwned(c: Controller, id: Id)
    requires Owned(c, id) && NoAdmission(c, id) && Awaits(c, id) && NoOpenHandler(c, id)
    ensures Owned(ClearTimer(c, c.activeTransfers[id]), id)
  {
  }

  lemma StartingKeepsOwned(c: Controller, id: Id, verdict: Verdict)
    requires Owned(c, id) && Awaits(c, id) && NoOpenHandler(c, id)
    requires c.records[c.activeTransfers[id]].timer.None?
    requires c.records[c.activeTransfers[id]].preserved == verdict.destinationPreserved
    ensures Owned(StartHandler(c, id, c.activeTransfers[id], verdict), id)
  {
  }

  lemma VerdictKeepsOwned(c: Controller, id: Id, verdict: Verdict)
    requires Owned(c, id) && NoAdmission(c, id) && Awaits(c, id) && NoOpenHandler(c, id)
    ensures Owned(TakeVerdict(c, id, verdict), id)
  {
    var a := c.activeTransfers[id];
    var adopted := SetRecord(c, a, c.records[a].(preserved := verdict.destinationPreserved));
    AdoptingKeepsOwned(c, id, verdict.destinationPreserved);
    ClearingKeepsOwned(adopted, id);
    StartingKeepsOwned(ClearTimer(adopted, a), id, verdict);
  }

  lemma TakingKeepsOwned(c: Controller, id: Id, verdict: Verdict)
    requires Owned(c, id) && NoAdmission(c, id) && (Awaits(c, id) ==> NoOpenHandler(c, id))
    ensures Owned(TakeVerdict(c, id, verdict), id)
  {
    if id in c.activeTransfers {
      if Awaits(c, id) {
        VerdictKeepsOwned(c, id, verdict);
      } else {
        LateVerdictKeepsOwned(c, id, verdict);
      }
    }
  }

  lemma DroppingTimerKeepsOwned(c: Controller, t: nat, id: Id)
    requires Owned(c, id) && t in c.timers
    ensures Owned(c.(timers := c.timers - {t}), id)
  {
  }

  lemma FiringKeepsOwned(c: Controller, t: nat)
    requires t in c.timers && Owned(c, c.timers[t].id) && NoAdmission(c, c.timers[t].id)
    requires Awaits(c, c.timers[t].id) ==> NoOpenHandler(c, c.timers[t].id)
    ensures Owned(FireTimer(c, t), c.timers[t].id)
  {
    assert TimerOwns(c.timers[t], t, c.activeTransfers, c.records);
    DroppingTimerKeepsOwned(c, t, c.timers[t].id);
    VerdictKeepsOwned(c.(timers := c.timers - {t}), c.timers[t].id, TIMEOUT_VERDICT);
  }

  /** A handler that stays open, or stays closed, keeps what it owns. */
  lemma MovingKeepsOwned(c: Controller, h: nat, handler: Handler, id: Id)
    requires Owned(c, id) && h < |c.handlers|
    requires handler.id == c.handlers[h].id && handler.attempt == c.handlers[h].attempt
    requires handler.verdict == c.handlers[h].verdict && (Open(handler) ==> Open(c.handlers[h]))
    ensures Owned(c.(handlers := c.handlers[h := handler]), id)
  {
  }

  lemma AnnouncingKeepsOwned(c: Controller, h: nat, id: Id)
    requires Owned(c, id) && h < |c.handlers| && c.handlers[h].phase.Announcing?
    ensures Owned(FinishAnnouncing(c, h), id)
  {
    var r := FinishAnnouncing(c, h);
    MovingKeepsOwned(c, h, r.handlers[h], id);
    BesidesKeepOwned(c.(handlers := c.handlers[h := r.handlers[h]]), r, id);
  }

  lemma UnlockReplyKeepsOwned(c: Controller, h: nat, failed: bool, id: Id)
    requires Owned(c, id) && h < |c.handlers| && c.handlers[h].phase.Unlocking?
    ensures Owned(ReceiveUnlockReply(c, h, failed), id)
  {
    MovingKeepsOwned(c, h, c.handlers[h].(phase := Reporting(failed)), id);
  }

  /** The only open handler of an id settles its record and closes. */
  lemma ClosingKeepsOwned(c: Controller, h: nat, status: Status, phase: HandlerPhase)
    requires h < |c.handlers| && Owned(c, c.handlers[h].id) && NoAdmission(c, c.handlers[h].id)
    requires Open(c.handlers[h]) && !Open(c.handlers[h].(phase := phase))
    ensures c.handlers[h].attempt in c.records
    ensures Owned(SetHandlerPhase(SetStatus(c, c.handlers[h].attempt, status), h, phase), c.handlers[h].id)
  {
    assert HandlerOwns(c.handlers[h], c.activeTransfers, c.records);
    MovingKeepsOwned(c, h, c.handlers[h].(phase := phase), c.handlers[h].id);
    UnheldCanSettle(SetHandlerPhase(c, h, phase), c.handlers[h].id, status);
  }

  lemma UnheldCanSettle(c: Controller, id: Id, status: Status)
    requires Owned(c, id) && NoAdmission(c, id) && Awaits(c, id) && NoOpenHandler(c, id)
    requires c.records[c.activeTransfers[id]].timer.None?
    ensures Owned(SetStatus(c, c.activeTransfers[id], status), id)
  {
  }

  lemma CompletingKeepsOwned(c: Controller, h: nat, id: Id)
    requires Owned(c, id) && h < |c.handlers| && c.handlers[h].phase.Completing?
    ensures Owned(FinishCompleting(c, h), id)
  {
    MovingKeepsOwned(c, h, c.handlers[h].(phase := Storing), id);
    BesidesKeepOwned(SetHandlerPhase(c, h, Storing), FinishCompleting(c, h), id);
  }

  lemma EvictingKeepsOwned(c: Controller, evicted: set<Id>, id: Id)
    requires Owned(c, id) && EvictsSettled(c, evicted, id)
    ensures Owned(Evict(c, evicted), id)
  {
    if id !in evicted {
      EvictionLeavesSlice(c, evicted, id);
      SliceKeepsOwned(c, Evict(c, evicted), id);
    }
  }

  lemma SettlingKeepsOwned(c: Controller, h: nat, evicted: set<Id>, id: Id)
    requires Owned(c, id) && h < |c.handlers| && EvictsSettled(c, evicted, id)
    ensures Owned(Settle(c, h, evicted), id)
  {
    MovingKeepsOwned(c, h, c.handlers[h].(phase := Finished), id);
    EvictingKeepsOwned(SetHandlerPhase(c, h, Finished), evicted, id);
    BesidesKeepOwned(Evict(SetHandlerPhase(c, h, Finished), evicted), Settle(c, h, evicted), id);
  }

  lemma RestartKeepsOwned(c: Controller, stored: map<Id, StoredExport>, disk: map<Id, Intent>, now: int, id: Id)
    requires Owned(c, id)
    ensures Owned(Restart(c, stored, disk, now), id)
  {
  }

  // ---------------------------------------------------------------- dispatch

  lemma MoveKeepsOwned(w: World, move: Move, id: Id)
    requires Owned(w.controller, id) && MoveEnabled(w, move) && Disciplined(w, Outside(move), id)
    ensures Owned(ApplyMove(w, move).controller, id)
  {
    var c := w.controller;
    match move
    case RestartController(stored) => RestartKeepsOwned(c, stored, w.env.disk, w.env.now, id);
    case OtherOperationPrunes(evicted, _, _) => EvictingKeepsOwned(c, evicted, id);
    case _ => BesidesKeepOwned(c, ApplyMove(w, move).controller, id);
  }

  lemma OwnCallKeepsOwned(w: World, e: CallEvent, id: Id)
    requires Owned(w.controller, id) && CallEnabled(w, e) && Disciplined(w, InCall(e), id)
    requires CallSubject(w.controller, w.env.now, e) == id
    ensures Owned(ApplyCall(w.controller, w.env.now, e), id)
  {
    var c := w.controller;
    match e
    case CallTransfer(exportId, online, entry, startedAt) =>
      BeginKeepsOwned(c, exportId, online, entry, startedAt, id);
    case FailBeforeTransfer(exportId, entry, startedAt) => RefuseKeepsOwned(c, exportId, entry, startedAt, id);
    case Archived(k) => InstallKeepsOwned(c, k);
    case Recorded(k) => SendKeepsOwned(c, k);
    case ImportReplies(k, outcome) => ReplyKeepsOwned(c, k, outcome, w.env.now);
    case CallUnlockReplies(k) => CallReplyKeepsOwned(c, k, id);
    case InstanceUnlocks(k) => BesidesKeepOwned(c, SendUnlock(c, c.calls[k].id, ByCall(k)), id);
  }

  lemma OwnHandlerKeepsOwned(w: World, e: HandlerEvent, id: Id)
    requires Owned(w.controller, id) && HandlerEnabled(w, e) && Disciplined(w, InHandler(e), id)
    requires HandlerSubject(w, e) == id && !e.Settles?
    ensures Owned(ApplyHandler(w, e), id)
  {
    var c := w.controller;
    match e
    case VerdictArrives(message) => TakingKeepsOwned(c, message.id, message.verdict);
    case TimerFires(t) => FiringKeepsOwned(c, t);
    case Announced(h) => AnnouncingKeepsOwned(c, h, id);
    case DeleteReplies(h, reply) => ClosingKeepsOwned(c, h, SettledStatus(reply), SettledPhase(reply));
    case CompletionRecorded(h) => CompletingKeepsOwned(c, h, id);
    case UnlockReplies(h, failed) => UnlockReplyKeepsOwned(c, h, failed, id);
    case Reported(h) =>
      ClosingKeepsOwned(c, h, if c.handlers[h].verdict.cleanupFailed then CleanupFailed else Failed,
                        Persisting(c.handlers[h].phase.rollbackFailed));
  }

  /** Every event that is disciplined for the id keeps one owner for its record. */
  lemma StepKeepsOwned(w: World, e: Event, id: Id)
    requires Owned(w.controller, id) && Enabled(w, e) && Disciplined(w, e, id)
    ensures Owned(Step(w, e).controller, id)
  {
    match e
    case Outside(move) => MoveKeepsOwned(w, move, id);
    case InCall(call) =>
      if Concerns(w, e, id) {
        OwnCallKeepsOwned(w, call, id);
      } else {
        CallLeavesSlice(w, call, id);
        SliceKeepsOwned(w.controller, Step(w, e).controller, id);
      }
    case InHandler(handler) =>
      if handler.Settles? {
        SettlingKeepsOwned(w.controller, handler.h, handler.evicted, id);
      } else if Concerns(w, e, id) {
        OwnHandlerKeepsOwned(w, handler, id);
      } else {
        HandlerLeavesSlice(w, handler, id);
        SliceKeepsOwned(w.controller, Step(w, e).controller, id);
      }
  }
}
