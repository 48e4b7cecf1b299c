/**
 The transfer orchestrator's memory and what each stretch of code between two awaits does to it.

 A JavaScript record object is named by the number of the `transferPlatform` call that created it:
 `active` maps a transfer id to such a number and `records` to the object itself, so a handler that
 kept a reference to an older record still writes to that record and to no other.
 A suspended handler is an entry of `calls` or `handlers` whose phase says which await it is at.
 */
module TransferModel {
  import opened Wrappers

  const NO_ID := Id("")

  const MAX_ACTIVE_TRANSFERS: nat := 100
  const PENDING_TRANSFER_INTENT_RETENTION_MS: int := 15 * 60 * 1000

  // ---------------------------------------------------------------- records

  datatype Status =
    | Transporting
    | AwaitingValidation
    | AwaitingCompletion
    | InProgress
    | Completed
    | Failed
    | CleanupFailed
    | Error

  predicate IsLive(status: Status) {
    status.Transporting? || status.AwaitingValidation? || status.AwaitingCompletion? || status.InProgress?
  }

  /** The modelled fields of an ActiveTransfer; `preserved` is validationResult.destinationPreserved. */
  datatype Record = Record(
    id: Id,
    exportId: Id,
    status: Status,
    startedAt: int,
    timer: Option<nat>,
    preserved: bool)

  datatype StoredExport = StoredExport(exportId: Id, platformIndex: Option<int>)

  datatype Intent = Intent(call: nat, startedAt: int)

  datatype Timer = Timer(id: Id, armer: nat)

  // ---------------------------------------------------------------- verdicts

  /** A TransferValidationEvent without its texts. */
  datatype Verdict = Verdict(
    success: bool,
    itemCountMatch: bool,
    fluidCountMatch: bool,
    cleanupFailed: bool,
    destinationPreserved: bool)

  /** The verdict a validation timeout makes up. */
  const TIMEOUT_VERDICT := Verdict(false, false, false, false, false)

  /** What the destination's Lua side reports; `success` is None when the field is not a boolean. */
  datatype ImportReport = ImportReport(success: Option<bool>, validation: Option<ReportedValidation>)

  datatype ReportedValidation = ReportedValidation(
    itemCountMatch: bool,
    fluidCountMatch: bool,
    cleanupFailed: bool,
    destinationPreserved: bool)

  /** How the destination instance turns a report into the verdict it sends. */
  function FormVerdict(report: ImportReport): (verdict: Verdict)
    ensures verdict.success <==>
            && report.success == Some(true) && report.validation.Some?
            && report.validation.value.itemCountMatch && report.validation.value.fluidCountMatch
    ensures verdict.success ==> verdict.itemCountMatch && verdict.fluidCountMatch
    ensures report.validation.Some? ==>
              && verdict.itemCountMatch == report.validation.value.itemCountMatch
              && verdict.fluidCountMatch == report.validation.value.fluidCountMatch
              && verdict.cleanupFailed == report.validation.value.cleanupFailed
              && verdict.destinationPreserved == report.validation.value.destinationPreserved
    ensures report.validation.None? ==> verdict == Verdict(false, false, false, false, false)
  {
    match report.validation
    case None => Verdict(false, false, false, false, false)
    case Some(v) =>
      Verdict(report.success == Some(true) && v.itemCountMatch && v.fluidCountMatch,
              v.itemCountMatch, v.fluidCountMatch, v.cleanupFailed, v.destinationPreserved)
  }

  /** The verdict says that a copy of the platform exists at the destination. */
  predicate ReportsCopy(verdict: Verdict) {
    verdict.success || verdict.cleanupFailed || verdict.destinationPreserved
  }

  // ---------------------------------------------------------------- suspended handlers

  /** Who called `transferPlatform`: the web UI's start request or an instance's transfer request. */
  datatype Entry = StartRequest | TransferRequest

  datatype Reply = Reply(success: bool, safeToUnlockSource: bool)

  datatype CallPhase =
    | Archiving(operation: Record)
    | Recording
    | Sending
    | RollingBack
    | UnlockingRefused
    | Returned(reply: Reply)
    | CallLost

  datatype SendOutcome = NotSent | InFlight | Accepted | Rejected | SessionLost | Threw

  datatype Call = Call(id: Id, entry: Entry, startedAt: int, phase: CallPhase, outcome: SendOutcome)

  datatype HandlerPhase =
    | Announcing
    | Deleting
    | Completing
    | Storing
    | Refusing
    | Unlocking
    | Reporting(rollbackFailed: bool)
    | Persisting(rollbackFailed: bool)
    | Finished

  /** One run of `handleTransferValidation` past its status test. */
  datatype Handler = Handler(id: Id, attempt: nat, verdict: Verdict, phase: HandlerPhase, deleteSent: bool)

  datatype DeleteReply = Deleted | DeleteRefused | DeleteThrew

  datatype Origin = ByCall(call: nat) | ByVerdict(handler: nat)

  datatype Unlock = Unlock(id: Id, origin: Origin)

  // ---------------------------------------------------------------- controller state

  datatype Controller = Controller(
    platformStorage: map<Id, StoredExport>,
    activeTransfers: map<Id, nat>,
    records: map<nat, Record>,
    calls: seq<Call>,
    handlers: seq<Handler>,
    timers: map<nat, Timer>,
    nextTimer: nat,
    pendingTransfers: map<Id, Intent>,
    writes: seq<map<Id, Intent>>,
    unlocks: seq<Unlock>)

  predicate Linked(c: Controller) {
    forall id :: id in c.activeTransfers ==> c.activeTransfers[id] in c.records
  }

  /** The object graph is closed: every reference names an object that exists and carries the same id. */
  ghost predicate WellFormed(c: Controller) {
    && Linked(c)
    && (forall id :: id in c.activeTransfers ==> c.records[c.activeTransfers[id]].id == id)
    && (forall k :: k in c.records ==> k < |c.calls| && c.records[k].id == c.calls[k].id)
    && (forall k :: 0 <= k < |c.calls| ==> CallWellFormed(c.calls[k], k, c.records.Keys))
    && (forall h :: 0 <= h < |c.handlers| ==>
          c.handlers[h].attempt in c.records && c.records[c.handlers[h].attempt].id == c.handlers[h].id)
    && (forall t :: t in c.timers ==> t < c.nextTimer)
  }

  predicate CallWellFormed(call: Call, k: nat, records: set<nat>) {
    && (call.phase.Archiving? ==> call.phase.operation.id == call.id)
    && (call.phase.Recording? || call.phase.Sending? ==> k in records)
  }

  predicate SameIntents(c: Controller, r: Controller) {
    r.pendingTransfers == c.pendingTransfers && r.writes == c.writes
  }

  /** Of the suspended code, only handler h went on, and it kept its id, record and verdict. */
  ghost predicate OnlyHandlerMoves(c: Controller, r: Controller, h: nat)
    requires h < |c.handlers|
  {
    && r.calls == c.calls
    && |r.handlers| == |c.handlers|
    && r.handlers == c.handlers[h := r.handlers[h]]
    && r.handlers[h].id == c.handlers[h].id
    && r.handlers[h].attempt == c.handlers[h].attempt
    && r.handlers[h].verdict == c.handlers[h].verdict
  }

  /** Of the suspended code, only call k went on, and it kept its id, caller and start time. */
  ghost predicate OnlyCallMoves(c: Controller, r: Controller, k: nat)
    requires k < |c.calls|
  {
    && r.handlers == c.handlers
    && |r.calls| == |c.calls|
    && r.calls == c.calls[k := r.calls[k]]
    && r.calls[k].id == c.calls[k].id
    && r.calls[k].entry == c.calls[k].entry
    && r.calls[k].startedAt == c.calls[k].startedAt
  }

  function SetCall(c: Controller, k: nat, call: Call): (r: Controller)
    requires k < |c.calls|
    ensures WellFormed(c) && call.id == c.calls[k].id && CallWellFormed(call, k, c.records.Keys) ==> WellFormed(r)
  {
    c.(calls := c.calls[k := call])
  }

  function SetHandlerPhase(c: Controller, h: nat, phase: HandlerPhase): (r: Controller)
    requires h < |c.handlers|
    ensures WellFormed(c) ==> WellFormed(r)
  {
    c.(handlers := c.handlers[h := c.handlers[h].(phase := phase)])
  }

  function SetRecord(c: Controller, attempt: nat, record: Record): (r: Controller)
    requires attempt in c.records
    ensures WellFormed(c) && record.id == c.records[attempt].id ==> WellFormed(r)
  {
    c.(records := c.records[attempt := record])
  }

  function SetStatus(c: Controller, attempt: nat, status: Status): (r: Controller)
    requires attempt in c.records
    ensures WellFormed(c) ==> WellFormed(r)
  {
    SetRecord(c, attempt, c.records[attempt].(status := status))
  }

  function SendUnlock(c: Controller, id: Id, origin: Origin): (r: Controller)
    ensures WellFormed(c) ==> WellFormed(r)
  {
    c.(unlocks := c.unlocks + [Unlock(id, origin)])
  }

  // ---------------------------------------------------------------- transferPlatform

  datatype Decision = Refuse | AlreadyActive(id: Id) | Admit(id: Id)

  function TransferIdOf(c: Controller, exportId: Id): Id {
    if exportId in c.platformStorage && c.platformStorage[exportId].exportId != NO_ID
    then c.platformStorage[exportId].exportId else exportId
  }

  /** The checks of `transferPlatform` that need no await. */
  function Decide(c: Controller, exportId: Id, online: bool): Decision
    requires Linked(c)
  {
    if exportId !in c.platformStorage || !online then Refuse
    else
      var id := TransferIdOf(c, exportId);
      if id in c.activeTransfers && IsLive(c.records[c.activeTransfers[id]].status) then AlreadyActive(id)
      else if id in c.activeTransfers && !c.records[c.activeTransfers[id]].status.Failed? then Refuse
      else if id in c.activeTransfers && c.records[c.activeTransfers[id]].preserved then Refuse
      else match c.platformStorage[exportId].platformIndex
        case None => Refuse
        case Some(index) => if index < 1 then Refuse else Admit(id)
  }

  predicate OneNewCall(c: Controller, r: Controller) {
    && |r.calls| == |c.calls| + 1
    && r.calls[..|c.calls|] == c.calls
    && r.calls[|c.calls|].outcome.NotSent?
    && !r.calls[|c.calls|].phase.Sending? && !r.calls[|c.calls|].phase.RollingBack?
    && (r.calls[|c.calls|].phase.Returned? && r.calls[|c.calls|].phase.reply.safeToUnlockSource ==>
          !r.calls[|c.calls|].phase.reply.success)
  }

  /** A call that ends before an import is sent; the start request then unlocks the source itself. */
  function RefuseCall(c: Controller, id: Id, entry: Entry, startedAt: int): (r: Controller)
    ensures WellFormed(c) ==> WellFormed(r)
    ensures r.handlers == c.handlers && OneNewCall(c, r)
    ensures r.unlocks == c.unlocks + (if entry.StartRequest? then [Unlock(id, ByCall(|c.calls|))] else [])
    ensures r.calls[|c.calls|].id == id
    ensures r.calls[|c.calls|].phase == if entry.StartRequest? then UnlockingRefused else Returned(Reply(false, true))
    ensures SameIntents(c, r)
  {
    match entry
    case StartRequest =>
      SendUnlock(c.(calls := c.calls + [Call(id, entry, startedAt, UnlockingRefused, NotSent)]),
                 id, ByCall(|c.calls|))
    case TransferRequest =>
      c.(calls := c.calls + [Call(id, entry, startedAt, Returned(Reply(false, true)), NotSent)])
  }

  function BeginCall(c: Controller, exportId: Id, online: bool, entry: Entry, startedAt: int): (r: Controller)
    requires Linked(c)
    ensures WellFormed(c) ==> WellFormed(r)
    ensures r.handlers == c.handlers
    ensures OneNewCall(c, r)
    ensures r.unlocks == c.unlocks + (if Decide(c, exportId, online).Refuse? && entry.StartRequest?
                                      then [Unlock(TransferIdOf(c, exportId), ByCall(|c.calls|))] else [])
    ensures SameIntents(c, r)
  {
    match Decide(c, exportId, online)
    case Refuse => RefuseCall(c, TransferIdOf(c, exportId), entry, startedAt)
    case AlreadyActive(id) =>
      c.(calls := c.calls + [Call(id, entry, startedAt, Returned(Reply(true, false)), NotSent)])
    case Admit(id) =>
      var operation := Record(id, exportId, Transporting, startedAt, None, false);
      c.(calls := c.calls + [Call(id, entry, startedAt, Archiving(operation), NotSent)])
  }

  /** After `archiveRecycledTransferId`: the new record replaces whatever the id named. */
  function InstallRecord(c: Controller, k: nat): (r: Controller)
    requires k < |c.calls| && c.calls[k].phase.Archiving?
    ensures WellFormed(c) ==> WellFormed(r)
    ensures OnlyCallMoves(c, r, k)
  {
    SetCall(c, k, c.calls[k].(phase := Recording)).(
      records := c.records[k := c.calls[k].phase.operation],
      activeTransfers := c.activeTransfers[c.calls[k].id := k])
  }

  /** After `recordTransferStarted`: the import request goes out. */
  function SendImport(c: Controller, k: nat): (r: Controller)
    requires k < |c.calls|
    ensures WellFormed(c) && c.calls[k].phase.Recording? ==> WellFormed(r)
    ensures OnlyCallMoves(c, r, k)
  {
    SetCall(c, k, c.calls[k].(phase := Sending, outcome := InFlight))
  }

  function PruneIntents(intents: map<Id, Intent>, now: int): map<Id, Intent> {
    map id | id in intents && now - intents[id].startedAt <= PENDING_TRANSFER_INTENT_RETENTION_MS :: intents[id]
  }

  /** `scheduleValidationTimeout`: the timer hangs on the record the id names now, if any. */
  function ArmTimer(c: Controller, k: nat): (r: Controller)
    requires Linked(c) && k < |c.calls|
    ensures WellFormed(c) ==> WellFormed(r)
    ensures r.handlers == c.handlers && r.calls == c.calls
    ensures r.unlocks == c.unlocks && r.activeTransfers == c.activeTransfers
    ensures c.calls[k].id in c.activeTransfers ==>
              var a := c.activeTransfers[c.calls[k].id];
              && r.records == c.records[a := c.records[a].(timer := Some(c.nextTimer))]
              && r.timers == c.timers[c.nextTimer := Timer(c.calls[k].id, k)]
  {
    var id := c.calls[k].id;
    if id !in c.activeTransfers then c
    else
      var a := c.activeTransfers[id];
      SetRecord(c, a, c.records[a].(timer := Some(c.nextTimer))).(
        timers := c.timers[c.nextTimer := Timer(id, k)],
        nextTimer := c.nextTimer + 1)
  }

  function RecordIntent(c: Controller, k: nat, now: int): (r: Controller)
    requires k < |c.calls|
    ensures WellFormed(c) ==> WellFormed(r)
  {
    var intents := PruneIntents(c.pendingTransfers, now)[c.calls[k].id := Intent(k, c.calls[k].startedAt)];
    c.(pendingTransfers := intents, writes := c.writes + [intents])
  }

  function EnterAwaitingValidation(c: Controller, k: nat, now: int): (r: Controller)
    requires Linked(c) && k < |c.calls| && k in c.records
    ensures WellFormed(c) ==> WellFormed(r)
    ensures r.handlers == c.handlers && r.calls == c.calls
    ensures r.unlocks == c.unlocks && r.activeTransfers == c.activeTransfers
  {
    RecordIntent(ArmTimer(SetStatus(c, k, AwaitingValidation), k), k, now)
  }

  /** Where the import request's reply, or its failure, leaves the suspended call. */
  function AfterImportReply(c: Controller, id: Id, outcome: SendOutcome): (phase: CallPhase) {
    if outcome.Accepted? || outcome.SessionLost? then Returned(Reply(true, false))
    else if outcome.Rejected? && id !in c.activeTransfers then Returned(Reply(false, false))
    else RollingBack
  }

  /** A refused import settles the record its id names now; a send that threw leaves the status alone. */
  function RollBackCall(c: Controller, k: nat): (r: Controller)
    requires Linked(c) && k < |c.calls|
    ensures WellFormed(c) ==> WellFormed(r)
    ensures r.handlers == c.handlers && r.calls == c.calls
    ensures r.unlocks == c.unlocks + [Unlock(c.calls[k].id, ByCall(k))]
    ensures SameIntents(c, r)
  {
    var call := c.calls[k];
    SendUnlock(if call.outcome.Rejected? && call.id in c.activeTransfers
               then SetStatus(c, c.activeTransfers[call.id], Failed) else c,
               call.id, ByCall(k))
  }

  function ReceiveImportReply(c: Controller, k: nat, outcome: SendOutcome, now: int): (r: Controller)
    requires Linked(c) && k < |c.calls| && c.calls[k].phase.Sending? && k in c.records
    ensures WellFormed(c) ==> WellFormed(r)
    ensures r.handlers == c.handlers
    ensures r.calls ==
            c.calls[k := c.calls[k].(phase := AfterImportReply(c, c.calls[k].id, outcome), outcome := outcome)]
    ensures r.unlocks == c.unlocks + (if r.calls[k].phase.RollingBack? then [Unlock(c.calls[k].id, ByCall(k))] else [])
  {
    var phase := AfterImportReply(c, c.calls[k].id, outcome);
    var replied := SetCall(c, k, c.calls[k].(phase := phase, outcome := outcome));
    if outcome.Accepted? || outcome.SessionLost? then EnterAwaitingValidation(replied, k, now)
    else if phase.RollingBack? then RollBackCall(replied, k)
    else replied
  }

  /** The reply to an unlock that a call itself had asked for. */
  function ReceiveCallUnlockReply(c: Controller, k: nat): (r: Controller)
    requires k < |c.calls| && (c.calls[k].phase.RollingBack? || c.calls[k].phase.UnlockingRefused?)
    ensures WellFormed(c) ==> WellFormed(r)
    ensures OnlyCallMoves(c, r, k)
  {
    SetCall(c, k, c.calls[k].(phase := Returned(Reply(false, c.calls[k].phase.UnlockingRefused?))))
  }

  // ---------------------------------------------------------------- handleTransferValidation

  predicate Awaits(c: Controller, id: Id)
    requires Linked(c)
  {
    id in c.activeTransfers && c.records[c.activeTransfers[id]].status.AwaitingValidation?
  }

  /** A verdict for a record that is not awaiting one. */
  function TakeLateVerdict(c: Controller, attempt: nat, verdict: Verdict): (r: Controller)
    requires attempt in c.records
    ensures WellFormed(c) ==> WellFormed(r)
    ensures r == c.(records := r.records)
  {
    var record := c.records[attempt];
    if !record.status.Failed? then c
    else if verdict.success then SetStatus(c, attempt, CleanupFailed)
    else if verdict.cleanupFailed then
      SetRecord(c, attempt, record.(status := CleanupFailed, preserved := verdict.destinationPreserved))
    else if verdict.destinationPreserved then
      SetRecord(c, attempt, record.(preserved := true))
    else c
  }

  function ClearTimer(c: Controller, attempt: nat): (r: Controller)
    requires attempt in c.records
    ensures WellFormed(c) ==> WellFormed(r)
    ensures r == c.(records := r.records, timers := r.timers)
    ensures r.records == c.records[attempt := c.records[attempt].(timer := None)]
    ensures r.timers ==
            (if c.records[attempt].timer.Some? then c.timers - {c.records[attempt].timer.value} else c.timers)
  {
    match c.records[attempt].timer
    case None => c
    case Some(t) => SetRecord(c, attempt, c.records[attempt].(timer := None)).(timers := c.timers - {t})
  }

  function StartHandler(c: Controller, id: Id, attempt: nat, verdict: Verdict): (r: Controller)
    requires attempt in c.records
    ensures WellFormed(c) && c.records[attempt].id == id ==> WellFormed(r)
  {
    c.(handlers := c.handlers + [Handler(id, attempt, verdict, Announcing, false)])
  }

  /** `handleTransferValidation` up to its first await. */
  function TakeVerdict(c: Controller, id: Id, verdict: Verdict): (r: Controller)
    requires Linked(c)
    ensures WellFormed(c) ==> WellFormed(r)
    ensures r.calls == c.calls && r.unlocks == c.unlocks && r.activeTransfers == c.activeTransfers
    ensures r.handlers == c.handlers +
              (if Awaits(c, id) then [Handler(id, c.activeTransfers[id], verdict, Announcing, false)] else [])
    ensures SameIntents(c, r)
  {
    if id !in c.activeTransfers then c
    else
      var attempt := c.activeTransfers[id];
      if !c.records[attempt].status.AwaitingValidation? then TakeLateVerdict(c, attempt, verdict)
      else
        var adopted := SetRecord(c, attempt, c.records[attempt].(preserved := verdict.destinationPreserved));
        StartHandler(ClearTimer(adopted, attempt), id, attempt, verdict)
  }

  /** The timeout callback runs: its timer is gone, and a record still awaiting gets a failure verdict. */
  function FireTimer(c: Controller, t: nat): (r: Controller)
    requires Linked(c) && t in c.timers
    ensures WellFormed(c) ==> WellFormed(r)
    ensures r.calls == c.calls && r.unlocks == c.unlocks && r.activeTransfers == c.activeTransfers
    ensures r.handlers == c.handlers + (if Awaits(c, c.timers[t].id)
        then [Handler(c.timers[t].id, c.activeTransfers[c.timers[t].id], TIMEOUT_VERDICT, Announcing, false)] else [])
    ensures SameIntents(c, r)
  {
    var id := c.timers[t].id;
    var fired := c.(timers := c.timers - {t});
    if Awaits(c, id) then TakeVerdict(fired, id, TIMEOUT_VERDICT) else fired
  }

  /** After the first status broadcast: success asks for the delete, failure for the unlock. */
  function FinishAnnouncing(c: Controller, h: nat): (r: Controller)
    requires h < |c.handlers|
    ensures WellFormed(c) ==> WellFormed(r)
    ensures OnlyHandlerMoves(c, r, h)
    ensures r.handlers[h].phase == if c.handlers[h].verdict.success then Deleting else Unlocking
    ensures r.unlocks == c.unlocks +
              (if c.handlers[h].verdict.success then [] else [Unlock(c.handlers[h].id, ByVerdict(h))])
    ensures SameIntents(c, r)
  {
    if c.handlers[h].verdict.success
    then c.(handlers := c.handlers[h := c.handlers[h].(phase := Deleting, deleteSent := true)])
    else SendUnlock(SetHandlerPhase(c, h, Unlocking), c.handlers[h].id, ByVerdict(h))
  }

  function ReceiveDeleteReply(c: Controller, h: nat, reply: DeleteReply): (r: Controller)
    requires h < |c.handlers| && c.handlers[h].attempt in c.records
    ensures WellFormed(c) ==> WellFormed(r)
    ensures OnlyHandlerMoves(c, r, h) && r.unlocks == c.unlocks
    ensures r.handlers[h].phase ==
            if reply.Deleted? then Completing else if reply.DeleteRefused? then Refusing else Finished
    ensures SameIntents(c, r)
  {
    var attempt := c.handlers[h].attempt;
    match reply
    case Deleted => SetHandlerPhase(SetStatus(c, attempt, Completed), h, Completing)
    case DeleteRefused => SetHandlerPhase(SetStatus(c, attempt, CleanupFailed), h, Refusing)
    case DeleteThrew => SetHandlerPhase(SetStatus(c, attempt, Error), h, Finished)
  }

  /** After the completion broadcast and log write: the stored export is dropped. */
  function FinishCompleting(c: Controller, h: nat): (r: Controller)
    requires h < |c.handlers| && c.handlers[h].attempt in c.records
    ensures WellFormed(c) ==> WellFormed(r)
    ensures OnlyHandlerMoves(c, r, h) && r.unlocks == c.unlocks
    ensures r.handlers[h].phase == Storing
    ensures SameIntents(c, r)
  {
    var exportId := c.records[c.handlers[h].attempt].exportId;
    SetHandlerPhase(if exportId == NO_ID then c else c.(platformStorage := c.platformStorage - {exportId}), h, Storing)
  }

  function RemovePending(c: Controller, id: Id): (r: Controller)
    ensures WellFormed(c) ==> WellFormed(r)
  {
    if id !in c.pendingTransfers then c
    else
      var intents := c.pendingTransfers - {id};
      c.(pendingTransfers := intents, writes := c.writes + [intents])
  }

  function Evict(c: Controller, evicted: set<Id>): (r: Controller)
    ensures WellFormed(c) ==> WellFormed(r)
  {
    c.(activeTransfers := c.activeTransfers - evicted)
  }

  /** The last stretch of a handler; `evicted` is what `pruneOldTransfers` drops. */
  function Settle(c: Controller, h: nat, evicted: set<Id>): (r: Controller)
    requires h < |c.handlers|
    ensures WellFormed(c) ==> WellFormed(r)
    ensures OnlyHandlerMoves(c, r, h) && r.unlocks == c.unlocks
    ensures r.handlers[h].phase == Finished
  {
    var resolved := c.handlers[h].phase.Storing? || c.handlers[h].phase == Persisting(false);
    Evict(SetHandlerPhase(if resolved then RemovePending(c, c.handlers[h].id) else c, h, Finished), evicted)
  }

  function ReceiveUnlockReply(c: Controller, h: nat, failed: bool): (r: Controller)
    requires h < |c.handlers|
    ensures WellFormed(c) ==> WellFormed(r)
    ensures OnlyHandlerMoves(c, r, h) && r.unlocks == c.unlocks
    ensures r.handlers[h].phase == Reporting(failed)
    ensures SameIntents(c, r)
  {
    SetHandlerPhase(c, h, Reporting(failed))
  }

  function FinishReporting(c: Controller, h: nat): (r: Controller)
    requires h < |c.handlers| && c.handlers[h].attempt in c.records && c.handlers[h].phase.Reporting?
    ensures WellFormed(c) ==> WellFormed(r)
    ensures OnlyHandlerMoves(c, r, h) && r.unlocks == c.unlocks
    ensures r.handlers[h].phase == Persisting(c.handlers[h].phase.rollbackFailed)
    ensures SameIntents(c, r)
  {
    var status := if c.handlers[h].verdict.cleanupFailed then CleanupFailed else Failed;
    SetHandlerPhase(SetStatus(c, c.handlers[h].attempt, status), h, Persisting(c.handlers[h].phase.rollbackFailed))
  }

  // ---------------------------------------------------------------- pruning and restart

  /**
   `pruneOldTransfers`: nothing happens up to 100 records; otherwise the 100 newest stay.
   `others` counts the import and export operations that share the map, and `othersKept` those of them that stay.
   */
  ghost predicate MayEvict(c: Controller, others: nat, othersKept: nat, evicted: set<Id>)
    requires Linked(c)
  {
    && evicted <= c.activeTransfers.Keys
    && othersKept <= others
    && (|c.activeTransfers| + others <= MAX_ACTIVE_TRANSFERS ==> evicted == {} && othersKept == others)
    && (|c.activeTransfers| + others > MAX_ACTIVE_TRANSFERS ==>
          |c.activeTransfers.Keys - evicted| + othersKept == MAX_ACTIVE_TRANSFERS)
    && (forall gone, kept :: gone in evicted && kept in c.activeTransfers && kept !in evicted ==>
          StartedAt(c, gone) <= StartedAt(c, kept))
  }

  function StartedAt(c: Controller, id: Id): int
    requires Linked(c)
  {
    if id in c.activeTransfers then c.records[c.activeTransfers[id]].startedAt else 0
  }

  function LoseCall(call: Call): Call {
    if call.phase.Returned? then call else call.(phase := CallLost)
  }

  /** Memory after a restart: storage and intents come back from disk, handlers and timers do not. */
  function Restart(c: Controller, stored: map<Id, StoredExport>, disk: map<Id, Intent>, now: int): (r: Controller)
    ensures WellFormed(c) ==> WellFormed(r)
  {
    c.(platformStorage := stored,
       activeTransfers := map[],
       calls := seq(|c.calls|, k requires 0 <= k < |c.calls| => LoseCall(c.calls[k])),
       handlers := seq(|c.handlers|, h requires 0 <= h < |c.handlers| => c.handlers[h].(phase := Finished)),
       timers := map[],
       pendingTransfers := PruneIntents(disk, now),
       writes := [])
  }
}
