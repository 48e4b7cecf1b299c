/**
 What a record says and what had happened to its attempt. In every reachable state, whatever the order of
 events, the status of a record is the one that the last event of its attempt calls for, and the record still
 names the export that its call was made for.
 */
module TransferOutcomes {
  import opened Wrappers
  import opened TransferModel
  import opened TransferWorld
  import opened TransferDelete
  import opened TransferUnlock
  import opened TransferRetry
  import opened TransferCopies
  import opened TransferIntentGuards

  /** The status that the last thing to happen to attempt k calls for. */
  predicate CallsFor(fates: map<nat, Fate>, k: nat, status: Status) {
    if k !in fates then status == Transporting
    else match fates[k]
      case Landed => status == AwaitingValidation
      case ImportRefused => status == Failed
      case SourceAnswered(Deleted) => status == Completed
      case SourceAnswered(DeleteRefused) => status == CleanupFailed
      case SourceAnswered(DeleteThrew) => status == Error
      case FailureReported(cleanupFailed) => status == if cleanupFailed then CleanupFailed else Failed
      case CopyReportedLate => status == CleanupFailed
  }

  /** The record of attempt k is about what its call was made for, and says what became of it. */
  predicate RecordTells(record: Record, k: nat, calls: seq<Call>, requested: seq<Id>, fates: map<nat, Fate>) {
    && k < |calls| && k < |requested|
    && record.exportId == requested[k] && record.startedAt == calls[k].startedAt
    && CallsFor(fates, k, record.status)
    && (record.status.Transporting? ==> !record.preserved)
  }

  ghost predicate RecordsTell(c: Controller, requested: seq<Id>, fates: map<nat, Fate>) {
    forall k :: k in c.records ==> RecordTells(c.records[k], k, c.calls, requested, fates)
  }

  /** A call that is yet to install its record has it ready, and has no record so far. */
  predicate CallPrepared(call: Call, k: nat, records: set<nat>, requested: seq<Id>, fates: map<nat, Fate>) {
    call.phase.Archiving? ==>
      && k < |requested| && k !in records && k !in fates
      && call.phase.operation == Record(call.id, requested[k], Transporting, call.startedAt, None, false)
  }

  ghost predicate CallsPrepared(c: Controller, requested: seq<Id>, fates: map<nat, Fate>) {
    forall k :: 0 <= k < |c.calls| ==> CallPrepared(c.calls[k], k, c.records.Keys, requested, fates)
  }

  /** Only attempts whose records were installed have a fate. */
  ghost predicate FatesKnown(c: Controller, fates: map<nat, Fate>) {
    forall k :: k in fates ==> k in c.records
  }

  ghost predicate Told(c: Controller, requested: seq<Id>, fates: map<nat, Fate>) {
    && |requested| == |c.calls|
    && RecordsTell(c, requested, fates) && CallsPrepared(c, requested, fates) && FatesKnown(c, fates)
  }

  // ---------------------------------------------------------------- kinds of steps

  /** Calls may have moved on, but none is newly about to install a record. */
  ghost predicate CallsGoOn(a: seq<Call>, b: seq<Call>) {
    && |a| == |b|
    && (forall k :: 0 <= k < |a| ==> CallGoesOn(a[k], b[k]))
  }

  predicate CallGoesOn(a: Call, b: Call) {
    && a.id == b.id && a.startedAt == b.startedAt
    && (b.phase.Archiving? ==> a == b)
  }

  predicate SameOutcome(a: Record, b: Record) {
    a.status == b.status && a.exportId == b.exportId && a.startedAt == b.startedAt
  }

  /** No record changes but for its timer and, unless it is in transit, its verdict. */
  ghost predicate RecordsStay(a: map<nat, Record>, b: map<nat, Record>) {
    && a.Keys == b.Keys
    && (forall k :: k in a ==>
          SameOutcome(a[k], b[k]) && (a[k].status.Transporting? ==> a[k].preserved == b[k].preserved))
  }

  lemma QuietKeepsTold(c: Controller, r: Controller, requested: seq<Id>, fates: map<nat, Fate>)
    requires Told(c, requested, fates)
    requires CallsGoOn(c.calls, r.calls) && RecordsStay(c.records, r.records)
    ensures Told(r, requested, fates)
  {
    forall k | k in r.records ensures RecordTells(r.records[k], k, r.calls, requested, fates) {
      assert RecordTells(c.records[k], k, c.calls, requested, fates);
      assert SameOutcome(c.records[k], r.records[k]) && CallGoesOn(c.calls[k], r.calls[k]);
    }
    forall k | 0 <= k < |r.calls| ensures CallPrepared(r.calls[k], k, r.records.Keys, requested, fates) {
      assert CallGoesOn(c.calls[k], r.calls[k]);
      assert CallPrepared(c.calls[k], k, c.records.Keys, requested, fates);
    }
  }

  lemma FateKeepsRecord(record: Record, j: nat, k: nat, status: Status, fate: Fate, calls: seq<Call>,
                        requested: seq<Id>, fates: map<nat, Fate>)
    requires RecordTells(record, j, calls, requested, fates)
    requires !status.Transporting? && CallsFor(map[k := fate], k, status)
    ensures RecordTells(if j == k then record.(status := status) else record, j, calls, requested, fates[k := fate])
  {
  }

  /** The record of attempt k takes the status that its new fate calls for. */
  lemma FateKeepsTold(c: Controller, r: Controller, k: nat, status: Status, fate: Fate, requested: seq<Id>,
                      fates: map<nat, Fate>)
    requires Told(c, requested, fates) && k in c.records && r == SetStatus(c, k, status)
    requires !status.Transporting? && CallsFor(map[k := fate], k, status)
    ensures Told(r, requested, fates[k := fate])
  {
    forall j | j in r.records ensures RecordTells(r.records[j], j, r.calls, requested, fates[k := fate]) {
      FateKeepsRecord(c.records[j], j, k, status, fate, c.calls, requested, fates);
    }
    assert r.records.Keys == c.records.Keys;
    forall j | 0 <= j < |r.calls| ensures CallPrepared(r.calls[j], j, r.records.Keys, requested, fates[k := fate]) {
      assert CallPrepared(c.calls[j], j, c.records.Keys, requested, fates);
    }
  }

  lemma NewCallKeepsTold(c: Controller, r: Controller, exportId: Id, requested: seq<Id>, fates: map<nat, Fate>)
    requires Told(c, requested, fates) && OneNewCall(c, r)
    requires r == c.(calls := r.calls, unlocks := r.unlocks)
    requires CallPrepared(r.calls[|c.calls|], |c.calls|, c.records.Keys, requested + [exportId], fates)
    ensures Told(r, requested + [exportId], fates)
  {
    var more := requested + [exportId];
    assert forall k :: 0 <= k < |c.calls| ==> r.calls[k] == r.calls[..|c.calls|][k];
    forall k | k in r.records ensures RecordTells(r.records[k], k, r.calls, more, fates) {
      assert RecordTells(c.records[k], k, c.calls, requested, fates);
    }
    forall k | 0 <= k < |r.calls| ensures CallPrepared(r.calls[k], k, r.records.Keys, more, fates) {
      assert k < |c.calls| ==> CallPrepared(c.calls[k], k, c.records.Keys, requested, fates);
    }
  }

  // ---------------------------------------------------------------- calls

  lemma BeginKeepsTold(c: Controller, exportId: Id, online: bool, entry: Entry, startedAt: int,
                       requested: seq<Id>, fates: map<nat, Fate>)
    requires Linked(c) && Told(c, requested, fates)
    ensures Told(BeginCall(c, exportId, online, entry, startedAt), requested + [exportId], fates)
  {
    var r := BeginCall(c, exportId, online, entry, startedAt);
    BeginEffect(c, exportId, online, entry, startedAt);
    assert CallPrepared(r.calls[|c.calls|], |c.calls|, c.records.Keys, requested + [exportId], fates);
    NewCallKeepsTold(c, r, exportId, requested, fates);
  }

  lemma RefuseKeepsTold(c: Controller, exportId: Id, entry: Entry, startedAt: int,
                        requested: seq<Id>, fates: map<nat, Fate>)
    requires Told(c, requested, fates)
    ensures Told(RefuseCall(c, exportId, entry, startedAt), requested + [exportId], fates)
  {
    NewCallKeepsTold(c, RefuseCall(c, exportId, entry, startedAt), exportId, requested, fates);
  }

  lemma CallMoveKeepsTold(c: Controller, k: nat, call: Call, requested: seq<Id>, fates: map<nat, Fate>)
    requires Told(c, requested, fates) && k < |c.calls|
    requires call.id == c.calls[k].id && call.startedAt == c.calls[k].startedAt && !call.phase.Archiving?
    ensures Told(SetCall(c, k, call), requested, fates)
  {
    QuietKeepsTold(c, SetCall(c, k, call), requested, fates);
  }

  lemma InstallKeepsTold(c: Controller, k: nat, requested: seq<Id>, fates: map<nat, Fate>)
    requires Told(c, requested, fates) && k < |c.calls| && c.calls[k].phase.Archiving?
    ensures Told(InstallRecord(c, k), requested, fates)
  {
    var r := InstallRecord(c, k);
    assert CallPrepared(c.calls[k], k, c.records.Keys, requested, fates);
    forall j | j in r.records ensures RecordTells(r.records[j], j, r.calls, requested, fates) {
      assert j != k ==> RecordTells(c.records[j], j, c.calls, requested, fates);
    }
    forall j | 0 <= j < |r.calls| ensures CallPrepared(r.calls[j], j, r.records.Keys, requested, fates) {
      assert CallPrepared(c.calls[j], j, c.records.Keys, requested, fates);
    }
  }

  lemma AwaitingKeepsTold(c: Controller, k: nat, now: int, requested: seq<Id>, fates: map<nat, Fate>)
    requires Linked(c) && Told(c, requested, fates) && k < |c.calls| && k in c.records
    ensures Told(EnterAwaitingValidation(c, k, now), requested, fates[k := Landed])
  {
    var awaiting := SetStatus(c, k, AwaitingValidation);
    FateKeepsTold(c, awaiting, k, AwaitingValidation, Landed, requested, fates);
    QuietKeepsTold(awaiting, ArmTimer(awaiting, k), requested, fates[k := Landed]);
    QuietKeepsTold(ArmTimer(awaiting, k), EnterAwaitingValidation(c, k, now), requested, fates[k := Landed]);
  }

  lemma RefusalKeepsTold(c: Controller, k: nat, requested: seq<Id>, fates: map<nat, Fate>)
    requires Linked(c) && Told(c, requested, fates) && k < |c.calls|
    requires c.calls[k].outcome.Rejected? && c.calls[k].id in c.activeTransfers
    ensures Told(RollBackCall(c, k), requested, fates[c.activeTransfers[c.calls[k].id] := ImportRefused])
  {
    var a := c.activeTransfers[c.calls[k].id];
    FateKeepsTold(c, SetStatus(c, a, Failed), a, Failed, ImportRefused, requested, fates);
    QuietKeepsTold(SetStatus(c, a, Failed), RollBackCall(c, k), requested, fates[a := ImportRefused]);
  }

  lemma ReplyKeepsTold(w: World, k: nat, outcome: SendOutcome)
    requires Told(w.controller, w.env.requested, w.env.fates) && CallEnabled(w, ImportReplies(k, outcome))
    ensures Told(ReceiveImportReply(w.controller, k, outcome, w.env.now), w.env.requested,
                 FatesAfterCall(w, ImportReplies(k, outcome)))
  {
    var c := w.controller;
    var call := c.calls[k].(phase := AfterImportReply(c, c.calls[k].id, outcome), outcome := outcome);
    var replied := SetCall(c, k, call);
    CallMoveKeepsTold(c, k, call, w.env.requested, w.env.fates);
    if outcome.Accepted? || outcome.SessionLost? {
      AwaitingKeepsTold(replied, k, w.env.now, w.env.requested, w.env.fates);
    } else if outcome.Rejected? && call.id in c.activeTransfers {
      RefusalKeepsTold(replied, k, w.env.requested, w.env.fates);
    } else if call.phase.RollingBack? {
      QuietKeepsTold(replied, RollBackCall(replied, k), w.env.requested, w.env.fates);
    }
  }

  lemma CallKeepsTold(w: World, e: CallEvent)
    requires Told(w.controller, w.env.requested, w.env.fates) && CallEnabled(w, e)
    ensures Told(ApplyCall(w.controller, w.env.now, e), w.env.requested + RequestedBy(e), FatesAfterCall(w, e))
  {
    var c, requested, fates := w.controller, w.env.requested, w.env.fates;
    assert requested + [] == requested;
    match e
    case CallTransfer(exportId, online, entry, startedAt) =>
      BeginKeepsTold(c, exportId, online, entry, startedAt, requested, fates);
    case FailBeforeTransfer(exportId, entry, startedAt) =>
      RefuseKeepsTold(c, exportId, entry, startedAt, requested, fates);
    case Archived(k) => InstallKeepsTold(c, k, requested, fates);
    case Recorded(k) => CallMoveKeepsTold(c, k, c.calls[k].(phase := Sending, outcome := InFlight), requested, fates);
    case ImportReplies(k, outcome) => ReplyKeepsTold(w, k, outcome);
    case CallUnlockReplies(k) => CallMoveKeepsTold(c, k, ReceiveCallUnlockReply(c, k).calls[k], requested, fates);
    case InstanceUnlocks(k) => QuietKeepsTold(c, SendUnlock(c, c.calls[k].id, ByCall(k)), requested, fates);
  }

  // ---------------------------------------------------------------- handlers

  lemma LateVerdictKeepsTold(c: Controller, attempt: nat, verdict: Verdict, requested: seq<Id>, fates: map<nat, Fate>)
    requires Told(c, requested, fates) && attempt in c.records
    ensures Told(TakeLateVerdict(c, attempt, verdict), requested,
                 if c.records[attempt].status.Failed? && (verdict.success || verdict.cleanupFailed)
                 then fates[attempt := CopyReportedLate] else fates)
  {
    var r := TakeLateVerdict(c, attempt, verdict);
    if c.records[attempt].status.Failed? && (verdict.success || verdict.cleanupFailed) {
      var corrected := SetStatus(c, attempt, CleanupFailed);
      FateKeepsTold(c, corrected, attempt, CleanupFailed, CopyReportedLate, requested, fates);
      QuietKeepsTold(corrected, r, requested, fates[attempt := CopyReportedLate]);
    } else {
      QuietKeepsTold(c, r, requested, fates);
    }
  }

  lemma JudgingKeepsTold(c: Controller, id: Id, verdict: Verdict, requested: seq<Id>, fates: map<nat, Fate>)
    requires Linked(c) && Awaits(c, id) && Told(c, requested, fates)
    ensures Told(TakeVerdict(c, id, verdict), requested, fates)
  {
    QuietKeepsTold(c, TakeVerdict(c, id, verdict), requested, fates);
  }

  lemma FiringKeepsTold(c: Controller, t: nat, requested: seq<Id>, fates: map<nat, Fate>)
    requires Linked(c) && t in c.timers && Told(c, requested, fates)
    ensures Told(FireTimer(c, t), requested, fates)
  {
    var fired := c.(timers := c.timers - {t});
    QuietKeepsTold(c, fired, requested, fates);
    if Awaits(c, c.timers[t].id) {
      JudgingKeepsTold(fired, c.timers[t].id, TIMEOUT_VERDICT, requested, fates);
    }
  }

  lemma TakingKeepsTold(c: Controller, id: Id, verdict: Verdict, requested: seq<Id>, fates: map<nat, Fate>)
    requires Linked(c) && Told(c, requested, fates)
    ensures Told(TakeVerdict(c, id, verdict), requested,
                 if StatusOf(c, id) == Some(Failed) && (verdict.success || verdict.cleanupFailed)
                 then fates[c.activeTransfers[id] := CopyReportedLate] else fates)
  {
    if Awaits(c, id) {
      JudgingKeepsTold(c, id, verdict, requested, fates);
    } else if id in c.activeTransfers {
      LateVerdictKeepsTold(c, c.activeTransfers[id], verdict, requested, fates);
    }
  }

  lemma DeleteReplyKeepsTold(c: Controller, h: nat, reply: DeleteReply, requested: seq<Id>, fates: map<nat, Fate>)
    requires Told(c, requested, fates) && Suspended(c, h)
    ensures Told(ReceiveDeleteReply(c, h, reply), requested, fates[c.handlers[h].attempt := SourceAnswered(reply)])
  {
    var a, r := c.handlers[h].attempt, ReceiveDeleteReply(c, h, reply);
    var settled := SetStatus(c, a, r.records[a].status);
    FateKeepsTold(c, settled, a, r.records[a].status, SourceAnswered(reply), requested, fates);
    QuietKeepsTold(settled, r, requested, fates[a := SourceAnswered(reply)]);
  }

  lemma ReportKeepsTold(c: Controller, h: nat, requested: seq<Id>, fates: map<nat, Fate>)
    requires Told(c, requested, fates) && Suspended(c, h) && c.handlers[h].phase.Reporting?
    ensures Told(FinishReporting(c, h), requested,
                 fates[c.handlers[h].attempt := FailureReported(c.handlers[h].verdict.cleanupFailed)])
  {
    var a, fate := c.handlers[h].attempt, FailureReported(c.handlers[h].verdict.cleanupFailed);
    var settled := SetStatus(c, a, if c.handlers[h].verdict.cleanupFailed then CleanupFailed else Failed);
    FateKeepsTold(c, settled, a, settled.records[a].status, fate, requested, fates);
    QuietKeepsTold(settled, FinishReporting(c, h), requested, fates[a := fate]);
  }

  /** Announcements, unlock replies and the end of a handler tell nothing of its record. */
  lemma ResumptionKeepsTold(w: World, e: HandlerEvent)
    requires Told(w.controller, w.env.requested, w.env.fates) && HandlerEnabled(w, e)
    requires e.Announced? || e.CompletionRecorded? || e.UnlockReplies? || e.Settles?
    ensures Told(ApplyHandler(w, e), w.env.requested, w.env.fates)
  {
    HandlerEventExtends(w, e);
    if e.Settles? {
      EndedKeepsRecords(w.controller, e.h, e.evicted);
    } else {
      ResumedKeepsRecords(w, e);
    }
    QuietKeepsTold(w.controller, ApplyHandler(w, e), w.env.requested, w.env.fates);
  }

  lemma HandlerKeepsTold(w: World, e: HandlerEvent)
    requires Told(w.controller, w.env.requested, w.env.fates) && HandlerEnabled(w, e)
    ensures Told(ApplyHandler(w, e), w.env.requested, FatesAfterHandler(w, e))
  {
    var c, requested, fates := w.controller, w.env.requested, w.env.fates;
    match e
    case VerdictArrives(message) => TakingKeepsTold(c, message.id, message.verdict, requested, fates);
    case TimerFires(t) => FiringKeepsTold(c, t, requested, fates);
    case DeleteReplies(h, reply) => DeleteReplyKeepsTold(c, h, reply, requested, fates);
    case Reported(h) => ReportKeepsTold(c, h, requested, fates);
    case _ => ResumptionKeepsTold(w, e);
  }

  lemma RestartKeepsTold(c: Controller, stored: map<Id, StoredExport>, disk: map<Id, Intent>, now: int,
                         requested: seq<Id>, fates: map<nat, Fate>)
    requires Told(c, requested, fates)
    ensures Told(Restart(c, stored, disk, now), requested, fates)
  {
    QuietKeepsTold(c, Restart(c, stored, disk, now), requested, fates);
  }

  lemma MoveKeepsTold(w: World, move: Move)
    requires Told(w.controller, w.env.requested, w.env.fates) && MoveEnabled(w, move)
    ensures Told(ApplyMove(w, move).controller, w.env.requested, w.env.fates)
  {
    match move
    case RestartController(stored) =>
      RestartKeepsTold(w.controller, stored, w.env.disk, w.env.now, w.env.requested, w.env.fates);
    case _ => QuietKeepsTold(w.controller, ApplyMove(w, move).controller, w.env.requested, w.env.fates);
  }

  // ---------------------------------------------------------------- every run

  ghost predicate WorldTold(w: World) {
    WellFormed(w.controller) && Told(w.controller, w.env.requested, w.env.fates)
  }

  lemma StepKeepsTold(w: World, e: Event)
    requires WorldTold(w) && Enabled(w, e)
    ensures WorldTold(Step(w, e))
  {
    StepKeepsWellFormed(w, e);
    match e
    case Outside(move) => MoveKeepsTold(w, move);
    case InCall(call) => CallKeepsTold(w, call);
    case InHandler(handler) => HandlerKeepsTold(w, handler);
  }

  lemma {:induction false} RunKeepsTold(w: World, events: seq<Event>)
    requires WorldTold(w) && Valid(w, events)
    ensures WorldTold(Run(w, events))
    decreases |events|
  {
    if events != [] {
      StepKeepsTold(w, events[0]);
      RunKeepsTold(Step(w, events[0]), events[1..]);
    }
  }

  lemma RunIsTold(events: seq<Event>)
    requires Valid(INIT, events)
    ensures WorldTold(Run(INIT, events))
  {
    RunKeepsTold(INIT, events);
  }

  /**
   In every reachable state the status of a record is what last became of its attempt, and nothing else: it is
   completed exactly if the last that its handlers were told is that the source is deleted, and so on.
   */
  lemma StatusesAreTold(events: seq<Event>, k: nat)
    requires Valid(INIT, events) && k in Run(INIT, events).controller.records
    ensures var w := Run(INIT, events);
            var status := w.controller.records[k].status;
            && (status == Transporting <==> k !in w.env.fates)
            && (status == AwaitingValidation <==> k in w.env.fates && w.env.fates[k] == Landed)
            && (status == Completed <==> k in w.env.fates && w.env.fates[k] == SourceAnswered(Deleted))
            && (status == Error <==> k in w.env.fates && w.env.fates[k] == SourceAnswered(DeleteThrew))
            && (status == CleanupFailed <==>
                && k in w.env.fates
                && (w.env.fates[k] == SourceAnswered(DeleteRefused) || w.env.fates[k] == FailureReported(true)
                    || w.env.fates[k] == CopyReportedLate))
            && (status == Failed <==>
                && k in w.env.fates && (w.env.fates[k] == ImportRefused || w.env.fates[k] == FailureReported(false)))
  {
    RunIsTold(events);
    var w := Run(INIT, events);
    assert RecordTells(w.controller.records[k], k, w.controller.calls, w.env.requested, w.env.fates);
  }

  /** A record names the export that its own call was made for. */
  lemma RecordsNameTheirExport(events: seq<Event>, k: nat)
    requires Valid(INIT, events) && k in Run(INIT, events).controller.records
    ensures var w := Run(INIT, events);
            && k < |w.env.requested| == |w.controller.calls|
            && w.controller.records[k].exportId == w.env.requested[k]
            && w.controller.records[k].id == w.controller.calls[k].id
            && w.controller.records[k].startedAt == w.controller.calls[k].startedAt
  {
    RunIsTold(events);
    var w := Run(INIT, events);
    assert RecordTells(w.controller.records[k], k, w.controller.calls, w.env.requested, w.env.fates);
  }

  // ---------------------------------------------------------------- completed means deleted

  ghost predicate DeletionKnown(w: World, k: nat) {
    && k < |w.controller.calls| && w.controller.calls[k].id in w.env.deleted && k in w.env.resolved
  }

  ghost predicate DeletionsKnown(w: World) {
    forall k :: k in w.env.fates && w.env.fates[k] == SourceAnswered(Deleted) ==> DeletionKnown(w, k)
  }

  lemma FatesOfStep(w: World, e: Event, k: nat)
    requires WellFormed(w.controller) && Enabled(w, e)
    requires k in Step(w, e).env.fates && Step(w, e).env.fates[k] == SourceAnswered(Deleted)
    ensures || (k in w.env.fates && w.env.fates[k] == SourceAnswered(Deleted))
            || (&& k < |w.controller.calls| && w.controller.calls[k].id in w.env.deleted
                && k in Step(w, e).env.resolved)
  {
  }

  lemma StepKeepsDeletionsKnown(w: World, e: Event)
    requires WellFormed(w.controller) && AllCallsSound(w.controller.calls) && DeletionsKnown(w) && Enabled(w, e)
    ensures DeletionsKnown(Step(w, e))
  {
    var w' := Step(w, e);
    StepGrows(w, e);
    StepEvolves(w, e);
    forall k | k in w'.env.fates && w'.env.fates[k] == SourceAnswered(Deleted) ensures DeletionKnown(w', k) {
      FatesOfStep(w, e, k);
      assert CallEvolves(w.controller.calls[k], w'.controller.calls[k]);
    }
  }

  lemma {:induction false} RunKeepsDeletionsKnown(w: World, events: seq<Event>)
    requires WellFormed(w.controller) && UnlocksSound(w.controller) && DeletionsKnown(w) && Valid(w, events)
    ensures DeletionsKnown(Run(w, events))
    decreases |events|
  {
    if events != [] {
      StepKeepsWellFormed(w, events[0]);
      StepKeepsUnlocksSound(w, events[0]);
      StepKeepsDeletionsKnown(w, events[0]);
      RunKeepsDeletionsKnown(Step(w, events[0]), events[1..]);
    }
  }

  /** The source of a completed record is deleted, and a handler of this very attempt was told so. */
  lemma CompletedIsDeleted(events: seq<Event>, k: nat)
    requires Valid(INIT, events) && k in Run(INIT, events).controller.records
    requires Run(INIT, events).controller.records[k].status == Completed
    ensures var w := Run(INIT, events); w.controller.records[k].id in w.env.deleted && k in w.env.resolved
  {
    StatusesAreTold(events, k);
    RecordsNameTheirExport(events, k);
    RunKeepsDeletionsKnown(INIT, events);
    assert DeletionKnown(Run(INIT, events), k);
  }

  // ---------------------------------------------------------------- fates only go on

  predicate IsFinal(fate: Fate) {
    fate.SourceAnswered? || fate == FailureReported(true) || fate.CopyReportedLate?
  }

  /** An import lands or is refused once; what landed is judged once; what failed may be corrected once. */
  predicate FateGoesOn(a: map<nat, Fate>, b: map<nat, Fate>, k: nat) {
    if k !in a then k in b ==> b[k].Landed? || b[k].ImportRefused?
    else
      && k in b
      && (b[k] == a[k]
          || (a[k].Landed? && (b[k].SourceAnswered? || b[k].FailureReported?))
          || ((a[k].ImportRefused? || a[k] == FailureReported(false)) && b[k].CopyReportedLate?))
  }

  lemma OwnRecordTells(w: World, k: nat, id: Id, status: Status)
    requires WorldTold(w) && Names(w.controller.activeTransfers, w.controller.records, id, k, status)
    ensures CallsFor(w.env.fates, k, status)
  {
    assert RecordTells(w.controller.records[k], k, w.controller.calls, w.env.requested, w.env.fates);
  }

  lemma CallMovesFates(w: World, e: CallEvent, id: Id, k: nat)
    requires WorldTold(w) && Owned(w.controller, id) && CallEnabled(w, e)
    requires k < |w.controller.calls| && w.controller.calls[k].id == id
    ensures FateGoesOn(w.env.fates, FatesAfterCall(w, e), k)
  {
    var c := w.controller;
    if e.ImportReplies? && c.calls[e.k].id == id {
      assert CallOwns(c.calls[e.k], e.k, c.activeTransfers, c.records);
      OwnRecordTells(w, e.k, id, Transporting);
    }
  }

  lemma HandlerMovesFates(w: World, e: HandlerEvent, id: Id, k: nat)
    requires WorldTold(w) && Owned(w.controller, id) && HandlerEnabled(w, e)
    requires k < |w.controller.calls| && w.controller.calls[k].id == id
    ensures FateGoesOn(w.env.fates, FatesAfterHandler(w, e), k)
  {
    var c := w.controller;
    if (e.DeleteReplies? || e.Reported?) && c.handlers[e.h].id == id {
      assert HandlerOwns(c.handlers[e.h], c.activeTransfers, c.records);
      OwnRecordTells(w, c.handlers[e.h].attempt, id, AwaitingValidation);
    }
    if e.VerdictArrives? && StatusOf(c, e.message.id) == Some(Failed) {
      OwnRecordTells(w, c.activeTransfers[e.message.id], e.message.id, Failed);
    }
  }

  /** No attempt of the id goes back, whatever happens to other ids. */
  lemma StepMovesFates(w: World, e: Event, id: Id, k: nat)
    requires WorldTold(w) && Owned(w.controller, id) && Enabled(w, e)
    requires k < |w.controller.calls| && w.controller.calls[k].id == id
    ensures FateGoesOn(w.env.fates, Step(w, e).env.fates, k)
  {
    match e
    case Outside(_) =>
    case InCall(call) => CallMovesFates(w, call, id, k);
    case InHandler(handler) => HandlerMovesFates(w, handler, id, k);
  }

  lemma {:induction false} FinalFateStays(w: World, events: seq<Event>, id: Id, k: nat)
    requires WorldTold(w) && AllCallsSound(w.controller.calls) && Owned(w.controller, id)
    requires DisciplinedRun(w, events, id)
    requires k < |w.controller.calls| && w.controller.calls[k].id == id
    requires k in w.env.fates && IsFinal(w.env.fates[k])
    ensures Valid(w, events) && WorldTold(Run(w, events))
    ensures k in Run(w, events).env.fates && Run(w, events).env.fates[k] == w.env.fates[k]
    decreases |events|
  {
    if events != [] {
      StepMovesFates(w, events[0], id, k);
      StepKeepsTold(w, events[0]);
      StepKeepsOwned(w, events[0], id);
      StepEvolves(w, events[0]);
      assert CallEvolves(w.controller.calls[k], Step(w, events[0]).controller.calls[k]);
      FinalFateStays(Step(w, events[0]), events[1..], id, k);
    }
  }

  ghost predicate AnsweredIn(w: World, h: nat, reply: DeleteReply) {
    && h < |w.controller.handlers| && Enabled(w, InHandler(DeleteReplies(h, reply)))
    && w.controller.handlers[h].attempt in w.controller.records
  }

  /** The attempt is settled as the source's answer about the delete calls for. */
  ghost predicate SettledBy(w: World, k: nat, reply: DeleteReply) {
    && k in w.controller.records
    && var status := w.controller.records[k].status;
       && (status == Completed <==> reply == Deleted)
       && (status == CleanupFailed <==> reply == DeleteRefused)
       && (status == Error <==> reply == DeleteThrew)
  }

  lemma AnswerStays(w: World, k: nat, id: Id, reply: DeleteReply, after: seq<Event>)
    requires WorldTold(w) && AllCallsSound(w.controller.calls) && Owned(w.controller, id)
    requires DisciplinedRun(w, after, id)
    requires k < |w.controller.calls| && w.controller.calls[k].id == id
    requires k in w.env.fates && w.env.fates[k] == SourceAnswered(reply)
    ensures Valid(w, after) && SettledBy(Run(w, after), k, reply)
  {
    FinalFateStays(w, after, id, k);
    var last := Run(w, after);
    assert RecordTells(last.controller.records[k], k, last.controller.calls, last.env.requested, last.env.fates);
  }

  lemma AnswerIsNoted(w: World, h: nat, reply: DeleteReply)
    requires WorldTold(w) && AllCallsSound(w.controller.calls) && AnsweredIn(w, h, reply)
    ensures var w', k := Step(w, InHandler(DeleteReplies(h, reply))), w.controller.handlers[h].attempt;
            && k < |w'.controller.calls| && w'.controller.calls[k].id == w.controller.handlers[h].id
            && k in w'.env.fates && w'.env.fates[k] == SourceAnswered(reply)
  {
  }

  /**
   What the source answers about the delete decides the record for good: it is completed if the source was
   deleted, marked for cleanup if that was refused and in error if the request threw, and no later event changes
   that, as long as the events of the id come in the order the orchestrator relies on.
   */
  lemma DeleteAnswerIsFinal(before: seq<Event>, h: nat, reply: DeleteReply, after: seq<Event>)
    requires Valid(INIT, before) && AnsweredIn(Run(INIT, before), h, reply)
    requires DisciplinedRun(INIT, before, Run(INIT, before).controller.handlers[h].id)
    requires Disciplined(Run(INIT, before), InHandler(DeleteReplies(h, reply)),
                         Run(INIT, before).controller.handlers[h].id)
    requires DisciplinedRun(Step(Run(INIT, before), InHandler(DeleteReplies(h, reply))), after,
                            Run(INIT, before).controller.handlers[h].id)
    ensures var w' := Step(Run(INIT, before), InHandler(DeleteReplies(h, reply)));
            var k := Run(INIT, before).controller.handlers[h].attempt;
            Valid(w', after) && SettledBy(Run(w', after), k, reply)
  {
    RunIsTold(before);
    RunKeepsUnlocksSound(INIT, before);
    RunKeepsOwned(INIT, before, Run(INIT, before).controller.handlers[h].id);
    var w, e := Run(INIT, before), InHandler(DeleteReplies(h, reply));
    var id, k := w.controller.handlers[h].id, w.controller.handlers[h].attempt;
    AnswerIsNoted(w, h, reply);
    StepKeepsTold(w, e);
    StepKeepsOwned(w, e, id);
    StepEvolves(w, e);
    AnswerStays(Step(w, e), k, id, reply, after);
  }
}
