/**
 What disciplined runs guarantee: once a verdict says that a copy exists at the destination, no import for
 that id leaves the controller again; and a timeout always judges the attempt that armed it.
 */
module TransferCopies {
  import opened Wrappers
  import opened TransferModel
  import opened TransferWorld
  import opened TransferUnlock
  import opened TransferRetry

  // ---------------------------------------------------------------- the record remembers the copy

  /** The retry guard refuses this record. */
  predicate RefusesRetry(record: Record) {
    || record.status.Completed? || record.status.CleanupFailed? || record.status.Error?
    || (record.status.Failed? && record.preserved)
  }

  ghost predicate CopyPending(c: Controller, id: Id, h: nat) {
    && h < |c.handlers| && Open(c.handlers[h]) && c.handlers[h].id == id && ReportsCopy(c.handlers[h].verdict)
    && (c.handlers[h].phase.Deleting? ==> c.handlers[h].verdict.success)
    && (c.handlers[h].phase.Unlocking? || c.handlers[h].phase.Reporting? ==> !c.handlers[h].verdict.success)
  }

  ghost predicate CopyKnown(c: Controller, id: Id)
    requires Linked(c)
  {
    && id in c.activeTransfers
    && (RefusesRetry(c.records[c.activeTransfers[id]]) || exists h :: CopyPending(c, id, h))
  }

  ghost predicate KeepsRecord(e: Event, id: Id) {
    && !(e.Outside? && e.move.RestartController?)
    && (e.Outside? && e.move.OtherOperationPrunes? ==> id !in e.move.evicted)
    && (e.InHandler? && e.handler.Settles? ==> id !in e.handler.evicted)
  }

  predicate SendsImport(c: Controller, e: Event, id: Id) {
    e.InCall? && e.call.Recorded? && e.call.k < |c.calls| && c.calls[e.call.k].id == id
  }

  /** Such a record is past sending, and a retry may not replace it. */
  lemma CopyKnownIsFirm(c: Controller, id: Id)
    requires Owned(c, id) && CopyKnown(c, id)
    ensures !c.records[c.activeTransfers[id]].status.Transporting?
    ensures !Replaceable(c.activeTransfers, c.records, id)
    ensures Awaits(c, id) ==> !NoOpenHandler(c, id)
  {
    if h: nat :| CopyPending(c, id, h) {
      assert HandlerOwns(c.handlers[h], c.activeTransfers, c.records);
    }
  }

  lemma CopyKnownSendsNothing(w: World, e: Event, id: Id)
    requires Owned(w.controller, id) && Enabled(w, e) && CopyKnown(w.controller, id)
    ensures !SendsImport(w.controller, e, id)
  {
    CopyKnownIsFirm(w.controller, id);
  }

  // ---------------------------------------------------------------- events of other ids

  /** What leaves the id's record and handlers alone leaves the copy known. */
  lemma SliceKeepsCopy(c: Controller, r: Controller, id: Id)
    requires WellFormed(c) && Linked(r) && CopyKnown(c, id) && SameSlice(c, r, id)
    ensures CopyKnown(r, id)
  {
    assert r.records[c.activeTransfers[id]] == c.records[c.activeTransfers[id]];
    if h: nat :| CopyPending(c, id, h) {
      assert CopyPending(r, id, h);
    }
  }

  lemma MoveKeepsCopy(w: World, move: Move, id: Id)
    requires Owned(w.controller, id) && MoveEnabled(w, move) && CopyKnown(w.controller, id)
    requires KeepsRecord(Outside(move), id)
    requires Linked(ApplyMove(w, move).controller)
    ensures CopyKnown(ApplyMove(w, move).controller, id)
  {
    var c, c' := w.controller, ApplyMove(w, move).controller;
    if h: nat :| CopyPending(c, id, h) {
      assert CopyPending(c', id, h);
    }
  }

  // ---------------------------------------------------------------- the id's own calls

  ghost predicate SameRecord(c: Controller, r: Controller, id: Id)
    requires Linked(c) && id in c.activeTransfers
  {
    && id in r.activeTransfers && r.activeTransfers[id] == c.activeTransfers[id]
    && c.activeTransfers[id] in r.records
    && r.records[c.activeTransfers[id]] == c.records[c.activeTransfers[id]]
  }

  /** A step that leaves the id's record and the earlier handlers alone. */
  lemma FrameKeepsCopy(c: Controller, r: Controller, id: Id)
    requires Linked(c) && Linked(r) && CopyKnown(c, id) && SameRecord(c, r, id)
    requires |c.handlers| <= |r.handlers| && r.handlers[..|c.handlers|] == c.handlers
    ensures CopyKnown(r, id)
  {
    if h: nat :| CopyPending(c, id, h) {
      assert r.handlers[h] == r.handlers[..|c.handlers|][h];
      assert CopyPending(r, id, h);
    }
  }

  /** No call of the id is on its way. */
  lemma NoCallOnItsWay(c: Controller, id: Id, k: nat)
    requires Owned(c, id) && CopyKnown(c, id) && k < |c.calls| && c.calls[k].id == id
    ensures !c.calls[k].phase.Archiving? && !c.calls[k].phase.Recording? && !c.calls[k].phase.Sending?
  {
    CopyKnownIsFirm(c, id);
    assert CallOwns(c.calls[k], k, c.activeTransfers, c.records);
  }

  lemma OwnCallKeepsCopy(w: World, e: CallEvent, id: Id)
    requires Owned(w.controller, id) && CallEnabled(w, e) && CopyKnown(w.controller, id)
    requires CallSubject(w.controller, w.env.now, e) == id
    ensures SameRecord(w.controller, ApplyCall(w.controller, w.env.now, e), id)
  {
    match e
    case CallTransfer(exportId, online, entry, startedAt) =>
      BeginEffect(w.controller, exportId, online, entry, startedAt);
    case FailBeforeTransfer(_, _, _) =>
    case _ => NoCallOnItsWay(w.controller, id, e.k);
  }

  // ---------------------------------------------------------------- the id's own handlers

  /** A copy that is known while the record does not await is known by the record. */
  lemma SettledRecordKnows(c: Controller, id: Id)
    requires Owned(c, id) && CopyKnown(c, id)
    ensures Awaits(c, id) || RefusesRetry(c.records[c.activeTransfers[id]])
  {
    if h: nat :| CopyPending(c, id, h) {
      assert HandlerOwns(c.handlers[h], c.activeTransfers, c.records);
    }
  }

  lemma LateVerdictKeepsCopy(c: Controller, id: Id, verdict: Verdict)
    requires Owned(c, id) && CopyKnown(c, id) && !Awaits(c, id)
    ensures CopyKnown(TakeVerdict(c, id, verdict), id)
  {
    SettledRecordKnows(c, id);
  }

  lemma TakingKeepsCopy(c: Controller, id: Id, verdict: Verdict)
    requires Owned(c, id) && CopyKnown(c, id) && (Awaits(c, id) ==> NoOpenHandler(c, id))
    ensures CopyKnown(TakeVerdict(c, id, verdict), id)
  {
    CopyKnownIsFirm(c, id);
    LateVerdictKeepsCopy(c, id, verdict);
  }

  /** A handler that knows of the copy has taken the timer away; so has the settled record. */
  lemma KnownCopyHasNoTimer(c: Controller, id: Id)
    requires Owned(c, id) && CopyKnown(c, id)
    ensures !Awaits(c, id) || c.records[c.activeTransfers[id]].timer.None?
  {
    if h: nat :| CopyPending(c, id, h) {
      assert HandlerOwns(c.handlers[h], c.activeTransfers, c.records);
    }
  }

  /** No timer of the id is left to go off. */
  lemma NoTimerLeft(c: Controller, id: Id, t: nat)
    requires Owned(c, id) && CopyKnown(c, id) && t in c.timers
    ensures c.timers[t].id != id
  {
    KnownCopyHasNoTimer(c, id);
    assert c.timers[t].id == id ==> TimerOwns(c.timers[t], t, c.activeTransfers, c.records);
  }

  lemma JudgingKeepsCopy(w: World, e: HandlerEvent, id: Id)
    requires Owned(w.controller, id) && HandlerEnabled(w, e) && Disciplined(w, InHandler(e), id)
    requires HandlerSubject(w, e) == id && CopyKnown(w.controller, id) && (e.VerdictArrives? || e.TimerFires?)
    ensures CopyKnown(ApplyHandler(w, e), id)
  {
    match e
    case VerdictArrives(message) => TakingKeepsCopy(w.controller, id, message.verdict);
    case TimerFires(t) => NoTimerLeft(w.controller, id, t);
  }

  /** A handler that is closed moves without touching the id's record. */
  lemma ClosedMoveKeepsCopy(c: Controller, r: Controller, id: Id, h: nat)
    requires Linked(c) && Linked(r) && CopyKnown(c, id) && SameRecord(c, r, id)
    requires h < |c.handlers| && OnlyHandlerMoves(c, r, h) && !Open(c.handlers[h])
    ensures CopyKnown(r, id)
  {
    if g: nat :| CopyPending(c, id, g) {
      assert g != h && r.handlers[g] == c.handlers[g];
      assert CopyPending(r, id, g);
    }
  }

  /** The open handler of this id carries the verdict that reported the copy. */
  lemma OwnHandlerIsPending(c: Controller, id: Id, h: nat)
    requires Owned(c, id) && CopyKnown(c, id)
    requires h < |c.handlers| && Open(c.handlers[h]) && c.handlers[h].id == id
    ensures CopyPending(c, id, h) && Linked(c) && c.activeTransfers[id] == c.handlers[h].attempt
  {
    assert HandlerOwns(c.handlers[h], c.activeTransfers, c.records);
    var g: nat :| CopyPending(c, id, g);
    assert g == h;
  }

  lemma OpenMoveKeepsCopy(c: Controller, r: Controller, id: Id, h: nat)
    requires Owned(c, id) && Linked(r) && CopyKnown(c, id) && SameRecord(c, r, id)
    requires h < |c.handlers| && OnlyHandlerMoves(c, r, h) && Open(c.handlers[h]) && Open(r.handlers[h])
    requires c.handlers[h].id == id
    requires r.handlers[h].phase.Deleting? ==> r.handlers[h].verdict.success
    requires r.handlers[h].phase.Unlocking? || r.handlers[h].phase.Reporting? ==> !r.handlers[h].verdict.success
    ensures CopyKnown(r, id)
  {
    OwnHandlerIsPending(c, id, h);
    assert CopyPending(r, id, h);
  }

  /** The handler that reported the copy leaves a record that refuses retries. */
  lemma ClosingKeepsCopy(c: Controller, id: Id, h: nat, status: Status, phase: HandlerPhase)
    requires Owned(c, id) && CopyKnown(c, id) && h < |c.handlers| && Open(c.handlers[h]) && c.handlers[h].id == id
    requires c.handlers[h].attempt in c.records
    requires RefusesRetry(c.records[c.handlers[h].attempt].(status := status))
    ensures CopyKnown(SetHandlerPhase(SetStatus(c, c.handlers[h].attempt, status), h, phase), id)
  {
    OwnHandlerIsPending(c, id, h);
  }

  lemma ReportKeepsCopy(c: Controller, id: Id, h: nat)
    requires Owned(c, id) && CopyKnown(c, id) && h < |c.handlers| && c.handlers[h].phase.Reporting?
    requires c.handlers[h].attempt in c.records && c.handlers[h].id == id
    ensures CopyKnown(FinishReporting(c, h), id)
  {
    OwnHandlerIsPending(c, id, h);
    assert HandlerOwns(c.handlers[h], c.activeTransfers, c.records);
    ClosingKeepsCopy(c, id, h, if c.handlers[h].verdict.cleanupFailed then CleanupFailed else Failed,
                     Persisting(c.handlers[h].phase.rollbackFailed));
  }

  lemma DeleteReplyKeepsCopy(c: Controller, id: Id, h: nat, reply: DeleteReply)
    requires Owned(c, id) && CopyKnown(c, id) && h < |c.handlers| && c.handlers[h].phase.Deleting?
    requires c.handlers[h].attempt in c.records && c.handlers[h].id == id
    ensures CopyKnown(ReceiveDeleteReply(c, h, reply), id)
  {
    ClosingKeepsCopy(c, id, h, SettledStatus(reply), SettledPhase(reply));
  }

  lemma UnlockReplyKeepsCopy(c: Controller, id: Id, h: nat, failed: bool)
    requires Owned(c, id) && CopyKnown(c, id) && h < |c.handlers| && c.handlers[h].phase.Unlocking?
    requires c.handlers[h].id == id
    ensures CopyKnown(ReceiveUnlockReply(c, h, failed), id)
  {
    OwnHandlerIsPending(c, id, h);
    OpenMoveKeepsCopy(c, ReceiveUnlockReply(c, h, failed), id, h);
  }

  lemma AnnouncementKeepsCopy(c: Controller, id: Id, h: nat)
    requires Owned(c, id) && CopyKnown(c, id) && h < |c.handlers| && c.handlers[h].phase.Announcing?
    requires c.handlers[h].id == id
    ensures CopyKnown(FinishAnnouncing(c, h), id)
  {
    OpenMoveKeepsCopy(c, FinishAnnouncing(c, h), id, h);
  }

  lemma CompletionKeepsCopy(c: Controller, id: Id, h: nat)
    requires Owned(c, id) && CopyKnown(c, id) && h < |c.handlers| && c.handlers[h].phase.Completing?
    requires c.handlers[h].attempt in c.records
    ensures CopyKnown(FinishCompleting(c, h), id)
  {
    ClosedMoveKeepsCopy(c, FinishCompleting(c, h), id, h);
  }

  lemma SettlementKeepsCopy(c: Controller, id: Id, h: nat, evicted: set<Id>)
    requires Owned(c, id) && CopyKnown(c, id) && h < |c.handlers| && !Open(c.handlers[h]) && id !in evicted
    ensures CopyKnown(Settle(c, h, evicted), id)
  {
    ClosedMoveKeepsCopy(c, Settle(c, h, evicted), id, h);
  }

  lemma ReplyKeepsCopy(w: World, e: HandlerEvent, id: Id)
    requires Owned(w.controller, id) && HandlerEnabled(w, e) && CopyKnown(w.controller, id)
    requires HandlerSubject(w, e) == id && (e.DeleteReplies? || e.UnlockReplies? || e.Reported?)
    ensures CopyKnown(ApplyHandler(w, e), id)
  {
    match e
    case DeleteReplies(h, reply) => DeleteReplyKeepsCopy(w.controller, id, h, reply);
    case UnlockReplies(h, failed) => UnlockReplyKeepsCopy(w.controller, id, h, failed);
    case Reported(h) => ReportKeepsCopy(w.controller, id, h);
  }

  lemma ResumptionKeepsCopy(w: World, e: HandlerEvent, id: Id)
    requires Owned(w.controller, id) && HandlerEnabled(w, e) && CopyKnown(w.controller, id)
    requires HandlerSubject(w, e) == id
    requires e.Announced? || e.CompletionRecorded? || (e.Settles? && id !in e.evicted)
    ensures CopyKnown(ApplyHandler(w, e), id)
  {
    match e
    case Announced(h) => AnnouncementKeepsCopy(w.controller, id, h);
    case CompletionRecorded(h) => CompletionKeepsCopy(w.controller, id, h);
    case Settles(h, evicted, _, _) => SettlementKeepsCopy(w.controller, id, h, evicted);
  }

  // ---------------------------------------------------------------- every disciplined step

  lemma CallKeepsCopy(w: World, e: CallEvent, id: Id)
    requires Owned(w.controller, id) && CallEnabled(w, e) && CopyKnown(w.controller, id)
    requires Linked(ApplyCall(w.controller, w.env.now, e))
    ensures CopyKnown(ApplyCall(w.controller, w.env.now, e), id)
  {
    if CallSubject(w.controller, w.env.now, e) == id {
      OwnCallKeepsCopy(w, e, id);
      CallEventHandlers(w, e);
      FrameKeepsCopy(w.controller, ApplyCall(w.controller, w.env.now, e), id);
    } else {
      CallLeavesSlice(w, e, id);
      SliceKeepsCopy(w.controller, ApplyCall(w.controller, w.env.now, e), id);
    }
  }

  lemma HandlerKeepsCopy(w: World, e: HandlerEvent, id: Id)
    requires Owned(w.controller, id) && HandlerEnabled(w, e) && Disciplined(w, InHandler(e), id)
    requires CopyKnown(w.controller, id) && KeepsRecord(InHandler(e), id) && Linked(ApplyHandler(w, e))
    ensures CopyKnown(ApplyHandler(w, e), id)
  {
    if HandlerSubject(w, e) != id {
      HandlerLeavesSlice(w, e, id);
      SliceKeepsCopy(w.controller, ApplyHandler(w, e), id);
    } else if e.VerdictArrives? || e.TimerFires? {
      JudgingKeepsCopy(w, e, id);
    } else if e.DeleteReplies? || e.UnlockReplies? || e.Reported? {
      ReplyKeepsCopy(w, e, id);
    } else {
      ResumptionKeepsCopy(w, e, id);
    }
  }

  /** Every event that is disciplined for the id and keeps its record leaves the copy known. */
  lemma StepKeepsCopy(w: World, e: Event, id: Id)
    requires Owned(w.controller, id) && Enabled(w, e) && Disciplined(w, e, id)
    requires CopyKnown(w.controller, id) && KeepsRecord(e, id)
    ensures Owned(Step(w, e).controller, id) && CopyKnown(Step(w, e).controller, id)
  {
    StepKeepsOwned(w, e, id);
    match e
    case Outside(move) => MoveKeepsCopy(w, move, id);
    case InCall(call) => CallKeepsCopy(w, call, id);
    case InHandler(handler) => HandlerKeepsCopy(w, handler, id);
  }

  // ---------------------------------------------------------------- every disciplined run

  ghost predicate DisciplinedRun(w: World, events: seq<Event>, id: Id)
    decreases |events|
  {
    events == []
    || (Enabled(w, events[0]) && Linked(w.controller) && Disciplined(w, events[0], id)
        && DisciplinedRun(Step(w, events[0]), events[1..], id))
  }

  lemma {:induction false} RunKeepsOwned(w: World, events: seq<Event>, id: Id)
    requires Owned(w.controller, id) && DisciplinedRun(w, events, id)
    ensures Valid(w, events) && Owned(Run(w, events).controller, id)
    decreases |events|
  {
    if events != [] {
      StepKeepsOwned(w, events[0], id);
      RunKeepsOwned(Step(w, events[0]), events[1..], id);
    }
  }

  /** No event of the run sends an import for this id. */
  ghost predicate SendsNone(w: World, events: seq<Event>, id: Id)
    requires Valid(w, events)
    decreases |events|
  {
    events == []
    || (!SendsImport(w.controller, events[0], id) && SendsNone(Step(w, events[0]), events[1..], id))
  }

  lemma {:induction false} KnownCopySendsNone(w: World, events: seq<Event>, id: Id)
    requires Owned(w.controller, id) && CopyKnown(w.controller, id) && DisciplinedRun(w, events, id)
    requires forall i :: 0 <= i < |events| ==> KeepsRecord(events[i], id)
    ensures Valid(w, events) && SendsNone(w, events, id)
    decreases |events|
  {
    if events != [] {
      CopyKnownSendsNothing(w, events[0], id);
      StepKeepsCopy(w, events[0], id);
      KnownCopySendsNone(Step(w, events[0]), events[1..], id);
    }
  }

  /** A verdict that reports a copy, taken by a record that awaits it or has failed, makes the copy known. */
  lemma TakenCopyIsKnown(c: Controller, id: Id, verdict: Verdict)
    requires WellFormed(c) && ReportsCopy(verdict)
    requires StatusOf(c, id) == Some(AwaitingValidation) || StatusOf(c, id) == Some(Failed)
    ensures CopyKnown(TakeVerdict(c, id, verdict), id)
  {
    if Awaits(c, id) {
      assert CopyPending(TakeVerdict(c, id, verdict), id, |c.handlers|);
    }
  }

  /**
   Known copies block re-import: after any run that is disciplined for the id, once such a verdict is taken, no
   later event of any continuation that is disciplined for the id sends an import for it, unless its record is
   pruned or the controller restarts. Nothing is asked of what happens to other ids.
   */
  lemma KnownCopiesBlockReimport(before: seq<Event>, message: Message, after: seq<Event>)
    requires DisciplinedRun(INIT, before, message.id) && Valid(INIT, before)
    requires var w, e := Run(INIT, before), InHandler(VerdictArrives(message));
             && Enabled(w, e) && Disciplined(w, e, message.id) && DisciplinedRun(Step(w, e), after, message.id)
             && (StatusOf(w.controller, message.id) == Some(AwaitingValidation)
                 || StatusOf(w.controller, message.id) == Some(Failed))
    requires ReportsCopy(message.verdict)
    requires forall i :: 0 <= i < |after| ==> KeepsRecord(after[i], message.id)
    ensures var w' := Step(Run(INIT, before), InHandler(VerdictArrives(message)));
            Valid(w', after) && SendsNone(w', after, message.id)
  {
    RunKeepsOwned(INIT, before, message.id);
    var w, e := Run(INIT, before), InHandler(VerdictArrives(message));
    TakenCopyIsKnown(w.controller, message.id, message.verdict);
    StepKeepsOwned(w, e, message.id);
    KnownCopySendsNone(Step(w, e), after, message.id);
  }

  /** A timeout whose callback finds a record awaiting validation judges the attempt that armed it. */
  lemma TimersBelongToTheirAttempt(events: seq<Event>, t: nat)
    requires Valid(INIT, events) && t in Run(INIT, events).controller.timers
    requires DisciplinedRun(INIT, events, Run(INIT, events).controller.timers[t].id)
    ensures var c := Run(INIT, events).controller;
            && Linked(c) && Awaits(c, c.timers[t].id)
            && c.activeTransfers[c.timers[t].id] == c.timers[t].armer
            && c.records[c.timers[t].armer].timer == Some(t)
  {
    var c := Run(INIT, events).controller;
    RunKeepsOwned(INIT, events, c.timers[t].id);
    assert TimerOwns(c.timers[t], t, c.activeTransfers, c.records);
  }

  // ---------------------------------------------------------------- a run and its parts

  lemma DisciplinedHead(w: World, e: Event, rest: seq<Event>, id: Id)
    requires DisciplinedRun(w, [e] + rest, id)
    ensures Enabled(w, e) && Linked(w.controller) && Disciplined(w, e, id) && DisciplinedRun(Step(w, e), rest, id)
  {
    assert ([e] + rest)[0] == e && ([e] + rest)[1..] == rest;
  }

  /**
   Event i of the run is a verdict that reports a copy, taken while its record awaits it or has failed; the events
   before it, and those from it on, are disciplined for the id, and the later ones keep its record.
   */
  ghost predicate TakesCopy(events: seq<Event>, i: nat, message: Message) {
    && i < |events| && events[i] == InHandler(VerdictArrives(message)) && ReportsCopy(message.verdict)
    && Valid(INIT, events[..i]) && DisciplinedRun(INIT, events[..i], message.id)
    && TakenAt(Run(INIT, events[..i]), message) && DisciplinedRun(Run(INIT, events[..i]), events[i..], message.id)
    && (forall j :: i < j < |events| ==> KeepsRecord(events[j], message.id))
  }

  ghost predicate TakenAt(w: World, message: Message) {
    && Linked(w.controller)
    && (StatusOf(w.controller, message.id) == Some(AwaitingValidation)
        || StatusOf(w.controller, message.id) == Some(Failed))
  }

  ghost predicate SendsNoneAfter(events: seq<Event>, i: nat, id: Id) {
    && i < |events| && Valid(INIT, events[..i + 1]) && Valid(Run(INIT, events[..i + 1]), events[i + 1..])
    && SendsNone(Run(INIT, events[..i + 1]), events[i + 1..], id)
  }

  lemma BlocksFrom(before: seq<Event>, message: Message, after: seq<Event>)
    requires ReportsCopy(message.verdict) && Valid(INIT, before) && TakenAt(Run(INIT, before), message)
    requires DisciplinedRun(INIT, before, message.id)
    requires DisciplinedRun(Run(INIT, before), [InHandler(VerdictArrives(message))] + after, message.id)
    requires forall j :: 0 <= j < |after| ==> KeepsRecord(after[j], message.id)
    ensures var events := before + [InHandler(VerdictArrives(message))];
            && Valid(INIT, events) && Valid(Run(INIT, events), after)
            && SendsNone(Run(INIT, events), after, message.id)
  {
    DisciplinedHead(Run(INIT, before), InHandler(VerdictArrives(message)), after, message.id);
    KnownCopiesBlockReimport(before, message, after);
    RunSnoc(INIT, before, InHandler(VerdictArrives(message)));
  }

  /** The same about one run: after such an event no later one sends an import for the id. */
  lemma TakenCopyBlocks(events: seq<Event>, i: nat, message: Message)
    requires TakesCopy(events, i, message)
    ensures SendsNoneAfter(events, i, message.id)
  {
    assert events[i..] == [events[i]] + events[i + 1..];
    BlocksFrom(events[..i], message, events[i + 1..]);
    assert events[..i + 1] == events[..i] + [events[i]];
  }
}
