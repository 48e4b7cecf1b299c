/**
 What the orchestrator answers and asks for: what a request is told, what the reply of a call means, and which
 requests have gone out by the time someone waits for their reply. Nothing is assumed about the order of events.
 */
module TransferAnswers {
  import opened Wrappers
  import opened TransferModel
  import opened TransferWorld
  import opened TransferDelete
  import opened TransferUnlock
  import opened TransferRetry
  import opened TransferOutcomes

  // ---------------------------------------------------------------- what has been asked for

  /** The reply of a call tells what became of its import; a call that waits for an unlock has asked for it. */
  predicate CallAnswers(call: Call, k: nat, unlocks: seq<Unlock>) {
    && (call.phase.RollingBack? || call.phase.UnlockingRefused? ==> Unlock(call.id, ByCall(k)) in unlocks)
    && (call.phase.Returned? ==>
          match call.outcome
          case NotSent => call.phase.reply == Reply(true, false) || call.phase.reply == Reply(false, true)
          case InFlight => false
          case Accepted => call.phase.reply == Reply(true, false)
          case SessionLost => call.phase.reply == Reply(true, false)
          case Rejected => call.phase.reply == Reply(false, false)
          case Threw => call.phase.reply == Reply(false, false))
  }

  /** A handler that waits for a reply has sent the request, and keeps the request on record afterwards. */
  predicate HandlerAsked(handler: Handler, h: nat, unlocks: seq<Unlock>) {
    && (handler.phase.Deleting? || handler.phase.Completing? || handler.phase.Storing? || handler.phase.Refusing? ==>
          handler.deleteSent)
    && (handler.phase.Unlocking? || handler.phase.Reporting? || handler.phase.Persisting? ==>
          Unlock(handler.id, ByVerdict(h)) in unlocks)
  }

  ghost predicate Asked(c: Controller) {
    && (forall k :: 0 <= k < |c.calls| ==> CallAnswers(c.calls[k], k, c.unlocks))
    && (forall h :: 0 <= h < |c.handlers| ==> HandlerAsked(c.handlers[h], h, c.unlocks))
  }

  lemma LaterUnlocks(a: seq<Unlock>, b: seq<Unlock>, unlock: Unlock)
    requires a <= b && unlock in a
    ensures unlock in b
  {
    var u :| 0 <= u < |a| && a[u] == unlock;
    assert b[u] == unlock;
  }

  lemma LaterCallAnswers(call: Call, k: nat, a: seq<Unlock>, b: seq<Unlock>)
    requires a <= b && CallAnswers(call, k, a)
    ensures CallAnswers(call, k, b)
  {
    if Unlock(call.id, ByCall(k)) in a {
      LaterUnlocks(a, b, Unlock(call.id, ByCall(k)));
    }
  }

  lemma LaterHandlerAsked(handler: Handler, h: nat, a: seq<Unlock>, b: seq<Unlock>)
    requires a <= b && HandlerAsked(handler, h, a)
    ensures HandlerAsked(handler, h, b)
  {
    if Unlock(handler.id, ByVerdict(h)) in a {
      LaterUnlocks(a, b, Unlock(handler.id, ByVerdict(h)));
    }
  }

  /** Only call k is new or went on. */
  lemma CallKeepsAsked(c: Controller, r: Controller, k: nat)
    requires Asked(c) && r.handlers == c.handlers && c.unlocks <= r.unlocks
    requires k < |r.calls| && CallAnswers(r.calls[k], k, r.unlocks)
    requires forall j :: 0 <= j < |r.calls| && j != k ==> j < |c.calls| && r.calls[j] == c.calls[j]
    ensures Asked(r)
  {
    forall j | 0 <= j < |r.calls| ensures CallAnswers(r.calls[j], j, r.unlocks) {
      var call := r.calls[j];
      if j != k { LaterCallAnswers(call, j, c.unlocks, r.unlocks); }
    }
    forall h | 0 <= h < |r.handlers| ensures HandlerAsked(r.handlers[h], h, r.unlocks) {
      LaterHandlerAsked(c.handlers[h], h, c.unlocks, r.unlocks);
    }
  }

  /** Only handler h is new or went on. */
  lemma HandlerKeepsAsked(c: Controller, r: Controller, h: nat)
    requires Asked(c) && r.calls == c.calls && c.unlocks <= r.unlocks
    requires h < |r.handlers| ==> HandlerAsked(r.handlers[h], h, r.unlocks)
    requires forall g :: 0 <= g < |r.handlers| && g != h ==> g < |c.handlers| && r.handlers[g] == c.handlers[g]
    ensures Asked(r)
  {
    forall k | 0 <= k < |r.calls| ensures CallAnswers(r.calls[k], k, r.unlocks) {
      LaterCallAnswers(c.calls[k], k, c.unlocks, r.unlocks);
    }
    forall g | 0 <= g < |r.handlers| ensures HandlerAsked(r.handlers[g], g, r.unlocks) {
      var handler := r.handlers[g];
      if g != h { LaterHandlerAsked(handler, g, c.unlocks, r.unlocks); }
    }
  }

  lemma NewCallKeepsAsked(c: Controller, r: Controller)
    requires Asked(c) && OneNewCall(c, r) && r.handlers == c.handlers && c.unlocks <= r.unlocks
    requires CallAnswers(r.calls[|c.calls|], |c.calls|, r.unlocks)
    ensures Asked(r)
  {
    assert forall j :: 0 <= j < |c.calls| ==> r.calls[j] == r.calls[..|c.calls|][j];
    CallKeepsAsked(c, r, |c.calls|);
  }

  lemma BeginAnswers(c: Controller, exportId: Id, online: bool, entry: Entry, startedAt: int)
    requires Linked(c)
    ensures var r := BeginCall(c, exportId, online, entry, startedAt);
            CallAnswers(r.calls[|c.calls|], |c.calls|, r.unlocks)
  {
    var r := BeginCall(c, exportId, online, entry, startedAt);
    if r.calls[|c.calls|].phase.UnlockingRefused? {
      assert r.unlocks[|c.unlocks|] == Unlock(TransferIdOf(c, exportId), ByCall(|c.calls|));
    }
  }

  lemma RefusalAnswers(c: Controller, id: Id, entry: Entry, startedAt: int)
    ensures var r := RefuseCall(c, id, entry, startedAt);
            CallAnswers(r.calls[|c.calls|], |c.calls|, r.unlocks)
  {
    var r := RefuseCall(c, id, entry, startedAt);
    if entry.StartRequest? {
      assert r.unlocks[|c.unlocks|] == Unlock(id, ByCall(|c.calls|));
    }
  }

  lemma ReplyAnswers(c: Controller, k: nat, outcome: SendOutcome, now: int)
    requires Linked(c) && k < |c.calls| && c.calls[k].phase.Sending? && k in c.records
    requires !outcome.NotSent? && !outcome.InFlight?
    ensures var r := ReceiveImportReply(c, k, outcome, now); CallAnswers(r.calls[k], k, r.unlocks)
  {
    var r := ReceiveImportReply(c, k, outcome, now);
    if r.calls[k].phase.RollingBack? {
      assert r.unlocks[|c.unlocks|] == Unlock(c.calls[k].id, ByCall(k));
    }
  }

  lemma CallEventKeepsAsked(w: World, e: CallEvent)
    requires Asked(w.controller) && AllCallsSound(w.controller.calls) && CallEnabled(w, e)
    ensures Asked(ApplyCall(w.controller, w.env.now, e))
  {
    var c, r := w.controller, ApplyCall(w.controller, w.env.now, e);
    match e
    case CallTransfer(exportId, online, entry, startedAt) =>
      BeginAnswers(c, exportId, online, entry, startedAt);
      NewCallKeepsAsked(c, r);
    case FailBeforeTransfer(exportId, entry, startedAt) =>
      RefusalAnswers(c, exportId, entry, startedAt);
      NewCallKeepsAsked(c, r);
    case Archived(k) => CallKeepsAsked(c, r, k);
    case Recorded(k) => CallKeepsAsked(c, r, k);
    case ImportReplies(k, outcome) =>
      ReplyAnswers(c, k, outcome, w.env.now);
      CallKeepsAsked(c, r, k);
    case CallUnlockReplies(k) =>
      assert CallSound(c.calls[k]);
      CallKeepsAsked(c, r, k);
    case InstanceUnlocks(k) =>
      LaterCallAnswers(c.calls[k], k, c.unlocks, r.unlocks);
      CallKeepsAsked(c, r, k);
  }

  lemma AnnouncingAsks(c: Controller, h: nat)
    requires Asked(c) && h < |c.handlers| && c.handlers[h].phase.Announcing?
    ensures Asked(FinishAnnouncing(c, h))
  {
    var r := FinishAnnouncing(c, h);
    if !c.handlers[h].verdict.success {
      assert r.unlocks[|c.unlocks|] == Unlock(c.handlers[h].id, ByVerdict(h));
    }
    HandlerKeepsAsked(c, r, h);
  }

  lemma MoveOnKeepsAsked(c: Controller, r: Controller, h: nat)
    requires Asked(c) && h < |c.handlers| && OnlyHandlerMoves(c, r, h) && r.unlocks == c.unlocks
    requires HandlerAsked(r.handlers[h], h, c.unlocks)
    ensures Asked(r)
  {
    HandlerKeepsAsked(c, r, h);
  }

  lemma JudgingKeepsAsked(w: World, e: HandlerEvent)
    requires Asked(w.controller) && HandlerEnabled(w, e) && (e.VerdictArrives? || e.TimerFires?)
    ensures Asked(ApplyHandler(w, e))
  {
    HandlerKeepsAsked(w.controller, ApplyHandler(w, e), |w.controller.handlers|);
  }

  lemma HandlerEventKeepsAsked(w: World, e: HandlerEvent)
    requires Asked(w.controller) && HandlerEnabled(w, e)
    ensures Asked(ApplyHandler(w, e))
  {
    var c, r := w.controller, ApplyHandler(w, e);
    if e.VerdictArrives? || e.TimerFires? {
      JudgingKeepsAsked(w, e);
    } else {
      assert HandlerAsked(c.handlers[e.h], e.h, c.unlocks);
      if e.Announced? {
        AnnouncingAsks(c, e.h);
      } else {
        MoveOnKeepsAsked(c, r, e.h);
      }
    }
  }

  lemma RestartKeepsAsked(c: Controller, stored: map<Id, StoredExport>, disk: map<Id, Intent>, now: int)
    requires Asked(c)
    ensures Asked(Restart(c, stored, disk, now))
  {
    var r := Restart(c, stored, disk, now);
    forall k | 0 <= k < |r.calls| ensures CallAnswers(r.calls[k], k, r.unlocks) {
      assert CallAnswers(c.calls[k], k, c.unlocks);
    }
  }

  lemma StepKeepsAsked(w: World, e: Event)
    requires Asked(w.controller) && AllCallsSound(w.controller.calls) && Enabled(w, e)
    ensures Asked(Step(w, e).controller)
  {
    match e
    case Outside(move) =>
      if move.RestartController? {
        RestartKeepsAsked(w.controller, move.stored, w.env.disk, w.env.now);
      }
    case InCall(call) => CallEventKeepsAsked(w, call);
    case InHandler(handler) => HandlerEventKeepsAsked(w, handler);
  }

  lemma {:induction false} RunKeepsAsked(w: World, events: seq<Event>)
    requires Asked(w.controller) && UnlocksSound(w.controller) && Valid(w, events)
    ensures Asked(Run(w, events).controller)
    decreases |events|
  {
    if events != [] {
      StepKeepsUnlocksSound(w, events[0]);
      StepKeepsAsked(w, events[0]);
      RunKeepsAsked(Step(w, events[0]), events[1..]);
    }
  }

  /**
   In every reachable state the reply of a call says what became of its import, and whoever waits for a source
   to be deleted or unlocked has asked for it.
   */
  lemma WhoeverWaitsHasAsked(events: seq<Event>)
    requires Valid(INIT, events)
    ensures var c := Run(INIT, events).controller;
            && (forall k :: 0 <= k < |c.calls| ==> CallAnswers(c.calls[k], k, c.unlocks))
            && (forall h :: 0 <= h < |c.handlers| ==> HandlerAsked(c.handlers[h], h, c.unlocks))
  {
    RunKeepsAsked(INIT, events);
  }

  // ---------------------------------------------------------------- the answer to a request

  predicate HasIndex(item: StoredExport) {
    item.platformIndex.Some? && item.platformIndex.value >= 1
  }

  /** The call is on its way to a record of its own. */
  predicate IsAdmitted(call: Call, id: Id, exportId: Id, startedAt: int) {
    && call.id == id && call.outcome.NotSent?
    && call.phase == Archiving(Record(id, exportId, Transporting, startedAt, None, false))
  }

  /** The call ends without having sent an import, and the source is unlocked or may be. */
  predicate IsRefused(call: Call, k: nat, entry: Entry, unlocks: seq<Unlock>) {
    if entry.StartRequest? then call.phase.UnlockingRefused? && unlocks == [Unlock(call.id, ByCall(k))]
    else call.phase == Returned(Reply(false, true)) && unlocks == []
  }

  /** What the new call n comes to, for an id whose record has this status. */
  predicate CallIsAnswered(call: Call, n: nat, asked: seq<Unlock>, exportId: Id, entry: Entry, startedAt: int,
                           isActive: bool, isFree: bool)
  {
    if isActive then call.phase == Returned(Reply(true, false)) && asked == []
    else if isFree then IsAdmitted(call, call.id, exportId, startedAt) && asked == []
    else IsRefused(call, n, entry, asked)
  }

  /** The request's export can be had, and the destination is there to take it. */
  predicate CanStart(c: Controller, exportId: Id, online: bool) {
    exportId in c.platformStorage && online
  }

  ghost predicate AnswersRequest(c: Controller, r: Controller, exportId: Id, online: bool, entry: Entry, startedAt: int)
  {
    && Linked(c) && |r.calls| == |c.calls| + 1 && c.calls <= r.calls && c.unlocks <= r.unlocks
    && var id := if exportId in c.platformStorage && c.platformStorage[exportId].exportId != NO_ID
                 then c.platformStorage[exportId].exportId else exportId;
       var status := StatusOf(c, id);
       && r.calls[|c.calls|].id == id
       && CallIsAnswered(r.calls[|c.calls|], |c.calls|, r.unlocks[|c.unlocks|..], exportId, entry, startedAt,
                         CanStart(c, exportId, online)
                         && (status == Some(Transporting) || status == Some(AwaitingValidation)),
                         CanStart(c, exportId, online) && HasIndex(c.platformStorage[exportId])
                         && (id in c.activeTransfers ==>
                               status == Some(Failed) && !c.records[c.activeTransfers[id]].preserved))
  }

  lemma BeginIsAnswered(w: World, exportId: Id, online: bool, entry: Entry, startedAt: int)
    requires WorldTold(w)
    ensures AnswersRequest(w.controller, BeginCall(w.controller, exportId, online, entry, startedAt),
                           exportId, online, entry, startedAt)
  {
    var c := w.controller;
    var r := BeginCall(c, exportId, online, entry, startedAt);
    var id := TransferIdOf(c, exportId);
    assert c.calls == r.calls[..|c.calls|];
    if id in c.activeTransfers {
      OwnRecordTells(w, c.activeTransfers[id], id, c.records[c.activeTransfers[id]].status);
    }
  }

  /**
   In every reachable state a request for an export is admitted exactly if the export is stored with a positive
   index, the destination is online, and the id names no record or one that failed without a preserved copy; it
   is told that a transfer is active exactly if the record is in transit or awaits its verdict; and otherwise it
   is refused.
   */
  lemma RequestIsAnswered(events: seq<Event>, exportId: Id, online: bool, entry: Entry, startedAt: int)
    requires Valid(INIT, events)
    requires Enabled(Run(INIT, events), InCall(CallTransfer(exportId, online, entry, startedAt)))
    ensures var c := Run(INIT, events).controller;
            var r := Step(Run(INIT, events), InCall(CallTransfer(exportId, online, entry, startedAt))).controller;
            AnswersRequest(c, r, exportId, online, entry, startedAt)
  {
    RunIsTold(events);
    BeginIsAnswered(Run(INIT, events), exportId, online, entry, startedAt);
  }
}
