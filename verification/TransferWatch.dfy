/**
 A record that awaits its verdict always has someone to settle it: a timer that is still to go off or a handler
 that was started for it.
 */
module TransferWatch {
  import opened Wrappers
  import opened TransferModel
  import opened TransferWorld
  import opened TransferDelete
  import opened TransferUnlock
  import opened TransferRetry
  import opened TransferCopies
  import opened TransferIntentGuards
  import opened TransferOutcomes
  import opened TransferEffects

  // ---------------------------------------------------------------- whose timer it is

  /** A timer on a record, while it is pending, is the timer of the record's id. */
  predicate TimerNamed(record: Record, timers: map<nat, Timer>, nextTimer: nat) {
    record.timer.Some? ==>
      && record.timer.value < nextTimer
      && (record.timer.value in timers ==> timers[record.timer.value].id == record.id)
  }

  ghost predicate TimersNamed(c: Controller) {
    forall k :: k in c.records ==> TimerNamed(c.records[k], c.timers, c.nextTimer)
  }

  /** Every record of r is one of c or has no timer, and no timer is new. */
  ghost predicate NoNewTimer(c: Controller, r: Controller) {
    && r.nextTimer == c.nextTimer
    && (forall t :: t in r.timers ==> t in c.timers && r.timers[t] == c.timers[t])
    && (forall k :: k in r.records && r.records[k].timer.Some? ==> SameTimer(c, r.records[k], k))
  }

  predicate SameTimer(c: Controller, record: Record, k: nat) {
    k in c.records && c.records[k].timer == record.timer && c.records[k].id == record.id
  }

  lemma NoNewTimerKeepsNames(c: Controller, r: Controller)
    requires TimersNamed(c) && NoNewTimer(c, r)
    ensures TimersNamed(r)
  {
    forall k | k in r.records ensures TimerNamed(r.records[k], r.timers, r.nextTimer) {
      if r.records[k].timer.Some? {
        assert SameTimer(c, r.records[k], k) && TimerNamed(c.records[k], c.timers, c.nextTimer);
      }
    }
  }

  lemma ArmingKeepsNames(c: Controller, k: nat)
    requires WellFormed(c) && TimersNamed(c) && k < |c.calls|
    ensures TimersNamed(ArmTimer(c, k))
  {
    var r := ArmTimer(c, k);
    forall j | j in r.records ensures TimerNamed(r.records[j], r.timers, r.nextTimer) {
      assert TimerNamed(c.records[j], c.timers, c.nextTimer);
    }
  }

  lemma AwaitingKeepsNames(c: Controller, k: nat, now: int)
    requires WellFormed(c) && TimersNamed(c) && k < |c.calls| && k in c.records
    ensures TimersNamed(EnterAwaitingValidation(c, k, now))
  {
    var awaiting := SetStatus(c, k, AwaitingValidation);
    NoNewTimerKeepsNames(c, awaiting);
    ArmingKeepsNames(awaiting, k);
    NoNewTimerKeepsNames(ArmTimer(awaiting, k), EnterAwaitingValidation(c, k, now));
  }

  lemma RollingBackKeepsNames(c: Controller, k: nat)
    requires Linked(c) && TimersNamed(c) && k < |c.calls|
    ensures TimersNamed(RollBackCall(c, k))
  {
    NoNewTimerKeepsNames(c, RollBackCall(c, k));
  }

  lemma ReplyKeepsNames(c: Controller, k: nat, outcome: SendOutcome, now: int)
    requires WellFormed(c) && TimersNamed(c) && k < |c.calls| && c.calls[k].phase.Sending? && k in c.records
    ensures TimersNamed(ReceiveImportReply(c, k, outcome, now))
  {
    var call := c.calls[k].(phase := AfterImportReply(c, c.calls[k].id, outcome), outcome := outcome);
    var replied := SetCall(c, k, call);
    NoNewTimerKeepsNames(c, replied);
    if outcome.Accepted? || outcome.SessionLost? {
      AwaitingKeepsNames(replied, k, now);
    } else if call.phase.RollingBack? {
      RollingBackKeepsNames(replied, k);
    }
  }

  lemma InstallKeepsNames(c: Controller, k: nat)
    requires TimersNamed(c) && k < |c.calls| && c.calls[k].phase.Archiving? && c.calls[k].phase.operation.timer.None?
    ensures TimersNamed(InstallRecord(c, k))
  {
    NoNewTimerKeepsNames(c, InstallRecord(c, k));
  }

  lemma CallKeepsNames(w: World, e: CallEvent)
    requires WorldTold(w) && TimersNamed(w.controller) && CallEnabled(w, e)
    ensures TimersNamed(ApplyCall(w.controller, w.env.now, e))
  {
    var c := w.controller;
    match e
    case Archived(k) =>
      assert CallPrepared(c.calls[k], k, c.records.Keys, w.env.requested, w.env.fates);
      InstallKeepsNames(c, k);
    case ImportReplies(k, outcome) => ReplyKeepsNames(c, k, outcome, w.env.now);
    case _ => OtherCallsSameRecords(w, e);
  }

  lemma LateVerdictKeepsNames(c: Controller, attempt: nat, verdict: Verdict)
    requires TimersNamed(c) && attempt in c.records
    ensures TimersNamed(TakeLateVerdict(c, attempt, verdict))
  {
    NoNewTimerKeepsNames(c, TakeLateVerdict(c, attempt, verdict));
  }

  lemma JudgingKeepsNames(c: Controller, id: Id, verdict: Verdict)
    requires Linked(c) && TimersNamed(c) && Awaits(c, id)
    ensures TimersNamed(TakeVerdict(c, id, verdict))
  {
    NoNewTimerKeepsNames(c, TakeVerdict(c, id, verdict));
  }

  lemma TakingKeepsNames(c: Controller, id: Id, verdict: Verdict)
    requires Linked(c) && TimersNamed(c)
    ensures TimersNamed(TakeVerdict(c, id, verdict))
  {
    if Awaits(c, id) {
      JudgingKeepsNames(c, id, verdict);
    } else if id in c.activeTransfers {
      LateVerdictKeepsNames(c, c.activeTransfers[id], verdict);
    }
  }

  lemma FiringKeepsNames(c: Controller, t: nat)
    requires Linked(c) && TimersNamed(c) && t in c.timers
    ensures TimersNamed(FireTimer(c, t))
  {
    var fired := c.(timers := c.timers - {t});
    NoNewTimerKeepsNames(c, fired);
    TakingKeepsNames(fired, c.timers[t].id, TIMEOUT_VERDICT);
  }

  lemma AnswerKeepsNames(w: World, e: HandlerEvent)
    requires TimersNamed(w.controller) && HandlerEnabled(w, e) && (e.DeleteReplies? || e.Reported?)
    ensures TimersNamed(ApplyHandler(w, e))
  {
    NoNewTimerKeepsNames(w.controller, ApplyHandler(w, e));
  }

  lemma EndingKeepsTimers(c: Controller, h: nat, evicted: set<Id>)
    requires h < |c.handlers|
    ensures SameRecordsAndTimers(c, Settle(c, h, evicted))
  {
  }

  lemma AnnouncingKeepsTimers(c: Controller, h: nat)
    requires h < |c.handlers|
    ensures SameRecordsAndTimers(c, FinishAnnouncing(c, h))
  {
  }

  lemma CompletingKeepsTimers(c: Controller, h: nat)
    requires h < |c.handlers| && c.handlers[h].attempt in c.records
    ensures SameRecordsAndTimers(c, FinishCompleting(c, h))
  {
  }

  lemma ResumptionKeepsTimers(w: World, e: HandlerEvent)
    requires HandlerEnabled(w, e) && (e.Announced? || e.CompletionRecorded? || e.UnlockReplies? || e.Settles?)
    ensures SameRecordsAndTimers(w.controller, ApplyHandler(w, e))
  {
    match e
    case Announced(h) => AnnouncingKeepsTimers(w.controller, h);
    case CompletionRecorded(h) => CompletingKeepsTimers(w.controller, h);
    case UnlockReplies(h, failed) =>
    case Settles(h, evicted, _, _) => EndingKeepsTimers(w.controller, h, evicted);
  }

  lemma HandlerKeepsNames(w: World, e: HandlerEvent)
    requires TimersNamed(w.controller) && HandlerEnabled(w, e)
    ensures TimersNamed(ApplyHandler(w, e))
  {
    match e
    case VerdictArrives(message) => TakingKeepsNames(w.controller, message.id, message.verdict);
    case TimerFires(t) => FiringKeepsNames(w.controller, t);
    case DeleteReplies(_, _) => AnswerKeepsNames(w, e);
    case Reported(_) => AnswerKeepsNames(w, e);
    case _ => ResumptionKeepsTimers(w, e);
  }

  lemma StepKeepsNames(w: World, e: Event)
    requires WorldTold(w) && TimersNamed(w.controller) && Enabled(w, e)
    ensures TimersNamed(Step(w, e).controller)
  {
    match e
    case Outside(move) => NoNewTimerKeepsNames(w.controller, Step(w, e).controller);
    case InCall(call) => CallKeepsNames(w, call);
    case InHandler(handler) => HandlerKeepsNames(w, handler);
  }

  // ---------------------------------------------------------------- awaiting records are watched

  ghost predicate TimerPending(c: Controller, id: Id) {
    && id in c.activeTransfers && c.activeTransfers[id] in c.records
    && var timer := c.records[c.activeTransfers[id]].timer;
       timer.Some? && timer.value in c.timers && c.timers[timer.value].id == id
  }

  /** A record that awaits its verdict has a pending timer or an open handler. */
  ghost predicate Watched(c: Controller, id: Id) {
    Linked(c) && (Awaits(c, id) ==> TimerPending(c, id) || !NoOpenHandler(c, id))
  }

  /** The id's timers are all there. */
  predicate KeepsTimersOf(a: map<nat, Timer>, b: map<nat, Timer>, id: Id) {
    forall t :: t in a && a[t].id == id ==> t in b && b[t] == a[t]
  }

  lemma SliceStaysWatched(c: Controller, r: Controller, id: Id)
    requires Watched(c, id) && WellFormed(c) && Linked(r)
    requires SameSlice(c, r, id) && KeepsTimersOf(c.timers, r.timers, id)
    ensures Watched(r, id)
  {
    if Awaits(r, id) {
      assert r.records[c.activeTransfers[id]] == c.records[c.activeTransfers[id]];
    }
  }

  lemma AwaitingArms(c: Controller, k: nat, now: int)
    requires Linked(c) && k < |c.calls| && k in c.records
    ensures var r := EnterAwaitingValidation(c, k, now);
            r.timers == c.timers || r.timers == c.timers[c.nextTimer := Timer(c.calls[k].id, k)]
  {
  }

  lemma WithNewTimer(timers: map<nat, Timer>, t: nat, timer: Timer, id: Id)
    requires t !in timers
    ensures KeepsTimersOf(timers, timers[t := timer], id)
  {
  }

  lemma OtherReplyKeepsTimers(c: Controller, k: nat, outcome: SendOutcome, now: int, id: Id)
    requires WellFormed(c) && k < |c.calls| && c.calls[k].phase.Sending? && k in c.records
    ensures KeepsTimersOf(c.timers, ReceiveImportReply(c, k, outcome, now).timers, id)
  {
    var call := c.calls[k].(phase := AfterImportReply(c, c.calls[k].id, outcome), outcome := outcome);
    if outcome.Accepted? || outcome.SessionLost? {
      AwaitingArms(SetCall(c, k, call), k, now);
      WithNewTimer(c.timers, c.nextTimer, Timer(call.id, k), id);
    } else {
      assert ReceiveImportReply(c, k, outcome, now).timers == c.timers;
    }
  }

  lemma OtherCallKeepsTimers(w: World, e: CallEvent, id: Id)
    requires WellFormed(w.controller) && CallEnabled(w, e)
    ensures KeepsTimersOf(w.controller.timers, ApplyCall(w.controller, w.env.now, e).timers, id)
  {
    match e
    case Archived(k) =>
    case ImportReplies(k, outcome) => OtherReplyKeepsTimers(w.controller, k, outcome, w.env.now, id);
    case _ => OtherCallsSameRecords(w, e);
  }

  lemma JudgingTakesTimer(c: Controller, id: Id, verdict: Verdict)
    requires Linked(c) && Awaits(c, id)
    ensures var timer := c.records[c.activeTransfers[id]].timer;
            TakeVerdict(c, id, verdict).timers == if timer.Some? then c.timers - {timer.value} else c.timers
  {
  }

  lemma WithoutOtherTimer(timers: map<nat, Timer>, t: nat, id: Id)
    requires t in timers ==> timers[t].id != id
    ensures KeepsTimersOf(timers, timers - {t}, id)
  {
  }

  lemma OtherJudgingKeepsTimers(c: Controller, other: Id, verdict: Verdict, id: Id)
    requires WellFormed(c) && TimersNamed(c) && other != id && Awaits(c, other)
    ensures KeepsTimersOf(c.timers, TakeVerdict(c, other, verdict).timers, id)
  {
    var record := c.records[c.activeTransfers[other]];
    assert TimerNamed(record, c.timers, c.nextTimer) && record.id == other;
    JudgingTakesTimer(c, other, verdict);
    match record.timer
    case None =>
    case Some(t) => WithoutOtherTimer(c.timers, t, id);
  }

  lemma OtherVerdictKeepsTimers(c: Controller, other: Id, verdict: Verdict, id: Id)
    requires WellFormed(c) && TimersNamed(c) && other != id
    ensures KeepsTimersOf(c.timers, TakeVerdict(c, other, verdict).timers, id)
  {
    if Awaits(c, other) {
      OtherJudgingKeepsTimers(c, other, verdict, id);
    } else if other in c.activeTransfers {
      assert TakeVerdict(c, other, verdict) == TakeLateVerdict(c, c.activeTransfers[other], verdict);
    }
  }

  lemma OtherTimerKeepsTimers(c: Controller, t: nat, id: Id)
    requires WellFormed(c) && TimersNamed(c) && t in c.timers && c.timers[t].id != id
    ensures KeepsTimersOf(c.timers, FireTimer(c, t).timers, id)
  {
    var fired := c.(timers := c.timers - {t});
    NoNewTimerKeepsNames(c, fired);
    OtherVerdictKeepsTimers(fired, c.timers[t].id, TIMEOUT_VERDICT, id);
  }

  lemma AnswerKeepsTimers(w: World, e: HandlerEvent)
    requires HandlerEnabled(w, e) && (e.DeleteReplies? || e.Reported?)
    ensures ApplyHandler(w, e).timers == w.controller.timers
  {
  }

  lemma OtherHandlerKeepsTimers(w: World, e: HandlerEvent, id: Id)
    requires WellFormed(w.controller) && TimersNamed(w.controller) && HandlerEnabled(w, e) && HandlerSubject(w, e) != id
    ensures KeepsTimersOf(w.controller.timers, ApplyHandler(w, e).timers, id)
  {
    match e
    case VerdictArrives(message) => OtherVerdictKeepsTimers(w.controller, message.id, message.verdict, id);
    case TimerFires(t) => OtherTimerKeepsTimers(w.controller, t, id);
    case DeleteReplies(_, _) => AnswerKeepsTimers(w, e);
    case Reported(_) => AnswerKeepsTimers(w, e);
    case _ => ResumptionKeepsTimers(w, e);
  }

  /** Records and timers stay, the id may lose its record, and its open handlers stay open. */
  lemma QuietStaysWatched(c: Controller, r: Controller, id: Id)
    requires Watched(c, id) && Linked(r) && r.records == c.records && r.timers == c.timers
    requires id in r.activeTransfers ==> id in c.activeTransfers && r.activeTransfers[id] == c.activeTransfers[id]
    requires |c.handlers| <= |r.handlers|
    requires forall h :: 0 <= h < |c.handlers| && Open(c.handlers[h]) ==>
               Open(r.handlers[h]) && r.handlers[h].id == c.handlers[h].id
    ensures Watched(r, id)
  {
    if !NoOpenHandler(c, id) {
      var h :| 0 <= h < |c.handlers| && Open(c.handlers[h]) && c.handlers[h].id == id;
      assert Open(r.handlers[h]);
    }
  }

  lemma LandingIsWatched(c: Controller, k: nat, now: int)
    requires Released(c, k)
    requires Linked(c)
    ensures Linked(EnterAwaitingValidation(c, k, now))
    ensures Watched(EnterAwaitingValidation(c, k, now), c.calls[k].id)
  {
    assert TimerPending(EnterAwaitingValidation(c, k, now), c.calls[k].id);
  }

  lemma OwnReplyIsWatched(c: Controller, k: nat, outcome: SendOutcome, now: int)
    requires k < |c.calls| && c.calls[k].phase.Sending? && k in c.records && Owned(c, c.calls[k].id)
    ensures Watched(ReceiveImportReply(c, k, outcome, now), c.calls[k].id)
  {
    var call := c.calls[k].(phase := AfterImportReply(c, c.calls[k].id, outcome), outcome := outcome);
    assert CallOwns(c.calls[k], k, c.activeTransfers, c.records);
    if outcome.Accepted? || outcome.SessionLost? {
      ReturningReleases(c, k, call);
      LandingIsWatched(SetCall(c, k, call), k, now);
    }
  }

  lemma InstalledIsWatched(w: World, k: nat)
    requires WorldTold(w) && k < |w.controller.calls| && w.controller.calls[k].phase.Archiving?
    ensures Watched(InstallRecord(w.controller, k), w.controller.calls[k].id)
  {
    assert CallPrepared(w.controller.calls[k], k, w.controller.records.Keys, w.env.requested, w.env.fates);
  }

  lemma OtherCallsSameActive(w: World, e: CallEvent)
    requires CallEnabled(w, e) && !e.Archived? && !e.ImportReplies?
    ensures ApplyCall(w.controller, w.env.now, e).activeTransfers == w.controller.activeTransfers
  {
    if e.CallTransfer? {
      BeginEffect(w.controller, e.exportId, e.online, e.entry, e.startedAt);
    }
  }

  lemma OwnCallStaysWatched(w: World, e: CallEvent, id: Id)
    requires WorldTold(w) && Owned(w.controller, id) && Watched(w.controller, id) && CallEnabled(w, e)
    requires CallSubject(w.controller, w.env.now, e) == id
    ensures Watched(ApplyCall(w.controller, w.env.now, e), id)
  {
    match e
    case Archived(k) => InstalledIsWatched(w, k);
    case ImportReplies(k, outcome) => OwnReplyIsWatched(w.controller, k, outcome, w.env.now);
    case _ =>
      OtherCallsSameRecords(w, e);
      OtherCallsSameActive(w, e);
      CallEventHandlers(w, e);
      QuietStaysWatched(w.controller, ApplyCall(w.controller, w.env.now, e), id);
  }

  lemma VerdictIsWatched(c: Controller, id: Id, verdict: Verdict)
    requires Linked(c)
    ensures Watched(TakeVerdict(c, id, verdict), id)
  {
    var r := TakeVerdict(c, id, verdict);
    if Awaits(c, id) {
      assert Open(r.handlers[|c.handlers|]) && r.handlers[|c.handlers|].id == id;
    }
  }

  lemma FiringIsWatched(c: Controller, t: nat)
    requires Linked(c) && t in c.timers
    ensures Watched(FireTimer(c, t), c.timers[t].id)
  {
    VerdictIsWatched(c.(timers := c.timers - {t}), c.timers[t].id, TIMEOUT_VERDICT);
  }

  /** The handler goes on and stays open. */
  lemma OpenMoveIsWatched(c: Controller, r: Controller, h: nat)
    requires h < |c.handlers| && Linked(r) && OnlyHandlerMoves(c, r, h) && Open(r.handlers[h])
    ensures Watched(r, c.handlers[h].id)
  {
    assert r.handlers[h].id == c.handlers[h].id;
  }

  lemma AnsweredDoesNotAwait(w: World, e: HandlerEvent)
    requires HandlerEnabled(w, e) && (e.DeleteReplies? || e.Reported?)
    requires Owned(w.controller, w.controller.handlers[e.h].id)
    ensures Linked(ApplyHandler(w, e)) && !Awaits(ApplyHandler(w, e), w.controller.handlers[e.h].id)
  {
    assert HandlerOwns(w.controller.handlers[e.h], w.controller.activeTransfers, w.controller.records);
  }

  lemma ClosedMoveKeepsActive(w: World, e: HandlerEvent)
    requires HandlerEnabled(w, e) && (e.CompletionRecorded? || e.Settles?)
    ensures ApplyHandler(w, e).activeTransfers
         == w.controller.activeTransfers - if e.Settles? then e.evicted else {}
  {
    if e.Settles? {
      EndedKeepsRecords(w.controller, e.h, e.evicted);
    } else {
      ResumedKeepsRecords(w, e);
      assert w.controller.activeTransfers - {} == w.controller.activeTransfers;
    }
  }

  lemma HandlersStayOpen(w: World, e: HandlerEvent)
    requires HandlerEnabled(w, e) && (e.CompletionRecorded? || e.Settles?)
    ensures var a, b := w.controller.handlers, ApplyHandler(w, e).handlers;
            && |a| == |b|
            && forall h :: 0 <= h < |a| && Open(a[h]) ==> Open(b[h]) && b[h].id == a[h].id
  {
    assert OnlyHandlerMoves(w.controller, ApplyHandler(w, e), e.h) && !Open(w.controller.handlers[e.h]);
  }

  lemma ClosedMoveStaysWatched(w: World, e: HandlerEvent, id: Id)
    requires WellFormed(w.controller) && Watched(w.controller, id) && HandlerEnabled(w, e)
    requires e.CompletionRecorded? || e.Settles?
    ensures Watched(ApplyHandler(w, e), id)
  {
    StepKeepsWellFormed(w, InHandler(e));
    ResumptionKeepsTimers(w, e);
    ClosedMoveKeepsActive(w, e);
    HandlersStayOpen(w, e);
    QuietStaysWatched(w.controller, ApplyHandler(w, e), id);
  }

  lemma OwnHandlerStaysWatched(w: World, e: HandlerEvent, id: Id)
    requires Owned(w.controller, id) && Watched(w.controller, id) && HandlerEnabled(w, e)
    requires HandlerSubject(w, e) == id
    ensures Watched(ApplyHandler(w, e), id)
  {
    var c := w.controller;
    StepKeepsWellFormed(w, InHandler(e));
    match e
    case VerdictArrives(message) => VerdictIsWatched(c, id, message.verdict);
    case TimerFires(t) => FiringIsWatched(c, t);
    case Announced(h) => OpenMoveIsWatched(c, FinishAnnouncing(c, h), h);
    case UnlockReplies(h, failed) => OpenMoveIsWatched(c, ReceiveUnlockReply(c, h, failed), h);
    case DeleteReplies(_, _) => AnsweredDoesNotAwait(w, e);
    case Reported(_) => AnsweredDoesNotAwait(w, e);
    case _ => ClosedMoveStaysWatched(w, e, id);
  }

  lemma MoveStaysWatched(w: World, move: Move, id: Id)
    requires WellFormed(w.controller) && Watched(w.controller, id) && MoveEnabled(w, move)
    ensures Watched(ApplyMove(w, move).controller, id)
  {
    if !move.RestartController? {
      QuietStaysWatched(w.controller, ApplyMove(w, move).controller, id);
    }
  }

  ghost predicate KeptGoing(w: World, id: Id) {
    WorldTold(w) && TimersNamed(w.controller) && Owned(w.controller, id) && Watched(w.controller, id)
  }

  lemma CallStaysWatched(w: World, e: CallEvent, id: Id)
    requires KeptGoing(w, id) && CallEnabled(w, e) && Linked(ApplyCall(w.controller, w.env.now, e))
    ensures Watched(ApplyCall(w.controller, w.env.now, e), id)
  {
    if CallSubject(w.controller, w.env.now, e) == id {
      OwnCallStaysWatched(w, e, id);
    } else {
      CallLeavesSlice(w, e, id);
      OtherCallKeepsTimers(w, e, id);
      SliceStaysWatched(w.controller, ApplyCall(w.controller, w.env.now, e), id);
    }
  }

  lemma HandlerStaysWatched(w: World, e: HandlerEvent, id: Id)
    requires KeptGoing(w, id) && HandlerEnabled(w, e) && Linked(ApplyHandler(w, e))
    ensures Watched(ApplyHandler(w, e), id)
  {
    if HandlerSubject(w, e) == id {
      OwnHandlerStaysWatched(w, e, id);
    } else if e.Settles? {
      ClosedMoveStaysWatched(w, e, id);
    } else {
      HandlerLeavesSlice(w, e, id);
      OtherHandlerKeepsTimers(w, e, id);
      SliceStaysWatched(w.controller, ApplyHandler(w, e), id);
    }
  }

  lemma StepKeepsGoing(w: World, e: Event, id: Id)
    requires KeptGoing(w, id) && Enabled(w, e) && Disciplined(w, e, id)
    ensures KeptGoing(Step(w, e), id)
  {
    StepKeepsTold(w, e);
    StepKeepsOwned(w, e, id);
    StepKeepsNames(w, e);
    match e
    case Outside(move) => MoveStaysWatched(w, move, id);
    case InCall(call) => CallStaysWatched(w, call, id);
    case InHandler(handler) => HandlerStaysWatched(w, handler, id);
  }

  lemma {:induction false} RunKeepsGoing(w: World, events: seq<Event>, id: Id)
    requires KeptGoing(w, id) && DisciplinedRun(w, events, id)
    ensures Valid(w, events) && KeptGoing(Run(w, events), id)
    decreases |events|
  {
    if events != [] {
      StepKeepsGoing(w, events[0], id);
      RunKeepsGoing(Step(w, events[0]), events[1..], id);
    }
  }

  /**
   In every run that is disciplined for an id, a record that awaits its verdict has either a timer that is still
   to go off or a handler that is yet to settle it, and never both.
   */
  lemma AwaitingIsWatched(events: seq<Event>, id: Id)
    requires Valid(INIT, events) && DisciplinedRun(INIT, events, id)
    requires Linked(Run(INIT, events).controller)
    requires StatusOf(Run(INIT, events).controller, id) == Some(AwaitingValidation)
    ensures var c := Run(INIT, events).controller;
            (exists t :: t in c.timers && c.timers[t].id == id) <==>
            !(exists h :: 0 <= h < |c.handlers| && Open(c.handlers[h]) && c.handlers[h].id == id)
  {
    RunKeepsGoing(INIT, events, id);
    var c := Run(INIT, events).controller;
    if t :| t in c.timers && c.timers[t].id == id {
      assert TimerOwns(c.timers[t], t, c.activeTransfers, c.records);
      forall h | 0 <= h < |c.handlers| && c.handlers[h].id == id ensures !Open(c.handlers[h]) {
        assert HandlerOwns(c.handlers[h], c.activeTransfers, c.records);
      }
    }
  }
}
