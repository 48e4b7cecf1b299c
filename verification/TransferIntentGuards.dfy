/**
 When handlers only ever remove their own intents: in runs that keep the orderings of the orchestrator, it is
 enough that no import lands while a handler of an earlier attempt for its id has yet to end. Then only a
 restart that comes before the write can lose an intent.
 */
module TransferIntentGuards {
  import opened Wrappers
  import opened TransferModel
  import opened TransferWorld
  import opened TransferUnlock
  import opened TransferRetry
  import opened TransferCopies
  import opened TransferIntents

  predicate AllEnded(handlers: seq<Handler>, id: Id) {
    forall h :: 0 <= h < |handlers| && handlers[h].id == id ==> handlers[h].phase.Finished?
  }

  /** No import lands while a handler for its id has yet to end. */
  ghost predicate WaitsForHandlers(w: World, e: Event, id: Id)
    requires Enabled(w, e)
  {
    e.InCall? && Lands(e.call) && w.controller.calls[e.call.k].id == id ==> AllEnded(w.controller.handlers, id)
  }

  // ---------------------------------------------------------------- the invariant

  predicate IsLatest(latest: map<Id, nat>, id: Id, attempt: nat) {
    id in latest && latest[id] == attempt
  }

  predicate HandlersJudgeLatest(handlers: seq<Handler>, latest: map<Id, nat>, id: Id) {
    forall h :: 0 <= h < |handlers| && handlers[h].id == id && !handlers[h].phase.Finished? ==>
      IsLatest(latest, id, handlers[h].attempt)
  }

  /** The attempt that awaits its verdict, and every attempt a handler still judges, is the latest that landed. */
  ghost predicate JudgesLatest(w: World, id: Id)
    requires Linked(w.controller)
  {
    && (Awaits(w.controller, id) ==> IsLatest(w.env.latest, id, w.controller.activeTransfers[id]))
    && HandlersJudgeLatest(w.controller.handlers, w.env.latest, id)
  }

  // ---------------------------------------------------------------- every step keeps it

  /** No record begins to await, and the id keeps the one it names or loses it. */
  ghost predicate NoNewAwaiting(c: Controller, r: Controller, id: Id)
    requires Linked(c) && Linked(r)
  {
    Awaits(r, id) ==> Awaits(c, id) && r.activeTransfers[id] == c.activeTransfers[id]
  }

  lemma SliceKeepsLatest(w: World, w': World, id: Id)
    requires WellFormed(w.controller) && Linked(w'.controller) && SameSlice(w.controller, w'.controller, id)
    requires JudgesLatest(w, id) && (id in w'.env.latest <==> id in w.env.latest)
    requires id in w.env.latest ==> w'.env.latest[id] == w.env.latest[id]
    ensures JudgesLatest(w', id)
  {
  }

  lemma QuietStepKeepsLatest(w: World, w': World, id: Id)
    requires Linked(w.controller) && Linked(w'.controller) && JudgesLatest(w, id) && w'.env.latest == w.env.latest
    requires NoNewAwaiting(w.controller, w'.controller, id)
    requires HandlersJudgeLatest(w'.controller.handlers, w.env.latest, id)
    ensures JudgesLatest(w', id)
  {
  }

  lemma MoveKeepsLatest(w: World, move: Move, id: Id)
    requires Owned(w.controller, id) && MoveEnabled(w, move) && JudgesLatest(w, id)
    requires Linked(ApplyMove(w, move).controller)
    ensures JudgesLatest(ApplyMove(w, move), id)
  {
    var handlers := ApplyMove(w, move).controller.handlers;
    assert move.RestartController? ==> AllEnded(handlers, id);
    QuietStepKeepsLatest(w, ApplyMove(w, move), id);
  }

  lemma LandingKeepsLatest(w: World, e: CallEvent, id: Id)
    requires Owned(w.controller, id) && CallEnabled(w, e) && Lands(e) && w.controller.calls[e.k].id == id
    requires AllEnded(w.controller.handlers, id) && Linked(ApplyCall(w.controller, w.env.now, e))
    ensures JudgesLatest(Step(w, InCall(e)), id)
  {
    CallEventHandlers(w, e);
    assert CallOwns(w.controller.calls[e.k], e.k, w.controller.activeTransfers, w.controller.records);
  }

  /** A reply that did not land leaves every record as it is, or fails one. */
  lemma FailureAwaitsNothing(c: Controller, k: nat, outcome: SendOutcome, now: int, id: Id)
    requires Linked(c) && k < |c.calls| && c.calls[k].phase.Sending? && k in c.records
    requires outcome.Rejected? || outcome.Threw?
    requires Linked(ReceiveImportReply(c, k, outcome, now))
    ensures NoNewAwaiting(c, ReceiveImportReply(c, k, outcome, now), id)
  {
  }

  lemma OtherCallsAwaitNothing(w: World, e: CallEvent, id: Id)
    requires Owned(w.controller, id) && CallEnabled(w, e) && CallSubject(w.controller, w.env.now, e) == id && !Lands(e)
    requires Linked(ApplyCall(w.controller, w.env.now, e))
    ensures NoNewAwaiting(w.controller, ApplyCall(w.controller, w.env.now, e), id)
  {
    match e
    case CallTransfer(exportId, online, entry, startedAt) =>
      BeginEffect(w.controller, exportId, online, entry, startedAt);
    case Archived(k) => assert CallOwns(w.controller.calls[k], k, w.controller.activeTransfers, w.controller.records);
    case ImportReplies(k, outcome) => FailureAwaitsNothing(w.controller, k, outcome, w.env.now, id);
    case _ =>
  }

  lemma CallKeepsLatest(w: World, e: CallEvent, id: Id)
    requires Owned(w.controller, id) && CallEnabled(w, e) && JudgesLatest(w, id)
    requires WaitsForHandlers(w, InCall(e), id) && Linked(ApplyCall(w.controller, w.env.now, e))
    ensures JudgesLatest(Step(w, InCall(e)), id)
  {
    if CallSubject(w.controller, w.env.now, e) != id {
      CallLeavesSlice(w, e, id);
      SliceKeepsLatest(w, Step(w, InCall(e)), id);
    } else if Lands(e) {
      LandingKeepsLatest(w, e, id);
    } else {
      OtherCallsAwaitNothing(w, e, id);
      CallEventHandlers(w, e);
      QuietStepKeepsLatest(w, Step(w, InCall(e)), id);
    }
  }

  lemma TakingKeepsLatest(c: Controller, id: Id, verdict: Verdict, latest: map<Id, nat>)
    requires WellFormed(c) && HandlersJudgeLatest(c.handlers, latest, id)
    requires Awaits(c, id) ==> IsLatest(latest, id, c.activeTransfers[id])
    ensures NoNewAwaiting(c, TakeVerdict(c, id, verdict), id)
    ensures HandlersJudgeLatest(TakeVerdict(c, id, verdict).handlers, latest, id)
  {
  }

  lemma FiringKeepsLatest(c: Controller, t: nat, latest: map<Id, nat>)
    requires WellFormed(c) && t in c.timers && HandlersJudgeLatest(c.handlers, latest, c.timers[t].id)
    requires Awaits(c, c.timers[t].id) ==> IsLatest(latest, c.timers[t].id, c.activeTransfers[c.timers[t].id])
    ensures NoNewAwaiting(c, FireTimer(c, t), c.timers[t].id)
    ensures HandlersJudgeLatest(FireTimer(c, t).handlers, latest, c.timers[t].id)
  {
    if Awaits(c, c.timers[t].id) {
      TakingKeepsLatest(c.(timers := c.timers - {t}), c.timers[t].id, TIMEOUT_VERDICT, latest);
    }
  }

  lemma MovedHandlerJudgesLatest(c: Controller, r: Controller, h: nat, latest: map<Id, nat>, id: Id)
    requires h < |c.handlers| && OnlyHandlerMoves(c, r, h) && HandlersJudgeLatest(c.handlers, latest, id)
    requires !c.handlers[h].phase.Finished?
    ensures HandlersJudgeLatest(r.handlers, latest, id)
  {
  }

  /** A record that gets a status other than awaiting, beside whatever else changes. */
  lemma SettlingAwaitsNothing(c: Controller, r: Controller, attempt: nat, status: Status, id: Id)
    requires Linked(c) && Linked(r) && attempt in c.records && !status.AwaitingValidation?
    requires r.activeTransfers == c.activeTransfers
    requires r.records == c.records[attempt := c.records[attempt].(status := status)]
    ensures NoNewAwaiting(c, r, id)
  {
  }

  lemma ReplyAwaitsNothing(c: Controller, h: nat, reply: DeleteReply, id: Id)
    requires Linked(c) && Suspended(c, h) && Linked(ReceiveDeleteReply(c, h, reply))
    ensures NoNewAwaiting(c, ReceiveDeleteReply(c, h, reply), id)
  {
    SettlingAwaitsNothing(c, ReceiveDeleteReply(c, h, reply), c.handlers[h].attempt, SettledStatus(reply), id);
  }

  lemma ReportAwaitsNothing(c: Controller, h: nat, id: Id)
    requires Linked(c) && Suspended(c, h) && c.handlers[h].phase.Reporting? && Linked(FinishReporting(c, h))
    ensures NoNewAwaiting(c, FinishReporting(c, h), id)
  {
    SettlingAwaitsNothing(c, FinishReporting(c, h), c.handlers[h].attempt,
                          if c.handlers[h].verdict.cleanupFailed then CleanupFailed else Failed, id);
  }

  /** Records stay as they are, and an id may lose its record. */
  lemma SameRecordsAwaitNothing(c: Controller, r: Controller, id: Id)
    requires Linked(c) && Linked(r) && r.records == c.records
    requires id in r.activeTransfers ==> id in c.activeTransfers && r.activeTransfers[id] == c.activeTransfers[id]
    ensures NoNewAwaiting(c, r, id)
  {
  }

  lemma ResumedKeepsRecords(w: World, e: HandlerEvent)
    requires HandlerEnabled(w, e) && (e.Announced? || e.CompletionRecorded? || e.UnlockReplies?)
    ensures ApplyHandler(w, e).records == w.controller.records
    ensures ApplyHandler(w, e).activeTransfers == w.controller.activeTransfers
  {
  }

  lemma EndedKeepsRecords(c: Controller, h: nat, evicted: set<Id>)
    requires h < |c.handlers|
    ensures Settle(c, h, evicted).records == c.records
    ensures Settle(c, h, evicted).activeTransfers == c.activeTransfers - evicted
  {
  }

  lemma ResumedAwaitsNothing(w: World, e: HandlerEvent, id: Id)
    requires WellFormed(w.controller) && HandlerEnabled(w, e) && !e.VerdictArrives? && !e.TimerFires?
    requires Linked(ApplyHandler(w, e))
    ensures NoNewAwaiting(w.controller, ApplyHandler(w, e), id)
  {
    if e.DeleteReplies? {
      ReplyAwaitsNothing(w.controller, e.h, e.reply, id);
    } else if e.Reported? {
      ReportAwaitsNothing(w.controller, e.h, id);
    } else if e.Settles? {
      EndedKeepsRecords(w.controller, e.h, e.evicted);
      SameRecordsAwaitNothing(w.controller, ApplyHandler(w, e), id);
    } else {
      ResumedKeepsRecords(w, e);
      SameRecordsAwaitNothing(w.controller, ApplyHandler(w, e), id);
    }
  }

  lemma HandlerKeepsLatest(w: World, e: HandlerEvent, id: Id)
    requires Owned(w.controller, id) && HandlerEnabled(w, e) && JudgesLatest(w, id) && Linked(ApplyHandler(w, e))
    ensures JudgesLatest(Step(w, InHandler(e)), id)
  {
    var c, r := w.controller, ApplyHandler(w, e);
    if e.VerdictArrives? || e.TimerFires? {
      if HandlerSubject(w, e) != id {
        HandlerLeavesSlice(w, e, id);
        SliceKeepsLatest(w, Step(w, InHandler(e)), id);
      } else {
        if e.VerdictArrives? {
          TakingKeepsLatest(c, id, e.message.verdict, w.env.latest);
        } else {
          FiringKeepsLatest(c, e.t, w.env.latest);
        }
        QuietStepKeepsLatest(w, Step(w, InHandler(e)), id);
      }
    } else {
      ResumedHandler(w, e);
      ResumedAwaitsNothing(w, e, id);
      MovedHandlerJudgesLatest(c, r, e.h, w.env.latest, id);
      QuietStepKeepsLatest(w, Step(w, InHandler(e)), id);
    }
  }

  lemma StepKeepsLatest(w: World, e: Event, id: Id)
    requires Owned(w.controller, id) && Enabled(w, e) && JudgesLatest(w, id) && WaitsForHandlers(w, e, id)
    requires Linked(Step(w, e).controller)
    ensures JudgesLatest(Step(w, e), id)
  {
    match e
    case Outside(move) => MoveKeepsLatest(w, move, id);
    case InCall(call) => CallKeepsLatest(w, call, id);
    case InHandler(handler) => HandlerKeepsLatest(w, handler, id);
  }

  /** A handler that takes an intent then takes its own. */
  lemma LatestIsOwn(w: World, h: nat)
    requires Linked(w.controller) && h < |w.controller.handlers| && JudgesLatest(w, w.controller.handlers[h].id)
    ensures RemovesOwnIntent(w, w.controller.handlers[h])
  {
  }

  // ---------------------------------------------------------------- every such run

  /** Every event is disciplined for every id, and imports land only after the id's handlers have ended. */
  ghost predicate OrderlyRun(w: World, events: seq<Event>)
    requires Valid(w, events)
    decreases |events|
  {
    events == []
    || (&& Linked(w.controller)
        && (forall id :: Disciplined(w, events[0], id) && WaitsForHandlers(w, events[0], id))
        && OrderlyRun(Step(w, events[0]), events[1..]))
  }

  /** At every restart the file has the intents that are still needed. */
  ghost predicate RestartsFindIntents(w: World, events: seq<Event>)
    requires Valid(w, events)
    decreases |events|
  {
    events == []
    || ((events[0].Outside? && events[0].move.RestartController? ==> FileHasIntents(w))
        && RestartsFindIntents(Step(w, events[0]), events[1..]))
  }

  ghost predicate AllOrderly(w: World) {
    && WellFormed(w.controller)
    && (forall id :: Owned(w.controller, id) && JudgesLatest(w, id))
  }

  lemma StepKeepsAllOrderly(w: World, e: Event)
    requires AllOrderly(w) && Enabled(w, e)
    requires forall id :: Disciplined(w, e, id) && WaitsForHandlers(w, e, id)
    ensures AllOrderly(Step(w, e))
  {
    forall id ensures Owned(Step(w, e).controller, id) && JudgesLatest(Step(w, e), id) {
      assert Disciplined(w, e, id) && WaitsForHandlers(w, e, id);
      StepKeepsOwned(w, e, id);
      StepKeepsLatest(w, e, id);
    }
    assert Owned(Step(w, e).controller, NO_ID);
  }

  lemma GuardOfOrderly(w: World, e: Event)
    requires AllOrderly(w) && Enabled(w, e)
    ensures Guarded(w, e) <==> (e.Outside? && e.move.RestartController? ==> FileHasIntents(w))
  {
    if e.InHandler? && e.handler.Settles? {
      assert JudgesLatest(w, w.controller.handlers[e.handler.h].id);
      LatestIsOwn(w, e.handler.h);
    }
  }

  lemma {:induction false} OrderlyIsGuarded(w: World, events: seq<Event>)
    requires AllOrderly(w) && Valid(w, events) && OrderlyRun(w, events)
    ensures GuardedRun(w, events) <==> RestartsFindIntents(w, events)
    decreases |events|
  {
    if events != [] {
      GuardOfOrderly(w, events[0]);
      StepKeepsAllOrderly(w, events[0]);
      OrderlyIsGuarded(Step(w, events[0]), events[1..]);
    }
  }

  /**
   In orderly runs the account of intents is kept in every state if and only if every restart finds in the file the
   intents that are still needed.
   */
  lemma OrderlyRunsLoseNothingElse(events: seq<Event>)
    requires Valid(INIT, events) && OrderlyRun(INIT, events)
    ensures AlwaysAccounted(INIT, events) <==> RestartsFindIntents(INIT, events)
  {
    OrderlyIsGuarded(INIT, events);
    IntentsAccountExactly(events);
  }
}
