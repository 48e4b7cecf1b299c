/**
 Pending intents account for sources: an import that may have landed leaves an intent behind until its own
 handler is told that the source is resolved, or it is too old, or a later import for the same id takes its
 place. The code keeps this exactly as long as two guards hold that it does not test.
 */
module TransferIntents {
  import opened Wrappers
  import opened TransferModel
  import opened TransferWorld
  import opened TransferDelete
  import opened TransferUnlock

  // ---------------------------------------------------------------- what intents are

  ghost predicate IntentSound(calls: seq<Call>, id: Id, intent: Intent) {
    && intent.call < |calls|
    && calls[intent.call].id == id && calls[intent.call].startedAt == intent.startedAt
    && MayHaveLanded(calls[intent.call])
  }

  ghost predicate IntentsSound(calls: seq<Call>, intents: map<Id, Intent>) {
    forall id :: id in intents ==> IntentSound(calls, id, intents[id])
  }

  ghost predicate WritesSound(calls: seq<Call>, writes: seq<map<Id, Intent>>) {
    forall i :: 0 <= i < |writes| ==> IntentsSound(calls, writes[i])
  }

  ghost predicate AllIntentsSound(w: World) {
    && IntentsSound(w.controller.calls, w.controller.pendingTransfers)
    && IntentsSound(w.controller.calls, w.env.disk)
    && WritesSound(w.controller.calls, w.controller.writes)
  }

  // ---------------------------------------------------------------- accounting for one attempt

  predicate IsAged(call: Call, now: int) {
    now - call.startedAt > PENDING_TRANSFER_INTENT_RETENTION_MS
  }

  /** The attempt needs no intent: its handler was told that the source is resolved, or it is too old. */
  ghost predicate Settled(w: World, k: nat) {
    k in w.env.resolved || (k < |w.controller.calls| && IsAged(w.controller.calls[k], w.env.now))
  }

  predicate HoldsIntent(intents: map<Id, Intent>, id: Id, k: nat) {
    id in intents && intents[id].call == k
  }

  ghost predicate Accounted(w: World, id: Id)
    requires id in w.env.latest
  {
    HoldsIntent(w.controller.pendingTransfers, id, w.env.latest[id]) || Settled(w, w.env.latest[id])
  }

  ghost predicate AllAccounted(w: World) {
    forall id :: id in w.env.latest ==> Accounted(w, id)
  }

  /** The history agrees with the calls: it names, for each id with a landed import, the last of them. */
  ghost predicate LatestSound(calls: seq<Call>, latest: map<Id, nat>) {
    && (forall id :: id in latest ==>
          latest[id] < |calls| && calls[latest[id]].id == id && MayHaveLanded(calls[latest[id]]))
    && (forall k :: 0 <= k < |calls| && MayHaveLanded(calls[k]) ==> calls[k].id in latest)
  }

  /** A resolved attempt had its source deleted or unlocked. */
  ghost predicate ResolvedSound(w: World) {
    forall k :: k in w.env.resolved ==> ResolvedSource(w, k)
  }

  ghost predicate ResolvedSource(w: World, k: nat) {
    && k < |w.controller.calls|
    && (w.controller.calls[k].id in w.env.deleted || w.controller.calls[k].id in w.env.unlocked)
  }

  /** The handler was told that its source is resolved, and will remove an intent when it ends. */
  predicate TakesIntent(handler: Handler) {
    handler.phase.Storing? || handler.phase == Persisting(false)
  }

  predicate WasTold(handler: Handler) {
    handler.phase.Completing? || TakesIntent(handler) || handler.phase == Reporting(false)
  }

  ghost predicate ToldSound(handlers: seq<Handler>, resolved: set<nat>) {
    forall h :: 0 <= h < |handlers| && WasTold(handlers[h]) ==> handlers[h].attempt in resolved
  }

  ghost predicate Inv(w: World) {
    && WellFormed(w.controller) && HandlersSound(w) && UnlocksSound(w.controller)
    && AllIntentsSound(w) && LatestSound(w.controller.calls, w.env.latest)
    && ResolvedSound(w) && ToldSound(w.controller.handlers, w.env.resolved)
  }

  // ---------------------------------------------------------------- what changes the intents

  lemma EvolutionKeepsIntents(calls: seq<Call>, calls': seq<Call>, intents: map<Id, Intent>)
    requires CallsEvolve(calls, calls') && AllCallsSound(calls) && IntentsSound(calls, intents)
    ensures IntentsSound(calls', intents)
  {
    forall id | id in intents ensures IntentSound(calls', id, intents[id]) {
      assert CallEvolves(calls[intents[id].call], calls'[intents[id].call]);
      assert CallSound(calls[intents[id].call]);
    }
  }

  lemma EvolutionKeepsWrites(calls: seq<Call>, calls': seq<Call>, writes: seq<map<Id, Intent>>)
    requires CallsEvolve(calls, calls') && AllCallsSound(calls) && WritesSound(calls, writes)
    ensures WritesSound(calls', writes)
  {
    forall i | 0 <= i < |writes| ensures IntentsSound(calls', writes[i]) {
      EvolutionKeepsIntents(calls, calls', writes[i]);
    }
  }

  lemma EvolutionKeepsLatest(calls: seq<Call>, calls': seq<Call>, latest: map<Id, nat>)
    requires CallsEvolve(calls, calls') && AllCallsSound(calls) && LatestSound(calls, latest)
    ensures forall id :: id in latest ==>
              latest[id] < |calls'| && calls'[latest[id]].id == id && MayHaveLanded(calls'[latest[id]])
  {
    forall id | id in latest
      ensures latest[id] < |calls'| && calls'[latest[id]].id == id && MayHaveLanded(calls'[latest[id]])
    {
      assert CallEvolves(calls[latest[id]], calls'[latest[id]]);
      assert CallSound(calls[latest[id]]);
    }
  }

  /** An intent that pruning drops belongs to an attempt that is too old. */
  lemma PrunedIsAged(w: World, intents: map<Id, Intent>, id: Id)
    requires IntentsSound(w.controller.calls, intents) && id in intents && id !in PruneIntents(intents, w.env.now)
    ensures Settled(w, intents[id].call)
  {
    assert IsAged(w.controller.calls[intents[id].call], w.env.now);
  }

  lemma CallEventIntents(w: World, e: CallEvent)
    requires CallEnabled(w, e)
    ensures var c, c' := w.controller, ApplyCall(w.controller, w.env.now, e);
            if Lands(e) then
              && c'.pendingTransfers ==
                 PruneIntents(c.pendingTransfers, w.env.now)[c.calls[e.k].id := Intent(e.k, c.calls[e.k].startedAt)]
              && c'.writes == c.writes + [c'.pendingTransfers]
            else c'.pendingTransfers == c.pendingTransfers && c'.writes == c.writes
  {
  }

  lemma HandlerEventIntents(w: World, e: HandlerEvent)
    requires HandlerEnabled(w, e)
    ensures var c, c' := w.controller, ApplyHandler(w, e);
            if e.Settles? && TakesIntent(c.handlers[e.h]) && c.handlers[e.h].id in c.pendingTransfers then
              && c'.pendingTransfers == c.pendingTransfers - {c.handlers[e.h].id}
              && c'.writes == c.writes + [c'.pendingTransfers]
            else c'.pendingTransfers == c.pendingTransfers && c'.writes == c.writes
  {
  }

  // ---------------------------------------------------------------- every step keeps the invariant

  /** Recording the intent of call k keeps intents and writes sound. */
  lemma RecordingKeepsSound(calls: seq<Call>, intents: map<Id, Intent>, now: int, k: nat, writes: seq<map<Id, Intent>>)
    requires IntentsSound(calls, intents) && WritesSound(calls, writes)
    requires k < |calls| && MayHaveLanded(calls[k])
    ensures var recorded := PruneIntents(intents, now)[calls[k].id := Intent(k, calls[k].startedAt)];
            IntentsSound(calls, recorded) && WritesSound(calls, writes + [recorded])
  {
    var recorded := PruneIntents(intents, now)[calls[k].id := Intent(k, calls[k].startedAt)];
    forall id | id in recorded ensures IntentSound(calls, id, recorded[id]) {
      assert id != calls[k].id ==> id in intents && recorded[id] == intents[id];
    }
  }

  /** The intents that evolving calls leave sound. */
  lemma EvolutionKeepsAll(w: World, calls': seq<Call>)
    requires AllIntentsSound(w) && AllCallsSound(w.controller.calls) && CallsEvolve(w.controller.calls, calls')
    ensures IntentsSound(calls', w.controller.pendingTransfers) && IntentsSound(calls', w.env.disk)
    ensures WritesSound(calls', w.controller.writes)
  {
    EvolutionKeepsIntents(w.controller.calls, calls', w.controller.pendingTransfers);
    EvolutionKeepsIntents(w.controller.calls, calls', w.env.disk);
    EvolutionKeepsWrites(w.controller.calls, calls', w.controller.writes);
  }

  lemma MoveKeepsIntentsSound(w: World, move: Move)
    requires Inv(w) && MoveEnabled(w, move) && CallsEvolve(w.controller.calls, ApplyMove(w, move).controller.calls)
    ensures AllIntentsSound(ApplyMove(w, move))
  {
    var calls' := ApplyMove(w, move).controller.calls;
    EvolutionKeepsAll(w, calls');
    if move.WriteIntents? { assert IntentsSound(calls', w.controller.writes[0]); }
  }

  lemma LandedCall(w: World, e: CallEvent)
    requires CallEnabled(w, e) && Lands(e)
    ensures var calls, calls' := w.controller.calls, ApplyCall(w.controller, w.env.now, e).calls;
            && |calls'| == |calls| && MayHaveLanded(calls'[e.k])
            && calls'[e.k].id == calls[e.k].id && calls'[e.k].startedAt == calls[e.k].startedAt
  {
  }

  lemma LandingKeepsSound(w: World, w': World, k: nat)
    requires AllIntentsSound(w) && AllCallsSound(w.controller.calls)
    requires CallsEvolve(w.controller.calls, w'.controller.calls)
    requires k < |w'.controller.calls| && MayHaveLanded(w'.controller.calls[k]) && w'.env.disk == w.env.disk
    requires w'.controller.pendingTransfers ==
             PruneIntents(w.controller.pendingTransfers, w.env.now)
               [w'.controller.calls[k].id := Intent(k, w'.controller.calls[k].startedAt)]
    requires w'.controller.writes == w.controller.writes + [w'.controller.pendingTransfers]
    ensures AllIntentsSound(w')
  {
    EvolutionKeepsAll(w, w'.controller.calls);
    RecordingKeepsSound(w'.controller.calls, w.controller.pendingTransfers, w.env.now, k, w.controller.writes);
  }

  lemma SameIntentsKeepSound(w: World, w': World)
    requires AllIntentsSound(w) && AllCallsSound(w.controller.calls)
    requires CallsEvolve(w.controller.calls, w'.controller.calls)
    requires SameIntents(w.controller, w'.controller) && w'.env.disk == w.env.disk
    ensures AllIntentsSound(w')
  {
    EvolutionKeepsAll(w, w'.controller.calls);
  }

  lemma CallKeepsIntentsSound(w: World, e: CallEvent)
    requires Inv(w) && CallEnabled(w, e)
    requires CallsEvolve(w.controller.calls, ApplyCall(w.controller, w.env.now, e).calls)
    ensures AllIntentsSound(Step(w, InCall(e)))
  {
    CallEventIntents(w, e);
    if Lands(e) {
      LandedCall(w, e);
      LandingKeepsSound(w, Step(w, InCall(e)), e.k);
    } else {
      SameIntentsKeepSound(w, Step(w, InCall(e)));
    }
  }

  lemma RemovalKeepsSound(w: World, w': World, id: Id)
    requires AllIntentsSound(w) && w'.controller.calls == w.controller.calls && w'.env.disk == w.env.disk
    requires w'.controller.pendingTransfers == w.controller.pendingTransfers - {id}
    requires w'.controller.writes == w.controller.writes + [w'.controller.pendingTransfers]
    ensures AllIntentsSound(w')
  {
  }

  lemma HandlerLeavesIntents(w: World, w': World)
    requires AllIntentsSound(w) && w'.controller.calls == w.controller.calls && w'.env.disk == w.env.disk
    requires SameIntents(w.controller, w'.controller)
    ensures AllIntentsSound(w')
  {
  }

  lemma HandlerKeepsIntentsSound(w: World, e: HandlerEvent)
    requires Inv(w) && HandlerEnabled(w, e)
    ensures AllIntentsSound(Step(w, InHandler(e)))
  {
    HandlerEventExtends(w, e);
    HandlerEventIntents(w, e);
    if ApplyHandler(w, e).pendingTransfers != w.controller.pendingTransfers {
      RemovalKeepsSound(w, Step(w, InHandler(e)), w.controller.handlers[e.h].id);
    } else {
      HandlerLeavesIntents(w, Step(w, InHandler(e)));
    }
  }

  lemma StepKeepsIntentsSound(w: World, e: Event)
    requires Inv(w) && Enabled(w, e)
    ensures AllIntentsSound(Step(w, e))
  {
    StepEvolves(w, e);
    match e
    case Outside(move) => MoveKeepsIntentsSound(w, move);
    case InCall(call) => CallKeepsIntentsSound(w, call);
    case InHandler(handler) => HandlerKeepsIntentsSound(w, handler);
  }

  lemma NewCallLandsNothing(c: Controller, c': Controller, k: nat)
    requires OneNewCall(c, c') && k < |c'.calls|
    ensures (k < |c.calls| && c'.calls[k].outcome == c.calls[k].outcome) || !MayHaveLanded(c'.calls[k])
  {
    if k < |c.calls| {
      assert c'.calls[k] == c'.calls[..|c.calls|][k];
    }
  }

  lemma StartsLandNothing(w: World, e: CallEvent, k: nat)
    requires CallEnabled(w, e) && (e.CallTransfer? || e.FailBeforeTransfer?)
    requires k < |ApplyCall(w.controller, w.env.now, e).calls|
    ensures var calls, call := w.controller.calls, ApplyCall(w.controller, w.env.now, e).calls[k];
            (k < |calls| && call.outcome == calls[k].outcome) || !MayHaveLanded(call)
  {
    NewCallLandsNothing(w.controller, ApplyCall(w.controller, w.env.now, e), k);
  }

  lemma OnlyRepliesLand(w: World, e: CallEvent, k: nat)
    requires CallEnabled(w, e) && k < |ApplyCall(w.controller, w.env.now, e).calls|
    ensures var calls, call := w.controller.calls, ApplyCall(w.controller, w.env.now, e).calls[k];
            || (k < |calls| && call.outcome == calls[k].outcome)
            || !MayHaveLanded(call)
            || (e.ImportReplies? && e.k == k && MayHaveLanded(call) && call.outcome == e.outcome)
  {
    if e.CallTransfer? || e.FailBeforeTransfer? { StartsLandNothing(w, e, k); }
  }

  /** Neither the environment nor a verdict handler changes what became of an import request. */
  lemma OthersLandNothing(w: World, e: Event, k: nat)
    requires Enabled(w, e) && !e.InCall? && k < |Step(w, e).controller.calls|
    ensures k < |w.controller.calls| && Step(w, e).controller.calls[k].outcome == w.controller.calls[k].outcome
  {
    if e.InHandler? {
      HandlerEventExtends(w, e.handler);
    }
  }

  /** An import starts to count as possibly landed when it becomes the latest of its id and leaves its intent. */
  lemma NewlyLandedHasIntent(w: World, e: Event, k: nat)
    requires Enabled(w, e) && k < |Step(w, e).controller.calls|
    requires MayHaveLanded(Step(w, e).controller.calls[k])
    requires k >= |w.controller.calls| || !MayHaveLanded(w.controller.calls[k])
    ensures e.InCall? && Lands(e.call) && e.call.k == k
    ensures var w' := Step(w, e);
            var id := w'.controller.calls[k].id;
            && id in w'.env.latest && w'.env.latest[id] == k && HoldsIntent(w'.controller.pendingTransfers, id, k)
  {
    if !e.InCall? {
      OthersLandNothing(w, e, k);
      assert false;
    }
    OnlyRepliesLand(w, e.call, k);
    CallEventIntents(w, e.call);
  }

  lemma StepKeepsLatestSound(w: World, e: Event)
    requires Inv(w) && Enabled(w, e)
    ensures LatestSound(Step(w, e).controller.calls, Step(w, e).env.latest)
  {
    var w' := Step(w, e);
    StepEvolves(w, e);
    EvolutionKeepsLatest(w.controller.calls, w'.controller.calls, w.env.latest);
    forall k | 0 <= k < |w'.controller.calls| && MayHaveLanded(w'.controller.calls[k])
      ensures w'.controller.calls[k].id in w'.env.latest
    {
      if k < |w.controller.calls| && MayHaveLanded(w.controller.calls[k]) {
        assert CallEvolves(w.controller.calls[k], w'.controller.calls[k]);
      } else {
        NewlyLandedHasIntent(w, e, k);
      }
    }
  }

  lemma StepKeepsResolvedSound(w: World, e: Event)
    requires Inv(w) && Enabled(w, e)
    ensures ResolvedSound(Step(w, e))
  {
    var w' := Step(w, e);
    StepEvolves(w, e);
    StepGrows(w, e);
    forall k | k in w'.env.resolved ensures ResolvedSource(w', k) {
      if k in w.env.resolved {
        assert CallEvolves(w.controller.calls[k], w'.controller.calls[k]);
      }
    }
  }

  lemma ToldAfterMove(handlers: seq<Handler>, h: nat, moved: Handler, resolved: set<nat>, resolved': set<nat>)
    requires ToldSound(handlers, resolved) && h < |handlers| && resolved <= resolved'
    requires WasTold(moved) ==> moved.attempt in resolved'
    ensures ToldSound(handlers[h := moved], resolved')
  {
  }

  /** Of the suspended handlers only one went on; it was told now, or it had been told before. */
  ghost predicate ToldOnwards(c: Controller, r: Controller, h: nat, tells: bool) {
    && h < |c.handlers| && OnlyHandlerMoves(c, r, h)
    && (WasTold(r.handlers[h]) ==> WasTold(c.handlers[h]) || tells)
  }

  lemma AnsweredHandler(w: World, e: HandlerEvent)
    requires HandlerEnabled(w, e) && (e.DeleteReplies? || e.UnlockReplies? || e.Reported?)
    ensures ToldOnwards(w.controller, ApplyHandler(w, e), e.h, Resolves(e))
  {
    var c := w.controller;
    match e
    case DeleteReplies(h, reply) => assert ToldOnwards(c, ReceiveDeleteReply(c, h, reply), h, reply.Deleted?);
    case UnlockReplies(h, failed) => assert ToldOnwards(c, ReceiveUnlockReply(c, h, failed), h, !failed);
    case Reported(h) => assert ToldOnwards(c, FinishReporting(c, h), h, false);
  }

  lemma ResumedHandler(w: World, e: HandlerEvent)
    requires HandlerEnabled(w, e) && !e.VerdictArrives? && !e.TimerFires?
    ensures ToldOnwards(w.controller, ApplyHandler(w, e), e.h, Resolves(e))
  {
    var c := w.controller;
    match e
    case Announced(h) => assert ToldOnwards(c, FinishAnnouncing(c, h), h, false);
    case CompletionRecorded(h) => assert ToldOnwards(c, FinishCompleting(c, h), h, false);
    case Settles(h, evicted, _, _) => assert ToldOnwards(c, Settle(c, h, evicted), h, false);
    case _ => AnsweredHandler(w, e);
  }

  lemma HandlerKeepsToldSound(w: World, e: HandlerEvent)
    requires ToldSound(w.controller.handlers, w.env.resolved) && HandlerEnabled(w, e)
    ensures ToldSound(ApplyHandler(w, e).handlers, w.env.resolved + ResolvedBy(w, e))
  {
    if !e.VerdictArrives? && !e.TimerFires? {
      ResumedHandler(w, e);
      ToldAfterMove(w.controller.handlers, e.h, ApplyHandler(w, e).handlers[e.h],
                    w.env.resolved, w.env.resolved + ResolvedBy(w, e));
    }
  }

  lemma MoveKeepsToldSound(w: World, move: Move)
    requires ToldSound(w.controller.handlers, w.env.resolved) && MoveEnabled(w, move)
    ensures ToldSound(ApplyMove(w, move).controller.handlers, w.env.resolved)
  {
    if move.RestartController? {
      var handlers := Restart(w.controller, move.stored, w.env.disk, w.env.now).handlers;
      assert forall h :: 0 <= h < |handlers| ==> handlers[h].phase == Finished;
    }
  }

  lemma StepKeepsToldSound(w: World, e: Event)
    requires Inv(w) && Enabled(w, e)
    ensures ToldSound(Step(w, e).controller.handlers, Step(w, e).env.resolved)
  {
    match e
    case Outside(move) => MoveKeepsToldSound(w, move);
    case InCall(call) => CallEventHandlers(w, call);
    case InHandler(handler) => HandlerKeepsToldSound(w, handler);
  }

  lemma StepKeepsInv(w: World, e: Event)
    requires Inv(w) && Enabled(w, e)
    ensures Inv(Step(w, e))
  {
    StepKeepsWellFormed(w, e);
    StepKeepsHandlersSound(w, e);
    StepKeepsUnlocksSound(w, e);
    StepKeepsIntentsSound(w, e);
    StepKeepsLatestSound(w, e);
    StepKeepsResolvedSound(w, e);
    StepKeepsToldSound(w, e);
  }

  lemma {:induction false} RunKeepsInv(w: World, events: seq<Event>)
    requires Inv(w) && Valid(w, events)
    ensures Inv(Run(w, events))
    decreases |events|
  {
    if events != [] {
      StepKeepsInv(w, events[0]);
      RunKeepsInv(Step(w, events[0]), events[1..]);
    }
  }

  // ---------------------------------------------------------------- the two guards the code does not test

  /** The intent that a handler is about to remove is its own, or that of an attempt which needs none. */
  ghost predicate RemovesOwnIntent(w: World, handler: Handler) {
    && TakesIntent(handler) && handler.id in w.env.latest
    && HoldsIntent(w.controller.pendingTransfers, handler.id, w.env.latest[handler.id]) ==>
      w.env.latest[handler.id] == handler.attempt || Settled(w, w.env.latest[handler.id])
  }

  /** Every intent in memory is in the file, or belongs to an attempt that needs none. */
  ghost predicate FileHasIntents(w: World) {
    forall id :: id in w.env.latest && HoldsIntent(w.controller.pendingTransfers, id, w.env.latest[id]) ==>
      HoldsIntent(w.env.disk, id, w.env.latest[id]) || Settled(w, w.env.latest[id])
  }

  ghost predicate Guarded(w: World, e: Event)
    requires Enabled(w, e)
  {
    match e
    case Outside(RestartController(_)) => FileHasIntents(w)
    case InHandler(Settles(h, _, _, _)) => RemovesOwnIntent(w, w.controller.handlers[h])
    case _ => true
  }

  lemma SettledStays(w: World, e: Event, k: nat)
    requires Inv(w) && Enabled(w, e) && Settled(w, k)
    ensures Settled(Step(w, e), k)
  {
    StepEvolves(w, e);
    StepGrows(w, e);
    if k < |w.controller.calls| {
      assert CallEvolves(w.controller.calls[k], Step(w, e).controller.calls[k]);
    }
  }

  /** Landing accounts for its own id, and what pruning drops beside it was too old. */
  lemma CallKeepsAccounted(w: World, e: CallEvent)
    requires Inv(w) && AllAccounted(w) && CallEnabled(w, e)
    ensures AllAccounted(Step(w, InCall(e)))
  {
    var w' := Step(w, InCall(e));
    CallEventIntents(w, e);
    forall id | id in w'.env.latest ensures Accounted(w', id) {
      if id in w.env.latest && w.env.latest[id] == w'.env.latest[id] {
        if Settled(w, w.env.latest[id]) {
          SettledStays(w, InCall(e), w.env.latest[id]);
        } else if Lands(e) && id !in PruneIntents(w.controller.pendingTransfers, w.env.now) {
          PrunedIsAged(w, w.controller.pendingTransfers, id);
        }
      }
    }
  }

  lemma MoveKeepsAccounted(w: World, move: Move)
    requires Inv(w) && AllAccounted(w) && MoveEnabled(w, move) && !move.RestartController?
    ensures AllAccounted(ApplyMove(w, move))
  {
    forall id | id in w.env.latest ensures Accounted(ApplyMove(w, move), id) {
      if Settled(w, w.env.latest[id]) { SettledStays(w, Outside(move), w.env.latest[id]); }
    }
  }

  lemma RestartSettles(w: World, stored: map<Id, StoredExport>, k: nat)
    ensures Settled(ApplyMove(w, RestartController(stored)), k) <==> Settled(w, k)
  {
  }

  /** A restart keeps the account exactly if the file has every intent that is still needed. */
  lemma RestartIsExact(w: World, stored: map<Id, StoredExport>)
    requires Inv(w) && AllAccounted(w)
    ensures AllAccounted(ApplyMove(w, RestartController(stored))) <==> FileHasIntents(w)
  {
    var w' := ApplyMove(w, RestartController(stored));
    forall id | id in w.env.latest
      ensures Accounted(w', id) <==> HoldsIntent(w.env.disk, id, w.env.latest[id]) || Settled(w, w.env.latest[id])
    {
      RestartSettles(w, stored, w.env.latest[id]);
      if id in w.env.disk && id !in w'.controller.pendingTransfers {
        PrunedIsAged(w, w.env.disk, id);
      }
    }
  }

  lemma HandlerKeepsAccounted(w: World, e: HandlerEvent)
    requires Inv(w) && AllAccounted(w) && HandlerEnabled(w, e) && !e.Settles?
    ensures AllAccounted(Step(w, InHandler(e)))
  {
    HandlerEventIntents(w, e);
    forall id | id in w.env.latest ensures Accounted(Step(w, InHandler(e)), id) {
      if Settled(w, w.env.latest[id]) { SettledStays(w, InHandler(e), w.env.latest[id]); }
    }
  }

  lemma EndingSettles(w: World, e: HandlerEvent, k: nat)
    requires HandlerEnabled(w, e) && e.Settles?
    ensures Settled(Step(w, InHandler(e)), k) <==> Settled(w, k)
  {
    HandlerEventExtends(w, e);
  }

  lemma EndingHolds(w: World, e: HandlerEvent, id: Id, k: nat)
    requires HandlerEnabled(w, e) && e.Settles?
    ensures var handler := w.controller.handlers[e.h];
            HoldsIntent(ApplyHandler(w, e).pendingTransfers, id, k) <==>
              HoldsIntent(w.controller.pendingTransfers, id, k) && !(TakesIntent(handler) && id == handler.id)
  {
    HandlerEventIntents(w, e);
  }

  lemma EndingAccount(w: World, e: HandlerEvent, id: Id)
    requires Inv(w) && HandlerEnabled(w, e) && e.Settles? && id in w.env.latest
    ensures var handler := w.controller.handlers[e.h];
            Accounted(Step(w, InHandler(e)), id) <==>
              || Settled(w, w.env.latest[id])
              || (HoldsIntent(w.controller.pendingTransfers, id, w.env.latest[id])
                  && !(TakesIntent(handler) && id == handler.id))
  {
    EndingHolds(w, e, id, w.env.latest[id]);
    EndingSettles(w, e, w.env.latest[id]);
  }

  /** The end of a handler keeps the account exactly if the intent it removes is no longer needed or is its own. */
  lemma EndingIsExact(w: World, e: HandlerEvent)
    requires Inv(w) && AllAccounted(w) && HandlerEnabled(w, e) && e.Settles?
    ensures AllAccounted(Step(w, InHandler(e))) <==> RemovesOwnIntent(w, w.controller.handlers[e.h])
  {
    var w', handler := Step(w, InHandler(e)), w.controller.handlers[e.h];
    assert TakesIntent(handler) ==> handler.attempt in w.env.resolved;
    forall id | id in w.env.latest
      ensures Accounted(w', id) <==>
              || Settled(w, w.env.latest[id])
              || (HoldsIntent(w.controller.pendingTransfers, id, w.env.latest[id])
                  && !(TakesIntent(handler) && id == handler.id))
    {
      EndingAccount(w, e, id);
    }
    assert w'.env.latest == w.env.latest;
  }

  lemma StepIsExact(w: World, e: Event)
    requires Inv(w) && AllAccounted(w) && Enabled(w, e)
    ensures AllAccounted(Step(w, e)) <==> Guarded(w, e)
  {
    match e
    case Outside(move) =>
      if move.RestartController? { RestartIsExact(w, move.stored); } else { MoveKeepsAccounted(w, move); }
    case InCall(call) => CallKeepsAccounted(w, call);
    case InHandler(handler) =>
      if handler.Settles? { EndingIsExact(w, handler); } else { HandlerKeepsAccounted(w, handler); }
  }

  // ---------------------------------------------------------------- every run

  /** The account is kept in every state of the run. */
  ghost predicate AlwaysAccounted(w: World, events: seq<Event>)
    requires Valid(w, events)
    decreases |events|
  {
    AllAccounted(w) && (events == [] || AlwaysAccounted(Step(w, events[0]), events[1..]))
  }

  /** Both guards hold whenever they are due. */
  ghost predicate GuardedRun(w: World, events: seq<Event>)
    requires Valid(w, events)
    decreases |events|
  {
    events == [] || (Guarded(w, events[0]) && GuardedRun(Step(w, events[0]), events[1..]))
  }

  lemma {:induction false} RunIsExact(w: World, events: seq<Event>)
    requires Inv(w) && AllAccounted(w) && Valid(w, events)
    ensures AlwaysAccounted(w, events) <==> GuardedRun(w, events)
    decreases |events|
  {
    if events != [] {
      StepKeepsInv(w, events[0]);
      StepIsExact(w, events[0]);
      if Guarded(w, events[0]) { RunIsExact(Step(w, events[0]), events[1..]); }
    }
  }

  /**
   Pending intents account for sources, exactly under two guards. In every state of a run the last import of
   every id that may have landed has its own intent, or was resolved by its own handler, or is too old,
   if and only if every handler that removes an intent removes its own, or one that is no longer needed,
   and every restart finds in the file the intents that are still needed.
   */
  lemma IntentsAccountExactly(events: seq<Event>)
    requires Valid(INIT, events)
    ensures AlwaysAccounted(INIT, events) <==> GuardedRun(INIT, events)
  {
    RunIsExact(INIT, events);
  }

  /**
   The account of one attempt, in every reachable state: an import that may have landed is the latest of its id
   or a later one for the same id has landed, and a resolved attempt's source was deleted or unlocked.
   */
  lemma AttemptsAreNamed(events: seq<Event>, k: nat)
    requires Valid(INIT, events) && k < |Run(INIT, events).controller.calls|
    ensures var w := Run(INIT, events);
            && (MayHaveLanded(w.controller.calls[k]) ==> w.controller.calls[k].id in w.env.latest)
            && (k in w.env.resolved ==> ResolvedSource(w, k))
  {
    RunKeepsInv(INIT, events);
  }
}
