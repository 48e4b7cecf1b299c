/**
 Unlock authority: who may ask for a source to be unlocked, and what a reply that allows it means. As for
 deletes, nothing is assumed about the order of events.
 */
module TransferUnlock {
  import opened Wrappers
  import opened TransferModel
  import opened TransferWorld

  // ---------------------------------------------------------------- what a call can still do

  /** The import of this call was accepted, or its fate is unknown because the session was lost. */
  predicate MayHaveLanded(call: Call) {
    call.outcome.Accepted? || call.outcome.SessionLost?
  }

  /** No import left the controller, or the import request is known to have failed. */
  predicate KnownNotLanded(call: Call) {
    call.outcome.NotSent? || call.outcome.Rejected? || call.outcome.Threw?
  }

  predicate PastSending(call: Call) {
    call.phase.RollingBack? || call.phase.UnlockingRefused? || call.phase.Returned? || call.phase.CallLost?
  }

  predicate CallSound(call: Call) {
    && (call.phase.Archiving? || call.phase.Recording? || call.phase.UnlockingRefused? ==> call.outcome.NotSent?)
    && (call.phase.Sending? ==> call.outcome.InFlight?)
    && (!call.outcome.NotSent? && !call.outcome.InFlight? ==> PastSending(call))
    && (call.phase.RollingBack? ==> call.outcome.Rejected? || call.outcome.Threw?)
    && (SaysSafe(call) ==> call.outcome.NotSent? && !call.phase.reply.success)
  }

  predicate SaysSafe(call: Call) {
    call.phase.Returned? && call.phase.reply.safeToUnlockSource
  }

  predicate CallEvolves(a: Call, b: Call) {
    && a.id == b.id && a.entry == b.entry && a.startedAt == b.startedAt
    && (PastSending(a) ==> PastSending(b) && a.outcome == b.outcome)
  }

  ghost predicate CallsEvolve(a: seq<Call>, b: seq<Call>) {
    && |a| <= |b|
    && (forall k :: 0 <= k < |a| ==> CallEvolves(a[k], b[k]))
    && AllCallsSound(b)
  }

  ghost predicate HandlersExtend(a: seq<Handler>, b: seq<Handler>) {
    && |a| <= |b|
    && (forall h :: 0 <= h < |a| ==> a[h].id == b[h].id && a[h].verdict == b[h].verdict)
  }

  ghost predicate UnlockSound(calls: seq<Call>, handlers: seq<Handler>, unlock: Unlock) {
    match unlock.origin
    case ByCall(k) =>
      k < |calls| && calls[k].id == unlock.id && PastSending(calls[k]) && KnownNotLanded(calls[k])
    case ByVerdict(h) =>
      h < |handlers| && handlers[h].id == unlock.id && !handlers[h].verdict.success
  }

  ghost predicate UnlocksSound(c: Controller) {
    && AllCallsSound(c.calls)
    && (forall u :: 0 <= u < |c.unlocks| ==> UnlockSound(c.calls, c.handlers, c.unlocks[u]))
  }

  // ---------------------------------------------------------------- every step keeps it

  ghost predicate AllCallsSound(calls: seq<Call>) {
    forall k :: 0 <= k < |calls| ==> CallSound(calls[k])
  }

  lemma NewCallEvolves(a: seq<Call>, b: seq<Call>)
    requires AllCallsSound(a) && |b| == |a| + 1 && b[..|a|] == a && CallSound(b[|a|])
    ensures CallsEvolve(a, b)
  {
    forall k | 0 <= k < |a| ensures a[k] == b[k] {
      assert b[k] == b[..|a|][k];
    }
  }

  lemma MovedCallEvolves(a: seq<Call>, k: nat, call: Call)
    requires AllCallsSound(a) && k < |a| && CallEvolves(a[k], call) && CallSound(call)
    ensures CallsEvolve(a, a[k := call])
  {
  }

  lemma CallEventEvolves(w: World, e: CallEvent)
    requires AllCallsSound(w.controller.calls) && CallEnabled(w, e)
    ensures CallsEvolve(w.controller.calls, ApplyCall(w.controller, w.env.now, e).calls)
  {
    var calls, calls' := w.controller.calls, ApplyCall(w.controller, w.env.now, e).calls;
    match e
    case CallTransfer(_, _, _, _) => NewCallEvolves(calls, calls');
    case FailBeforeTransfer(_, _, _) => NewCallEvolves(calls, calls');
    case Archived(k) => MovedCallEvolves(calls, k, calls'[k]);
    case Recorded(k) => MovedCallEvolves(calls, k, calls'[k]);
    case ImportReplies(k, _) => MovedCallEvolves(calls, k, calls'[k]);
    case CallUnlockReplies(k) => MovedCallEvolves(calls, k, calls'[k]);
    case InstanceUnlocks(_) =>
  }

  lemma CallEventHandlers(w: World, e: CallEvent)
    requires CallEnabled(w, e)
    ensures ApplyCall(w.controller, w.env.now, e).handlers == w.controller.handlers
  {
  }

  lemma CallEventUnlocks(w: World, e: CallEvent)
    requires UnlocksSound(w.controller) && CallEnabled(w, e)
    ensures var c' := ApplyCall(w.controller, w.env.now, e);
            && c'.handlers == w.controller.handlers
            && w.controller.unlocks <= c'.unlocks
            && forall u :: |w.controller.unlocks| <= u < |c'.unlocks| ==>
                 UnlockSound(c'.calls, c'.handlers, c'.unlocks[u])
  {
  }

  lemma MovedHandlerExtends(c: Controller, r: Controller, h: nat)
    requires h < |c.handlers| && OnlyHandlerMoves(c, r, h)
    ensures HandlersExtend(c.handlers, r.handlers) && r.calls == c.calls
  {
  }

  lemma HandlerEventExtends(w: World, e: HandlerEvent)
    requires HandlerEnabled(w, e)
    ensures HandlersExtend(w.controller.handlers, ApplyHandler(w, e).handlers)
    ensures ApplyHandler(w, e).calls == w.controller.calls
  {
    match e
    case VerdictArrives(_) =>
    case TimerFires(_) =>
    case Announced(h) => MovedHandlerExtends(w.controller, ApplyHandler(w, e), h);
    case DeleteReplies(h, _) => MovedHandlerExtends(w.controller, ApplyHandler(w, e), h);
    case CompletionRecorded(h) => MovedHandlerExtends(w.controller, ApplyHandler(w, e), h);
    case UnlockReplies(h, _) => MovedHandlerExtends(w.controller, ApplyHandler(w, e), h);
    case Reported(h) => MovedHandlerExtends(w.controller, ApplyHandler(w, e), h);
    case Settles(h, _, _, _) => MovedHandlerExtends(w.controller, ApplyHandler(w, e), h);
  }

  lemma HandlerEventUnlocks(w: World, e: HandlerEvent)
    requires UnlocksSound(w.controller) && HandlerEnabled(w, e)
    ensures var c' := ApplyHandler(w, e);
            && w.controller.unlocks <= c'.unlocks
            && forall u :: |w.controller.unlocks| <= u < |c'.unlocks| ==>
                 UnlockSound(c'.calls, c'.handlers, c'.unlocks[u])
  {
  }

  lemma RestartEvolves(c: Controller, stored: map<Id, StoredExport>, disk: map<Id, Intent>, now: int)
    requires AllCallsSound(c.calls)
    ensures CallsEvolve(c.calls, Restart(c, stored, disk, now).calls)
    ensures HandlersExtend(c.handlers, Restart(c, stored, disk, now).handlers)
    ensures Restart(c, stored, disk, now).unlocks == c.unlocks
  {
  }

  lemma MoveEvolves(w: World, move: Move)
    requires AllCallsSound(w.controller.calls) && MoveEnabled(w, move)
    ensures CallsEvolve(w.controller.calls, ApplyMove(w, move).controller.calls)
    ensures HandlersExtend(w.controller.handlers, ApplyMove(w, move).controller.handlers)
    ensures ApplyMove(w, move).controller.unlocks == w.controller.unlocks
  {
    if move.RestartController? {
      RestartEvolves(w.controller, move.stored, w.env.disk, w.env.now);
    }
  }

  /** Calls only move forward, and handlers keep the verdict they started with. */
  lemma StepEvolves(w: World, e: Event)
    requires AllCallsSound(w.controller.calls) && Enabled(w, e)
    ensures CallsEvolve(w.controller.calls, Step(w, e).controller.calls)
    ensures HandlersExtend(w.controller.handlers, Step(w, e).controller.handlers)
  {
    match e
    case Outside(move) => MoveEvolves(w, move);
    case InCall(call) => CallEventEvolves(w, call); CallEventHandlers(w, call);
    case InHandler(handler) => HandlerEventExtends(w, handler);
  }

  lemma EvolutionKeepsUnlock(
    calls: seq<Call>, calls': seq<Call>, handlers: seq<Handler>, handlers': seq<Handler>, unlock: Unlock)
    requires UnlockSound(calls, handlers, unlock)
    requires CallsEvolve(calls, calls') && HandlersExtend(handlers, handlers')
    ensures UnlockSound(calls', handlers', unlock)
  {
    match unlock.origin
    case ByCall(k) => assert CallEvolves(calls[k], calls'[k]);
    case ByVerdict(h) =>
  }

  lemma StepKeepsUnlocksSound(w: World, e: Event)
    requires UnlocksSound(w.controller) && Enabled(w, e)
    ensures UnlocksSound(Step(w, e).controller)
  {
    var c, c' := w.controller, Step(w, e).controller;
    StepEvolves(w, e);
    match e {
      case Outside(move) => MoveEvolves(w, move);
      case InCall(call) => CallEventUnlocks(w, call);
      case InHandler(handler) => HandlerEventUnlocks(w, handler);
    }
    forall u | 0 <= u < |c'.unlocks| ensures UnlockSound(c'.calls, c'.handlers, c'.unlocks[u]) {
      if u < |c.unlocks| {
        assert c'.unlocks[u] == c.unlocks[u];
        EvolutionKeepsUnlock(c.calls, c'.calls, c.handlers, c'.handlers, c.unlocks[u]);
      }
    }
  }

  // ---------------------------------------------------------------- every run

  lemma {:induction false} RunKeepsUnlocksSound(w: World, events: seq<Event>)
    requires UnlocksSound(w.controller) && Valid(w, events)
    ensures UnlocksSound(Run(w, events).controller)
    decreases |events|
  {
    if events != [] {
      StepKeepsUnlocksSound(w, events[0]);
      RunKeepsUnlocksSound(Step(w, events[0]), events[1..]);
    }
  }

  /**
   Unlock authority, on both entry paths. A reply that says the source may be unlocked belongs to a call that
   sent no import. A call whose import was accepted, or lost with its session, never unlocks by itself, and every
   unlock has a call that is known not to have landed, or a handler of a failure verdict, behind it. That call may
   be another one for the same source: TransferUnlockGuards says exactly when.
   */
  lemma UnlockAuthority(events: seq<Event>)
    requires Valid(INIT, events)
    ensures var c := Run(INIT, events).controller;
            && (forall k :: 0 <= k < |c.calls| && SaysSafe(c.calls[k]) ==>
                  c.calls[k].outcome.NotSent? && !c.calls[k].phase.reply.success)
            && (forall u, k :: 0 <= u < |c.unlocks| && 0 <= k < |c.calls| && MayHaveLanded(c.calls[k]) ==>
                  c.unlocks[u].origin != ByCall(k))
            && (forall u :: 0 <= u < |c.unlocks| ==> UnlockSound(c.calls, c.handlers, c.unlocks[u]))
  {
    RunKeepsUnlocksSound(INIT, events);
    var c := Run(INIT, events).controller;
    forall k | 0 <= k < |c.calls| ensures CallSound(c.calls[k]) {}
  }
}
