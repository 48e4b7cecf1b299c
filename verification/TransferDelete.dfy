/**
 Delete authority: who may ask for a source to be deleted. Everything here holds in every reachable state,
 with handlers interleaved at every await and with no assumption on how verdicts, timeouts, retries, pruning
 and restarts are ordered.
 */
module TransferDelete {
  import opened Wrappers
  import opened TransferModel
  import opened TransferWorld

  // ---------------------------------------------------------------- the object graph

  lemma StepKeepsWellFormed(w: World, e: Event)
    requires WellFormed(w.controller) && Enabled(w, e)
    ensures WellFormed(Step(w, e).controller)
  {
  }

  // ---------------------------------------------------------------- delete authority

  predicate Authorises(taken: Taken, id: Id) {
    && taken.id == id && taken.found == Some(AwaitingValidation)
    && taken.verdict.success && taken.verdict.itemCountMatch && taken.verdict.fluidCountMatch
  }

  /** A success verdict with both counts matching was taken for the id while its record awaited validation. */
  ghost predicate DeleteAuthorised(env: Environment, id: Id) {
    exists i :: 0 <= i < |env.taken| && Authorises(env.taken[i], id)
  }

  ghost predicate MessagesHonest(env: Environment) {
    forall m :: m in env.messages && m.verdict.success ==>
      m.id in env.copies && m.verdict.itemCountMatch && m.verdict.fluidCountMatch
  }

  predicate ServesSuccess(handler: Handler) {
    || handler.deleteSent || handler.phase.Deleting? || handler.phase.Completing?
    || handler.phase.Storing? || handler.phase.Refusing?
  }

  predicate ServesFailure(handler: Handler) {
    handler.phase.Unlocking? || handler.phase.Reporting? || handler.phase.Persisting?
  }

  ghost predicate HandlerSound(env: Environment, handler: Handler) {
    && (ServesSuccess(handler) ==> handler.verdict.success)
    && (ServesFailure(handler) ==> !handler.verdict.success)
    && (handler.verdict.success ==> handler.id in env.copies && DeleteAuthorised(env, handler.id))
    && (handler.phase.Completing? || handler.phase.Storing? ==> handler.id in env.deleted)
    && (handler.phase == Reporting(false) || handler.phase == Persisting(false) ==>
          handler.id in env.unlocked || handler.id in env.deleted)
  }

  ghost predicate AllSound(env: Environment, handlers: seq<Handler>) {
    forall h :: 0 <= h < |handlers| ==> HandlerSound(env, handlers[h])
  }

  ghost predicate HandlersSound(w: World) {
    && MessagesHonest(w.env)
    && AllSound(w.env, w.controller.handlers)
    && (forall id :: id in w.env.deleted ==> id in w.env.copies && DeleteAuthorised(w.env, id))
  }

  ghost predicate Grows(env: Environment, env': Environment) {
    && env.copies <= env'.copies && env.deleted <= env'.deleted && env.unlocked <= env'.unlocked
    && env.taken <= env'.taken && env.resolved <= env'.resolved && env.now <= env'.now
  }

  lemma StepGrows(w: World, e: Event)
    requires Enabled(w, e)
    ensures Grows(w.env, Step(w, e).env)
  {
  }

  lemma GrowthKeepsHandler(env: Environment, env': Environment, handler: Handler)
    requires Grows(env, env') && HandlerSound(env, handler)
    ensures HandlerSound(env', handler)
  {
    GrowthKeepsAuthority(env, env', handler.id);
  }

  lemma GrowthKeepsAuthority(env: Environment, env': Environment, id: Id)
    requires Grows(env, env')
    ensures DeleteAuthorised(env, id) ==> DeleteAuthorised(env', id)
  {
    if DeleteAuthorised(env, id) {
      var i :| 0 <= i < |env.taken| && Authorises(env.taken[i], id);
      assert env'.taken[i] == env.taken[i];
    }
  }

  lemma CallKeepsHandlerList(c: Controller, now: int, e: CallEvent)
    requires CallEnabled(World(c, INIT.env.(now := now)), e)
    ensures ApplyCall(c, now, e).handlers == c.handlers
  {
  }

  lemma AnnouncingStaysSound(env: Environment, c: Controller, h: nat)
    requires AllSound(env, c.handlers) && Suspended(c, h) && c.handlers[h].phase.Announcing?
    ensures AllSound(env, FinishAnnouncing(c, h).handlers)
  {
    var handlers := FinishAnnouncing(c, h).handlers;
    assert HandlerSound(env, c.handlers[h]);
    assert HandlerSound(env, handlers[h]);
    assert handlers == c.handlers[h := handlers[h]];
  }

  lemma DeletingStaysSound(env: Environment, c: Controller, h: nat, reply: DeleteReply)
    requires AllSound(env, c.handlers) && Suspended(c, h) && c.handlers[h].phase.Deleting?
    requires reply.Deleted? ==> c.handlers[h].id in env.deleted
    ensures AllSound(env, ReceiveDeleteReply(c, h, reply).handlers)
  {
    assert HandlerSound(env, c.handlers[h]);
  }

  lemma CompletingStaysSound(env: Environment, c: Controller, h: nat)
    requires AllSound(env, c.handlers) && Suspended(c, h) && c.handlers[h].phase.Completing?
    ensures AllSound(env, FinishCompleting(c, h).handlers)
  {
    assert HandlerSound(env, c.handlers[h]);
  }

  lemma UnlockingStaysSound(env: Environment, c: Controller, h: nat, failed: bool)
    requires AllSound(env, c.handlers) && Suspended(c, h) && c.handlers[h].phase.Unlocking?
    requires !failed ==> c.handlers[h].id in env.unlocked || c.handlers[h].id in env.deleted
    ensures AllSound(env, ReceiveUnlockReply(c, h, failed).handlers)
  {
    assert HandlerSound(env, c.handlers[h]);
  }

  lemma ReportingStaysSound(env: Environment, c: Controller, h: nat)
    requires AllSound(env, c.handlers) && Suspended(c, h) && c.handlers[h].phase.Reporting?
    ensures AllSound(env, FinishReporting(c, h).handlers)
  {
    assert HandlerSound(env, c.handlers[h]);
  }

  lemma SettlingStaysSound(env: Environment, c: Controller, h: nat, evicted: set<Id>)
    requires AllSound(env, c.handlers) && Suspended(c, h)
    ensures AllSound(env, Settle(c, h, evicted).handlers)
  {
    assert HandlerSound(env, c.handlers[h]);
  }

  /** The handlers that were already there are unchanged or took one legal step. */
  lemma OldHandlersSound(w: World, e: HandlerEvent)
    requires HandlersSound(w) && HandlerEnabled(w, e)
    ensures |w.controller.handlers| <= |ApplyHandler(w, e).handlers|
    ensures AllSound(w.env, ApplyHandler(w, e).handlers[..|w.controller.handlers|])
  {
    match e
    case VerdictArrives(_) =>
    case TimerFires(_) =>
    case Announced(h) => AnnouncingStaysSound(w.env, w.controller, h);
    case DeleteReplies(h, reply) => DeletingStaysSound(w.env, w.controller, h, reply);
    case CompletionRecorded(h) => CompletingStaysSound(w.env, w.controller, h);
    case UnlockReplies(h, failed) => UnlockingStaysSound(w.env, w.controller, h, failed);
    case Reported(h) => ReportingStaysSound(w.env, w.controller, h);
    case Settles(h, evicted, _, _) => SettlingStaysSound(w.env, w.controller, h, evicted);
  }

  /** A handler started by a message has an honest verdict, and the log says what status it found. */
  lemma StartedByMessageSound(w: World, message: Message, attempt: nat, env': Environment)
    requires HandlersSound(w) && message in w.env.messages
    requires env' == w.env.(taken := w.env.taken + [Taken(message.id, Some(AwaitingValidation), message.verdict)])
    ensures HandlerSound(env', Handler(message.id, attempt, message.verdict, Announcing, false))
  {
    assert message.verdict.success ==> Authorises(env'.taken[|w.env.taken|], message.id);
  }

  lemma NewHandlerSound(w: World, e: HandlerEvent, h: nat)
    requires HandlersSound(w) && HandlerEnabled(w, e)
    requires |w.controller.handlers| <= h < |ApplyHandler(w, e).handlers|
    ensures HandlerSound(Step(w, InHandler(e)).env, ApplyHandler(w, e).handlers[h])
  {
    match e
    case VerdictArrives(message) =>
      StartedByMessageSound(w, message, ApplyHandler(w, e).handlers[h].attempt, Step(w, InHandler(e)).env);
    case TimerFires(_) => assert ApplyHandler(w, e).handlers[h].verdict == TIMEOUT_VERDICT;
    case _ => assert false;
  }

  lemma StepKeepsHandlersSound(w: World, e: Event)
    requires HandlersSound(w) && Enabled(w, e)
    ensures HandlersSound(Step(w, e))
  {
    var w' := Step(w, e);
    StepGrows(w, e);
    forall id | id in w.env.deleted ensures id in w'.env.copies && DeleteAuthorised(w'.env, id) {
      GrowthKeepsAuthority(w.env, w'.env, id);
    }
    match e
    case Outside(move) =>
      forall h | 0 <= h < |w.controller.handlers| ensures HandlerSound(w'.env, w.controller.handlers[h]) {
        GrowthKeepsHandler(w.env, w'.env, w.controller.handlers[h]);
      }
    case InCall(call) => CallKeepsHandlerList(w.controller, w.env.now, call);
    case InHandler(handler) =>
      OldHandlersSound(w, handler);
      forall h | 0 <= h < |w'.controller.handlers| ensures HandlerSound(w'.env, w'.controller.handlers[h]) {
        if h < |w.controller.handlers| {
          assert w'.controller.handlers[h] == w'.controller.handlers[..|w.controller.handlers|][h];
          GrowthKeepsHandler(w.env, w'.env, w'.controller.handlers[h]);
        } else {
          NewHandlerSound(w, handler, h);
        }
      }
  }

  // ---------------------------------------------------------------- every run

  lemma {:induction false} RunKeepsHandlersSound(w: World, events: seq<Event>)
    requires WellFormed(w.controller) && HandlersSound(w) && Valid(w, events)
    ensures WellFormed(Run(w, events).controller) && HandlersSound(Run(w, events))
    decreases |events|
  {
    if events != [] {
      StepKeepsWellFormed(w, events[0]);
      StepKeepsHandlersSound(w, events[0]);
      RunKeepsHandlersSound(Step(w, events[0]), events[1..]);
    }
  }

  /**
   Never both gone. In every reachable state a delete request was preceded by a success verdict, with both
   counts matching, that was taken while the record awaited validation; and a deleted source has such a copy.
   */
  lemma NeverBothGone(events: seq<Event>)
    requires Valid(INIT, events)
    ensures var w := Run(INIT, events);
            && (forall h :: 0 <= h < |w.controller.handlers| && w.controller.handlers[h].deleteSent ==>
                  DeleteAuthorised(w.env, w.controller.handlers[h].id))
            && (forall id :: id in w.env.deleted ==> id in w.env.copies && DeleteAuthorised(w.env, id))
  {
    RunKeepsHandlersSound(INIT, events);
    var w := Run(INIT, events);
    forall h | 0 <= h < |w.controller.handlers| && w.controller.handlers[h].deleteSent
      ensures DeleteAuthorised(w.env, w.controller.handlers[h].id)
    {
      assert HandlerSound(w.env, w.controller.handlers[h]);
    }
  }

  /** No event is ever blocked because an id names a record that does not exist. */
  lemma ReachableIsWellFormed(events: seq<Event>)
    requires Valid(INIT, events)
    ensures WellFormed(Run(INIT, events).controller)
  {
    RunKeepsHandlersSound(INIT, events);
  }
}
