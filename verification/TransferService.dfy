/**
 The orchestrator in its environment. Everything it is resumed with is one event of the world, so the main
 theorems about runs are postconditions here: deletes, unlocks, one owner for each record, copies that block
 another import, and the account of intents.
 */
module TransferService {
  import opened Wrappers
  import opened TransferModel
  import opened TransferWorld
  import opened TransferDelete
  import opened TransferUnlock
  import opened TransferRetry
  import opened TransferCopies
  import opened TransferIntents
  import opened TransferIntentGuards
  import opened TransferUnlockGuards
  import opened TransferOutcomes
  import opened TransferAnswers
  import opened TransferWatch
  import T = TransferOrchestrator

  // ---------------------------------------------------------------- what every run promises

  /** Deletes are asked for, and sources deleted, only with an authorising verdict and a copy. */
  ghost predicate DeletesAuthorised(w: World) {
    && (forall h :: 0 <= h < |w.controller.handlers| && w.controller.handlers[h].deleteSent ==>
          DeleteAuthorised(w.env, w.controller.handlers[h].id))
    && (forall id :: id in w.env.deleted ==> id in w.env.copies && DeleteAuthorised(w.env, id))
  }

  /** No unlock is asked for by a call whose import may have landed. */
  ghost predicate UnlocksAuthorised(c: Controller) {
    && (forall u, k :: 0 <= u < |c.unlocks| && 0 <= k < |c.calls| && MayHaveLanded(c.calls[k]) ==>
          c.unlocks[u].origin != ByCall(k))
    && (forall u :: 0 <= u < |c.unlocks| ==> UnlockSound(c.calls, c.handlers, c.unlocks[u]))
  }

  /** Every id whose events came in the order the orchestrator relies on has one owner for its record. */
  ghost predicate OwnedWhereDisciplined(c: Controller, events: seq<Event>) {
    forall id :: DisciplinedRun(INIT, events, id) ==> Owned(c, id)
  }

  /** Where the events of an id came in that order, the unlocks of its source are exactly accounted for. */
  ghost predicate UnlocksExact(events: seq<Event>) {
    forall id :: DisciplinedRun(INIT, events, id) ==>
      (UnlocksOnlyOwn(INIT, events, id) <==> NoneTurnedAway(INIT, events, id))
  }

  /** After a verdict that reports a copy no import is sent for its id, as long as its record is kept. */
  ghost predicate CopiesBlock(events: seq<Event>) {
    forall i: nat, message :: TakesCopy(events, i, message) ==> SendsNoneAfter(events, i, message.id)
  }

  ghost predicate IntentsAccounted(events: seq<Event>)
    requires Valid(INIT, events)
  {
    && (AlwaysAccounted(INIT, events) <==> GuardedRun(INIT, events))
    && (OrderlyRun(INIT, events) ==> (AlwaysAccounted(INIT, events) <==> RestartsFindIntents(INIT, events)))
  }

  /** The status of every record is what last became of its attempt, and completed ones have a deleted source. */
  ghost predicate StatusesTold(w: World) {
    && (forall k :: k in w.controller.records ==> CallsFor(w.env.fates, k, w.controller.records[k].status))
    && (forall k :: k in w.controller.records && w.controller.records[k].status == Completed ==>
          w.controller.records[k].id in w.env.deleted)
  }

  /** Replies say what became of the import, and whoever waits for a source has asked for it. */
  ghost predicate WaitsWereAsked(c: Controller) {
    && (forall k :: 0 <= k < |c.calls| ==> CallAnswers(c.calls[k], k, c.unlocks))
    && (forall h :: 0 <= h < |c.handlers| ==> HandlerAsked(c.handlers[h], h, c.unlocks))
  }

  /** Where the events of an id came in order, a record that awaits its verdict has a timer or an open handler. */
  ghost predicate WatchedWhereDisciplined(c: Controller, events: seq<Event>) {
    forall id :: DisciplinedRun(INIT, events, id) ==> Watched(c, id)
  }

  ghost predicate KeepsPromises(w: World, events: seq<Event>)
    requires Valid(INIT, events)
  {
    && DeletesAuthorised(w) && UnlocksAuthorised(w.controller)
    && OwnedWhereDisciplined(w.controller, events) && UnlocksExact(events) && CopiesBlock(events)
    && IntentsAccounted(events)
    && StatusesTold(w) && WaitsWereAsked(w.controller) && WatchedWhereDisciplined(w.controller, events)
  }

  lemma RunKeepsOrder(events: seq<Event>)
    requires Valid(INIT, events)
    ensures OwnedWhereDisciplined(Run(INIT, events).controller, events) && UnlocksExact(events)
  {
    forall id | DisciplinedRun(INIT, events, id) ensures Owned(Run(INIT, events).controller, id) {
      RunKeepsOwned(INIT, events, id);
    }
    forall id | DisciplinedRun(INIT, events, id)
      ensures UnlocksOnlyOwn(INIT, events, id) <==> NoneTurnedAway(INIT, events, id)
    {
      UnlocksOnlyOwnIff(events, id);
    }
  }

  lemma RunBlocksCopies(events: seq<Event>)
    ensures CopiesBlock(events)
  {
    forall i: nat, message | TakesCopy(events, i, message) ensures SendsNoneAfter(events, i, message.id) {
      TakenCopyBlocks(events, i, message);
    }
  }

  lemma RunAccountsIntents(events: seq<Event>)
    requires Valid(INIT, events)
    ensures IntentsAccounted(events)
  {
    IntentsAccountExactly(events);
    if OrderlyRun(INIT, events) { OrderlyRunsLoseNothingElse(events); }
  }

  lemma RunTellsStatuses(events: seq<Event>)
    requires Valid(INIT, events)
    ensures StatusesTold(Run(INIT, events))
  {
    var w := Run(INIT, events);
    RunIsTold(events);
    forall k | k in w.controller.records ensures CallsFor(w.env.fates, k, w.controller.records[k].status) {
      assert RecordTells(w.controller.records[k], k, w.controller.calls, w.env.requested, w.env.fates);
    }
    forall k | k in w.controller.records && w.controller.records[k].status == Completed
      ensures w.controller.records[k].id in w.env.deleted
    {
      CompletedIsDeleted(events, k);
    }
  }

  lemma RunStaysWatched(events: seq<Event>)
    requires Valid(INIT, events)
    ensures WatchedWhereDisciplined(Run(INIT, events).controller, events)
  {
    forall id | DisciplinedRun(INIT, events, id) ensures Watched(Run(INIT, events).controller, id) {
      RunKeepsGoing(INIT, events, id);
    }
  }

  lemma RunKeepsPromises(events: seq<Event>)
    requires Valid(INIT, events)
    ensures KeepsPromises(Run(INIT, events), events)
  {
    NeverBothGone(events);
    UnlockAuthority(events);
    RunKeepsOrder(events);
    RunBlocksCopies(events);
    RunAccountsIntents(events);
    RunTellsStatuses(events);
    WhoeverWaitsHasAsked(events);
    RunStaysWatched(events);
  }

  class TransferService {
    const orchestrator: T.TransferOrchestrator
    ghost var env: Environment
    ghost var events: seq<Event>

    ghost function State(): World
      reads this, orchestrator
    {
      World(orchestrator.View(), env)
    }

    /** The service is where the run of its events leads. */
    ghost predicate IsRun()
      reads this, orchestrator
    {
      Valid(INIT, events) && Run(INIT, events) == State()
    }

    constructor ()
      ensures IsRun() && events == [] && fresh(orchestrator)
    {
      orchestrator := new T.TransferOrchestrator();
      env, events := INIT.env, [];
    }

    /** The orchestrator has taken the step of an event that was enabled. */
    ghost method Record(e: Event, was: World)
      requires Valid(INIT, events) && Run(INIT, events) == was && Enabled(was, e)
      requires orchestrator.View() == Step(was, e).controller
      modifies this`env, this`events
      ensures IsRun() && events == old(events) + [e] && KeepsPromises(State(), events)
    {
      RunSnoc(INIT, events, e);
      env, events := Step(was, e).env, events + [e];
      RunKeepsPromises(events);
    }

    /** A stretch of `transferPlatform`, or of the instance's answer to its reply, runs to its next await. */
    method ResumeCall(e: CallEvent, now: int)
      requires IsRun() && CallEnabled(State(), e) && now == env.now
      modifies this, orchestrator
      ensures IsRun() && events == old(events) + [InCall(e)] && KeepsPromises(State(), events)
    {
      ghost var was := State();
      match e {
        case CallTransfer(exportId, online, entry, startedAt) =>
          orchestrator.TransferPlatform(exportId, online, entry, startedAt);
        case FailBeforeTransfer(exportId, entry, startedAt) => orchestrator.Refuse(exportId, entry, startedAt);
        case Archived(k) => orchestrator.AfterArchive(k);
        case Recorded(k) => orchestrator.AfterRecordStarted(k);
        case ImportReplies(k, outcome) => orchestrator.AfterImportReply(k, outcome, now);
        case CallUnlockReplies(k) => orchestrator.AfterCallUnlockReply(k);
        case InstanceUnlocks(k) => orchestrator.AfterSafeReply(k);
      }
      Record(InCall(e), was);
    }

    /** A stretch of `handleTransferValidation` or of the timeout callback runs to its next await. */
    method ResumeHandler(e: HandlerEvent)
      requires IsRun() && HandlerEnabled(State(), e) && !e.Settles?
      modifies this, orchestrator
      ensures IsRun() && events == old(events) + [InHandler(e)] && KeepsPromises(State(), events)
    {
      ghost var was := State();
      match e {
        case VerdictArrives(message) => orchestrator.HandleTransferValidation(message.id, message.verdict);
        case TimerFires(t) => orchestrator.ValidationTimeout(t);
        case Announced(h) => orchestrator.AfterAnnouncing(h);
        case DeleteReplies(h, reply) => orchestrator.AfterDeleteReply(h, reply);
        case CompletionRecorded(h) => orchestrator.AfterCompletion(h);
        case UnlockReplies(h, failed) => orchestrator.AfterUnlockReply(h, failed);
        case Reported(h) => orchestrator.AfterReporting(h);
      }
      Record(InHandler(e), was);
    }

    predicate MayEnd(c: Controller, h: nat) {
      && h < |c.handlers| && c.handlers[h].attempt in c.records
      && (c.handlers[h].phase.Storing? || c.handlers[h].phase.Refusing? || c.handlers[h].phase.Persisting?)
    }

    /** A handler ends; what its pruning drops is what the sorted list of records leaves over. */
    method EndHandler(h: nat) returns (ghost e: HandlerEvent)
      requires IsRun() && MayEnd(orchestrator.View(), h)
      modifies this, orchestrator
      ensures e.Settles? && e.h == h
      ensures e.others == old(|orchestrator.otherOperations|) && e.othersKept == |orchestrator.otherOperations|
      ensures IsRun() && events == old(events) + [InHandler(e)] && KeepsPromises(State(), events)
    {
      ghost var was := State();
      ghost var others := |orchestrator.otherOperations|;
      ReachableIsWellFormed(events);
      ghost var evicted := orchestrator.FinishHandler(h);
      e := Settles(h, evicted, others, |orchestrator.otherOperations|);
      Record(InHandler(e), was);
    }

    /** Another operation finishes and prunes the same map. */
    method PruneForOther() returns (ghost move: Move)
      requires IsRun()
      modifies this, orchestrator
      ensures move.OtherOperationPrunes?
      ensures IsRun() && events == old(events) + [Outside(move)] && KeepsPromises(State(), events)
    {
      ghost var was := State();
      ghost var others := |orchestrator.otherOperations|;
      ReachableIsWellFormed(events);
      ghost var evicted := orchestrator.PruneOldTransfers();
      move := OtherOperationPrunes(evicted, others, |orchestrator.otherOperations|);
      Record(Outside(move), was);
    }

    /** An import or export begins, which no transfer takes notice of until the map is pruned. */
    method RecordOperation(id: Id, startedAt: int)
      requires IsRun()
      modifies orchestrator`otherOperations
      ensures IsRun() && events == old(events) && State() == old(State())
      ensures orchestrator.otherOperations == old(orchestrator.otherOperations)[id := startedAt]
    {
      orchestrator.RecordOperation(id, startedAt);
    }

    method StoreExport(key: Id, item: StoredExport)
      requires IsRun()
      modifies this, orchestrator
      ensures IsRun() && events == old(events) + [Outside(Move.StoreExport(key, item))]
      ensures KeepsPromises(State(), events)
    {
      ghost var was := State();
      orchestrator.StoreExport(key, item);
      Record(Outside(Move.StoreExport(key, item)), was);
    }

    method DropExport(key: Id)
      requires IsRun()
      modifies this, orchestrator
      ensures IsRun() && events == old(events) + [Outside(Move.DropExport(key))]
      ensures KeepsPromises(State(), events)
    {
      ghost var was := State();
      orchestrator.DropExport(key);
      Record(Outside(Move.DropExport(key)), was);
    }

    /** A queued write of the pending intents reaches the file, or fails. */
    method EndWrite(ok: bool)
      requires IsRun() && orchestrator.writes != []
      modifies this, orchestrator
      ensures IsRun() && events == old(events) + [Outside(WriteIntents(ok))] && KeepsPromises(State(), events)
    {
      ghost var was := State();
      orchestrator.AfterWrite();
      Record(Outside(WriteIntents(ok)), was);
    }

    /** The controller starts again with what is on disk. */
    method StartAgain(stored: map<Id, StoredExport>, disk: map<Id, Intent>, now: int)
      requires IsRun() && disk == env.disk && now == env.now
      modifies this, orchestrator
      ensures IsRun() && events == old(events) + [Outside(RestartController(stored))]
      ensures KeepsPromises(State(), events)
    {
      ghost var was := State();
      orchestrator.Start(stored, disk, now);
      Record(Outside(RestartController(stored)), was);
    }

    /** Time passes, or an instance does something of its own. */
    ghost method Happens(move: Move)
      requires IsRun() && MoveEnabled(State(), move)
      requires move.Tick? || move.DestinationReports? || move.SourceDeletes? || move.SourceUnlocks?
      modifies this`env, this`events
      ensures IsRun() && events == old(events) + [Outside(move)] && KeepsPromises(State(), events)
    {
      Record(Outside(move), State());
    }
  }
}
