/**
 Unlocks of a source that is in use: which calls can ask for them while the record of the source's id is live.
 A live record is looked up only after two tests that answer with a refusal, and a refusal unlocks.
 */
module TransferUnlockGuards {
  import opened Wrappers
  import opened TransferModel
  import opened TransferWorld
  import opened TransferUnlock
  import opened TransferRetry
  import opened TransferCopies

  predicate HasLiveRecord(c: Controller, id: Id)
    requires Linked(c)
  {
    id in c.activeTransfers && IsLive(c.records[c.activeTransfers[id]].status)
  }

  // ---------------------------------------------------------------- the two tests

  /** The tests that come before the live record is looked up. */
  predicate FailsFirstTests(c: Controller, exportId: Id, online: bool) {
    exportId !in c.platformStorage || !online
  }

  /** With a live record a call is refused exactly if it fails one of the first two tests. */
  lemma LiveIsRefusedIff(c: Controller, exportId: Id, online: bool)
    requires Linked(c) && HasLiveRecord(c, TransferIdOf(c, exportId))
    ensures Decide(c, exportId, online).Refuse? <==> FailsFirstTests(c, exportId, online)
  {
  }

  /** The call has asked for an unlock of its source, or its reply allows the instance to do it. */
  predicate MayUnlock(call: Call) {
    call.phase.UnlockingRefused? || SaysSafe(call)
  }

  /** So a call for an id with a live record comes to unlock the source exactly if it fails one of them. */
  lemma LiveCallUnlocksIff(c: Controller, exportId: Id, online: bool, entry: Entry, startedAt: int)
    requires Linked(c) && HasLiveRecord(c, TransferIdOf(c, exportId))
    ensures var r := BeginCall(c, exportId, online, entry, startedAt);
            MayUnlock(r.calls[|c.calls|]) <==> FailsFirstTests(c, exportId, online)
  {
    LiveIsRefusedIff(c, exportId, online);
  }

  // ---------------------------------------------------------------- one event

  /** The unlock belongs to the attempt the id names: its import failed, or a verdict on it did. */
  predicate OwnUnlock(c: Controller, id: Id, unlock: Unlock) {
    && id in c.activeTransfers
    && match unlock.origin
       case ByCall(k) =>
         k == c.activeTransfers[id] && k < |c.calls| && (c.calls[k].outcome.Rejected? || c.calls[k].outcome.Threw?)
       case ByVerdict(h) =>
         h < |c.handlers| && c.handlers[h].attempt == c.activeTransfers[id] && !c.handlers[h].verdict.success
  }

  ghost predicate AsksForeign(c: Controller, r: Controller, id: Id) {
    exists u :: |c.unlocks| <= u < |r.unlocks| && r.unlocks[u].id == id && !OwnUnlock(r, id, r.unlocks[u])
  }

  /** While the id's record is live, the event asks for an unlock that does not belong to its attempt. */
  ghost predicate UnlocksInUse(w: World, e: Event, id: Id)
    requires Enabled(w, e) && Linked(w.controller)
  {
    HasLiveRecord(w.controller, id) && AsksForeign(w.controller, Step(w, e).controller, id)
  }

  /**
   The events at which the code could have looked at the live record and did not: the start request's call fails
   one of the first two tests or never gets to them, or an instance acts on the refusal of its call.
   */
  ghost predicate TurnedAway(w: World, e: Event, id: Id)
    requires Enabled(w, e) && Linked(w.controller)
  {
    && HasLiveRecord(w.controller, id) && e.InCall?
    && match e.call
       case CallTransfer(exportId, online, entry, _) =>
         && entry.StartRequest? && TransferIdOf(w.controller, exportId) == id
         && FailsFirstTests(w.controller, exportId, online)
       case FailBeforeTransfer(exportId, entry, _) => entry.StartRequest? && exportId == id
       case InstanceUnlocks(k) => w.controller.calls[k].id == id
       case _ => false
  }

  /** What one more unlock means, if there is one. */
  lemma OneAsked(c: Controller, r: Controller, asked: seq<Unlock>, id: Id)
    requires r.unlocks == c.unlocks + asked && |asked| <= 1
    ensures AsksForeign(c, r, id) <==> asked != [] && asked[0].id == id && !OwnUnlock(r, id, asked[0])
  {
    if asked != [] {
      assert r.unlocks[|c.unlocks|] == asked[0];
    }
  }

  lemma BeginAsks(c: Controller, exportId: Id, online: bool, entry: Entry, startedAt: int, id: Id)
    requires WellFormed(c) && HasLiveRecord(c, id)
    ensures AsksForeign(c, BeginCall(c, exportId, online, entry, startedAt), id) <==>
            entry.StartRequest? && TransferIdOf(c, exportId) == id && FailsFirstTests(c, exportId, online)
  {
    var r := BeginCall(c, exportId, online, entry, startedAt);
    var refused := Decide(c, exportId, online).Refuse? && entry.StartRequest?;
    OneAsked(c, r, if refused then [Unlock(TransferIdOf(c, exportId), ByCall(|c.calls|))] else [], id);
    if TransferIdOf(c, exportId) == id { LiveIsRefusedIff(c, exportId, online); }
  }

  lemma RefuseAsks(c: Controller, exportId: Id, entry: Entry, startedAt: int, id: Id)
    requires WellFormed(c) && HasLiveRecord(c, id)
    ensures AsksForeign(c, RefuseCall(c, exportId, entry, startedAt), id) <==> entry.StartRequest? && exportId == id
  {
    OneAsked(c, RefuseCall(c, exportId, entry, startedAt),
             if entry.StartRequest? then [Unlock(exportId, ByCall(|c.calls|))] else [], id);
  }

  /** Only the attempt the id names can have its import request fail. */
  lemma ReplyAsksOwn(c: Controller, k: nat, outcome: SendOutcome, now: int, id: Id)
    requires Owned(c, id) && k < |c.calls| && c.calls[k].phase.Sending? && k in c.records
    requires !outcome.NotSent? && !outcome.InFlight?
    ensures !AsksForeign(c, ReceiveImportReply(c, k, outcome, now), id)
  {
    var r := ReceiveImportReply(c, k, outcome, now);
    OneAsked(c, r, if r.calls[k].phase.RollingBack? then [Unlock(c.calls[k].id, ByCall(k))] else [], id);
    if c.calls[k].id == id && r.calls[k].phase.RollingBack? {
      assert CallOwns(c.calls[k], k, c.activeTransfers, c.records);
      FailureKeepsActive(c, k, outcome, now);
    }
  }

  lemma FailureKeepsActive(c: Controller, k: nat, outcome: SendOutcome, now: int)
    requires Linked(c) && k < |c.calls| && c.calls[k].phase.Sending? && k in c.records
    ensures ReceiveImportReply(c, k, outcome, now).activeTransfers == c.activeTransfers
  {
  }

  lemma InstanceAsks(c: Controller, k: nat, id: Id)
    requires AllCallsSound(c.calls) && k < |c.calls| && SaysSafe(c.calls[k])
    ensures AsksForeign(c, SendUnlock(c, c.calls[k].id, ByCall(k)), id) <==> c.calls[k].id == id
  {
    OneAsked(c, SendUnlock(c, c.calls[k].id, ByCall(k)), [Unlock(c.calls[k].id, ByCall(k))], id);
    assert CallSound(c.calls[k]);
  }

  /** A handler that asks for an unlock judged the attempt the id names, and found it failed. */
  lemma AnnouncingAsksOwn(c: Controller, h: nat, id: Id)
    requires Owned(c, id) && h < |c.handlers| && c.handlers[h].phase.Announcing?
    ensures !AsksForeign(c, FinishAnnouncing(c, h), id)
  {
    var r := FinishAnnouncing(c, h);
    OneAsked(c, r, if c.handlers[h].verdict.success then [] else [Unlock(c.handlers[h].id, ByVerdict(h))], id);
    if c.handlers[h].id == id {
      assert HandlerOwns(c.handlers[h], c.activeTransfers, c.records);
    }
  }

  lemma QuietHandlersAskNothing(w: World, e: HandlerEvent)
    requires HandlerEnabled(w, e) && !e.Announced?
    ensures ApplyHandler(w, e).unlocks == w.controller.unlocks
  {
  }

  lemma HandlerAsksOwn(w: World, e: HandlerEvent, id: Id)
    requires Owned(w.controller, id) && HandlerEnabled(w, e)
    ensures !AsksForeign(w.controller, ApplyHandler(w, e), id)
  {
    if e.Announced? {
      AnnouncingAsksOwn(w.controller, e.h, id);
    } else {
      QuietHandlersAskNothing(w, e);
    }
  }

  lemma CallAsks(w: World, e: CallEvent, id: Id)
    requires Owned(w.controller, id) && AllCallsSound(w.controller.calls) && CallEnabled(w, e)
    requires HasLiveRecord(w.controller, id)
    ensures AsksForeign(w.controller, ApplyCall(w.controller, w.env.now, e), id) <==> TurnedAway(w, InCall(e), id)
  {
    match e
    case CallTransfer(exportId, online, entry, startedAt) =>
      BeginAsks(w.controller, exportId, online, entry, startedAt, id);
    case FailBeforeTransfer(exportId, entry, startedAt) => RefuseAsks(w.controller, exportId, entry, startedAt, id);
    case ImportReplies(k, outcome) => ReplyAsksOwn(w.controller, k, outcome, w.env.now, id);
    case InstanceUnlocks(k) => InstanceAsks(w.controller, k, id);
    case _ => assert ApplyCall(w.controller, w.env.now, e).unlocks == w.controller.unlocks;
  }

  /** An event asks for an unlock of a source in use, against its attempt, exactly at those events. */
  lemma UnlocksInUseIff(w: World, e: Event, id: Id)
    requires Owned(w.controller, id) && AllCallsSound(w.controller.calls) && Enabled(w, e)
    ensures UnlocksInUse(w, e, id) <==> TurnedAway(w, e, id)
  {
    if HasLiveRecord(w.controller, id) {
      match e
      case Outside(move) => MoveEvolves(w, move);
      case InCall(call) => CallAsks(w, call, id);
      case InHandler(handler) => HandlerAsksOwn(w, handler, id);
    }
  }

  // ---------------------------------------------------------------- every run

  /** While the id's record is live, every unlock that the run asks for belongs to its attempt. */
  ghost predicate UnlocksOnlyOwn(w: World, events: seq<Event>, id: Id)
    requires DisciplinedRun(w, events, id)
    decreases |events|
  {
    events == [] || (!UnlocksInUse(w, events[0], id) && UnlocksOnlyOwn(Step(w, events[0]), events[1..], id))
  }

  ghost predicate NoneTurnedAway(w: World, events: seq<Event>, id: Id)
    requires DisciplinedRun(w, events, id)
    decreases |events|
  {
    events == [] || (!TurnedAway(w, events[0], id) && NoneTurnedAway(Step(w, events[0]), events[1..], id))
  }

  lemma {:induction false} UnlocksOnlyOwnFrom(w: World, events: seq<Event>, id: Id)
    requires Owned(w.controller, id) && AllCallsSound(w.controller.calls) && DisciplinedRun(w, events, id)
    ensures UnlocksOnlyOwn(w, events, id) <==> NoneTurnedAway(w, events, id)
    decreases |events|
  {
    if events != [] {
      UnlocksInUseIff(w, events[0], id);
      StepKeepsOwned(w, events[0], id);
      StepEvolves(w, events[0]);
      UnlocksOnlyOwnFrom(Step(w, events[0]), events[1..], id);
    }
  }

  /**
   The unlocks of one source. In every run that is disciplined for the id, every unlock asked for while its record
   is live belongs to the attempt it names, exactly if meanwhile no start request for it fails one of the first two
   tests or before them, and no instance acts on a refusal.
   */
  lemma UnlocksOnlyOwnIff(events: seq<Event>, id: Id)
    requires DisciplinedRun(INIT, events, id)
    ensures UnlocksOnlyOwn(INIT, events, id) <==> NoneTurnedAway(INIT, events, id)
  {
    UnlocksOnlyOwnFrom(INIT, events, id);
  }
}
