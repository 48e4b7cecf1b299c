/**
 A refused import does not block its export: the record it settles does not stand in the way of the next request,
 which is admitted, and whose import is sent.
 */
module TransferProgress {
  import opened Wrappers
  import opened TransferModel
  import opened TransferWorld
  import opened TransferDelete
  import opened TransferUnlock
  import opened TransferRetry
  import opened TransferCopies
  import opened TransferIntentGuards
  import opened TransferOutcomes
  import opened TransferAnswers
  import opened TransferEffects

  // ---------------------------------------------------------------- a refused import

  /** The import of a call on its way is refused. */
  ghost predicate IsRefusedIn(w: World, k: nat) {
    k < |w.controller.calls| && Enabled(w, InCall(ImportReplies(k, Rejected)))
  }

  /** In every reachable state a refused import leaves no live record under its id. */
  lemma RefusedIsNotLive(w: World, k: nat)
    requires WellFormed(w.controller) && IsRefusedIn(w, k)
    ensures var id, r := w.controller.calls[k].id, Step(w, InCall(ImportReplies(k, Rejected))).controller;
            && Linked(r)
            && (id in w.controller.activeTransfers ==>
                  && id in r.activeTransfers && r.activeTransfers[id] == w.controller.activeTransfers[id]
                  && StatusOf(r, id) == Some(Failed)
                  && r.calls[k].phase.RollingBack? && Unlock(id, ByCall(k)) in r.unlocks)
            && (id !in w.controller.activeTransfers ==>
                  id !in r.activeTransfers && r.calls[k].phase == Returned(Reply(false, false)))
  {
    var c := w.controller;
    var r := ReceiveImportReply(c, k, Rejected, w.env.now);
    if c.calls[k].id in c.activeTransfers {
      assert r.unlocks[|c.unlocks|] == Unlock(c.calls[k].id, ByCall(k));
    }
  }

  /** The id names no record, or one that failed without a preserved copy. */
  ghost predicate CanBeRetried(c: Controller, id: Id)
    requires Linked(c)
  {
    id in c.activeTransfers ==>
      c.records[c.activeTransfers[id]].status == Failed && !c.records[c.activeTransfers[id]].preserved
  }

  lemma RefusedCanBeRetried(w: World, k: nat)
    requires WorldTold(w) && IsRefusedIn(w, k) && Owned(w.controller, w.controller.calls[k].id)
    ensures var r := Step(w, InCall(ImportReplies(k, Rejected))).controller;
            Linked(r) && CanBeRetried(r, w.controller.calls[k].id)
  {
    var c, id := w.controller, w.controller.calls[k].id;
    RefusedIsNotLive(w, k);
    assert CallOwns(c.calls[k], k, c.activeTransfers, c.records);
    assert RecordTells(c.records[k], k, c.calls, w.env.requested, w.env.fates);
    ReplySameMark(c, k, Rejected, w.env.now, k);
  }

  // ---------------------------------------------------------------- until the next request

  lemma SliceCanBeRetried(c: Controller, r: Controller, id: Id)
    requires WellFormed(c) && Linked(r) && SameSlice(c, r, id) && CanBeRetried(c, id)
    ensures CanBeRetried(r, id)
  {
  }

  lemma EvictedCanBeRetried(c: Controller, r: Controller, evicted: set<Id>, id: Id)
    requires Linked(c) && Linked(r) && CanBeRetried(c, id)
    requires r.records == c.records && r.activeTransfers == c.activeTransfers - evicted
    ensures CanBeRetried(r, id)
  {
  }

  /** Nothing but events of the id itself can take the chance away. */
  lemma OthersLeaveChance(w: World, e: Event, id: Id)
    requires WellFormed(w.controller) && Enabled(w, e) && !Concerns(w, e, id) && CanBeRetried(w.controller, id)
    ensures WellFormed(Step(w, e).controller) && CanBeRetried(Step(w, e).controller, id)
  {
    var c := w.controller;
    StepKeepsWellFormed(w, e);
    match e
    case Outside(OtherOperationPrunes(evicted, _, _)) => EvictedCanBeRetried(c, Evict(c, evicted), evicted, id);
    case Outside(_) =>
    case InCall(call) =>
      CallLeavesSlice(w, call, id);
      SliceCanBeRetried(c, Step(w, e).controller, id);
    case InHandler(Settles(h, evicted, _, _)) =>
      EndedKeepsRecords(c, h, evicted);
      EvictedCanBeRetried(c, Step(w, e).controller, evicted, id);
    case InHandler(handler) =>
      HandlerLeavesSlice(w, handler, id);
      SliceCanBeRetried(c, Step(w, e).controller, id);
  }

  /** A run in which no event is about the id. */
  ghost predicate RunOfOthers(w: World, events: seq<Event>, id: Id)
    decreases |events|
  {
    events == []
    || (Enabled(w, events[0]) && !Concerns(w, events[0], id) && RunOfOthers(Step(w, events[0]), events[1..], id))
  }

  lemma {:induction false} RunOfOthersLeavesChance(w: World, events: seq<Event>, id: Id)
    requires WellFormed(w.controller) && CanBeRetried(w.controller, id) && RunOfOthers(w, events, id)
    ensures Valid(w, events) && WellFormed(Run(w, events).controller) && CanBeRetried(Run(w, events).controller, id)
    decreases |events|
  {
    if events != [] {
      OthersLeaveChance(w, events[0], id);
      RunOfOthersLeavesChance(Step(w, events[0]), events[1..], id);
    }
  }

  // ---------------------------------------------------------------- the next request

  /** The export is stored for this transfer with a positive index. */
  predicate IsReady(c: Controller, exportId: Id, id: Id) {
    && exportId in c.platformStorage
    && id == (if c.platformStorage[exportId].exportId != NO_ID then c.platformStorage[exportId].exportId else exportId)
    && c.platformStorage[exportId].platformIndex.Some? && c.platformStorage[exportId].platformIndex.value >= 1
  }

  ghost predicate IsAdmittedIn(w: World, k: nat, id: Id, exportId: Id, startedAt: int) {
    && WellFormed(w.controller) && k < |w.controller.calls|
    && IsAdmitted(w.controller.calls[k], id, exportId, startedAt)
  }

  /** The import of call k, whose record its id names, is on its way to the destination. */
  ghost predicate IsSent(c: Controller, k: nat, id: Id, exportId: Id, startedAt: int) {
    && k < |c.calls| && c.calls[k].id == id && c.calls[k].phase.Sending? && c.calls[k].outcome.InFlight?
    && id in c.activeTransfers && c.activeTransfers[id] == k
    && k in c.records && c.records[k] == Record(id, exportId, Transporting, startedAt, None, false)
  }

  lemma RetryIsAdmitted(w: World, id: Id, exportId: Id, entry: Entry, startedAt: int)
    requires WellFormed(w.controller) && CanBeRetried(w.controller, id) && IsReady(w.controller, exportId, id)
    requires startedAt <= w.env.now
    ensures Enabled(w, InCall(CallTransfer(exportId, true, entry, startedAt)))
    ensures var w' := Step(w, InCall(CallTransfer(exportId, true, entry, startedAt)));
            IsAdmittedIn(w', |w.controller.calls|, id, exportId, startedAt)
  {
  }

  lemma AdmittedIsSent(w: World, k: nat, id: Id, exportId: Id, startedAt: int)
    requires IsAdmittedIn(w, k, id, exportId, startedAt)
    ensures Valid(w, [InCall(Archived(k)), InCall(Recorded(k))])
    ensures IsSent(Run(w, [InCall(Archived(k)), InCall(Recorded(k))]).controller, k, id, exportId, startedAt)
  {
    var w1 := Step(w, InCall(Archived(k)));
    assert WellFormed(w1.controller);
    var w2 := Step(w1, InCall(Recorded(k)));
    assert IsSent(w2.controller, k, id, exportId, startedAt);
    RunCons(w1, InCall(Recorded(k)), []);
    RunCons(w, InCall(Archived(k)), [InCall(Recorded(k))]);
    assert [InCall(Archived(k))] + [InCall(Recorded(k))] == [InCall(Archived(k)), InCall(Recorded(k))];
    assert [InCall(Recorded(k))] + [] == [InCall(Recorded(k))];
  }

  /** The three stretches that take a request to the point where its import is sent. */
  function Request(exportId: Id, entry: Entry, startedAt: int, k: nat): (events: seq<Event>) {
    [InCall(CallTransfer(exportId, true, entry, startedAt)), InCall(Archived(k)), InCall(Recorded(k))]
  }

  lemma RequestGoesOn(w: World, w': World, exportId: Id, entry: Entry, startedAt: int, k: nat)
    requires Enabled(w, InCall(CallTransfer(exportId, true, entry, startedAt)))
    requires Step(w, InCall(CallTransfer(exportId, true, entry, startedAt))) == w'
    requires Valid(w', [InCall(Archived(k)), InCall(Recorded(k))])
    ensures Valid(w, Request(exportId, entry, startedAt, k))
    ensures Run(w, Request(exportId, entry, startedAt, k)) == Run(w', [InCall(Archived(k)), InCall(Recorded(k))])
  {
    var e := InCall(CallTransfer(exportId, true, entry, startedAt));
    RunCons(w, e, [InCall(Archived(k)), InCall(Recorded(k))]);
    assert [e] + [InCall(Archived(k)), InCall(Recorded(k))] == Request(exportId, entry, startedAt, k);
  }

  lemma RetryIsSent(w: World, id: Id, exportId: Id, entry: Entry, startedAt: int)
    requires WellFormed(w.controller) && CanBeRetried(w.controller, id) && IsReady(w.controller, exportId, id)
    requires startedAt <= w.env.now
    ensures var k := |w.controller.calls|;
            && Valid(w, Request(exportId, entry, startedAt, k))
            && IsSent(Run(w, Request(exportId, entry, startedAt, k)).controller, k, id, exportId, startedAt)
  {
    RetryIsAdmitted(w, id, exportId, entry, startedAt);
    var k, w' := |w.controller.calls|, Step(w, InCall(CallTransfer(exportId, true, entry, startedAt)));
    AdmittedIsSent(w', k, id, exportId, startedAt);
    RequestGoesOn(w, w', exportId, entry, startedAt, k);
  }

  /**
   A refused import does not block its export. After any run that is disciplined for its id, and after whatever
   happens to others in between, the next request is admitted and its import sent, as long as the export is
   stored with a positive index and the destination is online.
   */
  lemma RefusedImportIsRetried(before: seq<Event>, k: nat, between: seq<Event>, exportId: Id, entry: Entry,
                               startedAt: int)
    requires Valid(INIT, before) && IsRefusedIn(Run(INIT, before), k)
    requires var w, id := Run(INIT, before), Run(INIT, before).controller.calls[k].id;
             var w' := Step(w, InCall(ImportReplies(k, Rejected)));
             && DisciplinedRun(INIT, before, id) && RunOfOthers(w', between, id)
             && Valid(w', between) && IsReady(Run(w', between).controller, exportId, id)
             && startedAt <= Run(w', between).env.now
    ensures var w, id := Run(INIT, before), Run(INIT, before).controller.calls[k].id;
            var last := Run(Step(w, InCall(ImportReplies(k, Rejected))), between);
            var n := |last.controller.calls|;
            && Valid(last, Request(exportId, entry, startedAt, n))
            && IsSent(Run(last, Request(exportId, entry, startedAt, n)).controller, n, id, exportId, startedAt)
  {
    var w, id := Run(INIT, before), Run(INIT, before).controller.calls[k].id;
    var w' := Step(w, InCall(ImportReplies(k, Rejected)));
    RunIsTold(before);
    RunKeepsOwned(INIT, before, id);
    RefusedCanBeRetried(w, k);
    RunOfOthersLeavesChance(w', between, id);
    RetryIsSent(Run(w', between), id, exportId, entry, startedAt);
  }
}
