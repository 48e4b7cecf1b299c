/**
 The orchestrator and the controller fields it works on. An async method becomes one method per stretch
 between awaits; each is proved to take the controller from one state of the model to the next.
 */
module TransferOrchestrator {
  import opened Wrappers
  import opened TransferModel
  import opened Sorting

  datatype Entry = Entry(id: Id, startedAt: int, isTransfer: bool)

  function NewestFirst(): (Entry, Entry) -> bool {
    (a: Entry, b: Entry) => a.startedAt >= b.startedAt
  }

  /** The entries are the records of the map, each once. */
  ghost predicate Lists(c: Controller, others: map<Id, int>, entries: seq<Entry>)
    requires Linked(c)
  {
    && Distinct(entries) && |entries| == |c.activeTransfers| + |others|
    && (forall id :: id in c.activeTransfers ==>
          Entry(id, c.records[c.activeTransfers[id]].startedAt, true) in entries)
    && (forall id :: id in others ==> Entry(id, others[id], false) in entries)
    && (forall i :: 0 <= i < |entries| ==> Listed(c, others, entries[i]))
  }

  ghost predicate Listed(c: Controller, others: map<Id, int>, e: Entry)
    requires Linked(c)
  {
    if e.isTransfer
    then e.id in c.activeTransfers && e.startedAt == c.records[c.activeTransfers[e.id]].startedAt
    else e.id in others && e.startedAt == others[e.id]
  }

  /** The transfers listed from position lo up to hi. */
  function IdsBetween(sorted: seq<Entry>, lo: nat, hi: nat): (ids: set<Id>)
    requires hi <= |sorted|
  {
    if hi <= lo then {}
    else IdsBetween(sorted, lo, hi - 1) + (if sorted[hi - 1].isTransfer then {sorted[hi - 1].id} else {})
  }

  lemma {:induction false} IdsAreListed(sorted: seq<Entry>, lo: nat, hi: nat)
    requires hi <= |sorted|
    ensures forall id :: id in IdsBetween(sorted, lo, hi) ==>
              exists j :: lo <= j < hi && sorted[j].isTransfer && sorted[j].id == id
    ensures forall j :: lo <= j < hi && sorted[j].isTransfer ==> sorted[j].id in IdsBetween(sorted, lo, hi)
  {
    if lo < hi {
      IdsAreListed(sorted, lo, hi - 1);
    }
  }

  lemma SortedLists(c: Controller, others: map<Id, int>, entries: seq<Entry>)
    requires Linked(c) && Lists(c, others, entries)
    ensures Lists(c, others, Sort(NewestFirst(), entries)) && Sorted(NewestFirst(), Sort(NewestFirst(), entries))
  {
    var sorted := Sort(NewestFirst(), entries);
    SortSorts(NewestFirst(), entries);
    SortKeeps(NewestFirst(), entries);
    SortKeepsDistinct(NewestFirst(), entries);
    forall e ensures e in sorted <==> e in entries { SortHasSameElements(NewestFirst(), entries, e); }
    forall i | 0 <= i < |sorted| ensures Listed(c, others, sorted[i]) {
      assert sorted[i] in entries;
    }
  }

  predicate Present(active: map<Id, nat>, others: map<Id, int>, entry: Entry) {
    if entry.isTransfer then entry.id in active else entry.id in others
  }

  predicate SameRecord(a: Entry, b: Entry) {
    a.isTransfer == b.isTransfer && a.id == b.id
  }

  ghost predicate NamesDiffer(entries: seq<Entry>) {
    forall i, j :: 0 <= i < j < |entries| ==> !SameRecord(entries[i], entries[j])
  }

  lemma ListNamesDiffer(c: Controller, others: map<Id, int>, entries: seq<Entry>)
    requires Linked(c) && Lists(c, others, entries)
    ensures NamesDiffer(entries)
    ensures AllPresent(c.activeTransfers, others, entries, 0)
  {
    forall i, j | 0 <= i < j < |entries| ensures !SameRecord(entries[i], entries[j]) {
      assert Listed(c, others, entries[i]) && Listed(c, others, entries[j]) && entries[i] != entries[j];
    }
  }

  /** Whatever goes is at most as new as whatever stays. */
  lemma EvictsOldest(c: Controller, others: map<Id, int>, sorted: seq<Entry>, keep: nat)
    requires Linked(c) && keep <= |sorted| && Lists(c, others, sorted) && Sorted(NewestFirst(), sorted)
    ensures var evicted := IdsBetween(sorted, keep, |sorted|);
            forall gone, kept :: gone in evicted && kept in c.activeTransfers && kept !in evicted ==>
              StartedAt(c, gone) <= StartedAt(c, kept)
  {
    var evicted := IdsBetween(sorted, keep, |sorted|);
    IdsAreListed(sorted, keep, |sorted|);
    forall gone, kept | gone in evicted && kept in c.activeTransfers && kept !in evicted
      ensures StartedAt(c, gone) <= StartedAt(c, kept)
    {
      var j :| keep <= j < |sorted| && sorted[j].isTransfer && sorted[j].id == gone;
      var i :| 0 <= i < |sorted| && sorted[i] == Entry(kept, StartedAt(c, kept), true);
      assert Listed(c, others, sorted[j]);
      assert NewestFirst()(sorted[i], sorted[j]);
    }
  }

  lemma RemovingOne<V>(m: map<Id, V>, id: Id)
    requires id in m
    ensures |m - {id}| == |m| - 1
  {
    assert (m - {id}).Keys == m.Keys - {id};
  }

  ghost predicate Without<V>(m: map<Id, V>, gone: set<Id>, r: map<Id, V>) {
    && (forall id :: id in r <==> id in m && id !in gone)
    && (forall id :: id in r ==> r[id] == m[id])
  }

  lemma WithoutIsMinus<V>(m: map<Id, V>, gone: set<Id>, r: map<Id, V>)
    requires Without(m, gone, r)
    ensures r == m - gone
  {
  }

  lemma WithoutOneMore<V>(m: map<Id, V>, gone: set<Id>, r: map<Id, V>, id: Id)
    requires Without(m, gone, r)
    ensures Without(m, gone + {id}, r - {id})
  {
  }

  ghost predicate AllPresent(active: map<Id, nat>, others: map<Id, int>, sorted: seq<Entry>, from: nat) {
    forall j :: from <= j < |sorted| ==> Present(active, others, sorted[j])
  }

  lemma PresentAfterTransfer(active: map<Id, nat>, others: map<Id, int>, sorted: seq<Entry>, i: nat)
    requires i < |sorted| && sorted[i].isTransfer && NamesDiffer(sorted) && AllPresent(active, others, sorted, i)
    ensures AllPresent(active - {sorted[i].id}, others, sorted, i + 1)
  {
    forall j | i < j < |sorted| ensures Present(active - {sorted[i].id}, others, sorted[j]) {
      assert !SameRecord(sorted[i], sorted[j]);
    }
  }

  lemma PresentAfterOther(active: map<Id, nat>, others: map<Id, int>, sorted: seq<Entry>, i: nat)
    requires i < |sorted| && !sorted[i].isTransfer && NamesDiffer(sorted) && AllPresent(active, others, sorted, i)
    ensures AllPresent(active, others - {sorted[i].id}, sorted, i + 1)
  {
    forall j | i < j < |sorted| ensures Present(active, others - {sorted[i].id}, sorted[j]) {
      assert !SameRecord(sorted[i], sorted[j]);
    }
  }

  /** Deletes one record; the others listed are still there. */
  method Delete(active: map<Id, nat>, others: map<Id, int>, sorted: seq<Entry>, i: nat)
    returns (active': map<Id, nat>, others': map<Id, int>)
    requires i < |sorted| && NamesDiffer(sorted) && AllPresent(active, others, sorted, i)
    ensures AllPresent(active', others', sorted, i + 1)
    ensures active' == if sorted[i].isTransfer then active - {sorted[i].id} else active
    ensures |active'| + |others'| == |active| + |others| - 1 && |others'| <= |others|
  {
    active', others' := active, others;
    assert Present(active, others, sorted[i]);
    if sorted[i].isTransfer {
      RemovingOne(active, sorted[i].id);
      PresentAfterTransfer(active, others, sorted, i);
      active' := active - {sorted[i].id};
    } else {
      RemovingOne(others, sorted[i].id);
      PresentAfterOther(active, others, sorted, i);
      others' := others - {sorted[i].id};
    }
  }

  /** Deletes the records listed from position keep on; every deletion finds its record. */
  method DeleteFrom(active: map<Id, nat>, others: map<Id, int>, sorted: seq<Entry>, keep: nat)
    returns (active': map<Id, nat>, others': map<Id, int>)
    requires NamesDiffer(sorted) && AllPresent(active, others, sorted, 0)
    requires keep <= |sorted| == |active| + |others|
    ensures Without(active, IdsBetween(sorted, keep, |sorted|), active')
    ensures |others'| <= |others|
    ensures |active'| + |others'| == keep
  {
    active', others' := active, others;
    var i := keep;
    while i < |sorted|
      invariant keep <= i <= |sorted|
      invariant Without(active, IdsBetween(sorted, keep, i), active')
      invariant |others'| <= |others|
      invariant |active'| + |others'| == |sorted| - (i - keep)
      invariant AllPresent(active', others', sorted, i)
    {
      WithoutOneMore(active, IdsBetween(sorted, keep, i), active', sorted[i].id);
      active', others' := Delete(active', others', sorted, i);
      i := i + 1;
    }
  }

  /** Deleting from position 100 of the sorted list is an eviction the model allows. */
  lemma DeletionIsEviction(c: Controller, others: map<Id, int>, sorted: seq<Entry>, active': map<Id, nat>,
                           others': map<Id, int>)
    requires Linked(c) && Lists(c, others, sorted) && Sorted(NewestFirst(), sorted)
    requires |sorted| > MAX_ACTIVE_TRANSFERS
    requires Without(c.activeTransfers, IdsBetween(sorted, MAX_ACTIVE_TRANSFERS, |sorted|), active')
    requires |others'| <= |others| && |active'| + |others'| == MAX_ACTIVE_TRANSFERS
    ensures var evicted := IdsBetween(sorted, MAX_ACTIVE_TRANSFERS, |sorted|);
            MayEvict(c, |others|, |others'|, evicted) && active' == c.activeTransfers - evicted
  {
    var evicted := IdsBetween(sorted, MAX_ACTIVE_TRANSFERS, |sorted|);
    EvictsOldest(c, others, sorted, MAX_ACTIVE_TRANSFERS);
    IdsAreListed(sorted, MAX_ACTIVE_TRANSFERS, |sorted|);
    WithoutIsMinus(c.activeTransfers, evicted, active');
    forall id | id in evicted ensures id in c.activeTransfers {
      var j :| MAX_ACTIVE_TRANSFERS <= j < |sorted| && sorted[j].isTransfer && sorted[j].id == id;
      assert Listed(c, others, sorted[j]);
    }
    assert active'.Keys == c.activeTransfers.Keys - evicted;
  }

  lemma NoEviction(c: Controller, others: nat)
    requires Linked(c) && |c.activeTransfers| + others <= MAX_ACTIVE_TRANSFERS
    ensures MayEvict(c, others, others, {}) && Evict(c, {}) == c
  {
    assert c.activeTransfers - {} == c.activeTransfers;
  }

  method DeleteOldest(ghost c: Controller, active: map<Id, nat>, others: map<Id, int>, sorted: seq<Entry>)
    returns (active': map<Id, nat>, others': map<Id, int>, ghost evicted: set<Id>)
    requires Linked(c) && active == c.activeTransfers && |sorted| > MAX_ACTIVE_TRANSFERS
    requires Lists(c, others, sorted) && Sorted(NewestFirst(), sorted)
    requires NamesDiffer(sorted) && AllPresent(active, others, sorted, 0)
    ensures MayEvict(c, |others|, |others'|, evicted) && active' == active - evicted
  {
    evicted := IdsBetween(sorted, MAX_ACTIVE_TRANSFERS, |sorted|);
    active', others' := DeleteFrom(active, others, sorted, MAX_ACTIVE_TRANSFERS);
    DeletionIsEviction(c, others, sorted, active', others');
  }

  lemma EvictionReadsRecords(c: Controller, r: Controller, others: nat, othersKept: nat, evicted: set<Id>)
    requires Linked(c) && Linked(r) && r.activeTransfers == c.activeTransfers && r.records == c.records
    requires MayEvict(r, others, othersKept, evicted)
    ensures MayEvict(c, others, othersKept, evicted)
  {
    assert forall id :: id in c.activeTransfers ==> StartedAt(c, id) == StartedAt(r, id);
  }

  function LostCalls(calls: seq<Call>): (r: seq<Call>) {
    seq(|calls|, k requires 0 <= k < |calls| => LoseCall(calls[k]))
  }

  function EndedHandlers(handlers: seq<Handler>): (r: seq<Handler>) {
    seq(|handlers|, h requires 0 <= h < |handlers| => handlers[h].(phase := Finished))
  }

  lemma RestartIsLoss(c: Controller, stored: map<Id, StoredExport>, disk: map<Id, Intent>, now: int)
    ensures Restart(c, stored, disk, now) ==
            c.(platformStorage := stored, activeTransfers := map[], calls := LostCalls(c.calls),
               handlers := EndedHandlers(c.handlers), timers := map[],
               pendingTransfers := PruneIntents(disk, now), writes := [])
  {
    assert Restart(c, stored, disk, now).calls == LostCalls(c.calls);
    assert Restart(c, stored, disk, now).handlers == EndedHandlers(c.handlers);
  }

  lemma ClosingKeepsRecords(c: Controller, h: nat)
    requires Linked(c) && h < |c.handlers|
    ensures var r := Settle(c, h, {});
            Linked(r) && r.activeTransfers == c.activeTransfers && r.records == c.records
  {
    assert c.activeTransfers - {} == c.activeTransfers;
  }

  lemma ClosingThenEvicting(c: Controller, h: nat, evicted: set<Id>)
    requires h < |c.handlers|
    ensures Evict(Settle(c, h, {}), evicted) == Settle(c, h, evicted)
  {
    assert c.activeTransfers - {} == c.activeTransfers;
  }

  class TransferOrchestrator {
    var platformStorage: map<Id, StoredExport>
    var activeTransfers: map<Id, nat>
    var otherOperations: map<Id, int>    // import and export records of the same map: their start times
    var records: map<nat, Record>
    var calls: seq<Call>
    var handlers: seq<Handler>
    var timers: map<nat, Timer>
    var nextTimer: nat
    var pendingTransfers: map<Id, Intent>
    var writes: seq<map<Id, Intent>>
    var unlocks: seq<Unlock>

    ghost function View(): Controller
      reads this
    {
      Controller(platformStorage, activeTransfers, records, calls, handlers, timers, nextTimer,
                 pendingTransfers, writes, unlocks)
    }

    constructor ()
      ensures View() == Controller(map[], map[], map[], [], [], map[], 0, map[], [], [])
      ensures otherOperations == map[]
    {
      platformStorage, activeTransfers, otherOperations, records := map[], map[], map[], map[];
      calls, handlers, timers, nextTimer := [], [], map[], 0;
      pendingTransfers, writes, unlocks := map[], [], [];
    }

    // -------------------------------------------------------------- transferPlatform

    method Refuse(id: Id, entry: TransferModel.Entry, startedAt: int)
      modifies this
      ensures View() == RefuseCall(old(View()), id, entry, startedAt)
      ensures otherOperations == old(otherOperations)
    {
      if entry.StartRequest? {
        unlocks := unlocks + [Unlock(id, ByCall(|calls|))];
        calls := calls + [Call(id, entry, startedAt, UnlockingRefused, NotSent)];
      } else {
        calls := calls + [Call(id, entry, startedAt, Returned(Reply(false, true)), NotSent)];
      }
    }

    method TransferPlatform(exportId: Id, online: bool, entry: TransferModel.Entry, startedAt: int)
      requires Linked(View())
      modifies this
      ensures View() == BeginCall(old(View()), exportId, online, entry, startedAt)
      ensures otherOperations == old(otherOperations)
    {
      var transferId := exportId;
      if exportId in platformStorage && platformStorage[exportId].exportId != NO_ID {
        transferId := platformStorage[exportId].exportId;
      }
      if exportId !in platformStorage || !online {
        Refuse(transferId, entry, startedAt);
        return;
      }
      if transferId in activeTransfers {
        var existing := records[activeTransfers[transferId]];
        if IsLive(existing.status) {
          calls := calls + [Call(transferId, entry, startedAt, Returned(Reply(true, false)), NotSent)];
          return;
        }
        if existing.status != Failed || existing.preserved {
          Refuse(transferId, entry, startedAt);
          return;
        }
      }
      var index := platformStorage[exportId].platformIndex;
      if index.None? || index.value < 1 {
        Refuse(transferId, entry, startedAt);
        return;
      }
      var operation := Record(transferId, exportId, Transporting, startedAt, None, false);
      calls := calls + [Call(transferId, entry, startedAt, Archiving(operation), NotSent)];
    }

    method AfterArchive(k: nat)
      requires k < |calls| && calls[k].phase.Archiving?
      modifies this
      ensures View() == InstallRecord(old(View()), k)
      ensures otherOperations == old(otherOperations)
    {
      records := records[k := calls[k].phase.operation];
      activeTransfers := activeTransfers[calls[k].id := k];
      calls := calls[k := calls[k].(phase := Recording)];
    }

    method AfterRecordStarted(k: nat)
      requires k < |calls| && calls[k].phase.Recording?
      modifies this
      ensures View() == SendImport(old(View()), k)
      ensures otherOperations == old(otherOperations)
    {
      calls := calls[k := calls[k].(phase := Sending, outcome := InFlight)];
    }

    method AfterImportReply(k: nat, outcome: SendOutcome, now: int)
      requires Linked(View()) && k < |calls| && calls[k].phase.Sending? && k in records
      requires !outcome.NotSent? && !outcome.InFlight?
      modifies this
      ensures View() == ReceiveImportReply(old(View()), k, outcome, now)
      ensures otherOperations == old(otherOperations)
    {
      calls := calls[k := calls[k].(outcome := outcome)];
      if outcome.Accepted? || outcome.SessionLost? {
        calls := calls[k := calls[k].(phase := Returned(Reply(true, false)))];
        EnterAwaitingValidation(k, now);
      } else if outcome.Rejected? {
        HandleImportFailure(k);
      } else {
        calls := calls[k := calls[k].(phase := RollingBack)];
        unlocks := unlocks + [Unlock(calls[k].id, ByCall(k))];
      }
    }

    /** The record is looked up again; without one nothing is rolled back. */
    method HandleImportFailure(k: nat)
      requires Linked(View()) && k < |calls| && calls[k].outcome.Rejected?
      modifies this
      ensures View() == if old(calls)[k].id !in old(activeTransfers)
                        then SetCall(old(View()), k, old(calls)[k].(phase := Returned(Reply(false, false))))
                        else RollBackCall(SetCall(old(View()), k, old(calls)[k].(phase := RollingBack)), k)
      ensures otherOperations == old(otherOperations)
    {
      var id := calls[k].id;
      if id !in activeTransfers {
        calls := calls[k := calls[k].(phase := Returned(Reply(false, false)))];
        return;
      }
      var transfer := activeTransfers[id];
      records := records[transfer := records[transfer].(status := Failed)];
      calls := calls[k := calls[k].(phase := RollingBack)];
      unlocks := unlocks + [Unlock(id, ByCall(k))];
    }

    /** The reply to an unlock that the call itself asked for. */
    method AfterCallUnlockReply(k: nat)
      requires k < |calls| && (calls[k].phase.RollingBack? || calls[k].phase.UnlockingRefused?)
      modifies this
      ensures View() == ReceiveCallUnlockReply(old(View()), k)
      ensures otherOperations == old(otherOperations)
    {
      calls := calls[k := calls[k].(phase := Returned(Reply(false, calls[k].phase.UnlockingRefused?)))];
    }

    /** The source instance unlocks on its own, as the call's reply allowed. */
    method AfterSafeReply(k: nat)
      requires k < |calls|
      modifies this
      ensures View() == SendUnlock(old(View()), old(calls[k].id), ByCall(k))
      ensures otherOperations == old(otherOperations)
    {
      unlocks := unlocks + [Unlock(calls[k].id, ByCall(k))];
    }

    method EnterAwaitingValidation(k: nat, now: int)
      requires Linked(View()) && k < |calls| && k in records
      modifies this
      ensures View() == TransferModel.EnterAwaitingValidation(old(View()), k, now)
      ensures otherOperations == old(otherOperations)
    {
      records := records[k := records[k].(status := AwaitingValidation)];
      ScheduleValidationTimeout(k);
      var _ := PrunePendingTransfersInMemory(now);
      pendingTransfers := pendingTransfers[calls[k].id := Intent(k, calls[k].startedAt)];
      writes := writes + [pendingTransfers];
    }

    method ScheduleValidationTimeout(k: nat)
      requires Linked(View()) && k < |calls|
      modifies this
      ensures View() == ArmTimer(old(View()), k)
      ensures otherOperations == old(otherOperations)
    {
      var id := calls[k].id;
      if id !in activeTransfers {
        return;
      }
      var transfer := activeTransfers[id];
      records := records[transfer := records[transfer].(timer := Some(nextTimer))];
      timers := timers[nextTimer := Timer(id, k)];
      nextTimer := nextTimer + 1;
    }

    /** Deletes entries while walking the map. */
    method PrunePendingTransfersInMemory(now: int) returns (pruned: nat)
      modifies this`pendingTransfers
      ensures pendingTransfers == PruneIntents(old(pendingTransfers), now)
      ensures pruned == |old(pendingTransfers)| - |pendingTransfers|
    {
      var rest := pendingTransfers.Keys;
      pruned := 0;
      while rest != {}
        invariant rest <= old(pendingTransfers).Keys
        invariant forall id :: id in pendingTransfers <==>
                    id in old(pendingTransfers)
                    && (id in rest || now - old(pendingTransfers)[id].startedAt <= PENDING_TRANSFER_INTENT_RETENTION_MS)
        invariant forall id :: id in pendingTransfers ==> pendingTransfers[id] == old(pendingTransfers)[id]
        invariant pruned == |old(pendingTransfers)| - |pendingTransfers|
        decreases rest
      {
        var id :| id in rest;
        if now - pendingTransfers[id].startedAt > PENDING_TRANSFER_INTENT_RETENTION_MS {
          assert pendingTransfers.Keys == (pendingTransfers - {id}).Keys + {id};
          pendingTransfers := pendingTransfers - {id};
          pruned := pruned + 1;
        }
        rest := rest - {id};
      }
    }

    // -------------------------------------------------------------- handleTransferValidation

    method HandleTransferValidation(id: Id, verdict: Verdict)
      requires Linked(View())
      modifies this
      ensures View() == TakeVerdict(old(View()), id, verdict)
      ensures otherOperations == old(otherOperations)
    {
      if id !in activeTransfers {
        return;
      }
      var attempt := activeTransfers[id];
      var settled := records[attempt];
      if settled.status != AwaitingValidation {
        if verdict.success && settled.status == Failed {
          records := records[attempt := settled.(status := CleanupFailed)];
        } else if !verdict.success && settled.status == Failed && verdict.cleanupFailed {
          records := records[attempt := settled.(status := CleanupFailed, preserved := verdict.destinationPreserved)];
        } else if !verdict.success && settled.status == Failed && verdict.destinationPreserved {
          records := records[attempt := settled.(preserved := verdict.destinationPreserved)];
        }
        return;
      }
      records := records[attempt := settled.(preserved := verdict.destinationPreserved)];
      if settled.timer.Some? {
        timers := timers - {settled.timer.value};
        records := records[attempt := records[attempt].(timer := None)];
      }
      handlers := handlers + [Handler(id, attempt, verdict, Announcing, false)];
    }

    method ValidationTimeout(t: nat)
      requires Linked(View()) && t in timers
      modifies this
      ensures View() == FireTimer(old(View()), t)
      ensures otherOperations == old(otherOperations)
    {
      var id := timers[t].id;
      timers := timers - {t};
      if id !in activeTransfers || records[activeTransfers[id]].status != AwaitingValidation {
        return;
      }
      HandleTransferValidation(id, TIMEOUT_VERDICT);
    }

    method AfterAnnouncing(h: nat)
      requires h < |handlers|
      modifies this
      ensures View() == FinishAnnouncing(old(View()), h)
      ensures otherOperations == old(otherOperations)
    {
      if handlers[h].verdict.success {
        handlers := handlers[h := handlers[h].(phase := Deleting, deleteSent := true)];
      } else {
        unlocks := unlocks + [Unlock(handlers[h].id, ByVerdict(h))];
        handlers := handlers[h := handlers[h].(phase := Unlocking)];
      }
    }

    method AfterDeleteReply(h: nat, reply: DeleteReply)
      requires h < |handlers| && handlers[h].attempt in records
      modifies this
      ensures View() == ReceiveDeleteReply(old(View()), h, reply)
      ensures otherOperations == old(otherOperations)
    {
      var transfer := handlers[h].attempt;
      match reply {
        case Deleted =>
          records := records[transfer := records[transfer].(status := Completed)];
          handlers := handlers[h := handlers[h].(phase := Completing)];
        case DeleteRefused =>
          records := records[transfer := records[transfer].(status := CleanupFailed)];
          handlers := handlers[h := handlers[h].(phase := Refusing)];
        case DeleteThrew =>
          records := records[transfer := records[transfer].(status := Error)];
          handlers := handlers[h := handlers[h].(phase := Finished)];
      }
    }

    method AfterCompletion(h: nat)
      requires h < |handlers| && handlers[h].attempt in records
      modifies this
      ensures View() == FinishCompleting(old(View()), h)
      ensures otherOperations == old(otherOperations)
    {
      var transfer := records[handlers[h].attempt];
      if transfer.exportId != NO_ID {
        platformStorage := platformStorage - {transfer.exportId};
      }
      handlers := handlers[h := handlers[h].(phase := Storing)];
    }

    method AfterUnlockReply(h: nat, failed: bool)
      requires h < |handlers|
      modifies this
      ensures View() == ReceiveUnlockReply(old(View()), h, failed)
      ensures otherOperations == old(otherOperations)
    {
      handlers := handlers[h := handlers[h].(phase := Reporting(failed))];
    }

    method AfterReporting(h: nat)
      requires h < |handlers| && handlers[h].attempt in records && handlers[h].phase.Reporting?
      modifies this
      ensures View() == FinishReporting(old(View()), h)
      ensures otherOperations == old(otherOperations)
    {
      var transfer, rollbackFailed := handlers[h].attempt, handlers[h].phase.rollbackFailed;
      var status := Failed;
      if handlers[h].verdict.cleanupFailed {
        status := CleanupFailed;
      }
      records := records[transfer := records[transfer].(status := status)];
      handlers := handlers[h := handlers[h].(phase := Persisting(rollbackFailed))];
    }

    method RemovePendingTransfer(id: Id)
      modifies this`pendingTransfers, this`writes
      ensures View() == RemovePending(old(View()), id)
    {
      if id in pendingTransfers {
        pendingTransfers := pendingTransfers - {id};
        writes := writes + [pendingTransfers];
      }
    }

    /** The intent goes when the source is resolved. */
    method CloseHandler(h: nat)
      requires h < |handlers|
      requires handlers[h].phase.Storing? || handlers[h].phase.Refusing? || handlers[h].phase.Persisting?
      modifies this
      ensures View() == Settle(old(View()), h, {})
      ensures otherOperations == old(otherOperations)
    {
      var sourceResolved := handlers[h].phase.Storing? || handlers[h].phase == Persisting(false);
      handlers := handlers[h := handlers[h].(phase := Finished)];
      if sourceResolved {
        RemovePendingTransfer(handlers[h].id);
      }
      assert activeTransfers - {} == activeTransfers;
    }

    /** The end of a handler: the intent goes when the source is resolved, then old records are pruned. */
    method FinishHandler(h: nat) returns (ghost evicted: set<Id>)
      requires Linked(View()) && h < |handlers|
      requires handlers[h].phase.Storing? || handlers[h].phase.Refusing? || handlers[h].phase.Persisting?
      modifies this
      ensures MayEvict(old(View()), |old(otherOperations)|, |otherOperations|, evicted)
      ensures View() == Settle(old(View()), h, evicted)
    {
      ghost var was := View();
      CloseHandler(h);
      ClosingKeepsRecords(was, h);
      ghost var closed, others := View(), |otherOperations|;
      evicted := PruneOldTransfers();
      EvictionReadsRecords(was, closed, others, |otherOperations|, evicted);
      ClosingThenEvicting(was, h, evicted);
    }

    // -------------------------------------------------------------- storage, the file and restarts

    /** An import or export begins; its record joins the transfers in the map that is pruned. */
    method RecordOperation(id: Id, startedAt: int)
      modifies this`otherOperations
      ensures otherOperations == old(otherOperations)[id := startedAt]
    {
      otherOperations := otherOperations[id := startedAt];
    }

    method StoreExport(key: Id, item: StoredExport)
      modifies this`platformStorage
      ensures platformStorage == old(platformStorage)[key := item]
    {
      platformStorage := platformStorage[key := item];
    }

    method DropExport(key: Id)
      modifies this`platformStorage
      ensures platformStorage == old(platformStorage) - {key}
    {
      platformStorage := platformStorage - {key};
    }

    /** The oldest write of the pending intents has ended, one way or the other. */
    method AfterWrite()
      requires writes != []
      modifies this`writes
      ensures writes == old(writes)[1..]
    {
      writes := writes[1..];
    }

    /** What a new process finds; the calls and handlers that were on their way are lost. */
    method Start(stored: map<Id, StoredExport>, disk: map<Id, Intent>, now: int)
      modifies this
      ensures View() == Restart(old(View()), stored, disk, now)
      ensures otherOperations == map[]
    {
      RestartIsLoss(View(), stored, disk, now);
      LoseEverything();
      platformStorage, pendingTransfers := stored, disk;
      var _ := PrunePendingTransfersInMemory(now);
    }

    method LoseEverything()
      modifies this
      ensures View() == old(View()).(activeTransfers := map[], calls := LostCalls(old(calls)),
                                     handlers := EndedHandlers(old(handlers)), timers := map[], writes := [])
      ensures otherOperations == map[]
    {
      calls, handlers := LostCalls(calls), EndedHandlers(handlers);
      activeTransfers, otherOperations, timers, writes := map[], map[], map[], [];
    }

    /** All records, newest first in the order of the sort; those from position 100 on are deleted. */
    method PruneOldTransfers() returns (ghost evicted: set<Id>)
      requires Linked(View())
      modifies this`activeTransfers, this`otherOperations
      ensures MayEvict(old(View()), |old(otherOperations)|, |otherOperations|, evicted)
      ensures View() == Evict(old(View()), evicted)
    {
      if |activeTransfers| + |otherOperations| <= MAX_ACTIVE_TRANSFERS {
        evicted := {};
        NoEviction(View(), |otherOperations|);
        return;
      }
      var sorted := SortedEntries();
      activeTransfers, otherOperations, evicted := DeleteOldest(View(), activeTransfers, otherOperations, sorted);
    }

    method SortedEntries() returns (sorted: seq<Entry>)
      requires Linked(View())
      ensures Lists(View(), otherOperations, sorted) && Sorted(NewestFirst(), sorted)
      ensures NamesDiffer(sorted) && AllPresent(activeTransfers, otherOperations, sorted, 0)
    {
      var entries := Entries();
      SortedLists(View(), otherOperations, entries);
      sorted := Sort(NewestFirst(), entries);
      ListNamesDiffer(View(), otherOperations, sorted);
    }

    /** Array.from(activeTransfers.entries()), in some order. */
    method Entries() returns (entries: seq<Entry>)
      requires Linked(View())
      ensures Lists(View(), otherOperations, entries)
    {
      entries := [];
      var rest := activeTransfers.Keys;
      while rest != {}
        invariant rest <= activeTransfers.Keys && Distinct(entries)
        invariant |entries| + |rest| == |activeTransfers|
        invariant forall e :: e in entries <==>
                    e.isTransfer && e.id in activeTransfers && e.id !in rest
                    && e.startedAt == records[activeTransfers[e.id]].startedAt
        decreases rest
      {
        var id :| id in rest;
        entries := entries + [Entry(id, records[activeTransfers[id]].startedAt, true)];
        rest := rest - {id};
      }
      var others := otherOperations.Keys;
      while others != {}
        invariant others <= otherOperations.Keys && Distinct(entries)
        invariant |entries| + |others| == |activeTransfers| + |otherOperations|
        invariant forall e :: e in entries <==>
                    if e.isTransfer
                    then e.id in activeTransfers && e.startedAt == records[activeTransfers[e.id]].startedAt
                    else e.id in otherOperations && e.id !in others && e.startedAt == otherOperations[e.id]
        decreases others
      {
        var id :| id in others;
        entries := entries + [Entry(id, otherOperations[id], false)];
        others := others - {id};
      }
    }
  }
}
