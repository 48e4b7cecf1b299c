/**
 The store of detailed logs as it is written: a finished transfer's log replaces the one of its id or is
 added at the end, and the retention selection cuts the store down.
 */
module DetailStore {
  import opened Wrappers
  import opened Sorting
  import opened Retention

  /** One write: the log, and the ids that are pinned at that moment. */
  datatype Save = Save(entry: Entry, pinned: set<Id>)

  ghost predicate DistinctIds(logs: seq<Entry>) {
    forall i, j :: 0 <= i < j < |logs| ==> logs[i].transferId != logs[j].transferId
  }

  predicate HasId(logs: seq<Entry>, id: Id) {
    exists i :: 0 <= i < |logs| && logs[i].transferId == id
  }

  /** The first log of the id is replaced; without one the log is added at the end. */
  function Upsert(logs: seq<Entry>, entry: Entry): (r: seq<Entry>) {
    if logs == [] then [entry]
    else if logs[0].transferId == entry.transferId then [entry] + logs[1..]
    else [logs[0]] + Upsert(logs[1..], entry)
  }

  /** Pinning is asked anew at every selection. */
  function Repin(logs: seq<Entry>, pinned: set<Id>): (r: seq<Entry>)
    ensures |r| == |logs|
    ensures forall i :: 0 <= i < |logs| ==> r[i] == logs[i].(pinned := logs[i].transferId in pinned)
  {
    seq(|logs|, i requires 0 <= i < |logs| => logs[i].(pinned := logs[i].transferId in pinned))
  }

  function Persist(logs: seq<Entry>, save: Save, cap: Option<real>, reserved: int): (r: seq<Entry>) {
    Select(Repin(Upsert(logs, save.entry), save.pinned), cap, reserved)
  }

  function PersistAll(saves: seq<Save>, cap: Option<real>, reserved: int): (logs: seq<Entry>) {
    if saves == [] then []
    else Persist(PersistAll(saves[..|saves| - 1], cap, reserved), saves[|saves| - 1], cap, reserved)
  }

  lemma {:induction false} UpsertHas(logs: seq<Entry>, entry: Entry, e: Entry)
    requires DistinctIds(logs)
    ensures DistinctIds(Upsert(logs, entry))
    ensures e in Upsert(logs, entry) <==> e == entry || (e in logs && e.transferId != entry.transferId)
  {
    if logs != [] {
      var rest := logs[1..];
      assert logs == [logs[0]] + rest;
      if logs[0].transferId != entry.transferId {
        UpsertHas(rest, entry, e);
        var r := Upsert(rest, entry);
        forall i | 0 <= i < |r| ensures r[i].transferId != logs[0].transferId {
          UpsertHas(rest, entry, r[i]);
          assert r[i] in r;
        }
      }
    }
  }

  lemma RepinnedIsDistinct(logs: seq<Entry>, pinned: set<Id>)
    requires DistinctIds(logs)
    ensures DistinctIds(Repin(logs, pinned)) && Distinct(Repin(logs, pinned))
  {
  }

  /** A selection of logs with different ids has different ids. */
  lemma SelectedIsDistinct(logs: seq<Entry>, cap: Option<real>, reserved: int)
    requires DistinctIds(logs) && Distinct(logs)
    ensures DistinctIds(Select(logs, cap, reserved))
    ensures forall e :: e in Select(logs, cap, reserved) ==> e in logs
  {
    if |logs| > CapOf(cap) > 0 {
      var keep := KeepSet(logs, CapOf(cap), reserved);
      var kept := Where(logs, keep);
      WhereKeepsDistinct(logs, keep);
      forall e ensures e in kept ==> e in logs { WhereHas(logs, keep, e); }
      forall i, j | 0 <= i < j < |kept| ensures kept[i].transferId != kept[j].transferId {
        assert kept[i] in kept && kept[j] in kept;
        var a :| 0 <= a < |logs| && logs[a] == kept[i];
        var b :| 0 <= b < |logs| && logs[b] == kept[j];
        assert a != b;
      }
    }
  }

  /** The last log saved for the id of e is e, whatever its pin. */
  ghost predicate IsLatest(saves: seq<Save>, e: Entry) {
    exists k :: 0 <= k < |saves| && SavedAt(saves, k, e)
      && forall l :: k < l < |saves| ==> saves[l].entry.transferId != e.transferId
  }

  predicate SavedAt(saves: seq<Save>, k: int, e: Entry)
    requires 0 <= k < |saves|
  {
    e == saves[k].entry.(pinned := e.pinned)
  }

  /** However logs are saved: one log for each id, the last one saved, and never more than the cap. */
  lemma {:induction false} StoreStaysBounded(saves: seq<Save>, cap: Option<real>, reserved: int)
    ensures var logs := PersistAll(saves, cap, reserved);
            && DistinctIds(logs)
            && (CapOf(cap) > 0 ==> |logs| <= CapOf(cap))
            && (forall e :: e in logs ==> IsLatest(saves, e))
            && (saves != [] ==> forall e :: e in logs ==> (e.pinned <==> e.transferId in saves[|saves| - 1].pinned))
  {
    if saves != [] {
      var init, save := saves[..|saves| - 1], saves[|saves| - 1];
      var before := PersistAll(init, cap, reserved);
      StoreStaysBounded(init, cap, reserved);
      var merged := Upsert(before, save.entry);
      UpsertHas(before, save.entry, save.entry);
      var all := Repin(merged, save.pinned);
      RepinnedIsDistinct(merged, save.pinned);
      SelectedIsDistinct(all, cap, reserved);
      if |all| > CapOf(cap) > 0 {
        KeepSetIsAmong(all, CapOf(cap), reserved);
        KeptAreListed(all, KeepSet(all, CapOf(cap), reserved));
      }
      forall e | e in Select(all, cap, reserved) ensures IsLatest(saves, e) {
        StoredIsLatest(saves, before, merged, e);
      }
    }
  }

  lemma StoredIsLatest(saves: seq<Save>, before: seq<Entry>, merged: seq<Entry>, e: Entry)
    requires saves != [] && DistinctIds(before) && forall x :: x in before ==> IsLatest(saves[..|saves| - 1], x)
    requires merged == Upsert(before, saves[|saves| - 1].entry) && e in Repin(merged, saves[|saves| - 1].pinned)
    ensures IsLatest(saves, e)
  {
    var n, save := |saves| - 1, saves[|saves| - 1];
    var i :| 0 <= i < |merged| && Repin(merged, save.pinned)[i] == e;
    var x := merged[i];
    assert x in merged;
    UpsertHas(before, save.entry, x);
    if x == save.entry {
      assert SavedAt(saves, n, e);
    } else {
      LatestGoesOn(saves, x, e);
    }
  }

  lemma LatestGoesOn(saves: seq<Save>, x: Entry, e: Entry)
    requires saves != [] && IsLatest(saves[..|saves| - 1], x) && e == x.(pinned := e.pinned)
    requires saves[|saves| - 1].entry.transferId != x.transferId
    ensures IsLatest(saves, e)
  {
    var init := saves[..|saves| - 1];
    var k :| 0 <= k < |init| && SavedAt(init, k, x)
          && forall l :: k < l < |init| ==> init[l].entry.transferId != x.transferId;
    assert SavedAt(saves, k, e);
    forall l | k < l < |saves| ensures saves[l].entry.transferId != e.transferId {
      assert l < |init| ==> saves[l] == init[l];
    }
  }

  /** The entry is the new log, or one of another id that was there, pinned as it is asked now. */
  ghost predicate IsMerged(logs: seq<Entry>, save: Save, e: Entry) {
    exists x :: (x == save.entry || (x in logs && x.transferId != save.entry.transferId))
                && IsRepinned(x, save.pinned, e)
  }

  predicate IsRepinned(x: Entry, pinned: set<Id>, e: Entry) {
    e == x.(pinned := x.transferId in pinned)
  }

  /** The logs before the write, with the new one among them and the pins asked anew. */
  ghost predicate Merges(logs: seq<Entry>, save: Save, all: seq<Entry>) {
    && DistinctIds(all) && Distinct(all)
    && (forall e :: e in all <==> IsMerged(logs, save, e))
  }

  lemma MergedHas(logs: seq<Entry>, save: Save, e: Entry)
    requires DistinctIds(logs)
    ensures e in Repin(Upsert(logs, save.entry), save.pinned) <==> IsMerged(logs, save, e)
  {
    var merged := Upsert(logs, save.entry);
    var all := Repin(merged, save.pinned);
    if i :| 0 <= i < |all| && all[i] == e {
      assert merged[i] in merged;
      UpsertHas(logs, save.entry, merged[i]);
      assert IsRepinned(merged[i], save.pinned, e);
    }
    if x :| (x == save.entry || (x in logs && x.transferId != save.entry.transferId)) && IsRepinned(x, save.pinned, e) {
      UpsertHas(logs, save.entry, x);
      var i :| 0 <= i < |merged| && merged[i] == x;
      assert all[i] == e;
    }
  }

  /** A write keeps the merged logs, or of more than the limit the selection of them. */
  lemma PersistSelects(logs: seq<Entry>, save: Save, cap: Option<real>, reserved: int) returns (all: seq<Entry>)
    requires DistinctIds(logs)
    ensures Merges(logs, save, all)
    ensures forall n: nat :: IsCap(cap, n) && 0 < n < |all| ==>
              IsSelection(all, Persist(logs, save, cap, reserved), n, reserved)
    ensures cap.None? || cap.value < 1.0 || |all| as real <= cap.value ==> Persist(logs, save, cap, reserved) == all
  {
    var merged := Upsert(logs, save.entry);
    all := Repin(merged, save.pinned);
    UpsertHas(logs, save.entry, save.entry);
    RepinnedIsDistinct(merged, save.pinned);
    forall e ensures e in all <==> IsMerged(logs, save, e) { MergedHas(logs, save, e); }
    SelectionsAreExact(all, cap, reserved);
  }

  // ---------------------------------------------------------------- while there is room

  lemma HasIdFirst(first: Entry, rest: seq<Entry>, id: Id)
    ensures HasId([first] + rest, id) <==> first.transferId == id || HasId(rest, id)
  {
    var all := [first] + rest;
    if i :| 0 <= i < |rest| && rest[i].transferId == id {
      assert all[i + 1].transferId == id;
    }
    assert all[0] == first;
  }

  lemma {:induction false} UpsertKeepsIds(logs: seq<Entry>, entry: Entry, id: Id)
    ensures HasId(Upsert(logs, entry), id) <==> HasId(logs, id) || id == entry.transferId
    ensures |Upsert(logs, entry)| <= |logs| + 1
  {
    if logs == [] {
      HasIdFirst(entry, [], id);
      assert [entry] + [] == [entry];
    } else {
      var rest := logs[1..];
      HasIdFirst(logs[0], rest, id);
      assert [logs[0]] + rest == logs;
      if logs[0].transferId == entry.transferId {
        HasIdFirst(entry, rest, id);
      } else {
        UpsertKeepsIds(rest, entry, id);
        HasIdFirst(logs[0], Upsert(rest, entry), id);
      }
    }
  }

  ghost predicate WasSaved(saves: seq<Save>, id: Id) {
    exists k :: 0 <= k < |saves| && saves[k].entry.transferId == id
  }

  lemma SavedOneMore(saves: seq<Save>, id: Id)
    requires saves != []
    ensures WasSaved(saves, id) <==>
            WasSaved(saves[..|saves| - 1], id) || saves[|saves| - 1].entry.transferId == id
  {
    var init := saves[..|saves| - 1];
    if k :| 0 <= k < |init| && init[k].entry.transferId == id {
      assert saves[k].entry.transferId == id;
    }
    if k :| 0 <= k < |saves| - 1 && saves[k].entry.transferId == id {
      assert init[k].entry.transferId == id;
    }
  }

  lemma RepinKeepsIds(logs: seq<Entry>, pinned: set<Id>, id: Id)
    ensures HasId(Repin(logs, pinned), id) <==> HasId(logs, id)
  {
    var r := Repin(logs, pinned);
    assert forall i :: 0 <= i < |logs| ==> r[i].transferId == logs[i].transferId;
  }

  /** As long as no more logs were saved than fit, or there is no limit, every transfer saved has its log. */
  lemma {:induction false} StoreKeepsAll(saves: seq<Save>, cap: Option<real>, reserved: int, id: Id)
    requires cap.None? || cap.value < 1.0 || |saves| as real <= cap.value
    ensures var logs := PersistAll(saves, cap, reserved);
            && (HasId(logs, id) <==> WasSaved(saves, id)) && |logs| <= |saves|
  {
    if saves != [] {
      var init, save := saves[..|saves| - 1], saves[|saves| - 1];
      var before := PersistAll(init, cap, reserved);
      StoreKeepsAll(init, cap, reserved, id);
      StoreStaysBounded(init, cap, reserved);
      UpsertKeepsIds(before, save.entry, id);
      RepinKeepsIds(Upsert(before, save.entry), save.pinned, id);
      SelectsAll(Repin(Upsert(before, save.entry), save.pinned), cap, reserved);
      SavedOneMore(saves, id);
    }
  }

  class DetailStore {
    var persistedTransactionLogs: seq<Entry>

    constructor ()
      ensures persistedTransactionLogs == []
    {
      persistedTransactionLogs := [];
    }

    /** The index of the log of an id, or the length when there is none. */
    method FindIndex(id: Id) returns (i: nat)
      ensures i <= |persistedTransactionLogs|
      ensures i < |persistedTransactionLogs| <==> HasId(persistedTransactionLogs, id)
      ensures i < |persistedTransactionLogs| ==> persistedTransactionLogs[i].transferId == id
      ensures forall j :: 0 <= j < i ==> persistedTransactionLogs[j].transferId != id
    {
      i := 0;
      while i < |persistedTransactionLogs| && persistedTransactionLogs[i].transferId != id
        invariant i <= |persistedTransactionLogs|
        invariant forall j :: 0 <= j < i ==> persistedTransactionLogs[j].transferId != id
      {
        i := i + 1;
      }
    }

    method PersistTransactionLog(save: Save, cap: Option<real>, reservedSuccessSlots: Option<int>)
      modifies this
      ensures persistedTransactionLogs ==
              Persist(old(persistedTransactionLogs), save, cap, Reserved(reservedSuccessSlots))
    {
      var i := FindIndex(save.entry.transferId);
      UpsertAt(persistedTransactionLogs, save.entry, i);
      var allLogs := persistedTransactionLogs;
      if i < |allLogs| {
        allLogs := allLogs[i := save.entry];
      } else {
        allLogs := allLogs + [save.entry];
      }
      persistedTransactionLogs := SelectRetainedDetail(Repin(allLogs, save.pinned), cap, reservedSuccessSlots);
    }
  }

  lemma {:induction false} UpsertAt(logs: seq<Entry>, entry: Entry, i: nat)
    requires i <= |logs| && (i < |logs| ==> logs[i].transferId == entry.transferId)
    requires forall j :: 0 <= j < i ==> logs[j].transferId != entry.transferId
    ensures Upsert(logs, entry) == if i < |logs| then logs[i := entry] else logs + [entry]
  {
    if i > 0 {
      UpsertAt(logs[1..], entry, i - 1);
      assert logs == [logs[0]] + logs[1..];
    } else if logs != [] {
      assert logs[0 := entry] == [entry] + logs[1..];
    }
  }
}
