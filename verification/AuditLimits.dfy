/**
 When the ledger rotates, in bytes and rows: a live file is put away exactly when it has reached the limit, so
 nothing is dropped before the limit has been reached, and an append never finds the live file full.
 */
module AuditLimits {
  import opened Wrappers
  import opened AuditIndex
  import opened AuditLedger

  /** The byte limit is a positive finite number. */
  predicate HasLimit(limits: Limits, bytes: nat) {
    limits.maxBytes == Some(bytes) && bytes > 0
  }

  // ---------------------------------------------------------------- bytes

  lemma SizeOfOne(row: AuditRow)
    ensures Size([row]) == row.bytes
  {
    assert [row][..0] == [];
  }

  lemma {:induction false} SizeAdds(a: seq<AuditRow>, b: seq<AuditRow>)
    ensures Size(a + b) == Size(a) + Size(b)
  {
    if b == [] {
      assert a + b == a;
    } else {
      assert (a + b)[..|a + b| - 1] == a + b[..|b| - 1];
      SizeAdds(a, b[..|b| - 1]);
    }
  }

  lemma {:induction false} LiveIsPart(files: Files, m: int)
    requires m >= 0
    ensures Size(At(files, 0)) <= Size(LoadFrom(files, m))
    decreases m
  {
    SizeAdds(At(files, m), LoadFrom(files, m - 1));
    if m > 0 { LiveIsPart(files, m - 1); }
  }

  // ---------------------------------------------------------------- neither too early nor too late

  /** A write past its rotation finds room; a write in the middle of one has found the live file full. */
  ghost predicate LimitKept(limits: Limits, s: Ledger) {
    match s.phase
    case Stat => true
    case Append => forall bytes: nat :: HasLimit(limits, bytes) ==> Size(At(s.files, 0)) < bytes
    case Remove => limits.maxFiles >= 1 && LiveIsFull(limits, s.files)
    case Shift(g) => g >= 1 && LiveIsFull(limits, s.files)
    case Promote => LiveIsFull(limits, s.files)
  }

  predicate LiveIsFull(limits: Limits, files: Files) {
    limits.maxBytes.Some? && 0 < limits.maxBytes.value <= Size(At(files, 0))
  }

  lemma AdvanceKeepsLimit(limits: Limits, s: Ledger)
    requires s.queue != [] && LimitKept(limits, s)
    ensures LimitKept(limits, AdvanceOne(limits, s))
  {
    var r := AdvanceOne(limits, s);
    match s.phase
    case Remove => assert At(r.files, 0) == At(s.files, 0);
    case Shift(g) => assert At(r.files, 0) == At(s.files, 0);
    case Promote => assert At(r.files, 0) == [];
    case _ =>
  }

  /**
   In every run, with failures and restarts, and whatever the limits: a row is appended only to a live file that is
   smaller than the limit, and files are removed or renamed only while the live file has reached it.
   */
  lemma {:induction false} RotatesExactlyWhenFull(limits: Limits, files: Files, events: seq<Event>)
    ensures var s := Run(limits, Loaded(limits, files), events);
            && (s.phase == Append ==> forall bytes: nat :: HasLimit(limits, bytes) ==> Size(At(s.files, 0)) < bytes)
            && (s.phase != Append && s.phase != Stat ==>
                  limits.maxBytes.Some? && 0 < limits.maxBytes.value <= Size(At(s.files, 0)))
            && LimitKept(limits, s)
  {
    if events != [] {
      var n := |events| - 1;
      RotatesExactlyWhenFull(limits, files, events[..n]);
      var s := Run(limits, Loaded(limits, files), events[..n]);
      if events[n] == Advance && s.queue != [] {
        AdvanceKeepsLimit(limits, s);
      }
    }
  }

  // ---------------------------------------------------------------- the whole history below the limit

  /** The rows written come to less than the limit, if there is one. */
  ghost predicate BelowLimit(limits: Limits, rows: seq<AuditRow>) {
    forall bytes: nat :: HasLimit(limits, bytes) ==> Size(rows) < bytes
  }

  ghost predicate HoldsAll(limits: Limits, s: Ledger) {
    s.phase in {Stat, Append} && Load(s.files, limits.maxFiles) == s.history
  }

  lemma HistoryGrows(limits: Limits, s: Ledger, event: Event)
    ensures s.history <= Step(limits, s, event).history
  {
  }

  lemma ShorterIsBelow(limits: Limits, a: seq<AuditRow>, b: seq<AuditRow>)
    requires a <= b && BelowLimit(limits, b)
    ensures BelowLimit(limits, a)
  {
    SizeAdds(a, b[|a|..]);
    assert b == a + b[|a|..];
  }

  lemma NotDueBelow(limits: Limits, s: Ledger)
    requires HoldsAll(limits, s) && BelowLimit(limits, s.history)
    ensures !Due(limits, s.files)
  {
    LiveIsPart(s.files, if limits.maxFiles >= 1 then limits.maxFiles else 0);
    if Due(limits, s.files) {
      assert HasLimit(limits, limits.maxBytes.value);
    }
  }

  lemma StepHoldsAll(limits: Limits, s: Ledger, event: Event)
    requires HoldsAll(limits, s) && BelowLimit(limits, s.history)
    ensures HoldsAll(limits, Step(limits, s, event))
  {
    var m := if limits.maxFiles >= 1 then limits.maxFiles else 0;
    NotDueBelow(limits, s);
    match event
    case Advance =>
      if s.queue != [] && s.phase == Append { AppendExtendsLoad(s.files, s.queue[0], m); }
    case Restart(migrated) =>
      if Load(s.files, limits.maxFiles) == [] && migrated != [] {
        MigrationIsLoaded(s.files, migrated, m);
        assert [] + migrated == migrated;
      }
    case _ =>
  }

  /**
   As long as all rows ever written come to fewer bytes than the limit, or there is none, what would be loaded is
   every one of them, in order; failures and restarts make no difference.
   */
  lemma {:induction false} NothingDroppedBelowLimit(limits: Limits, files: Files, events: seq<Event>)
    requires BelowLimit(limits, Run(limits, Loaded(limits, files), events).history)
    ensures var s := Run(limits, Loaded(limits, files), events);
            Load(s.files, limits.maxFiles) == s.history && s.phase in {Stat, Append}
  {
    if events != [] {
      var n := |events| - 1;
      var s := Run(limits, Loaded(limits, files), events[..n]);
      HistoryGrows(limits, s, events[n]);
      ShorterIsBelow(limits, s.history, Step(limits, s, events[n]).history);
      NothingDroppedBelowLimit(limits, files, events[..n]);
      StepHoldsAll(limits, s, events[n]);
    }
  }
}
