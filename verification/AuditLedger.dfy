/**
 The rotating ledger of audit rows, one file operation at a time. Writes to the ledger wait in one
 queue; any operation can fail, and the controller can stop between any two of them.
 */
module AuditLedger {
  import opened Wrappers
  import opened AuditIndex

  /** No byte limit is an option that is not a finite number. */
  datatype Limits = Limits(maxBytes: Option<int>, maxFiles: int)

  /** Generation 0 is the live file, generation maxFiles the oldest one. */
  type Files = map<int, seq<AuditRow>>

  function At(files: Files, generation: int): (rows: seq<AuditRow>) {
    if generation in files then files[generation] else []
  }

  function LoadFrom(files: Files, generation: int): (rows: seq<AuditRow>)
    decreases generation + 1
  {
    if generation < 0 then [] else At(files, generation) + LoadFrom(files, generation - 1)
  }

  /** What the loader concatenates: the oldest generation first, the live file last. */
  function Load(files: Files, maxFiles: int): (rows: seq<AuditRow>) {
    LoadFrom(files, if maxFiles >= 1 then maxFiles else 0)
  }

  function Size(rows: seq<AuditRow>): (bytes: nat) {
    if rows == [] then 0 else Size(rows[..|rows| - 1]) + rows[|rows| - 1].bytes
  }

  /** The live file has reached the limit. */
  predicate Due(limits: Limits, files: Files) {
    && limits.maxBytes.Some? && limits.maxBytes.value > 0
    && 0 in files && Size(files[0]) >= limits.maxBytes.value
  }

  /** Renaming replaces the target; a missing source is ignored. */
  function Rename(files: Files, from: int, to: int): (r: Files)
    requires from != to
  {
    if from in files then files[to := files[from]] - {from} else files
  }

  datatype Phase = Stat | Remove | Shift(generation: int) | Promote | Append

  /**
   The files, the rows waiting to be written and the operation the first of them is at, the index in
   memory, the rows the index was built from, and every row that was ever written.
   */
  datatype Ledger = Ledger(files: Files, queue: seq<AuditRow>, phase: Phase,
                           index: map<Id, AuditRow>, revisions: map<Id, nat>,
                           seen: seq<AuditRow>, history: seq<AuditRow>)

  datatype Event =
    | Enqueue(row: AuditRow)
    | Advance
    | Fail
    | Restart(migrated: seq<AuditRow>)
    | RestartUnreadable

  function AfterGeneration(generation: int): (phase: Phase) {
    if generation > 1 then Shift(generation - 1) else Promote
  }

  /** The row is in the live file, and the index has taken it in. */
  function Recorded(s: Ledger, row: AuditRow): (r: Ledger) {
    s.(files := s.files[0 := At(s.files, 0) + [row]],
       index := Absorb(s.index, row), revisions := Count(s.revisions, row),
       seen := s.seen + [row], history := s.history + [row])
  }

  /** The next file operation of the first waiting write. */
  function AdvanceOne(limits: Limits, s: Ledger): (r: Ledger)
    requires s.queue != []
  {
    match s.phase
    case Stat =>
      if !Due(limits, s.files) then s.(phase := Append)
      else if limits.maxFiles >= 1 then s.(phase := Remove)
      else s.(phase := Promote)
    case Remove =>
      s.(files := s.files - {limits.maxFiles}, phase := AfterGeneration(limits.maxFiles))
    case Shift(generation) =>
      s.(files := Rename(s.files, generation, generation + 1), phase := AfterGeneration(generation))
    case Promote =>
      s.(files := Rename(s.files, 0, 1), phase := Append)
    case Append => Recorded(s, s.queue[0]).(queue := s.queue[1..], phase := Stat)
  }

  /** A restart forgets the queue and reads the ledger back, or fills an empty one from the detail store. */
  function Reload(limits: Limits, s: Ledger, migrated: seq<AuditRow>): (r: Ledger) {
    var loaded := Load(s.files, limits.maxFiles);
    if loaded == [] && migrated != []
    then Ledger(s.files[0 := migrated], [], Stat, Fold(migrated), Revisions(migrated), migrated, s.history + migrated)
    else Ledger(s.files, [], Stat, Fold(loaded), Revisions(loaded), loaded, s.history)
  }

  function Step(limits: Limits, s: Ledger, event: Event): (r: Ledger) {
    match event
    case Enqueue(row) => s.(queue := s.queue + [row])
    case Advance => if s.queue == [] then s else AdvanceOne(limits, s)
    case Fail => if s.queue == [] then s else s.(queue := s.queue[1..], phase := Stat)
    case Restart(migrated) => Reload(limits, s, migrated)
    case RestartUnreadable => Ledger(s.files, [], Stat, map[], map[], [], s.history)
  }

  function Run(limits: Limits, s: Ledger, events: seq<Event>): (r: Ledger) {
    if events == [] then s else Step(limits, Run(limits, s, events[..|events| - 1]), events[|events| - 1])
  }

  /** A controller that has just loaded the files. */
  function Loaded(limits: Limits, files: Files): (s: Ledger) {
    var rows := Load(files, limits.maxFiles);
    Ledger(files, [], Stat, Fold(rows), Revisions(rows), rows, rows)
  }

  ghost predicate IsSuffix(a: seq<AuditRow>, b: seq<AuditRow>) {
    |a| <= |b| && a == b[|b| - |a|..]
  }

  ghost predicate KnownGenerations(files: Files, maxFiles: int) {
    forall g :: g in files ==> 0 <= g <= maxFiles
  }

  /** Where a rotation has been, there is a free place for the next file. */
  ghost predicate RoomAhead(limits: Limits, s: Ledger) {
    match s.phase
    case Stat => true
    case Append => true
    case Remove => Due(limits, s.files)
    case Shift(g) => Due(limits, s.files) && 1 <= g < limits.maxFiles && g + 1 !in s.files
    case Promote => Due(limits, s.files) && 1 !in s.files
  }

  ghost predicate Kept(limits: Limits, s: Ledger) {
    && IsSuffix(Load(s.files, limits.maxFiles), s.history)
    && (s.history != [] ==> Load(s.files, limits.maxFiles) != [])
  }

  ghost predicate Indexed(s: Ledger) {
    s.index == Fold(s.seen) && s.revisions == Revisions(s.seen) && IsSuffix(s.seen, s.history)
  }

  ghost predicate Sound(limits: Limits, s: Ledger) {
    && KnownGenerations(s.files, limits.maxFiles) && RoomAhead(limits, s)
    && Kept(limits, s) && Indexed(s)
  }

  lemma {:induction false} LoadDependsOn(a: Files, b: Files, g: int)
    requires forall k :: 0 <= k <= g ==> At(a, k) == At(b, k)
    ensures LoadFrom(a, g) == LoadFrom(b, g)
    decreases g + 1
  {
    if g >= 0 { LoadDependsOn(a, b, g - 1); }
  }

  /** Moving a file into a free neighbouring place leaves the loaded rows as they were. */
  lemma {:induction false} ShiftKeepsLoad(files: Files, g: int, m: int)
    requires 0 <= g < m && g + 1 !in files
    ensures LoadFrom(Rename(files, g, g + 1), m) == LoadFrom(files, m)
    decreases m
  {
    var r := Rename(files, g, g + 1);
    if m == g + 1 {
      LoadDependsOn(r, files, g - 1);
      assert At(r, g + 1) == At(files, g) && At(r, g) == [] && At(files, g + 1) == [];
      assert LoadFrom(r, m) == At(r, m) + (At(r, g) + LoadFrom(r, g - 1));
      assert LoadFrom(files, m) == At(files, m) + (At(files, g) + LoadFrom(files, g - 1));
    } else {
      ShiftKeepsLoad(files, g, m - 1);
      assert At(r, m) == At(files, m);
    }
  }

  /** Removing the oldest generation drops its rows from the front and nothing else. */
  lemma RemovalDropsOldest(files: Files, m: int)
    requires m >= 0
    ensures LoadFrom(files, m) == At(files, m) + LoadFrom(files - {m}, m)
  {
    var rest := files - {m};
    LoadDependsOn(files, rest, m - 1);
    assert At(rest, m) == [];
    NothingBefore(LoadFrom(rest, m - 1));
  }

  lemma NothingBefore(rows: seq<AuditRow>)
    ensures [] + rows == rows
  {
  }

  lemma {:induction false} AppendExtendsLoad(files: Files, row: AuditRow, m: int)
    requires m >= 0
    ensures LoadFrom(files[0 := At(files, 0) + [row]], m) == LoadFrom(files, m) + [row]
    decreases m
  {
    var r := files[0 := At(files, 0) + [row]];
    if m == 0 {
      assert LoadFrom(files, -1) == [] == LoadFrom(r, -1);
      assert At(r, 0) + [] == At(files, 0) + [] + [row];
    } else {
      AppendExtendsLoad(files, row, m - 1);
      assert At(r, m) == At(files, m);
      assert At(files, m) + (LoadFrom(files, m - 1) + [row]) == At(files, m) + LoadFrom(files, m - 1) + [row];
    }
  }

  lemma {:induction false} LiveIsLoaded(files: Files, m: int)
    requires m >= 0 && At(files, 0) != []
    ensures LoadFrom(files, m) != []
    decreases m
  {
    if m == 0 {
      assert At(files, 0) + LoadFrom(files, -1) == At(files, 0);
    } else {
      LiveIsLoaded(files, m - 1);
    }
  }

  /**
   One file operation either leaves what would be loaded as it is, or adds the row being written at
   the end, or drops exactly the oldest generation; and a rename never finds its target taken.
   */
  lemma AdvanceEffect(limits: Limits, s: Ledger)
    requires limits.maxFiles >= 1 && s.queue != [] && RoomAhead(limits, s)
    ensures var r := AdvanceOne(limits, s);
            var before, after := Load(s.files, limits.maxFiles), Load(r.files, limits.maxFiles);
            && (s.phase == Append ==> after == before + [s.queue[0]])
            && (s.phase == Remove ==> before == At(s.files, limits.maxFiles) + after)
            && (s.phase != Append && s.phase != Remove ==> after == before)
            && !Overwrites(s)
  {
    var m := limits.maxFiles;
    match s.phase
    case Remove => RemovalDropsOldest(s.files, m);
    case Shift(g) => ShiftKeepsLoad(s.files, g, m);
    case Promote => ShiftKeepsLoad(s.files, 0, m);
    case Append => AppendExtendsLoad(s.files, s.queue[0], m);
    case Stat =>
  }

  /** The rename that comes next would replace a file that holds a generation. */
  predicate Overwrites(s: Ledger) {
    match s.phase
    case Shift(g) => g in s.files && g + 1 in s.files
    case Promote => 0 in s.files && 1 in s.files
    case _ => false
  }

  lemma RoomAfterRemoval(limits: Limits, s: Ledger)
    requires limits.maxFiles >= 1 && s.phase == Remove && RoomAhead(limits, s)
    requires KnownGenerations(s.files, limits.maxFiles)
    ensures RoomAhead(limits, s.(files := s.files - {limits.maxFiles}, phase := AfterGeneration(limits.maxFiles)))
  {
    assert (s.files - {limits.maxFiles})[0] == s.files[0];
  }

  lemma RoomAfterShift(limits: Limits, s: Ledger, g: int)
    requires s.phase == Shift(g) && RoomAhead(limits, s)
    ensures RoomAhead(limits, s.(files := Rename(s.files, g, g + 1), phase := AfterGeneration(g)))
  {
    assert Rename(s.files, g, g + 1)[0] == s.files[0];
  }

  lemma AdvanceKeepsRoom(limits: Limits, s: Ledger)
    requires limits.maxFiles >= 1 && s.queue != []
    requires KnownGenerations(s.files, limits.maxFiles) && RoomAhead(limits, s)
    ensures KnownGenerations(AdvanceOne(limits, s).files, limits.maxFiles)
    ensures RoomAhead(limits, AdvanceOne(limits, s))
  {
    match s.phase
    case Remove => RoomAfterRemoval(limits, s);
    case Shift(g) => RoomAfterShift(limits, s, g);
    case _ =>
  }

  lemma SuffixGrows(a: seq<AuditRow>, b: seq<AuditRow>, row: AuditRow)
    requires IsSuffix(a, b)
    ensures IsSuffix(a + [row], b + [row])
  {
  }

  lemma SuffixDrops(a: seq<AuditRow>, dropped: seq<AuditRow>, rest: seq<AuditRow>, b: seq<AuditRow>)
    requires IsSuffix(a, b) && a == dropped + rest
    ensures IsSuffix(rest, b)
  {
    var k := |b| - |a|;
    assert rest == a[|dropped|..] == b[k..][|dropped|..] == b[k + |dropped|..];
  }

  lemma RecordingKeepsIndex(s: Ledger, row: AuditRow)
    requires Indexed(s)
    ensures Indexed(Recorded(s, row))
  {
    SuffixGrows(s.seen, s.history, row);
    assert (s.seen + [row])[..|s.seen|] == s.seen;
  }

  lemma AdvanceKeepsIndex(limits: Limits, s: Ledger)
    requires s.queue != [] && Indexed(s)
    ensures Indexed(AdvanceOne(limits, s))
  {
    if s.phase == Append { RecordingKeepsIndex(s, s.queue[0]); }
  }

  lemma AdvanceKeepsRows(limits: Limits, s: Ledger)
    requires limits.maxFiles >= 1 && s.queue != [] && RoomAhead(limits, s) && Kept(limits, s)
    ensures Kept(limits, AdvanceOne(limits, s))
  {
    var r := AdvanceOne(limits, s);
    var before, after := Load(s.files, limits.maxFiles), Load(r.files, limits.maxFiles);
    AdvanceEffect(limits, s);
    if s.phase == Append {
      SuffixGrows(before, s.history, s.queue[0]);
    } else if s.phase == Remove {
      SuffixDrops(before, At(s.files, limits.maxFiles), after, s.history);
      assert At(r.files, 0) == At(s.files, 0);
      LiveIsLoaded(r.files, limits.maxFiles);
    }
  }

  lemma {:induction false} MigrationIsLoaded(files: Files, migrated: seq<AuditRow>, m: int)
    requires m >= 0 && LoadFrom(files, m) == []
    ensures LoadFrom(files[0 := migrated], m) == migrated
    decreases m
  {
    if m == 0 {
      assert LoadFrom(files[0 := migrated], -1) == [];
      assert migrated + [] == migrated;
    } else {
      MigrationIsLoaded(files, migrated, m - 1);
      assert At(files, m) == [] && At(files[0 := migrated], m) == [];
    }
  }

  lemma ReloadKeepsSound(limits: Limits, s: Ledger, migrated: seq<AuditRow>)
    requires limits.maxFiles >= 1 && KnownGenerations(s.files, limits.maxFiles) && Kept(limits, s)
    ensures Sound(limits, Reload(limits, s, migrated))
  {
    if Load(s.files, limits.maxFiles) == [] && migrated != [] {
      MigrationIsLoaded(s.files, migrated, limits.maxFiles);
      assert [] + migrated == migrated;
    }
  }

  lemma StepKeepsSound(limits: Limits, s: Ledger, event: Event)
    requires limits.maxFiles >= 1 && Sound(limits, s)
    ensures Sound(limits, Step(limits, s, event))
  {
    match event
    case Advance =>
      if s.queue != [] {
        AdvanceKeepsRoom(limits, s);
        AdvanceKeepsRows(limits, s);
        AdvanceKeepsIndex(limits, s);
      }
    case Restart(migrated) => ReloadKeepsSound(limits, s, migrated);
    case _ =>
  }

  /**
   Rotation keeps a suffix under failures and crashes: after any run, whatever would be loaded now
   is a suffix of everything ever written, in order and never without the newest row; the index
   equals the fold of the rows it has seen, which are a suffix too; and the next rename, if one is
   due, overwrites nothing.
   */
  lemma {:induction false} LedgerKeepsSuffix(limits: Limits, files: Files, events: seq<Event>)
    requires limits.maxFiles >= 1 && KnownGenerations(files, limits.maxFiles)
    ensures var s := Run(limits, Loaded(limits, files), events);
            Sound(limits, s) && !Overwrites(s)
  {
    if events != [] {
      LedgerKeepsSuffix(limits, files, events[..|events| - 1]);
      StepKeepsSound(limits, Run(limits, Loaded(limits, files), events[..|events| - 1]), events[|events| - 1]);
    }
  }

  // ---------------------------------------------------------------- the index follows the ledger

  predicate IsRestart(event: Event) {
    event.Restart? || event.RestartUnreadable?
  }

  ghost predicate NoRestarts(events: seq<Event>) {
    forall i :: 0 <= i < |events| ==> !IsRestart(events[i])
  }

  ghost predicate IndexesSeen(s: Ledger) {
    s.index == Fold(s.seen) && s.revisions == Revisions(s.seen)
  }

  /** The rows that have been written since, and nothing else, were added to those the index was built from. */
  ghost predicate SeenGrows(s: Ledger, r: Ledger) {
    && s.history <= r.history
    && r.seen == s.seen + r.history[|s.history|..]
    && IndexesSeen(r)
  }

  /** The two ledgers agree on the rows written and on what the index made of them. */
  predicate SameRows(s: Ledger, r: Ledger) {
    r.seen == s.seen && r.history == s.history && r.index == s.index && r.revisions == s.revisions
  }

  predicate Records(s: Ledger, event: Event) {
    event == Advance && s.queue != [] && s.phase == Append
  }

  lemma StepRecords(limits: Limits, s: Ledger, event: Event)
    requires !IsRestart(event)
    ensures Records(s, event) ==> SameRows(Recorded(s, s.queue[0]), Step(limits, s, event))
    ensures !Records(s, event) ==> SameRows(s, Step(limits, s, event))
  {
  }

  lemma RecordingFollows(s: Ledger, row: AuditRow, r: Ledger)
    requires IndexesSeen(s) && SameRows(Recorded(s, row), r)
    ensures SeenGrows(s, r)
  {
    assert (s.seen + [row])[..|s.seen|] == s.seen;
    assert (s.history + [row])[|s.history|..] == [row];
  }

  lemma NothingFollows(s: Ledger, r: Ledger)
    requires IndexesSeen(s) && SameRows(s, r)
    ensures SeenGrows(s, r)
  {
    assert s.history[|s.history|..] == [];
  }

  lemma StepFollows(limits: Limits, s: Ledger, event: Event)
    requires IndexesSeen(s) && !IsRestart(event)
    ensures SeenGrows(s, Step(limits, s, event))
  {
    StepRecords(limits, s, event);
    if Records(s, event) {
      RecordingFollows(s, s.queue[0], Step(limits, s, event));
    } else {
      NothingFollows(s, Step(limits, s, event));
    }
  }

  lemma SeenGrowsOn(a: Ledger, b: Ledger, c: Ledger)
    requires SeenGrows(a, b) && SeenGrows(b, c)
    ensures SeenGrows(a, c)
  {
    assert c.history[|a.history|..] == b.history[|a.history|..] + c.history[|b.history|..];
    assert a.seen + (b.history[|a.history|..] + c.history[|b.history|..])
        == (a.seen + b.history[|a.history|..]) + c.history[|b.history|..];
  }

  lemma {:induction false} RunFollows(limits: Limits, s: Ledger, events: seq<Event>)
    requires IndexesSeen(s) && NoRestarts(events)
    ensures SeenGrows(s, Run(limits, s, events))
  {
    if events == [] {
      assert s.history[|s.history|..] == [];
    } else {
      var n := |events| - 1;
      RunFollows(limits, s, events[..n]);
      StepFollows(limits, Run(limits, s, events[..n]), events[n]);
      SeenGrowsOn(s, Run(limits, s, events[..n]), Run(limits, s, events));
    }
  }

  /**
   Until the controller restarts, whatever fails and whatever rotates, the index is the fold and the revisions are
   the counts of every row ever written.
   */
  lemma IndexFollowsHistory(limits: Limits, files: Files, events: seq<Event>)
    requires NoRestarts(events)
    ensures var s := Run(limits, Loaded(limits, files), events);
            s.seen == s.history && s.index == Fold(s.history) && s.revisions == Revisions(s.history)
  {
    var s0, s := Loaded(limits, files), Run(limits, Loaded(limits, files), events);
    RunFollows(limits, s0, events);
    assert s.history == s0.history + s.history[|s0.history|..];
  }

  /** What a restart finds: the files, or the detail store when they hold nothing, or nothing that can be read. */
  function Found(limits: Limits, files: Files, restart: Event): (rows: seq<AuditRow>)
    requires IsRestart(restart)
  {
    match restart
    case Restart(migrated) => if Load(files, limits.maxFiles) == [] then migrated else Load(files, limits.maxFiles)
    case RestartUnreadable => []
  }

  /** From its last restart on the index has what was found then and every row written since. */
  lemma IndexSinceRestart(limits: Limits, s: Ledger, restart: Event, events: seq<Event>)
    requires IsRestart(restart) && NoRestarts(events)
    ensures var s1 := Step(limits, s, restart);
            var r := Run(limits, s1, events);
            && s1.history <= r.history
            && r.seen == Found(limits, s.files, restart) + r.history[|s1.history|..]
            && r.index == Fold(r.seen) && r.revisions == Revisions(r.seen)
  {
    var s1 := Step(limits, s, restart);
    assert s1.seen == Found(limits, s.files, restart) && IndexesSeen(s1);
    RunFollows(limits, s1, events);
  }

  lemma {:induction false} LastRestart(events: seq<Event>) returns (k: nat)
    ensures k <= |events| && NoRestarts(events[k..])
    ensures k > 0 ==> IsRestart(events[k - 1])
  {
    if events == [] {
      k := 0;
    } else {
      var n := |events| - 1;
      if IsRestart(events[n]) {
        k := |events|;
      } else {
        k := LastRestart(events[..n]);
        assert events[k..] == events[..n][k..] + [events[n]];
      }
    }
  }

  /** The rows the index holds after its first k events have brought the last restart, and what it found. */
  ghost predicate IndexSince(limits: Limits, files: Files, events: seq<Event>, k: nat)
    requires k <= |events| && (k > 0 ==> IsRestart(events[k - 1]))
  {
    var s0 := Loaded(limits, files);
    var r := Run(limits, s0, events);
    var before := Run(limits, s0, events[..if k > 0 then k - 1 else 0]);
    var restarted := Run(limits, s0, events[..k]);
    && restarted.history <= r.history
    && r.seen == (if k > 0 then Found(limits, before.files, events[k - 1]) else s0.history)
                 + r.history[|restarted.history|..]
    && IndexesSeen(r)
  }

  /** In every run the index is the fold of what the last restart found and every row written since. */
  lemma IndexIsExact(limits: Limits, files: Files, events: seq<Event>) returns (k: nat)
    ensures k <= |events| && NoRestarts(events[k..]) && (k > 0 ==> IsRestart(events[k - 1]))
    ensures IndexSince(limits, files, events, k)
  {
    var s0 := Loaded(limits, files);
    k := LastRestart(events);
    assert events == events[..k] + events[k..];
    RunConcat(limits, s0, events[..k], events[k..]);
    if k == 0 {
      RunFollows(limits, s0, events[k..]);
    } else {
      assert events[..k][..k - 1] == events[..k - 1];
      IndexSinceRestart(limits, Run(limits, s0, events[..k - 1]), events[k - 1], events[k..]);
    }
  }

  /** The rows handed over to be written. */
  function Enqueued(events: seq<Event>): (rows: seq<AuditRow>) {
    if events == [] then []
    else
      var init, last := Enqueued(events[..|events| - 1]), events[|events| - 1];
      if last.Enqueue? then init + [last.row] else init
  }

  /** When no operation fails and nothing restarts, what is handed over is written, in order, or still waits. */
  lemma {:induction false} NothingIsLost(limits: Limits, s: Ledger, events: seq<Event>)
    requires NoRestarts(events) && Fail !in events
    ensures var r := Run(limits, s, events);
            r.history + r.queue == s.history + s.queue + Enqueued(events)
  {
    if events == [] {
      assert s.history + s.queue + [] == s.history + s.queue;
    } else {
      var n := |events| - 1;
      var before := Run(limits, s, events[..n]);
      assert events == events[..n] + [events[n]] && Fail !in events[..n] && events[n] != Fail;
      NothingIsLost(limits, s, events[..n]);
      OneStepLosesNothing(limits, before, events[n]);
    }
  }

  lemma OneStepLosesNothing(limits: Limits, s: Ledger, event: Event)
    requires !IsRestart(event) && event != Fail
    ensures var r := Step(limits, s, event);
            r.history + r.queue == s.history + s.queue + (if event.Enqueue? then [event.row] else [])
  {
    if event.Enqueue? {
      assert s.history + (s.queue + [event.row]) == s.history + s.queue + [event.row];
    } else if s.queue != [] && s.phase == Append {
      assert s.history + s.queue == (s.history + [s.queue[0]]) + s.queue[1..];
    }
  }

  function Failures(events: seq<Event>): (n: nat) {
    if events == [] then 0 else Failures(events[..|events| - 1]) + if events[|events| - 1].Fail? then 1 else 0
  }

  /** A failed operation costs the one row it was for: no more rows are missing than operations have failed. */
  lemma {:induction false} OneRowAFailure(limits: Limits, s: Ledger, events: seq<Event>)
    requires NoRestarts(events)
    ensures var r := Run(limits, s, events);
            |r.history| + |r.queue| + Failures(events) >= |s.history| + |s.queue| + |Enqueued(events)|
  {
    if events != [] {
      var n := |events| - 1;
      assert events == events[..n] + [events[n]];
      OneRowAFailure(limits, s, events[..n]);
      if events[n] != Fail {
        OneStepLosesNothing(limits, Run(limits, s, events[..n]), events[n]);
      }
    }
  }

  // ---------------------------------------------------------------- what a restart answers

  lemma SuffixAnswers(loaded: seq<AuditRow>, history: seq<AuditRow>, id: Id)
    requires IsSuffix(loaded, history) && HasEnded(loaded, id)
    ensures id in Fold(loaded) && id in Fold(history) && Fold(loaded)[id] == Fold(history)[id]
  {
    var i :| 0 <= i < |loaded| && Ends(loaded[i], id);
    assert Names(loaded[i], id);
    var k := |history| - |loaded|;
    assert loaded == history[k..];
    MentionedAnswers(history, k, id);
  }

  lemma ReloadedAnswers(limits: Limits, s: Ledger, migrated: seq<AuditRow>, id: Id)
    requires Kept(limits, s) && HasEnded(Load(s.files, limits.maxFiles), id)
    ensures var r := Reload(limits, s, migrated);
            id in r.index && id in Fold(s.history) && r.index[id] == Fold(s.history)[id]
  {
    SuffixAnswers(Load(s.files, limits.maxFiles), s.history, id);
  }

  /** After any run and a restart, every transfer with a loaded terminal row gets the answer of the full history. */
  lemma RestartAnswers(limits: Limits, files: Files, events: seq<Event>, migrated: seq<AuditRow>, id: Id)
    requires limits.maxFiles >= 1 && KnownGenerations(files, limits.maxFiles)
    requires HasEnded(Load(Run(limits, Loaded(limits, files), events).files, limits.maxFiles), id)
    ensures var s := Run(limits, Loaded(limits, files), events);
            var r := Step(limits, s, Restart(migrated));
            id in r.index && id in Fold(s.history) && r.index[id] == Fold(s.history)[id]
  {
    LedgerKeepsSuffix(limits, files, events);
    ReloadedAnswers(limits, Run(limits, Loaded(limits, files), events), migrated, id);
  }

  /** What the index says of an id is what the whole history says. */
  predicate AnswersAsHistory(s: Ledger, id: Id) {
    && (id in s.index <==> id in Fold(s.history))
    && (id in s.index && id in Fold(s.history) ==> s.index[id] == Fold(s.history)[id])
  }

  lemma IndexedAnswersIff(s: Ledger, id: Id)
    requires Indexed(s)
    ensures AnswersAsHistory(s, id) <==> KeepsSpeaker(s.seen, s.history, id)
  {
    var k := |s.history| - |s.seen|;
    assert s.seen == s.history[k..];
    ReloadAnswers(s.history, k, id);
  }

  /**
   In every reachable state, and so after every restart, the index answers for an id as the full history does
   exactly unless the rows it was built from lack all the rows of the id, or all its terminal ones.
   */
  lemma IndexAnswersIff(limits: Limits, files: Files, events: seq<Event>, id: Id)
    requires limits.maxFiles >= 1 && KnownGenerations(files, limits.maxFiles)
    ensures var s := Run(limits, Loaded(limits, files), events);
            AnswersAsHistory(s, id) <==> KeepsSpeaker(s.seen, s.history, id)
  {
    LedgerKeepsSuffix(limits, files, events);
    IndexedAnswersIff(Run(limits, Loaded(limits, files), events), id);
  }

  /** A row of the given size, for the counterexample. */
  function RowOf(bytes: nat): (row: AuditRow) {
    AuditRow(Id("t"), Terminal, 0, bytes)
  }

  predicate Rotates(limits: Limits) {
    limits.maxBytes.Some? && limits.maxBytes.value > 0
  }

  lemma {:induction false} RunConcat(limits: Limits, s: Ledger, a: seq<Event>, b: seq<Event>)
    ensures Run(limits, s, a + b) == Run(limits, Run(limits, s, a), b)
  {
    if b == [] {
      assert a + b == a;
    } else {
      RunConcat(limits, s, a, b[..|b| - 1]);
      assert (a + b)[..|a + b| - 1] == a + b[..|b| - 1];
    }
  }

  lemma RunTwo(limits: Limits, s: Ledger, x: Event, y: Event)
    ensures Run(limits, s, [x, y]) == Step(limits, Step(limits, s, x), y)
  {
    assert [x, y][..1] == [x] && [x][..0] == [];
    assert Run(limits, s, [x]) == Step(limits, Run(limits, s, []), x);
  }

  ghost predicate Idle(s: Ledger, files: Files) {
    s.queue == [] && s.phase == Stat && s.files == files
  }

  /** A write that needs no rotation. */
  lemma PlainWrite(limits: Limits, s: Ledger, row: AuditRow, files: Files)
    requires Idle(s, files) && !Due(limits, files)
    ensures Idle(Run(limits, s, [Enqueue(row), Advance] + [Advance]), files[0 := At(files, 0) + [row]])
  {
    RunTwo(limits, s, Enqueue(row), Advance);
    assert [Enqueue(row), Advance] + [Advance] == [Enqueue(row), Advance, Advance];
    assert [Enqueue(row), Advance, Advance][..2] == [Enqueue(row), Advance];
  }

  /** A due write up to its rename, when no old generation is kept. */
  lemma DueWrite(limits: Limits, s: Ledger, row: AuditRow, files: Files)
    requires limits.maxFiles < 1 && Idle(s, files) && Due(limits, files)
    ensures var r := Run(limits, s, [Enqueue(row), Advance]);
            r.phase == Promote && r.files == files && r.queue == [row]
  {
    RunTwo(limits, s, Enqueue(row), Advance);
  }

  lemma FinishWrite(limits: Limits, s: Ledger, row: AuditRow)
    requires s.phase == Promote && s.queue == [row] && 0 in s.files
    ensures Idle(Run(limits, s, [Advance, Advance]), Rename(s.files, 0, 1)[0 := [row]])
  {
    RunTwo(limits, s, Advance, Advance);
    assert At(Rename(s.files, 0, 1), 0) + [row] == [row];
  }

  lemma RunFour(limits: Limits, s: Ledger, a: seq<Event>, b: seq<Event>, c: seq<Event>, d: seq<Event>)
    ensures Run(limits, s, a + b + c + d) == Run(limits, Run(limits, Run(limits, Run(limits, s, a), b), c), d)
  {
    RunConcat(limits, s, a + b + c, d);
    RunConcat(limits, s, a + b, c);
    RunConcat(limits, s, a, b);
  }

  /** From a state whose live file is full, two more writes reach a rename onto a generation. */
  lemma SecondRotation(limits: Limits, s: Ledger, row: AuditRow, files: Files)
    requires limits.maxFiles < 1 && Idle(s, files) && 0 in files && Due(limits, files)
    requires Due(limits, map[0 := [row]])
    ensures var due := [Enqueue(row), Advance];
            Overwrites(Run(limits, Run(limits, Run(limits, s, due), [Advance, Advance]), due))
  {
    DueWrite(limits, s, row, files);
    var s2 := Run(limits, s, [Enqueue(row), Advance]);
    FinishWrite(limits, s2, row);
    DueWrite(limits, Run(limits, s2, [Advance, Advance]), row, Rename(files, 0, 1)[0 := [row]]);
  }

  lemma FirstWrite(limits: Limits, row: AuditRow)
    ensures Idle(Run(limits, Loaded(limits, map[]), [Enqueue(row), Advance] + [Advance]), map[0 := [row]])
  {
    var none: Files := map[];
    PlainWrite(limits, Loaded(limits, none), row, none);
    assert At(none, 0) + [row] == [row] && none[0 := [row]] == map[0 := [row]];
  }

  /** With no old generation to keep, the second rotation replaces the file of the first. */
  lemma NoGenerationsOverwrites(limits: Limits, row: AuditRow)
    requires limits.maxFiles < 1 && Due(limits, map[0 := [row]])
    ensures exists events :: Overwrites(Run(limits, Loaded(limits, map[]), events))
  {
    var s0 := Loaded(limits, map[]);
    var plain, due, finish := [Enqueue(row), Advance] + [Advance], [Enqueue(row), Advance], [Advance, Advance];
    FirstWrite(limits, row);
    SecondRotation(limits, Run(limits, s0, plain), row, map[0 := [row]]);
    RunFour(limits, s0, plain, due, finish, due);
  }

  /** Without a positive finite byte limit nothing is ever renamed. */
  lemma {:induction false} NeverRotates(limits: Limits, s: Ledger, events: seq<Event>)
    requires !Rotates(limits) && s.phase in {Stat, Append}
    ensures Run(limits, s, events).phase in {Stat, Append}
  {
    if events != [] { NeverRotates(limits, s, events[..|events| - 1]); }
  }

  /** No rename ever replaces a file, in any run from an empty disk, exactly when a generation is kept or none made. */
  lemma OverwritesNothingIff(limits: Limits)
    ensures (forall events :: !Overwrites(Run(limits, Loaded(limits, map[]), events)))
       <==> (limits.maxFiles >= 1 || !Rotates(limits))
  {
    if limits.maxFiles >= 1 {
      forall events ensures !Overwrites(Run(limits, Loaded(limits, map[]), events)) {
        LedgerKeepsSuffix(limits, map[], events);
      }
    } else if !Rotates(limits) {
      forall events ensures !Overwrites(Run(limits, Loaded(limits, map[]), events)) {
        NeverRotates(limits, Loaded(limits, map[]), events);
      }
    } else {
      var row := RowOf(limits.maxBytes.value);
      assert Size([row]) == row.bytes by { assert [row][..0] == []; }
      NoGenerationsOverwrites(limits, row);
    }
  }
}
