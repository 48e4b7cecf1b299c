/**
 The ledger as the controller drives it: rotation as a loop over the generations, appending, loading, and
 the index kept beside them. Every write can stop after any number of file operations.
 */
module AuditLog {
  import opened Wrappers
  import opened AuditIndex
  import opened AuditLedger

  /** Every generation is one place further, the oldest is gone and the live file is free. */
  ghost predicate IsRotated(files: Files, maxFiles: int, r: Files) {
    if maxFiles >= 1
    then && (forall g :: g in r <==> 1 <= g <= maxFiles && g - 1 in files)
         && (forall g :: g in r ==> r[g] == files[g - 1])
    else r == Rename(files, 0, 1)
  }

  /** A rotation of m generations that has still to move generation g. */
  ghost predicate HalfRotated(files: Files, m: int, g: int, r: Files) {
    && (forall k :: k in r <==> 0 <= k <= m && k != g + 1 && (if k <= g then k else k - 1) in files)
    && (forall k :: k in r ==> r[k] == files[if k <= g then k else k - 1])
  }

  lemma RemovalStarts(files: Files, m: int)
    requires m >= 1 && KnownGenerations(files, m)
    ensures HalfRotated(files, m, m - 1, files - {m})
  {
  }

  lemma RenameContinues(files: Files, m: int, g: int, r: Files)
    requires 0 <= g < m && HalfRotated(files, m, g, r)
    ensures HalfRotated(files, m, g - 1, Rename(r, g, g + 1))
  {
  }

  lemma HalfRotatedEnds(files: Files, m: int, r: Files)
    requires m >= 1 && HalfRotated(files, m, -1, r)
    ensures IsRotated(files, m, r)
  {
  }

  /** The first write of the queue, run for a number of operations with nothing in between. */
  function AdvanceMany(limits: Limits, s: Ledger, n: nat): (r: Ledger) {
    if n == 0 then s else Step(limits, AdvanceMany(limits, s, n - 1), Advance)
  }

  function Writing(files: Files, row: AuditRow): (s: Ledger) {
    Ledger(files, [row], Stat, map[], map[], [], [])
  }

  /** The operations of a write that nothing stops. */
  function WriteOperations(limits: Limits, files: Files): (n: nat) {
    if !Due(limits, files) then 2 else (if limits.maxFiles >= 1 then limits.maxFiles else 0) + 3
  }

  /** The files of a write stopped after n operations, and the operation it would take next. */
  ghost predicate StoppedAt(limits: Limits, was: Files, row: AuditRow, n: nat, files: Files, phase: Phase) {
    var s := AdvanceMany(limits, Writing(was, row), n);
    s.files == files && s.phase == phase && s.queue == [row]
  }

  /** The operation that handles a generation. */
  function PhaseAt(limits: Limits, generation: int): (phase: Phase) {
    if generation < 1 then Promote
    else if generation == limits.maxFiles then Remove
    else Shift(generation)
  }

  function Moved(limits: Limits, files: Files, generation: int): (r: Files) {
    if generation == limits.maxFiles then files - {generation} else Rename(files, generation, generation + 1)
  }

  /** The files after the generations above the given one have been moved, the oldest first. */
  function MovedDownTo(limits: Limits, files: Files, generation: int): (r: Files)
    decreases limits.maxFiles - generation
  {
    if generation >= limits.maxFiles then files
    else Moved(limits, MovedDownTo(limits, files, generation + 1), generation + 1)
  }

  lemma {:induction false} MovedIsHalfRotated(limits: Limits, files: Files, generation: int)
    requires KnownGenerations(files, limits.maxFiles) && 0 <= generation < limits.maxFiles
    ensures HalfRotated(files, limits.maxFiles, generation, MovedDownTo(limits, files, generation))
    decreases limits.maxFiles - generation
  {
    if generation == limits.maxFiles - 1 {
      RemovalStarts(files, limits.maxFiles);
    } else {
      MovedIsHalfRotated(limits, files, generation + 1);
      RenameContinues(files, limits.maxFiles, generation + 1, MovedDownTo(limits, files, generation + 1));
    }
  }

  lemma StatDone(limits: Limits, was: Files, row: AuditRow)
    ensures StoppedAt(limits, was, row, 1, was, if Due(limits, was) then PhaseAt(limits, limits.maxFiles) else Append)
  {
    assert AdvanceMany(limits, Writing(was, row), 0) == Writing(was, row);
  }

  lemma MoveDone(limits: Limits, was: Files, row: AuditRow, n: nat, files: Files, generation: int)
    requires 1 <= generation <= limits.maxFiles
    requires StoppedAt(limits, was, row, n, files, PhaseAt(limits, generation))
    ensures StoppedAt(limits, was, row, n + 1, Moved(limits, files, generation), PhaseAt(limits, generation - 1))
  {
  }

  lemma PromoteDone(limits: Limits, was: Files, row: AuditRow, n: nat, files: Files)
    requires StoppedAt(limits, was, row, n, files, Promote)
    ensures StoppedAt(limits, was, row, n + 1, Rename(files, 0, 1), Append)
  {
  }

  /** What the loop over the generations has done when it comes to a generation. */
  ghost predicate Rotating(limits: Limits, was: Files, row: AuditRow, used: nat, files: Files, generation: int) {
    && (limits.maxFiles >= 1 ==> 0 <= generation <= limits.maxFiles)
    && (limits.maxFiles < 1 ==> generation == limits.maxFiles)
    && used == 1 + limits.maxFiles - generation
    && StoppedAt(limits, was, row, used, files, PhaseAt(limits, generation))
    && files == MovedDownTo(limits, was, generation)
  }

  lemma RotatingContinues(limits: Limits, was: Files, row: AuditRow, used: nat, files: Files, generation: int)
    requires generation >= 1 && Rotating(limits, was, row, used, files, generation)
    ensures Rotating(limits, was, row, used + 1, Moved(limits, files, generation), generation - 1)
  {
    MoveDone(limits, was, row, used, files, generation);
  }

  lemma RotatingEnds(limits: Limits, was: Files, row: AuditRow, used: nat, files: Files, generation: int)
    requires limits.maxFiles >= 1 ==> KnownGenerations(was, limits.maxFiles)
    requires generation < 1 && Rotating(limits, was, row, used, files, generation)
    ensures StoppedAt(limits, was, row, used + 1, Rename(files, 0, 1), Append)
    ensures IsRotated(was, limits.maxFiles, Rename(files, 0, 1))
    ensures Due(limits, was) ==> used + 2 == WriteOperations(limits, was)
  {
    PromoteDone(limits, was, row, used, files);
    if limits.maxFiles >= 1 {
      MovedIsHalfRotated(limits, was, 0);
      RenameContinues(was, limits.maxFiles, 0, files);
      HalfRotatedEnds(was, limits.maxFiles, Rename(files, 0, 1));
    }
  }

  /**
   A rotation that is not stopped has run all operations of the write but the last and has rotated
   exactly if it was due; one that is stopped leaves the files of the operation it had reached.
   */
  ghost predicate RotationOutcome(limits: Limits, was: Files, row: AuditRow, stopAfter: nat,
                                  done: bool, rotated: bool, used: nat, files: Files)
  {
    if done
    then && rotated == Due(limits, was) && used <= stopAfter && used + 1 == WriteOperations(limits, was)
         && (if rotated then IsRotated(was, limits.maxFiles, files) else files == was)
         && StoppedAt(limits, was, row, used, files, Append)
    else && used == stopAfter && used + 1 < WriteOperations(limits, was)
         && files == AdvanceMany(limits, Writing(was, row), used).files
  }

  lemma RotationNotDue(limits: Limits, was: Files, row: AuditRow, stopAfter: nat)
    requires !Due(limits, was) && stopAfter >= 1
    ensures RotationOutcome(limits, was, row, stopAfter, true, false, 1, was)
  {
    StatDone(limits, was, row);
  }

  lemma RotationDone(limits: Limits, was: Files, row: AuditRow, stopAfter: nat, used: nat, files: Files,
                     generation: int)
    requires Due(limits, was) && used < stopAfter && generation < 1
    requires limits.maxFiles >= 1 ==> KnownGenerations(was, limits.maxFiles)
    requires Rotating(limits, was, row, used, files, generation)
    ensures RotationOutcome(limits, was, row, stopAfter, true, true, used + 1, Rename(files, 0, 1))
  {
    RotatingEnds(limits, was, row, used, files, generation);
  }

  lemma StoppedAtOnce(limits: Limits, was: Files, row: AuditRow)
    ensures RotationOutcome(limits, was, row, 0, false, false, 0, was)
  {
  }

  lemma StoppedWhileRotating(limits: Limits, was: Files, row: AuditRow, used: nat, files: Files, generation: int)
    requires Due(limits, was) && Rotating(limits, was, row, used, files, generation)
    ensures RotationOutcome(limits, was, row, used, false, false, used, files)
  {
  }

  class AuditLog {
    const limits: Limits
    var files: Files
    var auditIndex: map<Id, AuditRow>
    var auditRevisions: map<Id, nat>

    constructor (limits: Limits, files: Files)
      ensures this.limits == limits && this.files == files
      ensures auditIndex == map[] && auditRevisions == map[]
    {
      this.limits, this.files, auditIndex, auditRevisions := limits, files, map[], map[];
    }

    /** The oldest generation is removed; any other takes the next place. */
    method MoveGeneration(generation: int)
      modifies `files
      ensures files == Moved(limits, old(files), generation)
    {
      if generation == limits.maxFiles {
        files := files - {generation};
      } else {
        files := Rename(files, generation, generation + 1);
      }
    }

    /** One pass of the loop. */
    method MoveOne(generation: int, ghost was: Files, ghost row: AuditRow, ghost used: nat)
      requires generation >= 1
      requires Rotating(limits, was, row, used, files, generation)
      modifies `files
      ensures Rotating(limits, was, row, used + 1, files, generation - 1)
    {
      RotatingContinues(limits, was, row, used, files, generation);
      MoveGeneration(generation);
    }

    /** The loop over the old generations, from the oldest to the newest. */
    method MoveGenerations(stopAfter: nat, ghost row: AuditRow) returns (generation: int, used: nat)
      requires 1 <= stopAfter
      requires Rotating(limits, files, row, 1, files, limits.maxFiles)
      modifies `files
      ensures used <= stopAfter && Rotating(limits, old(files), row, used, files, generation)
      ensures used < stopAfter ==> generation < 1
    {
      ghost var was := files;
      generation, used := limits.maxFiles, 1;
      while generation >= 1 && used < stopAfter
        invariant used <= stopAfter && Rotating(limits, was, row, used, files, generation)
        decreases generation
      {
        MoveOne(generation, was, row, used);
        used := used + 1;
        generation := generation - 1;
      }
    }

    /** The loop and the promotion of the live file. */
    method Rotate(stopAfter: nat, ghost row: AuditRow) returns (done: bool, used: nat)
      requires 1 <= stopAfter && Due(limits, files)
      requires limits.maxFiles >= 1 ==> KnownGenerations(files, limits.maxFiles)
      modifies `files
      ensures RotationOutcome(limits, old(files), row, stopAfter, done, done, used, files)
    {
      ghost var was := files;
      StatDone(limits, was, row);
      var generation;
      generation, used := MoveGenerations(stopAfter, row);
      done := used < stopAfter;
      if done {
        RotationDone(limits, was, row, stopAfter, used, files, generation);
        files := Rename(files, 0, 1);
        used := used + 1;
      } else {
        StoppedWhileRotating(limits, was, row, used, files, generation);
      }
    }

    /** Rotation, stopped before operation number stopAfter if that comes first. */
    method RotateIfNeeded(stopAfter: nat, ghost row: AuditRow) returns (done: bool, rotated: bool, used: nat)
      requires limits.maxFiles >= 1 ==> KnownGenerations(files, limits.maxFiles)
      modifies `files
      ensures RotationOutcome(limits, old(files), row, stopAfter, done, rotated, used, files)
      ensures rotated ==> done
      ensures done ==>
                (rotated <==>
                 limits.maxBytes.Some? && 0 < limits.maxBytes.value && limits.maxBytes.value <= Size(At(old(files), 0)))
    {
      if stopAfter == 0 {
        StoppedAtOnce(limits, files, row);
        done, rotated, used := false, false, 0;
      } else if !Due(limits, files) {
        RotationNotDue(limits, files, row, stopAfter);
        done, rotated, used := true, false, 1;
      } else {
        done, used := Rotate(stopAfter, row);
        rotated := done;
      }
    }

    /**
     An append that is stopped leaves the files of the operation it had reached; one that is not
     adds the row to the live file, after a rotation if one was due.
     */
    method AppendAuditRow(row: AuditRow, stopAfter: nat) returns (done: bool)
      requires limits.maxFiles >= 1 ==> KnownGenerations(files, limits.maxFiles)
      modifies `files
      ensures done <==> WriteOperations(limits, old(files)) <= stopAfter
      ensures var n := WriteOperations(limits, old(files));
              files == AdvanceMany(limits, Writing(old(files), row), if done then n else stopAfter).files
      ensures done && !Due(limits, old(files)) ==> files == old(files)[0 := At(old(files), 0) + [row]]
      ensures done && Due(limits, old(files)) ==>
                0 in files && files[0] == [row] && IsRotated(old(files), limits.maxFiles, files - {0})
      ensures done ==>
                && 0 in files && files[0] != [] && files[0][|files[0]| - 1] == row
                && (limits.maxBytes.Some? && limits.maxBytes.value > 0 ==>
                      Size(files[0][..|files[0]| - 1]) < limits.maxBytes.value)
    {
      var rotated, used;
      done, rotated, used := RotateIfNeeded(stopAfter, row);
      if !done { return; }
      if used == stopAfter { return false; }
      files := files[0 := At(files, 0) + [row]];
    }

    method IndexRow(row: AuditRow)
      modifies `auditIndex, `auditRevisions
      ensures auditIndex == Absorb(old(auditIndex), row)
      ensures auditRevisions == Count(old(auditRevisions), row)
    {
      if !(row.transferId in auditIndex && auditIndex[row.transferId].rowKind == Terminal && row.rowKind == Start) {
        auditIndex := auditIndex[row.transferId := row];
      }
      if row.rowKind == Terminal {
        var before := if row.transferId in auditRevisions then auditRevisions[row.transferId] else 0;
        auditRevisions := auditRevisions[row.transferId := before + 1];
      }
    }

    /** The index takes in a row exactly when the row has been written. */
    method RecordAuditRow(row: AuditRow, stopAfter: nat)
      requires limits.maxFiles >= 1 ==> KnownGenerations(files, limits.maxFiles)
      modifies this
      ensures var n := WriteOperations(limits, old(files));
              && files == AdvanceMany(limits, Writing(old(files), row), if n <= stopAfter then n else stopAfter).files
              && auditIndex == (if n <= stopAfter then Absorb(old(auditIndex), row) else old(auditIndex))
              && auditRevisions == (if n <= stopAfter then Count(old(auditRevisions), row) else old(auditRevisions))
    {
      var done := AppendAuditRow(row, stopAfter);
      if done { IndexRow(row); }
    }

    method LoadAuditLedger() returns (rows: seq<AuditRow>)
      ensures rows == Load(files, limits.maxFiles)
    {
      rows := [];
      var generation := limits.maxFiles;
      while generation >= 1
        invariant limits.maxFiles >= 1 ==> 0 <= generation <= limits.maxFiles
        invariant limits.maxFiles < 1 ==> generation == limits.maxFiles
        invariant rows + LoadFrom(files, if generation >= 1 then generation else 0) == Load(files, limits.maxFiles)
        decreases generation
      {
        var one := if generation in files then files[generation] else [];
        assert rows + (At(files, generation) + LoadFrom(files, generation - 1))
            == rows + one + LoadFrom(files, generation - 1);
        rows := rows + one;
        generation := generation - 1;
      }
      assert LoadFrom(files, 0) == At(files, 0) + [] == At(files, 0);
      rows := rows + if 0 in files then files[0] else [];
    }

    /** A restart reads the index back from the files, or starts the files from the detail store. */
    method LoadAuditIndex(detailRows: seq<AuditRow>)
      modifies this
      ensures forall s: Ledger :: s.files == old(files) ==>
                var r := Reload(limits, s, detailRows);
                files == r.files && auditIndex == r.index && auditRevisions == r.revisions
    {
      var rows := LoadAuditLedger();
      if |rows| == 0 && |detailRows| != 0 {
        files := files[0 := detailRows];
        rows := detailRows;
      }
      auditIndex := FoldAuditRows(rows);
      auditRevisions := CountRevisions(rows);
    }
  }
}
