/**
 The index over the audit rows: for each transfer the row that speaks for it, and how often it ended.
 */
module AuditIndex {
  import opened Wrappers

  datatype RowKind = Start | Terminal

  datatype AuditRow = AuditRow(transferId: Id, rowKind: RowKind, savedAt: int, bytes: nat)

  /** A start row does not displace a terminal one; any other row displaces what was there. */
  function Absorb(index: map<Id, AuditRow>, row: AuditRow): (r: map<Id, AuditRow>) {
    if row.transferId in index && index[row.transferId].rowKind == Terminal && row.rowKind == Start
    then index
    else index[row.transferId := row]
  }

  function Fold(rows: seq<AuditRow>): (index: map<Id, AuditRow>) {
    if rows == [] then map[] else Absorb(Fold(rows[..|rows| - 1]), rows[|rows| - 1])
  }

  function Count(counts: map<Id, nat>, row: AuditRow): (r: map<Id, nat>) {
    if row.rowKind != Terminal then counts
    else counts[row.transferId := (if row.transferId in counts then counts[row.transferId] else 0) + 1]
  }

  function Revisions(rows: seq<AuditRow>): (counts: map<Id, nat>) {
    if rows == [] then map[] else Count(Revisions(rows[..|rows| - 1]), rows[|rows| - 1])
  }

  predicate Names(row: AuditRow, id: Id) {
    row.transferId == id
  }

  predicate Ends(row: AuditRow, id: Id) {
    row.transferId == id && row.rowKind == Terminal
  }

  predicate Mentions(rows: seq<AuditRow>, id: Id) {
    exists i :: 0 <= i < |rows| && Names(rows[i], id)
  }

  predicate HasEnded(rows: seq<AuditRow>, id: Id) {
    exists i :: 0 <= i < |rows| && Ends(rows[i], id)
  }

  /** Position k holds the last terminal row of the id, or its last row when it never ended. */
  ghost predicate Speaks(rows: seq<AuditRow>, id: Id, k: int) {
    && 0 <= k < |rows| && Names(rows[k], id)
    && (HasEnded(rows, id) ==> Ends(rows[k], id) && forall i :: k < i < |rows| ==> !Ends(rows[i], id))
    && (!HasEnded(rows, id) ==> forall i :: k < i < |rows| ==> !Names(rows[i], id))
  }

  /** The fold knows exactly the ids mentioned, and gives each its last terminal row, else its last row. */
  lemma {:induction false} FoldSpeaks(rows: seq<AuditRow>, id: Id)
    ensures id in Fold(rows) <==> Mentions(rows, id)
    ensures id in Fold(rows) ==> exists k :: Speaks(rows, id, k) && Fold(rows)[id] == rows[k]
  {
    if rows != [] {
      var n := |rows| - 1;
      var init, row := rows[..n], rows[n];
      FoldSpeaks(init, id);
      assert Mentions(init, id) ==> Mentions(rows, id) by {
        if i :| 0 <= i < n && Names(init[i], id) { assert Names(rows[i], id); }
      }
      assert HasEnded(init, id) ==> HasEnded(rows, id) by {
        if i :| 0 <= i < n && Ends(init[i], id) { assert Ends(rows[i], id); }
      }
      if Names(row, id) && !(row.rowKind == Start && HasEnded(init, id)) {
        assert Ends(row, id) <==> HasEnded(rows, id) by {
          if i :| 0 <= i < |rows| && Ends(rows[i], id) { assert i < n ==> Ends(init[i], id); }
        }
        assert Speaks(rows, id, n);
      } else if Mentions(init, id) {
        var k :| Speaks(init, id, k) && Fold(init)[id] == init[k];
        SpeaksOn(rows, id, k);
      }
    }
  }

  /** A row that neither ends the transfer nor is the first to speak leaves the speaker in place. */
  lemma SpeaksOn(rows: seq<AuditRow>, id: Id, k: int)
    requires rows != [] && Speaks(rows[..|rows| - 1], id, k)
    requires var row := rows[|rows| - 1];
             !Names(row, id) || (row.rowKind == Start && HasEnded(rows[..|rows| - 1], id))
    ensures Speaks(rows, id, k)
  {
    var n := |rows| - 1;
    var init := rows[..n];
    assert HasEnded(rows, id) <==> HasEnded(init, id) by {
      if i :| 0 <= i < |rows| && Ends(rows[i], id) { assert i < n && Ends(init[i], id); }
      if i :| 0 <= i < n && Ends(init[i], id) { assert Ends(rows[i], id); }
    }
    assert rows[k] == init[k];
    forall i | k < i < |rows| ensures Ends(rows[i], id) ==> !HasEnded(rows, id) {
      assert i < n ==> rows[i] == init[i];
    }
    forall i | k < i < |rows| && !HasEnded(rows, id) ensures !Names(rows[i], id) {
      assert i < n ==> rows[i] == init[i];
    }
  }

  /** The speaker is unique, so the fold is determined by it. */
  lemma SpeakerIsUnique(rows: seq<AuditRow>, id: Id, j: int, k: int)
    requires Speaks(rows, id, j) && Speaks(rows, id, k)
    ensures j == k
  {
  }

  /** Wherever a row speaks for the id, the fold has that row. */
  lemma FoldIsSpeaker(rows: seq<AuditRow>, id: Id, k: int)
    requires Speaks(rows, id, k)
    ensures id in Fold(rows) && Fold(rows)[id] == rows[k]
  {
    FoldSpeaks(rows, id);
    assert Mentions(rows, id);
    var j :| Speaks(rows, id, j) && Fold(rows)[id] == rows[j];
    SpeakerIsUnique(rows, id, j, k);
  }

  /** When the kept rows hold a terminal row, or none was ever written, the speaker is among them. */
  lemma SpeakerIsKept(rows: seq<AuditRow>, k: nat, id: Id, a: int, b: int)
    requires k <= |rows| && Speaks(rows[k..], id, a) && Speaks(rows, id, b)
    requires HasEnded(rows, id) ==> HasEnded(rows[k..], id)
    ensures b == k + a
  {
    var kept := rows[k..];
    assert rows[k + a] == kept[a] && Names(rows[k + a], id);
    assert HasEnded(kept, id) ==> Ends(rows[k + a], id);
    assert b >= k ==> rows[b] == kept[b - k];
  }

  /** Both know the id, with the same row, or neither does. */
  predicate SameAnswer(kept: seq<AuditRow>, rows: seq<AuditRow>, id: Id) {
    && (id in Fold(kept) <==> id in Fold(rows))
    && (id in Fold(kept) && id in Fold(rows) ==> Fold(kept)[id] == Fold(rows)[id])
  }

  /** The id lost neither its only rows nor its only terminal ones. */
  predicate KeepsSpeaker(kept: seq<AuditRow>, rows: seq<AuditRow>, id: Id) {
    (Mentions(rows, id) ==> Mentions(kept, id)) && (HasEnded(rows, id) ==> HasEnded(kept, id))
  }

  lemma KeptAreMentioned(rows: seq<AuditRow>, k: nat, id: Id)
    requires k <= |rows|
    ensures Mentions(rows[k..], id) ==> Mentions(rows, id)
  {
    if i :| 0 <= i < |rows[k..]| && Names(rows[k..][i], id) {
      assert Names(rows[k + i], id);
    }
  }

  lemma MentionedAnswers(rows: seq<AuditRow>, k: nat, id: Id)
    requires k <= |rows| && Mentions(rows[k..], id)
    ensures id in Fold(rows[k..]) && id in Fold(rows)
    ensures Fold(rows[k..])[id] == Fold(rows)[id] <==> (HasEnded(rows, id) ==> HasEnded(rows[k..], id))
  {
    FoldSpeaks(rows[k..], id);
    FoldSpeaks(rows, id);
    KeptAreMentioned(rows, k, id);
    var a :| Speaks(rows[k..], id, a) && Fold(rows[k..])[id] == rows[k..][a];
    var b :| Speaks(rows, id, b) && Fold(rows)[id] == rows[b];
    if HasEnded(rows, id) ==> HasEnded(rows[k..], id) {
      SpeakerIsKept(rows, k, id, a, b);
      FoldIsSpeaker(rows, id, k + a);
    } else {
      assert Ends(rows[b], id) && !Ends(rows[k..][a], id);
    }
  }

  lemma EndedIsMentioned(rows: seq<AuditRow>, id: Id)
    ensures HasEnded(rows, id) ==> Mentions(rows, id)
  {
    if i :| 0 <= i < |rows| && Ends(rows[i], id) {
      assert Names(rows[i], id);
    }
  }

  /**
   A reload that finds only the rows from position k on answers for an id as the whole history would, exactly
   unless all the rows of the id, or all its terminal rows, were among those dropped.
   */
  lemma ReloadAnswers(rows: seq<AuditRow>, k: nat, id: Id)
    requires k <= |rows|
    ensures SameAnswer(rows[k..], rows, id) <==> KeepsSpeaker(rows[k..], rows, id)
  {
    FoldSpeaks(rows[k..], id);
    FoldSpeaks(rows, id);
    KeptAreMentioned(rows, k, id);
    if Mentions(rows[k..], id) {
      MentionedAnswers(rows, k, id);
    } else {
      EndedIsMentioned(rows, id);
    }
  }

  /** A transfer that started, never ended and was dropped is known to the history and not to the reload. */
  lemma DroppedStartIsForgotten()
    ensures var t, u := Id("t"), Id("u");
            var rows := [AuditRow(t, Start, 0, 0), AuditRow(u, Start, 0, 0)];
            !HasEnded(rows, t) && t in Fold(rows) && t !in Fold(rows[1..]) && !SameAnswer(rows[1..], rows, t)
  {
    var t, u := Id("t"), Id("u");
    assert t.text[0] != u.text[0];
    var rows := [AuditRow(t, Start, 0, 0), AuditRow(u, Start, 0, 0)];
    FoldSpeaks(rows, t);
    FoldSpeaks(rows[1..], t);
    assert Names(rows[0], t);
    assert rows[1..] == [rows[1]];
  }

  /** The number of terminal rows of an id. */
  function Endings(rows: seq<AuditRow>, id: Id): (n: nat) {
    if rows == [] then 0
    else Endings(rows[..|rows| - 1], id) + (if Ends(rows[|rows| - 1], id) then 1 else 0)
  }

  lemma {:induction false} RevisionsCount(rows: seq<AuditRow>, id: Id)
    ensures id in Revisions(rows) <==> HasEnded(rows, id)
    ensures (if id in Revisions(rows) then Revisions(rows)[id] else 0) == Endings(rows, id)
  {
    if rows != [] {
      var n := |rows| - 1;
      var init := rows[..n];
      RevisionsCount(init, id);
      assert HasEnded(rows, id) <==> HasEnded(init, id) || Ends(rows[n], id) by {
        if i :| 0 <= i < |rows| && Ends(rows[i], id) { assert i < n ==> Ends(init[i], id); }
        if i :| 0 <= i < n && Ends(init[i], id) { assert Ends(rows[i], id); }
      }
    }
  }

  method FoldAuditRows(rows: seq<AuditRow>) returns (folded: map<Id, AuditRow>)
    ensures folded == Fold(rows)
  {
    folded := map[];
    var i := 0;
    while i < |rows|
      invariant 0 <= i <= |rows|
      invariant folded == Fold(rows[..i])
    {
      var row := rows[i];
      assert rows[..i + 1][..i] == rows[..i];
      if row.transferId !in folded {
        folded := folded[row.transferId := row];
      } else if !(folded[row.transferId].rowKind == Terminal && row.rowKind == Start) {
        folded := folded[row.transferId := row];
      }
      i := i + 1;
    }
    assert rows[..|rows|] == rows;
  }

  method CountRevisions(rows: seq<AuditRow>) returns (counts: map<Id, nat>)
    ensures counts == Revisions(rows)
  {
    counts := map[];
    var i := 0;
    while i < |rows|
      invariant 0 <= i <= |rows|
      invariant counts == Revisions(rows[..i])
    {
      var row := rows[i];
      assert rows[..i + 1][..i] == rows[..i];
      if row.rowKind == Terminal {
        var before := if row.transferId in counts then counts[row.transferId] else 0;
        counts := counts[row.transferId := before + 1];
      }
      i := i + 1;
    }
    assert rows[..|rows|] == rows;
  }
}
