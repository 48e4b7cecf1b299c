/**
 How much history rotation keeps: from an empty disk, while no operation fails and nothing restarts, either every
 row is still there or the old generations alone come to the byte limit times the number of generations kept.
 */
module AuditKeeps {
  import opened Wrappers
  import opened AuditIndex
  import opened AuditLedger
  import opened AuditLimits

  /** The place that a rotation has just emptied; 0 while none is under way. */
  function Hole(limits: Limits, phase: Phase): (place: int) {
    match phase
    case Shift(g) => g + 1
    case Promote => 1
    case _ => 0
  }

  /** The next newer file: the hole has none. */
  function Newer(hole: int, g: int): (place: int) {
    if g - 1 == hole then g - 2 else g - 1
  }

  /** Behind every old generation there is the next newer one, except where the hole is. */
  ghost predicate Gapless(files: Files, hole: int) {
    && (hole > 0 ==> hole !in files && 0 in files)
    && (forall g :: g in files && g > 1 ==> Newer(hole, g) in files)
  }

  /** Old generations were full when they were put away. */
  ghost predicate OldAreFull(files: Files, bytes: nat) {
    forall g :: g in files && g >= 1 ==> Size(files[g]) >= bytes
  }

  /** The oldest place that is taken once something has been dropped. */
  function Oldest(limits: Limits, hole: int): (place: int) {
    if hole == limits.maxFiles then hole - 1 else limits.maxFiles
  }

  ghost predicate KeepsEnough(limits: Limits, s: Ledger, bytes: nat) {
    var hole := Hole(limits, s.phase);
    && KnownGenerations(s.files, limits.maxFiles) && RoomAhead(limits, s) && LimitKept(limits, s)
    && hole <= limits.maxFiles && Gapless(s.files, hole) && OldAreFull(s.files, bytes)
    && (Load(s.files, limits.maxFiles) == s.history || Oldest(limits, hole) in s.files)
  }

  /** Below an old generation every place but the hole is taken. */
  lemma {:induction false} TakenBelow(files: Files, hole: int, g: int, k: int)
    requires Gapless(files, hole) && 1 <= k <= g && k != hole && g in files
    ensures k in files
    decreases g
  {
    if k < g {
      assert Newer(hole, g) in files;
      if k <= Newer(hole, g) { TakenBelow(files, hole, Newer(hole, g), k); }
    }
  }

  // ---------------------------------------------------------------- every operation

  lemma RemovalLeavesHole(files: Files, m: int)
    requires m >= 1 && Gapless(files, 0) && 0 in files && (forall g :: g in files ==> g <= m)
    ensures Gapless(files - {m}, m)
  {
    forall g | g in files - {m} && g > 1 ensures Newer(m, g) in files - {m} {
      assert Newer(0, g) in files;
    }
  }

  lemma ShiftMovesHole(files: Files, g: int)
    requires g >= 1 && Gapless(files, g + 1)
    ensures Gapless(Rename(files, g, g + 1), g)
  {
    var r := Rename(files, g, g + 1);
    forall k | k in r && k > 1 ensures Newer(g, k) in r {
      if k == g + 1 {
        assert g > 1 ==> Newer(g + 1, g) in files;
      } else {
        assert Newer(g + 1, k) in files;
      }
    }
  }

  lemma PromotionFillsHole(files: Files)
    requires Gapless(files, 1)
    ensures Gapless(Rename(files, 0, 1), 0)
  {
    forall g | g in files && g > 2 ensures g - 1 in files {
      assert Newer(1, g) in files;
    }
  }

  lemma RemovalKeepsEnough(limits: Limits, s: Ledger, bytes: nat)
    requires limits.maxFiles >= 1 && HasLimit(limits, bytes) && s.queue != [] && s.phase == Remove
    requires KeepsEnough(limits, s, bytes)
    ensures KeepsEnough(limits, AdvanceOne(limits, s), bytes)
  {
    var m, r := limits.maxFiles, AdvanceOne(limits, s);
    AdvanceKeepsRoom(limits, s);
    AdvanceKeepsLimit(limits, s);
    AdvanceEffect(limits, s);
    RemovalLeavesHole(s.files, m);
    if m in s.files {
      assert m > 1 ==> Newer(0, m) in s.files;
    } else {
      assert At(s.files, m) == [];
      assert Load(r.files, m) == Load(s.files, m) by { NothingBefore(Load(r.files, m)); }
    }
  }

  lemma ShiftKeepsEnough(limits: Limits, s: Ledger, g: int, bytes: nat)
    requires limits.maxFiles >= 1 && HasLimit(limits, bytes) && s.queue != [] && s.phase == Shift(g)
    requires KeepsEnough(limits, s, bytes)
    ensures KeepsEnough(limits, AdvanceOne(limits, s), bytes)
  {
    var m, r := limits.maxFiles, AdvanceOne(limits, s);
    AdvanceKeepsRoom(limits, s);
    AdvanceKeepsLimit(limits, s);
    AdvanceEffect(limits, s);
    ShiftMovesHole(s.files, g);
    if g !in s.files {
      forall k | k in s.files ensures k < g {
        if k > g { TakenBelow(s.files, g + 1, k, g); }
      }
    }
  }

  lemma PromotionKeepsEnough(limits: Limits, s: Ledger, bytes: nat)
    requires limits.maxFiles >= 1 && HasLimit(limits, bytes) && s.queue != [] && s.phase == Promote
    requires KeepsEnough(limits, s, bytes)
    ensures KeepsEnough(limits, AdvanceOne(limits, s), bytes)
  {
    AdvanceKeepsRoom(limits, s);
    AdvanceKeepsLimit(limits, s);
    AdvanceEffect(limits, s);
    PromotionFillsHole(s.files);
  }

  lemma AppendKeepsEnough(limits: Limits, s: Ledger, bytes: nat)
    requires limits.maxFiles >= 1 && HasLimit(limits, bytes) && s.queue != [] && s.phase == Append
    requires KeepsEnough(limits, s, bytes)
    ensures KeepsEnough(limits, AdvanceOne(limits, s), bytes)
  {
    AdvanceKeepsRoom(limits, s);
    AdvanceKeepsLimit(limits, s);
    AdvanceEffect(limits, s);
  }

  lemma StepKeepsEnough(limits: Limits, s: Ledger, event: Event, bytes: nat)
    requires limits.maxFiles >= 1 && HasLimit(limits, bytes) && KeepsEnough(limits, s, bytes)
    requires event.Enqueue? || event == Advance
    ensures KeepsEnough(limits, Step(limits, s, event), bytes)
  {
    if event == Advance && s.queue != [] {
      match s.phase
      case Stat => AdvanceKeepsLimit(limits, s);
      case Remove => RemovalKeepsEnough(limits, s, bytes);
      case Shift(g) => ShiftKeepsEnough(limits, s, g, bytes);
      case Promote => PromotionKeepsEnough(limits, s, bytes);
      case Append => AppendKeepsEnough(limits, s, bytes);
    }
  }

  lemma {:induction false} RunKeepsEnough(limits: Limits, events: seq<Event>, bytes: nat)
    requires limits.maxFiles >= 1 && HasLimit(limits, bytes) && NoRestarts(events) && Fail !in events
    ensures KeepsEnough(limits, Run(limits, Loaded(limits, map[]), events), bytes)
  {
    if events != [] {
      var n := |events| - 1;
      assert events == events[..n] + [events[n]] && Fail !in events[..n] && events[n] != Fail;
      RunKeepsEnough(limits, events[..n], bytes);
      StepKeepsEnough(limits, Run(limits, Loaded(limits, map[]), events[..n]), events[n], bytes);
    }
  }

  // ---------------------------------------------------------------- how much that is

  /** Files lo to hi, except at the hole, hold that many bytes each. */
  ghost predicate FullBetween(files: Files, lo: int, hi: int, hole: int, bytes: nat) {
    forall g :: lo <= g <= hi && g != hole ==> g in files && Size(files[g]) >= bytes
  }

  lemma OneMoreTimes(n: int, bytes: nat)
    ensures (n + 1) * bytes == n * bytes + bytes
  {
  }

  lemma {:induction false} FullGenerationsAdd(files: Files, lo: int, hi: int, hole: int, bytes: nat)
    requires 0 <= lo && lo - 1 <= hi && FullBetween(files, lo, hi, hole, bytes)
    ensures Size(LoadFrom(files, hi)) >= (hi - lo + 1 - if lo <= hole <= hi then 1 else 0) * bytes
    decreases hi
  {
    if lo <= hi {
      FullGenerationsAdd(files, lo, hi - 1, hole, bytes);
      SizeAdds(At(files, hi), LoadFrom(files, hi - 1));
      OneMoreTimes(hi - lo - if lo <= hole <= hi - 1 then 1 else 0, bytes);
    } else {
      assert (hi - lo + 1) * bytes == 0;
    }
  }

  /** Once something has been dropped every place but the hole is taken, the live file included while there is one. */
  lemma AllPlacesTaken(limits: Limits, s: Ledger, bytes: nat)
    requires limits.maxFiles >= 1 && HasLimit(limits, bytes) && KeepsEnough(limits, s, bytes)
    requires Load(s.files, limits.maxFiles) != s.history
    ensures var hole := Hole(limits, s.phase);
            FullBetween(s.files, if hole > 0 then 0 else 1, limits.maxFiles, hole, bytes)
  {
    var m, hole := limits.maxFiles, Hole(limits, s.phase);
    forall g | (if hole > 0 then 0 else 1) <= g <= m && g != hole ensures g in s.files && Size(s.files[g]) >= bytes {
      if 1 <= g <= Oldest(limits, hole) { TakenBelow(s.files, hole, Oldest(limits, hole), g); }
    }
  }

  /**
   Rotation drops no more than it must: from an empty disk, while nothing fails and nothing restarts, what would be
   loaded is every row written, or it comes to at least as many bytes as the limit times the generations kept.
   */
  lemma DropsOnlyWhenAllAreFull(limits: Limits, events: seq<Event>, bytes: nat)
    requires limits.maxFiles >= 1 && HasLimit(limits, bytes) && NoRestarts(events) && Fail !in events
    ensures var s := Run(limits, Loaded(limits, map[]), events);
            || Load(s.files, limits.maxFiles) == s.history
            || Size(Load(s.files, limits.maxFiles)) >= limits.maxFiles * bytes
  {
    var s := Run(limits, Loaded(limits, map[]), events);
    var m, hole := limits.maxFiles, Hole(limits, s.phase);
    RunKeepsEnough(limits, events, bytes);
    if Load(s.files, m) != s.history {
      AllPlacesTaken(limits, s, bytes);
      FullGenerationsAdd(s.files, if hole > 0 then 0 else 1, m, hole, bytes);
    }
  }
}
