/**
 Which detailed transfer logs are kept when there are more than the cap: failures first, but with some
 room held for successes, pinned entries before others and newer before older.
 */
module Retention {
  import opened Wrappers
  import opened Numbers
  import opened Sorting
  import opened TransferModel

  const RESERVED_SUCCESS_SLOTS := 25
  const FAILURE_STATUSES := {Failed, CleanupFailed, Error}

  /** One stored log; `pinned` is the caller's answer for it, and 0 stands for a missing time. */
  datatype Entry = Entry(transferId: Id, status: Status, savedAt: int, startedAt: int, pinned: bool)

  predicate IsFailure(e: Entry) {
    e.status in FAILURE_STATUSES
  }

  function SavedAtOf(e: Entry): (ms: int) {
    if e.savedAt != 0 then e.savedAt else e.startedAt
  }

  /** Pinned before not pinned, then newest first. */
  predicate Prefers(a: Entry, b: Entry) {
    if a.pinned != b.pinned then a.pinned else SavedAtOf(a) >= SavedAtOf(b)
  }

  function PinnedThenNewest(): (Entry, Entry) -> bool {
    (a: Entry, b: Entry) => Prefers(a, b)
  }

  /** The whole number of entries allowed; 0 stands for no limit. */
  function CapOf(cap: Option<real>): (n: nat) {
    if cap.Some? && cap.value > 0.0 then cap.value.Floor else 0
  }

  function Reserved(slots: Option<int>): (n: int) {
    if slots.Some? then slots.value else RESERVED_SUCCESS_SLOTS
  }

  /** The slots that failures may not take. */
  function SuccessFloorFor(budget: nat, availableSuccesses: nat, reserved: int): (n: nat)
    ensures n <= availableSuccesses && 2 * n <= budget
  {
    Max(0, Min(reserved, Min(availableSuccesses, budget / 2)))
  }

  function Where(s: seq<Entry>, keep: set<Entry>): (r: seq<Entry>) {
    if s == [] then []
    else if s[|s| - 1] in keep then Where(s[..|s| - 1], keep) + [s[|s| - 1]] else Where(s[..|s| - 1], keep)
  }

  function Failures(s: seq<Entry>): (r: seq<Entry>) {
    Where(s, set e | e in s && IsFailure(e))
  }

  function Successes(s: seq<Entry>): (r: seq<Entry>) {
    Where(s, set e | e in s && !IsFailure(e))
  }

  function Elements(s: seq<Entry>): (r: set<Entry>) {
    set e | e in s
  }

  /** One round of claims from position i on: the candidates not yet kept, while there are slots and room. */
  function Claim(keep: set<Entry>, candidates: seq<Entry>, i: nat, slots: int, cap: nat): (r: set<Entry>)
    requires i <= |candidates|
    decreases |candidates| - i
  {
    if i == |candidates| || |keep| >= cap || slots <= 0 then keep
    else if candidates[i] in keep then Claim(keep, candidates, i + 1, slots, cap)
    else Claim(keep + {candidates[i]}, candidates, i + 1, slots - 1, cap)
  }

  /** The entries at the positions from i up to j. */
  function Top(s: seq<Entry>, i: nat, j: nat): (r: set<Entry>)
    requires i <= j <= |s|
    decreases j - i
  {
    if i == j then {} else {s[i]} + Top(s, i + 1, j)
  }

  function FirstClaim(failures: seq<Entry>, successes: seq<Entry>, cap: nat, reserved: int): (keep: set<Entry>) {
    Claim({}, failures, 0, cap - SuccessFloorFor(cap, |successes|, reserved), cap)
  }

  function SecondClaim(first: set<Entry>, successes: seq<Entry>, cap: nat): (keep: set<Entry>) {
    Claim(first, successes, 0, Max(0, cap - |first|), cap)
  }

  function ThirdClaim(second: set<Entry>, all: seq<Entry>, cap: nat): (keep: set<Entry>) {
    Claim(second, Sort(PinnedThenNewest(), all), 0, Max(0, cap - |second|), cap)
  }

  /** The three rounds over the ranked classes. */
  function KeepFrom(failures: seq<Entry>, successes: seq<Entry>, cap: nat, reserved: int): (keep: set<Entry>) {
    ThirdClaim(SecondClaim(FirstClaim(failures, successes, cap, reserved), successes, cap), failures + successes, cap)
  }

  function KeepSet(entries: seq<Entry>, cap: nat, reserved: int): (keep: set<Entry>) {
    KeepFrom(RankedFailures(entries), RankedSuccesses(entries), cap, reserved)
  }

  function Select(entries: seq<Entry>, cap: Option<real>, reserved: int): (kept: seq<Entry>) {
    if CapOf(cap) == 0 || |entries| <= CapOf(cap) then entries
    else Where(entries, KeepSet(entries, CapOf(cap), reserved))
  }

  // ---------------------------------------------------------------- filtering

  lemma {:induction false} WhereHas(s: seq<Entry>, keep: set<Entry>, e: Entry)
    ensures e in Where(s, keep) <==> e in s && e in keep
  {
    if s != [] {
      WhereHas(s[..|s| - 1], keep, e);
      assert s == s[..|s| - 1] + [s[|s| - 1]];
    }
  }

  lemma {:induction false} WhereKeepsDistinct(s: seq<Entry>, keep: set<Entry>)
    requires Distinct(s)
    ensures Distinct(Where(s, keep))
  {
    if s != [] {
      var init, last := s[..|s| - 1], s[|s| - 1];
      WhereKeepsDistinct(init, keep);
      WhereHas(init, keep, last);
    }
  }

  /** Keeping the order of the original: each kept entry has its own, increasing, original position. */
  ghost predicate InOriginalOrder(r: seq<Entry>, s: seq<Entry>) {
    forall i, j, a, b :: 0 <= i < j < |r| && 0 <= a < |s| && 0 <= b < |s| && r[i] == s[a] && r[j] == s[b] ==> a < b
  }

  lemma {:induction false} WhereKeepsOrder(s: seq<Entry>, keep: set<Entry>)
    requires Distinct(s)
    ensures InOriginalOrder(Where(s, keep), s)
  {
    if s != [] {
      var n := |s| - 1;
      var init, r := s[..n], Where(s[..n], keep);
      WhereKeepsOrder(init, keep);
      forall i | 0 <= i < |r| ensures r[i] != s[n] {
        WhereHas(init, keep, r[i]);
        assert r[i] in init;
      }
    }
  }

  lemma {:induction false} ElementsCount(s: seq<Entry>)
    requires Distinct(s)
    ensures |Elements(s)| == |s|
  {
    if s == [] {
      assert Elements(s) == {};
    } else {
      var init, last := s[..|s| - 1], s[|s| - 1];
      ElementsCount(init);
      assert s == init + [last];
      assert Elements(s) == Elements(init) + {last};
    }
  }

  lemma SubsetElements(s: seq<Entry>, keep: set<Entry>)
    requires Distinct(s)
    ensures Elements(Where(s, keep)) == Elements(s) * keep
    ensures |Where(s, keep)| == |Elements(s) * keep|
  {
    forall e ensures e in Where(s, keep) <==> e in s && e in keep { WhereHas(s, keep, e); }
    WhereKeepsDistinct(s, keep);
    ElementsCount(Where(s, keep));
  }

  // ---------------------------------------------------------------- claiming

  lemma {:induction false} TopHas(s: seq<Entry>, i: nat, j: nat, e: Entry)
    requires i <= j <= |s|
    ensures e in Top(s, i, j) <==> exists k :: i <= k < j && s[k] == e
    decreases j - i
  {
    if i < j { TopHas(s, i + 1, j, e); }
  }

  lemma {:induction false} TopCount(s: seq<Entry>, i: nat, j: nat)
    requires i <= j <= |s| && Distinct(s)
    ensures |Top(s, i, j)| == j - i
    decreases j - i
  {
    if i < j {
      TopCount(s, i + 1, j);
      TopHas(s, i + 1, j, s[i]);
    }
  }

  lemma AddOne(keep: set<Entry>, e: Entry, rest: set<Entry>)
    ensures keep + {e} + rest == keep + ({e} + rest)
  {
  }

  /** With enough room, a round takes exactly the first candidates. */
  lemma {:induction false} ClaimTakesTop(keep: set<Entry>, candidates: seq<Entry>, i: nat, slots: nat, cap: nat, n: nat)
    requires i <= |candidates| && Distinct(candidates) && |keep| + slots <= cap
    requires forall k :: i <= k < |candidates| ==> candidates[k] !in keep
    requires n == Min(slots, |candidates| - i)
    ensures Claim(keep, candidates, i, slots, cap) == keep + Top(candidates, i, i + n)
    decreases n
  {
    if n > 0 {
      ClaimTakesTop(keep + {candidates[i]}, candidates, i + 1, slots - 1, cap, n - 1);
      AddOne(keep, candidates[i], Top(candidates, i + 1, i + n));
    }
  }

  // ---------------------------------------------------------------- what is kept

  /** The failures kept: all of them, or as many as leave room for the success floor. */
  function FailureQuota(entries: seq<Entry>, cap: nat, reserved: int): (n: nat) {
    Min(|Failures(entries)|, cap - SuccessFloorFor(cap, |Successes(entries)|, reserved))
  }

  function RankedFailures(entries: seq<Entry>): (r: seq<Entry>) {
    Sort(PinnedThenNewest(), Failures(entries))
  }

  function RankedSuccesses(entries: seq<Entry>): (r: seq<Entry>) {
    Sort(PinnedThenNewest(), Successes(entries))
  }

  lemma ClassesPartition(entries: seq<Entry>)
    requires Distinct(entries)
    ensures Distinct(Failures(entries)) && Distinct(Successes(entries))
    ensures Elements(Failures(entries)) == set e | e in entries && IsFailure(e)
    ensures Elements(Successes(entries)) == set e | e in entries && !IsFailure(e)
    ensures |Failures(entries)| + |Successes(entries)| == |entries|
  {
    var f, s := set e | e in entries && IsFailure(e), set e | e in entries && !IsFailure(e);
    WhereKeepsDistinct(entries, f);
    WhereKeepsDistinct(entries, s);
    SubsetElements(entries, f);
    SubsetElements(entries, s);
    assert Elements(entries) * f == f && Elements(entries) * s == s && Elements(entries) == f + s && f !! s;
    ElementsCount(entries);
  }

  lemma RankedElements(s: seq<Entry>)
    requires Distinct(s)
    ensures var r := Sort(PinnedThenNewest(), s);
            Distinct(r) && Elements(r) == Elements(s) && |r| == |s| && Sorted(PinnedThenNewest(), r)
  {
    SortKeepsDistinct(PinnedThenNewest(), s);
    SortKeeps(PinnedThenNewest(), s);
    SortSorts(PinnedThenNewest(), s);
    forall e ensures e in Sort(PinnedThenNewest(), s) <==> e in s { SortHasSameElements(PinnedThenNewest(), s, e); }
  }

  lemma RankedClasses(entries: seq<Entry>)
    requires Distinct(entries)
    ensures Distinct(RankedFailures(entries)) && Distinct(RankedSuccesses(entries))
    ensures |RankedFailures(entries)| == |Failures(entries)| && |RankedSuccesses(entries)| == |Successes(entries)|
    ensures |Failures(entries)| + |Successes(entries)| == |entries|
    ensures Elements(RankedFailures(entries)) == set e | e in entries && IsFailure(e)
    ensures Elements(RankedSuccesses(entries)) == set e | e in entries && !IsFailure(e)
  {
    ClassesPartition(entries);
    RankedElements(Failures(entries));
    RankedElements(Successes(entries));
  }

  lemma ClaimFromNothing(candidates: seq<Entry>, slots: nat, cap: nat, n: nat)
    requires Distinct(candidates) && slots <= cap && n == Min(|candidates|, slots)
    ensures Claim({}, candidates, 0, slots, cap) == Top(candidates, 0, n)
  {
    ClaimTakesTop({}, candidates, 0, slots, cap, n);
    assert {} + Top(candidates, 0, n) == Top(candidates, 0, n);
  }

  lemma SecondTakesTheRest(first: set<Entry>, candidates: seq<Entry>, n: nat, cap: nat)
    requires Distinct(candidates) && Elements(candidates) !! first && n <= |candidates| && |first| + n == cap
    ensures SecondClaim(first, candidates, cap) == first + Top(candidates, 0, n)
    ensures |first + Top(candidates, 0, n)| == cap
  {
    forall k | 0 <= k < |candidates| ensures candidates[k] !in first { assert candidates[k] in Elements(candidates); }
    ClaimTakesTop(first, candidates, 0, n, cap, n);
    TopCount(candidates, 0, n);
    TopWithin(candidates, n);
    assert first !! Top(candidates, 0, n);
  }

  lemma TopWithin(s: seq<Entry>, n: nat)
    requires n <= |s|
    ensures Top(s, 0, n) <= Elements(s)
  {
    forall e | e in Top(s, 0, n) ensures e in s { TopHas(s, 0, n, e); }
  }

  /** When the cap is filled, the third round claims nothing. */
  lemma ThirdClaimsNothing(second: set<Entry>, all: seq<Entry>, cap: nat)
    requires |second| == cap
    ensures ThirdClaim(second, all, cap) == second
  {
  }

  /** The first q failures and enough successes to fill the cap. */
  function BestOf(failures: seq<Entry>, successes: seq<Entry>, cap: nat, q: nat): (keep: set<Entry>)
    requires q <= |failures| && q <= cap <= q + |successes|
  {
    Top(failures, 0, q) + Top(successes, 0, cap - q)
  }

  /** Of more entries than the cap, the rounds keep the best of each class and fill the cap exactly. */
  lemma RoundsKeepBest(failures: seq<Entry>, successes: seq<Entry>, cap: nat, reserved: int, q: nat)
    requires Distinct(failures) && Distinct(successes) && Elements(failures) !! Elements(successes)
    requires |failures| + |successes| > cap
    requires q == Min(|failures|, cap - SuccessFloorFor(cap, |successes|, reserved))
    ensures q <= cap <= q + |successes|
    ensures SecondClaim(FirstClaim(failures, successes, cap, reserved), successes, cap)
         == BestOf(failures, successes, cap, q)
    ensures KeepFrom(failures, successes, cap, reserved) == BestOf(failures, successes, cap, q)
    ensures |BestOf(failures, successes, cap, q)| == cap
  {
    ClaimFromNothing(failures, cap - SuccessFloorFor(cap, |successes|, reserved), cap, q);
    SecondFillsCap(failures, successes, cap, q);
    ThirdClaimsNothing(BestOf(failures, successes, cap, q), failures + successes, cap);
  }

  lemma SecondFillsCap(failures: seq<Entry>, successes: seq<Entry>, cap: nat, q: nat)
    requires Distinct(failures) && Distinct(successes) && Elements(failures) !! Elements(successes)
    requires q <= |failures| && q <= cap <= q + |successes|
    ensures SecondClaim(Top(failures, 0, q), successes, cap) == BestOf(failures, successes, cap, q)
    ensures |BestOf(failures, successes, cap, q)| == cap
  {
    TopCount(failures, 0, q);
    TopWithin(failures, q);
    SecondTakesTheRest(Top(failures, 0, q), successes, cap - q, cap);
  }

  lemma RanksAreDisjoint(entries: seq<Entry>)
    requires Distinct(entries)
    ensures Elements(RankedFailures(entries)) !! Elements(RankedSuccesses(entries))
  {
    RankedClasses(entries);
  }

  /** The two rounds fill the cap, so the third claims nothing. */
  lemma KeepSetIsBest(entries: seq<Entry>, cap: nat, reserved: int)
    requires Distinct(entries) && |entries| > cap
    ensures var q := FailureQuota(entries, cap, reserved);
            && q <= |RankedFailures(entries)| && q <= cap <= q + |RankedSuccesses(entries)|
            && KeepSet(entries, cap, reserved) == BestOf(RankedFailures(entries), RankedSuccesses(entries), cap, q)
            && |KeepSet(entries, cap, reserved)| == cap
  {
    RankedClasses(entries);
    RanksAreDisjoint(entries);
    RoundsKeepBest(RankedFailures(entries), RankedSuccesses(entries), cap, reserved,
                   FailureQuota(entries, cap, reserved));
  }

  /** The third round of claims adds nothing to the first two. */
  lemma ThirdClaimAddsNothing(entries: seq<Entry>, cap: nat, reserved: int)
    requires Distinct(entries) && |entries| > cap
    ensures KeepSet(entries, cap, reserved)
         == SecondClaim(FirstClaim(RankedFailures(entries), RankedSuccesses(entries), cap, reserved),
                        RankedSuccesses(entries), cap)
  {
    RankedClasses(entries);
    RanksAreDisjoint(entries);
    RoundsKeepBest(RankedFailures(entries), RankedSuccesses(entries), cap, reserved,
                   FailureQuota(entries, cap, reserved));
  }

  lemma ClassOfBest(entries: seq<Entry>, cap: nat, reserved: int, e: Entry)
    requires Distinct(entries) && |entries| > cap
    ensures var q := FailureQuota(entries, cap, reserved);
            && q <= |RankedFailures(entries)| && 0 <= cap - q <= |RankedSuccesses(entries)|
            && (e in KeepSet(entries, cap, reserved) && IsFailure(e) <==> e in Top(RankedFailures(entries), 0, q))
            && (e in KeepSet(entries, cap, reserved) && !IsFailure(e) <==>
                  e in Top(RankedSuccesses(entries), 0, cap - q))
            && (e in KeepSet(entries, cap, reserved) ==> e in entries)
  {
    var q := FailureQuota(entries, cap, reserved);
    KeepSetIsBest(entries, cap, reserved);
    RankedClasses(entries);
    TopWithin(RankedFailures(entries), q);
    TopWithin(RankedSuccesses(entries), cap - q);
  }

  /** The kept entries are as many as the kept set, in the original order. */
  lemma KeptAreListed(entries: seq<Entry>, keep: set<Entry>)
    requires Distinct(entries) && keep <= Elements(entries)
    ensures |Where(entries, keep)| == |keep| && Distinct(Where(entries, keep))
    ensures InOriginalOrder(Where(entries, keep), entries) && Elements(Where(entries, keep)) <= Elements(entries)
  {
    SubsetElements(entries, keep);
    assert Elements(entries) * keep == keep;
    WhereKeepsDistinct(entries, keep);
    WhereKeepsOrder(entries, keep);
  }

  lemma KeepSetIsAmong(entries: seq<Entry>, cap: nat, reserved: int)
    requires Distinct(entries) && |entries| > cap
    ensures KeepSet(entries, cap, reserved) <= Elements(entries) && |KeepSet(entries, cap, reserved)| == cap
  {
    KeepSetIsBest(entries, cap, reserved);
    forall e | e in KeepSet(entries, cap, reserved) ensures e in entries { ClassOfBest(entries, cap, reserved, e); }
  }

  lemma FailuresKept(entries: seq<Entry>, cap: nat, reserved: int)
    requires Distinct(entries) && |entries| > cap
    ensures |Failures(Where(entries, KeepSet(entries, cap, reserved)))| == FailureQuota(entries, cap, reserved)
  {
    var keep, q := KeepSet(entries, cap, reserved), FailureQuota(entries, cap, reserved);
    var kept := Where(entries, keep);
    KeepSetIsBest(entries, cap, reserved);
    RankedClasses(entries);
    WhereKeepsDistinct(entries, keep);
    ClassesPartition(kept);
    ElementsCount(Failures(kept));
    forall e ensures e in Elements(Failures(kept)) <==> e in Top(RankedFailures(entries), 0, q) {
      WhereHas(entries, keep, e);
      ClassOfBest(entries, cap, reserved, e);
      assert e in Elements(Failures(kept)) <==> e in kept && IsFailure(e);
    }
    assert Elements(Failures(kept)) == Top(RankedFailures(entries), 0, q);
    TopCount(RankedFailures(entries), 0, q);
  }

  lemma NothingBetterLeft(entries: seq<Entry>, cap: nat, reserved: int, kept: Entry, dropped: Entry)
    requires Distinct(entries) && |entries| > cap
    requires kept in KeepSet(entries, cap, reserved)
    requires dropped in entries && dropped !in KeepSet(entries, cap, reserved)
    requires IsFailure(kept) == IsFailure(dropped)
    ensures Prefers(kept, dropped)
  {
    var q := FailureQuota(entries, cap, reserved);
    ClassOfBest(entries, cap, reserved, kept);
    ClassOfBest(entries, cap, reserved, dropped);
    ClassesPartition(entries);
    if IsFailure(kept) {
      assert dropped in Elements(Failures(entries));
      PrefixBeatsRest(Failures(entries), q, kept, dropped);
    } else {
      assert dropped in Elements(Successes(entries));
      PrefixBeatsRest(Successes(entries), cap - q, kept, dropped);
    }
  }

  lemma PrefixBeatsRest(s: seq<Entry>, n: nat, kept: Entry, dropped: Entry)
    requires Distinct(s)
    requires var r := Sort(PinnedThenNewest(), s);
             n <= |r| && kept in Top(r, 0, n) && dropped in Elements(s) && dropped !in Top(r, 0, n)
    ensures Prefers(kept, dropped)
  {
    var r := Sort(PinnedThenNewest(), s);
    RankedElements(s);
    assert dropped in Elements(r);
    TopHas(r, 0, n, kept);
    TopHas(r, 0, n, dropped);
    var i :| 0 <= i < n && r[i] == kept;
    var j :| 0 <= j < |r| && r[j] == dropped;
    assert PinnedThenNewest()(r[i], r[j]);
  }

  // ---------------------------------------------------------------- the selection, in statuses, times and counts

  /** The logs of transfers that went wrong. */
  ghost function FailedLogs(s: seq<Entry>): (r: set<Entry>) {
    set e | e in s && (e.status == Failed || e.status == CleanupFailed || e.status == Error)
  }

  ghost function SucceededLogs(s: seq<Entry>): (r: set<Entry>) {
    set e | e in s && e.status != Failed && e.status != CleanupFailed && e.status != Error
  }

  /** So many slots may be held for successes: they are reserved, there are logs for them, and failures get as many. */
  predicate MayHold(slots: nat, successes: nat, cap: nat, reserved: int) {
    slots <= reserved && slots <= successes && 2 * slots <= cap
  }

  /** What is kept is pinned if the other is, and otherwise at least as new. */
  predicate RanksBefore(kept: Entry, dropped: Entry) {
    && (dropped.pinned ==> kept.pinned)
    && (kept.pinned == dropped.pinned ==>
          (if kept.savedAt != 0 then kept.savedAt else kept.startedAt)
          >= (if dropped.savedAt != 0 then dropped.savedAt else dropped.startedAt))
  }

  ghost predicate BestOfClass(class': set<Entry>, kept: seq<Entry>) {
    forall a, b :: a in class' && b in class' && a in kept && b !in kept ==> RanksBefore(a, b)
  }

  /**
   The cap is filled, in the original order, with the first of each class. Every slot that may be held for a
   success has one, and a failure is dropped only if no success is kept without such a slot.
   */
  ghost predicate IsSelection(entries: seq<Entry>, kept: seq<Entry>, cap: nat, reserved: int) {
    && |kept| == cap && InOriginalOrder(kept, entries) && Elements(kept) <= Elements(entries)
    && |FailedLogs(kept)| + |SucceededLogs(kept)| == cap
    && (forall n: nat :: MayHold(n, |SucceededLogs(entries)|, cap, reserved) ==> n <= |SucceededLogs(kept)|)
    && (FailedLogs(kept) != FailedLogs(entries) ==>
          || SucceededLogs(kept) == {}
          || MayHold(|SucceededLogs(kept)|, |SucceededLogs(entries)|, cap, reserved))
    && BestOfClass(FailedLogs(entries), kept) && BestOfClass(SucceededLogs(entries), kept)
  }

  /** The limit is this whole number of entries. */
  predicate IsCap(cap: Option<real>, n: nat) {
    cap.Some? && n as real <= cap.value < n as real + 1.0
  }

  lemma CapIsFloor(cap: Option<real>, n: nat)
    requires IsCap(cap, n) && n > 0
    ensures CapOf(cap) == n
  {
  }

  lemma ClassesInStatuses(s: seq<Entry>)
    requires Distinct(s)
    ensures FailedLogs(s) == Elements(Failures(s)) && SucceededLogs(s) == Elements(Successes(s))
    ensures |FailedLogs(s)| == |Failures(s)| && |SucceededLogs(s)| == |Successes(s)|
  {
    ClassesPartition(s);
    ElementsCount(Failures(s));
    ElementsCount(Successes(s));
    assert forall e :: e in FailedLogs(s) <==> e in s && IsFailure(e);
    assert forall e :: e in SucceededLogs(s) <==> e in s && !IsFailure(e);
  }

  predicate SameClass(a: Entry, b: Entry) {
    IsFailure(a) == IsFailure(b)
  }

  lemma KeptRanksBefore(entries: seq<Entry>, cap: nat, reserved: int, a: Entry, b: Entry)
    requires Distinct(entries) && |entries| > cap && SameClass(a, b) && b in entries
    requires var kept := Where(entries, KeepSet(entries, cap, reserved)); a in kept && b !in kept
    ensures RanksBefore(a, b)
  {
    WhereHas(entries, KeepSet(entries, cap, reserved), a);
    WhereHas(entries, KeepSet(entries, cap, reserved), b);
    NothingBetterLeft(entries, cap, reserved, a, b);
  }

  ghost predicate AllOfClass(class': set<Entry>, failures: bool) {
    forall e :: e in class' ==> IsFailure(e) == failures
  }

  lemma KeptIsBestOfClass(entries: seq<Entry>, class': set<Entry>, cap: nat, reserved: int, failures: bool)
    requires Distinct(entries) && |entries| > cap && class' <= Elements(entries) && AllOfClass(class', failures)
    ensures BestOfClass(class', Where(entries, KeepSet(entries, cap, reserved)))
  {
    var kept := Where(entries, KeepSet(entries, cap, reserved));
    forall a, b | a in class' && b in class' && a in kept && b !in kept ensures RanksBefore(a, b) {
      assert a in Elements(entries) && b in Elements(entries);
      KeptRanksBefore(entries, cap, reserved, a, b);
    }
  }

  lemma ClassesAreClasses(entries: seq<Entry>)
    ensures AllOfClass(FailedLogs(entries), true) && AllOfClass(SucceededLogs(entries), false)
    ensures FailedLogs(entries) <= Elements(entries) && SucceededLogs(entries) <= Elements(entries)
  {
  }

  lemma FloorHolds(entries: seq<Entry>, cap: nat, reserved: int, n: nat)
    requires MayHold(n, |Successes(entries)|, cap, reserved)
    ensures n <= SuccessFloorFor(cap, |Successes(entries)|, reserved)
  {
  }

  lemma FailuresGoForFloor(entries: seq<Entry>, cap: nat, reserved: int)
    requires Distinct(entries) && |entries| > cap
    ensures var kept := Where(entries, KeepSet(entries, cap, reserved));
            FailedLogs(kept) != FailedLogs(entries) ==>
              |Successes(kept)| == SuccessFloorFor(cap, |Successes(entries)|, reserved)
  {
    var keep := KeepSet(entries, cap, reserved);
    var kept := Where(entries, keep);
    KeepSetIsAmong(entries, cap, reserved);
    KeptAreListed(entries, keep);
    FailuresKept(entries, cap, reserved);
    ClassesPartition(kept);
    ClassesInStatuses(kept);
    ClassesInStatuses(entries);
    assert FailedLogs(kept) <= FailedLogs(entries) by {
      forall e | e in kept ensures e in entries { WhereHas(entries, keep, e); }
    }
    if |FailedLogs(kept)| == |FailedLogs(entries)| {
      SubsetOfSameSize(FailedLogs(kept), FailedLogs(entries));
    }
  }

  lemma SubsetOfSameSize(a: set<Entry>, b: set<Entry>)
    requires a <= b && |a| == |b|
    ensures a == b
  {
    assert |b - a| == 0;
  }

  /** More entries than the cap: the rounds of claims make the selection that the statuses and times call for. */
  lemma SelectionIsExact(entries: seq<Entry>, cap: Option<real>, n: nat, reserved: int)
    requires Distinct(entries) && IsCap(cap, n) && 0 < n < |entries|
    ensures IsSelection(entries, Select(entries, cap, reserved), n, reserved)
  {
    var keep, kept := KeepSet(entries, n, reserved), Select(entries, cap, reserved);
    CapIsFloor(cap, n);
    KeepSetIsAmong(entries, n, reserved);
    KeptAreListed(entries, keep);
    FailuresKept(entries, n, reserved);
    ClassesPartition(kept);
    ClassesInStatuses(kept);
    ClassesInStatuses(entries);
    forall m: nat | MayHold(m, |SucceededLogs(entries)|, n, reserved) ensures m <= |SucceededLogs(kept)| {
      FloorHolds(entries, n, reserved, m);
    }
    FailuresGoForFloor(entries, n, reserved);
    ClassesAreClasses(entries);
    KeptIsBestOfClass(entries, FailedLogs(entries), n, reserved, true);
    KeptIsBestOfClass(entries, SucceededLogs(entries), n, reserved, false);
  }

  /** Without a limit of at least one, or with no more entries than the limit, everything is kept. */
  lemma SelectsAll(entries: seq<Entry>, cap: Option<real>, reserved: int)
    requires cap.None? || cap.value < 1.0 || |entries| as real <= cap.value
    ensures Select(entries, cap, reserved) == entries
  {
  }

  /** The two clauses about successes leave one number of them. */
  lemma SelectionIsDetermined(entries: seq<Entry>, a: seq<Entry>, b: seq<Entry>, cap: nat, reserved: int)
    requires IsSelection(entries, a, cap, reserved) && IsSelection(entries, b, cap, reserved)
    ensures |SucceededLogs(a)| == |SucceededLogs(b)| && |FailedLogs(a)| == |FailedLogs(b)|
  {
    if |SucceededLogs(a)| < |SucceededLogs(b)| {
      FewerSuccesses(entries, a, b, cap, reserved);
    } else if |SucceededLogs(b)| < |SucceededLogs(a)| {
      FewerSuccesses(entries, b, a, cap, reserved);
    }
  }

  lemma FewerSuccesses(entries: seq<Entry>, a: seq<Entry>, b: seq<Entry>, cap: nat, reserved: int)
    requires IsSelection(entries, a, cap, reserved) && IsSelection(entries, b, cap, reserved)
    ensures |SucceededLogs(a)| >= |SucceededLogs(b)|
  {
    FailuresAmong(entries, a);
  }

  lemma FailuresAmong(entries: seq<Entry>, kept: seq<Entry>)
    requires Elements(kept) <= Elements(entries)
    ensures |FailedLogs(kept)| <= |FailedLogs(entries)|
  {
    assert forall e :: e in kept ==> e in Elements(kept);
    assert FailedLogs(kept) <= FailedLogs(entries);
    SubsetIsSmaller(FailedLogs(kept), FailedLogs(entries));
  }

  lemma SubsetIsSmaller(a: set<Entry>, b: set<Entry>)
    requires a <= b
    ensures |a| <= |b|
  {
    assert |b| == |a| + |b - a|;
  }

  /** Selecting again changes nothing. */
  lemma SelectionIsIdempotent(entries: seq<Entry>, cap: Option<real>, reserved: int)
    requires Distinct(entries)
    ensures Select(Select(entries, cap, reserved), cap, reserved) == Select(entries, cap, reserved)
  {
    if |entries| > CapOf(cap) > 0 {
      KeepSetIsAmong(entries, CapOf(cap), reserved);
      KeptAreListed(entries, KeepSet(entries, CapOf(cap), reserved));
    }
  }

  // ---------------------------------------------------------------- the loops

  lemma {:induction false} WhereAgrees(s: seq<Entry>, a: set<Entry>, b: set<Entry>)
    requires forall e :: e in s ==> (e in a <==> e in b)
    ensures Where(s, a) == Where(s, b)
  {
    if s != [] {
      WhereAgrees(s[..|s| - 1], a, b);
      assert s[|s| - 1] in s;
    }
  }

  lemma ClassOneMore(s: seq<Entry>, e: Entry)
    ensures Failures(s + [e]) == if IsFailure(e) then Failures(s) + [e] else Failures(s)
    ensures Successes(s + [e]) == if IsFailure(e) then Successes(s) else Successes(s) + [e]
  {
    var t := s + [e];
    assert t[..|t| - 1] == s;
    WhereAgrees(s, set x | x in t && IsFailure(x), set x | x in s && IsFailure(x));
    WhereAgrees(s, set x | x in t && !IsFailure(x), set x | x in s && !IsFailure(x));
  }

  lemma ClassesUpTo(entries: seq<Entry>, i: nat)
    requires i < |entries|
    ensures Failures(entries[..i + 1])
         == Failures(entries[..i]) + if IsFailure(entries[i]) then [entries[i]] else []
    ensures Successes(entries[..i + 1])
         == Successes(entries[..i]) + if IsFailure(entries[i]) then [] else [entries[i]]
  {
    ClassOneMore(entries[..i], entries[i]);
    assert entries[..i + 1] == entries[..i] + [entries[i]];
  }

  method Partition(entries: seq<Entry>) returns (failures: seq<Entry>, successes: seq<Entry>)
    ensures failures == Failures(entries) && successes == Successes(entries)
  {
    failures, successes := [], [];
    var i := 0;
    while i < |entries|
      invariant 0 <= i <= |entries|
      invariant failures == Failures(entries[..i]) && successes == Successes(entries[..i])
    {
      ClassesUpTo(entries, i);
      if IsFailure(entries[i]) {
        failures := failures + [entries[i]];
      } else {
        successes := successes + [entries[i]];
      }
      i := i + 1;
    }
    assert entries[..|entries|] == entries;
  }

  method ClaimSlots(before: set<Entry>, candidates: seq<Entry>, slots: int, cap: nat) returns (keep: set<Entry>)
    ensures keep == Claim(before, candidates, 0, slots, cap)
  {
    keep := before;
    var left := slots;
    var i := 0;
    while i < |candidates|
      invariant 0 <= i <= |candidates|
      invariant Claim(keep, candidates, i, left, cap) == Claim(before, candidates, 0, slots, cap)
    {
      if |keep| >= cap || left <= 0 { return; }
      if candidates[i] !in keep {
        keep := keep + {candidates[i]};
        left := left - 1;
      }
      i := i + 1;
    }
  }

  method FilterKept(entries: seq<Entry>, keep: set<Entry>) returns (kept: seq<Entry>)
    ensures kept == Where(entries, keep)
  {
    kept := [];
    var i := 0;
    while i < |entries|
      invariant 0 <= i <= |entries|
      invariant kept == Where(entries[..i], keep)
    {
      assert entries[..i + 1][..i] == entries[..i];
      if entries[i] in keep { kept := kept + [entries[i]]; }
      i := i + 1;
    }
    assert entries[..|entries|] == entries;
  }

  method ClaimFirst(failures: seq<Entry>, successes: seq<Entry>, cap: nat, reserved: int) returns (keep: set<Entry>)
    ensures keep == FirstClaim(failures, successes, cap, reserved)
  {
    keep := ClaimSlots({}, failures, cap - SuccessFloorFor(cap, |successes|, reserved), cap);
  }

  method ClaimSecond(first: set<Entry>, successes: seq<Entry>, cap: nat) returns (keep: set<Entry>)
    ensures keep == SecondClaim(first, successes, cap)
  {
    keep := ClaimSlots(first, successes, Max(0, cap - |first|), cap);
  }

  method ClaimThird(second: set<Entry>, all: seq<Entry>, cap: nat) returns (keep: set<Entry>)
    ensures keep == ThirdClaim(second, all, cap)
  {
    keep := ClaimSlots(second, Sort(PinnedThenNewest(), all), Max(0, cap - |second|), cap);
  }

  lemma SelectionsAreExact(entries: seq<Entry>, cap: Option<real>, reserved: int)
    ensures forall n: nat :: IsCap(cap, n) && 0 < n < |entries| && Distinct(entries) ==>
              IsSelection(entries, Select(entries, cap, reserved), n, reserved)
    ensures cap.None? || cap.value < 1.0 || |entries| as real <= cap.value ==>
              Select(entries, cap, reserved) == entries
  {
    forall n: nat | IsCap(cap, n) && 0 < n < |entries| && Distinct(entries)
      ensures IsSelection(entries, Select(entries, cap, reserved), n, reserved)
    {
      SelectionIsExact(entries, cap, n, reserved);
    }
  }

  /** The whole selection; without an option the default number of slots is reserved. */
  method SelectRetainedDetail(entries: seq<Entry>, cap: Option<real>, reservedSuccessSlots: Option<int>)
    returns (kept: seq<Entry>)
    ensures kept == Select(entries, cap, Reserved(reservedSuccessSlots))
    ensures forall n: nat :: IsCap(cap, n) && 0 < n < |entries| && Distinct(entries) ==>
              IsSelection(entries, kept, n, if reservedSuccessSlots.Some? then reservedSuccessSlots.value else 25)
    ensures cap.None? || cap.value < 1.0 || |entries| as real <= cap.value ==> kept == entries
  {
    SelectionsAreExact(entries, cap, Reserved(reservedSuccessSlots));
    var limit, reserved := CapOf(cap), Reserved(reservedSuccessSlots);
    if limit == 0 || |entries| <= limit { return entries; }
    var failures, successes := Partition(entries);
    failures := Sort(PinnedThenNewest(), failures);
    successes := Sort(PinnedThenNewest(), successes);
    var keep := ClaimFirst(failures, successes, limit, reserved);
    keep := ClaimSecond(keep, successes, limit);
    keep := ClaimThird(keep, failures + successes, limit);
    kept := FilterKept(entries, keep);
  }
}
