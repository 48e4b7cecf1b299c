/**
 What single events leave behind in any reachable state: the stored export after a completed transfer, the
 intents after a landing or a restart, the records after pruning, and a settled record after a late verdict.
 */
module TransferEffects {
  import opened Wrappers
  import opened TransferModel
  import opened TransferWorld
  import opened TransferDelete
  import opened TransferRetry
  import opened TransferOutcomes
  import opened TransferIntentGuards

  // ---------------------------------------------------------------- the stored export

  /**
   Once its completion is recorded, the export that the attempt's call was made for is no longer stored, and all
   others still are.
   */
  lemma CompletionDropsExport(events: seq<Event>, h: nat)
    requires Valid(INIT, events) && Enabled(Run(INIT, events), InHandler(CompletionRecorded(h)))
    ensures var w := Run(INIT, events);
            var attempt := w.controller.handlers[h].attempt;
            var stored := Step(w, InHandler(CompletionRecorded(h))).controller.platformStorage;
            && attempt < |w.env.requested|
            && (w.env.requested[attempt] != NO_ID ==> w.env.requested[attempt] !in stored)
            && (forall key :: key in w.controller.platformStorage && key != w.env.requested[attempt] ==>
                  key in stored && stored[key] == w.controller.platformStorage[key])
            && stored.Keys <= w.controller.platformStorage.Keys
  {
    RecordsNameTheirExport(events, Run(INIT, events).controller.handlers[h].attempt);
  }

  // ---------------------------------------------------------------- intents

  /** The intents kept are those at most 15 minutes old. */
  ghost predicate KeepsRecent(before: map<Id, Intent>, after: map<Id, Intent>, now: int) {
    && (forall id :: id in after <==> id in before && now - before[id].startedAt <= 900000)
    && (forall id :: id in after ==> after[id] == before[id])
  }

  /** An import that lands puts its own intent among those that are recent, and has all of them written. */
  lemma LandingRecordsIntent(events: seq<Event>, k: nat, outcome: SendOutcome)
    requires Valid(INIT, events) && outcome in {Accepted, SessionLost}
    requires Enabled(Run(INIT, events), InCall(ImportReplies(k, outcome)))
    ensures var w := Run(INIT, events);
            var c, r := w.controller, Step(w, InCall(ImportReplies(k, outcome))).controller;
            && c.calls[k].id in r.pendingTransfers
            && r.pendingTransfers[c.calls[k].id] == Intent(k, c.calls[k].startedAt)
            && KeepsRecent(c.pendingTransfers - {c.calls[k].id}, r.pendingTransfers - {c.calls[k].id}, w.env.now)
            && r.writes == c.writes + [r.pendingTransfers]
  {
  }

  /** The handler's last await came after it had been told that its source is deleted or unlocked. */
  predicate EndsResolved(handler: Handler) {
    handler.phase.Storing? || handler.phase == Persisting(false)
  }

  /** A handler that ends so takes the intent of its id away, on disk too; any other leaves the intents alone. */
  lemma EndingRemovesIntent(w: World, h: nat, evicted: set<Id>, others: nat, othersKept: nat)
    requires Enabled(w, InHandler(Settles(h, evicted, others, othersKept)))
    ensures var c, r := w.controller, Step(w, InHandler(Settles(h, evicted, others, othersKept))).controller;
            var id := c.handlers[h].id;
            if EndsResolved(c.handlers[h]) && id in c.pendingTransfers
            then r.pendingTransfers == c.pendingTransfers - {id} && r.writes == c.writes + [r.pendingTransfers]
            else r.pendingTransfers == c.pendingTransfers && r.writes == c.writes
  {
  }

  /** A new process has the stored exports, the recent intents of the file, no records and nothing to write. */
  lemma RestartReloads(w: World, stored: map<Id, StoredExport>)
    ensures Enabled(w, Outside(RestartController(stored)))
    ensures var r := Step(w, Outside(RestartController(stored))).controller;
            && r.platformStorage == stored && r.activeTransfers == map[] && r.timers == map[] && r.writes == []
            && KeepsRecent(w.env.disk, r.pendingTransfers, w.env.now)
            && (forall h :: 0 <= h < |r.handlers| ==> r.handlers[h].phase == Finished)
            && |r.calls| == |w.controller.calls|
            && (forall k :: 0 <= k < |r.calls| ==>
                  r.calls[k] == if w.controller.calls[k].phase.Returned? then w.controller.calls[k]
                                else w.controller.calls[k].(phase := CallLost))
  {
  }

  // ---------------------------------------------------------------- pruning

  /** At most 100 records are left; those dropped are at most as new as those kept, which did not change. */
  ghost predicate PrunedTo100(c: Controller, r: Controller, others: nat, othersKept: nat)
    requires Linked(c)
  {
    && |r.activeTransfers| + othersKept <= 100
    && (|c.activeTransfers| + others >= 100 ==> |r.activeTransfers| + othersKept == 100)
    && (|c.activeTransfers| + others <= 100 ==> r.activeTransfers == c.activeTransfers)
    && (forall id :: id in r.activeTransfers ==>
          id in c.activeTransfers && r.activeTransfers[id] == c.activeTransfers[id])
    && (forall gone, kept :: gone in c.activeTransfers && gone !in r.activeTransfers && kept in r.activeTransfers ==>
          StartedAt(c, gone) <= StartedAt(c, kept))
  }

  lemma EvictionPrunes(c: Controller, r: Controller, others: nat, othersKept: nat, evicted: set<Id>)
    requires Linked(c) && MayEvict(c, others, othersKept, evicted)
    requires r.activeTransfers == c.activeTransfers - evicted
    ensures PrunedTo100(c, r, others, othersKept)
  {
    assert (c.activeTransfers - evicted).Keys == c.activeTransfers.Keys - evicted;
  }

  lemma EndingPrunes(w: World, h: nat, evicted: set<Id>, others: nat, othersKept: nat)
    requires Enabled(w, InHandler(Settles(h, evicted, others, othersKept)))
    ensures PrunedTo100(w.controller, Step(w, InHandler(Settles(h, evicted, others, othersKept))).controller,
                        others, othersKept)
  {
    EndedKeepsRecords(w.controller, h, evicted);
    EvictionPrunes(w.controller, Settle(w.controller, h, evicted), others, othersKept, evicted);
  }

  lemma OtherEndingPrunes(w: World, evicted: set<Id>, others: nat, othersKept: nat)
    requires Enabled(w, Outside(OtherOperationPrunes(evicted, others, othersKept)))
    ensures PrunedTo100(w.controller, Step(w, Outside(OtherOperationPrunes(evicted, others, othersKept))).controller,
                        others, othersKept)
  {
    EvictionPrunes(w.controller, Evict(w.controller, evicted), others, othersKept, evicted);
  }

  // ---------------------------------------------------------------- timeouts

  /** A timer that goes off on a record awaiting its verdict starts a handler with a plain failure, once. */
  lemma TimeoutFails(w: World, t: nat)
    requires Enabled(w, InHandler(TimerFires(t)))
    ensures var c, r := w.controller, Step(w, InHandler(TimerFires(t))).controller;
            var id := c.timers[t].id;
            && t !in r.timers && r.activeTransfers == c.activeTransfers
            && (if StatusOf(c, id) == Some(AwaitingValidation)
                then r.handlers == c.handlers + [Handler(id, c.activeTransfers[id],
                                                         Verdict(false, false, false, false, false), Announcing, false)]
                else r.handlers == c.handlers && r.records == c.records)
  {
  }

  // ---------------------------------------------------------------- late verdicts

  /** The verdict finds a record that does not await one. */
  ghost predicate ComesLate(w: World, message: Message) {
    && Enabled(w, InHandler(VerdictArrives(message)))
    && message.id in w.controller.activeTransfers && !Awaits(w.controller, message.id)
  }

  /**
   A late verdict changes something exactly if the record has failed and the verdict reports a copy: a failed
   record that could be tried again can be tried again afterwards exactly if the verdict reports no copy.
   */
  lemma LateVerdictMatters(w: World, message: Message)
    requires ComesLate(w, message)
    ensures var c, r := w.controller, Step(w, InHandler(VerdictArrives(message))).controller;
            var k := c.activeTransfers[message.id];
            var verdict := message.verdict;
            var copy := verdict.success || verdict.cleanupFailed || verdict.destinationPreserved;
            && (!c.records[k].status.Failed? || !copy ==> r == c)
            && r == c.(records := c.records[k := c.records[k].(status := r.records[k].status,
                                                               preserved := r.records[k].preserved)])
            && (c.records[k].status.Failed? && !c.records[k].preserved ==>
                  ((r.records[k].status.Failed? && !r.records[k].preserved) <==> !copy))
            && (c.records[k].status.Failed? && (message.verdict.success || message.verdict.cleanupFailed) ==>
                  r.records[k].status == CleanupFailed)
  {
    var c, r := w.controller, Step(w, InHandler(VerdictArrives(message))).controller;
    var k := c.activeTransfers[message.id];
    assert c.records[k := c.records[k]] == c.records;
  }

  // ---------------------------------------------------------------- preserved copies

  predicate SaysPreserved(taken: Taken, id: Id) {
    taken.id == id && taken.verdict.destinationPreserved
  }

  ghost predicate PreservationTold(record: Record, taken: seq<Taken>) {
    record.preserved ==> exists i :: 0 <= i < |taken| && SaysPreserved(taken[i], record.id)
  }

  ghost predicate PreservationsTold(w: World) {
    forall k :: k in w.controller.records ==> PreservationTold(w.controller.records[k], w.env.taken)
  }

  lemma PreservationStaysTold(record: Record, a: seq<Taken>, b: seq<Taken>)
    requires PreservationTold(record, a) && a <= b
    ensures PreservationTold(record, b)
  {
    if record.preserved {
      var i :| 0 <= i < |a| && SaysPreserved(a[i], record.id);
      assert b[i] == a[i];
    }
  }

  /** A record is new, or it was marked before, or it is the one that a verdict marks now. */
  ghost predicate MarkedBy(c: Controller, r: Controller, k: nat, taken: seq<Taken>)
    requires k in r.records
  {
    r.records[k].preserved ==>
      || (k in c.records && c.records[k].preserved && c.records[k].id == r.records[k].id)
      || (taken != [] && SaysPreserved(taken[0], r.records[k].id))
  }

  predicate SameMark(c: Controller, r: Controller, k: nat) {
    k in r.records ==> k in c.records && r.records[k].preserved == c.records[k].preserved
                       && r.records[k].id == c.records[k].id
  }

  lemma AwaitingSameMark(c: Controller, k: nat, now: int, j: nat)
    requires Linked(c) && k < |c.calls| && k in c.records
    ensures SameMark(c, EnterAwaitingValidation(c, k, now), j)
  {
    var awaiting := SetStatus(c, k, AwaitingValidation);
    assert SameMark(c, awaiting, j);
    assert SameMark(awaiting, ArmTimer(awaiting, k), j);
  }

  lemma ReplySameMark(c: Controller, k: nat, outcome: SendOutcome, now: int, j: nat)
    requires Linked(c) && k < |c.calls| && c.calls[k].phase.Sending? && k in c.records
    ensures SameMark(c, ReceiveImportReply(c, k, outcome, now), j)
  {
    var call := c.calls[k].(phase := AfterImportReply(c, c.calls[k].id, outcome), outcome := outcome);
    if outcome.Accepted? || outcome.SessionLost? {
      AwaitingSameMark(SetCall(c, k, call), k, now, j);
    }
  }

  predicate SameRecordsAndTimers(c: Controller, r: Controller) {
    r.records == c.records && r.timers == c.timers && r.nextTimer == c.nextTimer
  }

  lemma OtherCallsSameRecords(w: World, e: CallEvent)
    requires CallEnabled(w, e) && !e.Archived? && !e.ImportReplies?
    ensures SameRecordsAndTimers(w.controller, ApplyCall(w.controller, w.env.now, e))
  {
    match e
    case CallTransfer(exportId, online, entry, startedAt) =>
      BeginEffect(w.controller, exportId, online, entry, startedAt);
    case FailBeforeTransfer(exportId, entry, startedAt) =>
    case Recorded(k) => assert SameRecordsAndTimers(w.controller, SendImport(w.controller, k));
    case CallUnlockReplies(k) =>
    case InstanceUnlocks(k) =>
  }

  lemma CallMarks(w: World, e: CallEvent, k: nat)
    requires WorldTold(w) && CallEnabled(w, e) && k in ApplyCall(w.controller, w.env.now, e).records
    ensures MarkedBy(w.controller, ApplyCall(w.controller, w.env.now, e), k, [])
  {
    match e
    case Archived(n) =>
      assert CallPrepared(w.controller.calls[n], n, w.controller.records.Keys, w.env.requested, w.env.fates);
    case ImportReplies(n, outcome) => ReplySameMark(w.controller, n, outcome, w.env.now, k);
    case _ => OtherCallsSameRecords(w, e);
  }

  lemma TakingMarks(c: Controller, id: Id, verdict: Verdict, k: nat, found: Option<Status>)
    requires WellFormed(c) && k in TakeVerdict(c, id, verdict).records
    ensures MarkedBy(c, TakeVerdict(c, id, verdict), k, [Taken(id, found, verdict)])
  {
  }

  lemma FiringMarks(c: Controller, t: nat, k: nat)
    requires WellFormed(c) && t in c.timers && k in FireTimer(c, t).records
    ensures MarkedBy(c, FireTimer(c, t), k, [])
  {
  }

  lemma JudgingMarks(w: World, e: HandlerEvent, k: nat)
    requires WellFormed(w.controller) && HandlerEnabled(w, e) && (e.VerdictArrives? || e.TimerFires?)
    requires k in ApplyHandler(w, e).records
    ensures MarkedBy(w.controller, ApplyHandler(w, e), k, TakenBy(w, e))
  {
    match e
    case VerdictArrives(message) =>
      TakingMarks(w.controller, message.id, message.verdict, k, StatusOf(w.controller, message.id));
    case TimerFires(t) => FiringMarks(w.controller, t, k);
  }

  lemma AnsweringMarks(w: World, e: HandlerEvent, k: nat)
    requires HandlerEnabled(w, e) && (e.DeleteReplies? || e.Reported?) && k in ApplyHandler(w, e).records
    ensures MarkedBy(w.controller, ApplyHandler(w, e), k, [])
  {
  }

  lemma HandlerMarks(w: World, e: HandlerEvent, k: nat)
    requires WellFormed(w.controller) && HandlerEnabled(w, e) && k in ApplyHandler(w, e).records
    ensures MarkedBy(w.controller, ApplyHandler(w, e), k, TakenBy(w, e))
  {
    if e.VerdictArrives? || e.TimerFires? {
      JudgingMarks(w, e, k);
    } else if e.DeleteReplies? || e.Reported? {
      AnsweringMarks(w, e, k);
    } else if e.Settles? {
      EndedKeepsRecords(w.controller, e.h, e.evicted);
    } else {
      ResumedKeepsRecords(w, e);
    }
  }

  lemma MarkedIsTold(w: World, w': World, k: nat, taken: seq<Taken>)
    requires PreservationsTold(w) && k in w'.controller.records && MarkedBy(w.controller, w'.controller, k, taken)
    requires w'.env.taken == w.env.taken + taken
    ensures PreservationTold(w'.controller.records[k], w'.env.taken)
  {
    if k in w.controller.records && w.controller.records[k].preserved {
      PreservationStaysTold(w.controller.records[k], w.env.taken, w'.env.taken);
    }
    assert taken != [] ==> w'.env.taken[|w.env.taken|] == taken[0];
  }

  lemma StepKeepsPreservationsTold(w: World, e: Event)
    requires WorldTold(w) && PreservationsTold(w) && Enabled(w, e)
    ensures PreservationsTold(Step(w, e))
  {
    var w' := Step(w, e);
    forall k | k in w'.controller.records ensures PreservationTold(w'.controller.records[k], w'.env.taken) {
      match e
      case Outside(move) => assert PreservationTold(w.controller.records[k], w.env.taken);
      case InCall(call) =>
        CallMarks(w, call, k);
        assert w.env.taken + [] == w.env.taken;
        MarkedIsTold(w, w', k, []);
      case InHandler(handler) =>
        HandlerMarks(w, handler, k);
        MarkedIsTold(w, w', k, TakenBy(w, handler));
    }
  }

  lemma {:induction false} RunKeepsPreservationsTold(w: World, events: seq<Event>)
    requires WorldTold(w) && PreservationsTold(w) && Valid(w, events)
    ensures PreservationsTold(Run(w, events))
    decreases |events|
  {
    if events != [] {
      StepKeepsTold(w, events[0]);
      StepKeepsPreservationsTold(w, events[0]);
      RunKeepsPreservationsTold(Step(w, events[0]), events[1..]);
    }
  }

  /** A record says that a copy was preserved only if a verdict for its id has said so. */
  lemma PreservedWasSaid(events: seq<Event>, k: nat)
    requires Valid(INIT, events) && k in Run(INIT, events).controller.records
    requires Run(INIT, events).controller.records[k].preserved
    ensures var w := Run(INIT, events);
            exists i :: 0 <= i < |w.env.taken| && SaysPreserved(w.env.taken[i], w.controller.records[k].id)
  {
    RunKeepsPreservationsTold(INIT, events);
    assert PreservationTold(Run(INIT, events).controller.records[k], Run(INIT, events).env.taken);
  }
}
