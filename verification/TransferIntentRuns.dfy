/**
 Two runs in which a pending intent is lost: a restart that comes before the file is written, and a handler
 that ends after a retry has been accepted and removes the retry's intent. Each breaks one of the guards.
 */
module TransferIntentRuns {
  import opened Wrappers
  import opened TransferModel
  import opened TransferWorld
  import opened TransferUnlock
  import opened TransferIntents

  const A := Id("1:a")

  const STORED: map<Id, StoredExport> := map[A := StoredExport(A, Some(1))]

  function Rec(status: Status, timer: Option<nat>): (record: Record) {
    Record(A, A, status, 0, timer, false)
  }

  function Attempt(phase: CallPhase, outcome: SendOutcome): (call: Call) {
    Call(A, TransferRequest, 0, phase, outcome)
  }

  const LANDED := Attempt(Returned(Reply(true, false)), Accepted)

  function Judge(phase: HandlerPhase): (handler: Handler) {
    Handler(A, 0, TIMEOUT_VERDICT, phase, false)
  }

  const FIRST_INTENT: map<Id, Intent> := map[A := Intent(0, 0)]
  const SECOND_INTENT: map<Id, Intent> := map[A := Intent(1, 0)]
  const TIMED_OUT := Taken(A, Some(AwaitingValidation), TIMEOUT_VERDICT)

  // ---------------------------------------------------------------- the first attempt

  /** An export is stored, a transfer of it is requested, and its import is accepted. */
  const FIRST_ATTEMPT: seq<Event> := [
    Outside(StoreExport(A, StoredExport(A, Some(1)))),
    InCall(CallTransfer(A, true, TransferRequest, 0)),
    InCall(Archived(0)),
    InCall(Recorded(0)),
    InCall(ImportReplies(0, Accepted))]

  const ONCE := INIT.env.(requested := [A])

  function Starting(active: map<Id, nat>, records: map<nat, Record>, calls: seq<Call>, env: Environment): (w: World) {
    World(Controller(STORED, active, records, calls, [], map[], 0, map[], [], []), env)
  }

  const W1 := Starting(map[], map[], [], INIT.env)
  const W2 := Starting(map[], map[], [Attempt(Archiving(Rec(Transporting, None)), NotSent)], ONCE)
  const W3 := Starting(map[A := 0], map[0 := Rec(Transporting, None)], [Attempt(Recording, NotSent)], ONCE)
  const W4 := Starting(map[A := 0], map[0 := Rec(Transporting, None)], [Attempt(Sending, InFlight)], ONCE)

  const AWAITED := ONCE.(fates := map[0 := Landed])

  /** The first import was accepted; what follows concerns its record, its timer, its handler and the unlock. */
  function Judging(record: Record, handlers: seq<Handler>, timers: map<nat, Timer>, unlocks: seq<Unlock>,
                   env: Environment): (w: World)
  {
    World(Controller(STORED, map[A := 0], map[0 := record], [LANDED], handlers, timers, 1,
                     FIRST_INTENT, [FIRST_INTENT], unlocks),
          env.(latest := map[A := 0]))
  }

  const W5 := Judging(Rec(AwaitingValidation, Some(0)), [], map[0 := Timer(A, 0)], [], AWAITED)

  lemma FirstStep()
    ensures Enabled(INIT, Outside(StoreExport(A, StoredExport(A, Some(1)))))
    ensures Step(INIT, Outside(StoreExport(A, StoredExport(A, Some(1))))) == W1
  {
    assert INIT.controller.platformStorage[A := StoredExport(A, Some(1))] == STORED;
  }

  lemma SecondStep()
    ensures Enabled(W1, InCall(CallTransfer(A, true, TransferRequest, 0)))
    ensures Step(W1, InCall(CallTransfer(A, true, TransferRequest, 0))) == W2
  {
  }

  lemma ThirdStep()
    ensures Enabled(W2, InCall(Archived(0))) && Step(W2, InCall(Archived(0))) == W3
  {
  }

  lemma FourthStep()
    ensures Enabled(W3, InCall(Recorded(0))) && Step(W3, InCall(Recorded(0))) == W4
  {
  }

  // ---------------------------------------------------------------- an import is accepted

  lemma StatusOnAcceptance(c: Controller, k: nat, records: map<nat, Record>)
    requires Linked(c) && k < |c.calls| && k in c.records && c.records[k] == Rec(Transporting, None)
    requires c.records[k := Rec(AwaitingValidation, None)] == records
    ensures SetStatus(c, k, AwaitingValidation) == c.(records := records)
  {
  }

  lemma TimerOnAcceptance(c: Controller, k: nat, records: map<nat, Record>, timers: map<nat, Timer>)
    requires Linked(c) && k < |c.calls| && c.calls[k] == LANDED && A in c.activeTransfers && c.activeTransfers[A] == k
    requires c.records[k] == Rec(AwaitingValidation, None)
    requires c.records[k := Rec(AwaitingValidation, Some(c.nextTimer))] == records
    requires c.timers[c.nextTimer := Timer(A, k)] == timers
    ensures ArmTimer(c, k) == c.(records := records, timers := timers, nextTimer := c.nextTimer + 1)
  {
  }

  lemma IntentOnAcceptance(c: Controller, k: nat, now: int, intents: map<Id, Intent>)
    requires k < |c.calls| && c.calls[k] == LANDED
    requires PruneIntents(c.pendingTransfers, now)[A := Intent(k, 0)] == intents
    ensures RecordIntent(c, k, now) == c.(pendingTransfers := intents, writes := c.writes + [intents])
  {
  }

  ghost predicate InTransit(c: Controller, k: nat) {
    && Linked(c) && k < |c.calls| && c.calls[k] == Attempt(Sending, InFlight)
    && A in c.activeTransfers && c.activeTransfers[A] == k
    && c.records[k] == Rec(Transporting, None)
  }

  /** What the acceptance of the import of call k, which is in transit, does to the controller. */
  lemma Acceptance(c: Controller, k: nat, records: map<nat, Record>, timers: map<nat, Timer>, intents: map<Id, Intent>)
    requires InTransit(c, k)
    requires c.records[k := Rec(AwaitingValidation, Some(c.nextTimer))] == records
    requires c.timers[c.nextTimer := Timer(A, k)] == timers
    requires PruneIntents(c.pendingTransfers, 0)[A := Intent(k, 0)] == intents
    ensures ReceiveImportReply(c, k, Accepted, 0) ==
            c.(calls := c.calls[k := LANDED], records := records, timers := timers, nextTimer := c.nextTimer + 1,
               pendingTransfers := intents, writes := c.writes + [intents])
  {
    var replied := c.(calls := c.calls[k := LANDED]);
    var awaiting := c.records[k := Rec(AwaitingValidation, None)];
    StatusOnAcceptance(replied, k, awaiting);
    assert awaiting[k := Rec(AwaitingValidation, Some(c.nextTimer))] == records;
    TimerOnAcceptance(replied.(records := awaiting), k, records, timers);
    IntentOnAcceptance(replied.(records := records, timers := timers, nextTimer := c.nextTimer + 1), k, 0, intents);
  }

  lemma FifthStep()
    ensures Enabled(W4, InCall(ImportReplies(0, Accepted))) && Step(W4, InCall(ImportReplies(0, Accepted))) == W5
  {
    var none: map<Id, Intent> := map[];
    var noTimers: map<nat, Timer> := map[];
    assert PruneIntents(none, 0) == none;
    assert noTimers[0 := Timer(A, 0)] == map[0 := Timer(A, 0)];
    Acceptance(W4.controller, 0, map[0 := Rec(AwaitingValidation, Some(0))], map[0 := Timer(A, 0)], FIRST_INTENT);
  }

  // ---------------------------------------------------------------- going through a run

  lemma TwoSteps(w: World, e: Event, w1: World, f: Event, w2: World, rest: seq<Event>)
    requires Enabled(w, e) && Step(w, e) == w1 && Enabled(w1, f) && Step(w1, f) == w2 && Valid(w2, rest)
    ensures Valid(w, [e, f] + rest) && Run(w, [e, f] + rest) == Run(w2, rest)
  {
    RunCons(w1, f, rest);
    RunCons(w, e, [f] + rest);
    assert [e] + ([f] + rest) == [e, f] + rest;
  }

  lemma InOneSequence(e: Event, e1: Event, e2: Event, e3: Event, e4: Event, rest: seq<Event>)
    ensures [e, e1] + ([e2, e3] + ([e4] + rest)) == [e, e1, e2, e3, e4] + rest
  {
  }

  lemma FiveSteps(w: World, e: Event, w1: World, e1: Event, w2: World, e2: Event, w3: World, e3: Event, w4: World,
                  e4: Event, w5: World, rest: seq<Event>)
    requires Enabled(w, e) && Step(w, e) == w1
    requires Enabled(w1, e1) && Step(w1, e1) == w2
    requires Enabled(w2, e2) && Step(w2, e2) == w3
    requires Enabled(w3, e3) && Step(w3, e3) == w4
    requires Enabled(w4, e4) && Step(w4, e4) == w5 && Valid(w5, rest)
    ensures Valid(w, [e, e1, e2, e3, e4] + rest) && Run(w, [e, e1, e2, e3, e4] + rest) == Run(w5, rest)
  {
    RunCons(w4, e4, rest);
    TwoSteps(w2, e2, w3, e3, w4, [e4] + rest);
    TwoSteps(w, e, w1, e1, w2, [e2, e3] + ([e4] + rest));
    InOneSequence(e, e1, e2, e3, e4, rest);
  }

  lemma FirstAttempt(rest: seq<Event>)
    requires Valid(W5, rest)
    ensures Valid(INIT, FIRST_ATTEMPT + rest) && Run(INIT, FIRST_ATTEMPT + rest) == Run(W5, rest)
  {
    FirstStep(); SecondStep(); ThirdStep(); FourthStep(); FifthStep();
    FiveSteps(INIT, Outside(StoreExport(A, StoredExport(A, Some(1)))), W1,
              InCall(CallTransfer(A, true, TransferRequest, 0)), W2,
              InCall(Archived(0)), W3,
              InCall(Recorded(0)), W4,
              InCall(ImportReplies(0, Accepted)), W5, rest);
  }

  // ---------------------------------------------------------------- a restart before the file is written

  const FORGETFUL_RESTART := Outside(RestartController(map[]))

  lemma NothingOnDisk()
    ensures Enabled(W5, FORGETFUL_RESTART) && !AllAccounted(Step(W5, FORGETFUL_RESTART))
  {
    var w := Step(W5, FORGETFUL_RESTART);
    assert A in w.env.latest && A !in w.controller.pendingTransfers;
    assert !Accounted(w, A);
  }

  /** The import has been accepted, its intent is not in the file yet, and the controller restarts. */
  lemma RestartLosesIntent()
    ensures Valid(INIT, FIRST_ATTEMPT + [FORGETFUL_RESTART])
    ensures !AllAccounted(Run(INIT, FIRST_ATTEMPT + [FORGETFUL_RESTART]))
  {
    NothingOnDisk();
    RunCons(W5, FORGETFUL_RESTART, []);
    assert [FORGETFUL_RESTART] + [] == [FORGETFUL_RESTART];
    FirstAttempt([FORGETFUL_RESTART]);
  }

  // ---------------------------------------------------------------- a handler that ends after a retry landed

  /** The first attempt times out, its source is unlocked, and its handler waits for the log write. */
  const FIRST_FAILURE: seq<Event> := [
    InHandler(TimerFires(0)),
    InHandler(Announced(0)),
    Outside(SourceUnlocks(0)),
    InHandler(UnlockReplies(0, false)),
    InHandler(Reported(0))]

  /** The retry is admitted and accepted, and then the old handler goes on. */
  const RETRY: seq<Event> := [
    InCall(CallTransfer(A, true, TransferRequest, 0)),
    InCall(Archived(1)),
    InCall(Recorded(1)),
    InCall(ImportReplies(1, Accepted)),
    InHandler(Settles(0, {}, 0, 0))]

  const TIMED := AWAITED.(taken := [TIMED_OUT])
  const OPENED := TIMED.(unlocked := {A})
  const TOLD := OPENED.(resolved := {0})
  const REPORTED := TOLD.(fates := map[0 := FailureReported(false)])

  const ASKED := [Unlock(A, ByVerdict(0))]
  const NO_TIMERS: map<nat, Timer> := map[]

  const W6 := Judging(Rec(AwaitingValidation, None), [Judge(Announcing)], NO_TIMERS, [], TIMED)
  const W7 := Judging(Rec(AwaitingValidation, None), [Judge(Unlocking)], NO_TIMERS, ASKED, TIMED)
  const W8 := Judging(Rec(AwaitingValidation, None), [Judge(Unlocking)], NO_TIMERS, ASKED, OPENED)
  const W9 := Judging(Rec(AwaitingValidation, None), [Judge(Reporting(false))], NO_TIMERS, ASKED, TOLD)
  const W10 := Judging(Rec(Failed, None), [Judge(Persisting(false))], NO_TIMERS, ASKED, REPORTED)

  lemma TimerStep()
    ensures Enabled(W5, InHandler(TimerFires(0))) && Step(W5, InHandler(TimerFires(0))) == W6
  {
    var t: map<nat, Timer> := map[0 := Timer(A, 0)];
    assert t - {0} == NO_TIMERS && NO_TIMERS - {0} == NO_TIMERS;
    var c := W5.controller;
    var awaiting: map<nat, Record> := map[0 := Rec(AwaitingValidation, Some(0))];
    assert awaiting[0 := Rec(AwaitingValidation, Some(0))] == awaiting;
    assert awaiting[0 := Rec(AwaitingValidation, None)] == map[0 := Rec(AwaitingValidation, None)];
  }

  lemma AnnounceStep()
    ensures Enabled(W6, InHandler(Announced(0))) && Step(W6, InHandler(Announced(0))) == W7
  {
  }

  lemma UnlockStep()
    ensures Enabled(W7, Outside(SourceUnlocks(0))) && Step(W7, Outside(SourceUnlocks(0))) == W8
  {
  }

  lemma ReplyStep()
    ensures Enabled(W8, InHandler(UnlockReplies(0, false))) && Step(W8, InHandler(UnlockReplies(0, false))) == W9
  {
  }

  lemma ReportStep()
    ensures Enabled(W9, InHandler(Reported(0))) && Step(W9, InHandler(Reported(0))) == W10
  {
    var awaiting: map<nat, Record> := map[0 := Rec(AwaitingValidation, None)];
    assert awaiting[0 := Rec(Failed, None)] == map[0 := Rec(Failed, None)];
  }

  lemma FirstFailure(rest: seq<Event>)
    requires Valid(W10, rest)
    ensures Valid(W5, FIRST_FAILURE + rest) && Run(W5, FIRST_FAILURE + rest) == Run(W10, rest)
  {
    TimerStep(); AnnounceStep(); UnlockStep(); ReplyStep(); ReportStep();
    FiveSteps(W5, InHandler(TimerFires(0)), W6,
              InHandler(Announced(0)), W7,
              Outside(SourceUnlocks(0)), W8,
              InHandler(UnlockReplies(0, false)), W9,
              InHandler(Reported(0)), W10, rest);
  }

  function Retrying(active: map<Id, nat>, records: map<nat, Record>, call: Call): (w: World) {
    World(W10.controller.(activeTransfers := active, records := records, calls := [LANDED, call]),
          W10.env.(requested := [A, A]))
  }

  const BOTH: map<nat, Record> := map[0 := Rec(Failed, None), 1 := Rec(Transporting, None)]

  const W11 := Retrying(map[A := 0], map[0 := Rec(Failed, None)], Attempt(Archiving(Rec(Transporting, None)), NotSent))
  const W12 := Retrying(map[A := 1], BOTH, Attempt(Recording, NotSent))
  const W13 := Retrying(map[A := 1], BOTH, Attempt(Sending, InFlight))

  /** The retry's import was accepted; what follows concerns the old handler and the intents. */
  function Overtaken(phase: HandlerPhase, intents: map<Id, Intent>, writes: seq<map<Id, Intent>>): (w: World) {
    World(Controller(STORED, map[A := 1], map[0 := Rec(Failed, None), 1 := Rec(AwaitingValidation, Some(1))],
                     [LANDED, LANDED], [Judge(phase)], map[1 := Timer(A, 1)], 2, intents, writes, ASKED),
          REPORTED.(latest := map[A := 1], requested := [A, A],
                    fates := map[0 := FailureReported(false), 1 := Landed]))
  }

  const NO_INTENTS: map<Id, Intent> := map[]

  const W14 := Overtaken(Persisting(false), SECOND_INTENT, [FIRST_INTENT, SECOND_INTENT])
  const W15 := Overtaken(Finished, NO_INTENTS, [FIRST_INTENT, SECOND_INTENT, NO_INTENTS])

  lemma RetryStep()
    ensures Enabled(W10, InCall(CallTransfer(A, true, TransferRequest, 0)))
    ensures Step(W10, InCall(CallTransfer(A, true, TransferRequest, 0))) == W11
  {
  }

  lemma ArchiveStep()
    ensures Enabled(W11, InCall(Archived(1))) && Step(W11, InCall(Archived(1))) == W12
  {
    var first: map<Id, nat> := map[A := 0];
    var failed: map<nat, Record> := map[0 := Rec(Failed, None)];
    assert first[A := 1] == map[A := 1] && failed[1 := Rec(Transporting, None)] == BOTH;
  }

  lemma RecordStep()
    ensures Enabled(W12, InCall(Recorded(1))) && Step(W12, InCall(Recorded(1))) == W13
  {
  }

  lemma SecondIntent()
    ensures PruneIntents(FIRST_INTENT, 0)[A := Intent(1, 0)] == SECOND_INTENT
  {
  }

  lemma RetryAccepted()
    ensures InTransit(W13.controller, 1)
    ensures ReceiveImportReply(W13.controller, 1, Accepted, 0) == W14.controller
  {
    SecondIntent();
    assert NO_TIMERS[1 := Timer(A, 1)] == map[1 := Timer(A, 1)];
    assert BOTH[1 := Rec(AwaitingValidation, Some(1))] == W14.controller.records;
    Acceptance(W13.controller, 1, W14.controller.records, W14.controller.timers, SECOND_INTENT);
  }

  lemma AcceptStep()
    ensures Enabled(W13, InCall(ImportReplies(1, Accepted))) && Step(W13, InCall(ImportReplies(1, Accepted))) == W14
  {
    var first: map<Id, nat> := map[A := 0];
    assert first[A := 1] == map[A := 1];
    RetryAccepted();
  }

  lemma EndMayEvictNothing()
    ensures HandlerEnabled(W14, Settles(0, {}, 0, 0))
  {
  }

  /** A handler that ends and takes its intent along, with nothing to evict. */
  lemma Ending(c: Controller, handler: Handler, intents: map<Id, Intent>)
    requires c.handlers == [handler] && handler.phase == Persisting(false) && handler.id in c.pendingTransfers
    requires c.pendingTransfers - {handler.id} == intents
    ensures Settle(c, 0, {}) ==
            c.(handlers := [handler.(phase := Finished)], pendingTransfers := intents, writes := c.writes + [intents])
  {
    assert c.activeTransfers - {} == c.activeTransfers;
  }

  lemma HandlerEnds()
    ensures Settle(W14.controller, 0, {}) == W15.controller
  {
    assert SECOND_INTENT - {A} == NO_INTENTS;
    Ending(W14.controller, Judge(Persisting(false)), NO_INTENTS);
  }

  lemma QuietEnding(w: World, e: HandlerEvent)
    requires HandlerEnabled(w, e) && e.Settles?
    ensures TakenBy(w, e) == [] && ResolvedBy(w, e) == {} && FatesAfterHandler(w, e) == w.env.fates
    ensures ApplyHandler(w, e) == Settle(w.controller, e.h, e.evicted)
  {
  }

  lemma QuietStep(w: World, w': World, e: HandlerEvent)
    requires HandlerEnabled(w, e) && TakenBy(w, e) == [] && ResolvedBy(w, e) == {}
    requires FatesAfterHandler(w, e) == w.env.fates
    requires ApplyHandler(w, e) == w'.controller && w'.env == w.env
    ensures Enabled(w, InHandler(e)) && Step(w, InHandler(e)) == w'
  {
    assert w.env.taken + [] == w.env.taken && w.env.resolved + {} == w.env.resolved;
  }

  lemma EndStep()
    ensures Enabled(W14, InHandler(Settles(0, {}, 0, 0))) && Step(W14, InHandler(Settles(0, {}, 0, 0))) == W15
  {
    EndMayEvictNothing();
    HandlerEnds();
    QuietEnding(W14, Settles(0, {}, 0, 0));
    QuietStep(W14, W15, Settles(0, {}, 0, 0));
  }

  lemma Retry()
    ensures Valid(W10, RETRY + []) && Run(W10, RETRY + []) == W15
  {
    RetryStep(); ArchiveStep(); RecordStep(); AcceptStep(); EndStep();
    FiveSteps(W10, InCall(CallTransfer(A, true, TransferRequest, 0)), W11,
              InCall(Archived(1)), W12,
              InCall(Recorded(1)), W13,
              InCall(ImportReplies(1, Accepted)), W14,
              InHandler(Settles(0, {}, 0, 0)), W15, []);
  }

  /** The second import has been accepted and awaits its verdict; nothing resolved it, and it has no intent. */
  ghost predicate RetryForgotten(w: World) {
    && !AllAccounted(w) && A !in w.controller.pendingTransfers && 1 !in w.env.resolved
    && w.controller.activeTransfers == map[A := 1]
    && 1 in w.controller.records && w.controller.records[1].status == AwaitingValidation
  }

  /** A handler that ends late removes a retry's intent. */
  lemma LateEndLosesIntent()
    ensures Valid(INIT, FIRST_ATTEMPT + (FIRST_FAILURE + RETRY))
    ensures RetryForgotten(Run(INIT, FIRST_ATTEMPT + (FIRST_FAILURE + RETRY)))
  {
    Retry();
    assert RETRY + [] == RETRY;
    FirstFailure(RETRY);
    FirstAttempt(FIRST_FAILURE + RETRY);
    assert A in W15.env.latest && !Accounted(W15, A);
  }
}
