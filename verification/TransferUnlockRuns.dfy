/**
 A run in which the source of a landed import is unlocked while its record still awaits the verdict: a second
 request for the same export finds the destination offline and is refused, and its instance unlocks.
 */
module TransferUnlockRuns {
  import opened Wrappers
  import opened TransferModel
  import opened TransferWorld
  import opened TransferUnlock
  import opened TransferUnlockGuards
  import opened TransferIntentRuns

  const TURNED_AWAY := Attempt(Returned(Reply(false, true)), NotSent)

  /** The first import was accepted and awaits its verdict; what follows concerns the second request. */
  function Refused(unlocks: seq<Unlock>, unlocked: set<Id>): (w: World) {
    World(W5.controller.(calls := [LANDED, TURNED_AWAY], unlocks := unlocks),
          W5.env.(unlocked := unlocked, requested := [A, A]))
  }

  const R1 := Refused([], {})
  const R2 := Refused([Unlock(A, ByCall(1))], {})
  const R3 := Refused([Unlock(A, ByCall(1))], {A})

  const SECOND_REQUEST: seq<Event> := [
    InCall(CallTransfer(A, false, TransferRequest, 0)),
    InCall(InstanceUnlocks(1)),
    Outside(SourceUnlocks(0))]

  lemma RefusalStep()
    ensures Enabled(W5, InCall(CallTransfer(A, false, TransferRequest, 0)))
    ensures Step(W5, InCall(CallTransfer(A, false, TransferRequest, 0))) == R1
  {
  }

  lemma InstanceStep()
    ensures Enabled(R1, InCall(InstanceUnlocks(1))) && Step(R1, InCall(InstanceUnlocks(1))) == R2
  {
  }

  lemma SourceStep()
    ensures Enabled(R2, Outside(SourceUnlocks(0))) && Step(R2, Outside(SourceUnlocks(0))) == R3
  {
  }

  lemma ThreeSteps(w: World, e: Event, w1: World, f: Event, w2: World, g: Event, w3: World)
    requires Enabled(w, e) && Step(w, e) == w1 && Enabled(w1, f) && Step(w1, f) == w2
    requires Enabled(w2, g) && Step(w2, g) == w3
    ensures Valid(w, [e, f, g]) && Run(w, [e, f, g]) == w3
  {
    RunCons(w2, g, []);
    TwoSteps(w, e, w1, f, w2, [g] + []);
    assert [e, f, g] == [e, f] + ([g] + []);
  }

  lemma SecondRequest()
    ensures Valid(W5, SECOND_REQUEST) && Run(W5, SECOND_REQUEST) == R3
  {
    RefusalStep();
    InstanceStep();
    SourceStep();
    ThreeSteps(W5, InCall(CallTransfer(A, false, TransferRequest, 0)), R1, InCall(InstanceUnlocks(1)), R2,
               Outside(SourceUnlocks(0)), R3);
  }

  /** The import of attempt 0 may have landed and awaits its verdict; no handler has judged it; the source is free. */
  ghost predicate FreedInUse(w: World) {
    && Linked(w.controller) && HasLiveRecord(w.controller, A) && w.controller.activeTransfers[A] == 0
    && w.controller.records[0].status == AwaitingValidation
    && w.controller.calls != [] && MayHaveLanded(w.controller.calls[0])
    && w.controller.handlers == [] && A in w.env.unlocked
    && w.controller.unlocks == [Unlock(A, ByCall(1))]
  }

  lemma RefusalFreesSource()
    ensures Valid(INIT, FIRST_ATTEMPT + SECOND_REQUEST)
    ensures FreedInUse(Run(INIT, FIRST_ATTEMPT + SECOND_REQUEST))
  {
    SecondRequest();
    FirstAttempt(SECOND_REQUEST);
  }
}
