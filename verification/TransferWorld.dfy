/**
 The whole system as a state machine: the controller, the source and destination instances as far as
 the controller can see them, and the disk that pending intents are written to. An event is one
 stretch of controller code or one move of the environment; a run is a sequence of enabled events.
 */
module TransferWorld {
  import opened Wrappers
  import opened TransferModel

  datatype Message = Message(id: Id, verdict: Verdict)

  /** One call of `handleTransferValidation`: what it was given and the status it found. */
  datatype Taken = Taken(id: Id, found: Option<Status>, verdict: Verdict)

  /** What last became of an attempt: of its import, of its verdict, or of its record after it had failed. */
  datatype Fate =
    | Landed                               // its import was accepted, or lost with its session
    | ImportRefused                        // the destination refused an import for its id
    | SourceAnswered(reply: DeleteReply)   // its handler was answered about the delete
    | FailureReported(cleanupFailed: bool) // its handler reported a failure verdict
    | CopyReportedLate                     // it had failed when a verdict reported a copy all the same

  /** Everything that is not controller memory. */
  datatype Environment = Environment(
    now: int,
    messages: set<Message>,        // verdicts sent; delivery does not consume them
    copies: set<Id>,               // validated destination copies, by transfer id
    deleted: set<Id>,              // sources deleted
    unlocked: set<Id>,             // sources whose lock was released
    disk: map<Id, Intent>,         // the pending-transfers file
    latest: map<Id, nat>,          // the call whose import for the id was the last to be accepted or lost
    resolved: set<nat>,            // attempts whose handler was told that the source is deleted or not locked
    taken: seq<Taken>,
    requested: seq<Id>,            // the exports that calls were made for
    fates: map<nat, Fate>)         // by attempt

  datatype World = World(controller: Controller, env: Environment)

  const INIT := World(Controller(map[], map[], map[], [], [], map[], 0, map[], [], []),
                      Environment(0, {}, {}, {}, {}, map[], map[], {}, [], [], map[]))

  datatype Event = Outside(move: Move) | InCall(call: CallEvent) | InHandler(handler: HandlerEvent)

  datatype Move =
    | Tick(now: int)
    | StoreExport(key: Id, item: StoredExport)
    | DropExport(key: Id)
    | DestinationReports(id: Id, report: ImportReport, holdsCopy: bool)
    | SourceDeletes(h: nat)
    | SourceUnlocks(u: nat)
    | WriteIntents(ok: bool)
    | RestartController(stored: map<Id, StoredExport>)
    | OtherOperationPrunes(evicted: set<Id>, others: nat, othersKept: nat)

  datatype CallEvent =
    | CallTransfer(exportId: Id, online: bool, entry: Entry, startedAt: int)
    | FailBeforeTransfer(exportId: Id, entry: Entry, startedAt: int)
    | Archived(k: nat)
    | Recorded(k: nat)
    | ImportReplies(k: nat, outcome: SendOutcome)
    | CallUnlockReplies(k: nat)
    | InstanceUnlocks(k: nat)

  datatype HandlerEvent =
    | VerdictArrives(message: Message)
    | TimerFires(t: nat)
    | Announced(h: nat)
    | DeleteReplies(h: nat, reply: DeleteReply)
    | CompletionRecorded(h: nat)
    | UnlockReplies(h: nat, failed: bool)
    | Reported(h: nat)
    | Settles(h: nat, evicted: set<Id>, others: nat, othersKept: nat)

  // ---------------------------------------------------------------- when an event can happen

  ghost predicate MoveEnabled(w: World, move: Move) {
    var c := w.controller;
    match move
    case Tick(now) => w.env.now <= now
    case StoreExport(_, _) => true
    case DropExport(_) => true
    case DestinationReports(_, report, holdsCopy) => FormVerdict(report).success ==> holdsCopy
    case SourceDeletes(h) => h < |c.handlers| && c.handlers[h].deleteSent
    case SourceUnlocks(u) => u < |c.unlocks| && c.unlocks[u].id !in w.env.deleted
    case WriteIntents(_) => c.writes != []
    case RestartController(_) => true
    case OtherOperationPrunes(evicted, others, othersKept) => Linked(c) && MayEvict(c, others, othersKept, evicted)
  }

  ghost predicate CallEnabled(w: World, e: CallEvent) {
    var c := w.controller;
    && Linked(c)
    && match e
       case CallTransfer(_, _, _, startedAt) => startedAt <= w.env.now
       case FailBeforeTransfer(_, _, startedAt) => startedAt <= w.env.now
       case Archived(k) => k < |c.calls| && c.calls[k].phase.Archiving?
       case Recorded(k) => k < |c.calls| && c.calls[k].phase.Recording?
       case ImportReplies(k, outcome) =>
         k < |c.calls| && c.calls[k].phase.Sending? && k in c.records && !outcome.NotSent? && !outcome.InFlight?
       case CallUnlockReplies(k) =>
         k < |c.calls| && (c.calls[k].phase.RollingBack? || c.calls[k].phase.UnlockingRefused?)
       case InstanceUnlocks(k) =>
         k < |c.calls| && c.calls[k].entry.TransferRequest? && c.calls[k].phase == Returned(Reply(false, true))
  }

  ghost predicate Suspended(c: Controller, h: nat) {
    h < |c.handlers| && c.handlers[h].attempt in c.records
  }

  /** Replies that report a deletion or an unlock presuppose that it took place. */
  ghost predicate HandlerEnabled(w: World, e: HandlerEvent) {
    var c := w.controller;
    && Linked(c)
    && match e
       case VerdictArrives(message) => message in w.env.messages
       case TimerFires(t) => t in c.timers
       case Announced(h) => Suspended(c, h) && c.handlers[h].phase.Announcing?
       case DeleteReplies(h, reply) =>
         && Suspended(c, h) && c.handlers[h].phase.Deleting?
         && (reply.Deleted? ==> c.handlers[h].id in w.env.deleted)
       case CompletionRecorded(h) => Suspended(c, h) && c.handlers[h].phase.Completing?
       case UnlockReplies(h, failed) =>
         && Suspended(c, h) && c.handlers[h].phase.Unlocking?
         && (!failed ==> c.handlers[h].id in w.env.unlocked || c.handlers[h].id in w.env.deleted)
       case Reported(h) => Suspended(c, h) && c.handlers[h].phase.Reporting?
       case Settles(h, evicted, others, othersKept) =>
         && Suspended(c, h) && MayEvict(c, others, othersKept, evicted)
         && (c.handlers[h].phase.Storing? || c.handlers[h].phase.Refusing? || c.handlers[h].phase.Persisting?)
  }

  ghost predicate Enabled(w: World, e: Event) {
    match e
    case Outside(move) => MoveEnabled(w, move)
    case InCall(call) => CallEnabled(w, call)
    case InHandler(handler) => HandlerEnabled(w, handler)
  }

  // ---------------------------------------------------------------- what it does

  ghost function ApplyMove(w: World, move: Move): World
    requires MoveEnabled(w, move)
  {
    var World(c, env) := w;
    match move
    case Tick(now) => World(c, env.(now := now))
    case StoreExport(key, item) => World(c.(platformStorage := c.platformStorage[key := item]), env)
    case DropExport(key) => World(c.(platformStorage := c.platformStorage - {key}), env)
    case DestinationReports(id, report, holdsCopy) =>
      World(c, env.(messages := env.messages + {Message(id, FormVerdict(report))},
                    copies := if holdsCopy then env.copies + {id} else env.copies))
    case SourceDeletes(h) => World(c, env.(deleted := env.deleted + {c.handlers[h].id}))
    case SourceUnlocks(u) => World(c, env.(unlocked := env.unlocked + {c.unlocks[u].id}))
    case WriteIntents(ok) =>
      World(c.(writes := c.writes[1..]), env.(disk := if ok then c.writes[0] else env.disk))
    case RestartController(stored) =>
      World(Restart(c, stored, env.disk, env.now), env)
    case OtherOperationPrunes(evicted, _, _) => World(Evict(c, evicted), env)
  }

  ghost function ApplyCall(c: Controller, now: int, e: CallEvent): Controller
    requires CallEnabled(World(c, INIT.env.(now := now)), e)
  {
    match e
    case CallTransfer(exportId, online, entry, startedAt) => BeginCall(c, exportId, online, entry, startedAt)
    case FailBeforeTransfer(exportId, entry, startedAt) => RefuseCall(c, exportId, entry, startedAt)
    case Archived(k) => InstallRecord(c, k)
    case Recorded(k) => SendImport(c, k)
    case ImportReplies(k, outcome) => ReceiveImportReply(c, k, outcome, now)
    case CallUnlockReplies(k) => ReceiveCallUnlockReply(c, k)
    case InstanceUnlocks(k) => SendUnlock(c, c.calls[k].id, ByCall(k))
  }

  ghost function ApplyHandler(w: World, e: HandlerEvent): Controller
    requires HandlerEnabled(w, e)
  {
    var c := w.controller;
    match e
    case VerdictArrives(message) => TakeVerdict(c, message.id, message.verdict)
    case TimerFires(t) => FireTimer(c, t)
    case Announced(h) => FinishAnnouncing(c, h)
    case DeleteReplies(h, reply) => ReceiveDeleteReply(c, h, reply)
    case CompletionRecorded(h) => FinishCompleting(c, h)
    case UnlockReplies(h, failed) => ReceiveUnlockReply(c, h, failed)
    case Reported(h) => FinishReporting(c, h)
    case Settles(h, evicted, _, _) => Settle(c, h, evicted)
  }

  function StatusOf(c: Controller, id: Id): Option<Status>
    requires Linked(c)
  {
    if id in c.activeTransfers then Some(c.records[c.activeTransfers[id]].status) else None
  }

  /** The calls of `handleTransferValidation` that an event makes. */
  ghost function TakenBy(w: World, e: HandlerEvent): seq<Taken>
    requires HandlerEnabled(w, e)
  {
    var c := w.controller;
    match e
    case VerdictArrives(message) => [Taken(message.id, StatusOf(c, message.id), message.verdict)]
    case TimerFires(t) =>
      if StatusOf(c, c.timers[t].id) == Some(AwaitingValidation)
      then [Taken(c.timers[t].id, Some(AwaitingValidation), TIMEOUT_VERDICT)] else []
    case _ => []
  }

  /** The import of call k is now the last one for its id that may have landed. */
  predicate Lands(e: CallEvent) {
    e.ImportReplies? && (e.outcome.Accepted? || e.outcome.SessionLost?)
  }

  ghost function LatestAfter(w: World, e: CallEvent): map<Id, nat>
    requires CallEnabled(w, e)
  {
    if Lands(e) then w.env.latest[w.controller.calls[e.k].id := e.k] else w.env.latest
  }

  /** The reply tells the handler that its source is resolved. */
  predicate Resolves(e: HandlerEvent) {
    (e.DeleteReplies? && e.reply.Deleted?) || (e.UnlockReplies? && !e.failed)
  }

  ghost function ResolvedBy(w: World, e: HandlerEvent): set<nat>
    requires HandlerEnabled(w, e)
  {
    if Resolves(e) then {w.controller.handlers[e.h].attempt} else {}
  }

  function RequestedBy(e: CallEvent): seq<Id> {
    match e
    case CallTransfer(exportId, _, _, _) => [exportId]
    case FailBeforeTransfer(exportId, _, _) => [exportId]
    case _ => []
  }

  ghost function FatesAfterCall(w: World, e: CallEvent): map<nat, Fate>
    requires CallEnabled(w, e)
  {
    var c := w.controller;
    if Lands(e) then w.env.fates[e.k := Landed]
    else if e.ImportReplies? && e.outcome.Rejected? && c.calls[e.k].id in c.activeTransfers
    then w.env.fates[c.activeTransfers[c.calls[e.k].id] := ImportRefused]
    else w.env.fates
  }

  ghost function FatesAfterHandler(w: World, e: HandlerEvent): map<nat, Fate>
    requires HandlerEnabled(w, e)
  {
    var c := w.controller;
    match e
    case VerdictArrives(message) =>
      if StatusOf(c, message.id) == Some(Failed) && (message.verdict.success || message.verdict.cleanupFailed)
      then w.env.fates[c.activeTransfers[message.id] := CopyReportedLate] else w.env.fates
    case DeleteReplies(h, reply) => w.env.fates[c.handlers[h].attempt := SourceAnswered(reply)]
    case Reported(h) =>
      w.env.fates[c.handlers[h].attempt := FailureReported(c.handlers[h].verdict.cleanupFailed)]
    case _ => w.env.fates
  }

  ghost function Step(w: World, e: Event): World
    requires Enabled(w, e)
  {
    match e
    case Outside(move) => ApplyMove(w, move)
    case InCall(call) =>
      World(ApplyCall(w.controller, w.env.now, call), w.env.(latest := LatestAfter(w, call),
                                                             requested := w.env.requested + RequestedBy(call),
                                                             fates := FatesAfterCall(w, call)))
    case InHandler(handler) =>
      World(ApplyHandler(w, handler), w.env.(taken := w.env.taken + TakenBy(w, handler),
                                             resolved := w.env.resolved + ResolvedBy(w, handler),
                                             fates := FatesAfterHandler(w, handler)))
  }

  // ---------------------------------------------------------------- runs

  /** Every event of the sequence is enabled where it occurs. */
  ghost predicate Valid(w: World, events: seq<Event>)
    decreases |events|
  {
    events == [] || (Enabled(w, events[0]) && Valid(Step(w, events[0]), events[1..]))
  }

  ghost function Run(w: World, events: seq<Event>): World
    requires Valid(w, events)
    decreases |events|
  {
    if events == [] then w else Run(Step(w, events[0]), events[1..])
  }

  lemma RunCons(w: World, e: Event, rest: seq<Event>)
    requires Enabled(w, e) && Valid(Step(w, e), rest)
    ensures Valid(w, [e] + rest) && Run(w, [e] + rest) == Run(Step(w, e), rest)
  {
    assert ([e] + rest)[0] == e && ([e] + rest)[1..] == rest;
  }

  lemma FirstStaysFirst(events: seq<Event>, e: Event)
    requires events != []
    ensures [events[0]] + (events[1..] + [e]) == events + [e]
  {
  }

  /** A run goes on with one more event. */
  lemma {:induction false} RunSnoc(w: World, events: seq<Event>, e: Event)
    requires Valid(w, events) && Enabled(Run(w, events), e)
    ensures Valid(w, events + [e]) && Run(w, events + [e]) == Step(Run(w, events), e)
    decreases |events|
  {
    if events == [] {
      RunCons(w, e, []);
      assert events + [e] == [e] + [];
    } else {
      RunSnoc(Step(w, events[0]), events[1..], e);
      RunCons(w, events[0], events[1..] + [e]);
      FirstStaysFirst(events, e);
    }
  }
}
