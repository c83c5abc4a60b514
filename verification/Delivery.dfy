/**
 The whole delivery protocol as a state machine: the outbox, any number of workers executing claimed
 operations in single steps, the host that enqueues, and a server behind a network that may delay,
 repeat and lose messages. Every interleaving is a list of events.
 */
module Delivery {
  import opened Wrappers
  import opened Ordering
  import opened Requests
  import opened Outbox
  import opened OutboxInvariant
  import opened Sessions
  import opened Capture
  import opened Reconcile
  import opened Executor

  // ---------------------------------------------------------------- the state

  /** A request that was put on the wire for an operation, under an idempotency key. */
  datatype Sending = Sending(id: Id, key: string, out: Outgoing)

  /** What the server did the first time it served a key, and the revision it answered with. */
  datatype Effect = Effect(cause: Sending, revision: nat)

  /** How far a worker is with a claim. */
  datatype Stage =
    | Ready
    | Planned(plan: Plan)
    | Waiting(out: Outgoing)
    | Recording(revision: nat, replayed: bool)
    | Concluded(result: AttemptResult)

  datatype Hand = Hand(op: ClaimedOperation, stage: Stage)

  /** `hands` are the claims workers hold, by token, and `journal` the effects on the server in order. */
  datatype World = World(store: Store, hands: map<nat, Hand>, sends: seq<Sending>, journal: seq<Effect>)

  const START := World(EMPTY, map[], [], [])

  /** What the host's tools enqueue. `revision` is the one the preview of the correction reported. */
  datatype Wish =
    | Remember(id: Id, title: string, content: string, sourceId: string, rest: string)
    | Expose(id: Id, exposedIds: seq<string>, rest: string)
    | Correct(id: Id, sourceId: string, request: CorrectionRequest, revision: nat)

  datatype HostMove =
    | CaptureIt(session: string, parent: string, text: TurnText, turnNumber: Option<int>)
    | EnqueueIt(wish: Wish)
    | RewindIt(record: IndexedTurnRecord)
    | ReserveIt(session: string, parent: string)
    | MarkIt(session: string, parent: string, required: bool)
    | UnblockIt
    | TimePasses(duration: nat)

  datatype WorkerMove =
    | RenewIt(lease: Option<int>)
    | ReleaseIt
    | Crash
    | PlanIt
    | SendIt
    | Reply(response: Response)
    | RecordIt
    | PreviewIt(reply: PreviewReply)
    | ApplyIt

  datatype Event =
    | OfHost(host: HostMove)
    | Claiming(worker: string, pageSize: int, lease: Option<int>, cutoff: Option<nat>)
    | OfWorker(token: nat, move: WorkerMove)
    | Serving(n: nat, revision: nat)

  // ---------------------------------------------------------------- the host

  function RememberOp(id: Id, title: string, content: string, sourceId: string, rest: string): NewOperation {
    NewOperation(id, Mutation(None, "manual_remember", RAW_ENDPOINT, RawMemory(title, content, sourceId, rest),
                              "hermes-remember-" + id, "POST"))
  }

  const EXPOSE_ENDPOINT := "/api/memory/expose"

  function ExposeOp(id: Id, exposedIds: seq<string>, rest: string): NewOperation {
    NewOperation(id, Mutation(None, "context_exposure", EXPOSE_ENDPOINT, Exposure(exposedIds, rest),
                              "hermes-context-" + id, "POST"))
  }

  /** A manual correction is enqueued with the revision its preview reported. */
  function ManualOp(id: Id, sourceId: string, request: CorrectionRequest, revision: nat): NewOperation {
    NewOperation(id, Mutation(None, "manual_correction", CorrectionEndpoint(sourceId),
                              Correction(request.(expectedRevision := Some(revision),
                                                  metadata := map["provider_operation_id" := id])),
                              "hermes-correction-" + id, "POST"))
  }

  function RewindOp(ctx: Context, r: IndexedTurnRecord): NewOperation {
    CorrectionOp(ctx, Intent(IndexedTurn(r.operationId, r.sourceId, r.turnHash, r.sequence, r.revision, r.queued)))
  }

  function OpOf(wish: Wish): NewOperation {
    match wish
    case Remember(id, title, content, sourceId, rest) => RememberOp(id, title, content, sourceId, rest)
    case Expose(id, exposedIds, rest) => ExposeOp(id, exposedIds, rest)
    case Correct(id, sourceId, request, revision) => ManualOp(id, sourceId, request, revision)
  }

  /** The transaction of a move. */
  function CommandOf(ctx: Context, move: HostMove): Command {
    match move
    case CaptureIt(session, parent, text, turnNumber) =>
      DoEnqueueTurn(session, parent, CaptureFactory(ctx, session, parent, text, turnNumber))
    case EnqueueIt(wish) => DoEnqueue(OpOf(wish))
    case RewindIt(record) => DoEnqueue(RewindOp(ctx, record))
    case ReserveIt(session, parent) => DoReserve(session, parent)
    case MarkIt(session, parent, required) => DoMark(session, parent, required)
    case UnblockIt => DoUnblockAuth
    case TimePasses(duration) => DoTick(duration)
  }

  /**
   A record the reconciler may have read from the index, now or at any time before: since then the
   operation may have left the queue, and a turn without a revision may have got one.
   */
  ghost predicate Past(s: Store, r: IndexedTurnRecord) {
    && Slot(r.session, r.sequence) in s.turns
    && var turn := s.turns[Slot(r.session, r.sequence)];
    && r.operationId == turn.operationId && r.sourceId == turn.sourceId && r.turnHash == turn.turnHash
    && (r.revision.Some? ==> r.revision == turn.revision)
    && (!r.queued ==> r.operationId !in s.ops && r.revision == turn.revision)
  }

  /** The reconciler corrects what it has read, however long ago. */
  ghost predicate Allowed(s: Store, move: HostMove) {
    move.RewindIt? ==> Past(s, move.record)
  }

  ghost function HostStep(ctx: Context, w: World, move: HostMove): World {
    if Allowed(w.store, move) then w.(store := Step(w.store, CommandOf(ctx, move))) else w
  }

  // ---------------------------------------------------------------- workers

  function WithHands(hands: map<nat, Hand>, claims: seq<ClaimedOperation>): map<nat, Hand>
    decreases |claims|
  {
    if claims == [] then hands else WithHands(hands[claims[0].token := Hand(claims[0], Ready)], claims[1..])
  }

  function ClaimStep(w: World, worker: string, pageSize: int, lease: Option<int>, cutoff: Option<nat>): World {
    var r := ClaimPage(w.store, worker, pageSize, lease, cutoff);
    w.(store := r.store, hands := if r.result.Ok? then WithHands(w.hands, r.result.value) else w.hands)
  }

  function AtStage(w: World, token: nat, stage: Stage): World
    requires token in w.hands
  {
    w.(hands := w.hands[token := w.hands[token].(stage := stage)])
  }

  /** The read of turn_revision and everything before it. */
  ghost function PlanStep(w: World, token: nat, h: Hand): World
    requires token in w.hands
  {
    var plan := PlanFor(w.store, h.op);
    AtStage(w, token, if plan.Conclude? then Concluded(plan.result) else Planned(plan))
  }

  function SendStep(w: World, token: nat, h: Hand, out: Outgoing): World
    requires token in w.hands
  {
    AtStage(w, token, Waiting(out)).(sends := w.sends + [Sending(h.op.id, h.op.what.key, out)])
  }

  /**
   A receipt for the key that was asked says that it was served, and for a capture with which revision.
   A receipt for another key may say anything.
   */
  ghost predicate Authentic(w: World, key: string, response: Response) {
    response.Accepted? && Matches(response.receipt, key) ==>
      exists e :: 0 <= e < |w.journal| && Vouches(w.journal[e], key, response)
  }

  ghost predicate Vouches(e: Effect, key: string, response: Response)
    requires response.Accepted?
  {
    e.cause.key == key && (e.cause.out.body.RawMemory? ==> e.revision == response.revision)
  }

  function ReplyStep(w: World, token: nat, h: Hand, response: Response): World
    requires token in w.hands
  {
    match VerdictOf(h.op.what, response)
    case Finish(result) => AtStage(w, token, Concluded(result))
    case Record(revision, replayed) => AtStage(w, token, Stage.Recording(revision, replayed))
  }

  function RecordStep(w: World, token: nat, h: Hand): World
    requires token in w.hands && h.stage.Recording?
  {
    AtStage(w, token, Concluded(Success(h.stage.replayed))).(
      store := RecordTurnRevision(w.store, h.op.id, h.stage.revision).store)
  }

  function PreviewStep(ctx: Context, w: World, token: nat, h: Hand, request: CorrectionRequest,
                       reply: PreviewReply): World
    requires token in w.hands
  {
    match ReconcileWith(ctx.sha, h.op, request, reply)
    case Done(result) => AtStage(w, token, Concluded(result))
    case Replace(replacement) =>
      var r := SupersedeWith(w.store, h.op.id, h.op.token, replacement);
      AtStage(w, token, Concluded(AfterSupersede(r.result))).(store := r.store)
  }

  function ApplyStep(w: World, token: nat, h: Hand, result: AttemptResult): World {
    w.(store := ApplyResult(w.store, h.op.id, h.op.token, result).store, hands := w.hands - {token})
  }

  ghost function WorkerStep(ctx: Context, w: World, token: nat, h: Hand, move: WorkerMove): World
    requires token in w.hands
  {
    match move
    case RenewIt(lease) => w.(store := RenewClaim(w.store, h.op.id, h.op.token, lease).store)
    case ReleaseIt =>
      if h.stage.Ready? then
        w.(store := ReleaseRow(w.store, h.op.id, h.op.token), hands := w.hands - {token})
      else w
    case Crash => w.(hands := w.hands - {token})
    case PlanIt => if h.stage.Ready? then PlanStep(w, token, h) else w
    case SendIt =>
      if h.stage.Planned? && h.stage.plan.Send? then SendStep(w, token, h, h.stage.plan.out) else w
    case Reply(response) =>
      if h.stage.Waiting? && Authentic(w, h.op.what.key, response) then ReplyStep(w, token, h, response) else w
    case RecordIt => if h.stage.Recording? then RecordStep(w, token, h) else w
    case PreviewIt(reply) =>
      if h.stage.Planned? && h.stage.plan.AskFirst? then
        PreviewStep(ctx, w, token, h, h.stage.plan.request, reply)
      else w
    case ApplyIt => if h.stage.Concluded? then ApplyStep(w, token, h, h.stage.result) else w
  }

  // ---------------------------------------------------------------- the server

  ghost predicate Served(journal: seq<Effect>, key: string) {
    exists e :: 0 <= e < |journal| && journal[e].cause.key == key
  }

  /** The first request under a key takes effect; whatever comes later under it does not. */
  ghost function ServeStep(w: World, n: nat, revision: nat): World
    requires n < |w.sends|
  {
    if Served(w.journal, w.sends[n].key) then w
    else w.(journal := w.journal + [Effect(w.sends[n], revision)])
  }

  // ---------------------------------------------------------------- runs

  ghost function React(ctx: Context, w: World, a: Event): World {
    match a
    case OfHost(move) => HostStep(ctx, w, move)
    case Claiming(worker, pageSize, lease, cutoff) => ClaimStep(w, worker, pageSize, lease, cutoff)
    case OfWorker(token, move) =>
      if token in w.hands then WorkerStep(ctx, w, token, w.hands[token], move) else w
    case Serving(n, revision) => if n < |w.sends| then ServeStep(w, n, revision) else w
  }

  ghost function RunEvents(ctx: Context, w: World, events: seq<Event>): World
    decreases |events|
  {
    if events == [] then w else RunEvents(ctx, React(ctx, w, events[0]), events[1..])
  }
}
