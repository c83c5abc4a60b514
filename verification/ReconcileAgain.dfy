/**
 Two runs in which reconciling again is not idempotent. In the first a turn is captured, rewound while
 it is queued, and delivered after its correction was planned; the next reconciliation plans the
 correction with another request and dependency, and raises. In the second a turn is rewound and sent
 again in the same words; the next reconciliation corrects the turn the transcript ends with.
 */
module ReconcileAgain {
  import opened Wrappers
  import opened Ordering
  import opened Requests
  import opened Outbox
  import opened OutboxInvariant
  import opened Sessions
  import opened Capture
  import opened Reconcile
  import opened Rerun
  import opened Runtime

  const DONE := AttemptResult(Succeed, None, None, false)

  /** A worker claims the earliest operation, stores its revision and archives it. */
  function DeliverFirst(id: Id): seq<Command> {
    [DoClaimPage("worker", 1, None, None), DoRecordRevision(id, 1), DoApply(id, 0, DONE)]
  }

  // ---------------------------------------------------------------- what the steps leave

  /** A captured operation, not yet touched. */
  ghost predicate Waits(s: Store, id: Id, at: nat) {
    && id in s.ops && s.ops[id].state.Pending? && s.ops[id].claim.None? && s.ops[id].what.dependsOn.None?
    && s.ops[id].createdAt == at && s.ops[id].updatedAt == at
  }

  ghost predicate Untold(s: Store, session: string, next: nat) {
    session != "" && s.history == map[] && s.nextToken == 0
    && session in s.sessions && s.sessions[session].next == next
  }

  /** One turn captured at time 0. */
  ghost predicate OneTurn(s: Store, session: string, a: Turn) {
    && Untold(s, session, 2) && s.turns == map[Slot(session, 1) := a]
    && s.ops.Keys == {a.operationId} && Waits(s, a.operationId, 0)
  }

  ghost predicate WaitsFor(s: Store, op: NewOperation, id: Id) {
    op.id != id && op.what.dependsOn == Some(id) && op.id in s.ops && s.ops[op.id].what == Stored(op.what)
  }

  /** ... and its correction enqueued. */
  ghost predicate Rewound(s: Store, session: string, a: Turn, op: NewOperation) {
    && Untold(s, session, 2) && s.turns == map[Slot(session, 1) := a]
    && s.ops.Keys == {a.operationId, op.id} && Waits(s, a.operationId, 0) && WaitsFor(s, op, a.operationId)
  }

  /** ... and the turn sent instead captured at time 1. */
  ghost predicate SentInstead(s: Store, session: string, a: Turn, b: Turn, op: NewOperation) {
    && Untold(s, session, 3) && s.clock == 1
    && s.turns == map[Slot(session, 1) := a, Slot(session, 2) := b]
    && s.ops.Keys == {a.operationId, b.operationId, op.id} && b.operationId !in {a.operationId, op.id}
    && Waits(s, a.operationId, 0) && Waits(s, b.operationId, 1) && WaitsFor(s, op, a.operationId)
  }

  /** ... and the rewound turn delivered. */
  ghost predicate DeliveredLate(s: Store, session: string, a: Turn, b: Turn, op: NewOperation) {
    && session != "" && session in s.sessions && s.sessions[session].next == 3
    && s.turns == map[Slot(session, 1) := a, Slot(session, 2) := b]
    && s.ops.Keys == {b.operationId, op.id} && a.operationId !in {b.operationId, op.id}
    && s.ops[op.id].what == Stored(op.what)
  }

  // ---------------------------------------------------------------- the index

  function AsIndexed(turn: Turn, sequence: nat, queued: bool): IndexedTurn {
    IndexedTurn(turn.operationId, turn.sourceId, turn.turnHash, sequence, turn.revision, queued)
  }

  lemma IndexOfOne(s: Store, session: string, a: Turn)
    requires s.turns == map[Slot(session, 1) := a] && session in s.sessions && s.sessions[session].next == 2
    ensures ToIndexed(IndexedTurns(s, session)) == [AsIndexed(a, 1, a.operationId in s.ops)]
  {
    assert TurnsBelow(s, session, 0) == [] && TurnsBelow(s, session, 1) == [];
    assert IndexedTurns(s, session) == [RecordAt(s, Slot(session, 1))];
  }

  lemma IndexOfTwo(s: Store, session: string, a: Turn, b: Turn)
    requires s.turns == map[Slot(session, 1) := a, Slot(session, 2) := b]
    requires session in s.sessions && s.sessions[session].next == 3
    ensures ToIndexed(IndexedTurns(s, session))
         == [AsIndexed(a, 1, a.operationId in s.ops), AsIndexed(b, 2, b.operationId in s.ops)]
  {
    assert TurnsBelow(s, session, 0) == [] && TurnsBelow(s, session, 1) == [];
    assert TurnsBelow(s, session, 2) == [RecordAt(s, Slot(session, 1))];
    assert IndexedTurns(s, session) == [RecordAt(s, Slot(session, 1)), RecordAt(s, Slot(session, 2))];
  }

  /** A transcript that consists of the current turn alone. */
  lemma OnlyCurrent(ctx: Context, current: TurnText)
    requires current.user != "" && current.assistant != ""
    ensures PriorTurns(Render([current]), current) == []
    ensures Fingerprints(ctx, Render([current])) == [HashOf(ctx, current)]
  {
    OneTurnRead([current]);
    NoneBefore(ctx, Render([current]), current);
  }

  lemma OneTurnRead(turns: seq<TurnText>)
    requires NonEmptyTurns(turns)
    ensures Read(Render(turns)).turns == turns
  {
    ReadRendered(turns);
  }

  lemma NoneBefore(ctx: Context, messages: seq<Message>, current: TurnText)
    requires Read(messages).turns == [current]
    ensures PriorTurns(messages, current) == [] && Fingerprints(ctx, messages) == [HashOf(ctx, current)]
  {
  }

  lemma NothingToBackfill(s: Store, ctx: Context, session: string, messages: seq<Message>, current: TurnText)
    requires PriorTurns(messages, current) == []
    ensures Backfill(s, ctx, session, messages, current) == Tx(s, Ok(()))
  {
  }

  /** The first turn is stale, and a second turn with the committed hash is not. */
  lemma PlanOfOne(ctx: Context, a: IndexedTurn, h: string)
    requires a.turnHash != h
    ensures Stale([a], multiset{h}, 1) == [a]
  {
    assert Stale([a], multiset{h}, 0) == [];
  }

  lemma PlanOfTwo(ctx: Context, a: IndexedTurn, b: IndexedTurn, h: string)
    requires a.turnHash != h && b.turnHash == h
    ensures Stale([a, b], multiset{h}, 2) == [a]
  {
    assert Hashes([a, b])[..0] == [] && Hashes([a, b])[..1] == [a.turnHash];
    assert Stale([a, b], multiset{h}, 0) == [];
    assert Stale([a, b], multiset{h}, 1) == [a];
  }

  lemma OneIntent(ctx: Context, a: IndexedTurn)
    ensures CorrectionOps(ctx, Intents([a])) == [CorrectionOp(ctx, Intent(a))]
  {
    assert Intents([a]) == [Intent(a)];
  }

  lemma CorrectionsOfOne(s: Store, ctx: Context, session: string, a: Turn, current: TurnText)
    requires s.turns == map[Slot(session, 1) := a] && session in s.sessions && s.sessions[session].next == 2
    requires current.user != "" && current.assistant != "" && a.turnHash != HashOf(ctx, current)
    ensures Corrections(s, ctx, session, Render([current]))
         == [CorrectionOp(ctx, Intent(AsIndexed(a, 1, a.operationId in s.ops)))]
  {
    IndexOfOne(s, session, a);
    IndexIsSorted(s, session);
    OnlyCurrent(ctx, current);
    PlanOfOne(ctx, AsIndexed(a, 1, a.operationId in s.ops), HashOf(ctx, current));
    OneIntent(ctx, AsIndexed(a, 1, a.operationId in s.ops));
  }

  lemma CorrectionsOfTwo(s: Store, ctx: Context, session: string, a: Turn, b: Turn, current: TurnText)
    requires s.turns == map[Slot(session, 1) := a, Slot(session, 2) := b]
    requires session in s.sessions && s.sessions[session].next == 3
    requires current.user != "" && current.assistant != ""
    requires a.turnHash != HashOf(ctx, current) && b.turnHash == HashOf(ctx, current)
    ensures Corrections(s, ctx, session, Render([current]))
         == [CorrectionOp(ctx, Intent(AsIndexed(a, 1, a.operationId in s.ops)))]
  {
    IndexOfTwo(s, session, a, b);
    IndexIsSorted(s, session);
    OnlyCurrent(ctx, current);
    PlanOfTwo(ctx, AsIndexed(a, 1, a.operationId in s.ops), AsIndexed(b, 2, b.operationId in s.ops),
              HashOf(ctx, current));
    OneIntent(ctx, AsIndexed(a, 1, a.operationId in s.ops));
  }

  // ---------------------------------------------------------------- identities

  /** The id of a correction is not the id of a turn of the same agent. */
  lemma CorrectionIdDiffers(ctx: Context, session: string, sequence: nat, turn: nat, digest: string,
                            operationId: string)
    requires Ideal(ctx.sha) && Lacks(operationId, NUL)
    ensures HashParts(ctx.sha, [ctx.agent, "rewind-stale-" + operationId])
         != HashParts(ctx.sha, OperationParts(ctx.agent, session, sequence, turn, digest))
  {
    var a, b := "rewind-stale-" + operationId, session + [NUL] + Decimal(sequence) + [NUL] + Decimal(turn)
                                               + [NUL] + digest;
    JoinFive(ctx.agent, session, Decimal(sequence), Decimal(turn), digest, NUL);
    JoinOfTwo(ctx.agent, a, NUL);
    var x, y, n := ctx.agent + [NUL] + a, ctx.agent + [NUL] + b, |ctx.agent| + 1;
    assert y[n + |session|] == b[|session|] == NUL;
    assert forall i | n <= i < |x| :: x[i] == a[i - n] && a[i - n] != NUL;
  }

  /** What the factory makes of a text at a sequence number. */
  ghost predicate MadeAt(ctx: Context, session: string, text: TurnText, sequence: nat, made: NewTurn) {
    && ValidOperation(made.operation) && made.operation.what.dependsOn.None?
    && made.sourceId != "" && made.turnHash != "" && made.turnHash == HashOf(ctx, text)
    && Lacks(made.operation.id, NUL)
    && made.operation.id
       == HashParts(ctx.sha, OperationParts(ctx.agent, session, sequence, sequence, made.turnHash))
    && made.sourceId == SourceId(ctx.agent, session, sequence, sequence, made.turnHash)
  }

  lemma IdentityAt(ctx: Context, session: string, sequence: nat, text: TurnText) returns (x: TurnIdentity)
    requires Ideal(ctx.sha) && sequence >= 1
    ensures DeriveTurnIdentity(ctx.sha, ctx.agent, session, sequence, None, text.user, text.assistant) == Ok(x)
    ensures x.operationId != "" && x.sourceId != "" && x.turnHash != "" && x.idempotencyKey != ""
    ensures x.operationId == HashParts(ctx.sha, OperationParts(ctx.agent, session, sequence, sequence, x.turnHash))
    ensures x.sourceId == SourceId(ctx.agent, session, sequence, sequence, x.turnHash)
    ensures Lacks(x.operationId, NUL) && x.turnHash == HashOf(ctx, text)
  {
    x := DeriveTurnIdentity(ctx.sha, ctx.agent, session, sequence, None, text.user, text.assistant).value;
    JoinSource(Quote(ctx.agent), Quote(session), Decimal(sequence), Decimal(sequence), Take(x.turnHash, 16));
  }

  lemma RawEndpointValid()
    ensures ValidEndpoint(RAW_ENDPOINT)
  {
    PlainEndpoint(RAW_ENDPOINT);
  }

  lemma RawOperationValid(ctx: Context, session: string, parent: string, text: TurnText, x: TurnIdentity)
    requires x.operationId != "" && x.idempotencyKey != ""
    ensures ValidOperation(NewOperation(x.operationId, RawMutation(ctx, session, parent, text, x)))
  {
    RawEndpointValid();
    PostIsUpper();
  }

  lemma FactoryAt(ctx: Context, session: string, parent: string, text: TurnText, sequence: nat)
    returns (made: NewTurn)
    requires Ideal(ctx.sha) && sequence >= 1
    ensures CaptureFactory(ctx, session, parent, text, None)(sequence) == Ok(made)
    ensures MadeAt(ctx, session, text, sequence, made)
  {
    var x := IdentityAt(ctx, session, sequence, text);
    made := NewTurn(NewOperation(x.operationId, RawMutation(ctx, session, parent, text, x)), x.sourceId, x.turnHash);
    RawOperationValid(ctx, session, parent, text, x);
  }

  /** Two turns of a session at different numbers share neither operation id nor source id. */
  lemma MadeApart(ctx: Context, session: string, x: TurnText, m: nat, a: NewTurn, y: TurnText, n: nat, b: NewTurn)
    requires Ideal(ctx.sha) && IsBytes(ctx.agent) && IsBytes(session) && Lacks(ctx.agent, NUL)
    requires MadeAt(ctx, session, x, m, a) && MadeAt(ctx, session, y, n, b) && m != n
    ensures a.operation.id != b.operation.id && a.sourceId != b.sourceId
  {
    if a.operation.id == b.operation.id {
      OperationPartsInjective(ctx.agent, session, m, m, a.turnHash, ctx.agent, session, n, n, b.turnHash);
    }
    if a.sourceId == b.sourceId {
      SourceIdInjective(ctx.agent, session, m, m, a.turnHash, ctx.agent, session, n, n, b.turnHash);
    }
  }

  function TurnOf(made: NewTurn): Turn {
    Turn(made.operation.id, made.sourceId, made.turnHash, None)
  }

  // ---------------------------------------------------------------- the steps

  lemma FirstInserted(ctx: Context, session: string, text: TurnText, made: NewTurn, one: nat)
    requires session != "" && MadeAt(ctx, session, text, one, made) && one == 1
    ensures
      var r := InsertTurn(EMPTY, session, Session("", one, true, 0), made);
      && r.result.Ok? && OneTurn(r.store, session, TurnOf(made)) && r.store.clock == 0
      && ReconcileRequired(r.store, session)
  {
  }

  lemma FirstCaptured(ctx: Context, session: string, text: TurnText, one: nat) returns (made: NewTurn)
    requires Ideal(ctx.sha) && session != "" && one == 1
    ensures MadeAt(ctx, session, text, one, made)
    ensures
      var r := CaptureTurn(EMPTY, ctx, session, text, None);
      && r.result.Ok? && OneTurn(r.store, session, TurnOf(made)) && r.store.clock == 0
      && ReconcileRequired(r.store, session)
  {
    made := FactoryAt(ctx, session, "", text, one);
    FirstInserted(ctx, session, text, made, one);
    assert Touched(EMPTY, session, "") == Session("", one, true, 0);
  }

  lemma CorrectionOpValid(ctx: Context, intent: StaleCorrectionIntent)
    requires Ideal(ctx.sha) && intent.dependsOn != Some(CorrectionOp(ctx, intent).id)
    ensures ValidOperation(CorrectionOp(ctx, intent))
  {
    CorrectionEndpointValid(intent.sourceId);
    PostIsUpper();
  }

  lemma OneCorrection(s: Store, op: NewOperation)
    ensures EnqueueAll(s, [op]).store == Enqueue(s, op).store
    ensures EnqueueAll(s, [op]).result.Ok? <==> Enqueue(s, op).result.Ok?
    ensures Enqueue(s, op).result.Err? ==> EnqueueAll(s, [op]).result == Err(Enqueue(s, op).result.error)
  {
    assert [op][..0] == [];
  }

  lemma CorrectionEnqueued(s: Store, session: string, a: Turn, op: NewOperation)
    requires OneTurn(s, session, a) && ValidOperation(op)
    requires op.id != a.operationId && op.what.dependsOn == Some(a.operationId)
    ensures
      var m := Enqueue(s, op);
      var t := MarkSessionReconcile(m.store, session, "", false);
      && m.result.Ok? && t.result.Ok? && Rewound(t.store, session, a, op) && t.store.clock == s.clock
  {
    assert Known(s, op.id) ==> op.id in s.ops.Keys;
  }

  /** Reconciling with the rewound turn still queued enqueues its correction, waiting for it. */
  lemma FirstReconcile(s: Store, ctx: Context, session: string, a: Turn, current: TurnText)
    returns (op: NewOperation)
    requires Ideal(ctx.sha) && OneTurn(s, session, a) && a.turnHash != HashOf(ctx, current)
    requires current.user != "" && current.assistant != ""
    requires CorrectionOp(ctx, Intent(AsIndexed(a, 1, true))).id != a.operationId
    ensures op == CorrectionOp(ctx, Intent(AsIndexed(a, 1, true)))
    ensures
      var r := Reconcile.ReconcileSession(s, ctx, session, Render([current]), current);
      r.result.Ok? && Rewound(r.store, session, a, op) && r.store.clock == s.clock
  {
    op := CorrectionOp(ctx, Intent(AsIndexed(a, 1, true)));
    OnlyCurrent(ctx, current);
    NothingToBackfill(s, ctx, session, Render([current]), current);
    CorrectionsOfOne(s, ctx, session, a, current);
    CorrectionOpValid(ctx, Intent(AsIndexed(a, 1, true)));
    OneCorrection(s, op);
    CorrectionEnqueued(s, session, a, op);
  }

  lemma SecondInserted(s: Store, session: string, row: Session, a: Turn, op: NewOperation, made: NewTurn)
    requires Rewound(s, session, a, op) && s.clock == 1 && row.next == 2
    requires ValidOperation(made.operation) && made.operation.what.dependsOn.None?
    requires made.sourceId != "" && made.turnHash != "" && made.sourceId != a.sourceId
    requires made.operation.id != a.operationId && made.operation.id != op.id
    ensures
      var r := InsertTurn(s, session, row, made);
      && r.result.Ok? && SentInstead(r.store, session, a, TurnOf(made), op)
  {
    var id := made.operation.id;
    assert id !in s.ops.Keys;
  }

  lemma SecondCaptured(s: Store, ctx: Context, session: string, a: Turn, op: NewOperation, text: TurnText,
                       made: NewTurn, parent: string, two: nat)
    requires Rewound(s, session, a, op) && s.clock == 1 && two == 2 && parent == ParentOf(s, session)
    requires CaptureFactory(ctx, session, parent, text, None)(two) == Ok(made)
    requires MadeAt(ctx, session, text, two, made)
    requires made.operation.id != a.operationId && made.operation.id != op.id && made.sourceId != a.sourceId
    ensures
      var r := CaptureTurn(s, ctx, session, text, None);
      && r.result.Ok? && SentInstead(r.store, session, a, TurnOf(made), op)
  {
    var row := Touched(s, session, parent);
    assert row.next == two;
    SecondInserted(s, session, row, a, op, made);
  }

  /** claim_page takes the earlier turn: the correction waits for it, and the later turn is later. */
  lemma ClaimsTheTurn(s: Store, session: string, a: Turn, b: Turn, op: NewOperation)
    requires SentInstead(s, session, a, b, op)
    ensures
      var t := ClaimPage(s, "worker", 1, None, None).store;
      && t == s.(ops := t.ops, nextToken := 1) && t.ops.Keys == s.ops.Keys
      && Holds(t, a.operationId, 0) && t.ops[op.id] == s.ops[op.id]
  {
    var id := a.operationId;
    var ids := ClaimPageExact(s, "worker", 1, None, None);
    OnlyTheTurn(s, session, a, b, op, ids);
    var t := ClaimPage(s, "worker", 1, None, None).store;
    assert ClaimedAt(s, t, ids[0], s.nextToken + 0, "worker", DEFAULT_LEASE);
    assert Elsewhere(ids, op.id);
  }

  lemma OnlyTheTurn(s: Store, session: string, a: Turn, b: Turn, op: NewOperation, ids: seq<Id>)
    requires SentInstead(s, session, a, b, op) && EarliestClaimable(s, ids, s.clock + HORIZON, 1)
    ensures ids == [a.operationId]
  {
    var id, limit := a.operationId, s.clock + HORIZON;
    assert Claimable(s, id, limit);
    assert !Claimable(s, op.id, limit);
    assert |ids| < 1 ==> id in ids;
    assert Claimable(s, ids[0], limit) && ids[0] in s.ops.Keys;
    assert !Before(PlaceOf(s, b.operationId), PlaceOf(s, id));
    assert id in ids;
  }

  lemma RunOfThree(s: Store, a: Command, b: Command, c: Command)
    ensures Run(s, [a, b, c]) == Step(Step(Step(s, a), b), c)
  {
    assert [a, b, c][1..] == [b, c] && [b, c][1..] == [c] && [c][1..] == [];
    assert Run(s, [a, b, c]) == Run(Step(s, a), [b, c]) == Run(Step(Step(s, a), b), [c]);
    assert Run(Step(Step(s, a), b), [c]) == Run(Step(Step(Step(s, a), b), c), []);
  }

  lemma Delivered(s: Store, session: string, a: Turn, b: Turn, op: NewOperation)
    requires SentInstead(s, session, a, b, op)
    ensures DeliveredLate(Run(s, DeliverFirst(a.operationId)), session, a.(revision := Some(1)), b, op)
  {
    var id := a.operationId;
    ClaimsTheTurn(s, session, a, b, op);
    RunOfThree(s, DoClaimPage("worker", 1, None, None), DoRecordRevision(id, 1), DoApply(id, 0, DONE));
    Archived(s, ClaimPage(s, "worker", 1, None, None).store, session, a, b, op);
  }

  lemma Archived(s: Store, claimed: Store, session: string, a: Turn, b: Turn, op: NewOperation)
    requires SentInstead(s, session, a, b, op)
    requires claimed == s.(ops := claimed.ops, nextToken := 1) && claimed.ops.Keys == s.ops.Keys
    requires Holds(claimed, a.operationId, 0) && claimed.ops[op.id] == s.ops[op.id]
    ensures
      var recorded := RecordTurnRevision(claimed, a.operationId, 1).store;
      DeliveredLate(ApplyResult(recorded, a.operationId, 0, DONE).store, session, a.(revision := Some(1)), b, op)
  {
    var recorded := RecordTurnRevision(claimed, a.operationId, 1).store;
    assert recorded.turns == map[Slot(session, 1) := a.(revision := Some(1)), Slot(session, 2) := b];
    assert Holds(recorded, a.operationId, 0);
  }

  /** With the rewound turn delivered, its correction is another request under the same id. */
  lemma SecondReconcile(t: Store, ctx: Context, session: string, a: Turn, b: Turn, op: NewOperation,
                        current: TurnText)
    requires Ideal(ctx.sha) && current.user != "" && current.assistant != ""
    requires DeliveredLate(t, session, a.(revision := Some(1)), b, op)
    requires op == CorrectionOp(ctx, Intent(AsIndexed(a, 1, true)))
    requires a.revision.None? && a.turnHash != HashOf(ctx, current) && b.turnHash == HashOf(ctx, current)
    ensures Reconcile.ReconcileSession(t, ctx, session, Render([current]), current).result == Err(OperationConflict)
  {
    var delivered := a.(revision := Some(1));
    var again := CorrectionOp(ctx, Intent(AsIndexed(delivered, 1, false)));
    OnlyCurrent(ctx, current);
    NothingToBackfill(t, ctx, session, Render([current]), current);
    assert a.operationId !in t.ops.Keys;
    CorrectionsOfTwo(t, ctx, session, delivered, b, current);
    CorrectionOpValid(ctx, Intent(AsIndexed(delivered, 1, false)));
    assert op.id in t.ops.Keys;
    OtherRequest(t, op, again);
    OneCorrection(t, again);
    ReconcileIs(t, ctx, session, Render([current]), current, [again]);
  }

  lemma OtherRequest(t: Store, op: NewOperation, again: NewOperation)
    requires op.id in t.ops.Keys && t.ops[op.id].what == Stored(op.what) && again.id == op.id
    requires again.what.dependsOn != op.what.dependsOn && ValidOperation(again)
    ensures Enqueue(t, again).result == Err(OperationConflict)
  {
  }

  // ---------------------------------------------------------------- the whole run

  /** The rewound turn's first capture, and a moment later. */
  function Start(ctx: Context, settings: Settings, session: string, rewound: TurnText): Store {
    var s := Synced(EMPTY, map[], settings, ctx, session, None, rewound).0;
    s.(clock := s.clock + 1)
  }

  function SyncInstead(s: Store, settings: Settings, ctx: Context, session: string, sent: TurnText)
    : (Store, Queues, Result<Id>)
  {
    Synced(s, map[], settings, ctx, session, Some(Render([sent])), sent)
  }

  /** A session switch, or a start of the runtime, in a session the outbox knows. */
  function Switched(s: Store, session: string): Store {
    MarkSessionReconcile(s, session, SwitchParent(s, session, "", false), true).store
  }

  lemma StartCaptures(ctx: Context, settings: Settings, session: string, rewound: TurnText, one: nat)
    returns (made: NewTurn)
    requires Ideal(ctx.sha) && session != "" && one == 1
    ensures MadeAt(ctx, session, rewound, one, made)
    ensures
      var s := Start(ctx, settings, session, rewound);
      OneTurn(s, session, TurnOf(made)) && s.clock == 1 && ReconcileRequired(s, session)
    ensures Synced(EMPTY, map[], settings, ctx, session, None, rewound).2 == Ok(made.operation.id)
  {
    made := FirstCaptured(ctx, session, rewound, one);
    CaptureIdentity(EMPTY, ctx, session, rewound, None);
    assert CapturedWithStart(EMPTY, map[], settings, ctx, session, rewound).0
        == CaptureTurn(EMPTY, ctx, session, rewound, None).store;
  }

  lemma SyncCaptures(s: Store, settings: Settings, ctx: Context, session: string, first: NewTurn,
                     rewound: TurnText, sent: TurnText, one: nat)
    returns (op: NewOperation, made: NewTurn)
    requires Ideal(ctx.sha) && IsBytes(ctx.agent) && IsBytes(session) && Lacks(ctx.agent, NUL) && one == 1
    requires MadeAt(ctx, session, rewound, one, first) && OneTurn(s, session, TurnOf(first)) && s.clock == 1
    requires ReconcileRequired(s, session) && HashOf(ctx, rewound) != HashOf(ctx, sent)
    requires sent.user != "" && sent.assistant != ""
    ensures op == CorrectionOp(ctx, Intent(AsIndexed(TurnOf(first), 1, true)))
    ensures made.turnHash == HashOf(ctx, sent)
    ensures
      var end := SyncInstead(s, settings, ctx, session, sent);
      end.2.Ok? && SentInstead(end.0, session, TurnOf(first), TurnOf(made), op)
  {
    CorrectionIdDiffers(ctx, session, one, one, first.turnHash, first.operation.id);
    op := FirstReconcile(s, ctx, session, TurnOf(first), sent);
    var t := Reconcile.ReconcileSession(s, ctx, session, Render([sent]), sent).store;
    var two, parent := one + 1, ParentOf(t, session);
    made := FactoryAt(ctx, session, parent, sent, two);
    MadeApart(ctx, session, rewound, one, first, sent, two, made);
    CorrectionIdDiffers(ctx, session, two, two, made.turnHash, first.operation.id);
    SecondCaptured(t, ctx, session, TurnOf(first), op, sent, made, parent, two);
    NoStart(t, settings, ctx, session, sent);
  }

  /** With no recorded start, the capture takes its own number. */
  lemma NoStart(t: Store, settings: Settings, ctx: Context, session: string, text: TurnText)
    ensures
      var end := CapturedWithStart(t, map[], settings, ctx, session, text);
      var r := CaptureTurn(t, ctx, session, text, None);
      && end.0 == r.store && (end.2.Ok? <==> r.result.Ok?)
      && (r.result.Ok? ==> end.2 == Ok(r.result.value.operationId))
  {
  }

  /**
   sync_turn of a turn; later, with that turn rewound, sync_turn of another turn, which returns; the
   first turn delivered; a session switch; and sync_turn again on the same transcript: it raises.
   */
  lemma DeliveredTurnConflicts(ctx: Context, settings: Settings, session: string, rewound: TurnText,
                               sent: TurnText) returns (id: Id)
    requires Ideal(ctx.sha) && IsBytes(ctx.agent) && IsBytes(session) && Lacks(ctx.agent, NUL) && session != ""
    requires sent.user != "" && sent.assistant != "" && HashOf(ctx, rewound) != HashOf(ctx, sent)
    ensures Synced(EMPTY, map[], settings, ctx, session, None, rewound).2 == Ok(id)
    ensures
      var first := SyncInstead(Start(ctx, settings, session, rewound), settings, ctx, session, sent);
      var delivered := Run(first.0, DeliverFirst(id));
      && first.2.Ok?
      && SyncInstead(Switched(delivered, session), settings, ctx, session, sent).2 == Err(OperationConflict)
  {
    var one := 1;
    var made := StartCaptures(ctx, settings, session, rewound, one);
    id := made.operation.id;
    var op, second := SyncCaptures(Start(ctx, settings, session, rewound), settings, ctx, session, made,
                                   rewound, sent, one);
    EndsInConflict(SyncInstead(Start(ctx, settings, session, rewound), settings, ctx, session, sent).0,
                   settings, ctx, session, TurnOf(made), TurnOf(second), op, sent);
  }

  lemma EndsInConflict(s: Store, settings: Settings, ctx: Context, session: string, a: Turn, b: Turn,
                       op: NewOperation, sent: TurnText)
    requires Ideal(ctx.sha) && sent.user != "" && sent.assistant != "" && SentInstead(s, session, a, b, op)
    requires op == CorrectionOp(ctx, Intent(AsIndexed(a, 1, true))) && a.revision.None?
    requires a.turnHash != HashOf(ctx, sent) && b.turnHash == HashOf(ctx, sent)
    ensures SyncInstead(Switched(Run(s, DeliverFirst(a.operationId)), session), settings, ctx, session, sent).2
         == Err(OperationConflict)
  {
    var delivered := Run(s, DeliverFirst(a.operationId));
    Delivered(s, session, a, b, op);
    var t := Switched(delivered, session);
    assert DeliveredLate(t, session, a.(revision := Some(1)), b, op);
    SecondReconcile(t, ctx, session, a, b, op, sent);
  }

  // ---------------------------------------------------------------- the same words sent again

  /** Two captures of one session, both queued, and perhaps other operations. */
  ghost predicate Twice(s: Store, session: string, a: Turn, b: Turn, others: set<Id>) {
    && session != "" && session in s.sessions && s.sessions[session].next == 3 && s.history == map[]
    && s.turns == map[Slot(session, 1) := a, Slot(session, 2) := b] && a.operationId != b.operationId
    && s.ops.Keys == {a.operationId, b.operationId} + others && others !! {a.operationId, b.operationId}
  }

  lemma PlanOfKept(a: IndexedTurn, h: string)
    requires a.turnHash == h
    ensures Stale([a], multiset{h}, 1) == []
  {
    assert Hashes([a])[..0] == [] && Stale([a], multiset{h}, 0) == [];
  }

  /** With the hash committed once, the earlier of two turns is kept and the later one is stale. */
  lemma PlanOfTwins(a: IndexedTurn, b: IndexedTurn, h: string)
    requires a.turnHash == h && b.turnHash == h
    ensures Stale([a, b], multiset{h}, 2) == [b]
  {
    assert Hashes([a, b])[..0] == [] && Hashes([a, b])[..1] == [a.turnHash];
    assert Stale([a, b], multiset{h}, 0) == [];
    assert Stale([a, b], multiset{h}, 1) == [];
  }

  /** The transcript's turn is the one indexed: nothing to back-fill and nothing to correct. */
  lemma ReconcileKeepsOne(s: Store, ctx: Context, session: string, a: Turn, current: TurnText)
    requires OneTurn(s, session, a) && a.turnHash == HashOf(ctx, current)
    requires current.user != "" && current.assistant != ""
    ensures
      var r := Reconcile.ReconcileSession(s, ctx, session, Render([current]), current);
      r.result.Ok? && OneTurn(r.store, session, a)
  {
    OnlyCurrent(ctx, current);
    NothingToBackfill(s, ctx, session, Render([current]), current);
    IndexOfOne(s, session, a);
    IndexIsSorted(s, session);
    PlanOfKept(AsIndexed(a, 1, true), HashOf(ctx, current));
    assert Corrections(s, ctx, session, Render([current])) == [];
  }

  lemma CapturedAgain(s: Store, session: string, row: Session, a: Turn, made: NewTurn)
    requires OneTurn(s, session, a) && row.next == 2
    requires ValidOperation(made.operation) && made.operation.what.dependsOn.None?
    requires made.sourceId != "" && made.turnHash != "" && made.sourceId != a.sourceId
    requires made.operation.id != a.operationId
    ensures
      var r := InsertTurn(s, session, row, made);
      && r.result.Ok? && r.result.value.operationId == made.operation.id
      && Twice(r.store, session, a, TurnOf(made), {})
  {
    assert made.operation.id !in s.ops.Keys;
  }

  /** sync_turn captures the turn again under the next number. */
  lemma SyncAgain(s: Store, settings: Settings, ctx: Context, session: string, first: NewTurn, turn: TurnText,
                  one: nat) returns (made: NewTurn)
    requires Ideal(ctx.sha) && IsBytes(ctx.agent) && IsBytes(session) && Lacks(ctx.agent, NUL) && one == 1
    requires MadeAt(ctx, session, turn, one, first) && OneTurn(s, session, TurnOf(first))
    requires ReconcileRequired(s, session) && turn.user != "" && turn.assistant != ""
    ensures MadeAt(ctx, session, turn, one + 1, made)
    ensures
      var end := SyncInstead(s, settings, ctx, session, turn);
      end.2 == Ok(made.operation.id) && Twice(end.0, session, TurnOf(first), TurnOf(made), {})
  {
    ReconcileKeepsOne(s, ctx, session, TurnOf(first), turn);
    var t := Reconcile.ReconcileSession(s, ctx, session, Render([turn]), turn).store;
    var two, parent := one + 1, ParentOf(t, session);
    made := FactoryAt(ctx, session, parent, turn, two);
    MadeApart(ctx, session, turn, one, first, turn, two, made);
    var row := Touched(t, session, parent);
    assert row.next == two;
    CapturedAgain(t, session, row, TurnOf(first), made);
    NoStart(t, settings, ctx, session, turn);
  }

  lemma CorrectionsOfTwins(s: Store, ctx: Context, session: string, a: Turn, b: Turn, current: TurnText)
    requires s.turns == map[Slot(session, 1) := a, Slot(session, 2) := b] && b.operationId in s.ops
    requires session in s.sessions && s.sessions[session].next == 3
    requires current.user != "" && current.assistant != ""
    requires a.turnHash == HashOf(ctx, current) && b.turnHash == HashOf(ctx, current)
    ensures Corrections(s, ctx, session, Render([current])) == [CorrectionOp(ctx, Intent(AsIndexed(b, 2, true)))]
  {
    IndexOfTwo(s, session, a, b);
    IndexIsSorted(s, session);
    OnlyCurrent(ctx, current);
    PlanOfTwins(AsIndexed(a, 1, a.operationId in s.ops), AsIndexed(b, 2, true), HashOf(ctx, current));
    OneIntent(ctx, AsIndexed(b, 2, true));
  }

  lemma TwinEnqueued(s: Store, session: string, a: Turn, b: Turn, op: NewOperation)
    requires Twice(s, session, a, b, {}) && ValidOperation(op) && op.id !in {a.operationId, b.operationId}
    ensures
      var m := EnqueueAll(s, [op]);
      var t := MarkSessionReconcile(m.store, session, "", false);
      && m.result.Ok? && t.result.Ok? && Twice(t.store, session, a, b, {op.id})
      && t.store.ops[op.id].what == Stored(op.what)
  {
    OneCorrection(s, op);
    assert op.id !in s.ops.Keys;
  }

  /** The index has the hash twice, so the later capture is corrected. */
  lemma ReconcileCorrectsTwin(s: Store, ctx: Context, session: string, a: Turn, b: Turn, current: TurnText)
    returns (op: NewOperation)
    requires Ideal(ctx.sha) && Twice(s, session, a, b, {}) && current.user != "" && current.assistant != ""
    requires a.turnHash == HashOf(ctx, current) && b.turnHash == HashOf(ctx, current)
    requires CorrectionOp(ctx, Intent(AsIndexed(b, 2, true))).id !in {a.operationId, b.operationId}
    ensures op == CorrectionOp(ctx, Intent(AsIndexed(b, 2, true)))
    ensures
      var r := Reconcile.ReconcileSession(s, ctx, session, Render([current]), current);
      r.result.Ok? && Twice(r.store, session, a, b, {op.id}) && r.store.ops[op.id].what == Stored(op.what)
  {
    op := CorrectionOp(ctx, Intent(AsIndexed(b, 2, true)));
    OnlyCurrent(ctx, current);
    NothingToBackfill(s, ctx, session, Render([current]), current);
    assert b.operationId in s.ops.Keys;
    CorrectionsOfTwins(s, ctx, session, a, b, current);
    CorrectionOpValid(ctx, Intent(AsIndexed(b, 2, true)));
    TwinEnqueued(s, session, a, b, op);
    ReconcileIs(s, ctx, session, Render([current]), current, [op]);
  }

  /** A reconciliation with nothing to back-fill and these corrections. */
  lemma ReconcileIs(s: Store, ctx: Context, session: string, messages: seq<Message>, current: TurnText,
                    ops: seq<NewOperation>)
    requires Backfill(s, ctx, session, messages, current) == Tx(s, Ok(()))
    requires Corrections(s, ctx, session, messages) == ops
    ensures
      var c := EnqueueAll(s, ops);
      Reconcile.ReconcileSession(s, ctx, session, messages, current)
      == if c.result.Err? then c else MarkSessionReconcile(c.store, session, "", false)
  {
  }

  lemma CapturedThird(s: Store, session: string, row: Session, a: Turn, b: Turn, op: NewOperation, made: NewTurn)
    requires Twice(s, session, a, b, {op.id}) && row.next == 3
    requires ValidOperation(made.operation) && made.operation.what.dependsOn.None?
    requires made.sourceId != "" && made.turnHash != "" && made.sourceId !in {a.sourceId, b.sourceId}
    requires made.operation.id !in {a.operationId, b.operationId, op.id}
    ensures
      var r := InsertTurn(s, session, row, made);
      r.result.Ok? && op.id in r.store.ops && r.store.ops[op.id] == s.ops[op.id]
      && b.operationId in r.store.ops && r.store.ops[b.operationId] == s.ops[b.operationId]
  {
    assert made.operation.id !in s.ops.Keys;
  }

  /** The second reconciliation corrects the turn the transcript ends with, and sync_turn goes on. */
  lemma SyncCorrectsTwin(s: Store, settings: Settings, ctx: Context, session: string, a: NewTurn, b: NewTurn,
                         turn: TurnText, one: nat) returns (op: NewOperation)
    requires Ideal(ctx.sha) && IsBytes(ctx.agent) && IsBytes(session) && Lacks(ctx.agent, NUL) && one == 1
    requires MadeAt(ctx, session, turn, one, a) && MadeAt(ctx, session, turn, one + 1, b)
    requires Twice(s, session, TurnOf(a), TurnOf(b), {}) && ReconcileRequired(s, session)
    requires turn.user != "" && turn.assistant != ""
    ensures op == CorrectionOp(ctx, Intent(AsIndexed(TurnOf(b), 2, true))) && op.id !in s.ops
    ensures
      var end := SyncInstead(s, settings, ctx, session, turn);
      end.2.Ok? && op.id in end.0.ops && end.0.ops[op.id].what == Stored(op.what) && b.operation.id in end.0.ops
  {
    CorrectionIdDiffers(ctx, session, one, one, a.turnHash, b.operation.id);
    CorrectionIdDiffers(ctx, session, one + 1, one + 1, b.turnHash, b.operation.id);
    op := ReconcileCorrectsTwin(s, ctx, session, TurnOf(a), TurnOf(b), turn);
    var t := Reconcile.ReconcileSession(s, ctx, session, Render([turn]), turn).store;
    var three, parent := one + 2, ParentOf(t, session);
    var made := FactoryAt(ctx, session, parent, turn, three);
    MadeApart(ctx, session, turn, one, a, turn, three, made);
    MadeApart(ctx, session, turn, one + 1, b, turn, three, made);
    CorrectionIdDiffers(ctx, session, three, three, made.turnHash, b.operation.id);
    var row := Touched(t, session, parent);
    assert row.next == three;
    CapturedThird(t, session, row, TurnOf(a), TurnOf(b), op, made);
    NoStart(t, settings, ctx, session, turn);
    assert op.id !in s.ops.Keys;
  }

  lemma TwiceSwitched(s: Store, session: string, a: Turn, b: Turn)
    requires Twice(s, session, a, b, {})
    ensures
      var t := Switched(s, session);
      Twice(t, session, a, b, {}) && ReconcileRequired(t, session) && t.ops == s.ops && t.history == s.history
  {
  }

  /** What the two later calls of sync_turn come to. */
  ghost predicate TwinCorrected(ctx: Context, settings: Settings, session: string, turn: TurnText, start: Store,
                                id: Id, op: NewOperation)
  {
    var second := SyncInstead(start, settings, ctx, session, turn);
    var third := SyncInstead(Switched(second.0, session), settings, ctx, session, turn);
    && second.2 == Ok(id) && third.2.Ok?
    && id in second.0.ops && id in third.0.ops && !Known(second.0, op.id)
    && op.id in third.0.ops && third.0.ops[op.id].what == Stored(op.what)
  }

  lemma ResentFrom(ctx: Context, settings: Settings, session: string, turn: TurnText, start: Store, a: NewTurn,
                   one: nat) returns (id: Id, op: NewOperation)
    requires Ideal(ctx.sha) && IsBytes(ctx.agent) && IsBytes(session) && Lacks(ctx.agent, NUL) && one == 1
    requires MadeAt(ctx, session, turn, one, a) && OneTurn(start, session, TurnOf(a))
    requires ReconcileRequired(start, session) && turn.user != "" && turn.assistant != ""
    ensures op.what.endpoint == CorrectionEndpoint(SourceId(ctx.agent, session, 2, 2, HashOf(ctx, turn)))
    ensures op.what.dependsOn == Some(id)
    ensures TwinCorrected(ctx, settings, session, turn, start, id, op)
  {
    var b := SyncAgain(start, settings, ctx, session, a, turn, one);
    id := b.operation.id;
    var s := SyncInstead(start, settings, ctx, session, turn).0;
    TwiceSwitched(s, session, TurnOf(a), TurnOf(b));
    op := SyncCorrectsTwin(Switched(s, session), settings, ctx, session, a, b, turn, one);
    TwiceHas(s, session, TurnOf(a), TurnOf(b));
  }

  lemma TwiceHas(s: Store, session: string, a: Turn, b: Turn)
    requires Twice(s, session, a, b, {})
    ensures b.operationId in s.ops && forall id :: Known(s, id) <==> id in s.ops
  {
  }

  /**
   sync_turn of a turn; later, with that turn rewound and sent again in the same words, sync_turn of
   it, which keeps the first capture and captures it again under `id`; a session switch; and sync_turn
   again on the same transcript: the second capture, still queued, now has a correction it had not,
   though the transcript ends with that turn.
   */
  lemma ResentTurnCorrected(ctx: Context, settings: Settings, session: string, turn: TurnText)
    returns (id: Id, op: NewOperation)
    requires Ideal(ctx.sha) && IsBytes(ctx.agent) && IsBytes(session) && Lacks(ctx.agent, NUL) && session != ""
    requires turn.user != "" && turn.assistant != ""
    ensures op.what.endpoint == CorrectionEndpoint(SourceId(ctx.agent, session, 2, 2, HashOf(ctx, turn)))
    ensures op.what.dependsOn == Some(id)
    ensures TwinCorrected(ctx, settings, session, turn, Start(ctx, settings, session, turn), id, op)
  {
    var one := 1;
    var a := StartCaptures(ctx, settings, session, turn, one);
    id, op := ResentFrom(ctx, settings, session, turn, Start(ctx, settings, session, turn), a, one);
  }
}
