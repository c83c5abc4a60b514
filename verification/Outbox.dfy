/**
 The durable outbox as values: the four tables, and one function per SQLite transaction from the
 tables before it to the tables after it and the call's result. `now` is the clock of the store,
 read inside the transaction. A transaction that raises gives back the store it was given.
 */
module Outbox {
  import opened Wrappers
  import opened Ordering
  import opened Requests

  // ---------------------------------------------------------------- rows

  datatype State = Pending | PendingRecovery | BlockedAuth | DeadLetter | ReconcileRevision

  datatype Outcome = Succeeded | Replayed | Obsolete | Superseded

  datatype Action =
    | Succeed | Retry | BlockAuth | Bury | Recover | Reconcile | DropObsolete | Supersede

  datatype AttemptResult = AttemptResult(
    action: Action, status: Option<int>, error: Option<string>, replayed: bool)

  /** The columns fixed when an operation is inserted and copied to its history row. */
  datatype Mutation = Mutation(
    dependsOn: Option<Id>, kind: string, endpoint: string, request: Request, key: string,
    httpMethod: string)

  datatype NewOperation = NewOperation(id: Id, what: Mutation)

  datatype NewTurn = NewTurn(operation: NewOperation, sourceId: string, turnHash: string)

  datatype Claim = Claim(token: nat, worker: string, leaseEnds: nat)

  /** A row of `operations`. The claim columns are set and cleared together. */
  datatype Row = Row(
    what: Mutation, state: State, createdAt: nat, updatedAt: nat, attempts: int,
    lastStatus: Option<int>, lastError: Option<string>, claim: Option<Claim>)

  /** A row of `operation_history`. */
  datatype Entry = Entry(
    what: Mutation, outcome: Outcome, attempts: int, completedAt: nat, replacement: Option<Id>,
    lastStatus: Option<int>, lastError: Option<string>)

  datatype Session = Session(parent: string, next: nat, reconcile: bool, updatedAt: nat)

  datatype Slot = Slot(session: string, sequence: nat)

  datatype Turn = Turn(operationId: Id, sourceId: string, turnHash: string, revision: Option<nat>)

  /** The tables, the clock, and the first claim token not yet issued (uuid4 never repeats). */
  datatype Store = Store(
    ops: map<Id, Row>, history: map<Id, Entry>, sessions: map<string, Session>,
    turns: map<Slot, Turn>, clock: nat, nextToken: nat)

  const EMPTY := Store(map[], map[], map[], map[], 0, 0)

  datatype Tx<T> = Tx(store: Store, result: Result<T>)

  /** A claim as its holder knows it. Only `id` and `token` are compared by later transactions. */
  datatype ClaimedOperation = ClaimedOperation(
    id: Id, what: Mutation, state: State, createdAt: nat, updatedAt: nat, attempts: int,
    lastStatus: Option<int>, lastError: Option<string>, token: nat, worker: string,
    leaseEnds: nat)

  datatype IndexedTurnRecord = IndexedTurnRecord(
    session: string, sequence: nat, operationId: Id, sourceId: string, turnHash: string,
    revision: Option<nat>, queued: bool)

  // ---------------------------------------------------------------- constants

  // Timestamps count microseconds.
  const DEFAULT_LEASE: nat := 30_000_000
  const HORIZON: nat := 365_000 * 86_400_000_000

  // ---------------------------------------------------------------- shared tests

  predicate Known(s: Store, id: Id) {
    id in s.ops || id in s.history
  }

  predicate Mutable(state: State) {
    state.Pending? || state.PendingRecovery? || state.ReconcileRevision?
  }

  predicate Successful(e: Entry) {
    e.outcome.Succeeded? || e.outcome.Replayed?
  }

  predicate Satisfied(history: map<Id, Entry>, dependsOn: Option<Id>) {
    dependsOn.None? || (dependsOn.value in history && Successful(history[dependsOn.value]))
  }

  predicate ValidEndpoint(endpoint: string) {
    StartsWith(endpoint, "/") && !Contains(endpoint, "://") && !Contains(endpoint, "?")
    && !Contains(endpoint, "#")
  }

  predicate ValidOperation(op: NewOperation) {
    && op.id != "" && op.what.key != "" && op.what.kind != ""
    && ValidEndpoint(op.what.endpoint)
    && Upper(op.what.httpMethod) in {"POST", "PUT", "PATCH", "DELETE"}
    && op.what.dependsOn != Some(op.id)
  }

  /** The mutation as it is stored: only the method is normalised. */
  function Stored(m: Mutation): Mutation {
    m.(httpMethod := Upper(m.httpMethod))
  }

  function NewRow(m: Mutation, now: nat): Row {
    Row(Stored(m), Pending, now, now, 0, None, None, None)
  }

  function Insert(s: Store, op: NewOperation): Store {
    s.(ops := s.ops[op.id := NewRow(op.what, s.clock)])
  }

  predicate Holds(s: Store, id: Id, token: nat) {
    id in s.ops && s.ops[id].claim.Some? && s.ops[id].claim.value.token == token
  }

  // ---------------------------------------------------------------- enqueueing

  function IdentityOf(s: Store, id: Id): Mutation
    requires Known(s, id)
  {
    if id in s.ops then s.ops[id].what else s.history[id].what
  }

  function Enqueue(s: Store, op: NewOperation): Tx<bool> {
    if !ValidOperation(op) then Tx(s, Err(InvalidArgument))
    else if !Known(s, op.id) then Tx(Insert(s, op), Ok(true))
    else if IdentityOf(s, op.id) == Stored(op.what) then Tx(s, Ok(false))
    else Tx(s, Err(OperationConflict))
  }

  /** INSERT INTO session_state ... ON CONFLICT: a new session, or a new parent for an existing one. */
  function Touched(s: Store, session: string, parent: string): Session {
    if session !in s.sessions then Session(parent, 1, true, s.clock)
    else
      var prior := s.sessions[session];
      prior.(parent := if parent != "" then parent else prior.parent, updatedAt := s.clock)
  }

  function ReserveSequence(s: Store, session: string, parent: string): Tx<nat> {
    if session == "" then Tx(s, Err(InvalidArgument)) else
      var row := Touched(s, session, parent);
      Tx(s.(sessions := s.sessions[session := row.(next := row.next + 1)]), Ok(row.next))
  }

  predicate UniqueTurn(s: Store, operationId: Id, sourceId: string) {
    forall k | k in s.turns ::
      s.turns[k].operationId != operationId && s.turns[k].sourceId != sourceId
  }

  function EnqueueTurn(s: Store, session: string, parent: string, factory: nat -> Result<NewTurn>)
    : Tx<IndexedTurnRecord>
  {
    if session == "" then Tx(s, Err(InvalidArgument)) else
      var row := Touched(s, session, parent);
      match factory(row.next)
      case Err(e) => Tx(s, Err(e))
      case Ok(turn) => InsertTurn(s, session, row, turn)
  }

  function InsertTurn(s: Store, session: string, row: Session, turn: NewTurn)
    : Tx<IndexedTurnRecord>
  {
    var op := turn.operation;
    var slot := Slot(session, row.next);
    if !ValidOperation(op) || turn.sourceId == "" || turn.turnHash == "" then
      Tx(s, Err(InvalidArgument))
    else if Known(s, op.id) then Tx(s, Err(OperationConflict))
    else if slot in s.turns || !UniqueTurn(s, op.id, turn.sourceId) then
      Tx(s, Err(IntegrityViolation))
    else
      Tx(Insert(s, op).(
           sessions := s.sessions[session := row.(next := row.next + 1)],
           turns := s.turns[slot := Turn(op.id, turn.sourceId, turn.turnHash, None)]),
         Ok(IndexedTurnRecord(session, row.next, op.id, turn.sourceId, turn.turnHash, None, true)))
  }

  function IndexTurn(
    s: Store, session: string, sequence: int, operationId: Id, sourceId: string, turnHash: string)
    : Tx<bool>
  {
    if session == "" || operationId == "" || sourceId == "" || turnHash == "" || sequence < 1 then
      Tx(s, Err(InvalidArgument))
    else
      var slot := Slot(session, sequence);
      var row :=
        if session !in s.sessions then Session("", sequence + 1, true, s.clock)
        else
          var prior := s.sessions[session];
          prior.(next := if prior.next < sequence + 1 then sequence + 1 else prior.next,
               updatedAt := s.clock);
      var t := s.(sessions := s.sessions[session := row]);
      if slot in s.turns then
        var turn := s.turns[slot];
        if turn.operationId == operationId && turn.sourceId == sourceId && turn.turnHash == turnHash
        then Tx(t, Ok(false))
        else Tx(s, Err(OperationConflict))
      else if !UniqueTurn(s, operationId, sourceId) then Tx(s, Err(IntegrityViolation))
      else Tx(t.(turns := s.turns[slot := Turn(operationId, sourceId, turnHash, None)]), Ok(true))
  }

  function MarkSessionReconcile(s: Store, session: string, parent: string, required: bool)
    : Tx<()>
  {
    if session == "" then Tx(s, Err(InvalidArgument)) else
      Tx(s.(sessions := s.sessions[session := Touched(s, session, parent).(reconcile := required)]),
         Ok(()))
  }

  // ---------------------------------------------------------------- reading the turn index

  function RecordAt(s: Store, slot: Slot): IndexedTurnRecord
    requires slot in s.turns
  {
    var t := s.turns[slot];
    IndexedTurnRecord(slot.session, slot.sequence, t.operationId, t.sourceId, t.turnHash,
                      t.revision, t.operationId in s.ops)
  }

  /** The indexed turns of a session whose sequence is below a bound, in sequence order. */
  function TurnsBelow(s: Store, session: string, bound: nat): seq<IndexedTurnRecord> {
    if bound == 0 then [] else
      TurnsBelow(s, session, bound - 1)
      + if Slot(session, bound - 1) in s.turns then [RecordAt(s, Slot(session, bound - 1))] else []
  }

  function IndexedTurns(s: Store, session: string): seq<IndexedTurnRecord> {
    if session in s.sessions then TurnsBelow(s, session, s.sessions[session].next) else []
  }

  function RecordTurnRevision(s: Store, id: Id, revision: int): Tx<()> {
    if revision < 1 then Tx(s, Err(InvalidArgument)) else
      Tx(s.(turns := map k | k in s.turns ::
              if s.turns[k].operationId == id then s.turns[k].(revision := Some(revision))
              else s.turns[k]),
         Ok(()))
  }

  /** A turn row of an operation; the UNIQUE constraint allows at most one. */
  ghost predicate IsTurnOf(s: Store, k: Slot, id: Id) {
    k in s.turns && s.turns[k].operationId == id
  }

  ghost predicate HasTurn(s: Store, id: Id) {
    exists k :: IsTurnOf(s, k, id)
  }

  /** turn_revision: the recorded revision of the turn an operation captured. */
  ghost function TurnRevision(s: Store, id: Id): Option<nat> {
    if HasTurn(s, id) then
      var k :| IsTurnOf(s, k, id);
      s.turns[k].revision
    else None
  }

  // ---------------------------------------------------------------- claiming

  predicate Claimable(s: Store, id: Id, cutoff: nat) {
    && id in s.ops
    && Mutable(s.ops[id].state)
    && s.ops[id].updatedAt < cutoff
    && (s.ops[id].claim.None? || s.ops[id].claim.value.leaseEnds <= s.clock)
    && Satisfied(s.history, s.ops[id].what.dependsOn)
  }

  function PlaceOf(s: Store, id: Id): Place
    requires id in s.ops
  {
    Place(s.ops[id].createdAt, id)
  }

  function ClaimablePlaces(s: Store, cutoff: nat): set<Place> {
    set id | id in s.ops && Claimable(s, id, cutoff) :: PlaceOf(s, id)
  }

  /** The SELECT of claim_page: ids of the earliest claimable rows, in replay order. */
  function Candidates(s: Store, cutoff: nat, pageSize: nat): (ids: seq<Id>)
    ensures forall i | 0 <= i < |ids| :: ids[i] in s.ops
  {
    SelectExact(ClaimablePlaces(s, cutoff), pageSize);
    var places := Select(ClaimablePlaces(s, cutoff), pageSize);
    seq(|places|, i requires 0 <= i < |places| => places[i].id)
  }

  /** One guarded UPDATE of claim_page with a fresh token. */
  function ClaimRow(s: Store, id: Id, worker: string, lease: nat): Store
    requires id in s.ops
  {
    var row := s.ops[id];
    if row.claim.None? || row.claim.value.leaseEnds <= s.clock then
      s.(ops := s.ops[id := row.(claim := Some(Claim(s.nextToken, worker, s.clock + lease)),
                                 attempts := row.attempts + 1, updatedAt := s.clock)],
         nextToken := s.nextToken + 1)
    else s.(nextToken := s.nextToken + 1)
  }

  /** The claim handed to the worker, built from the row read before the UPDATE. */
  function ClaimFrom(s: Store, id: Id, worker: string, lease: nat): ClaimedOperation
    requires id in s.ops
  {
    var row := s.ops[id];
    ClaimedOperation(id, row.what, row.state, row.createdAt, s.clock, row.attempts + 1,
                     row.lastStatus, row.lastError, s.nextToken, worker, s.clock + lease)
  }

  predicate Free(s: Store, id: Id)
    requires id in s.ops
  {
    s.ops[id].claim.None? || s.ops[id].claim.value.leaseEnds <= s.clock
  }

  /** The loop of claim_page over the selected rows, appending to its list of claims. */
  function ClaimRows(s: Store, ids: seq<Id>, worker: string, lease: nat)
    : (r: (Store, seq<ClaimedOperation>))
    requires forall i | 0 <= i < |ids| :: ids[i] in s.ops
    ensures r.0.ops.Keys == s.ops.Keys
    ensures r.0 == s.(ops := r.0.ops, nextToken := r.0.nextToken)
    decreases |ids|
  {
    if ids == [] then (s, []) else
      var id := ids[|ids| - 1];
      var (m, claims) := ClaimRows(s, ids[..|ids| - 1], worker, lease);
      (ClaimRow(m, id, worker, lease),
       claims + if Free(m, id) then [ClaimFrom(m, id, worker, lease)] else [])
  }

  function ClaimPage(
    s: Store, worker: string, pageSize: int, lease: Option<int>, cutoff: Option<nat>)
    : Tx<seq<ClaimedOperation>>
  {
    var duration := if lease.Some? then lease.value else DEFAULT_LEASE;
    if worker == "" || pageSize < 1 || duration <= 0 then Tx(s, Err(InvalidArgument)) else
      var limit := if cutoff.Some? then cutoff.value else s.clock + HORIZON;
      var r := ClaimRows(s, Candidates(s, limit, pageSize), worker, duration);
      Tx(r.0, Ok(r.1))
  }

  // ---------------------------------------------------------------- what a holder can do

  function RenewClaim(s: Store, id: Id, token: nat, lease: Option<int>): Tx<nat> {
    var duration := if lease.Some? then lease.value else DEFAULT_LEASE;
    if duration <= 0 then Tx(s, Err(InvalidArgument))
    else if !Holds(s, id, token) then Tx(s, Err(ClaimLost))
    else
      var row := s.ops[id];
      var ends := s.clock + duration;
      Tx(s.(ops := s.ops[id := row.(claim := Some(row.claim.value.(leaseEnds := ends)),
                                    updatedAt := s.clock)]),
         Ok(ends))
  }

  function Archived(row: Row, outcome: Outcome, now: nat, replacement: Option<Id>,
                    status: Option<int>, error: Option<string>): Entry
  {
    Entry(row.what, outcome, row.attempts, now, replacement, status, error)
  }

  function Archive(s: Store, id: Id, token: nat, outcome: Outcome, result: AttemptResult): Tx<()> {
    if !Holds(s, id, token) then Tx(s, Err(ClaimLost))
    else if id in s.history then Tx(s, Err(IntegrityViolation))
    else
      Tx(s.(ops := s.ops - {id},
            history := s.history[id := Archived(s.ops[id], outcome, s.clock, None,
                                                result.status, result.error)]),
         Ok(()))
  }

  function StateAfter(action: Action): State
    requires action !in {Succeed, DropObsolete, Supersede}
  {
    match action
    case Retry => Pending
    case BlockAuth => BlockedAuth
    case Bury => DeadLetter
    case Recover => PendingRecovery
    case Reconcile => ReconcileRevision
  }

  function ApplyResult(s: Store, id: Id, token: nat, result: AttemptResult): Tx<()> {
    match result.action
    case Supersede => Tx(s, Ok(()))
    case Succeed => Archive(s, id, token, if result.replayed then Replayed else Succeeded, result)
    case DropObsolete => Archive(s, id, token, Obsolete, result)
    case _ =>
      if !Holds(s, id, token) then Tx(s, Err(ClaimLost)) else
        Tx(s.(ops := s.ops[id := s.ops[id].(
                state := StateAfter(result.action), updatedAt := s.clock,
                lastStatus := result.status, lastError := result.error, claim := None)]),
           Ok(()))
  }

  function SupersedeWith(s: Store, id: Id, token: nat, replacement: NewOperation): Tx<()> {
    if !ValidOperation(replacement) || replacement.id == id then Tx(s, Err(InvalidArgument))
    else if !Holds(s, id, token) then Tx(s, Err(ClaimLost))
    else if Known(s, replacement.id) then Tx(s, Err(OperationConflict))
    else if id in s.history then Tx(s, Err(IntegrityViolation))
    else
      var row := s.ops[id];
      Tx(s.(ops := s.ops[replacement.id := NewRow(replacement.what, s.clock)] - {id},
            history := s.history[id := Archived(row, Superseded, s.clock, Some(replacement.id),
                                                row.lastStatus, row.lastError)]),
         Ok(()))
  }

  /** One UPDATE of _release_unattempted. */
  function ReleaseRow(s: Store, id: Id, token: nat): Store {
    if !Holds(s, id, token) then s else
      var row := s.ops[id];
      s.(ops := s.ops[id := row.(attempts := row.attempts - 1, updatedAt := s.clock, claim := None)])
  }

  function ReleaseRows(s: Store, claims: seq<ClaimedOperation>): Store
    decreases |claims|
  {
    if claims == [] then s
    else ReleaseRows(ReleaseRow(s, claims[0].id, claims[0].token), claims[1..])
  }

  function UnblockRow(s: Store, row: Row): Row {
    if row.state.BlockedAuth? then row.(state := Pending, updatedAt := s.clock, lastError := None)
    else row
  }

  function UnblockAuth(s: Store): Tx<nat> {
    Tx(s.(ops := map id | id in s.ops :: UnblockRow(s, s.ops[id])),
       Ok(|set id | id in s.ops && s.ops[id].state.BlockedAuth?|))
  }

  // ---------------------------------------------------------------- counts

  datatype Snapshot = Snapshot(
    total: nat, byState: map<State, nat>, activeClaims: nat, expiredClaims: nat,
    dependencyBlocked: nat)

  function InState(s: Store, state: State): set<Id> {
    set id | id in s.ops && s.ops[id].state == state
  }

  function TakeSnapshot(s: Store): Snapshot {
    var byState := map state | state in {Pending, PendingRecovery, BlockedAuth, DeadLetter, ReconcileRevision}
                               && InState(s, state) != {} :: |InState(s, state)|;
    Snapshot(
      |InState(s, Pending)| + |InState(s, PendingRecovery)| + |InState(s, BlockedAuth)|
      + |InState(s, DeadLetter)| + |InState(s, ReconcileRevision)|,
      byState,
      |set id | id in s.ops && s.ops[id].claim.Some? && s.ops[id].claim.value.leaseEnds > s.clock|,
      |set id | id in s.ops && s.ops[id].claim.Some? && s.ops[id].claim.value.leaseEnds <= s.clock|,
      |set id | id in s.ops && !Satisfied(s.history, s.ops[id].what.dependsOn)|)
  }

  // ---------------------------------------------------------------- runs

  /** Everything that can happen to the store: one transaction of some worker, or time passing. */
  datatype Command =
    | DoEnqueue(op: NewOperation)
    | DoReserve(session: string, parent: string)
    | DoEnqueueTurn(session: string, parent: string, factory: nat -> Result<NewTurn>)
    | DoIndexTurn(session: string, sequence: int, operationId: Id, sourceId: string,
                  turnHash: string)
    | DoMark(session: string, parent: string, required: bool)
    | DoRecordRevision(id: Id, revision: int)
    | DoClaimPage(worker: string, pageSize: int, lease: Option<int>, cutoff: Option<nat>)
    | DoRenew(id: Id, token: nat, lease: Option<int>)
    | DoApply(id: Id, token: nat, result: AttemptResult)
    | DoSupersede(id: Id, token: nat, replacement: NewOperation)
    | DoRelease(claims: seq<ClaimedOperation>)
    | DoUnblockAuth
    | DoTick(duration: nat)

  function Step(s: Store, c: Command): Store {
    match c
    case DoEnqueue(op) => Enqueue(s, op).store
    case DoReserve(session, parent) => ReserveSequence(s, session, parent).store
    case DoEnqueueTurn(session, parent, factory) => EnqueueTurn(s, session, parent, factory).store
    case DoIndexTurn(session, sequence, operationId, sourceId, turnHash) =>
      IndexTurn(s, session, sequence, operationId, sourceId, turnHash).store
    case DoMark(session, parent, required) => MarkSessionReconcile(s, session, parent, required).store
    case DoRecordRevision(id, revision) => RecordTurnRevision(s, id, revision).store
    case DoClaimPage(worker, pageSize, lease, cutoff) =>
      ClaimPage(s, worker, pageSize, lease, cutoff).store
    case DoRenew(id, token, lease) => RenewClaim(s, id, token, lease).store
    case DoApply(id, token, result) => ApplyResult(s, id, token, result).store
    case DoSupersede(id, token, replacement) => SupersedeWith(s, id, token, replacement).store
    case DoRelease(claims) => ReleaseRows(s, claims)
    case DoUnblockAuth => UnblockAuth(s).store
    case DoTick(duration) => s.(clock := s.clock + duration)
  }

  function Run(s: Store, commands: seq<Command>): Store
    decreases |commands|
  {
    if commands == [] then s else Run(Step(s, commands[0]), commands[1..])
  }

  lemma {:induction false} RunAppend(s: Store, first: seq<Command>, second: seq<Command>)
    ensures Run(s, first + second) == Run(Run(s, first), second)
    decreases |first|
  {
    if first == [] {
      assert first + second == second;
    } else {
      assert (first + second)[1..] == first[1..] + second;
      RunAppend(Step(s, first[0]), first[1..], second);
    }
  }
}
