/**
 What each answer of the server makes of an operation, spelled out: the results of one call of the
 executor, and where they lead, to unblock_auth for a refused credential and to a preview and a
 replacement at the current revision for a correction that came too late.
 */
module Answers {
  import opened Wrappers
  import opened Ordering
  import opened Requests
  import opened Outbox
  import opened OutboxInvariant
  import opened OutboxRuns
  import Flush
  import opened Capture
  import opened Executor

  // ---------------------------------------------------------------- an exchange

  /** What a refusal asks for, by status and code. */
  predicate RefusalAsks(correction: bool, status: int, code: string, action: Action) {
    && (status == 401 || status == 403 ==> action == BlockAuth)
    && (status == 429 || status >= 500 ==> action == Retry)
    && (status == 404 ==> action == if correction then DropObsolete else Bury)
    && (status == 409 ==>
          && (code == "idempotency_lock_held" ==> action == Retry)
          && (code == "idempotency_interrupted_pending" ==> action == Recover)
          && (code == "revision_conflict" ==> action == Reconcile)
          && (code !in {"idempotency_lock_held", "idempotency_interrupted_pending", "revision_conflict"} ==>
                action == Bury))
    && (status < 500 && status !in {401, 403, 404, 409, 429} ==> action == Bury)
  }

  /** A response that is no success, and the result it becomes. */
  predicate Failed(correction: bool, response: Response, result: AttemptResult) {
    match response
    case Refused(status, code) =>
      RefusalAsks(correction, status, code, result.action)
      && result.status == Some(status) && result.error == Some(code) && !result.replayed
    case Lost(error) => result == AttemptResult(Retry, None, Some(error), false)
    case Garbled(status) => result == AttemptResult(Bury, Some(status), Some(BROKEN), false)
    case Accepted(_, _) => result == AttemptResult(Bury, Some(200), Some(BROKEN), false)
  }

  const BROKEN := "invalid Sibyl response contract"

  /** A receipt under the operation's key, and for a capture a revision to record. */
  predicate Confirms(response: Response, key: string, capture: bool) {
    response.Accepted? && response.receipt.Some? && response.receipt.value.key == Some(key)
    && (capture ==> response.revision >= 1)
  }

  /** What a call leaves and returns when it sent its request and was answered so. */
  ghost predicate Answered(s: Store, op: ClaimedOperation, capture: bool, response: Response,
                           end: (Store, AttemptResult))
  {
    if Confirms(response, op.what.key, capture) then
      end == (if capture then RecordTurnRevision(s, op.id, response.revision).store else s,
              AttemptResult(Succeed, Some(200), None, response.receipt.value.replayed))
    else
      end.0 == s && Failed(EndsWith(op.what.endpoint, "/corrections"), response, end.1)
  }

  lemma ReplyAnswered(s: Store, op: ClaimedOperation, response: Response)
    ensures Answered(s, op, RouteOf(op.what).ToRaw?, response, Follow(s, op, AfterReply(op.what, response)))
  {
  }

  /** A capture sends its stored body to memory/raw under its key. */
  lemma CaptureAnswered(s: Store, sha: string -> string, client: Client, op: ClaimedOperation)
    requires EndsWith(op.what.endpoint, "/memory/raw") && op.what.request.RawMemory?
    ensures Answered(s, op, true, client.exchange(op.what.key, Outgoing("memory/raw", op.what.request)),
                     Execute(s, sha, client, op))
  {
    ReplyAnswered(s, op, client.exchange(op.what.key, Outgoing("memory/raw", op.what.request)));
  }

  /** An exposure report sends its stored body to memory/expose. */
  lemma ExposureAnswered(s: Store, sha: string -> string, client: Client, op: ClaimedOperation)
    requires !EndsWith(op.what.endpoint, "/memory/raw") && op.what.kind == "context_exposure"
    requires op.what.request.Exposure?
    ensures Answered(s, op, false, client.exchange(op.what.key, Outgoing("memory/expose", op.what.request)),
                     Execute(s, sha, client, op))
  {
    ReplyAnswered(s, op, client.exchange(op.what.key, Outgoing("memory/expose", op.what.request)));
  }

  /** A correction of `sourceId`, and the revision it is sent with, if there is one or none is needed. */
  ghost predicate Corrects(s: Store, op: ClaimedOperation, sourceId: string, guarded: CorrectionRequest) {
    && op.what.kind != "context_exposure" && op.what.request.Correction?
    && op.what.endpoint == CorrectionEndpoint(sourceId) && IsBytes(sourceId) && sourceId != ""
    && var request := op.what.request.correction;
       guarded == request.(expectedRevision := guarded.expectedRevision)
       && (if request.expectedRevision.Some? || op.what.dependsOn.None? then
             guarded.expectedRevision == request.expectedRevision
           else
             guarded.expectedRevision.Some? && guarded.expectedRevision == TurnRevision(s, op.what.dependsOn.value))
  }

  lemma CorrectionRoute(op: ClaimedOperation, sourceId: string)
    requires op.what.kind != "context_exposure" && op.what.endpoint == CorrectionEndpoint(sourceId)
    requires IsBytes(sourceId)
    ensures RouteOf(op.what) == ToCorrection && CorrectionSourceId(op.what.endpoint) == Ok(sourceId)
    ensures EndsWith(op.what.endpoint, "/corrections")
  {
    CorrectionEndpointRoundTrip(sourceId);
  }

  lemma CorrectionVia(s: Store, op: ClaimedOperation, sourceId: string, guarded: CorrectionRequest)
    requires Corrects(s, op, sourceId, guarded)
    ensures PlanVia(s, op, ToCorrection, Ok(sourceId))
         == if op.state.ReconcileRevision? then AskFirst(sourceId, guarded)
            else Send(Outgoing("memory/inspect/" + Quote(sourceId) + "/corrections", Correction(guarded)))
  {
    assert CorrectionPath(sourceId) == "memory/inspect/" + Quote(sourceId) + "/corrections";
  }

  lemma CorrectionPlan(s: Store, op: ClaimedOperation, sourceId: string, guarded: CorrectionRequest)
    requires Corrects(s, op, sourceId, guarded)
    ensures RouteOf(op.what).ToCorrection? && EndsWith(op.what.endpoint, "/corrections")
    ensures PlanFor(s, op)
         == if op.state.ReconcileRevision? then AskFirst(sourceId, guarded)
            else Send(Outgoing("memory/inspect/" + Quote(sourceId) + "/corrections", Correction(guarded)))
  {
    CorrectionRoute(op, sourceId);
    CorrectionVia(s, op, sourceId, guarded);
  }

  /** A correction sends its body with the revision of the write it depends on filled in. */
  lemma CorrectionAnswered(s: Store, sha: string -> string, client: Client, op: ClaimedOperation, sourceId: string,
                           guarded: CorrectionRequest)
    requires Corrects(s, op, sourceId, guarded) && !op.state.ReconcileRevision?
    ensures
      var out := Outgoing("memory/inspect/" + Quote(sourceId) + "/corrections", Correction(guarded));
      Answered(s, op, false, client.exchange(op.what.key, out), Execute(s, sha, client, op))
  {
    CorrectionPlan(s, op, sourceId, guarded);
    var out := Outgoing("memory/inspect/" + Quote(sourceId) + "/corrections", Correction(guarded));
    ReplyAnswered(s, op, client.exchange(op.what.key, out));
  }

  /** A call that sends nothing and changes nothing. */
  ghost predicate Unsent(s: Store, sha: string -> string, client: Client, op: ClaimedOperation, action: Action,
                         error: string)
  {
    Execute(s, sha, client, op) == (s, AttemptResult(action, None, Some(error), false))
  }

  /** A correction waits for the revision of the write it depends on. */
  lemma NoRevisionYet(s: Store, sha: string -> string, client: Client, op: ClaimedOperation, sourceId: string)
    requires op.what.kind != "context_exposure" && op.what.endpoint == CorrectionEndpoint(sourceId)
    requires IsBytes(sourceId) && op.what.request.Correction?
    requires op.what.request.correction.expectedRevision.None? && op.what.dependsOn.Some?
    requires TurnRevision(s, op.what.dependsOn.value).None?
    ensures Unsent(s, sha, client, op, Retry, "source dependency revision is not available")
  {
    CorrectionRoute(op, sourceId);
  }

  /** What the executor has no branch for is buried; a body that does not fit its branch is a retry. */
  lemma Misfits(s: Store, sha: string -> string, client: Client, op: ClaimedOperation)
    ensures
      var raw, exposure := EndsWith(op.what.endpoint, "/memory/raw"), op.what.kind == "context_exposure";
      && (!raw && !exposure && !EndsWith(op.what.endpoint, "/corrections") ==>
            Unsent(s, sha, client, op, Bury, "unsupported outbox operation"))
      && (raw && !op.what.request.RawMemory? ==> Unsent(s, sha, client, op, Retry, "KeyError"))
      && (!raw && exposure && !op.what.request.Exposure? ==> Unsent(s, sha, client, op, Retry, "KeyError"))
      && (!raw && !exposure && EndsWith(op.what.endpoint, "/corrections")
          && !StartsWith(op.what.endpoint, "/api/memory/inspect/")
          ==> Unsent(s, sha, client, op, Retry, "ValueError"))
  {
  }

  // ---------------------------------------------------------------- a preview

  /** The correction that takes over at `revision`. */
  function AtRevision(sha: string -> string, op: ClaimedOperation, request: CorrectionRequest, revision: nat)
    : NewOperation
  {
    var id := sha(op.id + [NUL] + (Decimal(revision) + [NUL] + request.action));
    var now := request.(expectedRevision := Some(revision),
                        metadata := request.metadata["provider_operation_id" := id]);
    NewOperation(id, Mutation(op.what.dependsOn, op.what.kind, op.what.endpoint, Correction(now),
                              "hermes-correction-" + id, "POST"))
  }

  /** supersede accepts the replacement. */
  predicate Accepts(s: Store, op: ClaimedOperation, replacement: NewOperation) {
    && ValidOperation(replacement) && replacement.id != op.id && !Known(s, replacement.id)
    && Holds(s, op.id, op.token) && op.id !in s.history
  }

  /** The operation is archived as superseded by the replacement, which is queued in its stead. */
  ghost predicate Superseded(s: Store, t: Store, op: ClaimedOperation, replacement: NewOperation)
    requires op.id in s.ops
  {
    && op.id !in t.ops && op.id in t.history
    && t.history[op.id].outcome == Outcome.Superseded && t.history[op.id].replacement == Some(replacement.id)
    && t.history[op.id].what == s.ops[op.id].what && t.history[op.id].attempts == s.ops[op.id].attempts
    && t.history[op.id].lastStatus == s.ops[op.id].lastStatus
    && t.history[op.id].lastError == s.ops[op.id].lastError
    && replacement.id in t.ops && t.ops[replacement.id].what == replacement.what
    && t.ops[replacement.id].state.Pending? && t.ops[replacement.id].claim.None?
    && t.ops[replacement.id].attempts == 0 && t.ops[replacement.id].createdAt == s.clock
  }

  /** What the preview of a correction makes of the call: `now` is the current revision, or else the revision. */
  ghost predicate Previewed(s: Store, sha: string -> string, op: ClaimedOperation, request: CorrectionRequest,
                            reply: PreviewReply, end: (Store, AttemptResult))
  {
    match reply
    case PreviewFailed(failure) => end.0 == s && Failed(true, failure, end.1)
    case Preview(erased, satisfied, allowed, current, revision) =>
      && (erased || satisfied ==> end == (s, AttemptResult(DropObsolete, Some(200), None, false)))
      && (!erased && !satisfied && !allowed ==> end == (s, AttemptResult(Bury, Some(200), Some(DENIED), false)))
      && (!erased && !satisfied && allowed ==>
            && (current.Some? ==> Replaced(s, op, AtRevision(sha, op, request, current.value), end))
            && (current.None? && revision.Some? ==> Replaced(s, op, AtRevision(sha, op, request, revision.value), end))
            && (current.None? && revision.None? ==>
                  end == (s, AttemptResult(Bury, None, Some(NO_REVISION), false))))
  }

  const DENIED := "correction preview denied during revision reconciliation"
  const NO_REVISION := "correction preview omitted current revision"

  ghost predicate Replaced(s: Store, op: ClaimedOperation, replacement: NewOperation, end: (Store, AttemptResult)) {
    if Accepts(s, op, replacement) then
      Superseded(s, end.0, op, replacement) && end.1 == AttemptResult(Supersede, Some(200), None, false)
    else
      end == (s, AttemptResult(Retry, None, Some("OutboxError"), false))
  }

  lemma SameReplacement(sha: string -> string, op: ClaimedOperation, request: CorrectionRequest, revision: nat)
    ensures ReplacementFor(sha, op, request, revision) == AtRevision(sha, op, request, revision)
  {
    JoinThree(op.id, Decimal(revision), request.action, NUL);
  }

  lemma SupersedeReplaces(s: Store, op: ClaimedOperation, replacement: NewOperation)
    requires replacement.what.httpMethod == "POST"
    ensures Replaced(s, op, replacement, Follow(s, op, Supersedes(replacement)))
  {
    PostIsUpper();
  }

  lemma ReplyPreviewed(s: Store, sha: string -> string, op: ClaimedOperation, request: CorrectionRequest,
                       reply: PreviewReply)
    requires EndsWith(op.what.endpoint, "/corrections")
    ensures Previewed(s, sha, op, request, reply, Follow(s, op, AfterPreview(sha, op, request, reply)))
  {
    if reply.Preview? && !reply.erased && !reply.satisfied && reply.allowed
       && (reply.current.Some? || reply.revision.Some?) {
      var now := if reply.current.Some? then reply.current.value else reply.revision.value;
      SameReplacement(sha, op, request, now);
      SupersedeReplaces(s, op, AtRevision(sha, op, request, now));
    }
  }

  /** A correction up for revision is previewed first, and replaced at the revision the preview reports. */
  lemma CorrectionPreviewed(s: Store, sha: string -> string, client: Client, op: ClaimedOperation, sourceId: string,
                            guarded: CorrectionRequest)
    requires Corrects(s, op, sourceId, guarded) && op.state.ReconcileRevision?
    ensures Previewed(s, sha, op, guarded, client.preview(sourceId, guarded), Execute(s, sha, client, op))
  {
    CorrectionPlan(s, op, sourceId, guarded);
    ReplyPreviewed(s, sha, op, guarded, client.preview(sourceId, guarded));
  }

  // ---------------------------------------------------------------- a refused credential

  lemma {:induction false} ReleaseLeaves(s: Store, claims: seq<ClaimedOperation>, id: Id)
    requires id in s.ops && s.ops[id].claim.None?
    ensures id in ReleaseRows(s, claims).ops && ReleaseRows(s, claims).ops[id] == s.ops[id]
    decreases |claims|
  {
    if claims != [] {
      ReleaseLeaves(ReleaseRow(s, claims[0].id, claims[0].token), claims[1..], id);
    }
  }

  lemma ClaimLeaves(s: Store, worker: string, pageSize: int, lease: Option<int>, cutoff: Option<nat>, id: Id)
    requires id in s.ops && !Mutable(s.ops[id].state)
    ensures
      var t := ClaimPage(s, worker, pageSize, lease, cutoff).store;
      id in t.ops && t.ops[id] == s.ops[id]
  {
    if ClaimPage(s, worker, pageSize, lease, cutoff).result.Ok? {
      var ids := ClaimPageExact(s, worker, pageSize, lease, cutoff);
      assert Elsewhere(ids, id);
    }
  }

  /** A row nobody holds is left alone, by a claim if it is blocked, and by unblock_auth if it is not. */
  lemma FreeRowStays(s: Store, c: Command, id: Id)
    requires Inv(s) && id in s.ops && s.ops[id].claim.None?
    requires c.DoClaimPage? ==> s.ops[id].state.BlockedAuth?
    requires c.DoUnblockAuth? ==> !s.ops[id].state.BlockedAuth?
    ensures id in Step(s, c).ops && Step(s, c).ops[id] == s.ops[id]
  {
    match c
    case DoClaimPage(worker, pageSize, lease, cutoff) => ClaimLeaves(s, worker, pageSize, lease, cutoff, id);
    case DoRelease(claims) => ReleaseLeaves(s, claims, id);
    case DoUnblockAuth =>
    case _ => RowUntouched(s, c, id);
  }

  lemma {:induction false} FreeRowStaysOn(s: Store, commands: seq<Command>, id: Id)
    requires Inv(s) && id in s.ops && s.ops[id].claim.None?
    requires forall i | 0 <= i < |commands| ::
               && (commands[i].DoClaimPage? ==> s.ops[id].state.BlockedAuth?)
               && (commands[i].DoUnblockAuth? ==> !s.ops[id].state.BlockedAuth?)
    ensures id in Run(s, commands).ops && Run(s, commands).ops[id] == s.ops[id]
    decreases |commands|
  {
    if commands != [] {
      FreeRowStays(s, commands[0], id);
      StepKeeps(s, commands[0]);
      FreeRowStaysOn(Step(s, commands[0]), commands[1..], id);
    }
  }

  /** The operation is queued as it was, held by nobody, with its dependency met, in the given state. */
  ghost predicate LeftAs(s: Store, t: Store, id: Id, state: State)
    requires id in s.ops
  {
    && id in t.ops && t.ops[id].claim.None? && t.ops[id].what == s.ops[id].what && t.ops[id].state == state
    && t.ops[id].updatedAt <= t.clock && Satisfied(t.history, s.ops[id].what.dependsOn)
  }

  lemma ResultOnRow(s: Store, op: ClaimedOperation, result: AttemptResult)
    requires Holds(s, op.id, op.token) && RowOk(s, op.id, s.ops[op.id])
    ensures
      var t := ApplyResult(s, op.id, op.token, result).store;
      && (result.action.BlockAuth? ==> LeftAs(s, t, op.id, BlockedAuth))
      && (result.action.Reconcile? ==> LeftAs(s, t, op.id, ReconcileRevision))
  {
  }

  /** Until a claim, or unblock_auth if it is blocked, a row left so stays so. */
  lemma LeftStays(s: Store, t: Store, commands: seq<Command>, id: Id, state: State)
    requires id in s.ops && Inv(t) && LeftAs(s, t, id, state)
    requires forall i | 0 <= i < |commands| ::
               && (commands[i].DoClaimPage? ==> state.BlockedAuth?)
               && (commands[i].DoUnblockAuth? ==> !state.BlockedAuth?)
    ensures
      var u := Run(t, commands);
      Inv(u) && Evolves(t, u) && LeftAs(s, u, id, state) && u.ops[id] == t.ops[id]
  {
    FreeRowStaysOn(t, commands, id);
    RunKeeps(t, commands);
    MetStays(t, Run(t, commands), s.ops[id].what.dependsOn);
  }

  lemma MetStays(t: Store, u: Store, dependsOn: Option<Id>)
    requires OpsEvolve(t, u) && Satisfied(t.history, dependsOn)
    ensures Satisfied(u.history, dependsOn) && t.clock <= u.clock
  {
  }

  lemma LeftIsReady(s: Store, u: Store, id: Id, state: State)
    requires id in s.ops && LeftAs(s, u, id, state)
    ensures Mutable(state) ==> Ready(u, id)
    ensures state.BlockedAuth? ==> (forall cutoff :: !Claimable(u, id, cutoff)) && Ready(UnblockAuth(u).store, id)
  {
  }

  /**
   Refused with 401 or 403, an operation is blocked: whatever is done with the outbox but unblock_auth,
   its row stays as it is and no claim can select it; unblock_auth makes it ready at once.
   */
  lemma RefusedWaits(s: Store, op: ClaimedOperation, capture: bool, response: Response,
                     end: (Store, AttemptResult), commands: seq<Command>)
    requires Inv(s) && Holds(s, op.id, op.token) && Answered(s, op, capture, response, end)
    requires response.Refused? && response.status in {401, 403}
    requires forall i | 0 <= i < |commands| :: !commands[i].DoUnblockAuth?
    ensures
      var t := ApplyResult(end.0, op.id, op.token, end.1).store;
      var u := Run(t, commands);
      && op.id in t.ops && op.id in u.ops && u.ops[op.id] == t.ops[op.id]
      && (forall cutoff :: !Claimable(u, op.id, cutoff)) && Ready(UnblockAuth(u).store, op.id)
  {
    var t := ApplyResult(end.0, op.id, op.token, end.1).store;
    RefusedLeaves(s, op, capture, response, end);
    LeftStays(s, t, commands, op.id, BlockedAuth);
    LeftIsReady(s, Run(t, commands), op.id, BlockedAuth);
  }

  /** The row and the tables right after the refusal was applied. */
  lemma RefusedLeaves(s: Store, op: ClaimedOperation, capture: bool, response: Response, end: (Store, AttemptResult))
    requires Inv(s) && Holds(s, op.id, op.token) && Answered(s, op, capture, response, end) && response.Refused?
    ensures
      var t := ApplyResult(end.0, op.id, op.token, end.1).store;
      && Inv(t) && Evolves(s, t)
      && (response.status in {401, 403} ==> LeftAs(s, t, op.id, BlockedAuth))
      && (response.status == 409 && response.code == "revision_conflict" ==> LeftAs(s, t, op.id, ReconcileRevision))
  {
    RefusedAction(s, op, capture, response, end);
    Flush.ApplyIsStep(s, op.id, op.token, end.1);
    ResultOnRow(s, op, end.1);
  }

  lemma RefusedAction(s: Store, op: ClaimedOperation, capture: bool, response: Response, end: (Store, AttemptResult))
    requires Answered(s, op, capture, response, end) && response.Refused?
    ensures end.0 == s && (response.status in {401, 403} ==> end.1.action.BlockAuth?)
    ensures response.status == 409 && response.code == "revision_conflict" ==> end.1.action.Reconcile?
  {
  }

  /** So a capture refused for its credential. */
  lemma CaptureRefusedWaits(s: Store, sha: string -> string, client: Client, op: ClaimedOperation,
                            commands: seq<Command>)
    requires Inv(s) && Holds(s, op.id, op.token)
    requires EndsWith(op.what.endpoint, "/memory/raw") && op.what.request.RawMemory?
    requires
      var response := client.exchange(op.what.key, Outgoing("memory/raw", op.what.request));
      response.Refused? && response.status in {401, 403}
    requires forall i | 0 <= i < |commands| :: !commands[i].DoUnblockAuth?
    ensures
      var end := Execute(s, sha, client, op);
      var u := Run(ApplyResult(end.0, op.id, op.token, end.1).store, commands);
      (forall cutoff :: !Claimable(u, op.id, cutoff)) && Ready(UnblockAuth(u).store, op.id)
  {
    CaptureAnswered(s, sha, client, op);
    RefusedWaits(s, op, true, client.exchange(op.what.key, Outgoing("memory/raw", op.what.request)),
                 Execute(s, sha, client, op), commands);
  }

  // ---------------------------------------------------------------- a correction that came too late

  lemma RevisionStillThere(s: Store, t: Store, id: Id)
    requires IndexInv(s) && IndexInv(t) && IndexEvolve(s, t) && TurnRevision(s, id).Some?
    ensures TurnRevision(t, id).Some?
  {
    var k :| IsTurnOf(s, k, id);
    TurnRevisionAt(s, k, id);
    assert TurnKept(s.turns[k], k, t) && IsTurnOf(t, k, id);
    TurnRevisionAt(t, k, id);
  }

  /** A correction that can be sent can be sent in every later store. */
  lemma CorrectsStill(s: Store, t: Store, op: ClaimedOperation, later: ClaimedOperation, sourceId: string,
                      guarded: CorrectionRequest) returns (again: CorrectionRequest)
    requires Inv(s) && Inv(t) && Evolves(s, t) && Corrects(s, op, sourceId, guarded) && later.what == op.what
    ensures Corrects(t, later, sourceId, again)
    ensures again == op.what.request.correction.(expectedRevision := again.expectedRevision)
  {
    again := guarded;
    var request := op.what.request.correction;
    if request.expectedRevision.None? && op.what.dependsOn.Some? {
      RevisionStillThere(s, t, op.what.dependsOn.value);
      again := request.(expectedRevision := TurnRevision(t, op.what.dependsOn.value));
    }
  }

  lemma ClaimedAsStored(s: Store, worker: string, pageSize: int, lease: Option<int>, cutoff: Option<nat>, i: nat)
    requires ClaimPage(s, worker, pageSize, lease, cutoff).result.Ok?
    requires i < |ClaimPage(s, worker, pageSize, lease, cutoff).result.value|
    ensures
      var c := ClaimPage(s, worker, pageSize, lease, cutoff).result.value[i];
      c.id in s.ops && c.state == s.ops[c.id].state && c.what == s.ops[c.id].what
  {
    var ids := ClaimPageExact(s, worker, pageSize, lease, cutoff);
    var c := ClaimPage(s, worker, pageSize, lease, cutoff).result.value[i];
    assert ClaimIssued(s, c, ids[i], s.nextToken + i, worker, if lease.Some? then lease.value else DEFAULT_LEASE);
  }

  /** A correction refused with revision_conflict is ready again, up for revision, until it is next claimed. */
  lemma ConflictIsUpForRevision(s: Store, op: ClaimedOperation, response: Response, end: (Store, AttemptResult),
                                commands: seq<Command>)
    requires Inv(s) && Holds(s, op.id, op.token) && Answered(s, op, false, response, end)
    requires response.Refused? && response.status == 409 && response.code == "revision_conflict"
    requires forall i | 0 <= i < |commands| :: !commands[i].DoClaimPage?
    ensures
      var u := Run(ApplyResult(end.0, op.id, op.token, end.1).store, commands);
      && Inv(u) && Evolves(s, u) && Ready(u, op.id)
      && u.ops[op.id].state.ReconcileRevision? && u.ops[op.id].what == s.ops[op.id].what
  {
    var t := ApplyResult(end.0, op.id, op.token, end.1).store;
    RefusedLeaves(s, op, false, response, end);
    LeftStays(s, t, commands, op.id, ReconcileRevision);
    LeftIsReady(s, Run(t, commands), op.id, ReconcileRevision);
    EvolvesTransitive(s, t, Run(t, commands));
  }

  /**
   The next claim of a correction refused with revision_conflict, by any worker after any transactions,
   asks for a preview before it sends anything, and goes on as the preview says.
   */
  lemma ConflictAsksFirst(s: Store, sha: string -> string, client: Client, op: ClaimedOperation, sourceId: string,
                          guarded: CorrectionRequest, commands: seq<Command>, worker: string, pageSize: int,
                          lease: Option<int>, cutoff: Option<nat>, i: nat, next: Client)
    returns (request: CorrectionRequest)
    requires Inv(s) && Holds(s, op.id, op.token) && s.ops[op.id].what == op.what
    requires Corrects(s, op, sourceId, guarded) && !op.state.ReconcileRevision?
    requires client.exchange(op.what.key,
                             Outgoing("memory/inspect/" + Quote(sourceId) + "/corrections", Correction(guarded)))
          == Refused(409, "revision_conflict")
    requires forall i | 0 <= i < |commands| :: !commands[i].DoClaimPage?
    requires
      var end := Execute(s, sha, client, op);
      var r := ClaimPage(Run(ApplyResult(end.0, op.id, op.token, end.1).store, commands), worker, pageSize, lease,
                         cutoff);
      r.result.Ok? && i < |r.result.value| && r.result.value[i].id == op.id
    ensures request == op.what.request.correction.(expectedRevision := request.expectedRevision)
    ensures
      var end := Execute(s, sha, client, op);
      var r := ClaimPage(Run(ApplyResult(end.0, op.id, op.token, end.1).store, commands), worker, pageSize, lease,
                         cutoff);
      var c := r.result.value[i];
      && PlanFor(r.store, c) == AskFirst(sourceId, request)
      && Previewed(r.store, sha, c, request, next.preview(sourceId, request), Execute(r.store, sha, next, c))
  {
    var end := Execute(s, sha, client, op);
    CorrectionAnswered(s, sha, client, op, sourceId, guarded);
    ConflictIsUpForRevision(s, op, Refused(409, "revision_conflict"), end, commands);
    var u := Run(ApplyResult(end.0, op.id, op.token, end.1).store, commands);
    request := ClaimedUpForRevision(s, u, sha, op, sourceId, guarded, worker, pageSize, lease, cutoff, i, next);
  }

  lemma ClaimEvolves(s: Store, u: Store, worker: string, pageSize: int, lease: Option<int>, cutoff: Option<nat>)
    requires Inv(u) && Evolves(s, u)
    ensures Inv(ClaimPage(u, worker, pageSize, lease, cutoff).store)
    ensures Evolves(s, ClaimPage(u, worker, pageSize, lease, cutoff).store)
  {
    Flush.ClaimIsStep(u, worker, pageSize, lease, cutoff);
    EvolvesTransitive(s, u, ClaimPage(u, worker, pageSize, lease, cutoff).store);
  }

  lemma ClaimedUpForRevision(s: Store, u: Store, sha: string -> string, op: ClaimedOperation, sourceId: string,
                             guarded: CorrectionRequest, worker: string, pageSize: int, lease: Option<int>,
                             cutoff: Option<nat>, i: nat, next: Client) returns (request: CorrectionRequest)
    requires Inv(s) && Inv(u) && Evolves(s, u) && op.id in u.ops && u.ops[op.id].what == op.what
    requires u.ops[op.id].state.ReconcileRevision? && Corrects(s, op, sourceId, guarded)
    requires
      var r := ClaimPage(u, worker, pageSize, lease, cutoff);
      r.result.Ok? && i < |r.result.value| && r.result.value[i].id == op.id
    ensures request == op.what.request.correction.(expectedRevision := request.expectedRevision)
    ensures
      var r := ClaimPage(u, worker, pageSize, lease, cutoff);
      var c := r.result.value[i];
      && PlanFor(r.store, c) == AskFirst(sourceId, request)
      && Previewed(r.store, sha, c, request, next.preview(sourceId, request), Execute(r.store, sha, next, c))
  {
    var r := ClaimPage(u, worker, pageSize, lease, cutoff);
    ClaimedAsStored(u, worker, pageSize, lease, cutoff, i);
    ClaimEvolves(s, u, worker, pageSize, lease, cutoff);
    request := CorrectsStill(s, r.store, op, r.result.value[i], sourceId, guarded);
    CorrectionPlan(r.store, r.result.value[i], sourceId, request);
    CorrectionPreviewed(r.store, sha, next, r.result.value[i], sourceId, request);
  }

  /** The replacement is then sent with the revision the preview reported, whatever happens to the tables. */
  lemma ReplacementSendsRevision(t: Store, sha: string -> string, client: Client, op: ClaimedOperation,
                                 request: CorrectionRequest, sourceId: string, revision: nat, c: ClaimedOperation)
    requires op.what.endpoint == CorrectionEndpoint(sourceId) && IsBytes(sourceId) && sourceId != ""
    requires op.what.kind != "context_exposure"
    requires c.what == AtRevision(sha, op, request, revision).what && !c.state.ReconcileRevision?
    ensures
      var sent := AtRevision(sha, op, request, revision).what.request.correction;
      var out := Outgoing("memory/inspect/" + Quote(sourceId) + "/corrections", Correction(sent));
      sent.expectedRevision == Some(revision)
      && Answered(t, c, false, client.exchange(c.what.key, out), Execute(t, sha, client, c))
  {
    CorrectionAnswered(t, sha, client, c, sourceId, AtRevision(sha, op, request, revision).what.request.correction);
  }
}
