/**
 The executor of runtime.py: what one claimed operation sends to the server, and what each answer
 turns into. The server and the network are parameters: every answer they may give is a value.
 */
module Executor {
  import opened Wrappers
  import opened Ordering
  import opened Requests
  import opened Outbox
  import opened OutboxInvariant
  import opened Capture

  // ---------------------------------------------------------------- failures

  /** classify_http_failure. */
  function ClassifyHttpFailure(status: Option<int>, code: Option<string>, isCorrection: bool,
                               dependencyPending: bool): Action
  {
    if status.None? || status.value == 429 || status.value >= 500 then Retry
    else if status.value == 401 || status.value == 403 then BlockAuth
    else if status.value == 404 && isCorrection then
      if dependencyPending then Retry else DropObsolete
    else if status.value == 409 then
      if code == Some("idempotency_lock_held") then Retry
      else if code == Some("idempotency_interrupted_pending") then Recover
      else if code == Some("idempotency_payload_mismatch") then Bury
      else if code == Some("revision_conflict") then Reconcile
      else Bury
    else Bury
  }

  /**
   A failure never ends an operation as done, except that a correction of a missing source is
   obsolete; it leaves it claimable only on a missing, 429 or 5xx status, three of the conflict
   codes, or a pending dependency.
   */
  lemma FailureNeverSucceeds(status: Option<int>, code: Option<string>, isCorrection: bool,
                             dependencyPending: bool)
    ensures
      var action := ClassifyHttpFailure(status, code, isCorrection, dependencyPending);
      && action !in {Succeed, Supersede}
      && (action.BlockAuth? <==> status in {Some(401), Some(403)})
      && (action.Recover? <==> status == Some(409) && code == Some("idempotency_interrupted_pending"))
      && (action.Reconcile? <==> status == Some(409) && code == Some("revision_conflict"))
      && (action.DropObsolete? <==> isCorrection && status == Some(404) && !dependencyPending)
      && (action in {Retry, Recover, Reconcile} <==>
            || status.None? || status.value == 429 || status.value >= 500
            || (isCorrection && status == Some(404) && dependencyPending)
            || (status == Some(409)
                && code in {Some("idempotency_lock_held"), Some("idempotency_interrupted_pending"),
                            Some("revision_conflict")}))
  {
  }

  // ---------------------------------------------------------------- what is sent

  /** A request as the server sees it. */
  datatype Outgoing = Outgoing(path: string, body: Request)

  datatype Receipt = Receipt(key: Option<string>, replayed: bool)

  /** How one HTTP exchange ends for the client. `revision` is read from raw captures only. */
  datatype Response =
    | Accepted(receipt: Option<Receipt>, revision: int)
    | Refused(status: int, code: string)
    | Lost(error: string)
    | Garbled(status: int)

  datatype PreviewReply =
    | Preview(erased: bool, satisfied: bool, allowed: bool, current: Option<nat>, revision: Option<nat>)
    | PreviewFailed(failure: Response)

  datatype Route = ToRaw | ToExposure | ToCorrection | Nowhere

  /** The dispatch of _execute_operation. */
  function RouteOf(m: Mutation): Route {
    if EndsWith(m.endpoint, "/memory/raw") then ToRaw
    else if m.kind == "context_exposure" then ToExposure
    else if EndsWith(m.endpoint, CORRECTIONS) then ToCorrection
    else Nowhere
  }

  lemma TurnRevisionAt(s: Store, k: Slot, id: Id)
    requires IndexInv(s) && IsTurnOf(s, k, id)
    ensures TurnRevision(s, id) == s.turns[k].revision
  {
  }

  function CorrectionPath(sourceId: string): string {
    "memory/inspect/" + Quote(sourceId) + CORRECTIONS
  }

  /** The revision a correction is sent with: its own, or the one its dependency has by now. */
  ghost function Guard(s: Store, m: Mutation, request: CorrectionRequest): Option<nat> {
    if request.expectedRevision.Some? || m.dependsOn.None? then request.expectedRevision
    else TurnRevision(s, m.dependsOn.value)
  }

  /** The expected_revision member of a stored request. */
  function OwnRevision(request: Request): Option<nat> {
    if request.Correction? then request.correction.expectedRevision else None
  }

  /** The executor has no revision for a correction that depends on a source write. */
  ghost predicate LacksRevision(s: Store, m: Mutation) {
    OwnRevision(m.request).None? && m.dependsOn.Some? && TurnRevision(s, m.dependsOn.value).None?
  }

  datatype Plan =
    | Send(out: Outgoing)
    | AskFirst(sourceId: string, request: CorrectionRequest)
    | Conclude(result: AttemptResult)

  function Failure(action: Action, status: Option<int>, error: string): AttemptResult {
    AttemptResult(action, status, Some(error), false)
  }

  /** _execute_operation up to its first exchange with the server. */
  ghost function PlanFor(s: Store, op: ClaimedOperation): Plan {
    PlanVia(s, op, RouteOf(op.what), CorrectionSourceId(op.what.endpoint))
  }

  ghost function PlanVia(s: Store, op: ClaimedOperation, route: Route, source: Result<string>): Plan {
    match route
    case ToRaw =>
      if op.what.request.RawMemory? then Send(Outgoing("memory/raw", op.what.request))
      else Conclude(Failure(Retry, None, "KeyError"))
    case ToExposure =>
      if op.what.request.Exposure? then Send(Outgoing("memory/expose", op.what.request))
      else Conclude(Failure(Retry, None, "KeyError"))
    case ToCorrection =>
      if source.Err? then Conclude(Failure(Retry, None, "ValueError"))
      else if LacksRevision(s, op.what) then
        Conclude(Failure(Retry, None, "source dependency revision is not available"))
      else if !op.what.request.Correction? then Conclude(Failure(Retry, None, "KeyError"))
      else
        var request := op.what.request.correction;
        var guarded := request.(expectedRevision := Guard(s, op.what, request));
        if source.value == "" then Conclude(Failure(Retry, None, "ValueError"))
        else if op.state.ReconcileRevision? then AskFirst(source.value, guarded)
        else Send(Outgoing(CorrectionPath(source.value), Correction(guarded)))
    case Nowhere => Conclude(Failure(Bury, None, "unsupported outbox operation"))
  }

  // ---------------------------------------------------------------- what an answer becomes

  datatype Verdict =
    | Record(revision: nat, replayed: bool)   // store the turn's revision, then succeed
    | Finish(result: AttemptResult)

  function Success(replayed: bool): AttemptResult {
    AttemptResult(Succeed, Some(200), None, replayed)
  }

  predicate Matches(receipt: Option<Receipt>, key: string) {
    receipt.Some? && receipt.value.key == Some(key)
  }

  /** The exceptions of the client, as _execute_operation maps them. */
  function FailureOf(m: Mutation, failure: Response): AttemptResult
    requires !failure.Accepted?
  {
    match failure
    case Refused(status, code) =>
      Failure(ClassifyHttpFailure(Some(status), Some(code), EndsWith(m.endpoint, CORRECTIONS), false),
              Some(status), code)
    case Lost(error) => Failure(Retry, None, error)
    case Garbled(status) => Failure(Bury, Some(status), "invalid Sibyl response contract")
  }

  function VerdictOf(m: Mutation, response: Response): Verdict {
    if !response.Accepted? then Finish(FailureOf(m, response))
    else if !Matches(response.receipt, m.key) || (RouteOf(m).ToRaw? && response.revision < 1) then
      Finish(FailureOf(m, Garbled(200)))
    else if RouteOf(m).ToRaw? then Record(response.revision, response.receipt.value.replayed)
    else Finish(Success(response.receipt.value.replayed))
  }

  datatype Reconciled =
    | Done(result: AttemptResult)
    | Replace(replacement: NewOperation)

  /** The correction that takes over at the revision the preview reports. */
  function ReplacementFor(sha: string -> string, op: ClaimedOperation, request: CorrectionRequest,
                          revision: nat): NewOperation
  {
    var id := HashParts(sha, [op.id, Decimal(revision), request.action]);
    NewOperation(id, op.what.(
      request := Correction(request.(expectedRevision := Some(revision),
                                     metadata := request.metadata["provider_operation_id" := id])),
      key := "hermes-correction-" + id, httpMethod := "POST"))
  }

  /** _reconcile_correction up to the call of supersede. */
  function ReconcileWith(sha: string -> string, op: ClaimedOperation, request: CorrectionRequest,
                         reply: PreviewReply): Reconciled
  {
    match reply
    case PreviewFailed(failure) =>
      Done(if failure.Accepted? then FailureOf(op.what, Garbled(200)) else FailureOf(op.what, failure))
    case Preview(erased, satisfied, allowed, current, revision) =>
      if erased || satisfied then Done(AttemptResult(DropObsolete, Some(200), None, false))
      else if !allowed then
        Done(Failure(Bury, Some(200), "correction preview denied during revision reconciliation"))
      else
        match if current.Some? then current else revision
        case None => Done(Failure(Bury, None, "correction preview omitted current revision"))
        case Some(now) => Replace(ReplacementFor(sha, op, request, now))
  }

  /**
   A replacement corrects the same source in the same way under the same dependency: the revision, the
   recorded operation id and the key are all that changes. Per operation, revision and action there is
   exactly one replacement id.
   */
  lemma ReplacementIdentity(sha: string -> string, a: ClaimedOperation, x: CorrectionRequest, m: nat,
                            b: ClaimedOperation, y: CorrectionRequest, n: nat)
    requires Ideal(sha) && Lacks(a.id, NUL) && Lacks(b.id, NUL)
    ensures ReplacementFor(sha, a, x, m).id == ReplacementFor(sha, b, y, n).id
            <==> a.id == b.id && m == n && x.action == y.action
    ensures
      var r := ReplacementFor(sha, a, x, m);
      && r.what.request.Correction? && r.what.request.correction.expectedRevision == Some(m)
      && r.what.request.correction.(expectedRevision := x.expectedRevision, metadata := x.metadata) == x
      && r.what.endpoint == a.what.endpoint && r.what.kind == a.what.kind && r.what.dependsOn == a.what.dependsOn
  {
    var p, q := ReplacementFor(sha, a, x, m), ReplacementFor(sha, b, y, n);
    JoinThree(a.id, Decimal(m), x.action, NUL);
    JoinThree(b.id, Decimal(n), y.action, NUL);
    if p.id == q.id {
      SplitFirst(a.id, Decimal(m) + [NUL] + x.action, b.id, Decimal(n) + [NUL] + y.action, NUL);
      SplitFirst(Decimal(m), x.action, Decimal(n), y.action, NUL);
      DecimalInjective(m, n);
    }
  }

  lemma JoinThree(a: string, b: string, d: string, c: char)
    ensures Join([a, b, d], c) == a + [c] + (b + [c] + d)
  {
    assert [a, b, d][1..] == [b, d] && [b, d][1..] == [d];
    assert Join([b, d], c) == b + [c] + d;
  }

  const SUPERSEDED := AttemptResult(Supersede, Some(200), None, false)

  /** ... and after it: any exception of supersede is a retry. */
  function AfterSupersede(result: Result<()>): AttemptResult {
    if result.Ok? then SUPERSEDED else Failure(Retry, None, "OutboxError")
  }

  // ---------------------------------------------------------------- one call, uninterrupted

  /** The server's answers to one call. */
  datatype Client = Client(
    exchange: (string, Outgoing) -> Response,
    preview: (string, CorrectionRequest) -> PreviewReply)

  /** The one transaction a call may make on its way to a result. */
  datatype Course =
    | Ends(result: AttemptResult)
    | Records(revision: nat, replayed: bool)
    | Supersedes(replacement: NewOperation)

  ghost function CourseOf(s: Store, sha: string -> string, client: Client, op: ClaimedOperation): Course {
    CourseFrom(sha, client, op, PlanFor(s, op))
  }

  function CourseFrom(sha: string -> string, client: Client, op: ClaimedOperation, plan: Plan): Course {
    match plan
    case Conclude(result) => Ends(result)
    case Send(out) => AfterReply(op.what, client.exchange(op.what.key, out))
    case AskFirst(sourceId, request) => AfterPreview(sha, op, request, client.preview(sourceId, request))
  }

  function AfterReply(m: Mutation, response: Response): Course {
    match VerdictOf(m, response)
    case Finish(result) => Ends(result)
    case Record(revision, replayed) => Records(revision, replayed)
  }

  function AfterPreview(sha: string -> string, op: ClaimedOperation, request: CorrectionRequest,
                        reply: PreviewReply): Course
  {
    match ReconcileWith(sha, op, request, reply)
    case Done(result) => Ends(result)
    case Replace(replacement) => Supersedes(replacement)
  }

  /** The store a call leaves and the result it returns. */
  function Follow(s: Store, op: ClaimedOperation, course: Course): (Store, AttemptResult) {
    match course
    case Ends(result) => (s, result)
    case Records(revision, replayed) => (RecordTurnRevision(s, op.id, revision).store, Success(replayed))
    case Supersedes(replacement) =>
      var r := SupersedeWith(s, op.id, op.token, replacement);
      (r.store, AfterSupersede(r.result))
  }

  function CommandsOf(op: ClaimedOperation, course: Course): seq<Command> {
    match course
    case Ends(_) => []
    case Records(revision, _) => [DoRecordRevision(op.id, revision)]
    case Supersedes(replacement) => [DoSupersede(op.id, op.token, replacement)]
  }

  /** _execute_operation as one step. */
  ghost function Execute(s: Store, sha: string -> string, client: Client, op: ClaimedOperation)
    : (Store, AttemptResult)
  {
    Follow(s, op, CourseOf(s, sha, client, op))
  }

  lemma RunOfOne(s: Store, c: Command)
    ensures Run(s, [c]) == Step(s, c)
  {
    assert [c][1..] == [];
    assert Run(s, [c]) == Run(Step(s, c), []);
  }

  lemma FollowRuns(s: Store, op: ClaimedOperation, course: Course)
    ensures Run(s, CommandsOf(op, course)) == Follow(s, op, course).0
  {
    match course
    case Ends(_) =>
    case Records(revision, _) => RunOfOne(s, DoRecordRevision(op.id, revision));
    case Supersedes(replacement) => RunOfOne(s, DoSupersede(op.id, op.token, replacement));
  }

  lemma PlanGivesUp(s: Store, op: ClaimedOperation, route: Route, source: Result<string>)
    ensures
      var plan := PlanVia(s, op, route, source);
      plan.Conclude? ==> plan.result.action in {Retry, Bury}
  {
  }

  /** A call that makes no transaction reports neither success for a raw capture nor SUPERSEDED. */
  lemma EndsQuietly(sha: string -> string, client: Client, op: ClaimedOperation, plan: Plan)
    requires plan.Conclude? ==> plan.result.action in {Retry, Bury}
    ensures
      var course := CourseFrom(sha, client, op, plan);
      course.Ends? ==>
        !course.result.action.Supersede? && !(course.result.action.Succeed? && RouteOf(op.what).ToRaw?)
  {
    match plan
    case Conclude(_) =>
    case Send(out) => VerdictIsNoSupersede(op.what, client.exchange(op.what.key, out));
    case AskFirst(sourceId, request) => PreviewIsNoSuccess(sha, op, request, client.preview(sourceId, request));
  }

  lemma FailureIsNoSuccess(m: Mutation, failure: Response)
    requires !failure.Accepted?
    ensures FailureOf(m, failure).action !in {Succeed, Supersede}
    ensures FailureOf(m, failure).action.DropObsolete? ==> EndsWith(m.endpoint, CORRECTIONS)
  {
    if failure.Refused? {
      FailureNeverSucceeds(Some(failure.status), Some(failure.code), EndsWith(m.endpoint, CORRECTIONS), false);
    }
  }

  lemma VerdictIsNoSupersede(m: Mutation, response: Response)
    ensures
      var v := VerdictOf(m, response);
      && (v.Record? ==> RouteOf(m).ToRaw? && v.revision >= 1)
      && (v.Finish? ==> !v.result.action.Supersede?)
      && (v.Finish? && v.result.action.DropObsolete? ==> EndsWith(m.endpoint, CORRECTIONS))
      && (v.Finish? && v.result.action.Succeed? ==> !RouteOf(m).ToRaw?)
      && (v.Record? || v.result.action.Succeed? ==> response.Accepted? && Matches(response.receipt, m.key))
  {
    if !response.Accepted? {
      FailureIsNoSuccess(m, response);
    }
  }

  lemma PreviewIsNoSuccess(sha: string -> string, op: ClaimedOperation, request: CorrectionRequest,
                           reply: PreviewReply)
    ensures
      var r := ReconcileWith(sha, op, request, reply);
      r.Done? ==> r.result.action !in {Succeed, Supersede}
  {
    if reply.PreviewFailed? && !reply.failure.Accepted? {
      FailureIsNoSuccess(op.what, reply.failure);
    }
  }

  /** The executor answers SUPERSEDED only when its supersede succeeded. */
  lemma SupersededOnlyAfterSupersede(s: Store, sha: string -> string, client: Client, op: ClaimedOperation)
    requires Execute(s, sha, client, op).1.action.Supersede?
    ensures
      var course := CourseOf(s, sha, client, op);
      && course.Supersedes?
      && SupersedeWith(s, op.id, op.token, course.replacement) == Tx(Execute(s, sha, client, op).0, Ok(()))
  {
    PlanGivesUp(s, op, RouteOf(op.what), CorrectionSourceId(op.what.endpoint));
    EndsQuietly(sha, client, op, PlanFor(s, op));
  }
}
