/** Each action of the delivery protocol keeps the invariant, so every run does. */
module DeliverySteps {
  import opened Wrappers
  import opened Ordering
  import opened Requests
  import opened Outbox
  import opened OutboxInvariant
  import opened Sessions
  import opened Capture
  import opened Reconcile
  import opened Executor
  import opened Delivery
  import opened DeliveryInvariant

  // ---------------------------------------------------------------- what the host enqueues

  lemma RawIsShaped(s: Store, id: Id, m: Mutation)
    requires m.endpoint == RAW_ENDPOINT && m.request.RawMemory? && m.dependsOn.None?
    requires m.key == KeyPrefix(m.kind) + id
    ensures Shaped(s, id, m) && RouteOf(m).ToRaw?
  {
    var n := |RAW_ENDPOINT| - |"/memory/raw"|;
    assert RAW_ENDPOINT[n..] == "/memory/raw";
  }

  lemma ExposureIsShaped(s: Store, id: Id, m: Mutation)
    requires m.endpoint == EXPOSE_ENDPOINT && m.kind == "context_exposure" && m.request.Exposure?
    requires m.dependsOn.None? && m.key == KeyPrefix(m.kind) + id
    ensures Shaped(s, id, m)
  {
    LastDecides(EXPOSE_ENDPOINT, "/memory/raw");
  }

  lemma CorrectionIsShaped(s: Store, id: Id, m: Mutation, sourceId: string)
    requires m.endpoint == CorrectionEndpoint(sourceId) && Guarded(s, m) && m.kind != "context_exposure"
    requires KeyPrefix(m.kind) == "hermes-correction-" && m.key == KeyPrefix(m.kind) + id
    ensures Shaped(s, id, m) && RouteOf(m).ToCorrection?
  {
    CorrectionEndpointRoute(sourceId);
  }

  lemma WishIsShaped(s: Store, wish: Wish)
    ensures Shaped(s, OpOf(wish).id, Stored(OpOf(wish).what))
  {
    var op := OpOf(wish);
    match wish
    case Remember(_, _, _, _, _) => RawIsShaped(s, op.id, Stored(op.what));
    case Expose(_, _, _) => ExposureIsShaped(s, op.id, Stored(op.what));
    case Correct(_, sourceId, _, _) => CorrectionIsShaped(s, op.id, Stored(op.what), sourceId);
  }

  /** A record that was queued gives a correction that waits; one that was not, a revision. */
  lemma RewindIsShaped(ctx: Context, s: Store, journal: seq<Effect>, r: IndexedTurnRecord)
    requires TurnsBacked(s, journal) && Past(s, r)
    ensures Shaped(s, RewindOp(ctx, r).id, Stored(RewindOp(ctx, r).what))
  {
    var op := RewindOp(ctx, r);
    var slot := Slot(r.session, r.sequence);
    assert Backed(s, journal, s.turns[slot]) && IsTurnOf(s, slot, r.operationId);
    CorrectionIsShaped(s, op.id, Stored(op.what), r.sourceId);
  }

  lemma CaptureIsShaped(s: Store, ctx: Context, session: string, parent: string, text: TurnText,
                        turnNumber: Option<int>, sequence: nat)
    ensures
      var made := CaptureFactory(ctx, session, parent, text, turnNumber)(sequence);
      made.Ok? ==>
        var op := made.value.operation;
        Shaped(s, op.id, Stored(op.what)) && RouteOf(Stored(op.what)).ToRaw?
  {
    var made := CaptureFactory(ctx, session, parent, text, turnNumber)(sequence);
    if made.Ok? {
      var op := made.value.operation;
      RawIsShaped(s, op.id, Stored(op.what));
    }
  }

  // ---------------------------------------------------------------- the host's moves

  lemma EnqueueInserts(s: Store, op: NewOperation)
    ensures
      var t := Enqueue(s, op).store;
      t == s || (Inserts(s, t, op, map[]) && t.turns == s.turns)
  {
  }

  lemma EnqueueMoves(w: World, op: NewOperation)
    requires WorldInv(w) && Shaped(w.store, op.id, Stored(op.what)) && Inv(Enqueue(w.store, op).store)
    ensures Goes(w, w.(store := Enqueue(w.store, op).store))
  {
    var t := Enqueue(w.store, op).store;
    EnqueueInserts(w.store, op);
    if t != w.store {
      InsertMoves(w, t, op, map[]);
    }
  }

  lemma EnqueuedTurn(s: Store, session: string, parent: string, factory: nat -> Result<NewTurn>)
    requires EnqueueTurn(s, session, parent, factory).result.Ok?
    ensures
      var t := EnqueueTurn(s, session, parent, factory).store;
      var row := Touched(s, session, parent);
      var made := factory(row.next);
      && made.Ok?
      && Inserts(s, t, made.value.operation,
                 map[Slot(session, row.next) := Turn(made.value.operation.id, made.value.sourceId,
                                                     made.value.turnHash, None)])
  {
    var t := EnqueueTurn(s, session, parent, factory).store;
    var row := Touched(s, session, parent);
    var turn := factory(row.next).value;
    var turns := map[Slot(session, row.next) := Turn(turn.operation.id, turn.sourceId, turn.turnHash, None)];
    assert t.turns == s.turns + turns;
  }

  lemma CaptureMoves(ctx: Context, w: World, session: string, parent: string, text: TurnText,
                     turnNumber: Option<int>)
    requires WorldInv(w)
    requires Inv(Step(w.store, CommandOf(ctx, CaptureIt(session, parent, text, turnNumber))))
    ensures Goes(w, w.(store := Step(w.store, CommandOf(ctx, CaptureIt(session, parent, text, turnNumber)))))
  {
    var s := w.store;
    var factory := CaptureFactory(ctx, session, parent, text, turnNumber);
    var r := EnqueueTurn(s, session, parent, factory);
    if r.result.Ok? {
      EnqueuedTurn(s, session, parent, factory);
      var row := Touched(s, session, parent);
      var turn := factory(row.next).value;
      CaptureIsShaped(s, ctx, session, parent, text, turnNumber, row.next);
      InsertMoves(w, r.store, turn.operation,
                  map[Slot(session, row.next) := Turn(turn.operation.id, turn.sourceId, turn.turnHash, None)]);
    } else {
      FailedTurnChangesNothing(s, session, parent, factory);
    }
  }

  lemma FailedTurnChangesNothing(s: Store, session: string, parent: string, factory: nat -> Result<NewTurn>)
    requires EnqueueTurn(s, session, parent, factory).result.Err?
    ensures EnqueueTurn(s, session, parent, factory).store == s
  {
  }

  /** Transactions on session rows, the release of blocked rows and the clock. */
  lemma SettingsAreQuiet(s: Store, c: Command)
    requires c.DoReserve? || c.DoMark? || c.DoUnblockAuth? || c.DoTick?
    ensures Quiet(s, Step(s, c))
  {
  }

  /** A step that changes the store only, and that quietly. */
  lemma StoreStep(w: World, next: World)
    requires WorldInv(w) && next == w.(store := next.store) && Inv(next.store) && Quiet(w.store, next.store)
    ensures Goes(w, next)
  {
    QuietMoves(w, next.store);
  }

  lemma HostKeeps(ctx: Context, w: World, move: HostMove)
    requires WorldInv(w)
    ensures Goes(w, HostStep(ctx, w, move))
  {
    if Allowed(w.store, move) {
      StepInv(w.store, CommandOf(ctx, move));
      MoveGoes(ctx, w, move);
    }
  }

  lemma StepInv(s: Store, c: Command)
    requires Inv(s)
    ensures Inv(Step(s, c))
  {
    StepKeeps(s, c);
  }

  lemma MoveGoes(ctx: Context, w: World, move: HostMove)
    requires WorldInv(w) && Allowed(w.store, move) && Inv(Step(w.store, CommandOf(ctx, move)))
    ensures Goes(w, w.(store := Step(w.store, CommandOf(ctx, move))))
  {
    match move
    case CaptureIt(session, parent, text, turnNumber) => CaptureMoves(ctx, w, session, parent, text, turnNumber);
    case EnqueueIt(wish) => WishMoves(w, wish);
    case RewindIt(record) => RewindMoves(ctx, w, record);
    case _ =>
      SettingsAreQuiet(w.store, CommandOf(ctx, move));
      QuietMoves(w, Step(w.store, CommandOf(ctx, move)));
  }

  lemma WishMoves(w: World, wish: Wish)
    requires WorldInv(w) && Inv(Enqueue(w.store, OpOf(wish)).store)
    ensures Goes(w, w.(store := Enqueue(w.store, OpOf(wish)).store))
  {
    WishIsShaped(w.store, wish);
    EnqueueMoves(w, OpOf(wish));
  }

  lemma RewindMoves(ctx: Context, w: World, record: IndexedTurnRecord)
    requires WorldInv(w) && Past(w.store, record) && Inv(Enqueue(w.store, RewindOp(ctx, record)).store)
    ensures Goes(w, w.(store := Enqueue(w.store, RewindOp(ctx, record)).store))
  {
    RewindIsShaped(ctx, w.store, w.journal, record);
    EnqueueMoves(w, RewindOp(ctx, record));
  }

  // ---------------------------------------------------------------- claiming

  lemma {:induction false} HandsGiven(hands: map<nat, Hand>, claims: seq<ClaimedOperation>, token: nat)
    requires token in WithHands(hands, claims)
    ensures
      var h := WithHands(hands, claims)[token];
      || (token in hands && h == hands[token])
      || exists i :: 0 <= i < |claims| && h == Hand(claims[i], Ready)
    decreases |claims|
  {
    if claims != [] {
      HandsGiven(hands[claims[0].token := Hand(claims[0], Ready)], claims[1..], token);
      var h := WithHands(hands, claims)[token];
      if exists i :: 0 <= i < |claims[1..]| && h == Hand(claims[1..][i], Ready) {
        var i :| 0 <= i < |claims[1..]| && h == Hand(claims[1..][i], Ready);
        assert h == Hand(claims[i + 1], Ready);
      }
    }
  }

  lemma ClaimIsQuiet(s: Store, worker: string, pageSize: int, lease: Option<int>, cutoff: Option<nat>)
    requires Inv(s)
    ensures
      var t := ClaimPage(s, worker, pageSize, lease, cutoff).store;
      Inv(t) && Quiet(s, t)
  {
    ClaimPageKeeps(s, worker, pageSize, lease, cutoff);
    ClaimPageFrame(s, worker, pageSize, lease, cutoff);
    var t := ClaimPage(s, worker, pageSize, lease, cutoff).store;
    SameIndexKeeps(s, t);
    SameMutations(s, t);
  }

  lemma SameMutations(s: Store, t: Store)
    requires OpsEvolve(s, t) && t.ops.Keys == s.ops.Keys
    ensures forall id | id in s.ops :: t.ops[id].what == s.ops[id].what
  {
    forall id | id in s.ops ensures t.ops[id].what == s.ops[id].what {
      assert RowKept(s.ops[id], id, t);
    }
  }

  /** A claim that is handed out names a live operation whose dependency is met. */
  lemma ClaimsAreSound(s: Store, worker: string, pageSize: int, lease: Option<int>, cutoff: Option<nat>,
                       journal: seq<Effect>)
    requires ClaimPage(s, worker, pageSize, lease, cutoff).result.Ok?
    ensures
      var claims := ClaimPage(s, worker, pageSize, lease, cutoff).result.value;
      forall i | 0 <= i < |claims| :: HandOk(s, journal, Hand(claims[i], Ready))
  {
    var ids := ClaimPageExact(s, worker, pageSize, lease, cutoff);
    var claims := ClaimPage(s, worker, pageSize, lease, cutoff).result.value;
    forall i | 0 <= i < |claims| ensures HandOk(s, journal, Hand(claims[i], Ready)) {
      assert Claimable(s, ids[i], if cutoff.Some? then cutoff.value else s.clock + HORIZON);
      assert ClaimIssued(s, claims[i], ids[i], s.nextToken + i, worker,
                         if lease.Some? then lease.value else DEFAULT_LEASE);
    }
  }

  lemma ClaimKeeps(w: World, worker: string, pageSize: int, lease: Option<int>, cutoff: Option<nat>)
    requires WorldInv(w)
    ensures Goes(w, ClaimStep(w, worker, pageSize, lease, cutoff))
  {
    var r := ClaimPage(w.store, worker, pageSize, lease, cutoff);
    ClaimIsQuiet(w.store, worker, pageSize, lease, cutoff);
    QuietMoves(w, r.store);
    if r.result.Ok? {
      ClaimsAreSound(w.store, worker, pageSize, lease, cutoff, w.journal);
      QuietGrows(w.store, r.store, w.journal);
      var hands := WithHands(w.hands, r.result.value);
      forall token | token in hands ensures HandOk(r.store, w.journal, hands[token]) {
        HandsGiven(w.hands, r.result.value, token);
        if exists i :: 0 <= i < |r.result.value| && hands[token] == Hand(r.result.value[i], Ready) {
          HandStays(w.store, r.store, w.journal, w.journal, hands[token]);
        }
      }
    }
  }

  // ---------------------------------------------------------------- a worker's moves

  /** A hand moves on without touching anything else. */
  lemma StageMoves(w: World, token: nat, stage: Stage)
    requires WorldInv(w) && token in w.hands
    requires
      var op := w.hands[token].op;
      StageOk(w.store, w.journal, op.id, op.what, stage)
    ensures Goes(w, AtStage(w, token, stage))
  {
    assert HandOk(w.store, w.journal, w.hands[token]);
  }

  lemma HandsDropped(w: World, token: nat)
    requires WorldInv(w)
    ensures Goes(w, w.(hands := w.hands - {token}))
  {
  }

  lemma PlanIsFaithful(s: Store, op: ClaimedOperation, route: Route, source: Result<string>)
    ensures
      var plan := PlanVia(s, op, route, source);
      && (plan.Send? ==> OutVia(s, op.what, route, source) == Some(plan.out)
                         || (route.ToCorrection? && op.what.request.Correction?
                             && Guard(s, op.what, op.what.request.correction).None?))
      && (plan.AskFirst? ==> route.ToCorrection?)
  {
  }

  /** A dependency that was met has left the queue, so a turn it captured has its revision. */
  lemma DependencyHasRevision(s: Store, journal: seq<Effect>, id: Id)
    requires IndexInv(s) && TurnsBacked(s, journal) && HasTurn(s, id)
    requires id in s.history && id !in s.ops
    ensures TurnRevision(s, id).Some?
  {
    var k :| IsTurnOf(s, k, id);
    TurnRevisionAt(s, k, id);
    assert Backed(s, journal, s.turns[k]);
  }

  /** So the guard of a claimed correction is always there. */
  lemma GuardAvailable(w: World, h: Hand)
    requires WorldInv(w) && HandOk(w.store, w.journal, h) && RouteOf(h.op.what).ToCorrection?
    ensures h.op.what.request.Correction?
    ensures Guard(w.store, h.op.what, h.op.what.request.correction).Some?
  {
    assert Shaped(w.store, h.op.id, h.op.what);
    var m := h.op.what;
    if m.request.correction.expectedRevision.None? {
      var d := m.dependsOn.value;
      assert d in w.store.ops ==> RowOk(w.store, d, w.store.ops[d]);
      DependencyHasRevision(w.store, w.journal, d);
    }
  }

  lemma PlanMoves(w: World, token: nat)
    requires WorldInv(w) && token in w.hands
    ensures Goes(w, PlanStep(w, token, w.hands[token]))
  {
    var h := w.hands[token];
    assert HandOk(w.store, w.journal, h);
    var plan := PlanFor(w.store, h.op);
    PlanIsFaithful(w.store, h.op, RouteOf(h.op.what), CorrectionSourceId(h.op.what.endpoint));
    PlanGivesUp(w.store, h.op, RouteOf(h.op.what), CorrectionSourceId(h.op.what.endpoint));
    if RouteOf(h.op.what).ToCorrection? {
      GuardAvailable(w, h);
    }
    StageMoves(w, token, if plan.Conclude? then Concluded(plan.result) else Planned(plan));
  }

  lemma SendMoves(w: World, token: nat, out: Outgoing)
    requires WorldInv(w) && token in w.hands && w.hands[token].stage == Planned(Send(out))
    ensures Goes(w, SendStep(w, token, w.hands[token], out))
  {
    var h := w.hands[token];
    assert HandOk(w.store, w.journal, h);
    StageMoves(w, token, Waiting(out));
    assert Faithful(w.store, Sending(h.op.id, h.op.what.key, out));
  }

  /** A receipt under the operation's own key proves that this very operation was served. */
  lemma ReceiptProvesService(w: World, h: Hand, response: Response)
    requires WorldInv(w) && HandOk(w.store, w.journal, h) && Authentic(w, h.op.what.key, response)
    requires response.Accepted? && Matches(response.receipt, h.op.what.key)
    ensures ServedFor(w.journal, h.op.id)
    ensures RouteOf(h.op.what).ToRaw? && response.revision >= 0 ==>
              ServedAs(w.journal, h.op.id, response.revision)
  {
    var e :| 0 <= e < |w.journal| && Vouches(w.journal[e], h.op.what.key, response);
    var x := w.journal[e].cause;
    assert Faithful(w.store, x);
    var m := IdentityOf(w.store, x.id);
    assert Shaped(w.store, x.id, m) && Shaped(w.store, h.op.id, h.op.what);
    KeysDetermineIds(m.kind, x.id, h.op.what.kind, h.op.id);
    assert RouteOf(m).ToRaw? ==> x.out.body == m.request;
  }

  lemma ReplyMoves(w: World, token: nat, response: Response)
    requires WorldInv(w) && token in w.hands && Authentic(w, w.hands[token].op.what.key, response)
    ensures Goes(w, ReplyStep(w, token, w.hands[token], response))
  {
    var h := w.hands[token];
    assert HandOk(w.store, w.journal, h);
    var verdict := VerdictOf(h.op.what, response);
    VerdictIsNoSupersede(h.op.what, response);
    if response.Accepted? && Matches(response.receipt, h.op.what.key) {
      ReceiptProvesService(w, h, response);
    }
    if verdict.Finish? && verdict.result.action.DropObsolete? {
      ObsoleteIsNoCapture(h.op.what);
    }
    match verdict
    case Finish(result) => StageMoves(w, token, Concluded(result));
    case Record(revision, replayed) => StageMoves(w, token, Stage.Recording(revision, replayed));
  }

  lemma ObsoleteIsNoCapture(m: Mutation)
    requires EndsWith(m.endpoint, CORRECTIONS)
    ensures !RouteOf(m).ToRaw?
  {
    assert m.endpoint[|m.endpoint| - |CORRECTIONS|..][|CORRECTIONS| - 1] == 's';
    LastDecides(m.endpoint, "/memory/raw");
  }

  /** One operation has one effect, so the server can only ever have answered one revision. */
  lemma OneRevision(w: World, id: Id, a: nat, b: nat)
    requires WorldInv(w) && ServedAs(w.journal, id, a) && ServedAs(w.journal, id, b)
    ensures a == b
  {
    var e :| 0 <= e < |w.journal| && w.journal[e].cause.id == id && w.journal[e].revision == a;
    var f :| 0 <= f < |w.journal| && w.journal[f].cause.id == id && w.journal[f].revision == b;
    assert Faithful(w.store, w.journal[e].cause) && Faithful(w.store, w.journal[f].cause);
  }

  /** Recording the server's revision again writes what was there. */
  lemma RecordGrows(s: Store, journal: seq<Effect>, id: Id, revision: nat)
    requires TurnsBacked(s, journal) && HistoryServed(s, journal)
    requires revision >= 1 && ServedAs(journal, id, revision)
    requires forall v | ServedAs(journal, id, v) :: v == revision
    ensures
      var t := RecordTurnRevision(s, id, revision).store;
      Grows(s, t) && NewIsSound(s, t, journal) && Recorded(t, id)
  {
    var t := RecordTurnRevision(s, id, revision).store;
    forall k | k in s.turns
      ensures s.turns[k].revision.Some? ==> t.turns[k].revision == s.turns[k].revision
      ensures Backed(t, journal, t.turns[k])
    {
      BackedStill(s, t, journal, s.turns[k]);
      if s.turns[k].operationId == id {
        BackedAnew(s, t, journal, s.turns[k], revision);
      }
    }
  }

  lemma BackedStill(s: Store, t: Store, journal: seq<Effect>, turn: Turn)
    requires Backed(s, journal, turn) && t == s.(turns := t.turns)
    ensures Backed(t, journal, turn)
  {
  }

  lemma BackedAnew(s: Store, t: Store, journal: seq<Effect>, turn: Turn, revision: nat)
    requires Backed(s, journal, turn) && t == s.(turns := t.turns) && ServedAs(journal, turn.operationId, revision)
    requires forall v | ServedAs(journal, turn.operationId, v) :: v == revision
    ensures turn.revision.Some? ==> turn.revision == Some(revision)
    ensures Backed(t, journal, turn.(revision := Some(revision)))
  {
  }

  lemma RecordMoves(w: World, token: nat)
    requires WorldInv(w) && token in w.hands && w.hands[token].stage.Recording?
    ensures Goes(w, RecordStep(w, token, w.hands[token]))
  {
    var h := w.hands[token];
    assert HandOk(w.store, w.journal, h);
    var revision := h.stage.revision;
    forall v | ServedAs(w.journal, h.op.id, v) ensures v == revision {
      OneRevision(w, h.op.id, v, revision);
    }
    RecordRevisionKeeps(w.store, h.op.id, revision);
    RecordGrows(w.store, w.journal, h.op.id, revision);
    var t := RecordTurnRevision(w.store, h.op.id, revision).store;
    StoreMoves(w, t);
    ServedAsStays(w.journal, w.journal, h.op.id, revision);
    StageMoves(w.(store := t), token, Concluded(Success(h.stage.replayed)));
  }

  /** A replacement keeps the shape of a correction and names its own revision. */
  lemma ReplacementIsShaped(s: Store, sha: string -> string, op: ClaimedOperation,
                            request: CorrectionRequest, reply: PreviewReply)
    requires Shaped(s, op.id, op.what) && RouteOf(op.what).ToCorrection?
    ensures
      var r := ReconcileWith(sha, op, request, reply);
      r.Replace? ==> Shaped(s, r.replacement.id, Stored(r.replacement.what))
  {
    var r := ReconcileWith(sha, op, request, reply);
    if r.Replace? {
      assert RouteOf(Stored(r.replacement.what)) == RouteOf(op.what);
    }
  }

  lemma SupersedeShape(s: Store, id: Id, token: nat, replacement: NewOperation)
    requires OpsInv(s) && SupersedeWith(s, id, token, replacement).result.Ok?
    ensures
      var mid := Insert(s, replacement);
      var t := SupersedeWith(s, id, token, replacement).store;
      && Inserts(s, mid, replacement, map[])
      && id in t.history && Archives(mid, t, id, t.history[id]) && t.history[id].outcome.Superseded?
      && t.history[id].what == s.ops[id].what
  {
    assert RowOk(s, id, s.ops[id]);
    var mid := Insert(s, replacement);
    var t := SupersedeWith(s, id, token, replacement).store;
    assert mid.turns == s.turns + map[];
    assert t.ops == mid.ops - {id};
  }

  lemma SupersedeInv(s: Store, id: Id, token: nat, replacement: NewOperation)
    requires Inv(s) && SupersedeWith(s, id, token, replacement).result.Ok?
    ensures Inv(Insert(s, replacement)) && Inv(SupersedeWith(s, id, token, replacement).store)
  {
    InsertKeeps(s, replacement, Insert(s, replacement));
    SameIndexKeeps(s, Insert(s, replacement));
    SupersedeKeeps(s, id, token, replacement);
    SameIndexKeeps(s, SupersedeWith(s, id, token, replacement).store);
  }

  lemma SupersedeMoves(w: World, id: Id, token: nat, replacement: NewOperation)
    requires WorldInv(w) && SupersedeWith(w.store, id, token, replacement).result.Ok?
    requires Shaped(w.store, replacement.id, Stored(replacement.what))
    requires !RouteOf(w.store.ops[id].what).ToRaw?
    ensures Goes(w, w.(store := SupersedeWith(w.store, id, token, replacement).store))
  {
    var mid := Insert(w.store, replacement);
    var t := SupersedeWith(w.store, id, token, replacement).store;
    SupersedeShape(w.store, id, token, replacement);
    SupersedeInv(w.store, id, token, replacement);
    InTwoMoves(w, mid, t, replacement, id, t.history[id]);
  }

  /** The replacement comes in, then the superseded operation goes. */
  lemma InTwoMoves(w: World, mid: Store, t: Store, op: NewOperation, id: Id, e: Entry)
    requires WorldInv(w) && Inv(mid) && Inv(t)
    requires Inserts(w.store, mid, op, map[]) && Shaped(w.store, op.id, Stored(op.what))
    requires Archives(mid, t, id, e) && !Successful(e) && !RouteOf(e.what).ToRaw?
    ensures Goes(w, w.(store := t))
  {
    InsertMoves(w, mid, op, map[]);
    var between := w.(store := mid);
    ArchiveMoves(between, t, id, e);
    assert between.(store := t) == w.(store := t);
  }

  lemma LiveHand(s: Store, journal: seq<Effect>, h: Hand, token: nat)
    requires HandOk(s, journal, h) && Holds(s, h.op.id, token)
    ensures h.op.id in s.ops && s.ops[h.op.id].what == h.op.what
  {
  }

  lemma PreviewMoves(ctx: Context, w: World, token: nat, request: CorrectionRequest, reply: PreviewReply)
    requires WorldInv(w) && token in w.hands
    requires w.hands[token].stage.Planned? && w.hands[token].stage.plan.AskFirst?
    ensures Goes(w, PreviewStep(ctx, w, token, w.hands[token], request, reply))
  {
    var h := w.hands[token];
    assert HandOk(w.store, w.journal, h);
    PreviewIsNoSuccess(ctx.sha, h.op, request, reply);
    match ReconcileWith(ctx.sha, h.op, request, reply)
    case Done(result) => StageMoves(w, token, Concluded(result));
    case Replace(replacement) =>
      ReplaceMoves(ctx, w, token, request, reply, replacement);
  }

  lemma ReplaceMoves(ctx: Context, w: World, token: nat, request: CorrectionRequest, reply: PreviewReply,
                     replacement: NewOperation)
    requires WorldInv(w) && token in w.hands
    requires w.hands[token].stage.Planned? && w.hands[token].stage.plan.AskFirst?
    requires ReconcileWith(ctx.sha, w.hands[token].op, request, reply) == Replace(replacement)
    ensures Goes(w, PreviewStep(ctx, w, token, w.hands[token], request, reply))
  {
    var h := w.hands[token];
    var r := SupersedeWith(w.store, h.op.id, h.op.token, replacement);
    ReplacementFits(ctx, w, h, request, reply, replacement);
    TrySupersede(w, h, replacement);
    StageMoves(w.(store := r.store), token, Concluded(AfterSupersede(r.result)));
  }

  lemma ReplacementFits(ctx: Context, w: World, h: Hand, request: CorrectionRequest, reply: PreviewReply,
                        replacement: NewOperation)
    requires WorldInv(w) && HandOk(w.store, w.journal, h) && h.stage.Planned? && h.stage.plan.AskFirst?
    requires ReconcileWith(ctx.sha, h.op, request, reply) == Replace(replacement)
    ensures RouteOf(h.op.what).ToCorrection? && Shaped(w.store, replacement.id, Stored(replacement.what))
  {
    assert Shaped(w.store, h.op.id, h.op.what);
    ReplacementIsShaped(w.store, ctx.sha, h.op, request, reply);
  }

  lemma TrySupersede(w: World, h: Hand, replacement: NewOperation)
    requires WorldInv(w) && HandOk(w.store, w.journal, h) && RouteOf(h.op.what).ToCorrection?
    requires Shaped(w.store, replacement.id, Stored(replacement.what))
    ensures Goes(w, w.(store := SupersedeWith(w.store, h.op.id, h.op.token, replacement).store))
  {
    var r := SupersedeWith(w.store, h.op.id, h.op.token, replacement);
    if r.result.Ok? {
      LiveHand(w.store, w.journal, h, h.op.token);
      SupersedeMoves(w, h.op.id, h.op.token, replacement);
    } else {
      assert r.store == w.store;
    }
  }

  lemma ApplyCases(s: Store, id: Id, token: nat, result: AttemptResult)
    requires OpsInv(s)
    ensures
      var t := ApplyResult(s, id, token, result).store;
      || Quiet(s, t)
      || (&& Holds(s, id, token) && result.action in {Succeed, DropObsolete}
          && id in t.history && Archives(s, t, id, t.history[id])
          && (Successful(t.history[id]) <==> result.action.Succeed?))
  {
    if id in s.ops {
      assert RowOk(s, id, s.ops[id]);
    }
  }

  lemma ApplyMoves(w: World, token: nat)
    requires WorldInv(w) && token in w.hands && w.hands[token].stage.Concluded?
    ensures Goes(w, ApplyStep(w, token, w.hands[token], w.hands[token].stage.result))
  {
    var h := w.hands[token];
    var result := h.stage.result;
    assert HandOk(w.store, w.journal, h);
    var t := ApplyResult(w.store, h.op.id, h.op.token, result).store;
    ApplyKeeps(w.store, h.op.id, h.op.token, result);
    ApplyFrame(w.store, h.op.id, h.op.token, result);
    SameIndexKeeps(w.store, t);
    ApplyCases(w.store, h.op.id, h.op.token, result);
    if Quiet(w.store, t) {
      QuietMoves(w, t);
    } else {
      LiveHand(w.store, w.journal, h, h.op.token);
      ArchiveMoves(w, t, h.op.id, t.history[h.op.id]);
    }
    HandsDropped(w.(store := t), token);
  }

  lemma RenewIsQuiet(s: Store, id: Id, token: nat, lease: Option<int>)
    requires Inv(s)
    ensures Inv(RenewClaim(s, id, token, lease).store) && Quiet(s, RenewClaim(s, id, token, lease).store)
  {
    RenewKeeps(s, id, token, lease);
    SameIndexKeeps(s, RenewClaim(s, id, token, lease).store);
  }

  lemma RenewMoves(ctx: Context, w: World, token: nat, lease: Option<int>)
    requires WorldInv(w) && token in w.hands
    ensures Goes(w, WorkerStep(ctx, w, token, w.hands[token], RenewIt(lease)))
  {
    var op := w.hands[token].op;
    RenewIsQuiet(w.store, op.id, op.token, lease);
    StoreStep(w, WorkerStep(ctx, w, token, w.hands[token], RenewIt(lease)));
  }

  lemma ReleaseOne(s: Store, id: Id, token: nat)
    requires OpsInv(s)
    ensures OpsInv(ReleaseRow(s, id, token)) && Quiet(s, ReleaseRow(s, id, token))
    ensures ReleaseRow(s, id, token).sessions == s.sessions
  {
    var t := ReleaseRow(s, id, token);
    if t != s {
      assert RowOk(s, id, s.ops[id]);
      UpdateKeeps(s, id, t.ops[id], t);
    }
  }

  lemma ReleaseMoves(ctx: Context, w: World, token: nat)
    requires WorldInv(w) && token in w.hands
    ensures Goes(w, WorkerStep(ctx, w, token, w.hands[token], ReleaseIt))
  {
    var op := w.hands[token].op;
    var t := ReleaseRow(w.store, op.id, op.token);
    ReleaseOne(w.store, op.id, op.token);
    SameIndexKeeps(w.store, t);
    QuietMoves(w, t);
    HandsDropped(w.(store := t), token);
  }

  /** The moves up to the exchange with the server. */
  lemma OutwardKeeps(ctx: Context, w: World, token: nat, move: WorkerMove)
    requires WorldInv(w) && token in w.hands && (move.Crash? || move.PlanIt? || move.SendIt? || move.Reply?)
    ensures Goes(w, WorkerStep(ctx, w, token, w.hands[token], move))
  {
    var h := w.hands[token];
    match move
    case Crash => HandsDropped(w, token);
    case PlanIt => PlanMoves(w, token);
    case SendIt => if h.stage.Planned? && h.stage.plan.Send? { SendMoves(w, token, h.stage.plan.out); }
    case Reply(response) =>
      if h.stage.Waiting? && Authentic(w, h.op.what.key, response) { ReplyMoves(w, token, response); }
  }

  lemma WorkerKeeps(ctx: Context, w: World, token: nat, move: WorkerMove)
    requires WorldInv(w) && token in w.hands
    ensures Goes(w, WorkerStep(ctx, w, token, w.hands[token], move))
  {
    var h := w.hands[token];
    match move
    case RenewIt(lease) => RenewMoves(ctx, w, token, lease);
    case ReleaseIt => ReleaseMoves(ctx, w, token);
    case RecordIt => if h.stage.Recording? { RecordMoves(w, token); }
    case PreviewIt(reply) =>
      if h.stage.Planned? && h.stage.plan.AskFirst? { PreviewMoves(ctx, w, token, h.stage.plan.request, reply); }
    case ApplyIt => if h.stage.Concluded? { ApplyMoves(w, token); }
    case _ => OutwardKeeps(ctx, w, token, move);
  }

  // ---------------------------------------------------------------- the server, and every run

  lemma ServeMoves(w: World, n: nat, revision: nat)
    requires WorldInv(w) && n < |w.sends|
    ensures Goes(w, ServeStep(w, n, revision))
  {
    if !Served(w.journal, w.sends[n].key) {
      var l := w.journal + [Effect(w.sends[n], revision)];
      assert Faithful(w.store, w.sends[n]);
      assert Grows(w.store, w.store);
      PastStays(w, w.store, l);
      forall k | k in w.store.turns ensures Backed(w.store, l, w.store.turns[k]) {
        BackedStays(w.store, w.journal, l, w.store.turns[k]);
      }
      forall id | id in w.store.history && Successful(w.store.history[id]) ensures ServedFor(l, id) {
        ServedForStays(w.journal, l, id);
      }
    }
  }

  lemma BackedStays(s: Store, j: seq<Effect>, l: seq<Effect>, turn: Turn)
    requires Backed(s, j, turn) && j <= l
    ensures Backed(s, l, turn)
  {
    if turn.revision.Some? {
      ServedAsStays(j, l, turn.operationId, turn.revision.value);
    }
  }

  lemma ReactKeeps(ctx: Context, w: World, a: Event)
    requires WorldInv(w)
    ensures Goes(w, React(ctx, w, a))
  {
    match a
    case OfHost(move) => HostKeeps(ctx, w, move);
    case Claiming(worker, pageSize, lease, cutoff) => ClaimKeeps(w, worker, pageSize, lease, cutoff);
    case OfWorker(token, move) => if token in w.hands { WorkerKeeps(ctx, w, token, move); }
    case Serving(n, revision) => if n < |w.sends| { ServeMoves(w, n, revision); }
  }

  lemma {:induction false} EventsKeep(ctx: Context, w: World, events: seq<Event>)
    requires WorldInv(w)
    ensures Goes(w, RunEvents(ctx, w, events))
    decreases |events|
  {
    if events != [] {
      var v := React(ctx, w, events[0]);
      ReactKeeps(ctx, w, events[0]);
      EventsKeep(ctx, v, events[1..]);
      GrowsOn(w.store, v.store, RunEvents(ctx, w, events).store);
    }
  }

  /** An empty database, no worker, and a server that has served nothing. */
  lemma ReachableWorld(ctx: Context, events: seq<Event>)
    ensures WorldInv(RunEvents(ctx, START, events))
  {
    ReachableInv([]);
    assert Run(EMPTY, []) == EMPTY;
    EventsKeep(ctx, START, events);
  }

  // ---------------------------------------------------------------- what a reconciler may act on

  /** What a reconciler reads from the index is allowed at once. */
  lemma ReadIsPast(s: Store, session: string, i: nat)
    requires i < |IndexedTurns(s, session)|
    ensures Past(s, IndexedTurns(s, session)[i])
  {
    TurnsBelowAscend(s, session, s.sessions[session].next);
    var r := IndexedTurns(s, session)[i];
    assert r == RecordAt(s, Slot(session, r.sequence));
  }

  lemma PastGrows(s: Store, t: Store, journal: seq<Effect>, r: IndexedTurnRecord)
    requires Past(s, r) && Grows(s, t) && OpsInv(t) && TurnsBacked(s, journal)
    ensures Past(t, r)
  {
    var slot := Slot(r.session, r.sequence);
    assert Backed(s, journal, s.turns[slot]);
    if r.operationId in t.ops {
      assert RowOk(t, r.operationId, t.ops[r.operationId]);
    }
  }

  /** A record that was read in a world may be corrected in every later one. */
  lemma ReadStaysAllowed(ctx: Context, before: seq<Event>, session: string, i: nat, after: seq<Event>)
    ensures
      var w := RunEvents(ctx, START, before);
      i < |IndexedTurns(w.store, session)| ==>
        Allowed(RunEvents(ctx, w, after).store, RewindIt(IndexedTurns(w.store, session)[i]))
  {
    var w := RunEvents(ctx, START, before);
    if i < |IndexedTurns(w.store, session)| {
      ReachableWorld(ctx, before);
      EventsKeep(ctx, w, after);
      ReadIsPast(w.store, session, i);
      PastGrows(w.store, RunEvents(ctx, w, after).store, w.journal, IndexedTurns(w.store, session)[i]);
    }
  }
}
