/** What every action of the delivery protocol keeps. */
module DeliveryInvariant {
  import opened Wrappers
  import opened Ordering
  import opened Requests
  import opened Outbox
  import opened OutboxInvariant
  import opened Sessions
  import opened Capture
  import opened Reconcile
  import opened Executor
  import opened Delivery

  // ---------------------------------------------------------------- operations of the runtime

  function KeyPrefix(kind: string): string {
    if kind == "raw_capture" then "hermes-turn-"
    else if kind == "manual_remember" then "hermes-remember-"
    else if kind == "context_exposure" then "hermes-context-"
    else "hermes-correction-"
  }

  /** Keys determine ids: no prefix is the beginning of another prefix and an id. */
  lemma KeysDetermineIds(kind: string, id: Id, kind': string, id': Id)
    requires KeyPrefix(kind) + id == KeyPrefix(kind') + id'
    ensures id == id'
  {
    var p, p' := KeyPrefix(kind), KeyPrefix(kind');
    assert p[7] == (p + id)[7] == (p' + id')[7] == p'[7];
    assert p[9] == (p + id)[9] == (p' + id')[9] == p'[9];
    assert p == p';
    assert id == (p + id)[|p|..] == (p' + id')[|p'|..] == id';
  }

  /**
   A correction carries the revision it expects, or depends on a captured turn that will supply it; it
   depends on nothing else.
   */
  ghost predicate Guarded(s: Store, m: Mutation) {
    && m.request.Correction? && (m.request.correction.expectedRevision.Some? || m.dependsOn.Some?)
    && (m.dependsOn.Some? ==> HasTurn(s, m.dependsOn.value))
  }

  /** What every operation of the runtime looks like. */
  ghost predicate Shaped(s: Store, id: Id, m: Mutation) {
    && m.key == KeyPrefix(m.kind) + id
    && match RouteOf(m)
       case ToRaw => m.request.RawMemory? && m.dependsOn.None?
       case ToExposure => m.request.Exposure? && m.dependsOn.None?
       case ToCorrection => Guarded(s, m) && KeyPrefix(m.kind) == "hermes-correction-"
       case Nowhere => false
  }

  /** What the operation sends, once it can be sent. */
  ghost function OutFor(s: Store, m: Mutation): Option<Outgoing> {
    OutVia(s, m, RouteOf(m), CorrectionSourceId(m.endpoint))
  }

  ghost function OutVia(s: Store, m: Mutation, route: Route, source: Result<string>): Option<Outgoing> {
    match route
    case ToRaw => Some(Outgoing("memory/raw", m.request))
    case ToExposure => Some(Outgoing("memory/expose", m.request))
    case ToCorrection =>
      if source.Err? || !m.request.Correction? || Guard(s, m, m.request.correction).None? then None
      else
        var guarded := m.request.correction.(expectedRevision := Guard(s, m, m.request.correction));
        Some(Outgoing(CorrectionPath(source.value), Correction(guarded)))
    case Nowhere => None
  }

  // ---------------------------------------------------------------- the parts of the invariant

  ghost predicate OpsShaped(s: Store) {
    forall id | Known(s, id) :: Shaped(s, id, IdentityOf(s, id))
  }

  ghost predicate ServedFor(journal: seq<Effect>, id: Id) {
    exists e :: 0 <= e < |journal| && journal[e].cause.id == id
  }

  ghost predicate ServedAs(journal: seq<Effect>, id: Id, revision: nat) {
    exists e :: 0 <= e < |journal| && journal[e].cause.id == id && journal[e].revision == revision
  }

  /**
   A captured turn has a revision as soon as it is not queued, and it is the server's; it leaves the
   queue by success only.
   */
  ghost predicate Backed(s: Store, journal: seq<Effect>, turn: Turn) {
    && Known(s, turn.operationId)
    && RouteOf(IdentityOf(s, turn.operationId)).ToRaw?
    && (turn.operationId !in s.ops ==> turn.revision.Some?)
    && (turn.operationId in s.history ==> Successful(s.history[turn.operationId]))
    && (turn.revision.Some? ==> ServedAs(journal, turn.operationId, turn.revision.value))
  }

  ghost predicate TurnsBacked(s: Store, journal: seq<Effect>) {
    forall k | k in s.turns :: Backed(s, journal, s.turns[k])
  }

  ghost predicate HistoryServed(s: Store, journal: seq<Effect>) {
    forall id | id in s.history && Successful(s.history[id]) :: ServedFor(journal, id)
  }

  /** A request on the wire is the one its operation prescribes, under the operation's key. */
  ghost predicate Faithful(s: Store, x: Sending) {
    && Known(s, x.id)
    && x.key == IdentityOf(s, x.id).key
    && OutFor(s, IdentityOf(s, x.id)) == Some(x.out)
  }

  ghost predicate SendsFaithful(s: Store, sends: seq<Sending>) {
    forall i | 0 <= i < |sends| :: Faithful(s, sends[i])
  }

  ghost predicate JournalOk(s: Store, journal: seq<Effect>) {
    && (forall e | 0 <= e < |journal| :: Faithful(s, journal[e].cause))
    && (forall e, f | 0 <= e < f < |journal| :: journal[e].cause.key != journal[f].cause.key)
  }

  ghost predicate Recorded(s: Store, id: Id) {
    forall k | IsTurnOf(s, k, id) :: s.turns[k].revision.Some?
  }

  ghost predicate StageOk(s: Store, journal: seq<Effect>, id: Id, m: Mutation, stage: Stage) {
    match stage
    case Ready => true
    case Planned(Send(out)) => OutFor(s, m) == Some(out)
    case Planned(AskFirst(_, _)) => RouteOf(m).ToCorrection?
    case Planned(Conclude(_)) => false
    case Waiting(_) => true
    case Recording(revision, _) => RouteOf(m).ToRaw? && revision >= 1 && ServedAs(journal, id, revision)
    case Concluded(result) =>
      && (result.action.Succeed? ==> ServedFor(journal, id) && (RouteOf(m).ToRaw? ==> Recorded(s, id)))
      && (result.action.DropObsolete? ==> !RouteOf(m).ToRaw?)
  }

  ghost predicate HandOk(s: Store, journal: seq<Effect>, h: Hand) {
    && Known(s, h.op.id) && IdentityOf(s, h.op.id) == h.op.what
    && Satisfied(s.history, h.op.what.dependsOn)
    && StageOk(s, journal, h.op.id, h.op.what, h.stage)
  }

  ghost predicate HandsOk(s: Store, journal: seq<Effect>, hands: map<nat, Hand>) {
    forall token | token in hands :: HandOk(s, journal, hands[token])
  }

  ghost predicate WorldInv(w: World) {
    && Inv(w.store)
    && OpsShaped(w.store)
    && TurnsBacked(w.store, w.journal)
    && HistoryServed(w.store, w.journal)
    && SendsFaithful(w.store, w.sends)
    && JournalOk(w.store, w.journal)
    && HandsOk(w.store, w.journal, w.hands)
  }

  // ---------------------------------------------------------------- what never changes

  ghost predicate IdentitiesKept(s: Store, t: Store) {
    forall id | Known(s, id) :: Known(t, id) && IdentityOf(t, id) == IdentityOf(s, id)
  }

  ghost predicate HistoryKept(s: Store, t: Store) {
    forall id | id in s.history :: id in t.history && t.history[id] == s.history[id]
  }

  /** Turns keep everything but the revision, and that too once they have one. */
  ghost predicate TurnsFixed(s: Store, t: Store) {
    && (forall k | k in s.turns ::
          && k in t.turns && t.turns[k] == s.turns[k].(revision := t.turns[k].revision)
          && (s.turns[k].revision.Some? ==> t.turns[k].revision == s.turns[k].revision))
    && (forall k | k in t.turns && k !in s.turns :: !Known(s, t.turns[k].operationId))
  }

  ghost predicate Grows(s: Store, t: Store) {
    IdentitiesKept(s, t) && HistoryKept(s, t) && TurnsFixed(s, t)
  }

  /** What a step of the protocol does: the invariant is kept, and the store only grows. */
  ghost predicate Goes(w: World, v: World) {
    WorldInv(v) && Grows(w.store, v.store)
  }

  lemma GrowsOn(s: Store, t: Store, u: Store)
    requires Grows(s, t) && Grows(t, u)
    ensures Grows(s, u)
  {
    forall k | k in u.turns && k !in s.turns ensures !Known(s, u.turns[k].operationId) {
      if k in t.turns {
        assert u.turns[k].operationId == t.turns[k].operationId;
      }
    }
  }

  lemma TurnStays(s: Store, t: Store, id: Id)
    requires TurnsFixed(s, t) && HasTurn(s, id)
    ensures HasTurn(t, id)
  {
    var k :| IsTurnOf(s, k, id);
    assert IsTurnOf(t, k, id);
  }

  lemma RevisionStays(s: Store, t: Store, id: Id)
    requires IndexInv(s) && IndexInv(t) && TurnsFixed(s, t) && TurnRevision(s, id).Some?
    ensures TurnRevision(t, id) == TurnRevision(s, id)
  {
    var k :| IsTurnOf(s, k, id);
    TurnRevisionAt(s, k, id);
    assert IsTurnOf(t, k, id);
    TurnRevisionAt(t, k, id);
  }

  lemma ShapeStays(s: Store, t: Store, id: Id, m: Mutation)
    requires TurnsFixed(s, t) && Shaped(s, id, m)
    ensures Shaped(t, id, m)
  {
    if m.dependsOn.Some? && HasTurn(s, m.dependsOn.value) {
      TurnStays(s, t, m.dependsOn.value);
    }
  }

  lemma GuardStays(s: Store, t: Store, m: Mutation, request: CorrectionRequest)
    requires IndexInv(s) && IndexInv(t) && TurnsFixed(s, t) && Guard(s, m, request).Some?
    ensures Guard(t, m, request) == Guard(s, m, request)
  {
    if request.expectedRevision.None? && m.dependsOn.Some? {
      RevisionStays(s, t, m.dependsOn.value);
    }
  }

  /** Once an operation can be sent, what it sends never changes. */
  lemma OutStays(s: Store, t: Store, m: Mutation)
    requires IndexInv(s) && IndexInv(t) && TurnsFixed(s, t) && OutFor(s, m).Some?
    ensures OutFor(t, m) == OutFor(s, m)
  {
    OutViaStays(s, t, m, RouteOf(m), CorrectionSourceId(m.endpoint));
  }

  lemma OutViaStays(s: Store, t: Store, m: Mutation, route: Route, source: Result<string>)
    requires IndexInv(s) && IndexInv(t) && TurnsFixed(s, t) && OutVia(s, m, route, source).Some?
    ensures OutVia(t, m, route, source) == OutVia(s, m, route, source)
  {
    if route.ToCorrection? {
      GuardStays(s, t, m, m.request.correction);
    }
  }

  lemma FaithfulStays(s: Store, t: Store, x: Sending)
    requires IndexInv(s) && IndexInv(t) && Grows(s, t) && Faithful(s, x)
    ensures Faithful(t, x)
  {
    OutStays(s, t, IdentityOf(s, x.id));
  }

  lemma RecordedStays(s: Store, t: Store, id: Id)
    requires TurnsFixed(s, t) && Known(s, id) && Recorded(s, id)
    ensures Recorded(t, id)
  {
    forall k | IsTurnOf(t, k, id) ensures t.turns[k].revision.Some? {
      assert k in s.turns;
      assert IsTurnOf(s, k, id);
    }
  }

  lemma StageStays(s: Store, t: Store, j: seq<Effect>, l: seq<Effect>, id: Id, m: Mutation, stage: Stage)
    requires IndexInv(s) && IndexInv(t) && Grows(s, t) && j <= l && Known(s, id)
    requires StageOk(s, j, id, m, stage)
    ensures StageOk(t, l, id, m, stage)
  {
    if stage.Planned? && stage.plan.Send? {
      OutStays(s, t, m);
    } else if stage.Recording? {
      ServedAsStays(j, l, id, stage.revision);
    } else if stage.Concluded? && stage.result.action.Succeed? {
      ServedForStays(j, l, id);
      if RouteOf(m).ToRaw? {
        RecordedStays(s, t, id);
      }
    }
  }

  lemma ServedForStays(j: seq<Effect>, l: seq<Effect>, id: Id)
    requires j <= l && ServedFor(j, id)
    ensures ServedFor(l, id)
  {
    var e :| 0 <= e < |j| && j[e].cause.id == id;
    assert l[e] == j[e];
  }

  lemma ServedAsStays(j: seq<Effect>, l: seq<Effect>, id: Id, revision: nat)
    requires j <= l && ServedAs(j, id, revision)
    ensures ServedAs(l, id, revision) && ServedFor(l, id)
  {
    var e :| 0 <= e < |j| && j[e].cause.id == id && j[e].revision == revision;
    assert l[e] == j[e];
  }

  lemma HandStays(s: Store, t: Store, j: seq<Effect>, l: seq<Effect>, h: Hand)
    requires IndexInv(s) && IndexInv(t) && Grows(s, t) && j <= l && HandOk(s, j, h)
    ensures HandOk(t, l, h)
  {
    StageStays(s, t, j, l, h.op.id, h.op.what, h.stage);
  }

  /** Everything that is said about the past stays true: only new rows, turns and entries remain to check. */
  lemma PastStays(w: World, t: Store, l: seq<Effect>)
    requires WorldInv(w) && Inv(t) && Grows(w.store, t) && w.journal <= l
    ensures forall id | Known(w.store, id) :: Shaped(t, id, IdentityOf(t, id))
    ensures SendsFaithful(t, w.sends)
    ensures forall e | 0 <= e < |w.journal| :: Faithful(t, w.journal[e].cause)
    ensures HandsOk(t, l, w.hands)
  {
    var s := w.store;
    forall id | Known(s, id) ensures Shaped(t, id, IdentityOf(t, id)) {
      ShapeStays(s, t, id, IdentityOf(s, id));
    }
    forall i | 0 <= i < |w.sends| ensures Faithful(t, w.sends[i]) {
      FaithfulStays(s, t, w.sends[i]);
    }
    forall e | 0 <= e < |w.journal| ensures Faithful(t, w.journal[e].cause) {
      FaithfulStays(s, t, w.journal[e].cause);
    }
    forall token | token in w.hands ensures HandOk(t, l, w.hands[token]) {
      HandStays(s, t, w.journal, l, w.hands[token]);
    }
  }

  // ---------------------------------------------------------------- the ways the store moves

  /** What a new store must bring besides growing. */
  ghost predicate NewIsSound(s: Store, t: Store, journal: seq<Effect>) {
    && (forall id | Known(t, id) && !Known(s, id) :: Shaped(t, id, IdentityOf(t, id)))
    && TurnsBacked(t, journal)
    && HistoryServed(t, journal)
  }

  lemma StoreMoves(w: World, t: Store)
    requires WorldInv(w) && Inv(t) && Grows(w.store, t) && NewIsSound(w.store, t, w.journal)
    ensures Goes(w, w.(store := t))
  {
    PastStays(w, t, w.journal);
  }

  /** Rows change only in their delivery columns; nothing enters or leaves a table. */
  ghost predicate Quiet(s: Store, t: Store) {
    && t.ops.Keys == s.ops.Keys && t.history == s.history && t.turns == s.turns
    && (forall id | id in s.ops :: t.ops[id].what == s.ops[id].what)
  }

  lemma QuietGrows(s: Store, t: Store, journal: seq<Effect>)
    requires Quiet(s, t) && TurnsBacked(s, journal) && HistoryServed(s, journal)
    ensures Grows(s, t) && NewIsSound(s, t, journal)
  {
    forall k | k in t.turns ensures Backed(t, journal, t.turns[k]) {
      assert Backed(s, journal, s.turns[k]);
    }
  }

  lemma QuietMoves(w: World, t: Store)
    requires WorldInv(w) && Inv(t) && Quiet(w.store, t)
    ensures Goes(w, w.(store := t))
  {
    QuietGrows(w.store, t, w.journal);
    StoreMoves(w, t);
  }

  /** One operation is inserted, perhaps with a turn of its own. */
  ghost predicate Inserts(s: Store, t: Store, op: NewOperation, turns: map<Slot, Turn>) {
    && !Known(s, op.id)
    && t.ops == s.ops[op.id := NewRow(op.what, s.clock)] && t.history == s.history
    && t.turns == s.turns + turns
    && (forall k | k in turns :: k !in s.turns && turns[k].operationId == op.id && turns[k].revision.None?)
  }

  lemma InsertGrows(s: Store, t: Store, op: NewOperation, turns: map<Slot, Turn>, journal: seq<Effect>)
    requires Inserts(s, t, op, turns) && TurnsBacked(s, journal) && HistoryServed(s, journal)
    requires Shaped(s, op.id, Stored(op.what))
    requires turns != map[] ==> RouteOf(Stored(op.what)).ToRaw?
    ensures Grows(s, t) && NewIsSound(s, t, journal)
  {
    ShapeStays(s, t, op.id, Stored(op.what));
    forall k | k in t.turns ensures Backed(t, journal, t.turns[k]) {
      if k !in turns {
        assert Backed(s, journal, s.turns[k]);
      }
    }
  }

  lemma InsertMoves(w: World, t: Store, op: NewOperation, turns: map<Slot, Turn>)
    requires WorldInv(w) && Inv(t) && Inserts(w.store, t, op, turns)
    requires Shaped(w.store, op.id, Stored(op.what))
    requires turns != map[] ==> RouteOf(Stored(op.what)).ToRaw?
    ensures Goes(w, w.(store := t))
  {
    InsertGrows(w.store, t, op, turns, w.journal);
    StoreMoves(w, t);
  }

  /** A claimed operation leaves the queue for history. */
  ghost predicate Archives(s: Store, t: Store, id: Id, e: Entry) {
    && id in s.ops && id !in s.history
    && t.ops == s.ops - {id} && t.history == s.history[id := e] && t.turns == s.turns
    && e.what == s.ops[id].what
  }

  lemma ArchiveGrows(s: Store, t: Store, id: Id, e: Entry, journal: seq<Effect>)
    requires Archives(s, t, id, e) && TurnsBacked(s, journal) && HistoryServed(s, journal)
    requires Successful(e) ==> ServedFor(journal, id)
    requires RouteOf(e.what).ToRaw? ==> Recorded(s, id) && Successful(e)
    ensures Grows(s, t) && NewIsSound(s, t, journal)
  {
    forall k | k in t.turns ensures Backed(t, journal, t.turns[k]) {
      assert Backed(s, journal, s.turns[k]);
      if s.turns[k].operationId == id {
        assert IsTurnOf(s, k, id);
      }
    }
  }

  lemma ArchiveMoves(w: World, t: Store, id: Id, e: Entry)
    requires WorldInv(w) && Inv(t) && Archives(w.store, t, id, e)
    requires Successful(e) ==> ServedFor(w.journal, id)
    requires RouteOf(e.what).ToRaw? ==> Recorded(w.store, id) && Successful(e)
    ensures Goes(w, w.(store := t))
  {
    ArchiveGrows(w.store, t, id, e, w.journal);
    StoreMoves(w, t);
  }
}
