/**
 The reconciler and the delivery protocol together. A sync_turn is a run of the host's moves, so it may
 fall anywhere in a schedule; and once what a reconciliation enqueued has been delivered, the captures
 the server has had less the corrections it has had are what the multiset law says.
 */
module SyncDelivery {
  import opened Wrappers
  import opened Ordering
  import opened Requests
  import opened Outbox
  import opened OutboxInvariant
  import opened OutboxRuns
  import opened Flush
  import opened FlushOrder
  import opened Sessions
  import opened Capture
  import opened Reconcile
  import opened Rerun
  import opened Executor
  import opened Runtime
  import opened RuntimeFlush
  import opened Delivery
  import opened DeliveryInvariant
  import opened DeliverySteps
  import opened DeliveryTheorems
  import opened FlushDelivery
  import opened FlushDrains

  // ---------------------------------------------------------------- runs of the host

  /** Some run of the host's moves leads from one store to the other. */
  ghost predicate HostReaches(ctx: Context, s: Store, t: Store) {
    exists commands :: HostRun(ctx, s, commands) && Run(s, commands) == t
  }

  lemma HostStays(ctx: Context, s: Store)
    ensures HostReaches(ctx, s, s)
  {
    assert HostRun(ctx, s, []) && Run(s, []) == s;
  }

  lemma HostMoves(ctx: Context, s: Store, move: HostMove)
    requires Allowed(s, move)
    ensures HostReaches(ctx, s, Step(s, CommandOf(ctx, move)))
  {
    var c := CommandOf(ctx, move);
    assert Ambient(ctx, s, c) && [c][1..] == [];
    RunOfOne(s, c);
    assert HostRun(ctx, s, [c]);
  }

  lemma {:induction false} HostRunAppend(ctx: Context, s: Store, a: seq<Command>, b: seq<Command>)
    requires HostRun(ctx, s, a) && HostRun(ctx, Run(s, a), b)
    ensures HostRun(ctx, s, a + b)
    decreases |a|
  {
    if a == [] {
      assert a + b == b;
    } else {
      assert (a + b)[1..] == a[1..] + b;
      HostRunAppend(ctx, Step(s, a[0]), a[1..], b);
    }
  }

  lemma HostThen(ctx: Context, s: Store, t: Store, u: Store)
    requires HostReaches(ctx, s, t) && HostReaches(ctx, t, u)
    ensures HostReaches(ctx, s, u)
  {
    var a :| HostRun(ctx, s, a) && Run(s, a) == t;
    var b :| HostRun(ctx, t, b) && Run(t, b) == u;
    HostRunAppend(ctx, s, a, b);
    RunAppend(s, a, b);
    assert Run(s, a + b) == u;
  }

  /** What the host reaches is reached in a schedule, and the protocol's invariant holds there. */
  lemma HostSchedules(ctx: Context, w: World, t: Store)
    requires HostReaches(ctx, w.store, t)
    ensures Leads(ctx, w, w.(store := t))
    ensures WorldInv(w) ==> WorldInv(w.(store := t))
  {
    var commands :| HostRun(ctx, w.store, commands) && Run(w.store, commands) == t;
    HostLeads(ctx, w, commands);
    if WorldInv(w) {
      var events :| RunEvents(ctx, w, events) == w.(store := t);
      EventsKeep(ctx, w, events);
    }
  }

  // ---------------------------------------------------------------- sync_turn is such a run

  lemma CaptureByHost(ctx: Context, s: Store, session: string, text: TurnText, turnNumber: Option<int>)
    ensures HostReaches(ctx, s, CaptureTurn(s, ctx, session, text, turnNumber).store)
  {
    HostMoves(ctx, s, CaptureIt(session, ParentOf(s, session), text, turnNumber));
  }

  lemma {:induction false} CapturesByHost(ctx: Context, s: Store, session: string, texts: seq<TurnText>)
    ensures HostReaches(ctx, s, CaptureAll(s, ctx, session, texts).store)
    decreases |texts|
  {
    if texts == [] {
      HostStays(ctx, s);
    } else {
      var front := CaptureAll(s, ctx, session, texts[..|texts| - 1]);
      CapturesByHost(ctx, s, session, texts[..|texts| - 1]);
      if front.result.Ok? {
        CaptureByHost(ctx, front.store, session, texts[|texts| - 1], None);
        HostThen(ctx, s, front.store, CaptureAll(s, ctx, session, texts).store);
      }
    }
  }

  /** The operation corrects a record that was read. */
  ghost predicate Rewinds(ctx: Context, s: Store, op: NewOperation) {
    exists r :: Past(s, r) && Known(s, r.operationId) && op == RewindOp(ctx, r)
  }

  lemma RewindsStill(ctx: Context, s: Store, t: Store, op: NewOperation)
    requires Rewinds(ctx, s, op) && Inv(t) && Evolves(s, t) && t.turns == s.turns
    ensures Rewinds(ctx, t, op)
  {
    var r :| Past(s, r) && Known(s, r.operationId) && op == RewindOp(ctx, r);
    var id := r.operationId;
    assert id in s.ops ==> RowKept(s.ops[id], id, t);
    assert id in t.ops ==> RowOk(t, id, t.ops[id]);
    assert Past(t, r);
  }

  lemma RewindByHost(ctx: Context, s: Store, op: NewOperation)
    requires Rewinds(ctx, s, op)
    ensures HostReaches(ctx, s, Enqueue(s, op).store)
  {
    var r :| Past(s, r) && Known(s, r.operationId) && op == RewindOp(ctx, r);
    HostMoves(ctx, s, RewindIt(r));
  }

  lemma NextByHost(ctx: Context, s: Store, front: seq<NewOperation>, op: NewOperation)
    requires Inv(s) && Rewinds(ctx, s, op)
    ensures
      var m := EnqueueAll(s, front).store;
      HostReaches(ctx, m, Enqueue(m, op).store)
  {
    EnqueueAllKeeps(s, front);
    RewindsStill(ctx, s, EnqueueAll(s, front).store, op);
    RewindByHost(ctx, EnqueueAll(s, front).store, op);
  }

  lemma {:induction false} CorrectionsByHost(ctx: Context, s: Store, ops: seq<NewOperation>)
    requires Inv(s) && forall i | 0 <= i < |ops| :: Rewinds(ctx, s, ops[i])
    ensures HostReaches(ctx, s, EnqueueAll(s, ops).store)
    decreases |ops|
  {
    if ops == [] {
      HostStays(ctx, s);
    } else {
      var front, last := ops[..|ops| - 1], ops[|ops| - 1];
      CorrectionsByHost(ctx, s, front);
      if EnqueueAll(s, front).result.Ok? {
        NextByHost(ctx, s, front, last);
        HostThen(ctx, s, EnqueueAll(s, front).store, Enqueue(EnqueueAll(s, front).store, last).store);
      }
    }
  }

  lemma {:induction false} StaleAreListed(ts: seq<IndexedTurn>, committed: multiset<string>, n: nat)
    requires n <= |ts|
    ensures forall x | x in Stale(ts, committed, n) :: x in ts
  {
    if n > 0 {
      StaleAreListed(ts, committed, n - 1);
    }
  }

  /** A plan's corrections are of indexed turns. */
  lemma PlannedAreIndexed(ctx: Context, s: Store, session: string, messages: seq<Message>, i: nat)
    returns (k: nat)
    requires i < |Corrections(s, ctx, session, messages)|
    ensures k < |IndexedTurns(s, session)|
    ensures Corrections(s, ctx, session, messages)[i]
         == CorrectionOp(ctx, Intent(ToIndexed(IndexedTurns(s, session))[k]))
  {
    var ts, committed := ToIndexed(IndexedTurns(s, session)), multiset(Fingerprints(ctx, messages));
    IndexIsSorted(s, session);
    StaleAreListed(ts, committed, |ts|);
    var stale := Stale(ts, committed, |ts|);
    assert stale[i] in ts;
    k :| 0 <= k < |ts| && ts[k] == stale[i];
  }

  /** What the reconciler plans are corrections of the records it reads. */
  lemma PlannedRewind(ctx: Context, w: World, session: string, messages: seq<Message>, i: nat)
    requires WorldInv(w) && i < |Corrections(w.store, ctx, session, messages)|
    ensures Rewinds(ctx, w.store, Corrections(w.store, ctx, session, messages)[i])
  {
    var k := PlannedAreIndexed(ctx, w.store, session, messages, i);
    var r := IndexedTurns(w.store, session)[k];
    ReadIsPast(w.store, session, k);
    TurnsAreKnown(w, r);
    assert RewindOp(ctx, r) == Corrections(w.store, ctx, session, messages)[i];
  }

  lemma TurnsAreKnown(w: World, r: IndexedTurnRecord)
    requires WorldInv(w) && Past(w.store, r)
    ensures Known(w.store, r.operationId)
  {
    assert Backed(w.store, w.journal, w.store.turns[Slot(r.session, r.sequence)]);
  }

  lemma BackfillByHost(ctx: Context, s: Store, session: string, messages: seq<Message>, current: TurnText)
    ensures HostReaches(ctx, s, Backfill(s, ctx, session, messages, current).store)
  {
    var counts, prior := multiset(RecordHashes(IndexedTurns(s, session))), PriorTurns(messages, current);
    CapturesByHost(ctx, s, session, Missing(ctx, counts, prior, |prior|));
  }

  lemma ReconcileByHost(ctx: Context, w: World, session: string, messages: seq<Message>, current: TurnText)
    requires WorldInv(w)
    ensures HostReaches(ctx, w.store, Reconcile.ReconcileSession(w.store, ctx, session, messages, current).store)
  {
    var filled := Backfill(w.store, ctx, session, messages, current);
    BackfillByHost(ctx, w.store, session, messages, current);
    if filled.result.Ok? {
      var corrected := EnqueueAll(filled.store, Corrections(filled.store, ctx, session, messages));
      HostSchedules(ctx, w, filled.store);
      PlanByHost(ctx, w.(store := filled.store), session, messages);
      HostThen(ctx, w.store, filled.store, corrected.store);
      MarkByHost(ctx, corrected.store, session);
      HostThen(ctx, w.store, corrected.store, MarkSessionReconcile(corrected.store, session, "", false).store);
    }
  }

  lemma MarkByHost(ctx: Context, s: Store, session: string)
    ensures HostReaches(ctx, s, MarkSessionReconcile(s, session, "", false).store)
  {
    HostMoves(ctx, s, MarkIt(session, "", false));
  }

  lemma PlanByHost(ctx: Context, w: World, session: string, messages: seq<Message>)
    requires WorldInv(w)
    ensures HostReaches(ctx, w.store, EnqueueAll(w.store, Corrections(w.store, ctx, session, messages)).store)
  {
    var ops := Corrections(w.store, ctx, session, messages);
    forall i | 0 <= i < |ops| ensures Rewinds(ctx, w.store, ops[i]) {
      PlannedRewind(ctx, w, session, messages, i);
    }
    CorrectionsByHost(ctx, w.store, ops);
  }

  /** A sync_turn, whether it returns or raises, is a run of the host's moves, so a schedule. */
  lemma SyncIsHostRun(ctx: Context, w: World, q: Queues, settings: Settings, active: string,
                      messages: Option<seq<Message>>, current: TurnText)
    requires WorldInv(w)
    ensures
      var end := Synced(w.store, q, settings, ctx, active, messages, current).0;
      HostReaches(ctx, w.store, end) && Leads(ctx, w, w.(store := end))
  {
    var first := Runtime.Reconciled(w.store, ctx, active, messages, current);
    var end := Synced(w.store, q, settings, ctx, active, messages, current).0;
    if messages.Some? && ReconcileRequired(w.store, active) {
      ReconcileByHost(ctx, w, active, messages.value, current);
    } else {
      HostStays(ctx, w.store);
    }
    if first.result.Ok? {
      var pending := Consumed(q, active, settings.messageHash(current.user)).1;
      CaptureByHost(ctx, first.store, active, current, if pending.Ok? then Some(pending.value.turnNumber) else None);
      HostThen(ctx, w.store, first.store, end);
    }
    HostSchedules(ctx, w, end);
  }

  // ---------------------------------------------------------------- what the server has had

  /** The turns whose capture the server has served. */
  ghost function Captured(journal: seq<Effect>, ts: seq<IndexedTurn>): seq<IndexedTurn> {
    if ts == [] then [] else
      Captured(journal, ts[..|ts| - 1])
      + if ServedFor(journal, ts[|ts| - 1].operationId) then [ts[|ts| - 1]] else []
  }

  /** The turns whose correction the server has served. */
  ghost function Withdrawn(ctx: Context, journal: seq<Effect>, ts: seq<IndexedTurn>): seq<IndexedTurn> {
    if ts == [] then [] else
      Withdrawn(ctx, journal, ts[..|ts| - 1])
      + if ServedFor(journal, CorrectionOp(ctx, Intent(ts[|ts| - 1])).id) then [ts[|ts| - 1]] else []
  }

  lemma {:induction false} AllCaptured(journal: seq<Effect>, ts: seq<IndexedTurn>)
    requires forall i | 0 <= i < |ts| :: ServedFor(journal, ts[i].operationId)
    ensures Captured(journal, ts) == ts
  {
    if ts != [] {
      AllCaptured(journal, ts[..|ts| - 1]);
    }
  }

  lemma {:induction false} AllWithdrawn(ctx: Context, journal: seq<Effect>, ts: seq<IndexedTurn>)
    requires forall i | 0 <= i < |ts| :: ServedFor(journal, CorrectionOp(ctx, Intent(ts[i])).id)
    ensures Withdrawn(ctx, journal, ts) == ts
  {
    if ts != [] {
      AllWithdrawn(ctx, journal, ts[..|ts| - 1]);
    }
  }

  /** The planned turns have left the queue, and the corrections were archived as successes. */
  ghost predicate AllDelivered(ctx: Context, s: Store, planned: seq<IndexedTurn>, stale: seq<IndexedTurn>) {
    && (forall i | 0 <= i < |planned| :: planned[i].operationId !in s.ops)
    && (forall i | 0 <= i < |stale| ::
          var id := CorrectionOp(ctx, Intent(stale[i])).id;
          id in s.history && Successful(s.history[id]))
  }

  /** Per hash: captures served less corrections served. */
  ghost function Standing(ctx: Context, journal: seq<Effect>, planned: seq<IndexedTurn>, stale: seq<IndexedTurn>,
                          h: string): int
  {
    var captured, withdrawn := Captured(journal, planned), Withdrawn(ctx, journal, stale);
    multiset(Hashes(captured))[h] as int - multiset(Hashes(withdrawn))[h] as int
  }

  lemma CaptureWasServed(w: World, t: Store, session: string, i: nat)
    requires WorldInv(w) && TurnsFixed(t, w.store) && i < |IndexedTurns(t, session)|
    requires IndexedTurns(t, session)[i].operationId !in w.store.ops
    ensures ServedFor(w.journal, IndexedTurns(t, session)[i].operationId)
  {
    var r := IndexedTurns(t, session)[i];
    ReadIsPast(t, session, i);
    var turn := w.store.turns[Slot(r.session, r.sequence)];
    assert Backed(w.store, w.journal, turn);
    var e :| 0 <= e < |w.journal| && w.journal[e].cause.id == turn.operationId
             && w.journal[e].revision == turn.revision.value;
    assert ServedFor(w.journal, turn.operationId);
  }

  /** All of the index a reconciliation leaves has been served, once it has been delivered. */
  lemma PlannedAreServed(w: World, t: Store, session: string, planned: seq<IndexedTurn>)
    requires WorldInv(w) && TurnsFixed(t, w.store) && SameTurns(planned, ToIndexed(IndexedTurns(t, session)))
    requires forall i | 0 <= i < |planned| :: planned[i].operationId !in w.store.ops
    ensures forall i | 0 <= i < |planned| :: ServedFor(w.journal, planned[i].operationId)
  {
    forall i | 0 <= i < |planned| ensures ServedFor(w.journal, planned[i].operationId) {
      assert SameTurn(planned[i], ToIndexed(IndexedTurns(t, session))[i]);
      CaptureWasServed(w, t, session, i);
    }
  }

  /** What the law says of one reconciliation of `s`. */
  ghost predicate LawHolds(ctx: Context, journal: seq<Effect>, s: Store, session: string, messages: seq<Message>,
                           current: TurnText, h: string)
  {
    forall front | IsFront(messages, current, front) :: LawWith(ctx, journal, s, session, messages, current, front, h)
  }

  ghost predicate LawWith(ctx: Context, journal: seq<Effect>, s: Store, session: string, messages: seq<Message>,
                          current: TurnText, front: seq<TurnText>, h: string)
  {
    var indexed, prior := IndexCounts(s, session), TextCounts(ctx, front);
    var transcript := TextCounts(ctx, Read(messages).turns);
    var standing := Standing(ctx, journal, PlannedOver(s, ctx, session, messages, current),
                             Corrected(s, ctx, session, messages, current), h);
    && standing == Min(Max(indexed[h], prior[h]), transcript[h])
    && prior[h] <= standing <= transcript[h]
    && (front == Read(messages).turns ==> standing == transcript[h])
  }

  lemma LawOfDelivered(ctx: Context, journal: seq<Effect>, s: Store, session: string, messages: seq<Message>,
                       current: TurnText, h: string)
    requires Inv(s) && Reconcile.ReconcileSession(s, ctx, session, messages, current).result.Ok?
    requires
      var planned := PlannedOver(s, ctx, session, messages, current);
      var stale := Corrected(s, ctx, session, messages, current);
      Captured(journal, planned) == planned && Withdrawn(ctx, journal, stale) == stale
    ensures LawHolds(ctx, journal, s, session, messages, current, h)
  {
    forall front | IsFront(messages, current, front)
      ensures LawWith(ctx, journal, s, session, messages, current, front, h)
    {
      MultisetLaw(s, ctx, session, messages, current, front, h);
      StandsAsLeft(ctx, journal, s, session, messages, current, h);
    }
  }

  /** What stands on the server is what the plan left uncorrected. */
  lemma StandsAsLeft(ctx: Context, journal: seq<Effect>, s: Store, session: string, messages: seq<Message>,
                     current: TurnText, h: string)
    requires
      var planned := PlannedOver(s, ctx, session, messages, current);
      var stale := Corrected(s, ctx, session, messages, current);
      Captured(journal, planned) == planned && Withdrawn(ctx, journal, stale) == stale
    ensures Standing(ctx, journal, PlannedOver(s, ctx, session, messages, current),
                     Corrected(s, ctx, session, messages, current), h)
         == multiset(Hashes(Uncorrected(s, ctx, session, messages, current)))[h]
  {
    PlanSplits(PlannedOver(s, ctx, session, messages, current), multiset(Fingerprints(ctx, messages)));
  }

  /**
   A reconciliation, then any schedule that ends with its captures and corrections delivered: per hash,
   the captures the server has served less the corrections it has served number
   min(max(indexed, prior), transcript), which is the transcript when that has no turn but prior ones.
   */
  lemma DeliveredLaw(ctx: Context, before: seq<Event>, session: string, messages: seq<Message>, current: TurnText,
                     after: seq<Event>, h: string)
    requires
      var w := RunEvents(ctx, START, before);
      var r := Reconcile.ReconcileSession(w.store, ctx, session, messages, current);
      && r.result.Ok?
      && AllDelivered(ctx, RunEvents(ctx, w.(store := r.store), after).store,
                      PlannedOver(w.store, ctx, session, messages, current),
                      Corrected(w.store, ctx, session, messages, current))
    ensures
      var w := RunEvents(ctx, START, before);
      var r := Reconcile.ReconcileSession(w.store, ctx, session, messages, current);
      LawHolds(ctx, RunEvents(ctx, w.(store := r.store), after).journal, w.store, session, messages, current, h)
  {
    ReachableWorld(ctx, before);
    LawAfterwards(ctx, RunEvents(ctx, START, before), session, messages, current, after, h);
  }

  lemma LawAfterwards(ctx: Context, w: World, session: string, messages: seq<Message>, current: TurnText,
                      after: seq<Event>, h: string)
    requires WorldInv(w) && Reconcile.ReconcileSession(w.store, ctx, session, messages, current).result.Ok?
    requires
      var x := w.(store := Reconcile.ReconcileSession(w.store, ctx, session, messages, current).store);
      AllDelivered(ctx, RunEvents(ctx, x, after).store, PlannedOver(w.store, ctx, session, messages, current),
                   Corrected(w.store, ctx, session, messages, current))
    ensures
      var x := w.(store := Reconcile.ReconcileSession(w.store, ctx, session, messages, current).store);
      LawHolds(ctx, RunEvents(ctx, x, after).journal, w.store, session, messages, current, h)
  {
    var t := Reconcile.ReconcileSession(w.store, ctx, session, messages, current).store;
    ReconcileByHost(ctx, w, session, messages, current);
    HostSchedules(ctx, w, t);
    EventsKeep(ctx, w.(store := t), after);
    LawInWorld(ctx, w.store, session, messages, current, RunEvents(ctx, w.(store := t), after), h);
  }

  /** The law in any later world of the protocol in which the plan is delivered. */
  lemma LawInWorld(ctx: Context, s: Store, session: string, messages: seq<Message>, current: TurnText, v: World,
                   h: string)
    requires Inv(s) && Reconcile.ReconcileSession(s, ctx, session, messages, current).result.Ok?
    requires WorldInv(v)
    requires TurnsFixed(Reconcile.ReconcileSession(s, ctx, session, messages, current).store, v.store)
    requires AllDelivered(ctx, v.store, PlannedOver(s, ctx, session, messages, current),
                          Corrected(s, ctx, session, messages, current))
    ensures LawHolds(ctx, v.journal, s, session, messages, current, h)
  {
    var t, planned := Reconcile.ReconcileSession(s, ctx, session, messages, current).store,
                      PlannedOver(s, ctx, session, messages, current);
    ReconciledIndex(s, ctx, session, messages, current);
    PlannedAreServed(v, t, session, planned);
    AllCaptured(v.journal, planned);
    WithdrawnAreServed(ctx, v, Corrected(s, ctx, session, messages, current));
    LawOfDelivered(ctx, v.journal, s, session, messages, current, h);
  }

  lemma WithdrawnAreServed(ctx: Context, v: World, stale: seq<IndexedTurn>)
    requires WorldInv(v)
    requires forall i | 0 <= i < |stale| ::
               var id := CorrectionOp(ctx, Intent(stale[i])).id;
               id in v.store.history && Successful(v.store.history[id])
    ensures Withdrawn(ctx, v.journal, stale) == stale
  {
    AllWithdrawn(ctx, v.journal, stale);
  }

  // ---------------------------------------------------------------- a reconciliation and one flush

  /** Every correction that was archived before was archived as a success. */
  ghost predicate NoneDropped(ctx: Context, t: Store, stale: seq<IndexedTurn>) {
    forall i | 0 <= i < |stale| ::
      var id := CorrectionOp(ctx, Intent(stale[i])).id;
      id in t.history ==> Successful(t.history[id])
  }

  /** The world a reconciliation leaves, some time later. */
  function Later(ctx: Context, w: World, session: string, messages: seq<Message>, current: TurnText, duration: nat)
    : World
  {
    var t := Reconcile.ReconcileSession(w.store, ctx, session, messages, current).store;
    w.(store := t.(clock := t.clock + duration))
  }

  lemma ReconciledIsReached(ctx: Context, w: World, session: string, messages: seq<Message>, current: TurnText)
    requires Reached(ctx, w)
    ensures Reached(ctx, w.(store := Reconcile.ReconcileSession(w.store, ctx, session, messages, current).store))
  {
    var t := Reconcile.ReconcileSession(w.store, ctx, session, messages, current).store;
    ReachedInv(ctx, w);
    ReconcileByHost(ctx, w, session, messages, current);
    HostSchedules(ctx, w, t);
    LeadsOn(ctx, START, w, w.(store := t));
  }

  lemma TimeIsReached(ctx: Context, y: World, duration: nat)
    requires Reached(ctx, y)
    ensures Reached(ctx, y.(store := y.store.(clock := y.store.clock + duration)))
  {
    var e := OfHost(TimePasses(duration));
    LeadsOneStep(ctx, y, e);
    assert React(ctx, y, e) == y.(store := y.store.(clock := y.store.clock + duration));
    LeadsOn(ctx, START, y, React(ctx, y, e));
  }

  lemma LaterIsReached(ctx: Context, w: World, session: string, messages: seq<Message>, current: TurnText,
                       duration: nat)
    requires Reached(ctx, w)
    ensures Reached(ctx, Later(ctx, w, session, messages, current, duration))
    ensures Inv(Later(ctx, w, session, messages, current, duration).store)
  {
    var t := Reconcile.ReconcileSession(w.store, ctx, session, messages, current).store;
    ReconciledIsReached(ctx, w, session, messages, current);
    TimeIsReached(ctx, w.(store := t), duration);
    ReachedInv(ctx, Later(ctx, w, session, messages, current, duration));
  }

  ghost predicate SameTables(s: Store, t: Store) {
    s.ops == t.ops && s.history == t.history && s.turns == t.turns
  }

  lemma LeadsGoes(ctx: Context, x: World, v: World)
    requires Reached(ctx, x) && Leads(ctx, x, v)
    ensures WorldInv(x) && WorldInv(v) && Grows(x.store, v.store)
  {
    ReachedInv(ctx, x);
    var events :| RunEvents(ctx, x, events) == v;
    EventsKeep(ctx, x, events);
  }

  /** Once all that the reconciliation left queued is archived, its plan is delivered. */
  lemma DrainedIsDelivered(ctx: Context, s: Store, session: string, messages: seq<Message>, current: TurnText,
                           x: World, v: World)
    requires Inv(s) && Reconcile.ReconcileSession(s, ctx, session, messages, current).result.Ok?
    requires SameTables(x.store, Reconcile.ReconcileSession(s, ctx, session, messages, current).store)
    requires NoneDropped(ctx, x.store, Corrected(s, ctx, session, messages, current))
    requires Reached(ctx, x) && Leads(ctx, x, v) && AllServed(x, v)
    ensures AllDelivered(ctx, v.store, PlannedOver(s, ctx, session, messages, current),
                         Corrected(s, ctx, session, messages, current))
  {
    var t := Reconcile.ReconcileSession(s, ctx, session, messages, current).store;
    var planned := PlannedOver(s, ctx, session, messages, current);
    var stale := Corrected(s, ctx, session, messages, current);
    CorrectionsAccepted(s, ctx, session, messages, current);
    LeadsGoes(ctx, x, v);
    forall i | 0 <= i < |stale|
      ensures
        var id := CorrectionOp(ctx, Intent(stale[i])).id;
        id in v.store.history && Successful(v.store.history[id])
    {
      assert Reconcile.Accepted(t, CorrectionOp(ctx, Intent(stale[i])));
    }
    ReconciledIndex(s, ctx, session, messages, current);
    forall i | 0 <= i < |planned| ensures planned[i].operationId !in v.store.ops {
      assert SameTurn(planned[i], ToIndexed(IndexedTurns(t, session))[i]);
      ReadIsPast(t, session, i);
      ArchivedByNow(x, v, IndexedTurns(t, session)[i]);
    }
  }

  lemma ArchivedByNow(x: World, v: World, r: IndexedTurnRecord)
    requires WorldInv(x) && WorldInv(v) && Grows(x.store, v.store) && AllServed(x, v)
    requires Slot(r.session, r.sequence) in x.store.turns
    requires x.store.turns[Slot(r.session, r.sequence)].operationId == r.operationId
    ensures r.operationId !in v.store.ops
  {
    assert Backed(x.store, x.journal, x.store.turns[Slot(r.session, r.sequence)]);
    assert r.operationId in v.store.history;
    assert EntryOk(v.store, r.operationId, v.store.history[r.operationId]);
  }

  lemma LawAfterFlush(ctx: Context, s: Store, session: string, messages: seq<Message>, current: TurnText,
                      x: World, v: World, h: string)
    requires Inv(s) && Reconcile.ReconcileSession(s, ctx, session, messages, current).result.Ok?
    requires SameTables(x.store, Reconcile.ReconcileSession(s, ctx, session, messages, current).store)
    requires NoneDropped(ctx, x.store, Corrected(s, ctx, session, messages, current))
    requires Reached(ctx, x) && Leads(ctx, x, v) && AllServed(x, v)
    ensures LawHolds(ctx, v.journal, s, session, messages, current, h)
  {
    DrainedIsDelivered(ctx, s, session, messages, current, x, v);
    LeadsGoes(ctx, x, v);
    LawInWorld(ctx, s, session, messages, current, v, h);
  }

  /**
   A reconciliation in any world of the protocol, some time, and one unhindered flush: the server then
   stands, per hash, where the law says, and where the transcript is if it has only prior turns.
   */
  lemma ReconciledAndFlushed(ctx: Context, w: World, session: string, messages: seq<Message>,
                             current: TurnText, duration: nat, j: Job, server: string -> nat,
                             clients: (Store, ClaimedOperation) -> Client,
                             rest: (Store, ClaimedOperation) -> Meanwhile, h: string) returns (v: World)
    requires Reached(ctx, w) && ServedBy(server, w)
    requires Reconcile.ReconcileSession(w.store, ctx, session, messages, current).result.Ok?
    requires RuntimeJob(ctx, j, server, clients, rest) && Unhindered(j, clients, rest)
    requires
      var s := Later(ctx, w, session, messages, current, duration).store;
      && j.cutoff <= s.clock && Deliverable(s, j.cutoff)
      && NoneDropped(ctx, s, Corrected(w.store, ctx, session, messages, current))
    ensures Inv(Later(ctx, w, session, messages, current, duration).store)
    ensures
      var x := Later(ctx, w, session, messages, current, duration);
      && Reached(ctx, x) && Leads(ctx, x, v) && v.store == RunFlush(j, Begin(x.store)).store
    ensures LawHolds(ctx, v.journal, w.store, session, messages, current, h)
  {
    var x := Later(ctx, w, session, messages, current, duration);
    LaterIsReached(ctx, w, session, messages, current, duration);
    v := DrainedFrom(ctx, j, server, clients, rest, x);
    ReachedInv(ctx, w);
    LawAfterFlush(ctx, w.store, session, messages, current, x, v, h);
  }
}
