/**
 What the delivery protocol guarantees in every run: claims expire and are reclaimed, workers crash
 or come back late, and messages are delayed, repeated and lost, in any order.
 */
module DeliveryTheorems {
  import opened Wrappers
  import opened Ordering
  import opened Requests
  import opened Outbox
  import opened OutboxInvariant
  import opened Sessions
  import opened Capture
  import opened Reconcile
  import opened Executor
  import opened Delivery
  import opened DeliveryInvariant
  import opened DeliverySteps

  // ---------------------------------------------------------------- exactly once

  /** The effects an operation has had on the server. */
  function EffectsOf(journal: seq<Effect>, id: Id): set<nat> {
    set e: nat | e < |journal| && journal[e].cause.id == id
  }

  lemma SameOperationSameSending(s: Store, x: Sending, y: Sending)
    requires Faithful(s, x) && Faithful(s, y) && x.id == y.id
    ensures x == y
  {
  }

  lemma SameKeySameOperation(s: Store, x: Sending, y: Sending)
    requires OpsShaped(s) && Faithful(s, x) && Faithful(s, y) && x.key == y.key
    ensures x.id == y.id
  {
    var m, n := IdentityOf(s, x.id), IdentityOf(s, y.id);
    assert Shaped(s, x.id, m) && Shaped(s, y.id, n);
    KeysDetermineIds(m.kind, x.id, n.kind, y.id);
  }

  /**
   Every time an operation is sent, by whichever worker, it is sent under one key with one payload,
   and no two operations ever share a key. So the server never sees a key with another payload.
   */
  lemma SentUnderOneKey(ctx: Context, events: seq<Event>, i: nat, j: nat, e: nat)
    ensures
      var w := RunEvents(ctx, START, events);
      && (i < |w.sends| && j < |w.sends| && (w.sends[i].id == w.sends[j].id || w.sends[i].key == w.sends[j].key)
          ==> w.sends[i] == w.sends[j])
      && (i < |w.sends| && e < |w.journal| && w.journal[e].cause.key == w.sends[i].key
          ==> w.journal[e].cause == w.sends[i])
  {
    ReachableWorld(ctx, events);
    var w := RunEvents(ctx, START, events);
    if i < |w.sends| && j < |w.sends| {
      SameSending(w.store, w.sends[i], w.sends[j]);
    }
    if i < |w.sends| && e < |w.journal| {
      SameSending(w.store, w.journal[e].cause, w.sends[i]);
    }
  }

  lemma SameSending(s: Store, x: Sending, y: Sending)
    requires OpsShaped(s) && Faithful(s, x) && Faithful(s, y)
    ensures x.id == y.id || x.key == y.key ==> x == y
  {
    if x.key == y.key {
      SameKeySameOperation(s, x, y);
    }
    if x.id == y.id {
      SameOperationSameSending(s, x, y);
    }
  }

  /**
   Every operation has at most one effect on the server, and it is the one it prescribes; an
   operation archived as succeeded or replayed has exactly one.
   */
  lemma ExactlyOnce(ctx: Context, events: seq<Event>, id: Id)
    ensures
      var w := RunEvents(ctx, START, events);
      && |EffectsOf(w.journal, id)| <= 1
      && (forall e | e in EffectsOf(w.journal, id) ::
            && Known(w.store, id) && w.journal[e].cause.key == IdentityOf(w.store, id).key
            && OutFor(w.store, IdentityOf(w.store, id)) == Some(w.journal[e].cause.out))
      && (id in w.store.history && Successful(w.store.history[id]) ==> |EffectsOf(w.journal, id)| == 1)
  {
    ReachableWorld(ctx, events);
    var w := RunEvents(ctx, START, events);
    var effects := EffectsOf(w.journal, id);
    forall e | e in effects ensures Faithful(w.store, w.journal[e].cause) {
    }
    forall e, f | e in effects && f in effects ensures e == f {
      SameOperationSameSending(w.store, w.journal[e].cause, w.journal[f].cause);
    }
    AtMostOne(effects);
    if id in w.store.history && Successful(w.store.history[id]) {
      assert ServedFor(w.journal, id);
      var e :| 0 <= e < |w.journal| && w.journal[e].cause.id == id;
      assert e in effects;
    }
  }

  lemma AtMostOne(s: set<nat>)
    requires forall x, y | x in s && y in s :: x == y
    ensures |s| <= 1
    ensures s != {} ==> |s| == 1
  {
    if s != {} {
      var x :| x in s;
      assert s == {x};
    }
  }

  // ---------------------------------------------------------------- no unguarded correction

  /**
   Every correction that goes out carries the revision it expects. If its own request has none, it
   carries the revision the server itself answered for the source write it depends on.
   */
  lemma CorrectionsAreGuarded(ctx: Context, events: seq<Event>, i: nat)
    ensures
      var w := RunEvents(ctx, START, events);
      i < |w.sends| && w.sends[i].out.body.Correction? ==>
        Known(w.store, w.sends[i].id) &&
        var m := IdentityOf(w.store, w.sends[i].id);
        var expected := w.sends[i].out.body.correction.expectedRevision;
        && m.request.Correction? && expected.Some?
        && (if m.request.correction.expectedRevision.Some? then expected == m.request.correction.expectedRevision
            else m.dependsOn.Some? && ServedAs(w.journal, m.dependsOn.value, expected.value))
  {
    ReachableWorld(ctx, events);
    var w := RunEvents(ctx, START, events);
    if i < |w.sends| && w.sends[i].out.body.Correction? {
      var m := IdentityOf(w.store, w.sends[i].id);
      assert Faithful(w.store, w.sends[i]) && Shaped(w.store, w.sends[i].id, m);
      SentCorrection(w.store, m, RouteOf(m), CorrectionSourceId(m.endpoint), w.sends[i].out);
      if m.request.correction.expectedRevision.None? {
        GuardIsServers(w.store, w.journal, m.dependsOn.value);
      }
    }
  }

  lemma SentCorrection(s: Store, m: Mutation, route: Route, source: Result<string>, out: Outgoing)
    requires OutVia(s, m, route, source) == Some(out) && out.body.Correction?
    requires route.ToRaw? ==> m.request.RawMemory?
    requires route.ToExposure? ==> m.request.Exposure?
    ensures m.request.Correction? && out.body.correction.expectedRevision.Some?
    ensures out.body.correction.expectedRevision == Guard(s, m, m.request.correction)
  {
  }

  /** A recorded revision is the one the server answered for the capture. */
  lemma GuardIsServers(s: Store, journal: seq<Effect>, id: Id)
    requires IndexInv(s) && TurnsBacked(s, journal)
    ensures TurnRevision(s, id).Some? ==> ServedAs(journal, id, TurnRevision(s, id).value)
  {
    if TurnRevision(s, id).Some? {
      var k :| IsTurnOf(s, k, id);
      TurnRevisionAt(s, k, id);
      assert Backed(s, journal, s.turns[k]);
    }
  }

  /** A captured turn that is no longer queued was delivered, and its revision is on record. */
  lemma DeliveredTurnsHaveRevisions(ctx: Context, events: seq<Event>, k: Slot)
    ensures
      var w := RunEvents(ctx, START, events);
      k in w.store.turns && w.store.turns[k].operationId !in w.store.ops ==>
        var turn := w.store.turns[k];
        && turn.revision.Some? && turn.revision.value >= 1
        && turn.operationId in w.store.history && Successful(w.store.history[turn.operationId])
        && ServedAs(w.journal, turn.operationId, turn.revision.value)
  {
    ReachableWorld(ctx, events);
    var w := RunEvents(ctx, START, events);
    if k in w.store.turns {
      assert Backed(w.store, w.journal, w.store.turns[k]);
    }
  }

  /** The executor never finds the revision of a dependency missing. */
  lemma RevisionNeverMissing(ctx: Context, events: seq<Event>, token: nat)
    ensures
      var w := RunEvents(ctx, START, events);
      token in w.hands ==>
        var op := w.hands[token].op;
        RouteOf(op.what).ToCorrection? ==> op.what.request.Correction? && !LacksRevision(w.store, op.what)
  {
    ReachableWorld(ctx, events);
    var w := RunEvents(ctx, START, events);
    if token in w.hands && RouteOf(w.hands[token].op.what).ToCorrection? {
      assert HandOk(w.store, w.journal, w.hands[token]);
      GuardAvailable(w, w.hands[token]);
    }
  }

  // ---------------------------------------------------------------- one call is one schedule

  /** The worker's part of an exchange that was answered. */
  function ReplyEvents(m: Mutation, token: nat, response: Response): seq<Event> {
    [OfWorker(token, Reply(response))]
    + if VerdictOf(m, response).Record? then [OfWorker(token, RecordIt)] else []
  }

  /** The events of one uninterrupted executor call, when the server answers as `client` says. */
  ghost function CallEvents(w: World, token: nat, client: Client, revision: nat): seq<Event>
    requires token in w.hands
  {
    var op := w.hands[token].op;
    match PlanFor(w.store, op)
    case Conclude(_) => [OfWorker(token, PlanIt)]
    case Send(out) =>
      [OfWorker(token, PlanIt)] + ([OfWorker(token, SendIt)] + ([Serving(|w.sends|, revision)]
      + ReplyEvents(op.what, token, client.exchange(op.what.key, out))))
    case AskFirst(sourceId, request) =>
      [OfWorker(token, PlanIt)] + [OfWorker(token, PreviewIt(client.preview(sourceId, request)))]
  }

  lemma FirstEvent(ctx: Context, w: World, first: Event, rest: seq<Event>)
    ensures RunEvents(ctx, w, [first] + rest) == RunEvents(ctx, React(ctx, w, first), rest)
  {
    assert ([first] + rest)[1..] == rest;
  }

  lemma OneEvent(ctx: Context, w: World, e: Event)
    ensures RunEvents(ctx, w, [e]) == React(ctx, w, e)
  {
    assert [e] + [] == [e];
    FirstEvent(ctx, w, e, []);
  }

  ghost predicate EndsAs(w: World, token: nat, op: ClaimedOperation, end: (Store, AttemptResult)) {
    token in w.hands && w.store == end.0 && w.hands[token] == Hand(op, Concluded(end.1))
  }

  /** From the reply on: what the executor makes of it, and the revision it records. */
  lemma ReplySchedule(ctx: Context, w: World, token: nat, response: Response)
    requires token in w.hands && w.hands[token].stage.Waiting?
    requires Authentic(w, w.hands[token].op.what.key, response)
    ensures
      var op := w.hands[token].op;
      EndsAs(RunEvents(ctx, w, ReplyEvents(op.what, token, response)), token, op,
             Follow(w.store, op, AfterReply(op.what, response)))
  {
    var reply := OfWorker(token, Reply(response));
    var v := React(ctx, w, reply);
    if VerdictOf(w.hands[token].op.what, response).Record? {
      FirstEvent(ctx, w, reply, [OfWorker(token, RecordIt)]);
      OneEvent(ctx, v, OfWorker(token, RecordIt));
    } else {
      assert [reply] + [] == [reply];
      OneEvent(ctx, w, reply);
    }
  }

  /** Sent and served: nothing else has moved, and the server has an effect under the key. */
  lemma SendSchedule(ctx: Context, w: World, token: nat, out: Outgoing, revision: nat) returns (v: World)
    requires token in w.hands && w.hands[token].stage == Planned(Send(out))
    ensures v == React(ctx, React(ctx, w, OfWorker(token, SendIt)), Serving(|w.sends|, revision))
    ensures v.store == w.store && token in v.hands && v.hands[token] == Hand(w.hands[token].op, Waiting(out))
    ensures Served(v.journal, w.hands[token].op.what.key)
  {
    var sent := React(ctx, w, OfWorker(token, SendIt));
    v := React(ctx, sent, Serving(|w.sends|, revision));
    var key := w.hands[token].op.what.key;
    if !Served(sent.journal, key) {
      assert v.journal[|sent.journal|].cause.key == key;
    }
  }

  /** What a call does when nothing comes between: the executor as one step. */
  lemma CallIsOneSchedule(ctx: Context, w: World, token: nat, client: Client, revision: nat)
    requires token in w.hands && w.hands[token].stage.Ready?
    requires
      var op := w.hands[token].op;
      var plan := PlanFor(w.store, op);
      plan.Send? ==>
        Authentic(React(ctx, React(ctx, React(ctx, w, OfWorker(token, PlanIt)), OfWorker(token, SendIt)),
                        Serving(|w.sends|, revision)),
                  op.what.key, client.exchange(op.what.key, plan.out))
    ensures EndsAs(RunEvents(ctx, w, CallEvents(w, token, client, revision)), token, w.hands[token].op,
                   Execute(w.store, ctx.sha, client, w.hands[token].op))
  {
    var op, planIt := w.hands[token].op, OfWorker(token, PlanIt);
    var planned := React(ctx, w, planIt);
    match PlanFor(w.store, op)
    case Conclude(result) => OneEvent(ctx, w, planIt);
    case Send(out) =>
      var response := client.exchange(op.what.key, out);
      var v := SendSchedule(ctx, planned, token, out, revision);
      var rest := ReplyEvents(op.what, token, response);
      var sent := React(ctx, planned, OfWorker(token, SendIt));
      FirstEvent(ctx, w, planIt, [OfWorker(token, SendIt)] + ([Serving(|w.sends|, revision)] + rest));
      FirstEvent(ctx, planned, OfWorker(token, SendIt), [Serving(|w.sends|, revision)] + rest);
      FirstEvent(ctx, sent, Serving(|w.sends|, revision), rest);
      ReplySchedule(ctx, v, token, response);
    case AskFirst(sourceId, request) =>
      var previewIt := OfWorker(token, PreviewIt(client.preview(sourceId, request)));
      FirstEvent(ctx, w, planIt, [previewIt]);
      OneEvent(ctx, planned, previewIt);
  }
}
