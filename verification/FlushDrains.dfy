/**
 One flush delivers everything: when nothing is claimed, blocked or buried and the server accepts what
 it is sent, the runtime's flush archives every queued operation as a success, and each has exactly
 one effect on the server.
 */
module FlushDrains {
  import opened Wrappers
  import opened Ordering
  import opened Requests
  import opened Outbox
  import opened OutboxInvariant
  import opened Flush
  import opened FlushOrder
  import opened Capture
  import opened Reconcile
  import opened Executor
  import opened RuntimeFlush
  import opened Delivery
  import opened DeliveryInvariant
  import opened DeliverySteps
  import opened DeliveryTheorems
  import opened FlushDelivery

  // ---------------------------------------------------------------- what is asked of the queue

  /** A correction names its source. */
  predicate Addressed(m: Mutation) {
    RouteOf(m).ToCorrection? ==>
      CorrectionSourceId(m.endpoint).Ok? && CorrectionSourceId(m.endpoint).value != ""
  }

  predicate PlainState(state: State) {
    state.Pending? || state.PendingRecovery?
  }

  ghost predicate PlainRows(s: Store, cutoff: nat) {
    forall id | id in Untouched(s, cutoff) :: PlainState(s.ops[id].state) && Addressed(s.ops[id].what)
  }

  ghost predicate PlainPage(page: seq<ClaimedOperation>) {
    forall i | 0 <= i < |page| :: PlainState(page[i].state) && Addressed(page[i].what)
  }

  /** No row is claimed, blocked, buried or up for revision, and all were written before the cutoff. */
  ghost predicate Deliverable(s: Store, cutoff: nat) {
    NoneLive(s) && PlainRows(s, cutoff) && forall id | id in s.ops :: s.ops[id].updatedAt < cutoff
  }

  // ---------------------------------------------------------------- what is asked of the server

  predicate Granted(key: string, response: Response) {
    response.Accepted? && Matches(response.receipt, key) && response.revision >= 1
  }

  ghost predicate Accepts(client: Client) {
    forall key, out :: Granted(key, client.exchange(key, out))
  }

  /** No deadline, a server that accepts, and a host that only enqueues meanwhile. */
  ghost predicate Unhindered(j: Job, clients: (Store, ClaimedOperation) -> Client,
                             rest: (Store, ClaimedOperation) -> Meanwhile)
  {
    && !j.timed && j.worker != "" && j.pageSize >= 1
    && (forall s :: AllCalm(j.around.others(s)))
    && (forall s, op :: CalmAround(rest(s, op)))
    && (forall s, op :: Accepts(clients(s, op)))
  }

  // ---------------------------------------------------------------- every call succeeds

  /** What is claimed can be sent. */
  lemma PlansToSend(w: World, op: ClaimedOperation)
    requires WorldInv(w) && HandOk(w.store, w.journal, Hand(op, Ready))
    requires PlainState(op.state) && Addressed(op.what)
    ensures PlanFor(w.store, op).Send?
  {
    assert Shaped(w.store, op.id, op.what);
    if RouteOf(op.what).ToCorrection? {
      GuardAvailable(w, Hand(op, Ready));
    }
    PlanOfShape(w.store, op, RouteOf(op.what), CorrectionSourceId(op.what.endpoint));
  }

  lemma PlanOfShape(s: Store, op: ClaimedOperation, route: Route, source: Result<string>)
    requires !route.Nowhere? && !op.state.ReconcileRevision?
    requires route.ToRaw? ==> op.what.request.RawMemory?
    requires route.ToExposure? ==> op.what.request.Exposure?
    requires route.ToCorrection? ==>
               && source.Ok? && source.value != "" && op.what.request.Correction?
               && Guard(s, op.what, op.what.request.correction).Some?
    ensures PlanVia(s, op, route, source).Send?
  {
  }

  ghost predicate Succeeds(reaction: Reaction) {
    AllCalm(reaction.commands) && reaction.answer.Returns? && reaction.answer.result.action == Succeed
  }

  lemma SentSucceeds(sha: string -> string, client: Client, at: Store, op: ClaimedOperation, plan: Plan)
    requires plan.Send? && Accepts(client)
    ensures
      var course := CourseFrom(sha, client, op, plan);
      AllCalm(CommandsOf(op, course)) && Follow(at, op, course).1.action == Succeed
  {
    assert Granted(op.what.key, client.exchange(op.what.key, plan.out));
  }

  lemma CallSucceeds(s: Store, sha: string -> string, client: Client, rest: Meanwhile, op: ClaimedOperation)
    requires PlanFor(Run(s, rest.before), op).Send? && Accepts(client) && CalmAround(rest)
    ensures Succeeds(ReactionOf(s, sha, client, rest, op))
  {
    var read := Run(s, rest.before);
    SentSucceeds(sha, client, Run(read, rest.during), op, PlanFor(read, op));
    var own := CommandsOf(op, CourseOf(read, sha, client, op));
    AllCalmTogether(own, rest.after);
    AllCalmTogether(rest.during, own + rest.after);
    AllCalmTogether(rest.before, rest.during + (own + rest.after));
  }

  lemma AllCalmTogether(a: seq<Command>, b: seq<Command>)
    requires AllCalm(a) && AllCalm(b)
    ensures AllCalm(a + b)
  {
  }

  lemma AttemptSucceeds(ctx: Context, j: Job, server: string -> nat, clients: (Store, ClaimedOperation) -> Client,
                        rest: (Store, ClaimedOperation) -> Meanwhile, w: World, f: Progress)
    requires RuntimeJob(ctx, j, server, clients, rest) && Unhindered(j, clients, rest)
    requires Reached(ctx, w) && f.page != [] && Mirrors(w, f.store, f.page) && PlainPage(f.page)
    ensures Succeeds(j.around.executor(f.store, f.page[0]))
  {
    var op := f.page[0];
    var before := rest(f.store, op).before;
    var read := w.(store := Run(w.store, before));
    assert HostAround(ctx, f.store, clients(f.store, op), rest(f.store, op), op);
    HostLeads(ctx, w, before);
    LeadsOn(ctx, START, w, read);
    ReachedInv(ctx, read);
    assert HandOk(read.store, read.journal, read.hands[op.token]);
    PlansToSend(read, op);
    CallSucceeds(f.store, ctx.sha, clients(f.store, op), rest(f.store, op), op);
  }

  // ---------------------------------------------------------------- an executor that always succeeds

  /** The executor where it succeeds, and elsewhere one that does. */
  ghost function Agreed(executor: (Store, ClaimedOperation) -> Reaction): (Store, ClaimedOperation) -> Reaction {
    (s, op) => if Succeeds(executor(s, op)) then executor(s, op) else Reaction([], Returns(Success(false)))
  }

  ghost function Succeeding(j: Job): Job {
    j.(around := j.around.(executor := Agreed(j.around.executor)))
  }

  lemma SucceedingSucceeds(j: Job)
    requires !j.timed && j.worker != "" && j.pageSize >= 1 && forall s :: AllCalm(j.around.others(s))
    ensures AlwaysSucceeds(Succeeding(j))
  {
    forall s, op ensures SucceedsAt(Succeeding(j), s, op) {
      var own := j.around.executor(s, op);
      assert Succeeding(j).around.executor(s, op)
          == if Succeeds(own) then own else Reaction([], Returns(Success(false)));
    }
  }

  lemma ClaimAgrees(j: Job, f: Progress)
    ensures Flush.ClaimStep(Succeeding(j), f) == Flush.ClaimStep(j, f)
  {
  }

  lemma AttemptAgrees(j: Job, f: Progress)
    requires f.page != [] && Succeeds(j.around.executor(f.store, f.page[0]))
    ensures AttemptStep(Succeeding(j), f) == AttemptStep(j, f)
  {
  }

  // ---------------------------------------------------------------- what stays plain

  lemma PlainStays(s: Store, t: Store, cutoff: nat)
    requires Evolves(s, t) && cutoff <= s.clock && PlainRows(s, cutoff)
    ensures PlainRows(t, cutoff)
  {
    UntouchedShrinks(s, t, cutoff);
  }

  lemma PageIsPlain(j: Job, s: Store)
    requires Inv(s) && PlainRows(s, j.cutoff)
    ensures
      var r := ClaimPage(s, j.worker, j.pageSize, None, Some(j.cutoff));
      r.result.Ok? ==> PlainPage(r.result.value)
  {
    var r := ClaimPage(s, j.worker, j.pageSize, None, Some(j.cutoff));
    if r.result.Ok? {
      var ids := PageClaims(s, j.worker, j.pageSize, j.cutoff);
      var page := r.result.value;
      forall i | 0 <= i < |page| ensures PlainState(page[i].state) && Addressed(page[i].what) {
        assert ClaimIssued(s, page[i], ids[i], s.nextToken + i, j.worker, DEFAULT_LEASE);
      }
    }
  }

  lemma ClaimIsPlain(j: Job, f: Progress)
    requires Sound(j, f) && f.page == [] && PlainRows(f.store, j.cutoff)
    ensures PlainPage(Flush.ClaimStep(j, f).page)
  {
    var commands := j.around.others(f.store);
    RunKeeps(f.store, commands);
    PlainStays(f.store, Run(f.store, commands), j.cutoff);
    PageIsPlain(j, Run(f.store, commands));
  }

  lemma AttemptIsPlain(j: Job, f: Progress)
    requires f.page != [] && PlainPage(f.page)
    ensures PlainPage(AttemptStep(j, f).page)
  {
    assert forall i | 0 <= i < |f.page[1..]| :: f.page[1..][i] == f.page[i + 1];
  }

  // ---------------------------------------------------------------- the flush

  /** The two flushes go the same way. */
  lemma {:induction false} FlushesAgree(ctx: Context, j: Job, server: string -> nat,
                                        clients: (Store, ClaimedOperation) -> Client,
                                        rest: (Store, ClaimedOperation) -> Meanwhile, w: World, f: Progress)
    requires RuntimeJob(ctx, j, server, clients, rest) && Unhindered(j, clients, rest) && Sound(j, f)
    requires Reached(ctx, w) && ServedBy(server, w) && w.store == f.store
    requires f.status == Running ==> Mirrors(w, f.store, f.page)
    requires PlainRows(f.store, j.cutoff) && PlainPage(f.page)
    ensures RunFlush(Succeeding(j), f) == RunFlush(j, f)
    decreases |Untouched(f.store, j.cutoff)|, |f.page|, if f.status == Running then 1 else 0
  {
    if f.status == Running {
      FlushStepKeeps(j, f);
      FlushStepDescends(j, f);
      FlushStepDescends(Succeeding(j), f);
      PlainStays(f.store, FlushStep(j, f).store, j.cutoff);
      var u;
      if f.page == [] {
        ClaimAgrees(j, f);
        ClaimIsPlain(j, f);
        u := ClaimFollows(ctx, j, server, clients, rest, w, f);
      } else {
        AttemptSucceeds(ctx, j, server, clients, rest, w, f);
        AttemptAgrees(j, f);
        AttemptIsPlain(j, f);
        u := AttemptFollows(ctx, j, server, clients, rest, w, f);
      }
      LeadsOn(ctx, START, w, u);
      FlushesAgree(ctx, j, server, clients, rest, u, FlushStep(j, f));
    }
  }

  /** What a row waits for is queued and waits for nothing, or was archived as a success. */
  lemma EveryRowReachable(w: World, cutoff: nat, id: Id)
    requires WorldInv(w) && Deliverable(w.store, cutoff) && id in w.store.ops
    ensures Reachable(w.store, cutoff, id)
  {
    var s, d := w.store, w.store.ops[id].what.dependsOn;
    assert Shaped(s, id, IdentityOf(s, id));
    if d.None? || Satisfied(s.history, d) {
      assert ReadyIn(s, cutoff, id, 0);
    } else {
      var k :| IsTurnOf(s, k, d.value);
      assert Backed(s, w.journal, s.turns[k]);
      assert Shaped(s, d.value, IdentityOf(s, d.value));
      assert ReadyIn(s, cutoff, d.value, 0);
      assert ReadyIn(s, cutoff, id, 1);
    }
  }

  lemma DrainsHere(ctx: Context, j: Job, server: string -> nat, clients: (Store, ClaimedOperation) -> Client,
                   rest: (Store, ClaimedOperation) -> Meanwhile, w: World)
    requires RuntimeJob(ctx, j, server, clients, rest) && Unhindered(j, clients, rest)
    requires Reached(ctx, w) && ServedBy(server, w) && Inv(w.store) && j.cutoff <= w.store.clock
    requires Deliverable(w.store, j.cutoff)
    ensures
      var g := RunFlush(j, Begin(w.store));
      && g.status == Drained
      && forall id | id in w.store.ops :: id in g.store.history && Successful(g.store.history[id])
  {
    SucceedingSucceeds(j);
    FlushesAgree(ctx, j, server, clients, rest, w, Begin(w.store));
    FlushIsLeastFixpoint(Succeeding(j), w.store);
    ReachedInv(ctx, w);
    forall id | id in w.store.ops ensures Reachable(w.store, j.cutoff, id) {
      EveryRowReachable(w, j.cutoff, id);
    }
  }

  /** Everything that was queued in the one world is archived as a success in the other, and served once. */
  ghost predicate AllServed(w: World, v: World) {
    forall id | id in w.store.ops ::
      id in v.store.history && Successful(v.store.history[id]) && |EffectsOf(v.journal, id)| == 1
  }

  lemma DrainedFrom(ctx: Context, j: Job, server: string -> nat, clients: (Store, ClaimedOperation) -> Client,
                    rest: (Store, ClaimedOperation) -> Meanwhile, w: World) returns (v: World)
    requires RuntimeJob(ctx, j, server, clients, rest) && Unhindered(j, clients, rest)
    requires Reached(ctx, w) && ServedBy(server, w) && Inv(w.store) && j.cutoff <= w.store.clock
    requires Deliverable(w.store, j.cutoff)
    ensures RunFlush(j, Begin(w.store)).status == Drained && v.store == RunFlush(j, Begin(w.store)).store
    ensures Leads(ctx, w, v) && AllServed(w, v)
  {
    DrainsHere(ctx, j, server, clients, rest, w);
    v := FlushIsSchedule(ctx, j, server, clients, rest, w, Begin(w.store));
    LeadsOn(ctx, START, w, v);
    forall id | id in w.store.ops ensures |EffectsOf(v.journal, id)| == 1 {
      ServedOnce(ctx, v, id);
    }
  }

  lemma ServedOnce(ctx: Context, v: World, id: Id)
    requires Reached(ctx, v) && id in v.store.history && Successful(v.store.history[id])
    ensures |EffectsOf(v.journal, id)| == 1
  {
    var events :| RunEvents(ctx, START, events) == v;
    ExactlyOnce(ctx, events, id);
  }

  /**
   After any run of the protocol that leaves the queue deliverable, one unhindered flush by the
   runtime, with the host enqueueing meanwhile, archives everything that was queued as a success;
   and the server has served each of these operations exactly once.
   */
  lemma FlushDrainsAll(ctx: Context, before: seq<Event>, j: Job, server: string -> nat,
                       clients: (Store, ClaimedOperation) -> Client,
                       rest: (Store, ClaimedOperation) -> Meanwhile) returns (events: seq<Event>)
    requires RuntimeJob(ctx, j, server, clients, rest) && Unhindered(j, clients, rest)
    requires
      var w := RunEvents(ctx, START, before);
      ServedBy(server, w) && j.cutoff <= w.store.clock && Deliverable(w.store, j.cutoff)
    ensures Inv(RunEvents(ctx, START, before).store)
    ensures
      var w, v := RunEvents(ctx, START, before), RunEvents(ctx, START, before + events);
      var g := RunFlush(j, Begin(w.store));
      && g.status == Drained && v.store == g.store
      && forall id | id in w.store.ops ::
           id in v.store.history && Successful(v.store.history[id]) && |EffectsOf(v.journal, id)| == 1
  {
    var w := RunEvents(ctx, START, before);
    ReachableWorld(ctx, before);
    assert Reached(ctx, w);
    var v := DrainedFrom(ctx, j, server, clients, rest, w);
    events :| RunEvents(ctx, w, events) == v;
    EventsAppend(ctx, START, before, events);
    assert AllServed(w, v);
  }
}
