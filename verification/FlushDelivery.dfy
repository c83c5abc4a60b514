/**
 A flush by the runtime's executor is a schedule of the delivery protocol: its claims, calls, results
 and releases are events of one worker, with the events of the clock and the host in between. So what
 holds of every schedule, exactly-once delivery first of all, holds of every flush.
 */
module FlushDelivery {
  import opened Wrappers
  import opened Ordering
  import opened Requests
  import opened Outbox
  import opened OutboxInvariant
  import opened Flush
  import opened Reconcile
  import opened Executor
  import opened RuntimeFlush
  import opened Delivery
  import opened DeliveryInvariant
  import opened DeliverySteps
  import opened DeliveryTheorems

  // ---------------------------------------------------------------- schedules

  /** Some list of events leads from one world to the other. */
  ghost predicate Leads(ctx: Context, w: World, v: World) {
    exists events :: RunEvents(ctx, w, events) == v
  }

  lemma {:induction false} EventsAppend(ctx: Context, w: World, first: seq<Event>, second: seq<Event>)
    ensures RunEvents(ctx, w, first + second) == RunEvents(ctx, RunEvents(ctx, w, first), second)
    decreases |first|
  {
    if first == [] {
      assert first + second == second;
    } else {
      assert (first + second)[1..] == first[1..] + second;
      EventsAppend(ctx, React(ctx, w, first[0]), first[1..], second);
    }
  }

  lemma LeadsNowhere(ctx: Context, w: World)
    ensures Leads(ctx, w, w)
  {
    assert RunEvents(ctx, w, []) == w;
  }

  lemma LeadsOneStep(ctx: Context, w: World, e: Event)
    ensures Leads(ctx, w, React(ctx, w, e))
  {
    OneEvent(ctx, w, e);
    assert RunEvents(ctx, w, [e]) == React(ctx, w, e);
  }

  lemma LeadsOn(ctx: Context, w: World, v: World, u: World)
    requires Leads(ctx, w, v) && Leads(ctx, v, u)
    ensures Leads(ctx, w, u)
  {
    var first :| RunEvents(ctx, w, first) == v;
    var second :| RunEvents(ctx, v, second) == u;
    EventsAppend(ctx, w, first, second);
    assert RunEvents(ctx, w, first + second) == u;
  }

  /** A world of some run from the start. */
  ghost predicate Reached(ctx: Context, w: World) {
    Leads(ctx, START, w)
  }

  lemma ReachedInv(ctx: Context, w: World)
    requires Reached(ctx, w)
    ensures WorldInv(w)
  {
    var events :| RunEvents(ctx, START, events) == w;
    ReachableWorld(ctx, events);
  }

  // ---------------------------------------------------------------- what happens around the worker

  /** A transaction of the host, allowed in the store it finds. */
  ghost predicate Ambient(ctx: Context, s: Store, c: Command) {
    exists move: HostMove :: Allowed(s, move) && c == CommandOf(ctx, move)
  }

  /** A run of the host's transactions: captures, wishes, corrections, settings, unblocking and time. */
  ghost predicate HostRun(ctx: Context, s: Store, commands: seq<Command>)
    decreases |commands|
  {
    commands != [] ==>
      Ambient(ctx, s, commands[0]) && HostRun(ctx, Step(s, commands[0]), commands[1..])
  }

  lemma {:induction false} HostLeads(ctx: Context, w: World, commands: seq<Command>)
    requires HostRun(ctx, w.store, commands)
    ensures Leads(ctx, w, w.(store := Run(w.store, commands)))
    decreases |commands|
  {
    if commands == [] {
      LeadsNowhere(ctx, w);
    } else {
      var move: HostMove :| Allowed(w.store, move) && commands[0] == CommandOf(ctx, move);
      LeadsOneStep(ctx, w, OfHost(move));
      var v := w.(store := Step(w.store, commands[0]));
      HostLeads(ctx, v, commands[1..]);
      LeadsOn(ctx, w, v, w.(store := Run(w.store, commands)));
    }
  }

  /** What falls before a call, inside it and after it is the host's, each in the store it finds. */
  ghost predicate HostAround(ctx: Context, s: Store, client: Client, rest: Meanwhile, op: ClaimedOperation) {
    var read := Run(s, rest.before);
    var at := Run(read, rest.during);
    && HostRun(ctx, s, rest.before) && HostRun(ctx, read, rest.during)
    && HostRun(ctx, Follow(at, op, CourseOf(read, ctx.sha, client, op)).0, rest.after)
  }

  // ---------------------------------------------------------------- the server

  /** The server answers each key with the revision it gave it first. */
  ghost predicate ServedBy(server: string -> nat, w: World) {
    forall e | 0 <= e < |w.journal| :: w.journal[e].revision == server(w.journal[e].cause.key)
  }

  ghost predicate HonestClient(server: string -> nat, client: Client) {
    forall key, out :: HonestAnswer(server, key, out, client.exchange(key, out))
  }

  /** A receipt for the key of a capture comes with the server's revision; anything else may be seen. */
  predicate HonestAnswer(server: string -> nat, key: string, out: Outgoing, response: Response) {
    response.Accepted? && Matches(response.receipt, key) && out.body.RawMemory? ==>
      response.revision == server(key)
  }

  // ---------------------------------------------------------------- one call

  ghost predicate OthersKept(w: World, v: World, token: nat) {
    forall t | t in w.hands && t != token :: t in v.hands && v.hands[t] == w.hands[t]
  }

  /** The worker of `token` has concluded with the result, in that store, and no other hand moved. */
  ghost predicate ConcludedAs(ctx: Context, w: World, v: World, server: string -> nat, token: nat,
                              op: ClaimedOperation, end: (Store, AttemptResult))
  {
    && Leads(ctx, w, v) && ServedBy(server, v) && OthersKept(w, v, token)
    && EndsAs(v, token, op, end)
  }

  /** Sent, and served if it was accepted. */
  lemma ExchangeLeads(ctx: Context, w: World, server: string -> nat, token: nat, op: ClaimedOperation,
                      out: Outgoing, response: Response) returns (v: World)
    requires token in w.hands && w.hands[token] == Hand(op, Planned(Send(out))) && ServedBy(server, w)
    requires Reached(ctx, w) && HonestAnswer(server, op.what.key, out, response)
    ensures Leads(ctx, w, v) && ServedBy(server, v) && OthersKept(w, v, token) && v.store == w.store
    ensures token in v.hands && v.hands[token] == Hand(op, Waiting(out)) && Authentic(v, op.what.key, response)
  {
    var sent := React(ctx, w, OfWorker(token, SendIt));
    LeadsOneStep(ctx, w, OfWorker(token, SendIt));
    LeadsOn(ctx, START, w, sent);
    if response.Accepted? {
      var n, key := |w.sends|, op.what.key;
      v := React(ctx, sent, Serving(n, server(key)));
      LeadsOneStep(ctx, sent, Serving(n, server(key)));
      LeadsOn(ctx, w, sent, v);
      ServedNow(ctx, sent, n, server, response);
    } else {
      v := sent;
    }
  }

  lemma ServedNow(ctx: Context, w: World, n: nat, server: string -> nat, response: Response)
    requires Reached(ctx, w) && n < |w.sends| && ServedBy(server, w) && response.Accepted?
    requires HonestAnswer(server, w.sends[n].key, w.sends[n].out, response)
    ensures
      var v := ServeStep(w, n, server(w.sends[n].key));
      ServedBy(server, v) && Authentic(v, w.sends[n].key, response)
  {
    var key := w.sends[n].key;
    var v := ServeStep(w, n, server(key));
    var e := FirstServed(ctx, w, n, server(key));
    if Matches(response.receipt, key) {
      assert Vouches(v.journal[e], key, response);
    }
  }

  /** A request that was served was served as it was sent. */
  lemma FirstServed(ctx: Context, w: World, n: nat, revision: nat) returns (e: nat)
    requires Reached(ctx, w) && n < |w.sends|
    ensures
      var v := ServeStep(w, n, revision);
      e < |v.journal| && v.journal[e].cause == w.sends[n]
  {
    var key := w.sends[n].key;
    if Served(w.journal, key) {
      e :| 0 <= e < |w.journal| && w.journal[e].cause.key == key;
      ReachedInv(ctx, w);
      SameSending(w.store, w.journal[e].cause, w.sends[n]);
    } else {
      e := |w.journal|;
    }
  }

  lemma ReplyLeads(ctx: Context, w: World, server: string -> nat, token: nat, op: ClaimedOperation,
                   out: Outgoing, response: Response) returns (v: World)
    requires token in w.hands && w.hands[token] == Hand(op, Waiting(out)) && ServedBy(server, w)
    requires Authentic(w, op.what.key, response)
    ensures ConcludedAs(ctx, w, v, server, token, op, Follow(w.store, op, AfterReply(op.what, response)))
  {
    var replied := React(ctx, w, OfWorker(token, Reply(response)));
    LeadsOneStep(ctx, w, OfWorker(token, Reply(response)));
    if VerdictOf(op.what, response).Record? {
      v := React(ctx, replied, OfWorker(token, RecordIt));
      LeadsOneStep(ctx, replied, OfWorker(token, RecordIt));
      LeadsOn(ctx, w, replied, v);
    } else {
      v := replied;
    }
  }

  /** From the plan on: the exchange or the preview, and the one transaction it may need. */
  lemma PlannedLeads(ctx: Context, w: World, server: string -> nat, client: Client, token: nat,
                     op: ClaimedOperation, plan: Plan) returns (v: World)
    requires Reached(ctx, w) && token in w.hands && ServedBy(server, w) && HonestClient(server, client)
    requires w.hands[token] == Hand(op, if plan.Conclude? then Concluded(plan.result) else Planned(plan))
    ensures ConcludedAs(ctx, w, v, server, token, op, Follow(w.store, op, CourseFrom(ctx.sha, client, op, plan)))
  {
    match plan
    case Conclude(result) =>
      v := w;
      LeadsNowhere(ctx, w);
    case Send(out) =>
      var response := client.exchange(op.what.key, out);
      assert HonestAnswer(server, op.what.key, out, response);
      var u := ExchangeLeads(ctx, w, server, token, op, out, response);
      v := ReplyLeads(ctx, u, server, token, op, out, response);
      LeadsOn(ctx, w, u, v);
    case AskFirst(sourceId, request) =>
      v := PreviewLeads(ctx, w, server, token, op, sourceId, request, client.preview(sourceId, request));
  }

  lemma PreviewLeads(ctx: Context, w: World, server: string -> nat, token: nat, op: ClaimedOperation,
                     sourceId: string, request: CorrectionRequest, reply: PreviewReply) returns (v: World)
    requires token in w.hands && w.hands[token] == Hand(op, Planned(AskFirst(sourceId, request)))
    requires ServedBy(server, w)
    ensures ConcludedAs(ctx, w, v, server, token, op, Follow(w.store, op, AfterPreview(ctx.sha, op, request, reply)))
  {
    v := PreviewStep(ctx, w, token, w.hands[token], request, reply);
    LeadsOneStep(ctx, w, OfWorker(token, PreviewIt(reply)));
    PreviewReacts(ctx, w, token, sourceId, request, reply);
    PreviewConcludes(ctx, w, token, op, request, reply);
  }

  lemma PreviewReacts(ctx: Context, w: World, token: nat, sourceId: string, request: CorrectionRequest,
                      reply: PreviewReply)
    requires token in w.hands && w.hands[token].stage == Planned(AskFirst(sourceId, request))
    ensures React(ctx, w, OfWorker(token, PreviewIt(reply)))
         == PreviewStep(ctx, w, token, w.hands[token], request, reply)
  {
  }

  lemma PreviewConcludes(ctx: Context, w: World, token: nat, op: ClaimedOperation, request: CorrectionRequest,
                         reply: PreviewReply)
    requires token in w.hands && w.hands[token].op == op
    ensures
      var v := PreviewStep(ctx, w, token, w.hands[token], request, reply);
      v.journal == w.journal && OthersKept(w, v, token)
      && EndsAs(v, token, op, Follow(w.store, op, AfterPreview(ctx.sha, op, request, reply)))
  {
  }

  /** A call of the executor among transactions of the host is a schedule. */
  lemma CallLeads(ctx: Context, w: World, server: string -> nat, client: Client, rest: Meanwhile, token: nat,
                  op: ClaimedOperation) returns (v: World)
    requires token in w.hands && w.hands[token] == Hand(op, Ready) && ServedBy(server, w)
    requires Reached(ctx, w) && HonestClient(server, client) && HostAround(ctx, w.store, client, rest, op)
    ensures
      var reaction := ReactionOf(w.store, ctx.sha, client, rest, op);
      ConcludedAs(ctx, w, v, server, token, op, (Run(w.store, reaction.commands), ResultOf(reaction.answer)))
  {
    var read := w.(store := Run(w.store, rest.before));
    HostLeads(ctx, w, rest.before);
    var planned := React(ctx, read, OfWorker(token, PlanIt));
    LeadsOneStep(ctx, read, OfWorker(token, PlanIt));
    LeadsOn(ctx, w, read, planned);
    var at := planned.(store := Run(planned.store, rest.during));
    HostLeads(ctx, planned, rest.during);
    LeadsOn(ctx, w, planned, at);
    LeadsOn(ctx, START, w, at);
    var done := PlannedLeads(ctx, at, server, client, token, op, PlanFor(read.store, op));
    LeadsOn(ctx, w, at, done);
    v := done.(store := Run(done.store, rest.after));
    HostLeads(ctx, done, rest.after);
    LeadsOn(ctx, w, done, v);
    CallStore(w.store, ctx.sha, client, rest, op);
  }

  /** The store a call among other transactions leaves. */
  lemma CallStore(s: Store, sha: string -> string, client: Client, rest: Meanwhile, op: ClaimedOperation)
    ensures
      var read := Run(s, rest.before);
      var end := Follow(Run(read, rest.during), op, CourseOf(read, sha, client, op));
      var reaction := ReactionOf(s, sha, client, rest, op);
      && Run(s, reaction.commands) == Run(end.0, rest.after) && ResultOf(reaction.answer) == end.1
  {
    var read := Run(s, rest.before);
    var course := CourseOf(read, sha, client, op);
    RunInFour(s, rest.before, rest.during, CommandsOf(op, course), rest.after);
    FollowRuns(Run(read, rest.during), op, course);
  }

  // ---------------------------------------------------------------- the flush

  ghost predicate DistinctTokens(claims: seq<ClaimedOperation>) {
    forall i, j | 0 <= i < j < |claims| :: claims[i].token != claims[j].token
  }

  /** The world as a flush sees it: the store, and a hand, not yet begun, for each claim of the page. */
  ghost predicate Mirrors(w: World, store: Store, page: seq<ClaimedOperation>) {
    && w.store == store && DistinctTokens(page)
    && forall i | 0 <= i < |page| :: page[i].token in w.hands && w.hands[page[i].token] == Hand(page[i], Ready)
  }

  lemma {:induction false} HandsOfPage(hands: map<nat, Hand>, claims: seq<ClaimedOperation>, i: nat)
    requires DistinctTokens(claims) && i < |claims|
    ensures claims[i].token in WithHands(hands, claims)
    ensures WithHands(hands, claims)[claims[i].token] == Hand(claims[i], Ready)
    decreases |claims|
  {
    var next := hands[claims[0].token := Hand(claims[0], Ready)];
    assert forall a, b | 0 <= a < b < |claims[1..]| :: claims[1..][a].token != claims[1..][b].token;
    if i == 0 {
      HandsElsewhere(next, claims[1..], claims[0].token);
    } else {
      HandsOfPage(next, claims[1..], i - 1);
    }
  }

  lemma {:induction false} HandsElsewhere(hands: map<nat, Hand>, claims: seq<ClaimedOperation>, token: nat)
    requires token in hands && forall i | 0 <= i < |claims| :: claims[i].token != token
    ensures token in WithHands(hands, claims) && WithHands(hands, claims)[token] == hands[token]
    decreases |claims|
  {
    if claims != [] {
      assert forall i | 0 <= i < |claims[1..]| :: claims[1..][i] == claims[i + 1];
      HandsElsewhere(hands[claims[0].token := Hand(claims[0], Ready)], claims[1..], token);
    }
  }

  lemma ClaimMirrors(ctx: Context, w: World, worker: string, pageSize: int, cutoff: nat) returns (v: World)
    requires Inv(w.store)
    ensures Leads(ctx, w, v) && v.journal == w.journal
    ensures
      var r := ClaimPage(w.store, worker, pageSize, None, Some(cutoff));
      v.store == r.store && (r.result.Ok? ==> Mirrors(v, r.store, r.result.value))
  {
    var e := Claiming(worker, pageSize, None, Some(cutoff));
    v := React(ctx, w, e);
    LeadsOneStep(ctx, w, e);
    var r := ClaimPage(w.store, worker, pageSize, None, Some(cutoff));
    if r.result.Ok? {
      var ids := ClaimPageExact(w.store, worker, pageSize, None, Some(cutoff));
      var claims := r.result.value;
      forall i | 0 <= i < |claims| ensures claims[i].token == w.store.nextToken + i {
        assert ClaimIssued(w.store, claims[i], ids[i], w.store.nextToken + i, worker, DEFAULT_LEASE);
      }
      forall i | 0 <= i < |claims|
        ensures claims[i].token in v.hands && v.hands[claims[i].token] == Hand(claims[i], Ready)
      {
        HandsOfPage(w.hands, claims, i);
      }
    }
  }

  /** What is asked of the job: the runtime's executor, an honest server, and nobody else executing. */
  ghost predicate RuntimeJob(ctx: Context, j: Job, server: string -> nat,
                             clients: (Store, ClaimedOperation) -> Client,
                             rest: (Store, ClaimedOperation) -> Meanwhile)
  {
    && j.around.executor == ExecutorOf(ctx.sha, clients, rest)
    && (forall s :: HostRun(ctx, s, j.around.others(s)))
    && (forall s, op :: HostAround(ctx, s, clients(s, op), rest(s, op), op))
    && (forall s, op :: HonestClient(server, clients(s, op)))
  }

  ghost predicate Follows(ctx: Context, w: World, v: World, server: string -> nat, g: Progress) {
    && Leads(ctx, w, v) && ServedBy(server, v) && v.store == g.store
    && (g.status == Running ==> Mirrors(v, g.store, g.page))
  }

  lemma ClaimFollows(ctx: Context, j: Job, server: string -> nat, clients: (Store, ClaimedOperation) -> Client,
                     rest: (Store, ClaimedOperation) -> Meanwhile, w: World, f: Progress) returns (v: World)
    requires RuntimeJob(ctx, j, server, clients, rest) && Sound(j, f) && f.status == Running && f.page == []
    requires ServedBy(server, w) && w.store == f.store
    ensures Follows(ctx, w, v, server, Flush.ClaimStep(j, f))
  {
    if Late(j, f.store) {
      v := w;
      LeadsNowhere(ctx, w);
    } else {
      var m := w.(store := Run(w.store, j.around.others(f.store)));
      HostLeads(ctx, w, j.around.others(f.store));
      RunKeeps(f.store, j.around.others(f.store));
      v := ClaimMirrors(ctx, m, j.worker, j.pageSize, j.cutoff);
      LeadsOn(ctx, w, m, v);
    }
  }

  /** The executor's call, and the recording of its result. */
  lemma AttemptFollows(ctx: Context, j: Job, server: string -> nat, clients: (Store, ClaimedOperation) -> Client,
                       rest: (Store, ClaimedOperation) -> Meanwhile, w: World, f: Progress) returns (v: World)
    requires RuntimeJob(ctx, j, server, clients, rest) && f.status == Running && f.page != []
    requires Reached(ctx, w) && ServedBy(server, w) && Mirrors(w, f.store, f.page) && !Late(j, f.store)
    ensures Follows(ctx, w, v, server, AttemptStep(j, f))
  {
    var op := f.page[0];
    var reaction := ReactionOf(f.store, ctx.sha, clients(f.store, op), rest(f.store, op), op);
    var end := (Run(f.store, reaction.commands), ResultOf(reaction.answer));
    var u := CallLeads(ctx, w, server, clients(f.store, op), rest(f.store, op), op.token, op);
    v := ApplyLeads(ctx, w, u, server, op, end);
    RestMirrors(w, v, f.page);
    AttemptApplies(j, f, reaction);
  }

  lemma ApplyLeads(ctx: Context, w: World, u: World, server: string -> nat, op: ClaimedOperation,
                   end: (Store, AttemptResult)) returns (v: World)
    requires ConcludedAs(ctx, w, u, server, op.token, op, end)
    ensures Leads(ctx, w, v) && ServedBy(server, v) && OthersKept(w, v, op.token)
    ensures v.store == ApplyResult(end.0, op.id, op.token, end.1).store
  {
    v := React(ctx, u, OfWorker(op.token, ApplyIt));
    LeadsOneStep(ctx, u, OfWorker(op.token, ApplyIt));
    LeadsOn(ctx, w, u, v);
  }

  lemma AttemptApplies(j: Job, f: Progress, reaction: Reaction)
    requires f.page != [] && !Late(j, f.store) && f.status == Running
    requires reaction == j.around.executor(f.store, f.page[0])
    ensures
      var op, g := f.page[0], AttemptStep(j, f);
      && g.store == ApplyResult(Run(f.store, reaction.commands), op.id, op.token, ResultOf(reaction.answer)).store
      && (g.status == Running ==> g.page == f.page[1..])
  {
  }

  /** The other claims of the page are still in hand. */
  lemma RestMirrors(w: World, v: World, page: seq<ClaimedOperation>)
    requires page != [] && Mirrors(w, w.store, page) && OthersKept(w, v, page[0].token)
    ensures Mirrors(v, v.store, page[1..])
  {
    forall i | 0 <= i < |page[1..]|
      ensures page[1..][i].token in v.hands && v.hands[page[1..][i].token] == Hand(page[1..][i], Ready)
    {
      assert page[1..][i] == page[i + 1] && page[0].token != page[i + 1].token;
    }
    forall a, b | 0 <= a < b < |page[1..]| ensures page[1..][a].token != page[1..][b].token {
      assert page[1..][a] == page[a + 1] && page[1..][b] == page[b + 1];
    }
  }

  lemma {:induction false} ReleaseLeads(ctx: Context, w: World, claims: seq<ClaimedOperation>) returns (v: World)
    requires Mirrors(w, w.store, claims)
    ensures Leads(ctx, w, v) && v.store == ReleaseRows(w.store, claims) && v.journal == w.journal
    decreases |claims|
  {
    if claims == [] {
      v := w;
      LeadsNowhere(ctx, w);
    } else {
      var e := OfWorker(claims[0].token, ReleaseIt);
      var u := React(ctx, w, e);
      LeadsOneStep(ctx, w, e);
      RestMirrors(w, u, claims);
      v := ReleaseLeads(ctx, u, claims[1..]);
      LeadsOn(ctx, w, u, v);
    }
  }

  lemma LateFollows(ctx: Context, j: Job, server: string -> nat, clients: (Store, ClaimedOperation) -> Client,
                    rest: (Store, ClaimedOperation) -> Meanwhile, w: World, f: Progress) returns (v: World)
    requires RuntimeJob(ctx, j, server, clients, rest) && f.status == Running && f.page != []
    requires ServedBy(server, w) && Mirrors(w, f.store, f.page) && Late(j, f.store)
    ensures Follows(ctx, w, v, server, AttemptStep(j, f))
  {
    var m := w.(store := Run(w.store, j.around.others(f.store)));
    HostLeads(ctx, w, j.around.others(f.store));
    v := ReleaseLeads(ctx, m, f.page);
    LeadsOn(ctx, w, m, v);
  }

  /** Every run of flush by the runtime is a schedule of the delivery protocol. */
  lemma {:induction false} FlushIsSchedule(ctx: Context, j: Job, server: string -> nat,
                                           clients: (Store, ClaimedOperation) -> Client,
                                           rest: (Store, ClaimedOperation) -> Meanwhile, w: World, f: Progress)
    returns (v: World)
    requires RuntimeJob(ctx, j, server, clients, rest) && Sound(j, f) && Reached(ctx, w)
    requires ServedBy(server, w) && w.store == f.store && (f.status == Running ==> Mirrors(w, f.store, f.page))
    ensures Leads(ctx, w, v) && v.store == RunFlush(j, f).store
    decreases |Untouched(f.store, j.cutoff)|, |f.page|, if f.status == Running then 1 else 0
  {
    if f.status != Running {
      v := w;
      LeadsNowhere(ctx, w);
    } else {
      FlushStepKeeps(j, f);
      FlushStepDescends(j, f);
      var u;
      if f.page == [] {
        u := ClaimFollows(ctx, j, server, clients, rest, w, f);
      } else if Late(j, f.store) {
        u := LateFollows(ctx, j, server, clients, rest, w, f);
      } else {
        u := AttemptFollows(ctx, j, server, clients, rest, w, f);
      }
      LeadsOn(ctx, START, w, u);
      v := FlushIsSchedule(ctx, j, server, clients, rest, u, FlushStep(j, f));
      LeadsOn(ctx, w, u, v);
    }
  }

  /**
   After any run of the protocol, a flush by the runtime, and whatever it finds done by earlier workers:
   in the world it leaves, every operation has had at most one effect on the server, and exactly one
   if it is archived as succeeded or replayed.
   */
  lemma FlushDeliversOnce(ctx: Context, before: seq<Event>, j: Job, server: string -> nat,
                          clients: (Store, ClaimedOperation) -> Client,
                          rest: (Store, ClaimedOperation) -> Meanwhile, id: Id) returns (events: seq<Event>)
    requires RuntimeJob(ctx, j, server, clients, rest)
    requires
      var w := RunEvents(ctx, START, before);
      ServedBy(server, w) && j.cutoff <= w.store.clock
    ensures Inv(RunEvents(ctx, START, before).store)
    ensures
      var w, v := RunEvents(ctx, START, before), RunEvents(ctx, START, before + events);
      && v == RunEvents(ctx, w, events) && v.store == RunFlush(j, Begin(w.store)).store
      && |EffectsOf(v.journal, id)| <= 1
      && (id in v.store.history && Successful(v.store.history[id]) ==> |EffectsOf(v.journal, id)| == 1)
  {
    var w := RunEvents(ctx, START, before);
    ReachableWorld(ctx, before);
    assert Reached(ctx, w);
    var v := FlushIsSchedule(ctx, j, server, clients, rest, w, Begin(w.store));
    events :| RunEvents(ctx, w, events) == v;
    EventsAppend(ctx, START, before, events);
    ExactlyOnce(ctx, before + events, id);
  }
}
