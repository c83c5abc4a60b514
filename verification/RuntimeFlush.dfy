/** The flush loop driven by the runtime's own executor: what FlushTheorems and FlushOrder ask is met. */
module RuntimeFlush {
  import opened Wrappers
  import opened Ordering
  import opened Requests
  import opened Outbox
  import opened OutboxInvariant
  import opened OutboxRuns
  import opened Flush
  import opened FlushTheorems
  import opened FlushOrder
  import opened Capture
  import opened Executor

  /**
   What other workers and the clock do around one executor call: before it reads the outbox, between
   that read and its own transaction, and after it.
   */
  datatype Meanwhile = Meanwhile(before: seq<Command>, during: seq<Command>, after: seq<Command>)

  /** One call of _execute_operation among other transactions, and what it answers flush. */
  ghost function ReactionOf(s: Store, sha: string -> string, client: Client, rest: Meanwhile,
                            op: ClaimedOperation): Reaction
  {
    var read := Run(s, rest.before);
    var course := CourseOf(read, sha, client, op);
    Reaction(rest.before + (rest.during + (CommandsOf(op, course) + rest.after)),
             Returns(Follow(Run(read, rest.during), op, course).1))
  }

  /** The executor as flush sees it, for a server and other workers that may act differently every time. */
  ghost function ExecutorOf(sha: string -> string, clients: (Store, ClaimedOperation) -> Client,
                            rest: (Store, ClaimedOperation) -> Meanwhile)
    : (Store, ClaimedOperation) -> Reaction
  {
    (s, op) => ReactionOf(s, sha, clients(s, op), rest(s, op), op)
  }

  lemma RunInFour(s: Store, a: seq<Command>, b: seq<Command>, c: seq<Command>, d: seq<Command>)
    ensures Run(s, a + (b + (c + d))) == Run(Run(Run(Run(s, a), b), c), d)
  {
    RunAppend(s, a, b + (c + d));
    RunAppend(Run(s, a), b, c + d);
    RunAppend(Run(Run(s, a), b), c, d);
  }

  /** A call that answers SUPERSEDED has had its supersede succeed, in whatever store it found. */
  lemma SupersededInPlace(s: Store, at: Store, sha: string -> string, client: Client, op: ClaimedOperation)
    requires Inv(at) && Follow(at, op, CourseOf(s, sha, client, op)).1.action.Supersede?
    ensures Dead(Follow(at, op, CourseOf(s, sha, client, op)).0, op.token)
  {
    var course := CourseOf(s, sha, client, op);
    PlanGivesUp(s, op, RouteOf(op.what), CorrectionSourceId(op.what.endpoint));
    EndsQuietly(sha, client, op, PlanFor(s, op));
    SupersedeCompletes(at, op.id, op.token, course.replacement);
    assert op.id !in Follow(at, op, course).0.ops;
  }

  /** Among any transactions of other workers, SUPERSEDED is answered only with the claim gone. */
  lemma ReactionIsHonest(s: Store, sha: string -> string, client: Client, rest: Meanwhile, op: ClaimedOperation)
    requires Inv(s)
    ensures
      var reaction := ReactionOf(s, sha, client, rest, op);
      ResultOf(reaction.answer).action.Supersede? ==> Dead(Run(s, reaction.commands), op.token)
  {
    var read := Run(s, rest.before);
    var at := Run(read, rest.during);
    var course := CourseOf(read, sha, client, op);
    RunKeeps(s, rest.before);
    RunKeeps(read, rest.during);
    RunInFour(s, rest.before, rest.during, CommandsOf(op, course), rest.after);
    FollowRuns(at, op, course);
    RunKeeps(at, CommandsOf(op, course));
    RunKeeps(Follow(at, op, course).0, rest.after);
    if Follow(at, op, course).1.action.Supersede? {
      SupersededInPlace(read, at, sha, client, op);
      DeadStays(Follow(at, op, course).0, Run(Follow(at, op, course).0, rest.after), op.token);
    }
  }

  lemma RuntimeIsHonest(j: Job, sha: string -> string, clients: (Store, ClaimedOperation) -> Client,
                        rest: (Store, ClaimedOperation) -> Meanwhile)
    requires j.around.executor == ExecutorOf(sha, clients, rest)
    ensures Honest(j)
  {
    forall s, op ensures HonestAt(j, s, op) {
      if Inv(s) {
        ReactionIsHonest(s, sha, clients(s, op), rest(s, op), op);
      }
    }
  }

  ghost predicate CalmAround(rest: Meanwhile) {
    AllCalm(rest.before) && AllCalm(rest.during) && AllCalm(rest.after)
  }

  /** The executor's own transactions write no row but the one in hand. */
  lemma ReactionIsCalm(s: Store, sha: string -> string, client: Client, rest: Meanwhile, op: ClaimedOperation)
    requires CalmAround(rest)
    ensures AllCalmFor(ReactionOf(s, sha, client, rest, op).commands, op)
  {
    var course := CourseOf(Run(s, rest.before), sha, client, op);
    assert AllCalmFor(CommandsOf(op, course), op);
    CalmTogether(CommandsOf(op, course), rest.after, op);
    CalmTogether(rest.during, CommandsOf(op, course) + rest.after, op);
    CalmTogether(rest.before, rest.during + (CommandsOf(op, course) + rest.after), op);
  }

  lemma CalmTogether(a: seq<Command>, b: seq<Command>, op: ClaimedOperation)
    requires AllCalmFor(a, op) && AllCalmFor(b, op)
    ensures AllCalmFor(a + b, op)
  {
  }

  lemma RuntimeIsCalm(j: Job, sha: string -> string, clients: (Store, ClaimedOperation) -> Client,
                      rest: (Store, ClaimedOperation) -> Meanwhile)
    requires j.around.executor == ExecutorOf(sha, clients, rest)
    requires forall s :: AllCalm(j.around.others(s))
    requires forall s, op :: CalmAround(rest(s, op))
    ensures CalmJob(j)
  {
    forall s, op ensures AllCalmFor(j.around.executor(s, op).commands, op) {
      ReactionIsCalm(s, sha, clients(s, op), rest(s, op), op);
    }
  }

  /**
   The runtime's flush, whatever the server answers and whatever other workers and the clock do,
   between pages, around each call and inside it: it attempts each operation at most once; if it
   returns, none of its claims is left on any row and its outcome counts add up to its executor calls;
   and the rows it released at the deadline got their attempts back, unless they were lost by then.
   */
  lemma RuntimeFlushEndsClean(j: Job, sha: string -> string, clients: (Store, ClaimedOperation) -> Client,
                              rest: (Store, ClaimedOperation) -> Meanwhile, s: Store)
    requires j.around.executor == ExecutorOf(sha, clients, rest) && Inv(s) && j.cutoff <= s.clock
    ensures
      var g := RunFlush(j, Begin(s));
      && Distinct(Ids(g.attempts))
      && (!g.status.Failed? ==>
            && (forall c | c in g.attempts || c in g.released :: Dead(g.store, c.token))
            && |g.outcomes| == |g.attempts|
            && (g.released != [] ==> g.releasedFrom.Some?)
            && (g.releasedFrom.Some? ==>
                  var before := g.releasedFrom.value;
                  && Inv(before) && Evolves(s, before) && g.store == ReleaseRows(before, g.released)
                  && forall c | c in g.released :: GivenBack(before, g.store, c)))
  {
    RuntimeIsHonest(j, sha, clients, rest);
    AttemptedAtMostOnce(j, s);
    ReturnLeavesNoClaim(j, s);
  }

  /** With pages of one and nobody else claiming, it replays in the order of acceptance. */
  lemma RuntimeFlushReplaysInOrder(j: Job, sha: string -> string,
                                   clients: (Store, ClaimedOperation) -> Client,
                                   rest: (Store, ClaimedOperation) -> Meanwhile, s: Store)
    requires j.around.executor == ExecutorOf(sha, clients, rest) && j.pageSize == 1
    requires forall t :: AllCalm(j.around.others(t))
    requires forall t, op :: CalmAround(rest(t, op))
    requires Inv(s) && j.cutoff <= s.clock && NoneLive(s) && DependenciesEarlier(s)
    ensures InOrder(RunFlush(j, Begin(s)).attempts)
  {
    RuntimeIsCalm(j, sha, clients, rest);
    ReplayOrder(j, s);
  }
}
