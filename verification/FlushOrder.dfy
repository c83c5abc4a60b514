/**
 What a flush does when nobody else works on the queue: the order of its attempts, and exactly
 which operations an always succeeding one archives.
 */
module FlushOrder {
  import opened Wrappers
  import opened Ordering
  import opened Requests
  import opened Outbox
  import opened OutboxInvariant
  import opened OutboxRuns
  import opened Flush
  import opened FlushTheorems

  // ---------------------------------------------------------------- calm surroundings

  /** Transactions that leave every existing row and all of history as they are. */
  predicate Calm(c: Command) {
    c.DoEnqueue? || c.DoReserve? || c.DoEnqueueTurn? || c.DoIndexTurn? || c.DoMark?
    || c.DoRecordRevision? || c.DoTick?
  }

  /** ... or that supersede the operation in hand. */
  predicate CalmFor(c: Command, op: ClaimedOperation) {
    Calm(c) || (c.DoSupersede? && c.id == op.id && c.token == op.token)
  }

  ghost predicate AllCalm(commands: seq<Command>) {
    forall i | 0 <= i < |commands| :: Calm(commands[i])
  }

  ghost predicate AllCalmFor(commands: seq<Command>, op: ClaimedOperation) {
    forall i | 0 <= i < |commands| :: CalmFor(commands[i], op)
  }

  /** Nobody else is at work, and the executor touches no row but its own. */
  ghost predicate CalmJob(j: Job) {
    && (forall s :: AllCalm(j.around.others(s)))
    && (forall s, op :: AllCalmFor(j.around.executor(s, op).commands, op))
  }

  ghost predicate NoneLive(s: Store) {
    forall id | id in s.ops :: Free(s, id)
  }

  /** Between the two stores, only operation `x` was rewritten, archived or made successful. */
  ghost predicate Aside(s: Store, t: Store, x: Option<Id>) {
    && s.clock <= t.clock
    && (forall id | id in s.ops && x != Some(id) :: id in t.ops && t.ops[id] == s.ops[id])
    && (forall id | id in s.history :: id in t.history && t.history[id] == s.history[id])
    && (forall id | id in t.history && x != Some(id) && Successful(t.history[id]) :: id in s.history)
  }

  lemma CalmHistory(s: Store, c: Command)
    requires Calm(c)
    ensures Step(s, c).history == s.history
  {
  }

  lemma CalmClock(s: Store, c: Command)
    requires Calm(c)
    ensures s.clock <= Step(s, c).clock
  {
  }

  lemma SupersedeAside(s: Store, id: Id, token: nat, replacement: NewOperation)
    requires OpsInv(s)
    ensures Aside(s, SupersedeWith(s, id, token, replacement).store, Some(id))
  {
  }

  lemma CalmStep(s: Store, c: Command, x: Option<Id>)
    requires Inv(s)
    requires Calm(c) || (c.DoSupersede? && x == Some(c.id))
    ensures Aside(s, Step(s, c), x)
  {
    if c.DoSupersede? {
      SupersedeAside(s, c.id, c.token, c.replacement);
    } else {
      CalmClock(s, c);
      CalmHistory(s, c);
      forall id | id in s.ops ensures id in Step(s, c).ops && Step(s, c).ops[id] == s.ops[id] {
        RowUntouched(s, c, id);
      }
    }
  }

  lemma AsideTransitive(s: Store, t: Store, u: Store, x: Option<Id>)
    requires Aside(s, t, x) && Aside(t, u, x)
    ensures Aside(s, u, x)
  {
  }

  lemma {:induction false} CalmRun(s: Store, commands: seq<Command>, x: Option<Id>)
    requires Inv(s)
    requires forall i | 0 <= i < |commands| ::
               Calm(commands[i]) || (commands[i].DoSupersede? && x == Some(commands[i].id))
    ensures Aside(s, Run(s, commands), x)
    decreases |commands|
  {
    if commands != [] {
      StepKeeps(s, commands[0]);
      CalmStep(s, commands[0], x);
      CalmRun(Step(s, commands[0]), commands[1..], x);
      AsideTransitive(s, Step(s, commands[0]), Run(s, commands), x);
    }
  }

  lemma ApplyHistory(s: Store, id: Id, token: nat, result: AttemptResult)
    requires OpsInv(s)
    ensures
      var t := ApplyResult(s, id, token, result).store;
      && s.clock <= t.clock
      && (forall i | i in s.history :: i in t.history && t.history[i] == s.history[i])
      && (forall i | i in t.history && i != id :: i in s.history)
  {
    if id in s.ops {
      assert RowOk(s, id, s.ops[id]);
    }
  }

  lemma ApplyAside(s: Store, c: ClaimedOperation, result: AttemptResult)
    requires Inv(s)
    ensures Aside(s, ApplyResult(s, c.id, c.token, result).store, Some(c.id))
  {
    ApplyHistory(s, c.id, c.token, result);
    forall id | id in s.ops && id != c.id
      ensures id in ApplyResult(s, c.id, c.token, result).store.ops
              && ApplyResult(s, c.id, c.token, result).store.ops[id] == s.ops[id]
    {
      ApplyUntouched(s, c.id, c.token, result, id);
    }
  }

  lemma AttemptAside(j: Job, f: Progress)
    requires Sound(j, f) && f.page != [] && !Late(j, f.store)
    requires AllCalmFor(j.around.executor(f.store, f.page[0]).commands, f.page[0])
    ensures Aside(f.store, AttemptStep(j, f).store, Some(f.page[0].id))
  {
    var op := f.page[0];
    var reaction := j.around.executor(f.store, op);
    var s := Run(f.store, reaction.commands);
    RunKeeps(f.store, reaction.commands);
    CalmRun(f.store, reaction.commands, Some(op.id));
    ApplyAside(s, op, ResultOf(reaction.answer));
    AsideTransitive(f.store, s, AttemptStep(j, f).store, Some(op.id));
  }

  // ---------------------------------------------------------------- replay order

  function PlaceOfClaim(c: ClaimedOperation): Place {
    Place(c.createdAt, c.id)
  }

  ghost predicate InOrder(claims: seq<ClaimedOperation>) {
    forall a, b | 0 <= a < b < |claims| :: Before(PlaceOfClaim(claims[a]), PlaceOfClaim(claims[b]))
  }

  /** Every dependency that is still queued comes before its dependent. */
  ghost predicate DependenciesEarlier(s: Store) {
    forall id | id in s.ops && s.ops[id].what.dependsOn.Some? && s.ops[id].what.dependsOn.value in s.ops ::
      Before(PlaceOf(s, s.ops[id].what.dependsOn.value), PlaceOf(s, id))
  }

  /** Nothing claimable comes before the last operation taken. */
  ghost predicate Frontier(j: Job, s: Store, taken: seq<ClaimedOperation>) {
    taken != [] ==>
      forall y | y in s.ops && Claimable(s, y, j.cutoff) ::
        Before(PlaceOfClaim(taken[|taken| - 1]), PlaceOf(s, y))
  }

  /** The loop between two attempts: at most one operation in hand, beyond all attempted so far. */
  ghost predicate Taking(j: Job, s0: Store, s: Store, attempts: seq<ClaimedOperation>,
                         page: seq<ClaimedOperation>)
  {
    && |page| <= 1
    && InOrder(attempts + page)
    && (page != [] ==>
          && page[0].id in s0.ops && PlaceOfClaim(page[0]) == PlaceOf(s0, page[0].id)
          && page[0].id !in Untouched(s, j.cutoff))
    && Frontier(j, s, attempts + page)
  }

  ghost predicate OrderInv(j: Job, s0: Store, f: Progress) {
    && Sound(j, f) && Evolves(s0, f.store)
    && InOrder(f.attempts)
    && (f.status == Running ==> Taking(j, s0, f.store, f.attempts, f.page))
  }

  lemma StillFree(s0: Store, s: Store, cutoff: nat, id: Id)
    requires NoneLive(s0) && Evolves(s0, s) && cutoff <= s0.clock && id in Untouched(s, cutoff)
    ensures id in s0.ops && s.ops[id] == s0.ops[id] && Free(s, id)
  {
    UntouchedShrinks(s0, s, cutoff);
  }

  lemma OrderClaim(j: Job, s0: Store, f: Progress)
    requires NoneLive(s0) && j.cutoff <= s0.clock && CalmJob(j) && j.pageSize == 1
    requires OrderInv(j, s0, f) && f.status == Running && f.page == []
    ensures OrderInv(j, s0, ClaimStep(j, f))
  {
    var g := ClaimStep(j, f);
    ClaimStepKeeps(j, f);
    EvolvesTransitive(s0, f.store, g.store);
    if g.status == Running {
      TakingClaim(j, s0, f);
    }
  }

  lemma TakingClaim(j: Job, s0: Store, f: Progress)
    requires NoneLive(s0) && j.cutoff <= s0.clock && CalmJob(j) && j.pageSize == 1
    requires OrderInv(j, s0, f) && f.status == Running && f.page == []
    requires ClaimStep(j, f).status == Running
    ensures
      var g := ClaimStep(j, f);
      Taking(j, s0, g.store, g.attempts, g.page)
  {
    var commands := j.around.others(f.store);
    var s := Run(f.store, commands);
    assert AllCalm(commands);
    assert f.attempts + [] == f.attempts;
    RunKeeps(f.store, commands);
    CalmRun(f.store, commands, None);
    ClaimStepPage(j, f);
    OrderPage(j, s0, f.store, f.attempts, s, ClaimStep(j, f).page);
  }

  lemma ClaimStepPage(j: Job, f: Progress)
    requires f.status == Running && ClaimStep(j, f).status == Running
    ensures
      var g := ClaimStep(j, f);
      var r := ClaimPage(Run(f.store, j.around.others(f.store)), j.worker, j.pageSize, None, Some(j.cutoff));
      g.attempts == f.attempts && g.store == r.store && r.result == Ok(g.page) && g.page != []
  {
  }

  lemma OrderPage(j: Job, s0: Store, before: Store, attempts: seq<ClaimedOperation>, s: Store,
                  page: seq<ClaimedOperation>)
    requires NoneLive(s0) && j.cutoff <= s0.clock && j.pageSize == 1
    requires Evolves(s0, before) && InOrder(attempts) && Frontier(j, before, attempts)
    requires Inv(s) && Evolves(before, s) && Aside(before, s, None)
    requires ClaimPage(s, j.worker, j.pageSize, None, Some(j.cutoff)).result == Ok(page) && page != []
    ensures Taking(j, s0, ClaimPage(s, j.worker, j.pageSize, None, Some(j.cutoff)).store, attempts, page)
  {
    EvolvesTransitive(s0, before, s);
    PageOfOne(s, j.worker, j.cutoff, page);
    TakingOne(j, s0, before, attempts, s, page[0],
              ClaimPage(s, j.worker, j.pageSize, None, Some(j.cutoff)).store);
  }

  lemma TakingOne(j: Job, s0: Store, before: Store, attempts: seq<ClaimedOperation>, s: Store,
                  c: ClaimedOperation, t: Store)
    requires NoneLive(s0) && j.cutoff <= s0.clock <= s.clock
    requires Evolves(s0, before) && InOrder(attempts) && Frontier(j, before, attempts)
    requires Evolves(s0, s) && OpsEvolve(before, s) && Aside(before, s, None)
    requires Claimable(s, c.id, j.cutoff) && PlaceOfClaim(c) == PlaceOf(s, c.id)
    requires c.id in Untouched(s, j.cutoff) && c.id !in Untouched(t, j.cutoff)
    requires PageClaimed(s, t, [c.id], j.worker, DEFAULT_LEASE)
    requires EarliestClaimable(s, [c.id], j.cutoff, 1)
    ensures Taking(j, s0, t, attempts, [c])
  {
    StillFree(s0, s, j.cutoff, c.id);
    NewestTaken(j, s0, before, attempts, s, c.id);
    InOrderExtends(attempts, c);
    NewFrontier(j, s0, s, [c.id], t);
    var taken := attempts + [c];
    assert taken[|taken| - 1] == c;
  }

  lemma InOrderExtends(claims: seq<ClaimedOperation>, c: ClaimedOperation)
    requires InOrder(claims)
    requires forall a | 0 <= a < |claims| :: Before(PlaceOfClaim(claims[a]), PlaceOfClaim(c))
    ensures InOrder(claims + [c])
  {
  }

  lemma PageOfOne(s: Store, worker: string, cutoff: nat, page: seq<ClaimedOperation>)
    requires Inv(s) && cutoff <= s.clock && page != []
    requires ClaimPage(s, worker, 1, None, Some(cutoff)).result == Ok(page)
    ensures
      var t := ClaimPage(s, worker, 1, None, Some(cutoff)).store;
      && page == [page[0]]
      && page[0].id in s.ops && PlaceOfClaim(page[0]) == PlaceOf(s, page[0].id)
      && page[0].id in Untouched(s, cutoff) && page[0].id !in Untouched(t, cutoff)
      && Claimable(s, page[0].id, cutoff)
      && PageClaimed(s, t, [page[0].id], worker, DEFAULT_LEASE)
      && EarliestClaimable(s, [page[0].id], cutoff, 1)
  {
    var ids := PageClaims(s, worker, 1, cutoff);
    assert ClaimIssued(s, page[0], ids[0], s.nextToken + 0, worker, DEFAULT_LEASE);
    assert ids == [page[0].id];
  }

  /** The row claimed next was claimable before, so it lies beyond the frontier. */
  lemma NewestTaken(j: Job, s0: Store, before: Store, attempts: seq<ClaimedOperation>, s: Store,
                    x: Id)
    requires NoneLive(s0) && j.cutoff <= s0.clock && Evolves(s0, before)
    requires Frontier(j, before, attempts) && InOrder(attempts)
    requires OpsEvolve(before, s) && Aside(before, s, None) && Claimable(s, x, j.cutoff)
    ensures forall a | 0 <= a < |attempts| :: Before(PlaceOfClaim(attempts[a]), PlaceOf(s, x))
  {
    UntouchedShrinks(before, s, j.cutoff);
    assert x in Untouched(s, j.cutoff);
    StillFree(s0, before, j.cutoff, x);
    assert Claimable(before, x, j.cutoff);
    forall a | 0 <= a < |attempts| ensures Before(PlaceOfClaim(attempts[a]), PlaceOf(s, x)) {
      var last := |attempts| - 1;
      assert Before(PlaceOfClaim(attempts[last]), PlaceOf(s, x));
      if a < last {
        BeforeTransitive(PlaceOfClaim(attempts[a]), PlaceOfClaim(attempts[last]), PlaceOf(s, x));
      }
    }
  }

  lemma NewFrontier(j: Job, s0: Store, s: Store, ids: seq<Id>, t: Store)
    requires NoneLive(s0) && j.cutoff <= s0.clock <= s.clock && Evolves(s0, s)
    requires PageClaimed(s, t, ids, j.worker, DEFAULT_LEASE) && |ids| == 1
    requires EarliestClaimable(s, ids, j.cutoff, 1)
    ensures forall y | y in t.ops && Claimable(t, y, j.cutoff) :: Before(PlaceOf(s, ids[0]), PlaceOf(t, y))
  {
    forall y | y in t.ops && Claimable(t, y, j.cutoff) ensures Before(PlaceOf(s, ids[0]), PlaceOf(t, y)) {
      assert ClaimedAt(s, t, ids[0], s.nextToken + 0, j.worker, DEFAULT_LEASE);
      assert y != ids[0];
      assert Elsewhere(ids, y);
      assert y in Untouched(s, j.cutoff);
      StillFree(s0, s, j.cutoff, y);
      assert Claimable(s, y, j.cutoff) && y !in ids;
    }
  }

  lemma OrderAttempt(j: Job, s0: Store, f: Progress)
    requires NoneLive(s0) && DependenciesEarlier(s0) && j.cutoff <= s0.clock && CalmJob(j)
    requires OrderInv(j, s0, f) && f.status == Running && f.page != []
    ensures OrderInv(j, s0, AttemptStep(j, f))
  {
    var g := AttemptStep(j, f);
    AttemptStepKeeps(j, f);
    EvolvesTransitive(s0, f.store, g.store);
    AttemptInOrder(j, s0, f);
    if g.status == Running {
      TakingAttempt(j, s0, f);
    }
  }

  lemma AttemptInOrder(j: Job, s0: Store, f: Progress)
    requires InOrder(f.attempts) && Taking(j, s0, f.store, f.attempts, f.page) && f.page != []
    ensures InOrder(AttemptStep(j, f).attempts)
  {
    assert f.page == [f.page[0]];
  }

  lemma TakingAttempt(j: Job, s0: Store, f: Progress)
    requires NoneLive(s0) && DependenciesEarlier(s0) && j.cutoff <= s0.clock && CalmJob(j)
    requires OrderInv(j, s0, f) && f.status == Running && f.page != []
    requires AttemptStep(j, f).status == Running
    ensures
      var g := AttemptStep(j, f);
      Taking(j, s0, g.store, g.attempts, g.page)
  {
    var x := f.page[0];
    assert f.page == [x] && f.page[1..] == [];
    assert AllCalmFor(j.around.executor(f.store, x).commands, x);
    AttemptAside(j, f);
    AttemptStepKeeps(j, f);
    TakingAfter(j, s0, f.store, f.attempts, x, AttemptStep(j, f).store);
  }

  lemma TakingAfter(j: Job, s0: Store, s: Store, attempts: seq<ClaimedOperation>,
                    x: ClaimedOperation, t: Store)
    requires NoneLive(s0) && DependenciesEarlier(s0) && j.cutoff <= s0.clock
    requires Evolves(s0, s) && j.cutoff <= s.clock && Taking(j, s0, s, attempts, [x])
    requires Aside(s, t, Some(x.id)) && OpsEvolve(s, t)
    ensures Taking(j, s0, t, attempts + [x], [])
  {
    var taken := attempts + [x];
    assert taken + [] == taken && taken[|taken| - 1] == x;
    forall y | y in t.ops && Claimable(t, y, j.cutoff) ensures Before(PlaceOfClaim(x), PlaceOf(t, y)) {
      BeyondAttempt(j, s0, s, attempts, x, t, y);
    }
  }

  /** What an attempt makes claimable depends on the attempted operation, so it comes after it. */
  lemma BeyondAttempt(j: Job, s0: Store, s: Store, attempts: seq<ClaimedOperation>,
                      x: ClaimedOperation, t: Store, y: Id)
    requires NoneLive(s0) && DependenciesEarlier(s0) && j.cutoff <= s0.clock
    requires Evolves(s0, s) && j.cutoff <= s.clock && Taking(j, s0, s, attempts, [x])
    requires Aside(s, t, Some(x.id)) && OpsEvolve(s, t)
    requires y in t.ops && Claimable(t, y, j.cutoff)
    ensures Before(PlaceOfClaim(x), PlaceOf(t, y))
  {
    UntouchedShrinks(s, t, j.cutoff);
    assert y in Untouched(t, j.cutoff);
    StillFree(s0, s, j.cutoff, y);
    var d := t.ops[y].what.dependsOn;
    if d == Some(x.id) && !Satisfied(s.history, d) {
      assert Before(PlaceOf(s0, x.id), PlaceOf(s0, y));
    } else {
      assert Satisfied(s.history, d);
      assert Claimable(s, y, j.cutoff);
      var taken := attempts + [x];
      assert taken[|taken| - 1] == x;
    }
  }

  lemma {:induction false} OrderToEnd(j: Job, s0: Store, f: Progress)
    requires NoneLive(s0) && DependenciesEarlier(s0) && j.cutoff <= s0.clock && CalmJob(j)
    requires j.pageSize == 1 && OrderInv(j, s0, f)
    ensures InOrder(RunFlush(j, f).attempts)
    decreases |Untouched(f.store, j.cutoff)|, |f.page|, if f.status == Running then 1 else 0
  {
    if f.status == Running {
      FlushStepDescends(j, f);
      if f.page == [] { OrderClaim(j, s0, f); } else { OrderAttempt(j, s0, f); }
      OrderToEnd(j, s0, FlushStep(j, f));
    }
  }

  /**
   With pages of one, no live claim at the start and every queued dependency earlier than its
   dependent, a flush attempts operations in strictly increasing (created_at, operation_id) order,
   whatever results the executor returns.
   */
  lemma ReplayOrder(j: Job, s: Store)
    requires Inv(s) && j.cutoff <= s.clock && j.pageSize == 1
    requires NoneLive(s) && DependenciesEarlier(s) && CalmJob(j)
    ensures InOrder(RunFlush(j, Begin(s)).attempts)
  {
    EvolvesReflexive(s);
    OrderToEnd(j, s, Begin(s));
  }

  // ---------------------------------------------------------------- the least fixpoint

  /** `id` is untouched, claimable by state, and its dependency is met, or becomes so in n steps. */
  ghost predicate ReadyIn(s: Store, cutoff: nat, id: Id, n: nat)
    decreases n
  {
    && id in Untouched(s, cutoff) && Mutable(s.ops[id].state)
    && (Satisfied(s.history, s.ops[id].what.dependsOn)
        || (n > 0 && ReadyIn(s, cutoff, s.ops[id].what.dependsOn.value, n - 1)))
  }

  /** The least set closed under: a claimable old row whose dependency is met or in the set. */
  ghost predicate Reachable(s: Store, cutoff: nat, id: Id) {
    exists n: nat :: ReadyIn(s, cutoff, id, n)
  }

  /** The executor always succeeds and nothing but the flush itself touches existing rows. */
  ghost predicate AlwaysSucceeds(j: Job) {
    && !j.timed && j.worker != "" && j.pageSize >= 1
    && (forall s :: AllCalm(j.around.others(s)))
    && (forall s, op :: SucceedsAt(j, s, op))
  }

  ghost predicate SucceedsAt(j: Job, s: Store, op: ClaimedOperation) {
    var r := j.around.executor(s, op);
    AllCalm(r.commands) && r.answer.Returns? && r.answer.result.action == Succeed
  }

  ghost predicate ArchivedHere(s0: Store, cutoff: nat, s: Store, id: Id) {
    id in s.history && Successful(s.history[id]) && id in s0.ops && Reachable(s0, cutoff, id)
  }

  /** Each operation queued at the start is as it was, in hand, or archived and reachable. */
  ghost predicate Where(s0: Store, cutoff: nat, s: Store, page: seq<ClaimedOperation>, id: Id)
    requires id in s0.ops
  {
    || (id in s.ops && s.ops[id] == s0.ops[id])
    || !Elsewhere(Ids(page), id)
    || ArchivedHere(s0, cutoff, s, id)
  }

  ghost predicate InHand(s0: Store, cutoff: nat, s: Store, c: ClaimedOperation) {
    Holds(s, c.id, c.token) && c.id in s0.ops && Reachable(s0, cutoff, c.id)
  }

  ghost predicate Settling(s0: Store, cutoff: nat, s: Store, page: seq<ClaimedOperation>) {
    && (forall id | id in s0.ops :: Where(s0, cutoff, s, page, id))
    && (forall id | id in s.history ::
          (id in s0.history && s.history[id] == s0.history[id]) || ArchivedHere(s0, cutoff, s, id))
    && Distinct(Ids(page))
    && (forall i | 0 <= i < |page| :: InHand(s0, cutoff, s, page[i]))
  }

  ghost predicate FixInv(j: Job, s0: Store, f: Progress) {
    && Sound(j, f) && Evolves(s0, f.store)
    && Settling(s0, j.cutoff, f.store, f.page)
    && (f.status == Running || f.status == Drained)
    && (f.status == Drained ==> f.page == [] && forall id :: !Claimable(f.store, id, j.cutoff))
  }

  /** Calm transactions change nothing of this. */
  lemma SettlingCalm(s0: Store, cutoff: nat, s: Store, t: Store, page: seq<ClaimedOperation>)
    requires Inv(t) && Evolves(s, t) && Aside(s, t, None) && Settling(s0, cutoff, s, page)
    requires t.history == s.history
    ensures Settling(s0, cutoff, t, page)
  {
    forall id | id in s0.ops ensures Where(s0, cutoff, t, page, id) {
      assert Where(s0, cutoff, s, page, id);
    }
    forall id | id in t.history
      ensures (id in s0.history && t.history[id] == s0.history[id]) || ArchivedHere(s0, cutoff, t, id)
    {
      assert ArchivedHere(s0, cutoff, s, id) ==> ArchivedHere(s0, cutoff, t, id);
    }
    forall i | 0 <= i < |page| ensures InHand(s0, cutoff, t, page[i]) {
      assert InHand(s0, cutoff, s, page[i]);
    }
  }

  lemma {:induction false} CalmRunHistory(s: Store, commands: seq<Command>)
    requires AllCalm(commands)
    ensures Run(s, commands).history == s.history
    decreases |commands|
  {
    if commands != [] {
      CalmHistory(s, commands[0]);
      CalmRunHistory(Step(s, commands[0]), commands[1..]);
    }
  }

  /** A row the flush can claim is reachable: its dependency was met at the start, or archived since. */
  lemma ClaimableIsReachable(s0: Store, cutoff: nat, s: Store, id: Id)
    requires Evolves(s0, s) && cutoff <= s0.clock && Settling(s0, cutoff, s, [])
    requires Claimable(s, id, cutoff)
    ensures id in s0.ops && s.ops[id] == s0.ops[id] && Reachable(s0, cutoff, id)
  {
    UntouchedShrinks(s0, s, cutoff);
    assert id in Untouched(s, cutoff);
    var d := s0.ops[id].what.dependsOn;
    if Satisfied(s0.history, d) {
      assert ReadyIn(s0, cutoff, id, 0);
    } else {
      assert ArchivedHere(s0, cutoff, s, d.value);
      var n: nat :| ReadyIn(s0, cutoff, d.value, n);
      assert ReadyIn(s0, cutoff, id, n + 1);
    }
  }

  lemma FixClaim(j: Job, s0: Store, f: Progress)
    requires NoneLive(s0) && j.cutoff <= s0.clock && AlwaysSucceeds(j)
    requires FixInv(j, s0, f) && f.status == Running && f.page == []
    ensures FixInv(j, s0, ClaimStep(j, f))
  {
    var g := ClaimStep(j, f);
    ClaimStepKeeps(j, f);
    EvolvesTransitive(s0, f.store, g.store);
    var commands := j.around.others(f.store);
    var s := Run(f.store, commands);
    assert AllCalm(commands);
    RunKeeps(f.store, commands);
    EvolvesTransitive(s0, f.store, s);
    CalmRun(f.store, commands, None);
    CalmRunHistory(f.store, commands);
    SettlingCalm(s0, j.cutoff, f.store, s, []);
    FixPage(j, s0, s);
  }

  lemma FixPage(j: Job, s0: Store, s: Store)
    requires j.cutoff <= s0.clock && Evolves(s0, s) && Inv(s) && Settling(s0, j.cutoff, s, [])
    requires j.worker != "" && j.pageSize >= 1
    ensures
      var r := ClaimPage(s, j.worker, j.pageSize, None, Some(j.cutoff));
      && r.result.Ok?
      && Settling(s0, j.cutoff, r.store, r.result.value)
      && (r.result.value == [] ==> forall id :: !Claimable(r.store, id, j.cutoff))
  {
    var r := ClaimPage(s, j.worker, j.pageSize, None, Some(j.cutoff));
    var t, page := r.store, r.result.value;
    var ids := PageClaims(s, j.worker, j.pageSize, j.cutoff);
    NewPage(s, j.worker, j.pageSize, j.cutoff);
    assert Ids(page) == ids;
    forall i | 0 <= i < |page| ensures InHand(s0, j.cutoff, t, page[i]) {
      ClaimableIsReachable(s0, j.cutoff, s, ids[i]);
    }
    forall id | id in s0.ops ensures Where(s0, j.cutoff, t, page, id) {
      assert Where(s0, j.cutoff, s, [], id);
      assert ArchivedHere(s0, j.cutoff, s, id) ==> ArchivedHere(s0, j.cutoff, t, id);
    }
    forall id | id in t.history
      ensures (id in s0.history && t.history[id] == s0.history[id]) || ArchivedHere(s0, j.cutoff, t, id)
    {
      assert ArchivedHere(s0, j.cutoff, s, id) ==> ArchivedHere(s0, j.cutoff, t, id);
    }
    if page == [] {
      forall id | Claimable(t, id, j.cutoff) ensures false {
        assert Elsewhere(ids, id);
        assert Claimable(s, id, j.cutoff);
      }
    }
  }

  lemma FixAttempt(j: Job, s0: Store, f: Progress)
    requires NoneLive(s0) && j.cutoff <= s0.clock && AlwaysSucceeds(j)
    requires FixInv(j, s0, f) && f.status == Running && f.page != []
    ensures FixInv(j, s0, AttemptStep(j, f))
  {
    var g := AttemptStep(j, f);
    AttemptStepKeeps(j, f);
    EvolvesTransitive(s0, f.store, g.store);
    var op := f.page[0];
    assert SucceedsAt(j, f.store, op);
    var reaction := j.around.executor(f.store, op);
    var s := Run(f.store, reaction.commands);
    RunKeeps(f.store, reaction.commands);
    CalmRun(f.store, reaction.commands, None);
    CalmRunHistory(f.store, reaction.commands);
    SettlingCalm(s0, j.cutoff, f.store, s, f.page);
    FixArchive(s0, j.cutoff, s, f.page, reaction.answer.result);
  }

  lemma FixArchive(s0: Store, cutoff: nat, s: Store, page: seq<ClaimedOperation>, result: AttemptResult)
    requires Inv(s) && page != [] && Settling(s0, cutoff, s, page) && result.action == Succeed
    ensures
      var r := ApplyResult(s, page[0].id, page[0].token, result);
      r.result.Ok? && Settling(s0, cutoff, r.store, page[1..])
  {
    var op, rest := page[0], page[1..];
    var t := ApplyResult(s, op.id, op.token, result).store;
    assert InHand(s0, cutoff, s, op);
    assert RowOk(s, op.id, s.ops[op.id]);
    DistinctRest(page);
    assert ArchivedHere(s0, cutoff, t, op.id);
    forall id | id in s0.ops ensures Where(s0, cutoff, t, rest, id) {
      assert Where(s0, cutoff, s, page, id);
      if id != op.id && !Elsewhere(Ids(page), id) {
        var i :| 0 <= i < |page| && Ids(page)[i] == id;
        assert Ids(rest)[i - 1] == id;
      }
      assert ArchivedHere(s0, cutoff, s, id) ==> ArchivedHere(s0, cutoff, t, id);
    }
    forall id | id in t.history
      ensures (id in s0.history && t.history[id] == s0.history[id]) || ArchivedHere(s0, cutoff, t, id)
    {
      assert ArchivedHere(s0, cutoff, s, id) ==> ArchivedHere(s0, cutoff, t, id);
    }
    forall i | 0 <= i < |rest| ensures InHand(s0, cutoff, t, rest[i]) {
      assert InHand(s0, cutoff, s, page[i + 1]);
    }
  }

  lemma {:induction false} FixToEnd(j: Job, s0: Store, f: Progress)
    requires NoneLive(s0) && j.cutoff <= s0.clock && AlwaysSucceeds(j) && FixInv(j, s0, f)
    ensures FixInv(j, s0, RunFlush(j, f))
    decreases |Untouched(f.store, j.cutoff)|, |f.page|, if f.status == Running then 1 else 0
  {
    if f.status == Running {
      FlushStepDescends(j, f);
      if f.page == [] { FixClaim(j, s0, f); } else { FixAttempt(j, s0, f); }
      FixToEnd(j, s0, FlushStep(j, f));
    }
  }

  /** Nothing reachable is left over: it would be claimable still. */
  lemma {:induction false} ReachedIsArchived(j: Job, s0: Store, f: Progress, id: Id, n: nat)
    requires NoneLive(s0) && j.cutoff <= s0.clock && FixInv(j, s0, f) && f.status == Drained
    requires ReadyIn(s0, j.cutoff, id, n)
    ensures ArchivedHere(s0, j.cutoff, f.store, id)
    decreases n
  {
    var d := s0.ops[id].what.dependsOn;
    if !Satisfied(s0.history, d) {
      ReachedIsArchived(j, s0, f, d.value, n - 1);
    }
    assert Satisfied(f.store.history, d);
    assert Where(s0, j.cutoff, f.store, [], id);
    assert !Claimable(f.store, id, j.cutoff);
  }

  /**
   Without a deadline, with no live claim at the start and an executor that always succeeds, one
   flush archives as successes exactly the reachable operations, and leaves every other row and
   all of history as it was.
   */
  lemma FlushIsLeastFixpoint(j: Job, s: Store)
    requires Inv(s) && j.cutoff <= s.clock && NoneLive(s) && AlwaysSucceeds(j)
    ensures
      var g := RunFlush(j, Begin(s));
      && g.status == Drained
      && (forall id | id in s.ops ::
            if Reachable(s, j.cutoff, id) then id in g.store.history && Successful(g.store.history[id])
            else id in g.store.ops && g.store.ops[id] == s.ops[id])
      && (forall id | id in g.store.history :: id in s.history || Reachable(s, j.cutoff, id))
  {
    EvolvesReflexive(s);
    FixToEnd(j, s, Begin(s));
    var g := RunFlush(j, Begin(s));
    forall id | id in s.ops
      ensures if Reachable(s, j.cutoff, id) then ArchivedHere(s, j.cutoff, g.store, id)
              else id in g.store.ops && g.store.ops[id] == s.ops[id]
    {
      FixpointAt(j, s, g, id);
    }
  }

  lemma FixpointAt(j: Job, s: Store, g: Progress, id: Id)
    requires NoneLive(s) && j.cutoff <= s.clock && FixInv(j, s, g) && g.status == Drained && id in s.ops
    ensures if Reachable(s, j.cutoff, id) then ArchivedHere(s, j.cutoff, g.store, id)
            else id in g.store.ops && g.store.ops[id] == s.ops[id]
  {
    if Reachable(s, j.cutoff, id) {
      var n: nat :| ReadyIn(s, j.cutoff, id, n);
      ReachedIsArchived(j, s, g, id, n);
    } else {
      assert Where(s, j.cutoff, g.store, [], id);
    }
  }
}
