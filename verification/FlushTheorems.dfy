/** What one flush guarantees, whatever its executor does and whoever else is at work. */
module FlushTheorems {
  import opened Wrappers
  import opened Ordering
  import opened Requests
  import opened Outbox
  import opened OutboxInvariant
  import opened OutboxRuns
  import opened Flush

  // ---------------------------------------------------------------- at most one attempt each

  function Ids(claims: seq<ClaimedOperation>): (ids: seq<Id>)
    ensures |ids| == |claims|
    ensures forall i | 0 <= i < |ids| :: ids[i] == claims[i].id
  {
    seq(|claims|, i requires 0 <= i < |claims| => claims[i].id)
  }

  /** What the flush has had in hand, in claiming order: attempted, then in the page, then released. */
  function Handled(f: Progress): seq<ClaimedOperation> {
    f.attempts + (if f.status.Failed? && f.page != [] then f.page[1..] else f.page) + f.released
  }

  ghost predicate HandledOnce(j: Job, f: Progress) {
    && Distinct(Ids(Handled(f)))
    && (forall i | 0 <= i < |Handled(f)| :: Handled(f)[i].id !in Untouched(f.store, j.cutoff))
    && (f.status == Running ==> f.released == [])
  }

  /** A claim's token is on its own row, with the attempt count it was issued with, or nowhere. */
  ghost predicate Attached(s: Store, c: ClaimedOperation) {
    c.token < s.nextToken
    && forall id | Holds(s, id, c.token) ::
         id == c.id && s.ops[id].attempts == c.attempts && s.ops[id].what == c.what
  }

  /** A page handed out by claim_page: rows untouched until now, claimed from now on. */
  lemma NewPage(s: Store, worker: string, pageSize: int, cutoff: nat)
    requires Inv(s) && cutoff <= s.clock
    requires ClaimPage(s, worker, pageSize, None, Some(cutoff)).result.Ok?
    ensures
      var r := ClaimPage(s, worker, pageSize, None, Some(cutoff));
      var page := r.result.value;
      && Distinct(Ids(page))
      && (forall i | 0 <= i < |page| ::
            && page[i].id in Untouched(s, cutoff)
            && page[i].id !in Untouched(r.store, cutoff)
            && Holds(r.store, page[i].id, page[i].token)
            && Attached(r.store, page[i]))
  {
    var r := ClaimPage(s, worker, pageSize, None, Some(cutoff));
    ClaimPageKeeps(s, worker, pageSize, None, Some(cutoff));
    var ids := PageClaims(s, worker, pageSize, cutoff);
    NewClaims(s, r.store, r.result.value, ids, worker);
    DistinctClaims(r.result.value, ids);
  }

  lemma DistinctClaims(page: seq<ClaimedOperation>, ids: seq<Id>)
    requires |page| == |ids| && Distinct(ids) && forall i | 0 <= i < |page| :: page[i].id == ids[i]
    ensures Distinct(Ids(page))
  {
    assert Ids(page) == ids;
  }

  lemma NewClaims(s: Store, t: Store, page: seq<ClaimedOperation>, ids: seq<Id>, worker: string)
    requires OpsInv(t) && PageClaimed(s, t, ids, worker, DEFAULT_LEASE)
    requires ClaimsMatch(s, page, ids, worker, DEFAULT_LEASE)
    ensures forall i | 0 <= i < |page| :: Holds(t, page[i].id, page[i].token) && Attached(t, page[i])
  {
    forall i | 0 <= i < |page| ensures Holds(t, page[i].id, page[i].token) && Attached(t, page[i]) {
      assert ClaimIssued(s, page[i], ids[i], s.nextToken + i, worker, DEFAULT_LEASE);
      assert ClaimedAt(s, t, ids[i], s.nextToken + i, worker, DEFAULT_LEASE);
      NewClaim(s, t, page[i], ids[i], s.nextToken + i, worker);
    }
  }

  /** A claim just issued is on its own row and, tokens being distinct, on no other. */
  lemma NewClaim(s: Store, t: Store, c: ClaimedOperation, id: Id, token: nat, worker: string)
    requires OpsInv(t) && id in s.ops && token < t.nextToken
    requires ClaimIssued(s, c, id, token, worker, DEFAULT_LEASE)
    requires ClaimedAt(s, t, id, token, worker, DEFAULT_LEASE)
    ensures Holds(t, c.id, c.token) && Attached(t, c)
  {
  }

  lemma HandledOnceClaim(j: Job, f: Progress)
    requires Sound(j, f) && HandledOnce(j, f) && f.status == Running && f.page == []
    ensures HandledOnce(j, ClaimStep(j, f))
  {
    ClaimStepKeeps(j, f);
    var g := ClaimStep(j, f);
    UntouchedShrinks(f.store, g.store, j.cutoff);
    assert Handled(f) == f.attempts;
    if g.page != [] {
      var s := Run(f.store, j.around.others(f.store));
      RunKeeps(f.store, j.around.others(f.store));
      UntouchedShrinks(f.store, s, j.cutoff);
      NewPage(s, j.worker, j.pageSize, j.cutoff);
      HandledMore(f, g, Untouched(f.store, j.cutoff), Untouched(g.store, j.cutoff));
    } else {
      assert Handled(g) == f.attempts;
    }
  }

  lemma HandledMore(f: Progress, g: Progress, was: set<Id>, now: set<Id>)
    requires g.attempts == f.attempts && g.released == [] && !g.status.Failed? && now <= was
    requires Distinct(Ids(f.attempts)) && Distinct(Ids(g.page))
    requires forall i | 0 <= i < |f.attempts| :: f.attempts[i].id !in was
    requires forall i | 0 <= i < |g.page| :: g.page[i].id in was && g.page[i].id !in now
    ensures Distinct(Ids(Handled(g)))
    ensures forall i | 0 <= i < |Handled(g)| :: Handled(g)[i].id !in now
  {
    var h, n := Handled(g), |f.attempts|;
    assert h == f.attempts + g.page;
    forall a, b | 0 <= a < b < |h| ensures Ids(h)[a] != Ids(h)[b] {
      if b < n {
        assert Ids(f.attempts)[a] != Ids(f.attempts)[b];
      } else if a >= n {
        assert Ids(g.page)[a - n] != Ids(g.page)[b - n];
      } else {
        assert h[a] == f.attempts[a] && h[b] == g.page[b - n];
      }
    }
  }

  /** An attempt or a release moves claims on, without taking any up or dropping any. */
  lemma HandledStays(j: Job, f: Progress)
    requires f.status == Running && f.page != [] && f.released == []
    ensures
      var g := AttemptStep(j, f);
      Handled(g) == Handled(f) && (g.status == Running ==> g.released == [])
  {
    assert f.page == [f.page[0]] + f.page[1..];
  }

  lemma HandledOnceStep(j: Job, f: Progress)
    requires Sound(j, f) && HandledOnce(j, f) && f.status == Running
    ensures HandledOnce(j, FlushStep(j, f))
  {
    if f.page == [] {
      HandledOnceClaim(j, f);
    } else {
      AttemptStepKeeps(j, f);
      var g := AttemptStep(j, f);
      UntouchedShrinks(f.store, g.store, j.cutoff);
      HandledStays(j, f);
    }
  }

  /**
   However the executor answers, and whatever it or other workers do meanwhile, one flush attempts
   or releases each operation at most once.
   */
  lemma {:induction false} EachHandledOnce(j: Job, f: Progress)
    requires Sound(j, f) && HandledOnce(j, f)
    ensures HandledOnce(j, RunFlush(j, f))
    decreases |Untouched(f.store, j.cutoff)|, |f.page|, if f.status == Running then 1 else 0
  {
    if f.status == Running {
      FlushStepKeeps(j, f);
      FlushStepDescends(j, f);
      HandledOnceStep(j, f);
      EachHandledOnce(j, FlushStep(j, f));
    }
  }

  lemma AttemptedAtMostOnce(j: Job, s: Store)
    requires Inv(s) && j.cutoff <= s.clock
    ensures
      var g := RunFlush(j, Begin(s));
      && Distinct(Ids(g.attempts))
      && forall a, b | 0 <= a < |g.attempts| && 0 <= b < |g.released| ::
           g.attempts[a].id != g.released[b].id
  {
    EachHandledOnce(j, Begin(s));
    HandledParts(RunFlush(j, Begin(s)));
  }

  lemma HandledParts(g: Progress)
    requires Distinct(Ids(Handled(g)))
    ensures Distinct(Ids(g.attempts))
    ensures forall a, b | 0 <= a < |g.attempts| && 0 <= b < |g.released| ::
              g.attempts[a].id != g.released[b].id
  {
    var h := Handled(g);
    forall a, b | 0 <= a < b < |g.attempts| ensures Ids(g.attempts)[a] != Ids(g.attempts)[b] {
      assert Ids(h)[a] != Ids(h)[b];
    }
    forall a, b | 0 <= a < |g.attempts| && 0 <= b < |g.released|
      ensures g.attempts[a].id != g.released[b].id
    {
      assert Ids(h)[a] != Ids(h)[|h| - |g.released| + b];
    }
  }

  // ---------------------------------------------------------------- no claim left behind

  /** The executor says SUPERSEDED only when its own claim is gone, as supersede leaves it. */
  ghost predicate Honest(j: Job) {
    forall s, op :: HonestAt(j, s, op)
  }

  ghost predicate HonestAt(j: Job, s: Store, op: ClaimedOperation) {
    var reaction := j.around.executor(s, op);
    Inv(s) && Attached(s, op) && ResultOf(reaction.answer).action.Supersede? ==>
      Dead(Run(s, reaction.commands), op.token)
  }

  lemma AttachedStable(s: Store, t: Store, c: ClaimedOperation)
    requires OpsEvolve(s, t) && Attached(s, c)
    ensures Attached(t, c)
    ensures Dead(s, c.token) ==> Dead(t, c.token)
  {
    forall id | Holds(t, id, c.token)
      ensures id == c.id && t.ops[id].attempts == c.attempts && t.ops[id].what == c.what
              && Holds(s, id, c.token)
    {
      assert RowComesFrom(s, id, t.ops[id]);
    }
  }

  ghost predicate Accounted(f: Progress) {
    && (forall i | 0 <= i < |f.attempts| :: f.status.Failed? || Dead(f.store, f.attempts[i].token))
    && (forall i | 0 <= i < |f.page| :: Attached(f.store, f.page[i]))
    && (!f.status.Failed? ==> |f.outcomes| == |f.attempts|)
    && (f.status == Drained || f.status == DeadlineHit ==> f.page == [])
    && (f.status != DeadlineHit ==> f.released == [] && f.releasedFrom.None?)
    && AllGivenBack(f)
  }

  /** The release at the deadline, in the store it found: every claim it gave up was given back. */
  ghost predicate AllGivenBack(f: Progress) {
    match f.releasedFrom
    case None => f.released == []
    case Some(before) =>
      f.store == ReleaseRows(before, f.released)
      && forall i | 0 <= i < |f.released| :: GivenBack(before, f.store, f.released[i])
  }

  /** The claim had been lost already, or its row is free again with the attempt not counted. */
  ghost predicate GivenBack(s: Store, t: Store, c: ClaimedOperation) {
    Dead(t, c.token)
    && (Dead(s, c.token)
        || (Holds(s, c.id, c.token) && c.id in t.ops
            && t.ops[c.id] == s.ops[c.id].(attempts := c.attempts - 1, claim := None,
                                           updatedAt := s.clock)))
  }

  lemma HeldOrDead(s: Store, c: ClaimedOperation)
    requires Attached(s, c)
    ensures Holds(s, c.id, c.token) || Dead(s, c.token)
  {
  }

  lemma ReleaseRowEnds(s: Store, c: ClaimedOperation)
    requires Inv(s) && Attached(s, c)
    ensures
      var m := ReleaseRow(s, c.id, c.token);
      && Inv(m) && OpsEvolve(s, m) && Dead(m, c.token)
      && (Dead(s, c.token)
          || (Holds(s, c.id, c.token) && c.id in m.ops
              && m.ops[c.id] == s.ops[c.id].(attempts := c.attempts - 1, claim := None,
                                             updatedAt := s.clock)))
  {
    ReleaseIsStep(s, [c]);
    assert ReleaseRows(s, [c]) == ReleaseRow(s, c.id, c.token) by {
      assert [c][1..] == [];
    }
    HeldOrDead(s, c);
  }

  lemma DistinctRest(claims: seq<ClaimedOperation>)
    requires claims != [] && Distinct(Ids(claims))
    ensures Distinct(Ids(claims[1..]))
    ensures forall k | 0 <= k < |claims[1..]| :: claims[1..][k].id != claims[0].id
  {
    forall a, b | 0 <= a < b < |claims[1..]| ensures Ids(claims[1..])[a] != Ids(claims[1..])[b] {
      assert Ids(claims)[a + 1] != Ids(claims)[b + 1];
    }
    forall k | 0 <= k < |claims[1..]| ensures claims[1..][k].id != claims[0].id {
      assert Ids(claims)[0] != Ids(claims)[k + 1];
    }
  }

  lemma {:induction false} ReleaseGivesBack(s: Store, claims: seq<ClaimedOperation>, i: nat)
    requires Inv(s) && i < |claims| && Distinct(Ids(claims))
    requires forall k | 0 <= k < |claims| :: Attached(s, claims[k])
    ensures GivenBack(s, ReleaseRows(s, claims), claims[i])
    decreases |claims|
  {
    var c, rest := claims[0], claims[1..];
    var m := ReleaseRow(s, c.id, c.token);
    ReleaseRowEnds(s, c);
    DistinctRest(claims);
    if i == 0 {
      ReleaseKeeps(m, rest);
      DeadStays(m, ReleaseRows(m, rest), c.token);
      if !Dead(s, c.token) {
        ReleaseOthers(m, rest, c.id);
      }
    } else {
      forall k | 0 <= k < |rest| ensures Attached(m, rest[k]) {
        AttachedStable(s, m, claims[k + 1]);
      }
      ReleaseGivesBack(m, rest, i - 1);
      GivenBackEarlier(s, c, ReleaseRows(m, rest), rest[i - 1]) by {
        assert Attached(s, claims[i]);
      }
    }
  }

  /** Releasing one claim first makes no difference to another. */
  lemma GivenBackEarlier(s: Store, c: ClaimedOperation, t: Store, other: ClaimedOperation)
    requires c.id != other.id && Attached(s, other)
    requires GivenBack(ReleaseRow(s, c.id, c.token), t, other)
    ensures GivenBack(s, t, other)
  {
    HeldOrDead(s, other);
    if Holds(s, other.id, other.token) {
      assert Holds(ReleaseRow(s, c.id, c.token), other.id, other.token);
    }
  }

  lemma {:induction false} ReleaseOthers(s: Store, claims: seq<ClaimedOperation>, id: Id)
    requires id in s.ops && forall k | 0 <= k < |claims| :: claims[k].id != id
    ensures id in ReleaseRows(s, claims).ops && ReleaseRows(s, claims).ops[id] == s.ops[id]
    decreases |claims|
  {
    if claims != [] {
      assert forall k | 0 <= k < |claims[1..]| :: claims[1..][k] == claims[k + 1];
      ReleaseOthers(ReleaseRow(s, claims[0].id, claims[0].token), claims[1..], id);
    }
  }

  lemma AccountedClaim(j: Job, f: Progress)
    requires Sound(j, f) && HandledOnce(j, f) && Accounted(f) && f.status == Running && f.page == []
    ensures Accounted(ClaimStep(j, f))
  {
    var g := ClaimStep(j, f);
    ClaimStepKeeps(j, f);
    forall i | 0 <= i < |f.attempts| ensures Dead(g.store, f.attempts[i].token) {
      DeadStays(f.store, g.store, f.attempts[i].token);
    }
    if !Late(j, f.store) && g.page != [] {
      var s := Run(f.store, j.around.others(f.store));
      RunKeeps(f.store, j.around.others(f.store));
      NewPage(s, j.worker, j.pageSize, j.cutoff);
    }
  }

  lemma DeadStays(s: Store, t: Store, token: nat)
    requires OpsEvolve(s, t) && Dead(s, token)
    ensures Dead(t, token)
  {
    forall id ensures !Holds(t, id, token) {
      if id in t.ops {
        assert RowComesFrom(s, id, t.ops[id]);
        assert !Holds(s, id, token);
      }
    }
  }

  /** After apply_result returns, the claim it was given is on no row. */
  lemma ApplyEndsClaim(s: Store, c: ClaimedOperation, result: AttemptResult)
    requires Inv(s) && Attached(s, c)
    requires result.action.Supersede? ==> Dead(s, c.token)
    requires ApplyResult(s, c.id, c.token, result).result.Ok?
    ensures Dead(ApplyResult(s, c.id, c.token, result).store, c.token)
  {
    if !result.action.Supersede? {
      CompletesOnce(s, DoApply(c.id, c.token, result));
      HeldOrDead(s, c);
    }
  }

  lemma PageDistinct(f: Progress)
    requires Distinct(Ids(Handled(f))) && f.status == Running
    ensures Distinct(Ids(f.page))
  {
    forall a, b | 0 <= a < b < |f.page| ensures Ids(f.page)[a] != Ids(f.page)[b] {
      var n := |f.attempts|;
      assert Handled(f)[n + a] == f.page[a] && Handled(f)[n + b] == f.page[b];
      assert Ids(Handled(f))[n + a] != Ids(Handled(f))[n + b];
    }
  }

  lemma AccountedRelease(j: Job, f: Progress)
    requires Sound(j, f) && HandledOnce(j, f) && Accounted(f) && f.status == Running && f.page != []
    requires Late(j, f.store)
    ensures Accounted(AttemptStep(j, f))
  {
    var g := AttemptStep(j, f);
    var s := Run(f.store, j.around.others(f.store));
    RunKeeps(f.store, j.around.others(f.store));
    TokensStay(f.store, s, f.attempts, f.page);
    ReleaseIsStep(s, f.page);
    TokensStay(s, g.store, f.attempts, []);
    PageDistinct(f);
    forall i | 0 <= i < |f.page| ensures GivenBack(s, g.store, f.page[i]) {
      ReleaseGivesBack(s, f.page, i);
    }
  }

  /** Dead tokens stay dead and attached claims stay attached. */
  lemma TokensStay(s: Store, t: Store, attempts: seq<ClaimedOperation>, page: seq<ClaimedOperation>)
    requires OpsEvolve(s, t)
    requires forall i | 0 <= i < |attempts| :: Dead(s, attempts[i].token)
    requires forall i | 0 <= i < |page| :: Attached(s, page[i])
    ensures forall i | 0 <= i < |attempts| :: Dead(t, attempts[i].token)
    ensures forall i | 0 <= i < |page| :: Attached(t, page[i])
  {
    forall i | 0 <= i < |attempts| ensures Dead(t, attempts[i].token) {
      DeadStays(s, t, attempts[i].token);
    }
    forall i | 0 <= i < |page| ensures Attached(t, page[i]) {
      AttachedStable(s, t, page[i]);
    }
  }

  /** An attempt whose result was applied has ended its claim. */
  lemma AttemptEndsClaim(j: Job, f: Progress)
    requires Sound(j, f) && f.status == Running && f.page != [] && Attached(f.store, f.page[0])
    requires Honest(j) && !Late(j, f.store) && !AttemptStep(j, f).status.Failed?
    ensures Dead(AttemptStep(j, f).store, f.page[0].token)
  {
    var op := f.page[0];
    var reaction := j.around.executor(f.store, op);
    var s := Run(f.store, reaction.commands);
    RunKeeps(f.store, reaction.commands);
    assert HonestAt(j, f.store, op);
    AttachedStable(f.store, s, op);
    ApplyEndsClaim(s, op, ResultOf(reaction.answer));
  }

  lemma AccountedAttempt(j: Job, f: Progress)
    requires Sound(j, f) && Accounted(f) && f.status == Running && f.page != []
    requires Honest(j) && !Late(j, f.store)
    ensures Accounted(AttemptStep(j, f))
  {
    AttemptStepKeeps(j, f);
    TokensStay(f.store, AttemptStep(j, f).store, f.attempts, f.page);
    if !AttemptStep(j, f).status.Failed? {
      AttemptEndsClaim(j, f);
    }
  }

  lemma {:induction false} AccountedToEnd(j: Job, f: Progress)
    requires Sound(j, f) && HandledOnce(j, f) && Accounted(f) && Honest(j)
    ensures Accounted(RunFlush(j, f))
    ensures f.status == Running && RunFlush(j, f).releasedFrom.Some? ==>
              Inv(RunFlush(j, f).releasedFrom.value) && Evolves(f.store, RunFlush(j, f).releasedFrom.value)
    decreases |Untouched(f.store, j.cutoff)|, |f.page|, if f.status == Running then 1 else 0
  {
    if f.status == Running {
      FlushStepKeeps(j, f);
      FlushStepDescends(j, f);
      HandledOnceStep(j, f);
      ReleaseIsLate(j, f);
      if f.page == [] {
        AccountedClaim(j, f);
      } else if Late(j, f.store) {
        AccountedRelease(j, f);
      } else {
        AccountedAttempt(j, f);
      }
      AccountedToEnd(j, FlushStep(j, f));
      if FlushStep(j, f).status == Running && RunFlush(j, f).releasedFrom.Some? {
        EvolvesTransitive(f.store, FlushStep(j, f).store, RunFlush(j, f).releasedFrom.value);
      }
    }
  }

  /** A step that releases ends the flush, in a store the run had reached. */
  lemma ReleaseIsLate(j: Job, f: Progress)
    requires Sound(j, f) && f.status == Running && f.releasedFrom.None?
    ensures
      var g := FlushStep(j, f);
      g.releasedFrom.Some? ==>
        g.status == DeadlineHit && Inv(g.releasedFrom.value) && Evolves(f.store, g.releasedFrom.value)
  {
    RunKeeps(f.store, j.around.others(f.store));
  }

  /**
   A flush that returns leaves none of its own claims on any row, and its outcome counts add up to the
   executor calls. If it released claims, it did so in one store of its run, `releasedFrom`, and each
   row it still held there is as it was but for its attempt taken back, its claim dropped and its time
   of update; the others had been lost to another worker by then.
   */
  lemma ReturnLeavesNoClaim(j: Job, s: Store)
    requires Inv(s) && j.cutoff <= s.clock && Honest(j)
    ensures
      var g := RunFlush(j, Begin(s));
      !g.status.Failed? ==>
        && (forall c | c in g.attempts || c in g.released :: Dead(g.store, c.token))
        && |g.outcomes| == |g.attempts|
        && (g.released != [] ==> g.releasedFrom.Some?)
        && (g.releasedFrom.Some? ==>
              var before := g.releasedFrom.value;
              && Inv(before) && Evolves(s, before) && g.store == ReleaseRows(before, g.released)
              && forall c | c in g.released :: GivenBack(before, g.store, c))
  {
    AccountedToEnd(j, Begin(s));
    if !RunFlush(j, Begin(s)).status.Failed? {
      AccountedMembers(RunFlush(j, Begin(s)));
    }
  }

  lemma AccountedMembers(g: Progress)
    requires Accounted(g) && !g.status.Failed?
    ensures forall c | c in g.attempts || c in g.released :: Dead(g.store, c.token)
    ensures g.releasedFrom.Some? ==> forall c | c in g.released :: GivenBack(g.releasedFrom.value, g.store, c)
  {
    forall c | c in g.attempts ensures Dead(g.store, c.token) {
      var i :| 0 <= i < |g.attempts| && g.attempts[i] == c;
    }
    forall c | c in g.released
      ensures g.releasedFrom.Some? && GivenBack(g.releasedFrom.value, g.store, c)
    {
      var i :| 0 <= i < |g.released| && g.released[i] == c;
    }
  }

  // ---------------------------------------------------------------- what the report says

  /** What an answer counts as: an executor that raises asks for a retry. */
  predicate CountsAs(answer: Answer, action: Action) {
    match answer
    case Returns(result) => action == result.action
    case Raises(_) => action == Retry
  }

  function AttemptsThat(answers: seq<Answer>, action: Action): set<nat> {
    set i: nat | i < |answers| && CountsAs(answers[i], action)
  }

  ghost predicate Asked(j: Job, c: ClaimedOperation, answer: Answer) {
    exists s :: j.around.executor(s, c).answer == answer
  }

  /** Where the attempted operation is, if its answer was applied, in every later store. */
  ghost predicate Became(s: Store, id: Id, answer: Answer) {
    answer.Returns? ==>
      var result := answer.result;
      match result.action
      case Succeed =>
        id in s.history && s.history[id].outcome == (if result.replayed then Replayed else Succeeded)
        && s.history[id].lastStatus == result.status && s.history[id].lastError == result.error
      case DropObsolete =>
        id in s.history && s.history[id].outcome == Obsolete
        && s.history[id].lastStatus == result.status && s.history[id].lastError == result.error
      case Bury =>
        id in s.ops && s.ops[id].state.DeadLetter?
        && s.ops[id].lastStatus == result.status && s.ops[id].lastError == result.error
      case _ => true
  }

  lemma AppliedBecomes(s: Store, c: ClaimedOperation, result: AttemptResult)
    requires ApplyResult(s, c.id, c.token, result).result.Ok?
    ensures Became(ApplyResult(s, c.id, c.token, result).store, c.id, Returns(result))
  {
  }

  lemma BecameStays(s: Store, t: Store, id: Id, answer: Answer)
    requires OpsEvolve(s, t) && Became(s, id, answer)
    ensures Became(t, id, answer)
  {
    if id in s.ops {
      assert RowKept(s.ops[id], id, t);
    }
  }

  /** The answers logged and what became of their operations; the last may have failed to apply. */
  ghost predicate Logged(j: Job, f: Progress) {
    var n := |f.outcomes|;
    && n <= |f.answers| == |f.attempts| <= n + 1 && (!f.status.Failed? ==> n == |f.attempts|)
    && (forall i | 0 <= i < |f.attempts| :: Asked(j, f.attempts[i], f.answers[i]))
    && (forall i | 0 <= i < n :: Became(f.store, f.attempts[i].id, f.answers[i]))
    && (forall a :: f.outcomes[a] == |AttemptsThat(f.answers[..n], a)|)
  }

  lemma OneMoreAnswer(answers: seq<Answer>, answer: Answer, action: Action)
    ensures |AttemptsThat(answers + [answer], action)|
         == |AttemptsThat(answers, action)| + if CountsAs(answer, action) then 1 else 0
  {
    var was, now, n := AttemptsThat(answers, action), AttemptsThat(answers + [answer], action), |answers|;
    assert now == if CountsAs(answer, action) then was + {n} else was;
  }

  lemma AllBecameStay(s: Store, t: Store, attempts: seq<ClaimedOperation>, answers: seq<Answer>, n: nat)
    requires OpsEvolve(s, t) && n <= |attempts| == |answers|
    requires forall i | 0 <= i < n :: Became(s, attempts[i].id, answers[i])
    ensures forall i | 0 <= i < n :: Became(t, attempts[i].id, answers[i])
  {
    forall i | 0 <= i < n ensures Became(t, attempts[i].id, answers[i]) {
      BecameStays(s, t, attempts[i].id, answers[i]);
    }
  }

  /** A step that makes no executor call. */
  lemma LoggedQuietly(j: Job, f: Progress, g: Progress)
    requires Logged(j, f) && f.status == Running && OpsEvolve(f.store, g.store)
    requires g.attempts == f.attempts && g.answers == f.answers && g.outcomes == f.outcomes
    ensures Logged(j, g)
  {
    AllBecameStay(f.store, g.store, f.attempts, f.answers, |f.outcomes|);
  }

  lemma LoggedAttempt(j: Job, f: Progress)
    requires Sound(j, f) && Logged(j, f) && f.status == Running && f.page != [] && !Late(j, f.store)
    ensures Logged(j, AttemptStep(j, f))
  {
    var g, op := AttemptStep(j, f), f.page[0];
    var answer := j.around.executor(f.store, op).answer;
    AttemptStepKeeps(j, f);
    AllBecameStay(f.store, g.store, f.attempts, f.answers, |f.attempts|);
    AttemptLogged(j, f);
    if g.status.Failed? {
      LoggedFailed(j, f, g, op, answer);
    } else {
      CountedOne(j, f);
      LoggedOneMore(j, f, g, op, answer);
    }
  }

  lemma AttemptLogged(j: Job, f: Progress)
    requires f.page != [] && !Late(j, f.store) && f.status == Running
    ensures
      var g, op := AttemptStep(j, f), f.page[0];
      && g.attempts == f.attempts + [op] && g.answers == f.answers + [j.around.executor(f.store, op).answer]
      && (g.status.Failed? ==> g.outcomes == f.outcomes)
  {
  }

  lemma LoggedFailed(j: Job, f: Progress, g: Progress, op: ClaimedOperation, answer: Answer)
    requires Logged(j, f) && f.status == Running && Asked(j, op, answer) && g.status.Failed?
    requires g.attempts == f.attempts + [op] && g.answers == f.answers + [answer] && g.outcomes == f.outcomes
    requires forall i | 0 <= i < |f.attempts| :: Became(g.store, f.attempts[i].id, f.answers[i])
    ensures Logged(j, g)
  {
    assert g.answers[..|f.answers|] == f.answers[..|f.answers|];
  }

  lemma LoggedOneMore(j: Job, f: Progress, g: Progress, op: ClaimedOperation, answer: Answer)
    requires Logged(j, f) && f.status == Running && Asked(j, op, answer)
    requires g.attempts == f.attempts + [op] && g.answers == f.answers + [answer]
    requires forall i | 0 <= i < |f.attempts| :: Became(g.store, f.attempts[i].id, f.answers[i])
    requires Became(g.store, op.id, answer) && |g.outcomes| == |f.outcomes| + 1
    requires forall a :: g.outcomes[a] == f.outcomes[a] + if CountsAs(answer, a) then 1 else 0
    ensures Logged(j, g)
  {
    assert f.answers[..|f.answers|] == f.answers && g.answers[..|g.answers|] == g.answers;
    forall a ensures g.outcomes[a] == |AttemptsThat(g.answers, a)| {
      OneMoreAnswer(f.answers, answer, a);
    }
  }

  /** One executor call whose result was applied: it is counted as what it was. */
  lemma CountedOne(j: Job, f: Progress)
    requires f.page != [] && !Late(j, f.store) && f.status == Running && !AttemptStep(j, f).status.Failed?
    ensures
      var g, answer := AttemptStep(j, f), j.around.executor(f.store, f.page[0]).answer;
      && Became(g.store, f.page[0].id, answer) && |g.outcomes| == |f.outcomes| + 1
      && forall a :: g.outcomes[a] == f.outcomes[a] + if CountsAs(answer, a) then 1 else 0
  {
    var reaction := j.around.executor(f.store, f.page[0]);
    AppliedBecomes(Run(f.store, reaction.commands), f.page[0], ResultOf(reaction.answer));
  }

  lemma {:induction false} LoggedToEnd(j: Job, f: Progress)
    requires Sound(j, f) && Logged(j, f)
    ensures Logged(j, RunFlush(j, f))
    decreases |Untouched(f.store, j.cutoff)|, |f.page|, if f.status == Running then 1 else 0
  {
    if f.status == Running {
      FlushStepKeeps(j, f);
      FlushStepDescends(j, f);
      if f.page != [] && !Late(j, f.store) {
        LoggedAttempt(j, f);
      } else {
        LoggedQuietly(j, f, FlushStep(j, f));
      }
      LoggedToEnd(j, FlushStep(j, f));
    }
  }

  /**
   The report of a flush tells what its executor answered: per action, as many as asked for it, an
   exception asking for a retry. And every operation whose answer was applied is where that answer
   puts it for good: archived with its status if it succeeded or is obsolete, a dead letter if buried.
   */
  lemma ReportTellsAnswers(j: Job, s: Store, action: Action)
    requires Inv(s) && j.cutoff <= s.clock
    ensures
      var g := RunFlush(j, Begin(s));
      && |g.answers| == |g.attempts|
      && (forall i | 0 <= i < |g.attempts| :: Asked(j, g.attempts[i], g.answers[i]))
      && (forall i | 0 <= i < |g.outcomes| :: i < |g.answers| && Became(g.store, g.attempts[i].id, g.answers[i]))
      && (!g.status.Failed? ==>
            |g.outcomes| == |g.attempts| && g.outcomes[action] == |AttemptsThat(g.answers, action)|)
  {
    LoggedToEnd(j, Begin(s));
    var g := RunFlush(j, Begin(s));
    if !g.status.Failed? {
      assert g.answers[..|g.answers|] == g.answers;
    }
  }
}
