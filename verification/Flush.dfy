/**
 DurableOutbox.flush as a machine whose state is the store and the loop's locals. The executor, the
 other workers and the deadline are arbitrary functions: since claim tokens never repeat, a
 function of the store and the claim can answer every call differently.
 */
module Flush {
  import opened Wrappers
  import opened Ordering
  import opened Requests
  import opened Outbox
  import opened OutboxInvariant
  import opened OutboxRuns

  datatype Answer = Returns(result: AttemptResult) | Raises(error: string)

  /** What one executor call does to the outbox, with whatever other workers do meanwhile. */
  datatype Reaction = Reaction(commands: seq<Command>, answer: Answer)

  datatype Surroundings = Surroundings(
    executor: (Store, ClaimedOperation) -> Reaction,
    others: Store -> seq<Command>,
    late: Store -> bool)

  /** The arguments of one flush. `cutoff` is the ready_before read when it starts. */
  datatype Job = Job(worker: string, pageSize: int, timed: bool, cutoff: nat, around: Surroundings)

  datatype Status = Running | Drained | DeadlineHit | Failed(error: Error)

  /**
   `attempts` logs the executor calls and `answers` what they came to; `outcomes` is the Counter of the
   report. `released` are the claims given up at the deadline, and `releasedFrom` the store as that
   transaction found it.
   */
  datatype Progress = Progress(
    store: Store, page: seq<ClaimedOperation>, attempts: seq<ClaimedOperation>,
    answers: seq<Answer>, outcomes: multiset<Action>, released: seq<ClaimedOperation>, releasedFrom: Option<Store>,
    status: Status)

  function Begin(s: Store): Progress {
    Progress(s, [], [], [], multiset{}, [], None, Running)
  }

  predicate Late(j: Job, s: Store) {
    j.timed && j.around.late(s)
  }

  /** An exception of the executor becomes a retry. */
  function ResultOf(a: Answer): AttemptResult {
    match a
    case Returns(r) => r
    case Raises(error) => AttemptResult(Retry, None, Some(error), false)
  }

  /** The top of the outer loop: deadline check, then claim_page. */
  function ClaimStep(j: Job, f: Progress): Progress {
    if Late(j, f.store) then f.(status := DeadlineHit) else
      var s := Run(f.store, j.around.others(f.store));
      var r := ClaimPage(s, j.worker, j.pageSize, None, Some(j.cutoff));
      match r.result
      case Err(e) => f.(store := r.store, status := Failed(e))
      case Ok(claims) =>
        if claims == [] then f.(store := r.store, status := Drained)
        else f.(store := r.store, page := claims)
  }

  /** One turn of the inner loop: deadline check and release, or execute and apply. */
  function AttemptStep(j: Job, f: Progress): Progress
    requires f.page != []
  {
    if Late(j, f.store) then
      var s := Run(f.store, j.around.others(f.store));
      f.(store := ReleaseRows(s, f.page), page := [], released := f.page, releasedFrom := Some(s),
         status := DeadlineHit)
    else
      var op := f.page[0];
      var reaction := j.around.executor(f.store, op);
      var s := Run(f.store, reaction.commands);
      var result := ResultOf(reaction.answer);
      var r := ApplyResult(s, op.id, op.token, result);
      match r.result
      case Err(e) =>
        f.(store := r.store, attempts := f.attempts + [op], answers := f.answers + [reaction.answer],
           status := Failed(e))
      case Ok(_) =>
        f.(store := r.store, page := f.page[1..], attempts := f.attempts + [op],
           answers := f.answers + [reaction.answer], outcomes := f.outcomes + multiset{result.action})
  }

  function FlushStep(j: Job, f: Progress): Progress {
    if f.page == [] then ClaimStep(j, f) else AttemptStep(j, f)
  }

  // ---------------------------------------------------------------- termination

  /** Rows this flush may still claim: those not touched since it started. */
  function Untouched(s: Store, cutoff: nat): set<Id> {
    set id | id in s.ops && s.ops[id].updatedAt < cutoff
  }

  ghost predicate Sound(j: Job, f: Progress) {
    Inv(f.store) && j.cutoff <= f.store.clock
  }

  lemma UntouchedShrinks(s: Store, t: Store, cutoff: nat)
    requires OpsEvolve(s, t) && cutoff <= s.clock
    ensures Untouched(t, cutoff) <= Untouched(s, cutoff)
    ensures forall id | id in Untouched(t, cutoff) :: t.ops[id] == s.ops[id]
  {
    forall id | id in Untouched(t, cutoff) ensures id in s.ops && t.ops[id] == s.ops[id] {
      assert RowComesFrom(s, id, t.ops[id]);
    }
  }

  lemma ApplyIsStep(s: Store, id: Id, token: nat, result: AttemptResult)
    requires Inv(s)
    ensures Inv(ApplyResult(s, id, token, result).store)
    ensures Evolves(s, ApplyResult(s, id, token, result).store)
  {
    ApplyKeeps(s, id, token, result);
    ApplyFrame(s, id, token, result);
    SameIndexKeeps(s, ApplyResult(s, id, token, result).store);
  }

  lemma ReleaseIsStep(s: Store, claims: seq<ClaimedOperation>)
    requires Inv(s)
    ensures Inv(ReleaseRows(s, claims)) && Evolves(s, ReleaseRows(s, claims))
  {
    ReleaseKeeps(s, claims);
    ReleaseFrame(s, claims);
    SameIndexKeeps(s, ReleaseRows(s, claims));
  }

  lemma ClaimIsStep(s: Store, worker: string, pageSize: int, lease: Option<int>, cutoff: Option<nat>)
    requires Inv(s)
    ensures
      var t := ClaimPage(s, worker, pageSize, lease, cutoff).store;
      Inv(t) && Evolves(s, t)
  {
    ClaimPageKeeps(s, worker, pageSize, lease, cutoff);
    ClaimPageFrame(s, worker, pageSize, lease, cutoff);
    SameIndexKeeps(s, ClaimPage(s, worker, pageSize, lease, cutoff).store);
  }

  lemma ClaimAfterRun(s: Store, commands: seq<Command>, worker: string, pageSize: int, cutoff: nat)
    requires Inv(s)
    ensures
      var t := ClaimPage(Run(s, commands), worker, pageSize, None, Some(cutoff)).store;
      Inv(t) && Evolves(s, t)
  {
    var m := Run(s, commands);
    RunKeeps(s, commands);
    ClaimIsStep(m, worker, pageSize, None, Some(cutoff));
    EvolvesTransitive(s, m, ClaimPage(m, worker, pageSize, None, Some(cutoff)).store);
  }

  lemma ClaimStepKeeps(j: Job, f: Progress)
    requires Sound(j, f) && f.page == []
    ensures Sound(j, ClaimStep(j, f)) && Evolves(f.store, ClaimStep(j, f).store)
  {
    if Late(j, f.store) {
      EvolvesReflexive(f.store);
    } else {
      ClaimAfterRun(f.store, j.around.others(f.store), j.worker, j.pageSize, j.cutoff);
      ClaimStepStore(j, f);
    }
  }

  lemma ClaimStepStore(j: Job, f: Progress)
    requires !Late(j, f.store)
    ensures
      var s := Run(f.store, j.around.others(f.store));
      ClaimStep(j, f).store == ClaimPage(s, j.worker, j.pageSize, None, Some(j.cutoff)).store
  {
  }

  lemma ReleaseAfterRun(s: Store, commands: seq<Command>, claims: seq<ClaimedOperation>)
    requires Inv(s)
    ensures Inv(ReleaseRows(Run(s, commands), claims)) && Evolves(s, ReleaseRows(Run(s, commands), claims))
  {
    var m := Run(s, commands);
    RunKeeps(s, commands);
    ReleaseIsStep(m, claims);
    EvolvesTransitive(s, m, ReleaseRows(m, claims));
  }

  lemma AttemptStepKeeps(j: Job, f: Progress)
    requires Sound(j, f) && f.page != []
    ensures Sound(j, AttemptStep(j, f)) && Evolves(f.store, AttemptStep(j, f).store)
  {
    if Late(j, f.store) {
      ReleaseAfterRun(f.store, j.around.others(f.store), f.page);
    } else {
      var reaction := j.around.executor(f.store, f.page[0]);
      var s := Run(f.store, reaction.commands);
      RunKeeps(f.store, reaction.commands);
      ApplyIsStep(s, f.page[0].id, f.page[0].token, ResultOf(reaction.answer));
      EvolvesTransitive(f.store, s, AttemptStep(j, f).store);
    }
  }

  lemma FlushStepKeeps(j: Job, f: Progress)
    requires Sound(j, f)
    ensures Sound(j, FlushStep(j, f)) && Evolves(f.store, FlushStep(j, f).store)
  {
    if f.page == [] { ClaimStepKeeps(j, f); } else { AttemptStepKeeps(j, f); }
  }

  /** What a claiming page is made of, as the later proofs need it. */
  lemma PageClaims(s: Store, worker: string, pageSize: int, cutoff: nat) returns (ids: seq<Id>)
    requires Inv(s) && ClaimPage(s, worker, pageSize, None, Some(cutoff)).result.Ok?
    ensures
      var r := ClaimPage(s, worker, pageSize, None, Some(cutoff));
      var claims := r.result.value;
      && pageSize >= 1
      && PageClaimed(s, r.store, ids, worker, DEFAULT_LEASE)
      && ClaimsMatch(s, claims, ids, worker, DEFAULT_LEASE)
      && EarliestClaimable(s, ids, cutoff, pageSize)
      && (forall i | 0 <= i < |claims| ::
            claims[i].id == ids[i] && ids[i] in Untouched(s, cutoff)
            && (cutoff <= s.clock ==> ids[i] !in Untouched(r.store, cutoff)))
  {
    ids := ClaimPageExact(s, worker, pageSize, None, Some(cutoff));
    var r := ClaimPage(s, worker, pageSize, None, Some(cutoff));
    forall i | 0 <= i < |ids|
      ensures r.result.value[i].id == ids[i] && ids[i] in Untouched(s, cutoff)
      ensures cutoff <= s.clock ==> ids[i] !in Untouched(r.store, cutoff)
    {
      assert ClaimIssued(s, r.result.value[i], ids[i], s.nextToken + i, worker, DEFAULT_LEASE);
      assert Claimable(s, ids[i], cutoff);
      assert ClaimedAt(s, r.store, ids[i], s.nextToken + i, worker, DEFAULT_LEASE);
    }
  }

  /** The measure of flush: every non-empty page takes rows out of Untouched for good. */
  ghost predicate Smaller(j: Job, g: Progress, f: Progress) {
    var a, b := |Untouched(g.store, j.cutoff)|, |Untouched(f.store, j.cutoff)|;
    a < b || (a == b && (|g.page| < |f.page| || (|g.page| == |f.page| && g.status != Running)))
  }

  lemma FlushStepDescends(j: Job, f: Progress)
    requires Sound(j, f) && f.status == Running
    ensures Smaller(j, FlushStep(j, f), f)
  {
    FlushStepKeeps(j, f);
    var g := FlushStep(j, f);
    UntouchedShrinks(f.store, g.store, j.cutoff);
    SubsetSize(Untouched(g.store, j.cutoff), Untouched(f.store, j.cutoff));
    if f.page == [] && !Late(j, f.store) {
      var s := Run(f.store, j.around.others(f.store));
      RunKeeps(f.store, j.around.others(f.store));
      UntouchedShrinks(f.store, s, j.cutoff);
      if g.page != [] {
        var ids := PageClaims(s, j.worker, j.pageSize, j.cutoff);
        SubsetStrictlySmaller(Untouched(g.store, j.cutoff), Untouched(f.store, j.cutoff)) by {
          assert ids[0] in Untouched(s, j.cutoff);
          assert ids[0] !in Untouched(g.store, j.cutoff);
        }
      }
    }
  }

  /** Runs a flush to its end. That this function is total is the termination of flush. */
  ghost function RunFlush(j: Job, f: Progress): (g: Progress)
    requires Sound(j, f)
    ensures g.status != Running && Sound(j, g) && Evolves(f.store, g.store)
    decreases |Untouched(f.store, j.cutoff)|, |f.page|, if f.status == Running then 1 else 0
  {
    EvolvesReflexive(f.store);
    if f.status != Running then f else
      FlushStepDescends(j, f);
      FlushStepKeeps(j, f);
      var g := RunFlush(j, FlushStep(j, f));
      EvolvesTransitive(f.store, FlushStep(j, f).store, g.store);
      g
  }
}
