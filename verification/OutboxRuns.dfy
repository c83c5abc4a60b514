/**
 What holds of every run of the outbox: of any list of transactions by any workers in any order,
 from any store that satisfies the invariant.
 */
module OutboxRuns {
  import opened Wrappers
  import opened Ordering
  import opened Requests
  import opened Outbox
  import opened OutboxInvariant

  // ---------------------------------------------------------------- conservation and identity

  /**
   An accepted operation is for ever in exactly one of the two tables with the identity it was
   inserted with. Enqueueing it again is a no-op; enqueueing another mutation under its id conflicts.
   */
  lemma AcceptedForEver(s: Store, commands: seq<Command>, id: Id, op: NewOperation)
    requires Inv(s) && Known(s, id) && op.id == id && ValidOperation(op)
    ensures
      var t := Run(s, commands);
      && (id in t.ops <==> id !in t.history)
      && Known(t, id) && IdentityOf(t, id) == IdentityOf(s, id)
      && Enqueue(t, op) == Tx(t, if Stored(op.what) == IdentityOf(s, id) then Ok(false)
                                 else Err(OperationConflict))
  {
    RunKeeps(s, commands);
    var t := Run(s, commands);
    if id in s.ops {
      assert RowOk(s, id, s.ops[id]);
      assert RowKept(s.ops[id], id, t);
    }
    assert id in t.ops ==> RowOk(t, id, t.ops[id]);
  }

  /** History is append-only, and a dead letter is never touched again. */
  lemma SettledForEver(s: Store, commands: seq<Command>, id: Id)
    requires Inv(s)
    ensures id in s.history ==> id in Run(s, commands).history
                                && Run(s, commands).history[id] == s.history[id]
    ensures id in s.ops && s.ops[id].state.DeadLetter? ==>
              id in Run(s, commands).ops && Run(s, commands).ops[id] == s.ops[id]
  {
    RunKeeps(s, commands);
    if id in s.ops {
      assert RowKept(s.ops[id], id, Run(s, commands));
    }
  }

  // ---------------------------------------------------------------- counting

  function NotSuperseded(h: map<Id, Entry>): set<Id> {
    set id | id in h && !h[id].outcome.Superseded?
  }

  function Population(s: Store): nat {
    |s.ops| + |NotSuperseded(s.history)|
  }

  /** Whether a transaction accepts an operation on its own account, not as a replacement. */
  predicate Accepts(s: Store, c: Command) {
    match c
    case DoEnqueue(op) => Enqueue(s, op).result == Ok(true)
    case DoEnqueueTurn(session, parent, factory) => EnqueueTurn(s, session, parent, factory).result.Ok?
    case _ => false
  }

  function Acceptances(s: Store, commands: seq<Command>): nat
    decreases |commands|
  {
    if commands == [] then 0
    else (if Accepts(s, commands[0]) then 1 else 0) + Acceptances(Step(s, commands[0]), commands[1..])
  }

  lemma SameKeysSameSize<V>(a: map<Id, V>, b: map<Id, V>)
    requires a.Keys == b.Keys
    ensures |a| == |b|
  {
    assert |a| == |a.Keys| && |b| == |b.Keys|;
  }

  lemma InsertSize<V>(a: map<Id, V>, id: Id, v: V)
    requires id !in a
    ensures |a[id := v]| == |a| + 1
  {
    assert a[id := v].Keys == a.Keys + {id};
    assert |a[id := v]| == |a[id := v].Keys| && |a| == |a.Keys|;
  }

  lemma RemoveSize<V>(a: map<Id, V>, id: Id)
    requires id in a
    ensures |a - {id}| == |a| - 1
  {
    assert (a - {id}).Keys == a.Keys - {id};
    assert |a - {id}| == |(a - {id}).Keys| && |a| == |a.Keys|;
  }

  lemma ArchivedCount(h: map<Id, Entry>, id: Id, e: Entry)
    requires id !in h
    ensures |NotSuperseded(h[id := e])| == |NotSuperseded(h)| + if e.outcome.Superseded? then 0 else 1
  {
    assert NotSuperseded(h[id := e]) == NotSuperseded(h) + if e.outcome.Superseded? then {} else {id};
  }

  lemma SameRowsPopulation(s: Store, t: Store)
    requires t.ops.Keys == s.ops.Keys && t.history == s.history
    ensures Population(t) == Population(s)
  {
    SameKeysSameSize(t.ops, s.ops);
  }

  /** Superseding trades the row for the replacement. */
  lemma SupersedePopulation(s: Store, id: Id, token: nat, replacement: NewOperation)
    requires OpsInv(s)
    ensures Population(SupersedeWith(s, id, token, replacement).store) == Population(s)
  {
    var t := SupersedeWith(s, id, token, replacement).store;
    if t != s {
      assert RowOk(s, id, s.ops[id]);
      var row := NewRow(replacement.what, s.clock);
      InsertSize(s.ops, replacement.id, row);
      RemoveSize(s.ops[replacement.id := row], id);
      ArchivedCount(s.history, id, t.history[id]);
    }
  }

  /** Moving a row to history keeps the population. */
  lemma ArchivePopulation(s: Store, id: Id, token: nat, outcome: Outcome, result: AttemptResult)
    requires !outcome.Superseded?
    ensures Population(Archive(s, id, token, outcome, result).store) == Population(s)
  {
    var t := Archive(s, id, token, outcome, result).store;
    if t != s {
      RemoveSize(s.ops, id);
      ArchivedCount(s.history, id, t.history[id]);
    }
  }

  lemma ApplyPopulation(s: Store, id: Id, token: nat, result: AttemptResult)
    ensures Population(ApplyResult(s, id, token, result).store) == Population(s)
  {
    if result.action.Succeed? {
      ArchivePopulation(s, id, token, if result.replayed then Replayed else Succeeded, result);
    } else if result.action.DropObsolete? {
      ArchivePopulation(s, id, token, Obsolete, result);
    } else {
      SameRowsPopulation(s, ApplyResult(s, id, token, result).store);
    }
  }

  lemma EnqueuePopulation(s: Store, op: NewOperation)
    ensures Population(Enqueue(s, op).store)
         == Population(s) + if Enqueue(s, op).result == Ok(true) then 1 else 0
  {
    if Enqueue(s, op).result == Ok(true) {
      InsertSize(s.ops, op.id, NewRow(op.what, s.clock));
    }
  }

  lemma EnqueueTurnPopulation(s: Store, session: string, parent: string, factory: nat -> Result<NewTurn>)
    ensures
      var r := EnqueueTurn(s, session, parent, factory);
      Population(r.store) == Population(s) + if r.result.Ok? then 1 else 0
  {
    if EnqueueTurn(s, session, parent, factory).result.Ok? {
      var op := factory(Touched(s, session, parent).next).value.operation;
      InsertSize(s.ops, op.id, NewRow(op.what, s.clock));
    }
  }

  /** Transactions that neither add rows nor write history. */
  lemma QuietPopulation(s: Store, c: Command)
    requires !c.DoEnqueue? && !c.DoEnqueueTurn? && !c.DoApply? && !c.DoSupersede?
    ensures Population(Step(s, c)) == Population(s)
  {
    if c.DoClaimPage? {
      ClaimPageFrame(s, c.worker, c.pageSize, c.lease, c.cutoff);
    } else if c.DoRelease? {
      ReleaseFrame(s, c.claims);
    }
    SameRowsPopulation(s, Step(s, c));
  }

  lemma StepPopulation(s: Store, c: Command)
    requires Inv(s)
    ensures Population(Step(s, c)) == Population(s) + if Accepts(s, c) then 1 else 0
  {
    match c
    case DoEnqueue(op) => EnqueuePopulation(s, op);
    case DoEnqueueTurn(session, parent, factory) => EnqueueTurnPopulation(s, session, parent, factory);
    case DoApply(id, token, result) => ApplyPopulation(s, id, token, result);
    case DoSupersede(id, token, replacement) => SupersedePopulation(s, id, token, replacement);
    case _ => QuietPopulation(s, c);
  }

  /** Live rows plus history entries that were not superseded count the accepted enqueues. */
  lemma {:induction false} PopulationCounts(s: Store, commands: seq<Command>)
    requires Inv(s)
    ensures Population(Run(s, commands)) == Population(s) + Acceptances(s, commands)
    decreases |commands|
  {
    if commands != [] {
      StepKeeps(s, commands[0]);
      StepPopulation(s, commands[0]);
      PopulationCounts(Step(s, commands[0]), commands[1..]);
    }
  }

  // ---------------------------------------------------------------- supersession chains

  /** Each operation of the path was superseded by the next one. */
  ghost predicate Chain(h: map<Id, Entry>, path: seq<Id>) {
    && path != []
    && forall i | 0 <= i < |path| - 1 :: path[i] in h && h[path[i]].replacement == Some(path[i + 1])
  }

  ghost predicate Root(h: map<Id, Entry>, id: Id) {
    forall i | i in h :: h[i].replacement != Some(id)
  }

  ghost predicate Final(s: Store, id: Id) {
    id in s.ops || (id in s.history && !s.history[id].outcome.Superseded?)
  }

  ghost predicate LeadsTo(s: Store, from: Id, to: Id) {
    exists path :: Chain(s.history, path) && path[0] == from && path[|path| - 1] == to
  }

  lemma ChainOfOne(s: Store, id: Id)
    ensures LeadsTo(s, id, id)
  {
    var path := [id];
    assert Chain(s.history, path) && path[0] == id && path[|path| - 1] == id;
  }

  lemma ChainPrepend(s: Store, id: Id, next: Id, end: Id)
    requires id in s.history && s.history[id].replacement == Some(next) && LeadsTo(s, next, end)
    ensures LeadsTo(s, id, end)
  {
    var path :| Chain(s.history, path) && path[0] == next && path[|path| - 1] == end;
    var longer := [id] + path;
    assert Chain(s.history, longer) && longer[0] == id && longer[|longer| - 1] == end;
  }

  ghost predicate Ends(s: Store, id: Id) {
    exists end :: Final(s, end) && LeadsTo(s, id, end)
  }

  /** Following replacements from an accepted operation ends, at a live or finally archived one. */
  lemma EveryChainEnds(s: Store, id: Id)
    requires OpsInv(s) && Known(s, id)
    ensures exists end :: Final(s, end) && LeadsTo(s, id, end)
  {
    var stuck := set i | i in s.history && !Ends(s, i);
    assert stuck <= s.history.Keys;
    if stuck != {} {
      var c :| c in stuck && LeadsOut(s.history, c, stuck, true);
      assert EntryOk(s, c, s.history[c]);
      ChainOfOne(s, c);
      assert s.history[c].replacement.Some?;
      var next := s.history[c].replacement.value;
      ChainOfOne(s, next);
      assert Ends(s, next);
      var end :| Final(s, end) && LeadsTo(s, next, end);
      ChainPrepend(s, c, next, end);
      assert false;
    }
    ChainOfOne(s, id);
    assert id !in stuck;
    assert Ends(s, id);
  }

  /** Two chains from one operation agree as far as the shorter one goes. */
  lemma {:induction false} ChainsAgree(h: map<Id, Entry>, a: seq<Id>, b: seq<Id>, i: nat)
    requires Chain(h, a) && Chain(h, b) && a[0] == b[0] && i < |a| && i < |b|
    ensures a[i] == b[i]
  {
    if i > 0 {
      ChainsAgree(h, a, b, i - 1);
    }
  }

  /** ... so it ends at exactly one record. */
  lemma ChainEndUnique(s: Store, id: Id, x: Id, y: Id)
    requires OpsInv(s) && Final(s, x) && Final(s, y) && LeadsTo(s, id, x) && LeadsTo(s, id, y)
    ensures x == y
  {
    var a :| Chain(s.history, a) && a[0] == id && a[|a| - 1] == x;
    var b :| Chain(s.history, b) && b[0] == id && b[|b| - 1] == y;
    var n := if |a| < |b| then |a| - 1 else |b| - 1;
    ChainsAgree(s.history, a, b, n);
    FinalEndsChain(s, a);
    FinalEndsChain(s, b);
  }

  /** A final record has no successor, so it can only be the last of a chain. */
  lemma FinalEndsChain(s: Store, path: seq<Id>)
    requires OpsInv(s) && Chain(s.history, path)
    ensures forall i | 0 <= i < |path| - 1 :: !Final(s, path[i])
  {
    forall i | 0 <= i < |path| - 1 ensures !Final(s, path[i]) {
      var x := path[i];
      assert x in s.history && s.history[x].replacement == Some(path[i + 1]);
      assert EntryOk(s, x, s.history[x]);
      assert x in s.ops ==> RowOk(s, x, s.ops[x]);
    }
  }

  lemma ReplacementIsNoRoot(h: map<Id, Entry>, path: seq<Id>)
    requires Chain(h, path) && |path| > 1
    ensures !Root(h, path[|path| - 1])
  {
    var i := |path| - 2;
    assert h[path[i]].replacement == Some(path[i + 1]);
  }

  /** Chains never meet: two that end at one record and start at roots are the same chain. */
  lemma {:induction false} ChainsDisjoint(s: Store, a: seq<Id>, b: seq<Id>)
    requires OpsInv(s) && Chain(s.history, a) && Chain(s.history, b)
    requires a[|a| - 1] == b[|b| - 1] && Root(s.history, a[0]) && Root(s.history, b[0])
    ensures a == b
    decreases |a|
  {
    if |a| > 1 && |b| > 1 {
      assert a[|a| - 2] == b[|b| - 2];
      var a', b' := a[..|a| - 1], b[..|b| - 1];
      ChainsDisjoint(s, a', b');
      assert a == a' + [a[|a| - 1]] && b == b' + [b[|b| - 1]];
    } else if |a| > 1 {
      ReplacementIsNoRoot(s.history, a);
    } else if |b| > 1 {
      ReplacementIsNoRoot(s.history, b);
    }
  }

  ghost predicate Descends(s: Store, id: Id) {
    exists root :: Known(s, root) && Root(s.history, root) && LeadsTo(s, root, id)
  }

  /** Every record, live or archived, descends from a root. */
  lemma EveryRecordHasRoot(s: Store, id: Id)
    requires OpsInv(s) && Known(s, id)
    ensures exists root :: Known(s, root) && Root(s.history, root) && LeadsTo(s, root, id)
  {
    var lost := set i | i in s.ops.Keys + s.history.Keys && !Descends(s, i);
    LostSelfContained(s, lost);
    LostIsEmpty(s, lost);
    assert id !in lost;
    assert Descends(s, id);
  }

  /** Replacements are acyclic, so no set of entries can be replaced within itself. */
  lemma LostIsEmpty(s: Store, lost: set<Id>)
    requires OpsInv(s) && SourcesOf(s.history, lost) == lost
    ensures lost == {}
  {
    assert lost <= s.history.Keys;
    assert forall c | c in lost :: !LeadsOut(s.history, c, lost, true);
  }

  /** A record that descends from no root is no root itself. */
  lemma LostIsReplacement(s: Store, i: Id)
    requires Known(s, i) && !Descends(s, i)
    ensures exists p :: p in s.history && s.history[p].replacement == Some(i)
  {
    ChainOfOne(s, i);
  }

  /** The entries whose replacement is in a set. */
  function SourcesOf(h: map<Id, Entry>, targets: set<Id>): set<Id> {
    set p | p in h && h[p].replacement.Some? && h[p].replacement.value in targets
  }

  /** Without a root, every record would replace another such record, and be replaced by one. */
  lemma LostSelfContained(s: Store, lost: set<Id>)
    requires forall i | i in lost :: Known(s, i) && !Descends(s, i)
    requires forall i | Known(s, i) && !Descends(s, i) :: i in lost
    ensures SourcesOf(s.history, lost) == lost
  {
    var before := SourcesOf(s.history, lost);
    forall i | i in lost ensures exists p :: p in before && s.history[p].replacement == Some(i) {
      LostIsReplacement(s, i);
      var p :| p in s.history && s.history[p].replacement == Some(i);
      assert p in before;
    }
    forall p | p in before ensures p in lost {
      ExtendFromRoot(s, p, s.history[p].replacement.value);
    }
    SourcesAsMany(s, lost, before);
    Pigeonhole(lost, before);
  }

  lemma ExtendFromRoot(s: Store, p: Id, next: Id)
    requires p in s.history && s.history[p].replacement == Some(next)
    ensures Descends(s, p) ==> Descends(s, next)
  {
    if Descends(s, p) {
      var root :| Known(s, root) && Root(s.history, root) && LeadsTo(s, root, p);
      var path :| Chain(s.history, path) && path[0] == root && path[|path| - 1] == p;
      var longer := path + [next];
      assert Chain(s.history, longer) && longer[0] == root && longer[|longer| - 1] == next;
      assert LeadsTo(s, root, next);
    }
  }

  /** Replacements are distinct, so a set in which everything has a predecessor is its own source. */
  lemma Pigeonhole(lost: set<Id>, before: set<Id>)
    requires before <= lost && |lost| <= |before|
    ensures lost == before
  {
    if before != lost {
      SubsetStrictlySmaller(before, lost);
    }
  }

  lemma {:induction false} SourcesAsMany(s: Store, targets: set<Id>, sources: set<Id>)
    requires forall p | p in sources :: p in s.history && s.history[p].replacement.Some?
    requires forall i | i in targets :: exists p :: p in sources && s.history[p].replacement == Some(i)
    ensures |targets| <= |sources|
  {
    if targets != {} {
      var i :| i in targets;
      var p :| p in sources && s.history[p].replacement == Some(i);
      forall j | j in targets - {i}
        ensures exists q :: q in sources - {p} && s.history[q].replacement == Some(j)
      {
        var q :| q in sources && s.history[q].replacement == Some(j);
        assert q in sources - {p};
      }
      SourcesAsMany(s, targets - {i}, sources - {p});
    }
  }

  lemma SubsetStrictlySmaller(a: set<Id>, b: set<Id>)
    requires a < b
    ensures |a| < |b|
  {
    var x :| x in b && x !in a;
    SubsetSize(a, b - {x});
  }

  /** The operation an accepting transaction accepts. */
  function AcceptedOp(s: Store, c: Command): NewOperation
    requires Accepts(s, c)
  {
    if c.DoEnqueue? then c.op else c.factory(Touched(s, c.session, c.parent).next).value.operation
  }

  lemma AcceptedIsNew(s: Store, c: Command)
    requires Accepts(s, c)
    ensures !Known(s, AcceptedOp(s, c).id) && AcceptedOp(s, c).id in Step(s, c).ops
    ensures Step(s, c).history == s.history
  {
  }

  /** An operation accepted by an enqueue is a root, and stays one in every run. */
  lemma RootForEver(s: Store, c: Command, commands: seq<Command>)
    requires Inv(s) && Accepts(s, c)
    ensures Root(Run(Step(s, c), commands).history, AcceptedOp(s, c).id)
  {
    var id := AcceptedOp(s, c).id;
    AcceptedIsNew(s, c);
    StepKeeps(s, c);
    RunKeeps(Step(s, c), commands);
    StaysRoot(s, Step(s, c), Run(Step(s, c), commands), id);
  }

  lemma StaysRoot(s: Store, m: Store, t: Store, id: Id)
    requires OpsInv(s) && !Known(s, id) && id in m.ops && m.history == s.history && OpsEvolve(m, t)
    ensures Root(t.history, id)
  {
    forall i | i in t.history ensures t.history[i].replacement != Some(id) {
      assert EntryComesFrom(m, i, t.history[i]);
      assert i in s.history ==> EntryOk(s, i, s.history[i]);
    }
  }

  // ---------------------------------------------------------------- lease fencing

  /** A token was issued and is on no row. */
  ghost predicate Dead(s: Store, token: nat) {
    token < s.nextToken && forall id :: !Holds(s, id, token)
  }

  /** Once a token is off its row it never comes back, and nothing done with it changes anything. */
  lemma DeadForEver(s: Store, commands: seq<Command>, token: nat, id: Id, lease: Option<int>,
                    result: AttemptResult, replacement: NewOperation, claim: ClaimedOperation)
    requires Inv(s) && Dead(s, token)
    requires claim.token == token
    ensures
      var t := Run(s, commands);
      && Dead(t, token)
      && RenewClaim(t, id, token, lease).store == t && RenewClaim(t, id, token, lease).result.Err?
      && ApplyResult(t, id, token, result).store == t
      && (result.action.Supersede? || ApplyResult(t, id, token, result).result == Err(ClaimLost))
      && SupersedeWith(t, id, token, replacement).store == t
      && SupersedeWith(t, id, token, replacement).result.Err?
      && ReleaseRow(t, claim.id, token) == t
  {
    RunKeeps(s, commands);
    var t := Run(s, commands);
    forall i ensures !Holds(t, i, token) {
      if i in t.ops {
        assert RowComesFrom(s, i, t.ops[i]);
        assert !Holds(s, i, token);
      }
    }
    assert !Holds(t, id, token) && !Holds(t, claim.id, token);
  }

  /** The transactions by which the holder of a token gives the operation up. */
  predicate GivesUp(c: Command, id: Id, token: nat) {
    match c
    case DoApply(i, k, result) => i == id && k == token && !result.action.Supersede?
    case DoSupersede(i, k, replacement) => i == id && k == token
    case DoRelease(claims) => exists x | x in claims :: x.id == id && x.token == token
    case _ => false
  }

  lemma ApplyCompletes(s: Store, id: Id, token: nat, result: AttemptResult)
    requires OpsInv(s) && !result.action.Supersede?
    ensures
      var t := ApplyResult(s, id, token, result).store;
      t == s || (Holds(s, id, token) && Dead(t, token))
  {
    if Holds(s, id, token) {
      assert RowOk(s, id, s.ops[id]);
    }
  }

  lemma SupersedeCompletes(s: Store, id: Id, token: nat, replacement: NewOperation)
    requires OpsInv(s)
    ensures
      var t := SupersedeWith(s, id, token, replacement).store;
      t == s || (Holds(s, id, token) && Dead(t, token))
  {
    if Holds(s, id, token) {
      assert RowOk(s, id, s.ops[id]);
    }
  }

  /** A completing transaction takes effect at most once: it kills its own token. */
  lemma CompletesOnce(s: Store, c: Command)
    requires Inv(s) && (c.DoApply? || c.DoSupersede?)
    requires c.DoApply? ==> !c.result.action.Supersede?
    ensures Step(s, c) == s || (Holds(s, c.id, c.token) && Dead(Step(s, c), c.token))
  {
    match c
    case DoApply(id, token, result) => ApplyCompletes(s, id, token, result);
    case DoSupersede(id, token, replacement) => SupersedeCompletes(s, id, token, replacement);
  }

  /** What the holder's lease is, while it holds. */
  function LeaseEnds(s: Store, id: Id): nat
    requires id in s.ops && s.ops[id].claim.Some?
  {
    s.ops[id].claim.value.leaseEnds
  }

  /**
   One step of fencing. A held operation stays with its holder unless the holder gives it up or a
   claim finds the lease expired; meanwhile only the holder's renewal moves the lease.
   */
  lemma HoldStep(s: Store, c: Command, id: Id, token: nat)
    requires Inv(s) && Holds(s, id, token)
    ensures
      var t := Step(s, c);
      if Holds(t, id, token) then
        LeaseEnds(t, id) == LeaseEnds(s, id)
        || (c.DoRenew? && c.id == id && c.token == token
            && LeaseEnds(t, id) == s.clock + if c.lease.Some? then c.lease.value else DEFAULT_LEASE)
      else
        GivesUp(c, id, token) || (c.DoClaimPage? && LeaseEnds(s, id) <= s.clock)
  {
    if c.DoRenew? {
      RenewHold(s, c.id, c.token, c.lease, id, token);
    } else {
      HoldKept(s, c, id, token);
    }
  }

  lemma HoldKept(s: Store, c: Command, id: Id, token: nat)
    requires Inv(s) && Holds(s, id, token) && !c.DoRenew?
    ensures
      var t := Step(s, c);
      || (id in t.ops && t.ops[id] == s.ops[id])
      || (!Holds(t, id, token)
          && (GivesUp(c, id, token) || (c.DoClaimPage? && LeaseEnds(s, id) <= s.clock)))
  {
    if c.DoClaimPage? {
      ClaimPageHold(s, c.worker, c.pageSize, c.lease, c.cutoff, id);
    } else if c.DoRelease? {
      ReleaseHold(s, c.claims, id, token);
    } else if c.DoApply? {
      ApplyHold(s, c.id, c.token, c.result, id, token);
    } else if c.DoUnblockAuth? {
      assert RowOk(s, id, s.ops[id]);
    } else if !(c.DoSupersede? && c.id == id && c.token == token) {
      RowUntouched(s, c, id);
    }
  }

  /** Claiming a held row again takes an expired lease, and puts another token on it. */
  lemma ClaimPageHold(s: Store, worker: string, pageSize: int, lease: Option<int>,
                      cutoff: Option<nat>, id: Id)
    requires OpsInv(s) && id in s.ops && s.ops[id].claim.Some?
    ensures
      var t := ClaimPage(s, worker, pageSize, lease, cutoff).store;
      id in t.ops
      && (t.ops[id] == s.ops[id]
          || (LeaseEnds(s, id) <= s.clock && !Holds(t, id, s.ops[id].claim.value.token)))
  {
    if ClaimPage(s, worker, pageSize, lease, cutoff).result.Ok? {
      var ids := ClaimPageExact(s, worker, pageSize, lease, cutoff);
      assert RowOk(s, id, s.ops[id]);
      if exists i :: 0 <= i < |ids| && ids[i] == id {
        var i :| 0 <= i < |ids| && ids[i] == id;
      }
    }
  }

  lemma RenewHold(s: Store, other: Id, k: nat, lease: Option<int>, id: Id, token: nat)
    requires Holds(s, id, token)
    ensures
      var t := RenewClaim(s, other, k, lease).store;
      && Holds(t, id, token)
      && (LeaseEnds(t, id) == LeaseEnds(s, id)
          || (other == id && k == token
              && LeaseEnds(t, id) == s.clock + if lease.Some? then lease.value else DEFAULT_LEASE))
  {
  }

  lemma ApplyHold(s: Store, other: Id, k: nat, result: AttemptResult, id: Id, token: nat)
    requires Holds(s, id, token)
    ensures
      var t := ApplyResult(s, other, k, result).store;
      (other == id && k == token && !result.action.Supersede? && !Holds(t, id, token))
      || (id in t.ops && t.ops[id] == s.ops[id])
  {
  }

  lemma {:induction false} ReleaseHold(s: Store, claims: seq<ClaimedOperation>, id: Id, token: nat)
    requires id in s.ops && (Holds(s, id, token) || s.ops[id].claim.None?)
    ensures
      var t := ReleaseRows(s, claims);
      id in t.ops
      && (t.ops[id] == s.ops[id]
          || (t.ops[id].claim.None? && exists x | x in claims :: x.id == id && x.token == token))
    decreases |claims|
  {
    if claims != [] {
      var m := ReleaseRow(s, claims[0].id, claims[0].token);
      ReleaseHold(m, claims[1..], id, token);
      assert forall x | x in claims[1..] :: x in claims;
      assert claims[0] in claims;
    }
  }

  /**
   Fencing over a whole run: if the operation is no longer with the holder at the end, then at
   some point of the run the holder, still holding, gave it up, or a claim found the holder's
   lease, as renewed so far, at its end.
   */
  lemma {:induction false} LeaseFenced(s: Store, commands: seq<Command>, id: Id, token: nat)
    requires Inv(s) && Holds(s, id, token) && !Holds(Run(s, commands), id, token)
    ensures exists k :: 0 <= k < |commands| && LeavesAt(s, commands, k, id, token)
    decreases |commands|
  {
    if commands != [] {
      var c, rest := commands[0], commands[1..];
      StepKeeps(s, c);
      HoldStep(s, c, id, token);
      assert commands[..0] == [];
      if Holds(Step(s, c), id, token) {
        LeaseFenced(Step(s, c), rest, id, token);
        var k :| 0 <= k < |rest| && LeavesAt(Step(s, c), rest, k, id, token);
        LeavesLater(s, commands, k, id, token);
      } else {
        assert LeavesAt(s, commands, 0, id, token);
      }
    }
  }

  lemma LeavesLater(s: Store, commands: seq<Command>, k: nat, id: Id, token: nat)
    requires k + 1 < |commands| && LeavesAt(Step(s, commands[0]), commands[1..], k, id, token)
    ensures LeavesAt(s, commands, k + 1, id, token)
  {
    assert commands[..k + 1][1..] == commands[1..][..k];
  }

  ghost predicate LeavesAt(s: Store, commands: seq<Command>, k: nat, id: Id, token: nat)
    requires k < |commands|
  {
    var at := Run(s, commands[..k]);
    Holds(at, id, token)
    && (GivesUp(commands[k], id, token)
        || (commands[k].DoClaimPage? && LeaseEnds(at, id) <= at.clock))
  }

  // ---------------------------------------------------------------- the life of an operation

  /** A row may be claimed now, by a worker that takes whatever is ready. */
  predicate Ready(s: Store, id: Id) {
    Claimable(s, id, s.clock + 1)
  }

  /** A new operation can be claimed at once exactly when its dependency is met, after all older ones. */
  lemma AcceptedIsReady(s: Store, op: NewOperation)
    requires Inv(s) && Enqueue(s, op).result == Ok(true)
    ensures
      var t := Enqueue(s, op).store;
      && (Ready(t, op.id) <==> Satisfied(s.history, op.what.dependsOn))
      && (forall id | id in s.ops :: t.ops[id] == s.ops[id] && s.ops[id].createdAt <= t.ops[op.id].createdAt)
      && t.ops[op.id].attempts == 0 && t.history == s.history
  {
    forall id | id in s.ops ensures s.ops[id].createdAt <= s.clock {
      assert RowOk(s, id, s.ops[id]);
    }
  }

  /**
   What its holder's result makes of an operation. Retry, recovery and reconciliation leave it ready,
   and the next claim says which; blocked, it waits for unblock_auth and is ready after it; buried, it
   is not ready; done, it is in history, where only success meets its dependents' dependency.
   */
  lemma LifeAfterResult(s: Store, id: Id, token: nat, result: AttemptResult)
    requires OpsInv(s) && Holds(s, id, token)
    ensures
      var t := ApplyResult(s, id, token, result).store;
      match result.action
      case Retry => Ready(t, id) && t.ops[id].state == Pending
      case Recover => Ready(t, id) && t.ops[id].state == PendingRecovery
      case Reconcile => Ready(t, id) && t.ops[id].state == ReconcileRevision
      case BlockAuth => !Ready(t, id) && Ready(UnblockAuth(t).store, id)
      case Bury => !Ready(t, id) && !Ready(UnblockAuth(t).store, id) && id in t.ops
      case Succeed =>
        id !in t.ops && Satisfied(t.history, Some(id))
        && (t.history[id].outcome == Replayed <==> result.replayed)
      case DropObsolete => id !in t.ops && id in t.history && !Satisfied(t.history, Some(id))
      case Supersede => t == s
    ensures
      var t := ApplyResult(s, id, token, result).store;
      id in t.ops && t != s ==>
        && t.ops[id].claim.None? && t.ops[id].attempts == s.ops[id].attempts
        && t.ops[id].lastStatus == result.status && t.ops[id].lastError == result.error
    ensures
      var t := ApplyResult(s, id, token, result).store;
      id !in t.ops ==>
        t.history[id] == Entry(s.ops[id].what, t.history[id].outcome, s.ops[id].attempts, s.clock, None,
                               result.status, result.error)
  {
    assert RowOk(s, id, s.ops[id]);
  }

  /** Buried, it is never ready again; obsolete or superseded, it never meets a dependency. */
  lemma EndsAreFinal(s: Store, commands: seq<Command>, id: Id)
    requires Inv(s)
    ensures id in s.ops && s.ops[id].state.DeadLetter? ==> !Ready(Run(s, commands), id)
    ensures id in s.history && !Successful(s.history[id]) ==> !Satisfied(Run(s, commands).history, Some(id))
  {
    SettledForEver(s, commands, id);
  }

  /** unblock_auth makes exactly the blocked rows pending, counts them, and leaves every other row. */
  lemma UnblockExact(s: Store)
    ensures
      var t := UnblockAuth(s).store;
      && InState(t, BlockedAuth) == {} && InState(t, Pending) == InState(s, Pending) + InState(s, BlockedAuth)
      && UnblockAuth(s).result == Ok(|InState(s, BlockedAuth)|)
      && (forall id | id in s.ops && !s.ops[id].state.BlockedAuth? :: id in t.ops && t.ops[id] == s.ops[id])
      && (forall id | id in InState(s, BlockedAuth) ::
            t.ops[id] == s.ops[id].(state := Pending, updatedAt := s.clock, lastError := None))
  {
    var t := UnblockAuth(s).store;
    assert forall id | id in t.ops :: id in s.ops && t.ops[id] == UnblockRow(s, s.ops[id]);
    assert (set id | id in s.ops && s.ops[id].state.BlockedAuth?) == InState(s, BlockedAuth);
  }

  // ---------------------------------------------------------------- dependencies

  /** Whatever claim_page hands out has its dependency archived as a success. */
  lemma ClaimedAreReady(s: Store, worker: string, pageSize: int, lease: Option<int>,
                        cutoff: Option<nat>)
    ensures
      var r := ClaimPage(s, worker, pageSize, lease, cutoff).result;
      r.Ok? ==> forall c | c in r.value :: Satisfied(s.history, c.what.dependsOn) && Known(s, c.id)
  {
    var r := ClaimPage(s, worker, pageSize, lease, cutoff).result;
    if r.Ok? {
      var ids := ClaimPageExact(s, worker, pageSize, lease, cutoff);
      forall c | c in r.value ensures Satisfied(s.history, c.what.dependsOn) && Known(s, c.id) {
        var i :| 0 <= i < |r.value| && r.value[i] == c;
        assert ClaimIssued(s, r.value[i], ids[i], s.nextToken + i, worker,
                           if lease.Some? then lease.value else DEFAULT_LEASE);
      }
    }
  }

  /** Rows that wait for one another: a dependency cycle, with anything that waits for it. */
  ghost predicate Deadlocked(s: Store, stuck: set<Id>) {
    forall id | id in stuck :: id in s.ops && s.ops[id].what.dependsOn.Some?
                               && s.ops[id].what.dependsOn.value in stuck
  }

  /** enqueue accepts two operations that depend on each other; from then on they are deadlocked. */
  lemma CyclesAreAccepted(a: NewOperation, b: NewOperation)
    requires ValidOperation(a) && ValidOperation(b) && a.id != b.id
    requires a.what.dependsOn == Some(b.id) && b.what.dependsOn == Some(a.id)
    ensures
      var s := Enqueue(EMPTY, a).store;
      && Enqueue(EMPTY, a).result == Ok(true) && Enqueue(s, b).result == Ok(true)
      && Run(EMPTY, [DoEnqueue(a), DoEnqueue(b)]) == Enqueue(s, b).store
      && Deadlocked(Run(EMPTY, [DoEnqueue(a), DoEnqueue(b)]), {a.id, b.id})
  {
    var s := Enqueue(EMPTY, a).store;
    assert [DoEnqueue(a), DoEnqueue(b)][1..] == [DoEnqueue(b)];
    assert Run(EMPTY, [DoEnqueue(a), DoEnqueue(b)]) == Run(s, [DoEnqueue(b)]);
    assert Run(s, [DoEnqueue(b)]) == Run(Enqueue(s, b).store, []);
  }

  /** Once accepted, such rows wait for ever: no run ever claims or archives one. */
  lemma {:induction false} DeadlockedNeverClaimed(s: Store, stuck: set<Id>, commands: seq<Command>)
    requires Inv(s) && Deadlocked(s, stuck)
    ensures Deadlocked(Run(s, commands), stuck)
    ensures forall id | id in stuck :: Run(s, commands).ops[id].claim.None?
    decreases |commands|
  {
    if commands == [] {
      forall id | id in stuck ensures s.ops[id].claim.None? {
        assert RowOk(s, id, s.ops[id]);
        var d := s.ops[id].what.dependsOn.value;
        assert RowOk(s, d, s.ops[d]);
      }
    } else {
      var t := Step(s, commands[0]);
      StepKeeps(s, commands[0]);
      forall id | id in stuck ensures id in t.ops && t.ops[id].what == s.ops[id].what {
        assert RowKept(s.ops[id], id, t);
        if id in t.history {
          assert RowOk(s, id, s.ops[id]);
          assert EntryOk(t, id, t.history[id]);
          DeadlockedStaysLive(s, stuck, commands[0], id);
        }
      }
      DeadlockedNeverClaimed(t, stuck, commands[1..]);
    }
  }

  /** Only a holder can archive a row, and a row that waits for a live row has no holder. */
  lemma DeadlockedStaysLive(s: Store, stuck: set<Id>, c: Command, id: Id)
    requires Inv(s) && Deadlocked(s, stuck) && id in stuck
    ensures id in Step(s, c).ops
  {
    assert RowOk(s, id, s.ops[id]);
    var d := s.ops[id].what.dependsOn.value;
    assert RowOk(s, d, s.ops[d]);
    match c
    case DoClaimPage(worker, pageSize, lease, cutoff) => ClaimPageFrame(s, worker, pageSize, lease, cutoff);
    case DoRelease(claims) => ReleaseFrame(s, claims);
    case DoUnblockAuth =>
    case _ => RowUntouched(s, c, id);
  }

  /** Successful history is well-founded under depends_on: no set of entries waits only for itself. */
  lemma HistoryIsWellFounded(commands: seq<Command>, inside: set<Id>)
    requires inside != {} && inside <= Run(EMPTY, commands).history.Keys
    ensures
      var h := Run(EMPTY, commands).history;
      && (forall id | id in h :: Satisfied(h, h[id].what.dependsOn))
      && (exists c :: c in inside && (h[c].what.dependsOn.None? || h[c].what.dependsOn.value !in inside))
  {
    ReachableInv(commands);
    var s := Run(EMPTY, commands);
    forall id | id in s.history ensures Satisfied(s.history, s.history[id].what.dependsOn) {
      assert EntryOk(s, id, s.history[id]);
    }
    var c :| c in inside && LeadsOut(s.history, c, inside, false);
  }

  // ---------------------------------------------------------------- session sequences

  /** The sequence number a transaction hands out in a session, if it succeeds. */
  function HandsOut(s: Store, c: Command, session: string): Option<nat> {
    match c
    case DoReserve(x, parent) =>
      var r := ReserveSequence(s, x, parent).result;
      if x == session && r.Ok? then Some(r.value) else None
    case DoEnqueueTurn(x, parent, factory) =>
      var r := EnqueueTurn(s, x, parent, factory).result;
      if x == session && r.Ok? then Some(r.value.sequence) else None
    case _ => None
  }

  /**
   Numbers handed out in a session never hit an indexed slot and strictly increase over any run,
   whatever is indexed by hand in between.
   */
  lemma SequencesIncrease(s: Store, c: Command, commands: seq<Command>, later: Command, session: string)
    requires Inv(s) && HandsOut(s, c, session).Some?
    ensures
      var t := Run(Step(s, c), commands);
      var n := HandsOut(s, c, session).value;
      && Slot(session, n) !in s.turns
      && (HandsOut(t, later, session).Some? ==>
            n < HandsOut(t, later, session).value
            && Slot(session, HandsOut(t, later, session).value) !in t.turns)
  {
    StepKeeps(s, c);
    var m := Step(s, c);
    RunKeeps(m, commands);
    var t := Run(m, commands);
    HandedOutIsNext(s, c, session);
    if HandsOut(t, later, session).Some? {
      HandedOutIsNext(t, later, session);
    }
  }

  lemma HandedOutIsNext(s: Store, c: Command, session: string)
    requires Inv(s) && HandsOut(s, c, session).Some?
    ensures
      var n := HandsOut(s, c, session).value;
      && n == (if session in s.sessions then s.sessions[session].next else 1)
      && session in Step(s, c).sessions && Step(s, c).sessions[session].next == n + 1
      && Slot(session, n) !in s.turns
  {
    assert forall k | k in s.turns :: TurnOk(s, k);
  }

  /** A transaction that raises leaves all four tables, and the clock, as they were. */
  lemma FailureChangesNothing(s: Store, op: NewOperation, session: string, parent: string,
                              factory: nat -> Result<NewTurn>, sequence: int, sourceId: string,
                              turnHash: string)
    ensures Enqueue(s, op).result.Err? ==> Enqueue(s, op).store == s
    ensures EnqueueTurn(s, session, parent, factory).result.Err? ==>
              EnqueueTurn(s, session, parent, factory).store == s
    ensures IndexTurn(s, session, sequence, op.id, sourceId, turnHash).result.Err? ==>
              IndexTurn(s, session, sequence, op.id, sourceId, turnHash).store == s
  {
  }

  // ---------------------------------------------------------------- the snapshot

  lemma UnionSize<T>(a: set<T>, b: set<T>)
    requires a !! b
    ensures |a + b| == |a| + |b|
  {
    assert a + b - a == b;
  }

  lemma FivePartsSize<T>(all: set<T>, a: set<T>, b: set<T>, c: set<T>, d: set<T>, e: set<T>)
    requires a !! b !! c !! d !! e && all == a + b + c + d + e
    ensures |all| == |a| + |b| + |c| + |d| + |e|
  {
    UnionSize(a, b);
    UnionSize(a + b, c);
    UnionSize(a + b + c, d);
    UnionSize(a + b + c + d, e);
  }

  function Claimed(s: Store): set<Id> {
    set id | id in s.ops && s.ops[id].claim.Some?
  }

  lemma StatesCover(s: Store)
    ensures s.ops.Keys == InState(s, Pending) + InState(s, PendingRecovery) + InState(s, BlockedAuth)
                          + InState(s, DeadLetter) + InState(s, ReconcileRevision)
  {
    forall id | id in s.ops
      ensures id in InState(s, Pending) || id in InState(s, PendingRecovery) || id in InState(s, BlockedAuth)
              || id in InState(s, DeadLetter) || id in InState(s, ReconcileRevision)
    {
      assert id in InState(s, s.ops[id].state);
    }
  }

  lemma StatesPartition(s: Store)
    ensures |s.ops| == |InState(s, Pending)| + |InState(s, PendingRecovery)| + |InState(s, BlockedAuth)|
                       + |InState(s, DeadLetter)| + |InState(s, ReconcileRevision)|
  {
    StatesCover(s);
    FivePartsSize(s.ops.Keys, InState(s, Pending), InState(s, PendingRecovery), InState(s, BlockedAuth),
                  InState(s, DeadLetter), InState(s, ReconcileRevision));
    assert |s.ops| == |s.ops.Keys|;
  }

  /** The live rows whose dependency is met, and those whose dependency is not. */
  function MetRows(s: Store): set<Id> {
    set id | id in s.ops && Satisfied(s.history, s.ops[id].what.dependsOn)
  }

  function WaitingRows(s: Store): set<Id> {
    set id | id in s.ops && !Satisfied(s.history, s.ops[id].what.dependsOn)
  }

  lemma WaitingCounted(s: Store)
    ensures TakeSnapshot(s).dependencyBlocked == |WaitingRows(s)|
    ensures |MetRows(s)| + |WaitingRows(s)| == |s.ops|
  {
    UnionSize(MetRows(s), WaitingRows(s));
    assert MetRows(s) + WaitingRows(s) == s.ops.Keys;
    assert |s.ops| == |s.ops.Keys|;
  }

  lemma ClaimsCounted(s: Store)
    ensures TakeSnapshot(s).activeClaims + TakeSnapshot(s).expiredClaims == |Claimed(s)|
  {
    var active := set id | id in s.ops && s.ops[id].claim.Some? && s.ops[id].claim.value.leaseEnds > s.clock;
    var expired := set id | id in s.ops && s.ops[id].claim.Some? && s.ops[id].claim.value.leaseEnds <= s.clock;
    UnionSize(active, expired);
    assert active + expired == Claimed(s);
  }

  /**
   A snapshot counts every live row once: in total, by state with the empty states left out, as waiting
   for a dependency or not, and if claimed as active or expired; nothing that waits is ready.
   */
  lemma SnapshotCountsRows(s: Store)
    ensures
      var n := TakeSnapshot(s);
      && n.total == |s.ops|
      && (forall x | x in n.byState :: InState(s, x) != {} && n.byState[x] == |InState(s, x)|)
      && (forall id | id in s.ops :: s.ops[id].state in n.byState)
      && n.dependencyBlocked + |MetRows(s)| == n.total
      && (forall id | id in WaitingRows(s) :: !Ready(s, id))
      && n.activeClaims + n.expiredClaims == |Claimed(s)|
  {
    StatesPartition(s);
    WaitingCounted(s);
    ClaimsCounted(s);
    forall id | id in s.ops ensures s.ops[id].state in TakeSnapshot(s).byState {
      assert id in InState(s, s.ops[id].state);
    }
  }
}
