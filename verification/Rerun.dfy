/**
 Reconciling a session again, on the same transcript or on one that has gone on, after the index has
 grown: exactly when the second run returns, and exactly when it adds an operation.
 */
module Rerun {
  import opened Wrappers
  import opened Ordering
  import opened Requests
  import opened Outbox
  import opened OutboxInvariant
  import opened Sessions
  import opened Capture
  import opened Reconcile

  // ---------------------------------------------------------------- enqueueing several operations

  lemma {:induction false} EnqueueAllAppend(s: Store, a: seq<NewOperation>, b: seq<NewOperation>)
    ensures EnqueueAll(s, a + b)
         == if EnqueueAll(s, a).result.Err? then EnqueueAll(s, a) else EnqueueAll(EnqueueAll(s, a).store, b)
    decreases |b|
  {
    if b == [] {
      assert a + b == a;
    } else {
      var front := b[..|b| - 1];
      EnqueueAllAppend(s, a, front);
      assert (a + b)[..|a + b| - 1] == a + front;
    }
  }

  /** How many operations `enqueue` would take, one by one, before the first it refuses. */
  function FirstRefused(s: Store, ops: seq<NewOperation>): (n: nat)
    ensures n <= |ops|
  {
    if ops == [] then 0 else
      var n := FirstRefused(s, ops[..|ops| - 1]);
      if n < |ops| - 1 then n else if Enqueue(s, ops[|ops| - 1]).result.Ok? then |ops| else n
  }

  lemma {:induction false} FirstRefusedExact(s: Store, ops: seq<NewOperation>)
    ensures
      var n := FirstRefused(s, ops);
      && (forall i | 0 <= i < n :: Enqueue(s, ops[i]).result.Ok?)
      && (n < |ops| ==> Enqueue(s, ops[n]).result.Err?)
    decreases |ops|
  {
    if ops != [] {
      var front := ops[..|ops| - 1];
      FirstRefusedExact(s, front);
      assert forall i | 0 <= i < |front| :: front[i] == ops[i];
    }
  }

  ghost predicate DistinctIds(ops: seq<NewOperation>) {
    forall i, j | 0 <= i < j < |ops| :: ops[i].id != ops[j].id
  }

  /** The first `n` operations are in the tables, and beside them nothing changed. */
  ghost predicate Adds(s: Store, t: Store, ops: seq<NewOperation>, n: nat)
    requires n <= |ops|
  {
    && t == s.(ops := t.ops)
    && (forall id | id in s.ops :: id in t.ops && t.ops[id] == s.ops[id])
    && (forall id | id in t.ops :: id in s.ops || (!Known(s, id) && exists i :: 0 <= i < n && ops[i].id == id))
    && (forall i | 0 <= i < n :: Known(t, ops[i].id))
  }

  /** An operation with another id than those added is taken or refused as before. */
  lemma TakenAsBefore(s: Store, t: Store, ops: seq<NewOperation>, n: nat, op: NewOperation)
    requires n <= |ops| && Adds(s, t, ops, n) && forall i | 0 <= i < n :: ops[i].id != op.id
    ensures Enqueue(t, op).result == Enqueue(s, op).result
  {
  }

  lemma AddsOneMore(s: Store, m: Store, ops: seq<NewOperation>)
    requires ops != [] && Adds(s, m, ops[..|ops| - 1], |ops| - 1)
    requires Enqueue(m, ops[|ops| - 1]).result.Ok?
    ensures Adds(s, Enqueue(m, ops[|ops| - 1]).store, ops, |ops|)
  {
    var t, n := Enqueue(m, ops[|ops| - 1]).store, |ops| - 1;
    forall id | id in t.ops && id !in s.ops
      ensures !Known(s, id) && exists i :: 0 <= i < |ops| && ops[i].id == id
    {
      if id in m.ops {
        var i :| 0 <= i < n && ops[..n][i].id == id;
        assert ops[i].id == id;
      } else {
        assert ops[n].id == id;
      }
    }
    forall i | 0 <= i < |ops| ensures Known(t, ops[i].id) {
      assert i < n ==> ops[..n][i] == ops[i];
    }
  }

  lemma AddsFewer(s: Store, t: Store, ops: seq<NewOperation>, n: nat)
    requires ops != [] && n <= |ops| - 1 && Adds(s, t, ops[..|ops| - 1], n)
    ensures Adds(s, t, ops, n)
  {
    var front := ops[..|ops| - 1];
    forall id | id in t.ops && id !in s.ops ensures exists i :: 0 <= i < n && ops[i].id == id {
      var i :| 0 <= i < n && front[i].id == id;
      assert ops[i].id == id;
    }
    forall i | 0 <= i < n ensures Known(t, ops[i].id) {
      assert front[i] == ops[i];
    }
  }

  /** What enqueueing distinct operations comes to. */
  ghost predicate TakenUpTo(s: Store, r: Tx<()>, ops: seq<NewOperation>) {
    (r.result.Ok? <==> FirstRefused(s, ops) == |ops|) && Adds(s, r.store, ops, FirstRefused(s, ops))
  }

  lemma TakenOneMore(s: Store, m: Store, ops: seq<NewOperation>)
    requires ops != [] && DistinctIds(ops) && FirstRefused(s, ops[..|ops| - 1]) == |ops| - 1
    requires Adds(s, m, ops[..|ops| - 1], |ops| - 1)
    ensures
      var r := Enqueue(m, ops[|ops| - 1]);
      TakenUpTo(s, Tx(r.store, if r.result.Err? then Err(r.result.error) else Ok(())), ops)
  {
    var k := |ops| - 1;
    assert forall i | 0 <= i < k :: ops[..k][i] == ops[i];
    TakenAsBefore(s, m, ops[..k], k, ops[k]);
    if Enqueue(m, ops[k]).result.Ok? {
      AddsOneMore(s, m, ops);
    } else {
      AddsFewer(s, m, ops, k);
    }
  }

  /** Enqueueing distinct operations takes them up to the first that alone would be refused. */
  lemma {:induction false} EnqueueAllExact(s: Store, ops: seq<NewOperation>)
    requires DistinctIds(ops)
    ensures TakenUpTo(s, EnqueueAll(s, ops), ops)
    decreases |ops|
  {
    if ops != [] {
      var k := |ops| - 1;
      assert forall i | 0 <= i < k :: ops[..k][i] == ops[i];
      EnqueueAllExact(s, ops[..k]);
      if FirstRefused(s, ops[..k]) < k {
        AddsFewer(s, EnqueueAll(s, ops[..k]).store, ops, FirstRefused(s, ops[..k]));
      } else {
        TakenOneMore(s, EnqueueAll(s, ops[..k]).store, ops);
      }
    }
  }

  /** ... so nothing is added exactly when everything before that is known already. */
  lemma AddsNothingIff(s: Store, ops: seq<NewOperation>)
    requires DistinctIds(ops)
    ensures EnqueueAll(s, ops).store.ops == s.ops
            <==> forall i | 0 <= i < FirstRefused(s, ops) :: Known(s, ops[i].id)
  {
    EnqueueAllExact(s, ops);
    NoneNew(s, EnqueueAll(s, ops).store, ops, FirstRefused(s, ops));
  }

  lemma NoneNew(s: Store, t: Store, ops: seq<NewOperation>, n: nat)
    requires n <= |ops| && Adds(s, t, ops, n)
    ensures t.ops == s.ops <==> forall i | 0 <= i < n :: Known(s, ops[i].id)
  {
    if forall i | 0 <= i < n :: Known(s, ops[i].id) {
      assert forall id | id in t.ops :: id in s.ops;
    }
  }

  // ---------------------------------------------------------------- two plans compared

  /** The same turn; its queued flag and revision may differ. */
  predicate SameTurn(a: IndexedTurn, b: IndexedTurn) {
    a == b.(revision := a.revision, queued := a.queued)
  }

  ghost predicate SameTurns(a: seq<IndexedTurn>, b: seq<IndexedTurn>) {
    |a| == |b| && forall i | 0 <= i < |a| :: SameTurn(a[i], b[i])
  }

  /** The later index lists the turns of the earlier one first. */
  ghost predicate Extends(a: seq<IndexedTurn>, b: seq<IndexedTurn>) {
    |a| <= |b| && forall i | 0 <= i < |a| :: SameTurn(a[i], b[i])
  }

  ghost predicate StateUnchanged(was: seq<IndexedTurn>, now: seq<IndexedTurn>)
    requires |was| == |now|
  {
    forall i | 0 <= i < |was| :: was[i].revision == now[i].revision && was[i].queued == now[i].queued
  }

  /** The stale turns at or after position `from`. */
  function StaleFrom(ts: seq<IndexedTurn>, committed: multiset<string>, from: nat, n: nat): seq<IndexedTurn>
    requires from <= n <= |ts|
  {
    if n == from then [] else
      StaleFrom(ts, committed, from, n - 1) + if StaleAt(ts, committed, n - 1) then [ts[n - 1]] else []
  }

  lemma {:induction false} StaleInTwo(ts: seq<IndexedTurn>, committed: multiset<string>, from: nat, n: nat)
    requires from <= n <= |ts|
    ensures Stale(ts, committed, n) == Stale(ts, committed, from) + StaleFrom(ts, committed, from, n)
    decreases n
  {
    if n == from {
      assert Stale(ts, committed, from) + [] == Stale(ts, committed, from);
    } else {
      StaleInTwo(ts, committed, from, n - 1);
    }
  }

  lemma SameHashesBefore(a: seq<IndexedTurn>, b: seq<IndexedTurn>, n: nat)
    requires Extends(a, b) && n <= |a|
    ensures Hashes(a)[..n] == Hashes(b)[..n]
  {
    forall i | 0 <= i < n ensures Hashes(a)[i] == Hashes(b)[i] {
      assert SameTurn(a[i], b[i]);
    }
  }

  lemma SameStaleAt(a: seq<IndexedTurn>, b: seq<IndexedTurn>, committed: multiset<string>, i: nat)
    requires Extends(a, b) && i < |a|
    ensures StaleAt(a, committed, i) == StaleAt(b, committed, i) && SameTurn(a[i], b[i])
  {
    SameHashesBefore(a, b, i);
  }

  lemma SameTurnsIf(a: seq<IndexedTurn>, b: seq<IndexedTurn>, x: IndexedTurn, y: IndexedTurn, more: bool)
    requires SameTurns(a, b) && SameTurn(x, y)
    ensures SameTurns(a + if more then [x] else [], b + if more then [y] else [])
  {
    var c, d := a + if more then [x] else [], b + if more then [y] else [];
    forall i | 0 <= i < |c| ensures SameTurn(c[i], d[i]) {
      assert i < |a| ==> SameTurn(a[i], b[i]);
    }
  }

  lemma NextStale(a: seq<IndexedTurn>, b: seq<IndexedTurn>, committed: multiset<string>, n: nat,
                  was: seq<IndexedTurn>, now: seq<IndexedTurn>)
    requires Extends(a, b) && n < |a| && SameTurns(was, now)
    ensures SameTurns(was + if StaleAt(a, committed, n) then [a[n]] else [],
                      now + if StaleAt(b, committed, n) then [b[n]] else [])
  {
    SameStaleAt(a, b, committed, n);
    SameTurnsIf(was, now, a[n], b[n], StaleAt(a, committed, n));
  }

  lemma StaleStep(ts: seq<IndexedTurn>, committed: multiset<string>, n: nat, front: seq<IndexedTurn>)
    requires n < |ts| && front == Stale(ts, committed, n)
    ensures Stale(ts, committed, n + 1) == front + if StaleAt(ts, committed, n) then [ts[n]] else []
  {
  }

  /** `x` and `y` are the stale ones among the first `n` turns of either index, and they are the same turns. */
  ghost predicate AlikeUpTo(a: seq<IndexedTurn>, b: seq<IndexedTurn>, committed: multiset<string>, n: nat,
                            x: seq<IndexedTurn>, y: seq<IndexedTurn>)
  {
    && n <= |a| && Extends(a, b) && x == Stale(a, committed, n) && y == Stale(b, committed, n) && SameTurns(x, y)
  }

  lemma NextAlike(a: seq<IndexedTurn>, b: seq<IndexedTurn>, committed: multiset<string>, n: nat,
                  was: seq<IndexedTurn>, now: seq<IndexedTurn>) returns (x: seq<IndexedTurn>, y: seq<IndexedTurn>)
    requires AlikeUpTo(a, b, committed, n, was, now) && n < |a|
    ensures AlikeUpTo(a, b, committed, n + 1, x, y)
  {
    NextStale(a, b, committed, n, was, now);
    StaleStep(a, committed, n, was);
    StaleStep(b, committed, n, now);
    x, y := Stale(a, committed, n + 1), Stale(b, committed, n + 1);
  }

  lemma NoneAlike(a: seq<IndexedTurn>, b: seq<IndexedTurn>, committed: multiset<string>)
    requires Extends(a, b)
    ensures AlikeUpTo(a, b, committed, 0, [], [])
  {
  }

  lemma StaleOfBoth(a: seq<IndexedTurn>, b: seq<IndexedTurn>, committed: multiset<string>, n: nat)
    returns (x: seq<IndexedTurn>, y: seq<IndexedTurn>)
    requires Extends(a, b) && n <= |a|
    ensures AlikeUpTo(a, b, committed, n, x, y)
  {
    NoneAlike(a, b, committed);
    x, y := [], [];
    for i := 0 to n
      invariant AlikeUpTo(a, b, committed, i, x, y)
    {
      x, y := NextAlike(a, b, committed, i, x, y);
    }
  }

  lemma ExtendedStale(a: seq<IndexedTurn>, b: seq<IndexedTurn>, committed: multiset<string>, n: nat)
    requires Extends(a, b) && n <= |a|
    ensures SameTurns(Stale(a, committed, n), Stale(b, committed, n))
  {
    var _, _ := StaleOfBoth(a, b, committed, n);
  }

  /** No turn past `from` is stale iff each hash that occurs there is indexed no more often than committed. */
  lemma NoneStaleFromIff(ts: seq<IndexedTurn>, committed: multiset<string>, from: nat)
    requires from <= |ts|
    ensures StaleFrom(ts, committed, from, |ts|) == []
            <==> forall h :: multiset(Hashes(ts)[from..])[h] == 0 || multiset(Hashes(ts))[h] <= committed[h]
  {
    var n := |ts|;
    StaleInTwo(ts, committed, from, n);
    StaleSplit(ts, committed, n);
    StaleSplit(ts, committed, from);
    var front, back := Stale(ts, committed, from), StaleFrom(ts, committed, from, n);
    var p, a := multiset(Hashes(ts)[..from]), multiset(Hashes(ts)[from..]);
    assert Hashes(ts)[..n] == Hashes(ts) == Hashes(ts)[..from] + Hashes(ts)[from..];
    assert Hashes(front + back) == Hashes(front) + Hashes(back);
    SurplusGrowsIff(p, a, committed, multiset(Hashes(back)));
    assert back == [] <==> multiset(Hashes(back)) == multiset{} by {
      assert |multiset(Hashes(back))| == |back|;
    }
  }

  lemma SurplusGrowsIff(p: multiset<string>, a: multiset<string>, committed: multiset<string>,
                        more: multiset<string>)
    requires (p + a) - committed == (p - committed) + more
    ensures more == multiset{} <==> forall h :: a[h] == 0 || (p + a)[h] <= committed[h]
  {
    assert forall h :: ((p + a) - committed)[h] == (p - committed)[h] + more[h];
    if more == multiset{} {
      forall h ensures a[h] == 0 || (p + a)[h] <= committed[h] {
        assert more[h] == 0;
      }
    } else {
      var h :| h in more;
      assert more[h] > 0;
    }
  }

  // ---------------------------------------------------------------- the corrections of two plans

  /** Two intents for one turn make the same correction exactly when revision and dependency agree. */
  lemma SameCorrection(ctx: Context, a: IndexedTurn, b: IndexedTurn)
    requires SameTurn(a, b)
    ensures CorrectionOp(ctx, Intent(a)).id == CorrectionOp(ctx, Intent(b)).id
    ensures Stored(CorrectionOp(ctx, Intent(a)).what) == Stored(CorrectionOp(ctx, Intent(b)).what)
            <==> a.revision == b.revision && a.queued == b.queued
  {
  }

  /** Corrections of different turns have different ids. */
  lemma CorrectionIdsDiffer(ctx: Context, a: IndexedTurn, b: IndexedTurn)
    requires Ideal(ctx.sha) && a.operationId != b.operationId
    ensures CorrectionOp(ctx, Intent(a)).id != CorrectionOp(ctx, Intent(b)).id
  {
    var x, y := "rewind-stale-" + a.operationId, "rewind-stale-" + b.operationId;
    assert x[|"rewind-stale-"|..] == a.operationId && y[|"rewind-stale-"|..] == b.operationId;
    JoinOfTwo(ctx.agent, x, NUL);
    JoinOfTwo(ctx.agent, y, NUL);
    assert (ctx.agent + [NUL] + x)[|ctx.agent| + 1..] == x && (ctx.agent + [NUL] + y)[|ctx.agent| + 1..] == y;
  }

  ghost predicate DistinctOperations(ts: seq<IndexedTurn>) {
    forall i, j | 0 <= i < j < |ts| :: ts[i].operationId != ts[j].operationId
  }

  lemma {:induction false} StaleFromIsPart(ts: seq<IndexedTurn>, committed: multiset<string>, from: nat, n: nat)
    requires from <= n <= |ts| && DistinctOperations(ts)
    ensures DistinctOperations(StaleFrom(ts, committed, from, n))
    ensures forall x | x in StaleFrom(ts, committed, from, n) :: exists i :: from <= i < n && ts[i] == x
    decreases n
  {
    if n > from {
      StaleFromIsPart(ts, committed, from, n - 1);
      var front, stale := StaleFrom(ts, committed, from, n - 1), StaleFrom(ts, committed, from, n);
      forall i, j | 0 <= i < j < |stale| ensures stale[i].operationId != stale[j].operationId {
        assert stale[i] == front[i] && front[i] in front;
      }
      forall x | x in stale ensures exists i :: from <= i < n && ts[i] == x {
        assert x in front || x == ts[n - 1];
      }
    }
  }

  /** The UNIQUE constraint on operations, as the index lists them. */
  lemma IndexIsDistinct(s: Store, session: string)
    requires IndexInv(s)
    ensures DistinctOperations(ToIndexed(IndexedTurns(s, session)))
  {
    var records := IndexedTurns(s, session);
    if session in s.sessions {
      TurnsBelowAscend(s, session, s.sessions[session].next);
      assert ListsIndex(s, session, s.sessions[session].next, records);
      forall i, j | 0 <= i < j < |records| ensures records[i].operationId != records[j].operationId {
        var k, l := Slot(session, records[i].sequence), Slot(session, records[j].sequence);
        assert k in s.turns && l in s.turns && k != l;
      }
    }
  }

  /** The corrections a plan adds for the turns past `from`. */
  function More(ctx: Context, index: seq<IndexedTurn>, committed: multiset<string>, from: nat): seq<NewOperation>
    requires from <= |index|
  {
    CorrectionOps(ctx, Intents(StaleFrom(index, committed, from, |index|)))
  }

  lemma MoreAreDistinct(ctx: Context, index: seq<IndexedTurn>, committed: multiset<string>, from: nat)
    requires Ideal(ctx.sha) && from <= |index| && DistinctOperations(index)
    ensures DistinctIds(More(ctx, index, committed, from))
  {
    var stale, ops := StaleFrom(index, committed, from, |index|), More(ctx, index, committed, from);
    StaleFromIsPart(index, committed, from, |index|);
    forall i, j | 0 <= i < j < |ops| ensures ops[i].id != ops[j].id {
      CorrectionIdsDiffer(ctx, stale[i], stale[j]);
    }
  }

  // ---------------------------------------------------------------- corrections enqueued again

  ghost predicate SameIds(first: seq<NewOperation>, again: seq<NewOperation>)
    requires |first| == |again|
  {
    forall i | 0 <= i < |first| :: again[i].id == first[i].id
  }

  ghost predicate SameMutations(first: seq<NewOperation>, again: seq<NewOperation>)
    requires |first| == |again|
  {
    forall i | 0 <= i < |first| :: Stored(again[i].what) == Stored(first[i].what)
  }

  /** Re-enqueueing succeeds exactly when every operation is the accepted one, and then changes nothing. */
  lemma {:induction false} EnqueueAllAgain(s: Store, first: seq<NewOperation>, again: seq<NewOperation>)
    requires |first| == |again|
    requires AllAccepted(s, first) && SameIds(first, again)
    ensures
      var r := EnqueueAll(s, again);
      (r.result.Ok? <==> SameMutations(first, again)) && r.store == s
    decreases |again|
  {
    if again != [] {
      var n := |again| - 1;
      AllButLast(s, first, again, first[..n], again[..n]);
      EnqueueAllAgain(s, first[..n], again[..n]);
      EnqueueAgain(s, first[n], again[n]);
    }
  }

  lemma AllButLast(s: Store, first: seq<NewOperation>, again: seq<NewOperation>,
                   front: seq<NewOperation>, back: seq<NewOperation>)
    requires |first| == |again| > 0 && AllAccepted(s, first) && SameIds(first, again)
    requires front == first[..|first| - 1] && back == again[..|again| - 1]
    ensures AllAccepted(s, front) && SameIds(front, back)
    ensures Accepted(s, first[|first| - 1]) && ValidOperation(first[|first| - 1])
    ensures SameMutations(first, again) <==>
              SameMutations(front, back)
              && Stored(again[|again| - 1].what) == Stored(first[|first| - 1].what)
  {
    if SameMutations(front, back) && Stored(again[|again| - 1].what) == Stored(first[|first| - 1].what) {
      forall i | 0 <= i < |first| ensures Stored(again[i].what) == Stored(first[i].what) {
        assert i < |front| ==> front[i] == first[i] && back[i] == again[i];
      }
    }
    if SameMutations(first, again) {
      forall i | 0 <= i < |front| ensures Stored(back[i].what) == Stored(front[i].what) {
        assert front[i] == first[i] && back[i] == again[i];
      }
    }
  }

  lemma EnqueueAgain(s: Store, first: NewOperation, again: NewOperation)
    requires Accepted(s, first) && ValidOperation(first) && again.id == first.id
    ensures Enqueue(s, again).store == s
    ensures Enqueue(s, again).result.Ok? <==> Stored(again.what) == Stored(first.what)
  {
    if Stored(again.what) == Stored(first.what) {
      StoredDecidesValidity(first, again);
    }
  }

  lemma StoredDecidesValidity(a: NewOperation, b: NewOperation)
    requires a.id == b.id && Stored(a.what) == Stored(b.what) && ValidOperation(a)
    ensures ValidOperation(b)
  {
  }

  lemma StaleCompared(ctx: Context, was: seq<IndexedTurn>, now: seq<IndexedTurn>)
    requires SameTurns(was, now)
    ensures
      var first, second := CorrectionOps(ctx, Intents(was)), CorrectionOps(ctx, Intents(now));
      && |first| == |second| && SameIds(first, second)
      && (SameMutations(first, second) <==> StateUnchanged(was, now))
  {
    var first, second := CorrectionOps(ctx, Intents(was)), CorrectionOps(ctx, Intents(now));
    forall i | 0 <= i < |was|
      ensures first[i].id == second[i].id
      ensures Stored(second[i].what) == Stored(first[i].what)
              <==> was[i].revision == now[i].revision && was[i].queued == now[i].queued
    {
      SameCorrection(ctx, was[i], now[i]);
      assert first[i] == CorrectionOp(ctx, Intent(was[i])) && second[i] == CorrectionOp(ctx, Intent(now[i]));
    }
  }

  // ---------------------------------------------------------------- no back-fill the second time

  /** Nothing is missing from an index that already has every prior turn. */
  lemma {:induction false} NothingMissing(ctx: Context, counts: multiset<string>, prior: seq<TurnText>, n: nat)
    requires n <= |prior| && TextCounts(ctx, prior) <= counts
    ensures Missing(ctx, counts, prior, n) == []
  {
    if n > 0 {
      NothingMissing(ctx, counts, prior, n - 1);
      OccurrencesCounted(ctx, prior, n, HashOf(ctx, prior[n - 1]));
      PartOfTexts(ctx, prior, n);
      assert Missing(ctx, counts, prior, n) == [] + [];
    }
  }

  lemma PartOfTexts(ctx: Context, prior: seq<TurnText>, n: nat)
    requires n <= |prior|
    ensures multiset(TextHashes(ctx, prior)[..n]) <= TextCounts(ctx, prior)
  {
    var hashes := TextHashes(ctx, prior);
    assert hashes == hashes[..n] + hashes[n..];
  }

  lemma CountsGrow(a: seq<IndexedTurn>, b: seq<IndexedTurn>, h: string)
    requires Extends(a, b)
    ensures multiset(Hashes(a))[h] <= multiset(Hashes(b))[h]
    ensures Earlier(b, |a|, h) == multiset(Hashes(a))[h]
  {
    SameHashesBefore(a, b, |a|);
    assert Hashes(a)[..|a|] == Hashes(a);
    assert Hashes(b) == Hashes(a) + Hashes(b)[|a|..];
  }

  /** Once back-filled, an index that only grew has every prior turn. */
  lemma NoBackfillAgain(s: Store, ctx: Context, session: string, messages: seq<Message>,
                        current: TurnText, s2: Store)
    requires Inv(s) && ReconcileSession(s, ctx, session, messages, current).result.Ok?
    requires Extends(PlannedOver(s, ctx, session, messages, current), ToIndexed(IndexedTurns(s2, session)))
    ensures Backfill(s2, ctx, session, messages, current) == Tx(s2, Ok(()))
  {
    var a, b := PlannedOver(s, ctx, session, messages, current), ToIndexed(IndexedTurns(s2, session));
    var prior := PriorTurns(messages, current);
    forall h ensures TextCounts(ctx, prior)[h] <= multiset(Hashes(b))[h] {
      BackfillCounts(s, ctx, session, messages, current, h);
      CountsGrow(a, b, h);
    }
    NothingMissing(ctx, multiset(Hashes(b)), prior, |prior|);
  }

  // ---------------------------------------------------------------- the index only grows

  /** Slots indexed since `s` are not below the numbers that `s` had yet to hand out. */
  ghost predicate AppendsOnly(s: Store, t: Store) {
    forall k | k in t.turns && k !in s.turns :: k.sequence >= NextSlot(s, k.session).sequence
  }

  lemma StepAppends(s: Store, c: Command)
    requires Inv(s) && !c.DoIndexTurn?
    ensures AppendsOnly(s, Step(s, c))
  {
    match c
    case DoReserve(_, _) =>
    case DoEnqueueTurn(session, parent, factory) => TurnGoesNext(s, session, parent, factory);
    case DoMark(_, _, _) =>
    case DoRecordRevision(_, _) =>
    case DoTick(_) =>
    case _ => RowStepFrame(s, c);
  }

  lemma TurnGoesNext(s: Store, session: string, parent: string, factory: nat -> Result<NewTurn>)
    ensures AppendsOnly(s, EnqueueTurn(s, session, parent, factory).store)
  {
  }

  lemma AppendsOn(s: Store, t: Store, u: Store)
    requires IndexEvolve(s, t) && IndexInv(t) && AppendsOnly(s, t) && AppendsOnly(t, u)
    ensures AppendsOnly(s, u)
  {
  }

  lemma {:induction false} RunAppends(s: Store, commands: seq<Command>)
    requires Inv(s) && forall i | 0 <= i < |commands| :: !commands[i].DoIndexTurn?
    ensures AppendsOnly(s, Run(s, commands))
    decreases |commands|
  {
    if commands != [] {
      var t := Step(s, commands[0]);
      StepAppends(s, commands[0]);
      StepKeeps(s, commands[0]);
      RunAppends(t, commands[1..]);
      AppendsOn(s, t, Run(s, commands));
    }
  }

  /** Below a bound the same slots are indexed, and they hold the same turns. */
  ghost predicate SameBelow(s: Store, t: Store, session: string, bound: nat) {
    forall n: nat | n < bound ::
      && (Slot(session, n) in s.turns <==> Slot(session, n) in t.turns)
      && (Slot(session, n) in s.turns ==> TurnKept(s.turns[Slot(session, n)], Slot(session, n), t))
  }

  lemma {:induction false} SameTurnsBelow(s: Store, t: Store, session: string, bound: nat)
    requires SameBelow(s, t, session, bound)
    ensures SameTurns(ToIndexed(TurnsBelow(s, session, bound)), ToIndexed(TurnsBelow(t, session, bound)))
  {
    if bound > 0 {
      SameTurnsBelow(s, t, session, bound - 1);
      assert Slot(session, bound - 1) in s.turns <==> Slot(session, bound - 1) in t.turns;
    }
  }

  lemma {:induction false} BelowIsPrefix(t: Store, session: string, low: nat, high: nat)
    requires low <= high
    ensures TurnsBelow(t, session, low) <= TurnsBelow(t, session, high)
    decreases high
  {
    if low < high {
      BelowIsPrefix(t, session, low, high - 1);
    }
  }

  /** So a session's index lists its earlier turns first. */
  lemma AppendedExtends(s: Store, t: Store, session: string)
    requires IndexInv(s) && IndexEvolve(s, t) && AppendsOnly(s, t)
    ensures Extends(ToIndexed(IndexedTurns(s, session)), ToIndexed(IndexedTurns(t, session)))
  {
    if session in s.sessions {
      var low := s.sessions[session].next;
      forall n: nat | n < low
        ensures Slot(session, n) in s.turns <==> Slot(session, n) in t.turns
        ensures Slot(session, n) in s.turns ==> TurnKept(s.turns[Slot(session, n)], Slot(session, n), t)
      {
        assert Slot(session, n) in s.turns ==> TurnKept(s.turns[Slot(session, n)], Slot(session, n), t);
      }
      SameTurnsBelow(s, t, session, low);
      BelowIsPrefix(t, session, low, t.sessions[session].next);
    }
  }

  /** Every run that indexes no turn by hand leaves an index that extends the one it found. */
  lemma RunExtends(s: Store, commands: seq<Command>, session: string)
    requires Inv(s) && forall i | 0 <= i < |commands| :: !commands[i].DoIndexTurn?
    ensures Extends(ToIndexed(IndexedTurns(s, session)), ToIndexed(IndexedTurns(Run(s, commands), session)))
  {
    RunKeeps(s, commands);
    RunAppends(s, commands);
    AppendedExtends(s, Run(s, commands), session);
  }

  lemma ExtendsOn(a: seq<IndexedTurn>, b: seq<IndexedTurn>, c: seq<IndexedTurn>)
    requires Extends(a, b) && Extends(b, c)
    ensures Extends(a, c)
  {
    forall i | 0 <= i < |a| ensures SameTurn(a[i], c[i]) {
      assert SameTurn(a[i], b[i]) && SameTurn(b[i], c[i]);
    }
  }

  /** The corrections and the mark leave the turns planned over as they are, but for the queued flags. */
  lemma CorrectionsKeepTurns(m: Store, ops: seq<NewOperation>, session: string)
    requires Inv(m) && session != ""
    ensures
      var t := MarkSessionReconcile(EnqueueAll(m, ops).store, session, "", false).store;
      SameTurns(ToIndexed(IndexedTurns(m, session)), ToIndexed(IndexedTurns(t, session)))
  {
    EnqueueAllKeeps(m, ops);
    var c := EnqueueAll(m, ops).store;
    var t := MarkSessionReconcile(c, session, "", false).store;
    if session in m.sessions {
      SameTurnsBelow(m, t, session, m.sessions[session].next);
    } else {
      assert forall k | k in c.turns :: TurnOk(c, k);
      assert TurnsBelow(t, session, 0) == [] && TurnsBelow(t, session, 1) == [];
    }
  }

  /** What a reconciliation leaves is the index its plan was made over. */
  lemma ReconciledIndex(s: Store, ctx: Context, session: string, messages: seq<Message>, current: TurnText)
    requires Inv(s) && ReconcileSession(s, ctx, session, messages, current).result.Ok?
    ensures
      var t := ReconcileSession(s, ctx, session, messages, current).store;
      Inv(t) && SameTurns(PlannedOver(s, ctx, session, messages, current), ToIndexed(IndexedTurns(t, session)))
  {
    var m := Backfill(s, ctx, session, messages, current).store;
    BackfillCounts(s, ctx, session, messages, current, "");
    FirstRunAccepted(s, ctx, session, messages, current);
    CorrectionsAccepted(s, ctx, session, messages, current);
    CorrectionsKeepTurns(m, Corrections(m, ctx, session, messages), session);
  }

  /** The back-fill appends to the index, however far it gets. */
  lemma {:induction false} CaptureAllExtends(s: Store, ctx: Context, session: string, texts: seq<TurnText>)
    requires Inv(s)
    ensures AppendsOnly(s, CaptureAll(s, ctx, session, texts).store)
    decreases |texts|
  {
    if texts != [] {
      var front, last := texts[..|texts| - 1], texts[|texts| - 1];
      var m := CaptureAll(s, ctx, session, front).store;
      CaptureAllExtends(s, ctx, session, front);
      CaptureAllKeeps(s, ctx, session, front);
      TurnGoesNext(m, session, ParentOf(m, session),
                   CaptureFactory(ctx, session, ParentOf(m, session), last, None));
      AppendsOn(s, m, CaptureTurn(m, ctx, session, last, None).store);
    }
  }

  lemma BackfillExtends(s: Store, ctx: Context, session: string, messages: seq<Message>, current: TurnText)
    requires Inv(s)
    ensures
      var m := Backfill(s, ctx, session, messages, current).store;
      && Inv(m) && Evolves(s, m)
      && Extends(ToIndexed(IndexedTurns(s, session)), ToIndexed(IndexedTurns(m, session)))
  {
    var prior, counts := PriorTurns(messages, current), multiset(RecordHashes(IndexedTurns(s, session)));
    CaptureAllKeeps(s, ctx, session, Missing(ctx, counts, prior, |prior|));
    CaptureAllExtends(s, ctx, session, Missing(ctx, counts, prior, |prior|));
    AppendedExtends(s, Backfill(s, ctx, session, messages, current).store, session);
  }

  /** Each capture adds one row to the index. */
  lemma {:induction false} CaptureAllSize(s: Store, ctx: Context, session: string, texts: seq<TurnText>)
    requires CaptureAll(s, ctx, session, texts).result.Ok?
    ensures |CaptureAll(s, ctx, session, texts).store.turns| == |s.turns| + |texts|
    decreases |texts|
  {
    if texts != [] {
      var last := texts[|texts| - 1];
      CaptureAllLast(s, ctx, session, texts);
      CaptureAllSize(s, ctx, session, texts[..|texts| - 1]);
      CaptureSize(CaptureAll(s, ctx, session, texts[..|texts| - 1]).store, ctx, session, last);
    }
  }

  lemma CaptureSize(s: Store, ctx: Context, session: string, text: TurnText)
    requires CaptureTurn(s, ctx, session, text, None).result.Ok?
    ensures |CaptureTurn(s, ctx, session, text, None).store.turns| == |s.turns| + 1
  {
    var r := CaptureTurn(s, ctx, session, text, None);
    CaptureExact(s, ctx, session, text, None);
    AppendedSize(s, r.store, session, r.result.value);
  }

  lemma AppendedSize(s: Store, t: Store, session: string, record: IndexedTurnRecord)
    requires TurnAppended(s, t, session, record)
    ensures |t.turns| == |s.turns| + 1
  {
    assert |t.turns.Keys| == |s.turns.Keys| + 1;
  }

  lemma {:induction false} SubsequenceSnoc<T(!new)>(a: seq<T>, b: seq<T>, x: T)
    requires Subsequence(a, b)
    ensures Subsequence(a, b + [x]) && Subsequence(a + [x], b + [x])
    decreases |b|
  {
    if b == [] {
      assert a + [x] == b + [x] == [x];
      SubsequenceReflexive([x]);
    } else {
      assert (b + [x])[1..] == b[1..] + [x];
      if a != [] && a[0] == b[0] && Subsequence(a[1..], b[1..]) {
        assert (a + [x])[1..] == a[1..] + [x];
        SubsequenceSnoc(a[1..], b[1..], x);
      } else if a != [] {
        SubsequenceSnoc(a, b[1..], x);
      } else {
        SubsequenceSnoc(a, b[1..], x);
        assert a + [x] == [x];
      }
    }
  }

  lemma {:induction false} MissingIsPart(ctx: Context, counts: multiset<string>, prior: seq<TurnText>, n: nat)
    requires n <= |prior|
    ensures Subsequence(Missing(ctx, counts, prior, n), prior[..n])
  {
    if n > 0 {
      MissingIsPart(ctx, counts, prior, n - 1);
      var front := Missing(ctx, counts, prior, n - 1);
      SubsequenceSnoc(front, prior[..n - 1], prior[n - 1]);
      assert prior[..n] == prior[..n - 1] + [prior[n - 1]] && front + [] == front;
    }
  }

  ghost predicate HashesAre(s: Store, session: string, hashes: seq<string>) {
    RecordHashes(IndexedTurns(s, session)) == hashes
  }

  lemma CaptureHashes(s: Store, ctx: Context, session: string, text: TurnText, hashes: seq<string>)
    requires Inv(s) && CaptureTurn(s, ctx, session, text, None).result.Ok? && HashesAre(s, session, hashes)
    ensures HashesAre(CaptureTurn(s, ctx, session, text, None).store, session, hashes + [HashOf(ctx, text)])
  {
    var r := CaptureTurn(s, ctx, session, text, None);
    CaptureExact(s, ctx, session, text, None);
    AppendedIsLast(s, r.store, session, r.result.value);
    RecordHashesSnoc(IndexedTurns(s, session), r.result.value);
  }

  lemma OneMoreHash(ctx: Context, hashes: seq<string>, texts: seq<TurnText>)
    requires texts != []
    ensures hashes + TextHashes(ctx, texts)
         == hashes + TextHashes(ctx, texts[..|texts| - 1]) + [HashOf(ctx, texts[|texts| - 1])]
  {
    TextHashesSnoc(ctx, texts[..|texts| - 1], texts[|texts| - 1]);
    assert texts == texts[..|texts| - 1] + [texts[|texts| - 1]];
  }

  lemma {:induction false} CaptureAllHashes(s: Store, ctx: Context, session: string, texts: seq<TurnText>,
                                            hashes: seq<string>)
    requires Inv(s) && CaptureAll(s, ctx, session, texts).result.Ok? && HashesAre(s, session, hashes)
    ensures Inv(CaptureAll(s, ctx, session, texts).store)
    ensures HashesAre(CaptureAll(s, ctx, session, texts).store, session, hashes + TextHashes(ctx, texts))
    decreases |texts|
  {
    CaptureAllKeeps(s, ctx, session, texts);
    if texts == [] {
      assert hashes + TextHashes(ctx, texts) == hashes;
    } else {
      var front, last := texts[..|texts| - 1], texts[|texts| - 1];
      CaptureAllLast(s, ctx, session, texts);
      CaptureAllHashes(s, ctx, session, front, hashes);
      CaptureHashes(CaptureAll(s, ctx, session, front).store, ctx, session, last, hashes + TextHashes(ctx, front));
      OneMoreHash(ctx, hashes, texts);
    }
  }

  /** The back-fill captures turns of the transcript in its order, after what the index had. */
  lemma BackfillInOrder(s: Store, ctx: Context, session: string, messages: seq<Message>, current: TurnText,
                        front: seq<TurnText>) returns (captured: seq<TurnText>)
    requires Inv(s) && Backfill(s, ctx, session, messages, current).result.Ok? && IsFront(messages, current, front)
    ensures Subsequence(captured, front)
    ensures RecordHashes(IndexedTurns(Backfill(s, ctx, session, messages, current).store, session))
         == RecordHashes(IndexedTurns(s, session)) + TextHashes(ctx, captured)
  {
    var counts := multiset(RecordHashes(IndexedTurns(s, session)));
    FrontIsPrior(messages, current, front);
    captured := Missing(ctx, counts, front, |front|);
    MissingIsPart(ctx, counts, front, |front|);
    assert front[..|front|] == front;
    CaptureAllHashes(s, ctx, session, captured, RecordHashes(IndexedTurns(s, session)));
  }

  /** What follows the back-fill of a reconciliation that returns adds no index row. */
  lemma OnlyBackfillAdds(s: Store, ctx: Context, session: string, messages: seq<Message>, current: TurnText)
    requires Inv(s) && ReconcileSession(s, ctx, session, messages, current).result.Ok?
    ensures Backfill(s, ctx, session, messages, current).result.Ok?
    ensures ReconcileSession(s, ctx, session, messages, current).store.turns
         == Backfill(s, ctx, session, messages, current).store.turns
  {
    var m := Backfill(s, ctx, session, messages, current).store;
    BackfillCounts(s, ctx, session, messages, current, "");
    EnqueueAllKeeps(m, Corrections(m, ctx, session, messages));
  }

  /**
   A reconciliation that returns leaves the index as it was if and only if each prior turn was indexed
   as often as the transcript has it; so a current turn that ends the transcript is not captured here.
   */
  lemma BackfillsIff(s: Store, ctx: Context, session: string, messages: seq<Message>, current: TurnText,
                     front: seq<TurnText>)
    requires Inv(s) && ReconcileSession(s, ctx, session, messages, current).result.Ok?
    requires IsFront(messages, current, front)
    ensures ReconcileSession(s, ctx, session, messages, current).store.turns == s.turns
            <==> forall h :: TextCounts(ctx, front)[h] <= IndexCounts(s, session)[h]
  {
    var counts := multiset(RecordHashes(IndexedTurns(s, session)));
    FrontIsPrior(messages, current, front);
    OnlyBackfillAdds(s, ctx, session, messages, current);
    CaptureAllSize(s, ctx, session, Missing(ctx, counts, front, |front|));
    if forall h :: TextCounts(ctx, front)[h] <= IndexCounts(s, session)[h] {
      NothingMissing(ctx, counts, front, |front|);
    } else if Missing(ctx, counts, front, |front|) == [] {
      forall h ensures TextCounts(ctx, front)[h] <= IndexCounts(s, session)[h] {
        MissingIsSurplus(ctx, counts, front, |front|, h);
        AllCounted(ctx, front, h);
      }
    }
  }

  // ---------------------------------------------------------------- a transcript with more turns

  /** A transcript that goes on has every turn it had. */
  lemma LongerHasMore(ctx: Context, messages: seq<Message>, later: seq<Message>)
    requires messages <= later
    ensures multiset(Fingerprints(ctx, messages)) <= multiset(Fingerprints(ctx, later))
  {
    TurnsOfPrefix(messages, later[|messages|..]);
    assert later == messages + later[|messages|..];
    var a, b := Fingerprints(ctx, messages), Fingerprints(ctx, later);
    assert a == b[..|a|];
    assert b == a + b[|a|..];
  }

  /** The more is committed, the fewer turns are stale. */
  lemma {:induction false} StaleShrinks(ts: seq<IndexedTurn>, committed: multiset<string>, more: multiset<string>,
                                        n: nat)
    requires committed <= more && n <= |ts|
    ensures forall x | x in Stale(ts, more, n) :: x in Stale(ts, committed, n)
  {
    if n > 0 {
      StaleShrinks(ts, committed, more, n - 1);
      assert committed[ts[n - 1].turnHash] <= more[ts[n - 1].turnHash];
    }
  }

  /** Corrections accepted for some turns are accepted for any of them. */
  lemma AcceptedOfFewer(t: Store, ctx: Context, was: seq<IndexedTurn>, fewer: seq<IndexedTurn>)
    requires AllAccepted(t, CorrectionOps(ctx, Intents(was))) && forall x | x in fewer :: x in was
    ensures AllAccepted(t, CorrectionOps(ctx, Intents(fewer)))
  {
    var all, some := CorrectionOps(ctx, Intents(was)), CorrectionOps(ctx, Intents(fewer));
    forall i | 0 <= i < |some| ensures Accepted(t, some[i]) && ValidOperation(some[i]) {
      assert fewer[i] in was;
      var j :| 0 <= j < |was| && was[j] == fewer[i];
      assert all[j] == some[i];
    }
  }

  // ---------------------------------------------------------------- the second run

  /** A plan over an index that has grown: the corrections of the old turns, then those of the new ones. */
  lemma LaterPlan(ctx: Context, session: string, messages: seq<Message>, a: seq<IndexedTurn>, m: Store)
    requires Extends(a, ToIndexed(IndexedTurns(m, session)))
    ensures
      var committed, b := multiset(Fingerprints(ctx, messages)), ToIndexed(IndexedTurns(m, session));
      var was, now := Stale(a, committed, |a|), Stale(b, committed, |a|);
      var first, second := CorrectionOps(ctx, Intents(was)), CorrectionOps(ctx, Intents(now));
      && Corrections(m, ctx, session, messages) == second + More(ctx, b, committed, |a|)
      && |was| == |now| && SameIds(first, second)
      && (SameMutations(first, second) <==> StateUnchanged(was, now))
  {
    var committed, b := multiset(Fingerprints(ctx, messages)), ToIndexed(IndexedTurns(m, session));
    IndexIsSorted(m, session);
    ExtendedStale(a, b, committed, |a|);
    StaleCompared(ctx, Stale(a, committed, |a|), Stale(b, committed, |a|));
    StaleInTwo(b, committed, |a|, |b|);
    CorrectionsAppend(ctx, Stale(b, committed, |a|), StaleFrom(b, committed, |a|, |b|));
  }

  lemma CorrectionsAppend(ctx: Context, a: seq<IndexedTurn>, b: seq<IndexedTurn>)
    ensures CorrectionOps(ctx, Intents(a + b)) == CorrectionOps(ctx, Intents(a)) + CorrectionOps(ctx, Intents(b))
  {
    assert Intents(a + b) == Intents(a) + Intents(b);
  }

  /** What a reconciliation whose back-fill returns comes to. */
  lemma AfterBackfill(s: Store, ctx: Context, session: string, messages: seq<Message>, current: TurnText)
    requires Backfill(s, ctx, session, messages, current).result.Ok? && session != ""
    ensures
      var r := ReconcileSession(s, ctx, session, messages, current);
      var m := Backfill(s, ctx, session, messages, current).store;
      var c := EnqueueAll(m, Corrections(m, ctx, session, messages));
      && (r.result.Ok? <==> c.result.Ok?) && r.store.ops == c.store.ops
      && r.store.turns == c.store.turns && r.store.history == c.store.history
  {
    var m := Backfill(s, ctx, session, messages, current).store;
    var c := EnqueueAll(m, Corrections(m, ctx, session, messages));
    MarkLeaves(c.store, session);
    assert ReconcileSession(s, ctx, session, messages, current)
        == if c.result.Err? then c else MarkSessionReconcile(c.store, session, "", false);
  }

  lemma MarkLeaves(s: Store, session: string)
    requires session != ""
    ensures
      var r := MarkSessionReconcile(s, session, "", false);
      r.result.Ok? && r.store == s.(sessions := r.store.sessions)
  {
  }

  /** Enqueueing the second plan: the old corrections decide first, then the new ones as far as taken. */
  lemma EnqueueSecondPlan(s: Store, first: seq<NewOperation>, second: seq<NewOperation>, more: seq<NewOperation>)
    requires |first| == |second| && AllAccepted(s, first) && SameIds(first, second) && DistinctIds(more)
    ensures
      var r := EnqueueAll(s, second + more);
      && (r.result.Ok? <==> SameMutations(first, second) && FirstRefused(s, more) == |more|)
      && (r.store.ops == s.ops <==>
            SameMutations(first, second) ==> forall i | 0 <= i < FirstRefused(s, more) :: Known(s, more[i].id))
      && r.store.turns == s.turns && r.store.history == s.history
  {
    EnqueueAllAppend(s, second, more);
    EnqueueAllAgain(s, first, second);
    EnqueueAllExact(s, more);
    AddsNothingIff(s, more);
  }

  /** The first plan's corrections, as the store `m` still has them, of the turns stale by then. */
  lemma StillAccepted(s: Store, ctx: Context, session: string, messages: seq<Message>, current: TurnText, m: Store,
                      committed: multiset<string>)
    requires Inv(s) && ReconcileSession(s, ctx, session, messages, current).result.Ok?
    requires Inv(m) && Evolves(ReconcileSession(s, ctx, session, messages, current).store, m)
    requires multiset(Fingerprints(ctx, messages)) <= committed
    ensures
      var planned := PlannedOver(s, ctx, session, messages, current);
      && AllAccepted(m, CorrectionOps(ctx, Intents(Stale(planned, committed, |planned|))))
      && forall x | x in Stale(planned, committed, |planned|) :: x in Corrected(s, ctx, session, messages, current)
  {
    var planned := PlannedOver(s, ctx, session, messages, current);
    var filled := Backfill(s, ctx, session, messages, current).store;
    var was := Corrected(s, ctx, session, messages, current);
    FirstRunAccepted(s, ctx, session, messages, current);
    IndexIsSorted(filled, session);
    AllAcceptedStays(ReconcileSession(s, ctx, session, messages, current).store, m,
                     Corrections(filled, ctx, session, messages));
    StaleShrinks(planned, multiset(Fingerprints(ctx, messages)), committed, |planned|);
    AcceptedOfFewer(m, ctx, was, Stale(planned, committed, |planned|));
  }

  /**
   What a reconciliation comes to that finds `index` after its back-fill, in store `m`, when an earlier
   one had planned over its first turns, `planned`.
   */
  ghost predicate LaterOutcome(ctx: Context, committed: multiset<string>, planned: seq<IndexedTurn>,
                               index: seq<IndexedTurn>, m: Store, again: Tx<()>)
  {
    |planned| <= |index| &&
    var n := |planned|;
    var was, now, more := Stale(planned, committed, n), Stale(index, committed, n), More(ctx, index, committed, n);
    && |was| == |now|
    && (again.result.Ok? <==> StateUnchanged(was, now) && FirstRefused(m, more) == |more|)
    && (again.store.ops == m.ops <==>
          StateUnchanged(was, now) ==> forall i | 0 <= i < FirstRefused(m, more) :: Known(m, more[i].id))
    && again.store.turns == m.turns && again.store.history == m.history
    && (more == [] <==>
          forall h :: multiset(Hashes(index)[n..])[h] == 0 || multiset(Hashes(index))[h] <= committed[h])
  }

  lemma OutcomeOfPlan(ctx: Context, session: string, messages: seq<Message>, planned: seq<IndexedTurn>, m: Store,
                      again: Tx<()>)
    requires Ideal(ctx.sha) && Inv(m) && Extends(planned, ToIndexed(IndexedTurns(m, session)))
    requires
      AllAccepted(m, CorrectionOps(ctx, Intents(Stale(planned, multiset(Fingerprints(ctx, messages)), |planned|))))
    requires
      var c := EnqueueAll(m, Corrections(m, ctx, session, messages));
      && (again.result.Ok? <==> c.result.Ok?) && again.store.ops == c.store.ops
      && again.store.turns == c.store.turns && again.store.history == c.store.history
    ensures LaterOutcome(ctx, multiset(Fingerprints(ctx, messages)), planned, ToIndexed(IndexedTurns(m, session)), m,
                         again)
  {
    var committed, index := multiset(Fingerprints(ctx, messages)), ToIndexed(IndexedTurns(m, session));
    var n := |planned|;
    LaterPlan(ctx, session, messages, planned, m);
    IndexIsDistinct(m, session);
    MoreAreDistinct(ctx, index, committed, n);
    EnqueueSecondPlan(m, CorrectionOps(ctx, Intents(Stale(planned, committed, n))),
                      CorrectionOps(ctx, Intents(Stale(index, committed, n))), More(ctx, index, committed, n));
    NoneStaleFromIff(index, committed, n);
  }

  /**
   Reconciling again when the transcript has gone on, after any activity in between. If the back-fill
   returns, the run returns if and only if every turn that the first plan was made over and that is
   still stale kept its queued flag and its revision, and `enqueue` takes the corrections of the later
   turns that are stale. What is still stale was stale then.
   */
  lemma LaterIff(s: Store, ctx: Context, session: string, messages: seq<Message>, current: TurnText,
                 s2: Store, later: seq<Message>, next: TurnText)
    requires Ideal(ctx.sha)
    requires Inv(s) && ReconcileSession(s, ctx, session, messages, current).result.Ok?
    requires Inv(s2) && Evolves(ReconcileSession(s, ctx, session, messages, current).store, s2)
    requires Extends(PlannedOver(s, ctx, session, messages, current), ToIndexed(IndexedTurns(s2, session)))
    requires multiset(Fingerprints(ctx, messages)) <= multiset(Fingerprints(ctx, later))
    ensures
      var again, filled := ReconcileSession(s2, ctx, session, later, next), Backfill(s2, ctx, session, later, next);
      var planned, committed := PlannedOver(s, ctx, session, messages, current), multiset(Fingerprints(ctx, later));
      && (filled.result.Err? ==> again == filled)
      && (filled.result.Ok? ==>
            LaterOutcome(ctx, committed, planned, ToIndexed(IndexedTurns(filled.store, session)), filled.store, again))
      && forall x | x in Stale(planned, committed, |planned|) :: x in Corrected(s, ctx, session, messages, current)
  {
    var filled := Backfill(s2, ctx, session, later, next);
    var planned, committed := PlannedOver(s, ctx, session, messages, current), multiset(Fingerprints(ctx, later));
    var t := ReconcileSession(s, ctx, session, messages, current).store;
    BackfillExtends(s2, ctx, session, later, next);
    EvolvesTransitive(t, s2, filled.store);
    ExtendsOn(planned, ToIndexed(IndexedTurns(s2, session)), ToIndexed(IndexedTurns(filled.store, session)));
    StillAccepted(s, ctx, session, messages, current, filled.store, committed);
    FirstRunAccepted(s, ctx, session, messages, current);
    if filled.result.Ok? {
      AfterBackfill(s2, ctx, session, later, next);
      OutcomeOfPlan(ctx, session, later, planned, filled.store, ReconcileSession(s2, ctx, session, later, next));
    }
  }

  /**
   Reconciling again on the same transcript, after any activity: deliveries, session switches, and
   turns captured in between, which the index now lists after the ones the first plan was made over.
   The second run adds no index row. It returns if and only if every turn the first plan found stale
   still has its queued flag and its revision, and `enqueue` takes the correction of every later turn
   that is stale; a later turn is stale only if its hash is indexed more often than committed. It adds
   no operation if and only if it stops at one of the old corrections, or each new correction it
   reaches is known already.
   */
  lemma RerunIff(s: Store, ctx: Context, session: string, messages: seq<Message>, current: TurnText,
                 s2: Store)
    requires Ideal(ctx.sha)
    requires Inv(s) && ReconcileSession(s, ctx, session, messages, current).result.Ok?
    requires Inv(s2) && Evolves(ReconcileSession(s, ctx, session, messages, current).store, s2)
    requires Extends(PlannedOver(s, ctx, session, messages, current), ToIndexed(IndexedTurns(s2, session)))
    ensures LaterOutcome(ctx, multiset(Fingerprints(ctx, messages)), PlannedOver(s, ctx, session, messages, current),
                         ToIndexed(IndexedTurns(s2, session)), s2,
                         ReconcileSession(s2, ctx, session, messages, current))
  {
    NoBackfillAgain(s, ctx, session, messages, current, s2);
    LaterIff(s, ctx, session, messages, current, s2, messages, current);
  }

  /** So for every run of transactions in between, of whatever workers, that indexes no turn by hand. */
  lemma RerunAfter(s: Store, ctx: Context, session: string, messages: seq<Message>, current: TurnText,
                   commands: seq<Command>)
    requires Ideal(ctx.sha)
    requires Inv(s) && ReconcileSession(s, ctx, session, messages, current).result.Ok?
    requires forall i | 0 <= i < |commands| :: !commands[i].DoIndexTurn?
    ensures
      var s2 := Run(ReconcileSession(s, ctx, session, messages, current).store, commands);
      var planned, index := PlannedOver(s, ctx, session, messages, current), ToIndexed(IndexedTurns(s2, session));
      && Extends(planned, index)
      && LaterOutcome(ctx, multiset(Fingerprints(ctx, messages)), planned, index, s2,
                      ReconcileSession(s2, ctx, session, messages, current))
  {
    var t := ReconcileSession(s, ctx, session, messages, current).store;
    var s2 := Run(t, commands);
    ReconciledIndex(s, ctx, session, messages, current);
    RunKeeps(t, commands);
    RunExtends(t, commands, session);
    ExtendsOn(PlannedOver(s, ctx, session, messages, current), ToIndexed(IndexedTurns(t, session)),
              ToIndexed(IndexedTurns(s2, session)));
    RerunIff(s, ctx, session, messages, current, s2);
  }
}
