/** sessions.py: matching completed turns to their starts, and planning the corrections of a rewind. */
module Sessions {
  import opened Wrappers

  // ---------------------------------------------------------------- turn starts

  datatype PendingTurn = PendingTurn(turnNumber: int, userMessageHash: string)

  type Queues = map<string, seq<PendingTurn>>

  function QueueOf(q: Queues, session: string): seq<PendingTurn> {
    if session in q then q[session] else []
  }

  /** Index of the first entry with the hash, or the length if there is none. */
  function FirstMatch(queue: seq<PendingTurn>, hash: string): (i: nat)
    ensures i <= |queue|
    ensures forall k | 0 <= k < i :: queue[k].userMessageHash != hash
    ensures i < |queue| ==> queue[i].userMessageHash == hash
  {
    if queue == [] || queue[0].userMessageHash == hash then 0 else 1 + FirstMatch(queue[1..], hash)
  }

  /** A session whose queue became empty is not stored. */
  function Put(q: Queues, session: string, queue: seq<PendingTurn>): Queues {
    if queue == [] then q - {session} else q[session := queue]
  }

  function Consumed(q: Queues, session: string, hash: string): (Queues, Result<PendingTurn>) {
    var queue := QueueOf(q, session);
    var i := FirstMatch(queue, hash);
    if queue == [] then (q, Err(NoTurnStart))
    else if i == |queue| then (q, Err(NoMatchingTurn))
    else (Put(q, session, queue[i + 1..]), Ok(queue[i]))
  }

  ghost predicate NoneEmpty(q: Queues) {
    forall x | x in q :: q[x] != []
  }

  class TurnStartQueue {
    var turns: Queues
    const messageHash: string -> string

    constructor (messageHash: string -> string)
      ensures turns == map[] && this.messageHash == messageHash
    {
      turns := map[];
      this.messageHash := messageHash;
    }

    method Record(session: string, turnNumber: int, userContent: string) returns (pending: PendingTurn)
      modifies this
      ensures pending == PendingTurn(turnNumber, messageHash(userContent))
      ensures turns == Put(old(turns), session, QueueOf(old(turns), session) + [pending])
    {
      pending := PendingTurn(turnNumber, messageHash(userContent));
      if session !in turns {
        turns := turns[session := []];
      }
      turns := turns[session := turns[session] + [pending]];
    }

    method Consume(session: string, userContent: string) returns (r: Result<PendingTurn>)
      requires NoneEmpty(turns)
      modifies this
      ensures (turns, r) == Consumed(old(turns), session, messageHash(userContent))
    {
      var actual := messageHash(userContent);
      if session !in turns || turns[session] == [] { return Err(NoTurnStart); }
      var queue := turns[session];
      var index := FirstMatch(queue, actual);
      if index == |queue| { return Err(NoMatchingTurn); }
      ghost var start := queue;
      var dropped := 0;
      while dropped < index
        invariant 0 <= dropped <= index && queue == start[dropped..]
      {
        queue := queue[1..];
        dropped := dropped + 1;
      }
      r := Ok(queue[0]);
      queue := queue[1..];
      if queue == [] {
        turns := turns - {session};
      } else {
        turns := turns[session := queue];
      }
    }

    method Clear(session: string)
      modifies this
      ensures turns == Put(old(turns), session, [])
    {
      turns := turns - {session};
    }
  }

  /**
   consume succeeds exactly when the hash is queued; it then returns the earliest such entry and
   drops it and precisely the entries before it. Otherwise it changes nothing. No other session is
   touched, and no empty queue stays stored.
   */
  lemma ConsumeExact(q: Queues, session: string, hash: string)
    requires NoneEmpty(q)
    ensures
      var (after, r) := Consumed(q, session, hash);
      var queue := QueueOf(q, session);
      && NoneEmpty(after)
      && (forall x | x != session :: QueueOf(after, x) == QueueOf(q, x))
      && (r.Ok? <==> exists k :: 0 <= k < |queue| && queue[k].userMessageHash == hash)
      && (r.Err? ==> after == q)
      && (r.Ok? ==> exists k :: 0 <= k < |queue| && queue[k] == r.value && r.value.userMessageHash == hash
                             && (forall e | 0 <= e < k :: queue[e].userMessageHash != hash)
                             && QueueOf(after, session) == queue[k + 1..])
  {
    var queue := QueueOf(q, session);
    var i := FirstMatch(queue, hash);
    if i < |queue| {
      assert queue[i].userMessageHash == hash;
    }
  }

  datatype Call =
    | Recording(session: string, turn: PendingTurn)
    | Consuming(session: string, hash: string)
    | Clearing(session: string)

  function After(q: Queues, c: Call): Queues {
    match c
    case Recording(x, turn) => Put(q, x, QueueOf(q, x) + [turn])
    case Consuming(x, hash) => Consumed(q, x, hash).0
    case Clearing(x) => Put(q, x, [])
  }

  function RunCalls(q: Queues, calls: seq<Call>): Queues
    decreases |calls|
  {
    if calls == [] then q else RunCalls(After(q, calls[0]), calls[1..])
  }

  /** What a call records, and what it consumes, in a session. */
  function Given(c: Call, session: string): seq<PendingTurn> {
    if c.Recording? && c.session == session then [c.turn] else []
  }

  function Got(q: Queues, c: Call, session: string): seq<PendingTurn> {
    if c.Consuming? && c.session == session && Consumed(q, session, c.hash).1.Ok?
    then [Consumed(q, session, c.hash).1.value] else []
  }

  function RecordedIn(calls: seq<Call>, session: string): seq<PendingTurn> {
    if calls == [] then [] else Given(calls[0], session) + RecordedIn(calls[1..], session)
  }

  function ConsumedIn(q: Queues, calls: seq<Call>, session: string): seq<PendingTurn>
    decreases |calls|
  {
    if calls == [] then [] else
      Got(q, calls[0], session) + ConsumedIn(After(q, calls[0]), calls[1..], session)
  }

  /** `a` is what is left of `b` after dropping some entries. */
  ghost predicate Subsequence<T(!new)>(a: seq<T>, b: seq<T>) {
    a == [] || (b != [] && ((a[0] == b[0] && Subsequence(a[1..], b[1..])) || Subsequence(a, b[1..])))
  }

  lemma {:induction false} SubsequenceSkips<T(!new)>(prefix: seq<T>, a: seq<T>, b: seq<T>)
    requires Subsequence(a, b)
    ensures Subsequence(a, prefix + b)
  {
    if prefix == [] {
      assert prefix + b == b;
    } else {
      SubsequenceSkips(prefix[1..], a, b);
      assert (prefix + b)[1..] == prefix[1..] + b;
    }
  }

  lemma {:induction false} SubsequenceReflexive<T(!new)>(a: seq<T>)
    ensures Subsequence(a, a)
  {
    if a != [] {
      SubsequenceReflexive(a[1..]);
    }
  }

  /** Consuming entry `i` drops the entries before it. */
  lemma DropUpTo(queue: seq<PendingTurn>, i: nat, later: seq<PendingTurn>, recorded: seq<PendingTurn>)
    requires i < |queue| && Subsequence(later, queue[i + 1..] + recorded)
    ensures Subsequence([queue[i]] + later, queue + recorded)
  {
    var got, from := [queue[i]] + later, [queue[i]] + (queue[i + 1..] + recorded);
    assert got[1..] == later && from[1..] == queue[i + 1..] + recorded;
    SubsequenceSkips(queue[..i], got, from);
    assert queue[..i] + from == queue + recorded;
  }

  /** What a call leaves of a queue: one more entry, nothing, or what follows the entry it gives out. */
  ghost predicate QueueStep(queue: seq<PendingTurn>, after: seq<PendingTurn>, got: seq<PendingTurn>,
                            given: seq<PendingTurn>)
  {
    || (got == [] && after == queue + given)
    || (got == [] && given == [] && after == [])
    || (given == [] && exists i :: 0 <= i < |queue| && got == [queue[i]] && after == queue[i + 1..])
  }

  lemma CallOnQueue(q: Queues, c: Call, session: string)
    ensures QueueStep(QueueOf(q, session), QueueOf(After(q, c), session), Got(q, c, session),
                      Given(c, session))
  {
    var queue := QueueOf(q, session);
    assert queue + [] == queue;
    if Got(q, c, session) != [] {
      var i := FirstMatch(queue, c.hash);
      assert Got(q, c, session) == [queue[i]] && QueueOf(After(q, c), session) == queue[i + 1..];
    }
  }

  /** One call, when the rest of the run is known to respect the queue it leaves. */
  lemma StepRespectsQueue(queue: seq<PendingTurn>, after: seq<PendingTurn>, got: seq<PendingTurn>,
                          given: seq<PendingTurn>, later: seq<PendingTurn>, recorded: seq<PendingTurn>)
    requires QueueStep(queue, after, got, given) && Subsequence(later, after + recorded)
    ensures Subsequence(got + later, queue + (given + recorded))
  {
    assert [] + later == later && [] + recorded == recorded;
    if got != [] {
      var i :| 0 <= i < |queue| && got == [queue[i]] && after == queue[i + 1..];
      DropUpTo(queue, i, later, recorded);
    } else if after == queue + given {
      assert (queue + given) + recorded == queue + (given + recorded);
    } else {
      SubsequenceSkips(queue, later, recorded);
    }
  }

  lemma CallRespectsQueue(q: Queues, c: Call, session: string, later: seq<PendingTurn>,
                          recorded: seq<PendingTurn>)
    requires Subsequence(later, QueueOf(After(q, c), session) + recorded)
    ensures Subsequence(Got(q, c, session) + later, QueueOf(q, session) + (Given(c, session) + recorded))
  {
    CallOnQueue(q, c, session);
    StepRespectsQueue(QueueOf(q, session), QueueOf(After(q, c), session), Got(q, c, session),
                      Given(c, session), later, recorded);
  }

  lemma GotThenLater(got: seq<PendingTurn>, later: seq<PendingTurn>, left: seq<PendingTurn>)
    ensures (got + later) + left == got + (later + left)
  {
  }

  lemma {:induction false} RunRespectsQueue(q: Queues, calls: seq<Call>, session: string)
    ensures Subsequence(ConsumedIn(q, calls, session) + QueueOf(RunCalls(q, calls), session),
                        QueueOf(q, session) + RecordedIn(calls, session))
    decreases |calls|
  {
    var left := QueueOf(RunCalls(q, calls), session);
    if calls == [] {
      assert [] + left == left && QueueOf(q, session) + [] == left;
      SubsequenceReflexive(left);
    } else {
      var next := After(q, calls[0]);
      RunRespectsQueue(next, calls[1..], session);
      var later := ConsumedIn(next, calls[1..], session) + left;
      CallRespectsQueue(q, calls[0], session, later, RecordedIn(calls[1..], session));
      GotThenLater(Got(q, calls[0], session), ConsumedIn(next, calls[1..], session), left);
      assert ConsumedIn(q, calls, session) == Got(q, calls[0], session) + ConsumedIn(next, calls[1..], session);
    }
  }

  /**
   Over any run from empty queues, clears included, what was consumed in a session followed by what
   is still queued is a subsequence of what was recorded: in order, each record at most once.
   */
  lemma ConsumedAreRecorded(calls: seq<Call>, session: string)
    ensures Subsequence(ConsumedIn(map[], calls, session) + QueueOf(RunCalls(map[], calls), session),
                        RecordedIn(calls, session))
  {
    RunRespectsQueue(map[], calls, session);
    assert [] + RecordedIn(calls, session) == RecordedIn(calls, session);
  }

  // ---------------------------------------------------------------- rewind planning

  datatype IndexedTurn = IndexedTurn(
    operationId: string, sourceId: string, turnHash: string, localSequence: int,
    revision: Option<nat>, queued: bool)

  datatype StaleCorrectionIntent = StaleCorrectionIntent(
    operationId: string, sourceId: string, expectedRevision: Option<nat>, dependsOn: Option<string>)

  function Intent(t: IndexedTurn): StaleCorrectionIntent {
    StaleCorrectionIntent("rewind-stale-" + t.operationId, t.sourceId, t.revision,
                          if t.queued then Some(t.operationId) else None)
  }

  function Intents(ts: seq<IndexedTurn>): seq<StaleCorrectionIntent> {
    seq(|ts|, i requires 0 <= i < |ts| => Intent(ts[i]))
  }

  /** Where a stable sort by sequence puts one more element: after all that are not greater. */
  function InsertBySequence(t: IndexedTurn, sorted: seq<IndexedTurn>): seq<IndexedTurn> {
    if sorted == [] || sorted[|sorted| - 1].localSequence <= t.localSequence then sorted + [t]
    else InsertBySequence(t, sorted[..|sorted| - 1]) + [sorted[|sorted| - 1]]
  }

  function SortBySequence(ts: seq<IndexedTurn>): seq<IndexedTurn> {
    if ts == [] then [] else InsertBySequence(ts[|ts| - 1], SortBySequence(ts[..|ts| - 1]))
  }

  ghost predicate Ascending(ts: seq<IndexedTurn>) {
    forall i, j | 0 <= i < j < |ts| :: ts[i].localSequence <= ts[j].localSequence
  }

  lemma {:induction false} InsertMembers(t: IndexedTurn, sorted: seq<IndexedTurn>)
    ensures multiset(InsertBySequence(t, sorted)) == multiset(sorted) + multiset{t}
  {
    if sorted != [] && sorted[|sorted| - 1].localSequence > t.localSequence {
      var front, last := sorted[..|sorted| - 1], sorted[|sorted| - 1];
      assert sorted == front + [last];
      InsertMembers(t, front);
    }
  }

  ghost predicate NoneAbove(ts: seq<IndexedTurn>, bound: int) {
    forall i | 0 <= i < |ts| :: ts[i].localSequence <= bound
  }

  lemma {:induction false} InsertSorts(t: IndexedTurn, sorted: seq<IndexedTurn>, bound: int)
    requires Ascending(sorted) && NoneAbove(sorted, bound) && t.localSequence <= bound
    ensures Ascending(InsertBySequence(t, sorted)) && NoneAbove(InsertBySequence(t, sorted), bound)
  {
    if sorted != [] && sorted[|sorted| - 1].localSequence > t.localSequence {
      var front, last := sorted[..|sorted| - 1], sorted[|sorted| - 1];
      InsertSorts(t, front, last.localSequence);
    }
  }

  lemma {:induction false} SortSorts(ts: seq<IndexedTurn>)
    ensures Ascending(SortBySequence(ts)) && multiset(SortBySequence(ts)) == multiset(ts)
  {
    if ts != [] {
      var front, last := ts[..|ts| - 1], ts[|ts| - 1];
      assert ts == front + [last];
      SortSorts(front);
      var sorted := SortBySequence(front);
      InsertMembers(last, sorted);
      InsertSorts(last, sorted, if sorted == [] || sorted[|sorted| - 1].localSequence < last.localSequence
                                then last.localSequence else sorted[|sorted| - 1].localSequence);
    }
  }

  function Hashes(ts: seq<IndexedTurn>): (hs: seq<string>)
    ensures |hs| == |ts| && forall i | 0 <= i < |ts| :: hs[i] == ts[i].turnHash
  {
    seq(|ts|, i requires 0 <= i < |ts| => ts[i].turnHash)
  }

  /** How many of the first `n` turns have the hash. */
  function Earlier(ts: seq<IndexedTurn>, n: nat, hash: string): nat
    requires n <= |ts|
  {
    multiset(Hashes(ts)[..n])[hash]
  }

  /** A turn is stale when the transcript does not have enough turns of its hash to reach it. */
  predicate StaleAt(ts: seq<IndexedTurn>, committed: multiset<string>, i: nat)
    requires i < |ts|
  {
    Earlier(ts, i, ts[i].turnHash) >= committed[ts[i].turnHash]
  }

  function Stale(ts: seq<IndexedTurn>, committed: multiset<string>, n: nat): seq<IndexedTurn>
    requires n <= |ts|
  {
    if n == 0 then [] else
      Stale(ts, committed, n - 1) + if StaleAt(ts, committed, n - 1) then [ts[n - 1]] else []
  }

  function Kept(ts: seq<IndexedTurn>, committed: multiset<string>, n: nat): seq<IndexedTurn>
    requires n <= |ts|
  {
    if n == 0 then [] else
      Kept(ts, committed, n - 1) + if StaleAt(ts, committed, n - 1) then [] else [ts[n - 1]]
  }

  /** The plan: per hash, all but the earliest turns that the transcript still accounts for. */
  function Plan(ts: seq<IndexedTurn>, fingerprints: seq<string>): seq<StaleCorrectionIntent> {
    var sorted := SortBySequence(ts);
    Intents(Stale(sorted, multiset(fingerprints), |sorted|))
  }

  /** The Counter holds what the transcript has beyond the turns passed: stale means none is left. */
  lemma CounterStep(ts: seq<IndexedTurn>, committed: multiset<string>, i: nat)
    requires i < |ts|
    ensures
      var remaining := committed - multiset(Hashes(ts)[..i]);
      var h := ts[i].turnHash;
      && (remaining[h] > 0 <==> !StaleAt(ts, committed, i))
      && committed - multiset(Hashes(ts)[..i + 1])
         == if remaining[h] > 0 then remaining[h := remaining[h] - 1] else remaining
  {
    FirstHashes(ts, i + 1);
  }

  /** What the planning loop knows before turn `i`: the Counter, and the corrections so far. */
  ghost predicate PlanningAt(ts: seq<IndexedTurn>, committed: multiset<string>, i: nat,
                             remaining: multiset<string>, corrections: seq<StaleCorrectionIntent>)
  {
    i <= |ts|
    && remaining == committed - multiset(Hashes(ts)[..i])
    && corrections == Intents(Stale(ts, committed, i))
  }

  lemma PlanningNext(ts: seq<IndexedTurn>, committed: multiset<string>, i: nat,
                     remaining: multiset<string>, corrections: seq<StaleCorrectionIntent>)
    requires i < |ts| && PlanningAt(ts, committed, i, remaining, corrections)
    ensures
      var h := ts[i].turnHash;
      if remaining[h] > 0 then
        PlanningAt(ts, committed, i + 1, remaining[h := remaining[h] - 1], corrections)
      else
        PlanningAt(ts, committed, i + 1, remaining, corrections + [Intent(ts[i])])
  {
    CounterStep(ts, committed, i);
    var stale := Stale(ts, committed, i);
    assert stale + [] == stale;
    assert Intents(stale + [ts[i]]) == Intents(stale) + [Intent(ts[i])];
  }

  method PlanRewindCorrections(indexed: seq<IndexedTurn>, fingerprints: seq<string>)
    returns (corrections: seq<StaleCorrectionIntent>)
    ensures corrections == Plan(indexed, fingerprints)
  {
    var remaining := multiset(fingerprints);
    corrections := [];
    var sorted := SortBySequence(indexed);
    ghost var committed := multiset(fingerprints);
    assert Hashes(sorted)[..0] == [];
    var i := 0;
    while i < |sorted|
      invariant 0 <= i <= |sorted|
      invariant PlanningAt(sorted, committed, i, remaining, corrections)
    {
      PlanningNext(sorted, committed, i, remaining, corrections);
      var turn := sorted[i];
      if remaining[turn.turnHash] > 0 {
        remaining := remaining[turn.turnHash := remaining[turn.turnHash] - 1];
      } else {
        corrections := corrections + [Intent(turn)];
      }
      i := i + 1;
    }
  }

  /** One more element, split between an intersection and a difference. */
  lemma OneMore(a: multiset<string>, c: multiset<string>, h: string)
    ensures (a + multiset{h}) * c == if a[h] < c[h] then a * c + multiset{h} else a * c
    ensures (a + multiset{h}) - c == if a[h] < c[h] then a - c else (a - c) + multiset{h}
  {
  }

  lemma HashesSnoc(ts: seq<IndexedTurn>, t: IndexedTurn)
    ensures multiset(Hashes(ts + [t])) == multiset(Hashes(ts)) + multiset{t.turnHash}
  {
    assert Hashes(ts + [t]) == Hashes(ts) + [t.turnHash];
  }

  lemma FirstHashes(ts: seq<IndexedTurn>, n: nat)
    requires 0 < n <= |ts|
    ensures multiset(Hashes(ts)[..n]) == multiset(Hashes(ts)[..n - 1]) + multiset{ts[n - 1].turnHash}
  {
    assert Hashes(ts)[..n] == Hashes(ts)[..n - 1] + [ts[n - 1].turnHash];
  }

  lemma {:induction false} KeptSplit(ts: seq<IndexedTurn>, committed: multiset<string>, n: nat)
    requires n <= |ts|
    ensures multiset(Hashes(Kept(ts, committed, n))) == multiset(Hashes(ts)[..n]) * committed
  {
    if n > 0 {
      KeptSplit(ts, committed, n - 1);
      var t, kept := ts[n - 1], Kept(ts, committed, n - 1);
      FirstHashes(ts, n);
      OneMore(multiset(Hashes(ts)[..n - 1]), committed, t.turnHash);
      HashesSnoc(kept, t);
      assert kept + [] == kept;
    }
  }

  lemma {:induction false} StaleSplit(ts: seq<IndexedTurn>, committed: multiset<string>, n: nat)
    requires n <= |ts|
    ensures multiset(Hashes(Stale(ts, committed, n))) == multiset(Hashes(ts)[..n]) - committed
  {
    if n > 0 {
      StaleSplit(ts, committed, n - 1);
      var t, stale := ts[n - 1], Stale(ts, committed, n - 1);
      FirstHashes(ts, n);
      OneMore(multiset(Hashes(ts)[..n - 1]), committed, t.turnHash);
      HashesSnoc(stale, t);
      assert stale + [] == stale;
    }
  }

  lemma {:induction false} KeptAndStale(ts: seq<IndexedTurn>, committed: multiset<string>, n: nat)
    requires n <= |ts|
    ensures |Kept(ts, committed, n)| + |Stale(ts, committed, n)| == n
  {
    if n > 0 {
      KeptAndStale(ts, committed, n - 1);
    }
  }

  /** Kept hashes are the multiset intersection with the transcript, stale ones the difference. */
  lemma PlanSplits(ts: seq<IndexedTurn>, committed: multiset<string>)
    ensures multiset(Hashes(Kept(ts, committed, |ts|))) == multiset(Hashes(ts)) * committed
    ensures multiset(Hashes(Stale(ts, committed, |ts|))) == multiset(Hashes(ts)) - committed
    ensures |Kept(ts, committed, |ts|)| + |Stale(ts, committed, |ts|)| == |ts|
  {
    assert Hashes(ts)[..|ts|] == Hashes(ts);
    KeptSplit(ts, committed, |ts|);
    StaleSplit(ts, committed, |ts|);
    KeptAndStale(ts, committed, |ts|);
  }

  /** The corrections follow the order of the turns, and are of turns that are in the index. */
  lemma {:induction false} StaleInOrder(ts: seq<IndexedTurn>, committed: multiset<string>, n: nat)
    requires n <= |ts| && Ascending(ts)
    ensures Ascending(Stale(ts, committed, n)) && forall x | x in Stale(ts, committed, n) :: x in ts[..n]
  {
    if n > 0 {
      StaleInOrder(ts, committed, n - 1);
      var front, stale := Stale(ts, committed, n - 1), Stale(ts, committed, n);
      assert ts[..n] == ts[..n - 1] + [ts[n - 1]];
      forall i, j | 0 <= i < j < |stale| ensures stale[i].localSequence <= stale[j].localSequence {
        assert stale[i] == front[i] && front[i] in ts[..n - 1];
        assert j < |front| ==> stale[j] == front[j];
      }
    }
  }

  /** Kept turns are the earliest of their hash: nothing later is kept when something earlier is not. */
  lemma KeptAreEarliest(ts: seq<IndexedTurn>, committed: multiset<string>, i: nat, j: nat)
    requires i < j < |ts| && ts[i].turnHash == ts[j].turnHash && !StaleAt(ts, committed, j)
    ensures !StaleAt(ts, committed, i)
  {
    assert Hashes(ts)[..j] == Hashes(ts)[..i] + Hashes(ts)[i..j];
  }

  lemma SubmultisetSize<T>(a: multiset<T>, b: multiset<T>)
    requires a <= b
    ensures |a| <= |b|
  {
    assert b == a + (b - a);
  }

  function Pick(ts: seq<IndexedTurn>, keep: set<nat>, n: nat): seq<IndexedTurn>
    requires n <= |ts|
  {
    if n == 0 then [] else Pick(ts, keep, n - 1) + if n - 1 in keep then [ts[n - 1]] else []
  }

  lemma {:induction false} PickIsPart(ts: seq<IndexedTurn>, keep: set<nat>, n: nat)
    requires n <= |ts|
    ensures multiset(Hashes(Pick(ts, keep, n))) <= multiset(Hashes(ts)[..n])
  {
    if n > 0 {
      PickIsPart(ts, keep, n - 1);
      var picked := Pick(ts, keep, n - 1);
      FirstHashes(ts, n);
      HashesSnoc(picked, ts[n - 1]);
      assert picked + [] == picked;
    }
  }

  /** No smaller correction set suffices: any turns one could leave uncorrected are no more than Kept. */
  lemma PlanIsMinimal(ts: seq<IndexedTurn>, committed: multiset<string>, keep: set<nat>)
    requires multiset(Hashes(Pick(ts, keep, |ts|))) <= committed
    ensures |Pick(ts, keep, |ts|)| <= |Kept(ts, committed, |ts|)|
  {
    var n := |ts|;
    PickIsPart(ts, keep, n);
    assert Hashes(ts)[..n] == Hashes(ts);
    PlanSplits(ts, committed);
    var a, b := multiset(Hashes(Pick(ts, keep, n))), multiset(Hashes(Kept(ts, committed, n)));
    assert a <= b;
    SubmultisetSize(a, b);
    assert |Hashes(Pick(ts, keep, n))| == |a| && |Hashes(Kept(ts, committed, n))| == |b|;
  }

  ghost predicate DistinctSequences(ts: seq<IndexedTurn>) {
    forall i, j | 0 <= i < j < |ts| :: ts[i].localSequence != ts[j].localSequence
  }

  ghost predicate KeyedBySequence(m: multiset<IndexedTurn>) {
    forall x, y | x in m && y in m && x.localSequence == y.localSequence :: x == y
  }

  lemma SameLast(a: seq<IndexedTurn>, b: seq<IndexedTurn>)
    requires Ascending(a) && Ascending(b) && multiset(a) == multiset(b) && a != []
    requires KeyedBySequence(multiset(a))
    ensures |a| == |b| && a[|a| - 1] == b[|b| - 1]
  {
    assert |multiset(a)| == |a| && |multiset(b)| == |b|;
    var x, y := a[|a| - 1], b[|b| - 1];
    assert x in multiset(b) && y in multiset(a);
    var i :| 0 <= i < |b| && b[i] == x;
    var k :| 0 <= k < |a| && a[k] == y;
    assert x.localSequence <= y.localSequence && y.localSequence <= x.localSequence;
  }

  lemma ButLast(a: seq<IndexedTurn>)
    requires a != []
    ensures multiset(a[..|a| - 1]) == multiset(a) - multiset{a[|a| - 1]}
    ensures a == a[..|a| - 1] + [a[|a| - 1]]
    ensures Ascending(a) ==> Ascending(a[..|a| - 1])
    ensures KeyedBySequence(multiset(a)) ==> KeyedBySequence(multiset(a[..|a| - 1]))
  {
    assert a == a[..|a| - 1] + [a[|a| - 1]];
  }

  /** Ascending lists of the same turns, no two with one sequence, are the same list. */
  lemma {:induction false} SortedUnique(a: seq<IndexedTurn>, b: seq<IndexedTurn>)
    requires Ascending(a) && Ascending(b) && multiset(a) == multiset(b)
    requires KeyedBySequence(multiset(a))
    ensures a == b
  {
    if a == [] {
      assert |multiset(a)| == |multiset(b)|;
    } else {
      SameLast(a, b);
      var n := |a| - 1;
      ButLast(a);
      ButLast(b);
      SortedUnique(a[..n], b[..n]);
    }
  }

  /** The plan does not depend on the order of either input. */
  lemma PlanIgnoresOrder(ts: seq<IndexedTurn>, us: seq<IndexedTurn>, f: seq<string>, g: seq<string>)
    requires multiset(ts) == multiset(us) && multiset(f) == multiset(g)
    requires DistinctSequences(ts)
    ensures Plan(ts, f) == Plan(us, g)
  {
    SortSorts(ts);
    SortSorts(us);
    forall x, y | x in multiset(ts) && y in multiset(ts) && x.localSequence == y.localSequence ensures x == y {
      var i :| 0 <= i < |ts| && ts[i] == x;
      var j :| 0 <= j < |ts| && ts[j] == y;
      assert !(i < j) && !(j < i);
    }
    SortedUnique(SortBySequence(ts), SortBySequence(us));
  }
}
