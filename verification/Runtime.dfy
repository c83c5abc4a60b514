/**
 The part of SibylRuntime that feeds the outbox and executes its operations, as the object it is.
 The pure counterparts of its methods are in Reconcile and Executor.
 */
module Runtime {
  import opened Wrappers
  import opened Ordering
  import opened Requests
  import opened Outbox
  import opened OutboxInvariant
  import opened DurableOutboxes
  import opened Sessions
  import opened Capture
  import opened Reconcile
  import opened Rerun
  import opened Executor

  // ---------------------------------------------------------------- sync_turn and session switches

  /** What the host and the configuration decide: whether to capture, and how messages are cleaned. */
  datatype Settings = Settings(capturing: bool, normalize: string -> string, messageHash: string -> string)

  predicate ReconcileRequired(s: Store, session: string) {
    session in s.sessions && s.sessions[session].reconcile
  }

  /** The first half of sync_turn: reconcile if the session asks for it and the transcript is given. */
  function Reconciled(s: Store, ctx: Context, active: string, messages: Option<seq<Message>>, current: TurnText)
    : Tx<()>
  {
    if messages.Some? && ReconcileRequired(s, active) then
      Reconcile.ReconcileSession(s, ctx, active, messages.value, current)
    else Tx(s, Ok(()))
  }

  /** The second half: find the turn's start, and capture the turn whether or not it is found. */
  function Synced(s: Store, q: Queues, settings: Settings, ctx: Context, active: string,
                  messages: Option<seq<Message>>, current: TurnText): (Store, Queues, Result<Id>)
  {
    var first := Reconciled(s, ctx, active, messages, current);
    if first.result.Err? then (first.store, q, Err(first.result.error))
    else CapturedWithStart(first.store, q, settings, ctx, active, current)
  }

  function CapturedWithStart(s: Store, q: Queues, settings: Settings, ctx: Context, active: string,
                             current: TurnText): (Store, Queues, Result<Id>)
  {
    var (after, pending) := Consumed(q, active, settings.messageHash(current.user));
    var turnNumber := if pending.Ok? then Some(pending.value.turnNumber) else None;
    var captured := CaptureTurn(s, ctx, active, current, turnNumber);
    (captured.store, after,
     if captured.result.Ok? then Ok(captured.result.value.operationId) else Err(captured.result.error))
  }

  /** The parent a session switch settles on: the one on record, if the session is known. */
  function SwitchParent(s: Store, session: string, parent: string, reset: bool): string {
    if session in s.sessions then s.sessions[session].parent else if reset then "" else parent
  }

  class SibylRuntime {
    const ctx: Context
    const settings: Settings
    const outbox: DurableOutbox
    const starts: TurnStartQueue
    var session: string
    var parent: string

    ghost predicate Valid()
      reads this, outbox, starts
    {
      Inv(outbox.Contents()) && NoneEmpty(starts.turns) && starts.messageHash == settings.messageHash
    }

    constructor (ctx: Context, settings: Settings, outbox: DurableOutbox, session: string, parent: string)
      requires Inv(outbox.Contents())
      ensures Valid() && this.ctx == ctx && this.settings == settings && this.outbox == outbox
      ensures this.session == session && this.parent == parent
      ensures fresh(starts) && starts.turns == map[]
    {
      this.ctx, this.settings, this.outbox := ctx, settings, outbox;
      this.session, this.parent := session, parent;
      starts := new TurnStartQueue(settings.messageHash);
    }

    // -------------------------------------------------------------- capturing

    method EnqueueCapture(active: string, text: TurnText, turnNumber: Option<int>) returns (r: Result<Id>)
      requires Valid()
      modifies outbox
      ensures Valid()
      ensures
        var c := CaptureTurn(old(outbox.Contents()), ctx, active, text, turnNumber);
        outbox.Contents() == c.store
        && r == if c.result.Ok? then Ok(c.result.value.operationId) else Err(c.result.error)
    {
      ghost var s := outbox.Contents();
      var parentSession := if active in outbox.sessions then outbox.sessions[active].parent else "";
      var indexed := outbox.EnqueueTurn(active, parentSession,
                                        CaptureFactory(ctx, active, parentSession, text, turnNumber));
      CaptureKeeps(s, ctx, active, text, turnNumber);
      return if indexed.Ok? then Ok(indexed.value.operationId) else Err(indexed.error);
    }

    /** One capture of the back-fill, after the texts of `front`. */
    method CaptureMissing(active: string, text: TurnText, ghost s: Store, ghost front: seq<TurnText>)
      returns (r: Result<()>)
      requires Valid() && CapturedTo(s, Tx(outbox.Contents(), Ok(())), ctx, active, front)
      modifies outbox
      ensures Valid() && CapturedTo(s, Tx(outbox.Contents(), r), ctx, active, front + [text])
    {
      CaptureNext(s, outbox.Contents(), ctx, active, front, text);
      var captured := EnqueueCapture(active, text, None);
      return if captured.Err? then Err(captured.error) else Ok(());
    }

    /** The back-fill loop, counting what it has seen of each hash. */
    method BackfillLoop(active: string, prior: seq<TurnText>, counts: multiset<string>) returns (r: Result<()>)
      requires Valid()
      modifies outbox
      ensures Valid()
      ensures CapturedTo(old(outbox.Contents()), Tx(outbox.Contents(), r), ctx, active,
                         Missing(ctx, counts, prior, |prior|))
    {
      ghost var s := outbox.Contents();
      ghost var done: seq<TurnText> := [];
      var seen: multiset<string> := multiset{};
      var i := 0;
      CapturedExactly(s, Tx(s, Ok(())), ctx, active, []);
      while i < |prior|
        invariant 0 <= i <= |prior| && Valid()
        invariant Tallied(ctx, prior, i, seen) && done == Missing(ctx, counts, prior, i)
        invariant CapturedTo(s, Tx(outbox.Contents(), Ok(())), ctx, active, done)
      {
        var digest := HashOf(ctx, prior[i]);
        TallyNext(ctx, counts, prior, i, seen, done);
        seen := seen[digest := seen[digest] + 1];
        if seen[digest] > counts[digest] {
          var captured := CaptureMissing(active, prior[i], s, done);
          done := done + [prior[i]];
          if captured.Err? {
            BackfillFails(s, outbox.Contents(), captured.error, ctx, active, counts, prior, i + 1);
            return Err(captured.error);
          }
        }
        i := i + 1;
      }
      return Ok(());
    }

    method EnqueueLoop(ops: seq<NewOperation>) returns (r: Result<()>)
      requires Valid()
      modifies outbox
      ensures Valid()
      ensures Tx(outbox.Contents(), r) == EnqueueAll(old(outbox.Contents()), ops)
    {
      ghost var s := outbox.Contents();
      var i := 0;
      assert ops[..0] == [];
      while i < |ops|
        invariant 0 <= i <= |ops| && Valid()
        invariant Tx(outbox.Contents(), Ok(())) == EnqueueAll(s, ops[..i])
      {
        EnqueueAllNext(s, ops, i);
        EnqueueKeeps(outbox.Contents(), ops[i]);
        var accepted := outbox.Enqueue(ops[i]);
        if accepted.Err? { return Err(accepted.error); }
        i := i + 1;
      }
      assert ops[..i] == ops;
      return Ok(());
    }

    method ReconcileSession(active: string, messages: seq<Message>, current: TurnText) returns (r: Result<()>)
      requires Valid()
      modifies outbox
      ensures Valid()
      ensures Tx(outbox.Contents(), r)
           == Reconcile.ReconcileSession(old(outbox.Contents()), ctx, active, messages, current)
    {
      ghost var s := outbox.Contents();
      var transcript := CommittedTurns(messages);
      var prior := transcript;
      if transcript != [] && transcript[|transcript| - 1] == current {
        prior := transcript[..|transcript| - 1];
      }
      var counts := multiset(RecordHashes(IndexedTurns(outbox.Contents(), active)));
      r := BackfillLoop(active, prior, counts);
      CapturedExactly(s, Tx(outbox.Contents(), r), ctx, active, Missing(ctx, counts, prior, |prior|));
      if r.Err? { return; }
      var fingerprints := TextHashes(ctx, transcript);
      var corrections := PlanRewindCorrections(ToIndexed(IndexedTurns(outbox.Contents(), active)), fingerprints);
      r := EnqueueLoop(CorrectionOps(ctx, corrections));
      if r.Err? { return; }
      MarkKeeps(outbox.Contents(), active, "", false);
      r := outbox.MarkSessionReconcile(active, "", false);
    }

    /** The turn number of the recorded start, if there is one, goes into the capture. */
    method CaptureWithStart(active: string, current: TurnText) returns (r: Result<Id>)
      requires Valid()
      modifies outbox, starts
      ensures Valid()
      ensures (outbox.Contents(), starts.turns, r)
           == CapturedWithStart(old(outbox.Contents()), old(starts.turns), settings, ctx, active, current)
    {
      ConsumeExact(starts.turns, active, starts.messageHash(current.user));
      var pending := starts.Consume(active, current.user);
      var turnNumber := if pending.Ok? then Some(pending.value.turnNumber) else None;
      r := EnqueueCapture(active, current, turnNumber);
    }

    method SyncTurn(userContent: string, assistantContent: string, sessionId: string,
                    messages: Option<seq<Message>>) returns (r: Result<Option<Id>>)
      requires Valid()
      modifies outbox, starts
      ensures Valid()
      ensures
        var current := TurnText(settings.normalize(userContent), assistantContent);
        var active := if sessionId != "" then sessionId else session;
        if !settings.capturing || current.user == "" then
          r == Ok(None) && outbox.Contents() == old(outbox.Contents()) && starts.turns == old(starts.turns)
        else
          var end := Synced(old(outbox.Contents()), old(starts.turns), settings, ctx, active, messages, current);
          && outbox.Contents() == end.0 && starts.turns == end.1
          && r == if end.2.Ok? then Ok(Some(end.2.value)) else Err(end.2.error)
    {
      if !settings.capturing { return Ok(None); }
      var user := settings.normalize(userContent);
      if user == "" { return Ok(None); }
      var current := TurnText(user, assistantContent);
      var active := if sessionId != "" then sessionId else session;
      if messages.Some? && active in outbox.sessions && outbox.sessions[active].reconcile {
        var reconciled := ReconcileSession(active, messages.value, current);
        if reconciled.Err? { return Err(reconciled.error); }
      }
      var captured := CaptureWithStart(active, current);
      return if captured.Ok? then Ok(Some(captured.value)) else Err(captured.error);
    }

    // -------------------------------------------------------------- executing

    /** `client` answers the calls this one operation makes. */
    method ExecuteOperation(op: ClaimedOperation, client: Client) returns (result: AttemptResult)
      requires Valid()
      modifies outbox
      ensures Valid()
      ensures (outbox.Contents(), result) == Execute(old(outbox.Contents()), ctx.sha, client, op)
    {
      var route :=
        if EndsWith(op.what.endpoint, "/memory/raw") then ToRaw
        else if op.what.kind == "context_exposure" then ToExposure
        else if EndsWith(op.what.endpoint, CORRECTIONS) then ToCorrection
        else Nowhere;
      result := Dispatch(op, client, route, CorrectionSourceId(op.what.endpoint));
    }

    /** The branch of _execute_operation for a route; `source` is read from the endpoint. */
    method Dispatch(op: ClaimedOperation, client: Client, route: Route, source: Result<string>)
      returns (result: AttemptResult)
      requires Valid()
      modifies outbox
      ensures Valid()
      ensures (outbox.Contents(), result)
           == Follow(old(outbox.Contents()), op,
                     CourseFrom(ctx.sha, client, op, PlanVia(old(outbox.Contents()), op, route, source)))
    {
      match route
      case ToRaw =>
        if !op.what.request.RawMemory? { return Failure(Retry, None, "KeyError"); }
        result := Deliver(op, client.exchange(op.what.key, Outgoing("memory/raw", op.what.request)));
      case ToExposure =>
        if !op.what.request.Exposure? { return Failure(Retry, None, "KeyError"); }
        result := Deliver(op, client.exchange(op.what.key, Outgoing("memory/expose", op.what.request)));
      case ToCorrection =>
        if source.Err? { return Failure(Retry, None, "ValueError"); }
        var expected := OwnRevision(op.what.request);
        if expected.None? && op.what.dependsOn.Some? {
          expected := outbox.TurnRevision(op.what.dependsOn.value);
          if expected.None? {
            return Failure(Retry, None, "source dependency revision is not available");
          }
        }
        if !op.what.request.Correction? { return Failure(Retry, None, "KeyError"); }
        var request := op.what.request.correction.(expectedRevision := expected);
        if source.value == "" { return Failure(Retry, None, "ValueError"); }
        if op.state.ReconcileRevision? {
          result := ReconcileCorrection(op, request, client.preview(source.value, request));
        } else {
          var out := Outgoing(CorrectionPath(source.value), Correction(request));
          result := Deliver(op, client.exchange(op.what.key, out));
        }
      case Nowhere => return Failure(Bury, None, "unsupported outbox operation");
    }

    /** What follows an exchange: a capture's revision is stored before success is reported. */
    method Deliver(op: ClaimedOperation, response: Response) returns (result: AttemptResult)
      requires Valid()
      modifies outbox
      ensures Valid()
      ensures (outbox.Contents(), result) == Follow(old(outbox.Contents()), op, AfterReply(op.what, response))
    {
      match VerdictOf(op.what, response)
      case Finish(end) => return end;
      case Record(revision, replayed) =>
        RecordRevisionKeeps(outbox.Contents(), op.id, revision);
        var _ := outbox.RecordTurnRevision(op.id, revision);
        return Success(replayed);
    }

    method ReconcileCorrection(op: ClaimedOperation, request: CorrectionRequest, reply: PreviewReply)
      returns (result: AttemptResult)
      requires Valid()
      modifies outbox
      ensures Valid()
      ensures (outbox.Contents(), result)
           == Follow(old(outbox.Contents()), op, AfterPreview(ctx.sha, op, request, reply))
    {
      match ReconcileWith(ctx.sha, op, request, reply)
      case Done(end) => return end;
      case Replace(replacement) =>
        SupersedeKeepsInv(outbox.Contents(), op.id, op.token, replacement);
        var superseded := outbox.Supersede(op.id, op.token, replacement);
        return AfterSupersede(superseded);
    }

    // -------------------------------------------------------------- sessions

    method OnTurnStart(turnNumber: int, message: string)
      requires Valid()
      modifies starts
      ensures Valid()
      ensures
        var clean := settings.normalize(message);
        starts.turns ==
          if clean == "" then old(starts.turns)
          else Put(old(starts.turns), session, QueueOf(old(starts.turns), session)
                                               + [PendingTurn(turnNumber, settings.messageHash(clean))])
    {
      var clean := settings.normalize(message);
      if clean == "" { return; }
      var _ := starts.Record(session, turnNumber, clean);
    }

    /** The fields change even when the new session id is refused. */
    method OnSessionSwitch(newSession: string, parentSession: string, reset: bool) returns (r: Result<()>)
      requires Valid()
      modifies this, outbox, starts
      ensures Valid()
      ensures session == newSession
      ensures parent == SwitchParent(old(outbox.Contents()), newSession, parentSession, reset)
      ensures newSession in old(outbox.sessions) ==> parent == old(outbox.sessions)[newSession].parent
      ensures newSession !in old(outbox.sessions) ==> parent == if reset then "" else parentSession
      ensures Tx(outbox.Contents(), r) == MarkSessionReconcile(old(outbox.Contents()), newSession, parent, true)
      ensures starts.turns == if reset then Put(old(starts.turns), old(session), []) else old(starts.turns)
    {
      if reset {
        starts.Clear(session);
      }
      var known := newSession in outbox.sessions;
      session := newSession;
      parent := if known then outbox.sessions[newSession].parent else if reset then "" else parentSession;
      MarkKeeps(outbox.Contents(), newSession, parent, true);
      r := outbox.MarkSessionReconcile(newSession, parent, true);
    }
  }

  lemma SupersedeKeepsInv(s: Store, id: Id, token: nat, replacement: NewOperation)
    requires Inv(s)
    ensures Inv(SupersedeWith(s, id, token, replacement).store)
  {
    SupersedeKeeps(s, id, token, replacement);
    SameIndexKeeps(s, SupersedeWith(s, id, token, replacement).store);
  }

  // ---------------------------------------------------------------- the loops, one turn further

  lemma {:induction false} FailureSticks(s: Store, ctx: Context, session: string, texts: seq<TurnText>, n: nat)
    requires n <= |texts| && CaptureAll(s, ctx, session, texts[..n]).result.Err?
    ensures CaptureAll(s, ctx, session, texts) == CaptureAll(s, ctx, session, texts[..n])
    decreases |texts|
  {
    if n == |texts| {
      assert texts[..n] == texts;
    } else {
      var front := texts[..|texts| - 1];
      assert front[..n] == texts[..n];
      FailureSticks(s, ctx, session, front, n);
    }
  }

  lemma {:induction false} MissingGrows(ctx: Context, counts: multiset<string>, prior: seq<TurnText>, n: nat, m: nat)
    requires n <= m <= |prior|
    ensures Missing(ctx, counts, prior, n) <= Missing(ctx, counts, prior, m)
    decreases m
  {
    if n < m {
      MissingGrows(ctx, counts, prior, n, m - 1);
    }
  }

  lemma FailedPart(s: Store, ctx: Context, session: string, part: seq<TurnText>, all: seq<TurnText>)
    requires part <= all && CaptureAll(s, ctx, session, part).result.Err?
    ensures CaptureAll(s, ctx, session, all) == CaptureAll(s, ctx, session, part)
  {
    assert all[..|part|] == part;
    FailureSticks(s, ctx, session, all, |part|);
  }

  ghost predicate IsCapture(t: Tx<()>, s: Store, ctx: Context, session: string, texts: seq<TurnText>) {
    t == CaptureAll(s, ctx, session, texts)
  }

  /** `t` is the one outcome of capturing the texts one after another; the name keeps it folded. */
  ghost predicate CapturedTo(s: Store, t: Tx<()>, ctx: Context, session: string, texts: seq<TurnText>) {
    forall u | IsCapture(u, s, ctx, session, texts) :: u == t
  }

  lemma CapturedExactly(s: Store, t: Tx<()>, ctx: Context, session: string, texts: seq<TurnText>)
    ensures CapturedTo(s, t, ctx, session, texts) <==> CaptureAll(s, ctx, session, texts) == t
  {
    assert IsCapture(CaptureAll(s, ctx, session, texts), s, ctx, session, texts);
  }

  lemma CaptureNext(s: Store, m: Store, ctx: Context, session: string, front: seq<TurnText>, last: TurnText)
    requires CapturedTo(s, Tx(m, Ok(())), ctx, session, front)
    ensures
      var r := CaptureTurn(m, ctx, session, last, None);
      CapturedTo(s, Tx(r.store, if r.result.Err? then Err(r.result.error) else Ok(())), ctx, session, front + [last])
  {
    var r := CaptureTurn(m, ctx, session, last, None);
    assert (front + [last])[..|front|] == front;
    CapturedExactly(s, Tx(m, Ok(())), ctx, session, front);
    CapturedExactly(s, Tx(r.store, if r.result.Err? then Err(r.result.error) else Ok(())), ctx, session,
                    front + [last]);
  }

  /** The Counter of hashes seen among the first `i` turns. */
  ghost predicate Tallied(ctx: Context, prior: seq<TurnText>, i: nat, seen: multiset<string>) {
    i <= |prior| && forall h :: seen[h] == Occurrences(ctx, prior, i, h)
  }

  lemma TallyNext(ctx: Context, counts: multiset<string>, prior: seq<TurnText>, i: nat, seen: multiset<string>,
                  done: seq<TurnText>)
    requires i < |prior| && Tallied(ctx, prior, i, seen) && done == Missing(ctx, counts, prior, i)
    ensures
      var digest := HashOf(ctx, prior[i]);
      && Tallied(ctx, prior, i + 1, seen[digest := seen[digest] + 1])
      && Missing(ctx, counts, prior, i + 1)
         == if seen[digest] + 1 > counts[digest] then done + [prior[i]] else done
  {
    assert done + [] == done;
  }

  /** A failed capture is the end of the back-fill. */
  lemma BackfillFails(s: Store, t: Store, e: Error, ctx: Context, session: string, counts: multiset<string>,
                      prior: seq<TurnText>, i: nat)
    requires i <= |prior| && CapturedTo(s, Tx(t, Err(e)), ctx, session, Missing(ctx, counts, prior, i))
    ensures CapturedTo(s, Tx(t, Err(e)), ctx, session, Missing(ctx, counts, prior, |prior|))
  {
    MissingGrows(ctx, counts, prior, i, |prior|);
    CapturedExactly(s, Tx(t, Err(e)), ctx, session, Missing(ctx, counts, prior, i));
    CapturedExactly(s, Tx(t, Err(e)), ctx, session, Missing(ctx, counts, prior, |prior|));
    FailedPart(s, ctx, session, Missing(ctx, counts, prior, i), Missing(ctx, counts, prior, |prior|));
  }

  lemma {:induction false} RefusalSticks(s: Store, ops: seq<NewOperation>, n: nat)
    requires n <= |ops| && EnqueueAll(s, ops[..n]).result.Err?
    ensures EnqueueAll(s, ops) == EnqueueAll(s, ops[..n])
    decreases |ops|
  {
    if n == |ops| {
      assert ops[..n] == ops;
    } else {
      var front := ops[..|ops| - 1];
      assert front[..n] == ops[..n];
      RefusalSticks(s, front, n);
    }
  }

  lemma EnqueueAllNext(s: Store, ops: seq<NewOperation>, i: nat)
    requires i < |ops| && EnqueueAll(s, ops[..i]).result.Ok?
    ensures
      var r := Enqueue(EnqueueAll(s, ops[..i]).store, ops[i]);
      && EnqueueAll(s, ops[..i + 1]) == Tx(r.store, if r.result.Err? then Err(r.result.error) else Ok(()))
      && (r.result.Err? ==> EnqueueAll(s, ops) == Tx(r.store, Err(r.result.error)))
  {
    var longer := ops[..i + 1];
    assert longer[..|longer| - 1] == ops[..i] && longer[|longer| - 1] == ops[i];
    if EnqueueAll(s, longer).result.Err? {
      RefusalSticks(s, ops, i + 1);
    }
  }

  // ---------------------------------------------------------------- what a synced turn leaves indexed

  lemma {:induction false} SameHashesBelow(s: Store, t: Store, session: string, bound: nat)
    requires t.turns == s.turns
    ensures RecordHashes(TurnsBelow(t, session, bound)) == RecordHashes(TurnsBelow(s, session, bound))
  {
    if bound > 0 {
      SameHashesBelow(s, t, session, bound - 1);
    }
  }

  /** Corrections and the mark that ends a reconciliation leave the index counts alone. */
  lemma CorrectionsKeepCounts(m: Store, ops: seq<NewOperation>, session: string)
    requires Inv(m) && session != ""
    ensures
      var t := MarkSessionReconcile(EnqueueAll(m, ops).store, session, "", false).store;
      Inv(t) && IndexCounts(t, session) == IndexCounts(m, session)
  {
    EnqueueAllKeeps(m, ops);
    var c := EnqueueAll(m, ops).store;
    MarkKeeps(c, session, "", false);
    var t := MarkSessionReconcile(c, session, "", false).store;
    if session in m.sessions {
      SameHashesBelow(m, t, session, m.sessions[session].next);
    } else {
      assert forall k | k in c.turns :: TurnOk(c, k);
      assert TurnsBelow(t, session, 0) == [] && TurnsBelow(t, session, 1) == [];
    }
  }

  /** A reconciliation that returns has indexed, per hash, the larger of what was and what must be. */
  lemma ReconciledCounts(s: Store, ctx: Context, session: string, messages: seq<Message>, current: TurnText,
                         front: seq<TurnText>, h: string)
    requires Inv(s) && Reconcile.ReconcileSession(s, ctx, session, messages, current).result.Ok?
    requires IsFront(messages, current, front)
    ensures
      var t := Reconcile.ReconcileSession(s, ctx, session, messages, current).store;
      && Inv(t) && IndexCounts(t, session)[h] == Max(IndexCounts(s, session)[h], TextCounts(ctx, front)[h])
  {
    FrontIsPrior(messages, current, front);
    BackfillCounts(s, ctx, session, messages, current, h);
    FirstRunAccepted(s, ctx, session, messages, current);
    var m := Backfill(s, ctx, session, messages, current).store;
    CorrectionsKeepCounts(m, Corrections(m, ctx, session, messages), session);
  }

  /**
   A sync_turn that reconciles and returns has every committed turn of the transcript indexed, as
   often as it occurs: the index gains the prior turns it lacked and the current one, and loses none.
   */
  lemma SyncCoversTranscript(s: Store, q: Queues, settings: Settings, ctx: Context, active: string,
                             messages: seq<Message>, current: TurnText, front: seq<TurnText>, h: string)
    requires Inv(s) && ReconcileRequired(s, active) && IsFront(messages, current, front)
    requires Synced(s, q, settings, ctx, active, Some(messages), current).2.Ok?
    ensures
      var end := Synced(s, q, settings, ctx, active, Some(messages), current).0;
      && IndexCounts(end, active)[h]
         == Max(IndexCounts(s, active)[h], TextCounts(ctx, front)[h]) + (if HashOf(ctx, current) == h then 1 else 0)
      && TextCounts(ctx, Read(messages).turns)[h] <= IndexCounts(end, active)[h]
  {
    var t := Reconcile.ReconcileSession(s, ctx, active, messages, current).store;
    ReconciledCounts(s, ctx, active, messages, current, front, h);
    FrontIsPrior(messages, current, front);
    var pending := Consumed(q, active, settings.messageHash(current.user)).1;
    CaptureCounts(t, ctx, active, current, if pending.Ok? then Some(pending.value.turnNumber) else None, h);
    PriorWithin(ctx, messages, current, h);
  }

  // ---------------------------------------------------------------- syncing the same transcript again

  /** After the reconciliation the capture is the one turn more. */
  lemma SyncedIndex(s: Store, q: Queues, settings: Settings, ctx: Context, active: string,
                    messages: seq<Message>, current: TurnText)
    requires Inv(s) && ReconcileRequired(s, active)
    requires Synced(s, q, settings, ctx, active, Some(messages), current).2.Ok?
    ensures
      var t := Reconcile.ReconcileSession(s, ctx, active, messages, current);
      var end := Synced(s, q, settings, ctx, active, Some(messages), current).0;
      var planned, index := PlannedOver(s, ctx, active, messages, current), ToIndexed(IndexedTurns(end, active));
      && t.result.Ok? && Evolves(t.store, end) && |index| == |planned| + 1 && Extends(planned, index)
      && index[|planned|].turnHash == HashOf(ctx, current)
  {
    var t := Reconcile.ReconcileSession(s, ctx, active, messages, current).store;
    ReconciledIndex(s, ctx, active, messages, current);
    SyncedCapture(t, q, settings, ctx, active, current);
    ExtendsByOne(PlannedOver(s, ctx, active, messages, current), t,
                 CapturedWithStart(t, q, settings, ctx, active, current).0, active, HashOf(ctx, current));
  }

  lemma ExtendsByOne(planned: seq<IndexedTurn>, t: Store, end: Store, session: string, h: string)
    requires SameTurns(planned, ToIndexed(IndexedTurns(t, session))) && OneTurnMore(t, end, session, h)
    ensures
      var index := ToIndexed(IndexedTurns(end, session));
      |index| == |planned| + 1 && Extends(planned, index) && index[|planned|].turnHash == h
  {
    var before, index := ToIndexed(IndexedTurns(t, session)), ToIndexed(IndexedTurns(end, session));
    assert forall i | 0 <= i < |before| :: index[i] == index[..|before|][i];
  }

  lemma SyncedCapture(t: Store, q: Queues, settings: Settings, ctx: Context, active: string, current: TurnText)
    requires Inv(t) && CapturedWithStart(t, q, settings, ctx, active, current).2.Ok?
    ensures
      var end := CapturedWithStart(t, q, settings, ctx, active, current).0;
      Evolves(t, end) && OneTurnMore(t, end, active, HashOf(ctx, current))
  {
    var pending := Consumed(q, active, settings.messageHash(current.user)).1;
    CapturedIndex(t, ctx, active, current, if pending.Ok? then Some(pending.value.turnNumber) else None);
  }

  lemma CapturedIndex(t: Store, ctx: Context, session: string, text: TurnText, turnNumber: Option<int>)
    requires Inv(t) && CaptureTurn(t, ctx, session, text, turnNumber).result.Ok?
    ensures
      var end := CaptureTurn(t, ctx, session, text, turnNumber).store;
      Evolves(t, end) && OneTurnMore(t, end, session, HashOf(ctx, text))
  {
    var r := CaptureTurn(t, ctx, session, text, turnNumber);
    CaptureKeeps(t, ctx, session, text, turnNumber);
    CaptureExact(t, ctx, session, text, turnNumber);
    AppendedIndex(t, r.store, session, r.result.value);
  }

  ghost predicate OneTurnMore(t: Store, end: Store, session: string, h: string) {
    var before, after := ToIndexed(IndexedTurns(t, session)), ToIndexed(IndexedTurns(end, session));
    |after| == |before| + 1 && after[..|before|] == before && after[|before|].turnHash == h
  }

  lemma AppendedIndex(t: Store, end: Store, session: string, record: IndexedTurnRecord)
    requires IndexInv(t) && TurnAppended(t, end, session, record)
    ensures OneTurnMore(t, end, session, record.turnHash)
  {
    AppendedIsLast(t, end, session, record);
  }

  /** With one turn past the first plan, the second plan has one correction more, or none. */
  lemma MoreIsOne(ctx: Context, planned: seq<IndexedTurn>, index: seq<IndexedTurn>, committed: multiset<string>)
    requires Extends(planned, index) && |index| == |planned| + 1
    ensures
      var last := index[|planned|];
      More(ctx, index, committed, |planned|)
      == if multiset(Hashes(planned))[last.turnHash] >= committed[last.turnHash]
         then [CorrectionOp(ctx, Intent(last))] else []
  {
    var n := |planned|;
    CountsGrow(planned, index, index[n].turnHash);
    assert StaleFrom(index, committed, n, n) == [];
  }

  lemma RefusedOfOne(s: Store, op: NewOperation)
    ensures FirstRefused(s, [op]) == if Enqueue(s, op).result.Ok? then 1 else 0
  {
    assert [op][..0] == [];
  }

  /**
   The outcome of reconciling `s2` after `s`, when the index has the current turn's capture more. That
   capture is stale iff the first plan's index had its hash as often as the transcript has it. The run
   returns iff every turn the first found stale kept its queued flag and revision, and the correction
   of the capture, if it is stale, is taken; it adds that operation or none, and no index row.
   */
  ghost predicate ResyncOutcome(s: Store, ctx: Context, active: string, messages: seq<Message>,
                                current: TurnText, front: seq<TurnText>, s2: Store, again: Tx<()>)
  {
    var h, n := HashOf(ctx, current), |PlannedOver(s, ctx, active, messages, current)|;
    var index := ToIndexed(IndexedTurns(s2, active));
    && |index| == n + 1 && index[n].turnHash == h
    && var was, now := Corrected(s, ctx, active, messages, current),
                       Stale(index, multiset(Fingerprints(ctx, messages)), n);
       var op := CorrectionOp(ctx, Intent(index[n]));
       var replanned := Max(IndexCounts(s, active)[h], TextCounts(ctx, front)[h])
                        >= TextCounts(ctx, Read(messages).turns)[h];
       && |was| == |now|
       && (again.result.Ok? <==> StateUnchanged(was, now) && (replanned ==> Enqueue(s2, op).result.Ok?))
       && (again.store.ops == s2.ops <==>
             (StateUnchanged(was, now) && replanned && Enqueue(s2, op).result.Ok? ==> Known(s2, op.id)))
       && again.store.turns == s2.turns && again.store.history == s2.history
  }

  /**
   A sync_turn that reconciled, then a switch or a restart that asks again, then a sync_turn on the
   same transcript. The second reconciliation meets the capture of the first call as one turn more:
   a rewound turn sent again in the same words has its new capture corrected.
   */
  lemma ResyncIff(s: Store, q: Queues, settings: Settings, ctx: Context, active: string,
                  messages: seq<Message>, current: TurnText, front: seq<TurnText>, s2: Store)
    requires Ideal(ctx.sha) && Inv(s) && ReconcileRequired(s, active) && IsFront(messages, current, front)
    requires Synced(s, q, settings, ctx, active, Some(messages), current).2.Ok?
    requires Inv(s2) && ReconcileRequired(s2, active)
    requires
      var end := Synced(s, q, settings, ctx, active, Some(messages), current).0;
      Evolves(end, s2)
      && SameTurns(ToIndexed(IndexedTurns(end, active)), ToIndexed(IndexedTurns(s2, active)))
    ensures ResyncOutcome(s, ctx, active, messages, current, front, s2,
                          Reconciled(s2, ctx, active, Some(messages), current))
  {
    ResyncExtends(s, q, settings, ctx, active, messages, current, s2);
    OneTurnPast(s, ctx, active, messages, current, front, s2);
  }

  lemma OneTurnPast(s: Store, ctx: Context, active: string, messages: seq<Message>, current: TurnText,
                    front: seq<TurnText>, s2: Store)
    requires IsFront(messages, current, front)
    requires Ideal(ctx.sha) && Inv(s) && Reconcile.ReconcileSession(s, ctx, active, messages, current).result.Ok?
    requires Inv(s2) && Evolves(Reconcile.ReconcileSession(s, ctx, active, messages, current).store, s2)
    requires
      var planned, index := PlannedOver(s, ctx, active, messages, current), ToIndexed(IndexedTurns(s2, active));
      |index| == |planned| + 1 && Extends(planned, index) && index[|planned|].turnHash == HashOf(ctx, current)
    ensures ResyncOutcome(s, ctx, active, messages, current, front, s2,
                          Reconcile.ReconcileSession(s2, ctx, active, messages, current))
  {
    var planned, index := PlannedOver(s, ctx, active, messages, current), ToIndexed(IndexedTurns(s2, active));
    RerunIff(s, ctx, active, messages, current, s2);
    FrontIsPrior(messages, current, front);
    PlannedCounts(s, ctx, active, messages, current, HashOf(ctx, current));
    OneOrNone(ctx, planned, index, multiset(Fingerprints(ctx, messages)), s2);
  }

  /** The one correction more, as the second run meets it. */
  lemma OneOrNone(ctx: Context, planned: seq<IndexedTurn>, index: seq<IndexedTurn>, committed: multiset<string>,
                  s2: Store)
    requires Extends(planned, index) && |index| == |planned| + 1
    ensures
      var last := index[|planned|];
      var op, more := CorrectionOp(ctx, Intent(last)), More(ctx, index, committed, |planned|);
      var replanned := multiset(Hashes(planned))[last.turnHash] >= committed[last.turnHash];
      && (FirstRefused(s2, more) == |more| <==> (replanned ==> Enqueue(s2, op).result.Ok?))
      && ((forall i | 0 <= i < FirstRefused(s2, more) :: Known(s2, more[i].id))
          <==> (replanned && Enqueue(s2, op).result.Ok? ==> Known(s2, op.id)))
  {
    MoreIsOne(ctx, planned, index, committed);
    RefusedOfOne(s2, CorrectionOp(ctx, Intent(index[|planned|])));
  }

  lemma PlannedCounts(s: Store, ctx: Context, session: string, messages: seq<Message>, current: TurnText, h: string)
    requires Inv(s) && Reconcile.ReconcileSession(s, ctx, session, messages, current).result.Ok?
    ensures multiset(Hashes(PlannedOver(s, ctx, session, messages, current)))[h]
         == Max(IndexCounts(s, session)[h], TextCounts(ctx, PriorTurns(messages, current))[h])
  {
    BackfillCounts(s, ctx, session, messages, current, h);
  }

  lemma ResyncExtends(s: Store, q: Queues, settings: Settings, ctx: Context, active: string,
                      messages: seq<Message>, current: TurnText, s2: Store)
    requires Inv(s) && ReconcileRequired(s, active)
    requires Synced(s, q, settings, ctx, active, Some(messages), current).2.Ok?
    requires
      var end := Synced(s, q, settings, ctx, active, Some(messages), current).0;
      Evolves(end, s2)
      && SameTurns(ToIndexed(IndexedTurns(end, active)), ToIndexed(IndexedTurns(s2, active)))
    ensures
      var t := Reconcile.ReconcileSession(s, ctx, active, messages, current);
      var planned, index := PlannedOver(s, ctx, active, messages, current), ToIndexed(IndexedTurns(s2, active));
      && t.result.Ok? && Evolves(t.store, s2) && |index| == |planned| + 1 && Extends(planned, index)
      && index[|planned|].turnHash == HashOf(ctx, current)
  {
    var planned, index := PlannedOver(s, ctx, active, messages, current), ToIndexed(IndexedTurns(s2, active));
    SyncedIndex(s, q, settings, ctx, active, messages, current);
    var t := Reconcile.ReconcileSession(s, ctx, active, messages, current).store;
    var end := Synced(s, q, settings, ctx, active, Some(messages), current).0;
    EvolvesTransitive(t, end, s2);
    ExtendsOn(planned, ToIndexed(IndexedTurns(end, active)), index);
    assert SameTurn(ToIndexed(IndexedTurns(end, active))[|planned|], index[|planned|]);
  }

  /**
   The captured turn carries the number of the earliest recorded start with the user's text, and its
   own sequence number if there is none; the starts up to that one are used up.
   */
  lemma SyncUsesStart(s: Store, q: Queues, settings: Settings, ctx: Context, active: string, current: TurnText)
    requires NoneEmpty(q) && CapturedWithStart(s, q, settings, ctx, active, current).2.Ok?
    ensures
      var (end, after, r) := CapturedWithStart(s, q, settings, ctx, active, current);
      var queue, hash := QueueOf(q, active), settings.messageHash(current.user);
      var start := FirstMatch(queue, hash);
      var turn := if start < |queue| then Some(queue[start].turnNumber) else None;
      var identity := DeriveTurnIdentity(ctx.sha, ctx.agent, active, NextSlot(s, active).sequence, turn,
                                         current.user, current.assistant);
      && identity.Ok? && r.value == identity.value.operationId
      && QueueOf(after, active) == (if start < |queue| then queue[start + 1..] else queue)
  {
    var turn := StartFound(q, active, settings.messageHash(current.user));
    CaptureIdentity(s, ctx, active, current, turn);
  }

  lemma StartFound(q: Queues, active: string, hash: string) returns (turn: Option<int>)
    requires NoneEmpty(q)
    ensures
      var (after, pending) := Consumed(q, active, hash);
      var queue := QueueOf(q, active);
      var start := FirstMatch(queue, hash);
      && turn == (if pending.Ok? then Some(pending.value.turnNumber) else None)
      && turn == (if start < |queue| then Some(queue[start].turnNumber) else None)
      && QueueOf(after, active) == (if start < |queue| then queue[start + 1..] else queue)
  {
    var pending := Consumed(q, active, hash).1;
    turn := if pending.Ok? then Some(pending.value.turnNumber) else None;
  }

  /** A switch never changes the parent on record, stores the one it settles on, and asks to reconcile. */
  lemma SwitchKeepsParents(s: Store, session: string, parent: string, reset: bool)
    ensures
      var settled := SwitchParent(s, session, parent, reset);
      var r := MarkSessionReconcile(s, session, settled, true);
      && (session in s.sessions ==> settled == s.sessions[session].parent)
      && (session !in s.sessions ==> settled == if reset then "" else parent)
      && if session == "" then r.result.Err? && r.store == s
      else
        && r.result.Ok? && r.store.sessions[session].parent == settled && ReconcileRequired(r.store, session)
        && (session in s.sessions ==>
              r.store.sessions[session].parent == s.sessions[session].parent
              && r.store.sessions[session].next == s.sessions[session].next)
        && forall x | x in s.sessions && x != session :: r.store.sessions[x] == s.sessions[x]
  {
  }
}
