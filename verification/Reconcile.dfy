/**
 _reconcile_session of runtime.py: on resume or rewind, back-fill the turns the transcript has and
 the index lacks, and enqueue a stale correction for every indexed turn the transcript lost.
 */
module Reconcile {
  import opened Wrappers
  import opened Ordering
  import opened Requests
  import opened Outbox
  import opened OutboxInvariant
  import opened OutboxRuns
  import opened Sessions
  import opened Capture

  /** The configured context. `describe` stands for the metadata and provenance of a capture. */
  datatype Context = Context(
    sha: string -> string, agent: string,
    describe: (string, string, TurnIdentity) -> string)

  // ---------------------------------------------------------------- capturing one turn

  function ParentOf(s: Store, session: string): string {
    if session in s.sessions then s.sessions[session].parent else ""
  }

  function CanonicalSource(user: string, assistant: string): string {
    "[User]\n" + user + "\n\n[Assistant]\n" + assistant
  }

  const RAW_ENDPOINT := "/api/memory/raw"

  /** The mutation of a raw capture. */
  function RawMutation(ctx: Context, session: string, parent: string, text: TurnText,
                       identity: TurnIdentity): Mutation
  {
    Mutation(None, "raw_capture", RAW_ENDPOINT,
             RawMemory("Hermes turn " + session + "/" + Decimal(identity.turnNumber),
                       CanonicalSource(text.user, text.assistant), identity.sourceId,
                       ctx.describe(session, parent, identity)),
             identity.idempotencyKey, "POST")
  }

  /** The factory _enqueue_capture hands to enqueue_turn. */
  function CaptureFactory(ctx: Context, session: string, parent: string, text: TurnText,
                          turnNumber: Option<int>): nat -> Result<NewTurn>
  {
    (sequence: nat) =>
      match DeriveTurnIdentity(ctx.sha, ctx.agent, session, sequence, turnNumber, text.user, text.assistant)
      case Err(e) => Err(e)
      case Ok(identity) =>
        Ok(NewTurn(NewOperation(identity.operationId, RawMutation(ctx, session, parent, text, identity)),
                   identity.sourceId, identity.turnHash))
  }

  function CaptureTurn(s: Store, ctx: Context, session: string, text: TurnText, turnNumber: Option<int>)
    : Tx<IndexedTurnRecord>
  {
    EnqueueTurn(s, session, ParentOf(s, session),
                CaptureFactory(ctx, session, ParentOf(s, session), text, turnNumber))
  }

  function CaptureAll(s: Store, ctx: Context, session: string, texts: seq<TurnText>): Tx<()>
    decreases |texts|
  {
    if texts == [] then Tx(s, Ok(())) else
      var front := CaptureAll(s, ctx, session, texts[..|texts| - 1]);
      if front.result.Err? then front else
        var r := CaptureTurn(front.store, ctx, session, texts[|texts| - 1], None);
        Tx(r.store, if r.result.Err? then Err(r.result.error) else Ok(()))
  }

  // ---------------------------------------------------------------- what is missing

  function HashOf(ctx: Context, text: TurnText): string {
    TurnHash(ctx.sha, text.user, text.assistant)
  }

  function TextHashes(ctx: Context, texts: seq<TurnText>): (hs: seq<string>)
    ensures |hs| == |texts| && forall i | 0 <= i < |texts| :: hs[i] == HashOf(ctx, texts[i])
  {
    seq(|texts|, i requires 0 <= i < |texts| => HashOf(ctx, texts[i]))
  }

  function ToIndexed(records: seq<IndexedTurnRecord>): (ts: seq<IndexedTurn>)
    ensures |ts| == |records|
    ensures forall i | 0 <= i < |ts| ::
              ts[i] == IndexedTurn(records[i].operationId, records[i].sourceId, records[i].turnHash,
                                   records[i].sequence, records[i].revision, records[i].queued)
  {
    seq(|records|, i requires 0 <= i < |records| =>
      IndexedTurn(records[i].operationId, records[i].sourceId, records[i].turnHash,
                  records[i].sequence, records[i].revision, records[i].queued))
  }

  function RecordHashes(records: seq<IndexedTurnRecord>): (hs: seq<string>)
    ensures |hs| == |records| && forall i | 0 <= i < |records| :: hs[i] == records[i].turnHash
  {
    Hashes(ToIndexed(records))
  }

  /** How many of the first `n` texts have the hash. */
  function Occurrences(ctx: Context, texts: seq<TurnText>, n: nat, h: string): nat
    requires n <= |texts|
  {
    if n == 0 then 0 else Occurrences(ctx, texts, n - 1, h) + if HashOf(ctx, texts[n - 1]) == h then 1 else 0
  }

  /** Of the first `n` turns, those whose hash has by then occurred more often than it is indexed. */
  function Missing(ctx: Context, counts: multiset<string>, prior: seq<TurnText>, n: nat): seq<TurnText>
    requires n <= |prior|
  {
    if n == 0 then [] else
      Missing(ctx, counts, prior, n - 1)
      + if Occurrences(ctx, prior, n, HashOf(ctx, prior[n - 1])) > counts[HashOf(ctx, prior[n - 1])]
        then [prior[n - 1]] else []
  }

  /** The transcript's turns, less the current one when it is already the last. */
  function PriorTurns(messages: seq<Message>, current: TurnText): seq<TurnText> {
    var turns := Read(messages).turns;
    if turns != [] && turns[|turns| - 1] == current then turns[..|turns| - 1] else turns
  }

  /**
   `front` is what the transcript has before the current turn: all of it but a last turn that is the
   current one, or all of it.
   */
  ghost predicate IsFront(messages: seq<Message>, current: TurnText, front: seq<TurnText>) {
    var turns := Read(messages).turns;
    turns == front + [current] || (turns == front && (front == [] || front[|front| - 1] != current))
  }

  lemma FrontIsPrior(messages: seq<Message>, current: TurnText, front: seq<TurnText>)
    requires IsFront(messages, current, front)
    ensures PriorTurns(messages, current) == front
  {
    if Read(messages).turns == front + [current] {
      assert (front + [current])[..|front|] == front;
    }
  }

  /** Every transcript has exactly one. */
  lemma OneFront(messages: seq<Message>, current: TurnText) returns (front: seq<TurnText>)
    ensures IsFront(messages, current, front)
    ensures forall other | IsFront(messages, current, other) :: other == front
  {
    front := PriorTurns(messages, current);
    var turns := Read(messages).turns;
    assert turns == front || turns == front + [current];
    forall other | IsFront(messages, current, other) ensures other == front {
      FrontIsPrior(messages, current, other);
    }
  }

  // ---------------------------------------------------------------- corrections

  function CorrectionOp(ctx: Context, intent: StaleCorrectionIntent): NewOperation {
    var id := HashParts(ctx.sha, [ctx.agent, intent.operationId]);
    NewOperation(
      id,
      Mutation(intent.dependsOn, "rewind_correction", CorrectionEndpoint(intent.sourceId),
               Correction(CorrectionRequest("mark_stale", "hermes_session_rewind", None, None, None,
                                            intent.expectedRevision, map["provider_operation_id" := id])),
               "hermes-correction-" + id, "POST"))
  }

  function CorrectionOps(ctx: Context, intents: seq<StaleCorrectionIntent>): (ops: seq<NewOperation>)
    ensures |ops| == |intents|
    ensures forall i | 0 <= i < |ops| :: ops[i] == CorrectionOp(ctx, intents[i])
  {
    seq(|intents|, i requires 0 <= i < |intents| => CorrectionOp(ctx, intents[i]))
  }

  function EnqueueAll(s: Store, ops: seq<NewOperation>): Tx<()>
    decreases |ops|
  {
    if ops == [] then Tx(s, Ok(())) else
      var front := EnqueueAll(s, ops[..|ops| - 1]);
      if front.result.Err? then front else
        var r := Enqueue(front.store, ops[|ops| - 1]);
        Tx(r.store, if r.result.Err? then Err(r.result.error) else Ok(()))
  }

  // ---------------------------------------------------------------- the whole of it

  function Backfill(s: Store, ctx: Context, session: string, messages: seq<Message>, current: TurnText)
    : Tx<()>
  {
    var prior := PriorTurns(messages, current);
    var counts := multiset(RecordHashes(IndexedTurns(s, session)));
    CaptureAll(s, ctx, session, Missing(ctx, counts, prior, |prior|))
  }

  function Fingerprints(ctx: Context, messages: seq<Message>): seq<string> {
    TextHashes(ctx, Read(messages).turns)
  }

  function Corrections(s: Store, ctx: Context, session: string, messages: seq<Message>)
    : seq<NewOperation>
  {
    CorrectionOps(ctx, Plan(ToIndexed(IndexedTurns(s, session)), Fingerprints(ctx, messages)))
  }

  function ReconcileSession(s: Store, ctx: Context, session: string, messages: seq<Message>,
                            current: TurnText): Tx<()>
  {
    var filled := Backfill(s, ctx, session, messages, current);
    if filled.result.Err? then filled else
      var corrected := EnqueueAll(filled.store, Corrections(filled.store, ctx, session, messages));
      if corrected.result.Err? then corrected
      else MarkSessionReconcile(corrected.store, session, "", false)
  }

  // ---------------------------------------------------------------- capturing extends the index

  lemma {:induction false} TurnsBelowFrame(s: Store, t: Store, session: string, bound: nat)
    requires forall n: nat | n < bound ::
               (Slot(session, n) in s.turns <==> Slot(session, n) in t.turns)
               && (Slot(session, n) in s.turns ==>
                     RecordAt(t, Slot(session, n)) == RecordAt(s, Slot(session, n)))
    ensures TurnsBelow(t, session, bound) == TurnsBelow(s, session, bound)
  {
    if bound > 0 {
      TurnsBelowFrame(s, t, session, bound - 1);
    }
  }

  /** Where the next turn of a session goes. */
  function NextSlot(s: Store, session: string): Slot {
    Slot(session, if session in s.sessions then s.sessions[session].next else 1)
  }

  /** A turn of `session` was added at its next slot under a new operation. */
  ghost predicate TurnAppended(s: Store, t: Store, session: string, record: IndexedTurnRecord) {
    var slot := NextSlot(s, session);
    && session in t.sessions && t.sessions[session].next == slot.sequence + 1
    && slot !in s.turns && t.turns.Keys == s.turns.Keys + {slot}
    && (forall k | k in s.turns :: t.turns[k] == s.turns[k] && s.turns[k].operationId != record.operationId)
    && t.ops.Keys == s.ops.Keys + {record.operationId}
    && RecordAt(t, slot) == record
  }

  /** What the factory makes at a sequence number, when it makes anything. */
  lemma FactoryMakes(ctx: Context, session: string, parent: string, text: TurnText,
                     turnNumber: Option<int>, sequence: nat)
    ensures
      var made := CaptureFactory(ctx, session, parent, text, turnNumber)(sequence);
      made.Ok? ==> made.value.turnHash == HashOf(ctx, text)
  {
    var identity := DeriveTurnIdentity(ctx.sha, ctx.agent, session, sequence, turnNumber, text.user,
                                       text.assistant);
    assert identity.Ok? ==> identity.value.turnHash == HashOf(ctx, text);
  }

  lemma EnqueueTurnExact(s: Store, session: string, parent: string, factory: nat -> Result<NewTurn>,
                         made: Result<NewTurn>)
    requires made == factory(NextSlot(s, session).sequence)
    requires EnqueueTurn(s, session, parent, factory).result.Ok?
    ensures
      var r := EnqueueTurn(s, session, parent, factory);
      made.Ok? && TurnAppended(s, r.store, session, r.result.value)
      && r.result.value.turnHash == made.value.turnHash
  {
    InsertTurnExact(s, session, Touched(s, session, parent), made.value);
  }

  lemma InsertTurnExact(s: Store, session: string, row: Session, turn: NewTurn)
    requires InsertTurn(s, session, row, turn).result.Ok? && row.next == NextSlot(s, session).sequence
    ensures
      var r := InsertTurn(s, session, row, turn);
      TurnAppended(s, r.store, session, r.result.value) && r.result.value.turnHash == turn.turnHash
  {
  }

  lemma CaptureExact(s: Store, ctx: Context, session: string, text: TurnText, turnNumber: Option<int>)
    requires CaptureTurn(s, ctx, session, text, turnNumber).result.Ok?
    ensures
      var r := CaptureTurn(s, ctx, session, text, turnNumber);
      TurnAppended(s, r.store, session, r.result.value) && r.result.value.turnHash == HashOf(ctx, text)
  {
    var parent := ParentOf(s, session);
    var factory := CaptureFactory(ctx, session, parent, text, turnNumber);
    var sequence := NextSlot(s, session).sequence;
    FactoryMakes(ctx, session, parent, text, turnNumber, sequence);
    EnqueueTurnExact(s, session, parent, factory, factory(sequence));
  }

  /** The identity of a captured turn is derived from the very number its slot got. */
  lemma CaptureIdentity(s: Store, ctx: Context, session: string, text: TurnText, turnNumber: Option<int>)
    requires CaptureTurn(s, ctx, session, text, turnNumber).result.Ok?
    ensures
      var r := CaptureTurn(s, ctx, session, text, turnNumber);
      var record := r.result.value;
      var identity := DeriveTurnIdentity(ctx.sha, ctx.agent, session, record.sequence, turnNumber, text.user,
                                         text.assistant);
      && identity.Ok? && record.operationId == identity.value.operationId
      && record.sourceId == identity.value.sourceId && record.sequence == NextSlot(s, session).sequence
      && record.operationId in r.store.ops
      && r.store.ops[record.operationId].what.key == identity.value.idempotencyKey
  {
    var parent := ParentOf(s, session);
    var row := Touched(s, session, parent);
    var factory := CaptureFactory(ctx, session, parent, text, turnNumber);
    InsertedIdentity(s, session, row, factory(row.next).value);
  }

  lemma InsertedIdentity(s: Store, session: string, row: Session, turn: NewTurn)
    requires InsertTurn(s, session, row, turn).result.Ok?
    ensures
      var r := InsertTurn(s, session, row, turn);
      && r.result.value.operationId == turn.operation.id && r.result.value.sourceId == turn.sourceId
      && r.result.value.sequence == row.next && turn.operation.id in r.store.ops
      && r.store.ops[turn.operation.id].what == Stored(turn.operation.what)
  {
  }

  lemma CaptureInserted(s: Store, session: string, row: Session, turn: NewTurn)
    requires InsertTurn(s, session, row, turn).result.Ok?
    ensures
      var r := InsertTurn(s, session, row, turn);
      && r.result.value == IndexedTurnRecord(session, row.next, turn.operation.id, turn.sourceId, turn.turnHash,
                                             None, true)
      && turn.operation.id in r.store.ops && r.store.ops[turn.operation.id].what == Stored(turn.operation.what)
  {
  }

  /**
   What a capture holds: the turn's two texts under their roles and the number that names it, under ids
   derived from agent, session, slot, number and texts; it waits for nothing.
   */
  lemma CaptureContents(s: Store, ctx: Context, session: string, text: TurnText, turnNumber: Option<int>)
    requires CaptureTurn(s, ctx, session, text, turnNumber).result.Ok?
    ensures
      var r := CaptureTurn(s, ctx, session, text, turnNumber);
      var record := r.result.value;
      var number := if turnNumber.Some? then turnNumber.value else record.sequence;
      && number >= 0 && record.session == session && record.sequence == NextSlot(s, session).sequence
      && record.operationId in r.store.ops
      && CaptureHolds(ctx, session, if session in s.sessions then s.sessions[session].parent else "", text,
                      record, number, if turnNumber.Some? then "hermes" else "local-sequence-fallback",
                      r.store.ops[record.operationId].what)
  {
    var parent := ParentOf(s, session);
    var row := Touched(s, session, parent);
    var made := CaptureFactory(ctx, session, parent, text, turnNumber)(row.next).value;
    CaptureInserted(s, session, row, made);
    var record := CaptureTurn(s, ctx, session, text, turnNumber).result.value;
    var number := if turnNumber.Some? then turnNumber.value else record.sequence;
    var d, e := Decimal(record.sequence), Decimal(number);
    JoinFive(ctx.agent, session, d, e, record.turnHash, NUL);
    JoinSource(Quote(ctx.agent), Quote(session), d, e, Take(record.turnHash, 16));
    PostIsUpper();
  }

  /** A negative turn number, or a session without an id, is refused and changes nothing. */
  lemma CaptureRefused(s: Store, ctx: Context, session: string, text: TurnText, turnNumber: Option<int>)
    requires session == "" || (turnNumber.Some? && turnNumber.value < 0)
    ensures CaptureTurn(s, ctx, session, text, turnNumber) == Tx(s, Err(InvalidArgument))
  {
  }

  /** The stored mutation of a captured turn, spelled out. */
  ghost predicate CaptureHolds(ctx: Context, session: string, parent: string, text: TurnText,
                               record: IndexedTurnRecord, number: nat, numberSource: string, what: Mutation)
  {
    var id, key := record.operationId, "hermes-turn-" + record.operationId;
    var d, e := Decimal(record.sequence), Decimal(number);
    && record.turnHash == ctx.sha(text.user + [NUL] + text.assistant)
    && id == ctx.sha(ctx.agent + [NUL] + (session + [NUL] + d + [NUL] + e + [NUL] + record.turnHash))
    && record.sourceId == "hermes" + [':'] + ("turn" + [':'] + (Quote(ctx.agent) + [':'] + (Quote(session) + [':']
                          + (d + [':'] + (e + [':'] + Take(record.turnHash, 16))))))
    && what == Mutation(
         None, "raw_capture", "/api/memory/raw",
         RawMemory("Hermes turn " + session + "/" + e,
                   "[User]\n" + text.user + "\n\n[Assistant]\n" + text.assistant, record.sourceId,
                   ctx.describe(session, parent, TurnIdentity(id, record.sourceId, key, record.turnHash,
                                                              record.sequence, number, numberSource))),
         key, "POST")
  }

  /** The captured text holds both messages whole, the user's first. */
  lemma CaptureIsVerbatim(user: string, assistant: string)
    ensures StartsWith(CanonicalSource(user, assistant), "[User]\n" + user)
    ensures EndsWith(CanonicalSource(user, assistant), "[Assistant]\n" + assistant)
  {
    var text, suffix := CanonicalSource(user, assistant), "[Assistant]\n" + assistant;
    assert text == ("[User]\n" + user) + ("\n\n" + suffix);
    assert text == ("[User]\n" + user + "\n\n") + suffix;
  }

  /** Captures of one agent in different sessions, or under different numbers, never collide. */
  lemma CapturesNeverCollide(s: Store, t: Store, ctx: Context, session: string, text: TurnText, n: Option<int>,
                             session': string, text': TurnText, n': Option<int>)
    requires Ideal(ctx.sha) && IsBytes(ctx.agent) && Lacks(ctx.agent, NUL)
    requires IsBytes(session) && IsBytes(session')
    requires CaptureTurn(s, ctx, session, text, n).result.Ok? && CaptureTurn(t, ctx, session', text', n').result.Ok?
    ensures
      var a := CaptureTurn(s, ctx, session, text, n).result.value;
      var b := CaptureTurn(t, ctx, session', text', n').result.value;
      a.operationId == b.operationId || a.sourceId == b.sourceId ==>
        session == session' && a.sequence == b.sequence
  {
    CaptureIdentity(s, ctx, session, text, n);
    CaptureIdentity(t, ctx, session', text', n');
    TurnIdentitiesDistinct(ctx.sha, ctx.agent, session, CaptureTurn(s, ctx, session, text, n).result.value.sequence,
                           n, text.user, text.assistant, ctx.agent, session',
                           CaptureTurn(t, ctx, session', text', n').result.value.sequence,
                           n', text'.user, text'.assistant);
  }

  lemma CaptureKeeps(s: Store, ctx: Context, session: string, text: TurnText, turnNumber: Option<int>)
    requires Inv(s)
    ensures
      var t := CaptureTurn(s, ctx, session, text, turnNumber).store;
      Inv(t) && Evolves(s, t)
  {
    EnqueueTurnKeeps(s, session, ParentOf(s, session),
                     CaptureFactory(ctx, session, ParentOf(s, session), text, turnNumber));
  }

  /** A captured turn becomes the last of its session's index, and nothing else in it changes. */
  lemma AppendedIsLast(s: Store, t: Store, session: string, record: IndexedTurnRecord)
    requires IndexInv(s) && TurnAppended(s, t, session, record)
    ensures IndexedTurns(t, session) == IndexedTurns(s, session) + [record]
  {
    var slot := NextSlot(s, session);
    forall n: nat | n < slot.sequence
      ensures Slot(session, n) in s.turns <==> Slot(session, n) in t.turns
      ensures Slot(session, n) in s.turns ==>
                RecordAt(t, Slot(session, n)) == RecordAt(s, Slot(session, n))
    {
      assert Slot(session, n) != slot;
    }
    TurnsBelowFrame(s, t, session, slot.sequence);
    if session !in s.sessions {
      assert Slot(session, 0) in s.turns ==> TurnOk(s, Slot(session, 0));
      assert TurnsBelow(s, session, 0) == [] && TurnsBelow(s, session, 1) == [];
    }
  }

  lemma {:induction false} CaptureAllKeeps(s: Store, ctx: Context, session: string, texts: seq<TurnText>)
    requires Inv(s)
    ensures
      var t := CaptureAll(s, ctx, session, texts).store;
      Inv(t) && Evolves(s, t)
    decreases |texts|
  {
    if texts == [] {
      EvolvesReflexive(s);
    } else {
      var front, last := texts[..|texts| - 1], texts[|texts| - 1];
      CaptureAllKeeps(s, ctx, session, front);
      var m := CaptureAll(s, ctx, session, front).store;
      CaptureKeeps(m, ctx, session, last, None);
      EvolvesTransitive(s, m, CaptureTurn(m, ctx, session, last, None).store);
    }
  }

  ghost function IndexCounts(s: Store, session: string): multiset<string> {
    multiset(RecordHashes(IndexedTurns(s, session)))
  }

  ghost function TextCounts(ctx: Context, texts: seq<TurnText>): multiset<string> {
    multiset(TextHashes(ctx, texts))
  }

  lemma CaptureAllLast(s: Store, ctx: Context, session: string, texts: seq<TurnText>)
    requires texts != [] && CaptureAll(s, ctx, session, texts).result.Ok?
    ensures
      var m := CaptureAll(s, ctx, session, texts[..|texts| - 1]);
      var r := CaptureTurn(m.store, ctx, session, texts[|texts| - 1], None);
      && m.result.Ok? && r.result.Ok?
      && CaptureAll(s, ctx, session, texts).store == r.store
  {
  }

  /** The texts are indexed in addition to what was indexed before. */
  ghost predicate AddedTo(s: Store, t: Store, ctx: Context, session: string, texts: seq<TurnText>, h: string) {
    IndexCounts(t, session)[h] == IndexCounts(s, session)[h] + Occurrences(ctx, texts, |texts|, h)
  }

  lemma {:induction false} CaptureAllAppends(s: Store, ctx: Context, session: string, texts: seq<TurnText>, h: string)
    requires Inv(s) && CaptureAll(s, ctx, session, texts).result.Ok?
    ensures AddedTo(s, CaptureAll(s, ctx, session, texts).store, ctx, session, texts, h)
    decreases |texts|
  {
    if texts == [] {
      NothingAdded(s, ctx, session, h);
    } else {
      CaptureAllLast(s, ctx, session, texts);
      CaptureAllAppends(s, ctx, session, texts[..|texts| - 1], h);
      CaptureAllNext(s, ctx, session, texts, h);
    }
  }

  lemma NothingAdded(s: Store, ctx: Context, session: string, h: string)
    ensures AddedTo(s, CaptureAll(s, ctx, session, []).store, ctx, session, [], h)
  {
  }

  lemma CaptureAllNext(s: Store, ctx: Context, session: string, texts: seq<TurnText>, h: string)
    requires Inv(s) && texts != [] && CaptureAll(s, ctx, session, texts).result.Ok?
    requires AddedTo(s, CaptureAll(s, ctx, session, texts[..|texts| - 1]).store, ctx, session,
                     texts[..|texts| - 1], h)
    ensures AddedTo(s, CaptureAll(s, ctx, session, texts).store, ctx, session, texts, h)
  {
    CaptureAllLast(s, ctx, session, texts);
    CaptureAllKeeps(s, ctx, session, texts[..|texts| - 1]);
    CaptureOneMore(s, CaptureAll(s, ctx, session, texts[..|texts| - 1]).store, ctx, session, texts, h);
  }

  lemma CaptureOneMore(s: Store, m: Store, ctx: Context, session: string, texts: seq<TurnText>, h: string)
    requires texts != [] && IndexInv(m)
    requires CaptureTurn(m, ctx, session, texts[|texts| - 1], None).result.Ok?
    requires AddedTo(s, m, ctx, session, texts[..|texts| - 1], h)
    ensures AddedTo(s, CaptureTurn(m, ctx, session, texts[|texts| - 1], None).store, ctx, session, texts, h)
  {
    var last := texts[|texts| - 1];
    CaptureCounts(m, ctx, session, last, None, h);
    OneMoreOccurrence(ctx, texts, h);
  }

  lemma OneMoreOccurrence(ctx: Context, texts: seq<TurnText>, h: string)
    requires texts != []
    ensures
      var front := texts[..|texts| - 1];
      Occurrences(ctx, texts, |texts|, h)
      == Occurrences(ctx, front, |front|, h) + if HashOf(ctx, texts[|texts| - 1]) == h then 1 else 0
  {
    var front, last := texts[..|texts| - 1], texts[|texts| - 1];
    assert texts == front + [last];
    OccurrencesInFront(ctx, front, last, |front|, h);
  }

  lemma TextHashesSnoc(ctx: Context, front: seq<TurnText>, last: TurnText)
    ensures TextCounts(ctx, front + [last]) == TextCounts(ctx, front) + multiset{HashOf(ctx, last)}
  {
    assert TextHashes(ctx, front + [last]) == TextHashes(ctx, front) + [HashOf(ctx, last)];
  }

  lemma RecordHashesSnoc(front: seq<IndexedTurnRecord>, last: IndexedTurnRecord)
    ensures multiset(RecordHashes(front + [last])) == multiset(RecordHashes(front)) + multiset{last.turnHash}
  {
    assert RecordHashes(front + [last]) == RecordHashes(front) + [last.turnHash];
  }

  lemma CaptureCounts(s: Store, ctx: Context, session: string, last: TurnText, turnNumber: Option<int>, h: string)
    requires IndexInv(s)
    ensures
      var r := CaptureTurn(s, ctx, session, last, turnNumber);
      r.result.Ok? ==>
        IndexCounts(r.store, session)[h]
        == IndexCounts(s, session)[h] + if HashOf(ctx, last) == h then 1 else 0
  {
    var r := CaptureTurn(s, ctx, session, last, turnNumber);
    if r.result.Ok? {
      CaptureExact(s, ctx, session, last, turnNumber);
      AppendedIsLast(s, r.store, session, r.result.value);
      RecordHashesSnoc(IndexedTurns(s, session), r.result.value);
    }
  }

  function Max(a: nat, b: nat): nat { if a < b then b else a }

  function Min(a: nat, b: nat): nat { if a < b then a else b }

  lemma {:induction false} OccurrencesCounted(ctx: Context, texts: seq<TurnText>, n: nat, h: string)
    requires n <= |texts|
    ensures Occurrences(ctx, texts, n, h) == multiset(TextHashes(ctx, texts)[..n])[h]
  {
    if n > 0 {
      OccurrencesCounted(ctx, texts, n - 1, h);
      assert TextHashes(ctx, texts)[..n] == TextHashes(ctx, texts)[..n - 1] + [HashOf(ctx, texts[n - 1])];
    }
  }

  lemma AllCounted(ctx: Context, texts: seq<TurnText>, h: string)
    ensures Occurrences(ctx, texts, |texts|, h) == TextCounts(ctx, texts)[h]
  {
    OccurrencesCounted(ctx, texts, |texts|, h);
    assert TextHashes(ctx, texts)[..|texts|] == TextHashes(ctx, texts);
  }

  lemma {:induction false} OccurrencesInFront(ctx: Context, texts: seq<TurnText>, last: TurnText, n: nat,
                                              h: string)
    requires n <= |texts|
    ensures Occurrences(ctx, texts + [last], n, h) == Occurrences(ctx, texts, n, h)
  {
    if n > 0 {
      OccurrencesInFront(ctx, texts, last, n - 1, h);
    }
  }

  /** Per hash, the missing turns are the transcript's surplus over the index. */
  lemma {:induction false} MissingIsSurplus(ctx: Context, counts: multiset<string>, prior: seq<TurnText>,
                                            n: nat, h: string)
    requires n <= |prior|
    ensures
      var missing := Missing(ctx, counts, prior, n);
      counts[h] + Occurrences(ctx, missing, |missing|, h) == Max(counts[h], Occurrences(ctx, prior, n, h))
  {
    if n > 0 {
      MissingIsSurplus(ctx, counts, prior, n - 1, h);
      var front := Missing(ctx, counts, prior, n - 1);
      OccurrencesInFront(ctx, front, prior[n - 1], |front|, h);
      assert front + [] == front;
    }
  }

  /** After the back-fill, each hash is indexed as often as before or as the transcript has it, if more. */
  lemma BackfillCounts(s: Store, ctx: Context, session: string, messages: seq<Message>,
                          current: TurnText, h: string)
    requires Inv(s)
    ensures
      var r := Backfill(s, ctx, session, messages, current);
      && Inv(r.store) && Evolves(s, r.store)
      && (r.result.Ok? ==>
            IndexCounts(r.store, session)[h]
            == Max(IndexCounts(s, session)[h], TextCounts(ctx, PriorTurns(messages, current))[h]))
  {
    var prior := PriorTurns(messages, current);
    var missing := Missing(ctx, IndexCounts(s, session), prior, |prior|);
    CaptureAllKeeps(s, ctx, session, missing);
    if CaptureAll(s, ctx, session, missing).result.Ok? {
      CaptureAllAppends(s, ctx, session, missing, h);
      SurplusFills(ctx, IndexCounts(s, session), prior, h);
    }
  }

  lemma SurplusFills(ctx: Context, counts: multiset<string>, prior: seq<TurnText>, h: string)
    ensures
      var missing := Missing(ctx, counts, prior, |prior|);
      counts[h] + Occurrences(ctx, missing, |missing|, h) == Max(counts[h], TextCounts(ctx, prior)[h])
  {
    MissingIsSurplus(ctx, counts, prior, |prior|, h);
    AllCounted(ctx, prior, h);
  }

  /** ... with the prior turns described. */
  lemma BackfillIsMaximum(s: Store, ctx: Context, session: string, messages: seq<Message>,
                          current: TurnText, front: seq<TurnText>, h: string)
    requires Inv(s) && IsFront(messages, current, front)
    requires Backfill(s, ctx, session, messages, current).result.Ok?
    ensures
      var t := Backfill(s, ctx, session, messages, current).store;
      IndexCounts(t, session)[h] == Max(IndexCounts(s, session)[h], TextCounts(ctx, front)[h])
  {
    FrontIsPrior(messages, current, front);
    BackfillCounts(s, ctx, session, messages, current, h);
  }

  // ---------------------------------------------------------------- enqueueing the corrections

  /** The operation is in one of the tables with this very mutation. */
  ghost predicate Accepted(s: Store, op: NewOperation) {
    Known(s, op.id) && IdentityOf(s, op.id) == Stored(op.what)
  }

  lemma AcceptedStays(s: Store, t: Store, op: NewOperation)
    requires Inv(t) && OpsEvolve(s, t) && Accepted(s, op)
    ensures Accepted(t, op)
  {
    if op.id in s.ops {
      assert RowKept(s.ops[op.id], op.id, t);
    }
    assert op.id in t.ops ==> RowOk(t, op.id, t.ops[op.id]);
  }

  lemma EnqueueKeeps(s: Store, op: NewOperation)
    requires Inv(s)
    ensures
      var r := Enqueue(s, op);
      && Inv(r.store) && Evolves(s, r.store)
      && r.store.turns == s.turns && r.store.sessions == s.sessions
      && (r.result.Ok? ==> Accepted(r.store, op) && ValidOperation(op))
      && (Known(s, op.id) ==> r.store == s)
  {
    var r := Enqueue(s, op);
    if r.store != s {
      InsertKeeps(s, op, r.store);
      SameIndexKeeps(s, r.store);
    } else {
      EvolvesReflexive(s);
    }
  }

  ghost predicate AllAccepted(s: Store, ops: seq<NewOperation>) {
    forall i | 0 <= i < |ops| :: Accepted(s, ops[i]) && ValidOperation(ops[i])
  }

  lemma AllAcceptedStays(s: Store, t: Store, ops: seq<NewOperation>)
    requires Inv(t) && OpsEvolve(s, t) && AllAccepted(s, ops)
    ensures AllAccepted(t, ops)
  {
    forall i | 0 <= i < |ops| ensures Accepted(t, ops[i]) && ValidOperation(ops[i]) {
      AcceptedStays(s, t, ops[i]);
    }
  }

  lemma {:induction false} EnqueueAllKeeps(s: Store, ops: seq<NewOperation>)
    requires Inv(s)
    ensures
      var r := EnqueueAll(s, ops);
      && Inv(r.store) && Evolves(s, r.store)
      && r.store.turns == s.turns && r.store.sessions == s.sessions
      && (r.result.Ok? ==> AllAccepted(r.store, ops))
    decreases |ops|
  {
    if ops == [] {
      EvolvesReflexive(s);
    } else {
      EnqueueAllKeeps(s, ops[..|ops| - 1]);
      var m := EnqueueAll(s, ops[..|ops| - 1]);
      if m.result.Ok? {
        EnqueueNext(s, m.store, ops);
      }
    }
  }

  lemma EnqueueNext(s: Store, m: Store, ops: seq<NewOperation>)
    requires Inv(m) && Evolves(s, m) && ops != [] && AllAccepted(m, ops[..|ops| - 1])
    ensures
      var r := Enqueue(m, ops[|ops| - 1]);
      && Inv(r.store) && Evolves(s, r.store)
      && r.store.turns == m.turns && r.store.sessions == m.sessions
      && (r.result.Ok? ==> AllAccepted(r.store, ops))
  {
    var front, last := ops[..|ops| - 1], ops[|ops| - 1];
    EnqueueKeeps(m, last);
    var t := Enqueue(m, last).store;
    EvolvesTransitive(s, m, t);
    AllAcceptedStays(m, t, front);
    LastAccepted(t, ops);
  }

  lemma LastAccepted(s: Store, ops: seq<NewOperation>)
    requires ops != [] && AllAccepted(s, ops[..|ops| - 1])
    ensures Accepted(s, ops[|ops| - 1]) && ValidOperation(ops[|ops| - 1]) ==> AllAccepted(s, ops)
  {
    var front := ops[..|ops| - 1];
    assert forall i | 0 <= i < |front| :: front[i] == ops[i];
  }

  // ---------------------------------------------------------------- the index is already sorted

  /** Records of one session, in strictly ascending sequence below a bound, as the index has them. */
  ghost predicate ListsIndex(s: Store, session: string, bound: nat, ts: seq<IndexedTurnRecord>) {
    && (forall i | 0 <= i < |ts| :: ts[i].sequence < bound)
    && (forall i, j | 0 <= i < j < |ts| :: ts[i].sequence < ts[j].sequence)
    && (forall i | 0 <= i < |ts| ::
          Slot(session, ts[i].sequence) in s.turns
          && ts[i] == RecordAt(s, Slot(session, ts[i].sequence)))
  }

  lemma {:induction false} TurnsBelowAscend(s: Store, session: string, bound: nat)
    ensures ListsIndex(s, session, bound, TurnsBelow(s, session, bound))
  {
    if bound > 0 {
      TurnsBelowAscend(s, session, bound - 1);
      var front, slot := TurnsBelow(s, session, bound - 1), Slot(session, bound - 1);
      var ts := TurnsBelow(s, session, bound);
      if slot in s.turns {
        assert ts == front + [RecordAt(s, slot)];
      } else {
        assert ts == front + [];
        assert front + [] == front;
      }
      assert ListsIndex(s, session, bound, ts);
    }
  }

  lemma {:induction false} SortOfSorted(ts: seq<IndexedTurn>)
    requires Ascending(ts)
    ensures SortBySequence(ts) == ts
  {
    if ts != [] {
      var front, last := ts[..|ts| - 1], ts[|ts| - 1];
      assert Ascending(front);
      SortOfSorted(front);
      assert front != [] ==> front[|front| - 1].localSequence <= last.localSequence;
      assert InsertBySequence(last, front) == front + [last];
      assert ts == front + [last];
    }
  }

  lemma IndexIsSorted(s: Store, session: string)
    ensures
      var index := ToIndexed(IndexedTurns(s, session));
      SortBySequence(index) == index
  {
    if session in s.sessions {
      TurnsBelowAscend(s, session, s.sessions[session].next);
      assert ListsIndex(s, session, s.sessions[session].next, IndexedTurns(s, session));
    }
    SortOfSorted(ToIndexed(IndexedTurns(s, session)));
  }

  // ---------------------------------------------------------------- the multiset law

  /** Where the plan of this reconciliation is made: the index after the back-fill. */
  function PlannedOver(s: Store, ctx: Context, session: string, messages: seq<Message>, current: TurnText)
    : seq<IndexedTurn>
  {
    ToIndexed(IndexedTurns(Backfill(s, ctx, session, messages, current).store, session))
  }

  function Uncorrected(s: Store, ctx: Context, session: string, messages: seq<Message>, current: TurnText)
    : seq<IndexedTurn>
  {
    var index := PlannedOver(s, ctx, session, messages, current);
    Kept(index, multiset(Fingerprints(ctx, messages)), |index|)
  }

  function Corrected(s: Store, ctx: Context, session: string, messages: seq<Message>, current: TurnText)
    : seq<IndexedTurn>
  {
    var index := PlannedOver(s, ctx, session, messages, current);
    Stale(index, multiset(Fingerprints(ctx, messages)), |index|)
  }

  /**
   What a reconciliation that returns has done: per hash, the indexed turns left uncorrected number
   min(max(indexed, prior), transcript).
   */
  lemma MultisetLaw(s: Store, ctx: Context, session: string, messages: seq<Message>, current: TurnText,
                    front: seq<TurnText>, h: string)
    requires Inv(s) && ReconcileSession(s, ctx, session, messages, current).result.Ok?
    requires IsFront(messages, current, front)
    ensures
      var indexed, prior := IndexCounts(s, session), TextCounts(ctx, front);
      var transcript := TextCounts(ctx, Read(messages).turns);
      var left := multiset(Hashes(Uncorrected(s, ctx, session, messages, current)));
      && left[h] == Min(Max(indexed[h], prior[h]), transcript[h])
      && prior[h] <= left[h] <= transcript[h]
      && (front == Read(messages).turns ==> left[h] == transcript[h])
  {
    FrontIsPrior(messages, current, front);
    BackfillCounts(s, ctx, session, messages, current, h);
    var m := Backfill(s, ctx, session, messages, current).store;
    var index := PlannedOver(s, ctx, session, messages, current);
    IndexIsSorted(m, session);
    PlanSplits(index, multiset(Fingerprints(ctx, messages)));
    assert Hashes(index) == RecordHashes(IndexedTurns(m, session));
    PriorWithin(ctx, messages, current, h);
  }

  /** ... and every stale turn has its correction in the outbox, and the session is settled. */
  lemma CorrectionsAccepted(s: Store, ctx: Context, session: string, messages: seq<Message>,
                            current: TurnText)
    requires Inv(s) && ReconcileSession(s, ctx, session, messages, current).result.Ok?
    ensures
      var t := ReconcileSession(s, ctx, session, messages, current).store;
      var stale := Corrected(s, ctx, session, messages, current);
      && Inv(t) && Evolves(s, t) && session in t.sessions && !t.sessions[session].reconcile
      && forall i | 0 <= i < |stale| :: Accepted(t, CorrectionOp(ctx, Intent(stale[i])))
  {
    BackfillCounts(s, ctx, session, messages, current, "");
    FirstRunAccepted(s, ctx, session, messages, current);
    var m := Backfill(s, ctx, session, messages, current).store;
    var stale := Corrected(s, ctx, session, messages, current);
    var ops := Corrections(m, ctx, session, messages);
    IndexIsSorted(m, session);
    EnqueueAllKeeps(m, ops);
    var c := EnqueueAll(m, ops).store;
    MarkKeeps(c, session, "", false);
    var t := ReconcileSession(s, ctx, session, messages, current).store;
    EvolvesTransitive(m, c, t);
    EvolvesTransitive(s, m, t);
    forall i | 0 <= i < |stale| ensures Accepted(t, CorrectionOp(ctx, Intent(stale[i]))) {
      assert ops[i] == CorrectionOp(ctx, Intent(stale[i]));
      assert Accepted(t, ops[i]);
    }
  }

  /**
   What the correction of a stale turn holds, spelled out: it marks the turn's source stale at the
   revision on record, waiting for the turn itself if that is still queued.
   */
  ghost predicate CorrectionHolds(ctx: Context, turn: IndexedTurn, id: Id, what: Mutation) {
    && id == ctx.sha(ctx.agent + [NUL] + ("rewind-stale-" + turn.operationId))
    && what == Mutation(
         if turn.queued then Some(turn.operationId) else None, "rewind_correction",
         "/api/memory/inspect/" + Quote(turn.sourceId) + "/corrections",
         Correction(CorrectionRequest("mark_stale", "hermes_session_rewind", None, None, None, turn.revision,
                                      map["provider_operation_id" := id])),
         "hermes-correction-" + id, "POST")
  }

  lemma CorrectionContents(s: Store, ctx: Context, session: string, messages: seq<Message>, current: TurnText,
                           i: nat) returns (id: Id)
    requires Inv(s) && ReconcileSession(s, ctx, session, messages, current).result.Ok?
    requires i < |Corrected(s, ctx, session, messages, current)|
    ensures
      var t := ReconcileSession(s, ctx, session, messages, current).store;
      Known(t, id) && CorrectionHolds(ctx, Corrected(s, ctx, session, messages, current)[i], id, IdentityOf(t, id))
  {
    CorrectionsAccepted(s, ctx, session, messages, current);
    var turn := Corrected(s, ctx, session, messages, current)[i];
    id := CorrectionOp(ctx, Intent(turn)).id;
    CorrectionSpelled(ctx, turn);
    assert Accepted(ReconcileSession(s, ctx, session, messages, current).store, CorrectionOp(ctx, Intent(turn)));
  }

  lemma CorrectionSpelled(ctx: Context, turn: IndexedTurn)
    ensures
      var op := CorrectionOp(ctx, Intent(turn));
      CorrectionHolds(ctx, turn, op.id, Stored(op.what))
  {
    JoinOfTwo(ctx.agent, "rewind-stale-" + turn.operationId, NUL);
    PostIsUpper();
  }

  lemma JoinOfTwo(a: string, b: string, c: char)
    ensures Join([a, b], c) == a + [c] + b
  {
    assert [a, b][1..] == [b];
  }

  /** Per hash, the transcript has its prior turns and at most the current one besides. */
  lemma PriorWithin(ctx: Context, messages: seq<Message>, current: TurnText, h: string)
    ensures
      var prior, turns := TextCounts(ctx, PriorTurns(messages, current)), TextCounts(ctx, Read(messages).turns);
      prior[h] <= turns[h] <= prior[h] + if HashOf(ctx, current) == h then 1 else 0
  {
    var turns, prior := Read(messages).turns, PriorTurns(messages, current);
    if prior != turns {
      assert turns == prior + [current];
      OneMoreText(ctx, prior, current, h);
    }
  }

  lemma OneMoreText(ctx: Context, front: seq<TurnText>, last: TurnText, h: string)
    ensures TextCounts(ctx, front + [last])[h]
         == TextCounts(ctx, front)[h] + if HashOf(ctx, last) == h then 1 else 0
  {
    TextHashesSnoc(ctx, front, last);
  }

  lemma FirstRunAccepted(s: Store, ctx: Context, session: string, messages: seq<Message>, current: TurnText)
    requires Inv(s) && ReconcileSession(s, ctx, session, messages, current).result.Ok?
    ensures
      var t := ReconcileSession(s, ctx, session, messages, current).store;
      session != ""
      && AllAccepted(t, Corrections(Backfill(s, ctx, session, messages, current).store, ctx, session, messages))
  {
    BackfillCounts(s, ctx, session, messages, current, "");
    var m := Backfill(s, ctx, session, messages, current).store;
    var ops := Corrections(m, ctx, session, messages);
    EnqueueAllKeeps(m, ops);
    var c := EnqueueAll(m, ops).store;
    MarkKeeps(c, session, "", false);
    AllAcceptedStays(c, ReconcileSession(s, ctx, session, messages, current).store, ops);
  }
}
