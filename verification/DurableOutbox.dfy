/**
 The outbox as the object it is: four tables updated in place, one method per transaction, and the
 flush loop. Each method is tied to the transaction function of the same name.
 */
module DurableOutboxes {
  import opened Wrappers
  import opened Ordering
  import opened Requests
  import opened Outbox
  import opened OutboxInvariant
  import opened Flush

  datatype FlushReport = FlushReport(
    claimed: nat, outcomes: multiset<Action>, remaining: Snapshot, deadlineExhausted: bool)

  class DurableOutbox {
    var operations: map<Id, Row>
    var history: map<Id, Entry>
    var sessions: map<string, Session>
    var turns: map<Slot, Turn>
    var clock: nat
    var nextToken: nat

    function Contents(): Store
      reads this
    {
      Store(operations, history, sessions, turns, clock, nextToken)
    }

    constructor ()
      ensures Contents() == EMPTY && Inv(Contents())
    {
      operations, history, sessions, turns := map[], map[], map[], map[];
      clock, nextToken := 0, 0;
      new;
      assert Contents() == EMPTY;
    }

    /** ROLLBACK to the state read at BEGIN. */
    method Rollback(before: Store)
      modifies this
      ensures Contents() == before
    {
      operations, history, sessions, turns := before.ops, before.history, before.sessions, before.turns;
      clock, nextToken := before.clock, before.nextToken;
    }

    method Tick(duration: nat)
      modifies this`clock
      ensures Contents() == old(Contents()).(clock := old(clock) + duration)
    {
      clock := clock + duration;
    }

    // -------------------------------------------------------------- enqueueing

    method Enqueue(op: NewOperation) returns (r: Result<bool>)
      modifies this`operations
      ensures Tx(Contents(), r) == Outbox.Enqueue(old(Contents()), op)
    {
      if !ValidOperation(op) { return Err(InvalidArgument); }
      if op.id in operations || op.id in history {
        var existing := if op.id in operations then operations[op.id].what else history[op.id].what;
        if existing != Stored(op.what) { return Err(OperationConflict); }
        return Ok(false);
      }
      operations := operations[op.id := NewRow(op.what, clock)];
      return Ok(true);
    }

    /** The upsert that opens a session or touches it. */
    method TouchSession(session: string, parent: string)
      modifies this`sessions
      ensures sessions == old(sessions)[session := Touched(old(Contents()), session, parent)]
    {
      if session in sessions {
        var row := sessions[session];
        if parent != "" { row := row.(parent := parent); }
        sessions := sessions[session := row.(updatedAt := clock)];
      } else {
        sessions := sessions[session := Session(parent, 1, true, clock)];
      }
    }

    method ReserveSequence(session: string, parent: string) returns (r: Result<nat>)
      modifies this`sessions
      ensures Tx(Contents(), r) == Outbox.ReserveSequence(old(Contents()), session, parent)
    {
      if session == "" { return Err(InvalidArgument); }
      TouchSession(session, parent);
      var sequence := sessions[session].next;
      sessions := sessions[session := sessions[session].(next := sequence + 1)];
      return Ok(sequence);
    }

    method EnqueueTurn(session: string, parent: string, factory: nat -> Result<NewTurn>)
      returns (r: Result<IndexedTurnRecord>)
      modifies this
      ensures Tx(Contents(), r) == Outbox.EnqueueTurn(old(Contents()), session, parent, factory)
    {
      if session == "" { return Err(InvalidArgument); }
      var before := Contents();
      TouchSession(session, parent);
      var sequence := sessions[session].next;
      var made := factory(sequence);
      if made.Err? {
        Rollback(before);
        return Err(made.error);
      }
      var turn := made.value;
      var op := turn.operation;
      if !ValidOperation(op) || turn.sourceId == "" || turn.turnHash == "" {
        Rollback(before);
        return Err(InvalidArgument);
      }
      if op.id in operations || op.id in history {
        Rollback(before);
        return Err(OperationConflict);
      }
      operations := operations[op.id := NewRow(op.what, clock)];
      var slot := Slot(session, sequence);
      if slot in turns || !UniqueTurn(before, op.id, turn.sourceId) {
        Rollback(before);
        return Err(IntegrityViolation);
      }
      turns := turns[slot := Turn(op.id, turn.sourceId, turn.turnHash, None)];
      sessions := sessions[session := sessions[session].(next := sequence + 1)];
      return Ok(IndexedTurnRecord(session, sequence, op.id, turn.sourceId, turn.turnHash, None, true));
    }

    method IndexTurn(session: string, sequence: int, operationId: Id, sourceId: string, turnHash: string)
      returns (r: Result<bool>)
      modifies this
      ensures Tx(Contents(), r)
           == Outbox.IndexTurn(old(Contents()), session, sequence, operationId, sourceId, turnHash)
    {
      if session == "" || operationId == "" || sourceId == "" || turnHash == "" || sequence < 1 {
        return Err(InvalidArgument);
      }
      var before := Contents();
      if session in sessions {
        var row := sessions[session];
        if row.next < sequence + 1 { row := row.(next := sequence + 1); }
        sessions := sessions[session := row.(updatedAt := clock)];
      } else {
        sessions := sessions[session := Session("", sequence + 1, true, clock)];
      }
      var slot := Slot(session, sequence);
      if slot in turns {
        var turn := turns[slot];
        if turn.operationId != operationId || turn.sourceId != sourceId || turn.turnHash != turnHash {
          Rollback(before);
          return Err(OperationConflict);
        }
        return Ok(false);
      }
      if !UniqueTurn(before, operationId, sourceId) {
        Rollback(before);
        return Err(IntegrityViolation);
      }
      turns := turns[slot := Turn(operationId, sourceId, turnHash, None)];
      return Ok(true);
    }

    method MarkSessionReconcile(session: string, parent: string, required: bool)
      returns (r: Result<()>)
      modifies this`sessions
      ensures Tx(Contents(), r) == Outbox.MarkSessionReconcile(old(Contents()), session, parent, required)
    {
      if session == "" { return Err(InvalidArgument); }
      TouchSession(session, parent);
      sessions := sessions[session := sessions[session].(reconcile := required)];
      return Ok(());
    }

    method RecordTurnRevision(id: Id, revision: int) returns (r: Result<()>)
      modifies this`turns
      ensures Tx(Contents(), r) == Outbox.RecordTurnRevision(old(Contents()), id, revision)
    {
      if revision < 1 { return Err(InvalidArgument); }
      turns := map k | k in turns ::
        if turns[k].operationId == id then turns[k].(revision := Some(revision)) else turns[k];
      return Ok(());
    }

    method TurnRevision(id: Id) returns (revision: Option<nat>)
      requires IndexInv(Contents())
      ensures revision == Outbox.TurnRevision(Contents(), id)
    {
      var slots := set k | k in turns && turns[k].operationId == id;
      if slots == {} {
        assert forall k :: !IsTurnOf(Contents(), k, id) by {
          assert forall k | k in turns && turns[k].operationId == id :: k in slots;
        }
        return None;
      }
      var k :| k in slots;
      assert IsTurnOf(Contents(), k, id);
      return turns[k].revision;
    }

    // -------------------------------------------------------------- claiming

    /** The guarded UPDATE of one selected row. */
    method ClaimOne(id: Id, worker: string, lease: nat) returns (claimed: bool)
      requires id in operations
      modifies this`operations, this`nextToken
      ensures Contents() == ClaimRow(old(Contents()), id, worker, lease)
      ensures claimed == Free(old(Contents()), id)
    {
      var row := operations[id];
      claimed := row.claim.None? || row.claim.value.leaseEnds <= clock;
      if claimed {
        operations := operations[id := row.(claim := Some(Claim(nextToken, worker, clock + lease)),
                                            attempts := row.attempts + 1, updatedAt := clock)];
      }
      nextToken := nextToken + 1;
    }

    method ClaimPage(worker: string, pageSize: int, lease: Option<int>, cutoff: Option<nat>)
      returns (r: Result<seq<ClaimedOperation>>)
      modifies this
      ensures Tx(Contents(), r) == Outbox.ClaimPage(old(Contents()), worker, pageSize, lease, cutoff)
    {
      var duration := if lease.Some? then lease.value else DEFAULT_LEASE;
      if worker == "" || pageSize < 1 || duration <= 0 { return Err(InvalidArgument); }
      var limit := if cutoff.Some? then cutoff.value else clock + HORIZON;
      var rows := Candidates(Contents(), limit, pageSize);
      var claims := ClaimSelected(rows, worker, duration);
      return Ok(claims);
    }

    /** The loop of claim_page over the rows the SELECT returned. */
    method ClaimSelected(rows: seq<Id>, worker: string, lease: nat) returns (claims: seq<ClaimedOperation>)
      requires forall k | 0 <= k < |rows| :: rows[k] in operations
      modifies this
      ensures (Contents(), claims) == ClaimRows(old(Contents()), rows, worker, lease)
    {
      ghost var s := Contents();
      claims := [];
      var i := 0;
      while i < |rows|
        invariant 0 <= i <= |rows|
        invariant operations.Keys == s.ops.Keys
        invariant (Contents(), claims) == ClaimRows(s, rows[..i], worker, lease)
      {
        ClaimRowsNext(s, rows, i, worker, lease);
        var claim := ClaimFrom(Contents(), rows[i], worker, lease);
        var changed := ClaimOne(rows[i], worker, lease);
        assert claims + [] == claims;
        if changed {
          claims := claims + [claim];
        }
        i := i + 1;
      }
      assert rows[..i] == rows;
    }

    method RenewClaim(id: Id, token: nat, lease: Option<int>) returns (r: Result<nat>)
      modifies this`operations
      ensures Tx(Contents(), r) == Outbox.RenewClaim(old(Contents()), id, token, lease)
    {
      var duration := if lease.Some? then lease.value else DEFAULT_LEASE;
      if duration <= 0 { return Err(InvalidArgument); }
      if !Holds(Contents(), id, token) { return Err(ClaimLost); }
      var row := operations[id];
      var ends := clock + duration;
      operations := operations[id := row.(claim := Some(row.claim.value.(leaseEnds := ends)),
                                          updatedAt := clock)];
      return Ok(ends);
    }

    // -------------------------------------------------------------- finishing

    method ArchiveAndDelete(id: Id, token: nat, outcome: Outcome, result: AttemptResult)
      returns (r: Result<()>)
      modifies this`operations, this`history
      ensures Tx(Contents(), r) == Outbox.Archive(old(Contents()), id, token, outcome, result)
    {
      if !Holds(Contents(), id, token) { return Err(ClaimLost); }
      if id in history { return Err(IntegrityViolation); }
      var row := operations[id];
      history := history[id := Entry(row.what, outcome, row.attempts, clock, None,
                                     result.status, result.error)];
      operations := operations - {id};
      return Ok(());
    }

    method ApplyResult(id: Id, token: nat, result: AttemptResult) returns (r: Result<()>)
      modifies this`operations, this`history
      ensures Tx(Contents(), r) == Outbox.ApplyResult(old(Contents()), id, token, result)
    {
      if result.action.Supersede? { return Ok(()); }
      if result.action.Succeed? {
        r := ArchiveAndDelete(id, token, if result.replayed then Replayed else Succeeded, result);
        return;
      }
      if result.action.DropObsolete? {
        r := ArchiveAndDelete(id, token, Obsolete, result);
        return;
      }
      if !Holds(Contents(), id, token) { return Err(ClaimLost); }
      operations := operations[id := operations[id].(
        state := StateAfter(result.action), updatedAt := clock, lastStatus := result.status,
        lastError := result.error, claim := None)];
      return Ok(());
    }

    method Supersede(id: Id, token: nat, replacement: NewOperation) returns (r: Result<()>)
      modifies this
      ensures Tx(Contents(), r) == Outbox.SupersedeWith(old(Contents()), id, token, replacement)
    {
      if !ValidOperation(replacement) || replacement.id == id { return Err(InvalidArgument); }
      var before := Contents();
      if !Holds(before, id, token) { return Err(ClaimLost); }
      var row := operations[id];
      if replacement.id in operations || replacement.id in history { return Err(OperationConflict); }
      operations := operations[replacement.id := NewRow(replacement.what, clock)];
      if id in history {
        Rollback(before);
        return Err(IntegrityViolation);
      }
      history := history[id := Entry(row.what, Superseded, row.attempts, clock, Some(replacement.id),
                                     row.lastStatus, row.lastError)];
      operations := operations - {id};
      return Ok(());
    }

    method UnblockAuth() returns (changed: nat)
      modifies this`operations
      ensures Tx(Contents(), Ok(changed)) == Outbox.UnblockAuth(old(Contents()))
    {
      changed := |set id | id in operations && operations[id].state.BlockedAuth?|;
      var s := Contents();
      operations := map id | id in operations :: UnblockRow(s, operations[id]);
    }

    method ReleaseUnattempted(claims: seq<ClaimedOperation>)
      modifies this`operations
      ensures Contents() == ReleaseRows(old(Contents()), claims)
    {
      ghost var s := Contents();
      var i := 0;
      while i < |claims|
        invariant 0 <= i <= |claims|
        invariant ReleaseRows(Contents(), claims[i..]) == ReleaseRows(s, claims)
      {
        var c := claims[i];
        assert claims[i..][1..] == claims[i + 1..] && claims[i..][0] == c;
        if Holds(Contents(), c.id, c.token) {
          var row := operations[c.id];
          operations := operations[c.id := row.(attempts := row.attempts - 1, updatedAt := clock,
                                                claim := None)];
        }
        i := i + 1;
      }
      assert claims[i..] == [];
    }

    // -------------------------------------------------------------- what an executor may call

    method Perform(c: Command)
      modifies this
      ensures Contents() == Step(old(Contents()), c)
    {
      match c
      case DoEnqueue(op) => var _ := Enqueue(op);
      case DoReserve(session, parent) => var _ := ReserveSequence(session, parent);
      case DoEnqueueTurn(session, parent, factory) => var _ := EnqueueTurn(session, parent, factory);
      case DoIndexTurn(session, sequence, operationId, sourceId, turnHash) =>
        var _ := IndexTurn(session, sequence, operationId, sourceId, turnHash);
      case DoMark(session, parent, required) => var _ := MarkSessionReconcile(session, parent, required);
      case DoRecordRevision(id, revision) => var _ := RecordTurnRevision(id, revision);
      case DoClaimPage(worker, pageSize, lease, cutoff) =>
        var _ := ClaimPage(worker, pageSize, lease, cutoff);
      case DoRenew(id, token, lease) => var _ := RenewClaim(id, token, lease);
      case DoApply(id, token, result) => var _ := ApplyResult(id, token, result);
      case DoSupersede(id, token, replacement) => var _ := Supersede(id, token, replacement);
      case DoRelease(claims) => ReleaseUnattempted(claims);
      case DoUnblockAuth => var _ := UnblockAuth();
      case DoTick(duration) => Tick(duration);
    }

    method PerformAll(commands: seq<Command>)
      modifies this
      ensures Contents() == Run(old(Contents()), commands)
    {
      ghost var s := Contents();
      var i := 0;
      while i < |commands|
        invariant 0 <= i <= |commands|
        invariant Run(Contents(), commands[i..]) == Run(s, commands)
      {
        assert commands[i..][1..] == commands[i + 1..] && commands[i..][0] == commands[i];
        Perform(commands[i]);
        i := i + 1;
      }
      assert commands[i..] == [];
    }

    // -------------------------------------------------------------- flush

    /** What a flush that ends as `g` returns: a report, or the exception that ended it. */
    ghost predicate Reports(report: Result<FlushReport>, g: Progress) {
      match g.status
      case Failed(e) => report == Err(e)
      case _ =>
        report == Ok(FlushReport(|g.attempts|, g.outcomes, TakeSnapshot(g.store), g.status == DeadlineHit))
    }

    /** The executor's turn and the recording of its result. */
    method Attempt(job: Job, op: ClaimedOperation, ghost at: Progress)
      returns (result: AttemptResult, applied: Result<()>)
      requires at.page != [] && at.page[0] == op && at.store == Contents() && !Late(job, Contents())
      modifies this
      ensures AttemptEnds(at, AttemptStep(job, at), Contents(), result, applied)
    {
      var reaction := job.around.executor(Contents(), op);
      PerformAll(reaction.commands);
      result := ResultOf(reaction.answer);
      applied := ApplyResult(op.id, op.token, result);
    }

    /** The inner loop of flush, over one page of claims. The ghost Progress is the machine's state. */
    method AttemptPage(job: Job, claims: seq<ClaimedOperation>, counted: nat, before: multiset<Action>,
                       ghost from: Progress, ghost end: Progress)
      returns (claimed: nat, outcomes: multiset<Action>, exhausted: bool, failure: Option<Error>,
               ghost at: Progress)
      requires Sound(job, from) && from.status == Running && RunsTo(job, from, end)
      requires AtLoop(Contents(), claims, counted, before, from)
      modifies this
      ensures Sound(job, at) && RunsTo(job, at, end)
      ensures Contents() == at.store && claimed == |at.attempts| && outcomes == at.outcomes
      ensures at.status == match failure
                           case Some(e) => Failed(e)
                           case None => if exhausted then DeadlineHit else Running
      ensures at.status == Running ==> at.page == [] && at.released == from.released
      ensures |Untouched(at.store, job.cutoff)| <= |Untouched(from.store, job.cutoff)|
    {
      claimed, outcomes, exhausted, failure, at := counted, before, false, None, from;
      var index := 0;
      assert claims[0..] == claims;
      while index < |claims|
        invariant 0 <= index <= |claims|
        invariant Sound(job, at) && at.status == Running && at.released == from.released
        invariant RunsTo(job, at, end)
        invariant AtLoop(Contents(), claims[index..], claimed, outcomes, at)
        invariant |Untouched(at.store, job.cutoff)| <= |Untouched(from.store, job.cutoff)|
      {
        RunAttempt(job, at, end);
        assert claims[index..][0] == claims[index] && claims[index..][1..] == claims[index + 1..];
        if Late(job, Contents()) {
          exhausted := true;
          PerformAll(job.around.others(Contents()));
          ReleaseUnattempted(claims[index..]);
          at := AttemptStep(job, at);
          return;
        }
        var result, applied := Attempt(job, claims[index], at);
        claimed, at := claimed + 1, AttemptStep(job, at);
        if applied.Err? {
          failure := Some(applied.error);
          return;
        }
        outcomes := outcomes + multiset{result.action};
        index := index + 1;
      }
    }

    method Flush(worker: string, around: Surroundings, timeout: Option<int>, pageSize: int)
      returns (report: Result<FlushReport>)
      requires Inv(Contents())
      modifies this
      ensures
        if timeout.Some? && timeout.value < 0 then
          report == Err(InvalidArgument) && Contents() == old(Contents())
        else
          var job := Job(worker, pageSize, timeout.Some?, old(clock), around);
          var g := RunFlush(job, Begin(old(Contents())));
          Contents() == g.store && Reports(report, g)
    {
      if timeout.Some? && timeout.value < 0 { return Err(InvalidArgument); }
      var job := Job(worker, pageSize, timeout.Some?, clock, around);
      var claimed, outcomes, exhausted := 0, multiset{}, false;
      ghost var at := Begin(Contents());
      ghost var end := RunFlush(job, at);
      RunsExactly(job, at, end);
      while true
        invariant Sound(job, at) && at.status == Running && RunsTo(job, at, end)
        invariant AtLoop(Contents(), [], claimed, outcomes, at) && !exhausted
        decreases |Untouched(at.store, job.cutoff)|
      {
        RunClaim(job, at, end);
        ghost var next := ClaimStep(job, at);
        if Late(job, Contents()) {
          exhausted := true;
          break;
        }
        PerformAll(around.others(Contents()));
        var page := ClaimPage(worker, pageSize, None, Some(job.cutoff));
        if page.Err? { return Err(page.error); }
        if page.value == [] { break; }
        var failure: Option<Error>;
        claimed, outcomes, exhausted, failure, at :=
          AttemptPage(job, page.value, claimed, outcomes, next, end);
        RunEnded(job, at, end);
        if failure.Some? { return Err(failure.value); }
        if exhausted { break; }
      }
      return Ok(FlushReport(claimed, outcomes, TakeSnapshot(Contents()), exhausted));
    }
  }

  ghost predicate IsEnd(u: Progress, job: Job, f: Progress) {
    Sound(job, f) && u == RunFlush(job, f)
  }

  /** The flush at `f` ends as `end`; the name keeps the run folded. */
  ghost predicate RunsTo(job: Job, f: Progress, end: Progress) {
    forall u | IsEnd(u, job, f) :: u == end
  }

  lemma RunsExactly(job: Job, f: Progress, end: Progress)
    requires Sound(job, f)
    ensures RunsTo(job, f, end) <==> RunFlush(job, f) == end
  {
    assert IsEnd(RunFlush(job, f), job, f);
  }

  /** The loop's locals are what the machine's state says. */
  ghost predicate AtLoop(s: Store, page: seq<ClaimedOperation>, claimed: nat, outcomes: multiset<Action>,
                         at: Progress)
  {
    at.store == s && at.page == page && |at.attempts| == claimed && at.outcomes == outcomes
  }

  /** What one executor call leaves: one attempt more, and a page and a Counter moved on if it applied. */
  ghost predicate AttemptEnds(at: Progress, next: Progress, s: Store, result: AttemptResult,
                              applied: Result<()>)
    requires at.page != []
  {
    && next.store == s && next.attempts == at.attempts + [at.page[0]] && next.released == at.released
    && match applied
       case Err(e) => next.status == Failed(e) && next.outcomes == at.outcomes
       case Ok(_) =>
         && next.status == at.status && next.page == at.page[1..]
         && next.outcomes == at.outcomes + multiset{result.action}
  }

  lemma RunEnded(job: Job, f: Progress, end: Progress)
    requires Sound(job, f) && RunsTo(job, f, end)
    ensures f.status != Running ==> f == end
  {
    RunsExactly(job, f, end);
  }

  /** One turn of the inner loop: the rest of the flush is the flush of what it leaves. */
  lemma RunAttempt(job: Job, f: Progress, end: Progress)
    requires Sound(job, f) && f.status == Running && f.page != [] && RunsTo(job, f, end)
    ensures
      var g := AttemptStep(job, f);
      && Sound(job, g) && RunsTo(job, g, end)
      && |Untouched(g.store, job.cutoff)| <= |Untouched(f.store, job.cutoff)|
  {
    FlushStepKeeps(job, f);
    var g := AttemptStep(job, f);
    UntouchedShrinks(f.store, g.store, job.cutoff);
    SubsetSize(Untouched(g.store, job.cutoff), Untouched(f.store, job.cutoff));
    RunsExactly(job, f, end);
    RunsExactly(job, g, end);
  }

  /** One turn of the outer loop; a page that was claimed is lost to later turns. */
  lemma RunClaim(job: Job, f: Progress, end: Progress)
    requires Sound(job, f) && f.status == Running && f.page == [] && RunsTo(job, f, end)
    ensures
      var g := ClaimStep(job, f);
      && Sound(job, g) && RunsTo(job, g, end)
      && (g.status != Running ==> g == end)
      && (g.status == Running ==>
            |Untouched(g.store, job.cutoff)| < |Untouched(f.store, job.cutoff)|)
  {
    FlushStepKeeps(job, f);
    FlushStepDescends(job, f);
    var g := ClaimStep(job, f);
    assert g == FlushStep(job, f);
    RunsExactly(job, f, end);
    RunsExactly(job, g, end);
    RunEnded(job, g, end);
    ClaimMeasure(job, f);
  }

  lemma ClaimMeasure(job: Job, f: Progress)
    requires Sound(job, f) && f.status == Running && f.page == [] && Smaller(job, ClaimStep(job, f), f)
    ensures
      var g := ClaimStep(job, f);
      g.status == Running ==> |Untouched(g.store, job.cutoff)| < |Untouched(f.store, job.cutoff)|
  {
    if ClaimStep(job, f).status == Running {
      assert ClaimStep(job, f).page != [];
    }
  }

  lemma ClaimRowsNext(s: Store, rows: seq<Id>, i: nat, worker: string, lease: nat)
    requires i < |rows| && forall k | 0 <= k < |rows| :: rows[k] in s.ops
    ensures
      var r := ClaimRows(s, rows[..i], worker, lease);
      rows[i] in r.0.ops
      && ClaimRows(s, rows[..i + 1], worker, lease)
         == (ClaimRow(r.0, rows[i], worker, lease),
             r.1 + if Free(r.0, rows[i]) then [ClaimFrom(r.0, rows[i], worker, lease)] else [])
  {
    var ids := rows[..i + 1];
    assert ids[..|ids| - 1] == rows[..i] && ids[|ids| - 1] == rows[i];
  }
}
