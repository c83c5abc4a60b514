/** What callers may rely on, column by column: who is claimed, until when, and what is read back. */
module OutboxContracts {
  import opened Wrappers
  import opened Ordering
  import opened Requests
  import opened Outbox
  import opened OutboxInvariant
  import opened OutboxRuns

  // ---------------------------------------------------------------- who is claimed

  /** Pending or to be recovered or revised, untouched since the cutoff, with no live lease, and not waiting. */
  ghost predicate Due(s: Store, id: Id, cutoff: nat) {
    && id in s.ops && s.ops[id].state in {Pending, PendingRecovery, ReconcileRevision}
    && s.ops[id].updatedAt < cutoff
    && (s.ops[id].claim.Some? ==> s.ops[id].claim.value.leaseEnds <= s.clock)
    && (s.ops[id].what.dependsOn.Some? ==>
          var d := s.ops[id].what.dependsOn.value;
          d in s.history && s.history[d].outcome in {Succeeded, Replayed})
  }

  ghost predicate ClaimedIn(claims: seq<ClaimedOperation>, id: Id) {
    exists i :: 0 <= i < |claims| && claims[i].id == id
  }

  /** A claim handed out is of a due row, says what the row said, and nobody finds the row due afterwards. */
  ghost predicate HandedOut(s: Store, t: Store, c: ClaimedOperation, worker: string, lease: nat, cutoff: nat) {
    && Due(s, c.id, cutoff) && ClaimSays(s.ops[c.id], c, worker, s.clock + lease)
    && forall limit :: !Due(t, c.id, limit)
  }

  lemma ClaimIsDue(s: Store, t: Store, c: ClaimedOperation, id: Id, token: nat, worker: string, lease: nat, cutoff: nat)
    requires Claimable(s, id, cutoff) && lease > 0 && t.clock == s.clock
    requires ClaimIssued(s, c, id, token, worker, lease) && ClaimedAt(s, t, id, token, worker, lease)
    ensures c.id == id && HandedOut(s, t, c, worker, lease, cutoff)
  {
  }

  lemma DueIsClaimable(s: Store, id: Id, cutoff: nat)
    requires Due(s, id, cutoff)
    ensures Claimable(s, id, cutoff)
  {
  }

  /**
   claim_page hands out due rows only, no row twice, and every due row if the page is not full; each
   claim says what the row said, with one attempt more, and its lease runs from now.
   */
  lemma ClaimsExactlyDue(s: Store, worker: string, pageSize: int, lease: Option<int>, cutoff: nat)
    requires worker != "" && pageSize >= 1 && (lease.Some? ==> lease.value > 0)
    ensures
      var r := ClaimPage(s, worker, pageSize, lease, Some(cutoff));
      r.result.Ok? &&
      var claims, duration := r.result.value, if lease.Some? then lease.value else 30_000_000;
      && |claims| <= pageSize
      && (forall i, j | 0 <= i < j < |claims| :: claims[i].id != claims[j].id)
      && (forall i | 0 <= i < |claims| :: HandedOut(s, r.store, claims[i], worker, duration, cutoff))
      && (|claims| < pageSize ==> forall id | Due(s, id, cutoff) :: ClaimedIn(claims, id))
  {
    var r := ClaimPage(s, worker, pageSize, lease, Some(cutoff));
    var ids := ClaimPageExact(s, worker, pageSize, lease, Some(cutoff));
    var duration := if lease.Some? then lease.value else DEFAULT_LEASE;
    PageIsDue(s, r.store, r.result.value, ids, worker, duration, cutoff, pageSize);
    if |ids| < pageSize {
      DueIsInPage(s, r.result.value, ids, worker, duration, cutoff, pageSize);
    }
  }

  lemma PageIsDue(s: Store, t: Store, claims: seq<ClaimedOperation>, ids: seq<Id>, worker: string, lease: nat,
                  cutoff: nat, pageSize: nat)
    requires PageClaimed(s, t, ids, worker, lease) && ClaimsMatch(s, claims, ids, worker, lease)
    requires EarliestClaimable(s, ids, cutoff, pageSize) && lease > 0
    ensures forall i, j | 0 <= i < j < |claims| :: claims[i].id != claims[j].id
    ensures forall i | 0 <= i < |claims| :: HandedOut(s, t, claims[i], worker, lease, cutoff)
  {
    forall i | 0 <= i < |claims| ensures claims[i].id == ids[i] && HandedOut(s, t, claims[i], worker, lease, cutoff) {
      assert ClaimIssued(s, claims[i], ids[i], s.nextToken + i, worker, lease);
      assert ClaimedAt(s, t, ids[i], s.nextToken + i, worker, lease);
      ClaimIsDue(s, t, claims[i], ids[i], s.nextToken + i, worker, lease, cutoff);
    }
  }

  lemma DueIsInPage(s: Store, claims: seq<ClaimedOperation>, ids: seq<Id>, worker: string, lease: nat, cutoff: nat,
                    pageSize: nat)
    requires ClaimsMatch(s, claims, ids, worker, lease)
    requires EarliestClaimable(s, ids, cutoff, pageSize) && |ids| < pageSize
    ensures forall id | Due(s, id, cutoff) :: ClaimedIn(claims, id)
  {
    forall id | Due(s, id, cutoff) ensures ClaimedIn(claims, id) {
      DueIsClaimable(s, id, cutoff);
      var i :| 0 <= i < |ids| && ids[i] == id;
      assert ClaimIssued(s, claims[i], ids[i], s.nextToken + i, worker, lease);
    }
  }

  predicate ClaimSays(row: Row, c: ClaimedOperation, worker: string, leaseEnds: nat) {
    && c.what == row.what && c.state == row.state && c.createdAt == row.createdAt
    && c.attempts == row.attempts + 1 && c.lastStatus == row.lastStatus && c.lastError == row.lastError
    && c.worker == worker && c.leaseEnds == leaseEnds
  }

  /** A renewal that returns keeps everyone else away until the time it returns, and not longer. */
  lemma RenewedUntil(s: Store, id: Id, token: nat, lease: Option<int>, later: nat)
    requires Inv(s) && RenewClaim(s, id, token, lease).result.Ok? && later >= s.clock
    ensures
      var r := RenewClaim(s, id, token, lease);
      var t := r.store.(clock := later);
      && r.result.value == s.clock + (if lease.Some? then lease.value else 30_000_000)
      && Holds(r.store, id, token) && (Due(t, id, later + 1) <==> r.result.value <= later)
  {
    assert RowOk(s, id, s.ops[id]);
  }

  // ---------------------------------------------------------------- sessions

  /** The row of a session after a call that names a parent: a named parent wins, an unnamed one changes nothing. */
  ghost predicate Settled(s: Store, t: Store, session: string, parent: string, next: nat, reconcile: bool) {
    var known := session in s.sessions;
    && session in t.sessions && t.sessions[session].next == next && t.sessions[session].reconcile == reconcile
    && t.sessions[session].parent
       == (if parent != "" then parent else if known then s.sessions[session].parent else "")
    && t.sessions.Keys == s.sessions.Keys + {session}
    && (forall x | x in s.sessions && x != session :: t.sessions[x] == s.sessions[x])
  }

  function NextNumber(s: Store, session: string): nat {
    if session in s.sessions then s.sessions[session].next else 1
  }

  /** A new session starts at number 1 and asks to be reconciled; only mark_session_reconcile says otherwise. */
  function AsksToReconcile(s: Store, session: string): bool {
    if session in s.sessions then s.sessions[session].reconcile else true
  }

  lemma SessionsSettled(s: Store, session: string, parent: string, required: bool)
    ensures
      var reserved, marked := ReserveSequence(s, session, parent),
                              MarkSessionReconcile(s, session, parent, required);
      var n := NextNumber(s, session);
      if session == "" then reserved == Tx(s, Err(InvalidArgument)) && marked == Tx(s, Err(InvalidArgument))
      else
        && reserved.result == Ok(n) && reserved.store == s.(sessions := reserved.store.sessions)
        && Settled(s, reserved.store, session, parent, n + 1, AsksToReconcile(s, session))
        && marked.result == Ok(()) && marked.store == s.(sessions := marked.store.sessions)
        && Settled(s, marked.store, session, parent, n, required)
  {
  }

  // ---------------------------------------------------------------- the turn index

  /**
   A turn indexed by hand: an exact repeat is recognised, another turn at the number conflicts, ids in
   use elsewhere violate the constraints; the next number never falls behind.
   */
  lemma IndexedByHand(s: Store, session: string, sequence: nat, operationId: Id, sourceId: string, turnHash: string)
    requires session != "" && sequence >= 1 && operationId != "" && sourceId != "" && turnHash != ""
    ensures
      var r := IndexTurn(s, session, sequence, operationId, sourceId, turnHash);
      var k := Slot(session, sequence);
      var turn := Turn(operationId, sourceId, turnHash, None);
      && (r.result.Err? ==> r.store == s)
      && (k in s.turns ==> r.result == if s.turns[k] == turn.(revision := s.turns[k].revision) then Ok(false)
                                       else Err(OperationConflict))
      && (k !in s.turns ==> (r.result == Err(IntegrityViolation) <==> exists l :: InUse(s, l, operationId, sourceId)))
      && (k !in s.turns && r.result.Err? ==> r.result == Err(IntegrityViolation))
      && (r.result == Ok(true) ==> k !in s.turns && r.store.turns == s.turns[k := turn])
      && (r.result == Ok(false) ==> r.store.turns == s.turns)
      && (r.result.Ok? ==>
            Settled(s, r.store, session, "", if NextNumber(s, session) < sequence + 1 then sequence + 1
                                             else NextNumber(s, session), AsksToReconcile(s, session)))
  {
    if exists l :: InUse(s, l, operationId, sourceId) {
      var l :| InUse(s, l, operationId, sourceId);
      assert !UniqueTurn(s, operationId, sourceId);
    } else if !UniqueTurn(s, operationId, sourceId) {
      var l :| l in s.turns && (s.turns[l].operationId == operationId || s.turns[l].sourceId == sourceId);
      assert InUse(s, l, operationId, sourceId);
    }
  }

  ghost predicate InUse(s: Store, k: Slot, operationId: Id, sourceId: string) {
    k in s.turns && (s.turns[k].operationId == operationId || s.turns[k].sourceId == sourceId)
  }

  /** The index lists each turn of a session once, in the order of numbers, queued while its operation is. */
  lemma IndexListsTurns(s: Store, session: string)
    requires IndexInv(s)
    ensures
      var records := IndexedTurns(s, session);
      && (forall i | 0 <= i < |records| :: RecordOf(s, session, records[i])) && Rising(records)
      && (forall k | k in s.turns && k.session == session :: Listed(records, k.sequence))
  {
    if session in s.sessions {
      ListsAll(s, session, s.sessions[session].next);
      assert AllRecords(s, session, s.sessions[session].next, IndexedTurns(s, session));
    }
    forall k | k in s.turns && k.session == session ensures Listed(IndexedTurns(s, session), k.sequence) {
      assert TurnOk(s, k) && k == Slot(session, k.sequence);
    }
  }

  ghost predicate RecordOf(s: Store, session: string, r: IndexedTurnRecord) {
    var k := Slot(session, r.sequence);
    && r.session == session && k in s.turns && r.operationId == s.turns[k].operationId
    && r.sourceId == s.turns[k].sourceId && r.turnHash == s.turns[k].turnHash
    && r.revision == s.turns[k].revision && (r.queued <==> s.turns[k].operationId in s.ops)
  }

  ghost predicate Listed(records: seq<IndexedTurnRecord>, sequence: nat) {
    exists i :: 0 <= i < |records| && records[i].sequence == sequence
  }

  ghost predicate AllRecords(s: Store, session: string, bound: nat, records: seq<IndexedTurnRecord>) {
    forall i | 0 <= i < |records| :: RecordOf(s, session, records[i]) && records[i].sequence < bound
  }

  ghost predicate Rising(records: seq<IndexedTurnRecord>) {
    forall i, j | 0 <= i < j < |records| :: records[i].sequence < records[j].sequence
  }

  ghost predicate AllListed(s: Store, session: string, bound: nat, records: seq<IndexedTurnRecord>) {
    forall n: nat | n < bound && Slot(session, n) in s.turns :: Listed(records, n)
  }

  lemma ListedStill(front: seq<IndexedTurnRecord>, more: seq<IndexedTurnRecord>, n: nat)
    requires Listed(front, n)
    ensures Listed(front + more, n)
  {
    var i :| 0 <= i < |front| && front[i].sequence == n;
    assert (front + more)[i].sequence == n;
  }

  lemma {:induction false} ListsAll(s: Store, session: string, bound: nat)
    ensures AllRecords(s, session, bound, TurnsBelow(s, session, bound))
    ensures Rising(TurnsBelow(s, session, bound)) && AllListed(s, session, bound, TurnsBelow(s, session, bound))
  {
    if bound > 0 {
      ListsAll(s, session, bound - 1);
      var front, slot := TurnsBelow(s, session, bound - 1), Slot(session, bound - 1);
      var last := if slot in s.turns then [RecordAt(s, slot)] else [];
      assert TurnsBelow(s, session, bound) == front + last;
      forall n: nat | n < bound && Slot(session, n) in s.turns ensures Listed(front + last, n) {
        if n < bound - 1 {
          ListedStill(front, last, n);
        } else {
          assert (front + last)[|front|].sequence == n;
        }
      }
    }
  }

  /** A recorded revision is read back for its operation, and no other operation's changes. */
  lemma RevisionReadBack(s: Store, id: Id, revision: int, other: Id)
    requires IndexInv(s) && revision >= 1 && HasTurn(s, id)
    ensures
      var t := RecordTurnRevision(s, id, revision).store;
      TurnRevision(t, id) == Some(revision) && (other != id ==> TurnRevision(t, other) == TurnRevision(s, other))
  {
    var t := RecordTurnRevision(s, id, revision).store;
    var k :| IsTurnOf(s, k, id);
    assert IsTurnOf(t, k, id);
    if other != id && HasTurn(s, other) {
      var l :| IsTurnOf(s, l, other);
      assert IsTurnOf(t, l, other);
      OneTurnOf(s, l, other);
    }
    if other != id && HasTurn(t, other) {
      var l :| IsTurnOf(t, l, other);
      assert IsTurnOf(s, l, other);
    }
  }

  lemma OneTurnOf(s: Store, k: Slot, id: Id)
    requires IndexInv(s) && IsTurnOf(s, k, id)
    ensures TurnRevision(s, id) == s.turns[k].revision
  {
  }
}
