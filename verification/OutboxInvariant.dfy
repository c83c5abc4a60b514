/**
 What every transaction of the outbox keeps (Inv), and how the tables after a run relate to the
 tables before it (Evolves). Evolves is reflexive and transitive, so one lemma per transaction
 gives it for every run of every interleaving of workers.
 */
module OutboxInvariant {
  import opened Wrappers
  import opened Ordering
  import opened Requests
  import opened Outbox

  // ---------------------------------------------------------------- the invariant

  ghost predicate RowOk(s: Store, id: Id, row: Row) {
    && id !in s.history
    && row.createdAt <= row.updatedAt <= s.clock
    && row.attempts >= 0
    && row.what.dependsOn != Some(id)
    && (row.claim.Some? ==>
          && row.claim.value.token < s.nextToken
          && row.attempts >= 1
          && Mutable(row.state)
          && Satisfied(s.history, row.what.dependsOn))
  }

  ghost predicate EntryOk(s: Store, id: Id, e: Entry) {
    && Satisfied(s.history, e.what.dependsOn)
    && (e.outcome.Superseded? <==> e.replacement.Some?)
    && (e.replacement.Some? ==> e.replacement.value != id && Known(s, e.replacement.value))
  }

  ghost predicate TokensDistinct(ops: map<Id, Row>) {
    forall i, j | i in ops && j in ops && ops[i].claim.Some? && ops[j].claim.Some?
                  && ops[i].claim.value.token == ops[j].claim.value.token :: i == j
  }

  ghost predicate ReplacementsDistinct(h: map<Id, Entry>) {
    forall i, j | i in h && j in h && h[i].replacement.Some?
                  && h[i].replacement == h[j].replacement :: i == j
  }

  /** `next` has no cycle inside the given ids: every non-empty set of them has a way out. */
  ghost predicate LeadsOut(h: map<Id, Entry>, c: Id, inside: set<Id>, byReplacement: bool)
    requires c in h
  {
    var next := if byReplacement then h[c].replacement else h[c].what.dependsOn;
    next.None? || next.value !in inside
  }

  ghost predicate WellFounded(h: map<Id, Entry>, byReplacement: bool) {
    forall inside: set<Id> | inside != {} && inside <= h.Keys ::
      exists c :: c in inside && LeadsOut(h, c, inside, byReplacement)
  }

  ghost predicate OpsInv(s: Store) {
    && (forall id | id in s.ops :: RowOk(s, id, s.ops[id]))
    && (forall id | id in s.history :: EntryOk(s, id, s.history[id]))
    && TokensDistinct(s.ops)
    && ReplacementsDistinct(s.history)
    && WellFounded(s.history, true)
    && WellFounded(s.history, false)
  }

  ghost predicate TurnOk(s: Store, k: Slot) {
    k.session in s.sessions && 1 <= k.sequence < s.sessions[k.session].next
  }

  ghost predicate IndexInv(s: Store) {
    && (forall x | x in s.sessions :: x != "" && s.sessions[x].next >= 1)
    && (forall k | k in s.turns :: TurnOk(s, k))
    && (forall k | k in s.turns && s.turns[k].revision.Some? :: s.turns[k].revision.value >= 1)
    && (forall i, j | i in s.turns && j in s.turns
                      && (s.turns[i].operationId == s.turns[j].operationId
                          || s.turns[i].sourceId == s.turns[j].sourceId) :: i == j)
  }

  ghost predicate Inv(s: Store) {
    OpsInv(s) && IndexInv(s)
  }

  // ---------------------------------------------------------------- two states

  /** The columns a claim freezes until its holder or its expiry ends it. */
  ghost predicate SameHold(a: Row, b: Row) {
    && a.claim.Some? && b.claim.Some?
    && a.claim.value.token == b.claim.value.token
    && a.claim.value.worker == b.claim.value.worker
    && a.what == b.what && a.state == b.state && a.attempts == b.attempts
    && a.createdAt == b.createdAt && a.lastStatus == b.lastStatus && a.lastError == b.lastError
  }

  /** An accepted operation stays in exactly one table with its identity, and a dead letter as is. */
  ghost predicate RowKept(row: Row, id: Id, t: Store) {
    if id in t.ops then
      && t.ops[id].what == row.what && t.ops[id].createdAt == row.createdAt
      && (row.state.DeadLetter? ==> t.ops[id] == row)
    else
      id in t.history && t.history[id].what == row.what && !row.state.DeadLetter?
  }

  /** A row either was not touched or carries a time and a claim of the later period. */
  ghost predicate RowComesFrom(s: Store, id: Id, row: Row) {
    && id !in s.history
    && (id !in s.ops ==> row.createdAt >= s.clock)
    && (row.updatedAt >= s.clock || (id in s.ops && s.ops[id] == row))
    && (row.claim.Some? ==>
          row.claim.value.token >= s.nextToken || (id in s.ops && SameHold(s.ops[id], row)))
  }

  /** An operation accepted on its own is never named as a replacement afterwards. */
  ghost predicate EntryComesFrom(s: Store, id: Id, e: Entry) {
    id in s.history || e.replacement.None? || !Known(s, e.replacement.value)
  }

  ghost predicate OpsEvolve(s: Store, t: Store) {
    && s.clock <= t.clock && s.nextToken <= t.nextToken
    && (forall id | id in s.history :: id in t.history && t.history[id] == s.history[id])
    && (forall id | id in s.ops :: RowKept(s.ops[id], id, t))
    && (forall id | id in t.ops :: RowComesFrom(s, id, t.ops[id]))
    && (forall id | id in t.history :: EntryComesFrom(s, id, t.history[id]))
  }

  ghost predicate TurnKept(turn: Turn, k: Slot, t: Store) {
    && k in t.turns
    && t.turns[k] == turn.(revision := t.turns[k].revision)
    && (turn.revision.Some? ==> t.turns[k].revision.Some?)
  }

  /** A slot indexed later than `s` was not one that `s` had already handed out, unless by hand. */
  ghost predicate IndexEvolve(s: Store, t: Store) {
    && (forall x | x in s.sessions :: x in t.sessions && s.sessions[x].next <= t.sessions[x].next)
    && (forall k | k in s.turns :: TurnKept(s.turns[k], k, t))
  }

  ghost predicate Evolves(s: Store, t: Store) {
    OpsEvolve(s, t) && IndexEvolve(s, t)
  }

  lemma EvolvesReflexive(s: Store)
    requires Inv(s)
    ensures Evolves(s, s)
  {
  }

  lemma OpsEvolveTransitive(s: Store, t: Store, u: Store)
    requires OpsEvolve(s, t) && OpsEvolve(t, u)
    ensures OpsEvolve(s, u)
  {
    forall id | id in s.ops ensures RowKept(s.ops[id], id, u) {
      assert RowKept(s.ops[id], id, t);
      if id in t.ops {
        assert RowKept(t.ops[id], id, u);
      }
    }
    forall id | id in u.ops ensures RowComesFrom(s, id, u.ops[id]) {
      assert RowComesFrom(t, id, u.ops[id]);
      if id in t.ops {
        assert RowComesFrom(s, id, t.ops[id]);
        assert RowKept(t.ops[id], id, u);
      }
    }
    forall id | id in u.history ensures EntryComesFrom(s, id, u.history[id]) {
      assert EntryComesFrom(t, id, u.history[id]);
      if id in t.history {
        assert EntryComesFrom(s, id, t.history[id]);
      } else if u.history[id].replacement.Some? {
        var r := u.history[id].replacement.value;
        assert r in s.ops ==> RowKept(s.ops[r], r, t);
      }
    }
  }

  lemma EvolvesTransitive(s: Store, t: Store, u: Store)
    requires Evolves(s, t) && Evolves(t, u)
    ensures Evolves(s, u)
  {
    OpsEvolveTransitive(s, t, u);
    forall k | k in s.turns ensures TurnKept(s.turns[k], k, u) {
      assert TurnKept(s.turns[k], k, t);
      assert TurnKept(t.turns[k], k, u);
    }
  }

  // ---------------------------------------------------------------- well-foundedness, one row more

  /** Adding an entry nobody points to, or that points outside, keeps a relation well-founded. */
  lemma WellFoundedGrows(h: map<Id, Entry>, id: Id, e: Entry, byReplacement: bool)
    requires WellFounded(h, byReplacement) && id !in h
    requires
      var next := if byReplacement then e.replacement else e.what.dependsOn;
      next.None? || (if byReplacement then next.value !in h && next.value != id
                     else next.value in h && forall i | i in h :: h[i].what.dependsOn != Some(id))
    ensures WellFounded(h[id := e], byReplacement)
  {
    var g := h[id := e];
    forall inside: set<Id> | inside != {} && inside <= g.Keys
      ensures exists c :: c in inside && LeadsOut(g, c, inside, byReplacement)
    {
      var rest := inside - {id};
      if rest == {} {
        assert inside == {id};
        assert LeadsOut(g, id, inside, byReplacement);
      } else if id !in inside || !LeadsOut(g, id, inside, byReplacement) {
        assert rest <= h.Keys;
        var c :| c in rest && LeadsOut(h, c, rest, byReplacement);
        assert LeadsOut(g, c, inside, byReplacement);
      }
    }
  }

  // ---------------------------------------------------------------- the four ways rows change

  lemma InsertKeeps(s: Store, op: NewOperation, t: Store)
    requires OpsInv(s) && ValidOperation(op) && !Known(s, op.id)
    requires t == Insert(s, op).(sessions := t.sessions, turns := t.turns)
    ensures OpsInv(t) && OpsEvolve(s, t)
  {
    InsertInv(s, op, t);
    forall id | id in t.ops ensures RowComesFrom(s, id, t.ops[id]) {
      assert id in s.ops ==> RowOk(s, id, s.ops[id]);
    }
  }

  lemma InsertInv(s: Store, op: NewOperation, t: Store)
    requires OpsInv(s) && ValidOperation(op) && !Known(s, op.id)
    requires t == Insert(s, op).(sessions := t.sessions, turns := t.turns)
    ensures OpsInv(t)
  {
    forall id | id in t.ops ensures RowOk(t, id, t.ops[id]) {
      assert id in s.ops ==> RowOk(s, id, s.ops[id]);
    }
    forall i | i in t.history ensures EntryOk(t, i, t.history[i]) {
      assert EntryOk(s, i, s.history[i]);
    }
    assert TokensDistinct(t.ops);
  }

  /** A row that is not a dead letter is rewritten; its claim is dropped, kept or newly issued. */
  lemma UpdateKeeps(s: Store, id: Id, row: Row, t: Store)
    requires OpsInv(s) && id in s.ops && !s.ops[id].state.DeadLetter?
    requires row.what == s.ops[id].what && row.createdAt == s.ops[id].createdAt
    requires row.updatedAt == s.clock && row.attempts >= 0
    requires
      || row.claim.None?
      || (SameHold(s.ops[id], row) && t.nextToken == s.nextToken)
      || (row.claim.value.token == s.nextToken && t.nextToken == s.nextToken + 1
          && row.attempts >= 1 && Mutable(row.state) && Satisfied(s.history, row.what.dependsOn))
    requires s.nextToken <= t.nextToken
    requires t == s.(ops := s.ops[id := row], nextToken := t.nextToken)
    ensures OpsInv(t) && OpsEvolve(s, t)
  {
  }

  /** A claimed row moves to history; a superseded one names a live row nothing else names. */
  lemma ArchiveKeeps(s: Store, id: Id, e: Entry, t: Store)
    requires OpsInv(s) && id in s.ops && s.ops[id].claim.Some?
    requires e.what == s.ops[id].what
    requires e.outcome.Superseded? <==> e.replacement.Some?
    requires e.replacement.Some? ==>
               && e.replacement.value in s.ops && e.replacement.value != id
               && forall i | i in s.history :: s.history[i].replacement != e.replacement
    requires t == s.(ops := s.ops - {id}, history := s.history[id := e])
    ensures OpsInv(t)
  {
    assert RowOk(s, id, s.ops[id]);
    forall i | i in s.history ensures s.history[i].what.dependsOn != Some(id) {
      assert EntryOk(s, i, s.history[i]);
    }
    assert e.replacement.Some? ==> RowOk(s, e.replacement.value, s.ops[e.replacement.value]);
    WellFoundedGrows(s.history, id, e, true);
    WellFoundedGrows(s.history, id, e, false);
    forall i | i in t.ops ensures RowOk(t, i, t.ops[i]) {
      RowAfterArchive(s, id, e, t, i);
    }
    forall i | i in t.history ensures EntryOk(t, i, t.history[i]) {
      EntryAfterArchive(s, id, e, t, i);
    }
  }

  lemma RowAfterArchive(s: Store, id: Id, e: Entry, t: Store, i: Id)
    requires id in s.ops && i in s.ops && i != id && RowOk(s, i, s.ops[i]) && RowOk(s, id, s.ops[id])
    requires t == s.(ops := s.ops - {id}, history := s.history[id := e])
    ensures RowOk(t, i, t.ops[i])
  {
  }

  lemma EntryAfterArchive(s: Store, id: Id, e: Entry, t: Store, i: Id)
    requires id in s.ops && RowOk(s, id, s.ops[id]) && s.ops[id].claim.Some? && e.what == s.ops[id].what
    requires e.outcome.Superseded? <==> e.replacement.Some?
    requires e.replacement.Some? ==> e.replacement.value in s.ops && e.replacement.value != id
    requires t == s.(ops := s.ops - {id}, history := s.history[id := e])
    requires i in t.history && (i != id ==> EntryOk(s, i, s.history[i]))
    ensures EntryOk(t, i, t.history[i])
  {
  }

  lemma ArchiveEvolves(s: Store, id: Id, e: Entry, t: Store)
    requires OpsInv(s) && id in s.ops && s.ops[id].claim.Some?
    requires e.what == s.ops[id].what && e.replacement.None?
    requires t == s.(ops := s.ops - {id}, history := s.history[id := e])
    ensures OpsEvolve(s, t)
  {
    assert RowOk(s, id, s.ops[id]);
    forall i | i in t.ops ensures RowComesFrom(s, i, t.ops[i]) {
      assert RowOk(s, i, s.ops[i]);
    }
  }

  lemma SupersedeEvolves(s: Store, id: Id, token: nat, replacement: NewOperation)
    requires OpsInv(s) && SupersedeWith(s, id, token, replacement).store != s
    ensures OpsEvolve(s, SupersedeWith(s, id, token, replacement).store)
  {
    var t := SupersedeWith(s, id, token, replacement).store;
    assert RowOk(s, id, s.ops[id]);
    forall i | i in t.ops ensures RowComesFrom(s, i, t.ops[i]) {
      assert i in s.ops ==> RowOk(s, i, s.ops[i]);
    }
  }

  lemma SupersedeKeeps(s: Store, id: Id, token: nat, replacement: NewOperation)
    requires OpsInv(s)
    ensures OpsInv(SupersedeWith(s, id, token, replacement).store)
    ensures OpsEvolve(s, SupersedeWith(s, id, token, replacement).store)
  {
    var t := SupersedeWith(s, id, token, replacement).store;
    if t != s {
      var mid := Insert(s, replacement);
      InsertKeeps(s, replacement, mid);
      forall i | i in s.history ensures s.history[i].replacement != Some(replacement.id) {
        assert EntryOk(s, i, s.history[i]);
      }
      ArchiveKeeps(mid, id, t.history[id], t);
      SupersedeEvolves(s, id, token, replacement);
    }
  }

  // ---------------------------------------------------------------- claim_page, row by row

  ghost predicate Distinct(ids: seq<Id>) {
    forall i, j | 0 <= i < j < |ids| :: ids[i] != ids[j]
  }

  function ClaimedRow(row: Row, token: nat, worker: string, now: nat, lease: nat): Row {
    row.(claim := Some(Claim(token, worker, now + lease)), attempts := row.attempts + 1,
         updatedAt := now)
  }

  ghost predicate ClaimIssued(s: Store, c: ClaimedOperation, id: Id, token: nat, worker: string,
                              lease: nat)
    requires id in s.ops
  {
    var row := s.ops[id];
    c == ClaimedOperation(id, row.what, row.state, row.createdAt, s.clock, row.attempts + 1,
                          row.lastStatus, row.lastError, token, worker, s.clock + lease)
  }

  /** The rows of `ids` claimed in order with consecutive new tokens, and nothing else changed. */
  ghost predicate PageClaimed(s: Store, t: Store, ids: seq<Id>, worker: string, lease: nat) {
    && t == s.(ops := t.ops, nextToken := s.nextToken + |ids|)
    && t.ops.Keys == s.ops.Keys
    && (forall i | 0 <= i < |ids| :: ClaimedAt(s, t, ids[i], s.nextToken + i, worker, lease))
    && (forall id | id in s.ops && Elsewhere(ids, id) :: t.ops[id] == s.ops[id])
  }

  ghost predicate ClaimedAt(s: Store, t: Store, id: Id, token: nat, worker: string, lease: nat) {
    && id in s.ops && id in t.ops
    && t.ops[id] == ClaimedRow(s.ops[id], token, worker, s.clock, lease)
  }

  ghost predicate Elsewhere(ids: seq<Id>, id: Id) {
    forall i | 0 <= i < |ids| :: ids[i] != id
  }

  ghost predicate ClaimsMatch(s: Store, claims: seq<ClaimedOperation>, ids: seq<Id>, worker: string,
                              lease: nat)
  {
    && |claims| == |ids|
    && (forall i | 0 <= i < |ids| ::
          ids[i] in s.ops && ClaimIssued(s, claims[i], ids[i], s.nextToken + i, worker, lease))
  }

  /** What the SELECT returns: claimable rows, in replay order, the earliest, as many as fit. */
  ghost predicate EarliestClaimable(s: Store, ids: seq<Id>, cutoff: nat, pageSize: nat) {
    && Distinct(ids)
    && (forall i | 0 <= i < |ids| :: Claimable(s, ids[i], cutoff))
    && (forall i, j | 0 <= i < j < |ids| :: Before(PlaceOf(s, ids[i]), PlaceOf(s, ids[j])))
    && (forall i, other | 0 <= i < |ids| && Claimable(s, other, cutoff) && other !in ids ::
          Before(PlaceOf(s, ids[i]), PlaceOf(s, other)))
    && |ids| <= pageSize
    && (|ids| < pageSize ==> forall id | Claimable(s, id, cutoff) :: id in ids)
  }

  ghost predicate AllFree(s: Store, ids: seq<Id>) {
    forall i | 0 <= i < |ids| :: ids[i] in s.ops && Free(s, ids[i])
  }

  /** One more guarded UPDATE. */
  lemma PageExtends(s: Store, m: Store, front: seq<Id>, id: Id, worker: string, lease: nat)
    requires PageClaimed(s, m, front, worker, lease)
    requires id in s.ops && Free(s, id) && Elsewhere(front, id)
    ensures id in m.ops && m.ops[id] == s.ops[id] && Free(m, id)
    ensures PageClaimed(s, ClaimRow(m, id, worker, lease), front + [id], worker, lease)
  {
    var t, ids := ClaimRow(m, id, worker, lease), front + [id];
    forall i | 0 <= i < |ids| ensures ClaimedAt(s, t, ids[i], s.nextToken + i, worker, lease) {
      if i < |front| {
        assert ClaimedAt(s, m, front[i], s.nextToken + i, worker, lease);
      }
    }
    forall x | x in s.ops && Elsewhere(ids, x) ensures t.ops[x] == s.ops[x] {
      assert ids[|front|] != x;
      assert Elsewhere(front, x) by {
        assert forall i | 0 <= i < |front| :: front[i] == ids[i];
      }
    }
  }

  lemma ClaimsExtend(s: Store, m: Store, claims: seq<ClaimedOperation>, front: seq<Id>, id: Id,
                     worker: string, lease: nat)
    requires ClaimsMatch(s, claims, front, worker, lease)
    requires id in s.ops && id in m.ops && m.ops[id] == s.ops[id]
    requires m.nextToken == s.nextToken + |front| && m.clock == s.clock
    ensures ClaimsMatch(s, claims + [ClaimFrom(m, id, worker, lease)], front + [id], worker, lease)
  {
  }

  lemma FrontFree(s: Store, ids: seq<Id>, front: seq<Id>, id: Id)
    requires Distinct(ids) && AllFree(s, ids) && ids == front + [id]
    ensures Distinct(front) && AllFree(s, front) && Elsewhere(front, id) && id in s.ops && Free(s, id)
  {
    assert ids[|front|] == id;
    assert forall i | 0 <= i < |front| :: front[i] == ids[i];
  }

  /**
   Every selected row gets its own new token; no other row and no other table changes; and the
   worker is handed one claim per selected row, in order, saying what the row now says.
   */
  lemma {:induction false} ClaimRowsExact(s: Store, ids: seq<Id>, worker: string, lease: nat)
    requires Distinct(ids) && AllFree(s, ids)
    ensures PageClaimed(s, ClaimRows(s, ids, worker, lease).0, ids, worker, lease)
    ensures ClaimsMatch(s, ClaimRows(s, ids, worker, lease).1, ids, worker, lease)
    decreases |ids|
  {
    if ids != [] {
      var front, id := ids[..|ids| - 1], ids[|ids| - 1];
      assert ids == front + [id];
      FrontFree(s, ids, front, id);
      ClaimRowsExact(s, front, worker, lease);
      var r := ClaimRows(s, front, worker, lease);
      PageExtends(s, r.0, front, id, worker, lease);
      ClaimsExtend(s, r.0, r.1, front, id, worker, lease);
    }
  }

  lemma CandidatesExact(s: Store, cutoff: nat, pageSize: nat)
    ensures EarliestClaimable(s, Candidates(s, cutoff, pageSize), cutoff, pageSize)
  {
    var all := ClaimablePlaces(s, cutoff);
    var places := Select(all, pageSize);
    SelectExact(all, pageSize);
    var ids := Candidates(s, cutoff, pageSize);
    forall i | 0 <= i < |ids| ensures Claimable(s, ids[i], cutoff) && places[i] == PlaceOf(s, ids[i]) {
      assert places[i] in all;
    }
    forall i, j | 0 <= i < j < |ids| ensures ids[i] != ids[j] {
      BeforeTotal(places[i], places[j]);
    }
    forall other | Claimable(s, other, cutoff) && other !in ids
      ensures PlaceOf(s, other) in all && PlaceOf(s, other) !in places
    {
      assert forall i | 0 <= i < |places| :: places[i] == PlaceOf(s, ids[i]) && ids[i] in ids;
    }
    if |ids| < pageSize && exists id :: Claimable(s, id, cutoff) && id !in ids {
      var id :| Claimable(s, id, cutoff) && id !in ids;
      AllSelected(places, all);
    }
  }

  lemma AllSelected(places: seq<Place>, all: set<Place>)
    requires |places| == |all| && Sorted(places) && forall p | p in places :: p in all
    ensures forall p | p in all :: p in places
  {
    var got := set p | p in places;
    SortedSize(places);
    assert got <= all;
    if exists p :: p in all && p !in got {
      var p :| p in all && p !in got;
      SubsetSize(got, all - {p});
    }
  }

  lemma {:induction false} SortedSize(places: seq<Place>)
    requires Sorted(places)
    ensures |set p | p in places| == |places|
  {
    if places != [] {
      var last := places[|places| - 1];
      var init := places[..|places| - 1];
      SortedSize(init);
      assert forall i | 0 <= i < |init| :: init[i] != last by {
        forall i | 0 <= i < |init| ensures init[i] != last {
          BeforeTotal(init[i], last);
        }
      }
      assert (set p | p in places) == (set p | p in init) + {last};
    }
  }

  lemma {:induction false} SubsetSize<T>(a: set<T>, b: set<T>)
    requires a <= b
    ensures |a| <= |b|
  {
    if a != {} {
      var x :| x in a;
      SubsetSize(a - {x}, b - {x});
    }
  }

  /** claim_page as a whole, for arguments it accepts: which rows, in what order, and what they become. */
  lemma ClaimPageExact(s: Store, worker: string, pageSize: int, lease: Option<int>,
                       cutoff: Option<nat>) returns (ids: seq<Id>)
    requires ClaimPage(s, worker, pageSize, lease, cutoff).result.Ok?
    ensures
      var limit := if cutoff.Some? then cutoff.value else s.clock + HORIZON;
      var duration := if lease.Some? then lease.value else DEFAULT_LEASE;
      var r := ClaimPage(s, worker, pageSize, lease, cutoff);
      && pageSize >= 1 && duration >= 1
      && PageClaimed(s, r.store, ids, worker, duration)
      && ClaimsMatch(s, r.result.value, ids, worker, duration)
      && EarliestClaimable(s, ids, limit, pageSize)
  {
    var limit := if cutoff.Some? then cutoff.value else s.clock + HORIZON;
    var duration: nat := if lease.Some? then lease.value else DEFAULT_LEASE;
    ClaimPageIs(s, worker, pageSize, lease, cutoff);
    ids := Candidates(s, limit, pageSize);
    CandidatesExact(s, limit, pageSize);
    EarliestAreClaimed(s, ids, limit, pageSize, worker, duration);
  }

  lemma ClaimPageIs(s: Store, worker: string, pageSize: int, lease: Option<int>, cutoff: Option<nat>)
    requires ClaimPage(s, worker, pageSize, lease, cutoff).result.Ok?
    ensures
      var limit := if cutoff.Some? then cutoff.value else s.clock + HORIZON;
      var duration := if lease.Some? then lease.value else DEFAULT_LEASE;
      && pageSize >= 1 && duration >= 1
      && var r := ClaimRows(s, Candidates(s, limit, pageSize), worker, duration);
         ClaimPage(s, worker, pageSize, lease, cutoff) == Tx(r.0, Ok(r.1))
  {
  }

  lemma EarliestAreClaimed(s: Store, ids: seq<Id>, cutoff: nat, pageSize: nat, worker: string,
                           lease: nat)
    requires EarliestClaimable(s, ids, cutoff, pageSize)
    ensures
      && AllFree(s, ids)
      && PageClaimed(s, ClaimRows(s, ids, worker, lease).0, ids, worker, lease)
      && ClaimsMatch(s, ClaimRows(s, ids, worker, lease).1, ids, worker, lease)
  {
    assert AllFree(s, ids);
    ClaimRowsExact(s, ids, worker, lease);
  }

  lemma ClaimPageKeeps(s: Store, worker: string, pageSize: int, lease: Option<int>,
                       cutoff: Option<nat>)
    requires OpsInv(s)
    ensures OpsInv(ClaimPage(s, worker, pageSize, lease, cutoff).store)
    ensures OpsEvolve(s, ClaimPage(s, worker, pageSize, lease, cutoff).store)
  {
    if ClaimPage(s, worker, pageSize, lease, cutoff).result.Ok? {
      var limit := if cutoff.Some? then cutoff.value else s.clock + HORIZON;
      var duration := if lease.Some? then lease.value else DEFAULT_LEASE;
      EarliestKeep(s, Candidates(s, limit, pageSize), limit, pageSize, worker, duration) by {
        CandidatesExact(s, limit, pageSize);
      }
    }
  }

  lemma EarliestKeep(s: Store, ids: seq<Id>, cutoff: nat, pageSize: nat, worker: string, lease: nat)
    requires OpsInv(s) && EarliestClaimable(s, ids, cutoff, pageSize)
    ensures
      && (forall i | 0 <= i < |ids| :: ids[i] in s.ops)
      && OpsInv(ClaimRows(s, ids, worker, lease).0)
      && OpsEvolve(s, ClaimRows(s, ids, worker, lease).0)
  {
    ClaimRowsKeep(s, ids, worker, lease);
  }

  lemma {:induction false} ClaimRowsKeep(s: Store, ids: seq<Id>, worker: string, lease: nat)
    requires OpsInv(s) && Distinct(ids)
    requires AllFree(s, ids)
    requires forall i | 0 <= i < |ids| ::
               Mutable(s.ops[ids[i]].state) && Satisfied(s.history, s.ops[ids[i]].what.dependsOn)
    ensures OpsInv(ClaimRows(s, ids, worker, lease).0)
    ensures OpsEvolve(s, ClaimRows(s, ids, worker, lease).0)
    decreases |ids|
  {
    if ids != [] {
      var front, id := ids[..|ids| - 1], ids[|ids| - 1];
      assert ids == front + [id];
      FrontFree(s, ids, front, id);
      ClaimRowsExact(s, front, worker, lease);
      ClaimRowsKeep(s, front, worker, lease);
      var m := ClaimRows(s, front, worker, lease).0;
      PageExtends(s, m, front, id, worker, lease);
      ClaimRowKeeps(m, id, worker, lease);
      OpsEvolveTransitive(s, m, ClaimRow(m, id, worker, lease));
    } else {
      OpsEvolveReflexive(s);
    }
  }

  lemma OpsEvolveReflexive(s: Store)
    requires OpsInv(s)
    ensures OpsEvolve(s, s)
  {
  }

  lemma ClaimRowKeeps(s: Store, id: Id, worker: string, lease: nat)
    requires OpsInv(s) && id in s.ops && Free(s, id) && Mutable(s.ops[id].state)
    requires Satisfied(s.history, s.ops[id].what.dependsOn)
    ensures OpsInv(ClaimRow(s, id, worker, lease)) && OpsEvolve(s, ClaimRow(s, id, worker, lease))
  {
    assert RowOk(s, id, s.ops[id]);
    var t := ClaimRow(s, id, worker, lease);
    UpdateKeeps(s, id, t.ops[id], t);
  }

  // ---------------------------------------------------------------- the holder's transactions

  lemma RenewKeeps(s: Store, id: Id, token: nat, lease: Option<int>)
    requires OpsInv(s)
    ensures OpsInv(RenewClaim(s, id, token, lease).store)
    ensures OpsEvolve(s, RenewClaim(s, id, token, lease).store)
  {
    var t := RenewClaim(s, id, token, lease).store;
    if t != s {
      assert RowOk(s, id, s.ops[id]);
      UpdateKeeps(s, id, t.ops[id], t);
    }
  }

  lemma ApplyKeeps(s: Store, id: Id, token: nat, result: AttemptResult)
    requires OpsInv(s)
    ensures OpsInv(ApplyResult(s, id, token, result).store)
    ensures OpsEvolve(s, ApplyResult(s, id, token, result).store)
  {
    var t := ApplyResult(s, id, token, result).store;
    if t != s {
      assert RowOk(s, id, s.ops[id]);
      if result.action in {Succeed, DropObsolete} {
        ArchiveKeeps(s, id, t.history[id], t);
        ArchiveEvolves(s, id, t.history[id], t);
      } else {
        UpdateKeeps(s, id, t.ops[id], t);
      }
    }
  }

  lemma {:induction false} ReleaseKeeps(s: Store, claims: seq<ClaimedOperation>)
    requires OpsInv(s)
    ensures OpsInv(ReleaseRows(s, claims)) && OpsEvolve(s, ReleaseRows(s, claims))
    decreases |claims|
  {
    if claims != [] {
      var m := ReleaseRow(s, claims[0].id, claims[0].token);
      if m != s {
        assert RowOk(s, claims[0].id, s.ops[claims[0].id]);
        UpdateKeeps(s, claims[0].id, m.ops[claims[0].id], m);
      }
      ReleaseKeeps(m, claims[1..]);
      OpsEvolveTransitive(s, m, ReleaseRows(s, claims));
    }
  }

  lemma UnblockKeeps(s: Store)
    requires OpsInv(s)
    ensures OpsInv(UnblockAuth(s).store) && OpsEvolve(s, UnblockAuth(s).store)
  {
    var t := UnblockAuth(s).store;
    forall id | id in t.ops
      ensures RowOk(t, id, t.ops[id]) && RowComesFrom(s, id, t.ops[id])
      ensures t.ops[id].claim == s.ops[id].claim
    {
      assert RowOk(s, id, s.ops[id]);
    }
    forall id | id in t.history ensures EntryOk(t, id, t.history[id]) {
      assert EntryOk(s, id, s.history[id]);
    }
    forall id | id in s.ops ensures RowKept(s.ops[id], id, t) {
    }
  }

  // ---------------------------------------------------------------- the session index

  /** Rows and history as they were: session tables and the clock may have moved. */
  lemma SameRowsKeep(s: Store, t: Store)
    requires OpsInv(s) && s.clock <= t.clock
    requires t == s.(sessions := t.sessions, turns := t.turns, clock := t.clock)
    ensures OpsInv(t) && OpsEvolve(s, t)
  {
  }

  /** The index as it was: rows may have moved. */
  lemma SameIndexKeeps(s: Store, t: Store)
    requires IndexInv(s) && t.sessions == s.sessions && t.turns == s.turns
    ensures IndexInv(t) && IndexEvolve(s, t)
  {
  }

  /** One session row rewritten without moving its sequence back. */
  lemma SessionWrite(s: Store, session: string, row: Session, t: Store)
    requires IndexInv(s) && session != "" && row.next >= 1
    requires session in s.sessions ==> s.sessions[session].next <= row.next
    requires t.sessions == s.sessions[session := row] && t.turns == s.turns
    ensures IndexInv(t) && IndexEvolve(s, t)
  {
    forall k | k in t.turns ensures TurnOk(t, k) {
      assert TurnOk(s, k);
    }
  }

  /** One turn added in a session, below its next sequence number. */
  lemma TurnWrite(s: Store, k: Slot, turn: Turn, t: Store)
    requires IndexInv(s) && k !in s.turns && k.session in s.sessions
    requires 1 <= k.sequence < s.sessions[k.session].next
    requires turn.revision.None? && UniqueTurn(s, turn.operationId, turn.sourceId)
    requires t.sessions == s.sessions && t.turns == s.turns[k := turn]
    ensures IndexInv(t) && IndexEvolve(s, t)
  {
    forall i | i in t.turns ensures TurnOk(t, i) {
      assert i in s.turns ==> TurnOk(s, i);
    }
  }

  /** Both in one transaction. */
  lemma SessionAndTurnWrite(s: Store, k: Slot, turn: Turn, t: Store)
    requires IndexInv(s) && k !in s.turns && k.session != "" && k.session in t.sessions
    requires k.session in s.sessions ==> s.sessions[k.session].next <= t.sessions[k.session].next
    requires 1 <= k.sequence < t.sessions[k.session].next
    requires turn.revision.None? && UniqueTurn(s, turn.operationId, turn.sourceId)
    requires t.sessions == s.sessions[k.session := t.sessions[k.session]]
    requires t.turns == s.turns[k := turn]
    ensures IndexInv(t) && IndexEvolve(s, t)
  {
    var m := s.(sessions := t.sessions);
    SessionWrite(s, k.session, t.sessions[k.session], m);
    TurnWrite(m, k, turn, t);
    forall i | i in s.turns ensures TurnKept(s.turns[i], i, t) {
      assert TurnKept(s.turns[i], i, m);
    }
  }

  lemma ReserveKeeps(s: Store, session: string, parent: string)
    requires Inv(s)
    ensures
      var t := ReserveSequence(s, session, parent).store;
      Inv(t) && Evolves(s, t)
  {
    var t := ReserveSequence(s, session, parent).store;
    SameRowsKeep(s, t);
    if session == "" { EvolvesReflexive(s); } else { SessionWrite(s, session, t.sessions[session], t); }
  }

  lemma MarkKeeps(s: Store, session: string, parent: string, required: bool)
    requires Inv(s)
    ensures
      var t := MarkSessionReconcile(s, session, parent, required).store;
      Inv(t) && Evolves(s, t)
  {
    var t := MarkSessionReconcile(s, session, parent, required).store;
    SameRowsKeep(s, t);
    if session == "" { EvolvesReflexive(s); } else { SessionWrite(s, session, t.sessions[session], t); }
  }

  lemma IndexTurnKeeps(s: Store, session: string, sequence: int, operationId: Id, sourceId: string,
                       turnHash: string)
    requires Inv(s)
    ensures
      var t := IndexTurn(s, session, sequence, operationId, sourceId, turnHash).store;
      Inv(t) && Evolves(s, t)
  {
    var t := IndexTurn(s, session, sequence, operationId, sourceId, turnHash).store;
    SameRowsKeep(s, t);
    if t == s { EvolvesReflexive(s); } else {
      if t.turns == s.turns {
        SessionWrite(s, session, t.sessions[session], t);
      } else {
        SessionAndTurnWrite(s, Slot(session, sequence), Turn(operationId, sourceId, turnHash, None), t);
      }
    }
  }

  lemma EnqueueTurnKeeps(s: Store, session: string, parent: string, factory: nat -> Result<NewTurn>)
    requires Inv(s)
    ensures
      var t := EnqueueTurn(s, session, parent, factory).store;
      Inv(t) && Evolves(s, t)
  {
    var t := EnqueueTurn(s, session, parent, factory).store;
    if t == s { EvolvesReflexive(s); } else {
      var row := Touched(s, session, parent);
      var added := factory(row.next).value;
      InsertKeeps(s, added.operation, t);
      var turn := Turn(added.operation.id, added.sourceId, added.turnHash, None);
      SessionAndTurnWrite(s, Slot(session, row.next), turn, t);
    }
  }

  lemma RecordRevisionKeeps(s: Store, id: Id, revision: int)
    requires Inv(s)
    ensures
      var t := RecordTurnRevision(s, id, revision).store;
      Inv(t) && Evolves(s, t)
  {
    var t := RecordTurnRevision(s, id, revision).store;
    SameRowsKeep(s, t);
    if t == s { EvolvesReflexive(s); } else {
      forall k | k in t.turns ensures TurnOk(t, k) && TurnKept(s.turns[k], k, t) {
        assert TurnOk(s, k);
      }
    }
  }

  /** claim_page writes `operations` only, and adds and removes no row. */
  lemma ClaimPageFrame(s: Store, worker: string, pageSize: int, lease: Option<int>,
                       cutoff: Option<nat>)
    ensures
      var t := ClaimPage(s, worker, pageSize, lease, cutoff).store;
      t == s.(ops := t.ops, nextToken := t.nextToken) && t.ops.Keys == s.ops.Keys
  {
  }

  lemma ApplyFrame(s: Store, id: Id, token: nat, result: AttemptResult)
    ensures
      var t := ApplyResult(s, id, token, result).store;
      t.sessions == s.sessions && t.turns == s.turns
  {
  }

  lemma {:induction false} ReleaseFrame(s: Store, claims: seq<ClaimedOperation>)
    ensures
      var t := ReleaseRows(s, claims);
      t == s.(ops := t.ops) && t.ops.Keys == s.ops.Keys
    decreases |claims|
  {
    if claims != [] {
      ReleaseFrame(ReleaseRow(s, claims[0].id, claims[0].token), claims[1..]);
    }
  }

  // ---------------------------------------------------------------- rows a transaction leaves alone

  /** Only claim_page, a release, unblock_auth and a holder's own calls rewrite an existing row. */
  lemma RowUntouched(s: Store, c: Command, id: Id)
    requires Inv(s) && id in s.ops
    requires !c.DoClaimPage? && !c.DoRelease? && !c.DoUnblockAuth?
    requires (c.DoRenew? || c.DoApply? || c.DoSupersede?) ==> !(c.id == id && Holds(s, id, c.token))
    ensures id in Step(s, c).ops && Step(s, c).ops[id] == s.ops[id]
  {
    match c
    case DoApply(other, token, result) => ApplyUntouched(s, other, token, result, id);
    case DoSupersede(other, token, replacement) => SupersedeUntouched(s, other, token, replacement, id);
    case DoEnqueueTurn(session, parent, factory) => EnqueueTurnUntouched(s, session, parent, factory, id);
    case DoRenew(other, token, lease) => RenewUntouched(s, other, token, lease, id);
    case _ => OthersUntouched(s, c, id);
  }

  lemma OthersUntouched(s: Store, c: Command, id: Id)
    requires id in s.ops
    requires c.DoEnqueue? || c.DoReserve? || c.DoIndexTurn? || c.DoMark? || c.DoRecordRevision? || c.DoTick?
    ensures id in Step(s, c).ops && Step(s, c).ops[id] == s.ops[id]
  {
  }

  lemma RenewUntouched(s: Store, other: Id, token: nat, lease: Option<int>, id: Id)
    requires id in s.ops && !(other == id && Holds(s, id, token))
    ensures
      var t := RenewClaim(s, other, token, lease).store;
      id in t.ops && t.ops[id] == s.ops[id]
  {
  }

  lemma SupersedeUntouched(s: Store, other: Id, token: nat, replacement: NewOperation, id: Id)
    requires id in s.ops && !(other == id && Holds(s, id, token))
    ensures
      var t := SupersedeWith(s, other, token, replacement).store;
      id in t.ops && t.ops[id] == s.ops[id]
  {
  }

  lemma EnqueueTurnUntouched(s: Store, session: string, parent: string, factory: nat -> Result<NewTurn>, id: Id)
    requires id in s.ops
    ensures
      var t := EnqueueTurn(s, session, parent, factory).store;
      id in t.ops && t.ops[id] == s.ops[id]
  {
  }

  lemma ApplyUntouched(s: Store, other: Id, token: nat, result: AttemptResult, id: Id)
    requires id in s.ops && !(other == id && Holds(s, id, token))
    ensures
      var t := ApplyResult(s, other, token, result).store;
      id in t.ops && t.ops[id] == s.ops[id]
  {
  }

  // ---------------------------------------------------------------- every transaction, every run

  /** The transactions that write `operations` and `operation_history` only. */
  lemma RowStepKeeps(s: Store, c: Command)
    requires Inv(s)
    requires c.DoEnqueue? || c.DoClaimPage? || c.DoRelease? || c.DoUnblockAuth?
    ensures OpsInv(Step(s, c)) && OpsEvolve(s, Step(s, c))
  {
    match c
    case DoEnqueue(op) =>
      var t := Enqueue(s, op).store;
      if t != s { InsertKeeps(s, op, t); }
    case DoClaimPage(worker, pageSize, lease, cutoff) => ClaimPageKeeps(s, worker, pageSize, lease, cutoff);
    case DoRelease(claims) => ReleaseKeeps(s, claims);
    case DoUnblockAuth => UnblockKeeps(s);
  }

  lemma HolderStepKeeps(s: Store, c: Command)
    requires Inv(s) && (c.DoRenew? || c.DoApply? || c.DoSupersede?)
    ensures OpsInv(Step(s, c)) && OpsEvolve(s, Step(s, c))
  {
    match c
    case DoRenew(id, token, lease) => RenewKeeps(s, id, token, lease);
    case DoApply(id, token, result) => ApplyKeeps(s, id, token, result);
    case DoSupersede(id, token, replacement) => SupersedeKeeps(s, id, token, replacement);
  }

  lemma RowStepFrame(s: Store, c: Command)
    requires c.DoEnqueue? || c.DoClaimPage? || c.DoRenew? || c.DoApply? || c.DoSupersede?
          || c.DoRelease? || c.DoUnblockAuth?
    ensures Step(s, c).sessions == s.sessions && Step(s, c).turns == s.turns
  {
    match c
    case DoClaimPage(worker, pageSize, lease, cutoff) => ClaimPageFrame(s, worker, pageSize, lease, cutoff);
    case DoApply(id, token, result) => ApplyFrame(s, id, token, result);
    case DoRelease(claims) => ReleaseFrame(s, claims);
    case DoEnqueue(_) =>
    case DoRenew(_, _, _) =>
    case DoSupersede(_, _, _) =>
    case DoUnblockAuth =>
  }

  lemma StepKeeps(s: Store, c: Command)
    requires Inv(s)
    ensures Inv(Step(s, c)) && Evolves(s, Step(s, c))
  {
    match c
    case DoReserve(session, parent) => ReserveKeeps(s, session, parent);
    case DoEnqueueTurn(session, parent, factory) => EnqueueTurnKeeps(s, session, parent, factory);
    case DoIndexTurn(session, sequence, operationId, sourceId, turnHash) =>
      IndexTurnKeeps(s, session, sequence, operationId, sourceId, turnHash);
    case DoMark(session, parent, required) => MarkKeeps(s, session, parent, required);
    case DoRecordRevision(id, revision) => RecordRevisionKeeps(s, id, revision);
    case DoTick(duration) =>
      SameRowsKeep(s, Step(s, c));
      SameIndexKeeps(s, Step(s, c));
    case _ =>
      if c.DoRenew? || c.DoApply? || c.DoSupersede? {
        HolderStepKeeps(s, c);
      } else {
        RowStepKeeps(s, c);
      }
      RowStepFrame(s, c);
      SameIndexKeeps(s, Step(s, c));
  }

  lemma {:induction false} RunKeeps(s: Store, commands: seq<Command>)
    requires Inv(s)
    ensures Inv(Run(s, commands)) && Evolves(s, Run(s, commands))
    decreases |commands|
  {
    if commands == [] {
      EvolvesReflexive(s);
    } else {
      StepKeeps(s, commands[0]);
      RunKeeps(Step(s, commands[0]), commands[1..]);
      EvolvesTransitive(s, Step(s, commands[0]), Run(s, commands));
    }
  }

  /** An empty database satisfies the invariant, so every reachable one does. */
  lemma ReachableInv(commands: seq<Command>)
    ensures Inv(Run(EMPTY, commands))
  {
    RunKeeps(EMPTY, commands);
  }
}
