/**
 The replay order of the outbox: ORDER BY created_at, operation_id. A string holds one character
 per UTF-8 byte, so character order is the byte order the database compares text with.
 */
module Ordering {

  type Id = string

  predicate Less(a: string, b: string) {
    |b| > 0 && (|a| == 0 || a[0] < b[0] || (a[0] == b[0] && Less(a[1..], b[1..])))
  }

  lemma {:induction false} LessTransitive(a: string, b: string, c: string)
    requires Less(a, b) && Less(b, c)
    ensures Less(a, c)
  {
    if |a| > 0 && a[0] == b[0] && b[0] == c[0] {
      LessTransitive(a[1..], b[1..], c[1..]);
    }
  }

  lemma {:induction false} LessTotal(a: string, b: string)
    ensures a == b || Less(a, b) || Less(b, a)
    ensures !(Less(a, b) && Less(b, a))
    ensures !Less(a, a)
  {
    if |a| > 0 && |b| > 0 && a[0] == b[0] {
      LessTotal(a[1..], b[1..]);
      assert a == [a[0]] + a[1..] && b == [b[0]] + b[1..];
    }
    if |a| > 0 {
      LessTotal(a[1..], a[1..]);
    }
  }

  /** A row's place in the replay order. */
  datatype Place = Place(createdAt: nat, id: Id)

  predicate Before(p: Place, q: Place) {
    p.createdAt < q.createdAt || (p.createdAt == q.createdAt && Less(p.id, q.id))
  }

  lemma BeforeTransitive(p: Place, q: Place, r: Place)
    requires Before(p, q) && Before(q, r)
    ensures Before(p, r)
  {
    if p.createdAt == q.createdAt == r.createdAt {
      LessTransitive(p.id, q.id, r.id);
    }
  }

  lemma BeforeTotal(p: Place, q: Place)
    ensures p == q || Before(p, q) || Before(q, p)
    ensures !(Before(p, q) && Before(q, p))
  {
    LessTotal(p.id, q.id);
  }

  predicate IsFirst(p: Place, s: set<Place>) {
    p in s && forall q | q in s :: q == p || Before(p, q)
  }

  lemma {:induction false} FirstExists(s: set<Place>)
    requires s != {}
    ensures exists p :: IsFirst(p, s)
  {
    var p :| p in s;
    var rest := s - {p};
    if rest == {} {
      assert s == {p};
      assert IsFirst(p, s);
    } else {
      FirstExists(rest);
      var q :| IsFirst(q, rest);
      BeforeTotal(p, q);
      var least := if Before(p, q) then p else q;
      forall r | r in s ensures r == least || Before(least, r) {
        if r != p && least == p && r != q {
          BeforeTransitive(p, q, r);
        }
      }
      assert IsFirst(least, s);
    }
  }

  /** The earliest of a set of places. */
  function First(s: set<Place>): (p: Place)
    requires s != {}
    ensures IsFirst(p, s)
  {
    FirstExists(s);
    assert forall p, q | IsFirst(p, s) && IsFirst(q, s) :: p == q by {
      forall p, q | IsFirst(p, s) && IsFirst(q, s) ensures p == q {
        BeforeTotal(p, q);
      }
    }
    var p :| p in s && IsFirst(p, s);
    p
  }

  ghost predicate Sorted(ps: seq<Place>) {
    forall i, j | 0 <= i < j < |ps| :: Before(ps[i], ps[j])
  }

  /** SELECT ... ORDER BY created_at, operation_id LIMIT n. */
  function Select(s: set<Place>, n: nat): seq<Place> {
    if n == 0 || s == {} then [] else
      var p := First(s);
      [p] + Select(s - {p}, n - 1)
  }

  /** The selection: members only, in order, before everything left out, and as many as fit. */
  lemma {:induction false} SelectExact(s: set<Place>, n: nat)
    ensures
      var page := Select(s, n);
      && |page| == (if n < |s| then n else |s|)
      && (forall i | 0 <= i < |page| :: page[i] in s)
      && Sorted(page)
      && (forall i, q | 0 <= i < |page| && q in s && q !in page :: Before(page[i], q))
  {
    if n > 0 && s != {} {
      var p := First(s);
      SelectExact(s - {p}, n - 1);
      var rest := Select(s - {p}, n - 1);
      var page := Select(s, n);
      assert page == [p] + rest;
      forall i, q | 0 <= i < |page| && q in s && q !in page ensures Before(page[i], q) {
        assert page[0] == p && q != p;
        if i > 0 {
          assert page[i] == rest[i - 1];
        }
      }
    }
  }
}
