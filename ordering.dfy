/** The default ticket listing: every stored ticket once, most recently
    updated first. The Django model asks for `updated_on` descending and
    nothing else, so the order among tickets with equal `updated_on` is not
    specified; this definition happens to keep them by ascending id. */
module Ordering {

  import opened Records

  /** Every id in `s` names a ticket of `m`. */
  predicate InTable(m: map<TicketId, Ticket>, s: seq<TicketId>)
  {
    forall i :: 0 <= i < |s| ==> s[i] in m
  }

  predicate Distinct(s: seq<TicketId>)
  {
    forall i, j :: 0 <= i < j < |s| ==> s[i] != s[j]
  }

  /** `updated_on` never increases along the listing. */
  predicate NewestFirst(m: map<TicketId, Ticket>, s: seq<TicketId>)
    requires InTable(m, s)
  {
    forall i, j :: 0 <= i < j < |s| ==> m[s[i]].updatedOn >= m[s[j]].updatedOn
  }

  /** The ids below `bound` that `m` holds, in ascending order. */
  function IdsBelow(m: map<TicketId, Ticket>, bound: nat): (s: seq<TicketId>)
    ensures InTable(m, s)
    ensures forall i :: 0 <= i < |s| ==> s[i] < bound
    ensures forall i, j :: 0 <= i < j < |s| ==> s[i] < s[j]
    ensures forall k :: k in m && k < bound ==> k in s
    decreases bound
  {
    if bound == 0 then []
    else if bound - 1 in m then IdsBelow(m, bound - 1) + [bound - 1]
    else IdsBelow(m, bound - 1)
  }

  /** Put `id` in front of the first ticket that is not more recent. */
  function Insert(m: map<TicketId, Ticket>, id: TicketId, s: seq<TicketId>): (r: seq<TicketId>)
    requires id in m && InTable(m, s)
    ensures InTable(m, r)
    ensures multiset(r) == multiset(s) + multiset{id}
  {
    if s == [] then [id]
    else if m[id].updatedOn >= m[s[0]].updatedOn then [id] + s
    else
      assert s == [s[0]] + s[1..];
      [s[0]] + Insert(m, id, s[1..])
  }

  /** Insertion sort, newest first; a permutation of its input. */
  function Sort(m: map<TicketId, Ticket>, s: seq<TicketId>): (r: seq<TicketId>)
    requires InTable(m, s)
    ensures InTable(m, r)
    ensures multiset(r) == multiset(s)
  {
    if s == [] then []
    else
      assert s == [s[0]] + s[1..];
      Insert(m, s[0], Sort(m, s[1..]))
  }

  /** The listing of all tickets whose ids are below `bound`. */
  function Listing(m: map<TicketId, Ticket>, bound: nat): seq<TicketId>
  {
    Sort(m, IdsBelow(m, bound))
  }

  lemma {:induction false} InsertNewestFirst(m: map<TicketId, Ticket>, id: TicketId, s: seq<TicketId>)
    requires id in m && InTable(m, s) && NewestFirst(m, s)
    ensures InTable(m, Insert(m, id, s)) && NewestFirst(m, Insert(m, id, s))
  {
    var r := Insert(m, id, s);
    if s != [] && m[id].updatedOn < m[s[0]].updatedOn {
      var tail := Insert(m, id, s[1..]);
      InsertNewestFirst(m, id, s[1..]);
      assert r == [s[0]] + tail;
      forall j | 0 <= j < |tail|
        ensures m[s[0]].updatedOn >= m[tail[j]].updatedOn
      {
        assert tail[j] in multiset(s[1..]) + multiset{id};
        if tail[j] != id {
          assert tail[j] in multiset(s[1..]);
          var k :| 0 <= k < |s[1..]| && s[1..][k] == tail[j];
          assert s[k + 1] == tail[j];
        }
      }
    }
  }

  lemma {:induction false} SortNewestFirst(m: map<TicketId, Ticket>, s: seq<TicketId>)
    requires InTable(m, s)
    ensures InTable(m, Sort(m, s)) && NewestFirst(m, Sort(m, s))
  {
    if s != [] {
      SortNewestFirst(m, s[1..]);
      InsertNewestFirst(m, s[0], Sort(m, s[1..]));
    }
  }

  /** A sequence with the same elements, counted with multiplicity, as a
      sequence without repetitions has no repetitions either. */
  lemma {:induction false} DistinctByMultiset(s: seq<TicketId>, t: seq<TicketId>)
    requires multiset(s) == multiset(t) && Distinct(t)
    ensures Distinct(s)
  {
    forall i, j | 0 <= i < j < |s|
      ensures s[i] != s[j]
    {
      if s[i] == s[j] {
        assert multiset(s)[s[i]] >= 2 by {
          var rest := s[..i] + s[i + 1..];
          assert s == s[..i] + [s[i]] + s[i + 1..];
          assert rest[j - 1] == s[j];
          assert multiset(s) == multiset(rest) + multiset{s[i]};
        }
        DistinctCountsOnce(t, s[i]);
      }
    }
  }

  lemma {:induction false} DistinctCountsOnce(t: seq<TicketId>, x: TicketId)
    requires Distinct(t)
    ensures multiset(t)[x] <= 1
  {
    if t != [] {
      var last := t[|t| - 1];
      var front := t[..|t| - 1];
      assert t == front + [last];
      assert Distinct(front);
      DistinctCountsOnce(front, x);
      if x == last {
        assert x !in front;
      }
    }
  }

  /** The default listing holds every stored ticket exactly once, and no
      ticket is listed before one that was updated later. */
  lemma ListingIsNewestFirstPermutation(m: map<TicketId, Ticket>, bound: nat)
    requires forall k :: k in m ==> k < bound
    ensures InTable(m, Listing(m, bound))
    ensures forall k :: k in m <==> k in Listing(m, bound)
    ensures Distinct(Listing(m, bound))
    ensures NewestFirst(m, Listing(m, bound))
  {
    var ids := IdsBelow(m, bound);
    var r := Listing(m, bound);
    SortNewestFirst(m, ids);
    forall k ensures k in m <==> k in r {
      assert k in r <==> k in multiset(r);
      assert k in ids <==> k in multiset(ids);
    }
    DistinctByMultiset(r, ids);
  }
}
