/** The `pickupRequests` document shared by the three dashboards, and the
    per-status counts each dashboard shows (`filter(...).length`).

    Firestore timestamps are whole seconds (`Timestamp.seconds`); optional
    fields are Options. */
module Pickups {
  import opened Common

  datatype Location = Location(lat: real, lng: real)

  datatype PickupRequest = PickupRequest(
    id: string,
    userId: string,
    userEmail: Option<string>,
    date: string,
    time: string,
    address: string,
    wasteType: string,
    status: string,
    driverId: Option<string>,
    createdAt: Option<int>,
    completedAt: Option<int>,
    location: Option<Location>)

  const Pending: string := "pending"
  const Accepted: string := "accepted"
  const Completed: string := "completed"

  function HasStatus(status: string): PickupRequest -> bool {
    (p: PickupRequest) => p.status == status
  }

  /** `requests.filter(r => r.status === status).length`. */
  function CountStatus(reqs: seq<PickupRequest>, status: string): (n: nat)
    ensures n <= |reqs|
    ensures n == |Filter(reqs, HasStatus(status))|
  {
    Count(reqs, HasStatus(status))
  }

  /** The counters shown on a dashboard. */
  datatype StatusCounts = StatusCounts(pending: nat, accepted: nat, completed: nat, total: nat)

  function Counts(reqs: seq<PickupRequest>): (c: StatusCounts)
    ensures c.total == |reqs|
    ensures c.pending + c.accepted + c.completed <= c.total
  {
    StatusCountsBounded(reqs);
    StatusCounts(CountStatus(reqs, Pending), CountStatus(reqs, Accepted),
      CountStatus(reqs, Completed), |reqs|)
  }

  /** A request has one status, so the three counters never add up to more
      than the number of requests. */
  lemma {:induction false} StatusCountsBounded(reqs: seq<PickupRequest>)
    ensures CountStatus(reqs, Pending) + CountStatus(reqs, Accepted) + CountStatus(reqs, Completed) <= |reqs|
    decreases |reqs|
  {
    if |reqs| > 0 {
      StatusCountsBounded(reqs[1..]);
      assert Count(reqs, HasStatus(Pending)) ==
        (if reqs[0].status == Pending then 1 else 0) + Count(reqs[1..], HasStatus(Pending));
      assert Count(reqs, HasStatus(Accepted)) ==
        (if reqs[0].status == Accepted then 1 else 0) + Count(reqs[1..], HasStatus(Accepted));
      assert Count(reqs, HasStatus(Completed)) ==
        (if reqs[0].status == Completed then 1 else 0) + Count(reqs[1..], HasStatus(Completed));
    }
  }

  /** `updateDoc(doc(db, 'pickupRequests', id), fields)`: every document
      with that id is rewritten by `change`; None when there is no such
      document, which makes `updateDoc` reject. */
  function Update(store: seq<PickupRequest>, id: string, change: PickupRequest -> PickupRequest)
    : (r: Option<seq<PickupRequest>>)
    ensures r.None? <==> forall i :: 0 <= i < |store| ==> store[i].id != id
    ensures r.Some? ==> |r.value| == |store|
    ensures r.Some? ==> forall i :: 0 <= i < |store| ==>
      r.value[i] == if store[i].id == id then change(store[i]) else store[i]
  {
    if forall i :: 0 <= i < |store| ==> store[i].id != id then None
    else Some(seq(|store|, i requires 0 <= i < |store| => if store[i].id == id then change(store[i]) else store[i]))
  }

  // ---------------------------------------------------------------------
  // A loop of updates that stops at the first missing document
  // ---------------------------------------------------------------------

  /** `updateDoc(..., { status: 'pending' })` on one document. */
  function Reset(p: PickupRequest): PickupRequest {
    p.(status := Pending)
  }

  function SetPending(): PickupRequest -> PickupRequest {
    (p: PickupRequest) => Reset(p)
  }

  predicate HasDoc(store: seq<PickupRequest>, id: string) {
    exists i :: 0 <= i < |store| && store[i].id == id
  }

  /** How many of `ids`, in order, name an existing document before the
      first that does not. */
  function FoundPrefix(store: seq<PickupRequest>, ids: seq<string>): (n: nat)
    ensures n <= |ids|
  {
    if |ids| == 0 || !HasDoc(store, ids[0]) then 0 else 1 + FoundPrefix(store, ids[1..])
  }

  /** The found prefix ends exactly at the first missing document. */
  lemma {:induction false} FoundPrefixIsFirstMissing(store: seq<PickupRequest>, ids: seq<string>)
    ensures forall j :: 0 <= j < FoundPrefix(store, ids) ==> HasDoc(store, ids[j])
    ensures FoundPrefix(store, ids) < |ids| ==> !HasDoc(store, ids[FoundPrefix(store, ids)])
    decreases |ids|
  {
    if |ids| > 0 && HasDoc(store, ids[0]) {
      FoundPrefixIsFirstMissing(store, ids[1..]);
      var n := FoundPrefix(store, ids);
      forall j | 0 <= j < n ensures HasDoc(store, ids[j]) {
        if j > 0 {
          assert ids[j] == ids[1..][j - 1];
        }
      }
      if n < |ids| {
        assert ids[n] == ids[1..][n - 1];
      }
    }
  }

  /** The loop setting each listed pickup back to pending, in order; a
      missing document makes `updateDoc` throw and ends the loop, reported
      as `false`. */
  function ResetPending(store: seq<PickupRequest>, ids: seq<string>): (r: (seq<PickupRequest>, bool))
    ensures |r.0| == |store|
    ensures forall i :: 0 <= i < |store| ==> r.0[i].id == store[i].id
    decreases |ids|
  {
    if |ids| == 0 then (store, true)
    else match Update(store, ids[0], SetPending())
      case None => (store, false)
      case Some(next) => ResetPending(next, ids[1..])
  }

  /** The reset loop sets exactly the pickups it reached before the first
      missing document to pending, and reports success exactly when no
      listed document was missing. */
  lemma {:induction false} ResetPendingEffect(store: seq<PickupRequest>, ids: seq<string>)
    ensures ResetPending(store, ids).1 <==> FoundPrefix(store, ids) == |ids|
    ensures forall i :: 0 <= i < |store| ==>
      ResetPending(store, ids).0[i] ==
        if store[i].id in ids[..FoundPrefix(store, ids)] then Reset(store[i]) else store[i]
    decreases |ids|
  {
    if |ids| > 0 && HasDoc(store, ids[0]) {
      var next := ResetFirst(store, ids);
      ResetPendingEffect(next, ids[1..]);
      var (after, ok) := ResetPending(next, ids[1..]);
      ResetTail(store, ids, next, after, ok);
    } else if |ids| > 0 {
      ResetMissing(store, ids);
    }
  }

  /** The first listed document exists: the loop updates it and goes on. */
  lemma ResetFirst(store: seq<PickupRequest>, ids: seq<string>) returns (next: seq<PickupRequest>)
    requires |ids| > 0 && HasDoc(store, ids[0])
    ensures ResetPending(store, ids) == ResetPending(next, ids[1..])
    ensures |next| == |store|
    ensures forall j :: 0 <= j < |store| ==> next[j] == if store[j].id == ids[0] then Reset(store[j]) else store[j]
  {
    var j :| 0 <= j < |store| && store[j].id == ids[0];
    var u := Update(store, ids[0], SetPending());
    assert u.Some?;
    next := u.value;
  }

  /** The first listed document is missing: the loop stops at once. */
  lemma ResetMissing(store: seq<PickupRequest>, ids: seq<string>)
    requires |ids| > 0 && !HasDoc(store, ids[0])
    ensures ResetPending(store, ids) == (store, false)
    ensures FoundPrefix(store, ids) == 0
  {
    assert forall i :: 0 <= i < |store| ==> store[i].id != ids[0];
  }

  lemma ResetTail(store: seq<PickupRequest>, ids: seq<string>, next: seq<PickupRequest>,
                  after: seq<PickupRequest>, ok: bool)
    requires |ids| > 0 && HasDoc(store, ids[0])
    requires |next| == |store| == |after|
    requires forall j :: 0 <= j < |store| ==> next[j] == if store[j].id == ids[0] then Reset(store[j]) else store[j]
    requires ok <==> FoundPrefix(next, ids[1..]) == |ids| - 1
    requires forall i :: 0 <= i < |next| ==>
      after[i] == if next[i].id in ids[1..][..FoundPrefix(next, ids[1..])] then Reset(next[i]) else next[i]
    ensures ok <==> FoundPrefix(store, ids) == |ids|
    ensures forall i :: 0 <= i < |store| ==>
      after[i] == if store[i].id in ids[..FoundPrefix(store, ids)] then Reset(store[i]) else store[i]
  {
    ResetKeepsIds(store, next, ids[0]);
    SameIdsSameFound(store, next, ids[1..]);
    var n := FoundPrefix(store, ids);
    assert n == 1 + FoundPrefix(next, ids[1..]);
    ResetPointwise(store, ids, next, after, n);
  }

  lemma ResetKeepsIds(store: seq<PickupRequest>, next: seq<PickupRequest>, id: string)
    requires |next| == |store|
    requires forall j :: 0 <= j < |store| ==> next[j] == if store[j].id == id then Reset(store[j]) else store[j]
    ensures forall j :: 0 <= j < |store| ==> next[j].id == store[j].id
  {
  }

  lemma ResetPointwise(store: seq<PickupRequest>, ids: seq<string>, next: seq<PickupRequest>,
                       after: seq<PickupRequest>, n: nat)
    requires 0 < n <= |ids|
    requires |next| == |store| == |after|
    requires forall j :: 0 <= j < |store| ==> next[j] == if store[j].id == ids[0] then Reset(store[j]) else store[j]
    requires forall i :: 0 <= i < |next| ==>
      after[i] == if next[i].id in ids[1..][..n - 1] then Reset(next[i]) else next[i]
    ensures forall i :: 0 <= i < |store| ==>
      after[i] == if store[i].id in ids[..n] then Reset(store[i]) else store[i]
  {
    SplitPrefix(ids, n);
    forall i | 0 <= i < |store|
      ensures after[i] == if store[i].id in ids[..n] then Reset(store[i]) else store[i]
    {
      ResetStep(store[i], next[i], after[i], ids[0], ids[1..][..n - 1]);
    }
  }

  /** One element through one step of the reset loop and the rest of it. */
  lemma ResetStep(p: PickupRequest, next: PickupRequest, after: PickupRequest, first: string, rest: seq<string>)
    requires next == if p.id == first then Reset(p) else p
    requires after == if next.id in rest then Reset(next) else next
    ensures after == if p.id in [first] + rest then Reset(p) else p
  {
  }

  lemma {:induction false} SameIdsSameFound(a: seq<PickupRequest>, b: seq<PickupRequest>, ids: seq<string>)
    requires |a| == |b| && forall j :: 0 <= j < |a| ==> a[j].id == b[j].id
    ensures FoundPrefix(a, ids) == FoundPrefix(b, ids)
    decreases |ids|
  {
    if |ids| > 0 {
      if HasDoc(a, ids[0]) {
        var j :| 0 <= j < |a| && a[j].id == ids[0];
        assert b[j].id == ids[0];
      }
      if HasDoc(b, ids[0]) {
        var j :| 0 <= j < |b| && b[j].id == ids[0];
        assert a[j].id == ids[0];
      }
      SameIdsSameFound(a, b, ids[1..]);
    }
  }

  // ---------------------------------------------------------------------
  // Newest-first ordering
  // ---------------------------------------------------------------------

  /** The sort comparator is negative: both requests have `createdAt` and
      `a` is strictly newer than `b`. Without both timestamps it is 0. */
  predicate NewerThan(a: PickupRequest, b: PickupRequest) {
    a.createdAt.Some? && b.createdAt.Some? && a.createdAt.value > b.createdAt.value
  }

  predicate AllDated(s: seq<PickupRequest>) {
    forall i :: 0 <= i < |s| ==> s[i].createdAt.Some?
  }

  /** Every request is at least as new as every later one. */
  predicate NewestFirst(s: seq<PickupRequest>) {
    forall i, j :: 0 <= i < j < |s| ==>
      s[i].createdAt.Some? && s[j].createdAt.Some? && s[i].createdAt.value >= s[j].createdAt.value
  }

  /** One step of a stable insertion sort: `x` goes before the first
      entry it is strictly newer than, so after every entry that is at
      least as new. */
  function InsertNewest(x: PickupRequest, s: seq<PickupRequest>): (r: seq<PickupRequest>)
    ensures multiset(r) == multiset(s) + multiset{x}
  {
    if |s| == 0 then [x]
    else if NewerThan(x, s[0]) then [x] + s
    else
      assert s == [s[0]] + s[1..];
      [s[0]] + InsertNewest(x, s[1..])
  }

  /** `requests.sort((a, b) => b.createdAt.seconds - a.createdAt.seconds)`
      as a stable sort, the requests taken in their original order. */
  function SortNewestFirst(s: seq<PickupRequest>): (r: seq<PickupRequest>)
    ensures multiset(r) == multiset(s)
    ensures AllDated(s) ==> AllDated(r)
  {
    if |s| == 0 then []
    else
      var init := s[..|s| - 1];
      assert s == init + [s[|s| - 1]];
      var r := InsertNewest(s[|s| - 1], SortNewestFirst(init));
      assert forall i :: 0 <= i < |r| ==> r[i] in multiset(s) by {
        forall i | 0 <= i < |r| ensures r[i] in multiset(s) {
          assert r[i] in multiset(r);
        }
      }
      r
  }

  lemma {:induction false} InsertKeepsNewestFirst(x: PickupRequest, s: seq<PickupRequest>)
    requires x.createdAt.Some? && AllDated(s) && NewestFirst(s)
    ensures NewestFirst(InsertNewest(x, s))
    decreases |s|
  {
    if |s| > 0 {
      if NewerThan(x, s[0]) {
        ConsNewestFirst(x, s);
      } else {
        var tail := s[1..];
        assert AllDated(tail) && NewestFirst(tail) by {
          forall i | 0 <= i < |tail| ensures tail[i] == s[i + 1] { }
        }
        var rest := InsertNewest(x, tail);
        InsertKeepsNewestFirst(x, tail);
        forall j | 0 <= j < |rest|
          ensures rest[j].createdAt.Some? && s[0].createdAt.value >= rest[j].createdAt.value
        {
          assert rest[j] in multiset(rest);
          if rest[j] != x {
            assert rest[j] in tail;
          }
        }
        ConsNewestFirst(s[0], rest);
      }
    }
  }

  lemma ConsNewestFirst(h: PickupRequest, rest: seq<PickupRequest>)
    requires h.createdAt.Some? && NewestFirst(rest)
    requires forall j :: 0 <= j < |rest| ==> rest[j].createdAt.Some? && h.createdAt.value >= rest[j].createdAt.value
    ensures NewestFirst([h] + rest)
  {
    var t := [h] + rest;
    forall i, j | 0 <= i < j < |t|
      ensures t[i].createdAt.Some? && t[j].createdAt.Some? && t[i].createdAt.value >= t[j].createdAt.value
    {
      assert t[j] == rest[j - 1];
      if i > 0 {
        assert t[i] == rest[i - 1];
      }
    }
  }

  /** When every request has `createdAt`, the history is newest first. */
  lemma {:induction false} SortIsNewestFirst(s: seq<PickupRequest>)
    requires AllDated(s)
    ensures NewestFirst(SortNewestFirst(s))
    decreases |s|
  {
    if |s| > 0 {
      var init := s[..|s| - 1];
      assert AllDated(init) by {
        forall i | 0 <= i < |init| ensures init[i].createdAt.Some? {
          assert init[i] == s[i];
        }
      }
      SortIsNewestFirst(init);
      InsertKeepsNewestFirst(s[|s| - 1], SortNewestFirst(init));
    }
  }

  lemma {:induction false} InsertOldest(x: PickupRequest, s: seq<PickupRequest>)
    requires forall i :: 0 <= i < |s| ==> !NewerThan(x, s[i])
    ensures InsertNewest(x, s) == s + [x]
    decreases |s|
  {
    if |s| > 0 {
      InsertOldest(x, s[1..]);
      assert [s[0]] + (s[1..] + [x]) == s + [x];
    }
  }

  /** A history already newest first is left as it is: the sort is
      stable. */
  lemma {:induction false} SortKeepsSorted(s: seq<PickupRequest>)
    requires NewestFirst(s)
    ensures SortNewestFirst(s) == s
    decreases |s|
  {
    if |s| > 0 {
      var init, x := s[..|s| - 1], s[|s| - 1];
      assert s == init + [x];
      SortedInitAndLast(init, x);
      SortKeepsSorted(init);
      InsertOldest(x, init);
      SortUnfold(s);
    }
  }

  lemma SortedInitAndLast(init: seq<PickupRequest>, x: PickupRequest)
    requires NewestFirst(init + [x])
    ensures NewestFirst(init)
    ensures forall i :: 0 <= i < |init| ==> !NewerThan(x, init[i])
  {
    var s := init + [x];
    forall i | 0 <= i < |init| ensures !NewerThan(x, init[i]) {
      assert init[i] == s[i] && s[|init|] == x;
    }
    forall i, j | 0 <= i < j < |init|
      ensures init[i].createdAt.Some? && init[j].createdAt.Some? && init[i].createdAt.value >= init[j].createdAt.value
    {
      assert init[i] == s[i] && init[j] == s[j] && j < |s|;
      assert s[i].createdAt.Some? && s[j].createdAt.Some? && s[i].createdAt.value >= s[j].createdAt.value;
    }
  }

  lemma SortUnfold(s: seq<PickupRequest>)
    requires |s| > 0
    ensures SortNewestFirst(s) == InsertNewest(s[|s| - 1], SortNewestFirst(s[..|s| - 1]))
  {
  }
}
