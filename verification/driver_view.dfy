/** The driver dashboard: two snapshot subscriptions merged into one list
    (the `setPickupRequests` updaters), accepting and completing a pickup,
    and which action each listed request offers.

    The Firestore collection is a sequence of documents; `updateDoc` is
    `Pickups.Update`. The Maps route calculation is the parameter
    `routeFound`: whether a driver location was known, the Maps script was
    loaded and the directions service answered. */
module DriverView {
  import opened Common
  import opened Pickups

  // ---------------------------------------------------------------------
  // Snapshot merges
  // ---------------------------------------------------------------------

  function NotPending(): PickupRequest -> bool {
    (p: PickupRequest) => p.status != Pending
  }

  /** The updater run on every snapshot of the `status == 'pending'`
      query: drop the previously pending entries, append the snapshot. */
  function MergePending(prev: seq<PickupRequest>, snapshot: seq<PickupRequest>): (r: seq<PickupRequest>)
    ensures |r| == |prev| - CountStatus(prev, Pending) + |snapshot|
    ensures r[|r| - |snapshot|..] == snapshot
    ensures Subsequence(r[..|r| - |snapshot|], prev)
    ensures forall x :: x in r[..|r| - |snapshot|] <==> x in prev && x.status != Pending
  {
    var kept := Filter(prev, NotPending());
    FilterSubsequence(prev, NotPending());
    CountComplement(prev, NotPending(), HasStatus(Pending));
    assert (kept + snapshot)[..|kept|] == kept;
    kept + snapshot
  }

  /** Every entry of a snapshot of the pending query is pending. */
  predicate AllPending(snapshot: seq<PickupRequest>) {
    forall i :: 0 <= i < |snapshot| ==> snapshot[i].status == Pending
  }

  /** Re-applying the same pending snapshot changes nothing. */
  lemma MergePendingIdempotent(prev: seq<PickupRequest>, snapshot: seq<PickupRequest>)
    requires AllPending(snapshot)
    ensures MergePending(MergePending(prev, snapshot), snapshot) == MergePending(prev, snapshot)
  {
    var np := NotPending();
    var kept := Filter(prev, np);
    assert MergePending(prev, snapshot) == kept + snapshot;
    FilterAppend(kept, snapshot, np);
    assert forall i :: 0 <= i < |kept| ==> np(kept[i]) by {
      forall i | 0 <= i < |kept| ensures np(kept[i]) {
        assert kept[i] in kept;
      }
    }
    FilterAll(kept, np);
    FilterNone(snapshot, np);
    assert Filter(kept + snapshot, np) == kept;
  }

  /** `requests.map(req => req.id)`. */
  function Ids(s: seq<PickupRequest>): (ids: seq<string>)
    ensures |ids| == |s|
    ensures forall i :: 0 <= i < |s| ==> ids[i] == s[i].id
  {
    seq(|s|, i requires 0 <= i < |s| => s[i].id)
  }

  function KeptBeside(snapshot: seq<PickupRequest>): PickupRequest -> bool {
    (p: PickupRequest) => p.id !in Ids(snapshot) || p.status == Pending
  }

  /** The updater run on every snapshot of the `driverId == uid` query:
      drop previous entries whose id the snapshot carries unless they are
      pending, append the snapshot. */
  function MergeAssigned(prev: seq<PickupRequest>, snapshot: seq<PickupRequest>): (r: seq<PickupRequest>)
    ensures |snapshot| <= |r| <= |prev| + |snapshot|
    ensures |r| == Count(prev, KeptBeside(snapshot)) + |snapshot|
    ensures r[|r| - |snapshot|..] == snapshot
    ensures Subsequence(r[..|r| - |snapshot|], prev)
    ensures forall x :: x in r[..|r| - |snapshot|] <==>
      x in prev && (x.status == Pending || forall j :: 0 <= j < |snapshot| ==> snapshot[j].id != x.id)
  {
    var kept := Filter(prev, KeptBeside(snapshot));
    FilterSubsequence(prev, KeptBeside(snapshot));
    assert (kept + snapshot)[..|kept|] == kept;
    kept + snapshot
  }

  /** The two subscriptions can leave two entries with one id in the list:
      a pending entry from the pending query survives the assigned merge
      beside the assigned copy of the same document. */
  lemma PendingCopySurvives(prev: seq<PickupRequest>, snapshot: seq<PickupRequest>, p: PickupRequest, q: PickupRequest)
    requires p in prev && p.status == Pending
    requires q in snapshot && q.id == p.id && q.status != Pending
    ensures var r := MergeAssigned(prev, snapshot);
      exists i, j :: 0 <= i < j < |r| && r[i] == p && r[j] == q && r[i].id == r[j].id
  {
    var r := MergeAssigned(prev, snapshot);
    var k := |r| - |snapshot|;
    assert p in r[..k];
    var i :| 0 <= i < k && r[..k][i] == p;
    var j' :| 0 <= j' < |snapshot| && snapshot[j'] == q;
    assert r[k + j'] == r[k..][j'] == q;
  }

  // ---------------------------------------------------------------------
  // Accept and complete
  // ---------------------------------------------------------------------

  /** The dashboard state the handlers change: the collection (each
      document once, as stored; the merged list the dashboard renders is
      built by the updaters above), the
      request shown in the detail panel and the destination of the
      directions drawn on the map. */
  datatype DriverState = DriverState(
    store: seq<PickupRequest>,
    selected: Option<PickupRequest>,
    directions: Option<Location>)

  function AcceptChange(uid: string): PickupRequest -> PickupRequest {
    (p: PickupRequest) => p.(status := Accepted, driverId := Some(uid))
  }

  function CompleteChange(now: int): PickupRequest -> PickupRequest {
    (p: PickupRequest) => p.(status := Completed, completedAt := Some(now))
  }

  /** `handleAcceptPickup`: nothing without a signed-in driver or when the
      update fails; otherwise the document becomes accepted by this driver
      and the request (as it was listed) is selected. */
  function HandleAccept(st: DriverState, user: Option<string>, req: PickupRequest, routeFound: bool)
    : (r: DriverState)
    ensures user.None? ==> r == st
    ensures (forall i :: 0 <= i < |st.store| ==> st.store[i].id != req.id) ==> r == st
    ensures r != st ==> user.Some?
    ensures user.Some? && (exists i :: 0 <= i < |st.store| && st.store[i].id == req.id) ==>
      r.selected == Some(req)
      && r.directions == (if routeFound && req.location.Some? then req.location else st.directions)
    ensures |r.store| == |st.store|
    ensures user.Some? ==> forall i :: 0 <= i < |st.store| ==>
      if st.store[i].id == req.id
      then r.store[i].status == Accepted && r.store[i].driverId == user
           && r.store[i].(status := st.store[i].status, driverId := st.store[i].driverId) == st.store[i]
      else r.store[i] == st.store[i]
  {
    match user
    case None => st
    case Some(uid) =>
      match Update(st.store, req.id, AcceptChange(uid))
      case None => st
      case Some(store) =>
        DriverState(store, Some(req),
          if routeFound && req.location.Some? then req.location else st.directions)
  }

  /** `handleCompletePickup`: the document becomes completed at `now`, and
      the selection and directions are cleared; nothing when the update
      fails. */
  function HandleComplete(st: DriverState, id: string, now: int): (r: DriverState)
    ensures (forall i :: 0 <= i < |st.store| ==> st.store[i].id != id) ==> r == st
    ensures (exists i :: 0 <= i < |st.store| && st.store[i].id == id) ==>
      r.selected.None? && r.directions.None?
    ensures |r.store| == |st.store|
    ensures forall i :: 0 <= i < |st.store| ==>
      if st.store[i].id == id
      then r.store[i].status == Completed && r.store[i].completedAt == Some(now)
           && r.store[i].(status := st.store[i].status, completedAt := st.store[i].completedAt) == st.store[i]
      else r.store[i] == st.store[i]
  {
    match Update(st.store, id, CompleteChange(now))
    case None => st
    case Some(store) => DriverState(store, None, None)
  }

  /** Document ids are unique within a collection. */
  predicate UniqueIds(store: seq<PickupRequest>) {
    forall i, j :: 0 <= i < j < |store| ==> store[i].id != store[j].id
  }

  /** Accepting a pending request moves one request from the pending
      counter to the accepted counter of the collection, where each
      document is counted once (as the agency dashboard counts them). The
      driver dashboard's merged list can hold a document twice
      (`PendingCopySurvives`), and its counters are not covered here. */
  lemma AcceptShiftsCounts(st: DriverState, uid: string, k: nat, routeFound: bool)
    requires UniqueIds(st.store) && k < |st.store| && st.store[k].status == Pending
    ensures var before, after := Counts(st.store), Counts(HandleAccept(st, Some(uid), st.store[k], routeFound).store);
      after.pending + 1 == before.pending && after.accepted == before.accepted + 1
      && after.completed == before.completed && after.total == before.total
  {
    var r := HandleAccept(st, Some(uid), st.store[k], routeFound);
    assert r.store[k].status == Accepted;
    assert forall i :: 0 <= i < |st.store| && i != k ==> r.store[i] == st.store[i];
    CountPointUpdate(st.store, r.store, k, HasStatus(Pending));
    CountPointUpdate(st.store, r.store, k, HasStatus(Accepted));
    CountPointUpdate(st.store, r.store, k, HasStatus(Completed));
  }

  /** Completing an accepted request moves one request from the accepted
      counter to the completed counter of the collection, each document
      counted once. */
  lemma CompleteShiftsCounts(st: DriverState, k: nat, now: int)
    requires UniqueIds(st.store) && k < |st.store| && st.store[k].status == Accepted
    ensures var before, after := Counts(st.store), Counts(HandleComplete(st, st.store[k].id, now).store);
      after.pending == before.pending && after.accepted + 1 == before.accepted
      && after.completed == before.completed + 1 && after.total == before.total
  {
    var r := HandleComplete(st, st.store[k].id, now);
    assert r.store[k].status == Completed;
    assert forall i :: 0 <= i < |st.store| && i != k ==> r.store[i] == st.store[i];
    CountPointUpdate(st.store, r.store, k, HasStatus(Pending));
    CountPointUpdate(st.store, r.store, k, HasStatus(Accepted));
    CountPointUpdate(st.store, r.store, k, HasStatus(Completed));
  }

  // ---------------------------------------------------------------------
  // Offered actions
  // ---------------------------------------------------------------------

  datatype Action = AcceptAction | CompleteAction | DetailsAction

  /** The button shown on a listed request. */
  function ListAction(req: PickupRequest, selected: Option<PickupRequest>): (a: Action)
    ensures a == AcceptAction <==> req.status == Pending
    ensures a == CompleteAction ==> req.status == Accepted
  {
    if req.status == Pending then AcceptAction
    else if req.status == Accepted && selected.Some? && selected.value.id == req.id then CompleteAction
    else DetailsAction
  }

  /** The detail panel shows a Complete button for the selected request. */
  predicate PanelOffersComplete(selected: Option<PickupRequest>) {
    selected.Some? && selected.value.status == Accepted
  }

  /** After a pending request is accepted, a list showing the updated
      collection offers Complete on that document while the detail panel, which holds the request as it
      was listed, still sees it pending and offers nothing. */
  lemma AcceptThenOffers(st: DriverState, uid: string, k: nat, routeFound: bool)
    requires UniqueIds(st.store) && k < |st.store| && st.store[k].status == Pending
    ensures var r := HandleAccept(st, Some(uid), st.store[k], routeFound);
      ListAction(r.store[k], r.selected) == CompleteAction && !PanelOffersComplete(r.selected)
  {
    var r := HandleAccept(st, Some(uid), st.store[k], routeFound);
    assert r.store[k].status == Accepted && r.store[k].id == st.store[k].id;
  }
}
