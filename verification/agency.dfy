/** The agency dashboard: the two chart aggregations over pickup requests,
    the guards on adding drivers and routes, and the three delete cascades
    of `handleConfirmDelete`, written as transforms of a snapshot of the
    `drivers`, `routes` and `pickupRequests` collections.

    A plain object used as a counter map is a sequence of entries in
    insertion order (the order `Object.entries` and `Object.values` give
    for non-numeric keys). A `createdAt` timestamp is whole seconds; its
    calendar day is `seconds / 86400`, and comparing two days stands for
    comparing the dates `toLocaleDateString` prints. */
module Agency {
  import opened Common
  import opened Pickups

  datatype Driver = Driver(id: string, name: string, email: string, phone: string, status: string)

  datatype Route = Route(id: string, driverId: string, date: string, pickups: seq<string>, status: string)

  datatype Snapshot = Snapshot(drivers: seq<Driver>, routes: seq<Route>, pickups: seq<PickupRequest>)

  // ---------------------------------------------------------------------
  // processWasteTypeData
  // ---------------------------------------------------------------------

  datatype WasteTypeData = WasteTypeData(wasteType: string, count: nat)

  /** `request.wasteType || 'Unknown'`: a missing type is the empty string. */
  function WasteKey(r: PickupRequest): string {
    if r.wasteType == "" then "Unknown" else r.wasteType
  }

  /** Requests counted under `key`. */
  function KeyCount(reqs: seq<PickupRequest>, key: string): (n: nat)
    ensures n <= |reqs|
  {
    if |reqs| == 0 then 0
    else KeyCount(reqs[..|reqs| - 1], key) + (if WasteKey(reqs[|reqs| - 1]) == key then 1 else 0)
  }

  function WasteKeys(d: seq<WasteTypeData>): (ks: seq<string>)
    ensures |ks| == |d|
    ensures forall i :: 0 <= i < |d| ==> ks[i] == d[i].wasteType
  {
    if |d| == 0 then [] else [d[0].wasteType] + WasteKeys(d[1..])
  }

  predicate DistinctWasteKeys(d: seq<WasteTypeData>) {
    Distinct(WasteKeys(d))
  }

  /** `data[key]`, 0 when the key is absent. */
  function WasteLookup(d: seq<WasteTypeData>, key: string): nat {
    if |d| == 0 then 0
    else if d[0].wasteType == key then d[0].count
    else WasteLookup(d[1..], key)
  }

  function WasteTotal(d: seq<WasteTypeData>): nat {
    if |d| == 0 then 0 else d[0].count + WasteTotal(d[1..])
  }

  predicate PositiveCounts(d: seq<WasteTypeData>) {
    forall i :: 0 <= i < |d| ==> d[i].count >= 1
  }

  /** `data[key]++`, creating the entry at the end when it is new: the
      keys keep their order and a new key goes last. */
  function BumpWaste(d: seq<WasteTypeData>, key: string): (r: seq<WasteTypeData>)
    ensures WasteKeys(r) == if key in WasteKeys(d) then WasteKeys(d) else WasteKeys(d) + [key]
  {
    if |d| == 0 then [WasteTypeData(key, 1)]
    else if d[0].wasteType == key then [d[0].(count := d[0].count + 1)] + d[1..]
    else [d[0]] + BumpWaste(d[1..], key)
  }

  /** Bumping adds one to the bumped key and nothing to the others. */
  lemma {:induction false} BumpWasteLookup(d: seq<WasteTypeData>, key: string, k: string)
    ensures WasteLookup(BumpWaste(d, key), k) == WasteLookup(d, k) + (if k == key then 1 else 0)
    decreases |d|
  {
    if |d| > 0 && d[0].wasteType != key {
      BumpWasteLookup(d[1..], key, k);
    }
  }

  lemma {:induction false} BumpWasteTotal(d: seq<WasteTypeData>, key: string)
    ensures WasteTotal(BumpWaste(d, key)) == WasteTotal(d) + 1
    decreases |d|
  {
    if |d| > 0 && d[0].wasteType != key {
      BumpWasteTotal(d[1..], key);
    } else if |d| > 0 {
      assert BumpWaste(d, key)[1..] == d[1..];
    }
  }

  lemma {:induction false} BumpWastePositive(d: seq<WasteTypeData>, key: string)
    requires PositiveCounts(d)
    ensures PositiveCounts(BumpWaste(d, key))
    decreases |d|
  {
    if |d| > 0 && d[0].wasteType != key {
      BumpWastePositive(d[1..], key);
    }
  }

  /** `processWasteTypeData`: the requests tallied one by one. */
  function ProcessWasteTypeData(reqs: seq<PickupRequest>): seq<WasteTypeData> {
    if |reqs| == 0 then []
    else BumpWaste(ProcessWasteTypeData(reqs[..|reqs| - 1]), WasteKey(reqs[|reqs| - 1]))
  }

  /** The chart has one entry per waste type, in order of first
      appearance, each with the number of requests of that type (a missing
      type counting as "Unknown"); the counts are positive and add up to
      the number of requests. */
  lemma WasteTypeChart(reqs: seq<PickupRequest>)
    ensures var d := ProcessWasteTypeData(reqs);
      DistinctWasteKeys(d) && PositiveCounts(d) && WasteTotal(d) == |reqs|
      && (forall k :: WasteLookup(d, k) == KeyCount(reqs, k))
      && (forall i :: 0 <= i < |reqs| ==> WasteKey(reqs[i]) in WasteKeys(d))
  {
    WasteChartDistinct(reqs);
    WasteChartPositive(reqs);
    WasteChartTotal(reqs);
    forall k ensures WasteLookup(ProcessWasteTypeData(reqs), k) == KeyCount(reqs, k) {
      WasteChartLookup(reqs, k);
    }
    WasteChartCovers(reqs);
  }

  lemma {:induction false} WasteChartDistinct(reqs: seq<PickupRequest>)
    ensures DistinctWasteKeys(ProcessWasteTypeData(reqs))
    decreases |reqs|
  {
    if |reqs| > 0 {
      var prev, key := ProcessWasteTypeData(reqs[..|reqs| - 1]), WasteKey(reqs[|reqs| - 1]);
      WasteChartDistinct(reqs[..|reqs| - 1]);
      if key !in WasteKeys(prev) {
        DistinctAppend(WasteKeys(prev), key);
      }
    }
  }

  lemma {:induction false} WasteChartPositive(reqs: seq<PickupRequest>)
    ensures PositiveCounts(ProcessWasteTypeData(reqs))
    decreases |reqs|
  {
    if |reqs| > 0 {
      WasteChartPositive(reqs[..|reqs| - 1]);
      BumpWastePositive(ProcessWasteTypeData(reqs[..|reqs| - 1]), WasteKey(reqs[|reqs| - 1]));
    }
  }

  lemma {:induction false} WasteChartTotal(reqs: seq<PickupRequest>)
    ensures WasteTotal(ProcessWasteTypeData(reqs)) == |reqs|
    decreases |reqs|
  {
    if |reqs| > 0 {
      WasteChartTotal(reqs[..|reqs| - 1]);
      BumpWasteTotal(ProcessWasteTypeData(reqs[..|reqs| - 1]), WasteKey(reqs[|reqs| - 1]));
    }
  }

  lemma {:induction false} WasteChartLookup(reqs: seq<PickupRequest>, k: string)
    ensures WasteLookup(ProcessWasteTypeData(reqs), k) == KeyCount(reqs, k)
    decreases |reqs|
  {
    if |reqs| > 0 {
      WasteChartLookup(reqs[..|reqs| - 1], k);
      BumpWasteLookup(ProcessWasteTypeData(reqs[..|reqs| - 1]), WasteKey(reqs[|reqs| - 1]), k);
    }
  }

  lemma {:induction false} WasteChartCovers(reqs: seq<PickupRequest>)
    ensures forall i :: 0 <= i < |reqs| ==> WasteKey(reqs[i]) in WasteKeys(ProcessWasteTypeData(reqs))
    decreases |reqs|
  {
    if |reqs| > 0 {
      var init := reqs[..|reqs| - 1];
      WasteChartCovers(init);
      forall i | 0 <= i < |init| ensures init[i] == reqs[i] { }
    }
  }

  /** Every entry of the chart is the number of requests of its type. */
  lemma {:induction false} WasteEntryCounts(reqs: seq<PickupRequest>, i: nat)
    requires i < |ProcessWasteTypeData(reqs)|
    ensures var d := ProcessWasteTypeData(reqs);
      d[i].count == KeyCount(reqs, d[i].wasteType)
  {
    var d := ProcessWasteTypeData(reqs);
    WasteTypeChart(reqs);
    LookupEntry(d, i);
  }

  lemma {:induction false} LookupEntry(d: seq<WasteTypeData>, i: nat)
    requires DistinctWasteKeys(d) && i < |d|
    ensures WasteLookup(d, d[i].wasteType) == d[i].count
    decreases i
  {
    if i > 0 {
      assert WasteKeys(d)[0] != WasteKeys(d)[i];
      assert WasteKeys(d[1..]) == WasteKeys(d)[1..];
      assert d[1..][i - 1] == d[i];
      LookupEntry(d[1..], i - 1);
    }
  }

  // ---------------------------------------------------------------------
  // processAnalyticsData
  // ---------------------------------------------------------------------

  datatype AnalyticsData = AnalyticsData(day: int, pickups: nat, completed: nat)

  /** The calendar day of a timestamp in seconds. */
  function Day(seconds: int): int {
    seconds / 86400
  }

  /** Requests with a `createdAt` on `day`, and those of them completed. */
  function DatedOn(reqs: seq<PickupRequest>, day: int): (n: nat)
    ensures n <= |reqs|
  {
    if |reqs| == 0 then 0
    else
      var last := reqs[|reqs| - 1];
      DatedOn(reqs[..|reqs| - 1], day) + (if last.createdAt.Some? && Day(last.createdAt.value) == day then 1 else 0)
  }

  function CompletedOn(reqs: seq<PickupRequest>, day: int): (n: nat)
    ensures n <= DatedOn(reqs, day)
  {
    if |reqs| == 0 then 0
    else
      var last := reqs[|reqs| - 1];
      CompletedOn(reqs[..|reqs| - 1], day)
      + (if last.createdAt.Some? && Day(last.createdAt.value) == day && last.status == Completed then 1 else 0)
  }

  /** Requests with a `createdAt` at all. */
  function DatedCount(reqs: seq<PickupRequest>): (n: nat)
    ensures n <= |reqs|
  {
    if |reqs| == 0 then 0
    else DatedCount(reqs[..|reqs| - 1]) + (if reqs[|reqs| - 1].createdAt.Some? then 1 else 0)
  }

  function Days(d: seq<AnalyticsData>): (ks: seq<int>)
    ensures |ks| == |d|
    ensures forall i :: 0 <= i < |d| ==> ks[i] == d[i].day
  {
    if |d| == 0 then [] else [d[0].day] + Days(d[1..])
  }

  /** `data[day]`, with zero counters when the day is absent. */
  function DayEntry(d: seq<AnalyticsData>, day: int): AnalyticsData {
    if |d| == 0 then AnalyticsData(day, 0, 0)
    else if d[0].day == day then d[0]
    else DayEntry(d[1..], day)
  }

  function TotalPickups(d: seq<AnalyticsData>): nat {
    if |d| == 0 then 0 else d[0].pickups + TotalPickups(d[1..])
  }

  /** Every entry counts at least one pickup and no more completions than
      pickups. */
  predicate WellCounted(d: seq<AnalyticsData>) {
    forall i :: 0 <= i < |d| ==> 1 <= d[i].pickups && d[i].completed <= d[i].pickups
  }

  /** `data[day].pickups++`, and `completed++` for a completed request,
      creating the entry at the end when the day is new. */
  function BumpDay(d: seq<AnalyticsData>, day: int, done: bool): (r: seq<AnalyticsData>)
    ensures Days(r) == if day in Days(d) then Days(d) else Days(d) + [day]
  {
    var c := if done then 1 else 0;
    if |d| == 0 then [AnalyticsData(day, 1, c)]
    else if d[0].day == day then [d[0].(pickups := d[0].pickups + 1, completed := d[0].completed + c)] + d[1..]
    else [d[0]] + BumpDay(d[1..], day, done)
  }

  lemma {:induction false} BumpDayEntry(d: seq<AnalyticsData>, day: int, done: bool, k: int)
    ensures var e, e' := DayEntry(d, k), DayEntry(BumpDay(d, day, done), k);
      e'.pickups == e.pickups + (if k == day then 1 else 0)
      && e'.completed == e.completed + (if k == day && done then 1 else 0)
    decreases |d|
  {
    if |d| > 0 && d[0].day != day {
      BumpDayEntry(d[1..], day, done, k);
    }
  }

  lemma {:induction false} BumpDayTotal(d: seq<AnalyticsData>, day: int, done: bool)
    ensures TotalPickups(BumpDay(d, day, done)) == TotalPickups(d) + 1
    decreases |d|
  {
    if |d| > 0 && d[0].day != day {
      BumpDayTotal(d[1..], day, done);
    } else if |d| > 0 {
      assert BumpDay(d, day, done)[1..] == d[1..];
    }
  }

  lemma {:induction false} BumpDayWellCounted(d: seq<AnalyticsData>, day: int, done: bool)
    requires WellCounted(d)
    ensures WellCounted(BumpDay(d, day, done))
    decreases |d|
  {
    if |d| > 0 && d[0].day != day {
      BumpDayWellCounted(d[1..], day, done);
    }
  }

  /** The `forEach` over the requests: undated requests are skipped, the
      others tallied by day in order of first appearance. */
  function GroupByDay(reqs: seq<PickupRequest>): seq<AnalyticsData> {
    if |reqs| == 0 then []
    else
      var prev := GroupByDay(reqs[..|reqs| - 1]);
      var last := reqs[|reqs| - 1];
      match last.createdAt
      case None => prev
      case Some(seconds) => BumpDay(prev, Day(seconds), last.status == Completed)
  }

  lemma {:induction false} GroupDistinct(reqs: seq<PickupRequest>)
    ensures Distinct(Days(GroupByDay(reqs)))
    decreases |reqs|
  {
    if |reqs| > 0 {
      var prev, last := GroupByDay(reqs[..|reqs| - 1]), reqs[|reqs| - 1];
      GroupDistinct(reqs[..|reqs| - 1]);
      if last.createdAt.Some? && Day(last.createdAt.value) !in Days(prev) {
        DistinctAppend(Days(prev), Day(last.createdAt.value));
      }
    }
  }

  lemma {:induction false} GroupWellCounted(reqs: seq<PickupRequest>)
    ensures WellCounted(GroupByDay(reqs))
    decreases |reqs|
  {
    if |reqs| > 0 {
      var prev, last := GroupByDay(reqs[..|reqs| - 1]), reqs[|reqs| - 1];
      GroupWellCounted(reqs[..|reqs| - 1]);
      if last.createdAt.Some? {
        BumpDayWellCounted(prev, Day(last.createdAt.value), last.status == Completed);
      }
    }
  }

  lemma {:induction false} GroupTotal(reqs: seq<PickupRequest>)
    ensures TotalPickups(GroupByDay(reqs)) == DatedCount(reqs)
    decreases |reqs|
  {
    if |reqs| > 0 {
      var prev, last := GroupByDay(reqs[..|reqs| - 1]), reqs[|reqs| - 1];
      GroupTotal(reqs[..|reqs| - 1]);
      if last.createdAt.Some? {
        BumpDayTotal(prev, Day(last.createdAt.value), last.status == Completed);
      }
    }
  }

  lemma {:induction false} GroupEntry(reqs: seq<PickupRequest>, k: int)
    ensures DayEntry(GroupByDay(reqs), k).pickups == DatedOn(reqs, k)
    ensures DayEntry(GroupByDay(reqs), k).completed == CompletedOn(reqs, k)
    decreases |reqs|
  {
    if |reqs| > 0 {
      var prev, last := GroupByDay(reqs[..|reqs| - 1]), reqs[|reqs| - 1];
      GroupEntry(reqs[..|reqs| - 1], k);
      if last.createdAt.Some? {
        BumpDayEntry(prev, Day(last.createdAt.value), last.status == Completed, k);
      }
    }
  }

  lemma {:induction false} GroupCovers(reqs: seq<PickupRequest>)
    ensures forall i :: 0 <= i < |reqs| && reqs[i].createdAt.Some? ==>
      Day(reqs[i].createdAt.value) in Days(GroupByDay(reqs))
    decreases |reqs|
  {
    if |reqs| > 0 {
      var init := reqs[..|reqs| - 1];
      GroupCovers(init);
      forall i | 0 <= i < |init| ensures init[i] == reqs[i] { }
    }
  }

  lemma {:induction false} DayEntryOf(d: seq<AnalyticsData>, i: nat)
    requires Distinct(Days(d)) && i < |d|
    ensures DayEntry(d, d[i].day) == d[i]
    decreases i
  {
    if i > 0 {
      assert Days(d)[0] != Days(d)[i];
      assert Days(d[1..]) == Days(d)[1..];
      assert d[1..][i - 1] == d[i];
      DayEntryOf(d[1..], i - 1);
    }
  }

  /** Strictly increasing days. */
  predicate Ascending(d: seq<AnalyticsData>) {
    forall i, j :: 0 <= i < j < |d| ==> d[i].day < d[j].day
  }

  /** Insertion into a day-ordered list. */
  function InsertByDay(x: AnalyticsData, d: seq<AnalyticsData>): (r: seq<AnalyticsData>)
    ensures multiset(r) == multiset(d) + multiset{x}
    ensures TotalPickups(r) == TotalPickups(d) + x.pickups
  {
    if |d| == 0 then [x]
    else if x.day < d[0].day then [x] + d
    else
      assert d == [d[0]] + d[1..];
      [d[0]] + InsertByDay(x, d[1..])
  }

  /** Inserting a new day into an ascending list keeps it ascending. */
  lemma {:induction false} InsertAscending(x: AnalyticsData, d: seq<AnalyticsData>)
    requires Ascending(d) && forall i :: 0 <= i < |d| ==> d[i].day != x.day
    ensures Ascending(InsertByDay(x, d))
    decreases |d|
  {
    if |d| > 0 && x.day >= d[0].day {
      var rest := InsertByDay(x, d[1..]);
      InsertAscending(x, d[1..]);
      forall j | 0 <= j < |rest| ensures d[0].day < rest[j].day {
        assert rest[j] in multiset(rest);
        assert rest[j] in multiset(d[1..]) + multiset{x};
        if rest[j] != x {
          assert rest[j] in d[1..];
        }
      }
    }
  }

  /** `sort` by ascending date. */
  function SortByDay(d: seq<AnalyticsData>): (r: seq<AnalyticsData>)
    ensures multiset(r) == multiset(d)
    ensures TotalPickups(r) == TotalPickups(d)
    ensures Distinct(Days(d)) ==> Ascending(r)
  {
    if |d| == 0 then []
    else
      var rest := SortByDay(d[1..]);
      assert d == [d[0]] + d[1..];
      HeadDayFresh(d, rest);
      if Distinct(Days(d)) then InsertAscending(d[0], rest); InsertByDay(d[0], rest)
      else InsertByDay(d[0], rest)
  }

  /** With distinct days, the head's day occurs nowhere in a permutation
      of the tail. */
  lemma HeadDayFresh(d: seq<AnalyticsData>, rest: seq<AnalyticsData>)
    requires |d| > 0 && multiset(rest) == multiset(d[1..])
    ensures Distinct(Days(d)) ==> Distinct(Days(d[1..])) && forall i :: 0 <= i < |rest| ==> rest[i].day != d[0].day
  {
    if Distinct(Days(d)) {
      assert Days(d[1..]) == Days(d)[1..];
      forall i | 0 <= i < |rest| ensures rest[i].day != d[0].day {
        assert rest[i] in multiset(d[1..]);
        var j :| 0 <= j < |d[1..]| && d[1..][j] == rest[i];
        assert Days(d)[0] != Days(d)[j + 1];
      }
    }
  }

  /** `processAnalyticsData`. */
  function ProcessAnalyticsData(reqs: seq<PickupRequest>): seq<AnalyticsData> {
    SortByDay(GroupByDay(reqs))
  }

  /** The chart has one entry per day with at least one dated request, in
      ascending day order; each entry counts that day's requests and its
      completed ones; requests without `createdAt` are not counted. */
  lemma AnalyticsChart(reqs: seq<PickupRequest>)
    ensures var r := ProcessAnalyticsData(reqs);
      Ascending(r) && WellCounted(r) && TotalPickups(r) == DatedCount(reqs)
      && (forall i :: 0 <= i < |r| ==>
            r[i].pickups == DatedOn(reqs, r[i].day) && r[i].completed == CompletedOn(reqs, r[i].day))
      && (forall i :: 0 <= i < |reqs| && reqs[i].createdAt.Some? ==>
            exists j :: 0 <= j < |r| && r[j].day == Day(reqs[i].createdAt.value))
  {
    var g := GroupByDay(reqs);
    var r := ProcessAnalyticsData(reqs);
    GroupDistinct(reqs);
    GroupWellCounted(reqs);
    GroupTotal(reqs);
    GroupCovers(reqs);
    forall i | 0 <= i < |r|
      ensures 1 <= r[i].pickups && r[i].completed <= r[i].pickups
      ensures r[i].pickups == DatedOn(reqs, r[i].day) && r[i].completed == CompletedOn(reqs, r[i].day)
    {
      assert r[i] in multiset(g);
      var j :| 0 <= j < |g| && g[j] == r[i];
      DayEntryOf(g, j);
      GroupEntry(reqs, r[i].day);
    }
    forall i | 0 <= i < |reqs| && reqs[i].createdAt.Some?
      ensures exists j :: 0 <= j < |r| && r[j].day == Day(reqs[i].createdAt.value)
    {
      var k :| 0 <= k < |g| && Days(g)[k] == Day(reqs[i].createdAt.value);
      assert g[k] in multiset(r);
      var j :| 0 <= j < |r| && r[j] == g[k];
    }
  }

  // ---------------------------------------------------------------------
  // handleAddDriver and handleAddRoute
  // ---------------------------------------------------------------------

  /** The fields of the add-driver dialog. */
  datatype DriverForm = DriverForm(name: string, email: string, phone: string)

  /** The fields of the add-route dialog. */
  datatype RouteForm = RouteForm(driverId: string, date: string)

  /** `handleAddDriver` with the id `addDoc` assigns and whether that
      write succeeds (`writeOk`): nothing is written unless name, email
      and phone are all filled in and the write succeeds; the new driver
      is available. */
  function AddDriver(snap: Snapshot, form: DriverForm, newId: string, writeOk: bool): (r: Option<Snapshot>)
    ensures r.Some? <==> Filled(form.name) && Filled(form.email) && Filled(form.phone) && writeOk
    ensures r.Some? ==> r.value.routes == snap.routes && r.value.pickups == snap.pickups
    ensures r.Some? ==> |r.value.drivers| == |snap.drivers| + 1 && r.value.drivers[..|snap.drivers|] == snap.drivers
    ensures r.Some? ==> var d := r.value.drivers[|snap.drivers|];
      d.id == newId && d.name == form.name && d.email == form.email && d.phone == form.phone
      && d.status == "available"
  {
    if Filled(form.name) && Filled(form.email) && Filled(form.phone) && writeOk then
      Some(snap.(drivers := snap.drivers + [Driver(newId, form.name, form.email, form.phone, "available")]))
    else None
  }

  /** `handleAddRoute`: nothing is written unless a driver and a date are
      chosen and the write succeeds; the new route is scheduled and has no
      pickups. */
  function AddRoute(snap: Snapshot, form: RouteForm, newId: string, writeOk: bool): (r: Option<Snapshot>)
    ensures r.Some? <==> Filled(form.driverId) && Filled(form.date) && writeOk
    ensures r.Some? ==> r.value.drivers == snap.drivers && r.value.pickups == snap.pickups
    ensures r.Some? ==> |r.value.routes| == |snap.routes| + 1 && r.value.routes[..|snap.routes|] == snap.routes
    ensures r.Some? ==> var rt := r.value.routes[|snap.routes|];
      rt.id == newId && rt.driverId == form.driverId && rt.date == form.date
      && rt.pickups == [] && rt.status == "scheduled"
  {
    if Filled(form.driverId) && Filled(form.date) && writeOk then
      Some(snap.(routes := snap.routes + [Route(newId, form.driverId, form.date, [], "scheduled")]))
    else None
  }

  // ---------------------------------------------------------------------
  // handleConfirmDelete
  // ---------------------------------------------------------------------

  function OtherId(id: string): string -> bool {
    (x: string) => x != id
  }

  function PickupNotId(id: string): PickupRequest -> bool {
    (p: PickupRequest) => p.id != id
  }

  function DriverNotId(id: string): Driver -> bool {
    (d: Driver) => d.id != id
  }

  function RouteNotId(id: string): Route -> bool {
    (rt: Route) => rt.id != id
  }

  function RouteNotOf(driverId: string): Route -> bool {
    (rt: Route) => rt.driverId != driverId
  }

  /** The route with `id` removed from its pickup list when it lists it. */
  function WithoutPickup(rt: Route, id: string): Route {
    if id in rt.pickups then rt.(pickups := Filter(rt.pickups, OtherId(id))) else rt
  }

  /** Deleting a pickup: the request is gone and no route lists it any
      more; every route keeps its other pickups in their order and all its
      other fields. */
  function DeletePickup(snap: Snapshot, id: string): (r: Snapshot)
    ensures r.drivers == snap.drivers
    ensures forall p :: p in r.pickups <==> p in snap.pickups && p.id != id
    ensures |r.routes| == |snap.routes|
    ensures forall i :: 0 <= i < |r.routes| ==>
      id !in r.routes[i].pickups
      && (forall x :: x in r.routes[i].pickups <==> x in snap.routes[i].pickups && x != id)
      && Subsequence(r.routes[i].pickups, snap.routes[i].pickups)
      && r.routes[i].(pickups := snap.routes[i].pickups) == snap.routes[i]
      && (id !in snap.routes[i].pickups ==> r.routes[i] == snap.routes[i])
  {
    var routes := seq(|snap.routes|, i requires 0 <= i < |snap.routes| => WithoutPickup(snap.routes[i], id));
    assert forall i :: 0 <= i < |routes| ==> Subsequence(routes[i].pickups, snap.routes[i].pickups) by {
      forall i | 0 <= i < |routes| ensures Subsequence(routes[i].pickups, snap.routes[i].pickups) {
        FilterSubsequence(snap.routes[i].pickups, OtherId(id));
        SubsequenceRefl(snap.routes[i].pickups);
      }
    }
    Snapshot(snap.drivers, routes, Filter(snap.pickups, PickupNotId(id)))
  }

  /** `driverId: null, status: 'pending'`. */
  function Unassign(driverId: string, p: PickupRequest): PickupRequest {
    if p.driverId == Some(driverId) then p.(driverId := None, status := Pending) else p
  }

  /** Deleting a driver: the driver and every route of the driver are gone,
      and every pickup assigned to the driver is unassigned and pending
      again; nothing else changes. */
  function DeleteDriver(snap: Snapshot, id: string): (r: Snapshot)
    ensures forall d :: d in r.drivers <==> d in snap.drivers && d.id != id
    ensures forall rt :: rt in r.routes <==> rt in snap.routes && rt.driverId != id
    ensures |r.pickups| == |snap.pickups|
    ensures forall i :: 0 <= i < |r.pickups| ==>
      if snap.pickups[i].driverId == Some(id)
      then r.pickups[i].driverId.None? && r.pickups[i].status == Pending
           && r.pickups[i].(driverId := Some(id), status := snap.pickups[i].status) == snap.pickups[i]
      else r.pickups[i] == snap.pickups[i]
  {
    Snapshot(
      Filter(snap.drivers, DriverNotId(id)),
      Filter(snap.routes, RouteNotOf(id)),
      seq(|snap.pickups|, i requires 0 <= i < |snap.pickups| => Unassign(id, snap.pickups[i])))
  }

  /** `routes.find(r => r.id === id)`. */
  function FindRoute(routes: seq<Route>, id: string): (r: Option<Route>)
    ensures r.Some? ==> r.value in routes && r.value.id == id
    ensures r.None? <==> forall i :: 0 <= i < |routes| ==> routes[i].id != id
  {
    if |routes| == 0 then None
    else if routes[0].id == id then Some(routes[0])
    else FindRoute(routes[1..], id)
  }

  /** Deleting a route: the route is gone and the pickups the first route
      with that id lists are set back to pending, up to the first missing
      pickup document; `false` when one was missing. */
  function DeleteRoute(snap: Snapshot, id: string): (r: (Snapshot, bool))
    ensures r.0.drivers == snap.drivers
    ensures forall rt :: rt in r.0.routes <==> rt in snap.routes && rt.id != id
    ensures |r.0.pickups| == |snap.pickups|
    ensures FindRoute(snap.routes, id).None? ==> r == (r.0.(pickups := snap.pickups), true)
  {
    var routes := Filter(snap.routes, RouteNotId(id));
    match FindRoute(snap.routes, id)
    case None => (snap.(routes := routes), true)
    case Some(rt) =>
      var (pickups, ok) := ResetPending(snap.pickups, rt.pickups);
      (snap.(routes := routes, pickups := pickups), ok)
  }

  /** When every pickup the deleted route lists exists, all of them are
      pending afterwards and every other pickup is unchanged. */
  lemma DeleteRouteResets(snap: Snapshot, id: string, rt: Route)
    requires FindRoute(snap.routes, id) == Some(rt)
    requires forall j :: 0 <= j < |rt.pickups| ==> HasDoc(snap.pickups, rt.pickups[j])
    ensures var (after, ok) := DeleteRoute(snap, id);
      ok && forall i :: 0 <= i < |snap.pickups| ==>
        after.pickups[i] == if snap.pickups[i].id in rt.pickups then snap.pickups[i].(status := Pending)
                            else snap.pickups[i]
  {
    ResetPendingEffect(snap.pickups, rt.pickups);
    FoundPrefixIsFirstMissing(snap.pickups, rt.pickups);
    var n := FoundPrefix(snap.pickups, rt.pickups);
    assert rt.pickups[..n] == rt.pickups;
  }

  /** A route listing a pickup that no longer exists is deleted with an
      error, and the pickups listed after the missing one stay as they
      were. */
  lemma DeleteRouteStopsAtMissing(snap: Snapshot, id: string, rt: Route, k: nat)
    requires FindRoute(snap.routes, id) == Some(rt)
    requires k < |rt.pickups| && !HasDoc(snap.pickups, rt.pickups[k])
    ensures !DeleteRoute(snap, id).1
    ensures forall i :: 0 <= i < |snap.pickups| && snap.pickups[i].id !in rt.pickups[..k] ==>
      DeleteRoute(snap, id).0.pickups[i] == snap.pickups[i]
  {
    ResetPendingEffect(snap.pickups, rt.pickups);
    FoundPrefixIsFirstMissing(snap.pickups, rt.pickups);
    var n := FoundPrefix(snap.pickups, rt.pickups);
    assert n <= k;
    forall i | 0 <= i < |snap.pickups| && snap.pickups[i].id !in rt.pickups[..k]
      ensures snap.pickups[i].id !in rt.pickups[..n]
    {
      assert rt.pickups[..n] == rt.pickups[..k][..n];
    }
  }

  // ---------------------------------------------------------------------
  // Adding then deleting
  // ---------------------------------------------------------------------

  /** Deleting a driver just added, under a fresh id nothing refers to,
      restores the snapshot. */
  lemma AddThenDeleteDriver(snap: Snapshot, form: DriverForm, newId: string)
    requires AddDriver(snap, form, newId, true).Some?
    requires forall i :: 0 <= i < |snap.drivers| ==> snap.drivers[i].id != newId
    requires forall i :: 0 <= i < |snap.routes| ==> snap.routes[i].driverId != newId
    requires forall i :: 0 <= i < |snap.pickups| ==> snap.pickups[i].driverId != Some(newId)
    ensures DeleteDriver(AddDriver(snap, form, newId, true).value, newId) == snap
  {
    var added := AddDriver(snap, form, newId, true).value;
    var d := added.drivers[|snap.drivers|];
    assert added.drivers == snap.drivers + [d];
    FilterAppend(snap.drivers, [d], DriverNotId(newId));
    FilterAll(snap.drivers, DriverNotId(newId));
    FilterAll(snap.routes, RouteNotOf(newId));
    FilterNone([d], DriverNotId(newId));
  }

  /** Deleting a route just added under a fresh id restores the snapshot
      and reports success: the new route lists no pickups to reset. */
  lemma AddThenDeleteRoute(snap: Snapshot, form: RouteForm, newId: string)
    requires AddRoute(snap, form, newId, true).Some?
    requires forall i :: 0 <= i < |snap.routes| ==> snap.routes[i].id != newId
    ensures DeleteRoute(AddRoute(snap, form, newId, true).value, newId) == (snap, true)
  {
    var added := AddRoute(snap, form, newId, true).value;
    var rt := added.routes[|snap.routes|];
    var keep := RouteNotId(newId);
    assert added.routes == snap.routes + [rt];
    FilterAppend(snap.routes, [rt], keep);
    assert forall i :: 0 <= i < |snap.routes| ==> keep(snap.routes[i]);
    FilterAll(snap.routes, keep);
    assert !keep(rt);
    FilterNone([rt], keep);
    assert Filter(added.routes, keep) == snap.routes;
    FindAppended(snap.routes, rt);
    assert ResetPending(snap.pickups, rt.pickups) == (snap.pickups, true);
  }

  lemma {:induction false} FindAppended(routes: seq<Route>, rt: Route)
    requires forall i :: 0 <= i < |routes| ==> routes[i].id != rt.id
    ensures FindRoute(routes + [rt], rt.id) == Some(rt)
    decreases |routes|
  {
    if |routes| > 0 {
      assert (routes + [rt])[1..] == routes[1..] + [rt];
      FindAppended(routes[1..], rt);
    }
  }

  // ---------------------------------------------------------------------
  // Feedback
  // ---------------------------------------------------------------------

  datatype DeleteKind = PickupKind | DriverKind | RouteKind

  function KindName(kind: DeleteKind): string {
    match kind
    case PickupKind => "pickup"
    case DriverKind => "driver"
    case RouteKind => "route"
  }

  /** `s.charAt(0).toUpperCase() + s.slice(1)`. */
  function Capitalize(s: string): (r: string)
    ensures |r| == |s|
    ensures |s| > 0 ==> r[0] == UpperChar(s[0]) && r[1..] == s[1..]
  {
    if |s| == 0 then s else [UpperChar(s[0])] + s[1..]
  }

  /** Capitalising changes only letter case: lower-casing undoes it. */
  lemma CapitalizeUndoneByLower(s: string)
    ensures Lower(Capitalize(s)) == Lower(s)
  {
  }

  /** The snackbar text after a delete. */
  function Feedback(kind: DeleteKind, ok: bool): string {
    if ok then Capitalize(KindName(kind)) + " deleted successfully!"
    else "Error deleting " + KindName(kind) + ". Please try again."
  }

  /** The message tells which kind of record was deleted and whether the
      delete succeeded: different outcomes never share a message. */
  lemma FeedbackDistinguishes(k1: DeleteKind, ok1: bool, k2: DeleteKind, ok2: bool)
    requires Feedback(k1, ok1) == Feedback(k2, ok2)
    ensures k1 == k2 && ok1 == ok2
  {
    var m1, m2 := Feedback(k1, ok1), Feedback(k2, ok2);
    assert m1[0] == m2[0] && m1[1] == m2[1] && m1[15] == m2[15];
  }

  /** `handleConfirmDelete`: the state after the cascade for the chosen
      kind of record, and the message shown. `deleted` tells whether the
      first `deleteDoc` succeeds; when it fails nothing changes and the
      error message is shown. */
  function ConfirmDelete(snap: Snapshot, kind: DeleteKind, id: string, deleted: bool): (r: (Snapshot, string))
    ensures !deleted ==> r == (snap, "Error deleting " + KindName(kind) + ". Please try again.")
    ensures deleted && kind != RouteKind ==> r.1 == Capitalize(KindName(kind)) + " deleted successfully!"
    ensures deleted && kind == PickupKind ==> forall p :: p in r.0.pickups ==> p.id != id
    ensures deleted && kind == DriverKind ==> forall d :: d in r.0.drivers ==> d.id != id
    ensures deleted && kind == RouteKind ==> forall rt :: rt in r.0.routes ==> rt.id != id
    ensures deleted && kind == RouteKind ==> r.1 == Feedback(RouteKind, DeleteRoute(snap, id).1)
  {
    if !deleted then (snap, Feedback(kind, false))
    else match kind
    case PickupKind => (DeletePickup(snap, id), Feedback(PickupKind, true))
    case DriverKind => (DeleteDriver(snap, id), Feedback(DriverKind, true))
    case RouteKind =>
      var (after, ok) := DeleteRoute(snap, id);
      (after, Feedback(RouteKind, ok))
  }
}
