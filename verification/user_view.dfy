/** The user dashboard: the waste-type choices of the scheduling dialog,
    `handleSchedulePickup` and the request it writes, and the newest-first
    history (`Pickups.SortNewestFirst`).

    Dates are day numbers. The dialog's date string, parsed, is `parsedDay`:
    None when it does not parse, since `new Date` is then invalid and no
    comparison with it holds. `today` is the current local day. The result
    of `addDoc` is the parameter `writeOk`; the id it assigns is `newId`
    and `Timestamp.now()` is `now`. */
module UserView {
  import opened Common
  import opened Categories
  import opened Pickups

  /** The options of the waste-type select. */
  const WasteTypeOptions: seq<string> :=
    ["Plastic", "Paper", "Glass", "Metal", "Electronic", "Organic", "Hazardous", "Mixed"]

  /** The dialog offers exactly the classifier's categories, in the
      classifier's order, each by its display name. */
  lemma WasteTypeOptionsAreCategories()
    ensures |WasteTypeOptions| == |AllCategories|
    ensures forall i :: 0 <= i < |AllCategories| ==> WasteTypeOptions[i] == Name(AllCategories[i])
    ensures forall c: Category :: Name(c) in WasteTypeOptions
  {
    forall c: Category ensures Name(c) in WasteTypeOptions {
      TableIsComplete(c, c);
    }
  }

  /** The fields of the dialog; a field never filled in is "". */
  datatype RequestForm = RequestForm(date: string, time: string, address: string, wasteType: string)

  /** The signed-in Firebase user. */
  datatype User = User(uid: string, email: Option<string>)

  datatype ScheduleOutcome =
    | MissingFields
    | PastDate
    | WriteFailed
    | Created(request: PickupRequest)

  /** Used when the browser gave no position. */
  const DefaultLocation: Location := Location(40.7128, -74.0060)

  predicate Complete(form: RequestForm) {
    Filled(form.date) && Filled(form.time) && Filled(form.address) && Filled(form.wasteType)
  }

  /** The document `addDoc` writes. */
  function NewRequest(user: User, form: RequestForm, location: Option<Location>, newId: string, now: int)
    : PickupRequest
  {
    PickupRequest(newId, user.uid, user.email, form.date, form.time, form.address, form.wasteType,
      Pending, None, Some(now), None, Some(location.GetOr(DefaultLocation)))
  }

  /** `handleSchedulePickup`. */
  function Schedule(user: Option<User>, form: RequestForm, parsedDay: Option<int>, today: int,
                    location: Option<Location>, writeOk: bool, newId: string, now: int): (o: ScheduleOutcome)
    ensures o == MissingFields <==> user.None? || !Complete(form)
    ensures o == PastDate <==> user.Some? && Complete(form) && parsedDay.Some? && parsedDay.value < today
    ensures o.Created? <==> user.Some? && Complete(form) && !(parsedDay.Some? && parsedDay.value < today) && writeOk
    ensures o.Created? ==>
      var p := o.request;
      p.status == Pending && p.userId == user.value.uid && p.userEmail == user.value.email
      && p.date == form.date && p.time == form.time && p.address == form.address && p.wasteType == form.wasteType
      && p.driverId.None? && p.createdAt == Some(now) && p.id == newId
      && p.location == Some(if location.Some? then location.value else DefaultLocation)
  {
    if user.None? || !Complete(form) then MissingFields
    else if parsedDay.Some? && parsedDay.value < today then PastDate
    else if !writeOk then WriteFailed
    else Created(NewRequest(user.value, form, location, newId, now))
  }

  /** The notification shown for each outcome, and whether it is an error. */
  function Notification(o: ScheduleOutcome): (string, bool) {
    match o
    case MissingFields => ("Please fill out all required fields", true)
    case PastDate => ("Please select a future date for pickup", true)
    case WriteFailed => ("Failed to schedule pickup. Please try again.", true)
    case Created(_) => ("Pickup scheduled successfully!", false)
  }

  /** The collection after scheduling: the new document is added only
      when the request was created. */
  function AfterSchedule(store: seq<PickupRequest>, o: ScheduleOutcome): (r: seq<PickupRequest>)
    ensures !o.Created? ==> r == store
    ensures o.Created? ==> |r| == |store| + 1 && r[..|store|] == store && r[|store|] == o.request
  {
    if o.Created? then store + [o.request] else store
  }

  /** A successful schedule adds exactly one pending request to the
      counters and leaves the others alone; every other outcome writes
      nothing and reports an error. */
  lemma ScheduleEffect(store: seq<PickupRequest>, user: Option<User>, form: RequestForm, parsedDay: Option<int>,
                       today: int, location: Option<Location>, writeOk: bool, newId: string, now: int)
    ensures var o := Schedule(user, form, parsedDay, today, location, writeOk, newId, now);
      var before, after := Counts(store), Counts(AfterSchedule(store, o));
      (o.Created? ==> after == before.(pending := before.pending + 1, total := before.total + 1)
                      && !Notification(o).1)
      && (!o.Created? ==> after == before && Notification(o).1)
  {
    var o := Schedule(user, form, parsedDay, today, location, writeOk, newId, now);
    if o.Created? {
      var r := AfterSchedule(store, o);
      assert r == store + [o.request];
      CountAppend(store, o.request, HasStatus(Pending));
      CountAppend(store, o.request, HasStatus(Accepted));
      CountAppend(store, o.request, HasStatus(Completed));
    }
  }

  /** A valid request dated before today is always refused, whatever the
      write would have done. */
  lemma PastDateNeverWritten(store: seq<PickupRequest>, user: User, form: RequestForm, day: int, today: int,
                             location: Option<Location>, writeOk: bool, newId: string, now: int)
    requires Complete(form) && day < today
    ensures var o := Schedule(Some(user), form, Some(day), today, location, writeOk, newId, now);
      o == PastDate && AfterSchedule(store, o) == store
      && Notification(o) == ("Please select a future date for pickup", true)
  {
  }

  /** The pickup history the dashboard lists: the user's requests, newest
      first when every one has `createdAt`. */
  function History(snapshot: seq<PickupRequest>): (r: seq<PickupRequest>)
    ensures multiset(r) == multiset(snapshot)
    ensures AllDated(snapshot) ==> NewestFirst(r)
  {
    if AllDated(snapshot) then SortIsNewestFirst(snapshot); SortNewestFirst(snapshot)
    else SortNewestFirst(snapshot)
  }
}
