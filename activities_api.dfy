/**
  The daily activity endpoints: `POST /activities/sync` and
  `GET /activities/historical`. The caller's id is the `user_id` of the access
  token; the clock is a parameter.
 */
module ActivitiesApi {
  import opened Values
  import opened Dates
  import opened Query
  import opened Schemas
  import opened Firebase
  import opened History
  import opened Responses

  /** A `SyncActivityRequest` after validation; the hourly entries, when
      sent, are already the dicts `.dict()` gives. */
  datatype SyncActivityRequest = SyncActivityRequest(
    date: string, steps: int, distanceKm: real, activeMinutes: int, caloriesBurned: int,
    hourlyBreakdown: Option<seq<Doc>>)

  /** The `activity_data` dict the handler hands to the store: the caller's
      id, the request's counters, and the hourly entries (none when the
      request had `null` or an empty list). */
  function ActivityRecord(userId: string, request: SyncActivityRequest): (r: Doc)
    ensures r.Keys == {"user_id", "date", "steps", "distance_km", "active_minutes", "calories_burned", "hourly_breakdown"}
    ensures r["user_id"] == Str(userId) && r["date"] == Str(request.date)
    ensures r["steps"] == Int(request.steps) && r["distance_km"] == Float(request.distanceKm)
    ensures r["active_minutes"] == Int(request.activeMinutes) && r["calories_burned"] == Int(request.caloriesBurned)
    ensures request.hourlyBreakdown.Some? ==> r["hourly_breakdown"] == List(DictList(request.hourlyBreakdown.value))
    ensures request.hourlyBreakdown.None? ==> r["hourly_breakdown"] == List([])
  {
    var hourly := if request.hourlyBreakdown.Some? && request.hourlyBreakdown.value != []
      then DictList(request.hourlyBreakdown.value) else [];
    map["user_id" := Str(userId), "date" := Str(request.date), "steps" := Int(request.steps),
        "distance_km" := Float(request.distanceKm), "active_minutes" := Int(request.activeMinutes),
        "calories_burned" := Int(request.caloriesBurned), "hourly_breakdown" := List(hourly)]
  }

  const HistoricalPrefix := "Failed to fetch historical activity: "

  /** A synced day is stored under its own date, and read back (with the
      caller's `user_id` written over the one it already holds) it builds a
      `DailyActivity` holding exactly the stored document. */
  lemma SyncedActivityRoundTrip(u: string, request: SyncActivityRequest, now: string)
    ensures DatedAs(SyncedActivity(ActivityRecord(u, request), now), request.date)
    ensures Conform(DailyActivityModel, DailyActivitySchema, SyncedActivity(ActivityRecord(u, request), now)["user_id" := Str(u)]) ==
      Ok(SyncedActivity(ActivityRecord(u, request), now))
  {
    var stored := SyncedActivity(ActivityRecord(u, request), now);
    assert stored["user_id" := Str(u)] == stored;
    ActivityNames();
    ActivityDocFits(stored);
    ConformFits(DailyActivityModel, DailyActivitySchema, stored);
  }

  /** A dict with exactly the `DailyActivity` fields, each of its own kind,
      already is a `DailyActivity`. */
  lemma ActivityDocFits(d: Doc)
    requires d.Keys == {"user_id", "date", "steps", "distance_km", "active_minutes", "calories_burned", "hourly_breakdown", "synced_at"}
    requires d["user_id"].Str? && d["date"].Str? && d["steps"].Int? && d["distance_km"].Float?
    requires d["active_minutes"].Int? && d["calories_burned"].Int? && d["hourly_breakdown"].List? && d["synced_at"].Str?
    ensures Fits(DailyActivityModel, DailyActivitySchema, d)
  {
    var s, m := DailyActivitySchema, DailyActivityModel;
    ActivityNames();
    assert d.Keys == Names(s);
    assert FieldValue(m, s[0], d) == Ok(d[s[0].name]);
    assert FieldValue(m, s[1], d) == Ok(d[s[1].name]);
    assert FieldValue(m, s[2], d) == Ok(d[s[2].name]);
    assert FieldValue(m, s[3], d) == Ok(d[s[3].name]);
    assert FieldValue(m, s[4], d) == Ok(d[s[4].name]);
    assert FieldValue(m, s[5], d) == Ok(d[s[5].name]);
    assert FieldValue(m, s[6], d) == Ok(d[s[6].name]);
    assert FieldValue(m, s[7], d) == Ok(d[s[7].name]);
    forall i | 0 <= i < |s|
      ensures s[i].name in d && FieldValue(m, s[i], d) == Ok(d[s[i].name])
    {
      assert i == 0 || i == 1 || i == 2 || i == 3 || i == 4 || i == 5 || i == 6 || i == 7;
    }
  }

  lemma ActivityNames()
    ensures Names(DailyActivitySchema) ==
      {"user_id", "date", "steps", "distance_km", "active_minutes", "calories_burned", "hourly_breakdown", "synced_at"}
    ensures DistinctNames(DailyActivitySchema)
  {
    var s := DailyActivitySchema;
    assert s[0].name == "user_id" && s[1].name == "date" && s[2].name == "steps" && s[3].name == "distance_km";
    assert s[4].name == "active_minutes" && s[5].name == "calories_burned";
    assert s[6].name == "hourly_breakdown" && s[7].name == "synced_at";
    assert Names(s) == {s[0].name, s[1].name, s[2].name, s[3].name, s[4].name, s[5].name, s[6].name, s[7].name};
  }

  /** `sync_daily_activity`: stores the day under its date (replacing any
      earlier sync of that date) and confirms. */
  method SyncDailyActivity(store: FirebaseService, userId: string, request: SyncActivityRequest, now: string)
    returns (r: Result<Doc>)
    requires store.Valid()
    modifies store
    ensures store.Valid()
    ensures r == Ok(Standard("Activity for " + request.date + " synced successfully"))
    ensures store.demoMode ==> store.State() == old(store.State())
    ensures !store.demoMode ==> store.State() == old(store.State()).(dailyActivities :=
      Put(old(store.dailyActivities), userId, request.date, SyncedActivity(ActivityRecord(userId, request), now)))
  {
    var activityData := ActivityRecord(userId, request);
    store.StoreDailyActivity(userId, request.date, activityData, now);
    r := Ok(Standard("Activity for " + request.date + " synced successfully"));
  }

  /** `get_historical_activity`: the caller's days from `days - 1` days ago
      to today, each built as `DailyActivity`. */
  method GetHistoricalActivity(store: FirebaseService, userId: string, days: int, today: int)
    returns (r: Result<HistoricalResponse>, ghost ids: seq<string>)
    requires store.Valid() && ValidOrdinal(today)
    ensures HistoricalOutcome(DailyActivityModel, DailyActivitySchema, HistoricalPrefix,
      if store.demoMode then map[] else Sub(store.dailyActivities, userId), userId, today, days, ids, r)
    ensures r.Err? ==> r.error.HttpError? && r.error.status == 500
    ensures r.Ok? ==> r.value.days == days && r.value.endDate == IsoDay(today)
  {
    ids := [];
    var window := HistoricalWindow(today, days);
    if window.Err? {
      r := Err(Wrapped(HistoricalPrefix, window.error));
      return;
    }
    var (start, end) := window.value;
    var startIso, endIso := IsoDay(start), IsoDay(end);
    var docs: seq<Doc>;
    ghost var found: seq<string>;
    docs, found := store.GetActivityRange(userId, startIso, endIso);
    ghost var c := if store.demoMode then map[] else Sub(store.dailyActivities, userId);
    if store.demoMode {
      EmptyAnswer(DateRange(startIso, endIso));
    } else {
      ids := found;
    }
    SelectedRows(c, DateRange(startIso, endIso), ids);
    StampedRows(c, ids, userId, docs);
    var built := ConformAll(DailyActivityModel, DailyActivitySchema, docs);
    if built.Err? {
      r := Err(Wrapped(HistoricalPrefix, built.error));
    } else {
      r := Ok(HistoricalResponse(built.value, days, startIso, endIso));
    }
    WindowRead(DailyActivityModel, DailyActivitySchema, HistoricalPrefix, c, userId, today, days, start, end, ids, r);
  }
}
