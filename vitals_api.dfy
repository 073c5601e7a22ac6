/**
  The daily vitals endpoints: `POST /vitals/sync`, `GET /vitals/historical`
  and `GET /vitals/date/{date}`. The caller's id is the `user_id` of the
  access token; the clock is a parameter (`now` for the store's timestamps,
  `today` as a day ordinal for the window).
 */
module VitalsApi {
  import opened Values
  import opened Dates
  import opened Query
  import opened Schemas
  import opened Firebase
  import opened History
  import opened Responses

  /** A `SyncVitalsRequest` after validation, each reading and the summary
      already as the dict `.dict()` gives. */
  datatype SyncVitalsRequest = SyncVitalsRequest(date: string, readings: seq<Doc>, summary: Doc)

  /** The document one sync stores for the day. */
  function SyncedVitals(request: SyncVitalsRequest, now: string): Doc
  {
    VitalsDoc(request.date, DictList(request.readings), request.summary, now)
  }

  const HistoricalPrefix := "Failed to fetch historical vitals: "

  /** A synced day read back by either read endpoint (which add the caller's
      `user_id`) builds a `DailyVitals` holding exactly the stored document. */
  lemma SyncedVitalsRoundTrip(u: string, request: SyncVitalsRequest, now: string)
    ensures Conform(DailyVitalsModel, DailyVitalsSchema, SyncedVitals(request, now)["user_id" := Str(u)]) ==
      Ok(SyncedVitals(request, now)["user_id" := Str(u)])
  {
    var d := SyncedVitals(request, now)["user_id" := Str(u)];
    var s := DailyVitalsSchema;
    assert s[0].name == "user_id" && s[1].name == "date" && s[2].name == "readings";
    assert s[3].name == "summary" && s[4].name == "synced_at";
    assert Names(s) == d.Keys by {
      assert Names(s) == {s[0].name, s[1].name, s[2].name, s[3].name, s[4].name};
    }
    assert FieldValue(DailyVitalsModel, s[0], d) == Ok(d["user_id"]);
    assert FieldValue(DailyVitalsModel, s[1], d) == Ok(d["date"]);
    assert FieldValue(DailyVitalsModel, s[2], d) == Ok(d["readings"]);
    assert FieldValue(DailyVitalsModel, s[3], d) == Ok(d["summary"]);
    assert FieldValue(DailyVitalsModel, s[4], d) == Ok(d["synced_at"]);
    ConformFits(DailyVitalsModel, s, d);
  }

  /** `sync_daily_vitals`: stores the day under its date (replacing any
      earlier sync of that date) and confirms. */
  method SyncDailyVitals(store: FirebaseService, userId: string, request: SyncVitalsRequest, now: string)
    returns (r: Result<Doc>)
    requires store.Valid()
    modifies store
    ensures store.Valid()
    ensures r == Ok(Standard("Vitals for " + request.date + " synced successfully"))
    ensures store.demoMode ==> store.State() == old(store.State())
    ensures !store.demoMode ==> store.State() == old(store.State()).(dailyVitals :=
      Put(old(store.dailyVitals), userId, request.date, SyncedVitals(request, now)))
  {
    var readings := DictList(request.readings);
    store.StoreDailyVitals(userId, request.date, readings, request.summary, now);
    r := Ok(Standard("Vitals for " + request.date + " synced successfully"));
  }

  /** `get_historical_vitals`: the caller's days from `days - 1` days ago to
      today, each built as `DailyVitals`. */
  method GetHistoricalVitals(store: FirebaseService, userId: string, days: int, today: int)
    returns (r: Result<HistoricalResponse>, ghost ids: seq<string>)
    requires store.Valid() && ValidOrdinal(today)
    ensures HistoricalOutcome(DailyVitalsModel, DailyVitalsSchema, HistoricalPrefix,
      if store.demoMode then map[] else Sub(store.dailyVitals, userId), userId, today, days, ids, r)
    ensures r.Err? ==> r.error.HttpError? && r.error.status == 500
    ensures r.Ok? ==> r.value.days == days && r.value.endDate == IsoDay(today)
  {
    ids := [];
    var window := HistoricalWindow(today, days);
    if window.Err? {
      r := Err(Wrapped(HistoricalPrefix, window.error));
      return;
    }
    var (start, end) := window.value;
    var startIso, endIso := IsoDay(start), IsoDay(end);
    var docs: seq<Doc>;
    ghost var found: seq<string>;
    docs, found := store.GetVitalsRange(userId, startIso, endIso);
    ghost var c := if store.demoMode then map[] else Sub(store.dailyVitals, userId);
    if store.demoMode {
      EmptyAnswer(DateRange(startIso, endIso));
    } else {
      ids := found;
    }
    SelectedRows(c, DateRange(startIso, endIso), ids);
    StampedRows(c, ids, userId, docs);
    var built := ConformAll(DailyVitalsModel, DailyVitalsSchema, docs);
    if built.Err? {
      r := Err(Wrapped(HistoricalPrefix, built.error));
    } else {
      r := Ok(HistoricalResponse(built.value, days, startIso, endIso));
    }
    WindowRead(DailyVitalsModel, DailyVitalsSchema, HistoricalPrefix, c, userId, today, days, start, end, ids, r);
  }

  const ByDatePrefix := "Failed to fetch vitals: "

  /** `get_vitals_by_date`: the stored day with the caller's id, or a 404
      naming the date, which `except HTTPException: raise` lets through. */
  method GetVitalsByDate(store: FirebaseService, userId: string, date: string) returns (r: Result<Doc>)
    requires store.Valid()
    ensures store.demoMode ==> r == Err(HttpError(404, "No vitals found for " + date))
    ensures !store.demoMode ==> (r.Ok? <==> date in Sub(store.dailyVitals, userId))
    ensures !store.demoMode && r.Ok? ==> r.value == Sub(store.dailyVitals, userId)[date]["user_id" := Str(userId)]
    ensures r.Err? ==> r == Err(HttpError(404, "No vitals found for " + date))
  {
    var vitals := store.GetVitalsByDate(userId, date);
    if vitals.Some? {
      assert "user_id" in vitals.value;
    }
    if !Present(vitals) {
      return Err(Rethrown(ByDatePrefix, HttpError(404, "No vitals found for " + date)));
    }
    r := Ok(vitals.value);
  }
}
