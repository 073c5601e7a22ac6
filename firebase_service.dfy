/**
  `FirebaseService`: the per-user document store behind every handler.

  Live mode keeps a `users` collection and, per user, a `profile/data`
  document and the `daily_vitals`, `daily_activities`, `sessions`, `alerts`
  and `nutrition` sub-collections. `set` replaces a document, `set(merge=True)`
  overwrites only the fields it names, `update` changes named fields of an
  existing document and fails on a missing one, and queries follow the Query
  module. Demo mode (no store configured) writes nothing and answers reads
  with fixed values.

  Store-generated document ids (`autoId`), the clock (`now` as ISO text,
  `nowSecs` as whole seconds) are parameters.
 */
module Firebase {
  import Text
  import opened Values
  import opened Query

  /** Per-user sub-collections: user id to document id to document. */
  type Nested = map<string, Coll>

  /** The sub-collection of user `u` (empty if nothing was ever written). */
  function Sub(m: Nested, u: string): Coll
  {
    if u in m then m[u] else map[]
  }

  /** `document(id).set(d)` in user `u`'s sub-collection. */
  function Put(m: Nested, u: string, id: string, d: Doc): (r: Nested)
    ensures Sub(r, u) == Sub(m, u)[id := d]
    ensures forall v :: v != u ==> Sub(r, v) == Sub(m, v)
  {
    m[u := Sub(m, u)[id := d]]
  }

  /** The stored `profile/data` document of user `u` (empty if none). */
  function ProfileOf(p: Coll, u: string): Doc
  {
    if u in p then p[u] else map[]
  }

  /** A snapshot of everything the live store holds. */
  datatype Db = Db(users: Coll, profiles: Coll, dailyVitals: Nested, dailyActivities: Nested,
                   sessions: Nested, alerts: Nested, nutrition: Nested)

  const EmptyDb := Db(map[], map[], map[], map[], map[], map[], map[])

  /** Python's name for the type of a value, as it appears in `TypeError` texts. */
  function TypeName(v: Value): string
  {
    match v
    case Null => "NoneType"
    case Bool(_) => "bool"
    case Int(_) => "int"
    case Float(_) => "float"
    case Str(_) => "str"
    case List(_) => "list"
    case Obj(_) => "dict"
  }

  /** The `TypeError` of `d[key] = value` when `d` is not a dict. */
  function ItemAssignError(v: Value): string
  {
    if v.List? then "list indices must be integers or slices, not str"
    else "'" + TypeName(v) + "' object does not support item assignment"
  }

  /** The `TypeError` of `"prefix" + v` when `v` is not a str. */
  function ConcatError(v: Value): string
  {
    "can only concatenate str (not \"" + TypeName(v) + "\") to str"
  }

  predicate HasEmail(d: Doc, email: string)
  {
    "email" in d && d["email"] == Str(email)
  }

  /** `o` is the user holding `email` that the store lists first (by id). */
  ghost predicate FirstWithEmail(users: Coll, email: string, o: string)
  {
    o in users && HasEmail(users[o], email) &&
    forall p :: p in users && HasEmail(users[p], email) && p != o ==> Text.LexLess(o, p)
  }

  /** The record `get_user_by_id` returns in demo mode. */
  function DemoUser(userId: string): Doc
  {
    map["id" := Str(userId), "email" := Str("demo@example.com"), "username" := Str("demo_user")]
  }

  /** The profile `get_user_profile` returns in demo mode. */
  function DemoProfile(userId: string): Doc
  {
    map["user_id" := Str(userId), "age" := Int(30), "weight_kg" := Float(70.0), "height_cm" := Float(175.0),
        "daily_calorie_goal" := Int(2000), "daily_step_goal" := Int(10000), "daily_distance_goal" := Float(5.0),
        "daily_active_minutes_goal" := Int(30), "daily_protein_goal" := Int(150), "daily_carbs_goal" := Int(250),
        "daily_fats_goal" := Int(70)]
  }

  /** A new user document: the payload with its id and `created_at`. */
  function NewUser(data: Doc, id: string, now: string): (r: Doc)
    ensures r.Keys == data.Keys + {"id", "created_at"}
    ensures r["id"] == Str(id) && r["created_at"] == Str(now)
    ensures forall k :: k in data && k != "id" && k != "created_at" ==> r[k] == data[k]
  {
    data["id" := Str(id)]["created_at" := Str(now)]
  }

  /** A new session, alert or nutrition document: the payload with its id and
      the owner's id, whatever `id` or `user_id` the payload held. */
  function Owned(data: Doc, id: string, u: string): (r: Doc)
    ensures r.Keys == data.Keys + {"id", "user_id"}
    ensures OwnedBy(r, id, u)
    ensures forall k :: k in data && k != "id" && k != "user_id" ==> r[k] == data[k]
  {
    data["id" := Str(id)]["user_id" := Str(u)]
  }

  /** `update(fields)` on a user document, with `updated_at` added. */
  function UpdatedUser(d: Doc, fields: Doc, now: string): (r: Doc)
    ensures r.Keys == d.Keys + fields.Keys + {"updated_at"}
    ensures r["updated_at"] == Str(now)
    ensures forall k :: k in fields && k != "updated_at" ==> r[k] == fields[k]
    ensures forall k :: k in d && k !in fields && k != "updated_at" ==> r[k] == d[k]
  {
    d + fields["updated_at" := Str(now)]
  }

  /** `set(profile_data, merge=True)` after stamping `user_id` and
      `updated_at`: fields the update does not name keep their stored values. */
  function MergedProfile(stored: Doc, update: Doc, u: string, now: string): (r: Doc)
    ensures r.Keys == stored.Keys + update.Keys + {"user_id", "updated_at"}
    ensures r["user_id"] == Str(u) && r["updated_at"] == Str(now)
    ensures forall k :: k in update && k != "user_id" && k != "updated_at" ==> r[k] == update[k]
    ensures forall k :: k in stored && k !in update && k != "user_id" && k != "updated_at" ==> r[k] == stored[k]
  {
    stored + update["user_id" := Str(u)]["updated_at" := Str(now)]
  }

  /** The whole document `store_daily_vitals` writes. */
  function VitalsDoc(date: string, readings: seq<Value>, summary: Doc, now: string): (r: Doc)
    ensures r.Keys == {"date", "readings", "summary", "synced_at"}
    ensures r["date"] == Str(date) && r["readings"] == List(readings)
    ensures r["summary"] == Obj(summary) && r["synced_at"] == Str(now)
  {
    map["date" := Str(date), "readings" := List(readings), "summary" := Obj(summary), "synced_at" := Str(now)]
  }

  /** The whole document `store_daily_activity` writes. */
  function SyncedActivity(data: Doc, now: string): (r: Doc)
    ensures r.Keys == data.Keys + {"synced_at"} && r["synced_at"] == Str(now)
    ensures forall k :: k in data && k != "synced_at" ==> r[k] == data[k]
  {
    data["synced_at" := Str(now)]
  }

  /** An alert after `acknowledge_alert`. */
  function Acknowledged(d: Doc, nowSecs: int): (r: Doc)
    ensures r.Keys == d.Keys + {"acknowledged", "acknowledged_at"}
    ensures r["acknowledged"] == Bool(true) && r["acknowledged_at"] == Int(nowSecs)
    ensures forall k :: k in d && k != "acknowledged" && k != "acknowledged_at" ==> r[k] == d[k]
  {
    d["acknowledged" := Bool(true)]["acknowledged_at" := Int(nowSecs)]
  }

  /** Acknowledging again keeps the alert acknowledged and only moves
      `acknowledged_at`. */
  lemma AcknowledgeTwice(d: Doc, t1: int, t2: int)
    ensures Acknowledged(Acknowledged(d, t1), t2) == Acknowledged(d, t2)
  {
    var a, b := Acknowledged(Acknowledged(d, t1), t2), Acknowledged(d, t2);
    assert a.Keys == b.Keys;
    forall k | k in a ensures a[k] == b[k] {
    }
  }

  /** A second daily sync for the same date leaves only the second document. */
  lemma {:induction false} SyncOverwrites(m: Nested, u: string, date: string, d1: Doc, d2: Doc)
    ensures Put(Put(m, u, date, d1), u, date, d2) == Put(m, u, date, d2)
  {
    var a, b := Put(Put(m, u, date, d1), u, date, d2), Put(m, u, date, d2);
    assert Sub(a, u) == Sub(b, u);
    assert a.Keys == b.Keys;
  }

  /** `where('email', '==', email).limit(1)` on `users`. */
  function EmailQuery(email: string): Query
  {
    Query("email", [Filter(Eq, StrKey(email))], false, Some(1))
  }

  /** `where('date', '>=', start).where('date', '<=', end).order_by('date')`. */
  function DateRange(start: string, end: string): Query
  {
    Query("date", [Filter(Ge, StrKey(start)), Filter(Le, StrKey(end))], false, None)
  }

  /** `order_by(field, DESCENDING)`, then `where(field, '>=', since)` only when
      `since` is truthy, then `limit(n)`. */
  function SinceQuery(field: string, since: Option<int>, limit: nat): Query
  {
    var filters := if since.Some? && since.value != 0 then [Filter(Ge, IntKey(since.value))] else [];
    Query(field, filters, true, Some(limit))
  }

  /** `where('timestamp', '>=', start).where('timestamp', '<=', end)`, newest first. */
  function TimestampRange(start: int, end: int): Query
  {
    Query("timestamp", [Filter(Ge, IntKey(start)), Filter(Le, IntKey(end))], true, None)
  }

  /** What each read loop writes into a streamed document before returning it. */
  datatype Stamp = OwnerStamp(u: string) | IdStamp

  function StampDoc(d: Doc, id: string, s: Stamp): Doc
  {
    match s
    case OwnerStamp(u) => d["user_id" := Str(u)]
    case IdStamp => d["id" := Str(id)]
  }

  /** `for doc in docs: data = doc.to_dict(); data[...] = ...; result.append(data)`. */
  method StampAll(c: Coll, ids: seq<string>, s: Stamp) returns (docs: seq<Doc>)
    requires forall i :: 0 <= i < |ids| ==> ids[i] in c
    ensures |docs| == |ids|
    ensures forall i :: 0 <= i < |ids| ==> docs[i] == StampDoc(c[ids[i]], ids[i], s)
  {
    docs := [];
    var i := 0;
    while i < |ids|
      invariant 0 <= i <= |ids| && |docs| == i
      invariant forall k :: 0 <= k < i ==> docs[k] == StampDoc(c[ids[k]], ids[k], s)
    {
      docs := docs + [StampDoc(c[ids[i]], ids[i], s)];
      i := i + 1;
    }
  }

  /** Every document of every user carries its own id and its owner's id. */
  predicate OwnedBy(d: Doc, id: string, u: string)
  {
    "id" in d && d["id"] == Str(id) && "user_id" in d && d["user_id"] == Str(u)
  }

  ghost predicate OwnedDocs(m: Nested)
  {
    forall u, id :: u in m && id in m[u] ==> OwnedBy(m[u][id], id, u)
  }

  lemma OwnedDocsAt(m: Nested, u: string, id: string)
    requires OwnedDocs(m) && id in Sub(m, u)
    ensures OwnedBy(Sub(m, u)[id], id, u)
  {
    assert u in m && Sub(m, u) == m[u];
  }

  lemma PutKeepsOwned(m: Nested, u: string, id: string, d: Doc)
    requires OwnedDocs(m) && OwnedBy(d, id, u)
    ensures OwnedDocs(Put(m, u, id, d))
  {
    var r := Put(m, u, id, d);
    forall v, k | v in r && k in r[v]
      ensures OwnedBy(r[v][k], k, v)
    {
      if v != u {
        assert r[v] == m[v];
      } else if k == id {
        assert r[v] == Sub(m, u)[id := d];
      } else {
        assert r[v] == Sub(m, u)[id := d] && u in m;
        assert r[v][k] == m[u][k];
      }
    }
  }

  /** Every daily vitals document carries the date it is stored under. */
  predicate DatedAs(d: Doc, date: string)
  {
    "date" in d && d["date"] == Str(date)
  }

  ghost predicate DatedDocs(m: Nested)
  {
    forall u, date :: u in m && date in m[u] ==> DatedAs(m[u][date], date)
  }

  lemma PutKeepsDated(m: Nested, u: string, date: string, d: Doc)
    requires DatedDocs(m) && DatedAs(d, date)
    ensures DatedDocs(Put(m, u, date, d))
  {
    var r := Put(m, u, date, d);
    forall v, k | v in r && k in r[v]
      ensures DatedAs(r[v][k], k)
    {
      if v != u {
        assert r[v] == m[v];
      } else if k == date {
        assert r[v] == Sub(m, u)[date := d];
      } else {
        assert r[v] == Sub(m, u)[date := d] && u in m;
        assert r[v][k] == m[u][k];
      }
    }
  }

  /** Every profile carries its owner's id. */
  ghost predicate OwnedProfiles(p: Coll)
  {
    forall u :: u in p ==> "user_id" in p[u] && p[u]["user_id"] == Str(u)
  }

  /** The documents matched by `EmailQuery(email)` are the users holding `email`. */
  lemma EmailSelected(users: Coll, email: string, o: string)
    requires o in users
    ensures Selected(users, EmailQuery(email), o) <==> HasEmail(users[o], email)
  {
    var q := EmailQuery(email);
    var k := KeyOf(users[o], "email");
    assert q.field == "email" && |q.filters| == 1 && q.filters[0] == Filter(Eq, StrKey(email));
    assert Selected(users, q, o) <==> k.Some? && Passes(k.value, q.filters[0]);
    assert k == Some(StrKey(email)) <==> HasEmail(users[o], email);
  }

  class FirebaseService {
    const demoMode: bool
    var users: Coll
    var profiles: Coll
    var dailyVitals: Nested
    var dailyActivities: Nested
    var sessions: Nested
    var alerts: Nested
    var nutrition: Nested

    ghost function State(): Db
      reads this
    {
      Db(users, profiles, dailyVitals, dailyActivities, sessions, alerts, nutrition)
    }

    /** Demo mode holds nothing; profiles carry their owner's id, vitals
        documents their date, and sessions, alerts and nutrition entries their
        own id and their owner's id. */
    ghost predicate Valid()
      reads this
    {
      (demoMode ==> State() == EmptyDb) &&
      OwnedProfiles(profiles) && DatedDocs(dailyVitals) &&
      OwnedDocs(sessions) && OwnedDocs(alerts) && OwnedDocs(nutrition)
    }

    /** `demoMode` stands for "no store configured at start-up". */
    constructor (demoMode: bool)
      ensures Valid() && this.demoMode == demoMode && State() == EmptyDb
    {
      this.demoMode := demoMode;
      users, profiles := map[], map[];
      dailyVitals, dailyActivities := map[], map[];
      sessions, alerts, nutrition := map[], map[], map[];
    }

    // ---------------- users ----------------

    method CreateUser(userData: Doc, autoId: string, now: string) returns (r: Result<string>)
      requires Valid()
      modifies this
      ensures Valid()
      ensures demoMode ==> (State() == old(State()) &&
        r == match DictGet(userData, "email", Str("test"))
             case Str(e) => Ok("demo_user_" + e)
             case v => Err(TypeError(ConcatError(v))))
      ensures !demoMode ==> (r == Ok(autoId) &&
        State() == old(State()).(users := old(users)[autoId := NewUser(userData, autoId, now)]))
    {
      if demoMode {
        match DictGet(userData, "email", Str("test")) {
          case Str(e) => r := Ok("demo_user_" + e);
          case v => r := Err(TypeError(ConcatError(v)));
        }
        return;
      }
      users := users[autoId := NewUser(userData, autoId, now)];
      r := Ok(autoId);
    }

    method GetUserByEmail(email: string) returns (r: Option<Doc>, ghost id: string)
      requires Valid()
      ensures demoMode ==> r == None
      ensures !demoMode ==> (r.Some? <==> exists o :: o in users && HasEmail(users[o], email))
      ensures r.Some? ==> FirstWithEmail(users, email, id) && r.value == users[id]["id" := Str(id)]
    {
      id := "";
      if demoMode {
        r := None;
        return;
      }
      var q := EmailQuery(email);
      var ids := Run(users, q);
      forall o | o in users
        ensures Selected(users, q, o) <==> HasEmail(users[o], email)
      {
        EmailSelected(users, email, o);
      }
      if ids == [] {
        r := None;
        forall o | o in users
          ensures !HasEmail(users[o], email)
        {
          assert o !in ids;
        }
      } else {
        var first := ids[0];
        id := first;
        r := Some(users[first]["id" := Str(first)]);
        assert |ids| == 1;
        KeyLessIrreflexive(StrKey(email));
        forall p | p in users && HasEmail(users[p], email) && p != first
          ensures Text.LexLess(first, p)
        {
          assert p !in ids;
          assert Before(users, q, first, p);
          assert KeyOf(users[first], "email") == Some(StrKey(email)) == KeyOf(users[p], "email");
        }
      }
    }

    method GetUserById(userId: string) returns (r: Option<Doc>)
      requires Valid()
      ensures demoMode ==> r == Some(DemoUser(userId))
      ensures !demoMode ==> r == if userId in users then Some(users[userId]["id" := Str(userId)]) else None
    {
      if demoMode {
        return Some(DemoUser(userId));
      }
      if userId in users {
        r := Some(users[userId]["id" := Str(userId)]);
      } else {
        r := None;
      }
    }

    /** `update_user(user_id, data)`. The first step, `data['updated_at'] = …`,
        raises when `data` is not a dict; `update` raises on a missing user. */
    method UpdateUser(userId: Value, data: Value, now: string) returns (r: Result<()>)
      requires Valid()
      modifies this
      ensures Valid()
      ensures demoMode ==> r == Ok(()) && State() == old(State())
      ensures !demoMode && !data.Obj? ==> r == Err(TypeError(ItemAssignError(data))) && State() == old(State())
      ensures !demoMode && data.Obj? && !(userId.Str? && userId.s in old(users)) ==>
        r.Err? && State() == old(State())
      ensures !demoMode && data.Obj? && userId.Str? && userId.s in old(users) ==> (r == Ok(()) &&
        State() == old(State()).(users := old(users)[userId.s := UpdatedUser(old(users)[userId.s], data.fields, now)]))
    {
      if demoMode {
        return Ok(());
      }
      if !data.Obj? {
        return Err(TypeError(ItemAssignError(data)));
      }
      if !userId.Str? {
        return Err(TypeError("document id must be a string"));
      }
      var u := userId.s;
      if u !in users {
        return Err(StoreError("No document to update: users/" + u));
      }
      users := users[u := UpdatedUser(users[u], data.fields, now)];
      r := Ok(());
    }

    // ---------------- profiles ----------------

    method GetUserProfile(userId: string) returns (r: Option<Doc>)
      requires Valid()
      ensures demoMode ==> r == Some(DemoProfile(userId))
      ensures !demoMode ==> r == if userId in profiles then Some(profiles[userId]) else None
      ensures !demoMode && r.Some? ==> "user_id" in r.value && r.value["user_id"] == Str(userId)
    {
      if demoMode {
        return Some(DemoProfile(userId));
      }
      r := if userId in profiles then Some(profiles[userId]) else None;
    }

    method UpdateUserProfile(userId: string, profileData: Doc, now: string)
      requires Valid()
      modifies this
      ensures Valid()
      ensures demoMode ==> State() == old(State())
      ensures !demoMode ==> State() == old(State()).(profiles := old(profiles)[userId :=
        MergedProfile(ProfileOf(old(profiles), userId), profileData, userId, now)])
    {
      if demoMode {
        return;
      }
      var merged := MergedProfile(ProfileOf(profiles, userId), profileData, userId, now);
      assert OwnedProfiles(profiles[userId := merged]) by {
        forall u | u in profiles[userId := merged]
          ensures "user_id" in profiles[userId := merged][u] && profiles[userId := merged][u]["user_id"] == Str(u)
        {
          if u != userId {
            assert profiles[userId := merged][u] == profiles[u];
          }
        }
      }
      profiles := profiles[userId := merged];
    }

    // ---------------- daily vitals ----------------

    method StoreDailyVitals(userId: string, date: string, readings: seq<Value>, summary: Doc, now: string)
      requires Valid()
      modifies this
      ensures Valid()
      ensures demoMode ==> State() == old(State())
      ensures !demoMode ==> State() == old(State()).(dailyVitals :=
        Put(old(dailyVitals), userId, date, VitalsDoc(date, readings, summary, now)))
    {
      if demoMode {
        return;
      }
      PutKeepsDated(dailyVitals, userId, date, VitalsDoc(date, readings, summary, now));
      dailyVitals := Put(dailyVitals, userId, date, VitalsDoc(date, readings, summary, now));
    }

    method GetVitalsRange(userId: string, start: string, end: string) returns (docs: seq<Doc>, ghost ids: seq<string>)
      requires Valid()
      ensures demoMode ==> docs == []
      ensures !demoMode ==> IsAnswer(Sub(dailyVitals, userId), DateRange(start, end), ids)
      ensures !demoMode ==> |docs| == |ids| && forall i :: 0 <= i < |ids| ==>
        docs[i] == Sub(dailyVitals, userId)[ids[i]]["user_id" := Str(userId)]
    {
      if demoMode {
        return [], [];
      }
      var c := Sub(dailyVitals, userId);
      var found := Run(c, DateRange(start, end));
      ids := found;
      docs := StampAll(c, found, OwnerStamp(userId));
    }

    method GetVitalsByDate(userId: string, date: string) returns (r: Option<Doc>)
      requires Valid()
      ensures demoMode ==> r == None
      ensures !demoMode ==> r == if date in Sub(dailyVitals, userId)
        then Some(Sub(dailyVitals, userId)[date]["user_id" := Str(userId)]) else None
    {
      if demoMode {
        return None;
      }
      var c := Sub(dailyVitals, userId);
      r := if date in c then Some(c[date]["user_id" := Str(userId)]) else None;
    }

    // ---------------- daily activities ----------------

    method StoreDailyActivity(userId: string, date: string, activityData: Doc, now: string)
      requires Valid()
      modifies this
      ensures Valid()
      ensures demoMode ==> State() == old(State())
      ensures !demoMode ==> State() == old(State()).(dailyActivities :=
        Put(old(dailyActivities), userId, date, SyncedActivity(activityData, now)))
    {
      if demoMode {
        return;
      }
      dailyActivities := Put(dailyActivities, userId, date, SyncedActivity(activityData, now));
    }

    method GetActivityRange(userId: string, start: string, end: string) returns (docs: seq<Doc>, ghost ids: seq<string>)
      requires Valid()
      ensures demoMode ==> docs == []
      ensures !demoMode ==> IsAnswer(Sub(dailyActivities, userId), DateRange(start, end), ids)
      ensures !demoMode ==> |docs| == |ids| && forall i :: 0 <= i < |ids| ==>
        docs[i] == Sub(dailyActivities, userId)[ids[i]]["user_id" := Str(userId)]
    {
      if demoMode {
        return [], [];
      }
      var c := Sub(dailyActivities, userId);
      var found := Run(c, DateRange(start, end));
      ids := found;
      docs := StampAll(c, found, OwnerStamp(userId));
    }

    // ---------------- sessions, alerts, nutrition ----------------

    method CreateSession(userId: string, sessionData: Doc, autoId: string) returns (id: string)
      requires Valid()
      modifies this
      ensures Valid()
      ensures demoMode ==> (State() == old(State()) &&
        id == "demo_session_" + PyStr(DictGet(sessionData, "start_time", Int(0))))
      ensures !demoMode ==> (id == autoId &&
        State() == old(State()).(sessions := Put(old(sessions), userId, autoId, Owned(sessionData, autoId, userId))))
    {
      if demoMode {
        return "demo_session_" + PyStr(DictGet(sessionData, "start_time", Int(0)));
      }
      PutKeepsOwned(sessions, userId, autoId, Owned(sessionData, autoId, userId));
      sessions := Put(sessions, userId, autoId, Owned(sessionData, autoId, userId));
      id := autoId;
    }

    /** `get_sessions` and `get_alerts`: newest first, at most `limit`, the
        lower bound only when it is truthy; a negative limit is refused by
        the store. Each document is read with its key stamped as `id`, which
        changes nothing in a collection whose documents carry their own id. */
    method GetOwned(m: Nested, field: string, userId: string, limit: int, since: Option<int>)
      returns (r: Result<seq<Doc>>, ghost ids: seq<string>)
      requires !demoMode
      ensures limit < 0 ==> r.Err?
      ensures limit >= 0 ==> r.Ok? && IsAnswer(Sub(m, userId), SinceQuery(field, since, limit), ids)
      ensures limit >= 0 ==> |r.value| == |ids|
      ensures limit >= 0 ==> forall i :: 0 <= i < |ids| ==> r.value[i] == Sub(m, userId)[ids[i]]["id" := Str(ids[i])]
      ensures limit >= 0 && OwnedDocs(m) ==> forall i :: 0 <= i < |ids| ==> r.value[i] == Sub(m, userId)[ids[i]]
    {
      ids := [];
      if limit < 0 {
        return Err(StoreError("limit must be non-negative")), ids;
      }
      var c := Sub(m, userId);
      var found := Run(c, SinceQuery(field, since, limit));
      ids := found;
      var docs := StampAll(c, found, IdStamp);
      if OwnedDocs(m) {
        forall i | 0 <= i < |ids|
          ensures docs[i] == c[ids[i]]
        {
          OwnedDocsAt(m, userId, ids[i]);
          assert c[ids[i]]["id" := Str(ids[i])] == c[ids[i]];
        }
      }
      r := Ok(docs);
    }

    method GetSessions(userId: string, limit: int, startTime: Option<int>)
      returns (r: Result<seq<Doc>>, ghost ids: seq<string>)
      requires Valid()
      ensures demoMode ==> r == Ok([])
      ensures !demoMode && limit < 0 ==> r.Err?
      ensures !demoMode && limit >= 0 ==> r.Ok? && IsAnswer(Sub(sessions, userId), SinceQuery("start_time", startTime, limit), ids)
      ensures !demoMode && limit >= 0 ==> |r.value| == |ids| && forall i :: 0 <= i < |ids| ==> r.value[i] == Sub(sessions, userId)[ids[i]]
    {
      if demoMode {
        return Ok([]), [];
      }
      r, ids := GetOwned(sessions, "start_time", userId, limit, startTime);
    }

    method CreateAlert(userId: string, alertData: Doc, autoId: string) returns (id: string)
      requires Valid()
      modifies this
      ensures Valid()
      ensures demoMode ==> (State() == old(State()) &&
        id == "demo_alert_" + PyStr(DictGet(alertData, "timestamp", Int(0))))
      ensures !demoMode ==> (id == autoId &&
        State() == old(State()).(alerts := Put(old(alerts), userId, autoId, Owned(alertData, autoId, userId))))
    {
      if demoMode {
        return "demo_alert_" + PyStr(DictGet(alertData, "timestamp", Int(0)));
      }
      PutKeepsOwned(alerts, userId, autoId, Owned(alertData, autoId, userId));
      alerts := Put(alerts, userId, autoId, Owned(alertData, autoId, userId));
      id := autoId;
    }

    method GetAlerts(userId: string, limit: int, sinceTimestamp: Option<int>)
      returns (r: Result<seq<Doc>>, ghost ids: seq<string>)
      requires Valid()
      ensures demoMode ==> r == Ok([])
      ensures !demoMode && limit < 0 ==> r.Err?
      ensures !demoMode && limit >= 0 ==> r.Ok? && IsAnswer(Sub(alerts, userId), SinceQuery("timestamp", sinceTimestamp, limit), ids)
      ensures !demoMode && limit >= 0 ==> |r.value| == |ids| && forall i :: 0 <= i < |ids| ==> r.value[i] == Sub(alerts, userId)[ids[i]]
    {
      if demoMode {
        return Ok([]), [];
      }
      r, ids := GetOwned(alerts, "timestamp", userId, limit, sinceTimestamp);
    }

    method AcknowledgeAlert(userId: string, alertId: string, nowSecs: int) returns (r: Result<()>)
      requires Valid()
      modifies this
      ensures Valid()
      ensures demoMode ==> r == Ok(()) && State() == old(State())
      ensures !demoMode && alertId !in Sub(old(alerts), userId) ==> r.Err? && State() == old(State())
      ensures !demoMode && alertId in Sub(old(alerts), userId) ==> (r == Ok(()) &&
        State() == old(State()).(alerts := Put(old(alerts), userId, alertId, Acknowledged(Sub(old(alerts), userId)[alertId], nowSecs))))
    {
      if demoMode {
        return Ok(());
      }
      var c := Sub(alerts, userId);
      if alertId !in c {
        return Err(StoreError("No document to update: alerts/" + alertId));
      }
      OwnedDocsAt(alerts, userId, alertId);
      PutKeepsOwned(alerts, userId, alertId, Acknowledged(c[alertId], nowSecs));
      alerts := Put(alerts, userId, alertId, Acknowledged(c[alertId], nowSecs));
      r := Ok(());
    }

    method CreateNutritionEntry(userId: string, nutritionData: Doc, autoId: string) returns (id: string)
      requires Valid()
      modifies this
      ensures Valid()
      ensures demoMode ==> (State() == old(State()) &&
        id == "demo_nutrition_" + PyStr(DictGet(nutritionData, "timestamp", Int(0))))
      ensures !demoMode ==> (id == autoId &&
        State() == old(State()).(nutrition := Put(old(nutrition), userId, autoId, Owned(nutritionData, autoId, userId))))
    {
      if demoMode {
        return "demo_nutrition_" + PyStr(DictGet(nutritionData, "timestamp", Int(0)));
      }
      PutKeepsOwned(nutrition, userId, autoId, Owned(nutritionData, autoId, userId));
      nutrition := Put(nutrition, userId, autoId, Owned(nutritionData, autoId, userId));
      id := autoId;
    }

    method GetNutritionEntries(userId: string, startTimestamp: int, endTimestamp: int)
      returns (docs: seq<Doc>, ghost ids: seq<string>)
      requires Valid()
      ensures demoMode ==> docs == []
      ensures !demoMode ==> IsAnswer(Sub(nutrition, userId), TimestampRange(startTimestamp, endTimestamp), ids)
      ensures !demoMode ==> |docs| == |ids| && forall i :: 0 <= i < |ids| ==> docs[i] == Sub(nutrition, userId)[ids[i]]
    {
      if demoMode {
        return [], [];
      }
      var c := Sub(nutrition, userId);
      var found := Run(c, TimestampRange(startTimestamp, endTimestamp));
      ids := found;
      docs := StampAll(c, found, IdStamp);
      forall i | 0 <= i < |ids|
        ensures docs[i] == c[ids[i]]
      {
        OwnedDocsAt(nutrition, userId, ids[i]);
        assert c[ids[i]]["id" := Str(ids[i])] == c[ids[i]];
      }
    }
  }
}
