# Health app backend core, modelled in Dafny

This project models the core of a health-tracking REST backend. The backend
keeps users, their profiles and their synced daily vitals and activity in a
per-user document store. It also stores sessions, alerts and nutrition entries.
The model covers four parts:

- **Input validators.** The email pattern, the ordered password rules and the
  strip-and-truncate sanitiser (`Validators`).
- **The document store service.** `FirebaseService` is a class. Its fields are
  the `users` collection, the per-user `profile/data` document, and the
  per-user `daily_vitals`, `daily_activities`, `sessions`, `alerts` and
  `nutrition` sub-collections (`Firebase`).
  - The store's query semantics (`where`, `order_by`, `limit`) are a
    specification, `IsAnswer`, that `Query.Run` meets. `IsAnswer` has exactly
    one solution.
  - Demo mode, used when no store is configured, is a constant of the service.
    In demo mode every write leaves the state unchanged and every read returns
    its fixed value.
- **Sign-up, login and token claims** (`Auth`). Password hashing, password
  checking and token signing are functions the service is given.
- **The handlers' own logic** (`UsersApi`, `VitalsApi`, `ActivitiesApi`).
  - The default-profile fallback and the partial profile update.
  - The `[today - (days - 1), today]` window of the historical reads (`History`).
  - How each exception becomes a response status (`Responses`).

Dates are day ordinals. Day 1 is 0001-01-01. `IsoDay` renders an ordinal as
`YYYY-MM-DD`. `Dates.IsoOrder` proves that comparing those strings
lexicographically agrees with comparing the dates, so the store's string
range filter selects exactly the days of the window. Building a request or
response model (`Model(**d)`) is `Schemas.Conform` over a list of declared
fields with their kinds and defaults.

Several collaborators become parameters: the clock (`now`, `nowSecs`, `today`),
the store's generated document ids (`autoId`), the password hash, the password
check and the token signer.

The code and the written description of the system disagree in three places.
The model follows the code, and each is listed under "Findings":

- An empty profile update is described as a 400. The code turns it into a 500.
- Login is described as stamping `last_login`. The code's call has its
  arguments swapped, so a live login fails after the password check.
- A missing user on `GET /users/me` is likewise a 500, not a not-found error.

The description also says demo-mode writes never raise. `create_user` in demo
mode still raises when the payload's `email` is not a string, and the model
keeps that case.

## Model

| member | source | states |
|---|---|---|
| Validators.ValidateEmail | back_end/app/utils/validators.py:8-9 | accepts a string exactly when the whole string has the pattern's shape, or is such a string followed by one final newline (`$` without MULTILINE) |
| Validators.MatchesWholeIsShape | back_end/app/utils/validators.py:8 | the executable scan (first `@`, last `.`) accepts exactly the strings of the pattern's shape: non-empty local part, `@`, non-empty domain run, `.`, two or more ASCII letters (both directions) |
| Validators.AcceptedEmailHasOneAt | back_end/app/utils/validators.py:8-9 | every accepted address contains exactly one `@` |
| Validators.TrailingNewlineAccepted | back_end/app/utils/validators.py:8-9 | a valid address followed by `\n` is still accepted |
| Validators.ContainsInRange | back_end/app/utils/validators.py:19-24 | a character-class search succeeds exactly when some character lies in the class range |
| Validators.FirstBrokenOfPasswordRules | back_end/app/utils/validators.py:17-24 | the rule reported is the first broken one in the order length, uppercase, lowercase, digit |
| Validators.ValidatePassword | back_end/app/utils/validators.py:12-25 | valid exactly when the message is None; valid exactly when the length is at least 8 and there is an ASCII uppercase letter, lowercase letter and digit; otherwise the message is that of the first broken rule |
| Validators.LeadingSpaces | back_end/app/utils/validators.py:30 | the length of the maximal whitespace prefix |
| Validators.TrailingStart | back_end/app/utils/validators.py:30 | the start of the maximal whitespace suffix |
| Validators.Strip | back_end/app/utils/validators.py:30 | the result is the input with its maximal leading and trailing whitespace removed, and neither starts nor ends with whitespace |
| Validators.SanitizeString | back_end/app/utils/validators.py:28-30 | `""` for None or empty input; otherwise a prefix of the stripped text whose length is `min(n, len)` for `n >= 0` and `max(len + n, 0)` for negative `n` |
| Text.PadOrder | back_end/app/services/firebase_service.py:117-119 | zero-padded numbers of one width compare as strings exactly as the numbers compare |
| Dates.FromOrdinal | back_end/app/api/v1/vitals.py:71-72 | the date of a valid ordinal is a valid date whose ordinal is that number |
| Dates.OrdinalMonotone | back_end/app/api/v1/vitals.py:71-72 | an earlier date has a smaller ordinal |
| Dates.IsoOrder | back_end/app/services/firebase_service.py:117-119 | ISO strings of valid dates compare lexicographically exactly as the dates compare, and are equal only for equal dates |
| Dates.IsoDayOrder | back_end/app/services/firebase_service.py:117-119 | the ISO strings of two day ordinals compare as the ordinals do |
| Query.BeforeTotal | back_end/app/services/firebase_service.py:116-120 | two distinct selected documents are ordered one way or the other |
| Query.BeforeTransitive | back_end/app/services/firebase_service.py:116-120 | the result order is transitive |
| Query.FirstExists | back_end/app/services/firebase_service.py:116-120 | every non-empty set of selected documents has a first one in result order |
| Query.Run | back_end/app/services/firebase_service.py:116-120 | the documents returned are selected by every filter, in result order, at most `limit`, and every selected document left out lies after a full result |
| Query.AnswerHead | back_end/app/services/firebase_service.py:116-120 | the first result comes before every other selected document |
| Query.AnswerEmpty | back_end/app/services/firebase_service.py:116-120 | the result is empty exactly when the limit is 0 or nothing is selected |
| Query.AnswerTail | back_end/app/services/firebase_service.py:116-120 | dropping the first result leaves the result of the same query, limit reduced by one, on the collection without that document |
| Query.AnswerUnique | back_end/app/services/firebase_service.py:116-120 | a query has exactly one result |
| Firebase.Put | back_end/app/services/firebase_service.py:103-104 | `document(id).set(d)` replaces that one document of that one user and nothing else |
| Firebase.NewUser | back_end/app/services/firebase_service.py:25-28 | the stored user is the payload plus its `id` and `created_at`, all other fields kept |
| Firebase.Owned | back_end/app/services/firebase_service.py:177-180 | a created session, alert or nutrition entry is the payload with `id` and the caller's `user_id` written over any the payload held, so it is owned by that id and user |
| Firebase.UpdatedUser | back_end/app/services/firebase_service.py:60-61 | `update` overwrites the named fields and `updated_at`, and keeps every other field |
| Firebase.MergedProfile | back_end/app/services/firebase_service.py:92-94 | the merge keeps stored fields the update does not name, takes the update's fields, and always overwrites `user_id` and `updated_at` |
| Firebase.VitalsDoc | back_end/app/services/firebase_service.py:104-109 | the vitals document has exactly `date`, `readings`, `summary`, `synced_at`, holding the request's date, readings and summary and the sync time |
| Firebase.SyncedActivity | back_end/app/services/firebase_service.py:148-150 | the activity document is the payload plus `synced_at` |
| Firebase.Acknowledged | back_end/app/services/firebase_service.py:241-244 | acknowledging sets `acknowledged` true and `acknowledged_at`, and no other field changes |
| Firebase.AcknowledgeTwice | back_end/app/services/firebase_service.py:241-244 | acknowledging twice equals acknowledging once at the later time |
| Firebase.SyncOverwrites | back_end/app/services/firebase_service.py:103-109 | a second sync of a date leaves only the second document |
| Firebase.StampAll | back_end/app/services/firebase_service.py:122-127 | the read loop returns, in order, each streamed document with its stamp written in |
| Firebase.PutKeepsOwned | back_end/app/services/firebase_service.py:177-181 | writing a document that carries its id and owner keeps every sub-collection so |
| Firebase.PutKeepsDated | back_end/app/services/firebase_service.py:103-109 | writing a document dated with its key keeps every daily collection so |
| Firebase.EmailSelected | back_end/app/services/firebase_service.py:36 | the email query selects exactly the users holding that email |
| Firebase.FirebaseService.constructor | back_end/app/services/firebase_service.py:7-16 | a new service is empty, valid, and in demo mode exactly when asked |
| Firebase.FirebaseService.CreateUser | back_end/app/services/firebase_service.py:20-29 | demo: no change, id `"demo_user_" + email` (or `"test"`), and a `TypeError` for a non-string email; live: stores the stamped user under the generated id and returns that id |
| Firebase.FirebaseService.GetUserByEmail | back_end/app/services/firebase_service.py:31-41 | demo: None; live: a user exactly when one holds the email, namely the first in id order, with its `id` |
| Firebase.FirebaseService.GetUserById | back_end/app/services/firebase_service.py:43-53 | demo: the canned user; live: the stored user with its `id`, or None |
| Firebase.FirebaseService.UpdateUser | back_end/app/services/firebase_service.py:55-61 | demo: no change; a non-dict `data` raises `TypeError` before any write; a missing user is an error; otherwise that user becomes `UpdatedUser` and nothing else changes |
| Firebase.FirebaseService.GetUserProfile | back_end/app/services/firebase_service.py:65-85 | demo: the canned profile with the literal defaults; live: the stored profile (carrying the caller's `user_id`) or None |
| Firebase.FirebaseService.UpdateUserProfile | back_end/app/services/firebase_service.py:87-94 | demo: no change; live: only the caller's profile changes, to the merge |
| Firebase.FirebaseService.StoreDailyVitals | back_end/app/services/firebase_service.py:98-109 | demo: no change; live: only the caller's document for the date changes, to exactly the vitals document |
| Firebase.FirebaseService.GetVitalsRange | back_end/app/services/firebase_service.py:111-127 | demo: `[]`; live: the date-range query's result over the caller's documents, each with the caller's `user_id` |
| Firebase.FirebaseService.GetVitalsByDate | back_end/app/services/firebase_service.py:129-139 | demo: None; live: the stored day with the caller's `user_id`, or None |
| Firebase.FirebaseService.StoreDailyActivity | back_end/app/services/firebase_service.py:143-150 | demo: no change; live: only the caller's document for the date changes, to the payload plus `synced_at` |
| Firebase.FirebaseService.GetActivityRange | back_end/app/services/firebase_service.py:152-168 | demo: `[]`; live: the date-range query's result over the caller's documents, each with the caller's `user_id` |
| Firebase.FirebaseService.CreateSession | back_end/app/services/firebase_service.py:172-181 | demo: no change, id `"demo_session_" + str(session_data.get("start_time", 0))`, so a present `None` gives `"demo_session_None"`; live: stores the owned document under the generated id and returns it |
| Firebase.FirebaseService.GetOwned | back_end/app/services/firebase_service.py:188-201 | newest first, at most `limit`, the lower bound only when truthy; each document as stored with its key stamped as `id`, which is the stored document itself when every document carries its own id |
| Firebase.FirebaseService.GetSessions | back_end/app/services/firebase_service.py:183-201 | demo: `[]`; live: as `GetOwned` on `start_time` |
| Firebase.FirebaseService.CreateAlert | back_end/app/services/firebase_service.py:205-214 | demo: no change, id `"demo_alert_" + str(alert_data.get("timestamp", 0))`; live: stores the owned alert and returns its id |
| Firebase.FirebaseService.GetAlerts | back_end/app/services/firebase_service.py:216-234 | demo: `[]`; live: as `GetOwned` on `timestamp` |
| Firebase.FirebaseService.AcknowledgeAlert | back_end/app/services/firebase_service.py:236-244 | demo: no change; a missing alert is an error; otherwise only that alert changes, to `Acknowledged` |
| Firebase.FirebaseService.CreateNutritionEntry | back_end/app/services/firebase_service.py:248-257 | demo: no change, id `"demo_nutrition_" + str(nutrition_data.get("timestamp", 0))`; live: stores the owned entry and returns its id |
| Firebase.FirebaseService.GetNutritionEntries | back_end/app/services/firebase_service.py:259-275 | demo: `[]`; live: the entries with `start <= timestamp <= end`, newest first, as stored |
| Auth.SignupRecord | back_end/app/services/auth_service.py:22-28 | the record stored at sign-up holds the password's hash and has no field for the password |
| Auth.LoginIdentity | back_end/app/services/auth_service.py:65-69 | the identity is the record's `id`, `email` and `username` (default `''`); a missing `id` or `email` is a `KeyError` |
| Auth.TokenClaims | back_end/app/services/auth_service.py:73-77 | the claims are exactly `sub` = `user_id`, `email`, and `username` defaulting to `''`; a missing key is a `KeyError` |
| Auth.SignupIdentityClaims | back_end/app/services/auth_service.py:45-49 | the identity sign-up returns yields claims whose subject is the new id |
| Auth.SignedUpUserFound | back_end/app/services/auth_service.py:14-30 | after a sign-up with a fresh email, the new user is the one the email lookup finds |
| Auth.FirstWithEmailUnique | back_end/app/services/firebase_service.py:36 | the user the email lookup finds is unique |
| Auth.AuthService.constructor | back_end/app/services/auth_service.py:7-9 | the service holds the store and the hash, check and sign functions it is given |
| Auth.AuthService.Signup | back_end/app/services/auth_service.py:11-49 | a registered email raises "Email already registered" before any write; otherwise stores the hashed record and the default goals for the new id and returns `{user_id, email, username}`; demo mode writes nothing |
| Auth.AuthService.Login | back_end/app/services/auth_service.py:51-69 | as written: never succeeds, never changes the store; an unknown email (and every demo login) gives "Invalid credentials"; a wrong password gives the same error; a right one ends in the swapped call's `TypeError` |
| Auth.AuthService.LoginCorrected | back_end/app/services/auth_service.py:51-69 | with the call's arguments in order: identical errors for an unknown email and a wrong password; a right password stamps `last_login` on that user only and returns the identity |
| Auth.AuthService.CreateToken | back_end/app/services/auth_service.py:71-78 | signs exactly the claims, and fails exactly when `user_id` or `email` is missing |
| Responses.StatusText | back_end/app/api/v1/users.py:71-72 | `str()` of a 400 or 404 `HTTPException` is `"<status>: <detail>"` |
| Schemas.Conform | back_end/app/schemas/user.py:4-26 | building a model succeeds exactly when every field validates; the result has exactly the declared fields, each with its validated value or default; a failure is a validation error for that model |
| Schemas.ConformAgrees | back_end/app/api/v1/users.py:36 | dicts giving every field the same value build the same model |
| Schemas.AgreeAppend | back_end/app/schemas/user.py:4-26 | agreement on two field lists is agreement on their concatenation |
| Schemas.ConformFirst | back_end/app/schemas/user.py:5 | the first declared field of a built model holds that field's validated value |
| Schemas.ConformFits | back_end/app/models/vitals.py:30-35 | a dict that already has exactly the declared fields, each of its kind, builds to itself |
| Schemas.ConformAll | back_end/app/api/v1/vitals.py:82 | the list comprehension succeeds exactly when every row builds, giving one model per row in order, or the first row's error |
| Schemas.ExcludeUnset | back_end/app/api/v1/users.py:59 | the update holds exactly the declared fields the body sent, an explicit null included, each validated; a bad field is a validation error |
| History.HistoricalWindow | back_end/app/api/v1/vitals.py:71-72 | the window exists exactly when `timedelta(days - 1)` is in range and the start date is valid; it ends today and spans `days` days; otherwise an `OverflowError`, whose text for a day count outside the C `int` range is the conversion failure |
| History.WindowSelects | back_end/app/api/v1/vitals.py:75-79 | a day's ISO string lies in the string window exactly when the day lies in the day window |
| History.EmptyWindow | back_end/app/api/v1/vitals.py:71-72 | a window with `days <= 0` contains no string at all |
| History.DateRangeSelected | back_end/app/services/firebase_service.py:116-119 | the date-range query selects exactly the documents whose `date` string lies in the window |
| History.WindowAnswer | back_end/app/services/firebase_service.py:116-127 | the range read returns every document dated on a day of the window, only documents dated in the window, in ascending date order, and nothing for `days <= 0` |
| History.HistoricalFacts | back_end/app/api/v1/vitals.py:69-92 | a successful historical read echoes `days`, ends today, and holds one built model per document read, in order; `days <= 0` gives empty data starting `1 - days` days after today; every failure is a 500 |
| History.NothingStored | back_end/app/api/v1/vitals.py:74-89 | a window over which the caller has nothing stored is answered with empty data, not an error |
| VitalsApi.SyncedVitalsRoundTrip | back_end/app/api/v1/vitals.py:30-38 | a synced day, read back with the caller's id, builds a `DailyVitals` equal to the stored document |
| VitalsApi.SyncDailyVitals | back_end/app/api/v1/vitals.py:13-46 | stores exactly the vitals document under the caller and the date (live only) and confirms with the date in the message |
| VitalsApi.GetHistoricalVitals | back_end/app/api/v1/vitals.py:50-92 | the result is `HistoricalOutcome` for the caller's documents: the window's overflow as a 500, else the built rows of the store's answer, or the first failure as a 500; every failure is a 500, and a success echoes `days` and ends today |
| VitalsApi.GetVitalsByDate | back_end/app/api/v1/vitals.py:96-115 | the stored day with the caller's id; otherwise (and always in demo mode) a 404 naming the date, which the handler re-raises unchanged |
| ActivitiesApi.ActivityRecord | back_end/app/api/v1/activities.py:24-32 | the record's `user_id` is the caller's, the counters are the request's, and `hourly_breakdown` is `[]` when absent or empty |
| ActivitiesApi.ActivityDocFits | back_end/app/models/activity.py:11-19 | a dict with exactly the `DailyActivity` fields, each of its kind, is a `DailyActivity` |
| ActivitiesApi.ActivityNames | back_end/app/models/activity.py:11-19 | the `DailyActivity` field names, all distinct |
| ActivitiesApi.SyncedActivityRoundTrip | back_end/app/api/v1/activities.py:24-38 | a synced day is stored dated under its own date and builds back to a `DailyActivity` equal to the stored document |
| ActivitiesApi.SyncDailyActivity | back_end/app/api/v1/activities.py:13-46 | stores the record plus `synced_at` under the caller and the date (live only) and confirms |
| ActivitiesApi.GetHistoricalActivity | back_end/app/api/v1/activities.py:50-79 | the result is `HistoricalOutcome` for the caller's activity documents; every failure is a 500, and a success echoes `days` and ends today |
| UsersApi.ProfileResponse | back_end/app/api/v1/users.py:21-39 | a missing or empty profile is served as the model built from the caller's id alone; a stored one is served as the model built from it exactly when it validates, keeping its `user_id`; every field holds the dict's value of that field, or the field's default when the dict lacks it; a failure is a 500 |
| UsersApi.UserIdKept | back_end/app/api/v1/users.py:36 | a profile that builds keeps its `user_id` |
| UsersApi.DefaultGoalsFit | back_end/app/api/v1/users.py:25-34 | the default profile validates, carries the caller's id, and builds the same model as a dict holding only the id |
| UsersApi.DefaultProfile | back_end/app/api/v1/users.py:23-34 | with no stored profile the served goals are 2000 calories, 10000 steps, 5.0 km, 30 active minutes, 150 protein, 250 carbohydrates and 70 fat, with every `has_*` flag false and the caller's `user_id` |
| UsersApi.ProfileNames | back_end/app/schemas/user.py:4-26 | `UserProfileResponse` declares no field twice |
| UsersApi.ProfileFieldsAgree | back_end/app/schemas/user.py:4-26 | every explicit default goal equals the model's own default for that field |
| UsersApi.GetMyProfile | back_end/app/api/v1/users.py:10-39 | the response for the stored (or canned demo) profile, and on success it carries the caller's `user_id` |
| UsersApi.UpdateOutcome | back_end/app/api/v1/users.py:61-72 | as written: a non-empty update succeeds with the fixed message; an empty one is a 500 |
| UsersApi.EmptyUpdateAsWritten | back_end/app/api/v1/users.py:61-72 | an empty update answers 500 `"Failed to update profile: 400: No fields to update"` |
| UsersApi.UpdateOutcomeCorrected | back_end/app/api/v1/users.py:61-62 | an empty update is the 400 "No fields to update"; every other update is answered as before |
| UsersApi.UpdateMyProfile | back_end/app/api/v1/users.py:42-72 | a body that does not validate is refused with no change; an empty update changes nothing; otherwise (live) only the caller's profile changes, to the merge of the sent fields |
| UsersApi.UserInfo | back_end/app/api/v1/users.py:84-91 | exactly the six keys; `id` and `email` are required (`KeyError` otherwise); `username` and `full_name` default to `''`, `created_at` and `last_login` to None |
| UsersApi.InfoOutcome | back_end/app/api/v1/users.py:78-94 | as written: success exactly for a present record that has `id` and `email`; every failure, the missing user included, is a 500 |
| UsersApi.MissingUserAsWritten | back_end/app/api/v1/users.py:81-82 | a missing user answers 500 `"Failed to fetch user info: 404: User not found"` |
| UsersApi.InfoOutcomeCorrected | back_end/app/api/v1/users.py:81-82 | a missing user is the 404 "User not found"; a present record is answered as before |
| UsersApi.GetMyInfo | back_end/app/api/v1/users.py:75-94 | the info of the stored (or canned demo) user; live, a missing user is the quoted 404 inside a 500, and a stored user is shown exactly when it has an email; success carries the caller's id |
| UsersApi.SignedUpUserInfo | back_end/app/api/v1/users.py:84-91 | right after sign-up the info shows the email, username, full name and sign-up time given, and no login |
| UsersApi.LoggedInUserInfo | back_end/app/api/v1/users.py:90 | once a login time is recorded, the info shows it as `last_login` |

## Left out

- Token verification and expiry (`verify_token`, back_end/app/services/auth_service.py:80-82) are left out. The token utilities are not part of this model. Hashing, checking and signing are parameters of `AuthService`, and no law such as "check(p, hash(p))" is assumed.
- The store connection is left out. Whether the store is configured is the service's `demoMode` constant, and the start-up messages are not modelled.
- Clock readings are left out: `datetime.utcnow()`, `isoformat()` and `int(timestamp())` become the parameters `now`, `nowSecs` and `today`.
- Store-generated document ids are left out. They become the parameter `autoId`, which is not assumed fresh, so a colliding id overwrites, as `set` would.
- Failures of the store itself are left out, such as an unreachable service or a timeout. The model's store calls fail in only two cases: `update` of a missing document and a negative `limit`. Malformed document ids, the next line's case, are not among them. As a result the sync handlers' "Failed to sync …" 500s are never produced.
- Firebase.FirebaseService.StoreDailyVitals, Firebase.FirebaseService.StoreDailyActivity, VitalsApi.SyncDailyVitals and ActivitiesApi.SyncDailyActivity: document ids are plain map keys. In the store, a `date` containing `/` is a path. An odd number of segments makes the call fail, which the sync handlers answer with a 500. A longer even path writes a nested document that no range read sees. An empty `date` is refused. The model instead stores the day under the string as given.
- Firebase.FirebaseService.constructor: a live service is modelled as starting from an empty store, so every document it reads is one this service wrote. The real service attaches to an existing, persistent database. The invariant `Valid()` is therefore assumed of documents written by other code too: profiles carry their owner's `user_id`, sessions, alerts and nutrition entries carry their own `id` and owner, and daily documents carry their date. `UsersApi.GetMyProfile`'s promise that a served profile carries the caller's `user_id` rests on that assumption, because the stored `user_id` is served as it is.
- Query ordering is left out for field values other than ints and strings. A document whose ordered field is a float, bool, list, map or null takes no part in a query, ints sort before strings, and range filters match only keys of their own type.
- Pydantic coercion is left out beyond widening an int into a float field. Nested models (`VitalReading`, `VitalsSummary`, `HourlyActivity`) are checked only as lists or dicts.
- Full Pydantic validation error texts are left out: `str()` of a validation error is reduced to the model and field names.
- `str()` of a float, list or dict is left out (`PyStr` renders them as `""`). Such values occur only in the demo ids of sessions, alerts and nutrition entries.
- Request parsing before a handler runs is left out. `SyncVitalsRequest` and `SyncActivityRequest` arrive already validated.
- UsersApi.UpdateMyProfile: a body that does not fit `UpdateProfileRequest` is answered with the validation error itself. This stands for the 422 that the framework sends before the handler runs.
- `async` scheduling is left out. Calls are sequential, and two requests never interleave.
- The endpoints in `auth.py`, `alerts.py`, `sessions.py` and `nutrition.py` are not part of this model. They only wrap operations modelled here or compute cutoffs from the wall clock. Neither are `main.py`, `config.py`, `dependencies.py` or `firebase_admin.py`.
- Firebase.FirebaseService.UpdateUser: a missing user is stated only as an error, without its message text.
- Firebase.FirebaseService.AcknowledgeAlert: a missing alert is stated only as an error, without its message text.
- Firebase.FirebaseService.GetOwned: a negative `limit` is stated only as an error, without its message text. The same holds for `GetSessions` and `GetAlerts`.
- Firebase.MergedProfile: `set(..., merge=True)` merges nested maps field by field, but the model overwrites each top-level field whole. No modelled caller sends a nested map in a profile update.
- Firebase.UpdatedUser: `update()` reads a dotted key such as `a.b` as a path into a nested map, but the model treats every key as a plain top-level field. No modelled caller sends a dotted key.

## Findings

| source | as written | input that shows it | evidently intended | confidence | as-written member | corrected member |
|---|---|---|---|---|---|---|
| back_end/app/services/auth_service.py:63 | `update_user({'last_login': …}, user['id'])` passes the dict as the user id and the id string as the data, so `data['updated_at'] = …` raises `TypeError` | live store, a registered user, the right password | `update_user(user['id'], {'last_login': …})`: stamp the login and return the identity | not executed | Auth.AuthService.Login | Auth.AuthService.LoginCorrected |
| back_end/app/api/v1/users.py:61-62 | the 400 "No fields to update" is raised inside `try` and caught by `except Exception`, which answers 500 | `PUT /users/me/profile` with body `{}` | a 400 "No fields to update", as the validation error it is | not executed | UsersApi.EmptyUpdateAsWritten | UsersApi.UpdateOutcomeCorrected |
| back_end/app/api/v1/users.py:81-82 | the 404 "User not found" is raised inside `try` and caught by `except Exception`, which answers 500 | `GET /users/me` for a token whose user has no record | a 404 "User not found" (as `get_vitals_by_date` does with `except HTTPException: raise`) | not executed | UsersApi.MissingUserAsWritten | UsersApi.InfoOutcomeCorrected |
