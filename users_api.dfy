/**
  The user endpoints: `GET /users/me/profile`, `PUT /users/me/profile` and
  `GET /users/me`. The caller's id is the `user_id` of the access token; the
  clock is a parameter.
 */
module UsersApi {
  import opened Values
  import opened Schemas
  import opened Firebase
  import opened Responses
  import Auth

  const ProfilePrefix := "Failed to fetch profile: "
  const UpdatePrefix := "Failed to update profile: "
  const InfoPrefix := "Failed to fetch user info: "

  /** What `get_my_profile` returns for the profile the store gave: a missing
      or empty profile is served as the goals-only default, a stored one as
      `UserProfileResponse(**profile)`; a profile that does not validate
      becomes a 500. The profile served carries the stored `user_id`. */
  function ProfileResponse(userId: string, profile: Option<Doc>): (r: Result<Doc>)
    ensures r.Ok? ==> r.value.Keys == Names(ProfileSchema)
    ensures !Present(profile) ==> r.Ok? && "user_id" in r.value && r.value["user_id"] == Str(userId)
    ensures !Present(profile) ==> r == Conform(ProfileModel, ProfileSchema, map["user_id" := Str(userId)])
    ensures Present(profile) && r.Ok? ==> r == Conform(ProfileModel, ProfileSchema, profile.value)
    ensures r.Ok? ==> forall i :: 0 <= i < |ProfileSchema| ==>
      r.value[ProfileSchema[i].name] == FieldValue(ProfileModel, ProfileSchema[i],
        if Present(profile) then profile.value else map["user_id" := Str(userId)]).value
    ensures Present(profile) ==> (r.Ok? <==> Conform(ProfileModel, ProfileSchema, profile.value).Ok?)
    ensures Present(profile) && r.Ok? ==>
      "user_id" in profile.value && "user_id" in r.value && r.value["user_id"] == profile.value["user_id"]
    ensures r.Err? ==> r.error.HttpError? && r.error.status == 500
  {
    ProfileNames();
    var built := if Present(profile) then Conform(ProfileModel, ProfileSchema, profile.value)
      else Conform(ProfileModel, ProfileSchema, Auth.DefaultGoals(userId));
    if !Present(profile) then
      DefaultGoalsFit(userId);
      built
    else
      match built
      case Ok(d) =>
        UserIdKept(profile.value);
        Ok(d)
      case Err(e) => Err(Wrapped(ProfilePrefix, e))
  }

  /** No field of `UserProfileResponse` is declared twice, so every field of
      a built profile holds that field's own value. */
  lemma ProfileNames()
    ensures DistinctNames(ProfileSchema)
  {
    var p, h, g, a, n := ProfilePersonal, ProfileHealth, ProfilePlan, ProfileActivityGoals, ProfileMacroGoals;
    PersonalNames();
    HealthNames();
    PlanNames();
    ActivityGoalNames();
    MacroGoalNames();
    PersonalHealthApart();
    PersonalPlanApart();
    HealthPlanApart();
    PersonalActivityGoalsApart();
    HealthActivityGoalsApart();
    PlanActivityGoalsApart();
    PersonalMacroGoalsApart();
    HealthMacroGoalsApart();
    PlanMacroGoalsApart();
    ActivityGoalsMacroGoalsApart();
    DistinctAppend(p, h);
    DistinctAppend(p + h, g);
    DistinctAppend(p + h + g, a);
    DistinctAppend(p + h + g + a, n);
  }

  /** No two groups of profile fields share a name; one lemma per pair. */
  lemma PersonalHealthApart()
    ensures Names(ProfilePersonal) !! Names(ProfileHealth)
  {
    PersonalNames();
    HealthNames();
  }

  lemma PersonalPlanApart()
    ensures Names(ProfilePersonal) !! Names(ProfilePlan)
  {
    PersonalNames();
    PlanNames();
  }

  lemma HealthPlanApart()
    ensures Names(ProfileHealth) !! Names(ProfilePlan)
  {
    HealthNames();
    PlanNames();
  }

  lemma PersonalActivityGoalsApart()
    ensures Names(ProfilePersonal) !! Names(ProfileActivityGoals)
  {
    PersonalNames();
    ActivityGoalNames();
  }

  lemma HealthActivityGoalsApart()
    ensures Names(ProfileHealth) !! Names(ProfileActivityGoals)
  {
    HealthNames();
    ActivityGoalNames();
  }

  lemma PlanActivityGoalsApart()
    ensures Names(ProfilePlan) !! Names(ProfileActivityGoals)
  {
    PlanNames();
    ActivityGoalNames();
  }

  lemma PersonalMacroGoalsApart()
    ensures Names(ProfilePersonal) !! Names(ProfileMacroGoals)
  {
    PersonalNames();
    MacroGoalNames();
  }

  lemma HealthMacroGoalsApart()
    ensures Names(ProfileHealth) !! Names(ProfileMacroGoals)
  {
    HealthNames();
    MacroGoalNames();
  }

  lemma PlanMacroGoalsApart()
    ensures Names(ProfilePlan) !! Names(ProfileMacroGoals)
  {
    PlanNames();
    MacroGoalNames();
  }

  lemma ActivityGoalsMacroGoalsApart()
    ensures Names(ProfileActivityGoals) !! Names(ProfileMacroGoals)
  {
    ActivityGoalNames();
    MacroGoalNames();
  }

  lemma PersonalNames()
    ensures Names(ProfilePersonal) == {"user_id", "age", "gender", "weight_kg", "height_cm", "activity_level"}
    ensures DistinctNames(ProfilePersonal)
  {
    var s := ProfilePersonal;
    assert s[0].name == "user_id" && s[1].name == "age" && s[2].name == "gender";
    assert s[3].name == "weight_kg" && s[4].name == "height_cm" && s[5].name == "activity_level";
    assert Names(s) == {s[0].name, s[1].name, s[2].name, s[3].name, s[4].name, s[5].name};
  }

  lemma HealthNames()
    ensures Names(ProfileHealth) == {"has_hypertension", "has_diabetes", "has_heart_condition", "medications", "allergies"}
    ensures DistinctNames(ProfileHealth)
  {
    var s := ProfileHealth;
    assert s[0].name == "has_hypertension" && s[1].name == "has_diabetes" && s[2].name == "has_heart_condition";
    assert s[3].name == "medications" && s[4].name == "allergies";
    assert Names(s) == {s[0].name, s[1].name, s[2].name, s[3].name, s[4].name};
  }

  lemma PlanNames()
    ensures Names(ProfilePlan) == {"goal_type", "goal_intensity", "target_weight_kg"}
    ensures DistinctNames(ProfilePlan)
  {
    var s := ProfilePlan;
    assert s[0].name == "goal_type" && s[1].name == "goal_intensity" && s[2].name == "target_weight_kg";
    assert Names(s) == {s[0].name, s[1].name, s[2].name};
  }

  lemma ActivityGoalNames()
    ensures Names(ProfileActivityGoals) ==
      {"daily_calorie_goal", "daily_step_goal", "daily_distance_goal", "daily_active_minutes_goal"}
    ensures DistinctNames(ProfileActivityGoals)
  {
    var s := ProfileActivityGoals;
    assert s[0].name == "daily_calorie_goal" && s[1].name == "daily_step_goal";
    assert s[2].name == "daily_distance_goal" && s[3].name == "daily_active_minutes_goal";
    assert Names(s) == {s[0].name, s[1].name, s[2].name, s[3].name};
  }

  lemma MacroGoalNames()
    ensures Names(ProfileMacroGoals) == {"daily_protein_goal", "daily_carbs_goal", "daily_fats_goal", "updated_at"}
    ensures DistinctNames(ProfileMacroGoals)
  {
    var s := ProfileMacroGoals;
    assert s[0].name == "daily_protein_goal" && s[1].name == "daily_carbs_goal";
    assert s[2].name == "daily_fats_goal" && s[3].name == "updated_at";
    assert Names(s) == {s[0].name, s[1].name, s[2].name, s[3].name};
  }

  /** With no stored profile, the caller is served the default goals: 2000
      calories, 10000 steps, 5.0 km, 30 active minutes, 150 g protein, 250 g
      carbohydrates and 70 g fat, with no health condition flagged. */
  lemma DefaultProfile(userId: string, r: Result<Doc>)
    requires r == ProfileResponse(userId, None)
    ensures r.Ok? && HasEntry(r.value, "user_id", Str(userId))
    ensures DefaultGoalValues(r.value)
  {
    DefaultValues(userId, r.value);
  }

  /** `d` holds `key`, with the value `v`. */
  predicate HasEntry(d: Doc, key: string, v: Value)
  {
    key in d && d[key] == v
  }

  /** The goal defaults of `UserProfileResponse`, and no health condition. */
  predicate DefaultGoalValues(d: Doc)
  {
    HasEntry(d, "daily_calorie_goal", Int(2000)) && HasEntry(d, "daily_step_goal", Int(10000)) &&
    HasEntry(d, "daily_distance_goal", Float(5.0)) && HasEntry(d, "daily_active_minutes_goal", Int(30)) &&
    HasEntry(d, "daily_protein_goal", Int(150)) && HasEntry(d, "daily_carbs_goal", Int(250)) &&
    HasEntry(d, "daily_fats_goal", Int(70)) &&
    HasEntry(d, "has_hypertension", Bool(false)) && HasEntry(d, "has_diabetes", Bool(false)) &&
    HasEntry(d, "has_heart_condition", Bool(false))
  }

  /** The goal and flag values of the profile built from the id alone. */
  lemma DefaultValues(userId: string, built: Doc)
    requires Conform(ProfileModel, ProfileSchema, map["user_id" := Str(userId)]) == Ok(built)
    ensures DefaultGoalValues(built)
  {
    GoalPositions();
    DefaultedAt(userId, built, 6, ProfileHealth[0]);
    DefaultedAt(userId, built, 7, ProfileHealth[1]);
    DefaultedAt(userId, built, 8, ProfileHealth[2]);
    DefaultedAt(userId, built, 14, ProfileActivityGoals[0]);
    DefaultedAt(userId, built, 15, ProfileActivityGoals[1]);
    DefaultedAt(userId, built, 16, ProfileActivityGoals[2]);
    DefaultedAt(userId, built, 17, ProfileActivityGoals[3]);
    DefaultedAt(userId, built, 18, ProfileMacroGoals[0]);
    DefaultedAt(userId, built, 19, ProfileMacroGoals[1]);
    DefaultedAt(userId, built, 20, ProfileMacroGoals[2]);
  }

  /** Where the health flags and the goals sit among the profile's fields. */
  lemma GoalPositions()
    ensures ProfileSchema[6] == ProfileHealth[0] && ProfileSchema[7] == ProfileHealth[1]
    ensures ProfileSchema[8] == ProfileHealth[2]
    ensures ProfileSchema[14] == ProfileActivityGoals[0] && ProfileSchema[15] == ProfileActivityGoals[1]
    ensures ProfileSchema[16] == ProfileActivityGoals[2] && ProfileSchema[17] == ProfileActivityGoals[3]
    ensures ProfileSchema[18] == ProfileMacroGoals[0] && ProfileSchema[19] == ProfileMacroGoals[1]
    ensures ProfileSchema[20] == ProfileMacroGoals[2]
  {
    var p, h, g, a, n := ProfilePersonal, ProfileHealth, ProfilePlan, ProfileActivityGoals, ProfileMacroGoals;
    assert |p| == 6 && |h| == 5 && |g| == 3 && |a| == 4;
    assert (p + h)[6] == h[0] && (p + h)[7] == h[1] && (p + h)[8] == h[2];
  }

  /** A field the id-only dict does not name takes its default in the
      profile built from that dict. */
  lemma DefaultedAt(userId: string, built: Doc, i: int, f: Field)
    requires 0 <= i < |ProfileSchema| && ProfileSchema[i] == f && f.name != "user_id" && f.default.Some?
    requires Conform(ProfileModel, ProfileSchema, map["user_id" := Str(userId)]) == Ok(built)
    ensures f.name in built && built[f.name] == f.default.value
  {
    ProfileNames();
  }

  /** A profile dict that builds keeps its `user_id` in the model. */
  lemma UserIdKept(d: Doc)
    requires Conform(ProfileModel, ProfileSchema, d).Ok?
    ensures "user_id" in d && "user_id" in Conform(ProfileModel, ProfileSchema, d).value
    ensures Conform(ProfileModel, ProfileSchema, d).value["user_id"] == d["user_id"]
  {
    var s := ProfileSchema;
    assert s[0] == ProfilePersonal[0] == StrField("user_id");
    assert FieldValue(ProfileModel, s[0], d).Ok?;
    ConformFirst(ProfileModel, s, d);
  }

  /** The default profile validates, and every goal it names explicitly is the
      model's own default: it builds the same model as a dict holding only
      the user id. */
  lemma DefaultGoalsFit(userId: string)
    ensures Conform(ProfileModel, ProfileSchema, Auth.DefaultGoals(userId)).Ok?
    ensures Conform(ProfileModel, ProfileSchema, Auth.DefaultGoals(userId)).value["user_id"] == Str(userId)
    ensures Conform(ProfileModel, ProfileSchema, Auth.DefaultGoals(userId)) ==
      Conform(ProfileModel, ProfileSchema, map["user_id" := Str(userId)])
  {
    var s, m := ProfileSchema, ProfileModel;
    var d1, d2 := Auth.DefaultGoals(userId), map["user_id" := Str(userId)];
    ProfileFieldsAgree(d1, d2, userId);
    ConformAgrees(m, s, d1, d2);
    assert s[0] == ProfilePersonal[0];
    assert FieldValue(m, s[0], d1) == Ok(Str(userId));
    assert s[0].name == "user_id";
    assert Conform(m, s, d1).value[s[0].name] == Str(userId) by {
      ConformFirst(m, s, d1);
    }
  }

  /** The default profile and a dict holding only the user id give every
      field of the model the same value, and a valid one. */
  lemma ProfileFieldsAgree(d1: Doc, d2: Doc, userId: string)
    requires d1 == Auth.DefaultGoals(userId) && d2 == map["user_id" := Str(userId)]
    ensures Agree(ProfileModel, ProfileSchema, d1, d2)
  {
    var m := ProfileModel;
    ProfilePersonalAgree(d1, d2, userId);
    ProfileHealthAgree(d1, d2, userId);
    ProfilePlanAgree(d1, d2, userId);
    ProfileActivityGoalsAgree(d1, d2, userId);
    ProfileMacroGoalsAgree(d1, d2, userId);
    AgreeAppend(m, ProfilePersonal, ProfileHealth, d1, d2);
    AgreeAppend(m, ProfilePersonal + ProfileHealth, ProfilePlan, d1, d2);
    AgreeAppend(m, ProfilePersonal + ProfileHealth + ProfilePlan, ProfileActivityGoals, d1, d2);
    AgreeAppend(m, ProfilePersonal + ProfileHealth + ProfilePlan + ProfileActivityGoals, ProfileMacroGoals, d1, d2);
  }

  lemma ProfilePersonalAgree(d1: Doc, d2: Doc, userId: string)
    requires d1 == Auth.DefaultGoals(userId) && d2 == map["user_id" := Str(userId)]
    ensures Agree(ProfileModel, ProfilePersonal, d1, d2)
  {
    var s, m := ProfilePersonal, ProfileModel;
    assert FieldValue(m, s[0], d1) == FieldValue(m, s[0], d2) == Ok(Str(userId));
    assert FieldValue(m, s[1], d1) == FieldValue(m, s[1], d2) == Ok(Null);
    assert FieldValue(m, s[2], d1) == FieldValue(m, s[2], d2) == Ok(Null);
    assert FieldValue(m, s[3], d1) == FieldValue(m, s[3], d2) == Ok(Null);
    assert FieldValue(m, s[4], d1) == FieldValue(m, s[4], d2) == Ok(Null);
    assert FieldValue(m, s[5], d1) == FieldValue(m, s[5], d2) == Ok(Null);
    forall i | 0 <= i < 6
      ensures FieldValue(m, s[i], d1) == FieldValue(m, s[i], d2) && FieldValue(m, s[i], d1).Ok?
    {
      assert i == 0 || i == 1 || i == 2 || i == 3 || i == 4 || i == 5;
    }
  }

  lemma ProfileHealthAgree(d1: Doc, d2: Doc, userId: string)
    requires d1 == Auth.DefaultGoals(userId) && d2 == map["user_id" := Str(userId)]
    ensures Agree(ProfileModel, ProfileHealth, d1, d2)
  {
    var s, m := ProfileHealth, ProfileModel;
    assert FieldValue(m, s[0], d1) == FieldValue(m, s[0], d2) == Ok(Bool(false));
    assert FieldValue(m, s[1], d1) == FieldValue(m, s[1], d2) == Ok(Bool(false));
    assert FieldValue(m, s[2], d1) == FieldValue(m, s[2], d2) == Ok(Bool(false));
    assert FieldValue(m, s[3], d1) == FieldValue(m, s[3], d2) == Ok(Null);
    assert FieldValue(m, s[4], d1) == FieldValue(m, s[4], d2) == Ok(Null);
    forall i | 0 <= i < 5
      ensures FieldValue(m, s[i], d1) == FieldValue(m, s[i], d2) && FieldValue(m, s[i], d1).Ok?
    {
      assert i == 0 || i == 1 || i == 2 || i == 3 || i == 4;
    }
  }

  lemma ProfilePlanAgree(d1: Doc, d2: Doc, userId: string)
    requires d1 == Auth.DefaultGoals(userId) && d2 == map["user_id" := Str(userId)]
    ensures Agree(ProfileModel, ProfilePlan, d1, d2)
  {
    var s, m := ProfilePlan, ProfileModel;
    assert FieldValue(m, s[0], d1) == FieldValue(m, s[0], d2) == Ok(Null);
    assert FieldValue(m, s[1], d1) == FieldValue(m, s[1], d2) == Ok(Null);
    assert FieldValue(m, s[2], d1) == FieldValue(m, s[2], d2) == Ok(Null);
    forall i | 0 <= i < 3
      ensures FieldValue(m, s[i], d1) == FieldValue(m, s[i], d2) && FieldValue(m, s[i], d1).Ok?
    {
      assert i == 0 || i == 1 || i == 2;
    }
  }

  lemma ProfileActivityGoalsAgree(d1: Doc, d2: Doc, userId: string)
    requires d1 == Auth.DefaultGoals(userId) && d2 == map["user_id" := Str(userId)]
    ensures Agree(ProfileModel, ProfileActivityGoals, d1, d2)
  {
    var s, m := ProfileActivityGoals, ProfileModel;
    assert FieldValue(m, s[0], d1) == FieldValue(m, s[0], d2) == Ok(Int(2000));
    assert FieldValue(m, s[1], d1) == FieldValue(m, s[1], d2) == Ok(Int(10000));
    assert FieldValue(m, s[2], d1) == FieldValue(m, s[2], d2) == Ok(Float(5.0));
    assert FieldValue(m, s[3], d1) == FieldValue(m, s[3], d2) == Ok(Int(30));
    forall i | 0 <= i < 4
      ensures FieldValue(m, s[i], d1) == FieldValue(m, s[i], d2) && FieldValue(m, s[i], d1).Ok?
    {
      assert i == 0 || i == 1 || i == 2 || i == 3;
    }
  }

  lemma ProfileMacroGoalsAgree(d1: Doc, d2: Doc, userId: string)
    requires d1 == Auth.DefaultGoals(userId) && d2 == map["user_id" := Str(userId)]
    ensures Agree(ProfileModel, ProfileMacroGoals, d1, d2)
  {
    var s, m := ProfileMacroGoals, ProfileModel;
    assert FieldValue(m, s[0], d1) == FieldValue(m, s[0], d2) == Ok(Int(150));
    assert FieldValue(m, s[1], d1) == FieldValue(m, s[1], d2) == Ok(Int(250));
    assert FieldValue(m, s[2], d1) == FieldValue(m, s[2], d2) == Ok(Int(70));
    assert FieldValue(m, s[3], d1) == FieldValue(m, s[3], d2) == Ok(Null);
    forall i | 0 <= i < 4
      ensures FieldValue(m, s[i], d1) == FieldValue(m, s[i], d2) && FieldValue(m, s[i], d1).Ok?
    {
      assert i == 0 || i == 1 || i == 2 || i == 3;
    }
  }

  /** `get_my_profile`: the caller's profile, or the default one; whatever is
      served belongs to the caller. */
  method GetMyProfile(store: FirebaseService, userId: string) returns (r: Result<Doc>)
    requires store.Valid()
    ensures r == ProfileResponse(userId,
      if store.demoMode then Some(DemoProfile(userId))
      else if userId in store.profiles then Some(store.profiles[userId]) else None)
    ensures r.Ok? ==> "user_id" in r.value && r.value["user_id"] == Str(userId)
  {
    var profile := store.GetUserProfile(userId);
    if store.demoMode {
      assert DemoProfile(userId)["user_id"] == Str(userId);
    }
    r := ProfileResponse(userId, profile);
  }

  /** What `update_my_profile`, as written, answers for the validated update
      dict: its own 400 for an empty update is caught by `except Exception`
      and turned into a 500. */
  function UpdateOutcome(update: Doc): (r: Result<Doc>)
    ensures r.Ok? <==> update != map[]
    ensures r.Ok? ==> r.value == Standard("Profile updated successfully")
    ensures r.Err? ==> r.error.HttpError? && r.error.status == 500
  {
    if update == map[] then Err(Wrapped(UpdatePrefix, HttpError(400, "No fields to update")))
    else Ok(Standard("Profile updated successfully"))
  }

  /** An empty update reaches the client as a 500 that quotes the 400. */
  lemma EmptyUpdateAsWritten()
    ensures UpdateOutcome(map[]) == Err(HttpError(500, UpdatePrefix + ("400: " + "No fields to update")))
  {
    StatusText(400, "No fields to update");
  }

  /** `update_my_profile` with `except HTTPException: raise` first: an empty
      update is the client's error, a 400, and any other update is answered
      as before. */
  function UpdateOutcomeCorrected(update: Doc): (r: Result<Doc>)
    ensures r.Err? <==> update == map[]
    ensures r.Err? ==> r.error == HttpError(400, "No fields to update")
    ensures update != map[] ==> r == UpdateOutcome(update)
  {
    if update == map[] then Err(Rethrown(UpdatePrefix, HttpError(400, "No fields to update")))
    else Ok(Standard("Profile updated successfully"))
  }

  /** `update_my_profile`: a body that is not an `UpdateProfileRequest` is
      refused before the handler runs (the framework's 422); otherwise the
      fields the client sent are merged into the stored profile, stamped
      with the caller's id and the time. Nothing is written for an empty
      update or in demo mode. */
  method UpdateMyProfile(store: FirebaseService, userId: string, body: Doc, now: string) returns (r: Result<Doc>)
    requires store.Valid()
    modifies store
    ensures store.Valid()
    ensures match ExcludeUnset(UpdateProfileModel, UpdateProfileSchema, body)
      case Err(e) => r == Err(e) && e.ValidationError? && store.State() == old(store.State())
      case Ok(update) =>
        r == UpdateOutcome(update) &&
        if update == map[] || store.demoMode then store.State() == old(store.State())
        else store.State() == old(store.State()).(profiles := old(store.profiles)[userId :=
          MergedProfile(ProfileOf(old(store.profiles), userId), update, userId, now)])
  {
    var request := ExcludeUnset(UpdateProfileModel, UpdateProfileSchema, body);
    if request.Err? {
      return Err(request.error);
    }
    var update := request.value;
    r := UpdateOutcome(update);
    if r.Err? {
      return;
    }
    store.UpdateUserProfile(userId, update, now);
  }

  /** The dict `get_my_info` builds from a user record: its id, email,
      username and full name (empty if absent), and its creation and
      last-login times (`None` if absent); reading `id` or `email` raises if
      the record lacks it. */
  function UserInfo(user: Doc): (r: Result<Doc>)
    ensures r.Ok? <==> "id" in user && "email" in user
    ensures r.Ok? ==> r.value.Keys == {"user_id", "email", "username", "full_name", "created_at", "last_login"}
    ensures r.Ok? ==> r.value["user_id"] == user["id"] && r.value["email"] == user["email"]
    ensures r.Ok? ==>
      r.value["username"] == DictGet(user, "username", Str("")) &&
      r.value["full_name"] == DictGet(user, "full_name", Str("")) &&
      r.value["created_at"] == DictGet(user, "created_at", Null) &&
      r.value["last_login"] == DictGet(user, "last_login", Null)
    ensures r.Err? ==> r.error == KeyError(if "id" !in user then "id" else "email")
  {
    if "id" !in user then Err(KeyError("id"))
    else if "email" !in user then Err(KeyError("email"))
    else Ok(map["user_id" := user["id"], "email" := user["email"],
                "username" := DictGet(user, "username", Str("")),
                "full_name" := DictGet(user, "full_name", Str("")),
                "created_at" := DictGet(user, "created_at", Null),
                "last_login" := DictGet(user, "last_login", Null)])
  }

  /** What `get_my_info`, as written, answers for the record the store gave:
      both its own 404 and a record's missing key are caught by
      `except Exception` and become 500s. */
  function InfoOutcome(user: Option<Doc>): (r: Result<Doc>)
    ensures r.Ok? <==> Present(user) && UserInfo(user.value).Ok?
    ensures r.Ok? ==> r == UserInfo(user.value)
    ensures r.Err? ==> r.error.HttpError? && r.error.status == 500
  {
    if !Present(user) then Err(Wrapped(InfoPrefix, HttpError(404, "User not found")))
    else
      match UserInfo(user.value)
      case Ok(d) => Ok(d)
      case Err(e) => Err(Wrapped(InfoPrefix, e))
  }

  /** A caller with no user record receives a 500 that quotes the 404. */
  lemma MissingUserAsWritten()
    ensures InfoOutcome(None) == Err(HttpError(500, InfoPrefix + ("404: " + "User not found")))
  {
    StatusText(404, "User not found");
  }

  /** `get_my_info` with `except HTTPException: raise` first: a missing user
      is a 404, and every present record is answered as before. */
  function InfoOutcomeCorrected(user: Option<Doc>): (r: Result<Doc>)
    ensures !Present(user) ==> r == Err(HttpError(404, "User not found"))
    ensures Present(user) ==> r == InfoOutcome(user)
  {
    if !Present(user) then Err(Rethrown(InfoPrefix, HttpError(404, "User not found")))
    else
      match UserInfo(user.value)
      case Ok(d) => Ok(d)
      case Err(e) => Err(Rethrown(InfoPrefix, e))
  }

  /** `get_my_info`: the caller's record, as `UserInfo` shows it. In live
      mode a missing record is the quoted 404 inside a 500, and an existing
      one is shown exactly when it holds an email. */
  method GetMyInfo(store: FirebaseService, userId: string) returns (r: Result<Doc>)
    requires store.Valid()
    ensures r == InfoOutcome(if store.demoMode then Some(DemoUser(userId))
      else if userId in store.users then Some(store.users[userId]["id" := Str(userId)]) else None)
    ensures !store.demoMode && userId !in store.users ==>
      r == Err(HttpError(500, InfoPrefix + ("404: " + "User not found")))
    ensures !store.demoMode && userId in store.users ==> (r.Ok? <==> "email" in store.users[userId])
    ensures r.Ok? ==> r.value["user_id"] == Str(userId)
  {
    var user := store.GetUserById(userId);
    if user.None? {
      MissingUserAsWritten();
    } else {
      assert "id" in user.value;
    }
    r := InfoOutcome(user);
  }

  /** A user's info right after sign-up shows what sign-up stored: the
      email, username and full name given, the sign-up time, and no login. */
  lemma SignedUpUserInfo(email: string, passwordHash: string, username: string, fullName: string, now: string, id: string)
    ensures UserInfo(NewUser(Auth.SignupRecord(email, passwordHash, username, fullName, now), id, now)["id" := Str(id)]) ==
      Ok(map["user_id" := Str(id), "email" := Str(email), "username" := Str(username),
             "full_name" := Str(fullName), "created_at" := Str(now), "last_login" := Null])
  {
    var rec := Auth.SignupRecord(email, passwordHash, username, fullName, now);
    var u := NewUser(rec, id, now)["id" := Str(id)];
    assert u["username"] == Str(username) && u["full_name"] == Str(fullName);
    assert "last_login" !in u;
    var r := UserInfo(u);
    assert r.Ok?;
    assert r.value == map["user_id" := Str(id), "email" := Str(email), "username" := Str(username),
                          "full_name" := Str(fullName), "created_at" := Str(now), "last_login" := Null];
  }

  /** After a login recorded its time, the user's info shows that time as
      `last_login`. */
  lemma LoggedInUserInfo(stored: Doc, id: string, loginTime: string, now: string)
    requires "email" in stored
    ensures UserInfo(UpdatedUser(stored, map["last_login" := Str(loginTime)], now)["id" := Str(id)]).Ok?
    ensures UserInfo(UpdatedUser(stored, map["last_login" := Str(loginTime)], now)["id" := Str(id)]).value["last_login"] == Str(loginTime)
  {
  }
}
