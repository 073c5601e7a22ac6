/**
  `AuthService`: sign-up and login on top of the store, and the claims of the
  access token. Password hashing, password checking and token signing are
  outside this model; the service is given them as functions.
 */
module Auth {
  import Text
  import opened Values
  import opened Query
  import opened Firebase

  /** The identity `signup` and `login` return. */
  function Identity(userId: Value, email: Value, username: Value): Doc
  {
    map["user_id" := userId, "email" := email, "username" := username]
  }

  /** The user record `signup` hands to the store: the password's hash under
      `password_hash`, and no field for the password itself. */
  function SignupRecord(email: string, passwordHash: string, username: string, fullName: string, now: string): (r: Doc)
    ensures r.Keys == {"email", "password_hash", "username", "full_name", "created_at"}
    ensures r["password_hash"] == Str(passwordHash) && r["email"] == Str(email)
  {
    map["email" := Str(email), "password_hash" := Str(passwordHash), "username" := Str(username),
        "full_name" := Str(fullName), "created_at" := Str(now)]
  }

  /** The profile `signup` writes for a new user. */
  function DefaultGoals(userId: string): Doc
  {
    map["user_id" := Str(userId), "daily_calorie_goal" := Int(2000), "daily_step_goal" := Int(10000),
        "daily_distance_goal" := Float(5.0), "daily_active_minutes_goal" := Int(30),
        "daily_protein_goal" := Int(150), "daily_carbs_goal" := Int(250), "daily_fats_goal" := Int(70)]
  }

  /** The identity `login` returns for the user record it found: its `id`,
      its `email` and its `username` (empty if absent); reading `id` or
      `email` raises if the record lacks it. */
  function LoginIdentity(user: Doc): (r: Result<Doc>)
    ensures r.Ok? <==> "id" in user && "email" in user
    ensures r.Ok? ==> r.value.Keys == {"user_id", "email", "username"}
    ensures r.Ok? ==> r.value["user_id"] == user["id"] && r.value["email"] == user["email"]
    ensures r.Ok? ==> r.value["username"] == DictGet(user, "username", Str(""))
    ensures r.Err? ==> r.error == KeyError(if "id" !in user then "id" else "email")
  {
    if "id" !in user then Err(KeyError("id"))
    else if "email" !in user then Err(KeyError("email"))
    else Ok(Identity(user["id"], user["email"], DictGet(user, "username", Str(""))))
  }

  /** The next step's result unless the store call before it raised. */
  function AfterStore(call: Result<()>, next: Result<Doc>): Result<Doc>
  {
    match call
    case Err(e) => Err(e)
    case Ok(_) => next
  }

  /** The claims `create_token` signs: `sub` is the user id, `username`
      defaults to the empty string, and a missing id or email raises. */
  function TokenClaims(userData: Doc): (r: Result<Doc>)
    ensures r.Ok? <==> "user_id" in userData && "email" in userData
    ensures r.Ok? ==> r.value.Keys == {"sub", "email", "username"}
    ensures r.Ok? ==> r.value["sub"] == userData["user_id"] && r.value["email"] == userData["email"]
    ensures r.Ok? ==> r.value["username"] == DictGet(userData, "username", Str(""))
    ensures r.Err? ==> r.error == KeyError(if "user_id" !in userData then "user_id" else "email")
  {
    if "user_id" !in userData then Err(KeyError("user_id"))
    else if "email" !in userData then Err(KeyError("email"))
    else Ok(map["sub" := userData["user_id"], "email" := userData["email"],
                "username" := DictGet(userData, "username", Str(""))])
  }

  /** The identity `signup` returns yields a token whose subject is the new
      user's id and whose claims repeat its email and username. */
  lemma SignupIdentityClaims(userId: string, email: string, username: string)
    ensures TokenClaims(Identity(Str(userId), Str(email), Str(username))) ==
      Ok(map["sub" := Str(userId), "email" := Str(email), "username" := Str(username)])
  {
    var d := Identity(Str(userId), Str(email), Str(username));
    assert "user_id" in d && "email" in d && "username" in d;
  }

  /** After a sign-up that found no user with the email, the new user is the
      one the store lists first for that email, so a later login finds it. */
  lemma SignedUpUserFound(users: Coll, email: string, rec: Doc, autoId: string, now: string)
    requires forall o :: o in users ==> !HasEmail(users[o], email)
    requires HasEmail(rec, email)
    ensures FirstWithEmail(users[autoId := NewUser(rec, autoId, now)], email, autoId)
  {
    var after := users[autoId := NewUser(rec, autoId, now)];
    assert forall p :: p in after && HasEmail(after[p], email) ==> p == autoId;
  }

  class AuthService {
    const store: FirebaseService
    const hash: string -> string
    const verify: (string, Value) -> bool
    const sign: Doc -> string

    constructor (store: FirebaseService, hash: string -> string, verify: (string, Value) -> bool, sign: Doc -> string)
      ensures this.store == store && this.hash == hash && this.verify == verify && this.sign == sign
    {
      this.store := store;
      this.hash := hash;
      this.verify := verify;
      this.sign := sign;
    }

    /** `signup`: refuse a registered email, store the hashed record, write
        the default profile for the new id, return the identity. */
    method Signup(email: string, password: string, username: string, fullName: string, now: string, autoId: string)
      returns (r: Result<Doc>)
      requires store.Valid()
      modifies store
      ensures store.Valid()
      ensures store.demoMode ==>
        r == Ok(Identity(Str("demo_user_" + email), Str(email), Str(username))) && store.State() == old(store.State())
      ensures !store.demoMode && (exists o :: o in old(store.users) && HasEmail(old(store.users)[o], email)) ==>
        r == Err(ValueError("Email already registered")) && store.State() == old(store.State())
      ensures !store.demoMode && !(exists o :: o in old(store.users) && HasEmail(old(store.users)[o], email)) ==>
        r == Ok(Identity(Str(autoId), Str(email), Str(username))) &&
        store.State() == old(store.State()).(
          users := old(store.users)[autoId := NewUser(SignupRecord(email, hash(password), username, fullName, now), autoId, now)],
          profiles := old(store.profiles)[autoId := MergedProfile(ProfileOf(old(store.profiles), autoId), DefaultGoals(autoId), autoId, now)])
    {
      var existing: Option<Doc>;
      ghost var who: string;
      existing, who := store.GetUserByEmail(email);
      if existing.Some? {
        assert "id" in existing.value;
        return Err(ValueError("Email already registered"));
      }
      var passwordHash := hash(password);
      var userData := SignupRecord(email, passwordHash, username, fullName, now);
      var created := store.CreateUser(userData, autoId, now);
      assert created.Ok?;
      var userId := created.value;
      store.UpdateUserProfile(userId, DefaultGoals(userId), now);
      r := Ok(Identity(Str(userId), Str(email), Str(username)));
    }

    /** What `login`, as written, raises for the user record the store lists
        first: a missing hash, a wrong password, or, once the password is
        right, the failure of `update_user` called with its arguments swapped. */
    function AsWrittenLoginError(user: Doc, password: string): Error
    {
      if "password_hash" !in user then KeyError("password_hash")
      else if !verify(password, user["password_hash"]) then ValueError("Invalid credentials")
      else TypeError(ItemAssignError(Str("")))
    }

    /** `login` as written. It passes the `{'last_login': …}` dict as the user
        id and the id string as the data to `update_user`, so in live mode a
        correct password ends in a `TypeError`: login never succeeds. */
    method Login(email: string, password: string, now: string) returns (r: Result<Doc>)
      requires store.Valid()
      modifies store
      ensures store.Valid() && store.State() == old(store.State())
      ensures r.Err?
      ensures store.demoMode || (forall o :: o in store.users ==> !HasEmail(store.users[o], email)) ==>
        r == Err(ValueError("Invalid credentials"))
      ensures forall o :: !store.demoMode && FirstWithEmail(store.users, email, o) ==>
        r == Err(AsWrittenLoginError(store.users[o], password))
    {
      var found: Option<Doc>;
      ghost var who: string;
      found, who := store.GetUserByEmail(email);
      FirstWithEmailUnique(store.users, email, who);
      if !Present(found) {
        return Err(ValueError("Invalid credentials"));
      }
      var user := found.value;
      if "password_hash" !in user {
        return Err(KeyError("password_hash"));
      }
      if !verify(password, user["password_hash"]) {
        return Err(ValueError("Invalid credentials"));
      }
      var updated := store.UpdateUser(Obj(map["last_login" := Str(now)]), user["id"], now);
      r := AfterStore(updated, LoginIdentity(user));
    }

    /** `login` with `update_user(user['id'], {'last_login': …})`: a correct
        password records the login time and returns the identity. */
    method LoginCorrected(email: string, password: string, now: string) returns (r: Result<Doc>)
      requires store.Valid()
      modifies store
      ensures store.Valid()
      ensures store.demoMode || (forall o :: o in old(store.users) ==> !HasEmail(old(store.users)[o], email)) ==>
        r == Err(ValueError("Invalid credentials")) && store.State() == old(store.State())
      ensures forall o :: !store.demoMode && FirstWithEmail(old(store.users), email, o) ==>
        var stored := old(store.users)[o];
        if "password_hash" !in stored then
          r == Err(KeyError("password_hash")) && store.State() == old(store.State())
        else if !verify(password, stored["password_hash"]) then
          r == Err(ValueError("Invalid credentials")) && store.State() == old(store.State())
        else
          r == Ok(Identity(Str(o), Str(email), DictGet(stored, "username", Str("")))) &&
          store.State() == old(store.State()).(users := old(store.users)[o :=
            UpdatedUser(stored, map["last_login" := Str(now)], now)])
    {
      var found: Option<Doc>;
      ghost var who: string;
      found, who := store.GetUserByEmail(email);
      if !Present(found) {
        return Err(ValueError("Invalid credentials"));
      }
      var user := found.value;
      if "password_hash" !in user {
        FirstWithEmailUnique(store.users, email, who);
        return Err(KeyError("password_hash"));
      }
      if !verify(password, user["password_hash"]) {
        FirstWithEmailUnique(store.users, email, who);
        return Err(ValueError("Invalid credentials"));
      }
      ghost var before := store.users;
      FirstWithEmailUnique(before, email, who);
      var updated := store.UpdateUser(user["id"], Obj(map["last_login" := Str(now)]), now);
      r := AfterStore(updated, LoginIdentity(user));
    }

    /** `create_token`: the signed claims. */
    function CreateToken(userData: Doc): (r: Result<string>)
      ensures r.Ok? <==> "user_id" in userData && "email" in userData
      ensures r.Ok? ==> r.value == sign(TokenClaims(userData).value)
    {
      match TokenClaims(userData)
      case Err(e) => Err(e)
      case Ok(claims) => Ok(sign(claims))
    }
  }

  /** The first user holding an email is unique. */
  lemma FirstWithEmailUnique(users: Coll, email: string, o: string)
    ensures forall p :: FirstWithEmail(users, email, o) && FirstWithEmail(users, email, p) ==> p == o
  {
    forall p | FirstWithEmail(users, email, o) && FirstWithEmail(users, email, p)
      ensures p == o
    {
      if p != o {
        Text.LexLessAsymmetric(o, p);
      }
    }
  }
}
