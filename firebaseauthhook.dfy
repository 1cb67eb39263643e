/** The Firebase authentication hook and the user records it builds (src/hooks/useFirebaseAuth.ts). */
module FirebaseAuthHook {
  import opened Wrappers
  import opened Store
  import C = Constants
  import Text
  import U = UserContext

  const DEMO_KEY := "demo-key"
  const DEMO_USER_ID := "demo-user-id"

  /** The focus areas every new user starts with. */
  const DEFAULT_FOCUS: seq<string> := ["PIP (Personal Independence Payment)"]

  /** Demo mode: the Firebase API key is unset, empty or the placeholder. */
  function IsDemo(apiKey: Option<string>): (demo: bool)
    ensures demo <==> !Present(apiKey) || apiKey.value == DEMO_KEY
  {
    apiKey == Some(DEMO_KEY) || !Present(apiKey)
  }

  /** The claim count a new account starts with: unlimited for pro, one otherwise. */
  function InitialRemaining(tier: C.Tier): (n: int)
    ensures n == C.ClaimLimit(tier)
  {
    if tier == C.Pro then -1 else 1
  }

  /** The user the demo `signIn` returns: a standard user named after the address's local part. */
  function DemoSignInUser(email: string, timezone: string, now: int): (u: U.User)
    ensures u.id == DEMO_USER_ID && u.email == email && u.name == Text.BeforeAt(email)
    ensures u.tier == C.Standard && u.claimsUsed == 0 && u.claimsRemaining == 1
    ensures u.timezone == timezone && u.pipFocus == DEFAULT_FOCUS && u.createdAt == now
  {
    U.User(DEMO_USER_ID, Text.BeforeAt(email), email, timezone, DEFAULT_FOCUS, now, C.Standard, 0, 1)
  }

  /** The user `signIn` returns when the account has no `users` document. */
  function MissingDocUser(uid: string, email: string, timezone: string, now: int): (u: U.User)
    ensures u == DemoSignInUser(email, timezone, now).(id := uid)
  {
    U.User(uid, Text.BeforeAt(email), email, timezone, DEFAULT_FOCUS, now, C.Standard, 0, 1)
  }

  /** A stored string field with `||` defaulting. */
  function StringOr(v: Value, otherwise: string): (s: string)
    ensures v.Str? && v.s != "" ==> s == v.s
    ensures !(v.Str? && v.s != "") ==> s == otherwise
  {
    if v.Str? && v.s != "" then v.s else otherwise
  }

  /** A stored number field with `||` defaulting: a stored 0 also takes the default. */
  function NumberOr(v: Value, otherwise: int): (n: int)
    ensures v.Num? && v.n != 0 ==> n == v.n
    ensures !(v.Num? && v.n != 0) ==> n == otherwise
  {
    if v.Num? && v.n != 0 then v.n else otherwise
  }

  /** The stored tier with `||` defaulting; only the name "pro" reads as pro. */
  function StoredTier(v: Value): (t: C.Tier)
    ensures t == C.Pro <==> v == Str("pro")
  {
    if v == Str("pro") then C.Pro else C.Standard
  }

  /**
   * The user `signIn` builds from a stored `users` document: every stored field wins when it is
   * truthy, and otherwise the sign-in's own e-mail, the browser's time zone or a fixed default is used.
   */
  function StoredSignInUser(uid: string, d: Doc, email: string, timezone: string, now: int): (u: U.User)
    ensures u.id == uid
    ensures u.name == (if Truthy(Get(d, Name)) && Get(d, Name).Str? then Get(d, Name).s else Text.BeforeAt(email))
    ensures u.email == (if Truthy(Get(d, Email)) && Get(d, Email).Str? then Get(d, Email).s else email)
    ensures u.claimsRemaining != 0
    ensures Get(d, ClaimsRemaining) == Num(0) ==> u.claimsRemaining == 1
    ensures Get(d, ClaimsUsed).Num? ==> u.claimsUsed == Get(d, ClaimsUsed).n
    ensures u.tier == C.Pro <==> Get(d, Tier) == Str("pro")
    ensures Get(d, PipFocus).StrList? ==> u.pipFocus == Get(d, PipFocus).items
    ensures u.createdAt == (if Get(d, CreatedAtSnake).Time? then Get(d, CreatedAtSnake).ms else now)
  {
    U.User(
      uid,
      StringOr(Get(d, Name), Text.BeforeAt(email)),
      StringOr(Get(d, Email), email),
      StringOr(Get(d, Timezone), timezone),
      if Get(d, PipFocus).StrList? then Get(d, PipFocus).items else DEFAULT_FOCUS,
      if Get(d, CreatedAtSnake).Time? then Get(d, CreatedAtSnake).ms else now,
      StoredTier(Get(d, Tier)),
      NumberOr(Get(d, ClaimsUsed), 0),
      NumberOr(Get(d, ClaimsRemaining), 1))
  }

  /**
   * Whether `userData.created_at?.toDate()` can be evaluated: the field is missing, null or a
   * store timestamp. Any other value has no `toDate` method, and calling it throws.
   */
  predicate CreatedAtReadable(d: Doc)
  {
    Get(d, CreatedAtSnake).Null? || Get(d, CreatedAtSnake).Time?
  }

  /** The `TypeError` of calling `toDate` on a stored `created_at` that is not a timestamp. */
  const NOT_A_TIMESTAMP: Fault := Fault("", "userData.created_at?.toDate is not a function")

  /** The `users` document `signUp` writes; both timestamps are the server's time, taken as `now`. */
  function SignUpDoc(uid: string, email: string, name: string, tier: C.Tier, timezone: string, now: int): (d: Doc)
    ensures d.Keys == {Uid, Email, Name, Tier, ClaimsUsed, ClaimsRemaining, Timezone, PipFocus, CreatedAtSnake, UpdatedAtSnake}
    ensures d[Uid] == Str(uid) && d[Tier] == Str(C.TierName(tier))
    ensures d[ClaimsUsed] == Num(0) && d[ClaimsRemaining] == Num(C.ClaimLimit(tier))
  {
    map[
      Uid := Str(uid), Email := Str(email), Name := Str(name), Tier := Str(C.TierName(tier)),
      ClaimsUsed := Num(0), ClaimsRemaining := Num(InitialRemaining(tier)), Timezone := Str(timezone),
      PipFocus := StrList(DEFAULT_FOCUS), CreatedAtSnake := Time(now), UpdatedAtSnake := Time(now)]
  }

  /** The user `signUp` returns, in demo mode (with the demo id) and after a real sign-up alike. */
  function SignUpUser(uid: string, email: string, name: string, tier: C.Tier, timezone: string, now: int): (u: U.User)
    ensures u.id == uid && u.email == email && u.name == name && u.tier == tier
    ensures u.claimsUsed == 0 && u.claimsRemaining == C.ClaimLimit(tier)
    ensures u.timezone == timezone && u.pipFocus == DEFAULT_FOCUS && u.createdAt == now
  {
    U.User(uid, name, email, timezone, DEFAULT_FOCUS, now, tier, 0, InitialRemaining(tier))
  }

  /**
   * The document `signUp` stores and the user it returns agree: signing in later, from any
   * browser, reads back the very user sign-up returned, provided its text fields are not empty
   * (an empty one would fall back to a default).
   */
  lemma SignUpReadsBack(uid: string, email: string, name: string, tier: C.Tier, timezone: string, now: int,
                        laterEmail: string, laterTimezone: string, later: int)
    requires email != "" && name != "" && timezone != ""
    ensures CreatedAtReadable(SignUpDoc(uid, email, name, tier, timezone, now))
    ensures StoredSignInUser(uid, SignUpDoc(uid, email, name, tier, timezone, now), laterEmail, laterTimezone, later)
            == SignUpUser(uid, email, name, tier, timezone, now)
  {
    var d := SignUpDoc(uid, email, name, tier, timezone, now);
    assert Get(d, Tier) == Str(C.TierName(tier));
    assert Get(d, ClaimsRemaining) == Num(InitialRemaining(tier));
  }

  /** A user whose stored remaining count reached 0 signs in with one claim remaining. */
  lemma ZeroRemainingReadsAsOne(uid: string, u: U.User, timezone: string, now: int)
    requires u.claimsRemaining == 0 && u.email != "" && u.name != "" && u.timezone != ""
    ensures var d := SignUpDoc(uid, u.email, u.name, u.tier, u.timezone, u.createdAt)[ClaimsRemaining := Num(0)];
            StoredSignInUser(uid, d, u.email, timezone, now).claimsRemaining == 1
  {
  }

  /** The state of `useFirebaseAuth`; `firebaseUser` is the signed-in account's uid. */
  class Hook {
    var firebaseUser: Option<string>
    var loading: bool
    var error: Option<string>
    var isDemoMode: bool
    var listening: bool

    constructor ()
      ensures firebaseUser.None? && loading && error.None? && !isDemoMode && !listening
    {
      firebaseUser := None;
      loading := true;
      error := None;
      isDemoMode := false;
      listening := false;
    }

    /** The mount effect: demo mode stops loading and installs no auth listener. */
    method Mount(apiKey: Option<string>)
      modifies this
      ensures isDemoMode == IsDemo(apiKey)
      ensures isDemoMode ==> !loading && listening == old(listening)
      ensures !isDemoMode ==> loading == old(loading) && listening
      ensures firebaseUser == old(firebaseUser) && error == old(error)
    {
      isDemoMode := IsDemo(apiKey);
      if isDemoMode {
        loading := false;
        return;
      }
      listening := true;
    }

    /**
     * The auth listener: the account is recorded, its document is read (only to be logged) and
     * loading ends — unless that read fails, which abandons the callback with loading still on.
     */
    method AuthStateChanged(db: Firestore, account: Option<string>)
      requires listening
      modifies this
      ensures firebaseUser == account
      ensures loading == (if account.Some? && db.ReadUser(account.value).Err? then old(loading) else false)
      ensures error == old(error) && isDemoMode == old(isDemoMode) && listening
    {
      firebaseUser := account;
      if account.Some? {
        var userDoc := db.ReadUser(account.value);
        if userDoc.Err? {
          return;
        }
      }
      loading := false;
    }

    /**
     * `signIn`: the demo user in demo mode; otherwise the account's stored document with its
     * defaults, or standard defaults when it has none. Errors are recorded and rethrown.
     */
    method SignIn(db: Firestore, email: string, signIn: Result<string>, timezone: string, now: int)
      returns (r: Result<U.User>)
      modifies this
      ensures isDemoMode ==> r == Ok(DemoSignInUser(email, timezone, now))
      ensures !isDemoMode && signIn.Err? ==> r == Err(signIn.fault)
      ensures !isDemoMode && signIn.Ok? ==>
                var read := db.ReadUser(signIn.value);
                r == if read.Err? then Err(read.fault)
                     else if read.value.Some? && !CreatedAtReadable(read.value.value) then Err(NOT_A_TIMESTAMP)
                     else if read.value.Some? then Ok(StoredSignInUser(signIn.value, read.value.value, email, timezone, now))
                     else Ok(MissingDocUser(signIn.value, email, timezone, now))
      ensures error == (if r.Err? then Some(r.fault.message) else None)
      ensures firebaseUser == old(firebaseUser) && loading == old(loading)
      ensures isDemoMode == old(isDemoMode) && listening == old(listening)
    {
      error := None;
      if isDemoMode {
        return Ok(DemoSignInUser(email, timezone, now));
      }
      if signIn.Err? {
        error := Some(signIn.fault.message);
        return Err(signIn.fault);
      }
      var uid := signIn.value;
      var userDoc := db.ReadUser(uid);
      if userDoc.Err? {
        error := Some(userDoc.fault.message);
        return Err(userDoc.fault);
      }
      if userDoc.value.Some? {
        if !CreatedAtReadable(userDoc.value.value) {
          error := Some(NOT_A_TIMESTAMP.message);
          return Err(NOT_A_TIMESTAMP);
        }
        return Ok(StoredSignInUser(uid, userDoc.value.value, email, timezone, now));
      }
      r := Ok(MissingDocUser(uid, email, timezone, now));
    }

    /**
     * `signUp`: in demo mode the new user is returned and nothing is stored; otherwise the
     * account's document is written and the same user returned. Errors are recorded and rethrown.
     */
    method SignUp(db: Firestore, email: string, name: string, tier: C.Tier, create: Result<string>,
                  timezone: string, now: int)
      returns (r: Result<U.User>)
      modifies this, db
      ensures isDemoMode ==> r == Ok(SignUpUser(DEMO_USER_ID, email, name, tier, timezone, now)) && db.users == old(db.users)
      ensures !isDemoMode && create.Err? ==> r == Err(create.fault) && db.users == old(db.users)
      ensures !isDemoMode && create.Ok? ==>
                if old(db.reachable)
                then r == Ok(SignUpUser(create.value, email, name, tier, timezone, now))
                     && db.users == old(db.users)[create.value := SignUpDoc(create.value, email, name, tier, timezone, now)]
                else r == Err(UNAVAILABLE) && db.users == old(db.users)
      ensures error == (if r.Err? then Some(r.fault.message) else None)
      ensures db.preReg == old(db.preReg) && db.reachable == old(db.reachable)
      ensures firebaseUser == old(firebaseUser) && loading == old(loading)
      ensures isDemoMode == old(isDemoMode) && listening == old(listening)
    {
      error := None;
      if isDemoMode {
        return Ok(SignUpUser(DEMO_USER_ID, email, name, tier, timezone, now));
      }
      if create.Err? {
        error := Some(create.fault.message);
        return Err(create.fault);
      }
      var uid := create.value;
      var written := db.SetUser(uid, SignUpDoc(uid, email, name, tier, timezone, now));
      if written.Raised? {
        error := Some(written.fault.message);
        return Err(written.fault);
      }
      r := Ok(SignUpUser(uid, email, name, tier, timezone, now));
    }

    /** `signOut`: demo mode just forgets the account; otherwise only a successful sign-out does. */
    method SignOut(auth: Outcome) returns (r: Outcome)
      modifies this
      ensures r == (if isDemoMode then Done else auth)
      ensures r.Done? ==> firebaseUser.None? && error == old(error)
      ensures r.Raised? ==> firebaseUser == old(firebaseUser) && error == Some(r.fault.message)
      ensures loading == old(loading) && isDemoMode == old(isDemoMode) && listening == old(listening)
    {
      if isDemoMode {
        firebaseUser := None;
        return Done;
      }
      if auth.Raised? {
        error := Some(auth.fault.message);
        return auth;
      }
      firebaseUser := None;
      r := Done;
    }
  }
}
