/** The signed-in user's claim quota and session state (src/contexts/UserContext.tsx). */
module UserContext {
  import opened Wrappers
  import C = Constants
  import S = SupabaseAuth

  /** The `User` the context holds. */
  datatype User = User(
    id: string, name: string, email: string, timezone: string, pipFocus: seq<string>,
    createdAt: int, tier: C.Tier, claimsUsed: int, claimsRemaining: int)

  /** The user built from a profile row: `name || ''`, time zone 'UTC', no focus areas. */
  function FromProfile(p: S.Row): (u: User)
    ensures u.id == p.id && u.email == p.email && u.tier == p.tier
    ensures u.claimsUsed == p.claimsUsed && u.claimsRemaining == p.claimsRemaining
    ensures u.name == (if Present(p.name) then p.name.value else "")
    ensures u.timezone == "UTC" && u.pipFocus == []
  {
    User(p.id, if Present(p.name) then p.name.value else "", p.email, "UTC", [], p.createdAt,
         p.tier, p.claimsUsed, p.claimsRemaining)
  }

  /** `canCreateClaim`. */
  function CanCreateClaim(user: Option<User>): (can: bool)
    ensures user.None? ==> !can
    ensures user.Some? && user.value.tier == C.Pro ==> can
    ensures user.Some? && user.value.tier == C.Standard ==> (can <==> user.value.claimsUsed < 1)
  {
    if user.None? then false
    else if user.value.tier == C.Pro then true
    else user.value.claimsUsed < C.ClaimLimit(user.value.tier)
  }

  /** `Math.max(0, n)`. */
  function Max0(n: int): nat
  {
    if n < 0 then 0 else n
  }

  /** `getRemainingClaims`: 0 without a user, the unlimited sentinel for pro, otherwise what is left of the limit. */
  function RemainingClaims(user: Option<User>): (n: int)
    ensures user.None? ==> n == 0
    ensures user.Some? && user.value.tier == C.Pro ==> n == C.UNLIMITED
    ensures user.Some? && user.value.tier == C.Standard ==>
              (n == 0 <==> user.value.claimsUsed >= 1) && (n != 0 ==> n == 1 - user.value.claimsUsed)
    ensures n >= 0 || n == C.UNLIMITED
  {
    if user.None? then 0
    else if user.value.tier == C.Pro then C.UNLIMITED
    else Max0(C.ClaimLimit(user.value.tier) - user.value.claimsUsed)
  }

  /** A claim can be created exactly when some remain or the quota is unlimited. */
  lemma CanCreateIffClaimsRemain(user: Option<User>)
    ensures CanCreateClaim(user) <==> RemainingClaims(user) != 0
  {
  }

  /** The user after one claim: one more used, and the remaining count recomputed from the limit. */
  function Incremented(u: User): (u': User)
    ensures u'.claimsUsed == u.claimsUsed + 1
    ensures u'.claimsRemaining == (if u.tier == C.Pro then C.UNLIMITED else Max0(C.ClaimLimit(u.tier) - u'.claimsUsed))
    ensures u'.claimsRemaining >= 0 || u'.claimsRemaining == C.UNLIMITED
    ensures u' == u.(claimsUsed := u'.claimsUsed, claimsRemaining := u'.claimsRemaining)
  {
    var used := u.claimsUsed + 1;
    u.(claimsUsed := used, claimsRemaining := if u.tier == C.Pro then -1 else Max0(C.ClaimLimit(u.tier) - used))
  }

  /** The remaining count `incrementClaimCount` stores is the one `getRemainingClaims` reports afterwards. */
  lemma IncrementAgreesWithRemaining(u: User)
    ensures Incremented(u).claimsRemaining == RemainingClaims(Some(Incremented(u)))
  {
  }

  /** The user after `n` claims. */
  function IncrementedTimes(u: User, n: nat): User
  {
    if n == 0 then u else Incremented(IncrementedTimes(u, n - 1))
  }

  /**
   * After `n` claims the count has grown by exactly `n`, past the limit if need be, and a
   * standard user who has claimed at least once can claim no more.
   */
  lemma {:induction false} IncrementedTimesCounts(u: User, n: nat)
    ensures IncrementedTimes(u, n).claimsUsed == u.claimsUsed + n
    ensures IncrementedTimes(u, n).tier == u.tier && IncrementedTimes(u, n).id == u.id
    ensures n > 0 ==> IncrementedTimes(u, n).claimsRemaining == RemainingClaims(Some(IncrementedTimes(u, n)))
    ensures u.tier == C.Standard && u.claimsUsed >= 0 && n > 0 ==> !CanCreateClaim(Some(IncrementedTimes(u, n)))
  {
    if n > 0 {
      IncrementedTimesCounts(u, n - 1);
      IncrementAgreesWithRemaining(IncrementedTimes(u, n - 1));
    }
  }

  /** The columns `incrementClaimCount` persists. */
  function ClaimPatch(u: User): S.Patch
  {
    S.NO_CHANGE.(claimsUsed := S.Put(u.claimsUsed), claimsRemaining := S.Put(u.claimsRemaining))
  }

  /** The error `signIn` and `signUp` throw for a missing profile. */
  const PROFILE_NOT_FOUND: Fault := Fault("", "User profile not found")

  /** The error `initializeUser` records when the session cannot be read. */
  const INITIALIZE_FAILED: string := "Failed to initialize user"

  /** The state of `UserProvider`. */
  class UserProvider {
    var user: Option<User>
    var loading: bool
    var error: Option<string>

    constructor ()
      ensures user.None? && loading && error.None?
    {
      user := None;
      loading := true;
      error := None;
    }

    /**
     * `initializeUser`: adopts the profile of the session's user, if it can be read. `session` is
     * what `getSession` gave: the session's user id (if any), or the error it threw, which is
     * recorded as "Failed to initialize user". Loading ends either way.
     */
    method InitializeUser(db: S.Database, session: Result<Option<string>>)
      modifies this
      ensures session.Err? ==> user == old(user) && error == Some(INITIALIZE_FAILED)
      ensures session.Ok? ==>
                var p := if session.value.Some? then S.GetUserProfile(db, session.value.value) else None;
                user == (if p.Some? then Some(FromProfile(p.value)) else old(user)) && error == old(error)
      ensures !loading
    {
      if session.Err? {
        error := Some(INITIALIZE_FAILED);
      } else if session.value.Some? {
        var profile := S.GetUserProfile(db, session.value.value);
        if profile.Some? {
          user := Some(FromProfile(profile.value));
        }
      }
      loading := false;
    }

    /**
     * The `onAuthStateChange` listener: a session whose profile can be read replaces the user,
     * one whose profile cannot leaves it, and no session clears it.
     */
    method AuthStateChanged(db: S.Database, sessionUserId: Option<string>)
      modifies this
      ensures sessionUserId.None? ==> user.None?
      ensures sessionUserId.Some? ==>
                var p := S.GetUserProfile(db, sessionUserId.value);
                user == (if p.Some? then Some(FromProfile(p.value)) else old(user))
      ensures loading == old(loading) && error == old(error)
    {
      if sessionUserId.Some? {
        var profile := S.GetUserProfile(db, sessionUserId.value);
        if profile.Some? {
          user := Some(FromProfile(profile.value));
        }
      } else {
        user := None;
      }
    }

    /**
     * `incrementClaimCount`: the local user is updated first; the new counts are then persisted
     * and a failure to persist is only logged.
     */
    method IncrementClaimCount(db: S.Database)
      modifies this, db
      ensures old(user).None? ==> user == old(user) && db.rows == old(db.rows)
      ensures old(user).Some? ==>
                var id := old(user).value.id;
                && user == Some(Incremented(old(user).value))
                && db.rows == if old(db.reachable) && id in old(db.rows)
                              then old(db.rows)[id := S.ApplyPatch(old(db.rows)[id], ClaimPatch(user.value))]
                              else old(db.rows)
      ensures loading == old(loading) && error == old(error) && db.reachable == old(db.reachable)
    {
      if user.None? {
        return;
      }
      var updated := Incremented(user.value);
      user := Some(updated);
      var persisted := S.UpdateUserProfile(db, updated.id, ClaimPatch(updated));
    }

    /** `signIn`: the auth client's user id (or its error), then the profile; errors are recorded and rethrown. */
    method SignIn(db: S.Database, auth: Result<string>) returns (r: Result<User>)
      modifies this
      ensures r.Ok? <==> auth.Ok? && S.GetUserProfile(db, auth.value).Some?
      ensures r.Ok? ==> r.value == FromProfile(db.rows[auth.value]) && user == Some(r.value) && error == old(error)
      ensures auth.Err? ==> r == Err(auth.fault)
      ensures auth.Ok? && r.Err? ==> r == Err(PROFILE_NOT_FOUND)
      ensures r.Err? ==> error == Some(r.fault.message) && user == old(user)
      ensures loading == old(loading)
    {
      if auth.Err? {
        error := Some(auth.fault.message);
        return Err(auth.fault);
      }
      var profile := S.GetUserProfile(db, auth.value);
      if profile.None? {
        error := Some(PROFILE_NOT_FOUND.message);
        return Err(PROFILE_NOT_FOUND);
      }
      var userData := FromProfile(profile.value);
      user := Some(userData);
      r := Ok(userData);
    }

    /**
     * `signUp`: the account and its profile row are created, then the profile is read back.
     * The requested tier is not used: every new user is standard with one claim.
     */
    method SignUp(db: S.Database, auth: S.AuthSignUp, name: string, requestedTier: C.Tier, now: int)
      returns (r: Result<User>)
      modifies this, db
      ensures r.Ok? <==> auth.AuthCreated? && old(db.reachable) && auth.id !in old(db.rows)
      ensures r.Ok? ==>
                && r.value == FromProfile(S.NewRow(auth.id, auth.email, Some(name), now))
                && r.value.tier == C.Standard && r.value.claimsUsed == 0 && r.value.claimsRemaining == 1
                && user == Some(r.value) && db.rows == old(db.rows)[auth.id := S.NewRow(auth.id, auth.email, Some(name), now)]
                && error == old(error)
      ensures r.Err? ==> error == Some(r.fault.message) && user == old(user) && db.rows == old(db.rows)
      ensures loading == old(loading) && db.reachable == old(db.reachable)
    {
      var created := S.SignUp(db, auth, Some(name), now);
      if created.Err? {
        error := Some(created.fault.message);
        return Err(created.fault);
      }
      var profile := S.GetUserProfile(db, auth.id);
      if profile.None? {
        // the row was inserted into a reachable table just above
        assert false;
      }
      var userData := FromProfile(profile.value);
      user := Some(userData);
      r := Ok(userData);
    }

    /** `signOut`: the user is cleared only when the auth client signs out. */
    method SignOut(auth: Outcome) returns (r: Outcome)
      modifies this
      ensures r == auth
      ensures auth.Done? ==> user.None? && error == old(error)
      ensures auth.Raised? ==> user == old(user) && error == Some(auth.fault.message)
      ensures loading == old(loading)
    {
      if auth.Raised? {
        error := Some(auth.fault.message);
        return auth;
      }
      user := None;
      r := Done;
    }
  }
}
