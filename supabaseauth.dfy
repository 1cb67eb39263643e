/** The Supabase-backed account helpers (src/lib/supabase-auth.ts), over a typed `users` table. */
module SupabaseAuth {
  import opened Wrappers
  import C = Constants

  /** A row of the `users` table. Timestamps are milliseconds since the epoch. */
  datatype Row = Row(
    id: string, email: string, name: Option<string>, tier: C.Tier, claimsUsed: int, claimsRemaining: int,
    stripeCustomerId: Option<string>, pendingPlan: Option<string>, paidAt: Option<int>,
    createdAt: int, updatedAt: int)

  /** One column of a partial update: left alone, or set to a value. */
  datatype Assign<T> = Keep | Put(value: T)

  /** A `Partial<UserProfile>` over the columns a caller may change. */
  datatype Patch = Patch(
    name: Assign<Option<string>>, tier: Assign<C.Tier>, claimsUsed: Assign<int>, claimsRemaining: Assign<int>,
    stripeCustomerId: Assign<Option<string>>, pendingPlan: Assign<Option<string>>, paidAt: Assign<Option<int>>)

  /** The patch that changes nothing. */
  const NO_CHANGE: Patch := Patch(Keep, Keep, Keep, Keep, Keep, Keep, Keep)

  /** The new value of one column. */
  function Assigned<T>(a: Assign<T>, current: T): T
  {
    if a.Put? then a.value else current
  }

  /** A row after a partial update. */
  function ApplyPatch(r: Row, p: Patch): (r': Row)
    ensures r'.id == r.id && r'.email == r.email && r'.createdAt == r.createdAt && r'.updatedAt == r.updatedAt
    ensures p == NO_CHANGE ==> r' == r
  {
    r.(name := Assigned(p.name, r.name), tier := Assigned(p.tier, r.tier),
       claimsUsed := Assigned(p.claimsUsed, r.claimsUsed),
       claimsRemaining := Assigned(p.claimsRemaining, r.claimsRemaining),
       stripeCustomerId := Assigned(p.stripeCustomerId, r.stripeCustomerId),
       pendingPlan := Assigned(p.pendingPlan, r.pendingPlan), paidAt := Assigned(p.paidAt, r.paidAt))
  }

  /** What the database returns when a request does not reach it. */
  const FETCH_FAILED: Fault := Fault("", "TypeError: fetch failed")

  /** What `.single()` returns when no row matches. */
  const NO_ROWS: Fault := Fault("PGRST116", "JSON object requested, multiple (or no) rows returned")

  /** What an insert returns for an id that is already taken. */
  const DUPLICATE_ID: Fault := Fault("23505", "duplicate key value violates unique constraint \"users_pkey\"")

  /** The error `signUp` throws when the auth client returns no user. */
  const NO_USER: Fault := Fault("", "No user returned from sign up")

  /** The `users` table and whether requests reach it. */
  class Database {
    var rows: map<string, Row>
    var reachable: bool

    constructor (rows: map<string, Row>, reachable: bool)
      ensures this.rows == rows && this.reachable == reachable
    {
      this.rows := rows;
      this.reachable := reachable;
    }
  }

  /** What `supabase.auth.signUp` returned: an error, no user, or the new user's id and email. */
  datatype AuthSignUp = AuthError(fault: Fault) | NoUser | AuthCreated(id: string, email: string)

  /** The row `signUp` inserts: standard tier, no claims used, one remaining, unpaid. */
  function NewRow(id: string, email: string, name: Option<string>, now: int): (r: Row)
    ensures r.id == id && r.email == email && r.tier == C.Standard
    ensures r.claimsUsed == 0 && r.claimsRemaining == C.ClaimLimit(C.Standard) == 1
    ensures r.name == (if Present(name) then name else None)
    ensures r.paidAt.None? && r.stripeCustomerId.None? && r.pendingPlan.None?
  {
    Row(id, email, if Present(name) then name else None, C.Standard, 0, 1, None, None, None, now, now)
  }

  /** `signUp`: the auth errors are thrown before any insert; then the profile row is inserted. */
  method SignUp(db: Database, auth: AuthSignUp, name: Option<string>, now: int) returns (r: Result<Row>)
    modifies db
    ensures auth.AuthError? ==> r == Err(auth.fault) && db.rows == old(db.rows)
    ensures auth.NoUser? ==> r == Err(NO_USER) && db.rows == old(db.rows)
    ensures auth.AuthCreated? ==>
              if old(db.reachable) && auth.id !in old(db.rows) then
                r == Ok(NewRow(auth.id, auth.email, name, now)) && db.rows == old(db.rows)[auth.id := r.value]
              else r.Err? && db.rows == old(db.rows)
    ensures db.reachable == old(db.reachable)
  {
    if auth.AuthError? {
      return Err(auth.fault);
    }
    if auth.NoUser? {
      return Err(NO_USER);
    }
    if !db.reachable {
      return Err(FETCH_FAILED);
    }
    if auth.id in db.rows {
      return Err(DUPLICATE_ID);
    }
    var row := NewRow(auth.id, auth.email, name, now);
    db.rows := db.rows[auth.id := row];
    r := Ok(row);
  }

  /** `getUserProfile`: the row, or `null` on any error, a missing row included. */
  function GetUserProfile(db: Database, userId: string): (p: Option<Row>)
    reads db
    ensures p.Some? <==> db.reachable && userId in db.rows
    ensures p.Some? ==> p.value == db.rows[userId]
  {
    if db.reachable && userId in db.rows then Some(db.rows[userId]) else None
  }

  /** `updateUserProfile`: applies the patch to the row and returns it; an error is thrown. */
  method UpdateUserProfile(db: Database, userId: string, p: Patch) returns (r: Result<Row>)
    modifies db
    ensures r.Ok? <==> old(db.reachable) && userId in old(db.rows)
    ensures r.Ok? ==> r.value == ApplyPatch(old(db.rows)[userId], p) && db.rows == old(db.rows)[userId := r.value]
    ensures r.Err? ==> db.rows == old(db.rows)
    ensures db.reachable == old(db.reachable)
  {
    if !db.reachable {
      return Err(FETCH_FAILED);
    }
    if userId !in db.rows {
      return Err(NO_ROWS);
    }
    var row := ApplyPatch(db.rows[userId], p);
    db.rows := db.rows[userId := row];
    r := Ok(row);
  }

  /** `setPendingPlan`: writes only `pending_plan`. */
  method SetPendingPlan(db: Database, userId: string, plan: C.Tier) returns (r: Result<Row>)
    modifies db
    ensures r.Ok? <==> old(db.reachable) && userId in old(db.rows)
    ensures r.Ok? ==> r.value == old(db.rows)[userId].(pendingPlan := Some(C.TierName(plan)))
                      && db.rows == old(db.rows)[userId := r.value]
    ensures r.Err? ==> db.rows == old(db.rows)
    ensures db.reachable == old(db.reachable)
  {
    r := UpdateUserProfile(db, userId, NO_CHANGE.(pendingPlan := Put(Some(C.TierName(plan)))));
  }

  /** `checkUserPaidStatus` as written: `profile?.paid_at !== null`, so a missing profile reads as paid. */
  function CheckUserPaidStatus(db: Database, userId: string): (paid: bool)
    reads db
    ensures paid <==> GetUserProfile(db, userId).None? || db.rows[userId].paidAt.Some?
  {
    var profile := GetUserProfile(db, userId);
    // `undefined !== null` holds when there is no profile
    profile.None? || profile.value.paidAt.Some?
  }

  /** A user with no profile row, or any read error, is reported as paid. */
  lemma MissingProfileReadsAsPaid(db: Database, userId: string)
    requires !db.reachable || userId !in db.rows
    ensures CheckUserPaidStatus(db, userId)
    ensures !CheckUserPaidStatusIntended(db, userId)
  {
  }

  /** The paid check as evidently intended: a profile that records a payment. */
  function CheckUserPaidStatusIntended(db: Database, userId: string): (paid: bool)
    reads db
    ensures paid <==> db.reachable && userId in db.rows && db.rows[userId].paidAt.Some?
    ensures paid ==> CheckUserPaidStatus(db, userId)
  {
    var profile := GetUserProfile(db, userId);
    profile.Some? && profile.value.paidAt.Some?
  }

  /** Both checks agree whenever the profile can be read. */
  lemma PaidChecksAgreeOnReadableProfiles(db: Database, userId: string)
    requires db.reachable && userId in db.rows
    ensures CheckUserPaidStatus(db, userId) == CheckUserPaidStatusIntended(db, userId)
  {
  }

  /** `markUserAsPaid`: builds the update step by step and applies it. */
  method MarkUserAsPaid(db: Database, userId: string, plan: C.Tier, stripeCustomerId: Option<string>, now: int)
    returns (r: Result<Row>)
    modifies db
    ensures r.Ok? <==> old(db.reachable) && userId in old(db.rows)
    ensures r.Ok? ==>
              var before := old(db.rows)[userId];
              && db.rows == old(db.rows)[userId := r.value]
              && r.value.tier == plan && r.value.paidAt == Some(now) && r.value.pendingPlan.None?
              && r.value.claimsRemaining == C.ClaimLimit(plan)
              && r.value.stripeCustomerId == (if Present(stripeCustomerId) then stripeCustomerId else before.stripeCustomerId)
              && r.value.name == before.name && r.value.claimsUsed == before.claimsUsed
              && r.value.id == before.id && r.value.email == before.email
              && r.value.createdAt == before.createdAt && r.value.updatedAt == before.updatedAt
    ensures r.Ok? ==> CheckUserPaidStatusIntended(db, userId) && GetUserPlan(db, userId) == Some(plan)
    ensures r.Err? ==> db.rows == old(db.rows)
    ensures db.reachable == old(db.reachable)
  {
    var updates := NO_CHANGE.(tier := Put(plan), paidAt := Put(Some(now)), pendingPlan := Put(None));
    if Present(stripeCustomerId) {
      updates := updates.(stripeCustomerId := Put(stripeCustomerId));
    }
    if plan == C.Standard {
      updates := updates.(claimsRemaining := Put(1));
    } else {
      updates := updates.(claimsRemaining := Put(-1));
    }
    r := UpdateUserProfile(db, userId, updates);
  }

  /** `getUserPlan`: the profile's tier, or `null` when there is no readable profile. */
  function GetUserPlan(db: Database, userId: string): (plan: Option<C.Tier>)
    reads db
    ensures plan.Some? <==> GetUserProfile(db, userId).Some?
    ensures plan.Some? ==> plan.value == db.rows[userId].tier
  {
    var profile := GetUserProfile(db, userId);
    // a tier name is never empty, so `|| null` only replaces a missing profile
    if profile.Some? then Some(profile.value.tier) else None
  }
}
