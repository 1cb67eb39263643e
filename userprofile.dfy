/** The Firebase profile-store helpers (src/lib/userProfile.ts). */
module UserProfile {
  import opened Wrappers
  import opened Store
  import C = Constants

  /** The `pendingPlan` a new profile records: the plan only when it is exactly a tier name. */
  function InitialPendingPlan(plan: Option<string>): (v: Value)
    ensures v != Null <==> plan.Some? && (plan.value == "standard" || plan.value == "pro")
    ensures v != Null ==> v == Str(plan.value)
  {
    if plan.Some? && C.ParseTier(plan.value).Some? then Str(plan.value) else Null
  }

  /** The document `createUserProfile` writes: unpaid, with no processor customer. */
  function NewProfile(email: string, plan: Option<string>, now: int): (d: Doc)
    ensures d.Keys == {Email, PendingPlan, Paid, PaidAt, StripeCustomerId, CreatedAt, UpdatedAt}
    ensures !IsPaid(d) && Get(d, PaidAt) == Null && Get(d, StripeCustomerId) == Null
    ensures Get(d, Email) == Str(email) && Get(d, PendingPlan) == InitialPendingPlan(plan)
  {
    map[Email := Str(email), PendingPlan := InitialPendingPlan(plan), Paid := Bool(false),
        PaidAt := Null, StripeCustomerId := Null, CreatedAt := Time(now), UpdatedAt := Time(now)]
  }

  /** `createUserProfile`: writes a fresh document for the user, or rethrows the store's error. */
  method CreateUserProfile(db: Firestore, uid: string, email: string, plan: Option<string>, now: int)
    returns (r: Outcome)
    modifies db
    ensures r.Done? <==> old(db.reachable)
    ensures db.users == if r.Done? then old(db.users)[uid := NewProfile(email, plan, now)] else old(db.users)
    ensures db.preReg == old(db.preReg) && db.reachable == old(db.reachable)
    ensures r.Done? ==> !CheckUserPaidStatus(db, uid) && GetPendingPlan(db, uid) == InitialPendingPlan(plan)
  {
    r := db.SetUser(uid, NewProfile(email, plan, now));
  }

  /** `getUserProfile`: the stored document, `None` for a missing one, and the read error rethrown. */
  function GetUserProfile(db: Firestore, uid: string): (r: Result<Option<Doc>>)
    reads db
    ensures r.Err? <==> !db.reachable
    ensures r.Ok? ==> (r.value.Some? <==> uid in db.users)
    ensures r.Ok? && r.value.Some? ==> r.value.value == db.users[uid]
  {
    db.ReadUser(uid)
  }

  /** The fields `updateUserProfile` merges: the caller's, plus `updatedAt`. */
  function Stamped(updates: Doc, now: int): Doc
  {
    updates[UpdatedAt := Time(now)]
  }

  /** `updateUserProfile`: merges the fields into an existing document; errors are rethrown. */
  method UpdateUserProfile(db: Firestore, uid: string, updates: Doc, now: int) returns (r: Outcome)
    modifies db
    ensures r.Done? <==> old(db.reachable) && uid in old(db.users)
    ensures db.users == if r.Done? then old(db.users)[uid := old(db.users)[uid] + Stamped(updates, now)]
                        else old(db.users)
    ensures db.preReg == old(db.preReg) && db.reachable == old(db.reachable)
  {
    r := db.UpdateUser(uid, Stamped(updates, now));
  }

  /** An update changes exactly the supplied fields and `updatedAt`. */
  lemma UpdateTouchesOnlySupplied(d: Doc, updates: Doc, now: int)
    ensures forall f :: f != UpdatedAt && f !in updates ==> Get(d + Stamped(updates, now), f) == Get(d, f)
    ensures forall f :: f != UpdatedAt && f in updates ==> Get(d + Stamped(updates, now), f) == updates[f]
    ensures Get(d + Stamped(updates, now), UpdatedAt) == Time(now)
  {
  }

  /** `setPendingPlan`: records the plan as pending and changes nothing else but `updatedAt`. */
  method SetPendingPlan(db: Firestore, uid: string, plan: string, now: int) returns (r: Outcome)
    modifies db
    ensures r.Done? <==> old(db.reachable) && uid in old(db.users)
    ensures db.users == if r.Done? then old(db.users)[uid := old(db.users)[uid] + Stamped(map[PendingPlan := Str(plan)], now)]
                        else old(db.users)
    ensures db.preReg == old(db.preReg) && db.reachable == old(db.reachable)
    ensures r.Done? && plan != "" ==> GetPendingPlan(db, uid) == Str(plan)
  {
    r := UpdateUserProfile(db, uid, map[PendingPlan := Str(plan)], now);
  }

  /** The fields `markUserAsPaid` supplies. */
  function PaidUpdate(plan: C.Tier, stripeCustomerId: string, now: int): Doc
  {
    map[Plan := Str(C.TierName(plan)), PendingPlan := Null, Paid := Bool(true), PaidAt := Time(now),
        StripeCustomerId := Str(stripeCustomerId)]
  }

  /** `markUserAsPaid`: afterwards the user reads as paid on the plan, with no pending plan. */
  method MarkUserAsPaid(db: Firestore, uid: string, plan: C.Tier, stripeCustomerId: string, now: int)
    returns (r: Outcome)
    modifies db
    ensures r.Done? <==> old(db.reachable) && uid in old(db.users)
    ensures db.users == if r.Done? then old(db.users)[uid := old(db.users)[uid] + Stamped(PaidUpdate(plan, stripeCustomerId, now), now)]
                        else old(db.users)
    ensures db.preReg == old(db.preReg) && db.reachable == old(db.reachable)
    ensures r.Done? ==> CheckUserPaidStatus(db, uid) && GetPendingPlan(db, uid) == Null
    ensures r.Done? ==> GetUserPlan(db, uid) == Str(C.TierName(plan))
  {
    r := UpdateUserProfile(db, uid, PaidUpdate(plan, stripeCustomerId, now), now);
  }

  /** A document whose `paid` field is exactly `true`. */
  predicate IsPaid(d: Doc)
  {
    Get(d, Paid) == Bool(true)
  }

  /** `checkUserPaidStatus`: true iff the stored `paid` is exactly `true`; a missing document or a read error gives false. */
  function CheckUserPaidStatus(db: Firestore, uid: string): (paid: bool)
    reads db
    ensures paid <==> db.reachable && uid in db.users && Get(db.users[uid], Paid) == Bool(true)
  {
    match GetUserProfile(db, uid)
    case Ok(Some(d)) => IsPaid(d)
    case _ => false
  }

  /** `getUserPlan`: the stored plan when it is truthy, otherwise (also when absent or on error) `Null`. */
  function GetUserPlan(db: Firestore, uid: string): (plan: Value)
    reads db
    ensures plan == Null || Truthy(plan)
    ensures Truthy(plan) <==> db.reachable && uid in db.users && Truthy(Get(db.users[uid], Plan))
    ensures Truthy(plan) ==> plan == Get(db.users[uid], Plan)
  {
    match GetUserProfile(db, uid)
    case Ok(Some(d)) => Or(Get(d, Plan), Null)
    case _ => Null
  }

  /** `getPendingPlan`: the stored pending plan when it is truthy, otherwise `Null`. */
  function GetPendingPlan(db: Firestore, uid: string): (plan: Value)
    reads db
    ensures plan == Null || Truthy(plan)
    ensures Truthy(plan) <==> db.reachable && uid in db.users && Truthy(Get(db.users[uid], PendingPlan))
    ensures Truthy(plan) ==> plan == Get(db.users[uid], PendingPlan)
  {
    match GetUserProfile(db, uid)
    case Ok(Some(d)) => Or(Get(d, PendingPlan), Null)
    case _ => Null
  }
}
