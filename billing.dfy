/** The billing page's profile load and plan read-outs (src/app/billing/BillingContent.tsx). */
module Billing {
  import opened Wrappers
  import opened Store
  import C = Constants
  import UserProfile
  import StripeWebhook

  /** Thirty days in milliseconds: the assumed billing period. */
  const BILLING_PERIOD_MS: int := 30 * 24 * 60 * 60 * 1000

  const UPGRADE_ROUTE := "/checkout?plan=pro"
  const LOAD_FAILED := "Error loading billing information"

  /** `isPro`: the loaded profile's plan is exactly 'pro'. */
  predicate IsPro(profile: Option<Doc>)
  {
    profile.Some? && Get(profile.value, Plan) == Str("pro")
  }

  /** `planName`: 'Pro' exactly for a pro profile; anything else, a missing profile included, reads 'Standard'. */
  function PlanName(profile: Option<Doc>): (name: string)
    ensures name == "Pro" <==> IsPro(profile)
    ensures name == "Pro" || name == "Standard"
    ensures profile.None? ==> name == "Standard"
  {
    if IsPro(profile) then "Pro" else "Standard"
  }

  /** A date cell: 'N/A', an instant in milliseconds, or a value that is not a date. */
  datatype DateCell = NotAvailable | At(ms: int) | InvalidDate

  /** `paidAt` read as an instant: a timestamp or a millisecond count. */
  function AsInstant(v: Value): DateCell
  {
    if !Truthy(v) then NotAvailable
    else if v.Time? then At(v.ms)
    else if v.Num? then At(v.n)
    else InvalidDate
  }

  /** The next billing date: thirty days after `paidAt`, or 'N/A' when there is no `paidAt`. */
  function NextBillingDate(profile: Option<Doc>): (cell: DateCell)
    ensures cell.NotAvailable? <==> profile.None? || !Truthy(Get(profile.value, PaidAt))
    ensures cell.At? ==> AsInstant(Get(profile.value, PaidAt)) == At(cell.ms - BILLING_PERIOD_MS)
  {
    if profile.None? then NotAvailable
    else match AsInstant(Get(profile.value, PaidAt))
      case At(ms) => At(ms + BILLING_PERIOD_MS)
      case other => other
  }

  /** After `markUserAsPaid` the page shows the plan paid for and a billing date thirty days on. */
  lemma MarkedPaidProfileShows(d: Doc, plan: C.Tier, customerId: string, now: int)
    ensures var paid := Some(d + UserProfile.Stamped(UserProfile.PaidUpdate(plan, customerId, now), now));
            && (IsPro(paid) <==> plan == C.Pro)
            && NextBillingDate(paid) == At(now + BILLING_PERIOD_MS)
  {
    var u := UserProfile.Stamped(UserProfile.PaidUpdate(plan, customerId, now), now);
    UserProfile.UpdateTouchesOnlySupplied(d, UserProfile.PaidUpdate(plan, customerId, now), now);
    assert Plan in UserProfile.PaidUpdate(plan, customerId, now) && PaidAt in UserProfile.PaidUpdate(plan, customerId, now);
    assert Get(d + u, Plan) == Str(C.TierName(plan));
    assert Get(d + u, PaidAt) == Time(now);
  }

  /** After a cancellation the page offers the upgrade again, while the billing date stays that of the last payment. */
  lemma CancelledProfileOffersUpgrade(d: Doc, now: int)
    ensures var cancelled := Some(d + StripeWebhook.SubscriptionDeletedUpdate(now));
            && !IsPro(cancelled)
            && NextBillingDate(cancelled) == NextBillingDate(Some(d))
  {
    var u := StripeWebhook.SubscriptionDeletedUpdate(now);
    assert Plan in u && u[Plan] == Null;
    assert PaidAt !in u;
    assert Get(d + u, PaidAt) == Get(d, PaidAt);
  }

  /** The state of `BillingContent`. */
  class Page {
    var profile: Option<Doc>
    var loading: bool
    var toasts: seq<string>
    var location: Option<string>

    constructor ()
      ensures profile.None? && loading && toasts == [] && location.None?
    {
      profile := None;
      loading := true;
      toasts := [];
      location := None;
    }

    /**
     * `loadProfile` for the signed-in account `uid`: without one nothing happens and the page keeps
     * loading; otherwise the profile read replaces `profile`, a failed read only adds a toast, and
     * loading ends.
     */
    method LoadProfile(db: Firestore, uid: Option<string>)
      modifies this
      ensures uid.None? ==> profile == old(profile) && loading == old(loading) && toasts == old(toasts)
      ensures uid.Some? ==>
                var read := UserProfile.GetUserProfile(db, uid.value);
                && !loading
                && profile == (if read.Ok? then read.value else old(profile))
                && toasts == (if read.Ok? then old(toasts) else old(toasts) + [LOAD_FAILED])
      ensures location == old(location)
    {
      if uid.None? {
        return;
      }
      var read := UserProfile.GetUserProfile(db, uid.value);
      if read.Ok? {
        profile := read.value;
      } else {
        toasts := toasts + [LOAD_FAILED];
      }
      loading := false;
    }

    /** Whether the upgrade buttons are shown. */
    predicate ShowsUpgrade()
      reads this
    {
      !IsPro(profile)
    }

    /** `handleUpgrade`: sends the browser to the pro checkout by assigning `window.location.href`. */
    method HandleUpgrade()
      modifies this
      ensures location == Some(UPGRADE_ROUTE)
      ensures profile == old(profile) && loading == old(loading) && toasts == old(toasts)
    {
      location := Some(UPGRADE_ROUTE);
    }
  }
}
