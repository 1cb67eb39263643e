/** The page that turns a chosen plan into a hosted checkout (src/app/checkout/page.tsx). */
module CheckoutPage {
  import opened Wrappers
  import opened Store
  import C = Constants
  import UserProfile
  import CheckoutSession
  import opened AuthAccount

  /** One entry of `PLAN_DETAILS`. */
  datatype PlanDetail = PlanDetail(name: string, price: nat, features: seq<string>)

  /** `PLAN_DETAILS`. */
  function PlanDetails(t: C.Tier): (d: PlanDetail)
    ensures d.price == (if t == C.Standard then C.PRICE_STANDARD else C.PRICE_PRO)
  {
    match t
    case Standard => PlanDetail("Standard Plan", 49, [
      "Up to 5 active claims", "Basic claim tracking", "Document storage (1GB)", "Email support",
      "Mobile app access"])
    case Pro => PlanDetail("Pro Plan", 79, [
      "Unlimited active claims", "Advanced claim analytics", "Document storage (10GB)", "Priority support",
      "Advanced reporting", "API access", "Team collaboration"])
  }

  /** The two plans differ in price by the upgrade price, and pro lists more features. */
  lemma PlanDetailsAgreeWithPricing()
    ensures PlanDetails(C.Pro).price - PlanDetails(C.Standard).price == C.PRICE_UPGRADE_TO_PRO
    ensures |PlanDetails(C.Standard).features| == 5 && |PlanDetails(C.Pro).features| == 7
  {
  }

  /** The request body the page sends for a session. */
  function SessionRequest(a: Account, plan: C.Tier): CheckoutSession.Request
  {
    CheckoutSession.Request(Some(a.uid), Some(C.TierName(plan)), a.email)
  }

  /** `response.ok`. */
  predicate IsOk(r: CheckoutSession.Response)
  {
    200 <= r.status < 300
  }

  const INVALID_PLAN: string := "Invalid plan selected"
  const LOAD_FAILED: string := "Failed to load checkout. Please try again."
  const SESSION_FAILED: string := "Failed to create checkout session. Please try again."

  /** The page's state, its route pushes and where the browser was sent. */
  class Page {
    var loading: bool
    var error: string
    var plan: Option<C.Tier>
    var checkoutSession: Option<CheckoutSession.Body>
    var navigations: seq<string>
    var location: Option<string>

    constructor ()
      ensures loading && error == "" && plan.None? && checkoutSession.None? && navigations == [] && location.None?
    {
      loading, error, plan, checkoutSession := true, "", None, None;
      navigations, location := [], None;
    }

    /**
     * `createCheckoutSession` as the closure of a render whose plan state was `renderPlan`: nothing
     * without an account or a plan; a failed request or a non-OK answer (`None` when `fetch`
     * threw) sets the error.
     */
    method CreateCheckoutSession(account: Option<Account>, renderPlan: Option<C.Tier>, response: Option<CheckoutSession.Response>)
      modifies this
      ensures account.None? || renderPlan.None? ==> checkoutSession == old(checkoutSession) && error == old(error)
      ensures account.Some? && renderPlan.Some? ==>
                if response.Some? && IsOk(response.value)
                then checkoutSession == Some(response.value.body) && error == old(error)
                else checkoutSession == old(checkoutSession) && error == SESSION_FAILED
      ensures loading == old(loading) && plan == old(plan) && navigations == old(navigations) && location == old(location)
    {
      if account.None? || renderPlan.None? {
        return;
      }
      if response.None? || !IsOk(response.value) {
        error := SESSION_FAILED;
        return;
      }
      checkoutSession := Some(response.value.body);
    }

    /**
     * `checkUserStatus` of the render whose plan state was `renderPlan`: a paid profile goes to
     * the dashboard; otherwise that render's `createCheckoutSession` runs.
     */
    method CheckUserStatus(db: Firestore, account: Option<Account>, renderPlan: Option<C.Tier>,
                           response: Option<CheckoutSession.Response>)
      modifies this
      ensures account.None? ==> checkoutSession == old(checkoutSession) && error == old(error)
                                && navigations == old(navigations) && loading == old(loading)
      ensures account.Some? ==>
                var read := UserProfile.GetUserProfile(db, account.value.uid);
                && !loading
                && (read.Err? ==> error == LOAD_FAILED && navigations == old(navigations) && checkoutSession == old(checkoutSession))
                && (read.Ok? && read.value.Some? && Truthy(Get(read.value.value, Paid)) ==>
                      navigations == old(navigations) + ["/dashboard"] && error == old(error)
                      && checkoutSession == old(checkoutSession))
                && (read.Ok? && !(read.value.Some? && Truthy(Get(read.value.value, Paid))) ==>
                      navigations == old(navigations)
                      && (renderPlan.None? ==> checkoutSession == old(checkoutSession) && error == old(error))
                      && (renderPlan.Some? && response.Some? && IsOk(response.value) ==>
                            checkoutSession == Some(response.value.body) && error == old(error))
                      && (renderPlan.Some? && !(response.Some? && IsOk(response.value)) ==>
                            error == SESSION_FAILED && checkoutSession == old(checkoutSession)))
      ensures plan == old(plan) && location == old(location)
    {
      if account.None? {
        return;
      }
      var read := UserProfile.GetUserProfile(db, account.value.uid);
      if read.Err? {
        error := LOAD_FAILED;
      } else if read.value.Some? && Truthy(Get(read.value.value, Paid)) {
        navigations := navigations + ["/dashboard"];
      } else {
        CreateCheckoutSession(account, renderPlan, response);
      }
      loading := false;
    }

    /**
     * The mount effect: an unknown plan is an error with no request and no redirect; without an
     * account the page goes to sign in; otherwise the account's status is checked. The effect
     * runs the closures of the render it belongs to, so the session request sees the plan state
     * from before this run's `setPlan`.
     */
    method Mount(db: Firestore, planParam: Option<string>, account: Option<Account>,
                 response: Option<CheckoutSession.Response>)
      modifies this
      ensures planParam.None? || C.ParseTier(planParam.value).None? ==>
                error == INVALID_PLAN && !loading && plan == old(plan) && navigations == old(navigations)
                && checkoutSession == old(checkoutSession)
      ensures planParam.Some? && C.ParseTier(planParam.value).Some? ==> plan == C.ParseTier(planParam.value)
      ensures planParam.Some? && C.ParseTier(planParam.value).Some? && account.None? ==>
                navigations == old(navigations) + ["/auth"] && loading == old(loading) && error == old(error)
                && checkoutSession == old(checkoutSession)
      ensures planParam.Some? && C.ParseTier(planParam.value).Some? && account.Some? ==>
                var read := UserProfile.GetUserProfile(db, account.value.uid);
                var paid := read.Ok? && read.value.Some? && Truthy(Get(read.value.value, Paid));
                && !loading
                && (read.Err? ==> error == LOAD_FAILED && navigations == old(navigations) && checkoutSession == old(checkoutSession))
                && (paid ==> navigations == old(navigations) + ["/dashboard"] && error == old(error)
                             && checkoutSession == old(checkoutSession))
                && (read.Ok? && !paid ==>
                      && navigations == old(navigations)
                      && if old(plan).None? then checkoutSession == old(checkoutSession) && error == old(error)
                         else if response.Some? && IsOk(response.value)
                         then checkoutSession == Some(response.value.body) && error == old(error)
                         else checkoutSession == old(checkoutSession) && error == SESSION_FAILED)
      ensures location == old(location)
    {
      if planParam.None? || C.ParseTier(planParam.value).None? {
        error := INVALID_PLAN;
        loading := false;
        return;
      }
      var renderPlan := plan;
      plan := C.ParseTier(planParam.value);
      if account.None? {
        navigations := navigations + ["/auth"];
        return;
      }
      CheckUserStatus(db, account, renderPlan, response);
    }

    /** `handleCheckout`: the browser leaves for the session's URL only when the session has one. */
    method HandleCheckout()
      modifies this
      ensures location == (if checkoutSession.Some? && checkoutSession.value.SessionBody?
                              && Present(checkoutSession.value.url)
                           then checkoutSession.value.url else old(location))
      ensures loading == old(loading) && error == old(error) && plan == old(plan)
      ensures checkoutSession == old(checkoutSession) && navigations == old(navigations)
    {
      if checkoutSession.Some? && checkoutSession.value.SessionBody? && Present(checkoutSession.value.url) {
        location := checkoutSession.value.url;
      }
    }
  }

  /**
   * A page first rendered with an unpaid account already signed in: the first render's plan is
   * null, so no session is requested, no error is shown and loading still ends.
   */
  method MountSignedIn(db: Firestore, plan: C.Tier, account: Account, response: CheckoutSession.Response)
    returns (kept: Option<CheckoutSession.Body>, error: string, navigations: seq<string>, loading: bool)
    requires db.reachable && !(account.uid in db.users && Truthy(Get(db.users[account.uid], Paid)))
    ensures navigations == [] && kept.None? && error == "" && !loading
  {
    var page := new Page();
    page.Mount(db, Some(C.TierName(plan)), Some(account), Some(response));
    kept, error, navigations, loading := page.checkoutSession, page.error, page.navigations, page.loading;
  }

  /**
   * A page first rendered before the account is known, whose effect runs again once an unpaid
   * account signs in: the first run redirects to sign in, and the second, whose render already
   * holds the plan, keeps the endpoint's session.
   */
  method MountThenSignIn(db: Firestore, plan: C.Tier, account: Account, response: CheckoutSession.Response)
    returns (kept: Option<CheckoutSession.Body>, error: string, navigations: seq<string>)
    requires db.reachable && !(account.uid in db.users && Truthy(Get(db.users[account.uid], Paid)))
    ensures navigations == ["/auth"]
    ensures kept == (if IsOk(response) then Some(response.body) else None)
    ensures error == (if IsOk(response) then "" else SESSION_FAILED)
  {
    var page := new Page();
    page.Mount(db, Some(C.TierName(plan)), None, Some(response));
    page.Mount(db, Some(C.TierName(plan)), Some(account), Some(response));
    kept, error, navigations := page.checkoutSession, page.error, page.navigations;
  }

  /**
   * The body the page sends passes every check of the session endpoint once the plan's price is
   * configured and the account is the one the auth lookup returns.
   */
  lemma SessionRequestPassesGate(c: CheckoutSession.Config, account: Account, plan: C.Tier)
    requires c.stripeConfigured && CheckoutSession.PriceFor(c, C.TierName(plan)) != ""
    requires account.uid != "" && Present(account.email)
    ensures CheckoutSession.Gate(c, Some(SessionRequest(account, plan)), true,
                                 CheckoutSession.AuthUser(account.email)).None?
  {
  }
}
