/** The plan chooser (src/app/plans/page.tsx). */
module PlansPage {
  import opened Wrappers
  import opened Store
  import C = Constants
  import PreRegistration
  import CheckoutPage
  import opened AuthAccount

  /** One entry of `PLANS`. */
  datatype Offer = Offer(id: C.Tier, name: string, price: nat, features: seq<string>, recommended: bool)

  /** `PLANS`, in display order. */
  const PLANS: seq<Offer> := [
    Offer(C.Standard, "Standard Plan", 49, [
      "Up to 5 active claims", "Basic claim tracking", "Document storage (1GB)", "Email support",
      "Mobile app access"], false),
    Offer(C.Pro, "Pro Plan", 79, [
      "Unlimited active claims", "Advanced claim analytics", "Document storage (10GB)", "Priority support",
      "Advanced reporting", "API access", "Team collaboration"], true)
  ]

  /**
   * There are exactly the two tiers, only pro is recommended, and each plan shows the price and
   * features the checkout page shows for it, at the application's prices.
   */
  lemma PlansAgreeWithCheckout()
    ensures |PLANS| == 2 && PLANS[0].id == C.Standard && PLANS[1].id == C.Pro
    ensures forall i :: 0 <= i < |PLANS| ==> (PLANS[i].recommended <==> PLANS[i].id == C.Pro)
    ensures forall i :: 0 <= i < |PLANS| ==>
              var d := CheckoutPage.PlanDetails(PLANS[i].id);
              PLANS[i].name == d.name && PLANS[i].price == d.price && PLANS[i].features == d.features
    ensures PLANS[0].price == C.PRICE_STANDARD && PLANS[1].price == C.PRICE_PRO
  {
  }

  /** The browser's `localStorage`, reduced to the key the flow uses. */
  class LocalStorage {
    var selectedPlan: Option<string>

    constructor (selectedPlan: Option<string>)
      ensures this.selectedPlan == selectedPlan
    {
      this.selectedPlan := selectedPlan;
    }
  }

  /** The page's state and the routes it has pushed. */
  class Page {
    var selectedPlan: Option<C.Tier>
    var loading: bool
    var navigations: seq<string>

    constructor ()
      ensures selectedPlan.None? && !loading && navigations == []
    {
      selectedPlan, loading, navigations := None, false, [];
    }

    /**
     * `handlePlanSelect`: the choice is always remembered locally first; it is pre-registered
     * only for an account with an email (the outcome ignored); without an account the page goes to
     * sign in with the plan, otherwise to checkout.
     */
    method HandlePlanSelect(db: Firestore, hash: string -> string, storage: LocalStorage,
                            account: Option<Account>, planId: C.Tier, now: int)
      modifies this, storage, db
      ensures storage.selectedPlan == Some(C.TierName(planId))
      ensures !(account.Some? && Present(account.value.email)) ==> db.preReg == old(db.preReg)
      ensures account.Some? && Present(account.value.email) ==>
                var key := PreRegistration.KeyFor(hash, account.value.email.value);
                db.preReg == if old(db.reachable)
                             then old(db.preReg)[key := PreRegistration.Upserted(
                                    key in old(db.preReg), account.value.email.value, C.TierName(planId), now)]
                             else old(db.preReg)
      ensures account.None? ==>
                navigations == old(navigations) + ["/auth?plan=" + C.TierName(planId)]
                && selectedPlan == old(selectedPlan) && loading == old(loading)
      ensures account.Some? ==>
                navigations == old(navigations) + ["/checkout?plan=" + C.TierName(planId)]
                && selectedPlan == Some(planId) && loading
      ensures db.users == old(db.users) && db.reachable == old(db.reachable)
    {
      storage.selectedPlan := Some(C.TierName(planId));
      if account.Some? && Present(account.value.email) {
        var ignored := PreRegistration.Post(db, hash,
          Some(PreRegistration.PostRequest(account.value.email, Some(C.TierName(planId)))), now);
      }
      if account.None? {
        navigations := navigations + ["/auth?plan=" + C.TierName(planId)];
        return;
      }
      selectedPlan := Some(planId);
      loading := true;
      navigations := navigations + ["/checkout?plan=" + C.TierName(planId)];
    }
  }
}
