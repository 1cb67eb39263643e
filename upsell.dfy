/** The claim-limit upsell dialog's derived values (src/components/UpsellModal.tsx). */
module UpsellModal {
  import opened Wrappers
  import C = Constants
  import Text
  import U = UserContext

  /** `isProTier`: a user is present and on the pro tier. */
  function IsProTier(user: Option<U.User>): (pro: bool)
    ensures pro <==> user.Some? && user.value.tier == C.Pro
  {
    user.Some? && user.value.tier == C.Pro
  }

  /** The dialog's own `remainingClaims`, written with the standard limit of 1 inlined. */
  function ModalRemainingClaims(user: Option<U.User>): (n: int)
    ensures user.None? ==> n == 0
    ensures IsProTier(user) ==> n == C.UNLIMITED
    ensures n >= 0 || n == C.UNLIMITED
  {
    if user.None? then 0
    else if user.value.tier == C.Pro then -1
    else U.Max0(1 - user.value.claimsUsed)
  }

  /** The dialog's formula and the user context's `getRemainingClaims` agree on every user. */
  lemma ModalAgreesWithContext(user: Option<U.User>)
    ensures ModalRemainingClaims(user) == U.RemainingClaims(user)
  {
    if user.Some? && user.value.tier == C.Standard {
      assert C.ClaimLimit(C.Standard) == 1;
    }
  }

  /** A user who may not create another claim sees no claims remaining in the dialog. */
  lemma LimitReachedShowsNoneRemaining(user: Option<U.User>)
    requires !U.CanCreateClaim(user)
    ensures ModalRemainingClaims(user) == 0
  {
    ModalAgreesWithContext(user);
    U.CanCreateIffClaimsRemain(user);
  }

  /** What the dialog shows. */
  datatype View = View(
    title: string, description: string, upgradeBlock: bool,
    purchaseDisabled: bool, purchaseLabel: string, dismissLabel: string)

  /** The used-claims count the description quotes: `claims_used || 0`. */
  function UsedCount(user: Option<U.User>): int
  {
    if user.Some? then user.value.claimsUsed else 0
  }

  /**
   * The dialog for a user: pro users get the "available" wording, a disabled purchase button and
   * no upgrade block; everyone else the limit-reached wording, the upgrade block and the upgrade price.
   */
  function Render(user: Option<U.User>): (v: View)
    ensures v.purchaseDisabled <==> IsProTier(user)
    ensures v.upgradeBlock <==> !IsProTier(user)
    ensures v.title == (if IsProTier(user) then "Pro Claims Available" else "Claim Limit Reached")
    ensures !IsProTier(user) ==>
              && v.purchaseLabel == "Upgrade to Pro for £" + Text.NatToString(C.PRICE_UPGRADE_TO_PRO)
              && v.description == "You've used all " + Text.IntToString(UsedCount(user)) + " of your included claims."
              && v.dismissLabel == "Maybe Later"
    ensures IsProTier(user) ==> v.purchaseLabel == "Pro Plan Active" && v.dismissLabel == "Continue"
  {
    if IsProTier(user) then
      View("Pro Claims Available", "You have unlimited claims with your Pro plan!", false,
           true, "Pro Plan Active", "Continue")
    else
      View("Claim Limit Reached",
           "You've used all " + Text.IntToString(UsedCount(user)) + " of your included claims.", true,
           false, "Upgrade to Pro for £" + Text.NatToString(C.PRICE_UPGRADE_TO_PRO), "Maybe Later")
  }
}
