/** The wrapper that shows its children only to paying users (src/components/PaidRouteGuard.tsx). */
module PaidRouteGuard {
  import opened Wrappers

  /** What the guard renders. */
  datatype View = CheckingAccess | Fallback | AccessRestricted | Children

  /** The render decision over the auth loading flag, the guard's state, the user and the `fallback` prop. */
  function Render(authLoading: bool, checking: bool, userPresent: bool, isPaid: Option<bool>, hasFallback: bool): (v: View)
    ensures v == CheckingAccess <==> authLoading || checking
    ensures v == Children <==> !authLoading && !checking && userPresent && isPaid == Some(true)
    ensures v == Fallback ==> hasFallback
    ensures v == AccessRestricted ==> !hasFallback
  {
    if authLoading || checking then CheckingAccess
    else if !userPresent || isPaid != Some(true) then (if hasFallback then Fallback else AccessRestricted)
    else Children
  }

  /** The guard's state and the routes it has pushed. */
  class Guard {
    var isPaid: Option<bool>
    var checking: bool
    var navigations: seq<string>

    constructor ()
      ensures isPaid.None? && checking && navigations == []
    {
      isPaid := None;
      checking := true;
      navigations := [];
    }

    /**
     * `checkPaidStatus`: nothing while auth loads; no user goes to /auth and stays checking;
     * otherwise the paid query decides, an unpaid or failed answer going to /plans.
     */
    method CheckPaidStatus(authLoading: bool, userPresent: bool, paidQuery: Result<bool>)
      modifies this
      ensures authLoading ==> isPaid == old(isPaid) && checking == old(checking) && navigations == old(navigations)
      ensures !authLoading && !userPresent ==>
                isPaid == old(isPaid) && checking == old(checking) && navigations == old(navigations) + ["/auth"]
      ensures !authLoading && userPresent && paidQuery.Ok? ==>
                && isPaid == Some(paidQuery.value) && !checking
                && navigations == old(navigations) + (if paidQuery.value then [] else ["/plans"])
      ensures !authLoading && userPresent && paidQuery.Err? ==>
                isPaid == old(isPaid) && !checking && navigations == old(navigations) + ["/plans"]
    {
      if authLoading {
        return;
      }
      if !userPresent {
        navigations := navigations + ["/auth"];
        return;
      }
      if paidQuery.Ok? {
        isPaid := Some(paidQuery.value);
        if !paidQuery.value {
          navigations := navigations + ["/plans"];
        }
      } else {
        navigations := navigations + ["/plans"];
      }
      checking := false;
    }

    /** The current render. */
    function View(authLoading: bool, userPresent: bool, hasFallback: bool): View
      reads this
    {
      Render(authLoading, checking, userPresent, isPaid, hasFallback)
    }
  }

  /**
   * A freshly mounted guard after its effect has run once: it shows its children exactly when
   * auth has loaded, there is a user and the query answered paid; a failed query fails closed.
   */
  method MountOnce(authLoading: bool, userPresent: bool, paidQuery: Result<bool>, hasFallback: bool)
    returns (v: View, navigations: seq<string>)
    ensures v == Children <==> !authLoading && userPresent && paidQuery == Ok(true)
    ensures v == CheckingAccess <==> authLoading || !userPresent
    ensures navigations == (if authLoading then [] else if !userPresent then ["/auth"]
                            else if paidQuery == Ok(true) then [] else ["/plans"])
    ensures (v == Fallback || v == AccessRestricted) ==> navigations == ["/plans"]
  {
    var g := new Guard();
    g.CheckPaidStatus(authLoading, userPresent, paidQuery);
    v := g.View(authLoading, userPresent, hasFallback);
    navigations := g.navigations;
  }
}
