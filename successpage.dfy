/** The page the processor returns to after payment (src/app/success/page.tsx). */
module SuccessPage {
  import opened Wrappers
  import opened Store
  import UserProfile
  import opened AuthAccount

  const INVALID_SESSION: string := "Invalid session"
  const VERIFY_FAILED: string := "Failed to verify payment status"
  const TAKING_LONGER: string :=
    "Payment verification is taking longer than expected. Please check back in a few moments."

  /** `profile?.paid` is truthy. */
  predicate ShowsPaid(profile: Option<Doc>)
  {
    profile.Some? && Truthy(Get(profile.value, Paid))
  }

  /**
   * The page's state, the routes it has pushed, how many times it has read the profile and
   * whether the 3-second re-check is pending.
   */
  class Page {
    var loading: bool
    var error: string
    var userProfile: Option<Doc>
    var navigations: seq<string>
    var profileReads: nat
    var recheckPending: bool

    constructor ()
      ensures loading && error == "" && userProfile.None? && navigations == [] && profileReads == 0 && !recheckPending
    {
      loading, error, userProfile, navigations := true, "", None, [];
      profileReads, recheckPending := 0, false;
    }

    /** `checkUserStatus`: one read; an unpaid profile schedules one re-check; loading ends on every path. */
    method CheckUserStatus(db: Firestore, account: Account)
      modifies this
      ensures var read := UserProfile.GetUserProfile(db, account.uid);
              && profileReads == old(profileReads) + 1 && !loading
              && (read.Err? ==> error == VERIFY_FAILED && userProfile == old(userProfile) && recheckPending == old(recheckPending))
              && (read.Ok? ==> userProfile == read.value && error == old(error)
                               && recheckPending == (old(recheckPending) || !ShowsPaid(read.value)))
      ensures navigations == old(navigations)
    {
      var read := UserProfile.GetUserProfile(db, account.uid);
      profileReads := profileReads + 1;
      if read.Err? {
        error := VERIFY_FAILED;
      } else {
        userProfile := read.value;
        if !ShowsPaid(read.value) {
          recheckPending := true;
        }
      }
      loading := false;
    }

    /**
     * The re-check, 3 seconds later: a second read; still unpaid sets the error. A failed read is
     * not caught there and changes nothing.
     */
    method RecheckFired(db: Firestore, account: Account)
      requires recheckPending
      modifies this
      ensures var read := UserProfile.GetUserProfile(db, account.uid);
              && profileReads == old(profileReads) + 1 && !recheckPending
              && (read.Err? ==> userProfile == old(userProfile) && error == old(error))
              && (read.Ok? ==> userProfile == read.value
                               && error == (if ShowsPaid(read.value) then old(error) else TAKING_LONGER))
      ensures loading == old(loading) && navigations == old(navigations)
    {
      recheckPending := false;
      var read := UserProfile.GetUserProfile(db, account.uid);
      profileReads := profileReads + 1;
      if read.Ok? {
        userProfile := read.value;
        if !ShowsPaid(read.value) {
          error := TAKING_LONGER;
        }
      }
    }

    /** The mount effect: no session id is an error and no read; no account goes to sign in. */
    method Mount(db: Firestore, sessionId: Option<string>, account: Option<Account>)
      modifies this
      ensures !Present(sessionId) ==>
                error == INVALID_SESSION && !loading && profileReads == old(profileReads)
                && navigations == old(navigations) && recheckPending == old(recheckPending)
                && userProfile == old(userProfile)
      ensures Present(sessionId) && account.None? ==>
                navigations == old(navigations) + ["/auth"] && profileReads == old(profileReads)
                && loading == old(loading) && error == old(error) && recheckPending == old(recheckPending)
                && userProfile == old(userProfile)
      ensures Present(sessionId) && account.Some? ==>
                var read := UserProfile.GetUserProfile(db, account.value.uid);
                && profileReads == old(profileReads) + 1 && !loading && navigations == old(navigations)
                && (read.Err? ==> error == VERIFY_FAILED && recheckPending == old(recheckPending)
                                  && userProfile == old(userProfile))
                && (read.Ok? ==> userProfile == read.value && error == old(error)
                                 && recheckPending == (old(recheckPending) || !ShowsPaid(read.value)))
    {
      if !Present(sessionId) {
        error := INVALID_SESSION;
        loading := false;
        return;
      }
      if account.None? {
        navigations := navigations + ["/auth"];
        return;
      }
      CheckUserStatus(db, account.value);
    }
  }

  /**
   * Arriving with a session id: a profile already paid is read once with no error; an unpaid one
   * is read once more after the delay (`webhookWrite` is what the webhook changed meanwhile), and
   * an error remains only if it is still unpaid.
   */
  method Arrive(db: Firestore, sessionId: string, account: Account, webhookWrite: Doc)
    returns (profileReads: nat, error: string, paid: bool)
    requires sessionId != "" && db.reachable
    modifies db
    ensures var first := if account.uid in old(db.users) then Some(old(db.users)[account.uid]) else None;
            if ShowsPaid(first) then profileReads == 1 && error == "" && paid
            else profileReads == 2 && (error == "" <==> paid) && (error != "" ==> error == TAKING_LONGER)
    ensures db.preReg == old(db.preReg)
  {
    var page := new Page();
    page.Mount(db, Some(sessionId), Some(account));
    if page.recheckPending {
      if account.uid in db.users {
        db.users := db.users[account.uid := db.users[account.uid] + webhookWrite];
      }
      page.RecheckFired(db, account);
    }
    profileReads, error, paid := page.profileReads, page.error, ShowsPaid(page.userProfile);
  }
}
