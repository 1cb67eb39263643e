/** The email-first sign-in and sign-up page (src/app/auth/page.tsx). */
module AuthPage {
  import opened Wrappers
  import opened Store
  import Text
  import UserProfile
  import PreRegistration

  /** Which form the page shows. */
  datatype AuthStep = EmailStep | LoginStep | SignupStep

  const INVALID_EMAIL_TOAST: string := "That email looks invalid. Please check and try again."
  const SIGN_IN_FAILED_TOAST: string := "Sign-in failed. Please try again."
  const SIGN_UP_FAILED_TOAST: string := "Sign-up failed. Please try again."

  /** The toast for a failed sign-in, and whether the page switches to the sign-up form. */
  function SignInFailure(code: string): (r: (string, bool))
    ensures r.1 <==> code == "auth/user-not-found"
    ensures code !in {"auth/wrong-password", "auth/user-not-found"} ==> r.0 == SIGN_IN_FAILED_TOAST
  {
    if code == "auth/wrong-password" then ("Wrong password. Try again or reset.", false)
    else if code == "auth/user-not-found" then ("Account not found. Please create an account.", true)
    else (SIGN_IN_FAILED_TOAST, false)
  }

  /** The toast for a failed sign-up, and whether the page switches to the sign-in form. */
  function SignUpFailure(code: string): (r: (string, bool))
    ensures r.1 <==> code == "auth/email-already-in-use"
    ensures code !in {"auth/email-already-in-use", "auth/weak-password"} ==> r.0 == SIGN_UP_FAILED_TOAST
  {
    if code == "auth/email-already-in-use" then ("Email already exists. Please sign in.", true)
    else if code == "auth/weak-password" then ("Please choose a longer password (8+ characters).", false)
    else (SIGN_UP_FAILED_TOAST, false)
  }

  /** The first sign-up check that fails, in the page's order: both fields, equality, length. */
  function SignUpProblem(password: string, confirmPassword: string): (problem: Option<string>)
    ensures problem.None? <==> password != "" && password == confirmPassword && |password| >= 8
    ensures (password == "" || confirmPassword == "") ==> problem == Some("Please fill in all fields")
    ensures (password != "" && confirmPassword != "" && password != confirmPassword)
            ==> problem == Some("Passwords do not match")
  {
    if password == "" || confirmPassword == "" then Some("Please fill in all fields")
    else if password != confirmPassword then Some("Passwords do not match")
    else if |password| < 8 then Some("Password must be at least 8 characters")
    else None
  }

  /** `/checkout?plan=${encodeURIComponent(plan)}`. */
  function CheckoutRoute(plan: string): string
  {
    "/checkout?plan=" + Text.EncodeURIComponent(plan)
  }

  /** A plan made of unreserved characters, a tier name among them, appears in the route verbatim. */
  lemma PlainPlanRoutesAreVerbatim(plan: string)
    requires forall i :: 0 <= i < |plan| ==> Text.Unreserved(plan[i])
    ensures CheckoutRoute(plan) == "/checkout?plan=" + plan
  {
  }

  /** Where an unpaid sign-in goes when the page has no plan: the stored pending plan, else the plan list. */
  function PendingPlanRoute(pendingPlan: Value): (route: string)
    ensures Truthy(pendingPlan) ==> route == "/checkout?plan=" + Display(pendingPlan)
    ensures !Truthy(pendingPlan) ==> route == "/plans"
  {
    if Truthy(pendingPlan) then "/checkout?plan=" + Display(pendingPlan) else "/plans"
  }

  /**
   * `checkPreRegistration`: the plan of an unused pre-registration for the email; `null` for
   * a record that is used, missing or unreadable.
   */
  function CheckPreRegistration(db: Firestore, hash: string -> string, email: string): (plan: Option<string>)
    reads db
    ensures plan.Some? <==> PreRegistration.Get(db, hash, Some(email)).status == 200
                            && !db.preReg[PreRegistration.KeyFor(hash, email)].used
    ensures plan.Some? ==> plan.value == db.preReg[PreRegistration.KeyFor(hash, email)].plan
  {
    var resp := PreRegistration.Get(db, hash, Some(email));
    if resp.status == 200 && resp.body.Found? && !resp.body.data.used then Some(resp.body.data.plan) else None
  }

  /** The page's state, the toasts it has shown and the routes it has pushed. */
  /**
   * The pre-registration store after sign-up's request for `email` and `plan`: the upsert when the
   * plan is a tier name, the e-mail is non-empty and the store is reachable; otherwise unchanged.
   */
  function SignUpPreRegistration(preReg: map<string, PreRegDoc>, reachable: bool, hash: string -> string,
                                 email: string, plan: Option<string>, now: int): map<string, PreRegDoc>
  {
    if Present(plan) && plan.value in {"standard", "pro"} && email != "" && reachable then
      var key := PreRegistration.KeyFor(hash, email);
      preReg[key := PreRegistration.Upserted(key in preReg, email, plan.value, now)]
    else preReg
  }

  class AuthForm {
    var email: string
    var password: string
    var confirmPassword: string
    var loading: bool
    var checkingEmail: bool
    var authStep: AuthStep
    var plan: Option<string>
    var toasts: seq<string>
    var navigations: seq<string>

    constructor ()
      ensures email == "" && password == "" && confirmPassword == ""
      ensures !loading && !checkingEmail && authStep == EmailStep && plan.None?
      ensures toasts == [] && navigations == []
    {
      email, password, confirmPassword := "", "", "";
      loading, checkingEmail := false, false;
      authStep := EmailStep;
      plan := None;
      toasts, navigations := [], [];
    }

    /** The mount effect: prefill from the URL; the remembered plan counts only without a URL plan. */
    method InitFromUrl(urlEmail: Option<string>, urlPlan: Option<string>, storedPlan: Option<string>)
      modifies this
      ensures email == (if Present(urlEmail) then urlEmail.value else old(email))
      ensures plan == (if Present(urlPlan) then urlPlan
                       else if Present(storedPlan) then storedPlan else old(plan))
      ensures password == old(password) && confirmPassword == old(confirmPassword) && authStep == old(authStep)
      ensures loading == old(loading) && checkingEmail == old(checkingEmail)
      ensures toasts == old(toasts) && navigations == old(navigations)
    {
      if Present(urlEmail) {
        email := urlEmail.value;
      }
      if Present(urlPlan) {
        plan := urlPlan;
      }
      if Present(storedPlan) && !Present(urlPlan) {
        plan := storedPlan;
      }
    }

    /**
     * `handleContinue`: a blank email only toasts; otherwise a pre-registered plan is adopted when
     * none is set, and the sign-in methods choose the next form.
     */
    method HandleContinue(db: Firestore, hash: string -> string, signInMethods: Result<seq<string>>)
      modifies this
      ensures Text.Blank(old(email)) ==>
                toasts == old(toasts) + ["Please enter your email"] && plan == old(plan) && authStep == old(authStep)
      ensures !Text.Blank(old(email)) ==>
                var found := CheckPreRegistration(db, hash, old(email));
                && plan == (if Present(found) && !Present(old(plan)) then found else old(plan))
                && (signInMethods.Ok? ==>
                      toasts == old(toasts)
                      && authStep == (if "password" in signInMethods.value then LoginStep else SignupStep))
                && (signInMethods.Err? ==> toasts == old(toasts) + [INVALID_EMAIL_TOAST] && authStep == old(authStep))
      ensures checkingEmail == (old(checkingEmail) && Text.Blank(old(email)))
      ensures email == old(email) && password == old(password) && confirmPassword == old(confirmPassword)
      ensures loading == old(loading) && navigations == old(navigations)
    {
      if Text.Blank(email) {
        toasts := toasts + ["Please enter your email"];
        return;
      }
      checkingEmail := true;
      var preRegPlan := CheckPreRegistration(db, hash, email);
      if Present(preRegPlan) && !Present(plan) {
        plan := preRegPlan;
      }
      if signInMethods.Err? {
        toasts := toasts + [INVALID_EMAIL_TOAST];
      } else if |signInMethods.value| > 0 && "password" in signInMethods.value {
        authStep := LoginStep;
      } else {
        authStep := SignupStep;
      }
      checkingEmail := false;
    }

    /**
     * `handleSignIn`: the password is required; a paid user goes to the dashboard; an unpaid one
     * to checkout for the page's plan (recorded as pending), else for the stored pending plan,
     * else to the plan list. A failure is mapped to a toast by its code.
     */
    method HandleSignIn(db: Firestore, signIn: Result<string>, now: int)
      modifies this, db
      ensures old(password) == "" ==>
                toasts == old(toasts) + ["Please enter your password"] && navigations == old(navigations)
                && db.users == old(db.users) && authStep == old(authStep) && loading == old(loading)
      ensures old(password) != "" && signIn.Err? ==>
                var (toast, toSignup) := SignInFailure(signIn.fault.code);
                && toasts == old(toasts) + [toast] && navigations == old(navigations) && db.users == old(db.users)
                && authStep == (if toSignup then SignupStep else old(authStep)) && !loading
      ensures old(password) != "" && signIn.Ok? ==>
                var uid := signIn.value;
                && authStep == old(authStep) && !loading
                && (if old(UserProfile.CheckUserPaidStatus(db, uid)) then
                      db.users == old(db.users) && toasts == old(toasts) && navigations == old(navigations) + ["/dashboard"]
                    else if Present(old(plan)) then
                      if old(db.reachable) && uid in old(db.users) then
                        && db.users == old(db.users)[uid := old(db.users)[uid] + UserProfile.Stamped(map[PendingPlan := Str(old(plan).value)], now)]
                        && toasts == old(toasts) && navigations == old(navigations) + [CheckoutRoute(old(plan).value)]
                      else
                        db.users == old(db.users) && toasts == old(toasts) + [SIGN_IN_FAILED_TOAST] && navigations == old(navigations)
                    else
                      && db.users == old(db.users)
                      && if old(db.reachable) then
                           toasts == old(toasts)
                           && navigations == old(navigations) + [PendingPlanRoute(
                                if uid in old(db.users) then Get(old(db.users)[uid], PendingPlan) else Null)]
                         else
                           toasts == old(toasts) + [SIGN_IN_FAILED_TOAST] && navigations == old(navigations))
      ensures email == old(email) && password == old(password) && confirmPassword == old(confirmPassword)
      ensures plan == old(plan) && checkingEmail == old(checkingEmail)
      ensures db.preReg == old(db.preReg) && db.reachable == old(db.reachable)
    {
      if password == "" {
        toasts := toasts + ["Please enter your password"];
        return;
      }
      loading := true;
      if signIn.Err? {
        var (toast, toSignup) := SignInFailure(signIn.fault.code);
        if toSignup {
          authStep := SignupStep;
        }
        toasts := toasts + [toast];
        loading := false;
        return;
      }
      var uid := signIn.value;
      var isPaid := UserProfile.CheckUserPaidStatus(db, uid);
      if isPaid {
        navigations := navigations + ["/dashboard"];
      } else if Present(plan) {
        var written := UserProfile.SetPendingPlan(db, uid, plan.value, now);
        if written.Raised? {
          toasts := toasts + [SIGN_IN_FAILED_TOAST];
        } else {
          navigations := navigations + [CheckoutRoute(plan.value)];
        }
      } else {
        var profile := UserProfile.GetUserProfile(db, uid);
        if profile.Err? {
          toasts := toasts + [SIGN_IN_FAILED_TOAST];
        } else {
          var pending := if profile.value.Some? then Get(profile.value.value, PendingPlan) else Null;
          navigations := navigations + [PendingPlanRoute(pending)];
        }
      }
      loading := false;
    }

    /**
     * `handleSignUp`: the form checks come first; after the account is created the plan is
     * pre-registered (ignoring the outcome), the profile is written and the page routes on.
     */
    method HandleSignUp(db: Firestore, hash: string -> string, createUser: Result<string>, now: int)
      modifies this, db
      ensures SignUpProblem(old(password), old(confirmPassword)).Some? ==>
                && toasts == old(toasts) + [SignUpProblem(old(password), old(confirmPassword)).value]
                && navigations == old(navigations) && db.users == old(db.users) && db.preReg == old(db.preReg)
                && authStep == old(authStep) && loading == old(loading)
      ensures SignUpProblem(old(password), old(confirmPassword)).None? && createUser.Err? ==>
                var (toast, toLogin) := SignUpFailure(createUser.fault.code);
                && toasts == old(toasts) + [toast] && navigations == old(navigations)
                && db.users == old(db.users) && db.preReg == old(db.preReg)
                && authStep == (if toLogin then LoginStep else old(authStep)) && !loading
      ensures SignUpProblem(old(password), old(confirmPassword)).None? && createUser.Ok? ==>
                var uid := createUser.value;
                var profilePlan := if Present(old(plan)) then old(plan) else None;
                && authStep == old(authStep) && !loading
                && db.preReg == SignUpPreRegistration(old(db.preReg), old(db.reachable), hash, old(email), old(plan), now)
                && if old(db.reachable) then
                     && db.users == old(db.users)[uid := UserProfile.NewProfile(old(email), profilePlan, now)]
                     && toasts == old(toasts)
                     && navigations == old(navigations) + [if Present(old(plan)) then CheckoutRoute(old(plan).value) else "/plans"]
                   else
                     db.users == old(db.users) && toasts == old(toasts) + [SIGN_UP_FAILED_TOAST] && navigations == old(navigations)
      ensures email == old(email) && password == old(password) && confirmPassword == old(confirmPassword) && plan == old(plan)
      ensures checkingEmail == old(checkingEmail) && db.reachable == old(db.reachable)
    {
      var problem := SignUpProblem(password, confirmPassword);
      if problem.Some? {
        toasts := toasts + [problem.value];
        return;
      }
      loading := true;
      if createUser.Err? {
        var (toast, toLogin) := SignUpFailure(createUser.fault.code);
        if toLogin {
          authStep := LoginStep;
        }
        toasts := toasts + [toast];
        loading := false;
        return;
      }
      var uid := createUser.value;
      ghost var preReg0 := db.preReg;
      if Present(plan) {
        // the response is not inspected; a failed request is only logged
        var ignored := PreRegistration.Post(db, hash, Some(PreRegistration.PostRequest(Some(email), plan)), now);
      }
      assert db.preReg == SignUpPreRegistration(preReg0, db.reachable, hash, email, plan, now);
      var created := UserProfile.CreateUserProfile(db, uid, email, if Present(plan) then plan else None, now);
      if created.Raised? {
        toasts := toasts + [SIGN_UP_FAILED_TOAST];
      } else if Present(plan) {
        navigations := navigations + [CheckoutRoute(plan.value)];
      } else {
        navigations := navigations + ["/plans"];
      }
      loading := false;
    }

    /** `handleForgotPassword`: needs an email; the toast reports whether the reset email was sent. */
    method HandleForgotPassword(reset: Outcome)
      modifies this
      ensures toasts == old(toasts) + [if Text.Blank(email) then "Enter your email first."
                                       else if reset.Done? then "Password reset sent. Check your inbox."
                                       else "Could not send reset email. Double-check the address."]
      ensures email == old(email) && password == old(password) && confirmPassword == old(confirmPassword)
      ensures plan == old(plan) && authStep == old(authStep) && loading == old(loading)
      ensures checkingEmail == old(checkingEmail) && navigations == old(navigations)
    {
      if Text.Blank(email) {
        toasts := toasts + ["Enter your email first."];
      } else if reset.Done? {
        toasts := toasts + ["Password reset sent. Check your inbox."];
      } else {
        toasts := toasts + ["Could not send reset email. Double-check the address."];
      }
    }
  }
}
