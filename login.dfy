/** The e-mail and password login form (src/components/login.tsx). */
module LoginForm {
  import opened Wrappers
  import S = SupabaseAuth
  import U = UserContext

  /** The two inputs of the form, by their `name` attribute. */
  datatype InputName = EmailInput | PasswordInput

  const FILL_ALL_FIELDS := "Please fill in all fields"
  const INVALID_EMAIL := "Please enter a valid email address"
  const LOGIN_FAILED := "Login failed. Please check your credentials and try again."
  const DASHBOARD := "/dashboard"

  /**
   * The form's own checks, in order: both fields filled in, then an `@` in the e-mail.
   * `None` means the credentials go to `signIn`.
   */
  function Validate(email: string, password: string): (problem: Option<string>)
    ensures problem.None? <==> email != "" && password != "" && '@' in email
    ensures (email == "" || password == "") ==> problem == Some(FILL_ALL_FIELDS)
    ensures email != "" && password != "" && '@' !in email ==> problem == Some(INVALID_EMAIL)
  {
    if email == "" || password == "" then Some(FILL_ALL_FIELDS)
    else if '@' !in email then Some(INVALID_EMAIL)
    else None
  }

  /** The message shown for a failed sign-in: the error's own message, or the fallback when it has none. */
  function FailureMessage(f: Fault): (m: string)
    ensures m != ""
    ensures f.message != "" ==> m == f.message
  {
    if f.message != "" then f.message else LOGIN_FAILED
  }

  /** The state of `Login`. */
  class Form {
    var email: string
    var password: string
    var isSubmitting: bool
    var error: string
    var navigations: seq<string>

    constructor ()
      ensures email == "" && password == "" && !isSubmitting && error == "" && navigations == []
    {
      email := "";
      password := "";
      isSubmitting := false;
      error := "";
      navigations := [];
    }

    /** `handleInputChange`: the named field takes the typed value, the other is kept, and any error is cleared. */
    method HandleInputChange(name: InputName, value: string)
      modifies this
      ensures email == (if name == EmailInput then value else old(email))
      ensures password == (if name == PasswordInput then value else old(password))
      ensures error == ""
      ensures isSubmitting == old(isSubmitting) && navigations == old(navigations)
    {
      if name == EmailInput {
        email := value;
      } else {
        password := value;
      }
      if error != "" {
        error := "";
      }
    }

    /**
     * `handleSubmit`: the form's checks first; only valid credentials reach the user context's
     * `signIn` (whose auth-client outcome is `auth`). Success goes to the dashboard, failure shows
     * the error's message. Submission ends on every path.
     */
    method HandleSubmit(provider: U.UserProvider, db: S.Database, auth: Result<string>)
      modifies this, provider
      ensures var problem := Validate(old(email), old(password));
              && (problem.Some? ==> error == problem.value && navigations == old(navigations)
                                    && provider.user == old(provider.user) && provider.error == old(provider.error))
              && (problem.None? ==>
                    var signedIn := auth.Ok? && S.GetUserProfile(db, auth.value).Some?;
                    && (signedIn ==> error == "" && navigations == old(navigations) + [DASHBOARD]
                                     && provider.user == Some(U.FromProfile(db.rows[auth.value]))
                                     && provider.error == old(provider.error))
                    && (!signedIn ==>
                          var fault := if auth.Err? then auth.fault else U.PROFILE_NOT_FOUND;
                          && navigations == old(navigations) && provider.user == old(provider.user)
                          && error == FailureMessage(fault) && provider.error == Some(fault.message)))
      ensures !isSubmitting
      ensures email == old(email) && password == old(password)
      ensures provider.loading == old(provider.loading)
    {
      isSubmitting := true;
      error := "";
      var problem := Validate(email, password);
      if problem.Some? {
        error := problem.value;
        isSubmitting := false;
        return;
      }
      var r := provider.SignIn(db, auth);
      if r.Ok? {
        navigations := navigations + [DASHBOARD];
      } else {
        error := FailureMessage(r.fault);
      }
      isSubmitting := false;
    }
  }
}
