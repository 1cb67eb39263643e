# Subscription and entitlement core of a claim-assistant web application

This project is a Dafny model of the part of a Next.js application that decides who
has paid, what plan they are on, how many claims they may still create and where the user
interface sends them. Its pieces:

- **The payment webhook.** It turns processor events into writes on a user's profile document.
- **The checkout-session endpoint.** It validates the request, creates a processor customer
  only when the profile has none, and builds the session.
- **The test-webhook endpoint.** It simulates the same transitions.
- **Two profile libraries.** One keeps the profile in a document store, with a `paid` flag
  and a `plan`. The other keeps it in a relational table, with `paid_at` and a `tier`.
- **The user context.** It holds the claim quota.
- **The paid-route guard.**
- **The client pages.** These are the auth page, the checkout, plans, success and billing
  pages, the login form, the upsell modal and the demo-capable auth hook. Each makes its
  routing and error decisions from a small input tuple.
- **The pre-registration endpoint.** Its records are keyed by a hash of the lowercased e-mail.
- **The migration script's statement splitter and execution loop.**

Every SDK is replaced by state in Dafny or by a parameter:

- The document store is the class `Store.Firestore`. It holds a `users` map of schemaless
  documents, a `preReg` map, and a `reachable` flag whose `false` makes every call fail.
  `update` on a document is map union (`d + u`) and fails on a missing document. `setDoc`
  replaces the document.
- The relational `users` table is the class `SupabaseAuth.Database`, with typed rows.
- Signature verification, auth lookups, processor customer and session creation, the
  auth client, `fetch` outcomes, the migration RPC and the e-mail hash are all parameters:
  each is its outcome or an uninterpreted function.
- Time is an integer `now` supplied by the caller.
- A React component's state is a class whose fields are its `useState` variables. The routes
  it pushes and the toasts it shows are `seq<string>` logs on that class.

## Model

| member | source | states |
|---|---|---|
| Constants.ParseTier | src/lib/constants.ts:52-55 | a string is a tier exactly when it is "standard" or "pro", and parses back to its own name |
| Constants.TierNameRoundTrip | src/lib/constants.ts:52-55 | each of the two tiers parses back from its name |
| Constants.ClaimLimit | src/lib/constants.ts:57-60 | the limit is the unlimited sentinel -1 exactly for pro; standard is 1; every other limit is positive |
| Constants.UpgradePriceIsDifference | src/lib/constants.ts:46-50 | the upgrade price 30 is the pro price 79 minus the standard price 49 |
| Constants.FormStepsWellFormed | src/lib/constants.ts:6-39 | step ids are pairwise distinct, the last step is "review" with no fields, and every other step has fields |
| StripeWebhook.HandlerStep | src/app/api/stripe/webhook/route.ts:46-179 | an unhandled type, a missing admin store or missing metadata writes nothing; a verified checkout with both metadata fields throws the failed customer lookup's error and otherwise writes the completion update (with the customer's name) to the metadata user; a subscription update or deletion with a metadata user writes its own update to that user |
| StripeWebhook.Perform | src/app/api/stripe/webhook/route.ts:95-114 | a skip returns with no write and an abort throws its error; a write merges its fields into the existing document of its user and returns, and throws "unavailable" or "not found" with nothing written when the store is unreachable or the document is missing; no document is ever added or removed |
| StripeWebhook.HandleCheckoutSessionCompleted | src/app/api/stripe/webhook/route.ts:72-115 | the new documents and the outcome are those of performing the completed-checkout step on the old state; the pre-registration collection is untouched |
| StripeWebhook.HandleSubscriptionUpdated | src/app/api/stripe/webhook/route.ts:117-146 | the new documents and the outcome are those of performing the subscription-updated step |
| StripeWebhook.HandleSubscriptionDeleted | src/app/api/stripe/webhook/route.ts:148-179 | the new documents and the outcome are those of performing the subscription-deleted step, and write errors are rethrown |
| StripeWebhook.Post | src/app/api/stripe/webhook/route.ts:20-70 | 503 when the processor is not configured and 400 "Webhook Error: …" when the signature fails, both with no write; otherwise the handler's step is performed and the reply is `{received: true}` unless the handler threw |
| StripeWebhook.CompletionGrantsAccess | src/app/api/stripe/webhook/route.ts:95-106 | after completion: paid is true, the plan is the session's, pendingPlan is null, both processor ids come from the session, paidAt and updatedAt are now, the name is set only when the customer has one, and every other field is unchanged |
| StripeWebhook.CompletionReplayIsStable | src/app/api/stripe/webhook/route.ts:95-106 | replaying a completion changes only paidAt and updatedAt |
| StripeWebhook.StepIgnoresTimeExceptStamps | src/app/api/stripe/webhook/route.ts:46-179 | the same event handled at two times takes the same step on the same user with the same fields, except the time stamps |
| StripeWebhook.SecondUpdateKeepsFields | src/app/api/stripe/webhook/route.ts:95-106 | a second update that agrees with the first except on time stamps leaves every other field as the first left it |
| StripeWebhook.RedeliveryIsStable | src/app/api/stripe/webhook/route.ts:46-179 | delivering a verified event twice leaves every document's fields, except the time stamps, as the first delivery left them |
| StripeWebhook.SubscriptionUpdateKeepsEntitlement | src/app/api/stripe/webhook/route.ts:134-138 | a subscription update sets only the subscription id, its status and updatedAt; paid, plan and pendingPlan stay |
| StripeWebhook.DeletionRevokesAccess | src/app/api/stripe/webhook/route.ts:165-171 | a deletion sets paid false, plan null, status "cancelled" and cancelledAt, and keeps paidAt and both processor ids |
| StripeWebhook.VerifiedCompletionPays | src/app/api/stripe/webhook/route.ts:46-115 | a verified checkout with metadata on a stored user returns and leaves that user paid on the session's plan with paidAt now, the session's customer and no pending plan, other users untouched; an unreachable store or a missing document is rethrown with nothing written |
| StripeWebhook.FailedLookupWritesNothing | src/app/api/stripe/webhook/route.ts:87-114 | a failed customer lookup throws its own error and writes nothing |
| StripeWebhook.VerifiedUpdateKeepsEntitlement | src/app/api/stripe/webhook/route.ts:117-146 | a subscription update on a stored user returns, sets its subscription id and status and keeps every entitlement field; other users are untouched |
| StripeWebhook.VerifiedDeletionRevokes | src/app/api/stripe/webhook/route.ts:148-179 | a deletion on a stored user returns and leaves it unpaid, planless and "cancelled" with paidAt kept, other users untouched; otherwise the write error is rethrown and nothing changes |
| UserProfile.InitialPendingPlan | src/lib/userProfile.ts:20 | the pending plan is the given plan exactly when it is "standard" or "pro", else null |
| UserProfile.NewProfile | src/lib/userProfile.ts:18-26 | a new profile has exactly the seven written fields, is unpaid, and has a null paidAt and a null customer id |
| UserProfile.CreateUserProfile | src/lib/userProfile.ts:16-34 | the document is replaced by the new profile when the store is reachable; afterwards the user reads unpaid with the initial pending plan |
| UserProfile.GetUserProfile | src/lib/userProfile.ts:36-47 | a read error propagates; otherwise the result is the stored document, or null when there is none |
| UserProfile.UpdateUserProfile | src/lib/userProfile.ts:49-62 | an existing document gains the supplied fields and a new updatedAt; a missing one or a store failure changes nothing |
| UserProfile.UpdateTouchesOnlySupplied | src/lib/userProfile.ts:49-56 | after an update, unsupplied fields keep their values, supplied ones take the new values, and updatedAt is now |
| UserProfile.SetPendingPlan | src/lib/userProfile.ts:64-66 | only pendingPlan (and updatedAt) changes, and it then reads back as the plan |
| UserProfile.MarkUserAsPaid | src/lib/userProfile.ts:68-76 | after success, the paid check is true, the pending plan is null and the plan reads back as the tier's name |
| UserProfile.CheckUserPaidStatus | src/lib/userProfile.ts:78-86 | true exactly when the store is reachable, the document exists and its paid field is exactly true |
| UserProfile.GetUserPlan | src/lib/userProfile.ts:88-96 | the stored plan when it is truthy, and null when it is absent or the read fails |
| UserProfile.GetPendingPlan | src/lib/userProfile.ts:98-106 | the stored pending plan when it is truthy, and null when it is absent or the read fails |
| SupabaseAuth.ApplyPatch | src/lib/supabase-auth.ts:82-92 | a patch never changes the id, the e-mail or the time stamps, and the empty patch changes nothing |
| SupabaseAuth.NewRow | src/lib/supabase-auth.ts:26-39 | a new row is standard with 0 claims used and 1 remaining, its name as given or null, and no payment fields |
| SupabaseAuth.SignUp | src/lib/supabase-auth.ts:17-44 | an auth error or a missing user throws before any insert; otherwise the new row is inserted unless the table fails or the id is taken |
| SupabaseAuth.GetUserProfile | src/lib/supabase-auth.ts:67-80 | the row when the table is reachable and holds the id, else null for any error |
| SupabaseAuth.UpdateUserProfile | src/lib/supabase-auth.ts:82-92 | succeeds exactly for an existing row, which then becomes the patched row; other rows are untouched |
| SupabaseAuth.SetPendingPlan | src/lib/supabase-auth.ts:94-96 | only pending_plan changes, to the plan's name |
| SupabaseAuth.CheckUserPaidStatus | src/lib/supabase-auth.ts:98-101 | as written: true when the profile cannot be read, or when paid_at is set |
| SupabaseAuth.MissingProfileReadsAsPaid | src/lib/supabase-auth.ts:74-77 | for an unreadable or missing profile, the check as written says paid and the intended check says unpaid |
| SupabaseAuth.CheckUserPaidStatusIntended | src/lib/supabase-auth.ts:98-101 | true exactly when the row is readable and paid_at is set; it implies the check as written |
| SupabaseAuth.PaidChecksAgreeOnReadableProfiles | src/lib/supabase-auth.ts:98-101 | on a readable row, the check as written and the intended check agree |
| SupabaseAuth.MarkUserAsPaid | src/lib/supabase-auth.ts:103-121 | succeeds exactly for an existing row; sets the tier, paid_at, pending_plan null, claims_remaining 1 for standard and -1 for pro, and the customer id only when supplied, and keeps every other column; afterwards the user reads paid with that plan |
| SupabaseAuth.GetUserPlan | src/lib/supabase-auth.ts:123-126 | the row's tier, or null when there is no readable profile |
| UserContext.FromProfile | src/contexts/UserContext.tsx:145-155 | the user takes the row's id, e-mail, tier and counts, `name \|\| ''`, time zone UTC and no focus areas |
| UserContext.CanCreateClaim | src/contexts/UserContext.tsx:98-102 | false without a user, true for pro, and for standard exactly when fewer than 1 claim has been used |
| UserContext.RemainingClaims | src/contexts/UserContext.tsx:130-134 | 0 without a user, -1 for pro, otherwise what is left of the limit and never negative |
| UserContext.CanCreateIffClaimsRemain | src/contexts/UserContext.tsx:98-134 | a claim can be created exactly when the remaining count is not 0 |
| UserContext.Incremented | src/contexts/UserContext.tsx:107-116 | one more claim used, even past the limit; remaining is -1 for pro, else `max(0, limit - used)`; no other field changes |
| UserContext.IncrementAgreesWithRemaining | src/contexts/UserContext.tsx:107-134 | the remaining count that incrementing stores equals what getRemainingClaims then reports |
| UserContext.IncrementedTimesCounts | src/contexts/UserContext.tsx:104-134 | after n claims the count has grown by exactly n, the stored remaining count agrees with getRemainingClaims, and a standard user can claim no more |
| UserContext.UserProvider.constructor | src/contexts/UserContext.tsx:37-39 | no user, loading, no error |
| UserContext.UserProvider.InitializeUser | src/contexts/UserContext.tsx:41-68 | the session user's readable profile becomes the user; a session read that throws records "Failed to initialize user"; loading ends either way |
| UserContext.UserProvider.AuthStateChanged | src/contexts/UserContext.tsx:72-91 | a session with a readable profile replaces the user, and no session clears it |
| UserContext.UserProvider.IncrementClaimCount | src/contexts/UserContext.tsx:104-128 | no user changes nothing; otherwise the local user is incremented first, and the counts are then persisted to an existing row, where a failure is only logged |
| UserContext.UserProvider.SignIn | src/contexts/UserContext.tsx:136-163 | succeeds exactly when the auth client succeeds and the profile is readable, giving the profile's user; otherwise it records and rethrows the auth error or "User profile not found" |
| UserContext.UserProvider.SignUp | src/contexts/UserContext.tsx:165-192 | succeeds exactly when the account is created and its row inserted; the user is the standard row read back, whatever the requested tier, and the recorded error is left as it was; a failure records the message |
| UserContext.UserProvider.SignOut | src/contexts/UserContext.tsx:194-202 | the user is cleared only when the auth client signs out; an error is recorded and rethrown |
| CheckoutSession.PriceFor | src/app/api/create-checkout-session/route.ts:17-20 | only "standard" and "pro" can have a price id |
| CheckoutSession.SessionParamsCarryIdentity | src/app/api/create-checkout-session/route.ts:119-145 | a subscription-mode session with one line item of the plan's price; both metadata objects carry the user id and plan; the cancel URL embeds the plan |
| CheckoutSession.Gate | src/app/api/create-checkout-session/route.ts:26-81 | in order: 503 unconfigured, 500 unreadable body, 400 missing parameters, 400 invalid plan, 503 no admin store, 401 on an e-mail mismatch or a failed lookup; it passes exactly when every check passes |
| CheckoutSession.PersistedCustomerIsReused | src/app/api/create-checkout-session/route.ts:84-106 | once a customer id is persisted, the next request reuses it instead of creating one |
| CheckoutSession.CustomerUpdateKeepsEntitlement | src/app/api/create-checkout-session/route.ts:102-105 | the customer write changes only stripeCustomerId and updatedAt |
| CheckoutSession.Post | src/app/api/create-checkout-session/route.ts:26-159 | a gate failure is its reply with no request and no write; otherwise a customer is requested exactly when the profile is readable and lacks one; the new id is merged into the stored document exactly when it was created and the document exists, and nothing else is written; a session is requested exactly when the customer step succeeded, built from the stored or new id; the reply is `{id, url}` exactly when the session was created, else 500 |
| CheckoutSession.RepeatedCheckoutReusesCustomer | src/app/api/create-checkout-session/route.ts:84-145 | when a first request creates and persists a customer with a non-empty id, a second identical request requests no customer and opens its session for that id |
| PreRegistration.KeyIgnoresCase | src/app/api/pre-reg/route.ts:25 | e-mails that differ only in letter case share one key |
| PreRegistration.Upserted | src/app/api/pre-reg/route.ts:31-48 | every record written is unused with the lowercased e-mail and the plan; only a new record gets createdAt |
| PreRegistration.Post | src/app/api/pre-reg/route.ts:6-62 | 400 for a missing e-mail or plan or a plan that is not a tier; 200 exactly when the record is written; a store failure is 500 with no write |
| PreRegistration.Get | src/app/api/pre-reg/route.ts:64-110 | 400 without an e-mail, 404 for an unknown key, 500 on a store failure, and otherwise the stored record |
| PreRegistration.GetFindsPosted | src/app/api/pre-reg/route.ts:77-101 | after a post, a lookup with any casing of the e-mail returns the posted plan, unused |
| TestWebhook.TestUpdate | src/app/api/test-webhook/route.ts:18-56 | exactly the three test types produce an update |
| TestWebhook.SimulatedCheckoutMatchesWebhook | src/app/api/test-webhook/route.ts:20-31 | the simulated checkout grants what the real completion grants, and uses the fixed test ids |
| TestWebhook.SimulatedCancellationMatchesWebhook | src/app/api/test-webhook/route.ts:41-50 | the simulated cancellation is the real deletion update |
| TestWebhook.SimulatedUpdateKeepsEntitlement | src/app/api/test-webhook/route.ts:33-39 | the simulated subscription update writes only status "active" and updatedAt |
| TestWebhook.Post | src/app/api/test-webhook/route.ts:5-76 | 400 for missing parameters and for an unknown test type, both with no write; otherwise the update is applied and the document is read back |
| TestWebhook.StatusOf | src/app/api/test-webhook/route.ts:108-119 | each reported field is the stored value when that is truthy, and otherwise false for paid and null for the rest; the raw data is returned |
| TestWebhook.StatusAfterSimulatedEvents | src/app/api/test-webhook/route.ts:20-50 | after a simulated checkout on a named plan the status reads paid on that plan with the test ids and no pending plan; after a simulated cancellation it reads unpaid, planless and "cancelled" with the customer id and paidAt kept |
| TestWebhook.GetStatus | src/app/api/test-webhook/route.ts:79-128 | 400 without a user id, 503 without the admin store, 404 without a document, 500 on a read failure, otherwise the projection |
| PaidRouteGuard.Render | src/components/PaidRouteGuard.tsx:50-97 | loading view exactly while auth loads or the guard checks; children exactly when a user is present and isPaid is true; otherwise the fallback if given, else the restricted panel |
| PaidRouteGuard.Guard.constructor | src/components/PaidRouteGuard.tsx:17-18 | isPaid unknown and checking |
| PaidRouteGuard.Guard.CheckPaidStatus | src/components/PaidRouteGuard.tsx:21-45 | nothing while auth loads; no user pushes /auth and stays checking; an unpaid answer or a query error pushes /plans, and an error leaves isPaid null |
| PaidRouteGuard.MountOnce | src/components/PaidRouteGuard.tsx:20-97 | after one effect, children show exactly when auth has loaded, a user is present and the query said paid; every denial has pushed /plans |
| AuthPage.SignInFailure | src/app/auth/page.tsx:147-165 | wrong-password and user-not-found get their own toasts and only user-not-found switches to sign-up; other codes get the generic toast |
| AuthPage.SignUpFailure | src/app/auth/page.tsx:237-255 | email-already-in-use switches to sign-in; weak-password gets its toast; other codes get the generic toast |
| AuthPage.SignUpProblem | src/app/auth/page.tsx:173-195 | the form passes exactly when the password is present, confirmed and at least 8 characters long; otherwise the first failing check's message, in the page's order |
| AuthPage.PlainPlanRoutesAreVerbatim | src/app/auth/page.tsx:136 | a tier name appears verbatim in the checkout route |
| AuthPage.PendingPlanRoute | src/app/auth/page.tsx:139-144 | a truthy stored pending plan goes to its checkout, else to /plans |
| AuthPage.CheckPreRegistration | src/app/auth/page.tsx:56-69 | the plan of an unused record for the e-mail; nothing for a used, missing or unreadable record |
| AuthPage.AuthForm.constructor | src/app/auth/page.tsx:24-34 | the initial form state |
| AuthPage.AuthForm.InitFromUrl | src/app/auth/page.tsx:37-53 | a URL plan wins, and the remembered plan is used only without one |
| AuthPage.AuthForm.HandleContinue | src/app/auth/page.tsx:72-108 | a blank e-mail only toasts; a pre-registered plan is adopted only when none is set; "password" among the sign-in methods leads to login, else to sign-up; a lookup failure toasts |
| AuthPage.AuthForm.HandleSignIn | src/app/auth/page.tsx:111-169 | a missing password only toasts; paid goes to /dashboard; unpaid with a plan records it as pending and goes to its checkout; else the stored pending plan's checkout; else /plans; failures are mapped by code; the e-mail, both password fields, the plan and the e-mail check are left as they were |
| AuthPage.AuthForm.HandleSignUp | src/app/auth/page.tsx:172-259 | the form checks come first and block creation; after creation the plan is pre-registered exactly when it is a tier name, the e-mail is non-empty and the store is reachable, the profile is written and the page goes to the plan's checkout or /plans, whatever the pre-registration outcome; the form fields and the e-mail check are left as they were |
| AuthPage.AuthForm.HandleForgotPassword | src/app/auth/page.tsx:262-283 | a blank e-mail only toasts; otherwise the toast reports whether the reset was sent |
| CheckoutPage.PlanDetails | src/app/checkout/page.tsx:18-43 | each plan's price is the application's price for that tier |
| CheckoutPage.PlanDetailsAgreeWithPricing | src/app/checkout/page.tsx:18-43 | the two prices differ by the upgrade price; standard lists five features and pro seven |
| CheckoutPage.Page.constructor | src/app/checkout/page.tsx:49-52 | loading, no error, no plan, no session |
| CheckoutPage.Page.CreateCheckoutSession | src/app/checkout/page.tsx:97-124 | nothing without an account or without a plan in the closure's render; an OK answer becomes the session; a failure or a non-OK answer sets the error |
| CheckoutPage.Page.CheckUserStatus | src/app/checkout/page.tsx:75-95 | a paid profile goes to /dashboard with no request; otherwise the render's session request runs; a read failure sets the error; loading ends |
| CheckoutPage.Page.Mount | src/app/checkout/page.tsx:54-73 | an invalid plan sets "Invalid plan selected" with no redirect and no request; no account goes to /auth with the session untouched; otherwise the status is checked, and a session is requested only when the plan was already set before this run |
| CheckoutPage.Page.HandleCheckout | src/app/checkout/page.tsx:126-130 | the browser leaves only for a session with a URL |
| CheckoutPage.MountSignedIn | src/app/checkout/page.tsx:54-99 | a page first rendered with an unpaid account already signed in requests no session, shows no error and stops loading, because that render's plan is null |
| CheckoutPage.MountThenSignIn | src/app/checkout/page.tsx:54-124 | a page whose effect first runs without an account and again once an unpaid account signs in goes to /auth once, then keeps the endpoint's session or shows the session error |
| CheckoutPage.SessionRequestPassesGate | src/app/checkout/page.tsx:101-111 | the body the page sends passes every check of the session endpoint |
| PlansPage.PlansAgreeWithCheckout | src/app/plans/page.tsx:20-48 | exactly two plans, only pro recommended, each with the checkout page's price and features |
| PlansPage.LocalStorage.constructor | src/app/plans/page.tsx:58 | the remembered plan as given |
| PlansPage.Page.constructor | src/app/plans/page.tsx:53-54 | no selection and not loading |
| PlansPage.Page.HandlePlanSelect | src/app/plans/page.tsx:56-88 | the choice is always remembered first; it is pre-registered for an account with an e-mail exactly when the store is reachable, and never without one; no account goes to sign-in with the plan, leaving loading alone; otherwise selected, loading and to checkout |
| SuccessPage.Page.constructor | src/app/success/page.tsx:17-19 | loading, no error, no profile |
| SuccessPage.Page.CheckUserStatus | src/app/success/page.tsx:39-63 | one read; only an unpaid profile schedules the re-check; a read failure sets "Failed to verify payment status"; loading ends on every path |
| SuccessPage.Page.RecheckFired | src/app/success/page.tsx:48-55 | a second read; still unpaid sets the "taking longer" error |
| SuccessPage.Page.Mount | src/app/success/page.tsx:21-37 | no session id sets "Invalid session" and reads nothing; no account goes to /auth; otherwise one read as in `CheckUserStatus`; the held profile changes only on a successful read |
| SuccessPage.Arrive | src/app/success/page.tsx:21-63 | paid at once means one read and no error; else exactly one more read, with an error only if it is still unpaid |
| LoginForm.Validate | src/components/login.tsx:41-52 | passes exactly when both fields are filled and the e-mail has an "@"; emptiness is reported first |
| LoginForm.FailureMessage | src/components/login.tsx:59 | the error's own message when it has one, else the fallback text |
| LoginForm.Form.constructor | src/components/login.tsx:16-22 | empty fields, not submitting, no error |
| LoginForm.Form.HandleInputChange | src/components/login.tsx:26-34 | only the named field changes, and the error is cleared |
| LoginForm.Form.HandleSubmit | src/components/login.tsx:36-63 | a validation problem is shown without signing in; otherwise success goes to /dashboard with the profile's user and failure shows its message, which the context also records; a success leaves the context's error as it was; submission ends on every path |
| FirebaseAuthHook.IsDemo | src/hooks/useFirebaseAuth.ts:22-23 | demo mode exactly when the API key is absent, empty or "demo-key" |
| FirebaseAuthHook.InitialRemaining | src/hooks/useFirebaseAuth.ts:135 | the remaining count a new user starts with is the tier's claim limit |
| FirebaseAuthHook.DemoSignInUser | src/hooks/useFirebaseAuth.ts:56-66 | the demo user: the demo id, the e-mail's text before "@" as its name, standard, 0 used and 1 remaining |
| FirebaseAuthHook.MissingDocUser | src/hooks/useFirebaseAuth.ts:89-99 | without a stored document, the demo defaults under the real uid |
| FirebaseAuthHook.StringOr | src/hooks/useFirebaseAuth.ts:77-78 | `value \|\| default` for text: an empty or missing value takes the default |
| FirebaseAuthHook.NumberOr | src/hooks/useFirebaseAuth.ts:80-81 | `value \|\| default` for numbers: 0 or a missing value takes the default |
| FirebaseAuthHook.StoredTier | src/hooks/useFirebaseAuth.ts:79 | pro exactly when the stored tier is "pro" |
| FirebaseAuthHook.StoredSignInUser | src/hooks/useFirebaseAuth.ts:72-86 | the stored user with its defaults; remaining is never 0, and a stored 0 reads as 1 |
| FirebaseAuthHook.SignUpDoc | src/hooks/useFirebaseAuth.ts:129-140 | exactly the ten written fields, with 0 used and the tier's limit remaining |
| FirebaseAuthHook.SignUpUser | src/hooks/useFirebaseAuth.ts:144-154 | the returned user has 0 used and the tier's limit remaining |
| FirebaseAuthHook.SignUpReadsBack | src/hooks/useFirebaseAuth.ts:129-154 | the written document has a readable created_at, and signing in later on it returns the user that sign-up returned |
| FirebaseAuthHook.ZeroRemainingReadsAsOne | src/hooks/useFirebaseAuth.ts:81 | a document whose remaining count is 0 signs in with 1 remaining |
| FirebaseAuthHook.Hook.constructor | src/hooks/useFirebaseAuth.ts:15-18 | no user, loading, no error, not demo |
| FirebaseAuthHook.Hook.Mount | src/hooks/useFirebaseAuth.ts:20-31 | demo mode is decided from the key; demo stops loading and installs no listener |
| FirebaseAuthHook.Hook.AuthStateChanged | src/hooks/useFirebaseAuth.ts:32-44 | the account becomes the auth user and loading ends, unless the document read throws |
| FirebaseAuthHook.Hook.SignIn | src/hooks/useFirebaseAuth.ts:49-104 | demo gives the demo user; an auth or read error is recorded and rethrown; a stored created_at that is neither null nor a timestamp throws the TypeError of calling toDate; otherwise the stored user, or the defaults when there is no document |
| FirebaseAuthHook.Hook.SignUp | src/hooks/useFirebaseAuth.ts:106-159 | demo writes nothing; otherwise the new document is written and the matching user returned; an error is recorded and rethrown |
| FirebaseAuthHook.Hook.SignOut | src/hooks/useFirebaseAuth.ts:161-174 | demo always clears the user; otherwise it is cleared only when the auth client signs out |
| UpsellModal.IsProTier | src/components/UpsellModal.tsx:19 | pro exactly for a present pro user |
| UpsellModal.ModalRemainingClaims | src/components/UpsellModal.tsx:20 | 0 without a user, -1 for pro, never otherwise negative |
| UpsellModal.ModalAgreesWithContext | src/components/UpsellModal.tsx:20 | the modal's own formula equals the user context's remaining count, because the standard limit is 1 |
| UpsellModal.LimitReachedShowsNoneRemaining | src/components/UpsellModal.tsx:20 | a user who cannot create a claim sees 0 remaining |
| UpsellModal.Render | src/components/UpsellModal.tsx:26-95 | purchase is disabled exactly for pro and the upgrade block shows exactly for non-pro, with the titles, labels and upgrade price the modal shows |
| Billing.PlanName | src/app/billing/BillingContent.tsx:59-61 | "Pro" exactly when the profile's plan is "pro"; "Standard" otherwise, a missing profile included |
| Billing.NextBillingDate | src/app/billing/BillingContent.tsx:158-163 | not available exactly when there is no paidAt; otherwise paidAt plus 30 days in milliseconds |
| Billing.MarkedPaidProfileShows | src/app/billing/BillingContent.tsx:59-163 | a profile marked paid shows its plan, and a next billing date 30 days after payment |
| Billing.CancelledProfileOffersUpgrade | src/app/billing/BillingContent.tsx:59-163 | a cancelled profile is not pro, so it offers the upgrade, and keeps its billing date |
| Billing.Page.constructor | src/app/billing/BillingContent.tsx:22-23 | no profile, loading |
| Billing.Page.LoadProfile | src/app/billing/BillingContent.tsx:25-44 | without a user nothing happens and loading stays; otherwise the read replaces the profile, or a failure toasts and leaves it; loading ends |
| Billing.Page.HandleUpgrade | src/app/billing/BillingContent.tsx:63-66 | the browser location becomes /checkout?plan=pro; nothing else changes |
| Text.Lower | src/app/api/pre-reg/route.ts:25 | lowercases each character and leaves no upper-case letter |
| Text.LowerIdentifiesCase | src/app/api/pre-reg/route.ts:25 | two strings lowercase alike exactly when they differ only in letter case |
| Text.LowerIdempotent | src/app/api/pre-reg/route.ts:25 | lowercasing twice is lowercasing once |
| Text.TrimIsSlice | scripts/apply-migration.ts:19 | the trimmed string is a contiguous slice whose first and last characters are not white space |
| Text.TrimEmptyIffBlank | scripts/apply-migration.ts:19 | trimming gives the empty string exactly for an all-white-space input |
| Text.TrimIdempotent | scripts/apply-migration.ts:19 | trimming twice is trimming once |
| Text.TrimKeepsCharacters | scripts/apply-migration.ts:19 | trimming introduces no character |
| Text.BeforeAt | src/hooks/useFirebaseAuth.ts:58 | the prefix up to the first "@", which it does not contain |
| Text.EncodeURIComponent | src/app/auth/page.tsx:136 | a string of unreserved characters is unchanged, and encoding never shortens |
| Migration.Split | scripts/apply-migration.ts:18 | at least one piece, and no piece contains ";" |
| Migration.JoinSplit | scripts/apply-migration.ts:18 | rejoining the pieces with ";" gives back the input |
| Migration.SplitJoin | scripts/apply-migration.ts:18 | splitting a join of ";"-free pieces gives back the pieces |
| Migration.SplitWithoutSeparator | scripts/apply-migration.ts:18 | text without ";" is a single piece |
| Migration.PipelineExecutable | scripts/apply-migration.ts:17-20 | every statement the pipeline produces is trimmed and non-empty, has no ";", and opens neither kind of comment |
| Migration.StatementsExecutable | scripts/apply-migration.ts:17-20 | the same for the statements of a migration file |
| Migration.PipelineAppend | scripts/apply-migration.ts:17-20 | the pipeline maps the pieces one by one, keeping their order |
| Migration.PipelineSingle | scripts/apply-migration.ts:19-20 | one piece contributes its trimmed text, and only when it is kept |
| Migration.PieceContributes | scripts/apply-migration.ts:17-20 | every piece whose trimmed text is kept appears among the statements |
| Migration.CommentLedPieceDropped | scripts/apply-migration.ts:20 | a piece that opens with a comment is dropped even when SQL follows it |
| Migration.ExecuteAll | scripts/apply-migration.ts:22-31 | each statement is sent exactly once, in order, with ";" re-appended, and every returned or thrown error is logged without stopping |
| Migration.ApplyMigration | scripts/apply-migration.ts:10-34 | the queries sent are the file's statements with ";" re-appended, and the log is "applying", the errors, then "completed" |
| Migration.SentQueriesHoldOneSemicolon | scripts/apply-migration.ts:22-24 | every query sent holds exactly one ";", at its end |

## Left out

- The SDK internals of the document store, the relational client, the auth client and the
  payment processor. Each call is a parameter holding its outcome, or a `reachable` flag on the
  store. Signature verification is the `Verification` value it produced, the SHA-256 e-mail
  hash is an uninterpreted `string -> string`, and HMAC is not modelled.
- React rendering, JSX and styling. Effect scheduling and Suspense are also left out: each
  handler runs to completion on the state it is given. The one stale closure that changes an
  outcome, the checkout page's session request, is modelled by the plan of its render. The success
  page's `setTimeout` is the separate method `SuccessPage.Page.RecheckFired`.
- Concurrency between webhook deliveries and client reads: only sequences of operations are
  modelled.
- Wall-clock time, `serverTimestamp()`, `toISOString` and `toLocaleDateString`: a time is the
  integer `now` supplied by the caller. The browser's time zone (`Intl`) is a parameter.
- `toLowerCase` lowers only ASCII letters, and strings are sequences of code points rather
  than of UTF-16 units.
- `encodeURIComponent` of the pre-registration lookup URL is taken as the identity: the
  endpoint sees the e-mail the page holds.
- The `name`, `pip_focus` and `timezone` form fields and `FORM_STEPS` field types are kept
  only as far as their ids and field names.
- A key such as `constructor` inherited by the price and plan tables is treated as absent,
  and malformed JSON bodies are modelled only as a missing request body.
- `SupabaseAuth.Patch` has no `id`, `email`, `created_at` or `updated_at` column, so no
  patch can change them. The source's `Partial<UserProfile>` allows them, but every caller
  passes only the columns the model has.
- A JSON body field that is present but not a string (a number as the e-mail, say) is read
  as missing, in the checkout, pre-registration and test-webhook requests. The source would
  pass it on: a numeric e-mail then fails the 401 comparison instead of the 400 check.
- The Supabase `signIn`, `signOut` and `getCurrentUser` functions only forward the auth
  client's result: they are the auth outcome parameters of `UserContext`.
- `PaidRouteGuard`, `BillingContent` and the dashboard read `user.uid` from a user-context
  value whose field is `id`. The model takes the uid, the paid answer or the profile read as
  an input instead.
- `Billing.NextBillingDate`: a stored time stamp is read as milliseconds. The conversion of
  a store `Timestamp` through `new Date` is not modelled, and any other truthy value is an
  invalid date.
- `Billing.Page`: `handleManageSubscription`, the payment-method toast and the static
  comparison table only show fixed text and are not modelled.
- `FirebaseAuthHook.StoredTier`: a stored tier other than "pro" reads as standard. The source
  passes the foreign string through a cast.
- `FirebaseAuthHook.StoredSignInUser`: a stored count, list, name, e-mail or time zone of
  the wrong type takes the default. The source passes a truthy non-string name, e-mail or time
  zone through unchanged, which the model's `string` fields cannot hold. A stored `created_at`
  that is not a timestamp is modelled: `Hook.SignIn` then fails with the `TypeError`.
- `FirebaseAuthHook.Hook.AuthStateChanged`: the stored document is read only to be logged,
  so its content is not modelled.
- `SuccessPage.Page.RecheckFired`: a failed second read is an unhandled rejection inside the
  timer, so it changes nothing.
- The migration script's file read, environment-driven client creation and console output
  are modelled as the log entries of `Migration.ApplyMigration`.
- The dashboard content, the landing components, the demo and environment-check pages and
  the route wrappers are presentation or composition around the guard.
- The simple test-webhook route returns fixed mock objects, and the webhook test script
  wraps an HMAC call.
- The Firebase client and admin initialisation depends on the environment.
- Where the specification and the code disagree on `customer.subscription.deleted`, the
  model follows the code. The specification says it sets the tier to standard and clears
  paidAt and the subscription id. The code sets `paid` false and `plan` null, and keeps
  paidAt and `stripeSubscriptionId` (`StripeWebhook.DeletionRevokesAccess`).

## Findings

| source | as written | input that shows it | evidently intended | confidence | as-written member | corrected member |
|---|---|---|---|---|---|---|
| src/lib/supabase-auth.ts:98-101 | `profile?.paid_at !== null` is true when `getUserProfile` returns null on an error or a missing row, because `undefined !== null` | a user id with no row, or any query error | a missing or unreadable profile is unpaid | not executed | SupabaseAuth.CheckUserPaidStatus (shown by SupabaseAuth.MissingProfileReadsAsPaid) | SupabaseAuth.CheckUserPaidStatusIntended (agreement on readable rows by SupabaseAuth.PaidChecksAgreeOnReadableProfiles) |
