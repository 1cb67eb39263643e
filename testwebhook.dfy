/** The development endpoint that simulates processor events (src/app/api/test-webhook/route.ts). */
module TestWebhook {
  import opened Wrappers
  import opened Store
  import StripeWebhook

  /** The JSON body of a POST; a field that is missing or not a string is `None`. */
  datatype TestRequest = TestRequest(userId: Option<string>, plan: Option<string>, testType: Option<string>)

  /** The fields of the GET response after `success` and `userId`. */
  datatype Status = Status(
    paid: Value, plan: Value, subscriptionStatus: Value, stripeCustomerId: Value,
    stripeSubscriptionId: Value, paidAt: Value, pendingPlan: Value, userData: Doc)

  /** A JSON response body. */
  datatype Body =
    | ErrorBody(error: string)
    | Failure(error: string, details: string)
    | Simulated(message: string, userData: Option<Doc>)
    | UserStatus(userId: string, status: Status)

  /** An HTTP response. */
  datatype Response = Reply(status: int, body: Body)

  const TEST_CUSTOMER_ID: string := "test_customer_123"
  const TEST_SUBSCRIPTION_ID: string := "test_subscription_123"

  /** The message of the `TypeError` thrown by `adminDb.collection` when there is no admin store. */
  const NO_ADMIN_MESSAGE: string := "Cannot read properties of null (reading 'collection')"

  /** The fields each simulated event writes; `None` for an unknown test type. */
  function TestUpdate(testType: Option<string>, plan: string, now: int): (u: Option<Doc>)
    ensures u.Some? <==> testType in {Some("checkout_completed"), Some("subscription_updated"), Some("subscription_cancelled")}
  {
    if testType == Some("checkout_completed") then
      Some(map[Paid := Bool(true), Plan := Str(plan), StripeCustomerId := Str(TEST_CUSTOMER_ID),
               StripeSubscriptionId := Str(TEST_SUBSCRIPTION_ID), PaidAt := Time(now), PendingPlan := Null,
               UpdatedAt := Time(now)])
    else if testType == Some("subscription_updated") then
      Some(map[SubscriptionStatus := Str("active"), UpdatedAt := Time(now)])
    else if testType == Some("subscription_cancelled") then
      Some(map[Paid := Bool(false), Plan := Null, SubscriptionStatus := Str("cancelled"),
               CancelledAt := Time(now), UpdatedAt := Time(now)])
    else None
  }

  /** A simulated completed checkout writes exactly what the real one writes for a nameless customer with the test ids. */
  lemma SimulatedCheckoutMatchesWebhook(plan: string, now: int)
    ensures TestUpdate(Some("checkout_completed"), plan, now)
            == Some(StripeWebhook.CompletedUpdate(
                      plan, StripeWebhook.Session(None, None, Some(TEST_CUSTOMER_ID), Some(TEST_SUBSCRIPTION_ID)), None, now))
  {
    var written := TestUpdate(Some("checkout_completed"), plan, now).value;
    var actual := StripeWebhook.CompletedUpdate(
                  plan, StripeWebhook.Session(None, None, Some(TEST_CUSTOMER_ID), Some(TEST_SUBSCRIPTION_ID)), None, now);
    assert actual.Keys == written.Keys;
    assert forall f :: f in actual ==> actual[f] == written[f];
    assert actual == written;
  }

  /** A simulated cancellation writes exactly what a real subscription deletion writes. */
  lemma SimulatedCancellationMatchesWebhook(plan: string, now: int)
    ensures TestUpdate(Some("subscription_cancelled"), plan, now) == Some(StripeWebhook.SubscriptionDeletedUpdate(now))
  {
  }

  /** A simulated subscription update only marks the subscription active: entitlement fields are untouched. */
  lemma SimulatedUpdateKeepsEntitlement(d: Doc, plan: string, now: int)
    ensures var d' := d + TestUpdate(Some("subscription_updated"), plan, now).value;
            && Get(d', SubscriptionStatus) == Str("active")
            && forall f :: f != SubscriptionStatus && f != UpdatedAt ==> Get(d', f) == Get(d, f)
  {
  }

  /**
   * `POST`: validates the body, applies the simulated event's update and answers with the
   * re-read document; any exception answers 500 with its message. `body` is `Err` when the
   * body is not JSON.
   */
  method Post(db: Firestore, adminAvailable: bool, body: Result<TestRequest>, now: int) returns (resp: Response)
    modifies db
    ensures body.Err? ==> resp == Reply(500, Failure("Test webhook failed", body.fault.message))
    ensures (body.Ok? && !(Present(body.value.userId) && Present(body.value.plan)))
            ==> resp == Reply(400, ErrorBody("Missing userId or plan"))
    ensures (body.Ok? && Present(body.value.userId) && Present(body.value.plan)
             && TestUpdate(body.value.testType, body.value.plan.value, now).None?)
            ==> resp == Reply(400, ErrorBody("Invalid test type"))
    ensures resp.status == 200 <==>
              && body.Ok? && Present(body.value.userId) && Present(body.value.plan)
              && TestUpdate(body.value.testType, body.value.plan.value, now).Some?
              && adminAvailable && old(db.reachable) && body.value.userId.value in old(db.users)
    ensures resp.status == 200 ==>
              var uid := body.value.userId.value;
              var u := TestUpdate(body.value.testType, body.value.plan.value, now).value;
              && db.users == old(db.users)[uid := old(db.users)[uid] + u]
              && resp.body == Simulated("Webhook test " + body.value.testType.value + " completed successfully",
                                        Some(db.users[uid]))
    ensures resp.status != 200 ==> db.users == old(db.users)
    ensures (body.Ok? && Present(body.value.userId) && Present(body.value.plan)
             && TestUpdate(body.value.testType, body.value.plan.value, now).Some? && !adminAvailable)
            ==> resp == Reply(500, Failure("Test webhook failed", NO_ADMIN_MESSAGE))
    ensures db.preReg == old(db.preReg) && db.reachable == old(db.reachable)
  {
    if body.Err? {
      return Reply(500, Failure("Test webhook failed", body.fault.message));
    }
    var req := body.value;
    if !Present(req.userId) || !Present(req.plan) {
      return Reply(400, ErrorBody("Missing userId or plan"));
    }
    var uid := req.userId.value;
    var update := TestUpdate(req.testType, req.plan.value, now);
    if update.None? {
      return Reply(400, ErrorBody("Invalid test type"));
    }
    if !adminAvailable {
      return Reply(500, Failure("Test webhook failed", NO_ADMIN_MESSAGE));
    }
    var written := db.UpdateUser(uid, update.value);
    if written.Raised? {
      return Reply(500, Failure("Test webhook failed", written.fault.message));
    }
    // The write succeeded, so the store is reachable and the re-read cannot fail.
    var reread := db.ReadUser(uid);
    resp := Reply(200, Simulated("Webhook test " + req.testType.value + " completed successfully", reread.value));
  }

  /** A reported value is the stored one when that is truthy, and the fallback otherwise. */
  predicate Defaulted(reported: Value, stored: Value, fallback: Value)
  {
    (Truthy(stored) ==> reported == stored) && (!Truthy(stored) ==> reported == fallback)
  }

  /** `userData.paid || false` and `userData.<field> || null`. */
  function StatusOf(d: Doc): (s: Status)
    ensures Defaulted(s.paid, Get(d, Paid), Bool(false))
    ensures Defaulted(s.plan, Get(d, Plan), Null)
    ensures Defaulted(s.subscriptionStatus, Get(d, SubscriptionStatus), Null)
    ensures Defaulted(s.stripeCustomerId, Get(d, StripeCustomerId), Null)
    ensures Defaulted(s.stripeSubscriptionId, Get(d, StripeSubscriptionId), Null)
    ensures Defaulted(s.paidAt, Get(d, PaidAt), Null)
    ensures Defaulted(s.pendingPlan, Get(d, PendingPlan), Null)
    ensures Truthy(s.paid) <==> Truthy(Get(d, Paid))
    ensures forall v :: v in [s.plan, s.subscriptionStatus, s.stripeCustomerId, s.stripeSubscriptionId, s.paidAt, s.pendingPlan]
                        ==> v == Null || Truthy(v)
    ensures s.userData == d
  {
    Status(Or(Get(d, Paid), Bool(false)), Or(Get(d, Plan), Null), Or(Get(d, SubscriptionStatus), Null),
           Or(Get(d, StripeCustomerId), Null), Or(Get(d, StripeSubscriptionId), Null), Or(Get(d, PaidAt), Null),
           Or(Get(d, PendingPlan), Null), d)
  }

  /** `GET`: the user's payment status, defaulting the missing fields. */
  function GetStatus(db: Firestore, adminAvailable: bool, userId: Option<string>): (resp: Response)
    reads db
    ensures !Present(userId) ==> resp == Reply(400, ErrorBody("Missing userId parameter"))
    ensures Present(userId) && !adminAvailable ==> resp == Reply(503, ErrorBody("Firebase Admin not available"))
    ensures (Present(userId) && adminAvailable && db.reachable && userId.value !in db.users)
            ==> resp == Reply(404, ErrorBody("User not found"))
    ensures resp.status == 200 <==> Present(userId) && adminAvailable && db.reachable && userId.value in db.users
    ensures resp.status == 200 ==> resp.body == UserStatus(userId.value, StatusOf(db.users[userId.value]))
    ensures (Present(userId) && adminAvailable && !db.reachable) ==> resp == Reply(500, ErrorBody("Failed to retrieve user data"))
  {
    if !Present(userId) then Reply(400, ErrorBody("Missing userId parameter"))
    else if !adminAvailable then Reply(503, ErrorBody("Firebase Admin not available"))
    else
      match db.ReadUser(userId.value)
      case Err(_) => Reply(500, ErrorBody("Failed to retrieve user data"))
      case Ok(None) => Reply(404, ErrorBody("User not found"))
      case Ok(Some(d)) => Reply(200, UserStatus(userId.value, StatusOf(d)))
  }

  /**
   * The status a GET reports after a simulated event: a checkout on a named plan reads back as paid
   * on that plan with the test ids and no pending plan; a cancellation as unpaid with no plan.
   */
  lemma StatusAfterSimulatedEvents(d: Doc, plan: string, now: int)
    requires plan != ""
    ensures var s := StatusOf(d + TestUpdate(Some("checkout_completed"), plan, now).value);
            && s.paid == Bool(true) && s.plan == Str(plan) && s.pendingPlan == Null
            && s.stripeCustomerId == Str(TEST_CUSTOMER_ID) && s.stripeSubscriptionId == Str(TEST_SUBSCRIPTION_ID)
            && s.subscriptionStatus == Or(Get(d, SubscriptionStatus), Null)
    ensures var s := StatusOf(d + TestUpdate(Some("subscription_cancelled"), plan, now).value);
            && s.paid == Bool(false) && s.plan == Null && s.subscriptionStatus == Str("cancelled")
            && s.stripeCustomerId == Or(Get(d, StripeCustomerId), Null) && s.paidAt == Or(Get(d, PaidAt), Null)
  {
  }
}
