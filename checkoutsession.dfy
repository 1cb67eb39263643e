/** The endpoint that opens a hosted checkout session (src/app/api/create-checkout-session/route.ts). */
module CheckoutSession {
  import opened Wrappers
  import opened Store

  /** The parsed JSON body; a field that is missing or not a string is `None`. */
  datatype Request = Request(userId: Option<string>, plan: Option<string>, email: Option<string>)

  /**
   * The server's environment: whether the processor client was built, the two price ids
   * (`''` when the variable is unset) and the public application URL (`None` when unset).
   */
  datatype Config = Config(stripeConfigured: bool, standardPriceId: string, proPriceId: string, appUrl: Option<string>)

  /** `PLAN_PRICE_IDS[plan]`: `''` for a key the table does not hold. */
  function PriceFor(c: Config, plan: string): (price: string)
    ensures price != "" ==> plan == "standard" || plan == "pro"
  {
    if plan == "standard" then c.standardPriceId else if plan == "pro" then c.proPriceId else ""
  }

  /** What `getAuth().getUser(userId)` returned (its email, if any), or that it threw. */
  datatype AuthLookup = AuthUser(email: Option<string>) | AuthLookupFailed

  /** A JSON response body. */
  datatype Body = ErrorBody(error: string) | SessionBody(id: string, url: Option<string>)

  /** An HTTP response. */
  datatype Response = Reply(status: int, body: Body)

  /** The arguments of `stripe.customers.create`. */
  datatype CustomerParams = CustomerParams(email: string, firebaseUid: string)

  /** One line item of a checkout session. */
  datatype LineItem = LineItem(price: string, quantity: int)

  /** The `{userId, plan}` metadata attached to a session and to its subscription. */
  datatype Metadata = Metadata(userId: string, plan: string)

  /** The arguments of `stripe.checkout.sessions.create`. */
  datatype SessionParams = SessionParams(
    customer: Value, paymentMethodTypes: seq<string>, lineItems: seq<LineItem>, mode: string,
    successUrl: string, cancelUrl: string, metadata: Metadata, customerUpdateName: string,
    subscriptionMetadata: Metadata)

  /** What the processor returned for a created session. */
  datatype CreatedSession = CreatedSession(id: string, url: Option<string>)

  /** `${process.env.NEXT_PUBLIC_APP_URL}`: an unset variable prints as "undefined". */
  function UrlBase(c: Config): string
  {
    if c.appUrl.Some? then c.appUrl.value else "undefined"
  }

  /** The session requested for a user, a plan and a processor customer. */
  function SessionParamsFor(c: Config, userId: string, plan: string, customer: Value): SessionParams
  {
    SessionParams(
      customer, ["card"], [LineItem(PriceFor(c, plan), 1)], "subscription",
      UrlBase(c) + "/success?session_id={CHECKOUT_SESSION_ID}",
      UrlBase(c) + "/checkout?plan=" + plan,
      Metadata(userId, plan), "auto", Metadata(userId, plan))
  }

  /** The session carries the user and plan both on itself and on the subscription it creates. */
  lemma SessionParamsCarryIdentity(c: Config, userId: string, plan: string, customer: Value)
    ensures var p := SessionParamsFor(c, userId, plan, customer);
            && p.mode == "subscription" && p.customer == customer && p.paymentMethodTypes == ["card"]
            && |p.lineItems| == 1 && p.lineItems[0] == LineItem(PriceFor(c, plan), 1)
            && p.metadata == p.subscriptionMetadata == Metadata(userId, plan)
            && p.cancelUrl[|UrlBase(c)|..] == "/checkout?plan=" + plan
            && p.successUrl[..|UrlBase(c)|] == p.cancelUrl[..|UrlBase(c)|] == UrlBase(c)
  {
  }

  /**
   * The early returns of `POST`, in order; `None` when the request passes them all and
   * reaches the customer step.
   */
  function Gate(c: Config, body: Option<Request>, adminAvailable: bool, auth: AuthLookup): (r: Option<Response>)
    ensures !c.stripeConfigured ==> r == Some(Reply(503, ErrorBody("Stripe not configured")))
    ensures c.stripeConfigured && body.None? ==> r == Some(Reply(500, ErrorBody("Internal server error")))
    ensures (c.stripeConfigured && body.Some?
             && !(Present(body.value.userId) && Present(body.value.plan) && Present(body.value.email)))
            ==> r == Some(Reply(400, ErrorBody("Missing required parameters")))
    ensures r.None? <==>
              && c.stripeConfigured && body.Some?
              && Present(body.value.userId) && Present(body.value.plan) && Present(body.value.email)
              && PriceFor(c, body.value.plan.value) != "" && adminAvailable
              && auth == AuthUser(body.value.email)
    ensures r.Some? && r.value.status == 401 ==>
              adminAvailable && PriceFor(c, body.value.plan.value) != "" && auth != AuthUser(body.value.email)
    ensures r == Some(Reply(400, ErrorBody("Invalid plan"))) ==> PriceFor(c, body.value.plan.value) == ""
    ensures r == Some(Reply(503, ErrorBody("Admin SDK not available"))) ==> !adminAvailable
    ensures r.Some? ==> r.value.status in {400, 401, 500, 503} && r.value.body.ErrorBody?
  {
    if !c.stripeConfigured then Some(Reply(503, ErrorBody("Stripe not configured")))
    else if body.None? then Some(Reply(500, ErrorBody("Internal server error")))
    else
      var req := body.value;
      if !Present(req.userId) || !Present(req.plan) || !Present(req.email) then
        Some(Reply(400, ErrorBody("Missing required parameters")))
      else if PriceFor(c, req.plan.value) == "" then Some(Reply(400, ErrorBody("Invalid plan")))
      else if !adminAvailable then Some(Reply(503, ErrorBody("Admin SDK not available")))
      else if auth.AuthLookupFailed? || auth.email != req.email then Some(Reply(401, ErrorBody("Unauthorized")))
      else None
  }

  /** Whether a stored profile (or its absence) lacks a usable processor customer id. */
  predicate NeedsCustomer(stored: Option<Doc>)
  {
    !(stored.Some? && Truthy(Get(stored.value, StripeCustomerId)))
  }

  /** The only profile write of the endpoint. */
  function CustomerUpdate(customerId: string, now: int): Doc
  {
    map[StripeCustomerId := Str(customerId), UpdatedAt := Time(now)]
  }

  /** Once a non-empty customer id is persisted, later requests reuse it instead of creating another. */
  lemma PersistedCustomerIsReused(d: Doc, customerId: string, now: int)
    requires customerId != ""
    ensures !NeedsCustomer(Some(d + CustomerUpdate(customerId, now)))
    ensures Get(d + CustomerUpdate(customerId, now), StripeCustomerId) == Str(customerId)
  {
  }

  /** Persisting the customer id leaves every field but `stripeCustomerId` and `updatedAt` alone: no paid or plan change. */
  lemma CustomerUpdateKeepsEntitlement(d: Doc, customerId: string, now: int)
    ensures forall f :: f != StripeCustomerId && f != UpdatedAt ==> Get(d + CustomerUpdate(customerId, now), f) == Get(d, f)
  {
  }

  /**
   * `POST`. The processor's `customers.create` and `checkout.sessions.create` are given by their
   * results; the method reports which requests it made.
   */
  method Post(db: Firestore, c: Config, body: Option<Request>, adminAvailable: bool, auth: AuthLookup,
              newCustomer: Result<string>, newSession: Result<CreatedSession>, now: int)
    returns (resp: Response, customerRequest: Option<CustomerParams>, sessionRequest: Option<SessionParams>)
    modifies db
    ensures Gate(c, body, adminAvailable, auth).Some? ==>
              resp == Gate(c, body, adminAvailable, auth).value && customerRequest.None? && sessionRequest.None?
              && db.users == old(db.users)
    ensures Gate(c, body, adminAvailable, auth).None? ==>
              var uid := body.value.userId.value;
              var plan := body.value.plan.value;
              var stored := old(db.ReadUser(uid));
              && (customerRequest.Some? <==> stored.Ok? && NeedsCustomer(stored.value))
              && (customerRequest.Some? ==> customerRequest.value == CustomerParams(body.value.email.value, uid))
              && db.users == (if customerRequest.Some? && newCustomer.Ok? && uid in old(db.users)
                              then old(db.users)[uid := old(db.users)[uid] + CustomerUpdate(newCustomer.value, now)]
                              else old(db.users))
              && (sessionRequest.Some? <==>
                    stored.Ok? && (customerRequest.Some? ==> newCustomer.Ok? && uid in old(db.users)))
              && (sessionRequest.Some? ==>
                    stored.Ok? && (customerRequest.Some? ==> newCustomer.Ok?) &&
                    sessionRequest.value == SessionParamsFor(c, uid, plan,
                      if customerRequest.Some? then Str(newCustomer.value) else Get(stored.value.value, StripeCustomerId)))
              && (resp.status == 200 <==> sessionRequest.Some? && newSession.Ok?)
              && (resp.status == 200 ==> resp.body == SessionBody(newSession.value.id, newSession.value.url))
              && (resp.status != 200 ==> resp == Reply(500, ErrorBody("Internal server error")))
    ensures db.preReg == old(db.preReg) && db.reachable == old(db.reachable)
  {
    customerRequest := None;
    sessionRequest := None;
    var gate := Gate(c, body, adminAvailable, auth);
    if gate.Some? {
      return gate.value, customerRequest, sessionRequest;
    }
    var uid := body.value.userId.value;
    var plan := body.value.plan.value;
    var email := body.value.email.value;
    var internal := Reply(500, ErrorBody("Internal server error"));
    if !adminAvailable {
      // The customer branch for a missing admin store cannot be reached: `Gate` has answered 503.
      assert false;
    }
    var stored := db.ReadUser(uid);
    if stored.Err? {
      return internal, customerRequest, sessionRequest;
    }
    var customerId: Value;
    if NeedsCustomer(stored.value) {
      customerRequest := Some(CustomerParams(email, uid));
      if newCustomer.Err? {
        return internal, customerRequest, sessionRequest;
      }
      customerId := Str(newCustomer.value);
      var written := db.UpdateUser(uid, CustomerUpdate(newCustomer.value, now));
      if written.Raised? {
        return internal, customerRequest, sessionRequest;
      }
    } else {
      customerId := Get(stored.value.value, StripeCustomerId);
    }
    sessionRequest := Some(SessionParamsFor(c, uid, plan, customerId));
    if newSession.Err? {
      return internal, customerRequest, sessionRequest;
    }
    resp := Reply(200, SessionBody(newSession.value.id, newSession.value.url));
  }

  /**
   * Two identical requests for a stored user: when the first creates a customer with a non-empty id
   * and persists it, the second makes no customer request and opens its session for that customer.
   */
  method RepeatedCheckoutReusesCustomer(db: Firestore, c: Config, req: Request, auth: AuthLookup,
                                        customerId: string, newSession: Result<CreatedSession>, t1: int, t2: int)
    returns (first: Option<CustomerParams>, second: Option<CustomerParams>, secondSession: Option<SessionParams>)
    requires Gate(c, Some(req), true, auth).None? && db.reachable
    requires req.userId.value in db.users && customerId != ""
    modifies db
    ensures first.Some? <==> NeedsCustomer(Some(old(db.users)[req.userId.value]))
    ensures first.Some? ==> second.None?
                            && secondSession == Some(SessionParamsFor(c, req.userId.value, req.plan.value, Str(customerId)))
  {
    var r1, s1, r2;
    r1, first, s1 := Post(db, c, Some(req), true, auth, Ok(customerId), newSession, t1);
    if first.Some? {
      PersistedCustomerIsReused(old(db.users)[req.userId.value], customerId, t1);
    }
    r2, second, secondSession := Post(db, c, Some(req), true, auth, Ok(customerId), newSession, t2);
  }
}
