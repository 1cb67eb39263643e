/** The payment-processor webhook receiver (src/app/api/stripe/webhook/route.ts). */
module StripeWebhook {
  import opened Wrappers
  import opened Store

  /** The fields of a checkout session the handler reads. */
  datatype Session = Session(
    metadataUserId: Option<string>, metadataPlan: Option<string>,
    customer: Option<string>, subscription: Option<string>)

  /** The fields of a subscription the handlers read. */
  datatype Subscription = Subscription(id: string, status: string, metadataUserId: Option<string>)

  /** `event.data.object`. */
  datatype EventObject = SessionObject(session: Session) | SubscriptionObject(subscription: Subscription) | OtherObject

  /** A verified event: its type string and its object. */
  datatype Event = Event(eventType: string, payload: EventObject)

  /**
   * What `stripe.webhooks.constructEvent` did with the raw body, the signature header and the
   * endpoint secret: the event, or the thrown value (an `Error` with its message, or something else).
   */
  datatype Verification = Verified(event: Event) | Rejected(message: Option<string>)

  /** What `stripe.customers.retrieve` returned for the session's customer, or what it threw. */
  datatype CustomerLookup = Customer(email: Option<string>, name: Option<string>) | LookupFailed(fault: Fault)

  /** The JSON body of a response. */
  datatype Body = ErrorBody(error: string) | Received

  /** An HTTP response, or an exception escaping `POST` (which the framework answers with 500). */
  datatype Response = Reply(status: int, body: Body) | Crashed(fault: Fault)

  const CHECKOUT_COMPLETED: string := "checkout.session.completed"
  const SUBSCRIPTION_UPDATED: string := "customer.subscription.updated"
  const SUBSCRIPTION_DELETED: string := "customer.subscription.deleted"

  /** The three event types `POST` dispatches on. */
  predicate Handled(eventType: string)
  {
    eventType == CHECKOUT_COMPLETED || eventType == SUBSCRIPTION_UPDATED || eventType == SUBSCRIPTION_DELETED
  }

  /** `event.data.object as Session`: an object of another kind has no session fields. */
  function SessionOf(o: EventObject): Session
  {
    if o.SessionObject? then o.session else Session(None, None, None, None)
  }

  /** `event.data.object as Subscription`: an object of another kind has no subscription metadata. */
  function SubscriptionOf(o: EventObject): Subscription
  {
    if o.SubscriptionObject? then o.subscription else Subscription("", "", None)
  }

  /** The fields a completed checkout writes; `name` only when the customer has a non-empty one. */
  function CompletedUpdate(plan: string, s: Session, customerName: Option<string>, now: int): Doc
  {
    map[Paid := Bool(true), Plan := Str(plan), StripeCustomerId := OrNull(s.customer),
        StripeSubscriptionId := OrNull(s.subscription), PaidAt := Time(now), UpdatedAt := Time(now),
        PendingPlan := Null]
    + (if Present(customerName) then map[Name := Str(customerName.value)] else map[])
  }

  /** The fields a subscription update writes. */
  function SubscriptionUpdatedUpdate(sub: Subscription, now: int): Doc
  {
    map[StripeSubscriptionId := Str(sub.id), SubscriptionStatus := Str(sub.status), UpdatedAt := Time(now)]
  }

  /** The fields a subscription deletion writes. */
  function SubscriptionDeletedUpdate(now: int): Doc
  {
    map[Paid := Bool(false), Plan := Null, SubscriptionStatus := Str("cancelled"),
        CancelledAt := Time(now), UpdatedAt := Time(now)]
  }

  /** What a handler does: nothing, throw before writing, or write fields of one user's document. */
  datatype Step = Skip | Abort(fault: Fault) | Write(uid: string, update: Doc)

  /** The step `POST`'s dispatch and the handlers take for a verified event. */
  function HandlerStep(e: Event, adminAvailable: bool, lookup: CustomerLookup, now: int): (s: Step)
    ensures !Handled(e.eventType) ==> s == Skip
    ensures !adminAvailable ==> s == Skip
    ensures (e.eventType == CHECKOUT_COMPLETED
             && !(Present(SessionOf(e.payload).metadataUserId) && Present(SessionOf(e.payload).metadataPlan))) ==> s == Skip
    ensures ((e.eventType == SUBSCRIPTION_UPDATED || e.eventType == SUBSCRIPTION_DELETED)
             && !Present(SubscriptionOf(e.payload).metadataUserId)) ==> s == Skip
    ensures s.Abort? ==> e.eventType == CHECKOUT_COMPLETED && lookup == LookupFailed(s.fault)
    ensures s.Write? ==> adminAvailable && Handled(e.eventType)
    ensures e.eventType == CHECKOUT_COMPLETED && adminAvailable
            && Present(SessionOf(e.payload).metadataUserId) && Present(SessionOf(e.payload).metadataPlan) ==>
              s == (if lookup.LookupFailed? then Abort(lookup.fault)
                    else Write(SessionOf(e.payload).metadataUserId.value,
                               CompletedUpdate(SessionOf(e.payload).metadataPlan.value, SessionOf(e.payload), lookup.name, now)))
    ensures e.eventType == SUBSCRIPTION_UPDATED && adminAvailable && Present(SubscriptionOf(e.payload).metadataUserId) ==>
              s == Write(SubscriptionOf(e.payload).metadataUserId.value, SubscriptionUpdatedUpdate(SubscriptionOf(e.payload), now))
    ensures e.eventType == SUBSCRIPTION_DELETED && adminAvailable && Present(SubscriptionOf(e.payload).metadataUserId) ==>
              s == Write(SubscriptionOf(e.payload).metadataUserId.value, SubscriptionDeletedUpdate(now))
  {
    if e.eventType == CHECKOUT_COMPLETED then
      var session := SessionOf(e.payload);
      if !Present(session.metadataUserId) || !Present(session.metadataPlan) then Skip
      else if !adminAvailable then Skip
      else match lookup
        case LookupFailed(f) => Abort(f)
        case Customer(_, name) =>
          Write(session.metadataUserId.value,
                CompletedUpdate(session.metadataPlan.value, session, name, now))
    else if e.eventType == SUBSCRIPTION_UPDATED || e.eventType == SUBSCRIPTION_DELETED then
      var sub := SubscriptionOf(e.payload);
      if !Present(sub.metadataUserId) then Skip
      else if !adminAvailable then Skip
      else if e.eventType == SUBSCRIPTION_UPDATED then Write(sub.metadataUserId.value, SubscriptionUpdatedUpdate(sub, now))
      else Write(sub.metadataUserId.value, SubscriptionDeletedUpdate(now))
    else Skip
  }

  /** The `users` collection after a step, and whether the handler returned or threw. */
  datatype Effect = Effect(users: map<string, Doc>, outcome: Outcome)

  /** Carrying out a step: `update` fails, writing nothing, when the store is unreachable or the document is missing. */
  function Perform(users: map<string, Doc>, reachable: bool, s: Step): (eff: Effect)
    ensures s.Skip? ==> eff == Effect(users, Done)
    ensures s.Abort? ==> eff == Effect(users, Raised(s.fault))
    ensures s.Write? && !reachable ==> eff == Effect(users, Raised(UNAVAILABLE))
    ensures s.Write? && reachable && s.uid !in users ==> eff == Effect(users, Raised(NOT_FOUND))
    ensures s.Write? && reachable && s.uid in users ==> eff == Effect(users[s.uid := users[s.uid] + s.update], Done)
    ensures eff.outcome.Done? ==> s.Skip? || s.Write?
    ensures eff.users != users ==> s.Write? && s.uid in users && eff.outcome.Done?
    ensures eff.users.Keys == users.Keys
  {
    match s
    case Skip => Effect(users, Done)
    case Abort(f) => Effect(users, Raised(f))
    case Write(uid, u) =>
      if !reachable then Effect(users, Raised(UNAVAILABLE))
      else if uid !in users then Effect(users, Raised(NOT_FOUND))
      else Effect(users[uid := users[uid] + u], Done)
  }

  /** The text after "Webhook Error: " when verification fails. */
  function RejectionText(message: Option<string>): string
  {
    if message.Some? then message.value else "Unknown error"
  }

  /** `handleCheckoutSessionCompleted`: returns without writing when metadata or the admin store is missing. */
  method HandleCheckoutSessionCompleted(db: Firestore, session: Session, adminAvailable: bool,
                                        lookup: CustomerLookup, now: int) returns (r: Outcome)
    modifies db
    ensures var eff := Perform(old(db.users), old(db.reachable),
                               HandlerStep(Event(CHECKOUT_COMPLETED, SessionObject(session)), adminAvailable, lookup, now));
            db.users == eff.users && r == eff.outcome
    ensures db.preReg == old(db.preReg) && db.reachable == old(db.reachable)
  {
    if !Present(session.metadataUserId) || !Present(session.metadataPlan) {
      return Done;
    }
    if !adminAvailable {
      return Done;
    }
    if lookup.LookupFailed? {
      return Raised(lookup.fault);
    }
    r := db.UpdateUser(session.metadataUserId.value,
                       CompletedUpdate(session.metadataPlan.value, session, lookup.name, now));
  }

  /** `handleSubscriptionUpdated`: mirrors the subscription id and status; never touches `paid` or `plan`. */
  method HandleSubscriptionUpdated(db: Firestore, sub: Subscription, adminAvailable: bool, now: int)
    returns (r: Outcome)
    modifies db
    ensures var eff := Perform(old(db.users), old(db.reachable),
                               HandlerStep(Event(SUBSCRIPTION_UPDATED, SubscriptionObject(sub)), adminAvailable, Customer(None, None), now));
            db.users == eff.users && r == eff.outcome
    ensures db.preReg == old(db.preReg) && db.reachable == old(db.reachable)
  {
    if !Present(sub.metadataUserId) || !adminAvailable {
      return Done;
    }
    r := db.UpdateUser(sub.metadataUserId.value, SubscriptionUpdatedUpdate(sub, now));
  }

  /** `handleSubscriptionDeleted`: marks the user unpaid with no plan; write errors are rethrown. */
  method HandleSubscriptionDeleted(db: Firestore, sub: Subscription, adminAvailable: bool, now: int)
    returns (r: Outcome)
    modifies db
    ensures var eff := Perform(old(db.users), old(db.reachable),
                               HandlerStep(Event(SUBSCRIPTION_DELETED, SubscriptionObject(sub)), adminAvailable, Customer(None, None), now));
            db.users == eff.users && r == eff.outcome
    ensures db.preReg == old(db.preReg) && db.reachable == old(db.reachable)
  {
    if !Present(sub.metadataUserId) || !adminAvailable {
      return Done;
    }
    r := db.UpdateUser(sub.metadataUserId.value, SubscriptionDeletedUpdate(now));
  }

  /**
   * `POST`: 503 when the processor is not configured, 400 when the signature does not verify,
   * otherwise the handler's step and `{received: true}` unless the handler threw.
   */
  method Post(db: Firestore, configured: bool, verification: Verification, adminAvailable: bool,
              lookup: CustomerLookup, now: int) returns (resp: Response)
    modifies db
    ensures !configured ==> resp == Reply(503, ErrorBody("Stripe not configured"))
    ensures configured && verification.Rejected? ==>
              resp == Reply(400, ErrorBody("Webhook Error: " + RejectionText(verification.message)))
    ensures !configured || verification.Rejected? ==> db.users == old(db.users)
    ensures configured && verification.Verified? ==>
              var eff := Perform(old(db.users), old(db.reachable),
                                 HandlerStep(verification.event, adminAvailable, lookup, now));
              db.users == eff.users
              && resp == (if eff.outcome.Done? then Reply(200, Received) else Crashed(eff.outcome.fault))
    ensures db.preReg == old(db.preReg) && db.reachable == old(db.reachable)
  {
    if !configured {
      return Reply(503, ErrorBody("Stripe not configured"));
    }
    if verification.Rejected? {
      return Reply(400, ErrorBody("Webhook Error: " + RejectionText(verification.message)));
    }
    var event := verification.event;
    var r: Outcome := Done;
    if event.eventType == CHECKOUT_COMPLETED {
      r := HandleCheckoutSessionCompleted(db, SessionOf(event.payload), adminAvailable, lookup, now);
    } else if event.eventType == SUBSCRIPTION_UPDATED {
      r := HandleSubscriptionUpdated(db, SubscriptionOf(event.payload), adminAvailable, now);
    } else if event.eventType == SUBSCRIPTION_DELETED {
      r := HandleSubscriptionDeleted(db, SubscriptionOf(event.payload), adminAvailable, now);
    }
    if r.Raised? {
      return Crashed(r.fault);
    }
    resp := Reply(200, Received);
  }

  /** A completed checkout leaves the user paid on the session's plan with the session's ids and no pending plan. */
  lemma CompletionGrantsAccess(d: Doc, plan: string, s: Session, name: Option<string>, now: int)
    ensures var d' := d + CompletedUpdate(plan, s, name, now);
            && Get(d', Paid) == Bool(true) && Get(d', Plan) == Str(plan) && Get(d', PendingPlan) == Null
            && Get(d', StripeCustomerId) == OrNull(s.customer) && Get(d', StripeSubscriptionId) == OrNull(s.subscription)
            && Get(d', PaidAt) == Time(now) && Get(d', UpdatedAt) == Time(now)
            && Get(d', Name) == (if Present(name) then Str(name.value) else Get(d, Name))
            && forall f :: (f !in {Paid, Plan, PendingPlan, StripeCustomerId, StripeSubscriptionId, PaidAt, UpdatedAt, Name})
                             ==> Get(d', f) == Get(d, f)
  {
  }

  /** Replaying a completed checkout changes only `paidAt` and `updatedAt`, which take the new time. */
  lemma CompletionReplayIsStable(d: Doc, plan: string, s: Session, name: Option<string>, t1: int, t2: int)
    ensures var once := d + CompletedUpdate(plan, s, name, t1);
            var twice := once + CompletedUpdate(plan, s, name, t2);
            && once.Keys == twice.Keys
            && (forall f :: f != PaidAt && f != UpdatedAt ==> Get(twice, f) == Get(once, f))
            && Get(twice, PaidAt) == Time(t2) && Get(twice, UpdatedAt) == Time(t2)
  {
  }

  /** The fields the handlers set to the time of handling. */
  predicate Stamp(f: Field)
  {
    f == PaidAt || f == UpdatedAt || f == CancelledAt
  }

  /** Two updates that write the same fields with the same values, except perhaps the time stamps. */
  predicate SameExceptTimes(u1: Doc, u2: Doc)
  {
    u1.Keys == u2.Keys && forall f :: f in u1 && !Stamp(f) ==> u1[f] == u2[f]
  }

  /** The same event handled at two times takes the same kind of step on the same user with the same fields. */
  lemma StepIgnoresTimeExceptStamps(e: Event, adminAvailable: bool, lookup: CustomerLookup, t1: int, t2: int)
    ensures var s1 := HandlerStep(e, adminAvailable, lookup, t1);
            var s2 := HandlerStep(e, adminAvailable, lookup, t2);
            && (s1.Skip? <==> s2.Skip?) && (s1.Abort? ==> s2 == s1)
            && (s1.Write? ==> s2.Write? && s2.uid == s1.uid && SameExceptTimes(s1.update, s2.update))
  {
    var s1 := HandlerStep(e, adminAvailable, lookup, t1);
    var s2 := HandlerStep(e, adminAvailable, lookup, t2);
    if s1.Write? {
      forall f | f in s1.update && !Stamp(f)
        ensures s1.update[f] == s2.update[f]
      {
      }
    }
  }

  /** Applying a second update that agrees with the first except on timestamps changes nothing else. */
  lemma {:induction false} SecondUpdateKeepsFields(d: Doc, u1: Doc, u2: Doc)
    requires SameExceptTimes(u1, u2)
    ensures (d + u1 + u2).Keys == (d + u1).Keys
    ensures forall f :: !Stamp(f) ==> Get(d + u1 + u2, f) == Get(d + u1, f)
  {
    forall f | !Stamp(f)
      ensures Get(d + u1 + u2, f) == Get(d + u1, f)
    {
      if f in u2 {
        assert f in u1 && u1[f] == u2[f];
      }
    }
  }

  /** Delivering the same verified event twice leaves every field but the time stamps as the first delivery left it. */
  lemma {:induction false} RedeliveryIsStable(users: map<string, Doc>, reachable: bool, e: Event, adminAvailable: bool,
                                              lookup: CustomerLookup, t1: int, t2: int)
    ensures var first := Perform(users, reachable, HandlerStep(e, adminAvailable, lookup, t1)).users;
            var second := Perform(first, reachable, HandlerStep(e, adminAvailable, lookup, t2)).users;
            && first.Keys == second.Keys
            && forall uid, f :: uid in first && !Stamp(f) ==> Get(second[uid], f) == Get(first[uid], f)
  {
    var s1 := HandlerStep(e, adminAvailable, lookup, t1);
    var s2 := HandlerStep(e, adminAvailable, lookup, t2);
    StepIgnoresTimeExceptStamps(e, adminAvailable, lookup, t1, t2);
    var first := Perform(users, reachable, s1).users;
    if s2.Write? && reachable && s2.uid in first {
      var uid := s2.uid;
      assert first == users[uid := users[uid] + s1.update];
      SecondUpdateKeepsFields(users[uid], s1.update, s2.update);
    }
  }

  /** A subscription update leaves the user's entitlement (`paid`, `plan`, `pendingPlan`, `paidAt`) as it was. */
  lemma SubscriptionUpdateKeepsEntitlement(d: Doc, sub: Subscription, now: int)
    ensures var d' := d + SubscriptionUpdatedUpdate(sub, now);
            && Get(d', StripeSubscriptionId) == Str(sub.id) && Get(d', SubscriptionStatus) == Str(sub.status)
            && forall f :: f !in {StripeSubscriptionId, SubscriptionStatus, UpdatedAt} ==> Get(d', f) == Get(d, f)
  {
  }

  /** A subscription deletion revokes access and clears the plan but keeps `paidAt` and both processor ids. */
  lemma DeletionRevokesAccess(d: Doc, now: int)
    ensures var d' := d + SubscriptionDeletedUpdate(now);
            && Get(d', Paid) == Bool(false) && Get(d', Plan) == Null && Get(d', SubscriptionStatus) == Str("cancelled")
            && Get(d', CancelledAt) == Time(now)
            && forall f :: f !in {Paid, Plan, SubscriptionStatus, CancelledAt, UpdatedAt} ==> Get(d', f) == Get(d, f)
  {
  }

  /**
   * A verified checkout with both metadata fields, the admin store and the customer: the user's
   * document ends paid on the session's plan with no pending plan and nobody else's changes;
   * a missing document or an unreachable store is rethrown with nothing written.
   */
  lemma VerifiedCompletionPays(users: map<string, Doc>, reachable: bool, session: Session,
                               email: Option<string>, name: Option<string>, now: int)
    requires Present(session.metadataUserId) && Present(session.metadataPlan)
    ensures var uid := session.metadataUserId.value;
            var eff := Perform(users, reachable, HandlerStep(Event(CHECKOUT_COMPLETED, SessionObject(session)),
                                                             true, Customer(email, name), now));
            && (reachable && uid in users ==>
                  && eff.outcome == Done && eff.users.Keys == users.Keys
                  && Get(eff.users[uid], Paid) == Bool(true) && Get(eff.users[uid], Plan) == Str(session.metadataPlan.value)
                  && Get(eff.users[uid], PendingPlan) == Null && Get(eff.users[uid], PaidAt) == Time(now)
                  && Get(eff.users[uid], StripeCustomerId) == OrNull(session.customer)
                  && forall other :: other in users && other != uid ==> eff.users[other] == users[other])
            && (!reachable ==> eff == Effect(users, Raised(UNAVAILABLE)))
            && (reachable && uid !in users ==> eff == Effect(users, Raised(NOT_FOUND)))
  {
    var uid := session.metadataUserId.value;
    if reachable && uid in users {
      CompletionGrantsAccess(users[uid], session.metadataPlan.value, session, name, now);
    }
  }

  /** A failed customer lookup aborts a verified checkout before anything is written. */
  lemma FailedLookupWritesNothing(users: map<string, Doc>, reachable: bool, session: Session, f: Fault, now: int)
    requires Present(session.metadataUserId) && Present(session.metadataPlan)
    ensures Perform(users, reachable, HandlerStep(Event(CHECKOUT_COMPLETED, SessionObject(session)), true, LookupFailed(f), now))
            == Effect(users, Raised(f))
  {
  }

  /** A subscription update on a stored user keeps every entitlement field and touches no other user. */
  lemma VerifiedUpdateKeepsEntitlement(users: map<string, Doc>, sub: Subscription, lookup: CustomerLookup, now: int)
    requires Present(sub.metadataUserId) && sub.metadataUserId.value in users
    ensures var uid := sub.metadataUserId.value;
            var eff := Perform(users, true, HandlerStep(Event(SUBSCRIPTION_UPDATED, SubscriptionObject(sub)), true, lookup, now));
            && eff.outcome == Done && eff.users.Keys == users.Keys
            && Get(eff.users[uid], StripeSubscriptionId) == Str(sub.id)
            && Get(eff.users[uid], SubscriptionStatus) == Str(sub.status)
            && (forall f :: f !in {StripeSubscriptionId, SubscriptionStatus, UpdatedAt} ==> Get(eff.users[uid], f) == Get(users[uid], f))
            && forall other :: other in users && other != uid ==> eff.users[other] == users[other]
  {
    SubscriptionUpdateKeepsEntitlement(users[sub.metadataUserId.value], sub, now);
  }

  /**
   * A subscription deletion on a stored user revokes access and touches no other user; with the
   * store unreachable or the document missing the error is rethrown and nothing is written.
   */
  lemma VerifiedDeletionRevokes(users: map<string, Doc>, reachable: bool, sub: Subscription, lookup: CustomerLookup, now: int)
    requires Present(sub.metadataUserId)
    ensures var uid := sub.metadataUserId.value;
            var eff := Perform(users, reachable, HandlerStep(Event(SUBSCRIPTION_DELETED, SubscriptionObject(sub)), true, lookup, now));
            && (reachable && uid in users ==>
                  && eff.outcome == Done && eff.users.Keys == users.Keys
                  && Get(eff.users[uid], Paid) == Bool(false) && Get(eff.users[uid], Plan) == Null
                  && Get(eff.users[uid], SubscriptionStatus) == Str("cancelled") && Get(eff.users[uid], CancelledAt) == Time(now)
                  && Get(eff.users[uid], PaidAt) == Get(users[uid], PaidAt)
                  && forall other :: other in users && other != uid ==> eff.users[other] == users[other])
            && (!(reachable && uid in users) ==> eff.users == users && eff.outcome.Raised?)
  {
    var uid := sub.metadataUserId.value;
    if reachable && uid in users {
      DeletionRevokesAccess(users[uid], now);
    }
  }
}
