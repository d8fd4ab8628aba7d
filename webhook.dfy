/** The payment processor's webhook (app/api/stripe/webhook/route.ts): a
    signed event either leaves the users table alone or overwrites the `plan`
    of the rows one equality filter selects. Signature verification and
    customer retrieval belong to the processor's SDK and are parameters. */
module Webhook {
  import opened Common
  import opened Store

  /** The fields of a checkout session the handler reads. */
  datatype Session = Session(
    metadataUserId: Option<string>,
    metadataPlanType: Option<string>,
    customerEmail: Option<string>,
    customerDetailsEmail: Option<string>,
    mode: Option<string>)

  /** The fields of a subscription the handler reads; `customerId` is the
      customer reference, whether sent as an id or as an expanded object. */
  datatype Subscription = Subscription(customerId: Option<string>, status: string)

  /** A verified event, as the SDK's `constructEvent` returns it. */
  datatype Event =
    | CheckoutSessionCompleted(session: Session)
    | SubscriptionDeleted(subscription: Subscription)
    | SubscriptionUpdated(subscription: Subscription)
    | OtherEvent(eventType: string)

  /** The `event.type` values the handler has a branch for; an
      `OtherEvent` carries any other type. */
  predicate IsHandledType(t: string) {
    t == "checkout.session.completed" || t == "customer.subscription.deleted" || t == "customer.subscription.updated"
  }

  /** What `stripe.customers.retrieve(id)` gives: a customer (whose e-mail
      may be missing), a deleted customer, or a thrown error. */
  datatype CustomerLookup = Customer(email: Option<string>) | DeletedCustomer | RetrieveFailed

  datatype WebhookRequest = WebhookRequest(body: string, signature: Option<string>)

  datatype Reply = Received | NoSignature | VerificationFailed {
    function Status(): nat {
      if Received? then 200 else 400
    }
  }

  /** The table write a verified event calls for. */
  datatype Action = NoAction | Update(key: UserKey, plan: Plan)

  /** The plan a completed checkout grants: the `planType` metadata first,
      then the session's mode, and `pro` when neither decides. */
  function NextPlan(planFromMetadata: Option<string>, mode: Option<string>): (p: Plan)
    ensures p != Free
    ensures p == Lifetime <==>
      planFromMetadata == Some("lifetime") || (planFromMetadata != Some("pro") && mode == Some("payment"))
  {
    if planFromMetadata == Some("lifetime") then Lifetime
    else if planFromMetadata == Some("pro") then Pro
    else if mode == Some("payment") then Lifetime
    else Pro
  }

  /** Subscription statuses that revoke the paid plan: exactly three of
      the processor's statuses, and none of the ones of a live subscription. */
  function ShouldDowngrade(status: string): (revoke: bool)
    ensures revoke <==> status in {"canceled", "unpaid", "past_due"}
    ensures status in {"active", "trialing", "incomplete", "paused"} ==> !revoke
  {
    status == "canceled" || status == "unpaid" || status == "past_due"
  }

  /** `session.customer_email || session.customer_details?.email`. */
  function CustomerEmail(s: Session): Option<string> {
    OrElse(s.customerEmail, s.customerDetailsEmail)
  }

  /** The write a completed checkout calls for: by id when the metadata names
      a user, otherwise by the customer's e-mail, otherwise none. */
  function CheckoutAction(s: Session): (a: Action)
    ensures a.Update? <==> Truthy(s.metadataUserId) || Truthy(CustomerEmail(s))
    ensures a.Update? ==> a.plan == NextPlan(s.metadataPlanType, s.mode)
    ensures Truthy(s.metadataUserId) ==> a.Update? && a.key == ById(s.metadataUserId.value)
    ensures !Truthy(s.metadataUserId) && a.Update? ==> a.key == ByEmail(CustomerEmail(s).value)
  {
    var userId := s.metadataUserId;
    var customerEmail := CustomerEmail(s);
    if !Truthy(userId) && !Truthy(customerEmail) then NoAction
    else
      var nextPlan := NextPlan(s.metadataPlanType, s.mode);
      if Truthy(userId) then Update(ById(userId.value), nextPlan)
      else Update(ByEmail(customerEmail.value), nextPlan)
  }

  /** The write a subscription change calls for: a downgrade to `free` of the
      customer's e-mail, when the status is one of the three that revoke. */
  function SubscriptionAction(sub: Subscription, retrieveCustomer: string -> CustomerLookup): (a: Action)
    ensures a.Update? <==>
      && ShouldDowngrade(sub.status)
      && Truthy(sub.customerId)
      && retrieveCustomer(sub.customerId.value).Customer?
      && Truthy(retrieveCustomer(sub.customerId.value).email)
    ensures a.Update? ==> a == Update(ByEmail(retrieveCustomer(sub.customerId.value).email.value), Free)
  {
    if !Truthy(sub.customerId) then NoAction
    else
      match retrieveCustomer(sub.customerId.value)
      case Customer(email) =>
        if Truthy(email) && ShouldDowngrade(sub.status) then Update(ByEmail(email.value), Free) else NoAction
      case DeletedCustomer => NoAction
      case RetrieveFailed => NoAction
  }

  /** The state machine over verified events. A checkout only ever grants a
      paid plan and a subscription event only ever takes it away; any other
      event writes nothing. */
  function Decide(e: Event, retrieveCustomer: string -> CustomerLookup): (a: Action)
    ensures a.Update? ==> (a.plan == Free <==> !e.CheckoutSessionCompleted?)
    ensures e.OtherEvent? ==> a.NoAction?
    ensures e.CheckoutSessionCompleted? ==> a == CheckoutAction(e.session)
    ensures !e.CheckoutSessionCompleted? && !e.OtherEvent? ==> a == SubscriptionAction(e.subscription, retrieveCustomer)
  {
    match e
    case CheckoutSessionCompleted(s) => CheckoutAction(s)
    case SubscriptionDeleted(sub) => SubscriptionAction(sub, retrieveCustomer)
    case SubscriptionUpdated(sub) => SubscriptionAction(sub, retrieveCustomer)
    case OtherEvent(_) => NoAction
  }

  /** The users table after the write `a`, which fails as a whole when the
      backend reports `fault`. */
  function Apply(users: seq<UserRow>, a: Action, fault: Option<DbError>): (after: seq<UserRow>)
    ensures |after| == |users|
    ensures a.NoAction? || fault.Some? ==> after == users
    ensures a.Update? && fault.None? ==> forall i :: 0 <= i < |users| ==>
      after[i] == if Selects(a.key, users[i]) then users[i].(plan := a.plan) else users[i]
  {
    if a.NoAction? || fault.Some? then users else SetPlan(users, a.key, a.plan)
  }

  /** The event `constructEvent` accepts for this request and the configured
      secret (`STRIPE_WEBHOOK_SECRET || ''`), if the request is signed at all. */
  function Verify(
    request: WebhookRequest,
    webhookSecretEnv: Option<string>,
    constructEvent: (string, string, string) -> Option<Event>): (e: Option<Event>)
    ensures e.Some? ==> Truthy(request.signature)
  {
    if Truthy(request.signature) then constructEvent(request.body, request.signature.value, OrDefault(webhookSecretEnv, ""))
    else None
  }

  /** POST /api/stripe/webhook. Whatever happens to the update, a verified
      event is acknowledged with 200; the update's error is only logged,
      which the model returns as `updateError`. */
  method HandleWebhook(
    db: Database,
    request: WebhookRequest,
    webhookSecretEnv: Option<string>,
    constructEvent: (string, string, string) -> Option<Event>,
    retrieveCustomer: string -> CustomerLookup,
    updateFault: Option<DbError>)
    returns (reply: Reply, updateError: Option<DbError>)
    modifies db
    ensures !Truthy(request.signature) ==> reply == NoSignature && db.users == old(db.users)
    ensures Truthy(request.signature) && Verify(request, webhookSecretEnv, constructEvent).None? ==>
      reply == VerificationFailed && db.users == old(db.users)
    ensures Verify(request, webhookSecretEnv, constructEvent).Some? ==>
      var a := Decide(Verify(request, webhookSecretEnv, constructEvent).value, retrieveCustomer);
      && reply == Received
      && db.users == Apply(old(db.users), a, updateFault)
      && updateError == (if a.Update? then updateFault else None)
    ensures reply.Status() == 200 <==> reply == Received
    ensures db.feedback == old(db.feedback)
  {
    updateError := None;
    var webhookSecret := OrDefault(webhookSecretEnv, "");
    var signature := request.signature;
    if !Truthy(signature) {
      return NoSignature, None;
    }
    var event := constructEvent(request.body, signature.value, webhookSecret);
    if event.None? {
      return VerificationFailed, None;
    }
    var action := Decide(event.value, retrieveCustomer);
    if action.Update? {
      updateError := db.UpdatePlan(action.key, action.plan, updateFault);
    }
    reply := Received;
  }

  // ---------------------------------------------------------------------
  // Properties of the state machine

  /** On a completed checkout the metadata `userId`, when present, alone
      selects the row: the customer's e-mail plays no part. */
  lemma CheckoutIgnoresEmailGivenUserId(s: Session, email: Option<string>, detailsEmail: Option<string>)
    requires Truthy(s.metadataUserId)
    ensures CheckoutAction(s.(customerEmail := email, customerDetailsEmail := detailsEmail)) == CheckoutAction(s)
  {
  }

  /** A completed checkout with a `userId` changes the plan of exactly the row
      with that id (to the resolved plan) and no other row. */
  lemma CheckoutByIdTouchesOnlyThatUser(users: seq<UserRow>, s: Session)
    requires Truthy(s.metadataUserId)
    ensures var after := Apply(users, CheckoutAction(s), None);
      && |after| == |users|
      && (forall i :: 0 <= i < |users| && users[i].id != s.metadataUserId.value ==> after[i] == users[i])
      && (forall i :: 0 <= i < |users| && users[i].id == s.metadataUserId.value ==>
            after[i] == users[i].(plan := NextPlan(s.metadataPlanType, s.mode)))
  {
  }

  /** A completed checkout naming neither a user nor an e-mail is
      acknowledged and writes nothing. */
  lemma CheckoutWithoutIdentityIsNoOp(
    users: seq<UserRow>, s: Session, retrieveCustomer: string -> CustomerLookup, fault: Option<DbError>)
    requires !Truthy(s.metadataUserId) && !Truthy(CustomerEmail(s))
    ensures Apply(users, Decide(CheckoutSessionCompleted(s), retrieveCustomer), fault) == users
  {
  }

  /** On the users table, a subscription event whose status revokes the
      plan sets `free` on exactly the rows with the retrieved customer's
      e-mail; any other subscription event leaves every row as it was. */
  lemma SubscriptionDowngradesExactly(
    users: seq<UserRow>, e: Event, retrieveCustomer: string -> CustomerLookup)
    requires e.SubscriptionDeleted? || e.SubscriptionUpdated?
    ensures var sub := e.subscription;
      var after := Apply(users, Decide(e, retrieveCustomer), None);
      && |after| == |users|
      && forall i :: 0 <= i < |users| ==>
           after[i] ==
             if && ShouldDowngrade(sub.status) && Truthy(sub.customerId)
                && retrieveCustomer(sub.customerId.value).Customer?
                && retrieveCustomer(sub.customerId.value).email == Some(users[i].email)
                && users[i].email != ""
             then users[i].(plan := Free)
             else users[i]
  {
  }

  /** Events outside the three handled types write nothing. */
  lemma OtherEventsAreNoOps(users: seq<UserRow>, t: string, retrieveCustomer: string -> CustomerLookup, fault: Option<DbError>)
    requires !IsHandledType(t)
    ensures Apply(users, Decide(OtherEvent(t), retrieveCustomer), fault) == users
  {
  }

  /** The webhook never creates a user: a write whose filter selects no row
      (an unknown id or e-mail) leaves the table exactly as it was. */
  lemma WriteToAbsentUserIsNoOp(
    users: seq<UserRow>, e: Event, retrieveCustomer: string -> CustomerLookup, fault: Option<DbError>)
    requires Decide(e, retrieveCustomer).Update? && Matching(users, Decide(e, retrieveCustomer).key) == []
    ensures Apply(users, Decide(e, retrieveCustomer), fault) == users
  {
    var a := Decide(e, retrieveCustomer);
    if fault.None? {
      SetPlanNoMatch(users, a.key, a.plan);
    }
  }

  /** Overwriting a plan twice is overwriting it once. */
  lemma {:induction false} SetPlanIdempotent(users: seq<UserRow>, key: UserKey, plan: Plan)
    ensures SetPlan(SetPlan(users, key, plan), key, plan) == SetPlan(users, key, plan)
  {
    var once := SetPlan(users, key, plan);
    var twice := SetPlan(once, key, plan);
    forall i | 0 <= i < |users| ensures twice[i] == once[i] {
      assert Selects(key, once[i]) == Selects(key, users[i]);
    }
  }

  /** A redelivered event leaves the table as its first delivery did. */
  lemma RedeliveryIsIdempotent(users: seq<UserRow>, e: Event, retrieveCustomer: string -> CustomerLookup)
    ensures var a := Decide(e, retrieveCustomer);
      Apply(Apply(users, a, None), a, None) == Apply(users, a, None)
  {
    var a := Decide(e, retrieveCustomer);
    if a.Update? {
      SetPlanIdempotent(users, a.key, a.plan);
    }
  }

  /** Plan updates keep the users table's keys unique. */
  lemma {:induction false} ApplyKeepsInvariants(users: seq<UserRow>, a: Action, fault: Option<DbError>)
    requires UniqueIds(users) && UniqueEmails(users)
    ensures var after := Apply(users, a, fault);
      UniqueIds(after) && UniqueEmails(after)
  {
    if a.Update? && fault.None? {
      SetPlanKeepsKeys(users, a.key, a.plan);
    }
  }
}
