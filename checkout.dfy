/** The checkout-session endpoint (app/api/create-checkout-session/route.ts):
    from the server configuration and a request body to either an error reply
    or the parameters of a hosted checkout session. Creating the session is
    the processor's call and is a parameter. */
module Checkout {
  import opened Common

  /** The environment variables the endpoint reads. */
  datatype Config = Config(
    stripeSecretKey: Option<string>,
    publicUrl: Option<string>,
    launchCouponCode: Option<string>,
    launchCouponId: Option<string>,
    nodeEnv: Option<string>)

  datatype CheckoutBody = CheckoutBody(
    userId: Option<string>,
    email: Option<string>,
    planType: Option<string>,
    couponCode: Option<string>)

  datatype PlanType = ProMonthly | LifetimeDeal

  function PlanTypeName(p: PlanType): string {
    match p
    case ProMonthly => "pro-monthly"
    case LifetimeDeal => "lifetime"
  }

  datatype Mode = Payment | Subscription

  datatype LineItem = LineItem(
    currency: string,
    productName: string,
    productDescription: string,
    unitAmount: nat,
    recurringInterval: Option<string>,
    quantity: nat)

  /** The `SessionCreateParams` sent to the processor. `mode` is absent until
      the plan branch sets it. */
  datatype SessionParams = SessionParams(
    paymentMethodTypes: seq<string>,
    customerEmail: string,
    successUrl: string,
    cancelUrl: string,
    metadata: map<string, string>,
    mode: Option<Mode>,
    lineItems: seq<LineItem>,
    discounts: seq<string>)

  /** A thrown error: its `type` and `message` properties, either possibly absent. */
  datatype ThrownError = ThrownError(kind: Option<string>, message: Option<string>)

  /** The outcome of `stripe.checkout.sessions.create`. */
  datatype CreateResult = Created(id: string, url: Option<string>) | CreateFailed(error: ThrownError)

  datatype ReplyBody =
    | SessionCreated(sessionId: string, url: string)
    | ErrorBody(error: string, details: Option<string>)

  datatype Reply = Reply(status: nat, body: ReplyBody)

  const SecretKeyMissing: string :=
    "Stripe is not configured" + " correctly. Please verify that STRIPE_SECRET_KEY is set in Vercel."
  const PublicUrlMissing: string := "NEXT_PUBLIC_URL" + " is not configured"
  const IdentityMissing: string := "userId and email are required"
  const NoPaymentUrl: string := "Could not generate the payment URL. Please try again."
  const AuthenticationMessage: string :=
    "Stripe authentication error. Please verify that STRIPE_SECRET_KEY is configured correctly."
  const DefaultPaymentError: string := "Error processing payment"
  const DefaultLaunchCode: string := "LAUNCH50"

  const LifetimeItem: LineItem :=
    LineItem("usd", "QuickFeedback Lifetime Deal", "One-time payment for lifetime access", 4900, None, 1)
  const ProMonthlyItem: LineItem :=
    LineItem("usd", "QuickFeedback PRO", "Monthly subscription with premium features", 1000, Some("month"), 1)

  /** `planType === 'lifetime' ? 'lifetime' : 'pro-monthly'`, with the
      destructuring default `'pro-monthly'` for an absent field. */
  function NormalizedPlan(planType: Option<string>): (p: PlanType)
    ensures p == LifetimeDeal <==> planType == Some("lifetime")
    ensures planType.None? ==> p == ProMonthly
  {
    var planTypeOrDefault := planType.GetOr("pro-monthly");
    if planTypeOrDefault == "lifetime" then LifetimeDeal else ProMonthly
  }

  /** The configured launch code, upper-cased, or `LAUNCH50`. */
  function LaunchCouponCode(cfg: Config): (code: string)
    ensures |code| > 0
  {
    Upper(OrDefault(cfg.launchCouponCode, DefaultLaunchCode))
  }

  /** Whether a submitted coupon earns the configured discount. */
  function CouponMatches(cfg: Config, couponCode: Option<string>): (matches: bool)
    ensures matches ==> Truthy(cfg.launchCouponId) && Truthy(couponCode)
    ensures matches ==> Trim(couponCode.value) != "" && |Trim(couponCode.value)| == |LaunchCouponCode(cfg)|
  {
    && Truthy(couponCode)
    && Truthy(cfg.launchCouponId)
    && Upper(Trim(couponCode.value)) == LaunchCouponCode(cfg)
  }

  /** The coupon comparison ignores letter case. */
  lemma CouponIgnoresCase(cfg: Config, code: string)
    ensures CouponMatches(cfg, Some(Lower(code))) == CouponMatches(cfg, Some(code))
  {
    TrimOfLower(code);
    UpperOfLower(Trim(code));
  }

  /** The coupon comparison ignores surrounding whitespace. */
  lemma CouponIgnoresPadding(cfg: Config, before: string, code: string, after: string)
    requires AllWhitespace(before) && AllWhitespace(after)
    ensures CouponMatches(cfg, Some(before + code + after)) == CouponMatches(cfg, Some(code))
  {
    TrimIgnoresPadding(before, code, after);
    if code == [] {
      assert Trim(code) == [];
    }
  }

  lemma LaunchCodeIsTrimmed()
    ensures Trim("launch50") == "launch50"
  {
    var code := "launch50";
    assert code[0] == 'l' && code[|code| - 1] == '0';
    TrimOfClean(code);
  }

  lemma TrimPaddedLaunchCode()
    ensures Trim(" " + "launch50" + " ") == "launch50"
  {
    TrimIgnoresPadding(" ", "launch50", " ");
    LaunchCodeIsTrimmed();
  }

  lemma UpperLaunchCode()
    ensures Upper("launch50") == DefaultLaunchCode
    ensures Upper(DefaultLaunchCode) == DefaultLaunchCode
  {
    var up := Upper("launch50");
    assert up[0] == 'L' && up[1] == 'A' && up[2] == 'U' && up[3] == 'N';
    assert up[4] == 'C' && up[5] == 'H' && up[6] == '5' && up[7] == '0';
    var def := Upper(DefaultLaunchCode);
    assert def[0] == 'L' && def[1] == 'A' && def[2] == 'U' && def[3] == 'N';
    assert def[4] == 'C' && def[5] == 'H' && def[6] == '5' && def[7] == '0';
  }

  /** With no launch code configured and a coupon id set, a lower-case,
      padded `launch50` earns the discount and a truncated code does not. */
  lemma DefaultLaunchCodeMatches(cfg: Config)
    requires !Truthy(cfg.launchCouponCode) && Truthy(cfg.launchCouponId)
    ensures CouponMatches(cfg, Some(" " + "launch50" + " "))
    ensures !CouponMatches(cfg, Some("LAUNCH5"))
  {
    TrimPaddedLaunchCode();
    UpperLaunchCode();
    assert LaunchCouponCode(cfg) == DefaultLaunchCode;
    assert Upper(Trim(" " + "launch50" + " ")) == DefaultLaunchCode;
    var short := "LAUNCH5";
    assert |Trim(short)| <= |short| by {
      assert |TrimStart(short)| <= |short|;
    }
    assert |Upper(Trim(short))| != |DefaultLaunchCode|;
  }

  /** The `error` text of the catch-all reply: the authentication message,
      the API message, the error's own message, or the default, in that
      order. */
  function StripeErrorMessage(e: ThrownError): (m: string)
    ensures e.kind == Some("StripeAuthenticationError") ==> m == AuthenticationMessage
    ensures e.kind == Some("StripeAPIError") ==> m == "Stripe API error: " + e.message.GetOr("undefined")
    ensures e.kind != Some("StripeAuthenticationError") && e.kind != Some("StripeAPIError") ==>
      m == OrDefault(e.message, DefaultPaymentError)
    ensures m != ""
  {
    var errorMessage := DefaultPaymentError;
    if e.kind == Some("StripeAuthenticationError") then AuthenticationMessage
    else if e.kind == Some("StripeAPIError") then "Stripe API error: " + e.message.GetOr("undefined")
    else if Truthy(e.message) then e.message.value
    else errorMessage
  }

  /** The 500 reply of the catch block; `details` only in development. */
  function ErrorReply(cfg: Config, e: ThrownError): (r: Reply)
    ensures r.status == 500 && r.body.ErrorBody?
    ensures r.body.details.Some? ==> cfg.nodeEnv == Some("development")
  {
    Reply(500, ErrorBody(StripeErrorMessage(e), if cfg.nodeEnv == Some("development") then e.message else None))
  }

  /** POST /api/create-checkout-session. `sent` is the parameter record passed
      to the processor, when the request gets that far. */
  method CreateCheckoutSession(
    cfg: Config,
    body: Result<CheckoutBody, ThrownError>,
    createSession: SessionParams -> CreateResult)
    returns (reply: Reply, sent: Option<SessionParams>)
    // configuration first, then the body
    ensures !Truthy(cfg.stripeSecretKey) ==>
      reply == Reply(500, ErrorBody(SecretKeyMissing, None)) && sent.None?
    ensures Truthy(cfg.stripeSecretKey) && !Truthy(cfg.publicUrl) ==>
      reply == Reply(500, ErrorBody(PublicUrlMissing, None)) && sent.None?
    ensures Truthy(cfg.stripeSecretKey) && Truthy(cfg.publicUrl) && body.Failure? ==>
      reply == ErrorReply(cfg, body.error) && sent.None?
    ensures
      && Truthy(cfg.stripeSecretKey) && Truthy(cfg.publicUrl) && body.Success?
      && (!Truthy(body.value.userId) || !Truthy(body.value.email))
      ==> reply == Reply(400, ErrorBody(IdentityMissing, None)) && sent.None?
    ensures sent.Some? <==>
      Truthy(cfg.stripeSecretKey) && Truthy(cfg.publicUrl) && body.Success? &&
      Truthy(body.value.userId) && Truthy(body.value.email)
    // the parameter record
    ensures sent.Some? ==> SessionRecord(cfg, body.value, sent.value)
    // the processor's answer
    ensures sent.Some? && createSession(sent.value).CreateFailed? ==>
      reply == ErrorReply(cfg, createSession(sent.value).error)
    ensures sent.Some? && createSession(sent.value).Created? ==>
      var created := createSession(sent.value);
      reply == if Truthy(created.url) then Reply(200, SessionCreated(created.id, created.url.value))
               else Reply(500, ErrorBody(NoPaymentUrl, None))
  {
    sent := None;
    if !Truthy(cfg.stripeSecretKey) {
      return Reply(500, ErrorBody(SecretKeyMissing, None)), None;
    }
    if !Truthy(cfg.publicUrl) {
      return Reply(500, ErrorBody(PublicUrlMissing, None)), None;
    }
    if body.Failure? {
      // `request.json()` threw; the catch block answers.
      return ErrorReply(cfg, body.error), None;
    }
    var b := body.value;
    if !Truthy(b.userId) || !Truthy(b.email) {
      return Reply(400, ErrorBody(IdentityMissing, None)), None;
    }

    var sessionParams := BuildSessionParams(cfg, b);
    sent := Some(sessionParams);
    reply := AnswerSession(cfg, createSession(sessionParams));
  }

  /** The parameter record the endpoint sends for an identified body: card
      payment, the body's e-mail, the return URLs under the public URL, the
      user and plan in the metadata, one line item for the chosen plan, and
      the launch discount exactly for a monthly plan with a matching coupon,
      in which case the trimmed coupon is recorded in the metadata too. */
  predicate SessionRecord(cfg: Config, b: CheckoutBody, p: SessionParams) {
    var plan := NormalizedPlan(b.planType);
    && Truthy(cfg.publicUrl) && Truthy(b.userId) && Truthy(b.email)
    && p.paymentMethodTypes == ["card"]
    && p.customerEmail == b.email.value
    && p.successUrl == cfg.publicUrl.value + "/dashboard?success=true"
    && p.cancelUrl == cfg.publicUrl.value + "/dashboard"
    && "userId" in p.metadata && p.metadata["userId"] == b.userId.value
    && "planType" in p.metadata && p.metadata["planType"] == PlanTypeName(plan)
    && |p.lineItems| == 1
    && p.lineItems[0].currency == "usd" && p.lineItems[0].quantity == 1
    && (plan == LifetimeDeal ==>
          && p.mode == Some(Payment)
          && p.lineItems[0].unitAmount == 4900 && p.lineItems[0].recurringInterval.None?)
    && (plan == ProMonthly ==>
          && p.mode == Some(Subscription)
          && p.lineItems[0].unitAmount == 1000 && p.lineItems[0].recurringInterval == Some("month"))
    && (p.discounts != [] <==> plan == ProMonthly && CouponMatches(cfg, b.couponCode))
    && (p.discounts != [] ==>
          && p.discounts == [cfg.launchCouponId.value]
          && p.metadata == map["userId" := b.userId.value, "planType" := PlanTypeName(plan),
                               "couponCode" := Trim(b.couponCode.value)])
    && (p.discounts == [] ==>
          p.metadata == map["userId" := b.userId.value, "planType" := PlanTypeName(plan)])
  }

  /** The `sessionParams` object, built as the endpoint builds it: the common
      fields first, then the plan's branch, then the coupon. */
  method BuildSessionParams(cfg: Config, b: CheckoutBody) returns (sessionParams: SessionParams)
    requires Truthy(cfg.publicUrl) && Truthy(b.userId) && Truthy(b.email)
    ensures SessionRecord(cfg, b, sessionParams)
  {
    var normalizedPlan := NormalizedPlan(b.planType);
    var successUrl := cfg.publicUrl.value + "/dashboard?success=true";
    var cancelUrl := cfg.publicUrl.value + "/dashboard";
    var metadata := map["userId" := b.userId.value, "planType" := PlanTypeName(normalizedPlan)];
    sessionParams := SessionParams(["card"], b.email.value, successUrl, cancelUrl, metadata, None, [], []);

    if normalizedPlan == LifetimeDeal {
      sessionParams := sessionParams.(mode := Some(Payment), lineItems := [LifetimeItem]);
    } else {
      sessionParams := sessionParams.(mode := Some(Subscription), lineItems := [ProMonthlyItem]);
      if CouponMatches(cfg, b.couponCode) {
        sessionParams := sessionParams.(discounts := [cfg.launchCouponId.value]);
        // `metadata` is the same object as `sessionParams.metadata`
        metadata := metadata["couponCode" := Trim(b.couponCode.value)];
        sessionParams := sessionParams.(metadata := metadata);
      }
    }
  }

  /** The reply for the processor's answer to the session request. */
  method AnswerSession(cfg: Config, session: CreateResult) returns (reply: Reply)
    ensures session.CreateFailed? ==> reply == ErrorReply(cfg, session.error)
    ensures session.Created? ==>
      reply == if Truthy(session.url) then Reply(200, SessionCreated(session.id, session.url.value))
               else Reply(500, ErrorBody(NoPaymentUrl, None))
  {
    if session.CreateFailed? {
      return ErrorReply(cfg, session.error);
    }
    if !Truthy(session.url) {
      return Reply(500, ErrorBody(NoPaymentUrl, None));
    }
    reply := Reply(200, SessionCreated(session.id, session.url.value));
  }
}
