/** The subscription route: `POST` opens a checkout session for a named
    plan or a billing-portal session for an existing customer, and `GET`
    reports the caller's plan and usage. Neither writes to the store; the
    accounts change only when the payment provider later calls the webhook.
    The session-creating calls into the payment provider are a function the
    caller supplies. */
module SubscriptionRoute {
  import opened Wrappers
  import opened JsValues
  import opened Plans
  import opened Model
  import StripeWebhook

  datatype SubscriptionReply =
    | Unauthorized
    | AccountMissing
    | InvalidPlan
    | NoCustomer
    | InvalidAction
    | Failed
    | SessionUrl(url: string)

  function Status(r: SubscriptionReply): int {
    match r
    case Unauthorized => 401
    case AccountMissing => 404
    case InvalidPlan => 400
    case NoCustomer => 400
    case InvalidAction => 400
    case Failed => 500
    case SessionUrl(_) => 200
  }

  /** The payment-provider session the route asks for. */
  datatype SessionRequest =
    | OpenCheckout(checkout: CheckoutSessionParams)
    | OpenPortal(portal: PortalSessionParams)

  const DefaultAppUrl: string := "http://localhost:3000"
  const BillingPath: string := "/billing"

  /** `process.env.NEXT_PUBLIC_APP_URL || "http://localhost:3000"`, then the
      billing page: an unset or empty variable falls back to the default. */
  function BillingUrl(appUrl: Option<string>): (r: string)
    ensures StripSuffix(r, BillingPath) == Some(if Truthy(appUrl) then appUrl.value else DefaultAppUrl)
  {
    var base := if Truthy(appUrl) then appUrl.value else DefaultAppUrl;
    var r := base + BillingPath;
    assert r[..|r| - |BillingPath|] == base;
    r
  }

  /** Reading `action` and `plan` out of the body throws for a body that is
      not JSON or is `null`; any other value reads its members. */
  predicate Destructurable(body: Option<Json>) {
    body.Some? && !body.value.JNull?
  }

  /** The session the `POST` asks the payment provider for, or the reply it
      gives instead. The body is read before the account is looked up. */
  function SessionFor(users: map<UserId, Account>, caller: Option<UserId>, body: Option<Json>,
                      appUrl: Option<string>, prices: PriceIds): (r: Result<SessionRequest, SubscriptionReply>)
    ensures r == Err(Unauthorized) <==> caller.None?
    ensures r == Err(Failed) <==> caller.Some? && !Destructurable(body)
    ensures r == Err(AccountMissing) <==> caller.Some? && Destructurable(body) && caller.value !in users
    ensures r.Ok? ==> caller.Some? && caller.value in users && Destructurable(body)
    ensures r == Err(InvalidPlan) <==>
      && caller.Some? && Destructurable(body) && caller.value in users
      && Member(body.value, "action") == Some(JStr("checkout"))
      && !PlanGuardPassesAsWritten(Member(body.value, "plan"))
    ensures r.Ok? && r.value.OpenCheckout? ==>
      var a := users[caller.value];
      var plan := Member(body.value, "plan");
      && Member(body.value, "action") == Some(JStr("checkout"))
      && PlanGuardPassesAsWritten(plan)
      && r.value.checkout.lineItems == [LineItem(SelectedPriceAsWritten(prices, plan), 1)]
      && (r.value.checkout.lineItems[0].price.None? <==> PlanLookupAsWritten(plan).Inherited?)
      && r.value.checkout.clientReferenceId == a.id
      && r.value.checkout.customerEmail == a.email
      && StripSuffix(r.value.checkout.successUrl, SuccessQuery) == Some(BillingUrl(appUrl))
      && StripSuffix(r.value.checkout.cancelUrl, CancelQuery) == Some(BillingUrl(appUrl))
    ensures r == Err(NoCustomer) <==>
      && caller.Some? && Destructurable(body) && caller.value in users
      && Member(body.value, "action") == Some(JStr("portal"))
      && !Truthy(users[caller.value].stripeCustomerId)
    ensures r.Ok? && r.value.OpenPortal? ==>
      && Member(body.value, "action") == Some(JStr("portal"))
      && users[caller.value].stripeCustomerId == Some(r.value.portal.customer)
      && r.value.portal.customer != ""
      && r.value.portal.returnUrl == BillingUrl(appUrl)
    ensures r == Err(InvalidAction) <==>
      && caller.Some? && Destructurable(body) && caller.value in users
      && Member(body.value, "action") != Some(JStr("checkout"))
      && Member(body.value, "action") != Some(JStr("portal"))
  {
    if caller.None? then Err(Unauthorized)
    else if !Destructurable(body) then Err(Failed)
    else if caller.value !in users then Err(AccountMissing)
    else
      var a := users[caller.value];
      var action := Member(body.value, "action");
      if action == Some(JStr("checkout")) then
        var plan := Member(body.value, "plan");
        if !PlanGuardPassesAsWritten(plan) then Err(InvalidPlan)
        else Ok(OpenCheckout(CheckoutSession(a.id, a.email, SelectedPriceAsWritten(prices, plan), BillingUrl(appUrl))))
      else if action == Some(JStr("portal")) then
        if !Truthy(a.stripeCustomerId) then Err(NoCustomer)
        else Ok(OpenPortal(PortalSessionParams(a.stripeCustomerId.value, BillingUrl(appUrl))))
      else Err(InvalidAction)
  }

  /** The `POST` reply: the refusal, or the URL of the session the provider
      opened, or a failure when the provider call throws. */
  function Post(users: map<UserId, Account>, caller: Option<UserId>, body: Option<Json>,
                appUrl: Option<string>, prices: PriceIds, open: SessionRequest -> Option<string>): (r: SubscriptionReply)
    ensures r.SessionUrl? <==>
      && SessionFor(users, caller, body, appUrl, prices).Ok?
      && open(SessionFor(users, caller, body, appUrl, prices).value).Some?
    ensures r.SessionUrl? ==> Some(r.url) == open(SessionFor(users, caller, body, appUrl, prices).value)
    ensures SessionFor(users, caller, body, appUrl, prices).Err? ==> r == SessionFor(users, caller, body, appUrl, prices).error
  {
    match SessionFor(users, caller, body, appUrl, prices)
    case Err(reply) => reply
    case Ok(request) =>
      match open(request)
      case None => Failed
      case Some(url) => SessionUrl(url)
  }

  /** The guard as written lets an inherited member name through: the route
      asks for a checkout without a price, and when the provider refuses it
      the reply is a failure rather than an invalid plan. */
  lemma InheritedPlanNameOpensPricelessCheckout(users: map<UserId, Account>, u: UserId, appUrl: Option<string>,
                                                prices: PriceIds, open: SessionRequest -> Option<string>)
    requires u in users
    ensures var body := JObj(map["action" := JStr("checkout"), "plan" := JStr("toString")]);
      var r := SessionFor(users, Some(u), Some(body), appUrl, prices);
      && r.Ok? && r.value.OpenCheckout?
      && r.value.checkout.lineItems == [LineItem(None, 1)]
      && (open(r.value).None? ==> Post(users, Some(u), Some(body), appUrl, prices, open) == Failed)
  {
    var body := JObj(map["action" := JStr("checkout"), "plan" := JStr("toString")]);
    assert Member(body, "plan") == Some(JStr("toString"));
    InheritedNamePassesPlanGuard(prices);
  }

  /** An array holding a plan name passes the guard as written and opens a
      checkout for that plan's price. */
  lemma ArrayPlanOpensCheckout(users: map<UserId, Account>, u: UserId, appUrl: Option<string>, prices: PriceIds)
    requires u in users
    ensures var body := JObj(map["action" := JStr("checkout"), "plan" := JArr([JStr("PRO")])]);
      var r := SessionFor(users, Some(u), Some(body), appUrl, prices);
      && r.Ok? && r.value.OpenCheckout?
      && r.value.checkout.lineItems == [LineItem(Some(prices.pro), 1)]
  {
    var body := JObj(map["action" := JStr("checkout"), "plan" := JArr([JStr("PRO")])]);
    assert Member(body, "plan") == Some(JArr([JStr("PRO")]));
    ArrayPlanPassesPlanGuard(prices);
  }

  /** A checkout the route opens, once paid, comes back through the webhook
      as the plan the request selected: the session's client reference is
      the caller's id, its only price resolves to the selected plan, and the
      webhook gives the account that plan's limit and fresh usage. A
      checkout opened for an inherited member name carries no price, so the
      webhook leaves every account as it was. */
  lemma CheckoutComesBackAsRequestedPlan(users: map<UserId, Account>, u: UserId, body: Json, appUrl: Option<string>,
                                         prices: PriceIds, params: CheckoutSessionParams,
                                         after: map<UserId, Account>, reply: StripeWebhook.Reply,
                                         customer: string, subscriptionId: string,
                                         sub: StripeWebhook.Subscription,
                                         retrieve: string -> Option<StripeWebhook.Subscription>)
    requires DistinctPrices(prices)
    requires u in users && users[u].id == u && u != ""
    requires SessionFor(users, Some(u), Some(body), appUrl, prices) == Ok(OpenCheckout(params))
    requires retrieve(subscriptionId) == Some(sub) && sub.priceId == params.lineItems[0].price
    requires StripeWebhook.EventEffect(users, after, reply,
      StripeWebhook.CheckoutSessionCompleted(Some(params.clientReferenceId), customer, subscriptionId), retrieve, prices)
    ensures PlanGuardPassesAsWritten(Member(body, "plan"))
    ensures reply == StripeWebhook.Received
    ensures PlanLookupAsWritten(Member(body, "plan")).Own? ==>
      var k := PlanLookupAsWritten(Member(body, "plan")).value;
      && after.Keys == users.Keys
      && after[u].plan == k
      && after[u].responsesLimit == PlanLimits(k).responses
      && after[u].responsesUsed == 0
      && after[u].stripeSubscriptionId == Some(subscriptionId)
    ensures PlanLookupAsWritten(Member(body, "plan")).Inherited? ==> after == users
  {
    var lookup := PlanLookupAsWritten(Member(body, "plan"));
    if lookup.Own? {
      PriceIdRoundTrip(prices, lookup.value);
      assert StripeWebhook.PlanOf(prices, sub) == Some(lookup.value);
    }
  }

  /** What `GET` reports. */
  datatype SubscriptionInfo = SubscriptionInfo(
    plan: Plan,
    hasActiveSubscription: bool,
    currentPeriodEnd: Option<int>,
    responsesUsed: int,
    responsesLimit: int)

  /** `GET`: the caller's plan, usage and limit, and whether a subscription
      id is on record. */
  function Get(users: map<UserId, Account>, caller: Option<UserId>): (r: Result<SubscriptionInfo, SubscriptionReply>)
    ensures r.Ok? <==> caller.Some? && caller.value in users
    ensures r == Err(Unauthorized) <==> caller.None?
    ensures r.Err? ==> r.error == Unauthorized || r.error == AccountMissing
    ensures r.Ok? ==>
      var a := users[caller.value];
      && r.value.plan == a.plan
      && (r.value.hasActiveSubscription <==> Truthy(a.stripeSubscriptionId))
      && r.value.currentPeriodEnd == a.stripeCurrentPeriodEnd
      && r.value.responsesUsed == a.responsesUsed && r.value.responsesLimit == a.responsesLimit
  {
    if caller.None? then Err(Unauthorized)
    else if caller.value !in users then Err(AccountMissing)
    else
      var a := users[caller.value];
      Ok(SubscriptionInfo(a.plan, Truthy(a.stripeSubscriptionId), a.stripeCurrentPeriodEnd,
                          a.responsesUsed, a.responsesLimit))
  }

  /** After the webhook's checkout an account reports an active
      subscription on the paid plan; after a deletion it reports none, on
      the free plan. */
  lemma ReportedStateFollowsWebhook(users: map<UserId, Account>, u: UserId, k: PlanKey, customer: string,
                                    subscriptionId: string, priceId: string, periodEnd: int)
    requires u in users && subscriptionId != ""
    ensures var paid := users[u := StripeWebhook.ApplyCheckout(users[u], k, customer, subscriptionId, priceId, periodEnd)];
      && Get(paid, Some(u)).Ok?
      && Get(paid, Some(u)).value.hasActiveSubscription
      && Get(paid, Some(u)).value.plan == k
    ensures var gone := users[u := StripeWebhook.ApplyChange(users[u], StripeWebhook.Downgrade)];
      && Get(gone, Some(u)).Ok?
      && !Get(gone, Some(u)).value.hasActiveSubscription
      && Get(gone, Some(u)).value.plan == FREE
      && Get(gone, Some(u)).value.responsesLimit == FreeResponsesLimit
  {
  }
}
