/** The plan registry of the billing library: the `PLANS` table, the reverse
    lookup from a payment-provider price id to a plan key, and the argument
    records the library passes to the payment provider when it opens a
    checkout or billing-portal session or flags a subscription for
    cancellation. */
module Plans {
  import opened Wrappers
  import opened JsValues
  import Text
  import Listing

  /** The plan column of an account: FREE and the three keys of `PLANS`. */
  datatype Plan = FREE | STARTER | PRO | AGENCY

  /** The keys of `PLANS`; there is no FREE entry. */
  type PlanKey = p: Plan | p != FREE witness STARTER

  /** The sentinel for "no limit". */
  const Unlimited: int := -1

  /** The response limit a new or downgraded account gets. */
  const FreeResponsesLimit: int := 5

  datatype Limits = Limits(responses: int, businesses: int, templates: int)

  function PlanName(p: Plan): string {
    match p
    case FREE => "FREE"
    case STARTER => "STARTER"
    case PRO => "PRO"
    case AGENCY => "AGENCY"
  }

  /** `PLANS[k].limits`: only AGENCY is unlimited, and it is unlimited in
      all three resources; every other limit is positive. */
  function PlanLimits(k: PlanKey): (r: Limits)
    ensures r.responses == Unlimited <==> k == AGENCY
    ensures k == AGENCY ==> r.businesses == Unlimited && r.templates == Unlimited
    ensures k != AGENCY ==> r.responses > 0 && r.businesses > 0 && r.templates > 0
  {
    if k == STARTER then Limits(100, 3, 10)
    else if k == PRO then Limits(500, 10, 50)
    else Limits(-1, -1, -1)
  }

  /** Paid plans rank above each other in declaration order: a later plan
      allows at least as many responses, businesses and templates. */
  lemma PlanLimitsGrow(k: PlanKey, k': PlanKey)
    requires Position(k) <= Position(k')
    ensures AtMost(PlanLimits(k).responses, PlanLimits(k').responses)
    ensures AtMost(PlanLimits(k).businesses, PlanLimits(k').businesses)
    ensures AtMost(PlanLimits(k).templates, PlanLimits(k').templates)
  {
  }

  /** Limit `a` allows no more than limit `b`. */
  predicate AtMost(a: int, b: int) {
    b == Unlimited || (a != Unlimited && a <= b)
  }

  /** The price ids of the three plans, read from the environment. */
  datatype PriceIds = PriceIds(starter: string, pro: string, agency: string)

  /** `PLANS[k].priceId`. */
  function PriceIdOf(prices: PriceIds, k: PlanKey): string {
    if k == STARTER then prices.starter
    else if k == PRO then prices.pro
    else prices.agency
  }

  /** The declaration order of the keys of `PLANS`, which is the order in
      which `Object.entries` yields them. */
  const DeclarationOrder: seq<PlanKey> := [STARTER, PRO, AGENCY]

  function Position(k: PlanKey): (i: nat)
    ensures i < |DeclarationOrder| && DeclarationOrder[i] == k
  {
    if k == STARTER then 0 else if k == PRO then 1 else 2
  }

  /** `getPlanFromPriceId`: the first plan, in declaration order, whose price
      id is `priceId`; None exactly when no plan has that price id. */
  function PlanFromPriceId(prices: PriceIds, priceId: string): (r: Option<PlanKey>)
    ensures r.Some? ==> PriceIdOf(prices, r.value) == priceId
    ensures r.None? <==> forall k: PlanKey :: PriceIdOf(prices, k) != priceId
    ensures r.Some? ==> forall k: PlanKey :: Position(k) < Position(r.value) ==> PriceIdOf(prices, k) != priceId
  {
    var r := Listing.Find(DeclarationOrder, (k: PlanKey) => PriceIdOf(prices, k) == priceId);
    assert r.None? ==> forall k: PlanKey :: PriceIdOf(prices, k) != priceId by {
      if r.None? {
        forall k: PlanKey ensures PriceIdOf(prices, k) != priceId {
          assert DeclarationOrder[Position(k)] == k;
        }
      }
    }
    r
  }

  predicate DistinctPrices(prices: PriceIds) {
    prices.starter != prices.pro && prices.starter != prices.agency && prices.pro != prices.agency
  }

  /** With distinct price ids, the price id of a plan leads back to that plan. */
  lemma PriceIdRoundTrip(prices: PriceIds, k: PlanKey)
    requires DistinctPrices(prices)
    ensures PlanFromPriceId(prices, PriceIdOf(prices, k)) == Some(k)
  {
    var r := PlanFromPriceId(prices, PriceIdOf(prices, k));
    assert r.Some?;
  }

  /** When plans share a price id, the one declared first wins. */
  lemma SharedPriceResolvesToFirst(prices: PriceIds)
    requires prices.pro == prices.agency != prices.starter
    ensures PlanFromPriceId(prices, prices.agency) == Some(PRO)
  {
    var r := PlanFromPriceId(prices, prices.agency);
    assert r.Some?;
    assert r.value != STARTER;
    assert r.value != AGENCY by {
      assert Position(PRO) < Position(AGENCY);
    }
  }

  /** One line of a checkout session; the price is `undefined` when the
      caller passes none. */
  datatype LineItem = LineItem(price: Option<string>, quantity: nat)

  /** The arguments `createCheckoutSession` gives the payment provider. */
  datatype CheckoutSessionParams = CheckoutSessionParams(
    customerEmail: string,
    clientReferenceId: string,
    mode: string,
    paymentMethodTypes: seq<string>,
    lineItems: seq<LineItem>,
    successUrl: string,
    cancelUrl: string,
    subscriptionMetadataUserId: string,
    metadataUserId: string)

  const SuccessQuery: string := "?success=true&session_id={CHECKOUT_SESSION_ID}"
  const CancelQuery: string := "?canceled=true"

  /** `s` with `suffix` removed from its end, if it ends with it. */
  function StripSuffix(s: string, suffix: string): (r: Option<string>)
    ensures r.Some? <==> Text.EndsWith(s, suffix)
    ensures r.Some? ==> r.value + suffix == s
  {
    if Text.EndsWith(s, suffix) then
      assert s == s[..|s| - |suffix|] + s[|s| - |suffix|..];
      Some(s[..|s| - |suffix|])
    else None
  }

  /** `createCheckoutSession`: a subscription checkout for one unit of
      `priceId`, tagged with the user id in three places, whose success and
      cancel URLs both lead back to `returnUrl`. */
  function CheckoutSession(userId: string, email: string, priceId: Option<string>, returnUrl: string): (r: CheckoutSessionParams)
    ensures r.lineItems == [LineItem(priceId, 1)]
    ensures r.mode == "subscription" && r.paymentMethodTypes == ["card"]
    ensures r.customerEmail == email
    ensures r.clientReferenceId == userId && r.metadataUserId == userId && r.subscriptionMetadataUserId == userId
    ensures StripSuffix(r.successUrl, SuccessQuery) == Some(returnUrl)
    ensures StripSuffix(r.cancelUrl, CancelQuery) == Some(returnUrl)
    ensures r.successUrl != r.cancelUrl
  {
    var success := returnUrl + SuccessQuery;
    var cancel := returnUrl + CancelQuery;
    assert success[..|success| - |SuccessQuery|] == returnUrl;
    assert cancel[..|cancel| - |CancelQuery|] == returnUrl;
    CheckoutSessionParams(email, userId, "subscription", ["card"], [LineItem(priceId, 1)],
      success, cancel, userId, userId)
  }

  /** The arguments `createBillingPortalSession` gives the payment provider. */
  datatype PortalSessionParams = PortalSessionParams(customer: string, returnUrl: string)

  /** The update `cancelSubscription` and `reactivateSubscription` send. */
  datatype SubscriptionUpdate = SubscriptionUpdate(subscriptionId: string, cancelAtPeriodEnd: bool)

  function CancelSubscription(subscriptionId: string): (r: SubscriptionUpdate)
    ensures r.subscriptionId == subscriptionId && r.cancelAtPeriodEnd
  {
    SubscriptionUpdate(subscriptionId, true)
  }

  function ReactivateSubscription(subscriptionId: string): (r: SubscriptionUpdate)
    ensures r.subscriptionId == subscriptionId && !r.cancelAtPeriodEnd
  {
    SubscriptionUpdate(subscriptionId, false)
  }

  /** Reactivating undoes cancelling: the two updates address the same
      subscription and differ only in the flag. */
  lemma ReactivateUndoesCancel(subscriptionId: string)
    ensures ReactivateSubscription(subscriptionId) == CancelSubscription(subscriptionId).(cancelAtPeriodEnd := false)
    ensures ReactivateSubscription(subscriptionId) != CancelSubscription(subscriptionId)
  {
  }

  // ---- Looking a plan up by name, as the subscription route does ----

  /** `PLANS` as an object literal: its own properties are the three keys. */
  function PlansObject(): map<string, PlanKey> {
    map["STARTER" := STARTER, "PRO" := PRO, "AGENCY" := AGENCY]
  }

  /** `PLANS[plan]` as the checkout action evaluates it, after `!plan`: a
      falsy plan finds nothing, and any other value is converted to a
      property key, which may also name a member inherited from
      `Object.prototype`. */
  function PlanLookupAsWritten(plan: Option<Json>): (r: Property<PlanKey>)
    ensures r.Found() ==> plan.Some? && JsonTruthy(plan.value)
    ensures r.Own? ==> plan.Some? && PropertyKey(plan.value) in PlansObject() && r.value == PlansObject()[PropertyKey(plan.value)]
    ensures r.Inherited? ==> plan.Some? && PropertyKey(plan.value) in ObjectPrototypeNames
  {
    if plan.None? || !JsonTruthy(plan.value) then Missing
    else Lookup(PlansObject(), PropertyKey(plan.value))
  }

  /** The guard of the checkout action as written: it passes when neither
      `!plan` nor `!PLANS[plan]` holds. */
  predicate PlanGuardPassesAsWritten(plan: Option<Json>) {
    PlanLookupAsWritten(plan).Found()
  }

  /** `PLANS[plan].priceId` once the guard has passed: the plan's price, or
      `undefined` when `PLANS[plan]` is an inherited member. */
  function SelectedPriceAsWritten(prices: PriceIds, plan: Option<Json>): (r: Option<string>)
    ensures r.Some? <==> PlanLookupAsWritten(plan).Own?
    ensures r.Some? ==> r.value == PriceIdOf(prices, PlanLookupAsWritten(plan).value)
  {
    match PlanLookupAsWritten(plan)
    case Own(k) => Some(PriceIdOf(prices, k))
    case _ => None
  }

  /** The guard as written lets the name of an inherited member through,
      although no plan has that name, and then selects no price. */
  lemma InheritedNamePassesPlanGuard(prices: PriceIds)
    ensures PlanGuardPassesAsWritten(Some(JStr("toString")))
    ensures PlanLookupAsWritten(Some(JStr("toString"))) == Inherited("toString")
    ensures SelectedPriceAsWritten(prices, Some(JStr("toString"))) == None
    ensures PlanByName(Some(JStr("toString"))) == None
  {
  }

  /** An array holding one plan name converts to that name, so the guard as
      written selects that plan for it. */
  lemma ArrayPlanPassesPlanGuard(prices: PriceIds)
    ensures PlanLookupAsWritten(Some(JArr([JStr("PRO")]))).Own?
    ensures PlanLookupAsWritten(Some(JArr([JStr("PRO")]))).value == PRO
    ensures SelectedPriceAsWritten(prices, Some(JArr([JStr("PRO")]))) == Some(prices.pro)
    ensures PlanByName(Some(JArr([JStr("PRO")]))) == None
  {
    assert PropertyKey(JArr([JStr("PRO")])) == "PRO";
  }

  /** The plan a request names: only a string that is one of the three keys
      of `PLANS` names a plan. */
  function PlanByName(plan: Option<Json>): (r: Option<PlanKey>)
    ensures r.Some? <==> plan.Some? && plan.value.JStr? && plan.value.s in PlansObject()
    ensures r.Some? ==> PlanName(r.value) == plan.value.s
  {
    if plan.Some? && plan.value.JStr? && plan.value.s in PlansObject() then
      Some(PlansObject()[plan.value.s])
    else None
  }

  /** The corrected lookup agrees with the guard as written on every string
      except the inherited member names; besides those, the guard as
      written passes only arrays that convert to a plan name or to an
      inherited member name. On a string plan both select the same plan. */
  lemma PlanByNameDiffersOnlyOnInheritedNames(plan: Option<Json>)
    ensures PlanGuardPassesAsWritten(plan) <==>
      || PlanByName(plan).Some?
      || (plan.Some? && plan.value.JStr? && plan.value.s in ObjectPrototypeNames)
      || (plan.Some? && plan.value.JArr? &&
            (PropertyKey(plan.value) in PlansObject() || PropertyKey(plan.value) in ObjectPrototypeNames))
    ensures PlanByName(plan).Some? ==> PlanLookupAsWritten(plan) == Own(PlanByName(plan).value)
  {
    if plan.Some? {
      match plan.value
      case JNum(n) =>
        var key := Text.IntToDecimal(n);
        assert key !in PlansObject() && key !in ObjectPrototypeNames by {
          assert key != "" && (key[0] == '-' || Text.IsDigitOf(key[0], 10));
          assert forall w :: w in PlansObject() || w in ObjectPrototypeNames ==> !Text.IsDigitOf(w[0], 10) && w[0] != '-';
        }
      case _ =>
    }
  }
}
