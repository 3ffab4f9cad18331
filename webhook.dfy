/** The payment-provider webhook: a signature gate, then one account
    transition per event kind. Unknown event kinds are acknowledged and
    ignored. The signature check (`constructEvent`) and
    `subscriptions.retrieve` are calls into the payment provider's SDK and
    appear here as functions the caller supplies. */
module StripeWebhook {
  import opened Wrappers
  import opened JsValues
  import opened Plans
  import opened Model

  /** A subscription as the payment provider reports it. `priceId` is the
      price of its first item, absent when it has no items. */
  datatype Subscription = Subscription(id: string, priceId: Option<string>, currentPeriodEnd: int)

  /** A verified event, by kind. */
  datatype Event =
    | CheckoutSessionCompleted(clientReferenceId: Option<string>, customer: string, subscription: string)
    | InvoicePaid(invoiceSubscription: Option<string>)
    | SubscriptionUpdated(updated: Subscription)
    | SubscriptionDeleted(deleted: Subscription)
    | Unhandled(eventType: string)

  /** `{received: true}`, the two signature rejections, or the handler failure. */
  datatype Reply = Received | NoSignature | InvalidSignature | HandlerFailed

  function Status(r: Reply): int {
    match r
    case Received => 200
    case NoSignature => 400
    case InvalidSignature => 400
    case HandlerFailed => 500
  }

  /** `new Date(current_period_end * 1000)`: seconds become milliseconds. */
  function PeriodEnd(sub: Subscription): int {
    sub.currentPeriodEnd * 1000
  }

  /** The plan of a subscription's price; a subscription without items has none. */
  function PlanOf(prices: PriceIds, sub: Subscription): (r: Option<PlanKey>)
    ensures r.Some? ==> sub.priceId.Some? && PriceIdOf(prices, r.value) == sub.priceId.value
  {
    match sub.priceId
    case None => None
    case Some(p) => PlanFromPriceId(prices, p)
  }

  // ---- Per-account transitions ----

  /** checkout.session.completed: the account takes the plan, its limit and
      fresh usage, and records the payment-provider references. */
  function ApplyCheckout(a: Account, k: PlanKey, customerId: string, subscriptionId: string,
                         priceId: string, periodEnd: int): (r: Account)
    ensures SameProfile(a, r)
    ensures r.plan == k && r.responsesLimit == PlanLimits(k).responses && r.responsesUsed == 0
    ensures r.stripeCustomerId == Some(customerId) && r.stripeSubscriptionId == Some(subscriptionId)
    ensures r.stripePriceId == Some(priceId) && r.stripeCurrentPeriodEnd == Some(periodEnd)
  {
    a.(stripeCustomerId := Some(customerId), stripeSubscriptionId := Some(subscriptionId),
       stripePriceId := Some(priceId), stripeCurrentPeriodEnd := Some(periodEnd),
       plan := k, responsesLimit := PlanLimits(k).responses, responsesUsed := 0)
  }

  /** The changes an event makes to the account that holds its subscription. */
  datatype HolderChange =
    | Renew(k: PlanKey, periodEnd: int)
    | ChangePlan(k: PlanKey, priceId: string, periodEnd: int)
    | Downgrade

  /** invoice.paid, customer.subscription.updated and .deleted, applied to
      the holder of the subscription. */
  function ApplyChange(a: Account, c: HolderChange): (r: Account)
    ensures SameProfile(a, r)
    ensures r.stripeCustomerId == a.stripeCustomerId
    ensures c.Renew? ==>
      && r.responsesUsed == 0 && r.responsesLimit == PlanLimits(c.k).responses
      && r.stripeCurrentPeriodEnd == Some(c.periodEnd)
      && r.plan == a.plan && r.stripePriceId == a.stripePriceId
      && r.stripeSubscriptionId == a.stripeSubscriptionId
    ensures c.ChangePlan? ==>
      && r.plan == c.k && r.responsesLimit == PlanLimits(c.k).responses
      && r.stripePriceId == Some(c.priceId) && r.stripeCurrentPeriodEnd == Some(c.periodEnd)
      && r.responsesUsed == a.responsesUsed && r.stripeSubscriptionId == a.stripeSubscriptionId
    ensures c.Downgrade? ==>
      && r.plan == FREE && r.responsesLimit == FreeResponsesLimit
      && r.stripeSubscriptionId == None && r.stripePriceId == None && r.stripeCurrentPeriodEnd == None
      && r.responsesUsed == a.responsesUsed
  {
    match c
    case Renew(k, periodEnd) =>
      a.(stripeCurrentPeriodEnd := Some(periodEnd), responsesUsed := 0,
         responsesLimit := PlanLimits(k).responses)
    case ChangePlan(k, priceId, periodEnd) =>
      a.(stripePriceId := Some(priceId), plan := k, responsesLimit := PlanLimits(k).responses,
         stripeCurrentPeriodEnd := Some(periodEnd))
    case Downgrade =>
      a.(stripeSubscriptionId := None, stripePriceId := None, stripeCurrentPeriodEnd := None,
         plan := FREE, responsesLimit := FreeResponsesLimit)
  }

  // ---- Store-level effects ----

  predicate Holds(users: map<UserId, Account>, u: UserId, subscriptionId: string) {
    u in users && users[u].stripeSubscriptionId == Some(subscriptionId)
  }

  /** The account holding `subscriptionId`, if there is one, gets `change`,
      and no other account changes. With several holders any one of them
      may be the one: the lookup has no ordering. */
  ghost predicate HolderChanged(before: map<UserId, Account>, after: map<UserId, Account>,
                                subscriptionId: string, change: HolderChange)
  {
    || ((forall v :: v in before ==> !Holds(before, v, subscriptionId)) && after == before)
    || (exists v :: Holds(before, v, subscriptionId) && after == before[v := ApplyChange(before[v], change)])
  }

  /** The whole effect of one verified event on the accounts, with its reply. */
  ghost predicate EventEffect(before: map<UserId, Account>, after: map<UserId, Account>, reply: Reply,
                              e: Event, retrieve: string -> Option<Subscription>, prices: PriceIds)
  {
    match e
    case CheckoutSessionCompleted(clientRef, customer, subscriptionId) =>
      if !Truthy(clientRef) then reply == Received && after == before
      else (match retrieve(subscriptionId)
        case None => reply == HandlerFailed && after == before
        case Some(sub) =>
          (match PlanOf(prices, sub)
           case None => reply == Received && after == before
           case Some(k) =>
             if clientRef.value in before then
               && reply == Received
               && after == before[clientRef.value := ApplyCheckout(before[clientRef.value], k, customer,
                                                                   subscriptionId, sub.priceId.value, PeriodEnd(sub))]
             else reply == HandlerFailed && after == before))
    case InvoicePaid(subscriptionId) =>
      if !Truthy(subscriptionId) then reply == Received && after == before
      else (match retrieve(subscriptionId.value)
        case None => reply == HandlerFailed && after == before
        case Some(sub) =>
          && reply == Received
          && (match PlanOf(prices, sub)
              case None => after == before
              case Some(k) => HolderChanged(before, after, subscriptionId.value, Renew(k, PeriodEnd(sub)))))
    case SubscriptionUpdated(sub) =>
      && reply == Received
      && (match PlanOf(prices, sub)
          case None => after == before
          case Some(k) => HolderChanged(before, after, sub.id, ChangePlan(k, sub.priceId.value, PeriodEnd(sub))))
    case SubscriptionDeleted(sub) =>
      reply == Received && HolderChanged(before, after, sub.id, Downgrade)
    case Unhandled(_) =>
      reply == Received && after == before
  }

  /** The whole effect of one delivery: the signature gate, then the event. */
  ghost predicate WebhookEffect(before: map<UserId, Account>, after: map<UserId, Account>, reply: Reply,
                                body: string, signature: Option<string>,
                                construct: (string, string) -> Option<Event>,
                                retrieve: string -> Option<Subscription>, prices: PriceIds)
  {
    if !Truthy(signature) then reply == NoSignature && after == before
    else match construct(body, signature.value)
      case None => reply == InvalidSignature && after == before
      case Some(e) => EventEffect(before, after, reply, e, retrieve, prices)
  }

  // ---- The handler ----

  /** `findFirst({ where: { stripeSubscriptionId } })`: some account holding
      the subscription id, or none when no account holds it. */
  method FindBySubscription(users: map<UserId, Account>, subscriptionId: string) returns (u: Option<UserId>)
    ensures u.Some? ==> Holds(users, u.value, subscriptionId)
    ensures u.None? <==> forall v :: v in users ==> !Holds(users, v, subscriptionId)
  {
    if v :| v in users && Holds(users, v, subscriptionId) {
      u := Some(v);
    } else {
      u := None;
    }
  }

  /** Updates the holder of `subscriptionId`, if any, with `change`. */
  method UpdateHolder(db: Store, subscriptionId: string, change: HolderChange)
    requires db.Valid()
    modifies db`users
    ensures db.Valid()
    ensures HolderChanged(old(db.users), db.users, subscriptionId, change)
  {
    var holder := FindBySubscription(db.users, subscriptionId);
    if holder.Some? {
      var v := holder.value;
      db.users := db.users[v := ApplyChange(db.users[v], change)];
      assert Holds(old(db.users), v, subscriptionId);
    }
  }

  method OnCheckoutCompleted(db: Store, clientRef: Option<string>, customer: string, subscriptionId: string,
                             retrieve: string -> Option<Subscription>, prices: PriceIds) returns (reply: Reply)
    requires db.Valid()
    modifies db`users
    ensures db.Valid()
    ensures EventEffect(old(db.users), db.users, reply,
                        CheckoutSessionCompleted(clientRef, customer, subscriptionId), retrieve, prices)
  {
    if !Truthy(clientRef) {
      return Received;
    }
    var sub := retrieve(subscriptionId);
    if sub.None? {
      return HandlerFailed;
    }
    var planKey := PlanOf(prices, sub.value);
    if planKey.None? {
      return Received;
    }
    var userId := clientRef.value;
    if userId !in db.users {
      // The update of a missing record throws.
      return HandlerFailed;
    }
    db.users := db.users[userId := ApplyCheckout(db.users[userId], planKey.value, customer, subscriptionId,
                                                 sub.value.priceId.value, PeriodEnd(sub.value))];
    reply := Received;
  }

  method OnInvoicePaid(db: Store, subscriptionId: Option<string>,
                       retrieve: string -> Option<Subscription>, prices: PriceIds) returns (reply: Reply)
    requires db.Valid()
    modifies db`users
    ensures db.Valid()
    ensures EventEffect(old(db.users), db.users, reply, InvoicePaid(subscriptionId), retrieve, prices)
  {
    if !Truthy(subscriptionId) {
      return Received;
    }
    var sub := retrieve(subscriptionId.value);
    if sub.None? {
      return HandlerFailed;
    }
    var planKey := PlanOf(prices, sub.value);
    if planKey.Some? {
      UpdateHolder(db, subscriptionId.value, Renew(planKey.value, PeriodEnd(sub.value)));
    }
    reply := Received;
  }

  method OnSubscriptionUpdated(db: Store, sub: Subscription, prices: PriceIds, ghost retrieve: string -> Option<Subscription>)
    returns (reply: Reply)
    requires db.Valid()
    modifies db`users
    ensures db.Valid()
    ensures EventEffect(old(db.users), db.users, reply, SubscriptionUpdated(sub), retrieve, prices)
  {
    var planKey := PlanOf(prices, sub);
    if planKey.Some? {
      UpdateHolder(db, sub.id, ChangePlan(planKey.value, sub.priceId.value, PeriodEnd(sub)));
    }
    reply := Received;
  }

  method OnSubscriptionDeleted(db: Store, sub: Subscription, prices: PriceIds, ghost retrieve: string -> Option<Subscription>)
    returns (reply: Reply)
    requires db.Valid()
    modifies db`users
    ensures db.Valid()
    ensures EventEffect(old(db.users), db.users, reply, SubscriptionDeleted(sub), retrieve, prices)
  {
    UpdateHolder(db, sub.id, Downgrade);
    reply := Received;
  }

  /** The webhook `POST`. */
  method HandleWebhook(db: Store, body: string, signature: Option<string>,
                       construct: (string, string) -> Option<Event>,
                       retrieve: string -> Option<Subscription>, prices: PriceIds) returns (reply: Reply)
    requires db.Valid()
    modifies db`users
    ensures db.Valid()
    ensures WebhookEffect(old(db.users), db.users, reply, body, signature, construct, retrieve, prices)
  {
    if !Truthy(signature) {
      return NoSignature;
    }
    var event := construct(body, signature.value);
    if event.None? {
      return InvalidSignature;
    }
    match event.value
    case CheckoutSessionCompleted(clientRef, customer, subscriptionId) =>
      reply := OnCheckoutCompleted(db, clientRef, customer, subscriptionId, retrieve, prices);
    case InvoicePaid(subscriptionId) =>
      reply := OnInvoicePaid(db, subscriptionId, retrieve, prices);
    case SubscriptionUpdated(sub) =>
      reply := OnSubscriptionUpdated(db, sub, prices, retrieve);
    case SubscriptionDeleted(sub) =>
      reply := OnSubscriptionDeleted(db, sub, prices, retrieve);
    case Unhandled(_) =>
      reply := Received;
  }
}

/** What the webhook's transitions promise, over the relational
    predicate `StripeWebhook.EventEffect`. */
module WebhookProperties {
  import opened Wrappers
  import opened JsValues
  import opened Plans
  import opened Model
  import opened StripeWebhook

  /** A delivery without a signature, or whose signature does not verify,
      is answered 400 and changes no account. */
  lemma RejectedDeliveryChangesNothing(before: map<UserId, Account>, after: map<UserId, Account>, reply: Reply,
                                       body: string, signature: Option<string>,
                                       construct: (string, string) -> Option<Event>,
                                       retrieve: string -> Option<Subscription>, prices: PriceIds)
    requires WebhookEffect(before, after, reply, body, signature, construct, retrieve, prices)
    requires !Truthy(signature) || construct(body, signature.value).None?
    ensures after == before && Status(reply) == 400
  {
  }

  /** Names the account a holder change touched, if any. */
  lemma HolderOf(before: map<UserId, Account>, after: map<UserId, Account>, subscriptionId: string, c: HolderChange)
    returns (w: Option<UserId>)
    requires HolderChanged(before, after, subscriptionId, c)
    ensures w.None? ==> after == before
    ensures w.Some? ==> Holds(before, w.value, subscriptionId)
                        && after == before[w.value := ApplyChange(before[w.value], c)]
  {
    if exists v :: Holds(before, v, subscriptionId) && after == before[v := ApplyChange(before[v], c)] {
      var v :| Holds(before, v, subscriptionId) && after == before[v := ApplyChange(before[v], c)];
      w := Some(v);
    } else {
      w := None;
    }
  }

  /** Replacing one account by one with the same profile and either the
      same or a zero usage count is a change of at most that account. */
  lemma OneAccountReplaced(before: map<UserId, Account>, v: UserId, a: Account)
    requires v in before && SameProfile(before[v], a)
    requires a.responsesUsed == before[v].responsesUsed || a.responsesUsed == 0
    ensures var after := before[v := a];
      && after.Keys == before.Keys
      && (forall u :: u in before && u != v ==> after[u] == before[u])
      && SameProfile(before[v], after[v])
      && (after[v].responsesUsed == before[v].responsesUsed || after[v].responsesUsed == 0)
  {
  }

  /** A holder change replaces at most the holder's account, as above. */
  lemma HolderChangeReplacesOne(before: map<UserId, Account>, after: map<UserId, Account>, subscriptionId: string,
                                c: HolderChange)
    returns (w: Option<UserId>)
    requires HolderChanged(before, after, subscriptionId, c)
    ensures w.None? ==> after == before
    ensures w.Some? ==>
      && w.value in before && after.Keys == before.Keys
      && (forall u :: u in before && u != w.value ==> after[u] == before[u])
      && SameProfile(before[w.value], after[w.value])
      && (after[w.value].responsesUsed == before[w.value].responsesUsed || after[w.value].responsesUsed == 0)
  {
    w := HolderOf(before, after, subscriptionId, c);
    if w.Some? {
      OneAccountReplaced(before, w.value, ApplyChange(before[w.value], c));
    }
  }

  /** Every event changes at most one account, keeps the set of accounts,
      keeps that account's profile and customer id once it has one, and
      either keeps its usage count or resets it to zero. */
  lemma EventChangesAtMostOneAccount(before: map<UserId, Account>, after: map<UserId, Account>, reply: Reply,
                                     e: Event, retrieve: string -> Option<Subscription>, prices: PriceIds)
    returns (w: Option<UserId>)
    requires EventEffect(before, after, reply, e, retrieve, prices)
    ensures w.None? ==> after == before
    ensures w.Some? ==>
      && w.value in before && after.Keys == before.Keys
      && (forall u :: u in before && u != w.value ==> after[u] == before[u])
      && SameProfile(before[w.value], after[w.value])
      && (after[w.value].responsesUsed == before[w.value].responsesUsed || after[w.value].responsesUsed == 0)
  {
    match e
    case CheckoutSessionCompleted(clientRef, customer, subscriptionId) =>
      if Truthy(clientRef) && retrieve(subscriptionId).Some?
         && PlanOf(prices, retrieve(subscriptionId).value).Some? && clientRef.value in before {
        w := Some(clientRef.value);
        var sub := retrieve(subscriptionId).value;
        OneAccountReplaced(before, w.value, ApplyCheckout(before[w.value], PlanOf(prices, sub).value, customer,
                                                          subscriptionId, sub.priceId.value, PeriodEnd(sub)));
      } else {
        w := None;
      }
    case InvoicePaid(subscriptionId) =>
      if Truthy(subscriptionId) && retrieve(subscriptionId.value).Some?
         && PlanOf(prices, retrieve(subscriptionId.value).value).Some? {
        var sub := retrieve(subscriptionId.value).value;
        w := HolderChangeReplacesOne(before, after, subscriptionId.value, Renew(PlanOf(prices, sub).value, PeriodEnd(sub)));
      } else {
        w := None;
      }
    case SubscriptionUpdated(sub) =>
      if PlanOf(prices, sub).Some? {
        w := HolderChangeReplacesOne(before, after, sub.id, ChangePlan(PlanOf(prices, sub).value, sub.priceId.value, PeriodEnd(sub)));
      } else {
        w := None;
      }
    case SubscriptionDeleted(sub) =>
      w := HolderChangeReplacesOne(before, after, sub.id, Downgrade);
    case Unhandled(_) =>
      w := None;
  }

  /** No event renames, adds or removes an account, or touches a profile. */
  lemma EventKeepsAccountsAndProfiles(before: map<UserId, Account>, after: map<UserId, Account>, reply: Reply,
                                      e: Event, retrieve: string -> Option<Subscription>, prices: PriceIds)
    requires EventEffect(before, after, reply, e, retrieve, prices)
    ensures after.Keys == before.Keys
    ensures forall u :: u in before ==> SameProfile(before[u], after[u])
  {
    var w := EventChangesAtMostOneAccount(before, after, reply, e, retrieve, prices);
  }

  /** A completed checkout for a known account and price leaves that
      account able to generate again: its usage is zero and its limit is
      positive or unlimited. */
  lemma CheckoutOpensQuota(before: map<UserId, Account>, after: map<UserId, Account>, reply: Reply,
                           clientRef: Option<string>, customer: string, subscriptionId: string,
                           retrieve: string -> Option<Subscription>, prices: PriceIds)
    requires EventEffect(before, after, reply, CheckoutSessionCompleted(clientRef, customer, subscriptionId), retrieve, prices)
    requires reply == Received && Truthy(clientRef) && clientRef.value in before
    requires retrieve(subscriptionId).Some? && PlanOf(prices, retrieve(subscriptionId).value).Some?
    ensures QuotaAllows(after[clientRef.value]) && WithinQuota(after[clientRef.value])
  {
    var k := PlanOf(prices, retrieve(subscriptionId).value).value;
    assert after[clientRef.value].responsesLimit == PlanLimits(k).responses;
  }

  /** `customer.subscription.deleted` forgets the prior plan: two accounts
      that differ only in their plan and subscription fields end up equal. */
  lemma DeletionForgetsPriorPlan(a: Account, b: Account)
    requires SameProfile(a, b) && a.stripeCustomerId == b.stripeCustomerId && a.responsesUsed == b.responsesUsed
    ensures ApplyChange(a, Downgrade) == ApplyChange(b, Downgrade)
  {
  }

  /** Paying the first invoice of a fresh checkout only moves the period
      end: the plan, price and zero usage stay as the checkout set them. */
  lemma InvoiceAfterCheckout(a: Account, k: PlanKey, customer: string, subscriptionId: string, priceId: string,
                             periodEnd: int, nextPeriodEnd: int)
    ensures ApplyChange(ApplyCheckout(a, k, customer, subscriptionId, priceId, periodEnd), Renew(k, nextPeriodEnd))
         == ApplyCheckout(a, k, customer, subscriptionId, priceId, nextPeriodEnd)
  {
  }

  /** Each holder change is idempotent on the account. */
  lemma ChangeIdempotent(a: Account, c: HolderChange)
    ensures ApplyChange(ApplyChange(a, c), c) == ApplyChange(a, c)
  {
  }

  /** Re-delivering a deletion changes nothing when at most one account held
      the subscription: the first delivery cleared the only holder's id. */
  lemma RedeliveredDeletionChangesNothing(before: map<UserId, Account>, middle: map<UserId, Account>,
                                          after: map<UserId, Account>, subscriptionId: string)
    requires forall u, v :: Holds(before, u, subscriptionId) && Holds(before, v, subscriptionId) ==> u == v
    requires HolderChanged(before, middle, subscriptionId, Downgrade)
    requires HolderChanged(middle, after, subscriptionId, Downgrade)
    ensures after == middle
  {
    var w := HolderOf(before, middle, subscriptionId, Downgrade);
    var w' := HolderOf(middle, after, subscriptionId, Downgrade);
    if w'.Some? {
      assert Holds(before, w'.value, subscriptionId);
      assert false;
    }
  }

  /** The plan-changing events do not reset usage, so a cancellation, or a
      move to a plan with a smaller limit, leaves an account over its new
      limit exactly when its usage already exceeds that limit. */
  lemma DowngradeCanLeaveUsageAboveLimit(a: Account, k: PlanKey, priceId: string, periodEnd: int)
    ensures !QuotaAllows(ApplyChange(a, Downgrade)) <==> a.responsesUsed >= FreeResponsesLimit
    ensures !WithinQuota(ApplyChange(a, Downgrade)) <==> a.responsesUsed > FreeResponsesLimit || a.responsesUsed < 0
    ensures PlanLimits(k).responses != Unlimited ==>
      (!QuotaAllows(ApplyChange(a, ChangePlan(k, priceId, periodEnd))) <==> a.responsesUsed >= PlanLimits(k).responses)
    ensures PlanLimits(k).responses != Unlimited ==>
      (!WithinQuota(ApplyChange(a, ChangePlan(k, priceId, periodEnd))) <==>
         a.responsesUsed > PlanLimits(k).responses || a.responsesUsed < 0)
    ensures PlanLimits(k).responses == Unlimited ==>
      QuotaAllows(ApplyChange(a, ChangePlan(k, priceId, periodEnd))) && WithinQuota(ApplyChange(a, ChangePlan(k, priceId, periodEnd)))
  {
  }
}
