/** The records the routes read and write, and the store that holds them.
    The store stands for the database behind the ORM: one map of accounts
    keyed by the identity provider's user id, and one table per row kind.
    Row ids come from a counter, so a new row's id is never an existing one. */
module Model {
  import opened Wrappers
  import opened Plans
  import opened Tones

  type UserId = string
  type RowId = nat

  /** The account ("user") record. */
  datatype Account = Account(
    id: UserId,
    email: string,
    name: Option<string>,
    avatarUrl: Option<string>,
    businessName: Option<string>,
    businessType: Option<string>,
    brandVoice: Option<string>,
    plan: Plan,
    responsesUsed: int,
    responsesLimit: int,
    stripeCustomerId: Option<string>,
    stripeSubscriptionId: Option<string>,
    stripePriceId: Option<string>,
    stripeCurrentPeriodEnd: Option<int>,
    updatedAt: int)

  /** The profile fields agree: identity, contact details, business details. */
  predicate SameProfile(a: Account, b: Account) {
    && a.id == b.id && a.email == b.email && a.name == b.name && a.avatarUrl == b.avatarUrl
    && a.businessName == b.businessName && a.businessType == b.businessType
    && a.brandVoice == b.brandVoice && a.updatedAt == b.updatedAt
  }

  /** The billing fields agree: plan, usage, limit and payment-provider references. */
  predicate SameBilling(a: Account, b: Account) {
    && a.plan == b.plan && a.responsesUsed == b.responsesUsed && a.responsesLimit == b.responsesLimit
    && a.stripeCustomerId == b.stripeCustomerId && a.stripeSubscriptionId == b.stripeSubscriptionId
    && a.stripePriceId == b.stripePriceId && a.stripeCurrentPeriodEnd == b.stripeCurrentPeriodEnd
  }

  /** Profile and billing fields together are the whole record, so a change
      that keeps one group and states the other states the whole new record. */
  lemma ProfileAndBillingCoverAccount(a: Account, b: Account)
    ensures a == b <==> SameProfile(a, b) && SameBilling(a, b)
  {
  }

  /** The quota check of the generation route: the limit is the unlimited
      sentinel, or usage is below it. */
  predicate QuotaAllows(a: Account) {
    a.responsesLimit == Unlimited || a.responsesUsed < a.responsesLimit
  }

  /** Usage within the plan's limit. */
  predicate WithinQuota(a: Account) {
    a.responsesLimit == Unlimited || 0 <= a.responsesUsed <= a.responsesLimit
  }

  /** The creation gate of the template and business routes: the plan's
      limit is unlimited, or the caller owns fewer rows than it allows.
      Which limits count as unlimited is decided by `isUnlimited`. */
  predicate UnderLimit(count: int, limit: int, isUnlimited: int -> bool) {
    isUnlimited(limit) || count < limit
  }

  /** One generated reply (the `reviewResponse` table). */
  datatype ReviewResponse = ReviewResponse(
    id: RowId,
    userId: UserId,
    reviewText: string,
    reviewerName: Option<string>,
    reviewRating: Option<int>,
    reviewPlatform: Option<string>,
    responseText: string,
    responseTone: Tone,
    tokensUsed: int,
    modelUsed: string)

  /** One usage-ledger entry (the `usageRecord` table), without its cost. */
  datatype UsageRecord = UsageRecord(
    userId: UserId,
    action: string,
    tokensUsed: int,
    responseId: RowId,
    tone: Tone,
    platform: Option<string>)

  datatype Template = Template(
    id: RowId,
    userId: UserId,
    name: string,
    description: Option<string>,
    category: Option<string>,
    promptTemplate: string,
    exampleOutput: Option<string>,
    tone: Option<Tone>,
    isPublic: bool,
    createdAt: int)

  datatype Business = Business(
    id: RowId,
    userId: UserId,
    name: string,
    businessType: Option<string>,
    description: Option<string>,
    address: Option<string>,
    phone: Option<string>,
    website: Option<string>,
    brandVoice: Option<Tone>,
    toneKeywords: Option<seq<string>>,
    avoidKeywords: Option<seq<string>>,
    createdAt: int)

  class Store {
    var users: map<UserId, Account>
    var responses: seq<ReviewResponse>
    var usage: seq<UsageRecord>
    var templates: seq<Template>
    var businesses: seq<Business>
    var nextId: RowId

    /** Accounts are stored under their own id, and every row id is below
        the counter. */
    ghost predicate Valid()
      reads this
    {
      && (forall u :: u in users ==> users[u].id == u)
      && (forall i :: 0 <= i < |responses| ==> responses[i].id < nextId)
      && (forall i :: 0 <= i < |templates| ==> templates[i].id < nextId)
      && (forall i :: 0 <= i < |businesses| ==> businesses[i].id < nextId)
    }

    constructor ()
      ensures Valid()
      ensures users == map[] && responses == [] && usage == [] && templates == [] && businesses == []
    {
      users := map[];
      responses := [];
      usage := [];
      templates := [];
      businesses := [];
      nextId := 0;
    }
  }
}
