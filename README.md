# ReplyFlow core, modelled in Dafny

ReplyFlow writes replies to customer reviews with a language model and sells
monthly reply quotas through a payment provider. This project models the part
of the service that makes decisions:

- **Billing state machine.** A signed payment-provider webhook moves an
  account between plans. Checkout completed, invoice paid, subscription
  updated and subscription deleted each write a fixed set of fields. Every
  other event is acknowledged and ignored. Accounts start as FREE with 0 of 5
  replies used.
- **Quota-gated generation.** A generation request goes through these steps
  in order:
  1. authenticate;
  2. load the account;
  3. check the quota;
  4. validate the body;
  5. call the generator;
  6. store one reply row;
  7. increment `responsesUsed`;
  8. append one usage record.
- **Creation gates and listing filters.** These cover templates and
  businesses:
  - a count-against-limit gate;
  - field bounds;
  - owner and public filters, sorted newest first.
- **Account route.** `GET` returns the caller's profile. `PATCH` may change
  only four profile fields.
- **Subscription route.** Dispatches on the action: checkout, portal, or
  anything else.
- **Prompt assembly.** Builds the system and user prompts, post-processes
  the completion, falls back to the original text when an edit comes back
  empty, and picks tones for several replies at once.
- **Contact form.** Validates the form, maps the subject to a category and
  builds a base-36 ticket id.
- **Help centre and blog.** Looks up articles and posts by slug.

The database is the class `Model.Store`. Its fields are a map from user id to
`Account` and sequences of reply rows, usage records, templates and
businesses. Routes that write are methods with `modifies` clauses. Each
route method except the webhook handlers is proved equal to a pure function
of the old state, and the properties are lemmas about that function. The
webhook handlers are tied instead to a relational predicate of the old and
new state, because `findFirst` may return any account that holds a
subscription id.

Calls into other systems are function-typed parameters, chosen by the
caller:

- the webhook signature check and `subscriptions.retrieve`;
- the code exchange of the sign-in provider;
- the chat completion;
- the checkout and portal session creation;
- the e-mail and URL checks of the validation library.

Request bodies are `Option<Json>`; `None` is a body that does not parse.

Some behaviours of the code are easy to misread; the model keeps them as
the code has them:

- A generation counts usage upwards: it increments `responsesUsed`, and the
  remaining quota is the limit minus that count.
- A `customer.subscription.deleted` event clears the subscription, price and
  period end, but keeps `stripeCustomerId`.
- The subscription `POST` reads the body before it looks up the account. A
  body that cannot be destructured gives 500 even for an unknown account.
  The endpoint answers 401, 404, three different 400 errors and 500.
- `PATCH /api/user` returns the whole updated account record, payment
  references included. `GET /api/user` selects fewer columns.

## Model

| member | source | states |
|---|---|---|
| Plans.PlanLimits | src/lib/stripe.ts:8-69 | AGENCY alone has unlimited (-1) replies, and its business and template limits are unlimited too; every other plan has positive limits |
| Plans.PlanLimitsGrow | src/lib/stripe.ts:8-69 | a plan later in the table never has a smaller reply, business or template limit, where unlimited is the largest |
| Plans.PlanFromPriceId | src/lib/stripe.ts:144-151 | a returned key has exactly that price id and no earlier plan has it; null exactly when no plan has the price id |
| Plans.PriceIdRoundTrip | src/lib/stripe.ts:144-151 | with distinct price ids, resolving a plan's own price id gives that plan back |
| Plans.SharedPriceResolvesToFirst | src/lib/stripe.ts:144-151 | when PRO and AGENCY share a price id, it resolves to PRO, the earlier plan in declaration order |
| Plans.CheckoutSession | src/lib/stripe.ts:73-108 | one line item of quantity 1 with the given price, or with no price when none is given; subscription mode; card payment; user id as client reference and in metadata; success and cancel URLs are the return URL plus their two distinct query strings |
| Plans.CancelSubscription | src/lib/stripe.ts:130-135 | the update targets the given subscription and sets cancel-at-period-end |
| Plans.ReactivateSubscription | src/lib/stripe.ts:137-142 | the update targets the given subscription and clears cancel-at-period-end |
| Plans.ReactivateUndoesCancel | src/lib/stripe.ts:130-142 | reactivating is the cancel request with only the flag reversed, and the two requests differ |
| Plans.PlanLookupAsWritten | src/app/api/subscription/route.ts:29-33 | a falsy or absent plan finds nothing; any other plan is converted to a property key, and finds a plan exactly when that key is an own key of `PLANS`, or an inherited member exactly when the key names a member of `Object.prototype` |
| Plans.SelectedPriceAsWritten | src/app/api/subscription/route.ts:33-37 | the price of the plan the lookup finds as an own key; undefined exactly when the lookup finds something else |
| Plans.InheritedNamePassesPlanGuard | src/app/api/subscription/route.ts:29-37 | the plan "toString" passes the `PLANS[plan]` guard as written, although it names no plan, and selects no price |
| Plans.ArrayPlanPassesPlanGuard | src/app/api/subscription/route.ts:29-37 | the plan `["PRO"]` converts to the key "PRO", so the guard as written selects PRO and its price, while the corrected lookup refuses it |
| Plans.PlanByName | src/app/api/subscription/route.ts:29-33 | a plan is found exactly when the body's `plan` is a string naming an own key of `PLANS`, and its name is that string |
| Plans.PlanByNameDiffersOnlyOnInheritedNames | src/app/api/subscription/route.ts:29-31 | the guard as written passes exactly for the strings that are plan names or inherited member names and for the arrays that convert to one of them; where the corrected lookup finds a plan, the guard as written finds the same one |
| Tones.ParseTone | src/app/api/generate/route.ts:14 | a parsed tone's name is the input string; no tone when no tone has that name |
| Tones.ParseToneName | src/app/api/generate/route.ts:14 | parsing a tone's name gives the tone back |
| StripeWebhook.PlanOf | src/app/api/webhooks/stripe/route.ts:43-50 | a plan found for a subscription has exactly the subscription's first price id |
| StripeWebhook.ApplyCheckout | src/app/api/webhooks/stripe/route.ts:55-66 | checkout sets the plan, its reply limit, usage 0, and the customer, subscription, price and period-end references; the profile is unchanged |
| StripeWebhook.ApplyChange | src/app/api/webhooks/stripe/route.ts:93-155 | invoice paid resets usage and refreshes the limit and period end, keeping plan and price; an update sets plan, limit, price and period end, keeping usage; deletion sets FREE with limit 5 and clears the subscription, price and period end, keeping usage and customer |
| StripeWebhook.FindBySubscription | src/app/api/webhooks/stripe/route.ts:84-86 | a found account holds the subscription id; none is found exactly when no account holds it |
| StripeWebhook.UpdateHolder | src/app/api/webhooks/stripe/route.ts:88-100 | the holder of the subscription id, if any, gets the change and no other account changes |
| StripeWebhook.OnCheckoutCompleted | src/app/api/webhooks/stripe/route.ts:30-70 | no client reference or an unknown price changes nothing and is acknowledged; a failed retrieval or an unknown account gives 500 and changes nothing; otherwise exactly that account gets the checkout |
| StripeWebhook.OnInvoicePaid | src/app/api/webhooks/stripe/route.ts:72-104 | no subscription id, no holder, or an unknown price changes nothing; otherwise the holder's usage is reset for the next period |
| StripeWebhook.OnSubscriptionUpdated | src/app/api/webhooks/stripe/route.ts:106-133 | an unknown price or no holder changes nothing; otherwise the holder moves to the new plan and price without a usage reset |
| StripeWebhook.OnSubscriptionDeleted | src/app/api/webhooks/stripe/route.ts:135-159 | the holder, if any, is downgraded to FREE |
| StripeWebhook.HandleWebhook | src/app/api/webhooks/stripe/route.ts:10-172 | a missing signature gives 400 and a failed verification gives 400, neither with a write; a verified event has exactly its event's effect |
| WebhookProperties.RejectedDeliveryChangesNothing | src/app/api/webhooks/stripe/route.ts:12-27 | a delivery without a signature, or with one that fails verification, leaves every account as it was and answers 400 |
| WebhookProperties.EventChangesAtMostOneAccount | src/app/api/webhooks/stripe/route.ts:29-165 | an event changes at most one account; it never adds or removes accounts or touches profiles; usage is either kept or reset to 0 |
| WebhookProperties.EventKeepsAccountsAndProfiles | src/app/api/webhooks/stripe/route.ts:29-165 | no event adds or removes an account or changes a profile field |
| WebhookProperties.CheckoutOpensQuota | src/app/api/webhooks/stripe/route.ts:55-66 | after a successful checkout the account is within its quota and may generate again |
| WebhookProperties.DeletionForgetsPriorPlan | src/app/api/webhooks/stripe/route.ts:146-155 | two accounts that differ only in plan, limit and subscription references are equal after deletion |
| WebhookProperties.InvoiceAfterCheckout | src/app/api/webhooks/stripe/route.ts:93-100 | an invoice for the plan just bought gives the checkout state with the new period end |
| WebhookProperties.ChangeIdempotent | src/app/api/webhooks/stripe/route.ts:93-155 | applying any of the three holder changes twice is applying it once |
| WebhookProperties.RedeliveredDeletionChangesNothing | src/app/api/webhooks/stripe/route.ts:135-159 | when one account holds the subscription, a second delivery of the same deletion changes nothing |
| WebhookProperties.DowngradeCanLeaveUsageAboveLimit | src/app/api/webhooks/stripe/route.ts:146-155 | deletion and plan updates keep usage: after a deletion every account that used at least 5 replies is refused, and one that used more than 5 is over its limit; after an update to a limited plan the same holds with that plan's limit; an update to AGENCY always allows more |
| Generate.ValidateGenerateAccepts | src/app/api/generate/route.ts:7-16 | a body is accepted exactly when reviewText has at least 10 characters, reviewRating is in 1..5 when present, businessName is a string, tone is one of the five when present, and the optional strings are strings; the tone defaults to professional; a refusal lists at least one issue |
| Generate.ValidationIgnoresUnknownKeys | src/app/api/generate/route.ts:7-16 | keys outside `generateSchema` do not change the validation result |
| Generate.Outcome | src/app/api/generate/route.ts:18-119 | 401 exactly without a session, 404 exactly without an account, 403 exactly for an account out of quota; a refusal writes nothing; a generation needs a valid body, stores one row with the next id for the caller, counts one more reply and appends one usage record |
| Generate.HandleGenerate | src/app/api/generate/route.ts:18-119 | the reply, accounts, reply rows, usage records and next row id are those of the pure outcome function of the route |
| Generate.RefusalsWriteNothing | src/app/api/generate/route.ts:20-45 | 401 without a user, 404 without an account, 403 over quota, 400 only for a body the schema refuses, 500 only for an unparsable body or a failed generation; none of these writes anything |
| Generate.SuccessWritesOneRow | src/app/api/generate/route.ts:61-103 | a success needs a caller within quota and a valid body; it writes one row with the caller, text, tone and tokens, adds 1 to `responsesUsed`, appends one usage record, and returns the new row's id |
| Generate.OutcomeKeepsWithinQuota | src/app/api/generate/route.ts:35-80 | one request keeps every account within its quota, never lowers a count, and changes no profile or limit |
| Generate.QuotaCheckedBeforeBody | src/app/api/generate/route.ts:35-45 | an account over its quota gets 403 whatever body it sends |
| Generate.RunKeepsWithinQuota | src/app/api/generate/route.ts:35-80 | any series of requests handled one at a time keeps every account within its quota |
| Prompts.RatingContext | src/lib/openai.ts:49-51 | empty exactly when no non-zero rating is given; otherwise the rating in decimal between the fixed prefix and suffix |
| Prompts.RatingContextRoundTrip | src/lib/openai.ts:49-51 | the digits inside the rating sentence read back as the rating |
| Prompts.ReviewerContext | src/lib/openai.ts:53-55 | names the reviewer followed by a period when a name is given; otherwise the fixed not-provided sentence |
| Prompts.BusinessContext | src/lib/openai.ts:57-59 | "X is a T." when a business type is given; otherwise "The business is X." |
| Prompts.SourceSystemPromptCarriesTone | src/lib/openai.ts:26-76 | with the service's wording, the system message opens with its fixed head followed by the instruction of the requested tone, professional by default |
| Prompts.SystemPrompt | src/lib/openai.ts:61-76 | opens with the fixed head, then the instruction of the effective tone, then the guidelines; the custom block appears exactly when instructions are non-empty; ends with the language line |
| Prompts.CustomBlockOnlyInserts | src/lib/openai.ts:74 | custom instructions only insert their block at one offset into the prompt without them |
| Prompts.EmptyCustomInstructionsIgnored | src/lib/openai.ts:74 | empty custom instructions give the same prompt as none |
| Prompts.UserPrompt | src/lib/openai.ts:78-87 | the opening, then the business, rating and reviewer context, then the quoted review and the tone request |
| Prompts.ResponseText | src/lib/openai.ts:103 | the trimmed completion, no longer than it and with no whitespace at either end; empty exactly when the completion is all whitespace, or when there is none |
| Prompts.GenerateReviewResponse | src/lib/openai.ts:39-111 | fails exactly when the completion fails; otherwise the response text, the tokens with 0 as default, and the fixed model name |
| Prompts.GeneratedResponseIsTrimmed | src/lib/openai.ts:103 | trimming a generated response again changes nothing |
| Prompts.ImproveResponse | src/lib/openai.ts:113-142 | the trimmed edit, or the original response when the edit is empty after trimming; tokens default to 0 |
| Prompts.ImprovedNeverEmpty | src/lib/openai.ts:138 | a non-empty original never comes back empty |
| Prompts.SliceEnd | src/lib/openai.ts:153 | the end index that `slice(0, count)` uses: clamped to the length, and counted from the end when negative |
| Prompts.TonesFor | src/lib/openai.ts:144-153 | a prefix of professional, friendly, empathetic in that order, as long as `slice(0, count)` makes it: `count` when it is between 0 and 3, all three above that or without a count, and 3 + `count`, at least 0, for a negative one |
| Prompts.NonPositiveCountsShortenTones | src/lib/openai.ts:151-153 | a count of 0 asks for no reply; -1 and -2 drop tones from the back; -3 and below ask for none |
| Prompts.GenerateMultiple | src/lib/openai.ts:144-158 | one reply per selected tone in order, each the single reply in that tone; fails exactly when one of them fails |
| Prompts.AllSome | src/lib/openai.ts:152-156 | all results when every call succeeded, in order; nothing when any failed |
| Prompts.MultipleRepliesUseTheirTones | src/lib/openai.ts:153-155 | the i-th reply's user prompt ends with the quoted review and the request for the i-th tone |
| Prompts.DefaultCountUsesAllTones | src/lib/openai.ts:146-153 | with no count, or a count of at least 3, all three tones are used in order |
| SubscriptionRoute.BillingUrl | src/app/api/subscription/route.ts:23 | the app URL, or "http://localhost:3000" when it is unset or empty, followed by "/billing" |
| SubscriptionRoute.SessionFor | src/app/api/subscription/route.ts:6-63 | 401 exactly without a user; 500 for a body that cannot be destructured; 404 exactly without an account; "Invalid plan" exactly for a checkout whose plan fails the guard as written; otherwise a checkout for the caller with billing return URLs and one line item holding the selected price, which is absent exactly when the plan named an inherited member; "No active subscription" exactly for a portal request without a customer id; a portal request uses the account's customer; "Invalid action" exactly for any other action |
| SubscriptionRoute.Post | src/app/api/subscription/route.ts:6-71 | a session URL exactly when the request is valid and the provider opens the session; each refusal is the one chosen above |
| SubscriptionRoute.InheritedPlanNameOpensPricelessCheckout | src/app/api/subscription/route.ts:29-69 | a checkout for the plan "toString" is not refused as an invalid plan: the route asks for a session without a price, and answers 500 when the provider refuses it |
| SubscriptionRoute.ArrayPlanOpensCheckout | src/app/api/subscription/route.ts:29-39 | a checkout for the plan `["PRO"]` asks for a session with PRO's price |
| SubscriptionRoute.CheckoutComesBackAsRequestedPlan | src/app/api/subscription/route.ts:33-39 | with distinct price ids, completing an opened checkout is acknowledged; when the plan was found as an own key of `PLANS` it puts the caller on exactly that plan with usage 0, and when it named an inherited member the session has no price and no account changes |
| SubscriptionRoute.Get | src/app/api/subscription/route.ts:73-109 | 401 exactly without a user and 404 without an account; otherwise plan, period end and usage as stored, with `hasActiveSubscription` exactly when a subscription id is set |
| SubscriptionRoute.ReportedStateFollowsWebhook | src/app/api/subscription/route.ts:95-101 | after a checkout the route reports an active subscription on the new plan; after a deletion it reports none, on FREE with limit 5 |
| AuthCallback.SignedInUser | src/app/api/auth/callback/route.ts:10-14 | a user is signed in exactly when a non-empty code is exchanged successfully |
| AuthCallback.RedirectTarget | src/app/api/auth/callback/route.ts:8-47 | the origin plus "/login?error=auth-failed" on failure; otherwise the origin plus the redirect parameter, or plus "/dashboard" when the parameter is absent or empty |
| AuthCallback.RedirectCanLeaveOrigin | src/app/api/auth/callback/route.ts:42 | a redirect parameter "@other" sends a signed-in user to the host "other" |
| AuthCallback.SafePath | src/app/api/auth/callback/route.ts:8 | always a path starting with "/"; a redirect parameter that starts with "/" is kept |
| AuthCallback.SafeRedirectTarget | src/app/api/auth/callback/route.ts:42 | the same target as written for every redirect parameter that starts with "/" or is absent |
| AuthCallback.SafeRedirectStaysOnOrigin | src/app/api/auth/callback/route.ts:42 | the corrected target's host is always the origin's host |
| AuthCallback.DisplayName | src/app/api/auth/callback/route.ts:23 | the metadata name when it is non-empty, otherwise the full name |
| AuthCallback.NewAccount | src/app/api/auth/callback/route.ts:27-35 | a first sign-in creates an account on FREE with 0 of 5 replies used and no payment references |
| AuthCallback.Refreshed | src/app/api/auth/callback/route.ts:21-26 | a returning sign-in writes only email, name, avatar and update time; a value the provider leaves undefined keeps the stored one; plan, usage and payment references are unchanged |
| AuthCallback.Synced | src/app/api/auth/callback/route.ts:19-40 | the upsert adds at most the signed-in user's account, keeps an existing account's billing, and writes nothing for a new user without an e-mail |
| AuthCallback.SyncedChangesOnlyTheUser | src/app/api/auth/callback/route.ts:19-40 | the upsert touches only the signed-in user; it keeps their billing; a new user starts on FREE within quota; a new user without an e-mail is not created |
| AuthCallback.SyncedIdempotent | src/app/api/auth/callback/route.ts:19-36 | signing in twice at the same moment leaves the accounts as signing in once |
| AuthCallback.HandleCallback | src/app/api/auth/callback/route.ts:5-48 | redirects to the target as written; a failed sign-in writes nothing; a successful one applies the upsert |
| TemplatesRoute.ListTemplates | src/app/api/templates/route.ts:26-40 | exactly the templates that are the caller's, or public when `includePublic` is "true", matching a non-empty category filter; each kept as often as stored, newest first |
| TemplatesRoute.ListingRespectsOwnership | src/app/api/templates/route.ts:30-36 | another user's private template is never listed; the caller's own template of the category always is; without `includePublic` only the caller's templates are listed |
| TemplatesRoute.GetTemplates | src/app/api/templates/route.ts:19-62 | 401 exactly without a session; otherwise the listing for the caller, which holds only stored templates that are the caller's or public |
| TemplatesRoute.ParseCategory | src/app/api/templates/route.ts:10 | accepted exactly for positive, negative, neutral and complaint |
| TemplatesRoute.ValidateTemplateAccepts | src/app/api/templates/route.ts:7-15 | accepted exactly when the name has 1..100 characters and the prompt 1..5000, the description at most 500, the example at most 2000, category and tone are in their lists, and isPublic is a boolean, each when present |
| TemplatesRoute.OwnedCountIsFilterLength | src/app/api/templates/route.ts:81-83 | the caller's template count is the length of the owner filter |
| TemplatesRoute.CreateOutcome | src/app/api/templates/route.ts:64-116 | 401 exactly without a session; a row is created exactly when the reply is Created, and then it is the one new row, it has the next id, it belongs to the caller and the caller was under the template limit |
| TemplatesRoute.HandleCreateTemplate | src/app/api/templates/route.ts:64-116 | the reply, the template rows and the next row id are those of the pure outcome function of the route |
| TemplatesRoute.RefusalsCreateNothing | src/app/api/templates/route.ts:66-94 | nothing is created exactly when the reply is not 201; 401 exactly without a user; 403 exactly at the limit, whatever the body; 400 exactly for a refused body under the limit |
| TemplatesRoute.CreatedTemplateIsOwned | src/app/api/templates/route.ts:96-103 | a created template is the one new row, owned by the caller, with the new id and the validated name and prompt; it is public only when asked; status 201 |
| TemplatesRoute.CreationStaysWithinLimit | src/app/api/templates/route.ts:81-101 | a creation adds one to the caller's count, never past a finite limit, and leaves other users' counts alone |
| BusinessesRoute.ListBusinesses | src/app/api/businesses/route.ts:26-28 | exactly the caller's businesses, each as often as stored, newest first |
| BusinessesRoute.GetBusinesses | src/app/api/businesses/route.ts:19-53 | 401 exactly without a session; otherwise the listing of exactly the caller's businesses |
| BusinessesRoute.WebsiteCheck | src/app/api/businesses/route.ts:13 | a website passes exactly when it is absent, empty, or a URL |
| BusinessesRoute.ValidateBusinessAccepts | src/app/api/businesses/route.ts:7-17 | accepted exactly when the name has 1..200 characters, type at most 100, description at most 1000, address at most 500 and phone at most 50; the website is a URL or empty, the brand voice is one of the tones, and both keyword lists hold only strings, each when present |
| BusinessesRoute.OwnedCountIsListingLength | src/app/api/businesses/route.ts:72-74 | the caller's business count is the length of their listing |
| BusinessesRoute.BusinessNoun | src/app/api/businesses/route.ts:79 | "businesses" exactly when the limit is above 1, otherwise "business" |
| BusinessesRoute.StoredWebsite | src/app/api/businesses/route.ts:88-91 | an empty or absent website is stored as null; any other is kept |
| BusinessesRoute.CreateOutcome | src/app/api/businesses/route.ts:55-113 | 401 exactly without a session; a row is created exactly when the reply is Created, and then it is the one new row, it has the next id, it belongs to the caller and the caller was under the business limit |
| BusinessesRoute.HandleCreateBusiness | src/app/api/businesses/route.ts:55-113 | the reply, the business rows and the next row id are those of the pure outcome function of the route |
| BusinessesRoute.RefusalsCreateNothing | src/app/api/businesses/route.ts:57-85 | nothing is created exactly when the reply is not 201; 401 exactly without a user; 404 exactly without an account; 403 exactly at the limit, whatever the body, with a message that ends in the right noun |
| BusinessesRoute.CreatedBusinessIsOwned | src/app/api/businesses/route.ts:88-100 | a created business is the one new row, owned by the caller, with the new id and validated name, and a website only when one was given; status 201 |
| BusinessesRoute.CreationStaysWithinLimit | src/app/api/businesses/route.ts:72-98 | a creation adds one to the caller's count, never past a finite limit, and leaves other users' counts alone |
| UserRoute.GetUser | src/app/api/user/route.ts:13-45 | 401 exactly without a user, 404 exactly without an account, otherwise the stored profile with plan and usage |
| UserRoute.ProfileHidesPaymentReferences | src/app/api/user/route.ts:20-34 | accounts that differ only in payment references show the same profile |
| UserRoute.ValidateUpdate | src/app/api/user/route.ts:6-11 | accepted exactly when a present name has at least 2 characters and the other three fields are strings when present; each field is set exactly when the body has it |
| UserRoute.ValidationIgnoresUnknownKeys | src/app/api/user/route.ts:6-11 | keys outside `updateSchema` do not change the validation result |
| UserRoute.Updated | src/app/api/user/route.ts:57-63 | the fields the body carries are written with the update time; every other field, including plan, usage, limit and payment references, is kept |
| UserRoute.Patch | src/app/api/user/route.ts:47-78 | 401 exactly without a session; every reply other than the updated account leaves the accounts alone; an update replaces only the caller's existing account, keeps its billing and stamps the update time |
| UserRoute.HandlePatchUser | src/app/api/user/route.ts:47-78 | the reply and the accounts are those of the pure outcome function of the route |
| UserRoute.PatchWritesOnlyWhitelist | src/app/api/user/route.ts:54-63 | a PATCH changes at most the caller's account and never its billing, e-mail or avatar; it returns the stored record; 400 exactly for a body the schema refuses; nothing changes unless it succeeds |
| UserRoute.PatchIdempotent | src/app/api/user/route.ts:57-63 | sending the same update twice at the same moment is sending it once |
| ContactRoute.EmailCheck | src/app/api/contact/route.ts:6 | passes exactly when the e-mail is a string the e-mail check accepts |
| ContactRoute.ValidateContact | src/app/api/contact/route.ts:4-10 | accepted exactly when the name has at least 2 characters, the e-mail is valid, the company is a string when present, the subject has at least 1 character and the message at least 10; the result carries those fields; a refusal lists at least one issue |
| ContactRoute.ValidationIgnoresUnknownKeys | src/app/api/contact/route.ts:4-10 | keys outside `contactSchema` do not change the validation result |
| ContactRoute.CategoryAsWritten | src/app/api/contact/route.ts:47 | the label of a known subject; otherwise the subject itself, unless it names an inherited member |
| ContactRoute.InheritedSubjectIsNoCategory | src/app/api/contact/route.ts:47 | the subjects "toString" and "constructor" get an inherited function as their category |
| ContactRoute.Category | src/app/api/contact/route.ts:31-38 | the label of the six known subjects, otherwise the subject; never empty for a non-empty subject |
| ContactRoute.CategoryDiffersOnlyOnInheritedNames | src/app/api/contact/route.ts:31-47 | the corrected category agrees with the expression as written exactly for subjects that are not inherited member names |
| ContactRoute.TicketId | src/app/api/contact/route.ts:41 | "RF-" followed by base-36 digits with no lower-case letters |
| ContactRoute.TicketIdRoundTrip | src/app/api/contact/route.ts:41 | the digits after "RF-" read in base 36 give the timestamp back |
| ContactRoute.TicketIdsDiffer | src/app/api/contact/route.ts:41 | different timestamps give different ticket ids |
| ContactRoute.Submit | src/app/api/contact/route.ts:12-63 | 500 exactly for a body that does not parse; 400 exactly for a refused form, with its issues; otherwise the fixed message, a ticket id that reads back as the time, and the category as written: the label of a known subject, the inherited member for an inherited member name, the subject itself otherwise, which is the corrected category for every subject that is not an inherited member name |
| Content.GetHelpArticle | src/lib/help-data.ts:884-886 | the first article with the slug; none exactly when no article has it |
| Content.GetArticlesByCategory | src/lib/help-data.ts:888-890 | exactly the articles of the category, each as often as it occurs |
| Content.CategoryListingKeepsOrder | src/lib/help-data.ts:888-890 | the listing of two concatenated parts is the first part's listing followed by the second's, so the original order is kept |
| Content.GetAllHelpSlugs | src/lib/help-data.ts:892-894 | one slug per article, position by position |
| Content.GetHelpCategory | src/lib/help-data.ts:896-898 | the first category with the slug; none exactly when no category has it |
| Content.HelpSlugsResolve | src/lib/help-data.ts:884-894 | every listed help slug opens an article, and with distinct slugs it is the very article listed |
| Content.GetBlogPost | src/lib/blog-data.ts:700-702 | the first post with the slug; none exactly when no post has it |
| Content.GetAllBlogSlugs | src/lib/blog-data.ts:704-706 | one slug per post, position by position |
| Content.BlogSlugsResolve | src/lib/blog-data.ts:700-706 | every listed blog slug opens a post, and with distinct slugs it is the very post listed |
| Content.UnlistedBlogSlugIsNotFound | src/lib/blog-data.ts:700-706 | a slug opens a post exactly when it is among the listed slugs |
| Text.Trim | src/lib/openai.ts:103 | no whitespace at either end, never longer than the input, empty exactly when the input is all whitespace |
| Text.TrimIsInfix | src/lib/openai.ts:103 | the trimmed text is a contiguous part of the input, with only whitespace before and after it |
| Text.TrimIdempotent | src/lib/openai.ts:103 | trimming twice is trimming once |
| Text.IntToDecimal | src/app/api/templates/route.ts:88 | an integer in a template literal: at least one character, starting with "-" exactly for a negative number |
| Text.NatToString | src/app/api/contact/route.ts:41 | `toString(base)`: at least one digit, every character a digit of the base, no leading zero |
| Text.ParseNatToString | src/app/api/contact/route.ts:41 | reading the digits of a number back gives the number |
| Text.ParseNatUpper | src/app/api/contact/route.ts:41 | upper-casing digits does not change their value |
| Listing.Find | src/lib/help-data.ts:884-886 | `Array.prototype.find`: the first element that satisfies the test, or none exactly when none does |
| Listing.Filter | src/lib/help-data.ts:888-890 | `Array.prototype.filter`: exactly the elements that pass, each as often as it occurs |
| Listing.FilterConcat | src/lib/help-data.ts:888-890 | filtering distributes over concatenation, so filtering keeps order |
| Listing.MapSeq | src/lib/help-data.ts:892-894 | `Array.prototype.map`: same length, each element mapped in place |
| Listing.SortDesc | src/app/api/templates/route.ts:40 | `orderBy: { createdAt: "desc" }`: sorted newest first and a permutation of the input |
| Listing.SortDescKeepsElements | src/app/api/templates/route.ts:40 | sorting neither adds nor drops an element |
| JsValues.JoinKeys | src/app/api/subscription/route.ts:29-33 | `join(",")` of the elements' keys: empty for an empty array, the string itself for an array of one string |
| JsValues.SingletonArrayKey | src/app/api/subscription/route.ts:29-33 | an array of one element converts to that element's key, and `[null]` and `[]` to the empty string |
| JsValues.TruthyIsJsonTruthy | src/app/api/subscription/route.ts:23 | an optional string is truthy exactly when it is present and not empty, as JavaScript judges a string |
| JsValues.Lookup | src/app/api/contact/route.ts:47 | `obj[key]` on an object literal: its own value when the key is its own, an inherited member exactly for the names of `Object.prototype`, otherwise undefined |
| Schema.RequiredString | src/app/api/contact/route.ts:5 | `z.string()` with bounds: passes exactly for a present string within the bounds, and yields it |
| Schema.OptionalString | src/app/api/user/route.ts:7 | `.optional()`: passes for an absent key or a string within the bounds; absent exactly when the key is |

## Left out

- Every call into another system is a parameter:
  - the payment provider's signature check, `subscriptions.retrieve`, and the checkout and portal session creation;
  - the chat completion;
  - the sign-in provider's session lookup and code exchange;
  - the validation library's e-mail and URL checks.
  What those systems do is not modelled.
- The database is an abstract store. Only these Prisma failures are modelled, and no other database failure is:
  - an update of a missing account throws, which the webhook checkout and the account `PATCH` answer with 500;
  - the sign-in upsert cannot create an account without an e-mail; the callback swallows the error and still redirects.
- `PLAN_LIMITS` and `isUnlimited` are parameters, because the utils module that defines them is not part of this model. Nothing is assumed about their values.
- Clocks are integer parameters: `Date.now()`, `new Date()`, the update stamps and `current_period_end`. The measured `generationTime` is not modelled.
- The usage record's cost `(tokensUsed / 1000) * 0.01` is floating point and is not modelled. The record's other fields are.
- Lengths are counted in characters, not UTF-16 code units, and the numbers the schemas check are integers rather than JavaScript floats.
- Requests are handled one at a time:
  - The quota check and the increment in the generation route are separate steps, and concurrent requests can overshoot the limit. This race is not modelled.
  - The `Promise.all` in `generateMultipleResponses` is modelled as calls made in order.
- The fixed prose of the prompts is a `Wording` parameter of the prompt functions: the system head, the guidelines and the five tone instructions. The structural facts hold for any wording. `Prompts.SourceWording` is the service's own wording, and `Prompts.SourceSystemPromptCarriesTone` instantiates the structure with it; nothing is proved about the prose itself.
- The help articles, categories and blog posts are parameters. Their text is not part of this model.
- The business listing's `_count` of responses is not modelled. Neither are the column selection of the template listing and the `useCount`.
- `updateTemplateSchema` is declared in the templates route but used nowhere, so it is not modelled.
- Every `console.*` call is left out, including the contact submission log and its `x-forwarded-for` field.
- A template created without `isPublic` is stored as private. This assumes the database default is false.
- StripeWebhook.FindBySubscription: when several accounts hold the same subscription id, it may return any of them, because `findFirst` has no `orderBy`. It does not fix which one the database would pick.
- ContactRoute.Submit: the reply carries the category as a value. How `NextResponse.json` serialises a category that is an inherited function is not modelled.
- SubscriptionRoute.SessionFor: what the payment provider does with a checkout session without a price is the session-creation parameter, so whether it refuses one is not modelled. `SubscriptionRoute.Post` answers 500 when it does.
- StripeWebhook.HandleWebhook: a failure of the database update for a found holder is not modelled. Only the provider retrieval failures and the update of a missing checkout account give 500.

## Findings

| source | as written | input that shows it | evidently intended | confidence | as-written member | corrected member |
|---|---|---|---|---|---|---|
| src/app/api/subscription/route.ts:29-31 | `!PLANS[plan]` is false for any name `PLANS` inherits from `Object.prototype`, and for an array that converts to a plan name | `{"action": "checkout", "plan": "toString"}` passes the guard and reaches the session call with an undefined price; `{"plan": ["PRO"]}` opens a PRO checkout | only the strings STARTER, PRO and AGENCY pass; anything else is "Invalid plan" | not executed | Plans.InheritedNamePassesPlanGuard | Plans.PlanByNameDiffersOnlyOnInheritedNames |
| src/app/api/auth/callback/route.ts:42 | the redirect is the origin followed by the raw `redirect` parameter | `redirect=@evil.example` after a good code gives `https://app.example@evil.example`, whose host is `evil.example` | the sign-in ends on the application's own origin | not executed | AuthCallback.RedirectCanLeaveOrigin | AuthCallback.SafeRedirectStaysOnOrigin |
| src/app/api/contact/route.ts:47 | `subjectLabels[subject] \|\| subject` returns an inherited member for names of `Object.prototype` | subject `toString` gives the function `Object.prototype.toString` as the category, which is not a string | the label of a known subject, otherwise the subject itself | not executed | ContactRoute.InheritedSubjectIsNoCategory | ContactRoute.CategoryDiffersOnlyOnInheritedNames |

The routes themselves are modelled as the code is written. Each corrected member is the definition a fix would put in place of the expression as written, with the intended property proved about it.
