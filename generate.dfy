/** The reply-generation route: authenticate, load the account, check the
    quota, validate the body, generate, store the reply, count it, record
    the usage. Each step that fails ends the request before any write. */
module Generate {
  import opened Wrappers
  import opened JsValues
  import opened Tones
  import opened Plans
  import opened Model
  import opened Schema
  import opened Prompts

  /** The fields of `generateSchema`, after validation. */
  datatype GenerateInput = GenerateInput(
    reviewText: string,
    reviewerName: Option<string>,
    reviewRating: Option<int>,
    platform: Option<string>,
    businessName: string,
    businessType: Option<string>,
    tone: Tone,
    customInstructions: Option<string>)

  const GenerateKeys: set<string> :=
    {"reviewText", "reviewerName", "reviewRating", "platform", "businessName", "businessType", "tone",
     "customInstructions"}

  const AnyLength := Bounds(0, None)

  /** `generateSchema.parse`: the review text has at least ten characters,
      a rating is an integer from 1 to 5, the business name is a string, the
      tone is one of the five names and defaults to professional, and every
      other key the schema names is a string when present. */
  function ValidateGenerate(body: Json): Result<GenerateInput, seq<string>>
  {
    if !body.JObj? then Err([RootPath])
    else
      var f := body.fields;
      var reviewText := RequiredString(f, "reviewText", Bounds(10, None));
      var reviewerName := OptionalString(f, "reviewerName", AnyLength);
      var reviewRating := OptionalIntIn(f, "reviewRating", 1, 5);
      var platform := OptionalString(f, "platform", AnyLength);
      var businessName := RequiredString(f, "businessName", AnyLength);
      var businessType := OptionalString(f, "businessType", AnyLength);
      var tone := EnumWithDefault(f, "tone", ParseTone, Professional);
      var customInstructions := OptionalString(f, "customInstructions", AnyLength);
      var issues := IssueOf(reviewText) + IssueOf(reviewerName) + IssueOf(reviewRating) + IssueOf(platform)
                    + IssueOf(businessName) + IssueOf(businessType) + IssueOf(tone) + IssueOf(customInstructions);
      if issues != [] then Err(issues)
      else Ok(GenerateInput(reviewText.value, reviewerName.value, reviewRating.value, platform.value,
                            businessName.value, businessType.value, tone.value, customInstructions.value))
  }

  lemma ValidateGenerateAccepts(body: Json)
    ensures var r := ValidateGenerate(body); !body.JObj? ==> r == Err([RootPath])
    ensures var r := ValidateGenerate(body); r.Ok? <==>
      && body.JObj?
      && "reviewText" in body.fields && body.fields["reviewText"].JStr? && |body.fields["reviewText"].s| >= 10
      && ("reviewRating" !in body.fields || (body.fields["reviewRating"].JNum? && 1 <= body.fields["reviewRating"].n <= 5))
      && "businessName" in body.fields && body.fields["businessName"].JStr?
      && ("tone" !in body.fields || (body.fields["tone"].JStr? && ParseTone(body.fields["tone"].s).Some?))
      && (forall k :: k in {"reviewerName", "platform", "businessType", "customInstructions"} && k in body.fields ==>
            body.fields[k].JStr?)
    ensures var r := ValidateGenerate(body); r.Ok? ==>
      && r.value.reviewText == body.fields["reviewText"].s
      && r.value.businessName == body.fields["businessName"].s
      && ("tone" !in body.fields ==> r.value.tone == Professional)
      && ("tone" in body.fields ==> ToneName(r.value.tone) == body.fields["tone"].s)
      && (r.value.reviewRating.Some? ==> 1 <= r.value.reviewRating.value <= 5)
    ensures var r := ValidateGenerate(body); r.Err? ==> |r.error| >= 1
  {
  }

  /** Keys outside the schema play no part in validation. */
  lemma ValidationIgnoresUnknownKeys(a: Json, b: Json)
    requires AgreeOn(a, b, GenerateKeys)
    ensures ValidateGenerate(a) == ValidateGenerate(b)
  {
    if a.JObj? {
      var fa, fb := a.fields, b.fields;
      assert RequiredString(fa, "reviewText", Bounds(10, None)) == RequiredString(fb, "reviewText", Bounds(10, None));
      assert OptionalString(fa, "reviewerName", AnyLength) == OptionalString(fb, "reviewerName", AnyLength);
      assert OptionalIntIn(fa, "reviewRating", 1, 5) == OptionalIntIn(fb, "reviewRating", 1, 5);
      assert OptionalString(fa, "platform", AnyLength) == OptionalString(fb, "platform", AnyLength);
      assert RequiredString(fa, "businessName", AnyLength) == RequiredString(fb, "businessName", AnyLength);
      assert OptionalString(fa, "businessType", AnyLength) == OptionalString(fb, "businessType", AnyLength);
      assert EnumWithDefault(fa, "tone", ParseTone, Professional) == EnumWithDefault(fb, "tone", ParseTone, Professional);
      assert OptionalString(fa, "customInstructions", AnyLength) == OptionalString(fb, "customInstructions", AnyLength);
    }
  }

  datatype GenerateReply =
    | Unauthorized
    | AccountMissing
    | QuotaExceeded
    | InvalidBody(issues: seq<string>)
    | Failed
    | Generated(response: string, responseId: RowId, tokensUsed: int)

  function Status(r: GenerateReply): int {
    match r
    case Unauthorized => 401
    case AccountMissing => 404
    case QuotaExceeded => 403
    case InvalidBody(_) => 400
    case Failed => 500
    case Generated(_, _, _) => 200
  }

  /** What the route asks the generator for: no language, so English. */
  function ParamsOf(input: GenerateInput): GenerateParams {
    GenerateParams(input.reviewText, input.reviewerName, input.reviewRating, input.businessName,
                   input.businessType, Some(input.tone), input.customInstructions, None)
  }

  /** The reply, the accounts afterwards, and the rows appended to the
      response and usage tables. */
  datatype GenerateOutcome = GenerateOutcome(
    reply: GenerateReply,
    users: map<UserId, Account>,
    rows: seq<ReviewResponse>,
    ledger: seq<UsageRecord>)

  function Counted(a: Account): Account {
    a.(responsesUsed := a.responsesUsed + 1)
  }

  /** The route as a function of the accounts, the next row id, the caller,
      the body (`None` when it is not JSON) and the reply generator. The
      deployed generator is `Prompts.GenerateReviewResponse` over the
      completion client; a result of `None` is a generator that threw. */
  function Outcome(users: map<UserId, Account>, nextId: RowId, caller: Option<UserId>, body: Option<Json>,
                   generate: GenerateParams -> Option<GeneratedResponse>): (r: GenerateOutcome)
    ensures r.reply == Unauthorized <==> caller.None?
    ensures r.reply == AccountMissing <==> caller.Some? && caller.value !in users
    ensures r.reply == QuotaExceeded <==> caller.Some? && caller.value in users && !QuotaAllows(users[caller.value])
    ensures r.reply.Generated? <==> |r.rows| == 1
    ensures !r.reply.Generated? ==> r.users == users && r.rows == [] && r.ledger == []
    ensures r.reply.Generated? ==>
      && caller.Some? && caller.value in users && QuotaAllows(users[caller.value])
      && body.Some? && ValidateGenerate(body.value).Ok?
      && r.users == users[caller.value := Counted(users[caller.value])]
      && r.rows[0].id == nextId && r.rows[0].userId == caller.value && r.reply.responseId == nextId
      && |r.ledger| == 1 && r.ledger[0].userId == caller.value
  {
    if caller.None? then GenerateOutcome(Unauthorized, users, [], [])
    else if caller.value !in users then GenerateOutcome(AccountMissing, users, [], [])
    else if !QuotaAllows(users[caller.value]) then GenerateOutcome(QuotaExceeded, users, [], [])
    else if body.None? then GenerateOutcome(Failed, users, [], [])
    else match ValidateGenerate(body.value)
      case Err(issues) => GenerateOutcome(InvalidBody(issues), users, [], [])
      case Ok(input) =>
        match generate(ParamsOf(input))
        case None => GenerateOutcome(Failed, users, [], [])
        case Some(gen) =>
          var u := caller.value;
          var row := ReviewResponse(nextId, u, input.reviewText, input.reviewerName, input.reviewRating,
                                    input.platform, gen.response, input.tone, gen.tokensUsed, gen.modelUsed);
          GenerateOutcome(Generated(gen.response, nextId, gen.tokensUsed), users[u := Counted(users[u])], [row],
                          [UsageRecord(u, "generate", gen.tokensUsed, nextId, input.tone, input.platform)])
  }

  /** The route's `POST`: one step at a time, returning early on each failure. */
  method HandleGenerate(db: Store, caller: Option<UserId>, body: Option<Json>,
                        generate: GenerateParams -> Option<GeneratedResponse>) returns (reply: GenerateReply)
    requires db.Valid()
    modifies db`users, db`responses, db`usage, db`nextId
    ensures db.Valid()
    ensures var out := Outcome(old(db.users), old(db.nextId), caller, body, generate);
            && reply == out.reply && db.users == out.users
            && db.responses == old(db.responses) + out.rows && db.usage == old(db.usage) + out.ledger
            && db.nextId == old(db.nextId) + |out.rows|
  {
    ghost var users0, id0 := db.users, db.nextId;
    if caller.None? {
      return Unauthorized;
    }
    var userId := caller.value;
    if userId !in db.users {
      return AccountMissing;
    }
    var account := db.users[userId];
    var isUnlimited := account.responsesLimit == Unlimited;
    if !isUnlimited && account.responsesUsed >= account.responsesLimit {
      assert !QuotaAllows(account);
      return QuotaExceeded;
    }
    assert QuotaAllows(account);
    if body.None? {
      return Failed;
    }
    var validated := ValidateGenerate(body.value);
    if validated.Err? {
      assert Outcome(users0, id0, caller, body, generate).reply == InvalidBody(validated.error);
      return InvalidBody(validated.error);
    }
    var input := validated.value;
    var generated := generate(ParamsOf(input));
    if generated.None? {
      assert Outcome(users0, id0, caller, body, generate).reply == Failed;
      return Failed;
    }
    var gen := generated.value;
    var id := db.nextId;
    var row := ReviewResponse(id, userId, input.reviewText, input.reviewerName, input.reviewRating,
                              input.platform, gen.response, input.tone, gen.tokensUsed, gen.modelUsed);
    var entry := UsageRecord(userId, "generate", gen.tokensUsed, id, input.tone, input.platform);
    reply := Generated(gen.response, id, gen.tokensUsed);
    assert Outcome(users0, id0, caller, body, generate)
        == GenerateOutcome(reply, users0[userId := Counted(account)], [row], [entry]);
    db.responses := db.responses + [row];
    db.nextId := db.nextId + 1;
    db.users := db.users[userId := Counted(account)];
    db.usage := db.usage + [entry];
  }

  /** Every refusal and every failure leaves the accounts and both tables
      as they were; the first failing step decides the reply. */
  lemma RefusalsWriteNothing(users: map<UserId, Account>, nextId: RowId, caller: Option<UserId>, body: Option<Json>,
                             generate: GenerateParams -> Option<GeneratedResponse>)
    ensures var out := Outcome(users, nextId, caller, body, generate);
      && (caller.None? ==> out.reply == Unauthorized)
      && (caller.Some? && caller.value !in users ==> out.reply == AccountMissing)
      && (caller.Some? && caller.value in users && !QuotaAllows(users[caller.value]) ==> out.reply == QuotaExceeded)
      && (out.reply.InvalidBody? ==> body.Some? && ValidateGenerate(body.value).Err?)
      && (out.reply == Failed ==>
            body.None? || generate(ParamsOf(ValidateGenerate(body.value).value)).None?)
      && (!out.reply.Generated? ==> out.users == users && out.rows == [] && out.ledger == [])
  {
  }

  /** A generated reply is stored once, owned by the caller, with the
      generated text and the validated tone, under the id the reply
      returns; the caller's count goes up by exactly one and nothing else
      in the accounts changes; one usage entry points at the new row. */
  lemma SuccessWritesOneRow(users: map<UserId, Account>, nextId: RowId, caller: Option<UserId>, body: Option<Json>,
                            generate: GenerateParams -> Option<GeneratedResponse>)
    requires Outcome(users, nextId, caller, body, generate).reply.Generated?
    ensures caller.Some? && caller.value in users && QuotaAllows(users[caller.value])
    ensures body.Some? && ValidateGenerate(body.value).Ok?
    ensures var out := Outcome(users, nextId, caller, body, generate);
      var u := caller.value;
      var input := ValidateGenerate(body.value).value;
      var gen := generate(ParamsOf(input));
      && gen.Some?
      && out.users == users[u := Counted(users[u])]
      && out.users[u].responsesUsed == users[u].responsesUsed + 1
      && |out.rows| == 1 && |out.ledger| == 1
      && out.rows[0].id == nextId && out.rows[0].userId == u
      && out.rows[0].responseText == gen.value.response == out.reply.response
      && out.rows[0].responseTone == input.tone
      && out.rows[0].tokensUsed == gen.value.tokensUsed == out.reply.tokensUsed
      && out.reply.responseId == nextId
      && out.ledger[0] == UsageRecord(u, "generate", gen.value.tokensUsed, nextId, input.tone, input.platform)
  {
  }

  /** The accounts `after` hold the same users as `before`, every one within
      its quota, with no count lowered and profiles and limits untouched. */
  ghost predicate Grows(before: map<UserId, Account>, after: map<UserId, Account>) {
    && after.Keys == before.Keys
    && (forall u :: u in after ==> WithinQuota(after[u]))
    && (forall u :: u in before ==>
          && before[u].responsesUsed <= after[u].responsesUsed
          && SameProfile(before[u], after[u])
          && after[u].responsesLimit == before[u].responsesLimit)
  }

  lemma GrowsTransitive(a: map<UserId, Account>, b: map<UserId, Account>, c: map<UserId, Account>)
    requires Grows(a, b) && Grows(b, c)
    ensures Grows(a, c)
  {
  }

  /** One request keeps every account within its quota, never lowers a
      count, and leaves profiles and limits alone. */
  lemma OutcomeKeepsWithinQuota(users: map<UserId, Account>, nextId: RowId, caller: Option<UserId>, body: Option<Json>,
                                generate: GenerateParams -> Option<GeneratedResponse>)
    requires forall u :: u in users ==> WithinQuota(users[u])
    ensures Grows(users, Outcome(users, nextId, caller, body, generate).users)
  {
    var out := Outcome(users, nextId, caller, body, generate);
    if out.reply.Generated? {
      SuccessWritesOneRow(users, nextId, caller, body, generate);
    } else {
      RefusalsWriteNothing(users, nextId, caller, body, generate);
    }
  }

  /** The quota check comes before the body is read: an account at its
      limit is refused whatever it sends, even a body that is not JSON. */
  lemma QuotaCheckedBeforeBody(users: map<UserId, Account>, nextId: RowId, u: UserId, body1: Option<Json>,
                               body2: Option<Json>, generate: GenerateParams -> Option<GeneratedResponse>)
    requires u in users && !QuotaAllows(users[u])
    ensures Outcome(users, nextId, Some(u), body1, generate) == Outcome(users, nextId, Some(u), body2, generate)
    ensures Status(Outcome(users, nextId, Some(u), body1, generate).reply) == 403
  {
  }

  datatype GenerateRequest = GenerateRequest(caller: Option<UserId>, body: Option<Json>)

  /** The accounts after a series of requests, one at a time. */
  function Run(users: map<UserId, Account>, nextId: RowId, requests: seq<GenerateRequest>,
               generate: GenerateParams -> Option<GeneratedResponse>): map<UserId, Account>
    decreases |requests|
  {
    if requests == [] then users
    else
      var out := Outcome(users, nextId, requests[0].caller, requests[0].body, generate);
      Run(out.users, nextId + |out.rows|, requests[1..], generate)
  }

  /** A non-empty series is its first request followed by the rest, and
      that first request already keeps the accounts growing. */
  lemma RunStep(users: map<UserId, Account>, nextId: RowId, requests: seq<GenerateRequest>,
                generate: GenerateParams -> Option<GeneratedResponse>)
    returns (mid: map<UserId, Account>, midId: RowId)
    requires requests != []
    requires forall u :: u in users ==> WithinQuota(users[u])
    ensures Grows(users, mid)
    ensures Run(users, nextId, requests, generate) == Run(mid, midId, requests[1..], generate)
  {
    var out := Outcome(users, nextId, requests[0].caller, requests[0].body, generate);
    OutcomeKeepsWithinQuota(users, nextId, requests[0].caller, requests[0].body, generate);
    mid, midId := out.users, nextId + |out.rows|;
    RunUnfold(users, nextId, requests, generate, out);
  }

  lemma RunUnfold(users: map<UserId, Account>, nextId: RowId, requests: seq<GenerateRequest>,
                  generate: GenerateParams -> Option<GeneratedResponse>, out: GenerateOutcome)
    requires requests != []
    requires out == Outcome(users, nextId, requests[0].caller, requests[0].body, generate)
    ensures Run(users, nextId, requests, generate) == Run(out.users, nextId + |out.rows|, requests[1..], generate)
  {
  }

  /** Requests handled one at a time never take an account past its
      limit, never lower a count, and never add or remove an account. */
  lemma {:induction false} RunKeepsWithinQuota(users: map<UserId, Account>, nextId: RowId,
                                               requests: seq<GenerateRequest>,
                                               generate: GenerateParams -> Option<GeneratedResponse>)
    requires forall u :: u in users ==> WithinQuota(users[u])
    ensures Grows(users, Run(users, nextId, requests, generate))
    decreases |requests|
  {
    if requests == [] {
      assert Run(users, nextId, requests, generate) == users;
    } else {
      var mid, midId := RunStep(users, nextId, requests, generate);
      RunKeepsWithinQuota(mid, midId, requests[1..], generate);
      GrowsTransitive(users, mid, Run(mid, midId, requests[1..], generate));
    }
  }
}
