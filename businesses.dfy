/** The business collection route: `GET` lists the caller's businesses,
    newest first; `POST` creates one for the caller when the plan's business
    limit allows another, storing an empty website as no website. The
    per-plan limits, the "unlimited" test and the URL check come from
    libraries outside this model and are parameters here. */
module BusinessesRoute {
  import opened Wrappers
  import opened JsValues
  import opened Tones
  import opened Plans
  import opened Model
  import opened Schema
  import Text
  import Listing

  // ---- Listing ----

  function CreatedAt(b: Business): int {
    b.createdAt
  }

  /** `GET`: exactly the caller's businesses, each as often as stored,
      newest first. */
  function ListBusinesses(businesses: seq<Business>, caller: UserId): (r: seq<Business>)
    ensures forall b :: b in r <==> b in businesses && b.userId == caller
    ensures forall b :: multiset(r)[b] == if b.userId == caller then multiset(businesses)[b] else 0
    ensures Listing.SortedDesc(r, CreatedAt)
  {
    var kept := Listing.Filter(businesses, (b: Business) => b.userId == caller);
    Listing.SortDescKeepsElements(kept, CreatedAt);
    Listing.SortDesc(kept, CreatedAt)
  }

  // ---- Creation ----

  datatype BusinessInput = BusinessInput(
    name: string,
    businessType: Option<string>,
    description: Option<string>,
    address: Option<string>,
    phone: Option<string>,
    website: Option<string>,
    brandVoice: Option<Tone>,
    toneKeywords: Option<seq<string>>,
    avoidKeywords: Option<seq<string>>)

  /** `z.string().url().optional().or(z.literal(""))`: absent, a URL, or
      the empty string. */
  function WebsiteCheck(fields: map<string, Json>, isUrl: string -> bool): (r: Check<Option<string>>)
    ensures r.Ok? <==> "website" !in fields || (fields["website"].JStr? && (fields["website"].s == "" || isUrl(fields["website"].s)))
    ensures r.Ok? ==> (r.value.None? <==> "website" !in fields)
    ensures r.Ok? && r.value.Some? ==> r.value.value == fields["website"].s
    ensures r.Err? ==> r.error == "website"
  {
    if "website" !in fields then Ok(None)
    else if fields["website"].JStr? && (fields["website"].s == "" || isUrl(fields["website"].s)) then
      Ok(Some(fields["website"].s))
    else Err("website")
  }

  /** `createBusinessSchema.parse`. */
  function ValidateBusiness(body: Json, isUrl: string -> bool): Result<BusinessInput, seq<string>> {
    if !body.JObj? then Err([RootPath])
    else
      var f := body.fields;
      var name := RequiredString(f, "name", Bounds(1, Some(200)));
      var businessType := OptionalString(f, "type", Bounds(0, Some(100)));
      var description := OptionalString(f, "description", Bounds(0, Some(1000)));
      var address := OptionalString(f, "address", Bounds(0, Some(500)));
      var phone := OptionalString(f, "phone", Bounds(0, Some(50)));
      var website := WebsiteCheck(f, isUrl);
      var brandVoice := OptionalEnum(f, "brandVoice", ParseTone);
      var toneKeywords := OptionalStringArray(f, "toneKeywords");
      var avoidKeywords := OptionalStringArray(f, "avoidKeywords");
      var issues := IssueOf(name) + IssueOf(businessType) + IssueOf(description) + IssueOf(address)
                    + IssueOf(phone) + IssueOf(website) + IssueOf(brandVoice) + IssueOf(toneKeywords)
                    + IssueOf(avoidKeywords);
      if issues != [] then Err(issues)
      else Ok(BusinessInput(name.value, businessType.value, description.value, address.value, phone.value,
                            website.value, brandVoice.value, toneKeywords.value, avoidKeywords.value))
  }

  /** The bounds the schema enforces: name 1 to 200 characters; type, description,
      address and phone at most 100, 1000, 500 and 50 when present; a website
      that is a URL or empty; a known brand voice; keyword lists of strings. */
  lemma ValidateBusinessAccepts(body: Json, isUrl: string -> bool)
    ensures var r := ValidateBusiness(body, isUrl); !body.JObj? ==> r == Err([RootPath])
    ensures var r := ValidateBusiness(body, isUrl); r.Ok? <==>
      && body.JObj?
      && "name" in body.fields && body.fields["name"].JStr? && 1 <= |body.fields["name"].s| <= 200
      && ("type" !in body.fields || (body.fields["type"].JStr? && |body.fields["type"].s| <= 100))
      && ("description" !in body.fields ||
            (body.fields["description"].JStr? && |body.fields["description"].s| <= 1000))
      && ("address" !in body.fields || (body.fields["address"].JStr? && |body.fields["address"].s| <= 500))
      && ("phone" !in body.fields || (body.fields["phone"].JStr? && |body.fields["phone"].s| <= 50))
      && ("website" !in body.fields ||
            (body.fields["website"].JStr? && (body.fields["website"].s == "" || isUrl(body.fields["website"].s))))
      && ("brandVoice" !in body.fields ||
            (body.fields["brandVoice"].JStr? && ParseTone(body.fields["brandVoice"].s).Some?))
      && ("toneKeywords" !in body.fields ||
            (body.fields["toneKeywords"].JArr? && AllStrings(body.fields["toneKeywords"].items)))
      && ("avoidKeywords" !in body.fields ||
            (body.fields["avoidKeywords"].JArr? && AllStrings(body.fields["avoidKeywords"].items)))
    ensures var r := ValidateBusiness(body, isUrl); r.Ok? ==>
      && r.value.name == body.fields["name"].s
      && (r.value.website.Some? ==> r.value.website.value == body.fields["website"].s)
    ensures var r := ValidateBusiness(body, isUrl); r.Err? ==> |r.error| >= 1
  {
  }

  datatype BusinessReply =
    | Unauthorized
    | AccountMissing
    | LimitReached(message: string)
    | InvalidBody(issues: seq<string>)
    | Failed
    | Created(business: Business)

  function Status(r: BusinessReply): int {
    match r
    case Unauthorized => 401
    case AccountMissing => 404
    case LimitReached(_) => 403
    case InvalidBody(_) => 400
    case Failed => 500
    case Created(_) => 201
  }

  /** The whole `GET`: without a session the route answers 401 and reads
      nothing; with one it lists exactly the caller's businesses. */
  function GetBusinesses(businesses: seq<Business>, caller: Option<UserId>): (r: Result<seq<Business>, BusinessReply>)
    ensures r == Err(Unauthorized) <==> caller.None?
    ensures r.Ok? <==> caller.Some?
    ensures r.Ok? ==> r.value == ListBusinesses(businesses, caller.value)
    ensures r.Ok? ==> forall b :: b in r.value <==> b in businesses && b.userId == caller.value
  {
    if caller.None? then Err(Unauthorized)
    else Ok(ListBusinesses(businesses, caller.value))
  }

  /** `prisma.business.count({ where: { userId } })`. */
  function OwnedCount(businesses: seq<Business>, u: UserId): nat {
    if businesses == [] then 0
    else OwnedCount(businesses[..|businesses| - 1], u) + (if businesses[|businesses| - 1].userId == u then 1 else 0)
  }

  /** The count is the length of the owner's listing. */
  lemma {:induction false} OwnedCountIsListingLength(businesses: seq<Business>, u: UserId)
    ensures OwnedCount(businesses, u) == |ListBusinesses(businesses, u)|
    decreases |businesses|
  {
    var p := (b: Business) => b.userId == u;
    if businesses != [] {
      var init, last := businesses[..|businesses| - 1], businesses[|businesses| - 1];
      assert businesses == init + [last];
      Listing.FilterConcat(init, [last], p);
      OwnedCountIsListingLength(init, u);
    }
  }

  /** The noun of the limit message: plural for a limit above one. */
  function BusinessNoun(limit: int): (r: string)
    ensures r == "businesses" <==> limit > 1
    ensures r == "business" <==> limit <= 1
  {
    "business" + (if limit > 1 then "es" else "")
  }

  function LimitMessage(plan: Plan, limit: int): string {
    "Business limit reached. Your " + PlanName(plan) + " plan allows " + Text.IntToDecimal(limit) + " "
      + BusinessNoun(limit) + "."
  }

  /** `validatedData.website || null`: an empty website is stored as none. */
  function StoredWebsite(website: Option<string>): (r: Option<string>)
    ensures r.Some? <==> Truthy(website)
    ensures r.Some? ==> r == website
  {
    if Truthy(website) then website else None
  }

  /** The row `prisma.business.create` stores. */
  function NewBusiness(id: RowId, u: UserId, input: BusinessInput, now: int): Business {
    Business(id, u, input.name, input.businessType, input.description, input.address, input.phone,
             StoredWebsite(input.website), input.brandVoice, input.toneKeywords, input.avoidKeywords, now)
  }

  datatype BusinessOutcome = BusinessOutcome(reply: BusinessReply, rows: seq<Business>)

  /** `POST` as a function of the store: the limit is checked before the
      body is read, and only a valid body creates a row. */
  function CreateOutcome(users: map<UserId, Account>, businesses: seq<Business>, nextId: RowId,
                         caller: Option<UserId>, body: Option<Json>, businessLimit: Plan -> int,
                         isUnlimited: int -> bool, isUrl: string -> bool, now: int): (r: BusinessOutcome)
    ensures r.reply == Unauthorized <==> caller.None?
    ensures r.reply.Created? <==> r.rows != []
    ensures r.reply.Created? ==>
      && caller.Some? && caller.value in users
      && UnderLimit(OwnedCount(businesses, caller.value), businessLimit(users[caller.value].plan), isUnlimited)
      && r.rows == [r.reply.business]
      && r.reply.business.id == nextId && r.reply.business.userId == caller.value
  {
    if caller.None? then BusinessOutcome(Unauthorized, [])
    else if caller.value !in users then BusinessOutcome(AccountMissing, [])
    else
      var plan := users[caller.value].plan;
      var limit := businessLimit(plan);
      if !UnderLimit(OwnedCount(businesses, caller.value), limit, isUnlimited) then
        BusinessOutcome(LimitReached(LimitMessage(plan, limit)), [])
      else if body.None? then BusinessOutcome(Failed, [])
      else match ValidateBusiness(body.value, isUrl)
        case Err(issues) => BusinessOutcome(InvalidBody(issues), [])
        case Ok(input) =>
          var b := NewBusiness(nextId, caller.value, input, now);
          BusinessOutcome(Created(b), [b])
  }

  /** `POST /api/businesses`. */
  method HandleCreateBusiness(db: Store, caller: Option<UserId>, body: Option<Json>, businessLimit: Plan -> int,
                              isUnlimited: int -> bool, isUrl: string -> bool, now: int)
    returns (reply: BusinessReply)
    requires db.Valid()
    modifies db`businesses, db`nextId
    ensures db.Valid()
    ensures var out := CreateOutcome(old(db.users), old(db.businesses), old(db.nextId), caller, body,
                                     businessLimit, isUnlimited, isUrl, now);
            && reply == out.reply && db.businesses == old(db.businesses) + out.rows
            && db.nextId == old(db.nextId) + |out.rows|
  {
    ghost var users0, rows0, id0 := db.users, db.businesses, db.nextId;
    if caller.None? {
      return Unauthorized;
    }
    var userId := caller.value;
    if userId !in db.users {
      return AccountMissing;
    }
    var plan := db.users[userId].plan;
    var businessCount := OwnedCount(db.businesses, userId);
    var limit := businessLimit(plan);
    if !isUnlimited(limit) && businessCount >= limit {
      return LimitReached(LimitMessage(plan, limit));
    }
    if body.None? {
      return Failed;
    }
    var validated := ValidateBusiness(body.value, isUrl);
    if validated.Err? {
      return InvalidBody(validated.error);
    }
    var b := NewBusiness(db.nextId, userId, validated.value, now);
    assert CreateOutcome(users0, rows0, id0, caller, body, businessLimit, isUnlimited, isUrl, now) == BusinessOutcome(Created(b), [b]);
    db.businesses := db.businesses + [b];
    db.nextId := db.nextId + 1;
    reply := Created(b);
  }

  /** Refusals write nothing; the limit is checked before the body, so an
      account at its limit gets 403 whatever it sends, with a message that
      ends in the plural noun exactly when the limit is above one. */
  lemma RefusalsCreateNothing(users: map<UserId, Account>, businesses: seq<Business>, nextId: RowId,
                              caller: Option<UserId>, body: Option<Json>, body': Option<Json>,
                              businessLimit: Plan -> int, isUnlimited: int -> bool, isUrl: string -> bool, now: int)
    ensures var out := CreateOutcome(users, businesses, nextId, caller, body, businessLimit, isUnlimited, isUrl, now);
      && (!out.reply.Created? <==> out.rows == [])
      && (caller.None? <==> out.reply == Unauthorized)
      && (out.reply == AccountMissing <==> caller.Some? && caller.value !in users)
      && (out.reply.LimitReached? <==>
            && caller.Some? && caller.value in users
            && !UnderLimit(OwnedCount(businesses, caller.value), businessLimit(users[caller.value].plan), isUnlimited))
      && (out.reply.LimitReached? ==>
            && CreateOutcome(users, businesses, nextId, caller, body', businessLimit, isUnlimited, isUrl, now) == out
            && Text.EndsWith(out.reply.message,
                             BusinessNoun(businessLimit(users[caller.value].plan)) + "."))
  {
    var out := CreateOutcome(users, businesses, nextId, caller, body, businessLimit, isUnlimited, isUrl, now);
    if out.reply.LimitReached? {
      var limit := businessLimit(users[caller.value].plan);
      var head := "Business limit reached. Your " + PlanName(users[caller.value].plan) + " plan allows "
                  + Text.IntToDecimal(limit) + " ";
      var tail := BusinessNoun(limit) + ".";
      assert out.reply.message == head + tail;
    }
  }

  /** A created business belongs to the caller, has a fresh id, and stores
      a website only when a non-empty one was sent. */
  lemma CreatedBusinessIsOwned(users: map<UserId, Account>, businesses: seq<Business>, nextId: RowId,
                               caller: Option<UserId>, body: Option<Json>, businessLimit: Plan -> int,
                               isUnlimited: int -> bool, isUrl: string -> bool, now: int)
    requires CreateOutcome(users, businesses, nextId, caller, body, businessLimit, isUnlimited, isUrl, now).reply.Created?
    ensures caller.Some? && body.Some? && ValidateBusiness(body.value, isUrl).Ok?
    ensures var out := CreateOutcome(users, businesses, nextId, caller, body, businessLimit, isUnlimited, isUrl, now);
      var input := ValidateBusiness(body.value, isUrl).value;
      && out.rows == [out.reply.business]
      && out.reply.business.userId == caller.value
      && out.reply.business.id == nextId
      && out.reply.business.name == input.name
      && (out.reply.business.website.Some? <==> Truthy(input.website))
      && (out.reply.business.website.Some? ==> out.reply.business.website == input.website)
      && Status(out.reply) == 201
  {
  }

  /** Creation never takes the caller past a limited plan's business
      limit, and leaves every other owner's count as it was. */
  lemma CreationStaysWithinLimit(users: map<UserId, Account>, businesses: seq<Business>, nextId: RowId,
                                 caller: Option<UserId>, body: Option<Json>, businessLimit: Plan -> int,
                                 isUnlimited: int -> bool, isUrl: string -> bool, now: int, v: UserId)
    requires CreateOutcome(users, businesses, nextId, caller, body, businessLimit, isUnlimited, isUrl, now).reply.Created?
    ensures caller.Some? && caller.value in users
    ensures var after := businesses + CreateOutcome(users, businesses, nextId, caller, body, businessLimit,
                                                    isUnlimited, isUrl, now).rows;
      var limit := businessLimit(users[caller.value].plan);
      && OwnedCount(after, caller.value) == OwnedCount(businesses, caller.value) + 1
      && (!isUnlimited(limit) ==> OwnedCount(after, caller.value) <= limit)
      && (v != caller.value ==> OwnedCount(after, v) == OwnedCount(businesses, v))
  {
    var out := CreateOutcome(users, businesses, nextId, caller, body, businessLimit, isUnlimited, isUrl, now);
    CreatedBusinessIsOwned(users, businesses, nextId, caller, body, businessLimit, isUnlimited, isUrl, now);
    assert UnderLimit(OwnedCount(businesses, caller.value), businessLimit(users[caller.value].plan), isUnlimited);
    var after := businesses + [out.reply.business];
    assert after[..|after| - 1] == businesses && after[|after| - 1] == out.reply.business;
  }
}
