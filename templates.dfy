/** The template collection route: `GET` lists the caller's templates,
    optionally with everyone's public ones and narrowed to one category,
    newest first; `POST` creates a template for the caller when the plan's
    template limit allows another. The per-plan limits and the "unlimited"
    test come from a module outside this model and are parameters here. */
module TemplatesRoute {
  import opened Wrappers
  import opened JsValues
  import opened Tones
  import opened Plans
  import opened Model
  import opened Schema
  import Text
  import Listing

  // ---- Listing ----

  /** The `where` clause: owned by the caller, or public when public ones
      are asked for; and of the given category when one is given. */
  predicate Listed(t: Template, caller: UserId, includePublic: bool, category: Option<string>) {
    && (t.userId == caller || (includePublic && t.isPublic))
    && (Truthy(category) ==> t.category == category)
  }

  function CreatedAt(t: Template): int {
    t.createdAt
  }

  /** `GET`: public templates are included only when `includePublic` is
      exactly "true"; an empty category parameter filters nothing. */
  function ListTemplates(templates: seq<Template>, caller: UserId, includePublicParam: Option<string>,
                         category: Option<string>): (r: seq<Template>)
    ensures forall t :: t in r <==> t in templates && Listed(t, caller, includePublicParam == Some("true"), category)
    ensures Listing.SortedDesc(r, CreatedAt)
    ensures forall t :: multiset(r)[t] == if t in r then multiset(templates)[t] else 0
  {
    var includePublic := includePublicParam == Some("true");
    var p := (t: Template) => Listed(t, caller, includePublic, category);
    var kept := Listing.Filter(templates, p);
    var r := Listing.SortDesc(kept, CreatedAt);
    Listing.SortDescKeepsElements(kept, CreatedAt);
    r
  }

  /** Whatever the parameters, the listing shows none of another user's
      private templates, and every template of the caller's that matches
      the category filter. */
  lemma ListingRespectsOwnership(templates: seq<Template>, caller: UserId, includePublicParam: Option<string>,
                                 category: Option<string>, t: Template)
    requires t in templates
    ensures t.userId != caller && !t.isPublic ==> t !in ListTemplates(templates, caller, includePublicParam, category)
    ensures t.userId == caller && (!Truthy(category) || t.category == category) ==>
              t in ListTemplates(templates, caller, includePublicParam, category)
    ensures includePublicParam != Some("true") && t.userId != caller ==>
              t !in ListTemplates(templates, caller, includePublicParam, category)
  {
  }

  // ---- Creation ----

  datatype TemplateInput = TemplateInput(
    name: string,
    description: Option<string>,
    category: Option<string>,
    promptTemplate: string,
    exampleOutput: Option<string>,
    tone: Option<Tone>,
    isPublic: Option<bool>)

  /** The four categories of `createTemplateSchema`. */
  function ParseCategory(s: string): (r: Option<string>)
    ensures r.Some? <==> s in {"positive", "negative", "neutral", "complaint"}
    ensures r.Some? ==> r.value == s
  {
    if s in {"positive", "negative", "neutral", "complaint"} then Some(s) else None
  }

  const NameBounds := Bounds(1, Some(100))
  const DescriptionBounds := Bounds(0, Some(500))
  const PromptBounds := Bounds(1, Some(5000))
  const ExampleBounds := Bounds(0, Some(2000))

  /** `createTemplateSchema.parse`. */
  function ValidateTemplate(body: Json): Result<TemplateInput, seq<string>> {
    if !body.JObj? then Err([RootPath])
    else
      var f := body.fields;
      var name := RequiredString(f, "name", NameBounds);
      var description := OptionalString(f, "description", DescriptionBounds);
      var category := OptionalEnum(f, "category", ParseCategory);
      var promptTemplate := RequiredString(f, "promptTemplate", PromptBounds);
      var exampleOutput := OptionalString(f, "exampleOutput", ExampleBounds);
      var tone := OptionalEnum(f, "tone", ParseTone);
      var isPublic := OptionalBool(f, "isPublic");
      var issues := IssueOf(name) + IssueOf(description) + IssueOf(category) + IssueOf(promptTemplate)
                    + IssueOf(exampleOutput) + IssueOf(tone) + IssueOf(isPublic);
      if issues != [] then Err(issues)
      else Ok(TemplateInput(name.value, description.value, category.value, promptTemplate.value,
                            exampleOutput.value, tone.value, isPublic.value))
  }

  /** The bounds the schema enforces: a body passes exactly when it is an
      object whose name has 1 to 100 characters, whose prompt has 1 to 5000,
      whose optional description and example have at most 500 and 2000, and
      whose optional category, tone and visibility are of the right kind. */
  lemma ValidateTemplateAccepts(body: Json)
    ensures var r := ValidateTemplate(body); !body.JObj? ==> r == Err([RootPath])
    ensures var r := ValidateTemplate(body); r.Ok? <==>
      && body.JObj?
      && "name" in body.fields && body.fields["name"].JStr? && 1 <= |body.fields["name"].s| <= 100
      && "promptTemplate" in body.fields && body.fields["promptTemplate"].JStr?
      && 1 <= |body.fields["promptTemplate"].s| <= 5000
      && ("description" !in body.fields ||
            (body.fields["description"].JStr? && |body.fields["description"].s| <= 500))
      && ("exampleOutput" !in body.fields ||
            (body.fields["exampleOutput"].JStr? && |body.fields["exampleOutput"].s| <= 2000))
      && ("category" !in body.fields ||
            (body.fields["category"].JStr? && ParseCategory(body.fields["category"].s).Some?))
      && ("tone" !in body.fields || (body.fields["tone"].JStr? && ParseTone(body.fields["tone"].s).Some?))
      && ("isPublic" !in body.fields || body.fields["isPublic"].JBool?)
    ensures var r := ValidateTemplate(body); r.Ok? ==>
      && r.value.name == body.fields["name"].s
      && r.value.promptTemplate == body.fields["promptTemplate"].s
      && (r.value.isPublic.Some? <==> "isPublic" in body.fields)
    ensures var r := ValidateTemplate(body); r.Err? ==> |r.error| >= 1
  {
  }

  datatype TemplateReply =
    | Unauthorized
    | AccountMissing
    | LimitReached(message: string)
    | InvalidBody(issues: seq<string>)
    | Failed
    | Created(template: Template)

  function Status(r: TemplateReply): int {
    match r
    case Unauthorized => 401
    case AccountMissing => 404
    case LimitReached(_) => 403
    case InvalidBody(_) => 400
    case Failed => 500
    case Created(_) => 201
  }

  /** The whole `GET`: without a session the route answers 401 and reads
      nothing; with one it lists what the `where` clause selects. */
  function GetTemplates(templates: seq<Template>, caller: Option<UserId>, includePublicParam: Option<string>,
                        category: Option<string>): (r: Result<seq<Template>, TemplateReply>)
    ensures r == Err(Unauthorized) <==> caller.None?
    ensures r.Ok? <==> caller.Some?
    ensures r.Ok? ==> r.value == ListTemplates(templates, caller.value, includePublicParam, category)
    ensures r.Ok? ==> forall t :: t in r.value ==> t in templates && (t.userId == caller.value || t.isPublic)
  {
    if caller.None? then Err(Unauthorized)
    else Ok(ListTemplates(templates, caller.value, includePublicParam, category))
  }

  /** `prisma.template.count({ where: { userId } })`. */
  function OwnedCount(templates: seq<Template>, u: UserId): nat {
    if templates == [] then 0
    else OwnedCount(templates[..|templates| - 1], u) + (if templates[|templates| - 1].userId == u then 1 else 0)
  }

  /** The count is the length of the owner's listing. */
  lemma {:induction false} OwnedCountIsFilterLength(templates: seq<Template>, u: UserId)
    ensures OwnedCount(templates, u) == |Listing.Filter(templates, (t: Template) => t.userId == u)|
    decreases |templates|
  {
    if templates != [] {
      var init, last := templates[..|templates| - 1], templates[|templates| - 1];
      assert templates == init + [last];
      Listing.FilterConcat(init, [last], (t: Template) => t.userId == u);
      OwnedCountIsFilterLength(init, u);
    }
  }

  function LimitMessage(plan: Plan, limit: int): string {
    "Template limit reached. Your " + PlanName(plan) + " plan allows " + Text.IntToDecimal(limit) + " templates."
  }

  /** The row `prisma.template.create` stores: the validated fields, owned
      by the caller, private unless the body says otherwise. */
  function NewTemplate(id: RowId, u: UserId, input: TemplateInput, now: int): Template {
    Template(id, u, input.name, input.description, input.category, input.promptTemplate,
             input.exampleOutput, input.tone, input.isPublic.GetOr(false), now)
  }

  datatype TemplateOutcome = TemplateOutcome(reply: TemplateReply, rows: seq<Template>)

  /** `POST` as a function of the store: the limit is checked before the
      body is read, and only a valid body creates a row. */
  function CreateOutcome(users: map<UserId, Account>, templates: seq<Template>, nextId: RowId,
                         caller: Option<UserId>, body: Option<Json>,
                         templateLimit: Plan -> int, isUnlimited: int -> bool, now: int): (r: TemplateOutcome)
    ensures r.reply == Unauthorized <==> caller.None?
    ensures r.reply.Created? <==> r.rows != []
    ensures r.reply.Created? ==>
      && caller.Some? && caller.value in users
      && UnderLimit(OwnedCount(templates, caller.value), templateLimit(users[caller.value].plan), isUnlimited)
      && r.rows == [r.reply.template]
      && r.reply.template.id == nextId && r.reply.template.userId == caller.value
  {
    if caller.None? then TemplateOutcome(Unauthorized, [])
    else if caller.value !in users then TemplateOutcome(AccountMissing, [])
    else
      var plan := users[caller.value].plan;
      var limit := templateLimit(plan);
      if !UnderLimit(OwnedCount(templates, caller.value), limit, isUnlimited) then
        TemplateOutcome(LimitReached(LimitMessage(plan, limit)), [])
      else if body.None? then TemplateOutcome(Failed, [])
      else match ValidateTemplate(body.value)
        case Err(issues) => TemplateOutcome(InvalidBody(issues), [])
        case Ok(input) =>
          var t := NewTemplate(nextId, caller.value, input, now);
          TemplateOutcome(Created(t), [t])
  }

  /** `POST /api/templates`. */
  method HandleCreateTemplate(db: Store, caller: Option<UserId>, body: Option<Json>,
                              templateLimit: Plan -> int, isUnlimited: int -> bool, now: int)
    returns (reply: TemplateReply)
    requires db.Valid()
    modifies db`templates, db`nextId
    ensures db.Valid()
    ensures var out := CreateOutcome(old(db.users), old(db.templates), old(db.nextId), caller, body,
                                     templateLimit, isUnlimited, now);
            && reply == out.reply && db.templates == old(db.templates) + out.rows
            && db.nextId == old(db.nextId) + |out.rows|
  {
    ghost var users0, rows0, id0 := db.users, db.templates, db.nextId;
    if caller.None? {
      return Unauthorized;
    }
    var userId := caller.value;
    if userId !in db.users {
      return AccountMissing;
    }
    var plan := db.users[userId].plan;
    var templateCount := OwnedCount(db.templates, userId);
    var limit := templateLimit(plan);
    if !isUnlimited(limit) && templateCount >= limit {
      return LimitReached(LimitMessage(plan, limit));
    }
    if body.None? {
      return Failed;
    }
    var validated := ValidateTemplate(body.value);
    if validated.Err? {
      return InvalidBody(validated.error);
    }
    var t := NewTemplate(db.nextId, userId, validated.value, now);
    assert CreateOutcome(users0, rows0, id0, caller, body, templateLimit, isUnlimited, now) == TemplateOutcome(Created(t), [t]);
    db.templates := db.templates + [t];
    db.nextId := db.nextId + 1;
    reply := Created(t);
  }

  /** Refusals write nothing; the limit is checked before the body, so an
      account at its limit gets 403 whatever it sends. */
  lemma RefusalsCreateNothing(users: map<UserId, Account>, templates: seq<Template>, nextId: RowId,
                              caller: Option<UserId>, body: Option<Json>, body': Option<Json>,
                              templateLimit: Plan -> int, isUnlimited: int -> bool, now: int)
    ensures var out := CreateOutcome(users, templates, nextId, caller, body, templateLimit, isUnlimited, now);
      && (!out.reply.Created? <==> out.rows == [])
      && (caller.None? <==> out.reply == Unauthorized)
      && (out.reply.LimitReached? <==>
            && caller.Some? && caller.value in users
            && !UnderLimit(OwnedCount(templates, caller.value), templateLimit(users[caller.value].plan), isUnlimited))
      && (out.reply.LimitReached? ==>
            CreateOutcome(users, templates, nextId, caller, body', templateLimit, isUnlimited, now) == out)
      && (out.reply.InvalidBody? <==>
            && caller.Some? && caller.value in users
            && UnderLimit(OwnedCount(templates, caller.value), templateLimit(users[caller.value].plan), isUnlimited)
            && body.Some? && ValidateTemplate(body.value).Err?)
  {
  }

  /** A created template belongs to the caller, carries the validated
      fields and a fresh id, and is private unless the body made it public;
      it is the only row added. */
  lemma CreatedTemplateIsOwned(users: map<UserId, Account>, templates: seq<Template>, nextId: RowId,
                               caller: Option<UserId>, body: Option<Json>,
                               templateLimit: Plan -> int, isUnlimited: int -> bool, now: int)
    requires CreateOutcome(users, templates, nextId, caller, body, templateLimit, isUnlimited, now).reply.Created?
    ensures caller.Some? && body.Some? && ValidateTemplate(body.value).Ok?
    ensures var out := CreateOutcome(users, templates, nextId, caller, body, templateLimit, isUnlimited, now);
      var input := ValidateTemplate(body.value).value;
      && out.rows == [out.reply.template]
      && out.reply.template.userId == caller.value
      && out.reply.template.id == nextId
      && out.reply.template.name == input.name && out.reply.template.promptTemplate == input.promptTemplate
      && (out.reply.template.isPublic <==> input.isPublic == Some(true))
      && Status(out.reply) == 201
  {
  }

  /** Creation never takes an owner past a limited plan's template limit:
      with the caller at or below the limit before, the caller is at or
      below it after, and every other owner's count is unchanged. */
  lemma CreationStaysWithinLimit(users: map<UserId, Account>, templates: seq<Template>, nextId: RowId,
                                 caller: Option<UserId>, body: Option<Json>,
                                 templateLimit: Plan -> int, isUnlimited: int -> bool, now: int, v: UserId)
    requires CreateOutcome(users, templates, nextId, caller, body, templateLimit, isUnlimited, now).reply.Created?
    ensures caller.Some? && caller.value in users
    ensures var after := templates + CreateOutcome(users, templates, nextId, caller, body, templateLimit,
                                                   isUnlimited, now).rows;
      var limit := templateLimit(users[caller.value].plan);
      && OwnedCount(after, caller.value) == OwnedCount(templates, caller.value) + 1
      && (!isUnlimited(limit) ==> OwnedCount(after, caller.value) <= limit)
      && (v != caller.value ==> OwnedCount(after, v) == OwnedCount(templates, v))
  {
    var out := CreateOutcome(users, templates, nextId, caller, body, templateLimit, isUnlimited, now);
    CreatedTemplateIsOwned(users, templates, nextId, caller, body, templateLimit, isUnlimited, now);
    assert UnderLimit(OwnedCount(templates, caller.value), templateLimit(users[caller.value].plan), isUnlimited);
    var after := templates + [out.reply.template];
    assert after[..|after| - 1] == templates && after[|after| - 1] == out.reply.template;
  }
}
