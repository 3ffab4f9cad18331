/** The account route: `GET` returns the caller's profile with plan and
    usage, and `PATCH` lets the caller change the four profile fields of
    `updateSchema` and nothing else. */
module UserRoute {
  import opened Wrappers
  import opened JsValues
  import opened Plans
  import opened Model
  import opened Schema

  datatype UserReply =
    | Unauthorized
    | AccountMissing
    | InvalidBody(issues: seq<string>)
    | Failed
    | Profile(profile: UserProfile)
    | UpdatedAccount(account: Account)

  function Status(r: UserReply): int {
    match r
    case Unauthorized => 401
    case AccountMissing => 404
    case InvalidBody(_) => 400
    case Failed => 500
    case Profile(_) => 200
    case UpdatedAccount(_) => 200
  }

  /** The columns `GET` selects: no payment-provider references. */
  datatype UserProfile = UserProfile(
    id: UserId,
    email: string,
    name: Option<string>,
    avatarUrl: Option<string>,
    businessName: Option<string>,
    businessType: Option<string>,
    brandVoice: Option<string>,
    plan: Plan,
    responsesUsed: int,
    responsesLimit: int)

  function ProfileOf(a: Account): UserProfile {
    UserProfile(a.id, a.email, a.name, a.avatarUrl, a.businessName, a.businessType, a.brandVoice,
                a.plan, a.responsesUsed, a.responsesLimit)
  }

  /** `GET /api/user`. */
  function GetUser(users: map<UserId, Account>, caller: Option<UserId>): (r: UserReply)
    ensures r == Unauthorized <==> caller.None?
    ensures r == AccountMissing <==> caller.Some? && caller.value !in users
    ensures r.Profile? <==> caller.Some? && caller.value in users
    ensures r.Profile? ==>
      var a := users[caller.value];
      && r.profile.email == a.email && r.profile.name == a.name && r.profile.plan == a.plan
      && r.profile.responsesUsed == a.responsesUsed && r.profile.responsesLimit == a.responsesLimit
  {
    if caller.None? then Unauthorized
    else if caller.value !in users then AccountMissing
    else Profile(ProfileOf(users[caller.value]))
  }

  /** Two accounts with the same profile and plan usage show the same
      profile: the payment-provider references are not disclosed. */
  lemma ProfileHidesPaymentReferences(a: Account, b: Account)
    requires SameProfile(a, b) && a.plan == b.plan
    requires a.responsesUsed == b.responsesUsed && a.responsesLimit == b.responsesLimit
    ensures ProfileOf(a) == ProfileOf(b)
  {
  }

  /** What a valid `PATCH` body carries: each field present or absent. */
  datatype UserUpdate = UserUpdate(
    name: Option<string>,
    businessName: Option<string>,
    businessType: Option<string>,
    brandVoice: Option<string>)

  const UpdateKeys: set<string> := {"name", "businessName", "businessType", "brandVoice"}

  /** `updateSchema.parse`: a name of at least two characters and three
      free strings, each optional; other keys are dropped. */
  function ValidateUpdate(body: Json): (r: Result<UserUpdate, seq<string>>)
    ensures !body.JObj? ==> r == Err([RootPath])
    ensures r.Ok? <==>
      && body.JObj?
      && ("name" !in body.fields || (body.fields["name"].JStr? && |body.fields["name"].s| >= 2))
      && (forall k :: k in UpdateKeys && k != "name" && k in body.fields ==> body.fields[k].JStr?)
    ensures r.Ok? ==>
      && (r.value.name.Some? <==> "name" in body.fields)
      && (r.value.name.Some? ==> JStr(r.value.name.value) == body.fields["name"])
      && (r.value.businessName.Some? <==> "businessName" in body.fields)
      && (r.value.businessType.Some? <==> "businessType" in body.fields)
      && (r.value.brandVoice.Some? <==> "brandVoice" in body.fields)
    ensures r.Err? ==> |r.error| >= 1
  {
    if !body.JObj? then Err([RootPath])
    else
      var f := body.fields;
      var name := OptionalString(f, "name", Bounds(2, None));
      var businessName := OptionalString(f, "businessName", Bounds(0, None));
      var businessType := OptionalString(f, "businessType", Bounds(0, None));
      var brandVoice := OptionalString(f, "brandVoice", Bounds(0, None));
      var issues := IssueOf(name) + IssueOf(businessName) + IssueOf(businessType) + IssueOf(brandVoice);
      if issues != [] then Err(issues)
      else Ok(UserUpdate(name.value, businessName.value, businessType.value, brandVoice.value))
  }

  /** Keys outside `updateSchema` play no part in validation. */
  lemma ValidationIgnoresUnknownKeys(a: Json, b: Json)
    requires AgreeOn(a, b, UpdateKeys)
    ensures ValidateUpdate(a) == ValidateUpdate(b)
  {
    if a.JObj? {
      var fa, fb := a.fields, b.fields;
      assert OptionalString(fa, "name", Bounds(2, None)) == OptionalString(fb, "name", Bounds(2, None));
      assert OptionalString(fa, "businessName", Bounds(0, None)) == OptionalString(fb, "businessName", Bounds(0, None));
      assert OptionalString(fa, "businessType", Bounds(0, None)) == OptionalString(fb, "businessType", Bounds(0, None));
      assert OptionalString(fa, "brandVoice", Bounds(0, None)) == OptionalString(fb, "brandVoice", Bounds(0, None));
    }
  }

  /** The update `prisma.user.update` writes: the fields the body carries,
      and the update time. */
  function Updated(a: Account, change: UserUpdate, now: int): (r: Account)
    ensures SameBilling(a, r)
    ensures r.id == a.id && r.email == a.email && r.avatarUrl == a.avatarUrl && r.updatedAt == now
    ensures change.name.Some? ==> r.name == change.name
    ensures change.businessName.Some? ==> r.businessName == change.businessName
    ensures change.businessType.Some? ==> r.businessType == change.businessType
    ensures change.brandVoice.Some? ==> r.brandVoice == change.brandVoice
    ensures change.name.None? ==> r.name == a.name
    ensures change.businessName.None? ==> r.businessName == a.businessName
    ensures change.businessType.None? ==> r.businessType == a.businessType
    ensures change.brandVoice.None? ==> r.brandVoice == a.brandVoice
  {
    a.(name := if change.name.Some? then change.name else a.name,
       businessName := if change.businessName.Some? then change.businessName else a.businessName,
       businessType := if change.businessType.Some? then change.businessType else a.businessType,
       brandVoice := if change.brandVoice.Some? then change.brandVoice else a.brandVoice,
       updatedAt := now)
  }

  datatype PatchOutcome = PatchOutcome(reply: UserReply, users: map<UserId, Account>)

  /** `PATCH` as a function of the accounts; a success returns the whole
      updated record. A body that is not JSON, or an update of an account
      that does not exist, throws and gives 500. */
  function Patch(users: map<UserId, Account>, caller: Option<UserId>, body: Option<Json>, now: int): (r: PatchOutcome)
    ensures r.reply == Unauthorized <==> caller.None?
    ensures !r.reply.UpdatedAccount? ==> r.users == users
    ensures r.reply.UpdatedAccount? ==>
      && caller.Some? && caller.value in users
      && r.users == users[caller.value := r.reply.account]
      && SameBilling(users[caller.value], r.reply.account)
      && r.reply.account.updatedAt == now
  {
    if caller.None? then PatchOutcome(Unauthorized, users)
    else if body.None? then PatchOutcome(Failed, users)
    else match ValidateUpdate(body.value)
      case Err(issues) => PatchOutcome(InvalidBody(issues), users)
      case Ok(change) =>
        if caller.value !in users then PatchOutcome(Failed, users)
        else
          var a := Updated(users[caller.value], change, now);
          PatchOutcome(UpdatedAccount(a), users[caller.value := a])
  }

  /** `PATCH /api/user`. */
  method HandlePatchUser(db: Store, caller: Option<UserId>, body: Option<Json>, now: int) returns (reply: UserReply)
    requires db.Valid()
    modifies db`users
    ensures db.Valid()
    ensures reply == Patch(old(db.users), caller, body, now).reply
    ensures db.users == Patch(old(db.users), caller, body, now).users
  {
    if caller.None? {
      return Unauthorized;
    }
    if body.None? {
      return Failed;
    }
    var validated := ValidateUpdate(body.value);
    if validated.Err? {
      return InvalidBody(validated.error);
    }
    var userId := caller.value;
    if userId !in db.users {
      return Failed;
    }
    var a := Updated(db.users[userId], validated.value, now);
    db.users := db.users[userId := a];
    reply := UpdatedAccount(a);
  }

  /** A `PATCH` changes at most the caller's account, never its plan, usage,
      limit or payment-provider references, and changes nothing at all
      unless it succeeds. */
  lemma PatchWritesOnlyWhitelist(users: map<UserId, Account>, caller: Option<UserId>, body: Option<Json>, now: int)
    ensures var out := Patch(users, caller, body, now);
      && out.users.Keys == users.Keys
      && (forall v :: v in users && (caller.None? || v != caller.value) ==> out.users[v] == users[v])
      && (forall v :: v in users ==> SameBilling(users[v], out.users[v]))
      && (forall v :: v in users ==> out.users[v].email == users[v].email && out.users[v].avatarUrl == users[v].avatarUrl)
      && (out.reply.UpdatedAccount? ==> caller.Some? && out.reply.account == out.users[caller.value])
      && (!out.reply.UpdatedAccount? ==> out.users == users)
      && (out.reply.InvalidBody? <==> caller.Some? && body.Some? && ValidateUpdate(body.value).Err?)
  {
  }

  /** Sending the same update twice at the same moment is sending it once. */
  lemma PatchIdempotent(users: map<UserId, Account>, caller: Option<UserId>, body: Option<Json>, now: int)
    ensures var once := Patch(users, caller, body, now);
      Patch(once.users, caller, body, now) == once
  {
    var once := Patch(users, caller, body, now);
    if once.reply.UpdatedAccount? {
      var u := caller.value;
      var change := ValidateUpdate(body.value).value;
      var a := once.users[u];
      assert Updated(a, change, now) == a by {
        ProfileAndBillingCoverAccount(Updated(a, change, now), a);
      }
    }
  }
}
