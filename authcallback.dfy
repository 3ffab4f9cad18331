/** The sign-in callback: it exchanges the one-time code for a session,
    creates or refreshes the account of the signed-in user, and redirects.
    The code exchange is a call into the identity provider and appears as a
    function the caller supplies; the clock is a parameter. */
module AuthCallback {
  import opened Wrappers
  import opened JsValues
  import opened Plans
  import opened Model
  import Listing

  /** The identity provider's user, with the metadata fields the route reads.
      `None` is a field that is absent (`undefined`). */
  datatype AuthUser = AuthUser(
    id: UserId,
    email: Option<string>,
    metaName: Option<string>,
    metaFullName: Option<string>,
    avatarUrl: Option<string>)

  const DashboardPath: string := "/dashboard"
  const LoginFailedPath: string := "/login?error=auth-failed"

  /** The user a successful exchange yields: there must be a non-empty code,
      and the exchange must neither fail nor come back without a user. */
  function SignedInUser(code: Option<string>, exchange: string -> Option<AuthUser>): (r: Option<AuthUser>)
    ensures r.Some? <==> Truthy(code) && exchange(code.value).Some?
    ensures r.Some? ==> r == exchange(code.value)
  {
    if Truthy(code) then exchange(code.value) else None
  }

  // ---- Where the browser is sent ----

  /** The redirect as written: the origin followed by the `redirect`
      parameter, or by the dashboard path when that parameter is missing or
      empty; a failed sign-in goes to the login page. */
  function RedirectTarget(origin: string, code: Option<string>, redirect: Option<string>,
                          exchange: string -> Option<AuthUser>): (r: string)
    ensures SignedInUser(code, exchange).None? ==> r == origin + LoginFailedPath
    ensures SignedInUser(code, exchange).Some? && Truthy(redirect) ==> r == origin + redirect.value
    ensures SignedInUser(code, exchange).Some? && !Truthy(redirect) ==> r == origin + DashboardPath
  {
    if SignedInUser(code, exchange).Some? then origin + (if Truthy(redirect) then redirect.value else DashboardPath)
    else origin + LoginFailedPath
  }

  /** The path a successful sign-in goes to, accepting only a parameter that
      is a path on the same site. */
  function SafePath(redirect: Option<string>): (r: string)
    ensures |r| > 0 && r[0] == '/'
    ensures Truthy(redirect) && redirect.value[0] == '/' ==> r == redirect.value
  {
    if Truthy(redirect) && redirect.value[0] == '/' then redirect.value else DashboardPath
  }

  /** The redirect with the parameter restricted to paths: it agrees with
      `RedirectTarget` whenever the parameter starts with a slash. */
  function SafeRedirectTarget(origin: string, code: Option<string>, redirect: Option<string>,
                              exchange: string -> Option<AuthUser>): (r: string)
    ensures (!Truthy(redirect) || redirect.value[0] == '/') ==> r == RedirectTarget(origin, code, redirect, exchange)
    ensures SignedInUser(code, exchange).None? ==> r == origin + LoginFailedPath
  {
    if SignedInUser(code, exchange).Some? then origin + SafePath(redirect) else origin + LoginFailedPath
  }

  // ---- Which host a URL names ----

  predicate SchemeChar(c: char) {
    ('a' <= c <= 'z') || ('A' <= c <= 'Z') || ('0' <= c <= '9') || c == '+' || c == '-' || c == '.'
  }

  /** The characters that end the authority part of a URL. */
  predicate EndsAuthority(c: char) {
    c == '/' || c == '?' || c == '#' || c == '\\'
  }

  /** The length of the longest prefix of scheme characters. */
  function SchemeLength(s: string): (n: nat)
    ensures n <= |s|
    ensures forall i :: 0 <= i < n ==> SchemeChar(s[i])
    ensures n < |s| ==> !SchemeChar(s[n])
  {
    if s != [] && SchemeChar(s[0]) then 1 + SchemeLength(s[1..]) else 0
  }

  /** The authority: everything up to the first character that ends it. */
  function Authority(s: string): (r: string)
    ensures |r| <= |s| && r == s[..|r|]
    ensures forall i :: 0 <= i < |r| ==> !EndsAuthority(r[i])
    ensures |r| < |s| ==> EndsAuthority(s[|r|])
  {
    if s == [] || EndsAuthority(s[0]) then [] else [s[0]] + Authority(s[1..])
  }

  /** The index of the last `@` in `s`, or -1 when there is none. */
  function LastAt(s: string): (r: int)
    ensures -1 <= r < |s|
    ensures r >= 0 ==> s[r] == '@'
    ensures forall i :: r < i < |s| ==> s[i] != '@'
  {
    if s == [] then -1
    else if s[|s| - 1] == '@' then |s| - 1
    else LastAt(s[..|s| - 1])
  }

  /** The host and port of an authority: what follows the last `@`, which
      ends the user-info part. */
  function AfterLastAt(s: string): string {
    s[LastAt(s) + 1..]
  }

  /** The host (with port) a URL parser reads from `url`: the scheme, then
      `://`, then the authority. `None` when `url` has no such shape. */
  function UrlHost(url: string): Option<string> {
    var n := SchemeLength(url);
    if 0 < n && n + 3 <= |url| && url[n..n + 3] == "://" then Some(AfterLastAt(Authority(url[n + 3..])))
    else None
  }

  /** An origin as the request URL reports it: a scheme and a host, the
      host holding neither user info nor a path. */
  predicate WellFormedOrigin(scheme: string, host: string) {
    && |scheme| > 0
    && (forall i :: 0 <= i < |scheme| ==> SchemeChar(scheme[i]))
    && (forall i :: 0 <= i < |host| ==> !EndsAuthority(host[i]) && host[i] != '@')
  }

  lemma {:induction false} SchemeLengthOfPrefix(a: string, b: string)
    requires forall i :: 0 <= i < |a| ==> SchemeChar(a[i])
    requires b != [] && !SchemeChar(b[0])
    ensures SchemeLength(a + b) == |a|
    decreases |a|
  {
    if a == [] {
      assert a + b == b;
    } else {
      assert (a + b)[1..] == a[1..] + b;
      SchemeLengthOfPrefix(a[1..], b);
    }
  }

  lemma {:induction false} AuthorityOfPrefix(a: string, b: string)
    requires forall i :: 0 <= i < |a| ==> !EndsAuthority(a[i])
    requires b == [] || EndsAuthority(b[0])
    ensures Authority(a + b) == a
    decreases |a|
  {
    if a == [] {
      assert a + b == b;
    } else {
      assert (a + b)[1..] == a[1..] + b;
      AuthorityOfPrefix(a[1..], b);
      assert a == [a[0]] + a[1..];
    }
  }

  lemma AfterLastAtOf(a: string, b: string)
    requires forall i :: 0 <= i < |b| ==> b[i] != '@'
    requires a == [] || a[|a| - 1] == '@'
    ensures AfterLastAt(a + b) == b
  {
    var s := a + b;
    assert forall k :: |a| <= k < |s| ==> s[k] != '@';
    if a != [] {
      assert s[|a| - 1] == '@';
    }
    assert LastAt(s) == |a| - 1;
    assert s[|a|..] == b;
  }

  /** An authority made of an origin's host, an `@` and another host names
      the other host; the origin's host becomes user info. */
  lemma UserInfoHidesHost(host: string, other: string)
    requires forall i :: 0 <= i < |host| ==> !EndsAuthority(host[i])
    requires forall i :: 0 <= i < |other| ==> !EndsAuthority(other[i]) && other[i] != '@'
    ensures AfterLastAt(Authority(host + ("@" + other))) == other
  {
    var whole := host + ("@" + other);
    Listing.ConcatAssociative(host, "@", other);
    NoAuthorityEnd(host, other);
    AuthorityOfPrefix(whole, []);
    assert whole + [] == whole;
    AfterLastAtOf(host + "@", other);
  }

  lemma NoAuthorityEnd(host: string, other: string)
    requires forall i :: 0 <= i < |host| ==> !EndsAuthority(host[i])
    requires forall i :: 0 <= i < |other| ==> !EndsAuthority(other[i])
    ensures forall i :: 0 <= i < |host + "@" + other| ==> !EndsAuthority((host + "@" + other)[i])
  {
    var whole := host + "@" + other;
    forall i | 0 <= i < |whole|
      ensures !EndsAuthority(whole[i])
    {
      if i < |host| {
        assert whole[i] == host[i];
      } else if i > |host| {
        assert whole[i] == other[i - |host| - 1];
      }
    }
  }

  /** The host of the origin followed by `rest`, when `rest` starts the
      remainder of the authority or ends it. */
  lemma UrlHostOf(scheme: string, host: string, rest: string)
    requires WellFormedOrigin(scheme, host)
    ensures var url := scheme + "://" + host + rest;
      UrlHost(url) == Some(AfterLastAt(Authority(host + rest)))
  {
    var url := scheme + "://" + host + rest;
    assert url == scheme + ("://" + host + rest);
    SchemeLengthOfPrefix(scheme, "://" + host + rest);
    assert url[|scheme|..|scheme| + 3] == "://";
    assert url[|scheme| + 3..] == host + rest;
  }

  /** With the parameter restricted to paths, every redirect stays on the
      origin's host. */
  lemma SafeRedirectStaysOnOrigin(scheme: string, host: string, code: Option<string>, redirect: Option<string>,
                                  exchange: string -> Option<AuthUser>)
    requires WellFormedOrigin(scheme, host)
    ensures UrlHost(SafeRedirectTarget(scheme + "://" + host, code, redirect, exchange)) == Some(host)
  {
    var path := if SignedInUser(code, exchange).Some? then SafePath(redirect) else LoginFailedPath;
    assert SafeRedirectTarget(scheme + "://" + host, code, redirect, exchange) == scheme + "://" + host + path;
    UrlHostOf(scheme, host, path);
    AuthorityOfPrefix(host, path);
    AfterLastAtOf([], host);
    assert [] + host == host;
  }

  /** As written, a `redirect` parameter that starts with `@` turns the
      origin into user info and sends the signed-in user to another host. */
  lemma RedirectCanLeaveOrigin(scheme: string, host: string, code: string, exchange: string -> Option<AuthUser>,
                               other: string)
    requires WellFormedOrigin(scheme, host) && WellFormedOrigin(scheme, other)
    requires code != "" && exchange(code).Some?
    ensures UrlHost(RedirectTarget(scheme + "://" + host, Some(code), Some("@" + other), exchange)) == Some(other)
  {
    var rest := "@" + other;
    var origin := scheme + "://" + host;
    assert RedirectTarget(origin, Some(code), Some(rest), exchange) == origin + rest;
    assert origin + rest == scheme + "://" + host + rest;
    UrlHostOf(scheme, host, rest);
    UserInfoHidesHost(host, other);
  }

  // ---- The account upsert ----

  /** `user_metadata.name || user_metadata.full_name`: the full name when the
      name is missing or empty, and then possibly absent itself. */
  function DisplayName(u: AuthUser): (r: Option<string>)
    ensures Truthy(u.metaName) ==> r == u.metaName
    ensures !Truthy(u.metaName) ==> r == u.metaFullName
  {
    if Truthy(u.metaName) then u.metaName else u.metaFullName
  }

  /** A written value of `undefined` leaves the column as it is. */
  function Written<T>(value: Option<T>, current: Option<T>): (r: Option<T>)
    ensures value.Some? ==> r == value
    ensures value.None? ==> r == current
  {
    if value.Some? then value else current
  }

  /** The `create` branch: a free account with no usage and the free limit. */
  function NewAccount(u: AuthUser, email: string, now: int): (r: Account)
    ensures r.id == u.id && r.email == email && r.name == DisplayName(u) && r.avatarUrl == u.avatarUrl
    ensures r.plan == FREE && r.responsesUsed == 0 && r.responsesLimit == FreeResponsesLimit
    ensures r.stripeCustomerId == None && r.stripeSubscriptionId == None
    ensures r.stripePriceId == None && r.stripeCurrentPeriodEnd == None
  {
    Account(u.id, email, DisplayName(u), u.avatarUrl, None, None, None, FREE, 0, FreeResponsesLimit,
            None, None, None, None, now)
  }

  /** The `update` branch: email, name and avatar where the identity provider
      supplies them, and the update time. */
  function Refreshed(a: Account, u: AuthUser, now: int): (r: Account)
    ensures SameBilling(a, r)
    ensures r.id == a.id && r.businessName == a.businessName && r.businessType == a.businessType
    ensures r.brandVoice == a.brandVoice
    ensures Some(r.email) == Written(u.email, Some(a.email))
    ensures r.name == Written(DisplayName(u), a.name) && r.avatarUrl == Written(u.avatarUrl, a.avatarUrl)
    ensures r.updatedAt == now
  {
    a.(email := Written(u.email, Some(a.email)).value, name := Written(DisplayName(u), a.name),
       avatarUrl := Written(u.avatarUrl, a.avatarUrl), updatedAt := now)
  }

  /** The accounts after the upsert. Creating an account without an email
      fails, and the route swallows that failure, so nothing is written. */
  function Synced(users: map<UserId, Account>, u: AuthUser, now: int): (r: map<UserId, Account>)
    ensures users.Keys <= r.Keys <= users.Keys + {u.id}
    ensures u.id in users ==> SameBilling(users[u.id], r[u.id])
    ensures u.id !in users && u.email.None? ==> r == users
  {
    if u.id in users then users[u.id := Refreshed(users[u.id], u, now)]
    else if u.email.Some? then users[u.id := NewAccount(u, u.email.value, now)]
    else users
  }

  /** The upsert touches only the signed-in user's account. An existing
      account keeps its billing state; a new one starts free, within quota
      and with room for a reply. */
  lemma SyncedChangesOnlyTheUser(users: map<UserId, Account>, u: AuthUser, now: int)
    ensures var after := Synced(users, u, now);
      && (forall v :: v in users ==> v in after)
      && (forall v :: v in after && v != u.id ==> v in users && after[v] == users[v])
      && (u.id in users ==> SameBilling(users[u.id], after[u.id]))
      && (u.id !in users && u.email.Some? ==>
            && u.id in after && after[u.id].plan == FREE
            && WithinQuota(after[u.id]) && QuotaAllows(after[u.id]))
      && (u.id !in users && u.email.None? ==> after == users)
  {
  }

  /** Signing in twice at the same moment is signing in once. */
  lemma SyncedIdempotent(users: map<UserId, Account>, u: AuthUser, now: int)
    ensures Synced(Synced(users, u, now), u, now) == Synced(users, u, now)
  {
    var once := Synced(users, u, now);
    if u.id in once {
      var a := once[u.id];
      assert Refreshed(a, u, now) == a by {
        ProfileAndBillingCoverAccount(Refreshed(a, u, now), a);
      }
    }
  }

  /** `GET /api/auth/callback`: the upsert when the exchange yields a user,
      then the redirect as written, which agrees with the corrected
      `SafeRedirectTarget` whenever the parameter is a path. */
  method HandleCallback(db: Store, origin: string, code: Option<string>, redirect: Option<string>,
                        exchange: string -> Option<AuthUser>, now: int) returns (target: string)
    requires db.Valid()
    modifies db`users
    ensures db.Valid()
    ensures target == RedirectTarget(origin, code, redirect, exchange)
    ensures SignedInUser(code, exchange).None? ==> db.users == old(db.users)
    ensures SignedInUser(code, exchange).Some? ==> db.users == Synced(old(db.users), SignedInUser(code, exchange).value, now)
  {
    if Truthy(code) {
      var signedIn := exchange(code.value);
      if signedIn.Some? {
        var u := signedIn.value;
        if u.id in db.users {
          db.users := db.users[u.id := Refreshed(db.users[u.id], u, now)];
        } else if u.email.Some? {
          db.users := db.users[u.id := NewAccount(u, u.email.value, now)];
        }
        return origin + (if Truthy(redirect) then redirect.value else DashboardPath);
      }
    }
    return origin + LoginFailedPath;
  }
}
