/** The OAuth account-linking service: find the user by provider identity,
    else link the OAuth identity to the user with the profile's email, else
    create a new user; plus the provider callbacks and the OAuth URLs. */
module OAuthService {
  import opened Wrappers
  import opened Strings

  /** The profile a provider returns for the signed-in account. */
  datatype Profile = Profile(id: string, emails: seq<string>, displayName: Option<string>,
                             username: Option<string>, photos: seq<string>)

  /** A stored user. `extra` stands for the fields this service never
      touches (password hash, timestamps). */
  datatype User = User(email: string, name: Option<string>, oauthProvider: Option<string>, oauthId: Option<string>,
                       avatar: Option<string>, emailVerified: bool, extra: map<string, string>)

  /** Reading `profile.emails[0].value` of a profile without emails throws. */
  datatype OAuthError = MissingEmail

  /** The user table after the call, and the user returned. */
  datatype Linked = Linked(users: seq<User>, user: User)

  /** The first index whose user satisfies `p`: `findOne` on an in-memory
      table. */
  function FindFirst(users: seq<User>, p: User -> bool): (r: Option<nat>)
    ensures r.Some? ==> r.value < |users| && p(users[r.value])
    ensures r.Some? ==> forall j :: 0 <= j < r.value ==> !p(users[j])
    ensures r.None? ==> forall j :: 0 <= j < |users| ==> !p(users[j])
    decreases |users|
  {
    if users == [] then None
    else if p(users[0]) then Some(0)
    else match FindFirst(users[1..], p)
      case None => None
      case Some(i) => Some(i + 1)
  }

  predicate HasIdentity(u: User, provider: string, oauthId: string) {
    u.oauthProvider == Some(provider) && u.oauthId == Some(oauthId)
  }

  /** `profile.photos?.[0]?.value`. */
  function FirstPhoto(profile: Profile): (r: Option<string>)
    ensures r.Some? <==> |profile.photos| > 0
    ensures r.Some? ==> r.value == profile.photos[0]
  {
    if |profile.photos| > 0 then Some(profile.photos[0]) else None
  }

  /** `profile.displayName || profile.username`. */
  function DisplayName(profile: Profile): (r: Option<string>)
    ensures profile.displayName.Some? && profile.displayName.value != "" ==> r == profile.displayName
    ensures profile.displayName.None? || profile.displayName.value == "" ==> r == profile.username
  {
    if profile.displayName.Some? && profile.displayName.value != "" then profile.displayName else profile.username
  }

  /** Linking an existing account: provider, id and avatar come from the
      profile (a profile without photos clears the avatar) and the email
      counts as verified. */
  function LinkAccount(u: User, profile: Profile, provider: string): (r: User)
    ensures HasIdentity(r, provider, profile.id) && r.emailVerified
    ensures r.avatar == FirstPhoto(profile)
    ensures r.email == u.email && r.name == u.name && r.extra == u.extra
  {
    u.(oauthProvider := Some(provider), oauthId := Some(profile.id), avatar := FirstPhoto(profile),
       emailVerified := true)
  }

  /** The record created for a first-time OAuth sign-in. */
  function NewUser(profile: Profile, provider: string): (r: User)
    requires |profile.emails| > 0
    ensures HasIdentity(r, provider, profile.id) && r.emailVerified
    ensures r.email == profile.emails[0] && r.name == DisplayName(profile) && r.avatar == FirstPhoto(profile)
  {
    User(profile.emails[0], DisplayName(profile), Some(provider), Some(profile.id), FirstPhoto(profile), true, map[])
  }

  /** `findOrCreateUser` on a table: the returned user always carries the
      provider identity, and the table grows by at most one. */
  function FindOrCreate(users: seq<User>, profile: Profile, provider: string): (r: Result<Linked, OAuthError>)
    ensures r.Ok? ==> HasIdentity(r.value.user, provider, profile.id)
    ensures r.Ok? ==> |users| <= |r.value.users| <= |users| + 1
    ensures r.Ok? ==> r.value.user in r.value.users
    ensures r.Err? <==> FindFirst(users, u => HasIdentity(u, provider, profile.id)).None? && profile.emails == []
  {
    match FindFirst(users, u => HasIdentity(u, provider, profile.id))
    case Some(i) => Ok(Linked(users, users[i]))
    case None =>
      if profile.emails == [] then Err(MissingEmail)
      else match FindFirst(users, (u: User) => u.email == profile.emails[0])
        case Some(j) =>
          var linked := LinkAccount(users[j], profile, provider);
          assert users[j := linked][j] == linked;
          Ok(Linked(users[j := linked], linked))
        case None =>
          var created := NewUser(profile, provider);
          Ok(Linked(users + [created], created))
  }

  /** A user already holding the identity is returned and nothing changes. */
  lemma FoundByIdentity(users: seq<User>, profile: Profile, provider: string, i: nat)
    requires i < |users| && HasIdentity(users[i], provider, profile.id)
    requires forall j :: 0 <= j < i ==> !HasIdentity(users[j], provider, profile.id)
    ensures FindOrCreate(users, profile, provider) == Ok(Linked(users, users[i]))
  {
    var found := FindFirst(users, u => HasIdentity(u, provider, profile.id));
    assert found.Some?;
    assert found.value == i;
  }

  /** Otherwise the first user with the profile's first email is linked in
      place: no user is added and no other user changes. */
  lemma LinksByEmail(users: seq<User>, profile: Profile, provider: string, j: nat)
    requires forall k :: 0 <= k < |users| ==> !HasIdentity(users[k], provider, profile.id)
    requires |profile.emails| > 0 && j < |users| && users[j].email == profile.emails[0]
    requires forall k :: 0 <= k < j ==> users[k].email != profile.emails[0]
    ensures var r := FindOrCreate(users, profile, provider);
      && r.Ok?
      && |r.value.users| == |users|
      && r.value.users[j] == r.value.user == LinkAccount(users[j], profile, provider)
      && forall k :: 0 <= k < |users| && k != j ==> r.value.users[k] == users[k]
  {
    var found := FindFirst(users, (u: User) => u.email == profile.emails[0]);
    assert found.Some?;
    assert found.value == j;
  }

  /** Otherwise exactly one user is appended, built from the profile. */
  lemma CreatesNewUser(users: seq<User>, profile: Profile, provider: string)
    requires forall k :: 0 <= k < |users| ==> !HasIdentity(users[k], provider, profile.id)
    requires |profile.emails| > 0
    requires forall k :: 0 <= k < |users| ==> users[k].email != profile.emails[0]
    ensures FindOrCreate(users, profile, provider) == Ok(Linked(users + [NewUser(profile, provider)], NewUser(profile, provider)))
  {
  }

  /** Signing in again with the same profile finds the same user and leaves
      the table as the first sign-in left it. */
  lemma {:induction false} FindOrCreateIdempotent(users: seq<User>, profile: Profile, provider: string)
    requires FindOrCreate(users, profile, provider).Ok?
    ensures var l := FindOrCreate(users, profile, provider).value;
      FindOrCreate(l.users, profile, provider) == Ok(l)
  {
    var l := FindOrCreate(users, profile, provider).value;
    var first := FindFirst(users, u => HasIdentity(u, provider, profile.id));
    if first.Some? {
      FoundByIdentity(users, profile, provider, first.value);
    } else {
      var byEmail := FindFirst(users, (u: User) => u.email == profile.emails[0]);
      if byEmail.Some? {
        var j := byEmail.value;
        assert l.users == users[j := l.user];
        FoundByIdentity(l.users, profile, provider, j);
      } else {
        assert l.users == users + [l.user];
        FoundByIdentity(l.users, profile, provider, |users|);
      }
    }
  }

  /** The user collection, updated in place. */
  class UserCollection {
    var users: seq<User>

    constructor(users: seq<User>)
      ensures this.users == users
    {
      this.users := users;
    }

    /** `findOrCreateUser`: look up by identity, else by email and link, else
        insert; a profile without emails throws before anything is
        written. */
    method FindOrCreateUser(profile: Profile, provider: string) returns (r: Result<User, OAuthError>)
      modifies this
      ensures FindOrCreate(old(users), profile, provider).Ok? ==>
        (var l := FindOrCreate(old(users), profile, provider).value; users == l.users && r == Ok(l.user))
      ensures FindOrCreate(old(users), profile, provider).Err? ==>
        (users == old(users) && r == Err(MissingEmail))
    {
      var found := FindFirst(users, u => HasIdentity(u, provider, profile.id));
      if found.Some? {
        return Ok(users[found.value]);
      }
      if profile.emails == [] {
        return Err(MissingEmail);
      }
      var email := profile.emails[0];
      found := FindFirst(users, (u: User) => u.email == email);
      if found.Some? {
        var user := LinkAccount(users[found.value], profile, provider);
        users := users[found.value := user];
        return Ok(user);
      }
      var user := NewUser(profile, provider);
      users := users + [user];
      return Ok(user);
    }

    /** `handleGoogleCallback`: the same lookup with provider 'google'. */
    method HandleGoogleCallback(profile: Profile) returns (r: Result<User, OAuthError>)
      modifies this
      ensures FindOrCreate(old(users), profile, "google").Ok? ==>
        (var l := FindOrCreate(old(users), profile, "google").value; users == l.users && r == Ok(l.user))
      ensures FindOrCreate(old(users), profile, "google").Err? ==> (users == old(users) && r.Err?)
    {
      r := FindOrCreateUser(profile, "google");
    }

    /** `handleGitHubCallback`: the same lookup with provider 'github'. */
    method HandleGitHubCallback(profile: Profile) returns (r: Result<User, OAuthError>)
      modifies this
      ensures FindOrCreate(old(users), profile, "github").Ok? ==>
        (var l := FindOrCreate(old(users), profile, "github").value; users == l.users && r == Ok(l.user))
      ensures FindOrCreate(old(users), profile, "github").Err? ==> (users == old(users) && r.Err?)
    {
      r := FindOrCreateUser(profile, "github");
    }
  }

  datatype ProviderUrls = ProviderUrls(authUrl: string, callbackUrl: string)
  datatype OAuthUrls = OAuthUrls(google: ProviderUrls, github: ProviderUrls)

  const DefaultBaseUrl := "http://localhost:5000"
  const GoogleAuthStart := "https://accounts.google.com/o/oauth2/v2/auth?client_id="
  const GoogleAuthEnd := "&response_type=code&scope=email profile"
  const GitHubAuthStart := "https://github.com/login/oauth/authorize?client_id="
  const GitHubAuthEnd := "&scope=user:email"
  const RedirectParam := "&redirect_uri="

  /** A value interpolated into a template literal: a missing one renders as
      the text "undefined". */
  function Interpolate(v: Option<string>): string {
    if v.Some? then v.value else "undefined"
  }

  /** The callback URL of a provider under a base URL:
      `<base>/api/auth/<provider>/callback`. */
  function CallbackUrl(baseUrl: string, provider: string): (r: string)
    ensures StartsWith(r, baseUrl)
    ensures OccursAt("/api/auth/" + provider + "/callback", r, |baseUrl|)
    ensures |r| == |baseUrl| + |provider| + 19
  {
    var r := baseUrl + ("/api/auth/" + provider + "/callback");
    assert r[..|baseUrl|] == baseUrl;
    assert r[|baseUrl|..] == "/api/auth/" + provider + "/callback";
    r
  }

  /** An authorization URL: start, client id, `&redirect_uri=` and the
      callback URL, then the provider's fixed tail. */
  function AuthUrl(start: string, clientId: string, callback: string, tail: string): (r: string)
    ensures StartsWith(r, start)
    ensures OccursAt(clientId, r, |start|)
    ensures OccursAt(RedirectParam + callback, r, |start| + |clientId|)
    ensures |r| == |start| + |clientId| + |RedirectParam| + |callback| + |tail|
    ensures OccursAt(tail, r, |r| - |tail|)
  {
    var r := start + clientId + RedirectParam + callback + tail;
    assert r[..|start|] == start;
    assert r[|start|..|start| + |clientId|] == clientId;
    assert r[|start| + |clientId|..|start| + |clientId| + |RedirectParam + callback|] == RedirectParam + callback;
    assert r[|r| - |tail|..] == tail;
    r
  }

  /** `getOAuthUrls`: the base URL is `BASE_URL` or, when that is unset or
      empty, the local default; each provider's callback URL is
      `<base>/api/auth/<provider>/callback`, and its authorization URL
      redirects to exactly that callback. */
  function GetOAuthUrls(baseUrlEnv: Option<string>, googleClientId: Option<string>, githubClientId: Option<string>): (r: OAuthUrls)
    ensures r.google.callbackUrl == CallbackUrl(OrElse(baseUrlEnv, DefaultBaseUrl), "google")
    ensures r.github.callbackUrl == CallbackUrl(OrElse(baseUrlEnv, DefaultBaseUrl), "github")
    ensures StartsWith(r.google.authUrl, GoogleAuthStart) && StartsWith(r.github.authUrl, GitHubAuthStart)
    ensures OccursAt(RedirectParam + r.google.callbackUrl, r.google.authUrl, |GoogleAuthStart| + |Interpolate(googleClientId)|)
    ensures OccursAt(RedirectParam + r.github.callbackUrl, r.github.authUrl, |GitHubAuthStart| + |Interpolate(githubClientId)|)
    ensures (baseUrlEnv.None? || baseUrlEnv == Some("")) ==> StartsWith(r.google.callbackUrl, DefaultBaseUrl) && StartsWith(r.github.callbackUrl, DefaultBaseUrl)
  {
    var base := OrElse(baseUrlEnv, DefaultBaseUrl);
    var google := CallbackUrl(base, "google");
    var github := CallbackUrl(base, "github");
    OAuthUrls(ProviderUrls(AuthUrl(GoogleAuthStart, Interpolate(googleClientId), google, GoogleAuthEnd), google),
              ProviderUrls(AuthUrl(GitHubAuthStart, Interpolate(githubClientId), github, GitHubAuthEnd), github))
  }
}
