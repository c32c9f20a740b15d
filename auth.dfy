/**
 * The session token lifecycle of the Discord sign-in: what the token keeps
 * after sign-in, when it is refreshed, what each refresh outcome does to it,
 * and what the session exposes to pages. The token refresh request and the
 * clock are parameters: `now` is the clock read before the refresh condition,
 * `later` the one read after the refresh response.
 */
module Auth {
  import opened Wrappers

  /** A profile field of unknown type: a string or anything else. */
  datatype RawField = Str(s: string) | NotString

  /** The provider's profile, untyped as the callback receives it. */
  datatype RawProfile = RawProfile(
    id: RawField, username: RawField,
    discriminator: Option<string>, globalName: Option<string>, avatar: Option<string>)

  /** `isDiscordProfile`: a profile is present and its id and username are strings. */
  predicate IsDiscordProfile(p: Option<RawProfile>)
  {
    p.Some? && p.value.id.Str? && p.value.username.Str?
  }

  /** The user record kept in the token; `avatar == None` is JavaScript `null`. */
  datatype User = User(
    id: string, username: string,
    discriminator: Option<string>, globalName: Option<string>, avatar: Option<string>)

  /** The OAuth account returned on sign-in; `expiresAt == None` when it is not a number. */
  datatype Account = Account(
    accessToken: Option<string>, refreshToken: Option<string>,
    expiresAt: Option<int>, tokenType: Option<string>)

  /** The token fields this callback reads and writes; absent is `None`. */
  datatype Token = Token(
    accessToken: Option<string>, refreshToken: Option<string>,
    expiresAt: Option<int>, tokenType: Option<string>, user: Option<User>)

  /** The body of a successful refresh response. */
  datatype RefreshData = RefreshData(
    accessToken: string, tokenType: Option<string>, expiresIn: int, refreshToken: Option<string>)

  /** How the refresh request ended: OK with a JSON body, a non-OK status, or an exception. */
  datatype RefreshOutcome = Refreshed(data: RefreshData) | Rejected | Threw

  const DefaultTokenType: string := "Bearer"

  /** The user a valid profile yields; the avatar defaults to `null`. */
  function UserOf(p: RawProfile): User
    requires p.id.Str? && p.username.Str?
  {
    User(p.id.s, p.username.s, p.discriminator, p.globalName, p.avatar)
  }

  /** The sign-in branch: copy the account and, for a valid profile, the user. */
  function SignIn(t: Token, a: Account, profile: Option<RawProfile>): (r: Token)
    ensures r.accessToken == a.accessToken && r.refreshToken == a.refreshToken
    ensures a.expiresAt.Some? ==> r.expiresAt == Some(a.expiresAt.value * 1000)
    ensures a.expiresAt.None? ==> r.expiresAt == t.expiresAt
    ensures r.tokenType.Some?
    ensures a.tokenType.Some? ==> r.tokenType == a.tokenType
    ensures a.tokenType.None? ==> r.tokenType == Some(DefaultTokenType)
    ensures IsDiscordProfile(profile) ==> r.user == Some(UserOf(profile.value))
    ensures !IsDiscordProfile(profile) ==> r.user == t.user
  {
    Token(
      a.accessToken, a.refreshToken,
      if a.expiresAt.Some? then Some(a.expiresAt.value * 1000) else t.expiresAt,
      Some(a.tokenType.GetOr(DefaultTokenType)),
      if IsDiscordProfile(profile) then Some(UserOf(profile.value)) else t.user)
  }

  /** `expiresAt && expiresAt - 60_000 < now`: a non-zero expiry less than a minute away (or past). */
  predicate WillExpireSoon(t: Token, now: int)
  {
    t.expiresAt.Some? && t.expiresAt.value != 0 && t.expiresAt.value - 60000 < now
  }

  /** A refresh is attempted when the token expires soon and holds a refresh token. */
  predicate ShouldRefresh(t: Token, now: int)
  {
    WillExpireSoon(t, now) && Truthy(t.refreshToken)
  }

  /** The effect of one refresh attempt's outcome on the token. */
  function ApplyRefresh(t: Token, outcome: RefreshOutcome, later: int): (r: Token)
    ensures r.user == t.user
    ensures outcome.Threw? ==> r == t
    ensures outcome.Rejected? ==>
      r.accessToken.None? && r.refreshToken.None? && r.expiresAt.None? && r.tokenType.None?
    ensures outcome.Refreshed? ==>
      var d := outcome.data;
      && r.accessToken == Some(d.accessToken)
      && r.tokenType == Some(d.tokenType.GetOr(DefaultTokenType))
      && r.expiresAt == Some(later + d.expiresIn * 1000)
      && r.refreshToken == (if Truthy(d.refreshToken) then d.refreshToken else t.refreshToken)
  {
    match outcome
    case Refreshed(d) =>
      t.(accessToken := Some(d.accessToken),
         tokenType := Some(d.tokenType.GetOr(DefaultTokenType)),
         expiresAt := Some(later + d.expiresIn * 1000),
         refreshToken := if Truthy(d.refreshToken) then d.refreshToken else t.refreshToken)
    case Rejected =>
      t.(accessToken := None, refreshToken := None, expiresAt := None, tokenType := None)
    case Threw => t
  }

  /** The whole `jwt` callback: the sign-in branch, then at most one refresh attempt. */
  function JwtCallback(t: Token, account: Option<Account>, profile: Option<RawProfile>,
                       now: int, later: int, outcome: RefreshOutcome): Token
  {
    var signedIn := if account.Some? then SignIn(t, account.value, profile) else t;
    if ShouldRefresh(signedIn, now) then ApplyRefresh(signedIn, outcome, later) else signedIn
  }

  /** Without sign-in and with no refresh due, the token comes back as it came, whatever the network would say. */
  lemma NoRefreshNoChange(t: Token, profile: Option<RawProfile>, now: int, later: int, outcome: RefreshOutcome)
    requires !ShouldRefresh(t, now)
    ensures JwtCallback(t, None, profile, now, later, outcome) == t
  {
  }

  /** A refresh that throws leaves the token exactly as the sign-in branch left it. */
  lemma ThrownRefreshKeepsToken(t: Token, account: Option<Account>, profile: Option<RawProfile>, now: int, later: int)
    ensures JwtCallback(t, account, profile, now, later, Threw)
         == (if account.Some? then SignIn(t, account.value, profile) else t)
  {
  }

  /** A rejected refresh clears the credentials, keeps the user, and is never retried. */
  lemma RejectedRefreshIsFinal(t: Token, profile: Option<RawProfile>, now: int, later: int, now': int)
    requires ShouldRefresh(t, now)
    ensures var r := JwtCallback(t, None, profile, now, later, Rejected);
      r == Token(None, None, None, None, t.user) && !ShouldRefresh(r, now')
  {
  }

  /**
   * A refreshed token with a lifetime of at least a minute is not due again
   * at the time of the refresh.
   */
  lemma RefreshedTokenIsFresh(t: Token, profile: Option<RawProfile>, now: int, later: int, d: RefreshData)
    requires ShouldRefresh(t, now) && d.expiresIn >= 60
    ensures !WillExpireSoon(JwtCallback(t, None, profile, now, later, Refreshed(d)), later)
  {
  }

  /** A sign-in whose account expires within a minute, with a refresh token, is refreshed in the same call. */
  lemma SignInCanRefreshAtOnce(t: Token, a: Account, profile: Option<RawProfile>, now: int, later: int, outcome: RefreshOutcome)
    requires a.expiresAt.Some? && a.expiresAt.value != 0 && a.expiresAt.value * 1000 - 60000 < now
    requires Truthy(a.refreshToken)
    ensures JwtCallback(t, Some(a), profile, now, later, outcome)
         == ApplyRefresh(SignIn(t, a, profile), outcome, later)
  {
  }

  /** What `session.discord` receives. */
  datatype DiscordSession = DiscordSession(accessToken: Option<string>, tokenType: Option<string>, user: Option<User>)

  /** The `session` callback: the access token, its type and the user; nothing else. */
  function SessionOf(t: Token): (r: DiscordSession)
    ensures r.accessToken == t.accessToken && r.tokenType == t.tokenType && r.user == t.user
  {
    DiscordSession(t.accessToken, t.tokenType, t.user)
  }

  /** Tokens that differ only in the refresh token and expiry give the same session. */
  lemma SessionHidesRefreshState(t: Token, refreshToken: Option<string>, expiresAt: Option<int>)
    ensures SessionOf(t) == SessionOf(t.(refreshToken := refreshToken, expiresAt := expiresAt))
  {
  }

  /** The token object the auth library hands to the `jwt` callback, updated in place. */
  class JwtToken {
    var accessToken: Option<string>
    var refreshToken: Option<string>
    var expiresAt: Option<int>
    var tokenType: Option<string>
    var user: Option<User>

    function Value(): Token
      reads this
    {
      Token(accessToken, refreshToken, expiresAt, tokenType, user)
    }

    constructor (t: Token)
      ensures Value() == t
    {
      accessToken, refreshToken, expiresAt, tokenType, user :=
        t.accessToken, t.refreshToken, t.expiresAt, t.tokenType, t.user;
    }

    /** The `jwt` callback, field by field. */
    method Jwt(account: Option<Account>, profile: Option<RawProfile>,
               now: int, later: int, outcome: RefreshOutcome)
      modifies this
      ensures Value() == JwtCallback(old(Value()), account, profile, now, later, outcome)
    {
      if account.Some? {
        var a := account.value;
        accessToken := a.accessToken;
        refreshToken := a.refreshToken;
        if a.expiresAt.Some? {
          expiresAt := Some(a.expiresAt.value * 1000);
        }
        tokenType := Some(a.tokenType.GetOr(DefaultTokenType));
        if IsDiscordProfile(profile) {
          user := Some(UserOf(profile.value));
        }
      }
      var willExpireSoon := expiresAt.Some? && expiresAt.value != 0 && expiresAt.value - 60000 < now;
      if willExpireSoon && Truthy(refreshToken) {
        match outcome {
          case Refreshed(d) =>
            accessToken := Some(d.accessToken);
            tokenType := Some(d.tokenType.GetOr(DefaultTokenType));
            expiresAt := Some(later + d.expiresIn * 1000);
            if Truthy(d.refreshToken) {
              refreshToken := d.refreshToken;
            }
          case Rejected =>
            accessToken := None;
            refreshToken := None;
            expiresAt := None;
            tokenType := None;
          case Threw =>
        }
      }
    }
  }
}
