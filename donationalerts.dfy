/**
 * The DonationAlerts provider (providers/donationalerts/donationalerts.go):
 * its construction and OAuth2 configuration, the session it starts, and the
 * mapping of the profile response onto goth's user record.
 */
module DonationAlerts {
  import opened Wrappers
  import opened Decimal
  import opened Sessions

  /** Read the user's profile. */
  const ScopeUserShow := "oauth-user-show"
  /** Read the user's donation alerts. */
  const ScopeDonationIndex := "oauth-donation-index"
  /** Subscribe to new donation alerts. */
  const ScopeDonationSubscribe := "oauth-donation-subscribe"

  const AuthEndpoint := "https://www.donationalerts.com/oauth/authorize"
  const TokenEndpoint := "https://www.donationalerts.com/oauth/token"
  const ProfileEndpoint := "https://www.donationalerts.com/api/v1/user/oauth"

  const DefaultName := "donationalerts"

  /** The fields of `oauth2.Config` the provider fills in. */
  datatype Config = Config(clientID: string, clientSecret: string, authURL: string, tokenURL: string,
                           redirectURL: string, scopes: seq<string>)

  /** The configuration for these credentials: the caller's scopes, or the profile scope alone. */
  predicate ConfiguredFor(c: Config, clientKey: string, secret: string, callbackURL: string, scopes: seq<string>)
  {
    && c.clientID == clientKey
    && c.clientSecret == secret
    && c.redirectURL == callbackURL
    && c.authURL == AuthEndpoint
    && c.tokenURL == TokenEndpoint
    && c.scopes == if |scopes| > 0 then scopes else [ScopeUserShow]
  }

  /** A decoded JSON value, as `encoding/json` stores it in an `interface{}`. */
  datatype JsonValue =
    | JsonNull
    | JsonBool(b: bool)
    | JsonNumber(literal: string)
    | JsonString(s: string)
    | JsonArray(items: seq<JsonValue>)
    | JsonObject(members: map<string, JsonValue>)

  /** goth's `RawData`: the whole response document. */
  type RawDocument = map<string, JsonValue>

  /** The fields of `goth.User` this provider sets. */
  datatype User = User(rawData: RawDocument, provider: string, email: string, name: string, nickName: string,
                       userID: string, avatarURL: string, accessToken: string, refreshToken: string,
                       expiresAt: Int64)

  const EmptyUser := User(map[], "", "", "", "", "", "", "", "", ZeroTime)

  /** The `data` object of the profile response; an absent field decodes to its zero value. */
  datatype ProfileData = ProfileData(id: Int64, code: string, name: string, avatar: string, email: string,
                                     socketConnectionString: string)

  /**
   * A profile response body as the two decoding passes see it: once as a whole
   * document, once as the fixed profile shape (which fails, for one, on a
   * non-numeric id).
   */
  datatype ProfileBody = ProfileBody(asDocument: Result<RawDocument, Error>, asProfile: Result<ProfileData, Error>)

  /**
   * `decodeUserData`: stores the document in `RawData`, then copies the profile
   * fields. On an error it stops where the error happened.
   */
  function DecodeUserData(body: ProfileBody, user: User): (r: (User, Option<Error>))
    ensures body.asDocument.Failure? ==> r == (user, Some(body.asDocument.error))
    ensures body.asDocument.Success? && body.asProfile.Failure? ==>
              r == (user.(rawData := body.asDocument.value), Some(body.asProfile.error))
    ensures r.1.None? <==> body.asDocument.Success? && body.asProfile.Success?
    ensures r.1.None? ==>
              var d := body.asProfile.value;
              && r.0 == user.(rawData := body.asDocument.value, name := d.name, nickName := d.code,
                              email := d.email, userID := FormatInt(d.id), avatarURL := d.avatar)
              && ParseInt(r.0.userID) == Some(d.id)
  {
    match body.asDocument
    case Failure(e) => (user, Some(e))
    case Success(doc) =>
      var withRaw := user.(rawData := doc);
      match body.asProfile
      case Failure(e) => (withRaw, Some(e))
      case Success(d) =>
        FormatIntRoundTrip(d.id);
        (withRaw.(name := d.name, nickName := d.code, email := d.email, userID := FormatInt(d.id),
                  avatarURL := d.avatar), None)
  }

  /** The profile of the provider's own test: id 3 becomes the user id "3". */
  lemma TestProfileUserID(doc: RawDocument, user: User)
    ensures var d := ProfileData(3, "tris_the_jam_master", "Tris_the_Jam_Master", "avatar", "sergey@donationalerts.com", "");
            var r := DecodeUserData(ProfileBody(Success(doc), Success(d)), user);
            r.1 == None && r.0.userID == "3" && r.0.name == "Tris_the_Jam_Master" && r.0.rawData == doc
  {
  }

  /**
   * `newConfig`: the credentials and endpoints, and the scopes appended one by
   * one in the caller's order, or `ScopeUserShow` when there are none.
   */
  method NewConfig(p: Provider, scopes: seq<string>) returns (c: Config)
    ensures ConfiguredFor(c, p.clientKey, p.secret, p.callbackURL, scopes)
    ensures |scopes| > 0 ==> c.scopes == scopes
    ensures |scopes| == 0 ==> c.scopes == [ScopeUserShow]
  {
    c := Config(p.clientKey, p.secret, AuthEndpoint, TokenEndpoint, p.callbackURL, []);
    if |scopes| > 0 {
      for i := 0 to |scopes|
        invariant c == Config(p.clientKey, p.secret, AuthEndpoint, TokenEndpoint, p.callbackURL, scopes[..i])
      {
        c := c.(scopes := c.scopes + [scopes[i]]);
      }
      assert scopes[..|scopes|] == scopes;
    } else {
      c := c.(scopes := [ScopeUserShow]);
    }
  }

  /**
   * `Provider`. The adapter itself changes only the name after construction;
   * the exported fields (credentials, profile endpoint) may be reassigned by callers.
   */
  class Provider {
    var clientKey: string
    var secret: string
    var callbackURL: string
    var config: Config
    var providerName: string
    var profileEndpoint: string

    /** `New`: the credentials verbatim, the default name and the profile endpoint. */
    constructor New(clientKey: string, secret: string, callbackURL: string, scopes: seq<string>)
      ensures this.clientKey == clientKey && this.secret == secret && this.callbackURL == callbackURL
      ensures providerName == DefaultName && profileEndpoint == ProfileEndpoint
      ensures ConfiguredFor(config, clientKey, secret, callbackURL, scopes)
    {
      this.clientKey := clientKey;
      this.secret := secret;
      this.callbackURL := callbackURL;
      providerName := DefaultName;
      profileEndpoint := ProfileEndpoint;
      new;
      config := NewConfig(this, scopes);
    }

    /** The name this provider is registered under. */
    function Name(): (name: string)
      reads this
      ensures name == providerName
    {
      providerName
    }

    method SetName(name: string)
      modifies this`providerName
      ensures Name() == name
      ensures clientKey == old(clientKey) && secret == old(secret) && callbackURL == old(callbackURL)
      ensures config == old(config) && profileEndpoint == old(profileEndpoint)
    {
      providerName := name;
    }

    /**
     * `BeginAuth`: a new session holding only the authorization URL, which the
     * OAuth2 library builds from the configuration and the state (`authCodeURL`).
     */
    method BeginAuth(state: string, authCodeURL: (Config, string) -> string) returns (s: Session, err: Option<Error>)
      ensures fresh(s) && err == None
      ensures s.State() == EmptySession.(authURL := authCodeURL(config, state))
    {
      s := new Session.FromState(EmptySession.(authURL := authCodeURL(config, state)));
      err := None;
    }

    /** `UnmarshalSession`: a new session from the text `Marshal` produced. */
    method UnmarshalSession(data: string) returns (s: Session, err: Option<Error>)
      ensures fresh(s)
      ensures err.None? <==> Decode(data).Some?
      ensures err.None? ==> s.State() == Decode(data).value
      ensures err.Some? ==> s.State() == EmptySession
    {
      var decoded := Decode(data);
      if decoded.Some? {
        s := new Session.FromState(decoded.value);
        err := None;
      } else {
        s := new Session.FromState(EmptySession);
        err := Some(DecodeError("malformed session"));
      }
    }

    /** `RefreshTokenAvailable`: this provider always issues refresh tokens. */
    function RefreshTokenAvailable(): (available: bool)
      ensures available
    {
      true
    }

    /**
     * `FetchUser`: `fetched` is the outcome of the profile request made with the
     * session's access token. The user carries the provider's name and the
     * session's tokens; a decoding error returns the partly filled user with it.
     */
    method FetchUser(s: Session, fetched: Result<ProfileBody, Error>) returns (user: User, err: Option<Error>)
      ensures fetched.Failure? ==> user == EmptyUser && err == Some(fetched.error)
      ensures fetched.Success? ==>
                && user.provider == Name()
                && user.accessToken == s.accessToken
                && user.refreshToken == s.refreshToken
                && user.expiresAt == s.expiresAt
      ensures err.None? <==> fetched.Success? && fetched.value.asDocument.Success? && fetched.value.asProfile.Success?
      ensures fetched.Success? && fetched.value.asDocument.Failure? ==>
                err == Some(fetched.value.asDocument.error) && user.rawData == map[]
      ensures fetched.Success? && fetched.value.asDocument.Success? && fetched.value.asProfile.Failure? ==>
                err == Some(fetched.value.asProfile.error)
      ensures fetched.Success? && fetched.value.asDocument.Success? ==> user.rawData == fetched.value.asDocument.value
      ensures fetched.Success? && err.Some? ==>
                user.name == "" && user.nickName == "" && user.email == "" && user.userID == "" && user.avatarURL == ""
      ensures err.None? ==>
                var d := fetched.value.asProfile.value;
                && user.name == d.name && user.nickName == d.code && user.email == d.email
                && user.avatarURL == d.avatar && user.userID == FormatInt(d.id)
                && ParseInt(user.userID) == Some(d.id)
    {
      match fetched
      case Failure(e) =>
        return EmptyUser, Some(e);
      case Success(body) =>
        user := EmptyUser.(provider := Name(), accessToken := s.accessToken, refreshToken := s.refreshToken,
                           expiresAt := s.expiresAt);
        var decoded := DecodeUserData(body, user);
        user, err := decoded.0, decoded.1;
    }
  }
}
