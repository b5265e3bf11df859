/**
 * The DonationAlerts session (providers/donationalerts/session.go): the four
 * fields that survive the redirect to the provider and back, how `Authorize`
 * fills them from an exchanged token, and a flat text form for `Marshal`.
 */
module Sessions {
  import opened Wrappers
  import opened Decimal

  /** The errors this adapter returns or passes through. */
  datatype Error =
    | MissingAuthURL               // goth's "no auth URL" error from GetAuthURL
    | InvalidToken                 // "Invalid token received from provider"
    | ExchangeError(cause: string) // whatever the token endpoint exchange reported
    | TransportError(cause: string) // a failed profile request
    | DecodeError(cause: string)   // a profile or session text that does not decode

  /** Timestamps are abstract integers; 0 stands for Go's zero `time.Time`. */
  const ZeroTime: Int64 := 0

  /** The fields of `oauth2.Token` that the adapter reads. */
  datatype Token = Token(accessToken: string, refreshToken: string, expiry: Int64)

  /**
   * The one documented property of `oauth2.Token.Valid` that the adapter relies on:
   * a token without an access token is never valid. The rest of `Valid` (the expiry
   * check against the clock) stays abstract.
   */
  ghost predicate RejectsEmptyAccessToken(valid: Token -> bool)
  {
    forall t: Token :: valid(t) ==> t.accessToken != ""
  }

  datatype SessionState = SessionState(authURL: string, accessToken: string, refreshToken: string, expiresAt: Int64)

  const EmptySession := SessionState("", "", "", ZeroTime)

  /** What `Authorize` returns and what the session holds afterwards. */
  datatype AuthOutcome = AuthOutcome(session: SessionState, accessToken: string, err: Option<Error>)

  /**
   * The transition `Authorize` performs on a session in state `st`, given what the
   * code exchange produced and the token validity check.
   */
  function AuthorizeStep(st: SessionState, exchanged: Result<Token, Error>, valid: Token -> bool): (r: AuthOutcome)
    requires RejectsEmptyAccessToken(valid)
    ensures r.err.None? <==> exchanged.Success? && valid(exchanged.value)
    ensures exchanged.Failure? ==> r.err == Some(exchanged.error)
    ensures exchanged.Success? && !valid(exchanged.value) ==> r.err == Some(InvalidToken)
    ensures r.err.Some? ==> r.session == st && r.accessToken == ""
    ensures r.err.None? ==>
              && r.session.accessToken == exchanged.value.accessToken
              && r.session.refreshToken == exchanged.value.refreshToken
              && r.session.expiresAt == exchanged.value.expiry
              && r.accessToken == r.session.accessToken
              && r.accessToken != ""
    ensures r.session.authURL == st.authURL
  {
    match exchanged
    case Failure(e) => AuthOutcome(st, "", Some(e))
    case Success(t) =>
      if !valid(t) then AuthOutcome(st, "", Some(InvalidToken))
      else AuthOutcome(st.(accessToken := t.accessToken, refreshToken := t.refreshToken, expiresAt := t.expiry),
                       t.accessToken, None)
  }

  /**
   * A failed `Authorize` leaves nothing behind: trying again from the resulting
   * session is the same as trying from the original one.
   */
  lemma FailedAuthorizeIsRetryable(st: SessionState, first: Result<Token, Error>, second: Result<Token, Error>,
                                   valid: Token -> bool)
    requires RejectsEmptyAccessToken(valid)
    requires AuthorizeStep(st, first, valid).err.Some?
    ensures AuthorizeStep(AuthorizeStep(st, first, valid).session, second, valid) == AuthorizeStep(st, second, valid)
  {
  }

  // ---- Flat text form of a session, standing in for encoding/json ----

  /** Backslash-escapes `"` and `\`. */
  function Escape(s: string): string
    decreases |s|
  {
    if s == [] then []
    else (if s[0] == '"' || s[0] == '\\' then ['\\', s[0]] else [s[0]]) + Escape(s[1..])
  }

  /** Reads an escaped string up to its closing quote; gives the string and what follows the quote. */
  function ParseString(s: string): Option<(string, string)>
    decreases |s|
  {
    if s == [] then None
    else if s[0] == '"' then Some(([], s[1..]))
    else if s[0] == '\\' then
      if |s| < 2 then None
      else
        var p :- ParseString(s[2..]);
        Some(([s[1]] + p.0, p.1))
    else
      var p :- ParseString(s[1..]);
      Some(([s[0]] + p.0, p.1))
  }

  lemma {:induction false} ParseEscaped(t: string, rest: string)
    ensures ParseString(Escape(t) + ['"'] + rest) == Some((t, rest))
    decreases |t|
  {
    if t == [] {
      assert Escape(t) + ['"'] + rest == ['"'] + rest;
    } else {
      ParseEscaped(t[1..], rest);
      var head := if t[0] == '"' || t[0] == '\\' then ['\\', t[0]] else [t[0]];
      var tail := Escape(t[1..]) + ['"'] + rest;
      var s := Escape(t) + ['"'] + rest;
      assert s == head + tail;
      if |head| == 2 {
        assert s[2..] == tail;
      } else {
        assert s[1..] == tail;
      }
      assert [t[0]] + t[1..] == t;
    }
  }

  /** Strips the literal `lit` from the front of `s`. */
  function Expect(lit: string, s: string): (r: Option<string>)
    ensures r.Some? <==> lit <= s
    ensures r.Some? ==> s == lit + r.value
  {
    if lit <= s then Some(s[|lit|..]) else None
  }

  lemma ExpectLiteral(lit: string, rest: string)
    ensures Expect(lit, lit + rest) == Some(rest)
  {
    assert (lit + rest)[|lit|..] == rest;
  }

  const AuthURLKey := "{\"AuthURL\":\""
  const AccessTokenKey := ",\"AccessToken\":\""
  const RefreshTokenKey := ",\"RefreshToken\":\""
  const ExpiresAtKey := ",\"ExpiresAt\":"

  function Quoted(t: string, rest: string): string { Escape(t) + ['"'] + rest }

  /** `{"AuthURL":"…","AccessToken":"…","RefreshToken":"…","ExpiresAt":n}` */
  function Encode(st: SessionState): string
  {
    AuthURLKey + Quoted(st.authURL,
      AccessTokenKey + Quoted(st.accessToken,
        RefreshTokenKey + Quoted(st.refreshToken,
          ExpiresAtKey + (FormatInt(st.expiresAt) + "}"))))
  }

  function Decode(text: string): Option<SessionState>
  {
    var s1 :- Expect(AuthURLKey, text);
    var a :- ParseString(s1);
    var s2 :- Expect(AccessTokenKey, a.1);
    var b :- ParseString(s2);
    var s3 :- Expect(RefreshTokenKey, b.1);
    var c :- ParseString(s3);
    var s4 :- Expect(ExpiresAtKey, c.1);
    if s4 == [] || s4[|s4| - 1] != '}' then None
    else
      var t :- ParseInt(s4[..|s4| - 1]);
      Some(SessionState(a.0, b.0, c.0, t))
  }

  /** Every session survives `Encode` then `Decode` in all four fields. */
  lemma {:induction false} DecodeEncode(st: SessionState)
    ensures Decode(Encode(st)) == Some(st)
  {
    var tail := FormatInt(st.expiresAt) + "}";
    var r3 := ExpiresAtKey + tail;
    var r2 := RefreshTokenKey + Quoted(st.refreshToken, r3);
    var r1 := AccessTokenKey + Quoted(st.accessToken, r2);
    ExpectLiteral(AuthURLKey, Quoted(st.authURL, r1));
    ParseEscaped(st.authURL, r1);
    ExpectLiteral(AccessTokenKey, Quoted(st.accessToken, r2));
    ParseEscaped(st.accessToken, r2);
    ExpectLiteral(RefreshTokenKey, Quoted(st.refreshToken, r3));
    ParseEscaped(st.refreshToken, r3);
    ExpectLiteral(ExpiresAtKey, tail);
    assert tail[..|tail| - 1] == FormatInt(st.expiresAt);
    FormatIntRoundTrip(st.expiresAt);
  }

  /** `Session` of session.go; the fields change only through `Authorize`. */
  class Session {
    var authURL: string
    var accessToken: string
    var refreshToken: string
    var expiresAt: Int64

    constructor FromState(st: SessionState)
      ensures State() == st
    {
      authURL, accessToken, refreshToken, expiresAt := st.authURL, st.accessToken, st.refreshToken, st.expiresAt;
    }

    function State(): SessionState
      reads this
    {
      SessionState(authURL, accessToken, refreshToken, expiresAt)
    }

    /** The URL `BeginAuth` stored; an error exactly when none was stored. */
    method GetAuthURL() returns (url: string, err: Option<Error>)
      ensures err.Some? <==> authURL == ""
      ensures err.Some? ==> err.value == MissingAuthURL && url == ""
      ensures err.None? ==> url == authURL
    {
      if authURL == "" {
        return "", Some(MissingAuthURL);
      }
      return authURL, None;
    }

    /** The session as text that `Decode` reads back unchanged. */
    method Marshal() returns (text: string)
      ensures Decode(text) == Some(State())
    {
      text := Encode(State());
      DecodeEncode(State());
    }

    /**
     * Completes authorization with the result of the code exchange. The three
     * token fields change only when the exchange succeeded and the token is valid.
     */
    method Authorize(exchanged: Result<Token, Error>, valid: Token -> bool) returns (token: string, err: Option<Error>)
      requires RejectsEmptyAccessToken(valid)
      modifies this
      ensures AuthorizeStep(old(State()), exchanged, valid) == AuthOutcome(State(), token, err)
      ensures err.Some? ==> unchanged(this)
      ensures authURL == old(authURL)
    {
      if exchanged.Failure? {
        return "", Some(exchanged.error);
      }
      var t := exchanged.value;
      if !valid(t) {
        return "", Some(InvalidToken);
      }
      accessToken := t.accessToken;
      refreshToken := t.refreshToken;
      expiresAt := t.expiry;
      return t.accessToken, None;
    }
  }
}
