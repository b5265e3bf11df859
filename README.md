# DonationAlerts OAuth2 provider for goth, in Dafny

This project models the DonationAlerts provider of the goth authentication
library (package `providers/donationalerts`). Four modules make it up:

- `Wrappers` (wrappers.dfy): `Option` and `Result`.
- `Decimal` (decimal.dfy): base-10 rendering of Go's `int64`, the way
  `strconv.FormatInt(id, 10)` produces it. The partner is a parser in the manner
  of `strconv.ParseInt(s, 10, 64)`, and every rendering is proved to parse back.
- `Sessions` (session.dfy): the `Session` record and its methods.
  - `GetAuthURL`.
  - `Authorize`, a state transition. The three token fields change only when
    the code exchange succeeded and the token passed its validity check.
  - `Marshal`, with a flat text encoding that decodes back to the same four fields.
- `DonationAlerts` (donationalerts.dfy): the `Provider` class.
  - `New` and `newConfig`, including the default scope `oauth-user-show`.
  - `Name`/`SetName`, `BeginAuth`, `UnmarshalSession` and `RefreshTokenAvailable`.
  - `FetchUser` and `decodeUserData`, which map the profile response onto goth's user record.

These are inputs to the model rather than computations in it:

- the result of the token-endpoint code exchange (`Result<Token, Error>`);
- `oauth2.Token.Valid` (a function `valid`). The only thing assumed of it is that
  it rejects a token whose access token is empty;
- the URL that the OAuth2 library builds in `AuthCodeURL` (a function of the
  configuration and the state);
- the outcome of the profile HTTP request. A successful request is represented by
  what the two JSON decoding passes make of the body (`ProfileBody`).

Timestamps are integers. `0` stands for Go's zero `time.Time`.

Three behaviours of the code a reader might not expect; the model follows the code:

- A missing `id` in the profile decodes to 0, which gives the user id `"0"`. It is not an error.
- When decoding fails, `FetchUser` still returns the partly filled user with the
  error. The provider name, the tokens and, if the first pass succeeded, `RawData`
  are set. The profile fields stay empty.
- `Authorize` relies on the library's `Valid` alone. The model adds no expiry rule of its own.

## Model

| member | source | states |
|---|---|---|
| `DonationAlerts.Provider.New` | providers/donationalerts/donationalerts.go:32-43 | client key, secret and callback URL stored verbatim; name is "donationalerts"; profile endpoint is the DonationAlerts profile URL; config built by the scope-defaulting rule |
| `DonationAlerts.NewConfig` | providers/donationalerts/donationalerts.go:147-168 | config carries the credentials, redirect URL and both endpoints; scopes equal the caller's sequence in order, duplicates kept, when non-empty, and exactly `["oauth-user-show"]` otherwise |
| `DonationAlerts.Provider.Name` | providers/donationalerts/donationalerts.go:57-59 | returns the provider's current name |
| `DonationAlerts.Provider.SetName` | providers/donationalerts/donationalerts.go:57-64 | afterwards `Name()` returns the new name and no other provider field has changed |
| `DonationAlerts.Provider.BeginAuth` | providers/donationalerts/donationalerts.go:67-73 | never fails; the new session holds the library-built URL, with empty tokens and the zero expiry |
| `DonationAlerts.Provider.UnmarshalSession` | providers/donationalerts/donationalerts.go:76-80 | succeeds exactly when the text decodes, and then the new session holds the decoded fields |
| `DonationAlerts.Provider.RefreshTokenAvailable` | providers/donationalerts/donationalerts.go:138-140 | always true |
| `DonationAlerts.Provider.FetchUser` | providers/donationalerts/donationalerts.go:83-102 | request failure: empty user and that error. Otherwise: provider is `Name()` and the tokens and expiry are the session's. Error exactly when a decoding pass fails; that pass's own error is returned, `RawData` stays empty when the first pass fails, and the profile fields stay empty. On success the fields are mapped and the user id parses back to the profile id |
| `DonationAlerts.DecodeUserData` | providers/donationalerts/donationalerts.go:170-199 | first-pass error: user unchanged. Second-pass error: only `RawData` set. Success: name, nickname (from code), email and avatar copied, user id is the decimal rendering of the id and parses back to it |
| `DonationAlerts.TestProfileUserID` | providers/donationalerts/donationalerts_test.go:85-92 | the test profile with id 3 gives user id "3", its name, and `RawData` equal to the whole document |
| `Decimal.FormatInt` | providers/donationalerts/donationalerts.go:195 | non-empty; leading `-` exactly for negative values; the rest is decimal digits with no leading zero, and zero is "0" |
| `Decimal.FormatIntRoundTrip` | providers/donationalerts/donationalerts.go:195 | parsing the rendering of any int64 gives that int64 back |
| `Decimal.FormatIntInjective` | providers/donationalerts/donationalerts.go:195 | two ids with the same rendering are equal |
| `Sessions.Session.GetAuthURL` | providers/donationalerts/session.go:20-25 | error (missing auth URL) exactly when `AuthURL` is empty; otherwise returns `AuthURL` unchanged; reads only |
| `Sessions.AuthorizeStep` | providers/donationalerts/session.go:35-50 | succeeds exactly when the exchange succeeded and the token is valid. Exchange error: returned as is. Invalid token: the invalid-token error. Any error: session unchanged and "" returned. Success: the three token fields come from the token, a non-empty access token is returned, `AuthURL` is kept |
| `Sessions.Session.Authorize` | providers/donationalerts/session.go:35-50 | the new state and results are those of `AuthorizeStep` on the old state; on error the object is unchanged |
| `Sessions.FailedAuthorizeIsRetryable` | providers/donationalerts/session.go:37-44 | after a failed authorize, another attempt behaves as on the original session |
| `Sessions.DecodeEncode` | providers/donationalerts/session.go:28-31 | decoding the encoding of a session gives back all four fields |
| `Sessions.Session.Marshal` | providers/donationalerts/session.go:28-31 | the produced text decodes to the session's current four fields |

## Left out

- `fetchUserData` and `Client`: building the HTTP request, the Bearer header and reading the body are network I/O. Their outcome is the `fetched` input of `FetchUser`.
- `RefreshToken`: it hands the refresh token to the OAuth2 library's token source. That is a remote round trip with no logic of its own beyond passing on the result.
- `AuthCodeURL`: query encoding and scope joining belong to the OAuth2 library. The URL is an opaque function of the configuration and the state, so the test's containment checks on the URL are not stated.
- `oauth2.Token.Valid`: its expiry check against the clock is library code. The model keeps it abstract apart from rejecting an empty access token.
- `Debug` is a no-op. `HTTPClient` and the fallback client are transport choices.
- JSON: there is no JSON parser. The profile body is represented by what the two decoding passes yield. JSON numbers in `RawData` are kept as their literal text instead of Go's `float64`.
- `Sessions.Session.Marshal`: its text is a flat stand-in for `encoding/json`. It escapes only `"` and `\`, writes `ExpiresAt` as a decimal integer instead of an RFC 3339 time, and decodes only text of exactly that shape. Its round trip holds for every session, where Go's does not in two cases. First, `json.Marshal` fails for an `ExpiresAt` outside the years 0 to 9999; `Marshal` discards that error and returns `""`, which `UnmarshalSession` rejects. Second, `json.Marshal` replaces invalid UTF-8 in the string fields with U+FFFD.
- `DonationAlerts.Provider.UnmarshalSession`: on a decoding error it returns an empty session. `encoding/json` can fill some fields before reporting a type error.
- `DonationAlerts.DecodeUserData`: modelled on values. It takes the user and returns the updated copy, where the code writes through a pointer to `FetchUser`'s local struct.
- goth.User fields this provider never sets (first and last name, description, location, access-token secret, ID token) are not part of this model.
- Go's type assertion `session.(*Session)` in `FetchUser` and `provider.(*Provider)` in `Authorize` cannot fail in the model, because the parameters are typed.
