/** The Auth Header Provider: the stored access token and the authorization headers
    derived from it and from the admin secret, with the admin secret taking precedence. */
module Auth {
  import opened JsValues

  const AdminSecretHeader := "x-hasura-admin-secret"
  const AuthorizationHeader := "Authorization"
  const BearerPrefix := "Bearer "

  /** A stored token is either absent (`null`) or a non-empty string. */
  predicate WellFormedToken(t: Option<string>) {
    t.None? || t.value != ""
  }

  /** The value `setAccessToken(token)` leaves in the client: a falsy argument
      (`undefined` or the empty string) clears the token, any other is kept verbatim. */
  function StoredToken(token: Option<string>): (r: Option<string>)
    ensures WellFormedToken(r)
    ensures r.None? <==> !NonEmpty(token)
    ensures NonEmpty(token) ==> r == token
  {
    if NonEmpty(token) then token else None
  }

  /** `generateAccessTokenHeaders`: the admin secret header when a non-empty admin secret
      is configured, otherwise a bearer `Authorization` header when a non-empty token is
      stored, otherwise nothing. */
  function AccessTokenHeaders(adminSecret: Option<string>, accessToken: Option<string>): (h: map<string, string>)
    ensures NonEmpty(adminSecret) ==> h == map[AdminSecretHeader := adminSecret.value]
    ensures NonEmpty(adminSecret) ==> AuthorizationHeader !in h
    ensures !NonEmpty(adminSecret) && NonEmpty(accessToken) ==>
              h == map[AuthorizationHeader := BearerPrefix + accessToken.value]
    ensures !NonEmpty(adminSecret) ==> AdminSecretHeader !in h
    ensures !NonEmpty(adminSecret) && !NonEmpty(accessToken) ==> h == map[]
    ensures |h| <= 1
  {
    if NonEmpty(adminSecret) then map[AdminSecretHeader := adminSecret.value]
    else if NonEmpty(accessToken) then map[AuthorizationHeader := BearerPrefix + accessToken.value]
    else map[]
  }

  /** The admin secret wins over any token: the headers do not depend on the token. */
  lemma AdminSecretIgnoresToken(secret: string, t1: Option<string>, t2: Option<string>)
    requires secret != ""
    ensures AccessTokenHeaders(Some(secret), t1) == AccessTokenHeaders(Some(secret), t2)
  {
  }

  /** The token after a sequence of `setAccessToken` calls, one argument per call,
      starting from the token `start`. */
  function TokenAfter(start: Option<string>, calls: seq<Option<string>>): (t: Option<string>)
    decreases |calls|
  {
    if calls == [] then start else TokenAfter(StoredToken(calls[0]), calls[1..])
  }

  /** Last write wins: after at least one call, the stored token is what the last call
      stores, whatever came before. */
  lemma {:induction false} LastWriteWins(start: Option<string>, calls: seq<Option<string>>)
    requires calls != []
    ensures TokenAfter(start, calls) == StoredToken(calls[|calls| - 1])
    decreases |calls|
  {
    if |calls| > 1 {
      LastWriteWins(StoredToken(calls[0]), calls[1..]);
      assert calls[1..][|calls[1..]| - 1] == calls[|calls| - 1];
    }
  }

  /** No sequence of calls can leave an empty-string token behind. */
  lemma {:induction false} TokenAfterWellFormed(start: Option<string>, calls: seq<Option<string>>)
    requires WellFormedToken(start)
    ensures WellFormedToken(TokenAfter(start, calls))
    decreases |calls|
  {
    if calls != [] {
      TokenAfterWellFormed(StoredToken(calls[0]), calls[1..]);
    }
  }

  /** With a non-empty admin secret, no sequence of `setAccessToken` calls makes the
      client send a bearer header: it keeps sending the admin secret. */
  lemma AdminSecretSurvivesTokenChanges(secret: string, start: Option<string>, calls: seq<Option<string>>)
    requires secret != ""
    ensures AccessTokenHeaders(Some(secret), TokenAfter(start, calls)) == map[AdminSecretHeader := secret]
  {
    AdminSecretIgnoresToken(secret, TokenAfter(start, calls), None);
  }

  /** Without an admin secret, after `setAccessToken(t)` with a non-empty `t` the client
      sends `Authorization: Bearer t`; after `setAccessToken(undefined)` or
      `setAccessToken("")` it sends no authorization header at all. */
  lemma BearerFollowsLastCall(start: Option<string>, calls: seq<Option<string>>)
    requires calls != []
    ensures NonEmpty(calls[|calls| - 1]) ==>
              AccessTokenHeaders(None, TokenAfter(start, calls))
              == map[AuthorizationHeader := BearerPrefix + calls[|calls| - 1].value]
    ensures !NonEmpty(calls[|calls| - 1]) ==> AccessTokenHeaders(None, TokenAfter(start, calls)) == map[]
  {
    LastWriteWins(start, calls);
  }
}
