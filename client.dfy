/** The GraphQL client: its state (URL, admin secret, access token), the `request`
    pipeline from document to result, and the factory that resolves its URL. */
module GraphqlClient {
  import opened JsValues
  import opened Documents
  import opened Auth
  import opened Normalizer

  const AcceptEncodingHeader := "Accept-Encoding"
  const MissingUrlMessage := "Please provide `subdomain` or `graphqlUrl`."

  /** The third argument of `request`: `useAxios` (absent means `true`), the caller's
      headers, and the remaining transport options, passed on to the HTTP call. */
  datatype RequestConfig = RequestConfig(useAxios: Option<bool>, headers: Option<map<string, string>>,
                                         options: map<string, JsValue>)

  /** The argument omitted: `= {}`. */
  const DefaultConfig := RequestConfig(None, None, map[])

  /** `{ useAxios = true }`: the default applies only when the flag is not given. */
  function UseAxios(config: RequestConfig): (legacy: bool)
    ensures config.useAxios.None? ==> legacy
    ensures config.useAxios.Some? ==> legacy == config.useAxios.value
  {
    match config.useAxios
    case None => true
    case Some(b) => b
  }

  /** `...config?.headers`: no headers given spreads nothing. */
  function CallerHeaders(config: RequestConfig): (h: map<string, string>) {
    match config.headers
    case None => map[]
    case Some(h) => h
  }

  /** `{...auth, ...caller, 'Accept-Encoding': '*'}`: caller headers override the derived
      auth headers, and `Accept-Encoding` is `*` whatever either of them says. */
  function MergeHeaders(auth: map<string, string>, caller: map<string, string>): (h: map<string, string>)
    ensures AcceptEncodingHeader in h && h[AcceptEncodingHeader] == "*"
    ensures forall k :: k in h <==> k in auth || k in caller || k == AcceptEncodingHeader
    ensures forall k :: k in caller && k != AcceptEncodingHeader ==> h[k] == caller[k]
    ensures forall k :: k in auth && k !in caller && k != AcceptEncodingHeader ==> h[k] == auth[k]
  {
    auth + caller + map[AcceptEncodingHeader := "*"]
  }

  /** The JSON body of the POST. */
  datatype Payload = Payload(operationName: JsValue, query: string, variables: JsValue)

  /** The HTTP call `request` makes: a POST to the client's URL. */
  datatype Post = Post(url: string, body: Payload, headers: map<string, string>, options: map<string, JsValue>)

  /** One `request`: what was sent and what the caller gets back. */
  datatype Exchange = Exchange(sent: Post, result: GraphqlResult)

  /** The constructor's argument. */
  datatype GraphqlParams = GraphqlParams(url: string, adminSecret: Option<string>)

  class NhostGraphqlClient {
    /** Fixed at construction (`readonly url`). */
    const url: string
    var accessToken: Option<string>
    var adminSecret: Option<string>

    /** The stored token is never the empty string. */
    ghost predicate Valid()
      reads this
    {
      WellFormedToken(accessToken)
    }

    constructor (params: GraphqlParams)
      ensures url == params.url && adminSecret == params.adminSecret
      ensures accessToken == None
      ensures Valid()
    {
      url := params.url;
      accessToken := None;
      adminSecret := params.adminSecret;
    }

    function GetUrl(): (u: string)
      ensures u == url
    {
      url
    }

    /** Stores a non-empty token verbatim and clears it otherwise; nothing else changes. */
    method SetAccessToken(token: Option<string>)
      modifies this
      ensures accessToken == StoredToken(token)
      ensures NonEmpty(token) ==> accessToken == token
      ensures !NonEmpty(token) ==> accessToken == None
      ensures adminSecret == old(adminSecret)
      ensures Valid()
    {
      if !NonEmpty(token) {
        accessToken := None;
        return;
      }
      accessToken := token;
    }

    /** The authorization headers for the current state: the admin secret wins, then
        the stored token, then nothing. */
    function GenerateAccessTokenHeaders(): (h: map<string, string>)
      reads this
      ensures h == AccessTokenHeaders(adminSecret, accessToken)
    {
      AccessTokenHeaders(adminSecret, accessToken)
    }

    /** `request(document, variables, config)`, with the transport's answer to the POST
        as the parameter `outcome`: headers are derived from the state at call time, one
        POST goes to `url`, and its outcome is normalized in the mode `config` selects. */
    function Request<A>(document: Document<A>, printer: A -> string, variables: JsValue,
                        config: RequestConfig, outcome: Outcome): (x: Exchange)
      reads this
      ensures x.sent.url == url
      ensures x.sent.body.operationName == Undefined
      ensures x.sent.body.query == Serialize(document, printer)
      ensures x.sent.body.variables == variables
      ensures x.sent.headers == MergeHeaders(GenerateAccessTokenHeaders(), CallerHeaders(config))
      ensures x.sent.headers[AcceptEncodingHeader] == "*"
      ensures x.sent.options == config.options
      ensures x.result == Normalize(UseAxios(config), outcome)
      ensures (x.result.data == Null) <==> !ErrorIsNull(x.result.error)
    {
      var headers := MergeHeaders(GenerateAccessTokenHeaders(), CallerHeaders(config));
      var operationName := "";
      var body := Payload(Or(Str(operationName), Undefined), Serialize(document, printer), variables);
      Exchange(Post(url, body, headers, config.options), Normalize(UseAxios(config), outcome))
    }
  }

  /** With an admin secret set, a request carries the admin secret and no bearer token,
      unless the caller itself supplies those headers for this one call. */
  lemma AdminSecretRequest<A>(c: NhostGraphqlClient, document: Document<A>, printer: A -> string,
                              variables: JsValue, config: RequestConfig, outcome: Outcome)
    requires NonEmpty(c.adminSecret)
    requires AuthorizationHeader !in CallerHeaders(config) && AdminSecretHeader !in CallerHeaders(config)
    ensures AuthorizationHeader !in c.Request(document, printer, variables, config, outcome).sent.headers
    ensures c.Request(document, printer, variables, config, outcome).sent.headers[AdminSecretHeader] == c.adminSecret.value
  {
  }

  /** Without an admin secret and without a caller `Authorization` header, a request of
      a well-formed client carries a bearer header exactly when a token is stored, and
      that header is the stored token. */
  lemma BearerTracksStoredToken<A>(c: NhostGraphqlClient, document: Document<A>, printer: A -> string,
                                   variables: JsValue, config: RequestConfig, outcome: Outcome)
    requires c.Valid() && !NonEmpty(c.adminSecret)
    requires AuthorizationHeader !in CallerHeaders(config)
    ensures var headers := c.Request(document, printer, variables, config, outcome).sent.headers;
            (AuthorizationHeader in headers <==> c.accessToken.Some?)
            && (c.accessToken.Some? ==> headers[AuthorizationHeader] == BearerPrefix + c.accessToken.value)
  {
  }

  /** A request without a configuration argument is a legacy-mode request that sends only
      the derived auth headers and `Accept-Encoding: *`, and no transport options. */
  lemma DefaultConfigRequest<A>(c: NhostGraphqlClient, document: Document<A>, printer: A -> string,
                                variables: JsValue, outcome: Outcome)
    ensures var x := c.Request(document, printer, variables, DefaultConfig, outcome);
            x.result == Normalize(true, outcome)
            && x.sent.headers == c.GenerateAccessTokenHeaders()[AcceptEncodingHeader := "*"]
            && x.sent.options == map[]
  {
    var x := c.Request(document, printer, variables, DefaultConfig, outcome);
    assert x.sent.headers == c.GenerateAccessTokenHeaders()[AcceptEncodingHeader := "*"];
  }

  /** A caller header overrides the derived one for that call only; `Accept-Encoding`
      cannot be overridden. */
  lemma CallerHeaderOverrides<A>(c: NhostGraphqlClient, document: Document<A>, printer: A -> string,
                                 variables: JsValue, config: RequestConfig, outcome: Outcome, name: string)
    requires name in CallerHeaders(config)
    ensures name != AcceptEncodingHeader ==>
              c.Request(document, printer, variables, config, outcome).sent.headers[name] == CallerHeaders(config)[name]
    ensures name == AcceptEncodingHeader ==>
              c.Request(document, printer, variables, config, outcome).sent.headers[name] == "*"
  {
  }

  /** The factory's argument, reduced to what `createGraphqlClient` reads itself; the
      rest of the configuration only matters to `urlFromSubdomain`. */
  datatype ClientParams = ClientParams(subdomain: Prop<string>, backendUrl: Prop<string>,
                                       graphqlUrl: Prop<string>, adminSecret: Prop<string>)

  /** The URL of a client built by `createGraphqlClient`, or `None` when it would throw.
      `urlFromSubdomain` is an outside helper, hence a parameter. The test is on the
      presence of the `subdomain` or `backendUrl` key, not on its value. */
  function ResolveUrl(params: ClientParams, urlFromSubdomain: (ClientParams, string) -> Option<string>): (r: Option<string>)
    ensures r.Some? ==> r.value != ""
    ensures (params.subdomain.Present? || params.backendUrl.Present?) ==>
              r == (if NonEmpty(urlFromSubdomain(params, "graphql")) then urlFromSubdomain(params, "graphql") else None)
    ensures !(params.subdomain.Present? || params.backendUrl.Present?) ==>
              r == (if NonEmpty(PropValue(params.graphqlUrl)) then PropValue(params.graphqlUrl) else None)
  {
    var graphqlUrl :=
      if params.subdomain.Present? || params.backendUrl.Present? then urlFromSubdomain(params, "graphql")
      else PropValue(params.graphqlUrl);
    if NonEmpty(graphqlUrl) then graphqlUrl else None
  }

  /** With a subdomain-style key present, even with the value `undefined`,
      `createGraphqlClient` does not read `graphqlUrl` itself: the URL depends on it only
      through `urlFromSubdomain`, which receives the whole configuration. */
  lemma SubdomainShadowsGraphqlUrl(params: ClientParams, other: Prop<string>,
                                   urlFromSubdomain: (ClientParams, string) -> Option<string>)
    requires params.subdomain.Present? || params.backendUrl.Present?
    requires urlFromSubdomain(params, "graphql") == urlFromSubdomain(params.(graphqlUrl := other), "graphql")
    ensures ResolveUrl(params, urlFromSubdomain) == ResolveUrl(params.(graphqlUrl := other), urlFromSubdomain)
  {
  }

  datatype Created = Client(client: NhostGraphqlClient) | ConfigurationError(message: string)

  /** `createGraphqlClient`: fails at once when no non-empty URL results, and otherwise
      builds a fresh client with that URL, the configured admin secret and no token. */
  method CreateGraphqlClient(params: ClientParams, urlFromSubdomain: (ClientParams, string) -> Option<string>)
    returns (r: Created)
    ensures r.ConfigurationError? <==> ResolveUrl(params, urlFromSubdomain).None?
    ensures r.ConfigurationError? ==> r.message == MissingUrlMessage
    ensures r.Client? ==> fresh(r.client) && r.client.Valid()
    ensures r.Client? ==> r.client.url == ResolveUrl(params, urlFromSubdomain).value
                          && r.client.url != ""
                          && r.client.adminSecret == PropValue(params.adminSecret)
                          && r.client.accessToken == None
  {
    var graphqlUrl := ResolveUrl(params, urlFromSubdomain);
    if graphqlUrl.None? {
      return ConfigurationError(MissingUrlMessage);
    }
    var c := new NhostGraphqlClient(GraphqlParams(graphqlUrl.value, PropValue(params.adminSecret)));
    return Client(c);
  }
}
