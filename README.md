# nhost-js GraphQL client, modelled in Dafny

This project models the GraphQL client of the nhost JavaScript SDK
(`packages/nhost-js/src/clients/graphql.ts`). The client holds a URL, an optional
admin secret and a mutable access token. Its `request` operation does four things:
- it serializes the query document;
- it derives authorization headers, with the admin secret taking precedence over the bearer token;
- it merges those headers with the caller's headers and a forced `Accept-Encoding: *`;
- it sends one POST and turns the outcome into a `{data, error}` result.

The result takes one of two error shapes, chosen by `useAxios`, which defaults to true (the legacy mode).
The factory `createGraphqlClient` either derives the URL from subdomain-style settings or takes
`graphqlUrl` as given. It fails when the resulting URL is empty.

The modules are:
- `JsValues` (`js_values.dfy`): JavaScript values, truthiness and `||`, written out because the
  client branches on `if (x)` and defaults with `x || d`.
- `Documents` (`documents.dfy`): the query document and the string sent for it.
- `Auth` (`auth.dfy`): the stored token, the derived authorization headers, and what a sequence
  of `setAccessToken` calls leaves behind.
- `Normalizer` (`normalizer.dfy`): the mapping from a transport outcome to the result, in both modes.
- `GraphqlClient` (`client.dfy`): the class `NhostGraphqlClient`, the header merge, `request` and
  the factory.

The HTTP transport is not modelled. Its answer to the POST is a parameter, `Outcome`: either the
decoded body or a thrown value. A thrown value is described by its `code`, `status` and `message`
properties and by whether it is an `Error` instance. The GraphQL printer and `urlFromSubdomain`
come from outside this file, so they are function-typed parameters.

Some of what the code does is easy to miss, and the model follows the code here:
- The shape check is on `body.data`, not on the body itself.
- A `null` or `undefined` body never reaches the shape check. The destructuring
  `const { data } = responseData` throws a TypeError inside the `try`, so the `catch` handles it.
  In modern mode the error code is then `unknown`, not `invalid-response`.
- `errors` is tested by truthiness, so `errors: []` is also an error outcome.
- The printer is imported statically, not loaded lazily.

## Model

| member | source | states |
|---|---|---|
| Documents.Serialize | packages/nhost-js/src/clients/graphql.ts:115 | a string document is sent verbatim; a tree is sent as the printer's output |
| Documents.SerializeAgreesAcrossForms | packages/nhost-js/src/clients/graphql.ts:115 | a tree that prints to `s` and the string `s` send the same query |
| Auth.StoredToken | packages/nhost-js/src/clients/graphql.ts:197-204 | a falsy argument (undefined or "") stores null; a non-empty one is stored verbatim; the stored token is never "" |
| Auth.AccessTokenHeaders | packages/nhost-js/src/clients/graphql.ts:206-218 | a non-empty admin secret gives exactly `{x-hasura-admin-secret: secret}` and no `Authorization`; otherwise a non-empty token gives exactly `{Authorization: "Bearer " + t}`; otherwise the headers are empty; at most one header |
| Auth.AdminSecretIgnoresToken | packages/nhost-js/src/clients/graphql.ts:207-211 | with an admin secret set, the headers are the same whatever token is stored |
| Auth.LastWriteWins | packages/nhost-js/src/clients/graphql.ts:197-204 | after any non-empty sequence of `setAccessToken` calls, the stored token is what the last call stores |
| Auth.TokenAfterWellFormed | packages/nhost-js/src/clients/graphql.ts:197-204 | no sequence of calls leaves an empty-string token |
| Auth.AdminSecretSurvivesTokenChanges | packages/nhost-js/src/clients/graphql.ts:197-211 | with an admin secret, any sequence of token changes still yields only the admin secret header |
| Auth.BearerFollowsLastCall | packages/nhost-js/src/clients/graphql.ts:197-217 | without an admin secret, the bearer header carries the last non-empty token set, and disappears after a clearing call |
| Normalizer.DestructureError | packages/nhost-js/src/clients/graphql.ts:121-122 | destructuring a null or undefined body throws an `Error` instance with no code or status and a string message |
| Normalizer.Caught | packages/nhost-js/src/clients/graphql.ts:149-170 | the catch branch: legacy mode returns the caught `Error` or a generic `Error`; modern mode returns `{error: code \|\| 'unknown', status: status \|\| 0, message}` with a truthy code; data is null |
| Normalizer.Normalize | packages/nhost-js/src/clients/graphql.ts:121-170 | exactly one of `data` and `error` is null; returned data is always a plain object |
| Normalizer.ServerErrorsWin | packages/nhost-js/src/clients/graphql.ts:124-129 | truthy `errors` gives `{data: null, error: errors}` in both modes, even when `data` is present |
| Normalizer.InvalidDataRejected | packages/nhost-js/src/clients/graphql.ts:131-146 | non-object data with no errors gives the "incorrect response data" `Error` in legacy mode, and `{error: 'invalid-response', status: 0, message}` in modern mode |
| Normalizer.DataReturned | packages/nhost-js/src/clients/graphql.ts:148 | an error-free body with object data returns that data and a null error |
| Normalizer.LegacyTransportFailure | packages/nhost-js/src/clients/graphql.ts:151-159 | in legacy mode a failed call returns the exception when it is an `Error`, otherwise `Error('Unable to get do GraphQL request')` |
| Normalizer.ModernTransportFailure | packages/nhost-js/src/clients/graphql.ts:161-169 | in modern mode a failed call returns `{error: code \|\| 'unknown', status: status \|\| 0, message}` |
| Normalizer.NullishBodyIsCaught | packages/nhost-js/src/clients/graphql.ts:121-169 | a null or undefined body is handled as a thrown TypeError: the `Error` itself in legacy mode, code `unknown` in modern mode |
| Normalizer.ModeChangesOnlyErrorShape | packages/nhost-js/src/clients/graphql.ts:124-170 | both modes give the same `data` for every outcome, and an error in one mode is an error in the other |
| Normalizer.ModernErrorsAreStructured | packages/nhost-js/src/clients/graphql.ts:131-169 | a modern-mode error is the server's errors or a `{error, status, message}` payload with a non-empty code, never an exception object |
| Normalizer.LegacyErrorsAreErrors | packages/nhost-js/src/clients/graphql.ts:131-159 | every legacy-mode error other than server errors is an `Error` instance |
| Normalizer.NormalizeFollowsKind | packages/nhost-js/src/clients/graphql.ts:121-170 | against the taxonomy of call outcomes: error is null iff the call succeeded; server errors appear iff the body carried them; the invalid-response error shape in each mode; modern transport failures are payloads |
| GraphqlClient.UseAxios | packages/nhost-js/src/clients/graphql.ts:100 | legacy mode unless `useAxios` is given as false |
| GraphqlClient.MergeHeaders | packages/nhost-js/src/clients/graphql.ts:103-107 | the merged headers are the union of auth and caller keys plus `Accept-Encoding`; caller values override auth values; `Accept-Encoding` is always `*` |
| GraphqlClient.NhostGraphqlClient.constructor | packages/nhost-js/src/clients/graphql.ts:49-58 | stores the URL and the admin secret; the token starts null |
| GraphqlClient.NhostGraphqlClient.GetUrl | packages/nhost-js/src/clients/graphql.ts:183-185 | returns the URL given at construction, which is a `const` field that nothing can change |
| GraphqlClient.NhostGraphqlClient.SetAccessToken | packages/nhost-js/src/clients/graphql.ts:197-204 | a falsy argument leaves the token null; any other is stored verbatim; the admin secret and URL are unchanged; the token stays well formed |
| GraphqlClient.NhostGraphqlClient.GenerateAccessTokenHeaders | packages/nhost-js/src/clients/graphql.ts:206-218 | the client's headers are `Auth.AccessTokenHeaders` of its current admin secret and token, so that member's precedence holds for the client's state |
| GraphqlClient.NhostGraphqlClient.Request | packages/nhost-js/src/clients/graphql.ts:97-171 | one POST to `url` with `operationName` undefined, the serialized query, the variables unchanged, the merged headers with `Accept-Encoding: *` and the caller's other options; the result is the normalized outcome with exactly one of data and error null |
| GraphqlClient.AdminSecretRequest | packages/nhost-js/src/clients/graphql.ts:103-107 | with an admin secret, a request carries it and no `Authorization` header, unless the caller sets those headers itself |
| GraphqlClient.BearerTracksStoredToken | packages/nhost-js/src/clients/graphql.ts:206-216 | for a well-formed client with no admin secret and no caller `Authorization`, the request carries `Authorization` exactly when a token is stored, with value `Bearer ` + token |
| GraphqlClient.DefaultConfigRequest | packages/nhost-js/src/clients/graphql.ts:100-107 | a request with no configuration argument is legacy mode, sends the derived auth headers plus `Accept-Encoding: *`, and passes no transport options |
| GraphqlClient.CallerHeaderOverrides | packages/nhost-js/src/clients/graphql.ts:103-107 | a caller header wins for that call, except `Accept-Encoding`, which stays `*` |
| GraphqlClient.ResolveUrl | packages/nhost-js/src/clients/graphql.ts:28-35 | with a `subdomain` or `backendUrl` key present, the URL is `urlFromSubdomain(params, 'graphql')`; otherwise it is `graphqlUrl`; there is no URL when the chosen value is empty or undefined; a resolved URL is non-empty |
| GraphqlClient.SubdomainShadowsGraphqlUrl | packages/nhost-js/src/clients/graphql.ts:28-31 | with a subdomain-style key present, `createGraphqlClient` does not read `graphqlUrl` itself: changing it changes the URL only if it changes what `urlFromSubdomain` returns for the whole configuration |
| GraphqlClient.CreateGraphqlClient | packages/nhost-js/src/clients/graphql.ts:27-38 | fails with "Please provide `subdomain` or `graphqlUrl`." exactly when no URL resolves; otherwise returns a fresh client with that URL, the configured admin secret and no token |

## Left out

- The axios instance and the `post` call are network I/O. Their outcome is the parameter `Outcome`,
  so timeouts, retries and the transport options are not interpreted.
- The GraphQL `print` function is a foreign library and appears as a parameter. It is treated as
  total, so a printer that throws is not modelled.
- `urlFromSubdomain` lives in a helpers file that is not part of this model, so it is a parameter.
- The `console.error` logging is a side effect with no logic.
- The async/Promise wrapping is not modelled. `Request` reads the client's state at call time, like
  the header computation that runs before the first `await`. Interleavings of in-flight calls are
  not modelled.
- The TypeScript overload signatures are type-level only. The mode is the boolean `UseAxios`.
- A thrown `null` or `undefined` is not modelled. The property reads in the modern-mode `catch`
  would throw again, and the promise would reject.
- Header names are exact strings. Case-insensitive merging done later by the HTTP library is not
  modelled.
- Numbers are reals plus `NaN`. Only their truthiness matters here. Functions, symbols and bigints
  are not among the modelled values.
- `createGraphqlClient` spreads its parameters after `url`. The model assumes the parameter type has
  no `url` key. That type's file is not part of this model.
- Normalizer.DestructureError: the TypeError's message is engine dependent. The model fixes V8's
  wording for native destructuring.
