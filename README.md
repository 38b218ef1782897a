# Token-gated chat proxy: a Dafny model of `apiGateway`

`apiGateway` (index.js) is an HTTP handler that forwards a caller's prompt to a
chat-completion service on behalf of the owner of an access token. The caller POSTs a
`token` (the id of a document in the `access_tokens` collection) and a `prompt`. The
handler checks the request and the token record, fetches the owner's key from the
`api_keys` collection and calls the upstream service with that key. When a reply
comes back, it adds one to the token's `requestsUsed` and returns the reply.

The model has two modules:

- `Gateway` (gateway.dfy) holds the data model and the handler.
  - `Validate` is the guard chain of lines 12-47 as a pure function. `TokenCheck` is the
    record validator of lines 32-40.
  - `Step` is one whole request as a function of the old token map.
  - `CredentialStore` is the store: a class with the token map as a field the handler
    updates and the key map as a constant. Its `Handle` method handles one request and
    updates the token map in place. Its contract ties it to `Step`.
  - A set of lemmas states what each kind of request returns and what it does to the store.
- `Usage` (usage.dfy) runs `Step` over a series of requests handled one after another.
  Its lemmas prove the usage accounting by induction:
  - a counter moves only when one of its token's requests is served, by one each time;
  - no other field ever changes;
  - without overlapping requests the limit is never passed;
  - revoked and expired tokens serve nothing.

Abstractions:

- The clock (`new Date()`, line 30) is the integer parameter `now`. `expiresAt` is an
  integer timestamp.
- The upstream call and the extraction of its reply (lines 51-65) are one oracle
  parameter: `UpstreamFailure`, or `Reply(content)`. The handler also returns the request
  it would send (`sent`). That request is built by `OpenAIChat`: the model, one user
  message holding the prompt, and a bearer header holding the owner's `keyValue`.
- Request body fields are JavaScript values (`JsValue`). The presence test
  `!token || !prompt` is modelled by exact JavaScript truthiness: `undefined`, `null`,
  `false`, `0`, `NaN` and `""` are missing.
- A truthy token that is not a string, or a record whose `apiKeyId` is the empty string,
  is not a valid document path. The store client throws at line 22 or 43, inside the
  `try`, so the catch block answers with the generic 500. The model reproduces these two
  cases; ids containing `/` are listed under "Left out".

The code calls one upstream service (OpenAI) and never reads a `provider` field from
the body or the record. Revoked, expired and limit-reached each get their own message.
So the model has no provider dispatch and no provider-mismatch or unsupported-provider
refusal.

## Model

| member | source | states |
|---|---|---|
| Gateway.Status | index.js:12-80 | every refusal is a 4xx or a 500; 403 exactly for the four token refusals (unknown, revoked, expired, exhausted); 500 exactly for the missing owner key and for the thrown errors the model covers (invalid document path, failed upstream call) |
| Gateway.RejectInjective | index.js:12-47 | two different refusal reasons never produce the same response, so the caller can tell each reason apart |
| Gateway.OpenAIChat | index.js:51-63 | the outbound request carries the prompt as the one user message and a `Bearer ` header whose credential is exactly the owner's `keyValue` |
| Gateway.TokenCheck | index.js:32-40 | a record is accepted exactly when it is not revoked, `now <= expiresAt` and `requestsUsed < requestsLimit`; revoked is reported exactly for a revoked record; `Expired` is reported exactly for a record that is not revoked and has `now > expiresAt`, so the validator's contract decides every case; at `now == expiresAt` the token is not expired |
| Gateway.Validate | index.js:12-47 | non-POST gives 405; a falsy token or prompt on a POST gives 400 (both directions); the request is forwarded only for a string token present in the map whose record passes all three checks and whose owner key exists, with that key in the outbound request |
| Gateway.Increment | index.js:68-70 | the given token's `requestsUsed` goes up by exactly one; every other field and every other record stay as they were, and no token is added or removed |
| Gateway.Step | index.js:12-80 | the set of token ids never changes; 200 exactly when every guard passes and the upstream call succeeds; any other status leaves the map unchanged; an upstream request is made exactly when every guard passes |
| Gateway.CredentialStore.Handle | index.js:12-80 | the handler's response, upstream request and new token map are those of `Step` on the old map; the key map cannot change |
| Gateway.NonPostIgnoresStore | index.js:12-14 | a non-POST request gets 405 "Method Not Allowed" for every store content, with no upstream call and the store unchanged |
| Gateway.MissingInputIgnoresStore | index.js:15-18 | a POST with a falsy token or prompt gets 400 "Missing token or prompt." for every store content, with no upstream call and the store unchanged |
| Gateway.EmptyStringIsMissing | index.js:16-17 | an empty-string token or prompt counts as missing (400) |
| Gateway.UnknownToken | index.js:22-27 | a token id absent from the map gets 403 "Invalid access token.", with no upstream call and the store unchanged |
| Gateway.CheckOrder | index.js:32-40 | revoked is reported before expired, and expired before limit reached, each with its own 403 message; an unusable token causes no upstream call and no store change |
| Gateway.TokenRefusalBeforeKeyLookup | index.js:32-47 | the outcome for an unusable token does not depend on the key map: the owner-key lookup comes after the token checks |
| Gateway.ExpiryIsStrict | index.js:35-37 | a token is still served at the instant `now == expiresAt` |
| Gateway.MissingOwnerKey | index.js:43-47 | a usable token whose `apiKeyId` has no key gets 500 "Internal server error: API key not found.", with no upstream call and no increment |
| Gateway.UpstreamFailureKeepsStore | index.js:51-80 | when the upstream call fails the token map is unchanged and no 200 is returned; if the call was made, the response is 500 with the generic message |
| Gateway.ServedOrUnchanged | index.js:65-73 | every request is either refused with the map unchanged, or answered 200 with the upstream reply as `content`, the presented token's counter up by one and everything else unchanged, the request sent with the owner's key |
| Gateway.ServedIff | index.js:12-73 | a request is answered 200 if and only if it is a POST with a truthy prompt, a string token present in the map, a usable record, a non-empty `apiKeyId` with a key, and a successful upstream call |
| Usage.Run | index.js:20-73 | handling requests one after another keeps the set of token ids and yields one response per request |
| Usage.UsageCountsServedRequests | index.js:68-70 | over any series of requests a token's `requestsUsed` ends at its start value plus the number of its requests answered 200; its other fields never change |
| Usage.LimitHoldsSequentially | index.js:38-40 | when requests are handled one at a time, a counter that starts within its limit never passes it |
| Usage.ServedWithinAllowance | index.js:38-70 | a token serves at most `requestsLimit - requestsUsed` requests (none if that is negative) over any series of requests |
| Usage.ExhaustedNeverServed | index.js:38-40 | a token with `requestsUsed >= requestsLimit` serves no request, so its counter is never incremented |
| Usage.RevokedNeverServed | index.js:32-34 | a revoked token serves no request in any series of requests |
| Usage.ExpiredNeverServed | index.js:35-37 | a token serves no request at clock readings all past its `expiresAt` |

## Left out

- Firebase initialisation, document references and snapshots (index.js:1-7, 22-23, 43-44) are replaced by two in-memory maps.
- CORS wrapping (index.js:4, 10) is a transport concern. With its defaults the wrapper answers every `OPTIONS` preflight itself with 204, so such a request never reaches index.js:12; the model, like the handler body, gives `OPTIONS` a 405.
- The HTTP call itself and the JSON shape of the upstream reply (index.js:51-65) are network I/O. They are the oracle `Upstream`. A reply whose `choices[0].message.content` cannot be read throws and is folded into `UpstreamFailure`. The reply content is modelled as a string.
- Error logging (index.js:76-79) is a side effect only.
- The read-then-increment race between overlapping requests (index.js:38 against 68-70) is a concurrency concern. The model handles one request at a time, which is why `Usage.LimitHoldsSequentially` holds for it; with overlapping requests the real counter can pass the limit.
- A failure of the increment write itself (index.js:68) is storage I/O. With one request at a time the document exists, and the model takes the write to succeed.
- Gateway.UnknownToken, Gateway.Validate: a token string containing `/` is not a plain document id. `doc()` at index.js:22 throws for some such ids (for example `"a/b"`, which names a collection), and the catch block answers with the generic 500. For others (for example `"a/b/c"`) it reads a nested document. The model looks every non-empty string token up as a plain id of the token collection, so for a missing such id it answers 403 "Invalid access token." instead.
- A `null` or `undefined` request body would make the destructuring at index.js:15 throw outside the `try`. That case is not modelled. Any other body without the two fields gives `undefined` for both, which the model covers as `Undefined`.
- A failed store read (`tokenRef.get()` at index.js:23, `keyRef.get()` at index.js:44) throws into the catch block and gives the generic 500. The model's maps are always readable, so it does not produce that 500 for a read failure.
- Gateway.Validate: an `apiKeyId` containing `/` is not a plain document id. `doc()` at index.js:43 throws for some such ids (for example `"a/b"`, which names a collection), and the catch block answers with the generic 500. For others it reads a nested document. The model looks every non-empty `apiKeyId` up as a plain key id, so for a missing one it answers "Internal server error: API key not found." instead.
- Gateway.MissingOwnerKey: states the key-not-found 500 for every non-empty missing `apiKeyId`. That includes ids containing `/`, where the source may answer the generic 500 instead (see the line above).
- Token records are well-typed: `isRevoked` is a boolean, `expiresAt` a timestamp, and the counter and limit are integers. Records with missing or mistyped fields, where JavaScript comparisons with `undefined` come in, are not modelled. `requestsUsed` is a `nat`, so a stored negative counter, which the source compares and increments without complaint, is not modelled either. The key map holds strings, so a key document without a string `keyValue` is not modelled; for such a document index.js:48 and 59 would send `Bearer undefined`.
- The date conversion `expiresAt.toDate()` (index.js:35) becomes integer comparison of millisecond timestamps.
