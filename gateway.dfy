/**
  The `apiGateway` HTTP handler of a token-gated proxy to a chat-completion service.

  A caller POSTs an access-token id and a prompt. The handler runs a fixed chain of
  guards (method, input presence, token existence, revoked, expired, usage limit,
  owner key existence), forwards the prompt with the token owner's key, and on
  success adds one to the token's `requestsUsed` counter before replying.

  The document store is a class with two maps; the clock is the parameter `now`;
  the upstream call is the oracle parameter `upstream`.
 */
module Gateway {

  datatype Option<T> = None | Some(value: T)

  /** A field of the parsed JSON request body, as JavaScript sees it. */
  datatype JsValue =
    | Undefined
    | Null
    | Bool(b: bool)
    | Number(n: real)
    | NotANumber
    | Str(s: string)
    | Composite  // an object or an array

  /** JavaScript truthiness: `!v` is true exactly for the falsy values. */
  predicate Truthy(v: JsValue) {
    match v
    case Undefined => false
    case Null => false
    case Bool(b) => b
    case Number(n) => n != 0.0
    case NotANumber => false
    case Str(s) => s != ""
    case Composite => true
  }

  /** The parts of an inbound request the handler looks at. */
  datatype Request = Request(httpMethod: string, token: JsValue, prompt: JsValue)

  /** A document of the `access_tokens` collection. `expiresAt` is a timestamp. */
  datatype TokenRecord = TokenRecord(
    apiKeyId: string,
    isRevoked: bool,
    expiresAt: int,
    requestsUsed: nat,
    requestsLimit: int)

  /** Why a request was turned away; each reason has its own status and message. */
  datatype Denial =
    | MethodNotAllowed
    | MissingInput
    | InvalidToken
    | Revoked
    | Expired
    | LimitReached
    | KeyNotFound
    | ProcessingError  // anything thrown inside the try block

  /** The four refusals that concern the access token itself. */
  predicate RefusesToken(d: Denial) {
    d.InvalidToken? || d.Revoked? || d.Expired? || d.LimitReached?
  }

  /** The failures that are the server's fault rather than the caller's. */
  predicate ServerFault(d: Denial) {
    d.KeyNotFound? || d.ProcessingError?
  }

  function Status(d: Denial): (code: int)
    ensures 400 <= code <= 500
    ensures code == 403 <==> RefusesToken(d)
    ensures code == 500 <==> ServerFault(d)
  {
    match d
    case MethodNotAllowed => 405
    case MissingInput => 400
    case InvalidToken => 403
    case Revoked => 403
    case Expired => 403
    case LimitReached => 403
    case KeyNotFound => 500
    case ProcessingError => 500
  }

  function Message(d: Denial): string {
    match d
    case MethodNotAllowed => "Method Not Allowed"
    case MissingInput => "Missing token or prompt."
    case InvalidToken => "Invalid access token."
    case Revoked => "This link has been revoked."
    case Expired => "This link has expired."
    case LimitReached => "Request limit reached."
    case KeyNotFound => "Internal server error: API key not found."
    case ProcessingError => "An error occurred while processing your request."
  }

  /** A plain-text body, or the JSON object `{ content }` of a success. */
  datatype Body = Text(text: string) | Content(content: string)

  datatype Response = Response(status: int, body: Body)

  function Reject(d: Denial): Response {
    Response(Status(d), Text(Message(d)))
  }

  /** Different refusals are told apart by the caller: no two share a response. */
  lemma RejectInjective(d1: Denial, d2: Denial)
    requires d1 != d2
    ensures Reject(d1) != Reject(d2)
  {
  }

  // ---------------------------------------------------------------------------
  // The outbound call

  const ChatUrl := "https://api.openai.com/v1/chat/completions"
  const ChatModel := "gpt-3.5-turbo"
  const BearerPrefix := "Bearer "

  /** The chat-completion request the handler would send: one user message. */
  datatype ChatRequest = ChatRequest(
    url: string,
    model: string,
    role: string,
    content: JsValue,
    authorization: string)

  /** What the upstream call yields once its reply has been extracted. */
  datatype Upstream = UpstreamFailure | Reply(content: string)

  function OpenAIChat(prompt: JsValue, keyValue: string): (r: ChatRequest)
    ensures r.content == prompt && r.role == "user"
    ensures |r.authorization| == |BearerPrefix| + |keyValue|
    ensures r.authorization[..|BearerPrefix|] == BearerPrefix
    ensures r.authorization[|BearerPrefix|..] == keyValue
  {
    ChatRequest(ChatUrl, ChatModel, "user", prompt, BearerPrefix + keyValue)
  }

  // ---------------------------------------------------------------------------
  // The token validator and the guard chain

  /** A stored token that may still be used at time `now`. */
  predicate Usable(rec: TokenRecord, now: int) {
    !rec.isRevoked && now <= rec.expiresAt && rec.requestsUsed < rec.requestsLimit
  }

  /** The three record checks, in the order the handler runs them. */
  function TokenCheck(rec: TokenRecord, now: int): (r: Option<Denial>)
    ensures r == None <==> Usable(rec, now)
    ensures r.Some? ==> r.value in {Revoked, Expired, LimitReached}
    ensures rec.isRevoked ==> r == Some(Revoked)
    ensures !rec.isRevoked ==> r != Some(Revoked)
    ensures r == Some(Expired) <==> !rec.isRevoked && now > rec.expiresAt
  {
    if rec.isRevoked then Some(Revoked)
    else if now > rec.expiresAt then Some(Expired)
    else if rec.requestsUsed >= rec.requestsLimit then Some(LimitReached)
    else None
  }

  /** The outcome of the guards: a refusal, or the call to make on a token's behalf. */
  datatype Decision = Deny(reason: Denial) | Forward(tokenId: string, call: ChatRequest)

  /**
    The guard chain. The first failing guard decides the refusal. A token that is
    not a string, or a record whose `apiKeyId` is empty, is not a valid document
    path: the store client throws, and the catch block answers with the generic
    error. Ids are looked up as plain document ids of their collection.
   */
  function Validate(req: Request, tokens: map<string, TokenRecord>, keys: map<string, string>, now: int): (d: Decision)
    ensures req.httpMethod != "POST" ==> d == Deny(MethodNotAllowed)
    ensures d == Deny(MissingInput) <==> req.httpMethod == "POST" && !(Truthy(req.token) && Truthy(req.prompt))
    ensures d.Forward? ==>
      && req.token == Str(d.tokenId)
      && d.tokenId in tokens
      && Usable(tokens[d.tokenId], now)
      && tokens[d.tokenId].apiKeyId in keys
      && d.call == OpenAIChat(req.prompt, keys[tokens[d.tokenId].apiKeyId])
  {
    if req.httpMethod != "POST" then Deny(MethodNotAllowed)
    else if !Truthy(req.token) || !Truthy(req.prompt) then Deny(MissingInput)
    else if !req.token.Str? then Deny(ProcessingError)
    else
      var id := req.token.s;
      if id !in tokens then Deny(InvalidToken)
      else
        var rec := tokens[id];
        match TokenCheck(rec, now)
        case Some(reason) => Deny(reason)
        case None =>
          if rec.apiKeyId == "" then Deny(ProcessingError)
          else if rec.apiKeyId !in keys then Deny(KeyNotFound)
          else Forward(id, OpenAIChat(req.prompt, keys[rec.apiKeyId]))
  }

  // ---------------------------------------------------------------------------
  // One request, start to finish

  /** `requestsUsed` of token `id` goes up by one; nothing else changes. */
  function Increment(tokens: map<string, TokenRecord>, id: string): (t: map<string, TokenRecord>)
    requires id in tokens
    ensures t.Keys == tokens.Keys
    ensures t[id] == tokens[id].(requestsUsed := tokens[id].requestsUsed + 1)
    ensures forall other :: other in tokens && other != id ==> t[other] == tokens[other]
  {
    var rec := tokens[id];
    tokens[id := rec.(requestsUsed := rec.requestsUsed + 1)]
  }

  /** The response, the upstream request made (if any), and the new token map. */
  datatype Outcome = Outcome(response: Response, sent: Option<ChatRequest>, tokens: map<string, TokenRecord>)

  /** What handling one request does to the store, as a function of the old store. */
  function Step(tokens: map<string, TokenRecord>, keys: map<string, string>, req: Request, now: int, upstream: Upstream): (o: Outcome)
    ensures o.tokens.Keys == tokens.Keys
    ensures o.response.status == 200 <==> Validate(req, tokens, keys, now).Forward? && upstream.Reply?
    ensures o.response.status != 200 ==> o.tokens == tokens
    ensures o.sent.Some? <==> Validate(req, tokens, keys, now).Forward?
  {
    match Validate(req, tokens, keys, now)
    case Deny(reason) => Outcome(Reject(reason), None, tokens)
    case Forward(id, call) =>
      match upstream
      case UpstreamFailure => Outcome(Reject(ProcessingError), Some(call), tokens)
      case Reply(text) => Outcome(Response(200, Content(text)), Some(call), Increment(tokens, id))
  }

  // ---------------------------------------------------------------------------
  // The store and the handler

  class CredentialStore {
    /** The `access_tokens` collection: token id to record. */
    var tokens: map<string, TokenRecord>
    /** The `api_keys` collection: key id to `keyValue`. The handler never writes it. */
    const keys: map<string, string>

    constructor (tokens0: map<string, TokenRecord>, keys0: map<string, string>)
      ensures tokens == tokens0 && keys == keys0
    {
      tokens := tokens0;
      keys := keys0;
    }

    /**
      Handles one request at time `now`; `upstream` is what the chat-completion call
      yields if it is made. Returns the response and the request sent upstream.
     */
    method Handle(req: Request, now: int, upstream: Upstream) returns (response: Response, sent: Option<ChatRequest>)
      modifies this`tokens
      ensures Outcome(response, sent, tokens) == Step(old(tokens), keys, req, now, upstream)
    {
      var decision := Validate(req, tokens, keys, now);
      if decision.Deny? {
        return Reject(decision.reason), None;
      }
      var id := decision.tokenId;
      sent := Some(decision.call);
      if upstream.UpstreamFailure? {
        response := Reject(ProcessingError);
        return;
      }
      var rec := tokens[id];
      tokens := tokens[id := rec.(requestsUsed := rec.requestsUsed + 1)];
      response := Response(200, Content(upstream.content));
    }
  }

  // ---------------------------------------------------------------------------
  // Properties of a single request

  /** A non-POST request is refused with 405 whatever the store holds. */
  lemma NonPostIgnoresStore(req: Request, tokens: map<string, TokenRecord>, keys: map<string, string>,
                             now: int, upstream: Upstream)
    requires req.httpMethod != "POST"
    ensures Step(tokens, keys, req, now, upstream) == Outcome(Response(405, Text("Method Not Allowed")), None, tokens)
  {
  }

  /** A POST with a falsy token or prompt is refused with 400 whatever the store holds. */
  lemma MissingInputIgnoresStore(req: Request, tokens: map<string, TokenRecord>, keys: map<string, string>,
                                 now: int, upstream: Upstream)
    requires req.httpMethod == "POST"
    requires !Truthy(req.token) || !Truthy(req.prompt)
    ensures Step(tokens, keys, req, now, upstream) == Outcome(Response(400, Text("Missing token or prompt.")), None, tokens)
  {
  }

  /** The empty string is a falsy token or prompt. */
  lemma EmptyStringIsMissing(req: Request, tokens: map<string, TokenRecord>, keys: map<string, string>,
                             now: int, upstream: Upstream)
    requires req.httpMethod == "POST"
    requires req.token == Str("") || req.prompt == Str("")
    ensures Step(tokens, keys, req, now, upstream).response.status == 400
  {
  }

  /** An unknown token id is refused with 403 and the store is untouched. */
  lemma UnknownToken(req: Request, tokens: map<string, TokenRecord>, keys: map<string, string>,
                     now: int, upstream: Upstream)
    requires req.httpMethod == "POST" && Truthy(req.prompt)
    requires req.token.Str? && req.token.s != "" && req.token.s !in tokens
    ensures Step(tokens, keys, req, now, upstream) == Outcome(Response(403, Text("Invalid access token.")), None, tokens)
  {
  }

  /** Revoked wins over expired and exhausted; expired wins over exhausted. */
  lemma CheckOrder(req: Request, tokens: map<string, TokenRecord>, keys: map<string, string>,
                   now: int, upstream: Upstream)
    requires req.httpMethod == "POST" && Truthy(req.prompt)
    requires Truthy(req.token) && req.token.Str? && req.token.s in tokens
    ensures var rec := tokens[req.token.s];
      var o := Step(tokens, keys, req, now, upstream);
      && (rec.isRevoked ==> o.response == Response(403, Text("This link has been revoked.")))
      && (!rec.isRevoked && now > rec.expiresAt ==> o.response == Response(403, Text("This link has expired.")))
      && (!rec.isRevoked && now <= rec.expiresAt && rec.requestsUsed >= rec.requestsLimit ==>
            o.response == Response(403, Text("Request limit reached.")))
      && (!Usable(rec, now) ==> o.tokens == tokens && o.sent == None)
  {
  }

  /** The token checks come before the owner-key lookup: a missing key never hides them. */
  lemma TokenRefusalBeforeKeyLookup(req: Request, tokens: map<string, TokenRecord>, keys1: map<string, string>,
                                    keys2: map<string, string>, now: int)
    requires req.httpMethod == "POST" && Truthy(req.prompt)
    requires Truthy(req.token) && req.token.Str? && req.token.s in tokens && !Usable(tokens[req.token.s], now)
    ensures Validate(req, tokens, keys1, now) == Validate(req, tokens, keys2, now)
  {
  }

  /** The expiry check is strict: a token is still accepted at the instant it expires. */
  lemma ExpiryIsStrict(req: Request, tokens: map<string, TokenRecord>, keys: map<string, string>, text: string)
    requires req.httpMethod == "POST" && Truthy(req.prompt)
    requires Truthy(req.token) && req.token.Str? && req.token.s in tokens
    requires var rec := tokens[req.token.s];
      !rec.isRevoked && rec.requestsUsed < rec.requestsLimit && rec.apiKeyId in keys && rec.apiKeyId != ""
    ensures var now := tokens[req.token.s].expiresAt;
      Step(tokens, keys, req, now, Reply(text)).response == Response(200, Content(text))
  {
  }

  /** A usable token whose owner key is missing yields 500 and no increment. */
  lemma MissingOwnerKey(req: Request, tokens: map<string, TokenRecord>, keys: map<string, string>,
                        now: int, upstream: Upstream)
    requires req.httpMethod == "POST" && Truthy(req.prompt)
    requires Truthy(req.token) && req.token.Str? && req.token.s in tokens
    requires var rec := tokens[req.token.s]; Usable(rec, now) && rec.apiKeyId != "" && rec.apiKeyId !in keys
    ensures Step(tokens, keys, req, now, upstream)
      == Outcome(Response(500, Text("Internal server error: API key not found.")), None, tokens)
  {
  }

  /** A failed upstream call yields the generic 500 and leaves every counter alone. */
  lemma UpstreamFailureKeepsStore(req: Request, tokens: map<string, TokenRecord>, keys: map<string, string>, now: int)
    ensures var o := Step(tokens, keys, req, now, UpstreamFailure);
      && o.tokens == tokens
      && o.response.status != 200
      && (o.sent.Some? ==> o.response == Response(500, Text("An error occurred while processing your request.")))
  {
  }

  /**
    Every request is either served (200, the upstream reply as content, exactly one
    counter up by one, sent with the owner's key) or refused with the store unchanged.
   */
  lemma ServedOrUnchanged(req: Request, tokens: map<string, TokenRecord>, keys: map<string, string>,
                          now: int, upstream: Upstream)
    ensures var o := Step(tokens, keys, req, now, upstream);
      || (&& o.response.status != 200
          && o.tokens == tokens)
      || (&& upstream.Reply?
          && o.response == Response(200, Content(upstream.content))
          && Truthy(req.token) && req.token.Str? && req.token.s in tokens
          && var id := req.token.s;
          && o.tokens == tokens[id := tokens[id].(requestsUsed := tokens[id].requestsUsed + 1)]
          && o.sent == Some(OpenAIChat(req.prompt, keys[tokens[id].apiKeyId])))
  {
  }

  /** A request is served exactly when every guard passes and the upstream call succeeds. */
  lemma ServedIff(req: Request, tokens: map<string, TokenRecord>, keys: map<string, string>,
                  now: int, upstream: Upstream)
    ensures Step(tokens, keys, req, now, upstream).response.status == 200
      <==> && req.httpMethod == "POST"
           && Truthy(req.prompt)
           && Truthy(req.token) && req.token.Str? && req.token.s in tokens
           && Usable(tokens[req.token.s], now)
           && tokens[req.token.s].apiKeyId != ""
           && tokens[req.token.s].apiKeyId in keys
           && upstream.Reply?
  {
  }
}
