/**
  Usage accounting over a series of requests handled one at a time against the same
  store: each token's counter moves only when one of its own requests is served,
  by one per served request, and never past its limit.
 */
module Usage {
  import opened Gateway

  /** One request together with the clock reading and the upstream result it meets. */
  datatype Call = Call(req: Request, now: int, upstream: Upstream)

  /** The store's token map after a series of requests, and the responses in order. */
  datatype Trace = Trace(tokens: map<string, TokenRecord>, responses: seq<Response>)

  /** Handling `calls` in order, each against the store the previous one left. */
  function Run(tokens: map<string, TokenRecord>, keys: map<string, string>, calls: seq<Call>): (t: Trace)
    ensures t.tokens.Keys == tokens.Keys
    ensures |t.responses| == |calls|
    decreases |calls|
  {
    if calls == [] then Trace(tokens, [])
    else
      var c := calls[0];
      var o := Step(tokens, keys, c.req, c.now, c.upstream);
      var rest := Run(o.tokens, keys, calls[1..]);
      Trace(rest.tokens, [o.response] + rest.responses)
  }

  /** How many of `calls` presented token `id` and were answered with 200. */
  function Served(id: string, calls: seq<Call>, responses: seq<Response>): nat
    requires |calls| == |responses|
    decreases |calls|
  {
    if calls == [] then 0
    else
      (if calls[0].req.token == Str(id) && responses[0].status == 200 then 1 else 0)
        + Served(id, calls[1..], responses[1..])
  }

  /** The first call of a run, and the run of the rest from the store it leaves. */
  lemma RunUnfold(tokens: map<string, TokenRecord>, keys: map<string, string>, calls: seq<Call>)
    requires calls != []
    ensures var c := calls[0];
      var o := Step(tokens, keys, c.req, c.now, c.upstream);
      var t := Run(tokens, keys, calls);
      && t.tokens == Run(o.tokens, keys, calls[1..]).tokens
      && t.responses[0] == o.response
      && t.responses[1..] == Run(o.tokens, keys, calls[1..]).responses
  {
  }

  /**
    A token's counter ends at its start value plus the number of its requests that
    were served; every other field of the record is as it was.
   */
  lemma {:induction false} UsageCountsServedRequests(tokens: map<string, TokenRecord>, keys: map<string, string>,
                                                     calls: seq<Call>, id: string)
    requires id in tokens
    ensures var t := Run(tokens, keys, calls);
      && t.tokens[id].requestsUsed == tokens[id].requestsUsed + Served(id, calls, t.responses)
      && t.tokens[id] == tokens[id].(requestsUsed := t.tokens[id].requestsUsed)
    decreases |calls|
  {
    if calls != [] {
      var c := calls[0];
      var o := Step(tokens, keys, c.req, c.now, c.upstream);
      var t := Run(tokens, keys, calls);
      RunUnfold(tokens, keys, calls);
      ServedOrUnchanged(c.req, tokens, keys, c.now, c.upstream);
      UsageCountsServedRequests(o.tokens, keys, calls[1..], id);
    }
  }

  /**
    Handled one at a time, a token whose counter starts within its limit never goes
    past it: the limit is hard when requests do not overlap.
   */
  lemma {:induction false} LimitHoldsSequentially(tokens: map<string, TokenRecord>, keys: map<string, string>,
                                                  calls: seq<Call>, id: string)
    requires id in tokens && tokens[id].requestsUsed <= tokens[id].requestsLimit
    ensures Run(tokens, keys, calls).tokens[id].requestsUsed <= tokens[id].requestsLimit
    decreases |calls|
  {
    if calls != [] {
      var c := calls[0];
      var o := Step(tokens, keys, c.req, c.now, c.upstream);
      RunUnfold(tokens, keys, calls);
      ServedOrUnchanged(c.req, tokens, keys, c.now, c.upstream);
      assert o.tokens[id].requestsLimit == tokens[id].requestsLimit;
      assert o.tokens[id].requestsUsed <= tokens[id].requestsLimit;
      LimitHoldsSequentially(o.tokens, keys, calls[1..], id);
    }
  }

  /** A token serves at most as many requests as its limit leaves room for. */
  lemma ServedWithinAllowance(tokens: map<string, TokenRecord>, keys: map<string, string>,
                              calls: seq<Call>, id: string)
    requires id in tokens
    ensures var t := Run(tokens, keys, calls);
      var allowance := tokens[id].requestsLimit - tokens[id].requestsUsed;
      Served(id, calls, t.responses) <= if allowance < 0 then 0 else allowance
  {
    var t := Run(tokens, keys, calls);
    UsageCountsServedRequests(tokens, keys, calls, id);
    if tokens[id].requestsUsed <= tokens[id].requestsLimit {
      LimitHoldsSequentially(tokens, keys, calls, id);
    } else {
      ExhaustedNeverServed(tokens, keys, calls, id);
    }
  }

  /** A token already past its limit serves nothing more. */
  lemma {:induction false} ExhaustedNeverServed(tokens: map<string, TokenRecord>, keys: map<string, string>,
                                                calls: seq<Call>, id: string)
    requires id in tokens && tokens[id].requestsUsed >= tokens[id].requestsLimit
    ensures Served(id, calls, Run(tokens, keys, calls).responses) == 0
    decreases |calls|
  {
    if calls != [] {
      var c := calls[0];
      var o := Step(tokens, keys, c.req, c.now, c.upstream);
      RunUnfold(tokens, keys, calls);
      ServedOrUnchanged(c.req, tokens, keys, c.now, c.upstream);
      ExhaustedNeverServed(o.tokens, keys, calls[1..], id);
    }
  }

  /** A revoked token stays revoked and serves no request at all. */
  lemma {:induction false} RevokedNeverServed(tokens: map<string, TokenRecord>, keys: map<string, string>,
                                              calls: seq<Call>, id: string)
    requires id in tokens && tokens[id].isRevoked
    ensures Served(id, calls, Run(tokens, keys, calls).responses) == 0
    decreases |calls|
  {
    if calls != [] {
      var c := calls[0];
      var o := Step(tokens, keys, c.req, c.now, c.upstream);
      RunUnfold(tokens, keys, calls);
      ServedOrUnchanged(c.req, tokens, keys, c.now, c.upstream);
      RevokedNeverServed(o.tokens, keys, calls[1..], id);
    }
  }

  /** Once every clock reading is past a token's expiry, it serves no request. */
  lemma {:induction false} ExpiredNeverServed(tokens: map<string, TokenRecord>, keys: map<string, string>,
                                              calls: seq<Call>, id: string)
    requires id in tokens
    requires forall i :: 0 <= i < |calls| ==> calls[i].now > tokens[id].expiresAt
    ensures Served(id, calls, Run(tokens, keys, calls).responses) == 0
    decreases |calls|
  {
    if calls != [] {
      var c := calls[0];
      var o := Step(tokens, keys, c.req, c.now, c.upstream);
      RunUnfold(tokens, keys, calls);
      ServedOrUnchanged(c.req, tokens, keys, c.now, c.upstream);
      assert forall i :: 0 <= i < |calls[1..]| ==> calls[1..][i] == calls[i + 1];
      ExpiredNeverServed(o.tokens, keys, calls[1..], id);
    }
  }
}
