/** The request handler (api/ai.js, lines 17-102) and the module-level store it
    shares across requests (lines 9-12). The provider call is a parameter: the
    outcome the network would have produced. */
module Handler {
  import opened Js
  import opened Normalize
  import opened Keys
  import opened Extract
  import opened LruCache

  const MaxEntries: nat := 500
  const TtlMs: nat := 1000 * 60 * 60 * 24 * 30
  const Temperature: real := 0.6
  const MaxTokens := 400

  const MethodNotAllowed := "Method not allowed"
  const MissingKey := "Missing OPENAI_API_KEY environment variable"
  const ApiFailed := "OpenAI API failed"
  const InternalError := "Internal error"

  datatype Request = Request(verb: string, body: Option<Body>)

  /** What `response.json()` yields on a successful reply. */
  datatype Parsed = Parsed(data: Option<RawReply>) | Unparsable(details: string)

  /** What the provider call produced: a reply with its status, body text and
      parsed body, or a thrown error (provider unreachable). */
  datatype Upstream =
    | Responded(status: int, text: string, json: Parsed)
    | Unreachable(details: string)

  /** The payload of the provider call. */
  datatype Outbound = Outbound(model: string, messages: seq<Message>, temperature: real, maxTokens: int)

  /** The JSON body of the handler's response. `cached` is false where the
      response has no `cached` field. */
  datatype Reply =
    | Answer(cached: bool, result: Completion)
    | Rejected(error: string)
    | UpstreamFailed(error: string, upstreamStatus: int, text: string)
    | Failed(error: string, details: string)

  datatype Response = Response(status: int, reply: Reply)

  /** A write to the store. */
  datatype Write = Write(key: string, value: Completion)

  /** Everything one request does: its response, the provider call it makes
      (if any) and the store write it makes (if any). */
  datatype Step = Step(response: Response, sent: Option<Outbound>, store: Option<Write>)

  /** `response.ok` */
  predicate IsOk(status: int) {
    200 <= status <= 299
  }

  /** Every stored result has exactly one choice. */
  ghost predicate SingleChoiceResults(entries: map<string, Entry<Completion>>) {
    forall k :: k in entries ==> |entries[k].value.choices| == 1
  }

  /** The handler's decision procedure, given the store's entries before the
      request, the API key, the clock and the provider outcome. */
  function Decide(entries: map<string, Entry<Completion>>, ttl: nat, apiKey: Option<string>,
                  req: Request, now: int, upstream: Upstream): (s: Step)
    ensures s.response.status in {200, 405, 500, 502}
    ensures s.response.status == 405 <==> req.verb != "POST"
    ensures s.sent.None? <==>
      req.verb != "POST" || !Truthy(apiKey) || Lookup(entries, KeyOf(BodyOf(req.body)), now, ttl).Some?
    ensures s.response.reply.Answer? && s.response.reply.cached ==>
      s.response.status == 200 && Lookup(entries, KeyOf(BodyOf(req.body)), now, ttl) == Some(s.response.reply.result)
    ensures s.response.status == 502 ==>
      (s.sent.Some? && upstream.Responded? && !IsOk(upstream.status)
       && s.response.reply == UpstreamFailed(ApiFailed, upstream.status, upstream.text))
    ensures s.response.reply.Failed? ==>
      (s.sent.Some? && s.response.status == 500
       && (upstream.Unreachable? || (IsOk(upstream.status) && upstream.json.Unparsable?)))
    ensures s.store.Some? ==>
      (s.sent.Some? && s.response == Response(200, Answer(false, s.store.value.value))
       && s.store.value.key == KeyOf(BodyOf(req.body)))
  {
    if req.verb != "POST" then
      Step(Response(405, Rejected(MethodNotAllowed)), None, None)
    else if !Truthy(apiKey) then
      Step(Response(500, Rejected(MissingKey)), None, None)
    else
      var body := BodyOf(req.body);
      var text := ResolveText(body);
      var key := CacheKey(ResolveEvent(body), text);
      match Lookup(entries, key, now, ttl)
      case Some(stored) =>
        Step(Response(200, Answer(true, stored)), None, None)
      case None =>
        var sent := Some(Outbound(ResolveModel(body), ResolveMessages(body, text), Temperature, MaxTokens));
        match upstream
        case Unreachable(details) =>
          Step(Response(500, Failed(InternalError, details)), sent, None)
        case Responded(status, errText, json) =>
          if !IsOk(status) then
            Step(Response(502, UpstreamFailed(ApiFailed, status, errText)), sent, None)
          else
            match json
            case Unparsable(details) =>
              Step(Response(500, Failed(InternalError, details)), sent, None)
            case Parsed(data) =>
              var result := NormalizeReply(data);
              Step(Response(200, Answer(false, result)), sent, Some(Write(key, result)))
  }

  /** `new LRUCache({ max: 500, ttl: 30 days })` */
  method NewModuleCache() returns (c: Cache<Completion>)
    ensures fresh(c) && c.Valid() && c.entries == map[]
    ensures c.max == MaxEntries && c.ttl == TtlMs
  {
    c := new Cache<Completion>(MaxEntries, TtlMs);
  }

  /** `handler(req, res)`: answers one request against the shared store.
      `now` is the clock when the store is consulted and `setAt` the later
      clock, after the provider call has completed, when a result is stored.
      `sent` is the payload of the provider call, `None` when no call is made. */
  method Handle(cache: Cache<Completion>, apiKey: Option<string>, req: Request, now: int, setAt: int, upstream: Upstream)
    returns (resp: Response, sent: Option<Outbound>)
    requires cache.Valid()
    requires now <= setAt
    modifies cache
    ensures cache.Valid()
    ensures var step := Decide(old(cache.entries), cache.ttl, apiKey, req, now, upstream);
      && resp == step.response
      && sent == step.sent
      && (step.store.None? ==> cache.entries == old(cache.entries))
      && (step.store.Some? ==>
            Stored(old(cache.entries), cache.entries, step.store.value.key, step.store.value.value, setAt, cache.max))
    ensures SingleChoiceResults(old(cache.entries)) ==> SingleChoiceResults(cache.entries)
  {
    sent := None;
    if req.verb != "POST" {
      resp := Response(405, Rejected(MethodNotAllowed));
      return;
    }
    if !Truthy(apiKey) {
      resp := Response(500, Rejected(MissingKey));
      return;
    }

    var body := BodyOf(req.body);
    var event := ResolveEvent(body);
    var text := ResolveText(body);
    var key := CacheKey(event, text);

    var hit := cache.Has(key, now);
    if hit {
      var stored := cache.Get(key, now);
      resp := Response(200, Answer(true, stored.value));
      return;
    }

    var model := ResolveModel(body);
    var messages := ResolveMessages(body, text);
    sent := Some(Outbound(model, messages, Temperature, MaxTokens));

    match upstream
    case Unreachable(details) =>
      resp := Response(500, Failed(InternalError, details));
    case Responded(status, errText, json) =>
      if !IsOk(status) {
        resp := Response(502, UpstreamFailed(ApiFailed, status, errText));
        return;
      }
      match json
      case Unparsable(details) =>
        resp := Response(500, Failed(InternalError, details));
      case Parsed(data) =>
        var result := NormalizeReply(data);
        cache.Set(key, result, setAt);
        resp := Response(200, Answer(false, result));
  }

  /** A request that is not a POST gets 405; the store and the provider
      outcome play no part and nothing is sent or stored. */
  lemma NonPostRejected(entries: map<string, Entry<Completion>>, ttl: nat, apiKey: Option<string>,
                        req: Request, now: int, upstream: Upstream)
    requires req.verb != "POST"
    ensures Decide(entries, ttl, apiKey, req, now, upstream) == Step(Response(405, Rejected(MethodNotAllowed)), None, None)
  {
  }

  /** A POST without an API key gets 500; the store and the provider outcome
      play no part and nothing is sent or stored. */
  lemma MissingKeyRejected(entries: map<string, Entry<Completion>>, ttl: nat, apiKey: Option<string>,
                           req: Request, now: int, upstream: Upstream)
    requires req.verb == "POST" && !Truthy(apiKey)
    ensures Decide(entries, ttl, apiKey, req, now, upstream) == Step(Response(500, Rejected(MissingKey)), None, None)
  {
  }

  /** A live entry under the request's key is returned with `cached: true`,
      whatever the provider would have answered; nothing is sent or stored. */
  lemma HitServesStoredResult(entries: map<string, Entry<Completion>>, ttl: nat, apiKey: Option<string>,
                              req: Request, now: int, upstream: Upstream)
    requires req.verb == "POST" && Truthy(apiKey)
    requires var key := KeyOf(BodyOf(req.body)); key in entries && Live(entries[key], now, ttl)
    ensures Decide(entries, ttl, apiKey, req, now, upstream)
         == Step(Response(200, Answer(true, entries[KeyOf(BodyOf(req.body))].value)), None, None)
  {
  }

  /** On a miss the provider receives the resolved model, the resolved messages
      and the fixed sampling parameters. */
  lemma MissSendsResolvedRequest(entries: map<string, Entry<Completion>>, ttl: nat, apiKey: Option<string>,
                                 req: Request, now: int, upstream: Upstream)
    requires req.verb == "POST" && Truthy(apiKey)
    requires Lookup(entries, KeyOf(BodyOf(req.body)), now, ttl).None?
    ensures var b := BodyOf(req.body);
      Decide(entries, ttl, apiKey, req, now, upstream).sent
        == Some(Outbound(ResolveModel(b), ResolveMessages(b, ResolveText(b)), Temperature, MaxTokens))
  {
  }

  /** On a miss, an ok reply is normalised, stored once under the request's key
      and returned without `cached`. */
  lemma MissSuccessStoresResult(entries: map<string, Entry<Completion>>, ttl: nat, apiKey: Option<string>,
                                req: Request, now: int, status: int, text: string, data: Option<RawReply>)
    requires req.verb == "POST" && Truthy(apiKey)
    requires Lookup(entries, KeyOf(BodyOf(req.body)), now, ttl).None?
    requires IsOk(status)
    ensures var step := Decide(entries, ttl, apiKey, req, now, Responded(status, text, Parsed(data)));
      && step.response == Response(200, Answer(false, NormalizeReply(data)))
      && step.store == Some(Write(KeyOf(BodyOf(req.body)), NormalizeReply(data)))
  {
  }

  /** On a miss, a non-ok reply is passed through as 502 with the provider's
      status and body text, and nothing is stored. */
  lemma UpstreamFailurePassesThrough(entries: map<string, Entry<Completion>>, ttl: nat, apiKey: Option<string>,
                                     req: Request, now: int, status: int, text: string, json: Parsed)
    requires req.verb == "POST" && Truthy(apiKey)
    requires Lookup(entries, KeyOf(BodyOf(req.body)), now, ttl).None?
    requires !IsOk(status)
    ensures var step := Decide(entries, ttl, apiKey, req, now, Responded(status, text, json));
      && step.response == Response(502, UpstreamFailed(ApiFailed, status, text))
      && step.store.None?
  {
  }

  /** The store is written exactly when a fresh answer is returned, and then it
      holds exactly the returned result under the request's key, after a
      provider call was made. Every error leaves the store alone. */
  lemma StoreExactlyOnFreshAnswer(entries: map<string, Entry<Completion>>, ttl: nat, apiKey: Option<string>,
                                  req: Request, now: int, upstream: Upstream)
    ensures var step := Decide(entries, ttl, apiKey, req, now, upstream);
      && (step.store.Some? <==> step.response.reply.Answer? && !step.response.reply.cached)
      && (step.store.Some? ==> step.sent.Some?)
      && (step.store.Some? ==> step.store.value == Write(KeyOf(BodyOf(req.body)), step.response.reply.result))
      && (step.response.status != 200 ==> step.store.None?)
  {
  }

  /** When every stored result has one choice, every answer has one choice,
      and so does every value the handler stores. */
  lemma {:induction false} AnswersHaveOneChoice(entries: map<string, Entry<Completion>>, ttl: nat,
                                                apiKey: Option<string>, req: Request, now: int, upstream: Upstream)
    requires SingleChoiceResults(entries)
    ensures var step := Decide(entries, ttl, apiKey, req, now, upstream);
      step.response.reply.Answer? ==> |step.response.reply.result.choices| == 1
    ensures var step := Decide(entries, ttl, apiKey, req, now, upstream);
      step.store.Some? ==> |step.store.value.value.choices| == 1
  {
    var key := KeyOf(BodyOf(req.body));
    if key in entries {
      assert |entries[key].value.choices| == 1;
    }
  }

  /** Storing a one-choice result keeps every stored result one-choice. */
  lemma {:induction false} StorePreservesSingleChoice(before: map<string, Entry<Completion>>, after: map<string, Entry<Completion>>,
                                                      key: string, value: Completion, now: int, max: nat)
    requires SingleChoiceResults(before) && |value.choices| == 1
    requires Stored(before, after, key, value, now, max)
    ensures SingleChoiceResults(after)
  {
    forall k | k in after
      ensures |after[k].value.choices| == 1
    {
      if k != key {
        assert after[k] == before[k];
      }
    }
  }

  /** Repeating a request whose first answer was stored, while the entry is
      live, returns the same result with `cached: true` and makes no provider
      call, whatever the provider would answer the second time. */
  lemma RepeatedRequestHits(entries: map<string, Entry<Completion>>, after: map<string, Entry<Completion>>,
                            ttl: nat, max: nat, apiKey: Option<string>, req: Request,
                            now: int, setAt: int, upstream: Upstream, later: int, upstream': Upstream)
    requires var step := Decide(entries, ttl, apiKey, req, now, upstream);
      step.store.Some? && Stored(entries, after, step.store.value.key, step.store.value.value, setAt, max)
    requires setAt <= later <= setAt + ttl
    ensures var first := Decide(entries, ttl, apiKey, req, now, upstream);
      Decide(after, ttl, apiKey, req, later, upstream')
        == Step(Response(200, Answer(true, first.response.reply.result)), None, None)
  {
    StoreExactlyOnFreshAnswer(entries, ttl, apiKey, req, now, upstream);
  }

  /** `{ prompt: "What is 2+2?" }` is keyed `generic::What is 2+2?` and, when
      not cached, sends the persona and the prompt to the default model. */
  lemma PromptScenario(entries: map<string, Entry<Completion>>, ttl: nat, now: int, upstream: Upstream)
    requires "generic::What is 2+2?" !in entries
    ensures var b := Body(None, None, None, Some("What is 2+2?"), None, None);
      && KeyOf(b) == "generic::What is 2+2?"
      && Decide(entries, ttl, Some("sk"), Request("POST", Some(b)), now, upstream).sent
        == Some(Outbound("gpt-4o-mini",
                         [Message("system", SystemPersona), Message("user", "What is 2+2?")],
                         0.6, 400))
  {
  }
}
