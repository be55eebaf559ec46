# Chat-completion gateway: verified model of the request handler

This project models `api/ai.js`, a serverless handler. The handler sits between
classroom clients and a chat-completion provider. For each POST it:

- normalises a loosely shaped body into an event, an identifying text, a model
  and a message list, with a fallback for each;
- derives a cache key from the event and the first 200 characters of the text;
- answers from a module-level bounded store when it can (500 entries, 30-day
  time-to-live);
- otherwise calls the provider, reduces the reply to a single-choice result,
  stores it and returns it.

Failures map to fixed status codes: 405 for another verb, 500 for a missing API
key or a thrown error, and 502 (with the provider's status and body) for a
non-ok provider reply.

Modules, one per part of the handler:

- `Js` (`js.dfy`): optional fields, JavaScript string truthiness and the `a || b || c`
  fallback chain.
- `Normalize` (`normalize.dfy`): event, text, model and message resolution
  (lines 33-36 and 46-59).
- `Keys` (`keys.dfy`): the cache key (line 38), plus a splitter that inverts it
  for colon-free events.
- `Extract` (`extract.dfy`): content extraction and the result shape (lines 88-89).
- `LruCache` (`lru_cache.dfy`): the store's `has`/`get`/`set` surface as a class
  over a `map`, bounded by `max`. Time is a clock parameter.
- `Handler` (`handler.dfy`): `Decide`, a pure function giving the response, the
  provider call made (if any) and the store write made (if any). `Handle` is the
  imperative handler with early returns. It mutates the shared `Cache` object
  and is proved to behave as `Decide` says.

The module-level state of the source becomes parameters of `Handle`:

- the `cache` object, created by `NewModuleCache`;
- the API key, an optional string;
- the clock: `now` when the store is consulted, and a later `setAt` when a result is stored after the provider call completes;
- the provider's outcome: a reply with status, text and parsed body, or a thrown
  error.

The out-parameter `sent` is the payload of the provider call. It is `None`
exactly when no call is made.

The handler sends a fixed `temperature: 0.6` and `max_tokens: 400` with the
resolved model and messages. Its result is shaped `{ choices: [...] }` with a
single choice. A response served from the store carries `cached: true`; a fresh
answer has no `cached` field.

## Model

| member | source | states |
|---|---|---|
| Js.FirstTruthy | api/ai.js:35-36 | an `a \|\| b \|\| c \|\| last` chain yields the first non-empty present candidate; an empty string falls through; `last` only when no candidate is truthy |
| Normalize.BodyOf | api/ai.js:33 | a missing body behaves as `{}` (all fields absent) |
| Normalize.ResolveEvent | api/ai.js:34 | the event is `body.event` when non-empty, otherwise exactly `"generic"`; never empty |
| Normalize.ResolveText | api/ai.js:35-36 | the text is the first non-empty of `payload.transcriptChunk`, `transcript`, `prompt`; it is empty iff none of the three is non-empty |
| Normalize.ResolveModel | api/ai.js:46 | the model is `body.model` when non-empty, otherwise `"gpt-4o-mini"` |
| Normalize.ResolveMessages | api/ai.js:47-59 | explicit `messages` (an empty array included) pass through unchanged; otherwise exactly two messages: the classroom persona as `system`, then a non-empty `user` message holding the text, or the fallback sentence when the text is empty |
| Normalize.FallbackExactlyWithoutText | api/ai.js:55-58 | the synthesised user message is the fallback sentence iff the body has no identifying text (or the text is that sentence) |
| Keys.Prefix | api/ai.js:38 | `slice(0, n)` is the prefix of length `min(\|s\|, n)` |
| Keys.CacheKey | api/ai.js:38 | the key is the event, then `::`, then the longest prefix of the text within 200 characters; its length is at most `\|event\| + 2 + 200` |
| Keys.SameEventAndPrefixSameKey | api/ai.js:34-38 | bodies with the same event and the same first 200 text characters share a key, whatever their other fields |
| Keys.KeyIgnoresTextBeyondLimit | api/ai.js:38 | characters after the 200th never change the key |
| Keys.TextlessKey | api/ai.js:35-38 | a body with no text is keyed `event + "::"`; the fallback sentence goes to the message, not the key |
| Keys.SplitCacheKey | api/ai.js:38 | for a colon-free event, splitting the key at its first `::` recovers the event and the text prefix |
| Keys.KeyInjectiveOnColonFreeEvents | api/ai.js:38 | for colon-free events, equal keys imply equal events and equal 200-character text prefixes |
| Keys.EventWithSeparatorCollides | api/ai.js:38 | events containing `::` can collide (`"a::b"` with no text and `"a"` with text `"b::"`) |
| Extract.NormalizeReply | api/ai.js:88-89 | the result has exactly one choice; its content is `choices[0].message.content` when present and non-empty, otherwise `""` |
| Extract.NormalizeIdempotent | api/ai.js:88-89 | extracting again from a normalised result gives the same result |
| Extract.OnlyFirstChoiceMatters | api/ai.js:88 | choices after the first never change the result |
| LruCache.Lookup | api/ai.js:9-12 | the store reports a key's value while its entry is live, and nothing for a missing or expired entry |
| LruCache.Cache.constructor | api/ai.js:9-12 | a new store is empty, with the given capacity and time-to-live |
| LruCache.Cache.Has | api/ai.js:41 | `has` is true iff the key holds a live entry |
| LruCache.Cache.Get | api/ai.js:42 | `get` returns the live entry's value, or nothing |
| LruCache.Cache.Set | api/ai.js:92 | `set` maps the key to the new value stamped with the current time; other surviving entries are unchanged; at most one entry is evicted, only when a new key meets a full store; the size stays within capacity |
| LruCache.SetThenLookup | api/ai.js:11 | a value set is what lookups report until the time-to-live elapses, and nothing afterwards |
| LruCache.SetKeepsOtherLookups | api/ai.js:92 | a set leaves the answer for every other key that was not evicted unchanged |
| Handler.NewModuleCache | api/ai.js:9-12 | the module-level store is empty, holds at most 500 entries and keeps each for 30 days |
| Handler.Decide | api/ai.js:17-102 | a non-POST request gets 405 and only it does; no provider call is made exactly when the request is rejected (405, missing key) or hits a live entry; a cached answer is the live entry's value; a 502 carries the provider's status and body text of a non-ok reply; a 500 failure follows a thrown error or an unparsable ok reply; a store write happens only after a provider call, under the request's key, holding exactly the result returned with 200 |
| Handler.Handle | api/ai.js:17-102 | the handler's response and provider call are those of `Decide`; a request that stores nothing leaves the store unchanged; one that stores sets exactly the stored result under its key, stamped with the write instant `setAt`; one-choice results stay one-choice |
| Handler.NonPostRejected | api/ai.js:20-22 | a non-POST request gets 405 "Method not allowed"; no provider call; no store write; the store is never consulted |
| Handler.MissingKeyRejected | api/ai.js:25-30 | a POST without a non-empty API key gets 500 with the missing-key message; no provider call; no store write |
| Handler.HitServesStoredResult | api/ai.js:41-43 | a live entry under the key is returned as 200 with `cached: true`; no provider call; no store write |
| Handler.MissSendsResolvedRequest | api/ai.js:46-74 | on a miss the provider receives the resolved model and messages with temperature 0.6 and 400 max tokens |
| Handler.MissSuccessStoresResult | api/ai.js:86-94 | on a miss with an ok reply, the normalised result is returned as 200 and stored under the request's key |
| Handler.UpstreamFailurePassesThrough | api/ai.js:76-84 | on a miss with a non-ok reply, the response is 502 with the provider's status and body text; nothing is stored |
| Handler.StoreExactlyOnFreshAnswer | api/ai.js:76-101 | the store is written iff a fresh (non-cached) answer is returned, with exactly that result under the request's key and after a provider call; every non-200 response leaves the store alone |
| Handler.AnswersHaveOneChoice | api/ai.js:42-89 | if every stored result has one choice, then every answer and every stored value has exactly one choice |
| Handler.StorePreservesSingleChoice | api/ai.js:89-92 | storing a one-choice result keeps every stored result one-choice |
| Handler.RepeatedRequestHits | api/ai.js:38-92 | repeating a request whose answer was stored, within the time-to-live counted from the write instant, returns the same result with `cached: true` and makes no provider call |
| Handler.PromptScenario | api/ai.js:34-59 | `{ prompt: "What is 2+2?" }` is keyed `generic::What is 2+2?` and, on a miss, sends the persona and the prompt to `gpt-4o-mini` |

## Left out

- Network I/O is not modelled: `fetch`, request headers, `JSON.stringify` of the outbound body, `response.text()` and `response.json()`. The provider's outcome is a parameter. A failure of `response.text()` on a non-ok reply is not modelled. A failure of `response.json()` is the `Unparsable` outcome.
- Loading `OPENAI_API_KEY` from `process.env` is not modelled; the key is a parameter. The `res.status(...).json(...)` plumbing becomes the `Response` datatype.
- `console.error` logging is left out; it has only side effects.
- LruCache.Cache.Set: the store's own eviction choice (least recently used) is not modelled. The evicted entry is any one entry. Reads do not update recency.
- LruCache.Lookup: the store's exact expiry rule is not modelled. An entry counts as live while `now - storedAt <= ttl`. Expired entries are reported absent but are not purged on read.
- Extract.NormalizeReply: the provider's `choices[0].message.content` is typed as an optional string. A truthy non-string content (an array of parts, a number) passes through the source into the result and the store unchanged; that case is not modelled.
- Temperature is the exact real `0.6`, not a binary floating-point number.
- Body fields are typed as strings, and messages as role/content pairs. The errors JavaScript raises when a truthy field has another type are therefore not modelled. The same goes for a truthy non-object body.
- Characters are Unicode scalar values. `slice(0, 200)` in JavaScript counts UTF-16 code units, so for text outside the Basic Multilingual Plane the cut point can differ.
- Concurrency between requests is not modelled; each `Handle` call runs to completion. Two concurrent misses on one key can both call the provider.
