/** Cache-key derivation (api/ai.js, line 38): the resolved event, a `::`
    separator and the first 200 characters of the identifying text, taken
    before the fallback sentence is substituted. */
module Keys {
  import opened Js
  import opened Normalize

  const KeyTextLength: nat := 200
  const Separator := "::"

  /** `s.slice(0, n)` */
  function Prefix(s: string, n: nat): (p: string)
    ensures |p| == if |s| < n then |s| else n
    ensures p == s[..|p|]
  {
    if |s| <= n then s else s[..n]
  }

  /** `${event}::${text.slice(0, 200)}`: the key starts with the event and the
      separator, and what follows is the longest prefix of `text` that fits in
      200 characters. */
  function CacheKey(event: string, text: string): (k: string)
    ensures |k| <= |event| + |Separator| + KeyTextLength
    ensures |k| >= |event| + |Separator|
    ensures k[..|event|] == event && k[|event|..|event| + 2] == Separator
    ensures k[|event| + 2..] == Prefix(text, KeyTextLength)
  {
    event + Separator + Prefix(text, KeyTextLength)
  }

  /** The key the handler derives from a body. */
  function KeyOf(b: Body): string {
    CacheKey(ResolveEvent(b), ResolveText(b))
  }

  /** Two bodies with the same resolved event and the same first 200 characters
      of identifying text share a key, whatever their other fields. */
  lemma SameEventAndPrefixSameKey(b1: Body, b2: Body)
    requires ResolveEvent(b1) == ResolveEvent(b2)
    requires Prefix(ResolveText(b1), KeyTextLength) == Prefix(ResolveText(b2), KeyTextLength)
    ensures KeyOf(b1) == KeyOf(b2)
  {
  }

  /** Text beyond the 200th character never reaches the key. */
  lemma {:induction false} KeyIgnoresTextBeyondLimit(event: string, text: string, tail: string)
    requires |text| >= KeyTextLength
    ensures CacheKey(event, text + tail) == CacheKey(event, text)
  {
    assert (text + tail)[..KeyTextLength] == text[..KeyTextLength];
  }

  /** A body without identifying text is keyed by its event alone: the fallback
      sentence sent upstream does not leak into the key. */
  lemma TextlessKey(b: Body)
    requires !Truthy(TranscriptChunk(b)) && !Truthy(b.transcript) && !Truthy(b.prompt)
    ensures KeyOf(b) == ResolveEvent(b) + Separator
    ensures b.messages.None? ==> ResolveMessages(b, ResolveText(b))[1].content == FallbackPrompt
  {
  }

  /** The two halves of a key. */
  datatype KeyParts = KeyParts(event: string, textPrefix: string)

  /** Splits a key at its first `::`. */
  function SplitKey(k: string): (r: Option<KeyParts>)
    decreases |k|
  {
    if |k| < 2 then None
    else if k[..2] == Separator then Some(KeyParts("", k[2..]))
    else match SplitKey(k[1..])
      case None => None
      case Some(p) => Some(KeyParts([k[0]] + p.event, p.textPrefix))
  }

  /** For an event without a colon the key can be split back into the event and
      the text prefix it was built from. */
  lemma {:induction false} SplitCacheKey(event: string, text: string)
    requires ':' !in event
    ensures SplitKey(CacheKey(event, text)) == Some(KeyParts(event, Prefix(text, KeyTextLength)))
  {
    var k := CacheKey(event, text);
    if event == [] {
      assert k[..2] == Separator;
    } else {
      assert event[0] in event;
      assert k[..2] != Separator by { assert k[..2][0] == event[0]; }
      assert k[1..] == CacheKey(event[1..], text);
      assert forall c :: c in event[1..] ==> c in event;
      SplitCacheKey(event[1..], text);
      assert [event[0]] + event[1..] == event;
    }
  }

  /** Among colon-free events, equal keys mean equal events and equal text
      prefixes. */
  lemma KeyInjectiveOnColonFreeEvents(e1: string, t1: string, e2: string, t2: string)
    requires ':' !in e1 && ':' !in e2
    requires CacheKey(e1, t1) == CacheKey(e2, t2)
    ensures e1 == e2
    ensures Prefix(t1, KeyTextLength) == Prefix(t2, KeyTextLength)
  {
    SplitCacheKey(e1, t1);
    SplitCacheKey(e2, t2);
  }

  /** An event containing the separator can collide with another event: the
      colon-free hypothesis above is needed. */
  lemma EventWithSeparatorCollides()
    ensures CacheKey("a::b", "") == CacheKey("a", "b::")
  {
  }
}
