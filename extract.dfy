/** Response extraction (api/ai.js, lines 88-89): the first choice's message
    content, or the empty string, wrapped as the single choice of the result
    the gateway returns and caches. */
module Extract {
  import opened Js

  /** The parts of the provider's parsed reply that extraction walks; each
      level may be missing. A `null` element of `choices` reads like a choice
      without a message. */
  datatype RawMessage = RawMessage(content: Option<string>)
  datatype RawChoice = RawChoice(message: Option<RawMessage>)
  datatype RawReply = RawReply(choices: Option<seq<RawChoice>>)

  /** The gateway's result: `{ choices: [{ message: { content } }] }`. */
  datatype AnswerMessage = AnswerMessage(content: string)
  datatype Choice = Choice(message: AnswerMessage)
  datatype Completion = Completion(choices: seq<Choice>)

  /** `data?.choices?.[0]?.message?.content` */
  function FirstContent(data: Option<RawReply>): Option<string> {
    if data.None? then None
    else if data.value.choices.None? || |data.value.choices.value| == 0 then None
    else if data.value.choices.value[0].message.None? then None
    else data.value.choices.value[0].message.value.content
  }

  /** `{ choices: [{ message: { content } }] }` for `content = FirstContent(data) || ""`:
      exactly one choice, whose content is the first choice's content when that
      is present and non-empty, and the empty string otherwise. */
  function NormalizeReply(data: Option<RawReply>): (r: Completion)
    ensures |r.choices| == 1
    ensures Truthy(FirstContent(data)) ==> r.choices[0].message.content == FirstContent(data).value
    ensures !Truthy(FirstContent(data)) ==> r.choices[0].message.content == ""
  {
    Completion([Choice(AnswerMessage(Or(FirstContent(data), "")))])
  }

  /** The reply a client parses back from a serialised result. */
  function AsRaw(c: Completion): (raw: RawReply)
    ensures raw.choices.Some? && |raw.choices.value| == |c.choices|
  {
    RawReply(Some(seq(|c.choices|, i requires 0 <= i < |c.choices| =>
      RawChoice(Some(RawMessage(Some(c.choices[i].message.content)))))))
  }

  /** Normalising is idempotent: extracting from an already normalised result
      yields that result again. */
  lemma NormalizeIdempotent(data: Option<RawReply>)
    ensures NormalizeReply(Some(AsRaw(NormalizeReply(data)))) == NormalizeReply(data)
  {
    var r := NormalizeReply(data);
    assert FirstContent(Some(AsRaw(r))) == Some(r.choices[0].message.content);
  }

  /** Only the first choice matters: choices after it never change the result. */
  lemma OnlyFirstChoiceMatters(first: RawChoice, rest: seq<RawChoice>)
    ensures NormalizeReply(Some(RawReply(Some([first] + rest)))) == NormalizeReply(Some(RawReply(Some([first]))))
  {
  }
}
