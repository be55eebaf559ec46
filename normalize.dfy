/** Normalisation of the loosely-shaped request body (api/ai.js, lines 33-36
    and 46-59): the event, the identifying text, the model and the message
    list, each with its fallback. */
module Normalize {
  import opened Js

  const DefaultEvent := "generic"
  const DefaultModel := "gpt-4o-mini"
  const SystemPersona := "You are a helpful AI assistant for classroom support. Answer clearly and briefly."
  const FallbackPrompt := "Please provide a short answer."

  /** A chat message; in an explicit `messages` array the role is whatever the
      caller sent. */
  datatype Message = Message(role: string, content: string)

  /** The nested `payload` object of a body. */
  datatype Payload = Payload(transcriptChunk: Option<string>)

  /** The fields of a request body the handler reads; every one may be missing. */
  datatype Body = Body(
    event: Option<string>,
    payload: Option<Payload>,
    transcript: Option<string>,
    prompt: Option<string>,
    model: Option<string>,
    messages: Option<seq<Message>>)

  /** `{}`: the body used when the request carries none. */
  const EmptyBody := Body(None, None, None, None, None, None)

  /** `req.body || {}` */
  function BodyOf(raw: Option<Body>): (b: Body)
    ensures raw.None? ==> b == EmptyBody
    ensures raw.Some? ==> b == raw.value
  {
    if raw.Some? then raw.value else EmptyBody
  }

  /** `body.event || "generic"`: never empty. */
  function ResolveEvent(b: Body): (e: string)
    ensures e != ""
    ensures Truthy(b.event) ==> e == b.event.value
    ensures !Truthy(b.event) ==> e == DefaultEvent
  {
    Or(b.event, DefaultEvent)
  }

  /** `body.payload?.transcriptChunk` */
  function TranscriptChunk(b: Body): Option<string> {
    if b.payload.Some? then b.payload.value.transcriptChunk else None
  }

  /** The identifying text: `transcriptChunk || transcript || prompt || ""`.
      An empty string at one position falls through to the next one. */
  function ResolveText(b: Body): (t: string)
    ensures Truthy(TranscriptChunk(b)) ==> t == TranscriptChunk(b).value
    ensures !Truthy(TranscriptChunk(b)) && Truthy(b.transcript) ==> t == b.transcript.value
    ensures !Truthy(TranscriptChunk(b)) && !Truthy(b.transcript) && Truthy(b.prompt) ==> t == b.prompt.value
    ensures t == "" <==> !Truthy(TranscriptChunk(b)) && !Truthy(b.transcript) && !Truthy(b.prompt)
  {
    var cands := [TranscriptChunk(b), b.transcript, b.prompt];
    assert cands[..0] == [] && cands[..1] == [cands[0]] && cands[..2] == [cands[0], cands[1]];
    FirstTruthy(cands, "")
  }

  /** `body.model || "gpt-4o-mini"`: never empty. */
  function ResolveModel(b: Body): (m: string)
    ensures m != ""
    ensures Truthy(b.model) ==> m == b.model.value
    ensures !Truthy(b.model) ==> m == DefaultModel
  {
    Or(b.model, DefaultModel)
  }

  /** The conversation sent upstream: the caller's `messages` verbatim when
      present (an empty array included, since an array is always truthy), else a
      system persona followed by a user message holding `text`, or the fallback
      sentence when `text` is empty. */
  function ResolveMessages(b: Body, text: string): (ms: seq<Message>)
    ensures b.messages.Some? ==> ms == b.messages.value
    ensures b.messages.None? ==> |ms| == 2 && ms[0] == Message("system", SystemPersona) && ms[1].role == "user"
    ensures b.messages.None? ==> ms[1].content != ""
    ensures b.messages.None? && text != "" ==> ms[1].content == text
    ensures b.messages.None? && text == "" ==> ms[1].content == FallbackPrompt
  {
    if b.messages.Some? then b.messages.value
    else [Message("system", SystemPersona), Message("user", if text != "" then text else FallbackPrompt)]
  }

  /** Without explicit messages, the user message carries the fallback sentence
      exactly when the body has no identifying text, or when that text is the
      fallback sentence itself. */
  lemma FallbackExactlyWithoutText(b: Body)
    requires b.messages.None?
    ensures var ms := ResolveMessages(b, ResolveText(b));
      ms[1].content == FallbackPrompt
      <==> (!Truthy(TranscriptChunk(b)) && !Truthy(b.transcript) && !Truthy(b.prompt)) || ResolveText(b) == FallbackPrompt
  {
  }
}
