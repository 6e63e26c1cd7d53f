/**
 * The `/api/openai` proxy as both the form page and the chat hook use it: the request body they
 * post and the one place of the reply they read.
 */
module OpenAI {
  import opened Wrappers

  /** The `temperature` number, carried as its literal and never computed with. */
  datatype Temperature = Temperature(literal: string)

  /** The JSON body of `POST /api/openai`. */
  datatype ChatBody = ChatBody(prompt: string, model: string, system: string, temperature: Temperature)

  /** The reply body `{ choices: [ { message: { content } } ] }`; every link may be null. */
  datatype Message = Message(content: Option<string>)
  datatype Choice = Choice(message: Option<Message>)
  datatype ChatReply = ChatReply(choices: Option<seq<Option<Choice>>>)

  /** Every link of `reply?.choices?.[0]?.message?.content` exists and the content is `text`. */
  predicate Carries(reply: Option<ChatReply>, text: string) {
    && reply.Some?
    && reply.value.choices.Some?
    && |reply.value.choices.value| > 0
    && reply.value.choices.value[0].Some?
    && reply.value.choices.value[0].value.message.Some?
    && reply.value.choices.value[0].value.message.value.content == Some(text)
  }

  /**
   * `res?.data?.choices?.[0]?.message?.content ?? ""`: the content the reply carries,
   * or `""` when some link of the chain is missing.
   */
  function ExtractContent(reply: Option<ChatReply>): (text: string)
    ensures Carries(reply, text) || (text == "" && forall t :: !Carries(reply, t))
  {
    match reply
    case None => ""
    case Some(r) =>
      match r.choices
      case None => ""
      case Some(cs) =>
        if |cs| == 0 then ""
        else match cs[0]
          case None => ""
          case Some(c) =>
            match c.message
            case None => ""
            case Some(m) => m.content.GetOr("")
  }

  /** The well-formed reply whose first choice says `text`. */
  function ReplyWith(text: string): ChatReply {
    ChatReply(Some([Some(Choice(Some(Message(Some(text)))))]))
  }

  /** Extraction reads back exactly what a well-formed reply says, the empty text included. */
  lemma ExtractReplyWith(text: string)
    ensures ExtractContent(Some(ReplyWith(text))) == text
  {
    assert Carries(Some(ReplyWith(text)), text);
  }
}
