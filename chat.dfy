/**
 * Messages of the conversation, the request sent to the completion service and
 * its outcome (the message composition of generate_assistant_reply in app.py).
 * The service itself, a network call through a foreign SDK, is a parameter:
 * any function from requests to outcomes.
 */
module Chat {

  datatype Role = User | Assistant | System

  datatype Message = Message(role: Role, content: string)

  datatype Request = Request(model: string, messages: seq<Message>, temperature: real)

  /** What the completion service gives back: the reply text, or the error it raised. */
  datatype Completion = Success(text: string) | Failure(error: string)

  /** Whether the service client could be created; creating it fails, for one, without a key. */
  datatype ClientOutcome = Ready | Unavailable(error: string)

  const Fallback: string :=
    "I'm having trouble reaching the language model API. Please check your API key and try again."

  /** The log holds only user and assistant messages. */
  predicate NoSystemMessages(log: seq<Message>) {
    forall i :: 0 <= i < |log| ==> log[i].role != System
  }

  /** The request's messages: the system prompt first, then the history. */
  function ComposeMessages(systemPrompt: string, history: seq<Message>): seq<Message> {
    [Message(System, systemPrompt)] + history
  }

  /** The reply the service gives to a composed request. */
  function GenerateAssistantReply(
    service: Request -> Completion, model: string, systemPrompt: string,
    history: seq<Message>, temperature: real): Completion
  {
    service(Request(model, ComposeMessages(systemPrompt, history), temperature))
  }

  /** The text stored as the assistant's message after a call. */
  function ReplyText(c: Completion): string {
    match c
    case Success(text) => text
    case Failure(_) => Fallback
  }

  /**
   * A request composed over a log without system messages carries exactly one
   * system message, first, holding the prompt, and the history unchanged after it.
   */
  lemma ComposedRequestShape(systemPrompt: string, history: seq<Message>)
    requires NoSystemMessages(history)
    ensures var r := ComposeMessages(systemPrompt, history);
            |r| == |history| + 1
            && r[0].content == systemPrompt
            && (forall i :: 0 <= i < |r| ==> (r[i].role == System <==> i == 0))
            && r[1..] == history
  {
  }
}
