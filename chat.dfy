/** The legal chatbot's conversation view: the list of messages, to which a
    send adds the user's message and an assistant placeholder that the
    answer, or an error text, then replaces. */
module ChatInterfaceComponent {
  datatype Role = User | Assistant
  datatype Message = Message(role: Role, content: string)

  const Thinking := "Thinking..."
  const FetchFailed := "Error: Unable to fetch response."

  /** How the chatbot request ended. */
  datatype ChatOutcome = Reply(answer: string) | ChatFailed

  /** The assistant's final text for an outcome. */
  function ReplyText(outcome: ChatOutcome): (t: string)
    ensures outcome.Reply? ==> t == outcome.answer
    ensures outcome.ChatFailed? ==> t == FetchFailed
  {
    match outcome
    case Reply(answer) => answer
    case ChatFailed => FetchFailed
  }

  /** The conversation after one completed send, with no other send in
      between: two messages longer, everything before untouched, the user's
      message as typed, then the assistant's reply in place of the
      placeholder. */
  function AfterSend(history: seq<Message>, message: string, outcome: ChatOutcome): (r: seq<Message>)
    ensures |r| == |history| + 2
    ensures r[..|history|] == history
    ensures r[|history|] == Message(User, message)
    ensures r[|history| + 1] == Message(Assistant, ReplyText(outcome))
  {
    history + [Message(User, message), Message(Assistant, ReplyText(outcome))]
  }

  /** Only the last slot is ever overwritten: replacing it leaves every
      earlier message, the user's own included, as it was. */
  lemma {:induction false} ReplaceLastKeepsPrefix(messages: seq<Message>, m: Message)
    requires messages != []
    ensures var updated := messages[..|messages| - 1] + [m];
      |updated| == |messages| &&
      (forall k :: 0 <= k < |messages| - 1 ==> updated[k] == messages[k]) &&
      updated[|messages| - 1] == m
  {
  }

  class ChatInterface {
    var messages: seq<Message>

    constructor ()
      ensures messages == []
    {
      messages := [];
    }

    /** `handleSend` up to the request: the user's message, then the
        placeholder. */
    method BeginSend(message: string)
      modifies this
      ensures messages == old(messages) + [Message(User, message), Message(Assistant, Thinking)]
    {
      messages := messages + [Message(User, message)];
      messages := messages + [Message(Assistant, Thinking)];
    }

    /** `handleSend` after the request: the last message becomes the reply
        or the error text. On an empty list the assignment to index -1 adds
        no element. */
    method CompleteSend(outcome: ChatOutcome)
      modifies this
      ensures old(messages) == [] ==> messages == []
      ensures old(messages) != [] ==>
        messages == old(messages)[..|old(messages)| - 1] + [Message(Assistant, ReplyText(outcome))]
    {
      if messages != [] {
        var updated := messages;
        updated := updated[|updated| - 1 := Message(Assistant, ReplyText(outcome))];
        messages := updated;
      }
    }

    /** A send followed by its completion. */
    method HandleSend(message: string, outcome: ChatOutcome)
      modifies this
      ensures messages == AfterSend(old(messages), message, outcome)
    {
      BeginSend(message);
      CompleteSend(outcome);
    }
  }
}
