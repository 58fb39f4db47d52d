/** The question form of the document Q&A page: the typed question, the
    form's error and the loading flag. `handleAsk` is split at its `await`
    into `StartAsk` and `FinishAsk`. */
module QnAComponent {
  import opened Wrappers
  import opened Text

  const InvalidQuestion := "Please enter a valid question."
  const RequestFailed := "Failed to get a response. Please try again."

  /** How the request ended: the `response` field of the reply, or an error. */
  datatype AskOutcome = Answer(response: string) | RequestError

  class QnA {
    var question: string
    var error: Option<string>
    var loading: bool

    constructor ()
      ensures question == "" && error == None && !loading
    {
      question := "";
      error := None;
      loading := false;
    }

    /** Typing sets the question to the field's value. */
    method Type(value: string)
      modifies this
      ensures question == value && error == old(error) && loading == old(loading)
    {
      question := value;
    }

    /** `handleAsk` up to the request: while a request is in flight nothing
        happens; a blank question only sets the error; otherwise the error is
        cleared and `loading` set before the request goes out. The question
        itself is never touched. */
    method StartAsk() returns (sent: bool)
      modifies this
      ensures question == old(question)
      ensures old(loading) ==> !sent && loading && error == old(error)
      ensures !old(loading) && IsBlank(question, JavaScript) ==> !sent && !loading && error == Some(InvalidQuestion)
      ensures !old(loading) && !IsBlank(question, JavaScript) ==> sent && loading && error == None
    {
      if loading {
        return false;
      }
      TrimEmptyIffBlank(question, JavaScript);
      if Trim(question, JavaScript) == "" {
        error := Some(InvalidQuestion);
        return false;
      }
      error := None;
      loading := true;
      sent := true;
    }

    /** `handleAsk` from the reply on: an answer goes to `onResponse` (the
        returned value), an error sets the form's error; `loading` ends false
        either way and the question is kept. */
    method FinishAsk(outcome: AskOutcome) returns (delivered: Option<string>)
      modifies this
      ensures question == old(question) && !loading
      ensures outcome.Answer? ==> delivered == Some(outcome.response) && error == old(error)
      ensures outcome.RequestError? ==> delivered == None && error == Some(RequestFailed)
    {
      delivered := None;
      match outcome {
        case Answer(response) => delivered := Some(response);
        case RequestError => error := Some(RequestFailed);
      }
      loading := false;
    }
  }
}
