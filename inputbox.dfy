/** The chat input box: the text being typed, sent on demand when it is not
    blank. */
module InputBoxComponent {
  import opened Wrappers
  import opened Text

  class InputBox {
    var input: string

    constructor ()
      ensures input == ""
    {
      input := "";
    }

    /** Typing sets the input to the field's value. */
    method OnChange(value: string)
      modifies this
      ensures input == value
    {
      input := value;
    }

    /** `handleSend`: blank input is neither sent nor cleared; otherwise the
        input is handed to `onSend` once, untrimmed (the returned value), and
        the box is cleared. */
    method HandleSend() returns (sent: Option<string>)
      modifies this
      ensures IsBlank(old(input), JavaScript) ==> sent == None && input == old(input)
      ensures !IsBlank(old(input), JavaScript) ==> sent == Some(old(input)) && input == ""
    {
      TrimEmptyIffBlank(input, JavaScript);
      if Trim(input, JavaScript) != "" {
        sent := Some(input);
        input := "";
      } else {
        sent := None;
      }
    }
  }
}
