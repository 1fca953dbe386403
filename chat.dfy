/** The chat panel of the final screen: it owns the answer being typed and
    forwards it to the screen's `onSendMessage` prop on submit. */
module Chat {
  import opened Wrappers
  import JsText

  /** The submit guard `!userInput.trim() || isLoading` does not fire. */
  predicate Accepts(userInput: string, isLoading: bool) {
    !JsText.IsBlank(userInput) && !isLoading
  }

  /** A submit goes through exactly when nothing is loading and the input has a
      character that is not white space. */
  lemma AcceptsIff(userInput: string, isLoading: bool)
    ensures Accepts(userInput, isLoading) <==>
      !isLoading && exists i :: 0 <= i < |userInput| && !JsText.IsJsSpace(userInput[i])
  {
    JsText.BlankIffAllSpace(userInput);
  }

  class ChatBox {
    var userInput: string

    constructor ()
      ensures userInput == ""
    {
      userInput := "";
    }

    /** The input's `onChange`. */
    method SetUserInput(value: string)
      modifies this
      ensures userInput == value
    {
      userInput := value;
    }

    /** `handleSubmit`, given the `isLoading` prop. Returns the text passed to
        `onSendMessage`, or `None` when the guard returns early; an accepted
        submit clears the input and a rejected one leaves it as it was. */
    method HandleSubmit(isLoading: bool) returns (sent: Option<string>)
      modifies this
      ensures sent == if Accepts(old(userInput), isLoading) then Some(old(userInput)) else None
      ensures userInput == if sent.Some? then "" else old(userInput)
    {
      if JsText.IsBlank(userInput) || isLoading {
        return None;
      }
      sent := Some(userInput);
      userInput := "";
    }
  }
}
