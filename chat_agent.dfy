/** The chat panel (`ChatAgent`): a list of messages and the text being
    typed. Sending appends the typed text as the user's message, provided
    it is not only white space, and empties the input; no replies are
    produced. */
module ChatAgent {
  import opened Text

  datatype Message = Message(text: string, sender: string)

  const UserSender: string := "user"

  /** `input.trim() !== ''`: the input holds something besides white
      space. */
  function Sendable(input: string): (b: bool)
    ensures b <==> exists i :: 0 <= i < |input| && !IsSpace(input[i])
  {
    TrimEmptyIff(input);
    Trim(input) != ""
  }

  class Chat {
    var messages: seq<Message>
    var input: string

    /** Every message on the list was sent by the user. */
    ghost predicate Valid()
      reads this
    {
      forall i :: 0 <= i < |messages| ==> messages[i].sender == UserSender
    }

    constructor ()
      ensures messages == [] && input == ""
      ensures Valid()
    {
      messages := [];
      input := "";
    }

    /** `handleInputChange`: the input shows exactly what was typed. */
    method HandleInputChange(value: string)
      modifies this
      ensures input == value && messages == old(messages)
    {
      input := value;
    }

    /** `handleSendMessage`: a sendable input is appended, untrimmed, as
        the user's message and the input is emptied; otherwise nothing
        changes. */
    method HandleSendMessage() returns (sent: bool)
      requires Valid()
      modifies this
      ensures Valid()
      ensures sent <==> Sendable(old(input))
      ensures sent ==> messages == old(messages) + [Message(old(input), UserSender)] && input == ""
      ensures !sent ==> messages == old(messages) && input == old(input)
    {
      sent := Trim(input) != "";
      if sent {
        messages := messages + [Message(input, UserSender)];
        input := "";
      }
    }

    /** The input's key handler: Enter sends, any other key does nothing
        here. */
    method HandleKeyPress(key: string) returns (sent: bool)
      requires Valid()
      modifies this
      ensures Valid()
      ensures key != "Enter" ==> !sent && messages == old(messages) && input == old(input)
      ensures key == "Enter" ==> (sent <==> Sendable(old(input)))
      ensures key == "Enter" && sent ==>
                messages == old(messages) + [Message(old(input), UserSender)] && input == ""
      ensures key == "Enter" && !sent ==> messages == old(messages) && input == old(input)
    {
      sent := false;
      if key == "Enter" {
        sent := HandleSendMessage();
      }
    }
  }

  /** Typing white space and sending leaves the conversation as it was,
      with the typed text still in the input; typing a word and sending
      adds it, untrimmed, as the last message and empties the input. */
  method TypeAndSend(chat: Chat, typed: string) returns (sent: bool)
    requires chat.Valid()
    modifies chat
    ensures chat.Valid()
    ensures sent <==> Sendable(typed)
    ensures chat.messages == old(chat.messages) + (if sent then [Message(typed, UserSender)] else [])
    ensures chat.input == (if sent then "" else typed)
  {
    chat.HandleInputChange(typed);
    sent := chat.HandleSendMessage();
  }
}
