/** The assistant chat window (components/Chatbot.tsx): its text box and the
    "typing" indicator. The messages list belongs to the caller and is passed
    in whenever it changes. */
module ChatWindow {
  import opened Wrappers
  import opened Text
  import opened Types

  /** What `handleSend` hands to `onSendMessage`: the trimmed text, and
      nothing for blank input. */
  function Forwarded(input: string): (sent: Option<string>)
    ensures sent.Some? <==> !IsBlank(input)
    ensures sent.Some? ==> sent.value != [] && Trimmed(sent.value) && sent.value == Trim(input)
  {
    TrimSpec(input);
    var t := Trim(input);
    if t != [] then Some(t) else None
  }

  /** Forwarding trimmed text again forwards the same text. */
  lemma ForwardIdempotent(input: string)
    requires Forwarded(input).Some?
    ensures Forwarded(Forwarded(input).value) == Forwarded(input)
  {
    TrimIdempotent(input);
  }

  /** The last message is a reply from the bot. */
  predicate BotHasReplied(messages: seq<ChatMessage>) {
    |messages| > 0 && messages[|messages| - 1].sender == Bot
  }

  class Chatbot {
    var input: string
    var isTyping: bool

    constructor()
      ensures input == "" && !isTyping
    {
      input := "";
      isTyping := false;
    }

    /** The Send button's `disabled` condition. */
    predicate SendDisabled()
      reads this
    {
      Trim(input) == []
    }

    /** The text box's `onChange`. */
    method Type(text: string)
      modifies this
      ensures input == text && isTyping == old(isTyping)
    {
      input := text;
    }

    /** `handleSend` (the button or the Enter key): forwards the trimmed
        text, then clears the box and shows the indicator; blank input
        changes nothing. */
    method Send() returns (sent: Option<string>)
      modifies this
      ensures sent == Forwarded(old(input))
      ensures sent.Some? ==> input == "" && isTyping
      ensures sent.None? ==> input == old(input) && isTyping == old(isTyping)
    {
      if Trim(input) != [] {
        sent := Some(Trim(input));
        input := "";
        isTyping := true;
      } else {
        sent := None;
      }
    }

    /** The effect on `messages`: a bot reply at the end hides the
        indicator; otherwise it stays as it was. */
    method MessagesChanged(messages: seq<ChatMessage>)
      modifies this
      ensures isTyping == (old(isTyping) && !BotHasReplied(messages))
      ensures input == old(input)
    {
      if |messages| > 0 && messages[|messages| - 1].sender == Bot {
        isTyping := false;
      }
    }
  }

  /** The button is disabled exactly when sending would forward nothing. */
  lemma SendDisabledExactlyWhenBlank(chat: Chatbot)
    ensures chat.SendDisabled() <==> Forwarded(chat.input).None?
  {
  }

  lemma PaddedGreeting()
    ensures Forwarded([' '] + "hi") == Some("hi")
  {
    var t := "hi";
    assert t[0] == 'h' && t[|t| - 1] == 'i';
    TrimOfTrimmed(t);
    TrimLeadingSpace(' ', t);
    assert Trim([' '] + t) == t;
  }

  /** A round of conversation: padded text goes out trimmed, the indicator
      shows until the bot's reply arrives, and a second press on the now
      empty box sends nothing. */
  method Conversation(history: seq<ChatMessage>, reply: ChatMessage)
    returns (first: Option<string>, second: Option<string>, typing: bool)
    requires reply.sender == Bot
    ensures first == Some("hi") && second == None && !typing
  {
    var chat := new Chatbot();
    chat.Type([' '] + "hi");
    PaddedGreeting();
    first := chat.Send();
    assert chat.isTyping;
    var asked := history + [ChatMessage("1", "hi", User)];
    chat.MessagesChanged(asked);
    assert chat.isTyping;
    chat.MessagesChanged(asked + [reply]);
    assert !chat.isTyping;
    assert chat.input == "";
    second := chat.Send();
    typing := chat.isTyping;
  }
}
