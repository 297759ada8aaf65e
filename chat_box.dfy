/** The community chat box: sending a message appends it to the log with
    its text trimmed and its author's display name, or "Bạn". */
module ChatBox {

  import opened Wrappers
  import opened Text

  datatype Message = Message(id: string, displayName: string, content: string, createdAt: string)

  /** The name shown for a sender without a display name. */
  const FallbackName := "Bạn"

  /** The input's `maxLength`: the browser refuses typing beyond it. */
  const MaxMessageLength := 500

  /** The guard of `handleSend`: something other than whitespace was typed
      and no send is in progress. */
  predicate CanSend(input: string, isSending: bool)
  {
    !IsBlank(input) && !isSending
  }

  /** The message built from the input; `id` and `createdAt` stand for
      `Date.now().toString()` and `new Date().toISOString()`. */
  function NewMessage(input: string, displayName: Option<string>, id: string, createdAt: string): Message
  {
    Message(id, OrElse(displayName, FallbackName), Trim(input), createdAt)
  }

  /** The stored text is the input with the whitespace around it cut away:
      when the input is not blank it is non-empty and trimming it again
      changes nothing; the author is the display name when it is non-empty,
      else "Bạn". */
  lemma NewMessageSpec(input: string, displayName: Option<string>, id: string, createdAt: string)
    requires !IsBlank(input)
    ensures var m := NewMessage(input, displayName, id, createdAt);
      && m.content != "" && |m.content| <= |input|
      && Trim(m.content) == m.content
      && !IsSpace(m.content[0]) && !IsSpace(m.content[|m.content| - 1])
      && (IsTruthy(displayName) ==> m.displayName == displayName.value)
      && (!IsTruthy(displayName) ==> m.displayName == FallbackName)
      && m.id == id && m.createdAt == createdAt
  {
    TrimSlice(input);
    TrimIdempotent(input);
  }

  /** The log after a send attempt. */
  function AfterSend(log: seq<Message>, input: string, isSending: bool, displayName: Option<string>, id: string, createdAt: string): seq<Message>
  {
    if CanSend(input, isSending) then log + [NewMessage(input, displayName, id, createdAt)] else log
  }

  /** Every message holds non-blank text with no whitespace around it. */
  predicate AllTrimmed(log: seq<Message>)
  {
    forall i :: 0 <= i < |log| ==> log[i].content != "" && Trim(log[i].content) == log[i].content
  }

  /** A send attempt never rewrites or drops earlier messages: the old log
      is a prefix of the new one, which is at most one message longer, and it
      is longer exactly when the guard lets the send through; a log of
      trimmed messages stays one. */
  lemma AfterSendAppendOnly(log: seq<Message>, input: string, isSending: bool, displayName: Option<string>, id: string, createdAt: string)
    ensures var r := AfterSend(log, input, isSending, displayName, id, createdAt);
      && r[..|log|] == log
      && (|r| == |log| + 1 <==> CanSend(input, isSending))
      && (|r| == |log| <==> !CanSend(input, isSending))
      && (AllTrimmed(log) ==> AllTrimmed(r))
  {
    var r := AfterSend(log, input, isSending, displayName, id, createdAt);
    if CanSend(input, isSending) {
      NewMessageSpec(input, displayName, id, createdAt);
      assert r[..|log|] == log;
    }
  }

  class ChatBoxState {
    /** `user?.displayName` from the session. */
    const userDisplayName: Option<string>
    var messages: seq<Message>
    /** The text in the input box. */
    var message: string
    var isSending: bool

    constructor (userDisplayName: Option<string>, initial: seq<Message>)
      ensures this.userDisplayName == userDisplayName
      ensures messages == initial && message == "" && !isSending
    {
      this.userDisplayName := userDisplayName;
      messages, message, isSending := initial, "", false;
    }

    /** Typing into the input, which holds at most `MaxMessageLength`
        characters. */
    method SetMessage(value: string)
      requires |value| <= MaxMessageLength
      modifies this`message
      ensures message == value
    {
      message := value;
    }

    /** `handleSend`: a blank input or a send in progress changes nothing;
        otherwise the message is appended, the input is emptied and the
        sending flag is back to false. */
    method HandleSend(id: string, createdAt: string)
      modifies this`messages, this`message, this`isSending
      ensures messages == AfterSend(old(messages), old(message), old(isSending), userDisplayName, id, createdAt)
      ensures !CanSend(old(message), old(isSending)) ==>
        message == old(message) && isSending == old(isSending)
      ensures CanSend(old(message), old(isSending)) ==> message == "" && !isSending
    {
      var input := message;
      if IsBlank(input) || isSending {
        return;
      }
      isSending := true;
      var newMsg := NewMessage(input, userDisplayName, id, createdAt);
      messages := messages + [newMsg];
      message := "";
      isSending := false;
    }
  }
}
