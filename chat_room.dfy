/** The chat room: a logged-in user's send appends the text as typed with
    the user's identity, and a message is drawn as the user's own when its
    `userId` is theirs. */
module ChatRoom {

  import opened Wrappers
  import opened Text
  import Seqs

  datatype Message = Message(id: string, userId: string, username: string, displayName: string, content: string, createdAt: string)

  /** The session user's fields the room reads. */
  datatype ChatUser = ChatUser(id: string, username: string, displayName: string)

  /** The guard of `handleSend`: something other than whitespace was typed
      and someone is logged in. */
  predicate CanSend(input: string, user: Option<ChatUser>)
  {
    !IsBlank(input) && user.Some?
  }

  /** The message built for `user`; the text is kept exactly as typed. */
  function NewMessage(input: string, user: ChatUser, id: string, createdAt: string): Message
  {
    Message(id, user.id, user.username, user.displayName, input, createdAt)
  }

  /** The log after a send attempt. */
  function AfterSend(log: seq<Message>, input: string, user: Option<ChatUser>, id: string, createdAt: string): seq<Message>
  {
    if CanSend(input, user) then log + [NewMessage(input, user.value, id, createdAt)] else log
  }

  /** `message.userId === user?.id`: with nobody logged in no message is
      anyone's own. */
  predicate IsOwn(m: Message, user: Option<ChatUser>)
  {
    user.Some? && m.userId == user.value.id
  }

  /** How many messages of the log are drawn on the user's side. */
  function OwnCount(log: seq<Message>, user: Option<ChatUser>): nat
  {
    Seqs.Count(log, (m: Message) => IsOwn(m, user))
  }

  /** A send attempt keeps the old log as a prefix and adds one message
      exactly when the guard holds; that message carries the typed text
      unchanged, whitespace included, and the sender's id, username and
      display name. */
  lemma AfterSendSpec(log: seq<Message>, input: string, user: Option<ChatUser>, id: string, createdAt: string)
    ensures var r := AfterSend(log, input, user, id, createdAt);
      && r[..|log|] == log
      && (|r| == |log| + 1 <==> CanSend(input, user))
      && (|r| == |log| <==> !CanSend(input, user))
      && (CanSend(input, user) ==>
            && r[|log|].content == input
            && r[|log|].userId == user.value.id
            && r[|log|].username == user.value.username
            && r[|log|].displayName == user.value.displayName
            && r[|log|].id == id && r[|log|].createdAt == createdAt)
  {
    var r := AfterSend(log, input, user, id, createdAt);
    if CanSend(input, user) {
      assert r[..|log|] == log;
    }
  }

  /** The message just sent is the sender's own and nobody else's, so the
      sender's own count grows by one and the count of any user with a
      different id stays put. */
  lemma {:induction false} SentMessageIsOwn(log: seq<Message>, input: string, sender: ChatUser, other: Option<ChatUser>, id: string, createdAt: string)
    requires CanSend(input, Some(sender))
    ensures IsOwn(NewMessage(input, sender, id, createdAt), Some(sender))
    ensures OwnCount(AfterSend(log, input, Some(sender), id, createdAt), Some(sender)) == OwnCount(log, Some(sender)) + 1
    ensures other.Some? && other.value.id != sender.id ==>
      OwnCount(AfterSend(log, input, Some(sender), id, createdAt), other) == OwnCount(log, other)
    ensures OwnCount(AfterSend(log, input, Some(sender), id, createdAt), None) == 0
  {
    var m := NewMessage(input, sender, id, createdAt);
    var p := (x: Message) => IsOwn(x, Some(sender));
    var q := (x: Message) => IsOwn(x, other);
    var n := (x: Message) => IsOwn(x, None);
    Seqs.CountAppend(log, [m], p);
    Seqs.CountAppend(log, [m], q);
    Seqs.CountAppend(log, [m], n);
    assert Seqs.Count([m], p) == 1;
    assert Seqs.Count([m], q) == (if q(m) then 1 else 0);
    NobodysOwn(log);
  }

  /** With nobody logged in, no message is drawn as one's own. */
  lemma {:induction false} NobodysOwn(log: seq<Message>)
    ensures OwnCount(log, None) == 0
  {
    if log != [] {
      NobodysOwn(log[1..]);
    }
  }

  class ChatRoomState {
    /** The session user, if any. */
    const user: Option<ChatUser>
    var messages: seq<Message>
    /** The text in the input box. */
    var newMessage: string

    constructor (user: Option<ChatUser>, initial: seq<Message>)
      ensures this.user == user && messages == initial && newMessage == ""
    {
      this.user := user;
      messages, newMessage := initial, "";
    }

    /** Typing into the input. */
    method SetNewMessage(value: string)
      modifies this`newMessage
      ensures newMessage == value
    {
      newMessage := value;
    }

    /** `handleSend`: a blank input or nobody logged in changes nothing;
        otherwise the message is appended and the input emptied. */
    method HandleSend(id: string, createdAt: string)
      modifies this`messages, this`newMessage
      ensures messages == AfterSend(old(messages), old(newMessage), user, id, createdAt)
      ensures !CanSend(old(newMessage), user) ==> newMessage == old(newMessage)
      ensures CanSend(old(newMessage), user) ==> newMessage == ""
    {
      var input := newMessage;
      if IsBlank(input) || user.None? {
        return;
      }
      var message := NewMessage(input, user.value, id, createdAt);
      messages := messages + [message];
      newMessage := "";
    }
  }
}
