/** The chat moderation page: approving and deleting a message by id, the
    search box with its "flagged only" switch, and the three stat cards. */
module AdminMessages {

  import opened Text
  import Seqs

  datatype Status = Normal | Flagged | Deleted

  datatype ChatMessage = ChatMessage(
    id: string, userId: string, username: string, displayName: string,
    content: string, createdAt: string, status: Status)

  /** `messages.map((msg) => (msg.id === id ? { ...msg, status } : msg))`:
      every message carrying the id takes the new status. */
  function SetStatus(messages: seq<ChatMessage>, id: string, status: Status): (r: seq<ChatMessage>)
    ensures |r| == |messages|
  {
    seq(|messages|, i requires 0 <= i < |messages| =>
      if messages[i].id == id then messages[i].(status := status) else messages[i])
  }

  /** Only the status of the messages with that id changes; the other
      messages and every other field are left alone. */
  lemma SetStatusSpec(messages: seq<ChatMessage>, id: string, status: Status)
    ensures var r := SetStatus(messages, id, status);
      forall i :: 0 <= i < |messages| ==>
        && r[i].(status := messages[i].status) == messages[i]
        && (messages[i].id == id ==> r[i].status == status)
        && (messages[i].id != id ==> r[i] == messages[i])
  {
  }

  /** Setting the same status twice is setting it once. */
  lemma SetStatusIdempotent(messages: seq<ChatMessage>, id: string, status: Status)
    ensures SetStatus(SetStatus(messages, id, status), id, status) == SetStatus(messages, id, status)
  {
  }

  /** With distinct ids, setting the status of one message's id is updating
      that one position. */
  lemma SetStatusAt(messages: seq<ChatMessage>, k: nat, status: Status)
    requires k < |messages|
    requires forall i, j :: 0 <= i < j < |messages| ==> messages[i].id != messages[j].id
    ensures SetStatus(messages, messages[k].id, status) == messages[k := messages[k].(status := status)]
  {
  }

  /** `handleApprove`: the message is set back to normal. */
  function Approve(messages: seq<ChatMessage>, id: string): seq<ChatMessage>
  {
    SetStatus(messages, id, Normal)
  }

  /** `handleDelete`: the message is kept and marked deleted. */
  function Delete(messages: seq<ChatMessage>, id: string): seq<ChatMessage>
  {
    SetStatus(messages, id, Deleted)
  }

  /** The "Duyệt" button is shown only on a flagged message. */
  predicate CanApprove(m: ChatMessage)
  {
    m.status == Flagged
  }

  /** The "Xóa" button is shown on every message not yet deleted. */
  predicate CanDelete(m: ChatMessage)
  {
    m.status != Deleted
  }

  /** A button pressed on the message at index `k`. */
  datatype Action = ApproveAt(k: nat) | DeleteAt(k: nat)

  predicate Shown(messages: seq<ChatMessage>, a: Action)
  {
    match a
    case ApproveAt(k) => k < |messages| && CanApprove(messages[k])
    case DeleteAt(k) => k < |messages| && CanDelete(messages[k])
  }

  function Apply(messages: seq<ChatMessage>, a: Action): seq<ChatMessage>
    requires Shown(messages, a)
  {
    match a
    case ApproveAt(k) => Approve(messages, messages[k].id)
    case DeleteAt(k) => Delete(messages, messages[k].id)
  }

  /** A deleted message has no buttons, so with distinct ids no button
      brings it back; a flagged one can only be approved or deleted. */
  lemma DeletedIsFinal(messages: seq<ChatMessage>, a: Action)
    requires Shown(messages, a)
    requires forall i, j :: 0 <= i < j < |messages| ==> messages[i].id != messages[j].id
    ensures forall i :: 0 <= i < |messages| && messages[i].status == Deleted ==>
      Apply(messages, a)[i] == messages[i]
    ensures forall i :: 0 <= i < |messages| && messages[i].status == Normal ==>
      Apply(messages, a)[i].status != Flagged
  {
  }

  /** When two messages share an id, approving the flagged one also brings
      back a deleted one. */
  lemma ApproveRestoresDuplicate(m: ChatMessage, d: ChatMessage)
    requires m.status == Flagged && d.status == Deleted && m.id == d.id
    ensures var r := Apply([m, d], ApproveAt(0));
      r[1].status == Normal
  {
  }

  /** `filter`: all messages, or only the flagged ones. */
  datatype Mode = All | FlaggedOnly

  /** The search box: content or display name contains the query, ignoring
      case. */
  predicate MatchesSearch(m: ChatMessage, query: string)
  {
    ContainsIgnoringCase(m.content, query) || ContainsIgnoringCase(m.displayName, query)
  }

  predicate Visible(m: ChatMessage, query: string, mode: Mode)
  {
    MatchesSearch(m, query) && (mode == All || m.status == Flagged)
  }

  /** `filteredMessages` */
  function Filtered(messages: seq<ChatMessage>, query: string, mode: Mode): seq<ChatMessage>
  {
    Seqs.Filter(messages, (m: ChatMessage) => Visible(m, query, mode))
  }

  /** The list shows exactly the matching messages, in order and each as
      often as it occurs; the flagged mode shows only flagged ones, and with
      no query the "all" mode shows every message, deleted ones included. */
  lemma FilteredSpec(messages: seq<ChatMessage>, query: string, mode: Mode)
    ensures forall m :: m in Filtered(messages, query, mode) <==> m in messages && Visible(m, query, mode)
    ensures Seqs.Subseq(Filtered(messages, query, mode), messages)
    ensures |Filtered(messages, query, mode)| == Seqs.Count(messages, (m: ChatMessage) => Visible(m, query, mode))
    ensures mode == FlaggedOnly ==> forall m :: m in Filtered(messages, query, mode) ==> m.status == Flagged
    ensures query == "" && mode == All ==> Filtered(messages, query, mode) == messages
  {
    var p := (m: ChatMessage) => Visible(m, query, mode);
    Seqs.FilterLength(messages, p);
    forall m ensures m in Filtered(messages, query, mode) <==> m in messages && Visible(m, query, mode) {
      Seqs.FilterMembership(messages, p, m);
    }
    Seqs.FilterIsSubseq(messages, p);
    if query == "" && mode == All {
      forall i | 0 <= i < |messages| ensures p(messages[i]) {
        EmptyQueryMatches(messages[i].content);
      }
      Seqs.FilterKeepsAll(messages, p);
    }
  }

  /** Turning on the flagged mode narrows the list of the "all" mode. */
  lemma FlaggedModeNarrows(messages: seq<ChatMessage>, query: string)
    ensures Filtered(messages, query, FlaggedOnly)
      == Seqs.Filter(Filtered(messages, query, All), IsFlagged)
  {
    var p := (m: ChatMessage) => Visible(m, query, All);
    var f := (m: ChatMessage) => Visible(m, query, FlaggedOnly);
    assert Filtered(messages, query, All) == Seqs.Filter(messages, p);
    assert Filtered(messages, query, FlaggedOnly) == Seqs.Filter(messages, f);
    Seqs.FilterFilter(messages, p, IsFlagged, f);
  }

  function IsFlagged(m: ChatMessage): bool { m.status == Flagged }
  function IsDeleted(m: ChatMessage): bool { m.status == Deleted }

  /** The stat cards count over all messages, whatever the list shows. */
  datatype Stats = Stats(total: nat, flagged: nat, deleted: nat)

  function StatsOf(messages: seq<ChatMessage>): Stats
  {
    Stats(|messages|, Seqs.Count(messages, IsFlagged), Seqs.Count(messages, IsDeleted))
  }

  /** With distinct ids, approving a flagged message lowers the flagged count
      by one, and deleting a message raises the deleted count by one and
      lowers the flagged count when it was flagged; the total never changes. */
  lemma StatsAfterAction(messages: seq<ChatMessage>, a: Action)
    requires Shown(messages, a)
    requires forall i, j :: 0 <= i < j < |messages| ==> messages[i].id != messages[j].id
    ensures var before, after := StatsOf(messages), StatsOf(Apply(messages, a));
      && after.total == before.total
      && (a.ApproveAt? ==> after.flagged == before.flagged - 1 && after.deleted == before.deleted)
      && (a.DeleteAt? ==>
            after.deleted == before.deleted + 1
            && after.flagged == before.flagged - (if messages[a.k].status == Flagged then 1 else 0))
  {
    var k := a.k;
    var st := if a.ApproveAt? then Normal else Deleted;
    SetStatusAt(messages, k, st);
    Seqs.CountUpdate(messages, k, messages[k].(status := st), IsFlagged);
    Seqs.CountUpdate(messages, k, messages[k].(status := st), IsDeleted);
  }

  class AdminMessagesPage {
    var messages: seq<ChatMessage>
    var searchQuery: string
    var filter: Mode

    constructor (initial: seq<ChatMessage>)
      ensures messages == initial && searchQuery == "" && filter == All
    {
      messages, searchQuery, filter := initial, "", All;
    }

    /** `handleApprove(id)` */
    method HandleApprove(id: string)
      modifies this`messages
      ensures messages == Approve(old(messages), id)
    {
      messages := Approve(messages, id);
    }

    /** `handleDelete(id)` */
    method HandleDelete(id: string)
      modifies this`messages
      ensures messages == Delete(old(messages), id)
    {
      messages := Delete(messages, id);
    }

    /** The "Cần xem xét" button switches between the two modes. */
    method ToggleFilter()
      modifies this`filter
      ensures old(filter) == All <==> filter == FlaggedOnly
    {
      filter := if filter == All then FlaggedOnly else All;
    }
  }
}
