/**
 * The transcript of the chat panel as values: its entries and the list
 * operations the panel applies to them inside its state setter
 * (src/view/component/ChatContent.tsx).
 */
module Transcript {
  import opened Wrappers

  /** U+258D, the cursor that stands in for a reply that has not started yet. */
  const Cursor: char := '\U{258D}'

  /**
   * One entry: `loading` marks the reply placeholder; `createAt` is present
   * only for entries loaded from history.
   */
  datatype MessageItem = MessageItem(id: string, content: string, isUser: bool, loading: bool, createAt: Option<string>)

  /** One stored message as the history endpoint returns it. */
  datatype HistoryMessage = HistoryMessage(messageId: string, content: string, role: string, createdAt: string)

  predicate EndsWithCursor(s: string) {
    |s| > 0 && s[|s| - 1] == Cursor
  }

  /** Every entry still loading is an assistant entry that shows only the cursor. */
  ghost predicate WellFormed(ms: seq<MessageItem>) {
    forall k :: 0 <= k < |ms| && ms[k].loading ==> ms[k].content == [Cursor] && !ms[k].isUser
  }

  /** `addMessage`: appends one entry; a loading entry shows the cursor whatever `content` is. */
  function AddMessage(prev: seq<MessageItem>, id: string, content: string, isUser: bool, loading: bool): (r: seq<MessageItem>)
    ensures |r| == |prev| + 1 && r[..|prev|] == prev
    ensures r[|prev|].content == (if loading then [Cursor] else content)
    ensures r[|prev|].id == id && r[|prev|].isUser == isUser && r[|prev|].loading == loading
    ensures r[|prev|].createAt == None
    ensures WellFormed(prev) && (loading ==> !isUser) ==> WellFormed(r)
  {
    prev + [MessageItem(id, if loading then [Cursor] else content, isUser, loading, None)]
  }

  /**
   * `updateLastMessage`: the last entry loses a trailing cursor, gains the
   * fragment and stops loading; an empty transcript is returned as it is.
   */
  function UpdateLastMessage(prev: seq<MessageItem>, fragment: string): (r: seq<MessageItem>)
    ensures |r| == |prev|
    ensures prev == [] ==> r == prev
    ensures prev != [] ==> r[..|prev| - 1] == prev[..|prev| - 1]
    ensures prev != [] ==>
      var last, next := prev[|prev| - 1], r[|prev| - 1];
      && next.id == last.id && next.isUser == last.isUser && next.createAt == last.createAt
      && !next.loading
      && (EndsWithCursor(last.content) ==> next.content == last.content[..|last.content| - 1] + fragment)
      && (!EndsWithCursor(last.content) ==> next.content == last.content + fragment)
    ensures WellFormed(prev) ==> WellFormed(r)
  {
    if prev == [] then prev
    else
      var last := prev[|prev| - 1];
      var content := if EndsWithCursor(last.content) then last.content[..|last.content| - 1] + fragment else last.content + fragment;
      prev[..|prev| - 1] + [last.(content := content, loading := false)]
  }

  /** The error rollback `prev.slice(0, -1)`: drops the last entry, if any. */
  function DropLast(prev: seq<MessageItem>): (r: seq<MessageItem>)
    ensures prev == [] ==> r == []
    ensures prev != [] ==> r + [prev[|prev| - 1]] == prev
    ensures WellFormed(prev) ==> WellFormed(r)
  {
    if prev == [] then [] else prev[..|prev| - 1]
  }

  /** One history record as the panel shows it. */
  function FromRecord(m: HistoryMessage): MessageItem {
    MessageItem(m.messageId, m.content, m.role == "user", false, Some(m.createdAt))
  }

  /** The history mapping: record by record, in order, none of them loading. */
  function FromHistory(history: seq<HistoryMessage>): (r: seq<MessageItem>)
    ensures |r| == |history|
    ensures forall k :: 0 <= k < |r| ==>
      && r[k].id == history[k].messageId && r[k].content == history[k].content
      && (r[k].isUser <==> history[k].role == "user")
      && !r[k].loading && r[k].createAt == Some(history[k].createdAt)
    ensures WellFormed(r)
  {
    seq(|history|, k requires 0 <= k < |history| => FromRecord(history[k]))
  }

  /** The fragments joined in delivery order. */
  function Concat(fragments: seq<string>): string {
    if fragments == [] then "" else Concat(fragments[..|fragments| - 1]) + fragments[|fragments| - 1]
  }

  /** The transcript after `updateLastMessage` has been applied to each fragment in turn. */
  function ApplyFragments(ms: seq<MessageItem>, fragments: seq<string>): seq<MessageItem> {
    if fragments == [] then ms
    else UpdateLastMessage(ApplyFragments(ms, fragments[..|fragments| - 1]), fragments[|fragments| - 1])
  }

  /**
   * Streaming never touches the earlier entries nor the identity of the last
   * one, and after one fragment the last entry is no longer loading.
   */
  lemma {:induction false} ApplyFragmentsFrame(ms: seq<MessageItem>, fragments: seq<string>)
    requires ms != []
    ensures |ApplyFragments(ms, fragments)| == |ms|
    ensures ApplyFragments(ms, fragments)[..|ms| - 1] == ms[..|ms| - 1]
    ensures
      var last, next := ms[|ms| - 1], ApplyFragments(ms, fragments)[|ms| - 1];
      && next.id == last.id && next.isUser == last.isUser && next.createAt == last.createAt
      && (fragments != [] ==> !next.loading)
  {
    if fragments != [] {
      ApplyFragmentsFrame(ms, fragments[..|fragments| - 1]);
    }
  }

  /** When no fragment ends in the cursor, neither does their concatenation. */
  lemma {:induction false} ConcatAvoidsCursor(fragments: seq<string>)
    requires forall k :: 0 <= k < |fragments| ==> !EndsWithCursor(fragments[k])
    ensures !EndsWithCursor(Concat(fragments))
  {
    if fragments != [] {
      ConcatAvoidsCursor(fragments[..|fragments| - 1]);
    }
  }

  /**
   * Streaming into a cursor placeholder: once at least one fragment has
   * arrived, and no fragment ends in the cursor, the placeholder holds
   * exactly the fragments joined in order and no longer loads.
   */
  lemma {:induction false} StreamedReplyIsConcatenation(prefix: seq<MessageItem>, placeholder: MessageItem, fragments: seq<string>)
    requires placeholder.content == [Cursor]
    requires fragments != []
    requires forall k :: 0 <= k < |fragments| ==> !EndsWithCursor(fragments[k])
    ensures ApplyFragments(prefix + [placeholder], fragments)
         == prefix + [placeholder.(content := Concat(fragments), loading := false)]
  {
    var init, f := fragments[..|fragments| - 1], fragments[|fragments| - 1];
    if init == [] {
      assert fragments == [f];
      assert ApplyFragments(prefix + [placeholder], init) == prefix + [placeholder];
      assert Concat(fragments) == f;
    } else {
      StreamedReplyIsConcatenation(prefix, placeholder, init);
      ConcatAvoidsCursor(init);
    }
  }
}
