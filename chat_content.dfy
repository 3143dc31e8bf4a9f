/**
 * The chat panel's state machine (src/view/component/ChatContent.tsx):
 * submit, session creation, the streaming read loop with its error rollback,
 * stop, and history loading, as sequential steps over the panel's state.
 */
module Chat {
  import opened Wrappers
  import opened Transcript
  import JsString
  import ChatApi

  /** The session id that stands for "no session yet". */
  const NewSession := "new"
  /** The texts of the two toasts the panel shows. */
  const RequestFailedText := "请求失败，请重试"
  const StoppedText := "已停止生成"

  datatype Toast = ErrorToast(text: string) | InfoToast(text: string)

  /**
   * How `aiChat` ended: skipped for the "new" session, the stream finished,
   * a read rejected, or the last read never settled (its `finally` never runs).
   */
  datatype ChatOutcome = Skipped | Finished | Failed | Suspended

  /** How `handleSubmit` ended. */
  datatype SubmitOutcome = Ignored | CreateFailed | Chatted(chat: ChatOutcome)

  /** A session id that sends the submit through session creation first. */
  predicate NeedsSession(sessionId: string) {
    sessionId == "" || sessionId == NewSession
  }

  /** The number of reads that delivered a chunk before the loop stopped or stalled. */
  function StreamedPrefix(outcomes: seq<ChatApi.ReadOutcome>): (n: nat)
    ensures n <= |outcomes|
    ensures forall k :: 0 <= k < n ==> outcomes[k].Chunk?
    ensures n < |outcomes| ==> !outcomes[n].Chunk?
  {
    if outcomes == [] || !outcomes[0].Chunk? then 0 else 1 + StreamedPrefix(outcomes[1..])
  }

  /** The chunks of the first `n` outcomes. */
  function Chunks(outcomes: seq<ChatApi.ReadOutcome>, n: nat): (fragments: seq<string>)
    requires n <= |outcomes| && forall k :: 0 <= k < n ==> outcomes[k].Chunk?
    ensures |fragments| == n && forall k :: 0 <= k < n ==> fragments[k] == outcomes[k].value
  {
    seq(n, k requires 0 <= k < n => outcomes[k].value)
  }

  /** How the read loop ends for the given read outcomes. */
  function Settle(outcomes: seq<ChatApi.ReadOutcome>): (r: ChatOutcome)
    ensures r == Suspended <==> forall k :: 0 <= k < |outcomes| ==> outcomes[k].Chunk?
    ensures r == Finished <==>
      exists n :: 0 <= n < |outcomes| && outcomes[n].Done? && forall k :: 0 <= k < n ==> outcomes[k].Chunk?
  {
    var n := StreamedPrefix(outcomes);
    if n == |outcomes| then Suspended else if outcomes[n].Done? then Finished else Failed
  }

  /** The loop fails exactly when a read rejects before anything but chunks has been read. */
  lemma SettleFailsOnRejection(outcomes: seq<ChatApi.ReadOutcome>)
    ensures Settle(outcomes) == Failed <==>
      exists n :: 0 <= n < |outcomes| && outcomes[n].Rejected? && forall k :: 0 <= k < n ==> outcomes[k].Chunk?
  {
  }

  /** The user entry and the loading reply placeholder `aiChat` appends. */
  function Exchange(base: seq<MessageItem>, userId: string, replyId: string, text: string): seq<MessageItem> {
    AddMessage(AddMessage(base, userId, text, true, false), replyId, "", false, true)
  }

  /** The transcript once the read loop of `aiChat` has settled (or stalled). */
  function AfterChat(base: seq<MessageItem>, userId: string, replyId: string, text: string,
                     outcomes: seq<ChatApi.ReadOutcome>): seq<MessageItem>
  {
    var reply := ApplyFragments(Exchange(base, userId, replyId, text), Chunks(outcomes, StreamedPrefix(outcomes)));
    if Settle(outcomes) == Failed then DropLast(reply) else reply
  }

  /** The user entry of an exchange. */
  function Question(userId: string, text: string): MessageItem {
    MessageItem(userId, text, true, false, None)
  }

  /** The reply placeholder of an exchange. */
  function Placeholder(replyId: string): MessageItem {
    MessageItem(replyId, [Cursor], false, true, None)
  }

  /** `aiChat` appends exactly two entries, in order: the question, then a loading placeholder. */
  lemma ExchangeAppendsTwo(base: seq<MessageItem>, userId: string, replyId: string, text: string)
    ensures Exchange(base, userId, replyId, text) == base + [Question(userId, text), Placeholder(replyId)]
  {
    var once := AddMessage(base, userId, text, true, false);
    assert once == base + [Question(userId, text)];
  }

  /**
   * A chat that did not fail leaves exactly two new entries, in order: the
   * question, then the reply, which streamed every chunk and stays loading
   * only when no chunk arrived.
   */
  lemma ChatAppendsQuestionAndReply(base: seq<MessageItem>, userId: string, replyId: string, text: string,
                                    outcomes: seq<ChatApi.ReadOutcome>)
    requires Settle(outcomes) != Failed
    ensures var r := AfterChat(base, userId, replyId, text, outcomes);
      && |r| == |base| + 2 && r[..|base|] == base
      && r[|base|] == Question(userId, text)
      && r[|base| + 1].id == replyId && !r[|base| + 1].isUser
      && (r[|base| + 1].loading <==> StreamedPrefix(outcomes) == 0)
  {
    var ex := Exchange(base, userId, replyId, text);
    var fragments := Chunks(outcomes, StreamedPrefix(outcomes));
    ApplyFragmentsFrame(ex, fragments);
    assert ex[..|base| + 1] == base + [Question(userId, text)];
    assert ApplyFragments(ex, fragments)[..|base| + 1] == ex[..|base| + 1];
  }

  /** A chat that did not fail streams every chunk into the placeholder after the question. */
  lemma SettledChatStreamsIntoPlaceholder(base: seq<MessageItem>, userId: string, replyId: string, text: string,
                                          outcomes: seq<ChatApi.ReadOutcome>)
    requires Settle(outcomes) != Failed
    ensures AfterChat(base, userId, replyId, text, outcomes)
         == ApplyFragments((base + [Question(userId, text)]) + [Placeholder(replyId)], Chunks(outcomes, StreamedPrefix(outcomes)))
  {
    ExchangeAppendsTwo(base, userId, replyId, text);
    assert base + [Question(userId, text), Placeholder(replyId)] == (base + [Question(userId, text)]) + [Placeholder(replyId)];
  }

  /**
   * The chunks stream into the reply: with at least one chunk, none ending in
   * the cursor, the reply holds exactly the chunks joined in order.
   */
  lemma ChatReplyIsConcatenation(base: seq<MessageItem>, userId: string, replyId: string, text: string,
                                 outcomes: seq<ChatApi.ReadOutcome>)
    requires Settle(outcomes) != Failed
    requires StreamedPrefix(outcomes) > 0
    requires forall k :: 0 <= k < |outcomes| && outcomes[k].Chunk? ==> !EndsWithCursor(outcomes[k].value)
    ensures AfterChat(base, userId, replyId, text, outcomes)
         == (base + [Question(userId, text)]) + [MessageItem(replyId, Concat(Chunks(outcomes, StreamedPrefix(outcomes))), false, false, None)]
  {
    SettledChatStreamsIntoPlaceholder(base, userId, replyId, text, outcomes);
    StreamedReplyIsConcatenation(base + [Question(userId, text)], Placeholder(replyId), Chunks(outcomes, StreamedPrefix(outcomes)));
  }

  /**
   * A stream that ends before its first chunk leaves the placeholder as it
   * was: the reply keeps showing the cursor and stays loading.
   */
  lemma EmptyReplyLeavesPlaceholder(base: seq<MessageItem>, userId: string, replyId: string, text: string,
                                    outcomes: seq<ChatApi.ReadOutcome>)
    requires outcomes != [] && outcomes[0].Done?
    ensures AfterChat(base, userId, replyId, text, outcomes) == base + [Question(userId, text), Placeholder(replyId)]
  {
    ExchangeAppendsTwo(base, userId, replyId, text);
  }

  /**
   * The rollback after a rejected read removes only the reply: the question
   * stays, whatever had streamed before.
   */
  lemma RollbackKeepsQuestion(base: seq<MessageItem>, userId: string, replyId: string, text: string,
                              outcomes: seq<ChatApi.ReadOutcome>)
    requires Settle(outcomes) == Failed
    ensures AfterChat(base, userId, replyId, text, outcomes) == base + [Question(userId, text)]
  {
    var ex := Exchange(base, userId, replyId, text);
    var fragments := Chunks(outcomes, StreamedPrefix(outcomes));
    ApplyFragmentsFrame(ex, fragments);
    assert ex[..|base| + 1] == base + [Question(userId, text)];
  }

  /**
   * The panel: its props and state, the event source reference, and what it
   * reports outward (toasts, `onSessionChange` calls, session creations).
   */
  class ChatContent {
    var sessionId: string
    var messages: seq<MessageItem>
    var input: string
    var loading: bool
    var conn: ChatApi.EventStream?
    var toasts: seq<Toast>
    var announced: seq<string>
    var createRequests: seq<string>

    ghost predicate Valid()
      reads this, conn
    {
      WellFormed(messages) && (conn != null ==> conn.Valid())
    }

    /** Mounting with the given session id: empty transcript and input, not loading. */
    constructor (sessionId: string)
      ensures Valid() && this.sessionId == sessionId
      ensures messages == [] && input == "" && !loading && conn == null
      ensures toasts == [] && announced == [] && createRequests == []
    {
      this.sessionId := sessionId;
      messages, input, loading, conn := [], "", false, null;
      toasts, announced, createRequests := [], [], [];
    }

    /** The text area's `onChange`. */
    method OnInputChange(text: string)
      modifies this`input
      ensures input == text
    {
      input := text;
    }

    /**
     * The `while (true)` read loop of `aiChat`: each chunk is folded into the
     * last entry with `updateLastMessage`, until a read ends the stream,
     * rejects, or never settles. Returns the number of chunks read.
     */
    method ReadLoop(outcomes: seq<ChatApi.ReadOutcome>) returns (n: nat)
      requires WellFormed(messages)
      modifies this`messages
      ensures WellFormed(messages)
      ensures n == StreamedPrefix(outcomes)
      ensures messages == ApplyFragments(old(messages), Chunks(outcomes, n))
    {
      n := 0;
      ghost var streamed: seq<string> := [];
      while n < |outcomes| && outcomes[n].Chunk?
        invariant n <= |outcomes| && |streamed| == n
        invariant forall k :: 0 <= k < n ==> outcomes[k].Chunk? && streamed[k] == outcomes[k].value
        invariant messages == ApplyFragments(old(messages), streamed)
        invariant WellFormed(messages)
      {
        assert (streamed + [outcomes[n].value])[..n] == streamed;
        messages := UpdateLastMessage(messages, outcomes[n].value);
        streamed := streamed + [outcomes[n].value];
        n := n + 1;
      }
      assert streamed == Chunks(outcomes, n);
    }

    /** The `finally` block of `aiChat`: stop loading, clear the input, close the current connection. */
    method Finally()
      requires Valid()
      modifies this`loading, this`input, conn
      ensures Valid()
      ensures !loading && input == ""
      ensures conn != null ==> conn.connClosed && conn.State() == old(conn.State()) && conn.query == old(conn.query)
      ensures unchanged(this`sessionId, this`messages, this`conn, this`toasts, this`announced, this`createRequests)
    {
      loading, input := false, "";
      if conn != null {
        conn.Close();
      }
    }

    /**
     * The opening of `aiChat` for a real session: the input is cleared, the
     * question and a loading placeholder are appended and a connection is
     * opened for the question.
     */
    method Open(chatId: string, text: string, userId: string, replyId: string)
      requires Valid()
      modifies this`input, this`messages, this`conn
      ensures Valid() && input == ""
      ensures messages == Exchange(old(messages), userId, replyId, text)
      ensures fresh(conn) && conn.query == ChatApi.BuildQuery(text, chatId) && !conn.connClosed
      ensures conn.State() == ChatApi.EmptyStream
      ensures unchanged(this`sessionId, this`announced, this`createRequests, this`loading, this`toasts)
    {
      input := "";
      messages := AddMessage(messages, userId, text, true, false);
      messages := AddMessage(messages, replyId, "", false, true);
      conn := new ChatApi.EventStream(text, chatId);
    }

    /**
     * The `try` and `catch` blocks of `aiChat` for a real session: the
     * question and a placeholder are appended, a connection is opened and the
     * read loop folds the chunks into the placeholder; a rejected read shows a
     * toast and rolls back the last entry.
     */
    method Converse(chatId: string, text: string, userId: string, replyId: string, outcomes: seq<ChatApi.ReadOutcome>)
      returns (outcome: ChatOutcome)
      requires Valid()
      modifies this`input, this`messages, this`conn, this`toasts
      ensures Valid()
      ensures unchanged(this`sessionId, this`announced, this`createRequests, this`loading)
      ensures input == ""
      ensures outcome == Settle(outcomes)
      ensures messages == AfterChat(old(messages), userId, replyId, text, outcomes)
      ensures toasts == old(toasts) + (if outcome == Failed then [ErrorToast(RequestFailedText)] else [])
      ensures fresh(conn) && conn.query == ChatApi.BuildQuery(text, chatId) && !conn.connClosed
      ensures conn.State() == ChatApi.EmptyStream
    {
      Open(chatId, text, userId, replyId);
      outcome := Stream(outcomes);
    }

    /**
     * The read loop of `aiChat` and its `catch` block: the chunks are folded
     * into the placeholder until a read finishes, rejects or never settles;
     * a rejected read shows a toast and rolls back the last entry.
     */
    method Stream(outcomes: seq<ChatApi.ReadOutcome>) returns (outcome: ChatOutcome)
      requires WellFormed(messages)
      modifies this`toasts, this`messages
      ensures outcome == Settle(outcomes) && WellFormed(messages)
      ensures var reply := ApplyFragments(old(messages), Chunks(outcomes, StreamedPrefix(outcomes)));
        messages == (if outcome == Failed then DropLast(reply) else reply)
      ensures toasts == old(toasts) + (if outcome == Failed then [ErrorToast(RequestFailedText)] else [])
      ensures unchanged(this`sessionId, this`announced, this`createRequests, this`loading, this`input, this`conn)
    {
      var n := ReadLoop(outcomes);
      if n == |outcomes| {
        outcome := Suspended;
      } else if outcomes[n].Rejected? {
        toasts := toasts + [ErrorToast(RequestFailedText)];
        messages := DropLast(messages);
        outcome := Failed;
      } else {
        outcome := Finished;
      }
    }

    /**
     * `aiChat`: for the "new" session only the `finally` block runs. Otherwise
     * the exchange streams, and the `finally` block runs once the read loop
     * has settled; when the last read never settles it never runs.
     */
    method AiChat(chatId: string, text: string, userId: string, replyId: string, outcomes: seq<ChatApi.ReadOutcome>)
      returns (outcome: ChatOutcome)
      requires Valid()
      modifies this, conn
      ensures Valid()
      ensures unchanged(this`sessionId, this`announced, this`createRequests)
      ensures input == ""
      ensures chatId == NewSession ==>
        && outcome == Skipped && messages == old(messages) && !loading && toasts == old(toasts)
        && conn == old(conn) && (conn != null ==> conn.connClosed && conn.State() == old(conn.State()))
      ensures chatId != NewSession ==>
        && outcome == Settle(outcomes)
        && messages == AfterChat(old(messages), userId, replyId, text, outcomes)
        && loading == (outcome == Suspended && old(loading))
        && toasts == old(toasts) + (if outcome == Failed then [ErrorToast(RequestFailedText)] else [])
        && fresh(conn) && conn.query == ChatApi.BuildQuery(text, chatId)
        && conn.State() == ChatApi.EmptyStream
        && (conn.connClosed <==> outcome != Suspended)
        && (old(conn) != null ==> unchanged(old(conn)))
    {
      if chatId == NewSession {
        Finally();
        return Skipped;
      }
      outcome := Converse(chatId, text, userId, replyId, outcomes);
      if outcome != Suspended {
        Finally();
      }
    }

    /**
     * `handleSubmit`: ignored for a blank input or while loading; otherwise
     * loading starts and the submission goes ahead.
     */
    method HandleSubmit(created: Option<string>, userId: string, replyId: string, outcomes: seq<ChatApi.ReadOutcome>)
      returns (result: SubmitOutcome)
      requires Valid()
      modifies this, conn
      ensures Valid()
      ensures JsString.Trim(old(input)) == "" || old(loading) ==>
        && result == Ignored && messages == old(messages) && input == old(input) && loading == old(loading)
        && sessionId == old(sessionId) && conn == old(conn) && toasts == old(toasts)
        && announced == old(announced) && createRequests == old(createRequests)
        && (conn != null ==> unchanged(conn))
      ensures JsString.Trim(old(input)) != "" && !old(loading) ==>
        && createRequests == old(createRequests) + (if NeedsSession(old(sessionId)) then [old(input)] else [])
        && (NeedsSession(old(sessionId)) && created.None? ==>
              && result == CreateFailed && messages == old(messages) && input == old(input) && !loading
              && sessionId == old(sessionId) && conn == old(conn) && toasts == old(toasts)
              && announced == old(announced) && (conn != null ==> unchanged(conn)))
        && (!NeedsSession(old(sessionId)) || created.Some? ==>
              var chatId := if NeedsSession(old(sessionId)) then created.value else old(sessionId);
              && announced == old(announced) + (if NeedsSession(old(sessionId)) then [chatId] else [])
              && sessionId == chatId && input == ""
              && (chatId == NewSession ==>
                    && result == Chatted(Skipped) && messages == old(messages) && !loading
                    && toasts == old(toasts) && conn == old(conn)
                    && (conn != null ==> conn.connClosed && conn.State() == old(conn.State())))
              && (chatId != NewSession ==>
                    && result == Chatted(Settle(outcomes))
                    && messages == AfterChat(old(messages), userId, replyId, old(input), outcomes)
                    && (loading <==> Settle(outcomes) == Suspended)
                    && toasts == old(toasts) + (if Settle(outcomes) == Failed then [ErrorToast(RequestFailedText)] else [])
                    && fresh(conn) && conn.query == ChatApi.BuildQuery(old(input), chatId)
                    && conn.State() == ChatApi.EmptyStream
                    && (conn.connClosed <==> Settle(outcomes) != Suspended)
                    && (old(conn) != null ==> unchanged(old(conn)))))
    {
      if JsString.Trim(input) == "" || loading {
        return Ignored;
      }
      loading := true;
      result := Submit(created, userId, replyId, outcomes);
    }

    /**
     * The body of `handleSubmit` once loading has started: for a session id
     * that is empty or "new", a session is created first (`created` is its
     * id, or `None` when creation fails) and announced; then `aiChat` runs
     * with the session id and the input.
     */
    method Submit(created: Option<string>, userId: string, replyId: string, outcomes: seq<ChatApi.ReadOutcome>)
      returns (result: SubmitOutcome)
      requires Valid() && loading
      modifies this, conn
      ensures Valid()
      ensures createRequests == old(createRequests) + (if NeedsSession(old(sessionId)) then [old(input)] else [])
      ensures NeedsSession(old(sessionId)) && created.None? ==>
        && result == CreateFailed && messages == old(messages) && input == old(input) && !loading
        && sessionId == old(sessionId) && conn == old(conn) && toasts == old(toasts)
        && announced == old(announced) && (conn != null ==> unchanged(conn))
      ensures !NeedsSession(old(sessionId)) || created.Some? ==>
        var chatId := if NeedsSession(old(sessionId)) then created.value else old(sessionId);
        && announced == old(announced) + (if NeedsSession(old(sessionId)) then [chatId] else [])
        && sessionId == chatId && input == ""
        && (chatId == NewSession ==>
              && result == Chatted(Skipped) && messages == old(messages) && !loading
              && toasts == old(toasts) && conn == old(conn)
              && (conn != null ==> conn.connClosed && conn.State() == old(conn.State())))
        && (chatId != NewSession ==>
              && result == Chatted(Settle(outcomes))
              && messages == AfterChat(old(messages), userId, replyId, old(input), outcomes)
              && (loading <==> Settle(outcomes) == Suspended)
              && toasts == old(toasts) + (if Settle(outcomes) == Failed then [ErrorToast(RequestFailedText)] else [])
              && fresh(conn) && conn.query == ChatApi.BuildQuery(old(input), chatId)
              && conn.State() == ChatApi.EmptyStream
              && (conn.connClosed <==> Settle(outcomes) != Suspended)
              && (old(conn) != null ==> unchanged(old(conn))))
    {
      var chatId := sessionId;
      var text := input;
      if NeedsSession(chatId) {
        createRequests := createRequests + [text];
        match created
        case None =>
          loading := false;
          return CreateFailed;
        case Some(id) =>
          chatId := id;
          announced := announced + [chatId];
          sessionId := chatId;
      }
      var chat := AiChat(chatId, text, userId, replyId, outcomes);
      result := Chatted(chat);
    }

    /** `handleStop`: closes the connection and stops loading; the transcript is untouched. */
    method HandleStop()
      requires Valid()
      modifies this, conn
      ensures Valid()
      ensures messages == old(messages) && !loading && input == old(input) && sessionId == old(sessionId)
      ensures toasts == old(toasts) + [InfoToast(StoppedText)]
      ensures announced == old(announced) && createRequests == old(createRequests)
      ensures conn == old(conn) && (conn != null ==> conn.connClosed && conn.State() == old(conn.State()))
    {
      if conn != null {
        conn.Close();
      }
      loading := false;
      toasts := toasts + [InfoToast(StoppedText)];
    }

    /**
     * The history effect for the current session id: when the id is non-empty
     * and nothing is loading, the transcript is replaced by the fetched
     * history (`None` when the request fails, which keeps the transcript).
     */
    method LoadHistory(history: Option<seq<HistoryMessage>>) returns (fetched: bool)
      requires Valid()
      modifies this`messages, this`loading
      ensures Valid()
      ensures fetched <==> sessionId != "" && !old(loading)
      ensures fetched && history.Some? ==> messages == FromHistory(history.value)
      ensures !(fetched && history.Some?) ==> messages == old(messages)
      ensures loading == old(loading)
    {
      fetched := sessionId != "" && !loading;
      if fetched {
        loading := true;
        if history.Some? {
          messages := FromHistory(history.value);
        }
        loading := false;
      }
    }

    /** Unmounting closes the connection, if one was opened. */
    method Unmount()
      requires Valid()
      modifies conn
      ensures Valid()
      ensures conn != null ==> conn.connClosed && conn.State() == old(conn.State())
    {
      if conn != null {
        conn.Close();
      }
    }
  }
}
