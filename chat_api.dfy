/**
 * `chatInteractive` (src/api/chatApi.tsx): opens the server push connection
 * for one question and adapts its callbacks into a stream that one reader
 * pulls from.
 */
module ChatApi {
  import opened Wrappers

  /** The path of the push endpoint; the query below is appended to it. */
  const Endpoint := "/api/chat/flux"

  /** One query parameter, in the order `URLSearchParams` serialises it. */
  datatype Param = Param(name: string, value: string)

  /** What one `reader.read()` settles to: a chunk, the end of the stream, or a rejection. */
  datatype ReadOutcome = Chunk(value: string) | Done | Rejected

  /** The query: always the input, then the session id when it is non-empty (truthy). */
  function BuildQuery(input: string, sessionId: string): (q: seq<Param>)
    ensures |q| == if sessionId != "" then 2 else 1
    ensures q[0] == Param("input", input)
    ensures (exists k :: 0 <= k < |q| && q[k].name == "sessionId") <==> sessionId != ""
    ensures forall k :: 0 <= k < |q| && q[k].name == "sessionId" ==> q[k].value == sessionId
  {
    if sessionId != "" then
      var q := [Param("input", input), Param("sessionId", sessionId)];
      assert q[1].name == "sessionId";
      q
    else [Param("input", input)]
  }

  /** The stream side of a handle: its queue, its closed flag and its ghost history. */
  datatype StreamState = StreamState(queue: seq<string>, streamClosed: bool,
                                     received: seq<string>, taken: seq<string>, discarded: seq<string>)

  /** The stream side of a new handle: nothing queued, received or taken, and the stream open. */
  const EmptyStream := StreamState([], false, [], [], [])

  /**
   * The handle `chatInteractive` returns: the stream's queue and closed flag
   * (the stream controller) and the connection's closed flag (the event
   * source). Ghost history: every chunk the stream accepted, split into those
   * handed to the reader, those dropped by a cancel, and those still queued.
   */
  class EventStream {
    /** The event source connects to `path` with `query` appended. */
    const path: string
    const query: seq<Param>
    var queue: seq<string>
    var streamClosed: bool
    var connClosed: bool
    ghost var received: seq<string>
    ghost var taken: seq<string>
    ghost var discarded: seq<string>

    /**
     * Chunks leave in arrival order; a closed stream always has a closed
     * connection; a cancel leaves nothing queued.
     */
    ghost predicate Valid()
      reads this
    {
      && (streamClosed ==> connClosed)
      && received == taken + discarded + queue
      && (discarded != [] ==> queue == [] && streamClosed)
    }

    /** Everything about the handle except the connection flag. */
    ghost function State(): StreamState
      reads this
    {
      StreamState(queue, streamClosed, received, taken, discarded)
    }

    /** `chatInteractive(input, sessionId)`: a fresh open connection with an empty stream. */
    constructor (input: string, sessionId: string)
      ensures Valid() && path == Endpoint && query == BuildQuery(input, sessionId)
      ensures queue == [] && !streamClosed && !connClosed
      ensures received == [] && taken == [] && discarded == []
    {
      path, query := Endpoint, BuildQuery(input, sessionId);
      queue, streamClosed, connClosed := [], false, false;
      received, taken, discarded := [], [], [];
    }

    /**
     * `onmessage`: the event's data is enqueued unchanged. A closed event
     * source dispatches no events, so after `close()` nothing is enqueued.
     */
    method OnMessage(data: string)
      requires Valid()
      modifies this
      ensures Valid()
      ensures queue == if old(connClosed) then old(queue) else old(queue) + [data]
      ensures received == if old(connClosed) then old(received) else old(received) + [data]
      ensures streamClosed == old(streamClosed) && connClosed == old(connClosed)
      ensures taken == old(taken) && discarded == old(discarded)
    {
      if !connClosed {
        queue := queue + [data];
        received := received + [data];
      }
    }

    /**
     * `onerror`: closes the stream normally (queued chunks are still read,
     * then the reader sees the end) and closes the connection.
     */
    method OnError()
      requires Valid()
      modifies this
      ensures Valid()
      ensures old(connClosed) ==> streamClosed == old(streamClosed) && connClosed
      ensures !old(connClosed) ==> streamClosed && connClosed
      ensures queue == old(queue) && received == old(received)
      ensures taken == old(taken) && discarded == old(discarded)
    {
      if !connClosed {
        streamClosed := true;
        connClosed := true;
      }
    }

    /** The stream's `cancel`: drops what is queued, ends the stream and closes the connection. */
    method Cancel()
      requires Valid()
      modifies this
      ensures Valid()
      ensures queue == [] && streamClosed && connClosed
      ensures discarded == old(discarded) + old(queue)
      ensures received == old(received) && taken == old(taken)
    {
      discarded := discarded + queue;
      queue := [];
      streamClosed := true;
      connClosed := true;
    }

    /** The handle's `close()`: closes the connection only; the stream stays open. */
    method Close()
      requires Valid()
      modifies this`connClosed
      ensures Valid() && connClosed
      ensures State() == old(State())
    {
      connClosed := true;
    }

    /**
     * `reader.read()`: the head of the queue, or the end once the stream is
     * closed and drained; `None` when the read would wait for an event.
     * It never rejects.
     */
    method Read() returns (r: Option<ReadOutcome>)
      requires Valid()
      modifies this
      ensures Valid()
      ensures r != Some(Rejected)
      ensures old(queue) != [] ==> r == Some(Chunk(old(queue)[0])) && queue == old(queue)[1..]
                                   && taken == old(taken) + [old(queue)[0]]
      ensures old(queue) == [] ==> queue == [] && taken == old(taken)
                                   && r == (if streamClosed then Some(Done) else None)
      ensures streamClosed == old(streamClosed) && connClosed == old(connClosed)
      ensures received == old(received) && discarded == old(discarded)
    {
      if queue != [] {
        r := Some(Chunk(queue[0]));
        taken := taken + [queue[0]];
        queue := queue[1..];
      } else if streamClosed {
        r := Some(Done);
      } else {
        r := None;
      }
    }
  }
}
