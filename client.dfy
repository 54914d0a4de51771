/** The test client's audio duplex streamer (`audio_stream` in client/python/test_client.py).

    Microphone chunks go into a bounded FIFO of capacity 100 and are dropped when it is
    full; a sender takes chunks from the head and sends each once, in order; a receive loop
    plays every non-empty binary frame in arrival order and stops on a clean close. The
    threads and the event loop are not modelled: each callback, each sender turn and each
    run of the receive loop is one sequential call on an `AudioStream` object. */
module StreamClient {
  import opened Common

  /** `asyncio.Queue(maxsize=100)`. */
  const QueueCapacity := 100

  /** `queue.full()`: a queue with a positive `maxsize` is full once it holds that many items. */
  predicate Full(queue: seq<Bytes>) {
    |queue| >= QueueCapacity
  }

  /** `safe_put(item)` on the queue's contents: `put_nowait` unless the queue is full. */
  function Offer(queue: seq<Bytes>, item: Bytes): (q: seq<Bytes>)
    ensures q == queue || q == queue + [item]
    ensures |q| == |queue| <==> Full(queue)
    ensures |queue| <= QueueCapacity ==> |q| <= QueueCapacity
  {
    if Full(queue) then queue else queue + [item]
  }

  /** A burst of chunks captured while the sender does not run. */
  function OfferAll(queue: seq<Bytes>, chunks: seq<Bytes>): seq<Bytes>
    decreases |chunks|
  {
    if chunks == [] then queue else OfferAll(Offer(queue, chunks[0]), chunks[1..])
  }

  function Min(a: int, b: int): int {
    if a <= b then a else b
  }

  /** Of a burst, exactly the chunks that fit are accepted, the earliest ones, in order;
      the rest are dropped. */
  lemma {:induction false} BurstAcceptance(queue: seq<Bytes>, chunks: seq<Bytes>)
    requires |queue| <= QueueCapacity
    ensures OfferAll(queue, chunks) == queue + chunks[..Min(|chunks|, QueueCapacity - |queue|)]
    decreases |chunks|
  {
    if chunks != [] {
      var next := Offer(queue, chunks[0]);
      BurstAcceptance(next, chunks[1..]);
      if Full(queue) {
        assert chunks[..0] == [];
        assert chunks[1..][..0] == [];
      } else {
        var k := Min(|chunks|, QueueCapacity - |queue|);
        assert chunks[1..][..k - 1] == chunks[1..k];
        assert queue + chunks[..k] == queue + [chunks[0]] + chunks[1..k];
      }
    }
  }

  // ---- the receive loop ----

  /** What `websocket.recv()` yields: a binary or a text frame, or the exception raised
      when the connection closes cleanly (`ConnectionClosedOK`) or not. */
  datatype Incoming = BinaryMsg(data: Bytes) | TextMsg(text: string) | ClosedOk | ClosedError

  /** How the receive loop ends: on a clean close (normally), by an exception, or not yet
      (it is waiting in `recv()` for another frame). `BadSampleBuffer` is the `ValueError` of
      `np.frombuffer(..., dtype=np.int16)` on a buffer of odd length. */
  datatype ReceiveExit = CleanClose | ConnectionFailed | BadSampleBuffer | AwaitingFrame

  datatype Reception = Reception(played: seq<Bytes>, exit: ReceiveExit)

  /** `isinstance(response_data, (bytes, bytearray)) and len(response_data)`. */
  predicate Playable(m: Incoming) {
    m.BinaryMsg? && |m.data| > 0
  }

  /** A frame that ends the loop: a close, or a playable buffer that is not whole int16 samples. */
  predicate Ends(m: Incoming) {
    m.ClosedOk? || m.ClosedError? || (Playable(m) && |m.data| % 2 != 0)
  }

  /** How a frame that ends the loop ends it: `break` on `ConnectionClosedOK`; otherwise the
      exception, `ConnectionClosedError` or `ValueError`, leaves the loop uncaught. */
  function ExitOf(m: Incoming): ReceiveExit
    requires Ends(m)
  {
    if m.ClosedOk? then CleanClose else if m.ClosedError? then ConnectionFailed else BadSampleBuffer
  }

  /** The loop's effect on a stream of incoming frames: what it writes to the speaker and
      how it stops. */
  function Receive(incoming: seq<Incoming>): (r: Reception)
    ensures r.exit == AwaitingFrame <==> forall i :: 0 <= i < |incoming| ==> !Ends(incoming[i])
    ensures r.exit == CleanClose ==> exists i :: 0 <= i < |incoming| && incoming[i].ClosedOk?
    ensures forall k :: 0 <= k < |r.played| ==> |r.played[k]| > 0 && |r.played[k]| % 2 == 0
    decreases |incoming|
  {
    if incoming == [] then Reception([], AwaitingFrame)
    else
      var m := incoming[0];
      var rest := Receive(incoming[1..]);
      assert forall i :: 1 <= i < |incoming| ==> incoming[i] == incoming[1..][i - 1];
      match m
      case ClosedOk => Reception([], CleanClose)
      case ClosedError => Reception([], ConnectionFailed)
      case TextMsg(_) => rest
      case BinaryMsg(data) =>
        if |data| == 0 then rest
        else if |data| % 2 != 0 then Reception([], BadSampleBuffer)
        else Reception([data] + rest.played, rest.exit)
  }

  /** The non-empty binary frames of a stream, in arrival order. */
  function PlayableFrames(incoming: seq<Incoming>): seq<Bytes>
    decreases |incoming|
  {
    if incoming == [] then []
    else (if Playable(incoming[0]) then [incoming[0].data] else []) + PlayableFrames(incoming[1..])
  }

  lemma {:induction false} PlayableFramesSnoc(incoming: seq<Incoming>, m: Incoming)
    ensures PlayableFrames(incoming + [m]) == PlayableFrames(incoming) + (if Playable(m) then [m.data] else [])
    decreases |incoming|
  {
    if incoming == [] {
      assert [] + [m] == [m];
      assert [m][1..] == [];
    } else {
      assert (incoming + [m])[0] == incoming[0];
      assert (incoming + [m])[1..] == incoming[1..] + [m];
      PlayableFramesSnoc(incoming[1..], m);
    }
  }

  /** Until a frame ends the loop, it plays exactly the non-empty binary frames, in order. */
  lemma {:induction false} ReceiveBeforeEnd(before: seq<Incoming>, after: seq<Incoming>)
    requires forall i :: 0 <= i < |before| ==> !Ends(before[i])
    ensures Receive(before + after) ==
            Reception(PlayableFrames(before) + Receive(after).played, Receive(after).exit)
    decreases |before|
  {
    if before == [] {
      assert before + after == after;
    } else {
      assert (before + after)[0] == before[0];
      assert (before + after)[1..] == before[1..] + after;
      ReceiveBeforeEnd(before[1..], after);
    }
  }

  /** The first frame that ends the loop decides how it ends; the loop has played exactly the
      non-empty binary frames before it, and nothing after it. */
  lemma StopsAtFirstEnd(before: seq<Incoming>, m: Incoming, after: seq<Incoming>)
    requires forall i :: 0 <= i < |before| ==> !Ends(before[i])
    requires Ends(m)
    ensures Receive(before + [m] + after) == Reception(PlayableFrames(before), ExitOf(m))
  {
    assert before + [m] + after == before + ([m] + after);
    ReceiveBeforeEnd(before, [m] + after);
    assert ([m] + after)[0] == m;
  }

  /** A clean close ends the loop normally; nothing after it is played. */
  lemma CleanCloseStops(before: seq<Incoming>, after: seq<Incoming>)
    requires forall i :: 0 <= i < |before| ==> !Ends(before[i])
    ensures Receive(before + [ClosedOk] + after) == Reception(PlayableFrames(before), CleanClose)
  {
    StopsAtFirstEnd(before, ClosedOk, after);
  }

  /** On a stream of whole int16 buffers and no close, the loop plays the binary frames
      filtered to the non-empty ones. */
  lemma PlaysFilteredFrames(incoming: seq<Incoming>)
    requires forall i :: 0 <= i < |incoming| ==> !Ends(incoming[i])
    ensures Receive(incoming) == Reception(PlayableFrames(incoming), AwaitingFrame)
  {
    ReceiveBeforeEnd(incoming, []);
    assert incoming + [] == incoming;
  }

  // ---- the streamer's state ----

  class AudioStream {
    var queue: seq<Bytes>          // the outbound `asyncio.Queue`, head first
    var sent: seq<Bytes>           // the chunks passed to `websocket.send`, in order
    var played: seq<Bytes>         // the buffers written to the speaker, in order
    var overflowReports: nat       // how often "Audio buffer overflow!" was printed
    ghost var accepted: seq<Bytes> // every chunk `safe_put` enqueued, in order

    /** The queue stays within its capacity, and what was sent followed by what is still
        queued is exactly what was accepted: FIFO order, each chunk sent once. */
    ghost predicate Valid()
      reads this
    {
      |queue| <= QueueCapacity && sent + queue == accepted
    }

    constructor ()
      ensures Valid()
      ensures queue == [] && sent == [] && played == [] && overflowReports == 0 && accepted == []
    {
      queue, sent, played, overflowReports := [], [], [], 0;
      accepted := [];
    }

    /** `safe_put`: enqueue unless full; a dropped chunk is not reported. */
    method SafePut(item: Bytes)
      requires Valid()
      modifies this
      ensures Valid()
      ensures queue == Offer(old(queue), item)
      ensures accepted == if Full(old(queue)) then old(accepted) else old(accepted) + [item]
      ensures sent == old(sent) && played == old(played) && overflowReports == old(overflowReports)
    {
      if !Full(queue) {
        queue := queue + [item];
        accepted := accepted + [item];
      }
    }

    /** `mic_callback`: report a device overflow, then hand the copied chunk to `safe_put`
        (scheduled with `call_soon_threadsafe`; here it runs at once). */
    method MicCallback(indata: Bytes, inputOverflow: bool)
      requires Valid()
      modifies this
      ensures Valid()
      ensures overflowReports == old(overflowReports) + (if inputOverflow then 1 else 0)
      ensures queue == Offer(old(queue), indata)
      ensures accepted == if Full(old(queue)) then old(accepted) else old(accepted) + [indata]
      ensures sent == old(sent) && played == old(played)
    {
      if inputOverflow {
        overflowReports := overflowReports + 1;
      }
      SafePut(indata);
    }

    /** One turn of `sender`: take the head and send it. On an empty queue `queue.get()`
        suspends, and nothing happens. */
    method SenderStep() returns (chunk: Option<Bytes>)
      requires Valid()
      modifies this
      ensures Valid()
      ensures old(queue) == [] ==> chunk == None && queue == [] && sent == old(sent)
      ensures old(queue) != [] ==>
                chunk == Some(old(queue)[0]) && queue == old(queue)[1..] && sent == old(sent) + [old(queue)[0]]
      ensures accepted == old(accepted) && played == old(played) && overflowReports == old(overflowReports)
    {
      if queue == [] {
        chunk := None;
      } else {
        var data := queue[0];
        queue := queue[1..];
        sent := sent + [data];
        chunk := Some(data);
        assert old(sent) + old(queue) == old(sent) + [data] + queue;
      }
    }

    /** The `sender` loop, run until `queue.get()` suspends: everything queued is sent, in
        queue order. */
    method Sender()
      requires Valid()
      modifies this
      ensures Valid()
      ensures queue == [] && sent == old(sent) + old(queue)
      ensures accepted == old(accepted) && played == old(played) && overflowReports == old(overflowReports)
    {
      while queue != []
        invariant Valid()
        invariant sent + queue == old(sent) + old(queue)
        invariant accepted == old(accepted) && played == old(played) && overflowReports == old(overflowReports)
        decreases |queue|
      {
        var _ := SenderStep();
      }
      assert sent + [] == sent;
    }

    /** The receive loop over the frames `recv()` yields: play each non-empty binary frame,
        skip everything else, stop at the first close or exception. */
    method ReceiveLoop(incoming: seq<Incoming>) returns (exit: ReceiveExit)
      requires Valid()
      modifies this
      ensures Valid()
      ensures played == old(played) + Receive(incoming).played && exit == Receive(incoming).exit
      ensures queue == old(queue) && sent == old(sent) && accepted == old(accepted)
      ensures overflowReports == old(overflowReports)
    {
      var i := 0;
      exit := AwaitingFrame;
      while i < |incoming|
        invariant 0 <= i <= |incoming|
        invariant forall j :: 0 <= j < i ==> !Ends(incoming[j])
        invariant played == old(played) + PlayableFrames(incoming[..i])
        invariant Valid() && queue == old(queue) && sent == old(sent) && accepted == old(accepted)
        invariant overflowReports == old(overflowReports)
        decreases |incoming| - i
      {
        var m := incoming[i];
        if Ends(m) {
          exit := ExitOf(m);
          ReceiveBeforeEnd(incoming[..i], incoming[i..]);
          assert incoming[..i] + incoming[i..] == incoming;
          assert incoming[i..][0] == m;
          return;
        }
        if Playable(m) {
          played := played + [m.data];
        }
        PlayableFramesSnoc(incoming[..i], m);
        assert incoming[..i] + [m] == incoming[..i + 1];
        i := i + 1;
      }
      assert incoming[..i] == incoming;
      PlaysFilteredFrames(incoming);
    }
  }
}
