/** The BLE media (`BLEKPZ`): outbound data goes out in 20-byte GATT writes,
    each acknowledged by a one-byte notification on a separate
    characteristic; inbound notifications collect in a receive buffer that
    `receive` empties into the caller's buffer once it holds a whole frame. */
module Ble {
  import opened Bytes

  /** Largest GATT write `send` makes. */
  const SEND_BUF_SIZE: nat := 20

  /** The acknowledgment value the device sends after each chunk. */
  const READY_OK: seq<byte> := [0x01]

  /** The exceptions the modelled operations raise. */
  datatype Error =
    | NoClient         // AttributeError: no `_client` has been created yet
    | NotConnected     // ConnectionError("BLE no connection")
    | UnexpectedAck    // ConnectionError raised by `ready_handle`
    | AckTimeout       // TimeoutError from `wait_for` around a chunk
    | ConnectFailed    // the client's `connect` did not succeed

  datatype Outcome = Done | Failed(error: Error)

  /** What arrives on the ready characteristic while `send` waits for one
      chunk's acknowledgment: nothing before the timeout, or one value. */
  datatype Notification = Silent | Ack(value: seq<byte>)

  /** The steps `send` takes on the link, in the order it takes them. */
  datatype GattStep = ClearAck | Write(chunk: seq<byte>) | AwaitAck

  /** `data[lo:hi]` as Python slices it: bounds past the end are clipped. */
  function PySlice(data: seq<byte>, lo: nat, hi: nat): (s: seq<byte>)
    requires lo <= hi
    ensures |s| <= hi - lo
  {
    if lo >= |data| then [] else data[lo..if hi <= |data| then hi else |data|]
  }

  /** The chunks `send` writes: `data` cut into consecutive pieces of
      `SEND_BUF_SIZE` bytes, the last one possibly shorter. */
  function Chunks(data: seq<byte>): seq<seq<byte>>
    decreases |data|
  {
    if |data| == 0 then []
    else if |data| <= SEND_BUF_SIZE then [data]
    else [data[..SEND_BUF_SIZE]] + Chunks(data[SEND_BUF_SIZE..])
  }

  /** The chunks put back together are the data. */
  lemma {:induction false} ChunksConcat(data: seq<byte>)
    ensures Concat(Chunks(data)) == data
    decreases |data|
  {
    if |data| > SEND_BUF_SIZE {
      var cs := Chunks(data);
      ChunksConcat(data[SEND_BUF_SIZE..]);
      assert cs[0] == data[..SEND_BUF_SIZE] && cs[1..] == Chunks(data[SEND_BUF_SIZE..]);
    } else if |data| > 0 {
      assert Concat([data]) == data + Concat([]);
    }
  }

  /** There are ceil(|data| / 20) chunks, none of them empty and none longer
      than `SEND_BUF_SIZE`, and chunk `i` is the slice `data[20 i : 20 i + 20]`
      that the loop in `send` cuts at `pos = 20 i`. */
  lemma {:induction false} ChunksAreSlices(data: seq<byte>)
    ensures |Chunks(data)| == (|data| + SEND_BUF_SIZE - 1) / SEND_BUF_SIZE
    ensures forall i :: 0 <= i < |Chunks(data)| ==>
      && 0 < |Chunks(data)[i]| <= SEND_BUF_SIZE
      && i * SEND_BUF_SIZE < |data|
      && Chunks(data)[i] == PySlice(data, i * SEND_BUF_SIZE, i * SEND_BUF_SIZE + SEND_BUF_SIZE)
    decreases |data|
  {
    if |data| > SEND_BUF_SIZE {
      var rest := data[SEND_BUF_SIZE..];
      ChunksAreSlices(rest);
      var cs := Chunks(data);
      assert cs[1..] == Chunks(rest);
      forall i | 0 <= i < |cs|
        ensures && 0 < |cs[i]| <= SEND_BUF_SIZE
                && i * SEND_BUF_SIZE < |data|
                && cs[i] == PySlice(data, i * SEND_BUF_SIZE, i * SEND_BUF_SIZE + SEND_BUF_SIZE)
      {
        if i > 0 {
          assert cs[i] == Chunks(rest)[i - 1];
          var lo := (i - 1) * SEND_BUF_SIZE;
          assert lo + SEND_BUF_SIZE == i * SEND_BUF_SIZE;
          var hi := if lo + SEND_BUF_SIZE <= |rest| then lo + SEND_BUF_SIZE else |rest|;
          assert rest[lo..hi] == data[lo + SEND_BUF_SIZE..hi + SEND_BUF_SIZE];
        }
      }
    }
  }

  /** The slice `send` cuts at `pos = 20 i` is chunk `i`, and the slice
      after the last chunk is empty, which ends the loop. */
  lemma SliceIsChunk(data: seq<byte>, i: nat, pos: nat)
    requires i <= |Chunks(data)| && pos == i * SEND_BUF_SIZE
    ensures PySlice(data, pos, pos + SEND_BUF_SIZE)
      == if i < |Chunks(data)| then Chunks(data)[i] else []
    ensures i < |Chunks(data)| ==> Chunks(data)[i] != []
  {
    ChunksAreSlices(data);
  }

  /** The link steps of sending `chunks` one after another. */
  function SendSteps(chunks: seq<seq<byte>>): seq<GattStep>
  {
    if chunks == [] then [] else [ClearAck, Write(chunks[0]), AwaitAck] + SendSteps(chunks[1..])
  }

  /** The chunks a sequence of link steps writes, in order. */
  function Writes(steps: seq<GattStep>): seq<seq<byte>>
  {
    if steps == [] then []
    else (if steps[0].Write? then [steps[0].chunk] else []) + Writes(steps[1..])
  }

  /** Sending `n` chunks takes `3 n` steps on the link. */
  lemma {:induction false} SendStepsLength(chunks: seq<seq<byte>>)
    ensures |SendSteps(chunks)| == 3 * |chunks|
  {
    if chunks != [] {
      SendStepsLength(chunks[1..]);
    }
  }

  /** Chunk `i` is written at step `3 i + 1`, after a clear of the
      acknowledgment event and before exactly one wait for it. */
  lemma {:induction false} SendStepsAt(chunks: seq<seq<byte>>, i: nat)
    requires i < |chunks|
    ensures |SendSteps(chunks)| == 3 * |chunks|
    ensures SendSteps(chunks)[3 * i] == ClearAck
    ensures SendSteps(chunks)[3 * i + 1] == Write(chunks[i])
    ensures SendSteps(chunks)[3 * i + 2] == AwaitAck
  {
    SendStepsLength(chunks);
    if i > 0 {
      SendStepsAt(chunks[1..], i - 1);
      var tail := SendSteps(chunks[1..]);
      var head := [ClearAck, Write(chunks[0]), AwaitAck];
      assert SendSteps(chunks) == head + tail;
      assert (head + tail)[3 * i] == tail[3 * (i - 1)];
      assert (head + tail)[3 * i + 1] == tail[3 * (i - 1) + 1];
      assert (head + tail)[3 * i + 2] == tail[3 * (i - 1) + 2];
    }
  }

  /** The link steps of a send write exactly its chunks, once each, in order. */
  lemma {:induction false} WritesOfSendSteps(chunks: seq<seq<byte>>)
    ensures Writes(SendSteps(chunks)) == chunks
  {
    if chunks != [] {
      WritesOfSendSteps(chunks[1..]);
      var tail := SendSteps(chunks[1..]);
      var steps := [ClearAck, Write(chunks[0]), AwaitAck] + tail;
      assert steps[1..] == [Write(chunks[0]), AwaitAck] + tail;
      assert steps[1..][1..] == [AwaitAck] + tail;
      assert steps[1..][1..][1..] == tail;
      assert Writes(steps[1..][1..]) == Writes(tail);
      assert Writes(steps) == [chunks[0]] + Writes(tail);
    }
  }

  /** The notification waited for after chunk `i`. */
  function AckAt(acks: seq<Notification>, i: nat): Notification
  {
    if i < |acks| then acks[i] else Silent
  }

  /** The index of the first of `n` chunks not acknowledged with `READY_OK`,
      or `n` if all of them are. */
  function FirstUnacked(acks: seq<Notification>, n: nat, from: nat): (k: nat)
    requires from <= n
    ensures from <= k <= n
    ensures forall i :: from <= i < k ==> AckAt(acks, i) == Ack(READY_OK)
    ensures k < n ==> AckAt(acks, k) != Ack(READY_OK)
    decreases n - from
  {
    if from == n || AckAt(acks, from) != Ack(READY_OK) then from
    else FirstUnacked(acks, n, from + 1)
  }

  /** The link steps the chunk loop of `send` takes and how it ends. */
  datatype SendTrace = SendTrace(outcome: Outcome, steps: seq<GattStep>)

  /** The chunk loop of `send` from chunk `i` on: each chunk is preceded by
      a clear of the event and followed by a wait for it; a wait that does
      not end with `READY_OK` ends the call with a timeout. */
  function SendFrom(cs: seq<seq<byte>>, acks: seq<Notification>, i: nat): SendTrace
    decreases |cs| - i
  {
    if i >= |cs| then SendTrace(Done, [])
    else
      var head := [ClearAck, Write(cs[i]), AwaitAck];
      if AckAt(acks, i) == Ack(READY_OK) then
        var t := SendFrom(cs, acks, i + 1);
        t.(steps := head + t.steps)
      else SendTrace(Failed(AckTimeout), head)
  }

  /** The loop completes when every chunk from `i` on is acknowledged and
      otherwise times out at the first chunk that is not, having sent the
      chunks up to and including that one and no other. */
  lemma {:induction false} SendFromStopsAtFirstUnacked(cs: seq<seq<byte>>, acks: seq<Notification>, i: nat)
    requires i <= |cs|
    ensures var k := FirstUnacked(acks, |cs|, i);
      && (k == |cs| ==> SendFrom(cs, acks, i) == SendTrace(Done, SendSteps(cs[i..])))
      && (k < |cs| ==> SendFrom(cs, acks, i) == SendTrace(Failed(AckTimeout), SendSteps(cs[i..k + 1])))
    decreases |cs| - i
  {
    if i == |cs| {
      assert cs[i..] == [];
    } else {
      var k := FirstUnacked(acks, |cs|, i);
      var head := [ClearAck, Write(cs[i]), AwaitAck];
      if AckAt(acks, i) == Ack(READY_OK) {
        SendFromStopsAtFirstUnacked(cs, acks, i + 1);
        assert k == FirstUnacked(acks, |cs|, i + 1);
        var upto := if k < |cs| then k + 1 else |cs|;
        assert cs[i..upto][0] == cs[i] && cs[i..upto][1..] == cs[i + 1..upto];
        assert cs[i..upto] == cs[i..] || k < |cs|;
      } else {
        assert cs[i..k + 1] == [cs[i]];
        assert SendSteps([cs[i]]) == head + SendSteps([]);
      }
    }
  }

  /** The frame check `receive` makes on each poll. */
  datatype Taking = Taking(completed: bool, frame: seq<byte>, pending: seq<byte>, polls: nat)

  /** The polling loop of `receive` from receive buffer `pending`, where
      `arrivals[k]` is what notifications append during the k-th sleep; when
      the arrivals run out the caller's timeout has cancelled the call. */
  function TakeFrame(pending: seq<byte>, arrivals: seq<seq<byte>>): Taking
    decreases |arrivals|
  {
    if EndsFrame(pending) then Taking(true, pending, [], 0)
    else if arrivals == [] then Taking(false, [], pending, 0)
    else
      var t := TakeFrame(pending + arrivals[0], arrivals[1..]);
      t.(polls := t.polls + 1)
  }

  /** `receive` hands over the receive buffer at the first poll that finds a
      whole frame in it and at no earlier poll; the frame is everything that
      had been buffered, nothing lost or repeated; cancelled, it leaves every
      buffered byte in the receive buffer and the caller's buffer untouched. */
  lemma {:induction false} TakeFrameAtFirstFrameEnd(pending: seq<byte>, arrivals: seq<seq<byte>>)
    ensures var r := TakeFrame(pending, arrivals);
      && r.polls <= |arrivals|
      && (forall j :: 0 <= j < r.polls ==> !EndsFrame(pending + Concat(arrivals[..j])))
      && r.frame + r.pending == pending + Concat(arrivals[..r.polls])
      && (r.completed ==> EndsFrame(r.frame) && r.pending == [])
      && (!r.completed ==> r.frame == [] && r.polls == |arrivals| && !EndsFrame(r.pending))
    decreases |arrivals|
  {
    assert arrivals[..0] == [];
    if !EndsFrame(pending) && arrivals != [] {
      var b := pending + arrivals[0];
      var t := arrivals[1..];
      TakeFrameAtFirstFrameEnd(b, t);
      var r' := TakeFrame(b, t);
      forall j | 0 <= j <= |t|
        ensures pending + Concat(arrivals[..j + 1]) == b + Concat(t[..j])
      {
        assert arrivals[..j + 1] == [arrivals[0]] + t[..j];
        assert ([arrivals[0]] + t[..j])[1..] == t[..j];
      }
      forall j | 0 <= j < r'.polls + 1
        ensures !EndsFrame(pending + Concat(arrivals[..j]))
      {
        if j > 0 {
          assert pending + Concat(arrivals[..j]) == b + Concat(t[..j - 1]);
        }
      }
    }
  }

  /** A `BLEKPZ` object: whether it has a client and whether that client is
      connected, the acknowledgment event, the receive buffer, and a ghost log
      of the steps `send` takes on the link. */
  class BLEKPZ {
    const addr: string
    var hasClient: bool
    var connected: bool
    var chunkIsSend: bool
    var recvBuff: seq<byte>
    ghost var gatt: seq<GattStep>

    /** The dataclass constructor: configuration only, no client. */
    constructor (addr: string)
      ensures this.addr == addr && !hasClient && !connected && !IsOpen()
      ensures recvBuff == [] && gatt == []
    {
      this.addr := addr;
      hasClient := false;
      connected := false;
      chunkIsSend := false;
      recvBuff := [];
      gatt := [];
    }

    /** `is_open`: a client exists and is connected; false before any
        client has been created. */
    predicate IsOpen()
      reads this
    {
      hasClient && connected
    }

    /** The state `__connect` leaves: a new, unset event and a client;
        when the connection succeeds, an empty receive buffer. `linkUp` is the
        outcome of the client's `connect`. */
    method Connect(linkUp: bool) returns (r: Outcome)
      modifies this`hasClient, this`connected, this`chunkIsSend, this`recvBuff
      ensures hasClient && !chunkIsSend
      ensures linkUp ==> r == Done && connected && recvBuff == []
      ensures !linkUp ==> r == Failed(ConnectFailed) && !connected && recvBuff == old(recvBuff)
    {
      chunkIsSend := false;
      hasClient := true;
      connected := linkUp;
      if !linkUp {
        return Failed(ConnectFailed);
      }
      recvBuff := [];
      r := Done;
    }

    /** `close`: disconnects the client; without a client it raises. */
    method Close() returns (r: Outcome)
      modifies this`connected
      ensures !old(hasClient) ==> r == Failed(NoClient) && connected == old(connected)
      ensures old(hasClient) ==> r == Done && !connected
    {
      if !hasClient {
        return Failed(NoClient);
      }
      connected := false;
      r := Done;
    }

    /** `ready_handle`: the notification callback of the ready
        characteristic. It sets the event on `READY_OK` and raises on any
        other value, leaving the event as it was. */
    method ReadyHandle(ack: seq<byte>) returns (r: Outcome)
      modifies this`chunkIsSend
      ensures ack == READY_OK ==> r == Done && chunkIsSend
      ensures ack != READY_OK ==> r == Failed(UnexpectedAck) && chunkIsSend == old(chunkIsSend)
    {
      if ack == READY_OK {
        chunkIsSend := true;
        r := Done;
      } else {
        r := Failed(UnexpectedAck);
      }
    }

    /** `put_recv_buf`: the notification callback of the receive
        characteristic appends what arrived to the receive buffer. */
    method PutRecvBuf(data: seq<byte>)
      modifies this`recvBuff
      ensures recvBuff == old(recvBuff) + data
    {
      recvBuff := recvBuff + data;
    }

    /** `__send_chunk`: writes one chunk and waits for the event; `note` is
        what the ready characteristic delivers during the wait, handed to
        `ready_handle`. The result says whether the event is set when the
        wait ends. */
    method SendChunk(chunk: seq<byte>, note: Notification) returns (acked: bool)
      modifies this`gatt, this`chunkIsSend
      ensures gatt == old(gatt) + [Write(chunk), AwaitAck]
      ensures acked == chunkIsSend
      ensures chunkIsSend == (old(chunkIsSend) || note == Ack(READY_OK))
    {
      gatt := gatt + [Write(chunk)];
      if note.Ack? {
        var _ := ReadyHandle(note.value);
      }
      gatt := gatt + [AwaitAck];
      acked := chunkIsSend;
    }

    /** `send`: refuses without a connected client, then writes the slices
        of `SEND_BUF_SIZE` bytes one by one, clearing the event before each
        and waiting for its acknowledgment after each; `acks[i]` is what
        arrives while waiting after chunk `i`. A chunk left without
        `READY_OK` ends the call with a timeout after its wait. */
    method Send(data: seq<byte>, acks: seq<Notification>) returns (r: Outcome)
      modifies this`gatt, this`chunkIsSend
      ensures !old(hasClient) ==>
        r == Failed(NoClient) && gatt == old(gatt) && chunkIsSend == old(chunkIsSend)
      ensures old(hasClient) && !old(connected) ==>
        r == Failed(NotConnected) && gatt == old(gatt) && chunkIsSend == old(chunkIsSend)
      ensures old(hasClient) && old(connected) ==>
        var cs := Chunks(data);
        var k := FirstUnacked(acks, |cs|, 0);
        && (k == |cs| ==> r == Done && gatt == old(gatt) + SendSteps(cs))
        && (k < |cs| ==> r == Failed(AckTimeout) && gatt == old(gatt) + SendSteps(cs[..k + 1]))
        && (cs != [] ==> chunkIsSend == (k == |cs|))
        && (cs == [] ==> chunkIsSend == old(chunkIsSend))
    {
      if !hasClient {
        return Failed(NoClient);
      }
      if !connected {
        return Failed(NotConnected);
      }
      SendFromStopsAtFirstUnacked(Chunks(data), acks, 0);
      assert Chunks(data)[0..] == Chunks(data);
      r := SendChunks(data, acks);
    }

    /** The chunk loop of `send` once the link is up. */
    method SendChunks(data: seq<byte>, acks: seq<Notification>) returns (r: Outcome)
      modifies this`gatt, this`chunkIsSend
      ensures var t := SendFrom(Chunks(data), acks, 0);
        && r == t.outcome && gatt == old(gatt) + t.steps
        && (Chunks(data) != [] ==> chunkIsSend == (r == Done))
        && (Chunks(data) == [] ==> chunkIsSend == old(chunkIsSend))
    {
      ghost var cs := Chunks(data);
      ghost var all := SendFrom(cs, acks, 0);
      var pos := 0;
      var i := 0;
      while true
        invariant i <= |cs| && pos == i * SEND_BUF_SIZE
        invariant all.outcome == SendFrom(cs, acks, i).outcome
        invariant old(gatt) + all.steps == gatt + SendFrom(cs, acks, i).steps
        invariant 0 < i ==> chunkIsSend
        invariant i == 0 ==> chunkIsSend == old(chunkIsSend)
        decreases |cs| - i
      {
        SliceIsChunk(data, i, pos);
        var c := PySlice(data, pos, pos + SEND_BUF_SIZE);
        if c == [] {
          return Done;
        }
        ghost var g := gatt;
        ghost var head := [ClearAck, Write(c), AwaitAck];
        chunkIsSend := false;
        gatt := gatt + [ClearAck];
        var note := if i < |acks| then acks[i] else Silent;
        assert note == AckAt(acks, i);
        var acked := SendChunk(c, note);
        assert gatt == g + head;
        if !acked {
          return Failed(AckTimeout);
        }
        assert g + (head + SendFrom(cs, acks, i + 1).steps) == gatt + SendFrom(cs, acks, i + 1).steps;
        pos := pos + SEND_BUF_SIZE;
        i := i + 1;
      }
    }

    /** `receive`: polls the receive buffer; once it holds a whole frame,
        moves all of it to `buf` and empties it. `arrivals[k]` is what the
        notification callback appends during the k-th sleep; when they run
        out, the caller's timeout has cancelled the call (`completed` is
        false) and nothing has been moved. */
    method Receive(buf: ByteArray, arrivals: seq<seq<byte>>) returns (completed: bool)
      modifies buf, this`recvBuff
      ensures var r := TakeFrame(old(recvBuff), arrivals);
        && completed == r.completed
        && buf.data == old(buf.data) + r.frame
        && recvBuff == r.pending
    {
      var k := 0;
      while true
        invariant k <= |arrivals|
        invariant buf.data == old(buf.data)
        invariant var r := TakeFrame(recvBuff, arrivals[k..]);
          TakeFrame(old(recvBuff), arrivals) == r.(polls := r.polls + k)
        decreases |arrivals| - k
      {
        var last := if recvBuff == [] then [] else recvBuff[|recvBuff| - 1..];
        if last == [FLAG] && |recvBuff| > 1 {
          buf.data := buf.data + recvBuff;
          recvBuff := [];
          return true;
        }
        if k == |arrivals| {
          return false;
        }
        assert arrivals[k..][0] == arrivals[k] && arrivals[k..][1..] == arrivals[k + 1..];
        PutRecvBuf(arrivals[k]);
        k := k + 1;
      }
    }
  }
}
