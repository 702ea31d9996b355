/** The serial media: the state of its pyserial client and the frame-boundary
    receive loop that reads the line one byte at a time. */
module SerialLine {
  import opened Bytes

  /** What one `read()` of the pyserial client returns: one byte, or nothing
      when the inactivity timeout expires first. */
  type ReadResult = s: seq<byte> | |s| <= 1

  /** The end of a receive call: whether a frame boundary was seen, the
      caller's buffer afterwards, and how many read results were consumed. */
  datatype Assembly = Assembly(complete: bool, buf: seq<byte>, taken: nat)

  /** The receive loop over the read results `line` still to come. A line that
      has nothing more to give times out, and that read consumes nothing. */
  function Assemble(buf: seq<byte>, line: seq<ReadResult>): Assembly
    decreases |line|
  {
    if line == [] then Assembly(false, buf, 0)
    else
      var b := buf + line[0];
      if line[0] == [FLAG] && |b| > 1 then Assembly(true, b, 1)
      else if line[0] == [] then Assembly(false, b, 1)
      else
        var r := Assemble(b, line[1..]);
        r.(taken := r.taken + 1)
  }

  /** Read number `i` returns the flag while the buffer, after appending it,
      holds more than one byte. */
  predicate FrameEndAt(buf: seq<byte>, line: seq<ReadResult>, i: int)
    requires 0 <= i < |line|
  {
    line[i] == [FLAG] && |buf + Concat(line[..i + 1])| > 1
  }

  /** Read number `i` ends the loop: a timeout or a frame boundary. */
  predicate StopsAt(buf: seq<byte>, line: seq<ReadResult>, i: int)
    requires 0 <= i < |line|
  {
    line[i] == [] || FrameEndAt(buf, line, i)
  }

  /** Appending the first read to the buffer and then the next `j` reads is
      appending the first `j + 1` reads. */
  lemma ShiftRead(buf: seq<byte>, line: seq<ReadResult>, j: nat)
    requires j < |line|
    ensures buf + Concat(line[..j + 1]) == (buf + line[0]) + Concat(line[1..][..j])
  {
    assert line[..j + 1] == [line[0]] + line[1..][..j];
    assert ([line[0]] + line[1..][..j])[1..] == line[1..][..j];
  }

  /** Whether read `i + 1` stops the loop does not depend on whether the
      first read is counted in the line or already in the buffer. */
  lemma ShiftStop(buf: seq<byte>, line: seq<ReadResult>, i: nat)
    requires i + 1 < |line|
    ensures StopsAt(buf, line, i + 1) == StopsAt(buf + line[0], line[1..], i)
    ensures FrameEndAt(buf, line, i + 1) == FrameEndAt(buf + line[0], line[1..], i)
  {
    ShiftRead(buf, line, i + 1);
  }

  /** The receive loop stops at the first read that times out or closes a
      frame, and at no earlier read; it consumes nothing after it; the buffer
      keeps its old contents as a prefix and gains exactly the bytes read; it
      reports a frame exactly when the last read closed one. */
  lemma {:induction false} AssembleStopsAtFirstBoundary(buf: seq<byte>, line: seq<ReadResult>)
    ensures var r := Assemble(buf, line);
      && r.taken <= |line|
      && r.buf == buf + Concat(line[..r.taken])
      && (forall i :: 0 <= i < r.taken - 1 ==> !StopsAt(buf, line, i))
      && (r.taken < |line| ==> 0 < r.taken && StopsAt(buf, line, r.taken - 1))
      && (r.complete <==> 0 < r.taken && FrameEndAt(buf, line, r.taken - 1))
    decreases |line|
  {
    if line != [] {
      var b := buf + line[0];
      ShiftRead(buf, line, 0);
      assert line[1..][..0] == [];
      if !(line[0] == [FLAG] && |b| > 1) && line[0] != [] {
        var t := line[1..];
        AssembleStopsAtFirstBoundary(b, t);
        var r' := Assemble(b, t);
        ShiftRead(buf, line, r'.taken);
        forall i | 0 <= i < |t|
          ensures StopsAt(buf, line, i + 1) == StopsAt(b, t, i)
          ensures FrameEndAt(buf, line, i + 1) == FrameEndAt(b, t, i)
        {
          ShiftStop(buf, line, i);
        }
        forall i | 0 <= i < r'.taken
          ensures !StopsAt(buf, line, i)
        {
          if i > 0 {
            assert StopsAt(buf, line, i) == StopsAt(b, t, i - 1);
          }
        }
      }
    }
  }

  /** Receive returns True at the first read that closes a frame, provided no
      earlier read stopped the loop, and consumes no further read. */
  lemma ReceiveCompletesAtFirstFlag(buf: seq<byte>, line: seq<ReadResult>, j: nat)
    requires j < |line| && FrameEndAt(buf, line, j)
    requires forall i :: 0 <= i < j ==> !StopsAt(buf, line, i)
    ensures Assemble(buf, line) == Assembly(true, buf + Concat(line[..j + 1]), j + 1)
  {
    AssembleStopsAtFirstBoundary(buf, line);
    assert StopsAt(buf, line, j);
  }

  /** Receive returns False at the first empty read, and the buffer then holds
      its old contents followed by every byte read before it. */
  lemma ReceiveTimesOutAtFirstEmptyRead(buf: seq<byte>, line: seq<ReadResult>, j: nat)
    requires j < |line| && line[j] == []
    requires forall i :: 0 <= i < j ==> !StopsAt(buf, line, i)
    ensures Assemble(buf, line) == Assembly(false, buf + Concat(line[..j]), j + 1)
  {
    AssembleStopsAtFirstBoundary(buf, line);
    assert StopsAt(buf, line, j);
    assert line[..j + 1] == line[..j] + [line[j]];
    ConcatSnoc(line[..j], line[j]);
  }

  /** A line that falls silent before any read stops the loop times out with
      every byte it delivered appended to the buffer. */
  lemma ReceiveTimesOutOnSilentLine(buf: seq<byte>, line: seq<ReadResult>)
    requires forall i :: 0 <= i < |line| ==> !StopsAt(buf, line, i)
    ensures Assemble(buf, line) == Assembly(false, buf + Concat(line), |line|)
  {
    AssembleStopsAtFirstBoundary(buf, line);
    var r := Assemble(buf, line);
    if 0 < r.taken {
      assert !StopsAt(buf, line, r.taken - 1);
    }
    assert line[..|line|] == line;
  }

  /** The receive loop consumes at most the reads it is given, only
      extends the buffer, and reports a frame only on a read of the flag. */
  lemma {:induction false} AssembleExtends(buf: seq<byte>, line: seq<ReadResult>)
    ensures var r := Assemble(buf, line);
      && r.taken <= |line|
      && |buf| <= |r.buf| && r.buf[..|buf|] == buf
      && (r.complete ==> 0 < r.taken && line[r.taken - 1] == [FLAG])
    decreases |line|
  {
    if line != [] {
      var b := buf + line[0];
      assert b[..|buf|] == buf;
      if !(line[0] == [FLAG] && |b| > 1) && line[0] != [] {
        AssembleExtends(b, line[1..]);
        var r' := Assemble(b, line[1..]);
        assert r'.buf[..|buf|] == r'.buf[..|b|][..|buf|];
        if r'.complete {
          assert line[r'.taken] == line[1..][r'.taken - 1];
        }
      }
    }
  }

  /** With an empty buffer a leading flag only opens the frame: the loop goes
      on, and a True result needs a later flag. */
  lemma LoneFlagOpensFrame(line: seq<ReadResult>)
    requires |line| > 0 && line[0] == [FLAG]
    ensures var r := Assemble([], line);
      && r.taken <= |line|
      && (r.complete ==> 2 <= r.taken && line[r.taken - 1] == [FLAG])
      && |r.buf| > 0 && r.buf[0] == FLAG
  {
    var t := line[1..];
    AssembleExtends([FLAG], t);
    var r' := Assemble([FLAG], t);
    assert [] + line[0] == [FLAG];
    assert Assemble([], line) == r'.(taken := r'.taken + 1);
    assert r'.buf[0] == r'.buf[..1][0];
    if r'.complete {
      assert line[r'.taken] == t[r'.taken - 1];
    }
  }

  /** Two flags in a row are a complete (degenerate) two-byte frame. */
  lemma TwoFlagsMakeFrame(rest: seq<ReadResult>)
    ensures Assemble([], [[FLAG], [FLAG]] + rest) == Assembly(true, [FLAG, FLAG], 2)
  {
    var line: seq<ReadResult> := [[FLAG], [FLAG]] + rest;
    assert line[1..][0] == [FLAG];
    assert line[1..][1..] == rest;
  }

  /** The state of a `SerialPort`: its port name, the configuration of its
      pyserial client and whether that client is open, with ghost logs of the
      calls made into the client. */
  class SerialPort {
    const port: string
    var baudrate: int
    var isOpen: bool
    ghost var written: seq<seq<byte>>
    ghost var openCalls: nat
    ghost var closeCalls: nat

    /** `SerialPort.__init__`: a fresh, closed client bound to `port`. */
    constructor (port: string, baudrate: int)
      ensures this.port == port && this.baudrate == baudrate && !isOpen
      ensures written == [] && openCalls == 0 && closeCalls == 0
    {
      this.port := port;
      this.baudrate := baudrate;
      isOpen := false;
      written := [];
      openCalls := 0;
      closeCalls := 0;
    }

    /** `SerialPort.__init__` run again on an existing object: the client is
        replaced by a fresh, closed one for the same port. */
    method Reinit(baudrate: int)
      modifies this`baudrate, this`isOpen
      ensures this.baudrate == baudrate && !isOpen
    {
      this.baudrate := baudrate;
      isOpen := false;
    }

    /** `SerialPort.open`: opens the client. */
    method Open()
      modifies this`isOpen, this`openCalls
      ensures isOpen && openCalls == old(openCalls) + 1
    {
      isOpen := true;
      openCalls := openCalls + 1;
    }

    /** `SerialPort.close`: closes the client. */
    method Close()
      modifies this`isOpen, this`closeCalls
      ensures !isOpen && closeCalls == old(closeCalls) + 1
    {
      isOpen := false;
      closeCalls := closeCalls + 1;
    }

    /** `SerialPort.send`: hands the bytes to the client's write. */
    method Send(data: seq<byte>)
      modifies this`written
      ensures written == old(written) + [data]
    {
      written := written + [data];
    }

    /** `SerialPort.receive`: reads one result at a time from `line`,
        extending `buf` with each, until a read closes a frame (True) or comes
        back empty (False). `taken` is the number of reads consumed, so a
        later call continues with `line[taken..]`. */
    method Receive(buf: ByteArray, line: seq<ReadResult>) returns (ok: bool, taken: nat)
      modifies buf
      ensures var r := Assemble(old(buf.data), line);
        ok == r.complete && buf.data == r.buf && taken == r.taken
    {
      ghost var b0 := buf.data;
      taken := 0;
      while true
        invariant taken <= |line|
        invariant var r := Assemble(buf.data, line[taken..]);
          Assemble(b0, line) == r.(taken := r.taken + taken)
        decreases |line| - taken
      {
        var c: ReadResult := [];
        if taken < |line| {
          c := line[taken];
          assert line[taken..][0] == c && line[taken..][1..] == line[taken + 1..];
          taken := taken + 1;
        }
        buf.data := buf.data + c;
        if c == [FLAG] && |buf.data| > 1 {
          return true, taken;
        }
        if c == [] {
          return false, taken;
        }
      }
    }
  }
}
