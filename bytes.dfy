/** Bytes, the HDLC flag value and the caller-owned byte buffer shared by every media. */
module Bytes {

  type byte = bv8

  /** The HDLC flag byte that opens and closes every frame. */
  const FLAG: byte := 0x7E

  /** The frame-boundary test of the BLE receive buffer: it is longer than
      one byte and its last byte is the flag. */
  predicate EndsFrame(b: seq<byte>)
  {
    |b| > 1 && b[|b| - 1] == FLAG
  }

  /** The bytes of a sequence of byte strings, in order. */
  function Concat(ss: seq<seq<byte>>): seq<byte>
  {
    if ss == [] then [] else ss[0] + Concat(ss[1..])
  }

  lemma {:induction false} ConcatAppend(ss: seq<seq<byte>>, tt: seq<seq<byte>>)
    ensures Concat(ss + tt) == Concat(ss) + Concat(tt)
  {
    if ss == [] {
      assert ss + tt == tt;
    } else {
      assert (ss + tt)[1..] == ss[1..] + tt;
      ConcatAppend(ss[1..], tt);
    }
  }

  /** Concatenating one more string extends the bytes by exactly that string. */
  lemma ConcatSnoc(ss: seq<seq<byte>>, s: seq<byte>)
    ensures Concat(ss + [s]) == Concat(ss) + s
  {
    ConcatAppend(ss, [s]);
    assert Concat([s]) == s + Concat([]);
  }

  /** The `bytearray` a caller hands to `receive`, which extends it in place. */
  class ByteArray {
    var data: seq<byte>

    constructor (init: seq<byte>)
      ensures data == init
    {
      data := init;
    }
  }
}
