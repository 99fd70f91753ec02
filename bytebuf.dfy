/**
  The network buffer a building writes its view data into and the client
  view reads it back from: `writeInt` appends the four bytes of a Java int,
  most significant first, and `readInt` consumes four bytes at the reader
  index, failing when fewer than four remain.
 */
module ByteBuf {
  import opened Wrappers
  import opened JavaInt

  type Byte = b: int | 0 <= b < 256

  const TWO_32: int := 0x1_0000_0000

  /** The four bytes of `v` in two's complement, most significant first. */
  function IntBytes(v: Int32): (r: seq<Byte>)
    ensures |r| == 4
  {
    var u: int := if v < 0 then v + TWO_32 else v;
    [u / 0x100_0000, (u / 0x1_0000) % 0x100, (u / 0x100) % 0x100, u % 0x100]
  }

  /** The Java int whose bytes, most significant first, are `bs`. */
  function BytesInt(bs: seq<Byte>): (v: Int32)
    requires |bs| == 4
  {
    var b0, b1, b2, b3: int := bs[0], bs[1], bs[2], bs[3];
    var u := ((b0 * 0x100 + b1) * 0x100 + b2) * 0x100 + b3;
    if u > INT_MAX then u - TWO_32 else u
  }

  /** Reading back the bytes written for `v` gives `v`. */
  lemma IntBytesRoundTrip(v: Int32)
    ensures BytesInt(IntBytes(v)) == v
  {
  }

  class Buffer {
    var data: seq<Byte>
    var readerIndex: nat

    constructor ()
      ensures data == [] && readerIndex == 0
    {
      data := [];
      readerIndex := 0;
    }

    /** writeInt: the int's four bytes, most significant first, are appended. */
    method WriteInt(v: Int32)
      modifies this`data
      ensures data == old(data) + IntBytes(v)
    {
      data := data + IntBytes(v);
    }

    /** readInt; None where the source throws because fewer than four bytes remain. */
    method ReadInt() returns (r: Option<Int32>)
      modifies this`readerIndex
      ensures old(readerIndex) + 4 <= |data| ==>
        r == Some(BytesInt(data[old(readerIndex)..old(readerIndex) + 4])) && readerIndex == old(readerIndex) + 4
      ensures old(readerIndex) + 4 > |data| ==> r == None && readerIndex == old(readerIndex)
    {
      if readerIndex + 4 <= |data| {
        r := Some(BytesInt(data[readerIndex..readerIndex + 4]));
        readerIndex := readerIndex + 4;
      } else {
        r := None;
      }
    }
  }
}
