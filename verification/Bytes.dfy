/**
 Bytes, machine words and the growable byte buffer that the codecs work on.
 */
module Bytes {

  type byte = x: int | 0 <= x < 256

  type u16 = x: int | 0 <= x < 65536

  datatype Option<+T> = None | Some(value: T)

  /** Big-endian 16-bit integer, as `put_u16` writes it. */
  function U16Bytes(n: u16): (r: seq<byte>)
    ensures |r| == 2 && U16FromBytes(r[0], r[1]) == n
  {
    [n / 256, n % 256]
  }

  function U16FromBytes(hi: byte, lo: byte): u16 {
    256 * hi + lo
  }

  /** Flattens the pieces of a stream back into the stream. */
  function Concat(chunks: seq<seq<byte>>): seq<byte> {
    if chunks == [] then [] else chunks[0] + Concat(chunks[1..])
  }

  /** A growable buffer that is appended to at the back and consumed from the front. */
  class BytesMut {
    var data: seq<byte>

    constructor (initial: seq<byte>)
      ensures data == initial
    {
      data := initial;
    }

    method PutU8(b: byte)
      modifies this
      ensures data == old(data) + [b]
    {
      data := data + [b];
    }

    method PutU16(n: u16)
      modifies this
      ensures data == old(data) + U16Bytes(n)
    {
      data := data + U16Bytes(n);
    }

    method PutSlice(s: seq<byte>)
      modifies this
      ensures data == old(data) + s
    {
      data := data + s;
    }

    method Advance(n: nat)
      requires n <= |data|
      modifies this
      ensures data == old(data)[n..]
    {
      data := data[n..];
    }

    method GetU8() returns (b: byte)
      requires data != []
      modifies this
      ensures [b] + data == old(data)
    {
      b := data[0];
      data := data[1..];
    }

    method SplitTo(n: nat) returns (head: seq<byte>)
      requires n <= |data|
      modifies this
      ensures |head| == n && head + data == old(data)
    {
      head := data[..n];
      data := data[n..];
    }
  }
}
