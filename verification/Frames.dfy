/**
 The control-frame codec: what a frame looks like on the wire, the decoder over a
 partially filled buffer, and the in-place encoder and decoder that the framed
 streams use.
 */
module Frames {
  import opened Bytes
  import opened Utf8

  const AUTH_TYPE: byte := 0
  const AUTHENTICATED_TYPE: byte := 1
  const PING_TYPE: byte := 3
  const PONG_TYPE: byte := 4

  const MAX_ID_LENGTH := 255

  predicate ValidId(s: seq<byte>) {
    1 <= |s| <= MAX_ID_LENGTH && ValidUtf8(s)
  }

  /** Auth keys, ingress ids and server ids: 1 to 255 bytes of UTF-8. */
  type Id = s: seq<byte> | ValidId(s) witness [97]

  /** The 16 bytes of a UUID. */
  type Uuid = s: seq<byte> | |s| == 16 witness [0, 0, 0, 0, 0, 0, 0, 0, 0, 0, 0, 0, 0, 0, 0, 0]

  datatype Frame =
    | Auth(authKey: Id, ingressId: Id)
    | Authenticated(tunnelId: Uuid, serverId: Id)
    | Ping
    | Pong

  datatype DecodeError = InvalidAuthKey | InvalidIngressId | InvalidServerId

  /** One `decode` call. `Panic` stands for an out-of-range index, advance or split. */
  datatype Decoded =
    | Panic
    | Pending
    | Item(frame: Frame, rest: seq<byte>)
    | Failed(error: DecodeError, rest: seq<byte>)

  /** Frames that carry a 16-bit payload length after the type byte. */
  predicate HasHeader(f: Frame) {
    f.Auth? || f.Authenticated?
  }

  function Field(s: Id): seq<byte> {
    [|s|] + s
  }

  function Payload(f: Frame): (p: seq<byte>)
    ensures |p| < 65536
  {
    match f
    case Auth(key, id) => Field(key) + Field(id)
    case Authenticated(tunnel, server) => Field(server) + tunnel
    case _ => []
  }

  function TypeByte(f: Frame): byte {
    match f
    case Auth(_, _) => AUTH_TYPE
    case Authenticated(_, _) => AUTHENTICATED_TYPE
    case Ping => PING_TYPE
    case Pong => PONG_TYPE
  }

  function Encode(f: Frame): (r: seq<byte>)
    ensures r != []
  {
    if HasHeader(f) then [TypeByte(f)] + U16Bytes(|Payload(f)|) + Payload(f) else [TypeByte(f)]
  }

  function EncodeAll(fs: seq<Frame>): seq<byte> {
    if fs == [] then [] else Encode(fs[0]) + EncodeAll(fs[1..])
  }

  /** `get_u8` followed by `split_to`: a length byte and that many bytes, or a panic. */
  function TakeField(p: seq<byte>): (r: Option<(seq<byte>, seq<byte>)>)
    ensures r.Some? ==> p == [|r.value.0|] + r.value.0 + r.value.1
  {
    if p == [] then None else
      var n: nat := p[0];
      if |p| < 1 + n then None else Some((p[1..1 + n], p[1 + n..]))
  }

  function DecodeAuthPayload(p: seq<byte>): Decoded {
    match TakeField(p)
    case None => Panic
    case Some((key, q)) =>
      match TakeField(q)
      case None => Panic
      case Some((id, rest)) =>
        if !ValidId(key) then Failed(InvalidAuthKey, rest)
        else if !ValidId(id) then Failed(InvalidIngressId, rest)
        else Item(Auth(key, id), rest)
  }

  function DecodeAuthenticatedPayload(p: seq<byte>): Decoded {
    match TakeField(p)
    case None => Panic
    case Some((server, q)) =>
      if |q| < 16 then Panic
      else if !ValidId(server) then Failed(InvalidServerId, q[16..])
      else Item(Authenticated(q[..16], server), q[16..])
  }

  /** The decoder. The header bytes are indexed before their presence is checked. */
  function Decode(b: seq<byte>): (d: Decoded)
    ensures d.Item? || d.Failed? ==> |d.rest| < |b|
  {
    if b == [] then Pending
    else if b[0] == AUTH_TYPE || b[0] == AUTHENTICATED_TYPE then
      if |b| < 3 then Panic
      else if |b| < 3 + U16FromBytes(b[1], b[2]) then Pending
      else if b[0] == AUTH_TYPE then DecodeAuthPayload(b[3..])
      else DecodeAuthenticatedPayload(b[3..])
    else if b[0] == PING_TYPE then Item(Ping, b[1..])
    else if b[0] == PONG_TYPE then Item(Pong, b[1..])
    else Pending
  }

  // ----- the wire format -----

  /** A 16-bit length, high byte first. */
  lemma BigEndian(n: u16, hi: byte, lo: byte)
    ensures U16Bytes(n) == [n / 256, n % 256]
    ensures U16FromBytes(hi, lo) as int == 256 * hi as int + lo as int
  {
  }

  /** Every frame, byte by byte. */
  lemma WireFormat(f: Frame)
    ensures f == Ping ==> Encode(f) == [3]
    ensures f == Pong ==> Encode(f) == [4]
    ensures f.Auth? ==>
      var key, id := f.authKey, f.ingressId;
      var n := 2 + |key| + |id|;
      Encode(f) == [0, n / 256, n % 256, |key|] + key + [|id|] + id
    ensures f.Authenticated? ==>
      var server := f.serverId;
      var n := 17 + |server|;
      Encode(f) == [1, n / 256, n % 256, |server|] + server + f.tunnelId
  {
    if f.Auth? {
      assert Payload(f) == [|f.authKey|] + f.authKey + [|f.ingressId|] + f.ingressId;
    } else if f.Authenticated? {
      assert Payload(f) == [|f.serverId|] + f.serverId + f.tunnelId;
    }
  }

  /** What the first byte decides. A buffer that starts with any other byte is never decoded, whatever follows. */
  lemma FirstByteDecides(b: byte, rest: seq<byte>)
    ensures b == 3 ==> Decode([b] + rest) == Item(Ping, rest)
    ensures b == 4 ==> Decode([b] + rest) == Item(Pong, rest)
    ensures b !in {0, 1, 3, 4} ==> Decode([b] + rest) == Pending
    ensures b in {0, 1} && |rest| < 2 ==> Decode([b] + rest) == Panic
    ensures b in {0, 1} && |rest| >= 2 ==>
      (Decode([b] + rest) == Pending <==> |rest| - 2 < 256 * rest[0] as int + rest[1] as int)
  {
    var whole := [b] + rest;
    assert whole[1..] == rest;
    if b == 0 && |rest| >= 2 {
      PayloadIsDecided(whole[3..]);
    } else if b == 1 && |rest| >= 2 {
      PayloadIsDecided(whole[3..]);
    }
  }

  lemma PayloadIsDecided(p: seq<byte>)
    ensures DecodeAuthPayload(p) != Pending && DecodeAuthenticatedPayload(p) != Pending
  {
  }

  /** Which ids there are: one to 255 bytes of UTF-8. */
  lemma IdsAre(s: seq<byte>)
    ensures ValidId(s) <==> 1 <= |s| <= 255 && exists cs :: EncodeString(cs) == s
  {
    Utf8Iff(s);
  }

  // ----- one frame -----

  lemma TakeFieldOfField(s: Id, x: seq<byte>)
    ensures TakeField(Field(s) + x) == Some((s, x))
  {
    var p := Field(s) + x;
    assert p[1..1 + |s|] == s && p[1 + |s|..] == x;
  }

  lemma HeaderOf(f: Frame, x: seq<byte>)
    requires HasHeader(f)
    ensures var b := Encode(f) + x;
            && b[0] == TypeByte(f) && |b| >= 3 + |Payload(f)|
            && U16FromBytes(b[1], b[2]) == |Payload(f)| && b[3..] == Payload(f) + x
  {
    var u := U16Bytes(|Payload(f)|);
    assert Encode(f) + x == [TypeByte(f), u[0], u[1]] + (Payload(f) + x);
  }

  lemma DecodePayload(f: Frame, x: seq<byte>)
    ensures f.Auth? ==> DecodeAuthPayload(Payload(f) + x) == Item(f, x)
    ensures f.Authenticated? ==> DecodeAuthenticatedPayload(Payload(f) + x) == Item(f, x)
  {
    match f {
      case Auth(key, id) =>
        assert Payload(f) + x == Field(key) + (Field(id) + x);
        TakeFieldOfField(key, Field(id) + x);
        TakeFieldOfField(id, x);
      case Authenticated(tunnel, server) =>
        assert Payload(f) + x == Field(server) + (tunnel + x);
        TakeFieldOfField(server, tunnel + x);
        assert (tunnel + x)[..16] == tunnel && (tunnel + x)[16..] == x;
      case _ =>
    }
  }

  /** On an encoded frame followed by anything, decode consumes exactly that encoding. */
  lemma DecodeEncode(f: Frame, x: seq<byte>)
    ensures Decode(Encode(f) + x) == Item(f, x)
  {
    var b := Encode(f) + x;
    if HasHeader(f) {
      HeaderOf(f, x);
      DecodePayload(f, x);
    } else {
      assert b[1..] == x;
    }
  }

  /**
   What decode makes of an incomplete frame: nothing yet, buffer untouched, unless
   exactly one or two bytes of a frame with a header are buffered; then it panics.
   */
  lemma DecodeStrictPrefix(f: Frame, n: nat)
    requires n < |Encode(f)|
    ensures Decode(Encode(f)[..n]) == if HasHeader(f) && 1 <= n <= 2 then Panic else Pending
  {
    var b := Encode(f)[..n];
    if n >= 3 {
      assert b[1] == U16Bytes(|Payload(f)|)[0] && b[2] == U16Bytes(|Payload(f)|)[1];
    }
  }

  lemma TakeFieldStable(p: seq<byte>, x: seq<byte>)
    requires TakeField(p).Some?
    ensures TakeField(p + x) == Some((TakeField(p).value.0, TakeField(p).value.1 + x))
  {
    var n: nat := p[0];
    assert (p + x)[1..1 + n] == p[1..1 + n];
    assert (p + x)[1 + n..] == p[1 + n..] + x;
  }

  /** `e` is what `d` must become once `x` is appended to the input, if `d` was decided. */
  predicate Extends(d: Decoded, x: seq<byte>, e: Decoded) {
    match d
    case Item(f, rest) => e == Item(f, rest + x)
    case Failed(err, rest) => e == Failed(err, rest + x)
    case _ => true
  }

  lemma DecodeAuthPayloadStable(p: seq<byte>, x: seq<byte>)
    ensures Extends(DecodeAuthPayload(p), x, DecodeAuthPayload(p + x))
  {
    if TakeField(p).Some? {
      TakeFieldStable(p, x);
      var q := TakeField(p).value.1;
      if TakeField(q).Some? {
        TakeFieldStable(q, x);
      }
    }
  }

  lemma DecodeAuthenticatedPayloadStable(p: seq<byte>, x: seq<byte>)
    ensures Extends(DecodeAuthenticatedPayload(p), x, DecodeAuthenticatedPayload(p + x))
  {
    if TakeField(p).Some? {
      TakeFieldStable(p, x);
      var q := TakeField(p).value.1;
      if |q| >= 16 {
        assert (q + x)[..16] == q[..16] && (q + x)[16..] == q[16..] + x;
      }
    }
  }

  /** More input never changes what a decided decode call returned, for any buffer at all. */
  lemma DecodeStable(b: seq<byte>, x: seq<byte>)
    ensures Extends(Decode(b), x, Decode(b + x))
  {
    if |b| >= 3 && b[0] <= 1 {
      assert (b + x)[3..] == b[3..] + x;
      DecodeAuthPayloadStable(b[3..], x);
      DecodeAuthenticatedPayloadStable(b[3..], x);
    } else if b != [] {
      assert (b + x)[1..] == b[1..] + x;
    }
  }

  /** No encoding is a prefix of another frame's encoding. */
  lemma EncodePrefixFree(f: Frame, g: Frame)
    requires Encode(f) <= Encode(g)
    ensures f == g
  {
    hide Encode, Decode;
    var x := Encode(g)[|Encode(f)|..];
    assert Encode(f) + x == Encode(g) + [];
    DecodeEncode(f, x);
    DecodeEncode(g, []);
  }

  /** The payload length that the length bytes inside a frame with a header add up to, if they are there. */
  function InnerLength(b: seq<byte>): Option<nat>
    requires b != []
  {
    if |b| < 4 then None else
      var first: nat := b[3];
      if b[0] == AUTHENTICATED_TYPE then Some(1 + first + 16)
      else if |b| <= 4 + first then None
      else
        var second: nat := b[4 + first];
        Some(1 + first + 1 + second)
  }

  /**
   The decoder waits for the announced payload length and then trusts the inner lengths
   alone, for both kinds of frames with a header, whether the ids in them are valid or
   not. It panics if and only if the inner lengths reach past the buffer; and it stops
   at the end of the announced payload if and only if they add up to it.
   */
  lemma DecodeHonoursPayloadLengthIff(b: seq<byte>)
    requires |b| >= 3 && (b[0] == AUTH_TYPE || b[0] == AUTHENTICATED_TYPE)
    requires |b| >= 3 + U16FromBytes(b[1], b[2])
    ensures Decode(b).Panic? <==> InnerLength(b).None? || |b| < 3 + InnerLength(b).value
    ensures !Decode(b).Panic? ==>
      && (Decode(b).Item? || Decode(b).Failed?)
      && Decode(b).rest == b[3 + InnerLength(b).value..]
      && (|b| - |Decode(b).rest| == 3 + U16FromBytes(b[1], b[2]) <==>
            InnerLength(b) == Some(U16FromBytes(b[1], b[2])))
  {
    hide ValidId, TakeField;
    FieldAt(b, 3);
    if |b| > 3 && |b| >= 4 + b[3] as int {
      FieldAt(b, 4 + b[3] as int);
    }
  }

  /** A field in the middle of a buffer. */
  lemma FieldAt(b: seq<byte>, k: nat)
    requires k <= |b|
    ensures TakeField(b[k..]).Some? <==> |b| > k && |b| >= k + 1 + b[k] as int
    ensures TakeField(b[k..]).Some? ==>
      && |TakeField(b[k..]).value.0| == b[k] as int
      && TakeField(b[k..]).value.1 == b[k + 1 + b[k] as int..]
  {
  }

  /** An Auth frame whose payload length is too small is decoded all the same, past its announced end. */
  lemma DecodePastPayload()
    ensures Decode([0, 0, 1, 1, 97, 1, 98]) == Item(Auth([97], [98]), [])
  {
    var b: seq<byte> := [0, 0, 1, 1, 97, 1, 98];
    var x: seq<byte> := [98];
    assert ValidUtf8([97][1..]) && ValidUtf8(x[1..]);
    assert b[3..] == [1, 97, 1, 98];
    var p, q: seq<byte> := [1, 97, 1, 98], [1, 98];
    assert p[1..2] == [97] && p[2..] == q;
    assert q[1..2] == x && q[2..] == [];
  }

  /** So is an Authenticated frame that announces no payload at all. */
  lemma DecodePastEmptyPayload(tunnel: Uuid)
    ensures Decode([1, 0, 0, 1, 97] + tunnel) == Item(Authenticated(tunnel, [97]), [])
  {
    var b: seq<byte> := [1, 0, 0, 1, 97] + tunnel;
    var p: seq<byte> := [1, 97] + tunnel;
    assert ValidUtf8([97][1..]);
    assert b[3..] == p && p[1..2] == [97] && p[2..] == tunnel;
    assert tunnel[..16] == tunnel && tunnel[16..] == [];
  }

  // ----- the in-place encoder and decoder -----

  /** The result of an in-place decode; the buffer holds the rest. */
  datatype Outcome =
    | Panicked
    | NoFrame
    | GotFrame(frame: Frame)
    | Error(error: DecodeError)

  lemma AuthLayout(key: Id, id: Id, b: seq<byte>)
    ensures b + [AUTH_TYPE] + U16Bytes(2 + |key| + |id|) + [|key|] + key + [|id|] + id == b + Encode(Auth(key, id))
  {
    assert Payload(Auth(key, id)) == [|key|] + key + [|id|] + id;
  }

  lemma AuthenticatedLayout(tunnel: Uuid, server: Id, b: seq<byte>)
    ensures b + [AUTHENTICATED_TYPE] + U16Bytes(17 + |server|) + [|server|] + server + tunnel
         == b + Encode(Authenticated(tunnel, server))
  {
    assert Payload(Authenticated(tunnel, server)) == [|server|] + server + tunnel;
  }

  lemma PlainLayout(f: Frame)
    requires !HasHeader(f)
    ensures Encode(f) == [TypeByte(f)]
  {
  }

  method EncodeInto(f: Frame, dst: BytesMut)
    modifies dst
    ensures dst.data == old(dst.data) + Encode(f)
  {
    hide Encode, U16Bytes;
    match f {
      case Auth(key, id) =>
        dst.PutU8(AUTH_TYPE);
        dst.PutU16(1 + |key| + 1 + |id|);
        dst.PutU8(|key|);
        dst.PutSlice(key);
        dst.PutU8(|id|);
        dst.PutSlice(id);
        AuthLayout(key, id, old(dst.data));
      case Authenticated(tunnel, server) =>
        dst.PutU8(AUTHENTICATED_TYPE);
        dst.PutU16(1 + |server| + 16);
        dst.PutU8(|server|);
        dst.PutSlice(server);
        dst.PutSlice(tunnel);
        AuthenticatedLayout(tunnel, server, old(dst.data));
      case Ping =>
        dst.PutU8(PING_TYPE);
        PlainLayout(f);
      case Pong =>
        dst.PutU8(PONG_TYPE);
        PlainLayout(f);
    }
  }

  /** What an in-place decode must have done to the buffer `before`. */
  predicate Decodes(before: seq<byte>, after: seq<byte>, r: Outcome) {
    match Decode(before)
    case Panic => r == Panicked
    case Pending => r == NoFrame && after == before
    case Item(f, rest) => r == GotFrame(f) && after == rest
    case Failed(e, rest) => r == Error(e) && after == rest
  }

  method TakeFieldFrom(src: BytesMut) returns (field: Option<seq<byte>>)
    modifies src
    ensures field.Some? <==> TakeField(old(src.data)).Some?
    ensures field.Some? ==> TakeField(old(src.data)).value == (field.value, src.data)
  {
    if src.data == [] {
      return None;
    }
    var n := src.GetU8();
    if |src.data| < n {
      return None;
    }
    var s := src.SplitTo(n);
    field := Some(s);
    var before := old(src.data);
    assert before[1..] == s + src.data;
    assert before[1..1 + |s|] == s && before[1 + |s|..] == src.data;
  }

  method DecodeFrom(src: BytesMut) returns (r: Outcome)
    modifies src
    ensures Decodes(old(src.data), src.data, r)
  {
    if src.data == [] {
      return NoFrame;
    }
    var frameType := src.data[0];
    if frameType == AUTH_TYPE {
      if |src.data| < 3 {
        return Panicked;
      }
      if |src.data| < 3 + U16FromBytes(src.data[1], src.data[2]) {
        return NoFrame;
      }
      src.Advance(3);
      var key := TakeFieldFrom(src);
      if key.None? {
        return Panicked;
      }
      var id := TakeFieldFrom(src);
      if id.None? {
        return Panicked;
      }
      if !ValidId(key.value) {
        return Error(InvalidAuthKey);
      }
      if !ValidId(id.value) {
        return Error(InvalidIngressId);
      }
      return GotFrame(Auth(key.value, id.value));
    } else if frameType == AUTHENTICATED_TYPE {
      if |src.data| < 3 {
        return Panicked;
      }
      if |src.data| < 3 + U16FromBytes(src.data[1], src.data[2]) {
        return NoFrame;
      }
      src.Advance(3);
      var server := TakeFieldFrom(src);
      if server.None? || |src.data| < 16 {
        return Panicked;
      }
      var tunnel := src.SplitTo(16);
      if !ValidId(server.value) {
        return Error(InvalidServerId);
      }
      return GotFrame(Authenticated(tunnel, server.value));
    } else if frameType == PING_TYPE {
      src.Advance(1);
      return GotFrame(Ping);
    } else if frameType == PONG_TYPE {
      src.Advance(1);
      return GotFrame(Pong);
    }
    return NoFrame;
  }
}
