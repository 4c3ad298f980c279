/**
 UDP datagrams inside the tunnel: each carries the address of its origin in front of
 the payload.
 */
module Datagrams {
  import opened Bytes

  const UDP_IPV4_ORIGIN: byte := 0
  const UDP_IPV6_ORIGIN: byte := 1

  type Ipv4 = s: seq<byte> | |s| == 4 witness [0, 0, 0, 0]
  type Ipv6 = s: seq<byte> | |s| == 16 witness [0, 0, 0, 0, 0, 0, 0, 0, 0, 0, 0, 0, 0, 0, 0, 0]

  datatype SocketAddr =
    | V4(ip4: Ipv4, port: u16)
    | V6(ip6: Ipv6, port: u16, flowInfo: nat, scopeId: nat)

  /** The address as the wire carries it: flow information and scope are lost. */
  function WireAddr(a: SocketAddr): SocketAddr {
    if a.V6? then a.(flowInfo := 0, scopeId := 0) else a
  }

  function Header(a: SocketAddr): seq<byte> {
    match a
    case V4(ip, port) => [UDP_IPV4_ORIGIN] + ip + U16Bytes(port)
    case V6(ip, port, _, _) => [UDP_IPV6_ORIGIN] + ip + U16Bytes(port)
  }

  /** The header, byte by byte: kind, address, port with its high byte first. */
  lemma HeaderFormat(a: SocketAddr)
    ensures a.V4? ==> Header(a) == [0] + a.ip4 + [a.port / 256, a.port % 256]
    ensures a.V6? ==> Header(a) == [1] + a.ip6 + [a.port / 256, a.port % 256]
  {
  }

  /** What the first byte of a datagram decides. */
  lemma KindDecides(kind: byte, rest: seq<byte>)
    ensures Extract([]) == Truncated
    ensures kind <= 1 && |rest| < (if kind == 0 then 6 else 18) ==> Extract([kind] + rest) == Truncated
    ensures kind == 0 && |rest| >= 6 ==>
      Extract([kind] + rest) == Origin(V4(rest[..4], 256 * rest[4] as int + rest[5] as int), rest[6..])
    ensures kind == 1 && |rest| >= 18 ==>
      Extract([kind] + rest) == Origin(V6(rest[..16], 256 * rest[16] as int + rest[17] as int, 0, 0), rest[18..])
    ensures kind > 1 ==> Extract([kind] + rest) == UnknownOrigin(rest)
  {
    var b := [kind] + rest;
    assert b[1..] == rest;
    if kind == 0 && |rest| >= 6 {
      assert b[1..5] == rest[..4] && b[7..] == rest[6..];
    } else if kind == 1 && |rest| >= 18 {
      assert b[1..17] == rest[..16] && b[19..] == rest[18..];
    }
  }

  /** The datagram for the first `size` bytes of `data`; None is the slice panic. */
  function ToDatagram(a: SocketAddr, data: seq<byte>, size: nat): Option<seq<byte>> {
    if size <= |data| then Some(Header(a) + data[..size]) else None
  }

  datatype Extracted =
    | Truncated                     // a read past the end: panic
    | UnknownOrigin(rest: seq<byte>)
    | Origin(addr: SocketAddr, payload: seq<byte>)

  function Extract(b: seq<byte>): Extracted {
    if b == [] then Truncated
    else if b[0] == UDP_IPV4_ORIGIN then
      if |b| < 7 then Truncated else Origin(V4(b[1..5], U16FromBytes(b[5], b[6])), b[7..])
    else if b[0] == UDP_IPV6_ORIGIN then
      if |b| < 19 then Truncated else Origin(V6(b[1..17], U16FromBytes(b[17], b[18]), 0, 0), b[19..])
    else UnknownOrigin(b[1..])
  }

  lemma ExtractHeader(a: SocketAddr, p: seq<byte>)
    ensures Extract(Header(a) + p) == Origin(WireAddr(a), p)
  {
    var b := Header(a) + p;
    match a {
      case V4(ip, port) =>
        assert b == [UDP_IPV4_ORIGIN] + ip + [U16Bytes(port)[0], U16Bytes(port)[1]] + p;
        assert b[1..5] == ip && b[7..] == p;
      case V6(ip, port, _, _) =>
        assert b == [UDP_IPV6_ORIGIN] + ip + [U16Bytes(port)[0], U16Bytes(port)[1]] + p;
        assert b[1..17] == ip && b[19..] == p;
    }
  }

  /** Whatever extraction accepts is the datagram of what it returned. */
  lemma HeaderOfExtracted(b: seq<byte>)
    requires Extract(b).Origin?
    ensures Header(Extract(b).addr) + Extract(b).payload == b
    ensures WireAddr(Extract(b).addr) == Extract(b).addr
  {
    if b[0] == UDP_IPV4_ORIGIN {
      SplitAround(b, 5);
    } else {
      SplitAround(b, 17);
    }
  }

  lemma SplitAround(b: seq<byte>, n: nat)
    requires 1 <= n && n + 2 <= |b|
    ensures [b[0]] + b[1..n] + U16Bytes(U16FromBytes(b[n], b[n + 1])) + b[n + 2..] == b
  {
    assert U16Bytes(U16FromBytes(b[n], b[n + 1])) == [b[n], b[n + 1]];
  }

  /**
   Extraction returns exactly the first `size` bytes for every address and buffer, and
   the very same address if and only if it carries no flow information and no scope.
   */
  lemma DatagramRoundTrip(a: SocketAddr, data: seq<byte>, size: nat)
    requires size <= |data|
    ensures var r := Extract(ToDatagram(a, data, size).value);
            && r.Origin? && r.payload == data[..size]
            && (r.addr == a <==> (a.V6? ==> a.flowInfo == 0 && a.scopeId == 0))
  {
    ExtractHeader(a, data[..size]);
  }

  /** Two datagrams are equal if and only if wire address and payload are. */
  lemma DatagramInjective(a: SocketAddr, p: seq<byte>, b: SocketAddr, q: seq<byte>)
    ensures Header(a) + p == Header(b) + q <==> WireAddr(a) == WireAddr(b) && p == q
  {
    ExtractHeader(a, p);
    ExtractHeader(b, q);
    if WireAddr(a) == WireAddr(b) {
      assert Header(a) == Header(b);
    }
  }

  lemma FromEmpty(kind: byte, ip: seq<byte>, port: seq<byte>)
    ensures [] + [kind] + ip + port == [kind] + ip + port
  {
  }

  method WriteDatagram(a: SocketAddr, data: seq<byte>, size: nat) returns (d: Option<seq<byte>>)
    ensures d == ToDatagram(a, data, size)
  {
    hide U16Bytes, U16FromBytes;
    var bytes := new BytesMut([]);
    match a {
      case V4(ip, port) =>
        bytes.PutU8(UDP_IPV4_ORIGIN);
        bytes.PutSlice(ip);
        bytes.PutU16(port);
        FromEmpty(UDP_IPV4_ORIGIN, ip, U16Bytes(port));
      case V6(ip, port, _, _) =>
        bytes.PutU8(UDP_IPV6_ORIGIN);
        bytes.PutSlice(ip);
        bytes.PutU16(port);
        FromEmpty(UDP_IPV6_ORIGIN, ip, U16Bytes(port));
    }
    if size > |data| {
      return None;
    }
    assert bytes.data == Header(a);
    hide Header;
    bytes.PutSlice(data[..size]);
    return Some(bytes.data);
  }

  /** Consumes the address from the front of a datagram; the payload stays in the buffer. */
  method ExtractOrigin(bytes: BytesMut) returns (r: Extracted)
    modifies bytes
    ensures r == Extract(old(bytes.data))
    ensures r.Origin? ==> bytes.data == r.payload
    ensures r.UnknownOrigin? ==> bytes.data == r.rest
  {
    if bytes.data == [] {
      return Truncated;
    }
    ghost var b := bytes.data;
    var kind := bytes.GetU8();
    assert bytes.data == b[1..];
    if kind == UDP_IPV4_ORIGIN {
      if |bytes.data| < 6 {
        return Truncated;
      }
      var ip := bytes.SplitTo(4);
      assert ip == b[1..5] && bytes.data == b[5..];
      var hi := bytes.GetU8();
      assert bytes.data == b[6..];
      var lo := bytes.GetU8();
      assert bytes.data == b[7..];
      return Origin(V4(ip, U16FromBytes(hi, lo)), bytes.data);
    } else if kind == UDP_IPV6_ORIGIN {
      if |bytes.data| < 18 {
        return Truncated;
      }
      var ip := bytes.SplitTo(16);
      assert ip == b[1..17] && bytes.data == b[17..];
      var hi := bytes.GetU8();
      assert bytes.data == b[18..];
      var lo := bytes.GetU8();
      assert bytes.data == b[19..];
      return Origin(V6(ip, U16FromBytes(hi, lo), 0, 0), bytes.data);
    }
    return UnknownOrigin(bytes.data);
  }
}
