/**
 The SOCKS 4 messages: what the client of Project4/Part1_CGISocketClient/cgi.c
 writes and what the server of Project4/Part2_SocketServer/socksServer.c reads,
 and the server's replies (SOCKS Protocol Version 4, sections "1) CONNECT" and
 "2) BIND", and the 0.0.0.x extension of SOCKS 4A).
 */
module Socks {
  import opened Common
  import opened Text
  import opened FrontEnd
  import opened Address

  const MAX_SOCKS_LEN := 256

  /** Socks4Packet, without its pointers. */
  datatype Packet = Packet(vn: byte, cd: byte, dstport: (byte, byte), dstip: Quad)

  /** The name servers' answer to a host name. */
  type Resolver = Bytes -> Option<Quad>

  // ---------- the server's side ----------

  /** The bytes of `b` from i up to the next NUL, or to the end of the buffer. */
  function CString(b: Bytes, i: nat): Bytes
    requires i <= |b|
    decreases |b| - i
  {
    if i == |b| || b[i] == 0 then [] else [b[i]] + CString(b, i + 1)
  }

  /** An address that stands for a host name: 0.0.0.x with x not 0. */
  predicate NamesHost(q: Quad) { q.a == 0 && q.b == 0 && q.c == 0 && q.d != 0 }

  /** The request in its buffer of 256 bytes, cleared beforehand. */
  function Buffered(request: Bytes): (b: Bytes)
    requires |request| <= MAX_SOCKS_LEN
    ensures |b| == MAX_SOCKS_LEN
  {
    request + seq(MAX_SOCKS_LEN - |request|, i => 0)
  }

  /** What the server makes of a request; None: not version 4. */
  function Decoded(request: Bytes, resolve: Resolver): Option<Packet>
    requires 1 <= |request| <= MAX_SOCKS_LEN
  {
    var b := Buffered(request);
    if b[0] != 4 then None
    else
      var q := Quad(b[4], b[5], b[6], b[7]);
      Some(Packet(b[0], b[1], (b[2], b[3]), if NamesHost(q) then resolve(HostName(b)).GetOr(q) else q))
  }

  /** The host name behind the user id. */
  function HostName(buffer: Bytes): Bytes
    requires |buffer| == MAX_SOCKS_LEN
  {
    var start := 8 + |CString(buffer, 8)| + 1;
    if start <= |buffer| then CString(buffer, start) else []
  }

  /** `sprintf(cnt.dstport, "%d", ...)`. */
  function PortNumber(p: (byte, byte)): nat { p.0 as nat * 256 + p.1 as nat }

  /** `handleSocksRequest`. */
  method HandleSocksRequest(request: Bytes, resolve: Resolver)
    returns (pkt: Option<Packet>, mode: string, dstip: string, dstport: string)
    requires 1 <= |request| <= MAX_SOCKS_LEN
    ensures pkt == Decoded(request, resolve)
    ensures pkt.Some? ==> mode == (if pkt.value.cd == 1 then "c" else "b")
                          && dstip == PrintQuad(pkt.value.dstip) && dstport == Dec(PortNumber(pkt.value.dstport))
  {
    hide CString, PrintQuad, Words, Dec;
    mode, dstip, dstport := "", "", "";
    var buffer := new byte[MAX_SOCKS_LEN](i => 0);
    forall i | 0 <= i < |request| {
      buffer[i] := request[i];
    }
    assert buffer[..] == Buffered(request);
    if buffer[0] != 4 {
      return None, mode, dstip, dstport;
    }
    var q := Quad(buffer[4], buffer[5], buffer[6], buffer[7]);
    var ip := q;
    if !(q.a != 0 || q.b != 0 || q.c != 0) && q.d != 0 {
      var userid := StringAt(buffer, 8);
      var hostname := [];
      if 8 + |userid| + 1 <= buffer.Length {
        hostname := StringAt(buffer, 8 + |userid| + 1);
      }
      var he := resolve(hostname);
      if he.Some? {
        var bytes := BytesOfHost(he.value);
        ip := Quad(bytes[0], bytes[1], bytes[2], bytes[3]);
      }
    }
    var p := Packet(buffer[0], buffer[1], (buffer[2], buffer[3]), ip);
    mode := if p.cd == 1 then "c" else "b";
    dstip := PrintQuad(p.dstip);
    dstport := Dec(PortNumber(p.dstport));
    pkt := Some(p);
  }

  /** inet_ntoa, and the loop that takes its text apart again. */
  method BytesOfHost(q: Quad) returns (bytes: seq<byte>)
    ensures bytes == [q.a, q.b, q.c, q.d]
  {
    hide PrintQuad, Words, Dec, ReadsBack;
    QuadWords(q);
    ByteReadsBack(q.a);
    ByteReadsBack(q.b);
    ByteReadsBack(q.c);
    ByteReadsBack(q.d);
    ghost var w := [Dec(q.a as nat), Dec(q.b as nat), Dec(q.c as nat), Dec(q.d as nat)];
    assert forall i :: 0 <= i < 4 ==> AllDigits(w[i]);
    bytes := QuadOfText(PrintQuad(q));
    FourBytes(bytes, q);
  }

  lemma FourBytes(bytes: seq<byte>, q: Quad)
    requires |bytes| == 4 && ReadsBack(q.a) && ReadsBack(q.b) && ReadsBack(q.c) && ReadsBack(q.d)
    requires bytes[0] as nat == Atoi(Dec(q.a as nat)) % 256 && bytes[1] as nat == Atoi(Dec(q.b as nat)) % 256
    requires bytes[2] as nat == Atoi(Dec(q.c as nat)) % 256 && bytes[3] as nat == Atoi(Dec(q.d as nat)) % 256
    ensures bytes == [q.a, q.b, q.c, q.d]
  {
    hide Dec, Atoi;
  }

  /** atoi of the text of a byte, stored in a byte. */
  predicate ReadsBack(b: byte) { Atoi(Dec(b as nat)) % 256 == b as nat }

  lemma ByteReadsBack(b: byte)
    ensures ReadsBack(b)
  {
    hide Dec, Atoi;
    ByteText(b);
  }

  /** A C string in the request buffer, found with strlen. */
  method StringAt(buffer: array<byte>, start: nat) returns (s: Bytes)
    requires start <= buffer.Length
    ensures s == CString(buffer[..], start)
  {
    var i := start;
    s := [];
    while i < buffer.Length && buffer[i] != 0
      invariant start <= i <= buffer.Length
      invariant s + CString(buffer[..], i) == CString(buffer[..], start)
    {
      assert s + ([buffer[i]] + CString(buffer[..], i + 1)) == s + [buffer[i]] + CString(buffer[..], i + 1);
      s := s + [buffer[i]];
      i := i + 1;
    }
    assert s + [] == s;
  }

  // ---------- the client's side ----------

  /** `short dstport = atoi(...)`: sixteen bits, signed. */
  function Short(n: int): (s: int)
    ensures -32768 <= s < 32768
  {
    var m := n % 65536;
    if m >= 32768 then m - 65536 else m
  }

  /** `(s >> 8) & 0xFF` and `s & 0xFF` of a signed number in two's complement. */
  function HighByte(s: int): byte { ((s / 256) % 256) as byte }

  function LowByte(s: int): byte { (s % 256) as byte }

  /** The eight bytes of a CONNECT request. */
  function Encoded(port: int, q: Quad): Bytes {
    [4, 1, HighByte(Short(port)), LowByte(Short(port)), q.a, q.b, q.c, q.d]
  }

  /** The request of `connectServer`: port from the form, address from the name
      server; `unset` is what the array held before, and goes out when there is no
      such host. */
  method BuildRequest(hostPort: string, he: Option<Quad>, unset: Quad) returns (socks4Request: array<byte>)
    ensures fresh(socks4Request) && socks4Request[..] == Encoded(CAtoi(hostPort), he.GetOr(unset))
  {
    hide PrintQuad, Words, Dec, CAtoi;
    socks4Request := new byte[8] [0, 0, 0, 0, unset.a, unset.b, unset.c, unset.d];
    var dstport := Short(CAtoi(hostPort));
    socks4Request[0] := 4;
    socks4Request[1] := 1;
    socks4Request[2] := HighByte(dstport);
    socks4Request[3] := LowByte(dstport);
    if he.Some? {
      var bytes := BytesOfHost(he.value);
      var j := 4;
      while j <= 7
        invariant 4 <= j <= 8
        invariant socks4Request[..4] == [4, 1, HighByte(dstport), LowByte(dstport)]
        invariant forall k :: 4 <= k < j ==> socks4Request[k] == bytes[k - 4]
      {
        socks4Request[j] := bytes[j - 4];
        j := j + 1;
      }
    }
    assert socks4Request[..] ==
           socks4Request[..4] + [socks4Request[4], socks4Request[5], socks4Request[6], socks4Request[7]];
  }

  /** The signed sixteen-bit detour loses nothing. */
  lemma PortSurvivesShort(port: nat)
    requires port < 65536
    ensures PortNumber((HighByte(Short(port)), LowByte(Short(port)))) == port
  {
    var s := Short(port);
    assert s == 256 * (s / 256) + s % 256;
    assert (s / 256) % 256 == port / 256;
  }

  /** The server recovers the port and the address the client asked for: for every
      address that does not stand for a host name, and otherwise when the name is
      not known. */
  lemma ServerDecodesClient(port: nat, q: Quad, resolve: Resolver)
    requires port < 65536
    ensures var pkt := Decoded(Encoded(port, q), resolve);
            && pkt.Some? && pkt.value.vn == 4 && pkt.value.cd == 1
            && PortNumber(pkt.value.dstport) == port
            && (pkt.value.dstip == q <==> !NamesHost(q) || resolve([]).GetOr(q) == q)
  {
    PortSurvivesShort(port);
    var buffer := Buffered(Encoded(port, q));
    assert buffer[8] == 0 && buffer[9] == 0;
    assert HostName(buffer) == [];
  }

  /** A SOCKS 4A request: the address 0.0.0.x, a user id and a host name. */
  function EncodedName(cd: byte, port: nat, x: byte, userid: Bytes, host: Bytes): Bytes {
    [4, cd, ((port / 256) % 256) as byte, (port % 256) as byte, 0, 0, 0, x] + userid + [0] + host + [0]
  }

  lemma {:induction false} CStringReads(b: Bytes, i: nat, s: Bytes)
    requires i + |s| < |b| && b[i..i + |s|] == s && b[i + |s|] == 0 && 0 !in s
    ensures CString(b, i) == s
    decreases |s|
  {
    if s != [] {
      assert b[i] == s[0] && s[0] in s;
      assert b[i + 1..i + |s|] == s[1..];
      CStringReads(b, i + 1, s[1..]);
    }
  }

  /** The server asks the name server for exactly the host the client named. */
  lemma HostNameIsRead(cd: byte, port: nat, x: byte, userid: Bytes, host: Bytes)
    requires 0 !in userid && 0 !in host && 10 + |userid| + |host| <= MAX_SOCKS_LEN
    ensures HostName(Buffered(EncodedName(cd, port, x, userid, host))) == host
  {
    var buffer := Buffered(EncodedName(cd, port, x, userid, host));
    assert buffer[8..8 + |userid|] == userid && buffer[8 + |userid|] == 0;
    CStringReads(buffer, 8, userid);
    var start := 9 + |userid|;
    assert buffer[start..start + |host|] == host && buffer[start + |host|] == 0;
    CStringReads(buffer, start, host);
  }

  /** A SOCKS 4A request from its bytes to the packet: the address is the name
      server's answer for the very host named, and 0.0.0.x if it has none. */
  lemma NamedHostIsDecoded(cd: byte, port: nat, x: byte, userid: Bytes, host: Bytes, resolve: Resolver)
    requires port < 65536 && x != 0 && 0 !in userid && 0 !in host && 10 + |userid| + |host| <= 256
    ensures var pkt := Decoded(EncodedName(cd, port, x, userid, host), resolve);
            && pkt.Some? && pkt.value.vn == 4 && pkt.value.cd == cd && PortNumber(pkt.value.dstport) == port
            && pkt.value.dstip == resolve(host).GetOr(Quad(0, 0, 0, x))
  {
    hide HostName;
    HostNameIsRead(cd, port, x, userid, host);
  }

  /** Every request of version 4 with another address: nothing is asked of the name
      server, whatever follows the address. */
  lemma AddressIsDecoded(cd: byte, port: nat, q: Quad, rest: Bytes, resolve: Resolver)
    requires port < 65536 && 8 + |rest| <= 256 && (q.a != 0 || q.b != 0 || q.c != 0 || q.d == 0)
    ensures var bytes := [4, cd, (port / 256) as byte, (port % 256) as byte, q.a, q.b, q.c, q.d] + rest;
            var pkt := Decoded(bytes, resolve);
            && pkt.Some? && pkt.value.vn == 4 && pkt.value.cd == cd && PortNumber(pkt.value.dstport) == port
            && pkt.value.dstip == q
  {
    hide HostName;
  }

  // ---------- replies ----------

  /** socksConnectReply: the status, and the destination echoed. */
  method SocksConnectReply(request: Packet, status: byte) returns (reply: Bytes)
    ensures reply == [0, status, request.dstport.0, request.dstport.1,
                      request.dstip.a, request.dstip.b, request.dstip.c, request.dstip.d]
  {
    var r := new byte[8](i => 0);
    r[0], r[1] := 0, status;
    r[2], r[3] := request.dstport.0, request.dstport.1;
    r[4], r[5], r[6], r[7] := request.dstip.a, request.dstip.b, request.dstip.c, request.dstip.d;
    reply := r[..];
  }

  /** socksBindReply: the status and the port to connect to. */
  method SocksBindReply(port: nat, status: byte) returns (reply: Bytes)
    requires port < 65536
    ensures |reply| == 8 && reply[0] == 0 && reply[1] == status && reply[4..] == [0, 0, 0, 0]
    ensures PortNumber((reply[2], reply[3])) == port
  {
    var r := new byte[8](i => 0);
    r[0], r[1] := 0, status;
    r[2], r[3] := (port / 256) as byte, (port % 256) as byte;
    r[4], r[5], r[6], r[7] := 0, 0, 0, 0;
    reply := r[..];
  }
}
