/**
 One SOCKS connection from accept to close (socksServer.c, main and doRedirect):
 which replies are sent, when data is relayed, and what of it arrives.
 */
module Relay {
  import opened Common
  import opened Text
  import opened Address
  import opened Rules
  import opened Socks

  const BUFFER_LEN := 2048

  /** What select and read report of one socket in one round: not ready, an error,
      or ready with some bytes at hand (none left: end of stream). */
  datatype Ready = Not | Error | Has(n: nat)

  datatype Round = Round(cli: Ready, ser: Ready)

  datatype End = Open | ClientEnded | ServerEnded

  /** Bytes read from each side so far, and how the loop ended. */
  datatype Progress = Progress(cli: nat, ser: nat, end: End)

  /** How many bytes a read returns when `left` bytes of the stream are to come. */
  function Amount(left: nat, n: nat): (k: nat)
    ensures k <= left && k <= BUFFER_LEN && (k == 0 <==> left == 0)
  {
    var want := if n == 0 then 1 else if n > BUFFER_LEN then BUFFER_LEN else n;
    if want < left then want else if left < BUFFER_LEN then left else BUFFER_LEN
  }

  /** One round of the loop on streams of the given lengths. */
  function Turn(p: Progress, r: Round, cliLen: nat, serLen: nat): Progress
    requires p.cli <= cliLen && p.ser <= serLen
  {
    if p.end != Open then p
    else if r.cli.Has? && p.cli == cliLen then p.(end := ClientEnded)
    else
      var p1 := if r.cli.Has? then p.(cli := p.cli + Amount(cliLen - p.cli, r.cli.n)) else p;
      if r.ser.Has? && p1.ser == serLen then p1.(end := ServerEnded)
      else if r.ser.Has? then p1.(ser := p1.ser + Amount(serLen - p1.ser, r.ser.n))
      else p1
  }

  function Turns(rounds: seq<Round>, n: nat, cliLen: nat, serLen: nat): (p: Progress)
    requires n <= |rounds|
    ensures p.cli <= cliLen && p.ser <= serLen
  {
    if n == 0 then Progress(0, 0, Open) else Turn(Turns(rounds, n - 1, cliLen, serLen), rounds[n - 1], cliLen, serLen)
  }

  /** `doRedirect`, for as many rounds as given. */
  method DoRedirect(fromCli: Bytes, fromSer: Bytes, rounds: seq<Round>) returns (toSer: Bytes, toCli: Bytes, end: End)
    ensures var p := Turns(rounds, |rounds|, |fromCli|, |fromSer|);
            toSer == fromCli[..p.cli] && toCli == fromSer[..p.ser] && end == p.end
    ensures end == Open <==> StillOpen(rounds, |rounds|, |fromCli|, |fromSer|)
    ensures end == Open ==> toSer == fromCli[..Least(|fromCli|, CliOffer(rounds, |rounds|))]
                            && toCli == fromSer[..Least(|fromSer|, SerOffer(rounds, |rounds|))]
    ensures forall n :: 0 <= n < |rounds| && StillOpen(rounds, n, |fromCli|, |fromSer|) ==>
              && (CliDone(rounds, n, |fromCli|) ==>
                    end == ClientEnded && toSer == fromCli
                    && toCli == fromSer[..Least(|fromSer|, SerOffer(rounds, n))])
              && (!CliDone(rounds, n, |fromCli|) && SerDone(rounds, n, |fromSer|) ==>
                    end == ServerEnded && toCli == fromSer
                    && toSer == fromCli[..Least(|fromCli|, CliOffer(rounds, n + 1))])
  {
    hide CliDone, SerDone, StillOpen;
    toSer, toCli, end := [], [], Open;
    var n := 0;
    while n < |rounds| && end == Open
      invariant n <= |rounds|
      invariant var p := Turns(rounds, n, |fromCli|, |fromSer|);
                toSer == fromCli[..p.cli] && toCli == fromSer[..p.ser] && end == p.end
    {
      var r := rounds[n];
      n := n + 1;
      if r.cli.Has? {
        var len := Amount(|fromCli| - |toSer|, r.cli.n);
        if len == 0 {
          end := ClientEnded;
          break;
        }
        toSer := toSer + fromCli[|toSer|..|toSer| + len];
      }
      if r.ser.Has? {
        var len := Amount(|fromSer| - |toCli|, r.ser.n);
        if len == 0 {
          end := ServerEnded;
          break;
        }
        toCli := toCli + fromSer[|toCli|..|toCli| + len];
      }
    }
    EndedStays(rounds, n, |rounds|, |fromCli|, |fromSer|);
    OpenRelay(rounds, |rounds|, |fromCli|, |fromSer|);
    forall k | 0 <= k < |rounds| && StillOpen(rounds, k, |fromCli|, |fromSer|)
               && (CliDone(rounds, k, |fromCli|) || SerDone(rounds, k, |fromSer|))
      ensures Turns(rounds, |rounds|, |fromCli|, |fromSer|) ==
              if CliDone(rounds, k, |fromCli|)
              then Progress(|fromCli|, Least(|fromSer|, SerOffer(rounds, k)), ClientEnded)
              else Progress(Least(|fromCli|, CliOffer(rounds, k + 1)), |fromSer|, ServerEnded)
    {
      EndedRelay(rounds, k, |rounds|, |fromCli|, |fromSer|);
    }
  }

  lemma {:induction false} EndedStays(rounds: seq<Round>, m: nat, n: nat, cliLen: nat, serLen: nat)
    requires m <= n <= |rounds|
    requires Turns(rounds, m, cliLen, serLen).end != Open || m == n
    ensures Turns(rounds, n, cliLen, serLen) == Turns(rounds, m, cliLen, serLen)
  {
    if m < n {
      EndedStays(rounds, m, n - 1, cliLen, serLen);
    }
  }

  /** Every run: the side whose end of stream stops the relay has been delivered
      completely. */
  lemma {:induction false} EndingSideIsDelivered(rounds: seq<Round>, n: nat, cliLen: nat, serLen: nat)
    requires n <= |rounds|
    ensures var p := Turns(rounds, n, cliLen, serLen);
            (p.end == ClientEnded ==> p.cli == cliLen) && (p.end == ServerEnded ==> p.ser == serLen)
  {
    if n != 0 {
      EndingSideIsDelivered(rounds, n - 1, cliLen, serLen);
    }
  }

  function Least(a: nat, b: nat): nat { if a < b then a else b }

  /** One read takes what is at hand, at least one byte and at most 2048. */
  function AtHand(r: Ready): nat {
    match r
    case Has(n) => if n == 0 then 1 else Least(n, 2048)
    case _ => 0
  }

  /** What the first n rounds offer of each stream. */
  function CliOffer(rounds: seq<Round>, n: nat): nat
    requires n <= |rounds|
  {
    if n == 0 then 0 else CliOffer(rounds, n - 1) + AtHand(rounds[n - 1].cli)
  }

  function SerOffer(rounds: seq<Round>, n: nat): nat
    requires n <= |rounds|
  {
    if n == 0 then 0 else SerOffer(rounds, n - 1) + AtHand(rounds[n - 1].ser)
  }

  /** Round n finds a stream that was offered whole before. */
  predicate CliDone(rounds: seq<Round>, n: nat, cliLen: nat)
    requires n < |rounds|
  {
    rounds[n].cli.Has? && CliOffer(rounds, n) >= cliLen
  }

  predicate SerDone(rounds: seq<Round>, n: nat, serLen: nat)
    requires n < |rounds|
  {
    rounds[n].ser.Has? && SerOffer(rounds, n) >= serLen
  }

  /** No round before n did. */
  ghost predicate StillOpen(rounds: seq<Round>, n: nat, cliLen: nat, serLen: nat)
    requires n <= |rounds|
  {
    forall k :: 0 <= k < n ==> !CliDone(rounds, k, cliLen) && !SerDone(rounds, k, serLen)
  }

  /** While the relay is open, exactly what was offered has been passed on, in both
      directions; it is open exactly until a round finds a stream that was offered
      whole before. */
  lemma {:induction false} OpenRelay(rounds: seq<Round>, n: nat, cliLen: nat, serLen: nat)
    requires n <= |rounds|
    ensures var p := Turns(rounds, n, cliLen, serLen);
            && (p.end == Open <==> StillOpen(rounds, n, cliLen, serLen))
            && (p.end == Open ==>
                  p.cli == Least(cliLen, CliOffer(rounds, n)) && p.ser == Least(serLen, SerOffer(rounds, n)))
  {
    if n != 0 {
      OpenRelay(rounds, n - 1, cliLen, serLen);
      assert StillOpen(rounds, n, cliLen, serLen) <==>
             StillOpen(rounds, n - 1, cliLen, serLen)
             && !CliDone(rounds, n - 1, cliLen) && !SerDone(rounds, n - 1, serLen);
    }
  }

  /** What the relay has done when round n, the first that finds a stream offered
      whole before, is over: that stream is delivered; of the other one exactly what
      was offered, and in the round of the server's end the client's data too. */
  lemma {:induction false} EndedRelay(rounds: seq<Round>, n: nat, m: nat, cliLen: nat, serLen: nat)
    requires n < m <= |rounds| && StillOpen(rounds, n, cliLen, serLen)
    requires CliDone(rounds, n, cliLen) || SerDone(rounds, n, serLen)
    ensures var p := Turns(rounds, m, cliLen, serLen);
            if CliDone(rounds, n, cliLen)
            then p == Progress(cliLen, Least(serLen, SerOffer(rounds, n)), ClientEnded)
            else p == Progress(Least(cliLen, CliOffer(rounds, n + 1)), serLen, ServerEnded)
  {
    OpenRelay(rounds, n, cliLen, serLen);
    EndedStays(rounds, n + 1, m, cliLen, serLen);
  }

  /** The client's data arrives: once the relay is open after rounds that offered all
      of it, every byte has been passed on, and the next round in which the client is
      ready ends the relay. */
  lemma ClientIsDelivered(rounds: seq<Round>, n: nat, cliLen: nat, serLen: nat)
    requires n < |rounds| && StillOpen(rounds, n, cliLen, serLen) && CliOffer(rounds, n) >= cliLen
    ensures Turns(rounds, n, cliLen, serLen).cli == cliLen && Turns(rounds, n, cliLen, serLen).end == Open
    ensures Turns(rounds, n + 1, cliLen, serLen).end == ClientEnded <==> rounds[n].cli.Has?
  {
    OpenRelay(rounds, n, cliLen, serLen);
  }

  /** What one round passes on in each direction, and when it ends the relay. */
  lemma RoundPasses(rounds: seq<Round>, n: nat, cliLen: nat, serLen: nat)
    requires n < |rounds|
    ensures var p, q, r := Turns(rounds, n, cliLen, serLen), Turns(rounds, n + 1, cliLen, serLen), rounds[n];
            && q.cli == p.cli + (if p.end == Open then Least(AtHand(r.cli), cliLen - p.cli) else 0)
            && q.ser == p.ser + (if p.end == Open && !(r.cli.Has? && p.cli == cliLen)
                                 then Least(AtHand(r.ser), serLen - p.ser) else 0)
            && (p.end != Open ==> q == p)
            && (p.end == Open ==>
                  q.end == if r.cli.Has? && p.cli == cliLen then ClientEnded
                           else if r.ser.Has? && p.ser == serLen then ServerEnded
                           else Open)
  {
  }

  // ---------- the order of a session ----------

  /** What passiveTCP and getsockname give. */
  datatype Bound = NoSocket | NoName | Listening(port: nat)

  /** What the network answers during one session. */
  datatype Network = Network(connects: bool, bound: Bound, accepts: bool)

  datatype Act = Reply(bytes: Bytes) | Relaying | Closing

  predicate Granted(a: Act) { a.Reply? && |a.bytes| == 8 && a.bytes[0] == 0 && a.bytes[1] == 90 }

  /** The request as numbers; any command but 1 is checked as a bind. */
  function FlowOf(src: Quad, srcPort: nat, p: Packet): Flow {
    Flow(p.cd != 1, src, srcPort, p.dstip, PortNumber(p.dstport))
  }

  /** The relay is reached by a granted CONNECT, or a granted BIND that somebody used. */
  predicate Reaches(cd: byte, net: Network) {
    (cd == 1 && net.connects) || (cd == 2 && net.bound.Listening? && net.accepts)
  }

  /** `main` after accept: from the bytes of the request to the start of the relay. */
  method Session(conf: seq<ConfLine>, src: Quad, srcPort: nat, request: Bytes, resolve: Resolver, net: Network)
    returns (acts: seq<Act>)
    requires GoodConf(conf) && 1 <= |request| <= MAX_SOCKS_LEN
    requires net.bound.Listening? ==> net.bound.port < 65536
    ensures Acted(conf, src, srcPort, request, resolve, net, acts)
  {
    acts := [];
    var pkt, mode, dstip, dstport := HandleSocksRequest(request, resolve);
    if pkt == None {
      return;
    }
    var p := pkt.value;
    var cnt := Connection(mode, PrintQuad(src), Dec(srcPort), dstip, dstport);
    var permit := Decide(conf, cnt, FlowOf(src, srcPort, p));
    if permit {
      if p.cd == 1 {
        if !net.connects {
          var r := SocksConnectReply(p, 91);
          acts := [Reply(r), Closing];
        } else {
          var r := SocksConnectReply(p, 90);
          acts := [Reply(r), Relaying];
        }
      } else if p.cd == 2 {
        // getsockname fails on the -1 of a failed passiveTCP as well
        if net.bound.NoSocket? || net.bound.NoName? {
          return;
        }
        var r := SocksBindReply(net.bound.port, 90);
        acts := [Reply(r)];
        if !net.accepts {
          return;
        }
        var first := r;
        r := SocksBindReply(net.bound.port, 90);
        SamePort(first, r, net.bound.port);
        acts := acts + [Reply(r), Relaying];
      } else {
        var r := SocksConnectReply(p, 91);
        acts := [Reply(r), Closing];
      }
    } else {
      var r := SocksConnectReply(p, 91);
      acts := [Reply(r), Closing];
    }
  }

  lemma SamePort(a: Bytes, b: Bytes, port: nat)
    requires |a| == |b| == 8 && a[..2] == b[..2] && a[4..] == b[4..]
    requires PortNumber((a[2], a[3])) == port == PortNumber((b[2], b[3]))
    ensures a == b
  {
    assert a == a[..2] + [a[2], a[3]] + a[4..] && b == b[..2] + [b[2], b[3]] + b[4..];
  }

  /** A reply to CONNECT: the status, and the packet's own port and address. */
  function Echo(status: byte, p: Packet): Act {
    Reply([0, status, p.dstport.0, p.dstport.1, p.dstip.a, p.dstip.b, p.dstip.c, p.dstip.d])
  }

  /** A reply to BIND that names the port to connect to, and no address. */
  predicate NamesPort(a: Act, port: nat) {
    Granted(a) && PortNumber((a.bytes[2], a.bytes[3])) == port && a.bytes[4..] == [0, 0, 0, 0]
  }

  /** The acts of a session, in order, for a request of version 4. */
  predicate Follows(permit: bool, p: Packet, net: Network, acts: seq<Act>) {
    if !permit || (p.cd != 1 && p.cd != 2) || (p.cd == 1 && !net.connects) then
      acts == [Echo(91, p), Closing]
    else if p.cd == 1 then
      acts == [Echo(90, p), Relaying]
    else if !net.bound.Listening? then
      acts == []
    else if !net.accepts then
      |acts| == 1 && NamesPort(acts[0], net.bound.port)
    else
      |acts| == 3 && NamesPort(acts[0], net.bound.port) && acts[1] == acts[0] && acts[2] == Relaying
  }

  /** The acts of a session for the bytes of any request. */
  ghost predicate Acted(conf: seq<ConfLine>, src: Quad, srcPort: nat, request: Bytes, resolve: Resolver, net: Network,
                        acts: seq<Act>)
    requires GoodConf(conf) && 1 <= |request| <= MAX_SOCKS_LEN
  {
    var pkt := Decoded(request, resolve);
    if pkt == None then acts == []
    else Follows(Allowed(conf, FlowOf(src, srcPort, pkt.value)), pkt.value, net, acts)
  }

  /** Relaying starts exactly when a version 4 request is permitted and its connection
      comes about, after one grant (CONNECT) or two (BIND) and nothing else. */
  lemma RelayOnlyAfterGrant(conf: seq<ConfLine>, src: Quad, srcPort: nat, request: Bytes, resolve: Resolver,
                            net: Network, acts: seq<Act>)
    requires GoodConf(conf) && 1 <= |request| <= MAX_SOCKS_LEN
    requires Acted(conf, src, srcPort, request, resolve, net, acts)
    ensures var pkt := Decoded(request, resolve);
            && (Relaying in acts <==>
                  pkt.Some? && Allowed(conf, FlowOf(src, srcPort, pkt.value)) && Reaches(pkt.value.cd, net))
            && (Relaying in acts ==>
                  && acts[|acts| - 1] == Relaying && |acts| - 1 == (if pkt.value.cd == 1 then 1 else 2)
                  && forall k :: 0 <= k < |acts| - 1 ==> Granted(acts[k]))
  {
    hide Decoded, Allowed;
    if |acts| == 2 {
      assert acts == [acts[0], acts[1]];
    } else if |acts| == 3 {
      assert acts == [acts[0], acts[1], acts[2]];
    } else if |acts| == 1 {
      assert acts == [acts[0]];
    }
  }

  predicate NoReply(acts: seq<Act>) { forall k :: 0 <= k < |acts| ==> !acts[k].Reply? }

  /** A request gets no reply exactly when it is not of version 4, or is a permitted
      BIND for which no socket could be had: there the refusal the protocol asks for
      is never sent. */
  lemma UnansweredIff(conf: seq<ConfLine>, src: Quad, srcPort: nat, request: Bytes, resolve: Resolver,
                      net: Network, acts: seq<Act>)
    requires GoodConf(conf) && 1 <= |request| <= MAX_SOCKS_LEN
    requires Acted(conf, src, srcPort, request, resolve, net, acts)
    ensures Decoded(request, resolve) == None <==> request[0] != 4
    ensures var pkt := Decoded(request, resolve);
            NoReply(acts) <==>
              || pkt == None
              || (Allowed(conf, FlowOf(src, srcPort, pkt.value)) && pkt.value.cd == 2 && !net.bound.Listening?)
  {
    hide Allowed;
    if acts != [] {
      assert acts[0].Reply?;
    }
  }

  /** A request of version 5 gets no reply. */
  lemma OtherVersion(conf: seq<ConfLine>, src: Quad, srcPort: nat, resolve: Resolver, net: Network, acts: seq<Act>)
    requires GoodConf(conf)
    ensures Acted(conf, src, srcPort, [5, 1, 0, 80, 1, 2, 3, 4, 0], resolve, net, acts) <==> acts == []
  {
    hide HostName;
  }

  /** A BIND request for 1.2.3.4, port 80, under a rule that permits every BIND,
      when no socket can be had: no reply is sent. */
  lemma BindWithoutSocket(src: Quad, srcPort: nat, resolve: Resolver, connects: bool, accepts: bool, acts: seq<Act>)
    ensures var conf, net := [Line(Anything(true))], Network(connects, NoSocket, accepts);
            && GoodConf(conf)
            && (Acted(conf, src, srcPort, [4, 2, 0, 80, 1, 2, 3, 4, 0], resolve, net, acts) <==> acts == [])
  {
    hide HostName, Follows;
    var rule := Anything(true);
    var conf := [Line(rule)];
    var pkt := Decoded([4, 2, 0, 80, 1, 2, 3, 4, 0], resolve);
    assert pkt.value.cd == 2;
    assert RulesOf(conf, 0) == [] && RulesOf(conf, 1) == [rule];
    assert InForce(conf)[0] == rule && Allows(rule, FlowOf(src, srcPort, pkt.value));
    NoSocketNoReply(pkt.value, Network(connects, NoSocket, accepts), acts);
  }

  lemma NoSocketNoReply(p: Packet, net: Network, acts: seq<Act>)
    requires net.bound == NoSocket && p.cd == 2
    ensures Follows(true, p, net, acts) <==> acts == []
  {
  }
}
