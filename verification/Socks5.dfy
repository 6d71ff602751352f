/** The SOCKS5 client handshake (RFC 1928, RFC 1929) over a socket whose reads and writes may be cut anywhere. */
module Socks5 {
  import opened Bytes
  import opened Wrappers

  /** What a socket is to the handshake: the bytes the proxy still delivers before it closes, how many bytes it
      still takes before sending fails, and the bytes sent so far. */
  datatype Wire = Wire(incoming: seq<byte>, capacity: nat, sent: seq<byte>)

  class Socket {
    var incoming: seq<byte>
    var capacity: nat
    var sent: seq<byte>

    function View(): Wire
      reads this
    {
      Wire(incoming, capacity, sent)
    }

    /** `recv`: some bytes, at least one and at most `len`, or no more than 0 once the proxy has closed. */
    method Recv(len: nat) returns (n: int, data: seq<byte>)
      requires len > 0
      modifies this`incoming
      ensures n <= len && (n <= 0 <==> old(incoming) == [])
      ensures n <= 0 ==> incoming == old(incoming)
      ensures n > 0 ==> n == |data| && old(incoming) == data + incoming
    {
      data := [];
      if incoming == [] {
        n :| -1 <= n <= 0;
      } else {
        n :| 1 <= n <= len && n <= |incoming|;
        data := incoming[..n];
        incoming := incoming[n..];
      }
    }

    /** `send`: takes some bytes, at least one, or fails once the capacity is used up. */
    method Send(data: seq<byte>) returns (n: int)
      requires data != []
      modifies this`capacity, this`sent
      ensures n <= |data| && (n <= 0 <==> old(capacity) == 0)
      ensures n <= 0 ==> capacity == old(capacity) && sent == old(sent)
      ensures n > 0 ==> capacity == old(capacity) - n && sent == old(sent) + data[..n]
    {
      if capacity == 0 {
        n :| -1 <= n <= 0;
      } else {
        n :| 1 <= n <= |data| && n <= capacity;
        capacity := capacity - n;
        sent := sent + data[..n];
      }
    }
  }

  // ---------- Specification: whole reads and writes ----------

  function RecvSpec(w: Wire, len: nat): (Wire, Option<seq<byte>>) {
    if len <= |w.incoming| then (w.(incoming := w.incoming[len..]), Some(w.incoming[..len]))
    else (w.(incoming := []), None)
  }

  function SendSpec(w: Wire, data: seq<byte>): (Wire, bool) {
    if |data| <= w.capacity then (w.(capacity := w.capacity - |data|, sent := w.sent + data), true)
    else (w.(capacity := 0, sent := w.sent + data[..w.capacity]), false)
  }

  /** However `recv` cuts the stream, exactly `len` bytes are taken, or all there is. */
  method RecvExact(sock: Socket, len: nat) returns (r: Option<seq<byte>>)
    modifies sock
    ensures (sock.View(), r) == RecvSpec(old(sock.View()), len)
  {
    var buf: seq<byte> := [];
    while |buf| < len
      invariant |buf| <= len && old(sock.incoming) == buf + sock.incoming
      invariant sock.capacity == old(sock.capacity) && sock.sent == old(sock.sent)
      decreases len - |buf|
    {
      var n, data := sock.Recv(len - |buf|);
      if n <= 0 {
        return None;
      }
      buf := buf + data;
    }
    r := Some(buf);
  }

  /** However `send` cuts the data, all of it is sent in order, or as much as the socket takes. */
  method SendAll(sock: Socket, buf: seq<byte>) returns (ok: bool)
    modifies sock
    ensures (sock.View(), ok) == SendSpec(old(sock.View()), buf)
  {
    var sent := 0;
    while sent < |buf|
      invariant sent <= |buf| && sock.incoming == old(sock.incoming)
      invariant sock.sent == old(sock.sent) + buf[..sent] && sock.capacity + sent == old(sock.capacity)
    {
      var n := sock.Send(buf[sent..]);
      if n <= 0 {
        return false;
      }
      assert buf[..sent] + buf[sent..][..n] == buf[..sent + n];
      sent := sent + n;
    }
    assert buf[..sent] == buf;
    ok := true;
  }

  // ---------- Specification: the handshake ----------

  datatype Target = Target(host: seq<byte>, port: nat, user: seq<byte>, pass: seq<byte>)

  predicate HaveCreds(t: Target) {
    t.user != [] || t.pass != []
  }

  predicate Fits(t: Target) {
    |t.user| <= 255 && |t.pass| <= 255 && |t.host| <= 255
  }

  function Greeting(t: Target): seq<byte> {
    if HaveCreds(t) then [5, 2, 0, 2] else [5, 1, 0]
  }

  function AuthPacket(t: Target): seq<byte> {
    [1, Narrow(|t.user|)] + t.user + [Narrow(|t.pass|)] + t.pass
  }

  function ConnectRequest(t: Target): seq<byte> {
    [5, 1, 0, 3, Narrow(|t.host|)] + t.host + [Narrow(t.port / 256), Narrow(t.port)]
  }

  function HandshakeSpec(w: Wire, t: Target): (Wire, bool) {
    if !Fits(t) then (w, false)
    else
      var (w1, ok) := SendSpec(w, Greeting(t));
      if !ok then (w1, false)
      else
        var (w2, reply) := RecvSpec(w1, 2);
        if reply.None? || reply.value[0] != 5 then (w2, false)
        else
          var (w3, agreed) := Authenticate(w2, t, reply.value[1]);
          if !agreed then (w3, false) else Connect(w3, t)
  }

  function Authenticate(w: Wire, t: Target, chosen: byte): (Wire, bool) {
    if chosen == 0 then (w, true)
    else if chosen != 2 || !HaveCreds(t) then (w, false)
    else
      var (w1, ok) := SendSpec(w, AuthPacket(t));
      if !ok then (w1, false)
      else
        var (w2, reply) := RecvSpec(w1, 2);
        (w2, reply.Some? && reply.value[1] == 0)
  }

  function Connect(w: Wire, t: Target): (Wire, bool) {
    var (w1, ok) := SendSpec(w, ConnectRequest(t));
    if !ok then (w1, false)
    else
      var (w2, head) := RecvSpec(w1, 4);
      if head.None? || head.value[1] != 0 then (w2, false)
      else SkipBound(w2, head.value[3])
  }

  /** Takes the bound address and port off the stream. */
  function SkipBound(w: Wire, atyp: byte): (Wire, bool) {
    if atyp == 1 then Skip(w, 6)
    else if atyp == 3 then
      var (w1, len) := RecvSpec(w, 1);
      if len.None? then (w1, false) else Skip(w1, 2 + len.value[0] as nat)
    else if atyp == 4 then Skip(w, 18)
    else (w, false)
  }

  function Skip(w: Wire, len: nat): (Wire, bool) {
    var (w1, junk) := RecvSpec(w, len);
    (w1, junk.Some?)
  }

  // ---------- The handshake itself ----------

  method DoAuthenticate(sock: Socket, t: Target, chosen: byte) returns (ok: bool)
    requires Fits(t)
    modifies sock
    ensures (sock.View(), ok) == Authenticate(old(sock.View()), t, chosen)
  {
    if chosen == 2 {
      if !HaveCreds(t) {
        return false;
      }
      var packet: seq<byte> := [1];
      packet := packet + [Narrow(|t.user|)];
      packet := packet + t.user;
      packet := packet + [Narrow(|t.pass|)];
      packet := packet + t.pass;
      assert packet == AuthPacket(t);
      var sent := SendAll(sock, packet);
      if !sent {
        return false;
      }
      var reply := RecvExact(sock, 2);
      if reply.None? {
        return false;
      }
      return reply.value[1] == 0;
    } else {
      return chosen == 0;
    }
  }

  method DoConnect(sock: Socket, t: Target) returns (ok: bool)
    modifies sock
    ensures (sock.View(), ok) == Connect(old(sock.View()), t)
  {
    var req: seq<byte> := [5, 1, 0, 3];
    req := req + [Narrow(|t.host|)];
    req := req + t.host;
    req := req + [Narrow(t.port / 256)];
    req := req + [Narrow(t.port)];
    assert req == ConnectRequest(t);
    var sent := SendAll(sock, req);
    if !sent {
      return false;
    }
    var head := RecvExact(sock, 4);
    if head.None? || head.value[1] != 0 {
      return false;
    }
    ok := DoSkipBound(sock, head.value[3]);
  }

  method DoSkipBound(sock: Socket, atyp: byte) returns (ok: bool)
    modifies sock
    ensures (sock.View(), ok) == SkipBound(old(sock.View()), atyp)
  {
    var junk: Option<seq<byte>>;
    if atyp == 1 {
      junk := RecvExact(sock, 6);
    } else if atyp == 3 {
      var len := RecvExact(sock, 1);
      if len.None? {
        return false;
      }
      junk := RecvExact(sock, 2 + len.value[0] as nat);
    } else if atyp == 4 {
      junk := RecvExact(sock, 18);
    } else {
      return false;
    }
    ok := junk.Some?;
  }

  /** The verdict, the bytes consumed and the bytes sent depend on the proxy's stream alone, not on how `recv` and
      `send` fragment it. */
  method ProxyHandshake(sock: Socket, t: Target) returns (ok: bool)
    modifies sock
    ensures (sock.View(), ok) == HandshakeSpec(old(sock.View()), t)
  {
    if |t.user| > 255 || |t.pass| > 255 || |t.host| > 255 {
      return false;
    }
    var greeting: seq<byte> := [5];
    if HaveCreds(t) {
      greeting := greeting + [2];
      greeting := greeting + [0];
      greeting := greeting + [2];
    } else {
      greeting := greeting + [1];
      greeting := greeting + [0];
    }
    assert greeting == Greeting(t);
    var sent := SendAll(sock, greeting);
    if !sent {
      return false;
    }
    var reply := RecvExact(sock, 2);
    if reply.None? || reply.value[0] != 5 {
      return false;
    }
    var chosen := reply.value[1];
    if chosen == 255 {
      return false;
    }
    var agreed := DoAuthenticate(sock, t, chosen);
    if !agreed {
      return false;
    }
    ok := DoConnect(sock, t);
  }

  // ---------- The proxy's side: replies as the RFCs lay them out ----------

  datatype Bound = IPv4(addr: seq<byte>) | Domain(name: seq<byte>) | IPv6(addr: seq<byte>)

  /** A proxy's replies to a handshake it lets through. The version and reserved octets are not fixed: the client
      does not look at them. */
  datatype Replies = Replies(chosen: byte, authVersion: byte, version: byte, reserved: byte,
                             bound: Bound, port: seq<byte>)

  predicate ValidReplies(r: Replies, t: Target) {
    && (r.chosen == 0 || (r.chosen == 2 && (t.user != [] || t.pass != [])))
    && (r.bound.IPv4? ==> |r.bound.addr| == 4) && (r.bound.IPv6? ==> |r.bound.addr| == 16)
    && (r.bound.Domain? ==> |r.bound.name| <= 255)
    && |r.port| == 2
  }

  function AuthReply(r: Replies): seq<byte> {
    if r.chosen == 2 then [r.authVersion, 0] else []
  }

  function Atyp(b: Bound): byte {
    match b case IPv4(_) => 1 case Domain(_) => 3 case IPv6(_) => 4
  }

  function BoundBytes(b: Bound): seq<byte> {
    match b
    case IPv4(addr) => addr
    case Domain(name) => [Narrow(|name|)] + name
    case IPv6(addr) => addr
  }

  /** Method reply (section 3 of RFC 1928), sub-negotiation reply if there is one (section 2 of RFC 1929), and
      CONNECT reply (section 6 of RFC 1928). */
  function ReplyBytes(r: Replies): seq<byte> {
    [5, r.chosen] + (AuthReply(r) + ConnectReply(r))
  }

  function ConnectReply(r: Replies): seq<byte> {
    [r.version, 0, r.reserved, Atyp(r.bound)] + (BoundBytes(r.bound) + r.port)
  }

  /** What the client sends in a handshake in which the proxy chooses `method`. */
  function ClientBytes(t: Target, chosen: byte): seq<byte> {
    Greeting(t) + ((if chosen == 2 then AuthPacket(t) else []) + ConnectRequest(t))
  }

  lemma RecvPrefix(w: Wire, a: seq<byte>, rest: seq<byte>)
    requires w.incoming == a + rest
    ensures RecvSpec(w, |a|) == (w.(incoming := rest), Some(a))
  {}

  lemma SkipBoundTakes(w: Wire, r: Replies, t: Target, tail: seq<byte>)
    requires ValidReplies(r, t) && w.incoming == BoundBytes(r.bound) + r.port + tail
    ensures SkipBound(w, Atyp(r.bound)) == (w.(incoming := tail), true)
  {
    match r.bound {
      case IPv4(addr) => RecvPrefix(w, addr + r.port, tail);
      case IPv6(addr) => RecvPrefix(w, addr + r.port, tail);
      case Domain(name) =>
        assert w.incoming == [Narrow(|name|)] + (name + r.port + tail);
        RecvPrefix(w, [Narrow(|name|)], name + r.port + tail);
        RecvPrefix(w.(incoming := name + r.port + tail), name + r.port, tail);
    }
  }

  lemma ConnectTakes(w: Wire, t: Target, r: Replies, tail: seq<byte>)
    requires ValidReplies(r, t) && w.incoming == ConnectReply(r) + tail && w.capacity >= |ConnectRequest(t)|
    ensures Connect(w, t) == (Wire(tail, w.capacity - |ConnectRequest(t)|, w.sent + ConnectRequest(t)), true)
  {
    var head: seq<byte> := [r.version, 0, r.reserved, Atyp(r.bound)];
    var rest := BoundBytes(r.bound) + r.port + tail;
    var w1 := w.(capacity := w.capacity - |ConnectRequest(t)|, sent := w.sent + ConnectRequest(t));
    assert w.incoming == head + rest;
    RecvPrefix(w1, head, rest);
    SkipBoundTakes(w1.(incoming := rest), r, t, tail);
  }

  lemma AuthenticateTakes(w: Wire, t: Target, r: Replies, rest: seq<byte>)
    requires ValidReplies(r, t) && w.incoming == AuthReply(r) + rest
    requires r.chosen == 2 ==> w.capacity >= |AuthPacket(t)|
    ensures var packet := if r.chosen == 2 then AuthPacket(t) else [];
            Authenticate(w, t, r.chosen) == (Wire(rest, w.capacity - |packet|, w.sent + packet), true)
  {
    if r.chosen == 2 {
      var w1 := w.(capacity := w.capacity - |AuthPacket(t)|, sent := w.sent + AuthPacket(t));
      RecvPrefix(w1, AuthReply(r), rest);
    } else {
      assert w.incoming == rest && w.sent + [] == w.sent;
    }
  }

  /** A proxy that replies by the RFCs is let through, and exactly its replies are consumed: the next unread byte is
      the first byte of the tunnel, so TLS starts on a clean buffer. */
  lemma AcceptsReplies(w: Wire, t: Target, r: Replies, tunnel: seq<byte>)
    requires |t.user| <= 255 && |t.pass| <= 255 && |t.host| <= 255 && ValidReplies(r, t)
    requires w.incoming == ReplyBytes(r) + tunnel && w.capacity >= |ClientBytes(t, r.chosen)|
    ensures HandshakeSpec(w, t)
            == (Wire(tunnel, w.capacity - |ClientBytes(t, r.chosen)|, w.sent + ClientBytes(t, r.chosen)), true)
  {
    var w1 := w.(capacity := w.capacity - |Greeting(t)|, sent := w.sent + Greeting(t));
    var first: seq<byte> := [5, r.chosen];
    var rest := AuthReply(r) + (ConnectReply(r) + tunnel);
    ThreeParts(first, AuthReply(r), ConnectReply(r), tunnel);
    RecvPrefix(w1, first, rest);
    AuthenticateTakes(w1.(incoming := rest), t, r, ConnectReply(r) + tunnel);
    var w3 := Authenticate(w1.(incoming := rest), t, r.chosen).0;
    ConnectTakes(w3, t, r, tunnel);
    FourParts(w.sent, Greeting(t), if r.chosen == 2 then AuthPacket(t) else [], ConnectRequest(t));
  }

  /** A target is refused outright, with nothing sent and nothing read, exactly if some field of it is longer than 255
      octets; otherwise the greeting goes out, as far as the socket takes it. */
  lemma RefusedOutright(w: Wire, t: Target)
    ensures HandshakeSpec(w, t).0.sent == w.sent <==>
            |t.user| > 255 || |t.pass| > 255 || |t.host| > 255 || w.capacity == 0
    ensures |t.user| > 255 || |t.pass| > 255 || |t.host| > 255 ==> HandshakeSpec(w, t) == (w, false)
  {
    if Fits(t) {
      GreetingIsSent(w, t);
    }
  }

  lemma GreetingIsSent(w: Wire, t: Target)
    requires Fits(t)
    ensures |HandshakeSpec(w, t).0.sent| >= |w.sent| + if w.capacity < |Greeting(t)| then w.capacity else |Greeting(t)|
    ensures w.capacity == 0 ==> HandshakeSpec(w, t).0.sent == w.sent
  {
    var part := SentPart(w, Greeting(t));
    var (w1, ok) := SendSpec(w, Greeting(t));
    var (w2, reply) := RecvSpec(w1, 2);
    if ok && reply.Some? && reply.value[0] == 5 {
      var auth := SentByAuthenticate(w2, t, reply.value[1]);
      var connect := SentByConnect(Authenticate(w2, t, reply.value[1]).0, t);
    }
  }

  lemma SkipBoundOnlyTakes(w: Wire, atyp: byte) returns (b: Bound, port: seq<byte>)
    requires SkipBound(w, atyp).1
    ensures Atyp(b) == atyp && |port| == 2 && w.incoming == BoundBytes(b) + port + SkipBound(w, atyp).0.incoming
    ensures SkipBound(w, atyp).0.sent == w.sent
    ensures (b.IPv4? ==> |b.addr| == 4) && (b.IPv6? ==> |b.addr| == 16) && (b.Domain? ==> |b.name| <= 255)
  {
    var s := w.incoming;
    if atyp == 1 {
      b, port := IPv4(s[..4]), s[4..6];
    } else if atyp == 4 {
      b, port := IPv6(s[..16]), s[16..18];
    } else {
      var n := s[0];
      b, port := Domain(s[1..][..n]), s[1..][n..n + 2];
      assert s == [n] + s[1..];
    }
  }

  /** The parts of a CONNECT reply that a successful request has consumed. */
  lemma ConnectOnlyTakes(w: Wire, t: Target) returns (version: byte, reserved: byte, bound: Bound, port: seq<byte>)
    requires Connect(w, t).1
    ensures |port| == 2 && (bound.IPv4? ==> |bound.addr| == 4) && (bound.IPv6? ==> |bound.addr| == 16)
    ensures bound.Domain? ==> |bound.name| <= 255
    ensures w.incoming == [version, 0, reserved, Atyp(bound)] + (BoundBytes(bound) + port) + Connect(w, t).0.incoming
    ensures Connect(w, t).0.sent == w.sent + ConnectRequest(t)
  {
    var w1 := SendSpec(w, ConnectRequest(t)).0;
    var (w2, head) := RecvSpec(w1, 4);
    version, reserved := head.value[0], head.value[2];
    bound, port := SkipBoundOnlyTakes(w2, head.value[3]);
    assert w.incoming == head.value + w2.incoming;
    assert head.value == [version, 0, reserved, Atyp(bound)];
    Regroup(head.value, BoundBytes(bound), port, Connect(w, t).0.incoming);
  }

  lemma Regroup(a: seq<byte>, b: seq<byte>, c: seq<byte>, d: seq<byte>)
    ensures a + (b + c + d) == a + (b + c) + d
  {}

  /** The client lets nothing else through: a successful handshake has consumed one well-formed list of replies for
      a method it offered, and has sent exactly the client's part. */
  lemma AcceptsOnlyReplies(w: Wire, t: Target) returns (r: Replies)
    requires HandshakeSpec(w, t).1
    ensures var w2 := HandshakeSpec(w, t).0;
            && |t.user| <= 255 && |t.pass| <= 255 && |t.host| <= 255 && ValidReplies(r, t)
            && w.incoming == ReplyBytes(r) + w2.incoming
            && w2.sent == w.sent + ClientBytes(t, r.chosen)
  {
    var w1 := SendSpec(w, Greeting(t)).0;
    var (w2, reply) := RecvSpec(w1, 2);
    var chosen := reply.value[1];
    var w3 := Authenticate(w2, t, chosen).0;
    var version, reserved, bound, port := ConnectOnlyTakes(w3, t);
    r := Replies(chosen, if chosen == 2 then w2.incoming[0] else 1, version, reserved, bound, port);
    TakenByAuthenticate(w2, t, r);
    assert w.incoming == [5, chosen] + w2.incoming by { assert w.incoming[..2] == [5, chosen]; }
    ThreeParts([5, chosen], AuthReply(r), ConnectReply(r), HandshakeSpec(w, t).0.incoming);
    FourParts(w.sent, Greeting(t), if chosen == 2 then AuthPacket(t) else [], ConnectRequest(t));
  }

  lemma FourParts(a: seq<byte>, b: seq<byte>, c: seq<byte>, d: seq<byte>)
    ensures a + b + c + d == a + (b + (c + d))
  {}

  lemma ThreeParts(a: seq<byte>, b: seq<byte>, c: seq<byte>, d: seq<byte>)
    ensures a + (b + (c + d)) == a + (b + c) + d
  {}

  lemma TakenByAuthenticate(w: Wire, t: Target, r: Replies)
    requires Authenticate(w, t, r.chosen).1 && (r.chosen == 2 ==> w.incoming != [] && r.authVersion == w.incoming[0])
    ensures w.incoming == AuthReply(r) + Authenticate(w, t, r.chosen).0.incoming
    ensures r.chosen == 0 || (r.chosen == 2 && HaveCreds(t))
    ensures Authenticate(w, t, r.chosen).0.sent == w.sent + if r.chosen == 2 then AuthPacket(t) else []
  {}

  lemma SentPart(w: Wire, data: seq<byte>) returns (part: seq<byte>)
    ensures part <= data && SendSpec(w, data).0.sent == w.sent + part
    ensures SendSpec(w, data).1 ==> part == data
    ensures SendSpec(w, data).0.incoming == w.incoming
  {
    part := if |data| <= w.capacity then data else data[..w.capacity];
  }

  lemma SentByConnect(w: Wire, t: Target) returns (part: seq<byte>)
    ensures part <= ConnectRequest(t) && Connect(w, t).0.sent == w.sent + part
  {
    part := SentPart(w, ConnectRequest(t));
  }

  lemma SentByAuthenticate(w: Wire, t: Target, chosen: byte) returns (part: seq<byte>)
    ensures Authenticate(w, t, chosen).0.sent == w.sent + part
    ensures if chosen == 2 && HaveCreds(t) then part <= AuthPacket(t) else part == []
    ensures Authenticate(w, t, chosen).1 ==> chosen == 0 || (chosen == 2 && HaveCreds(t) && part == AuthPacket(t))
  {
    if chosen == 2 && HaveCreds(t) {
      part := SentPart(w, AuthPacket(t));
    } else {
      part := [];
    }
  }

  lemma PrefixOfParts(a: seq<byte>, b: seq<byte>, c: seq<byte>)
    ensures a <= a + (b + c) && a + b <= a + (b + c)
  {
    assert a + (b + c) == a + b + c;
  }

  lemma PrefixUnder(a: seq<byte>, p: seq<byte>, b: seq<byte>)
    requires p <= b
    ensures a + p <= a + b
  {}

  /** In every run, successful or not, the bytes sent are a prefix of the client's part for the method the proxy
      chose: the credentials go out only after the proxy has chosen method 2 and only if there are any. */
  lemma CredentialsOnlyOnRequest(w: Wire, t: Target) returns (part: seq<byte>)
    ensures HandshakeSpec(w, t).0.sent == w.sent + part
    ensures || part <= ClientBytes(t, 0)
            || ((t.user != [] || t.pass != []) && [5, 2] <= w.incoming && part <= ClientBytes(t, 2))
  {
    part := [];
    if Fits(t) {
      part := SentPart(w, Greeting(t));
      var (w1, ok) := SendSpec(w, Greeting(t));
      PrefixUnder([], part, Greeting(t));
      PrefixOfParts(Greeting(t), [], ConnectRequest(t));
      var (w2, reply) := RecvSpec(w1, 2);
      if ok && reply.Some? && reply.value[0] == 5 {
        var chosen := reply.value[1];
        var auth := SentByAuthenticate(w2, t, chosen);
        var (w3, agreed) := Authenticate(w2, t, chosen);
        var connect: seq<byte> := [];
        if agreed {
          connect := SentByConnect(w3, t);
        }
        part := Greeting(t) + (auth + connect);
        FourParts(w.sent, Greeting(t), auth, connect);
        AuthThenConnect(t, chosen, auth, connect);
        assert w.incoming[..2] == [5, chosen];
      }
    }
    assert w.sent + part == HandshakeSpec(w, t).0.sent;
  }

  lemma AuthThenConnect(t: Target, chosen: byte, auth: seq<byte>, connect: seq<byte>)
    requires connect <= ConnectRequest(t)
    requires if chosen == 2 && HaveCreds(t) then auth <= AuthPacket(t) && (connect != [] ==> auth == AuthPacket(t))
             else auth == []
    ensures var part := Greeting(t) + (auth + connect);
            if chosen == 2 && HaveCreds(t) then part <= ClientBytes(t, 2) else part <= ClientBytes(t, 0)
  {
    if chosen == 2 && HaveCreds(t) {
      if auth == AuthPacket(t) {
        PrefixUnder(auth, connect, ConnectRequest(t));
      } else {
        assert auth + connect == auth;
        PrefixOfParts([], AuthPacket(t), ConnectRequest(t));
      }
      PrefixUnder(Greeting(t), auth + connect, AuthPacket(t) + ConnectRequest(t));
    } else {
      assert auth + connect == connect && [] + ConnectRequest(t) == ConnectRequest(t);
      PrefixUnder(Greeting(t), auth + connect, ConnectRequest(t));
    }
  }

  // ---------- The server's side: reading the client's bytes back ----------

  datatype Request = Request(methods: seq<byte>, creds: Option<(seq<byte>, seq<byte>)>, host: seq<byte>, port: nat)

  /** A length-prefixed string at the head of `s`, and the rest. */
  function ReadCounted(s: seq<byte>): Option<(seq<byte>, seq<byte>)> {
    if s == [] then None
    else
      var n := 1 + s[0] as nat;
      if |s| < n then None else Some((s[1..n], s[n..]))
  }

  function ReadConnect(methods: seq<byte>, creds: Option<(seq<byte>, seq<byte>)>, s: seq<byte>): Option<Request> {
    if !([5, 1, 0, 3] <= s) then None
    else
      var name := ReadCounted(s[4..]);
      if name.None? || |name.value.1| != 2 then None
      else Some(Request(methods, creds, name.value.0, name.value.1[0] as nat * 256 + name.value.1[1] as nat))
  }

  function ReadAuth(methods: seq<byte>, s: seq<byte>): Option<Request> {
    if !([1] <= s) then None
    else
      var user := ReadCounted(s[1..]);
      if user.None? then None
      else
        var pass := ReadCounted(user.value.1);
        if pass.None? then None else ReadConnect(methods, Some((user.value.0, pass.value.0)), pass.value.1)
  }

  /** A server that chooses `method`, reading by sections 3 and 4 of RFC 1928 and section 2 of RFC 1929. */
  function ReadClient(s: seq<byte>, chosen: byte): Option<Request> {
    if !([5] <= s) then None
    else
      var methods := ReadCounted(s[1..]);
      if methods.None? || chosen !in methods.value.0 then None
      else if chosen == 2 then ReadAuth(methods.value.0, methods.value.1)
      else ReadConnect(methods.value.0, None, methods.value.1)
  }

  lemma ReadCountedBack(a: seq<byte>, rest: seq<byte>)
    requires |a| <= 255
    ensures ReadCounted([Narrow(|a|)] + a + rest) == Some((a, rest))
  {
    var s := [Narrow(|a|)] + a + rest;
    assert s[0] == |a|;
    assert s[1..1 + |a|] == a && s[1 + |a|..] == rest;
  }

  lemma ReadConnectBack(methods: seq<byte>, creds: Option<(seq<byte>, seq<byte>)>, t: Target)
    requires |t.host| <= 255 && t.port < 65536
    ensures ReadConnect(methods, creds, ConnectRequest(t)) == Some(Request(methods, creds, t.host, t.port))
  {
    var port: seq<byte> := [Narrow(t.port / 256), Narrow(t.port)];
    ReadCountedBack(t.host, port);
    ConnectRequestIs(t, port);
    PortBack(t.port);
  }

  lemma ConnectRequestIs(t: Target, port: seq<byte>)
    requires port == [Narrow(t.port / 256), Narrow(t.port)]
    ensures [5, 1, 0, 3] <= ConnectRequest(t) && ConnectRequest(t)[4..] == [Narrow(|t.host|)] + t.host + port
  {}

  lemma PortBack(port: nat)
    requires port < 65536
    ensures Narrow(port / 256) * 256 + Narrow(port) == port
  {}

  lemma ReadAuthBack(methods: seq<byte>, t: Target)
    requires Fits(t) && t.port < 65536
    ensures ReadAuth(methods, AuthPacket(t) + ConnectRequest(t))
            == Some(Request(methods, Some((t.user, t.pass)), t.host, t.port))
  {
    var s := AuthPacket(t) + ConnectRequest(t);
    var afterUser := [Narrow(|t.pass|)] + t.pass + ConnectRequest(t);
    assert s[1..] == [Narrow(|t.user|)] + t.user + afterUser;
    ReadCountedBack(t.user, afterUser);
    ReadCountedBack(t.pass, ConnectRequest(t));
    ReadConnectBack(methods, Some((t.user, t.pass)), t);
  }

  /** A server reads back exactly the user, password, host and port the client was given: no length octet and no
      port octet is truncated. */
  lemma ServerReadsBack(t: Target, chosen: byte)
    requires |t.user| <= 255 && |t.pass| <= 255 && |t.host| <= 255 && t.port < 65536
    requires chosen == 0 || (chosen == 2 && (t.user != [] || t.pass != []))
    ensures ReadClient(ClientBytes(t, chosen), chosen)
            == Some(Request(if t.user != [] || t.pass != [] then [0, 2] else [0],
                            if chosen == 2 then Some((t.user, t.pass)) else None, t.host, t.port))
  {
    var methods: seq<byte> := if HaveCreds(t) then [0, 2] else [0];
    var rest := (if chosen == 2 then AuthPacket(t) else []) + ConnectRequest(t);
    assert ClientBytes(t, chosen)[1..] == [Narrow(|methods|)] + methods + rest;
    ReadCountedBack(methods, rest);
    if chosen == 2 {
      ReadAuthBack(methods, t);
    } else {
      assert rest == ConnectRequest(t);
      ReadConnectBack(methods, None, t);
    }
  }
}
