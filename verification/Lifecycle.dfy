/** Ownership of a connection's socket, TLS handle and HTTP/2 client: how they are acquired and released. */
module Lifecycle {
  import opened Http2Client
  import opened PageHop
  import opened SubresourceScanner
  import opened UrlParser
  import opened Wrappers

  /** Something the process must give back. */
  datatype Handle = SocketHandle(id: int) | SslHandle(id: int) | ClientHandle(client: Client)

  /** What the environment answers to the k-th request made of it. */
  datatype Environment = Environment(
    connects: nat -> bool,
    proxies: nat -> bool,
    tlsInits: nat -> bool,
    handshakes: nat -> Option<string>,
    answers: nat -> (nat -> int),
    receives: nat -> seq<Turn>,
    dec: Decoders)

  /** A request, and the TLS handle that tells the connection on which it was made. */
  datatype Asked = Asked(conn: int, entry: Submission)

  /** The requests made on one connection, in order. */
  function On(asked: seq<Asked>, conn: int): seq<Submission> {
    if asked == [] then []
    else
      var last := asked[|asked| - 1];
      On(asked[..|asked| - 1], conn) + if last.conn == conn then [last.entry] else []
  }

  function Tagged(conn: int, log: seq<Submission>): seq<Asked> {
    seq(|log|, i requires 0 <= i < |log| => Asked(conn, log[i]))
  }

  lemma {:induction false} OnConcat(a: seq<Asked>, b: seq<Asked>, conn: int)
    ensures On(a + b, conn) == On(a, conn) + On(b, conn)
    decreases |b|
  {
    if b == [] {
      assert a + b == a;
    } else {
      var before := b[..|b| - 1];
      assert (a + b)[..|a + b| - 1] == a + before;
      OnConcat(a, before, conn);
    }
  }

  lemma {:induction false} OnTagged(conn: int, log: seq<Submission>, other: int)
    ensures On(Tagged(conn, log), other) == if other == conn then log else []
    decreases |log|
  {
    if log != [] {
      var before := log[..|log| - 1];
      assert Tagged(conn, log)[..|log| - 1] == Tagged(conn, before);
      OnTagged(conn, before, other);
    }
  }

  /** Nothing has been asked on the connection. */
  ghost predicate NoneOn(asked: seq<Asked>, conn: int) {
    forall a :: a in asked ==> a.conn != conn
  }

  lemma {:induction false} OnUnused(asked: seq<Asked>, conn: int)
    requires NoneOn(asked, conn)
    ensures On(asked, conn) == []
    decreases |asked|
  {
    if asked != [] {
      OnUnused(asked[..|asked| - 1], conn);
    }
  }

  /** The process's open handles. Releasing what is not open is not allowed, nor is destroying a client, which
      says goodbye over its TLS handle, when that handle is gone. */
  class World {
    const env: Environment
    var tick: nat
    var nextId: int
    var open: set<Handle>
    /** Every client there ever was, with the TLS handle it talks over. */
    ghost var clients: map<Client, int>
    /** Every handle there ever was, and the handles given back, in order. */
    ghost var acquired: set<Handle>
    ghost var released: seq<Handle>
    /** Every request there ever was, in order of time. */
    ghost var asked: seq<Asked>

    constructor (env: Environment)
      ensures this.env == env && open == {} && clients == map[] && acquired == {} && released == []
      ensures Ledger() && asked == []
    {
      this.env := env;
      tick, nextId, open := 0, 0, {};
      clients, acquired, released, asked := map[], {}, [], [];
    }

    /** Handle numbers are not reused. */
    ghost predicate WasIssued(h: Handle)
      reads this`nextId, this`clients
    {
      match h
      case SocketHandle(s) => s < nextId
      case SslHandle(s) => s < nextId
      case ClientHandle(c) => c in clients
    }

    /** Every handle acquired has either been released, once, or is open. */
    ghost predicate Ledger()
      reads this`nextId, this`clients, this`open, this`acquired, this`released
    {
      && multiset(acquired) == multiset(released) + multiset(open)
      && (forall h :: h in acquired ==> WasIssued(h))
      && (forall c :: c in clients ==> clients[c] < nextId)
    }

    method Ask() returns (k: nat)
      modifies this`tick
      ensures k == old(tick) && tick == k + 1
    {
      k := tick;
      tick := tick + 1;
    }

    method OpenSocket() returns (s: int)
      requires Ledger()
      modifies this`nextId, this`open, this`acquired
      ensures Ledger() && SocketHandle(s) !in old(open) && open == old(open) + {SocketHandle(s)}
    {
      s := nextId;
      nextId := nextId + 1;
      AddOne(acquired, open, released, SocketHandle(s));
      open, acquired := open + {SocketHandle(s)}, acquired + {SocketHandle(s)};
    }

    method NewSsl() returns (s: int)
      requires Ledger()
      modifies this`nextId, this`open, this`acquired
      ensures Ledger() && SslHandle(s) !in old(open) && open == old(open) + {SslHandle(s)}
      ensures s !in clients.Values
    {
      s := nextId;
      nextId := nextId + 1;
      AddOne(acquired, open, released, SslHandle(s));
      open, acquired := open + {SslHandle(s)}, acquired + {SslHandle(s)};
    }

    method NewClient(ssl: int, host: string) returns (c: Client)
      requires Ledger() && SslHandle(ssl) in open
      modifies this`tick, this`open, this`clients, this`acquired
      ensures tick >= old(tick)
      ensures Ledger() && fresh(c) && clients == old(clients)[c := ssl] && open == old(open) + {ClientHandle(c)}
      ensures c.host == host && c.dec == env.dec && c.View() == ClientState(host, true, false, "", map[]) && c.log == []
    {
      assert SslHandle(ssl) in multiset(open) && SslHandle(ssl) in multiset(acquired);
      var k := Ask();
      c := new Client(host, env.dec, env.answers(k));
      AddOne(acquired, open, released, ClientHandle(c));
      open, acquired := open + {ClientHandle(c)}, acquired + {ClientHandle(c)};
      clients := clients[c := ssl];
    }

    /** Gives back an open handle; a client only while its TLS handle is still open. */
    method Release(h: Handle)
      requires Ledger() && h in open
      requires h.ClientHandle? ==> h.client in clients && SslHandle(clients[h.client]) in open
      modifies this`open, this`released
      ensures Ledger() && open == old(open) - {h} && released == old(released) + [h]
    {
      TakeOne(open, released, h);
      open, released := open - {h}, released + [h];
    }
  }

  lemma AddOne(acquired: set<Handle>, open: set<Handle>, released: seq<Handle>, h: Handle)
    requires multiset(acquired) == multiset(released) + multiset(open) && h !in acquired
    ensures h !in open && multiset(acquired + {h}) == multiset(released) + multiset(open + {h})
  {
    assert h !in multiset(acquired) && h !in multiset(open);
    assert multiset(acquired + {h}) == multiset(acquired) + multiset{h};
    assert multiset(open + {h}) == multiset(open) + multiset{h};
  }

  lemma TakeOne(open: set<Handle>, released: seq<Handle>, h: Handle)
    requires h in open
    ensures multiset(released + [h]) + multiset(open - {h}) == multiset(released) + multiset(open)
  {}

  class ConnectionState {
    var sock: Option<int>
    var ssl: Option<int>
    var protocol: string
    var connHost: string
    var connPort: string
    var client: Client?

    constructor ()
      ensures Cleared()
    {
      sock, ssl, protocol, connHost, connPort, client := None, None, "", "", "", null;
    }

    ghost predicate Cleared()
      reads this
    {
      sock.None? && ssl.None? && protocol == "" && connHost == "" && connPort == "" && client == null
    }
  }

  ghost function Held(conn: ConnectionState): set<Handle>
    reads conn
  {
    (if conn.sock.Some? then {SocketHandle(conn.sock.value)} else {})
    + (if conn.ssl.Some? then {SslHandle(conn.ssl.value)} else {})
    + (if conn.client != null then {ClientHandle(conn.client)} else {})
  }

  /** What has been asked so far, the connection in hand, and the time. */
  datatype Moment = Moment(asked: seq<Asked>, line: Option<int>, tick: nat)

  ghost function Now(world: World, conn: ConnectionState): Moment
    reads world`asked, world`tick, conn`ssl
  {
    Moment(world.asked, conn.ssl, world.tick)
  }

  /** A live client has live TLS, protocol h2 and the connection's host. */
  ghost predicate ClientOk(world: World, conn: ConnectionState, client: Client)
    reads world`clients, conn
  {
    && client in world.clients && conn.ssl == Some(world.clients[client])
    && conn.protocol == "h2" && client.host == conn.connHost && client.dec == world.env.dec
  }

  /** The connection owns every open handle. */
  ghost predicate Owns(world: World, conn: ConnectionState)
    reads world`nextId, world`clients, world`open, world`acquired, world`released, conn
  {
    && world.Ledger() && world.open == Held(conn)
    && (conn.ssl.Some? ==> conn.sock.Some?)
    && (conn.client != null ==> ClientOk(world, conn, conn.client))
  }

  /** Every request on the client's connection was for the client's host, under its authority, and before GOAWAY. */
  ghost predicate GoodLog(c: Client)
    reads c
  {
    forall i :: 0 <= i < |c.log| ==>
      && c.log[i].host == c.host && c.log[i].authority == AuthorityOf(c.host) && !c.log[i].afterGoaway
      && c.log[i].sid == c.answer(i)
  }

  /** So were all requests there ever were: each is in the log of the client on its connection, in order, and every
      logged request is among them. */
  ghost predicate AllGood(world: World)
    reads world`clients, world`asked, world.clients.Keys
  {
    && (forall c :: c in world.clients ==> GoodLog(c) && c.log == On(world.asked, world.clients[c]))
    && OneEach(world.clients) && (forall a :: a in world.asked ==> a.conn in world.clients.Values)
  }

  /** The same, but for what the client has logged after its first `from` requests. */
  ghost predicate AllGoodBut(world: World, client: Client, from: nat)
    reads world`clients, world`asked, world.clients.Keys, client
  {
    && client in world.clients && GoodLog(client)
    && from <= |client.log| && client.log[..from] == On(world.asked, world.clients[client])
    && (forall c :: c in world.clients && c != client ==> GoodLog(c) && c.log == On(world.asked, world.clients[c]))
    && OneEach(world.clients) && (forall a :: a in world.asked ==> a.conn in world.clients.Values)
  }

  /** Enters the client's latest requests among those of the process. */
  ghost method Record(world: World, client: Client, from: nat)
    requires AllGoodBut(world, client, from)
    modifies world`asked
    ensures AllGood(world)
    ensures world.asked == old(world.asked) + Tagged(world.clients[client], client.log[from..])
  {
    var conn, more := world.clients[client], client.log[from..];
    forall other ensures On(world.asked + Tagged(conn, more), other)
                         == On(world.asked, other) + if other == conn then more else [] {
      OnConcat(world.asked, Tagged(conn, more), other);
      OnTagged(conn, more, other);
    }
    assert client.log == client.log[..from] + more;
    world.asked := world.asked + Tagged(conn, more);
  }

  /** No two clients talk over the same TLS handle. */
  ghost predicate OneEach(clients: map<Client, int>) {
    forall c, d :: c in clients && d in clients && c != d ==> clients[c] != clients[d]
  }

  /** The order of release: the client while its TLS handle is live, the TLS handle, the socket. */
  ghost function ReleaseOrder(conn: ConnectionState): seq<Handle>
    reads conn
  {
    ClientPart(conn.client) + (SslPart(conn.ssl) + SocketPart(conn.sock))
  }

  function ClientPart(c: Client?): seq<Handle> {
    if c != null then [ClientHandle(c)] else []
  }

  function SslPart(s: Option<int>): seq<Handle> {
    if s.Some? then [SslHandle(s.value)] else []
  }

  function SocketPart(s: Option<int>): seq<Handle> {
    if s.Some? then [SocketHandle(s.value)] else []
  }

  lemma InOrder(a: seq<Handle>, b: seq<Handle>, c: seq<Handle>, d: seq<Handle>)
    ensures a + b + c + d == a + (b + (c + d)) && a + [] == a
  {}

  /** Releases everything the connection owns, each handle once and in order; on a cleared connection it does
      nothing. */
  method Teardown(world: World, conn: ConnectionState)
    requires Owns(world, conn)
    modifies world`open, world`released, conn
    ensures conn.Cleared() && Owns(world, conn)
    ensures world.released == old(world.released) + old(ReleaseOrder(conn))
    ensures old(conn.Cleared()) ==> world.released == old(world.released)
  {
    ghost var before, client, ssl, sock := world.released, ClientPart(conn.client), SslPart(conn.ssl),
        SocketPart(conn.sock);
    if conn.client != null {
      world.Release(ClientHandle(conn.client));
      conn.client := null;
    }
    assert world.released == before + client;
    if conn.ssl.Some? {
      world.Release(SslHandle(conn.ssl.value));
      conn.ssl := None;
    }
    assert world.released == before + client + ssl;
    if conn.sock.Some? {
      world.Release(SocketHandle(conn.sock.value));
      conn.sock := None;
    }
    assert world.released == before + client + ssl + sock;
    InOrder(before, client, ssl, sock);
    conn.protocol := "";
    conn.connHost := "";
    conn.connPort := "";
  }

  /** A cleared connection that owns everything open owns nothing: all that was acquired has been released, once. */
  lemma NothingLeft(world: World, conn: ConnectionState)
    requires conn.Cleared()
    ensures Owns(world, conn) <==> world.Ledger() && world.open == {}
    ensures Owns(world, conn) ==> multiset(world.released) == multiset(world.acquired)
  {
    assert Held(conn) == {};
  }

  // ---------- Connecting ----------

  /** The caller's options. The tag patterns and the challenge-script discovery are functions. */
  datatype Options = Options(url: string, alsoFetch: seq<string>, autoScripts: bool, subresources: bool,
                             maxSubresources: int, proxy: bool, maxRedirects: int, timeout: int,
                             extract: Extractor, challenge: (string, string) -> seq<string>)

  datatype ConnectError = NoSocket | BadPort | ProxyFailed | TlsInitFailed | TlsFailed

  /** Leading decimal digits as a number; 0 when there are none or they do not fit an int. */
  function LeadingInt(s: string, acc: nat): int
    decreases |s|
  {
    if s == "" || !('0' <= s[0] <= '9') then (if acc < 0x8000_0000 then acc else 0)
    else LeadingInt(s[1..], acc * 10 + (s[0] as int - '0' as int))
  }

  ghost predicate Digits(s: string) {
    forall i :: 0 <= i < |s| ==> '0' <= s[i] <= '9'
  }

  /** The number that decimal digits stand for. */
  function Value(digits: string): int {
    if digits == "" then 0 else Value(digits[..|digits| - 1]) * 10 + (digits[|digits| - 1] as int - '0' as int)
  }

  /** Digits at the head of a text are its number, unless that is too large for an int; what follows them does not
      count. */
  lemma LeadingDigits(digits: string, rest: string)
    requires Digits(digits) && (rest != "" ==> !('0' <= rest[0] <= '9'))
    ensures LeadingInt(digits + rest, 0) == if Value(digits) < 0x8000_0000 then Value(digits) else 0
  {
    NotNegative(digits);
    ReadDigits(digits, rest);
  }

  lemma {:induction false} ReadDigits(digits: string, rest: string)
    requires Digits(digits) && Value(digits) >= 0
    ensures LeadingInt(digits + rest, 0) == LeadingInt(rest, Value(digits))
    decreases |digits|
  {
    if digits == "" {
      assert digits + rest == rest;
    } else {
      var n := |digits| - 1;
      NotNegative(digits[..n]);
      ReadDigits(digits[..n], [digits[n]] + rest);
      assert digits[..n] + ([digits[n]] + rest) == digits + rest;
      assert ([digits[n]] + rest)[1..] == rest;
    }
  }

  lemma {:induction false} NotNegative(digits: string)
    requires Digits(digits)
    ensures Value(digits) >= 0
    decreases |digits|
  {
    if digits != "" {
      NotNegative(digits[..|digits| - 1]);
    }
  }

  /** How far the way to the server gets, by the answers from the k-th on: socket, tunnel if there is a proxy, TLS;
      with the protocol that TLS agreed on. */
  function Way(env: Environment, k: nat, opt: Options, url: ParsedUrl): (Option<ConnectError>, string) {
    if !env.connects(k) then (Some(NoSocket), "")
    else if !opt.proxy then WayTls(env, k + 1)
    else if !(0 < LeadingInt(url.port, 0) <= 65535) then (Some(BadPort), "")
    else if !env.proxies(k + 1) then (Some(ProxyFailed), "")
    else WayTls(env, k + 2)
  }

  function WayTls(env: Environment, k: nat): (Option<ConnectError>, string) {
    if !env.tlsInits(k) then (Some(TlsInitFailed), "")
    else if env.handshakes(k + 1).None? then (Some(TlsFailed), "")
    else (None, env.handshakes(k + 1).value)
  }

  /** A connection comes about exactly if each step answers well, and the error names the first that does not: the
      socket, with a proxy the port and the tunnel, the TLS setup, the handshake. Without a proxy none is asked. */
  lemma WayExactly(env: Environment, k: nat, opt: Options, url: ParsedUrl)
    ensures var (e, protocol) := Way(env, k, opt, url);
            var t := if opt.proxy then k + 2 else k + 1;
            var port := LeadingInt(url.port, 0);
            && (e.None? ==> env.handshakes(t + 1) == Some(protocol))
            && (e == Some(NoSocket) <==> !env.connects(k))
            && (e == Some(BadPort) <==> env.connects(k) && opt.proxy && !(1 <= port <= 65535))
            && (e == Some(ProxyFailed) <==>
                  env.connects(k) && opt.proxy && 1 <= port <= 65535 && !env.proxies(k + 1))
            && (e.None? || e == Some(TlsInitFailed) || e == Some(TlsFailed) <==>
                  env.connects(k) && (opt.proxy ==> 1 <= port <= 65535 && env.proxies(k + 1)))
            && (e == Some(TlsInitFailed) ==> !env.tlsInits(t))
            && (e == Some(TlsFailed) ==> env.tlsInits(t) && env.handshakes(t + 1).None?)
            && (e.None? ==> env.tlsInits(t))
  {}

  /** The connection is up for `url`; for h2 with a client that may still open streams. */
  ghost predicate Ready(conn: ConnectionState, url: ParsedUrl)
    reads conn, conn.client
  {
    && conn.ssl.Some? && conn.connHost == url.host && conn.connPort == url.port
    && (conn.client != null <==> conn.protocol == "h2")
    && (conn.client != null ==> !conn.client.goaway)
  }

  /** Gives up the old connection and makes a new one. */
  method Establish(world: World, conn: ConnectionState, opt: Options, url: ParsedUrl)
    returns (error: Option<ConnectError>)
    requires Owns(world, conn) && AllGood(world)
    modifies world, conn
    ensures Owns(world, conn) && AllGood(world)
    ensures world.asked == old(world.asked)
    ensures error == Way(world.env, old(world.tick), opt, url).0 && world.tick >= old(world.tick)
    ensures if error.Some? then conn.Cleared()
            else
              && Ready(conn, url) && conn.protocol == Way(world.env, old(world.tick), opt, url).1
              && (conn.client != null ==> fresh(conn.client)) && NoneOn(world.asked, conn.ssl.value)
  {
    Teardown(world, conn);
    error := Acquire(world, conn, opt, url);
  }

  /** Acquires socket, tunnel, TLS and, for h2, the client. On an error everything acquired is given back. */
  method Acquire(world: World, conn: ConnectionState, opt: Options, url: ParsedUrl)
    returns (error: Option<ConnectError>)
    requires Owns(world, conn) && AllGood(world) && conn.Cleared()
    modifies world`tick, world`nextId, world`open, world`clients, world`acquired, world`released, conn
    ensures Owns(world, conn) && AllGood(world)
    ensures error == Way(world.env, old(world.tick), opt, url).0 && world.tick >= old(world.tick)
    ensures if error.Some? then conn.Cleared()
            else
              && Ready(conn, url) && conn.protocol == Way(world.env, old(world.tick), opt, url).1
              && (conn.client != null ==> fresh(conn.client)) && NoneOn(world.asked, conn.ssl.value)
  {
    var protocol := "";
    error, protocol := Reach(world, conn, opt, url);
    if error.Some? {
      Teardown(world, conn);
    } else {
      Adopt(world, conn, protocol, url);
    }
  }

  /** The way to the server: a socket, the tunnel if there is a proxy, the TLS handshake. Each of its failures is
      followed by a teardown; there is nothing to tear down when no socket was connected. */
  method Reach(world: World, conn: ConnectionState, opt: Options, url: ParsedUrl)
    returns (error: Option<ConnectError>, protocol: string)
    requires Owns(world, conn) && conn.Cleared()
    modifies world`tick, world`nextId, world`open, world`acquired, world`released, conn`sock, conn`ssl
    ensures Owns(world, conn)
    ensures (error, protocol) == Way(world.env, old(world.tick), opt, url) && world.tick >= old(world.tick)
    ensures error.None? ==> conn.ssl.Some? && conn.ssl.value !in world.clients.Values
    ensures error == Some(NoSocket) ==> conn.Cleared()
  {
    protocol := "";
    var k := world.Ask();
    if !world.env.connects(k) {
      return Some(NoSocket), "";
    }
    Connect(world, conn);
    if opt.proxy {
      error := Tunnel(world, url);
      if error.Some? {
        return;
      }
    }
    error, protocol := Secure(world, conn);
  }

  method Secure(world: World, conn: ConnectionState) returns (error: Option<ConnectError>, protocol: string)
    requires Owns(world, conn) && conn.sock.Some? && conn.ssl.None? && conn.client == null
    modifies world`tick, world`nextId, world`open, world`acquired, world`released, conn`ssl
    ensures Owns(world, conn)
    ensures (error, protocol) == WayTls(world.env, old(world.tick)) && world.tick >= old(world.tick)
    ensures error.None? ==> conn.ssl.Some? && conn.ssl.value !in world.clients.Values
  {
    var k := world.Ask();
    if !world.env.tlsInits(k) {
      return Some(TlsInitFailed), "";
    }
    var answer := StartTls(world, conn);
    if answer.None? {
      return Some(TlsFailed), "";
    }
    error, protocol := None, answer.value;
  }

  method Tunnel(world: World, url: ParsedUrl) returns (error: Option<ConnectError>)
    modifies world`tick
    ensures error == if !(0 < LeadingInt(url.port, 0) <= 65535) then Some(BadPort)
                     else if !world.env.proxies(old(world.tick)) then Some(ProxyFailed) else None
    ensures error.None? ==> world.tick == old(world.tick) + 1
    ensures world.tick >= old(world.tick)
  {
    var port := LeadingInt(url.port, 0);
    if port <= 0 || port > 65535 {
      return Some(BadPort);
    }
    var k := world.Ask();
    error := if world.env.proxies(k) then None else Some(ProxyFailed);
  }

  method Connect(world: World, conn: ConnectionState)
    requires Owns(world, conn) && conn.Cleared()
    modifies world`nextId, world`open, world`acquired, conn`sock
    ensures Owns(world, conn) && conn.sock.Some?
  {
    var sock := world.OpenSocket();
    conn.sock := Some(sock);
  }

  /** The TLS handshake frees its handle itself before it reports a failure. */
  method StartTls(world: World, conn: ConnectionState) returns (protocol: Option<string>)
    requires Owns(world, conn) && conn.sock.Some? && conn.ssl.None? && conn.client == null
    modifies world`tick, world`nextId, world`open, world`acquired, world`released, conn`ssl
    ensures Owns(world, conn) && (conn.ssl.Some? <==> protocol.Some?)
    ensures conn.ssl.Some? ==> conn.ssl.value !in world.clients.Values
    ensures protocol == world.env.handshakes(old(world.tick)) && world.tick >= old(world.tick)
  {
    var ssl := world.NewSsl();
    conn.ssl := Some(ssl);
    var k := world.Ask();
    protocol := world.env.handshakes(k);
    if protocol.None? {
      world.Release(SslHandle(ssl));
      conn.ssl := None;
    }
  }

  /** The first client on a connection; nothing has been asked of it. */
  method NewGoodClient(world: World, ssl: int, host: string) returns (c: Client)
    requires world.Ledger() && AllGood(world) && SslHandle(ssl) in world.open && ssl !in world.clients.Values
    modifies world`tick, world`open, world`clients, world`acquired
    ensures world.Ledger() && AllGood(world) && world.tick >= old(world.tick)
    ensures fresh(c) && world.clients == old(world.clients)[c := ssl]
            && world.open == old(world.open) + {ClientHandle(c)}
    ensures c.host == host && c.dec == world.env.dec && !c.goaway && c.log == []
  {
    OnUnused(world.asked, ssl);
    c := world.NewClient(ssl, host);
    NewValue(old(world.clients), c, ssl);
  }

  lemma NewValue(clients: map<Client, int>, c: Client, ssl: int)
    requires OneEach(clients) && c !in clients && ssl !in clients.Values
    ensures OneEach(clients[c := ssl]) && clients.Values <= clients[c := ssl].Values
  {
    var more := clients[c := ssl];
    forall v | v in clients.Values ensures v in more.Values {
      var d :| d in clients && clients[d] == v;
      assert more[d] == v;
    }
  }

  /** Takes the handshaken connection over for `url`. */
  method Adopt(world: World, conn: ConnectionState, protocol: string, url: ParsedUrl)
    requires Owns(world, conn) && AllGood(world) && conn.ssl.Some? && conn.client == null
    requires conn.ssl.value !in world.clients.Values
    modifies world`tick, world`open, world`clients, world`acquired, conn`protocol, conn`connHost, conn`connPort,
             conn`client
    ensures Owns(world, conn) && Ready(conn, url) && conn.protocol == protocol && world.tick >= old(world.tick)
    ensures AllGood(world) && (conn.client != null ==> fresh(conn.client) && conn.client.log == [])
    ensures NoneOn(world.asked, conn.ssl.value)
  {
    conn.protocol := protocol;
    conn.connHost := url.host;
    conn.connPort := url.port;
    if conn.protocol == "h2" {
      var client := NewGoodClient(world, conn.ssl.value, url.host);
      conn.client := client;
    }
  }
}
