/**
 * `WiFiClientSecure` of WiFiClientSecure-old.cpp: a TLS client whose whole
 * state is the context's socket handle (-1 when unset) and the `_connected`
 * flag. The TLS primitives are foreign: each method takes the integers they
 * returned as parameters, and `calls` records which primitives ran, in order.
 */
module SecureClient {
  import opened CoreTypes

  /** `sslclient->socket` and `_connected`. */
  datatype Session = Session(socket: int, connected: bool)

  /** A foreign call made by the client. */
  datatype SslCall =
    | SslInit
    | CloseSocket(socket: int)
    | StopSslSocket
    | StartSslClient(ip: seq<uint8>, port: uint16)
    | GetHostByName(host: string)
    | SendSslData(size: nat)
    | GetSslReceive(size: nat)
    | DataToRead

  /** The flag is only set while a socket is held. */
  predicate Coherent(s: Session)
  {
    s.connected ==> s.socket >= 0
  }

  /**
   * `stop()`: an open socket is closed and forgotten, which clears the flag;
   * a negative handle is left as it is, and so is the flag.
   */
  function Stopped(s: Session): (r: Session)
    ensures r.socket < 0
    ensures s.socket >= 0 ==> r == Session(-1, false)
    ensures s.socket < 0 ==> r == s
  {
    if s.socket >= 0 then Session(-1, false) else s
  }

  /** What `stop()` calls: `close` on an open socket, then always `stop_ssl_socket`. */
  function StopCalls(s: Session): seq<SslCall>
  {
    (if s.socket >= 0 then [CloseSocket(s.socket)] else []) + [StopSslSocket]
  }

  /**
   * `connect(ip, port, ...)`: `ret` is what `start_ssl_client` returned and
   * `handle` the handle it left in the context. A negative `ret` stops the
   * client and yields 0; otherwise the client is connected and yields 1.
   */
  function AfterConnect(s: Session, ret: int, handle: int): (r: (Session, int))
    ensures (r.1 == 1) == (ret >= 0) && (r.1 == 0) == (ret < 0)
    ensures ret >= 0 ==> r.0 == Session(handle, true)
    ensures ret < 0 ==> r.0 == Stopped(Session(handle, s.connected))
    ensures r.1 == 0 ==> r.0.socket < 0
  {
    if ret < 0 then (Stopped(Session(handle, s.connected)), 0) else (Session(handle, true), 1)
  }

  /**
   * `write(buf, size)`: a client that is not connected sends nothing and
   * yields 0; a negative `send_ssl_data` result stops the client and yields
   * 0; otherwise the count sent is returned. The result is never negative.
   */
  function AfterWrite(s: Session, sent: int): (r: (Session, nat))
    ensures !s.connected ==> r == (s, 0)
    ensures s.connected && sent < 0 ==> r == (Stopped(s), 0)
    ensures s.connected && sent >= 0 ==> r == (s, sent)
  {
    if !s.connected then (s, 0)
    else if sent < 0 then (Stopped(s), 0)
    else (s, sent)
  }

  /**
   * `available()`: 0 when not connected; otherwise the `data_to_read`
   * result, returned unchanged, a negative one stopping the client first.
   */
  function AfterAvailable(s: Session, pending: int): (r: (Session, int))
    ensures !s.connected ==> r == (s, 0)
    ensures s.connected ==> r.1 == pending
    ensures s.connected ==> r.0 == (if pending < 0 then Stopped(s) else s)
  {
    if !s.connected then (s, 0)
    else if pending < 0 then (Stopped(s), pending)
    else (s, pending)
  }

  /**
   * `read(buf, size)`: -1 when `available()` gave 0; otherwise the
   * `get_ssl_receive` result, a negative one stopping the client. A negative
   * `available()` does not count as "nothing available".
   */
  function AfterRead(s: Session, pending: int, received: int): (r: (Session, int))
    ensures AfterAvailable(s, pending).1 == 0 ==> r == (AfterAvailable(s, pending).0, -1)
    ensures AfterAvailable(s, pending).1 != 0 ==> r.1 == received
    ensures AfterAvailable(s, pending).1 != 0 ==>
      r.0 == (if received < 0 then Stopped(AfterAvailable(s, pending).0) else AfterAvailable(s, pending).0)
  {
    var avail := AfterAvailable(s, pending);
    if avail.1 == 0 then (avail.0, -1)
    else if received < 0 then (Stopped(avail.0), received)
    else (avail.0, received)
  }

  /**
   * `read()`: a one-byte `read`; a negative result is passed through,
   * otherwise the byte, which stays 0 when nothing was received.
   */
  function AfterReadByte(s: Session, pending: int, received: int, b: uint8): (r: (Session, int))
    ensures r.0 == AfterRead(s, pending, received).0
    ensures AfterRead(s, pending, received).1 < 0 ==> r.1 == AfterRead(s, pending, received).1
    ensures AfterRead(s, pending, received).1 >= 0 ==> 0 <= r.1 < 0x100
    ensures AfterRead(s, pending, received).1 >= 1 ==> r.1 == b
  {
    var rd := AfterRead(s, pending, received);
    if rd.1 < 0 then rd
    else if rd.1 == 0 then (rd.0, 0)
    else (rd.0, b)
  }

  /**
   * `connected()`: the zero-length probe `read`, then the flag. A client
   * that is not connected is left as it is.
   */
  function AfterProbe(s: Session, pending: int, received: int): (r: (Session, bool))
    ensures r.1 == r.0.connected
    ensures r.0 == AfterRead(s, pending, received).0
    ensures !s.connected ==> r == (s, false)
    ensures s.connected && pending >= 0 && received >= 0 ==> r == (s, true)
  {
    var rd := AfterRead(s, pending, received);
    (rd.0, rd.0.connected)
  }

  /** Calls made by `available()`. */
  function AvailableCalls(s: Session, pending: int): seq<SslCall>
  {
    if !s.connected then [] else [DataToRead] + (if pending < 0 then StopCalls(s) else [])
  }

  /** Calls made by `read(buf, size)`. */
  function ReadCalls(s: Session, pending: int, received: int, size: nat): seq<SslCall>
  {
    var avail := AfterAvailable(s, pending);
    AvailableCalls(s, pending)
      + (if avail.1 == 0 then [] else [GetSslReceive(size)] + (if received < 0 then StopCalls(avail.0) else []))
  }

  /** Stopping twice is the same as stopping once. */
  lemma StopIdempotent(s: Session)
    ensures Stopped(Stopped(s)) == Stopped(s)
    ensures StopCalls(Stopped(s)) == [StopSslSocket]
  {
  }

  /** On a coherent client `stop()` always leaves the flag clear. */
  lemma StopDisconnects(s: Session)
    requires Coherent(s)
    ensures !Stopped(s).connected && Coherent(Stopped(s))
  {
  }

  /** Every operation except `connect` keeps the client coherent. */
  lemma OperationsKeepCoherence(s: Session, sent: int, pending: int, received: int, b: uint8)
    requires Coherent(s)
    ensures Coherent(AfterWrite(s, sent).0)
    ensures Coherent(AfterAvailable(s, pending).0)
    ensures Coherent(AfterRead(s, pending, received).0)
    ensures Coherent(AfterReadByte(s, pending, received, b).0)
    ensures Coherent(AfterProbe(s, pending, received).0)
  {
  }

  /**
   * `connect` keeps a coherent client coherent exactly when a success left
   * an open handle and a failure either left an open handle (which `stop`
   * then closes) or happened on a client that was not connected.
   */
  lemma ConnectCoherence(s: Session, ret: int, handle: int)
    requires Coherent(s)
    ensures Coherent(AfterConnect(s, ret, handle).0) <==>
      (if ret >= 0 then handle >= 0 else handle >= 0 || !s.connected)
  {
  }

  /**
   * A failed reconnect whose socket could not be opened leaves the flag set
   * with no socket held: `stop()` clears the flag only when it closes a socket.
   */
  lemma StaleFlagAfterFailedConnect()
    ensures AfterConnect(Session(4, true), -1, -1) == (Session(-1, true), 0)
    ensures !Coherent(AfterConnect(Session(4, true), -1, -1).0)
  {
  }

  /** `read(buf, size)` yields -1 exactly when nothing was available or the receive itself gave -1. */
  lemma ReadMinusOne(s: Session, pending: int, received: int)
    ensures AfterRead(s, pending, received).1 == -1 <==> (AfterAvailable(s, pending).1 == 0 || received == -1)
  {
  }

  class WiFiClientSecure {
    var socket: int
    var isConnected: bool
    var calls: seq<SslCall>

    function State(): Session
      reads this
    {
      Session(socket, isConnected)
    }

    /** `WiFiClientSecure()`. */
    constructor ()
      ensures State() == Session(-1, false)
      ensures calls == [SslInit]
    {
      isConnected := false;
      calls := [SslInit];
      socket := -1;
    }

    /** `WiFiClientSecure(sock)`: takes over `sock`, connected when it is a valid handle. */
    constructor FromSocket(sock: int)
      ensures State() == Session(sock, sock >= 0)
      ensures calls == [SslInit]
    {
      isConnected := false;
      calls := [SslInit];
      socket := sock;
      if sock >= 0 {
        isConnected := true;
      }
    }

    /** `operator=(other)`: stops, then copies the other's handle and flag (after the stop, when `other` is this object). */
    method Assign(other: WiFiClientSecure)
      modifies this
      ensures other != this ==> State() == old(other.State())
      ensures other == this ==> State() == Stopped(old(State()))
      ensures calls == old(calls) + StopCalls(old(State()))
    {
      Stop();
      socket := other.socket;
      isConnected := other.isConnected;
    }

    method Stop()
      modifies this
      ensures State() == Stopped(old(State()))
      ensures calls == old(calls) + StopCalls(old(State()))
    {
      if socket >= 0 {
        calls := calls + [CloseSocket(socket)];
        socket := -1;
        isConnected := false;
      }
      calls := calls + [StopSslSocket];
    }

    /** `connect(ip, port, ...)`; `start_ssl_client` returned `ret` and left `handle` as the handle. */
    method Connect(ip: seq<uint8>, port: uint16, ret: int, handle: int) returns (r: int)
      modifies this
      ensures (State(), r) == AfterConnect(old(State()), ret, handle)
      ensures calls == old(calls) + [StartSslClient(ip, port)]
        + (if ret < 0 then StopCalls(Session(handle, old(isConnected))) else [])
    {
      calls := calls + [StartSslClient(ip, port)];
      socket := handle;
      if ret < 0 {
        Stop();
        return 0;
      }
      isConnected := true;
      return 1;
    }

    /** `connect(host, port, ...)`; `gethostbyname` gave `resolved` (None for NULL). */
    method ConnectHost(host: string, port: uint16, resolved: Option<seq<uint8>>, ret: int, handle: int) returns (r: int)
      modifies this
      ensures resolved.None? ==> r == 0 && State() == old(State())
      ensures resolved.None? ==> calls == old(calls) + [GetHostByName(host)]
      ensures resolved.Some? ==> (State(), r) == AfterConnect(old(State()), ret, handle)
      ensures resolved.Some? ==>
        calls == old(calls) + [GetHostByName(host), StartSslClient(resolved.value, port)]
          + (if ret < 0 then StopCalls(Session(handle, old(isConnected))) else [])
    {
      calls := calls + [GetHostByName(host)];
      if resolved.None? {
        return 0;
      }
      r := Connect(resolved.value, port, ret, handle);
    }

    /** `write(buf, size)`; `send_ssl_data` returned `sent`. */
    method Write(buf: seq<uint8>, sent: int) returns (n: nat)
      modifies this
      ensures (State(), n) == AfterWrite(old(State()), sent)
      ensures calls == old(calls)
        + (if old(isConnected) then [SendSslData(|buf|)] + (if sent < 0 then StopCalls(old(State())) else []) else [])
    {
      if !isConnected {
        return 0;
      }
      calls := calls + [SendSslData(|buf|)];
      var res := sent;
      if res < 0 {
        Stop();
        res := 0;
      }
      n := res;
    }

    /** `write(data)`: a one-byte `write`. */
    method WriteByte(b: uint8, sent: int) returns (n: nat)
      modifies this
      ensures (State(), n) == AfterWrite(old(State()), sent)
      ensures calls == old(calls)
        + (if old(isConnected) then [SendSslData(1)] + (if sent < 0 then StopCalls(old(State())) else []) else [])
    {
      n := Write([b], sent);
    }

    /** `available()`; `data_to_read` returned `pending`. */
    method Available(pending: int) returns (r: int)
      modifies this
      ensures (State(), r) == AfterAvailable(old(State()), pending)
      ensures calls == old(calls) + AvailableCalls(old(State()), pending)
    {
      if !isConnected {
        return 0;
      }
      calls := calls + [DataToRead];
      r := pending;
      if r < 0 {
        Stop();
      }
    }

    /** `read(buf, size)`; `data_to_read` returned `pending` and `get_ssl_receive` returned `received`. */
    method Read(size: nat, pending: int, received: int) returns (r: int)
      modifies this
      ensures (State(), r) == AfterRead(old(State()), pending, received)
      ensures calls == old(calls) + ReadCalls(old(State()), pending, received, size)
    {
      var avail := Available(pending);
      if avail == 0 {
        return -1;
      }
      calls := calls + [GetSslReceive(size)];
      r := received;
      if r < 0 {
        Stop();
      }
    }

    /** `read()`; the receive wrote `b` when it returned at least 1. */
    method ReadByte(pending: int, received: int, b: uint8) returns (r: int)
      modifies this
      ensures (State(), r) == AfterReadByte(old(State()), pending, received, b)
      ensures calls == old(calls) + ReadCalls(old(State()), pending, received, 1)
    {
      var data: uint8 := 0;
      var res := Read(1, pending, received);
      if res >= 1 {
        data := b;
      }
      if res < 0 {
        return res;
      }
      return data;
    }

    /** `connected()`: the zero-length probe read, then `_connected`. */
    method Connected(pending: int, received: int) returns (r: bool)
      modifies this
      ensures (State(), r) == AfterProbe(old(State()), pending, received)
      ensures calls == old(calls) + ReadCalls(old(State()), pending, received, 0)
    {
      var _ := Read(0, pending, received);
      r := isConnected;
    }
  }

  /** `write` on a client that never connected returns 0 and calls no send primitive. */
  method WriteBeforeConnect(buf: seq<uint8>, sent: int) returns (n: nat, calls: seq<SslCall>)
    ensures n == 0 && calls == [SslInit]
  {
    var client := new WiFiClientSecure();
    n := client.Write(buf, sent);
    calls := client.calls;
  }

  /** A second `stop()` changes nothing and only releases the TLS context again. */
  method StopTwice(sock: int) returns (once: Session, twice: Session, secondCalls: seq<SslCall>)
    ensures once == twice && once.socket < 0 && !once.connected
    ensures secondCalls == [StopSslSocket]
  {
    var client := new WiFiClientSecure.FromSocket(sock);
    client.Stop();
    once := client.State();
    var before := client.calls;
    client.Stop();
    twice := client.State();
    secondCalls := client.calls[|before|..];
  }
}
