/** server.js: the rendezvous server. It owns at most one transport
    listener, keeps a registry from raw connections to their wrappers, and
    pairs every accepted connection (the request socket) with a response
    socket that shares its stream and carries a freshly generated public key.
    Events the transport and the protocol stream deliver are method calls;
    what the server emits is appended to `log`. */
module Servers {
  import opened Js
  import opened Route
  import opened Sockets

  /** The five handlers `listen` wires to the transport listener. */
  datatype Handler = OnRequest | OnConnection | OnListening | OnClose | OnError

  const AllHandlers: set<Handler> := {OnRequest, OnConnection, OnListening, OnClose, OnError}

  /** A key pair as `crypto.keyPair()` returns it. */
  datatype KeyPair = KeyPair(publicKey: seq<Byte>, secretKey: seq<Byte>)

  /** What the server emits or calls back, in order. */
  datatype Event =
    | Listening
    | Connection(socket: Socket, request: Value)
    | Request(req: Socket, res: Socket, discoveryKey: Value, reqWritable: bool)
    | Error(err: Value)
    | Closed
    | Callback(fn: Value, arg: Value)

  /** `new Error(message)` */
  function ErrorValue(message: string): (e: Value)
    ensures e.Obj? && Get(e, "message") == Str(message)
  {
    Obj(0, map["message" := Str(message)])
  }

  const AlreadyListening: Value := ErrorValue("Already listening")
  const AlreadyClosed: Value := ErrorValue("Server is closed.")
  /** What evaluating `url.parse` throws in a module without a `url` binding. */
  const UrlNotDefined: Value := ErrorValue("url is not defined")

  datatype Result<T> = Ok(value: T) | Thrown(error: Value)

  /** How `listen` ends: it started a listener, it reported `Already
      listening` to the callback and returned, or it emitted the error and
      threw. */
  datatype ListenOutcome = Started | Reported | Threw

  /** `m.k` for the listen options object. */
  function At(m: map<string, Value>, k: string): Value {
    if k in m then m[k] else Undefined
  }

  /** The arguments of `listen(port, host, callback)` once their shapes are
      sorted out: a function or a string in first place, a function in second
      place and an options object in first or second place. */
  datatype ListenArgs = ListenArgs(port: Value, host: Value, callback: Value, opts: map<string, Value>)

  /** Lines 103-128 of `listen`. */
  function NormaliseListenArgs(port: Value, host: Value, callback: Value): ListenArgs {
    var p1, h1, c1 := if TypeOf(port) == Function then Num(0) else port, host,
                      if TypeOf(port) == Function then port else callback;
    var p2, h2, c2 := if TypeOf(p1) == String then Num(0) else p1,
                      if TypeOf(p1) == String then p1 else h1,
                      if TypeOf(p1) == String then h1 else c1;
    var h3, c3 := if TypeOf(h2) == Function then Undefined else h2,
                  if TypeOf(h2) == Function then h2 else c2;
    if Truthy(p2) && TypeOf(p2) == Object then ListenArgs(Undefined, h3, c3, Fields(p2))
    else if p2 != Undefined && Truthy(h3) && TypeOf(h3) == Object then ListenArgs(p2, Undefined, c3, Fields(h3))
    else ListenArgs(p2, h3, c3, map[])
  }

  /** Lines 141-149: the constructor's options overwrite the listen-time
      options, and explicit `host`/`port` arguments overwrite both. */
  function MergeListenOptions(a: ListenArgs, ctorOpts: map<string, Value>): map<string, Value> {
    var m := a.opts + ctorOpts;
    var m := if a.host != Undefined then m["host" := a.host] else m;
    if a.port != Undefined then m["port" := a.port] else m
  }

  /** `/^wss?:/.test(s)` */
  predicate HasWsScheme(s: string) {
    (|s| >= 3 && s[..3] == "ws:") || (|s| >= 4 && s[..4] == "wss:")
  }

  /** Lines 151-159 with `url.parse` bound: no port but a host means the host
      is an address string; it is parsed (with `ws://` put in front when it
      has no ws scheme) into hostname, port and protocol. Returns the
      protocol and the options. */
  function ResolveListenHost(m: map<string, Value>, env: Env): (r: (Value, map<string, Value>))
  {
    if !Truthy(At(m, "port")) && At(m, "host") != Undefined then
      var h := ToString(At(m, "host"));
      var uri := env.urlParse(if HasWsScheme(h) then h else "ws://" + h);
      (OrNull(uri.protocol), m["host" := OrNull(uri.hostname)]["port" := ParseIntOrNaN(uri.port)])
    else
      (Str("ws:"), m)
  }

  /** Lines 151-159 as written: server.js binds no `url`, so the branch that
      calls `url.parse` throws a ReferenceError. */
  function ResolveListenHostAsWritten(m: map<string, Value>): Result<(Value, map<string, Value>)> {
    if !Truthy(At(m, "port")) && At(m, "host") != Undefined then Thrown(UrlNotDefined)
    else Ok((Str("ws:"), m))
  }

  /** Lines 161-173: a secure scheme without a supplied server gets the
      created https server; with a server present, `host` and `port` are
      removed so the supplied server's binding decides. */
  function AttachHttpsServer(protocol: Value, m: map<string, Value>, httpsServer: Value): map<string, Value> {
    var m := if protocol == Str("wss:") && !Truthy(At(m, "server")) then m["server" := httpsServer] else m;
    if Truthy(At(m, "server")) then m - {"host", "port"} else m
  }

  /** The protocol and the listener options a successful `listen` arrives at. */
  function ListenPlan(port: Value, host: Value, callback: Value, ctorOpts: map<string, Value>,
                      env: Env, httpsServer: Value): (Value, map<string, Value>)
  {
    PlanFromArgs(NormaliseListenArgs(port, host, callback), ctorOpts, env, httpsServer)
  }

  function PlanFromArgs(a: ListenArgs, ctorOpts: map<string, Value>, env: Env, httpsServer: Value)
    : (Value, map<string, Value>)
  {
    var r := ResolveListenHost(MergeListenOptions(a, ctorOpts), env);
    (r.0, AttachHttpsServer(r.0, r.1, httpsServer))
  }

  /** The accepted shapes of `listen`'s arguments. */
  lemma ListenArgShapes(f: Value, s: string, o: Value, p: Value, h: Value, cb: Value)
    requires TypeOf(f) == Function
    requires o.Obj?
    requires p != Undefined && TypeOf(p) != Function && TypeOf(p) != String && !(Truthy(p) && TypeOf(p) == Object)
    requires TypeOf(h) != Function && !(Truthy(h) && TypeOf(h) == Object)
    ensures NormaliseListenArgs(f, h, cb) == ListenArgs(Num(0), h, f, map[])
    ensures NormaliseListenArgs(p, f, cb) == ListenArgs(p, Undefined, f, map[])
    ensures NormaliseListenArgs(Undefined, f, cb) == ListenArgs(Undefined, Undefined, f, map[])
    ensures NormaliseListenArgs(Str(s), f, Undefined) == ListenArgs(Num(0), Str(s), f, map[])
    ensures NormaliseListenArgs(o, cb, Undefined).port == Undefined
    ensures NormaliseListenArgs(o, cb, Undefined).opts == o.fields
    ensures NormaliseListenArgs(o, f, Undefined).callback == f
    ensures NormaliseListenArgs(p, o, cb) == ListenArgs(p, Undefined, cb, o.fields)
  {
  }

  /** In the merged options the constructor's options win over the
      listen-time options, and explicit `host`/`port` arguments win over
      both. */
  lemma MergePrecedence(a: ListenArgs, ctorOpts: map<string, Value>, k: string)
    ensures k in MergeListenOptions(a, ctorOpts) <==>
            (k in a.opts || k in ctorOpts || (k == "host" && a.host != Undefined) || (k == "port" && a.port != Undefined))
    ensures k == "host" && a.host != Undefined ==> MergeListenOptions(a, ctorOpts)[k] == a.host
    ensures k == "port" && a.port != Undefined ==> MergeListenOptions(a, ctorOpts)[k] == a.port
    ensures !(k == "host" && a.host != Undefined) && !(k == "port" && a.port != Undefined) && k in ctorOpts ==>
              MergeListenOptions(a, ctorOpts)[k] == ctorOpts[k]
    ensures !(k == "host" && a.host != Undefined) && !(k == "port" && a.port != Undefined) &&
            k !in ctorOpts && k in a.opts ==>
              MergeListenOptions(a, ctorOpts)[k] == a.opts[k]
  {
  }

  /** With a server in the final options there is neither `host` nor
      `port`, and a secure protocol always ends up with a server. */
  lemma PlanServerShape(port: Value, host: Value, callback: Value, ctorOpts: map<string, Value>,
                        env: Env, httpsServer: Value)
    requires httpsServer.Obj?
    ensures var plan := ListenPlan(port, host, callback, ctorOpts, env, httpsServer);
            Truthy(At(plan.1, "server")) ==> "host" !in plan.1 && "port" !in plan.1
    ensures var plan := ListenPlan(port, host, callback, ctorOpts, env, httpsServer);
            plan.0 == Str("wss:") ==> Truthy(At(plan.1, "server"))
    ensures var plan := ListenPlan(port, host, callback, ctorOpts, env, httpsServer);
            !Truthy(At(plan.1, "server")) ==> plan.1 == ResolveListenHost(MergeListenOptions(NormaliseListenArgs(port, host, callback), ctorOpts), env).1
  {
  }

  /** `listen(port)` with a non-zero number listens on that port, over
      `ws:`, on the constructor's options. */
  lemma ListenOnPort(n: int, ctorOpts: map<string, Value>, env: Env, httpsServer: Value)
    requires n != 0 && httpsServer.Obj?
    requires !Truthy(At(ctorOpts, "server"))
    ensures ListenPlan(Num(n), Undefined, Undefined, ctorOpts, env, httpsServer) == (Str("ws:"), ctorOpts["port" := Num(n)])
  {
    var a := NormaliseListenArgs(Num(n), Undefined, Undefined);
    assert a == ListenArgs(Num(n), Undefined, Undefined, map[]);
    var m := MergeListenOptions(a, ctorOpts);
    assert m == ctorOpts["port" := Num(n)];
    assert ResolveListenHost(m, env) == (Str("ws:"), m);
    assert At(m, "server") == At(ctorOpts, "server");
  }

  /** `listen(address)` with an address string (and no port) parses the
      address, with `ws://` put in front when it has no ws scheme, into the
      listener's hostname and port and the server's protocol. */
  lemma ListenOnAddress(address: string, ctorOpts: map<string, Value>, env: Env, httpsServer: Value)
    requires httpsServer.Obj?
    requires !Truthy(At(ctorOpts, "server"))
    requires env.urlParse(if HasWsScheme(address) then address else "ws://" + address).protocol != Some("wss:")
    ensures var uri := env.urlParse(if HasWsScheme(address) then address else "ws://" + address);
            ListenPlan(Str(address), Undefined, Undefined, ctorOpts, env, httpsServer) ==
              (OrNull(uri.protocol), ctorOpts["host" := OrNull(uri.hostname)]["port" := ParseIntOrNaN(uri.port)])
  {
    var a := NormaliseListenArgs(Str(address), Undefined, Undefined);
    assert a == ListenArgs(Num(0), Str(address), Undefined, map[]);
    var m := MergeListenOptions(a, ctorOpts);
    assert m == ctorOpts["host" := Str(address)]["port" := Num(0)];
    var uri := env.urlParse(if HasWsScheme(address) then address else "ws://" + address);
    var r := ResolveListenHost(m, env);
    assert r == (OrNull(uri.protocol), m["host" := OrNull(uri.hostname)]["port" := ParseIntOrNaN(uri.port)]);
    assert r.1 == ctorOpts["host" := OrNull(uri.hostname)]["port" := ParseIntOrNaN(uri.port)];
    assert At(r.1, "server") == At(ctorOpts, "server");
  }

  /** Finding: every call of `listen` that reaches the address parsing
      throws a ReferenceError as written; on all other calls the written
      and the corrected step agree. */
  lemma ListenHostAsWrittenThrows(m: map<string, Value>, env: Env)
    ensures ResolveListenHostAsWritten(m).Thrown? <==> (!Truthy(At(m, "port")) && At(m, "host") != Undefined)
    ensures ResolveListenHostAsWritten(m).Ok? ==> ResolveListenHostAsWritten(m).value == ResolveListenHost(m, env)
  {
  }

  /** Finding, concretely: `listen('localhost')` throws as written. */
  lemma ListenLocalhostThrows(ctorOpts: map<string, Value>)
    ensures ResolveListenHostAsWritten(MergeListenOptions(NormaliseListenArgs(Str("localhost"), Undefined, Undefined), ctorOpts))
            == Thrown(UrlNotDefined)
  {
    var m := MergeListenOptions(NormaliseListenArgs(Str("localhost"), Undefined, Undefined), ctorOpts);
    assert At(m, "port") == Num(0) && At(m, "host") == Str("localhost");
  }

  /** The transport listener (`new WebSocketServer(opts)`), as far as the
      server uses it: the options it was created with, the handlers attached
      to it, the callback `listen` registered, and whether it was closed. */
  class Listener {
    const opts: map<string, Value>
    var handlers: set<Handler>
    /** `listen`'s callback, registered `once` for `error` ... */
    var errorCallback: Value
    /** ... and `once` for `listening`. */
    var listeningCallback: Value
    var closed: bool
    var closeCallback: Value

    constructor (opts: map<string, Value>)
      ensures this.opts == opts && handlers == {}
      ensures errorCallback == Undefined && listeningCallback == Undefined
      ensures !closed && closeCallback == Undefined
    {
      this.opts := opts;
      handlers := {};
      errorCallback := Undefined;
      listeningCallback := Undefined;
      closed := false;
      closeCallback := Undefined;
    }
  }

  /** Where one accepted connection stands: waiting for its transport to
      connect, waiting for the stream to announce a feed, or paired and
      handed to the `request` handlers. */
  datatype Phase = AwaitingConnect | AwaitingFeed | Dispatched

  function PhaseRank(p: Phase): nat {
    match p
    case AwaitingConnect => 0
    case AwaitingFeed => 1
    case Dispatched => 2
  }

  /** The state `onrequest`'s closures hold for one connection. */
  class Session {
    const conn: Value
    const keyPair: KeyPair
    const req: Socket
    var res: Socket?
    var phase: Phase

    constructor (conn: Value, keyPair: KeyPair, req: Socket)
      ensures this.conn == conn && this.keyPair == keyPair && this.req == req
      ensures res == null && phase == AwaitingConnect
    {
      this.conn := conn;
      this.keyPair := keyPair;
      this.req := req;
      res := null;
      phase := AwaitingConnect;
    }

    /** The response socket, once built, shares the request's stream and
        carries the connection's public key as `userData`, `key` and
        `publicKey`; before it is built the request has not connected. */
    ghost predicate Valid()
      reads this, req, res
    {
      && req.userData == Buffer(keyPair.publicKey)
      && (phase == AwaitingConnect <==> res == null)
      && (phase == AwaitingConnect ==> req.connectArmed)
      && (res != null ==>
            && res != req
            && Truthy(req.stream)
            && res.stream == req.stream
            && res.userData == req.userData
            && res.key == Buffer(keyPair.publicKey)
            && res.publicKey == res.key)
    }
  }

  /** A value the registry (a WeakMap) accepts as a key. */
  predicate IsObjectKey(v: Value) {
    v.Obj? || v.Func? || v.Buffer? || v.StreamRef?
  }

  class Server {
    const env: Env
    /** `connections`: raw connection to the wrapper the transport made for it. */
    var connections: map<Value, Value>
    var destroyed: bool
    var opts: map<string, Value>
    var server: Listener?
    var protocol: Value
    /** Listeners of the server's `request` event, in registration order. */
    var requestListeners: seq<Value>
    var log: seq<Event>

    constructor (opts: Value, env: Env)
      ensures this.env == env
      ensures connections == map[] && !destroyed && server == null
      ensures this.opts == (if opts.Obj? then opts.fields else map[])
      ensures protocol == Undefined && requestListeners == [] && log == []
    {
      var o := opts;
      if o == Null || TypeOf(o) != Object {
        o := EmptyObject;
      }
      this.env := env;
      connections := map[];
      destroyed := false;
      this.opts := Fields(o);
      server := null;
      protocol := Undefined;
      requestListeners := [];
      log := [];
    }

    /** `server.on('request', listener)` */
    method AddRequestListener(listener: Value)
      modifies this`requestListeners
      ensures requestListeners == old(requestListeners) + [listener]
    {
      requestListeners := requestListeners + [listener];
    }

    /** `onconnection(connection)`: the transport wrapped a raw connection;
        the registry records the wrapper under the raw connection. */
    method OnConnectionEvent(connection: Value)
      requires IsObjectKey(Get(connection, "_ws"))
      modifies this`connections
      ensures connections == old(connections)[Get(connection, "_ws") := connection]
    {
      var conn := Get(connection, "_ws");
      connections := connections[conn := connection];
    }

    /** `new Socket({ userData: publicKey, socket: connection })`: the
        transport is the wrapper's raw `_ws` connection (or the wrapper, or a
        placeholder when there is none). */
    method NewRequestSocket(connection: Value, publicKey: seq<Byte>) returns (socket: Socket)
      ensures fresh(socket)
      ensures socket.env == env && socket.userData == Buffer(publicKey)
      ensures Truthy(connection) ==> socket.transport == Or(Get(connection, "_ws"), connection)
      ensures !Truthy(connection) ==> socket.transport == EmptyObject
      ensures socket.stream == Null && socket.connectArmed && socket.writable
    {
      var o := Obj(0, map["userData" := Buffer(publicKey), "socket" := connection]);
      assert NormalizeOptions(o) == o;
      assert Get(o, "socket") == connection && Get(o, "url") == Undefined && Get(o, "stream") == Undefined;
      socket := new Socket(o, env);
    }

    /** `onrequest(conn, request)`: wraps the registered wrapper (or a
        placeholder when `conn` is not registered) in a request socket whose
        `userData` is the generated public key, copies the request's headers
        and URL onto it, and emits `connection`. */
    method OnRequestEvent(conn: Value, request: Value, keyPair: KeyPair) returns (s: Session)
      modifies this`log
      ensures fresh(s) && fresh(s.req)
      ensures s.conn == conn && s.keyPair == keyPair && s.phase == AwaitingConnect && s.res == null
      ensures s.Valid()
      ensures s.req.env == env
      ensures s.req.userData == Buffer(keyPair.publicKey)
      ensures conn in old(connections) && Truthy(old(connections)[conn]) ==>
                s.req.transport == Or(Get(old(connections)[conn], "_ws"), old(connections)[conn])
      ensures conn !in old(connections) || !Truthy(old(connections)[conn]) ==> s.req.transport == EmptyObject
      ensures Truthy(request) && Truthy(Get(request, "url")) ==> s.req.url == UrlString(Get(request, "url"))
      ensures Truthy(request) && Truthy(Get(request, "headers")) ==> s.req.headers == Get(request, "headers")
      ensures s.req.stream == Null && s.req.connectArmed && s.req.writable
      ensures log == old(log) + [Connection(s.req, request)]
    {
      var connection := if conn in connections then connections[conn] else Undefined;
      var socket := NewRequestSocket(connection, keyPair.publicKey);

      if Truthy(request) && Truthy(Get(request, "headers")) {
        socket.headers := Get(request, "headers");
      }
      if Truthy(request) && Truthy(Get(request, "url")) {
        socket.url := UrlString(Get(request, "url"));
      }

      log := log + [Connection(socket, request)];
      s := new Session(conn, keyPair, socket);
    }

    /** `new Socket({ userData: publicKey, socket: {}, stream, key: publicKey })`:
        a socket on a placeholder transport, so without a URL, whose key is
        the given public key. */
    method NewResponseSocket(stream: Value, publicKey: seq<Byte>) returns (socket: Socket)
      ensures fresh(socket)
      ensures socket.env == env && socket.userData == Buffer(publicKey)
      ensures socket.key == Buffer(publicKey) && socket.publicKey == socket.key
      ensures socket.stream == Or(stream, Null) && socket.url == ""
      ensures socket.transport == EmptyObject && !socket.openScheduled
    {
      var pk := Buffer(publicKey);
      var o := Obj(0, map["userData" := pk, "socket" := EmptyObject, "stream" := stream, "key" := pk]);
      assert NormalizeOptions(o) == o;
      assert TransportOf(o) == EmptyObject by {
        assert Get(o, "socket") == EmptyObject && Get(EmptyObject, "_ws") == Undefined;
      }
      assert InitialUrl(o, EmptyObject) == "";
      assert InitialKey(env, "", Get(o, "key")) == pk;
      socket := new Socket(o, env);
    }

    /** The request socket's transport connects. The socket's own `onconnect`
        runs first (it was registered in its constructor), so the request has
        a stream; then, on the first connect only, the response socket is
        built on that same stream and the feed subscription is installed. */
    method OnConnect(s: Session)
      requires s.Valid()
      modifies s`res, s`phase
      modifies s.req`connectArmed, s.req`key, s.req`publicKey, s.req`stream
      modifies s.req`remoteAddress, s.req`remoteFamily, s.req`remotePort
      ensures s.Valid()
      ensures !s.req.connectArmed
      ensures old(s.req.connectArmed) ==> s.req.Connected()
      ensures !old(s.req.connectArmed) ==>
                s.req.key == old(s.req.key) && s.req.publicKey == old(s.req.publicKey) &&
                s.req.stream == old(s.req.stream) && s.req.remoteAddress == old(s.req.remoteAddress) &&
                s.req.remoteFamily == old(s.req.remoteFamily) && s.req.remotePort == old(s.req.remotePort)
      ensures PhaseRank(s.phase) >= PhaseRank(old(s.phase))
      ensures old(s.phase) == AwaitingConnect ==>
                && s.phase == AwaitingFeed && fresh(s.res)
                && s.res.stream == s.req.stream
                && s.res.userData == Buffer(s.keyPair.publicKey)
                && s.res.key == Buffer(s.keyPair.publicKey)
                && s.res.transport == EmptyObject && !s.res.openScheduled
      ensures old(s.phase) != AwaitingConnect ==> s.phase == old(s.phase) && s.res == old(s.res)
    {
      s.req.Connect();
      if s.phase == AwaitingConnect {
        var res := NewResponseSocket(s.req.stream, s.keyPair.publicKey);
        s.res := res;
        s.phase := AwaitingFeed;
      }
    }

    /** The shared stream announces a feed. On the first announcement after
        the connect (the subscription is a `once`), both sockets get the
        discovery key, the response gets the secret key, and `request` is
        emitted while the request socket is not writable. */
    method OnFeed(s: Session, discoveryKey: Value)
      requires s.Valid()
      modifies this`log, s`phase, s.req`writable, s.req`discoveryKey
      modifies (if s.res == null then {} else {s.res})`secretKey, (if s.res == null then {} else {s.res})`discoveryKey
      ensures s.Valid()
      ensures PhaseRank(s.phase) >= PhaseRank(old(s.phase))
      ensures old(s.phase) == AwaitingFeed ==>
                && s.phase == Dispatched
                && s.req.discoveryKey == discoveryKey && s.res.discoveryKey == discoveryKey
                && s.res.secretKey == Buffer(s.keyPair.secretKey)
                && s.req.writable
                && log == old(log) + [Request(s.req, s.res, discoveryKey, false)]
      ensures old(s.phase) != AwaitingFeed ==>
                s.phase == old(s.phase) && log == old(log) &&
                s.req.discoveryKey == old(s.req.discoveryKey) && s.req.writable == old(s.req.writable)
      ensures old(s.phase) != AwaitingFeed && s.res != null ==>
                s.res.discoveryKey == old(s.res.discoveryKey) && s.res.secretKey == old(s.res.secretKey)
    {
      if s.phase == AwaitingFeed {
        var req, res := s.req, s.res;
        s.phase := Dispatched;
        req.writable := false;
        req.discoveryKey := discoveryKey;
        res.secretKey := Buffer(s.keyPair.secretKey);
        res.discoveryKey := discoveryKey;
        log := log + [Request(req, res, discoveryKey, req.writable)];
        req.writable := true;
      }
    }

    /** The request socket closes: its registry entry is removed. */
    method OnSocketClose(s: Session)
      modifies this`connections
      ensures connections == old(connections) - {s.conn}
    {
      connections := connections - {s.conn};
    }

    /** The request socket reports an error: it is re-emitted by the server. */
    method OnSocketError(err: Value)
      modifies this`log
      ensures log == old(log) + [Error(err)]
    {
      log := log + [Error(err)];
    }

    /** `onlistening` */
    method OnListeningEvent()
      modifies this`log
      ensures log == old(log) + [Listening]
    {
      log := log + [Listening];
    }

    /** `onerror` */
    method OnErrorEvent(err: Value)
      modifies this`log
      ensures log == old(log) + [Error(err)]
    {
      log := log + [Error(err)];
    }

    /** The listener emits `listening`. The callback `listen` registered, if
        still there, runs first: it detaches its `error` registration and is
        called with null. Then `onlistening`, if attached, re-emits. */
    method ListenerListening(l: Listener)
      modifies this`log, l`errorCallback, l`listeningCallback
      ensures l.listeningCallback == Undefined
      ensures old(l.listeningCallback) != Undefined ==> l.errorCallback == Undefined
      ensures old(l.listeningCallback) == Undefined ==> l.errorCallback == old(l.errorCallback)
      ensures log == old(log)
                     + (if old(l.listeningCallback) != Undefined then [Callback(old(l.listeningCallback), Null)] else [])
                     + (if OnListening in l.handlers then [Listening] else [])
    {
      var cb := l.listeningCallback;
      if cb != Undefined {
        l.listeningCallback := Undefined;
        l.errorCallback := Undefined;
        log := log + [Callback(cb, Null)];
      }
      if OnListening in l.handlers {
        OnListeningEvent();
      }
    }

    /** The listener emits `error`. The callback `listen` registered for
        `error`, if still there, runs once with the error (its `listening`
        registration stays); then `onerror`, if attached, re-emits. */
    method ListenerError(l: Listener, err: Value)
      modifies this`log, l`errorCallback
      ensures l.errorCallback == Undefined
      ensures log == old(log)
                     + (if old(l.errorCallback) != Undefined then [Callback(old(l.errorCallback), err)] else [])
                     + (if OnError in l.handlers then [Error(err)] else [])
    {
      var cb := l.errorCallback;
      if cb != Undefined {
        l.errorCallback := Undefined;
        log := log + [Callback(cb, err)];
      }
      if OnError in l.handlers {
        OnErrorEvent(err);
      }
    }

    /** `address()`: null without a listener or without address information;
        otherwise the address information with the active protocol. */
    function Address(addrinfo: Value): (r: Value)
      reads this
      ensures server == null || !Truthy(addrinfo) ==> r == Null
      ensures server != null && Truthy(addrinfo) ==>
                && r.Obj?
                && r.fields.Keys == Fields(addrinfo).Keys + {"protocol"}
                && (forall k :: k in Fields(addrinfo) ==> r.fields[k] == Fields(addrinfo)[k])
                && ("protocol" !in Fields(addrinfo) ==> r.fields["protocol"] == protocol)
    {
      if server != null && Truthy(addrinfo) then
        Obj(0, map["protocol" := protocol] + Fields(addrinfo))
      else
        Null
    }

    /** Lines 103-128 of `listen`: sorting out which argument is which. */
    static method SortListenArgs(port: Value, host: Value, callback: Value) returns (a: ListenArgs)
      ensures a == NormaliseListenArgs(port, host, callback)
    {
      var options: map<string, Value> := map[];
      var p, h, cb := port, host, callback;

      if Function == TypeOf(p) {
        cb := p;
        p := Num(0);
      }
      if String == TypeOf(p) {
        cb := h;
        h := p;
        p := Num(0);
      }
      if Function == TypeOf(h) {
        cb := h;
        h := Undefined;
      }
      if Truthy(p) && Object == TypeOf(p) {
        options := Fields(p);
        p := Undefined;
      } else if Undefined != p && Truthy(h) && Object == TypeOf(h) {
        options := Fields(h);
        h := Undefined;
      }
      a := ListenArgs(p, h, cb, options);
    }

    /** Lines 141-149 of `listen`. */
    static method MergeOptions(a: ListenArgs, ctorOpts: map<string, Value>) returns (options: map<string, Value>)
      ensures options == MergeListenOptions(a, ctorOpts)
    {
      options := a.opts + ctorOpts;
      if Undefined != a.host {
        options := options["host" := a.host];
      }
      if Undefined != a.port {
        options := options["port" := a.port];
      }
    }

    /** Lines 151-159 of `listen`, with `url.parse` bound. */
    static method ResolveHost(merged: map<string, Value>, env: Env)
      returns (proto: Value, options: map<string, Value>)
      ensures (proto, options) == ResolveListenHost(merged, env)
    {
      proto := Str("ws:");
      options := merged;
      if !Truthy(At(options, "port")) && Undefined != At(options, "host") {
        var address := ToString(At(options, "host"));
        if !HasWsScheme(address) {
          address := "ws://" + address;
        }
        var uri := env.urlParse(address);
        options := options["host" := OrNull(uri.hostname)];
        options := options["port" := ParseIntOrNaN(uri.port)];
        proto := OrNull(uri.protocol);
      }
    }

    /** Lines 161-173 of `listen`. */
    static method AttachServer(proto: Value, resolved: map<string, Value>, httpsServer: Value)
      returns (options: map<string, Value>)
      ensures options == AttachHttpsServer(proto, resolved, httpsServer)
    {
      options := resolved;
      if Str("wss:") == proto && !Truthy(At(options, "server")) {
        options := options["server" := httpsServer];
      }
      if Truthy(At(options, "server")) {
        options := options - {"host", "port"};
      }
    }

    /** `listen(port, host, callback)`. With a listener already present it
        reports `Already listening` (to the callback, or by emitting `error`
        and throwing) and changes nothing else. Otherwise it creates the
        listener with the options `ListenPlan` computes and wires the five
        handlers to it. `httpsServer` stands for what `https.createServer`
        would return. */
    method Listen(port: Value, host: Value, callback: Value, httpsServer: Value)
      returns (outcome: ListenOutcome)
      requires httpsServer.Obj?
      modifies this`server, this`protocol, this`log
      ensures old(server) != null ==> server == old(server) && protocol == old(protocol)
      ensures old(server) != null && TypeOf(NormaliseListenArgs(port, host, callback).callback) == Function ==>
                outcome == Reported &&
                log == old(log) + [Callback(NormaliseListenArgs(port, host, callback).callback, AlreadyListening)]
      ensures old(server) != null && TypeOf(NormaliseListenArgs(port, host, callback).callback) != Function ==>
                outcome == Threw && log == old(log) + [Error(AlreadyListening)]
      ensures old(server) == null ==> outcome == Started && fresh(server) && log == old(log)
      ensures old(server) == null ==> server.handlers == AllHandlers && !server.closed
      ensures old(server) == null ==> protocol == ListenPlan(port, host, callback, opts, env, httpsServer).0
      ensures old(server) == null ==> server.opts == ListenPlan(port, host, callback, opts, env, httpsServer).1
      ensures old(server) == null ==>
                var cb := NormaliseListenArgs(port, host, callback).callback;
                server.errorCallback == server.listeningCallback == (if TypeOf(cb) == Function then cb else Undefined)
    {
      var args := SortListenArgs(port, host, callback);
      var cb := args.callback;

      if server != null {
        if Function == TypeOf(cb) {
          log := log + [Callback(cb, AlreadyListening)];
          return Reported;
        } else {
          log := log + [Error(AlreadyListening)];
          return Threw;
        }
      }

      var merged := MergeOptions(args, opts);
      var proto, resolved := ResolveHost(merged, env);
      var options := AttachServer(proto, resolved, httpsServer);
      assert (proto, options) == ListenPlan(port, host, callback, opts, env, httpsServer);
      protocol := proto;
      server := StartListener(options, cb);
      outcome := Started;
    }

    /** Lines 177-191 of `listen`: the listener, with the callback
        registered once for `error` and once for `listening`, and the five
        handlers attached. */
    static method StartListener(options: map<string, Value>, cb: Value) returns (listener: Listener)
      ensures fresh(listener) && listener.opts == options
      ensures listener.handlers == AllHandlers && !listener.closed
      ensures listener.errorCallback == listener.listeningCallback == (if TypeOf(cb) == Function then cb else Undefined)
    {
      listener := new Listener(options);
      if Function == TypeOf(cb) {
        listener.errorCallback := cb;
        listener.listeningCallback := cb;
      }
      listener.handlers := AllHandlers;
    }

    /** The listener, if any, as a set (for frames). */
    function Attached(): set<Listener>
      reads this
    {
      if server == null then {} else {server}
    }

    /** `close(callback)`: the first call marks the server destroyed and, if
        it is listening, detaches the five handlers, closes the listener,
        drops it and emits `close`; every later call only hands
        `Server is closed.` to the callback. */
    method Close(callback: Value)
      modifies this`destroyed, this`server, this`log
      modifies Attached()`handlers, Attached()`closed, Attached()`closeCallback
      ensures destroyed
      ensures old(destroyed) ==>
                && server == old(server)
                && log == old(log) + (if TypeOf(callback) == Function then [Callback(callback, AlreadyClosed)] else [])
      ensures old(destroyed) && old(server) != null ==>
                && old(server).handlers == old(server.handlers) && old(server).closed == old(server.closed)
                && old(server).closeCallback == old(server.closeCallback)
      ensures !old(destroyed) ==> server == null
      ensures !old(destroyed) && old(server) != null ==>
                && old(server).handlers == {} && old(server).closed
                && old(server).closeCallback == callback
                && log == old(log) + [Closed]
      ensures !old(destroyed) && old(server) == null ==> log == old(log)
    {
      if destroyed {
        if Function == TypeOf(callback) {
          log := log + [Callback(callback, AlreadyClosed)];
        }
        return;
      }

      destroyed := true;

      if server != null {
        server.handlers := {};
        server.closed := true;
        server.closeCallback := callback;
        server := null;
        log := log + [Closed];
      }
    }

    /** The listener emits `close`: `onclose`, if attached, closes the server. */
    method ListenerClose(l: Listener)
      modifies this`destroyed, this`server, this`log
      modifies Attached()`handlers, Attached()`closed, Attached()`closeCallback
      ensures old(OnClose in l.handlers) ==> destroyed
      ensures old(OnClose in l.handlers) && !old(destroyed) ==> server == null
      ensures old(OnClose in l.handlers) && !old(destroyed) && old(server) != null ==>
                && old(server).handlers == {} && old(server).closed
                && old(server).closeCallback == Undefined
                && log == old(log) + [Closed]
      ensures old(OnClose in l.handlers) && !old(destroyed) && old(server) == null ==> log == old(log)
      ensures old(OnClose !in l.handlers) || old(destroyed) ==>
                && server == old(server) && log == old(log)
                && (old(server) != null ==>
                      && old(server).handlers == old(server.handlers) && old(server).closed == old(server.closed)
                      && old(server).closeCallback == old(server.closeCallback))
      ensures old(OnClose !in l.handlers) ==> destroyed == old(destroyed)
    {
      if OnClose in l.handlers {
        Close(Undefined);
      }
    }
  }

  /** `close()` before any `listen()` marks the server destroyed without a
      listener to close; `listen` does not look at `destroyed`, so a later
      listener starts, and a second `close()` no longer reaches it. */
  method CloseBeforeListen(env: Env, httpsServer: Value) returns (server: Server, listener: Listener)
    requires httpsServer.Obj?
    ensures server.destroyed && server.server == listener
    ensures listener.handlers == AllHandlers && !listener.closed
  {
    server := new Server(EmptyObject, env);
    server.Close(Undefined);
    var outcome := server.Listen(Num(8080), Undefined, Undefined, httpsServer);
    listener := server.server;
    server.Close(Undefined);
  }
  /** The end-to-end pairing a client dialling `/<hex k>` gets: the request
      socket learns its URL after construction, so after its `connect` (via
      `onconnect`) its `key` and `publicKey` are `k`, while the response
      socket is keyed by the generated public key. */
  method PairedRequestKey(server: Server, conn: Value, request: Value, k: seq<Byte>, keyPair: KeyPair)
    returns (s: Session)
    requires |k| == 32
    requires Truthy(request) && Get(request, "url") == Str("/" + Hex.Encode(k))
    requires server.env.urlParse("/" + Hex.Encode(k)).pathname == "/" + Hex.Encode(k)
    modifies server`log
    ensures s.req.url == "/" + Hex.Encode(k)
    ensures s.req.key == Buffer(k) && s.req.publicKey == Buffer(k)
    ensures s.phase == AwaitingFeed && s.res != null && s.res.key == Buffer(keyPair.publicKey)
    ensures s.res.stream == s.req.stream && s.res.userData == s.req.userData
  {
    s := server.OnRequestEvent(conn, request, keyPair);
    KeyFromRootPath(k);
    server.OnConnect(s);
  }
}
