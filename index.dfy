/** index.js: the entry points. `createServer` builds a rendezvous server
    with an optional `request` listener; `connect` sorts out its arguments
    (an existing connection to wrap, a port and a host, a key buffer, an
    options object), fills in defaults and dials
    `protocol//host:port pathname`, or returns null when it ends up without
    a host or a port. */
module Entry {
  import opened Js
  import opened Route
  import opened Sockets
  import opened Servers
  import Hex

  /** `createServer(opts, onrequest)`: a function in first place is the
      request listener and the options are empty. */
  method CreateServer(opts: Value, onrequest: Value, env: Env) returns (server: Server)
    ensures fresh(server) && server.env == env
    ensures !server.destroyed && server.server == null && server.connections == map[] && server.log == []
    ensures TypeOf(opts) == Function ==> server.opts == map[] && server.requestListeners == [opts]
    ensures TypeOf(opts) != Function ==>
              server.opts == Fields(opts) &&
              server.requestListeners == (if TypeOf(onrequest) == Function then [onrequest] else [])
  {
    var o, handler := opts, onrequest;
    if Function == TypeOf(o) {
      handler := o;
      o := EmptyObject;
    }
    server := new Server(o, env);
    if Function == TypeOf(handler) {
      server.AddRequestListener(handler);
    }
  }

  /** The locals of `connect` between its steps. */
  datatype Locals = Locals(port: Value, host: Value, callback: Value, pathname: Value, protocol: Value, opts: Value)

  /** Lines 20-50: either an existing connection, wrapped as it is (the
      value becomes the new socket's `socket` option), or the locals. */
  datatype Shape = Wrap(connection: Value) | Args(locals: Locals)

  /** What `connect` ends with: a socket wrapping a connection, a socket
      dialling a URL (with the callback registered on its `connect`), or
      null. */
  datatype Plan = Wrapped(connection: Value) | Dial(url: string, callback: Value) | NoSocket

  function ConnectShape(port: Value, host: Value, callback: Value): Shape {
    if Truthy(port) && TypeOf(port) == Object && TypeOf(Get(port, "_ws")) == Object then
      Wrap(Get(port, "_ws"))
    else if Truthy(port) && TypeOf(port) == Object && TypeOf(Get(port, "send")) == Function then
      Wrap(port)
    else
      var l := if Truthy(port) && TypeOf(port) == Object
               then Locals(Undefined, Undefined, host, Str("/"), Str("ws:"), port)
               else Locals(port, host, callback, Str("/"), Str("ws:"), EmptyObject);
      if Truthy(l.host) && TypeOf(l.host) == Object then
        if l.host.Buffer? then Args(l.(pathname := Str("/" + Hex.Encode(l.host.bytes)), host := Undefined))
        else Args(l.(opts := l.host, port := Undefined, host := Undefined))
      else Args(l)
  }

  /** Lines 52-75: option fields override the locals, a function host is
      the callback, and a string port is the host. */
  function ApplyConnectOptions(l: Locals): Locals {
    var o := l.opts;
    var l := if Has(o, "port") then l.(port := Get(o, "port")) else l;
    var l := if Has(o, "host") then l.(host := Get(o, "host")) else l;
    var l := if Has(o, "pathname") then l.(pathname := Get(o, "pathname")) else l;
    var l := if Has(o, "protocol") then l.(protocol := Get(o, "protocol")) else l;
    var l := if TypeOf(l.host) == Function then l.(callback := l.host, host := Undefined) else l;
    if TypeOf(l.port) == String then l.(host := l.port) else l
  }

  /** `url.parse` refuses anything but a string. */
  const UrlNotString: Value := ErrorValue("The \"url\" argument must be of type string")

  /** `Str(s)` when the property is set and non-empty: `if (uri.x)`. */
  predicate IsSet(p: Option<string>) {
    p.Some? && p.value != ""
  }

  /** Lines 77-104 with `url.parse` bound: without a host, the page's
      hostname (and `wss:` under `https:`) in a browser and `localhost`
      elsewhere; with a host, its set URL parts override host, port,
      protocol and pathname. */
  function ResolveConnectHost(l: Locals, window: Option<Location>, env: Env): Result<Locals> {
    if !Truthy(l.host) then
      match window
      case Some(loc) =>
        Ok(l.(host := Str(loc.hostname),
              protocol := if loc.protocol == "https:" then Str("wss:") else l.protocol))
      case None => Ok(l.(host := Str("localhost")))
    else if !l.host.Str? then
      Thrown(UrlNotString)
    else
      var uri := env.urlParse(l.host.s);
      var l := if IsSet(uri.hostname) then l.(host := Str(uri.hostname.value)) else l;
      var l := if IsSet(uri.port) then l.(port := ParseInt(uri.port.value)) else l;
      var l := if IsSet(uri.protocol) then l.(protocol := Str(uri.protocol.value)) else l;
      Ok(if uri.pathname != "" then l.(pathname := Str(uri.pathname)) else l)
  }

  /** Lines 77-104 as written: index.js binds no `url`, so any host reaches
      a ReferenceError. */
  function ResolveConnectHostAsWritten(l: Locals, window: Option<Location>): Result<Locals> {
    if !Truthy(l.host) then
      match window
      case Some(loc) =>
        Ok(l.(host := Str(loc.hostname),
              protocol := if loc.protocol == "https:" then Str("wss:") else l.protocol))
      case None => Ok(l.(host := Str("localhost")))
    else
      Thrown(UrlNotDefined)
  }

  /** `${protocol}//${host}:${port}${pathname}` */
  function DialUrl(l: Locals): string {
    ToString(l.protocol) + "//" + ToString(l.host) + ":" + ToString(l.port) + ToString(l.pathname)
  }

  /** Lines 106-116. */
  function Finish(l: Locals): Plan {
    if Truthy(l.host) && Truthy(l.port) then Dial(DialUrl(l), l.callback) else NoSocket
  }

  /** `connect(port, host, callback)` with `url.parse` bound. */
  function ConnectPlan(port: Value, host: Value, callback: Value, window: Option<Location>, env: Env): Result<Plan> {
    match ConnectShape(port, host, callback)
    case Wrap(c) => Ok(Wrapped(c))
    case Args(l) =>
      match ResolveConnectHost(ApplyConnectOptions(l), window, env)
      case Thrown(e) => Thrown(e)
      case Ok(l) => Ok(Finish(l))
  }

  /** `connect(port, host, callback)` as written. */
  function ConnectPlanAsWritten(port: Value, host: Value, callback: Value, window: Option<Location>): Result<Plan> {
    match ConnectShape(port, host, callback)
    case Wrap(c) => Ok(Wrapped(c))
    case Args(l) =>
      match ResolveConnectHostAsWritten(ApplyConnectOptions(l), window)
      case Thrown(e) => Thrown(e)
      case Ok(l) => Ok(Finish(l))
  }

  /** Lines 20-50 of `connect`. */
  method SortConnectArgs(port: Value, host: Value, callback: Value) returns (shape: Shape)
    ensures shape == ConnectShape(port, host, callback)
  {
    var protocol, pathname, opts := Str("ws:"), Str("/"), EmptyObject;
    var port, host, callback := port, host, callback;
    if Truthy(port) && TypeOf(port) == Object {
      if Object == TypeOf(Get(port, "_ws")) {
        return Wrap(Get(port, "_ws"));
      }
      if Function == TypeOf(Get(port, "send")) {
        return Wrap(port);
      }
      opts := port;
      callback := host;
      port := Undefined;
      host := Undefined;
    }
    if Truthy(host) && Object == TypeOf(host) {
      if host.Buffer? {
        pathname := Str("/" + Hex.Encode(host.bytes));
        host := Undefined;
      } else {
        opts := host;
        port := Undefined;
        host := Undefined;
      }
    }
    shape := Args(Locals(port, host, callback, pathname, protocol, opts));
  }

  /** Lines 52-75 of `connect`. */
  method ApplyOptionsStep(l: Locals) returns (r: Locals)
    ensures r == ApplyConnectOptions(l)
  {
    var port, host, callback, pathname, protocol, opts := l.port, l.host, l.callback, l.pathname, l.protocol, l.opts;
    if Has(opts, "port") {
      port := Get(opts, "port");
    }
    if Has(opts, "host") {
      host := Get(opts, "host");
    }
    if Has(opts, "pathname") {
      pathname := Get(opts, "pathname");
    }
    if Has(opts, "protocol") {
      protocol := Get(opts, "protocol");
    }
    if TypeOf(host) == Function {
      callback := host;
      host := Undefined;
    }
    if String == TypeOf(port) {
      host := port;
    }
    r := Locals(port, host, callback, pathname, protocol, opts);
  }

  /** Lines 77-104 of `connect`, with `url.parse` bound. */
  method ResolveHostStep(l: Locals, window: Option<Location>, env: Env) returns (r: Result<Locals>)
    ensures r == ResolveConnectHost(l, window, env)
  {
    var port, host, pathname, protocol := l.port, l.host, l.pathname, l.protocol;
    if !Truthy(host) {
      if window.Some? {
        host := Str(window.value.hostname);
        if "https:" == window.value.protocol {
          protocol := Str("wss:");
        }
      } else {
        host := Str("localhost");
      }
    } else {
      if !host.Str? {
        return Thrown(UrlNotString);
      }
      var uri := env.urlParse(host.s);
      if IsSet(uri.hostname) {
        host := Str(uri.hostname.value);
      }
      if IsSet(uri.port) {
        port := ParseInt(uri.port.value);
      }
      if IsSet(uri.protocol) {
        protocol := Str(uri.protocol.value);
      }
      if uri.pathname != "" {
        pathname := Str(uri.pathname);
      }
    }
    r := Ok(l.(port := port, host := host, pathname := pathname, protocol := protocol));
  }

  /** `new Socket(url)`: a socket dialling `url`, with no wrapped
      connection, whose key is the URL's key when it routes one. */
  method DialSocket(url: string, env: Env) returns (socket: Socket)
    ensures fresh(socket) && socket.env == env
    ensures url != "" ==> socket.url == url && socket.transport == Undefined
    ensures url != "" ==> socket.key == InitialKey(env, url, Undefined)
    ensures socket.stream == Null && socket.connectArmed
  {
    var o := Str(url);
    var n := Obj(0, map["url" := o]);
    assert NormalizeOptions(o) == n;
    assert Get(n, "socket") == Undefined && Get(n, "url") == o && Get(n, "stream") == Undefined;
    assert Get(n, "key") == Undefined;
    socket := new Socket(o, env);
  }

  /** `new Socket({ socket: connection })` */
  method WrapSocket(connection: Value, env: Env) returns (socket: Socket)
    ensures fresh(socket) && socket.env == env
    ensures Truthy(connection) ==> socket.transport == Or(Get(connection, "_ws"), connection)
    ensures !Truthy(connection) ==> socket.transport == EmptyObject
    ensures socket.stream == Null && socket.connectArmed
  {
    var o := Obj(0, map["socket" := connection]);
    assert NormalizeOptions(o) == o;
    assert Get(o, "socket") == connection && Get(o, "url") == Undefined && Get(o, "stream") == Undefined;
    socket := new Socket(o, env);
  }

  /** The socket `connect` returns, and the listener it registered on the
      socket's `connect` event (undefined when none). */
  datatype Connected = Connected(socket: Socket?, connectListener: Value)

  /** `connect(port, host, callback)`, with `url.parse` bound and
      `window` standing for the browser's `window.location` (none outside a
      browser). */
  method Connect(port: Value, host: Value, callback: Value, window: Option<Location>, env: Env)
    returns (r: Result<Connected>)
    ensures ConnectPlan(port, host, callback, window, env).Thrown? ==>
              r == Thrown(ConnectPlan(port, host, callback, window, env).error)
    ensures ConnectPlan(port, host, callback, window, env).Ok? ==> r.Ok?
    ensures r.Ok? && r.value.socket != null ==> fresh(r.value.socket) && r.value.socket.env == env
    ensures ConnectPlan(port, host, callback, window, env) == Ok(NoSocket) ==> r == Ok(Connected(null, Undefined))
    ensures ConnectPlan(port, host, callback, window, env).Ok? &&
            ConnectPlan(port, host, callback, window, env).value.Wrapped? ==>
              var c := ConnectPlan(port, host, callback, window, env).value.connection;
              && r.value.socket != null && r.value.connectListener == Undefined
              && (Truthy(c) ==> r.value.socket.transport == Or(Get(c, "_ws"), c))
              && (!Truthy(c) ==> r.value.socket.transport == EmptyObject)
    ensures ConnectPlan(port, host, callback, window, env).Ok? &&
            ConnectPlan(port, host, callback, window, env).value.Dial? ==>
              var d := ConnectPlan(port, host, callback, window, env).value;
              && r.value.socket != null && r.value.socket.url == d.url
              && r.value.socket.key == InitialKey(env, d.url, Undefined)
              && r.value.connectListener == (if TypeOf(d.callback) == Function then d.callback else Undefined)
  {
    var shape := SortConnectArgs(port, host, callback);
    if shape.Wrap? {
      var socket := WrapSocket(shape.connection, env);
      return Ok(Connected(socket, Undefined));
    }
    var withOptions := ApplyOptionsStep(shape.locals);
    var resolved := ResolveHostStep(withOptions, window, env);
    if resolved.Thrown? {
      return Thrown(resolved.error);
    }
    var l := resolved.value;
    if Truthy(l.host) && Truthy(l.port) {
      DialUrlNonEmpty(l);
      var socket := DialSocket(DialUrl(l), env);
      var listener := if Function == TypeOf(l.callback) then l.callback else Undefined;
      return Ok(Connected(socket, listener));
    }
    return Ok(Connected(null, Undefined));
  }

  lemma DialUrlNonEmpty(l: Locals)
    ensures |DialUrl(l)| >= 3
  {
  }

  // Properties of `connect`.

  /** An existing connection is recognised by its `_ws` first and by a
      `send` function second, and wrapped as it is. */
  lemma DuckTyping(port: Value, host: Value, callback: Value, window: Option<Location>, env: Env)
    requires port.Obj?
    ensures TypeOf(Get(port, "_ws")) == Object ==>
              ConnectPlan(port, host, callback, window, env) == Ok(Wrapped(Get(port, "_ws")))
    ensures TypeOf(Get(port, "_ws")) != Object && TypeOf(Get(port, "send")) == Function ==>
              ConnectPlan(port, host, callback, window, env) == Ok(Wrapped(port))
    ensures (TypeOf(Get(port, "_ws")) == Object || TypeOf(Get(port, "send")) == Function) <==>
            ConnectShape(port, host, callback).Wrap?
  {
  }

  /** A key buffer in place of the host becomes the path: `/` and its hex. */
  lemma BufferHostPath(port: Value, b: seq<Byte>, callback: Value)
    requires !(Truthy(port) && TypeOf(port) == Object)
    ensures ConnectShape(port, Buffer(b), callback) ==
            Args(Locals(port, Undefined, callback, Str("/" + Hex.Encode(b)), Str("ws:"), EmptyObject))
  {
  }

  /** After an options object: present option fields override the
      defaults, absent ones leave them, and the callback is kept. */
  lemma OptionsOverride(l: Locals)
    requires l.opts.Obj? && l.port == Undefined && l.host == Undefined
    requires TypeOf(Get(l.opts, "host")) != Function && TypeOf(Get(l.opts, "port")) != String
    ensures ApplyConnectOptions(l).port == Get(l.opts, "port")
    ensures ApplyConnectOptions(l).host == Get(l.opts, "host")
    ensures ApplyConnectOptions(l).callback == l.callback
    ensures ApplyConnectOptions(l).pathname == (if Has(l.opts, "pathname") then Get(l.opts, "pathname") else l.pathname)
    ensures ApplyConnectOptions(l).protocol == (if Has(l.opts, "protocol") then Get(l.opts, "protocol") else l.protocol)
  {
  }

  /** A string port is taken as the host; with no host outside a browser
      the host is `localhost`, in a browser the page's hostname. */
  lemma HostDefaults(l: Locals, s: string, loc: Location, env: Env)
    requires !Truthy(l.host)
    ensures ResolveConnectHost(l, None, env) == Ok(l.(host := Str("localhost")))
    ensures ResolveConnectHost(l, Some(loc), env).Ok?
    ensures ResolveConnectHost(l, Some(loc), env).value.host == Str(loc.hostname)
    ensures ResolveConnectHost(l, Some(loc), env).value.protocol ==
            (if loc.protocol == "https:" then Str("wss:") else l.protocol)
    ensures var m := ApplyConnectOptions(l.(port := Str(s), opts := EmptyObject));
            m.host == Str(s) && m.port == Str(s)
  {
  }

  /** `connect` dials exactly when it ends up with a host and a port, and
      then dials `protocol//host:port pathname`. */
  lemma DialIff(l: Locals)
    ensures Finish(l).Dial? <==> Truthy(l.host) && Truthy(l.port)
    ensures Finish(l).Dial? ==>
              Finish(l).url == ToString(l.protocol) + "//" + ToString(l.host) + ":" + ToString(l.port) + ToString(l.pathname)
              && Finish(l).callback == l.callback
    ensures Finish(l).NoSocket? <==> !Truthy(l.host) || !Truthy(l.port)
  {
  }

  /** `connect(0)`, `connect()` and any other falsy port alone return
      null outside a browser: the host defaults but the port stays falsy. */
  lemma ConnectWithoutPort(v: Value, env: Env)
    requires !Truthy(v)
    ensures ConnectPlan(v, Undefined, Undefined, None, env) == Ok(NoSocket)
  {
    var l := Locals(v, Undefined, Undefined, Str("/"), Str("ws:"), EmptyObject);
    assert ConnectShape(v, Undefined, Undefined) == Args(l);
    var m := ApplyConnectOptions(l);
    assert m.port == v && !Truthy(m.host);
    assert ResolveConnectHost(m, None, env) == Ok(m.(host := Str("localhost")));
  }

  /** Default locals with a positive port and a path, outside a browser:
      the host becomes `localhost` and the socket dials
      `ws://localhost:p<path>`. */
  lemma LocalhostDial(p: nat, path: string, env: Env)
    requires p > 0
    ensures var l := Locals(Num(p), Undefined, Undefined, Str(path), Str("ws:"), EmptyObject);
            && ApplyConnectOptions(l) == l
            && ResolveConnectHost(l, None, env) == Ok(l.(host := Str("localhost")))
            && Finish(l.(host := Str("localhost"))) == Dial("ws://localhost:" + DecimalString(p) + path, Undefined)
  {
    var l := Locals(Num(p), Undefined, Undefined, Str(path), Str("ws:"), EmptyObject);
    var m := l.(host := Str("localhost"));
    var d := DecimalString(p);
    assert DialUrl(m) == "ws:" + "//" + "localhost" + ":" + d + path;
    assert "ws:" + "//" + "localhost" + ":" + d + path == "ws://localhost:" + d + path;
  }

  /** `connect(p)` with a positive `p` outside a browser dials
      `ws://localhost:p/`. */
  lemma ConnectToPort(p: nat, env: Env)
    requires p > 0
    ensures ConnectPlan(Num(p), Undefined, Undefined, None, env) ==
            Ok(Dial("ws://localhost:" + DecimalString(p) + "/", Undefined))
  {
    var l := Locals(Num(p), Undefined, Undefined, Str("/"), Str("ws:"), EmptyObject);
    assert ConnectShape(Num(p), Undefined, Undefined) == Args(l);
    LocalhostDial(p, "/", env);
  }

  /** `connect(p, buffer)` outside a browser dials
      `ws://localhost:p/<hex of buffer>`. */
  lemma ConnectWithBuffer(p: nat, b: seq<Byte>, env: Env)
    requires p > 0
    ensures ConnectPlan(Num(p), Buffer(b), Undefined, None, env) ==
            Ok(Dial("ws://localhost:" + DecimalString(p) + ("/" + Hex.Encode(b)), Undefined))
  {
    var path := "/" + Hex.Encode(b);
    var l := Locals(Num(p), Undefined, Undefined, Str(path), Str("ws:"), EmptyObject);
    BufferHostPath(Num(p), b, Undefined);
    LocalhostDial(p, path, env);
    assert ConnectPlan(Num(p), Buffer(b), Undefined, None, env) == Ok(Finish(l.(host := Str("localhost"))));
  }

  /** End to end: `connect(p, key)` outside a browser dials
      `ws://localhost:p/<hex of key>`, and a socket accepted for a request
      with that path reads the key back from it. */
  lemma ConnectWithKey(p: nat, k: seq<Byte>, env: Env)
    requires p > 0 && |k| == 32
    ensures ConnectPlan(Num(p), Buffer(k), Undefined, None, env) ==
            Ok(Dial("ws://localhost:" + DecimalString(p) + ("/" + Hex.Encode(k)), Undefined))
    ensures RoutingKey("/" + Hex.Encode(k)) == k
  {
    ConnectWithBuffer(p, k, env);
    KeyFromRootPath(k);
  }

  /** Finding: as written, every call that reaches the host parsing throws
      a ReferenceError; only calls that end up without a host (which then
      default to `localhost` or the page's hostname) get through. */
  lemma ConnectHostAsWrittenThrows(l: Locals, window: Option<Location>, env: Env)
    ensures ResolveConnectHostAsWritten(l, window).Thrown? <==> Truthy(l.host)
    ensures !Truthy(l.host) ==> ResolveConnectHostAsWritten(l, window) == ResolveConnectHost(l, window, env)
  {
  }

  /** `connect(p, address)` with `url.parse` bound: a `ws:` address
      without a port and with the path `/` dials its hostname on port `p`. */
  lemma ConnectToAddress(p: nat, address: string, hostname: string, env: Env)
    requires p > 0 && address != "" && hostname != ""
    requires env.urlParse(address) == Url(Some("ws:"), Some(hostname), Some(hostname), None, "/")
    ensures ConnectPlan(Num(p), Str(address), Undefined, None, env) ==
            Ok(Dial("ws://" + hostname + ":" + DecimalString(p) + "/", Undefined))
  {
    var l := Locals(Num(p), Str(address), Undefined, Str("/"), Str("ws:"), EmptyObject);
    assert ConnectShape(Num(p), Str(address), Undefined) == Args(l);
    assert ApplyConnectOptions(l) == l;
    var m := l.(host := Str(hostname));
    assert ResolveConnectHost(l, None, env) == Ok(m);
    var d := DecimalString(p);
    assert DialUrl(m) == "ws:" + "//" + hostname + ":" + d + "/";
    assert "ws:" + "//" + hostname + ":" + d + "/" == "ws://" + hostname + ":" + d + "/";
    assert ConnectPlan(Num(p), Str(address), Undefined, None, env) == Ok(Finish(m));
  }

  /** Finding, concretely: `connect(8080, 'ws://example.org')` throws as
      written, where `ConnectToAddress` dials `ws://example.org:8080/`. */
  lemma ConnectExampleOrgThrows()
    ensures ConnectPlanAsWritten(Num(8080), Str("ws://example.org"), Undefined, None) == Thrown(UrlNotDefined)
  {
    var l := Locals(Num(8080), Str("ws://example.org"), Undefined, Str("/"), Str("ws:"), EmptyObject);
    assert ConnectShape(Num(8080), Str("ws://example.org"), Undefined) == Args(l);
    assert ApplyConnectOptions(l) == l;
  }
}
