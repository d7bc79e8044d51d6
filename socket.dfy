/** socket.js: the session socket. It decorates one transport connection
    with identity (`key`/`publicKey`, `userData`, `discoveryKey`), replication
    flags and, once the transport connects, the remote address fields and a
    replication stream attached at most once. */
module Sockets {
  import opened Js
  import opened Route

  /** `window.location` in a browser. */
  datatype Location = Location(hostname: string, protocol: string, port: string)

  /** `opts` after `if (typeof opts === 'string') opts = { url: opts }` and
      `Object.assign({}, opts)`: an options object (a new one, id 0). */
  function NormalizeOptions(opts: Value): (o: Value)
    ensures o.Obj?
    ensures opts.Str? ==> o.fields == map["url" := opts]
    ensures opts.Obj? ==> o.fields == opts.fields
    ensures !opts.Str? && !opts.Obj? ==> o.fields == map[]
  {
    if opts.Str? then Obj(0, map["url" := opts]) else Obj(0, Fields(opts))
  }

  /** The raw connection handed to the transport: `opts.socket` with an inner
      `_ws` unwrapped one level, or a placeholder `{}` when neither `url` nor
      `socket` is given. */
  function TransportOf(o: Value): (t: Value)
    ensures !Truthy(Get(o, "url")) && !Truthy(Get(o, "socket")) ==> t == EmptyObject
    ensures Truthy(Get(o, "socket")) && Truthy(Get(Get(o, "socket"), "_ws")) ==>
              t == Get(Get(o, "socket"), "_ws")
    ensures Truthy(Get(o, "socket")) && !Truthy(Get(Get(o, "socket"), "_ws")) ==>
              t == Get(o, "socket")
    ensures Truthy(Get(o, "url")) && !Truthy(Get(o, "socket")) ==> t == Get(o, "socket")
  {
    var s := Get(o, "socket");
    var s := if Truthy(s) && Truthy(Get(s, "_ws")) then Get(s, "_ws") else s;
    if !Truthy(Get(o, "url")) && !Truthy(s) then EmptyObject else s
  }

  /** `'boolean' === typeof v ? v : true` */
  function Flag(v: Value): (b: bool)
    ensures TypeOf(v) == Boolean ==> b == v.b
    ensures TypeOf(v) != Boolean ==> b
  {
    if v.Bool? then v.b else true
  }

  /** A string property read as the socket's `url`; any other value is
      treated as no URL. */
  function UrlString(v: Value): string {
    if v.Str? then v.s else ""
  }

  /** What the transport superclass records as `this.url`: the wrapped
      connection's own `url` when one is given, otherwise `opts.url`. */
  function InitialUrl(o: Value, transport: Value): string {
    if Truthy(transport) then UrlString(Get(transport, "url")) else UrlString(Get(o, "url"))
  }

  /** The key the socket's URL carries, when that URL is set and its routing
      key has exactly 32 bytes. */
  function UrlKey(env: Env, url: string): (k: Option<seq<Byte>>)
    ensures k.Some? <==> url != "" && IsAcceptedKey(RoutingKey(env.urlParse(url).pathname))
    ensures k.Some? ==> |k.value| == 32 && k.value == ParseUrl(env, url).1
  {
    if url == "" then None
    else
      var key := ParseUrl(env, url).1;
      if IsAcceptedKey(key) then Some(key) else None
  }

  /** `key`/`publicKey` after the constructor: the URL's key when it is
      accepted, else `opts.key`, else null. */
  function InitialKey(env: Env, url: string, optKey: Value): (r: Value)
  {
    match UrlKey(env, url)
    case Some(k) => Buffer(k)
    case None => Or(optKey, Null)
  }

  /** The key is replaced only by a 32-byte URL key; otherwise the caller's
      key, or null, is kept. */
  lemma InitialKeyCases(env: Env, url: string, optKey: Value)
    ensures || (InitialKey(env, url, optKey).Buffer? && |InitialKey(env, url, optKey).bytes| == 32 &&
                InitialKey(env, url, optKey).bytes == RoutingKey(env.urlParse(url).pathname))
            || (InitialKey(env, url, optKey) == optKey && Truthy(optKey))
            || (InitialKey(env, url, optKey) == Null && !Truthy(optKey))
    ensures UrlKey(env, url).Some? ==> InitialKey(env, url, optKey) == Buffer(UrlKey(env, url).value)
    ensures UrlKey(env, url).None? ==> InitialKey(env, url, optKey) == Or(optKey, Null)
    ensures url == "" ==> InitialKey(env, url, optKey) == Or(optKey, Null)
    ensures url != "" && !IsAcceptedKey(RoutingKey(env.urlParse(url).pathname)) ==>
              InitialKey(env, url, optKey) == Or(optKey, Null)
  {
  }

  /** A socket constructed with a URL whose path is `/` followed by the hex
      of a 32-byte key gets that key as its `key`, whatever key the options
      carried. (The server's request socket gets its URL only after it is
      built, so its key comes from `onconnect`: see `Servers.PairedRequestKey`.) */
  lemma KeyFromHexUrl(env: Env, url: string, k: seq<Byte>, optKey: Value)
    requires |k| == 32 && url != ""
    requires env.urlParse(url).pathname == "/" + Hex.Encode(k)
    ensures InitialKey(env, url, optKey) == Buffer(k)
  {
    KeyFromRootPath(k);
  }

  /** `localPort` in a browser: the page's port if it parses to a non-zero
      number, else 443 for `https:` and 80 for any other protocol; outside a
      browser, null. */
  function LocalPort(window: Option<Location>): (r: Value)
    ensures window.None? ==> r == Null
    ensures window.Some? ==> r.Num? && r.n > 0
    ensures window.Some? && Truthy(ParseInt(window.value.port)) ==> r == ParseInt(window.value.port)
    ensures window.Some? && !Truthy(ParseInt(window.value.port)) ==>
              r == Num(if window.value.protocol == "https:" then 443 else 80)
  {
    match window
    case None => Null
    case Some(loc) =>
      var port := ParseInt(loc.port);
      if Truthy(port) then port
      else if "https:" == loc.protocol then Num(443) else Num(80)
  }

  /** `localPort` reads back a port written into `window.location.port`. */
  lemma LocalPortOfPage(loc: Location, p: nat)
    requires p > 0 && loc.port == DecimalString(p)
    ensures LocalPort(Some(loc)) == Num(p)
  {
    ParseIntDecimal(p);
  }

  class Socket {
    /** `url.parse` and `ip.isV6Format`, which the socket calls. */
    const env: Env

    /** `this.url`, "" when unset. */
    var url: string
    /** The raw connection the transport superclass wraps. */
    var transport: Value
    /** The transport was already usable: `_onOpen` is scheduled for the next tick. */
    var openScheduled: bool
    /** `onconnect` is still registered with `once('connect', ...)`. */
    var connectArmed: bool

    var userData: Value
    var download: bool
    var encrypt: bool
    var upload: bool
    var live: bool
    var stream: Value

    var remoteAddress: Value
    var remoteFamily: Value
    var remotePort: Value

    var discoveryKey: Value
    var key: Value
    var publicKey: Value

    /** Set by the rendezvous server on the sockets it pairs. */
    var writable: bool
    var secretKey: Value
    var headers: Value

    constructor (opts: Value, env: Env)
      ensures this.env == env
      ensures transport == TransportOf(NormalizeOptions(opts))
      ensures url == InitialUrl(NormalizeOptions(opts), transport)
      ensures userData == Or(Get(NormalizeOptions(opts), "userData"), Null)
      ensures download == Flag(Get(NormalizeOptions(opts), "download"))
      ensures encrypt == Flag(Get(NormalizeOptions(opts), "encrypt"))
      ensures upload == Flag(Get(NormalizeOptions(opts), "upload"))
      ensures live == Flag(Get(NormalizeOptions(opts), "live"))
      ensures stream == Or(Get(NormalizeOptions(opts), "stream"), Null)
      ensures discoveryKey == Or(Get(NormalizeOptions(opts), "discoveryKey"), Null)
      ensures key == InitialKey(env, url, Get(NormalizeOptions(opts), "key"))
      ensures openScheduled == (Truthy(transport) && TypeOf(Get(transport, "send")) == Function)
      ensures publicKey == key
      ensures remoteAddress == Null && remoteFamily == Null && remotePort == Null
      ensures connectArmed && writable
      ensures secretKey == Undefined && headers == Undefined
    {
      var o := NormalizeStep(opts);
      var socket := TransportStep(o);

      // super(opts)
      this.env := env;
      transport := socket;
      var theUrl := if Truthy(socket) then UrlString(Get(socket, "url")) else UrlString(Get(o, "url"));
      url := theUrl;
      writable := true;
      secretKey := Undefined;
      headers := Undefined;

      userData := Or(Get(o, "userData"), Null);
      download := Flag(Get(o, "download"));
      encrypt := Flag(Get(o, "encrypt"));
      upload := Flag(Get(o, "upload"));
      stream := Or(Get(o, "stream"), Null);
      live := Flag(Get(o, "live"));

      remoteAddress := Null;
      remoteFamily := Null;
      remotePort := Null;

      discoveryKey := Or(Get(o, "discoveryKey"), Null);
      var theKey := KeyStep(env, theUrl, Get(o, "key"));
      key := theKey;
      publicKey := theKey;

      connectArmed := true;
      openScheduled := Truthy(socket) && Function == TypeOf(Get(socket, "send"));
    }

    /** Lines 18-22 of the constructor. */
    static method NormalizeStep(opts: Value) returns (o: Value)
      ensures o == NormalizeOptions(opts)
    {
      o := opts;
      if String == TypeOf(o) {
        o := Obj(0, map["url" := o]);
      }
      o := Obj(0, Fields(o));
    }

    /** Lines 24-30 of the constructor. */
    static method TransportStep(o: Value) returns (socket: Value)
      ensures socket == TransportOf(o)
    {
      socket := Get(o, "socket");
      if Truthy(socket) && Truthy(Get(socket, "_ws")) {
        socket := Get(socket, "_ws");
      }
      if !Truthy(Get(o, "url")) && !Truthy(socket) {
        socket := EmptyObject;
      }
    }

    /** Lines 51-59 of the constructor. */
    static method KeyStep(env: Env, url: string, optKey: Value) returns (key: Value)
      ensures key == InitialKey(env, url, optKey)
    {
      key := Or(optKey, Null);
      if url != "" {
        var parsed := ParseUrl(env, url);
        if IsAcceptedKey(parsed.1) {
          key := Buffer(parsed.1);
        }
      }
    }

    /** The transport's `connect` event: `onconnect` runs on the first one
        only, as it was registered with `once`. */
    method Connect()
      modifies this`connectArmed, this`key, this`publicKey, this`stream
      modifies this`remoteAddress, this`remoteFamily, this`remotePort
      ensures !connectArmed
      ensures old(connectArmed) ==> Connected()
      ensures !old(connectArmed) ==>
                key == old(key) && publicKey == old(publicKey) && stream == old(stream) &&
                remoteAddress == old(remoteAddress) && remoteFamily == old(remoteFamily) &&
                remotePort == old(remotePort)
    {
      if connectArmed {
        connectArmed := false;
        OnConnect();
      }
    }

    /** `s` is the stream `Protocol({ userData, download, upload, live })` creates. */
    static predicate StreamFor(s: ProtocolStream, userData: Value, download: bool, upload: bool, live: bool) {
      s.userData == userData && s.download == download && s.upload == upload && s.live == live
    }

    /** What `onconnect` leaves behind: with a URL, the key replaced only by
        a 32-byte key of the URL, and the remote address fields read from the
        parsed URL; without one, key and remote fields unchanged. The public
        key follows the key, and a stream is present: the old one when there
        was one, otherwise a fresh one with the socket's options. */
    twostate predicate Connected()
      reads this
    {
      && (old(url) != "" ==>
            && key == (if UrlKey(env, old(url)).Some? then Buffer(UrlKey(env, old(url)).value) else old(key))
            && remoteAddress == OrNull(env.urlParse(old(url)).host)
            && remoteFamily == Str(if env.isV6Format(OrNull(env.urlParse(old(url)).host)) then "IPv6" else "IPv4")
            && remotePort == ParseIntOrNaN(env.urlParse(old(url)).port))
      && (old(url) == "" ==>
            key == old(key) && remoteAddress == old(remoteAddress) &&
            remoteFamily == old(remoteFamily) && remotePort == old(remotePort))
      && publicKey == (if UrlKey(env, old(url)).Some? then key else old(publicKey))
      && Truthy(stream)
      && (Truthy(old(stream)) ==> stream == old(stream))
      && (!Truthy(old(stream)) ==>
            stream.StreamRef? && fresh(stream.stream) &&
            StreamFor(stream.stream, userData, download, upload, live))
    }

    /** `onconnect`: on a socket with a URL, re-reads the key from it and
        fills the remote address fields; then attaches a replication stream
        unless one is already present, so a stream is never replaced. */
    method OnConnect()
      modifies this`key, this`publicKey, this`stream
      modifies this`remoteAddress, this`remoteFamily, this`remotePort
      ensures Connected()
    {
      if url != "" {
        var parsed := ParseUrl(env, url);
        var u, k := parsed.0, parsed.1;
        if IsAcceptedKey(k) {
          key := Buffer(k);
          publicKey := key;
        }
        remoteAddress := OrNull(u.host);
        remoteFamily := if env.isV6Format(remoteAddress) then Str("IPv6") else Str("IPv4");
        remotePort := ParseIntOrNaN(u.port);
      }

      if !Truthy(stream) {
        var s := new ProtocolStream(userData, download, upload, live);
        stream := StreamRef(s);
        // pump(this, this.stream, this): the piping is not modelled
      }
    }
  }
}
