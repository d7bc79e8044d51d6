# hypersource rendezvous bridge in Dafny

hypersource carries hypercore replication over WebSockets. A client
dials a URL whose path holds the hex of a 32-byte feed key. The server
pairs each accepted connection, the request socket, with a response
socket on the same replication stream. When the stream announces a
feed, the server emits `request` with both sockets.

The project models the three core files:

- `socket.js`, module `Sockets` with the helpers in `Js`, `Hex` and `Route`:
  - URL routing (`parseUrl`). The key is the hex decoding of at most the
    first 64 characters after the first `/` of the path, up to the first
    line terminator.
  - The `Socket` constructor: option normalisation, transport unwrapping,
    replication flags and the initial key.
  - `onconnect`: the key is re-read from the URL, the remote address
    fields are set, and a stream is attached at most once.
  - The `localPort` getter.
- `server.js`, module `Servers`:
  - The `Server` class with its registry, listener, protocol and
    `destroyed` flag.
  - `listen`: argument sorting, option merging, address parsing, the
    secure-server step and starting the listener.
  - `close`, `address`.
  - The handlers, and how the listener dispatches its events to them.
  - The per-connection state machine: awaiting connect, then awaiting
    feed, then dispatched.
- `index.js`, module `Entry`: `createServer`, and `connect` with its duck
  typing, key buffer, option overrides, defaults and URL construction.

The following become parameters:

- The runtime functions the code calls: Node's `url.parse` and the `ip`
  package's `isV6Format`. They are fields of `Route.Env`.
- The browser's `window.location`: an `Option<Location>`, `None`
  outside a browser.
- The key pair `crypto.keyPair()` generates.
- The server `https.createServer` returns.

A JavaScript value is the datatype `Js.Value`. It covers `undefined`,
`null`, booleans, integral numbers and `NaN`, strings, functions,
buffers, plain objects and stream references.

### Modelling choices

- **Events are method calls.** What the server emits or calls back is
  appended to `Server.log`.
- **Listeners registered with `once`** are flags or fields that are
  cleared when the listener fires: `Socket.connectArmed`,
  `Listener.errorCallback`, `Listener.listeningCallback`, and the
  `Session.phase`s.
- **Handlers `close` detaches** are the set `Listener.handlers`.
- **Option objects made by `Object.assign`** are maps.
- **`listen` arguments.** Argument sorting, option merging, address
  parsing and the secure-server step are each a function. A static
  method proves that the imperative code computes that function.
- **`connect` arguments.** Shape sorting, option overrides, host
  resolution and URL construction are treated the same way.

### Observed behaviour

`close()` before any `listen()` sets `destroyed` with nothing to close.
`listen` never looks at `destroyed`, so a later `listen()` starts a
listener, and every later `close()` returns early without reaching it.
`Servers.CloseBeforeListen` shows this sequence. Nothing in the source
says whether it is intended, so it is not listed as a finding.

## Model

| member | source | states |
|---|---|---|
| Js.ParseIntDecimal | socket.js:78 | `parseInt` reads back the decimal numeral of every natural number |
| Js.ParseInt | socket.js:78 | `parseInt` is `NaN` exactly when the string does not start with a digit, otherwise a non-negative number |
| Hex.DecodeLength | socket.js:12 | hex decoding yields at most one byte per two characters |
| Hex.DecodeLengthAtLeast | socket.js:12 | decoding yields at least `n` bytes exactly when the first `2n` characters are hex digits (it stops at the first bad pair) |
| Hex.DecodeEncode | socket.js:12 | decoding the hex of a buffer followed by any text yields the buffer followed by that text's decoding |
| Hex.DecodeEncodeExact | socket.js:12 | decoding inverts hex encoding |
| Hex.EncodeShape | index.js:43 | hex encoding writes two hex digits per byte |
| Route.ParseUrl | socket.js:8-14 | the parsed URL is `url.parse(uri)`, its key is the routing key of its pathname and has at most 32 bytes |
| Route.RoutingKeyBound | socket.js:12 | the routing key is never longer than 32 bytes |
| Route.NoSlashNoKey | socket.js:10-12 | a path without `/` does not match the pattern and yields the empty key |
| Route.CaptureAfterFirstSlash | socket.js:10-11 | the capture is what follows the first `/`, up to the first line terminator |
| Route.TailIgnored | socket.js:12 | characters after the 64th of the capture do not affect the key |
| Route.AcceptedIff | socket.js:53-58 | the key has the accepted length 32 exactly when the capture begins with 64 hex digits |
| Route.KeyFromHexPath | socket.js:8-14 | a path with the hex of a 32-byte key after its first `/` routes that key, whatever follows |
| Route.KeyFromRootPath | socket.js:8-14 | the path `/<hex of k>` routes the 32-byte key `k` |
| Sockets.NormalizeOptions | socket.js:18-22 | a string becomes `{ url }`; an object is copied; anything else becomes `{}` |
| Sockets.TransportOf | socket.js:24-30 | a socket option with a truthy `_ws` is unwrapped to it; with neither `url` nor `socket` the placeholder `{}` is used |
| Sockets.Flag | socket.js:38-42 | a replication flag is the option when it is a boolean and `true` otherwise |
| Sockets.UrlKey | socket.js:53-59 | a URL provides a key exactly when the URL is set and its routing key has 32 bytes |
| Sockets.InitialKeyCases | socket.js:51-59 | when the URL yields an accepted 32-byte key that key wins; otherwise (no URL, or a URL such as `/abc` whose key is not 32 bytes) the key is `opts.key` when truthy, else null |
| Sockets.KeyFromHexUrl | socket.js:51-59 | a URL whose path is `/` and the hex of a 32-byte key gives that key, whatever `opts.key` was |
| Sockets.LocalPort | socket.js:76-88 | outside a browser null; in a browser the page's port when it parses to a non-zero number, else 443 for `https:` and 80 otherwise |
| Sockets.LocalPortOfPage | socket.js:78-81 | a positive port written in the page location is returned as is |
| Sockets.Socket.constructor | socket.js:17-66 | every field the constructor sets, in terms of the normalised options: transport, URL, flags, `userData`, `stream`, `discoveryKey`, key and public key, null remote fields, `onconnect` armed, `_onOpen` scheduled exactly when the transport has a `send` function |
| Sockets.Socket.NormalizeStep | socket.js:18-22 | the option normalisation computes `NormalizeOptions` |
| Sockets.Socket.TransportStep | socket.js:24-30 | the socket unwrapping computes `TransportOf` |
| Sockets.Socket.KeyStep | socket.js:50-59 | the key selection computes `InitialKey` |
| Sockets.Socket.Connect | socket.js:61-113 | `onconnect` runs on the first `connect` only, leaving what `Socket.Connected` describes; later ones change nothing |
| Sockets.Socket.OnConnect | socket.js:90-113 | with a URL: key replaced only by a 32-byte URL key, remote address = parsed host, family `IPv6` exactly when the host is in IPv6 form, port = parsed port; an existing stream is kept, otherwise a fresh stream with the socket's options is attached |
| Servers.Server.constructor | server.js:9-27 | a fresh server is not destroyed, has no listener, an empty registry and a copy of its options (`{}` for a non-object or null) |
| Servers.Server.AddRequestListener | index.js:12-14 | a `request` listener is appended in registration order |
| Servers.Server.OnConnectionEvent | server.js:73-76 | the registry maps the raw connection `_ws` to its wrapper and is otherwise unchanged |
| Servers.Server.NewRequestSocket | server.js:32-35 | the request socket has the public key as `userData` and the wrapper's raw `_ws` as its transport |
| Servers.Server.OnRequestEvent | server.js:29-48 | the connection's session awaits connect; its request socket has the public key as `userData`, the registered wrapper's transport, the request's URL and headers when they are truthy, no stream, `connectArmed` and `writable`; `connection` is emitted once |
| Servers.Server.NewResponseSocket | server.js:52-57 | the response socket has no URL, the public key as `userData`, `key` and `publicKey`, and the given stream |
| Servers.Server.OnConnect | server.js:50-58 | the request's own `onconnect` runs first (on its first connect only): its key is replaced only by a 32-byte key of its URL, its remote fields come from the parsed URL, an existing stream is kept and otherwise a fresh one is attached, and its URL, `userData` and transport stay; then, on the session's first connect only, the response is built on the request's stream with the public key as `userData` and `key`, the session moves to awaiting feed and keeps `Session.Valid` |
| Servers.Server.OnFeed | server.js:59-69 | on the first feed after connect only, both sockets get the discovery key, the response gets the secret key, `request` is emitted once while the request is not writable, and the request is writable afterwards; nothing else changes, so the shared stream and both sockets' keys stay, and outside that step neither socket changes |
| Servers.Server.OnSocketClose | server.js:45 | closing the request socket deletes exactly its registry entry |
| Servers.Server.OnSocketError | server.js:46 | a socket error is re-emitted by the server |
| Servers.Server.OnListeningEvent | server.js:78-80 | `listening` is re-emitted |
| Servers.Server.OnErrorEvent | server.js:86-88 | `error` is re-emitted |
| Servers.Server.ListenerListening | server.js:179-189 | `listen`'s callback runs once with null, detaching its `error` registration, before `onlistening` (while attached) |
| Servers.Server.ListenerError | server.js:179-191 | `listen`'s callback runs once with the error before `onerror` (while attached); its `listening` registration stays |
| Servers.Server.ListenerClose | server.js:82-84 | while `onclose` is attached the listener's `close` runs `close()`: a first close with a listener detaches its handlers, closes it without a callback, drops it and emits `close` once, a first close without one only marks the server destroyed, and on a destroyed server (or with `onclose` detached) nothing changes, neither the log nor a listener started afterwards |
| Servers.Server.Address | server.js:90-100 | null without a listener or address information; otherwise the address information plus `protocol`, the address information winning on a clash |
| Servers.Server.SortListenArgs | server.js:103-128 | the argument sorting computes `NormaliseListenArgs` |
| Servers.ListenArgShapes | server.js:106-128 | a function port is the callback with port 0 (the host kept); a function host is the callback whatever the port (`listen(0, cb)`); a string port is the host with port 0; an object port (or an object host after a port) is the options |
| Servers.Server.MergeOptions | server.js:141-149 | the merge computes `MergeListenOptions` |
| Servers.MergePrecedence | server.js:141-149 | explicit host/port win over constructor options, which win over listen-time options; no other key appears |
| Servers.Server.ResolveHost | server.js:151-159 | the address parsing computes `ResolveListenHost` |
| Servers.Server.AttachServer | server.js:161-173 | the secure-server step computes `AttachHttpsServer` |
| Servers.PlanServerShape | server.js:161-173 | with a server in the options neither `host` nor `port` remains; `wss:` always has a server |
| Servers.ListenOnPort | server.js:102-177 | `listen(n)` for a non-zero number listens on port `n` over `ws:` with the constructor's options |
| Servers.ListenOnAddress | server.js:151-159 | `listen(address)` parses the address, with `ws://` prefixed unless it has a ws scheme, into hostname, port and protocol |
| Servers.Server.StartListener | server.js:177-191 | the listener gets the options, the callback for `error` and `listening`, and all five handlers |
| Servers.Server.Listen | server.js:102-192 | while a listener exists: `Already listening` to the callback (returning) or emitted and thrown, nothing else changed; otherwise a fresh listener with `ListenPlan`'s options and protocol, all handlers attached |
| Servers.Server.Close | server.js:194-217 | the first close marks the server destroyed and, if listening, detaches the handlers, closes the listener with the callback, drops it and emits `close` once; later closes only pass `Server is closed.` to the callback and leave a listener started afterwards untouched (handlers, closed flag and every callback) |
| Servers.ListenHostAsWrittenThrows | server.js:151-159 | as written, address parsing throws exactly on the calls that reach it; on all other calls it agrees with the corrected step |
| Servers.ListenLocalhostThrows | server.js:155 | as written, `listen('localhost')` throws a ReferenceError |
| Servers.CloseBeforeListen | server.js:130-203 | a close before listening leaves a later listener that the next close does not reach |
| Entry.CreateServer | index.js:4-17 | a function first argument is the request listener with empty options; the listener is registered only when it is a function |
| Entry.SortConnectArgs | index.js:20-50 | the shape sorting computes `ConnectShape` |
| Entry.ApplyOptionsStep | index.js:52-75 | the option overrides compute `ApplyConnectOptions` |
| Entry.ResolveHostStep | index.js:77-104 | the host resolution computes `ResolveConnectHost` |
| Entry.DialSocket | index.js:107 | a socket made from a URL string has that URL, no wrapped connection, and the URL's key |
| Entry.WrapSocket | index.js:24-33 | a socket made from a connection wraps its raw `_ws`, or the connection |
| Entry.Connect | index.js:19-117 | `connect` throws exactly when its plan throws, returns null for `NoSocket`, and otherwise a fresh socket wrapping the connection or dialling the plan's URL with the callback on `connect` |
| Entry.DuckTyping | index.js:24-33 | an object with an object `_ws` is wrapped as its `_ws`; failing that, one with a `send` function is wrapped as it is; exactly these two shapes are wrapped |
| Entry.BufferHostPath | index.js:41-44 | a buffer host becomes the path `/` plus its hex, and the host is cleared |
| Entry.OptionsOverride | index.js:52-75 | after an options object, present option fields override the locals' defaults, absent ones keep them, and the callback is kept |
| Entry.HostDefaults | index.js:73-85 | a string port is the host; without a host, `localhost` outside a browser and the page's hostname (with `wss:` under `https:`) inside one |
| Entry.DialIff | index.js:106-116 | a socket is dialled exactly when host and port are truthy, to `protocol//host:port pathname`; otherwise null |
| Entry.ConnectWithoutPort | index.js:77-116 | a falsy port alone gives null outside a browser |
| Entry.LocalhostDial | index.js:77-107 | default locals with a positive port dial `ws://localhost:port` and the path |
| Entry.ConnectToPort | index.js:19-116 | `connect(p)` for positive `p` dials `ws://localhost:p/` |
| Entry.ConnectWithBuffer | index.js:41-107 | `connect(p, buffer)` dials `ws://localhost:p/<hex of the buffer>` |
| Entry.ConnectWithKey | index.js:41-44 | `connect(p, key)` dials `ws://localhost:p/<hex of key>`, whose path routes `key` back |
| Servers.PairedRequestKey | server.js:41-58 | a request for `/<hex of k>` gives, after connect, a request socket whose `key` and `publicKey` are `k` (set by `onconnect`, socket.js:94-96), paired with a response keyed by the generated public key on the same stream |
| Entry.ConnectToAddress | index.js:86-107 | with `url.parse` bound, a `ws:` address with path `/` dials its hostname on the given port |
| Entry.ConnectHostAsWrittenThrows | index.js:77-104 | as written, host resolution throws exactly when there is a host; without one it agrees with the corrected step |
| Entry.ConnectExampleOrgThrows | index.js:87 | as written, `connect(8080, 'ws://example.org')` throws a ReferenceError |

## Findings

| source | as written | input that shows it | evidently intended | confidence | as-written member | corrected member |
|---|---|---|---|---|---|---|
| server.js:155 | `listen` parses the address with `url.parse`, but server.js never binds `url`, so the call throws a ReferenceError | `listen('localhost')`, or `listen(0, 'localhost')` | the address is parsed with Node's `url` module (socket.js:5 requires it), giving hostname, port and protocol | high; not executed | Servers.ListenLocalhostThrows | Servers.ListenOnAddress |
| index.js:87 | `connect` parses any truthy host with `url.parse`, but index.js never binds `url`, so every call that passes a host throws a ReferenceError | `connect(8080, 'ws://example.org')` | the host is parsed with Node's `url` module and its parts override the locals | high; not executed | Entry.ConnectExampleOrgThrows | Entry.ConnectToAddress |

The classes and `Entry.Connect` use the corrected steps
(`Servers.ResolveListenHost`, `Entry.ResolveConnectHost`). The written
steps are `Servers.ResolveListenHostAsWritten` and
`Entry.ResolveConnectHostAsWritten`.

## Left out

- The WebSocket transport (`simple-websocket` and its server) is not part of this model. The superclass is assumed to record the wrapped connection's own `url` when a connection is given, otherwise `opts.url`. Its validation of the options is not modelled.
- The https server is not modelled: `https.createServer` is a parameter, and its own `listen` call (server.js:164) is left out.
- The replication protocol is an opaque `ProtocolStream` that records its options. The `pump` piping is left out.
- `crypto.keyPair()` is a parameter: freshness and cryptography are not modelled.
- `process.nextTick(_onOpen)` is the flag `Socket.openScheduled`; the later `_onOpen` is not modelled.
- `setMaxListeners` and listener counts are not modelled.
- The registry is a map with explicit delete. WeakMap garbage collection is not modelled.
- `localAddress` (`ip.address()` or the page hostname) is not modelled.
- `url.parse` and `ip.isV6Format` are uninterpreted functions. `url.parse`'s pathname is a string, so the TypeError `parseUrl` raises on a null pathname is not modelled.
- Only the default route pattern is modelled; a custom `pathRegex` is not.
- Non-ASCII bytes are not decoded as UTF-8: a buffer's string conversion maps every byte of 128 or more to U+FFFD.
- `parseInt` reads a leading run of decimal digits only. Leading whitespace, signs, `0x` and radix prefixes are not modelled.
- Numbers are integers or `NaN`; fractional numbers and infinities are not modelled.
- `Object.assign` copies only plain objects' own fields. The indexed properties of buffers and the properties of functions are not copied.
- `listen(opts)` mutates the caller's options object, and the model does not capture that aliasing: options are maps taken by value. The same holds for the `opts` object `connect` reads.
- Emitting `error` with no `error` listener makes Node throw the error itself. The model appends an `Error` event; `listen`'s `throw this` is the outcome `Threw`.
- Delivery of the transport's `connection` events is not gated: `OnRequestEvent` and `OnConnectionEvent` run whenever called. `Listener.handlers` records whether they are attached, and the `listening`, `error` and `close` dispatchers check it.
- `Servers.Server.OnRequestEvent`: states the request socket's `userData`, transport, URL, headers, stream, `connectArmed` and `writable`; it does not state the replication flags, initial key or remote fields the constructor gives it.
- `Entry.Connect`: states the returned socket's URL, transport and key; it does not state the replication flags or remote fields the constructor gives it.
- test.js and the two examples are not part of this model.
