/** `parseUrl` of socket.js: the routing key a connection URL carries in its
    path. The path is matched against the default pattern `/\/(.*)/`, whose
    group captures everything after the FIRST `/` up to the first line
    terminator; at most 64 characters of the capture are hex-decoded. */
module Route {
  import opened Js
  import Hex

  /** The fields of Node's `url.parse(s)` that the bridge reads. `host` is
      `hostname` with the port appended, as `url.parse` reports it. */
  datatype Url = Url(
    protocol: Option<string>,
    hostname: Option<string>,
    host: Option<string>,
    port: Option<string>,
    pathname: string)

  /** The parts of the runtime the bridge calls but this model does not
      define: Node's `url.parse` and the `ip` package's `isV6Format`. */
  datatype Env = Env(urlParse: string -> Url, isV6Format: Value -> bool)

  /** Characters `.` does not match in a JavaScript regular expression. */
  predicate IsLineTerminator(c: char) {
    c == '\n' || c == '\r' || c == '\U{2028}' || c == '\U{2029}'
  }

  /** What `(.*)` matches at the start of `s`. */
  function UpToLineEnd(s: string): (r: string)
    ensures |r| <= |s| && r == s[..|r|]
  {
    if s == [] || IsLineTerminator(s[0]) then [] else [s[0]] + UpToLineEnd(s[1..])
  }

  /** `parts ? parts[1] : ''` for `parts = pathname.match(/\/(.*)/)`. */
  function RouteCapture(pathname: string): string
  {
    if pathname == [] then ""
    else if pathname[0] == '/' then UpToLineEnd(pathname[1..])
    else RouteCapture(pathname[1..])
  }

  function Take(s: string, n: nat): (r: string)
    ensures |r| == if |s| <= n then |s| else n
    ensures r == s[..|r|]
  {
    if |s| <= n then s else s[..n]
  }

  /** The `key` property `parseUrl` adds: `Buffer.from(capture.slice(0, 64), 'hex')`. */
  function RoutingKey(pathname: string): seq<Byte>
  {
    Hex.Decode(Take(RouteCapture(pathname), 64))
  }

  /** `parseUrl(uri)`: the parsed URL and its routing key. */
  function ParseUrl(env: Env, uri: string): (r: (Url, seq<Byte>))
    ensures r.0 == env.urlParse(uri)
    ensures r.1 == RoutingKey(env.urlParse(uri).pathname)
    ensures |r.1| <= 32
  {
    var parsed := env.urlParse(uri);
    RoutingKeyBound(parsed.pathname);
    (parsed, RoutingKey(parsed.pathname))
  }

  /** A key is accepted by the socket only when it is exactly 32 bytes. */
  predicate IsAcceptedKey(k: seq<Byte>) {
    |k| == 32
  }

  /** The key is never longer than 32 bytes. */
  lemma RoutingKeyBound(pathname: string)
    ensures |RoutingKey(pathname)| <= 32
  {
    Hex.DecodeLength(Take(RouteCapture(pathname), 64));
  }

  lemma {:induction false} CaptureWithoutSlash(pathname: string)
    requires forall i :: 0 <= i < |pathname| ==> pathname[i] != '/'
    ensures RouteCapture(pathname) == ""
  {
    if pathname != [] {
      CaptureWithoutSlash(pathname[1..]);
    }
  }

  /** A path with no `/` does not match: the capture and the key are empty. */
  lemma NoSlashNoKey(pathname: string)
    requires forall i :: 0 <= i < |pathname| ==> pathname[i] != '/'
    ensures RoutingKey(pathname) == []
  {
    CaptureWithoutSlash(pathname);
  }

  /** The capture starts after the first `/`, whatever precedes it. */
  lemma {:induction false} CaptureAfterFirstSlash(a: string, s: string)
    requires forall i :: 0 <= i < |a| ==> a[i] != '/'
    ensures RouteCapture(a + "/" + s) == UpToLineEnd(s)
  {
    if a == [] {
      assert a + "/" + s == "/" + s;
      assert ("/" + s)[1..] == s;
    } else {
      assert (a + "/" + s)[1..] == a[1..] + "/" + s;
      CaptureAfterFirstSlash(a[1..], s);
    }
  }

  lemma {:induction false} TakeUpToLineEnd(s: string, t: string)
    ensures Take(UpToLineEnd(s + t), |s|) == UpToLineEnd(s)
  {
    if s == [] {
      assert s + t == t;
    } else {
      assert (s + t)[0] == s[0] && (s + t)[1..] == s[1..] + t;
      if !IsLineTerminator(s[0]) {
        TakeUpToLineEnd(s[1..], t);
      }
    }
  }

  /** Characters after the 64th of the capture are ignored. */
  lemma TailIgnored(a: string, s: string, t: string)
    requires forall i :: 0 <= i < |a| ==> a[i] != '/'
    requires |s| == 64
    ensures RoutingKey(a + "/" + s + t) == RoutingKey(a + "/" + s)
  {
    assert a + "/" + s + t == a + "/" + (s + t);
    CaptureAfterFirstSlash(a, s + t);
    CaptureAfterFirstSlash(a, s);
    TakeUpToLineEnd(s, t);
  }

  /** The key is accepted exactly when the capture begins with 64 hex digits. */
  lemma AcceptedIff(pathname: string)
    ensures IsAcceptedKey(RoutingKey(pathname)) <==>
            (|RouteCapture(pathname)| >= 64 &&
             forall i :: 0 <= i < 64 ==> Hex.IsHexDigit(RouteCapture(pathname)[i]))
  {
    var c := RouteCapture(pathname);
    var p := Take(c, 64);
    RoutingKeyBound(pathname);
    Hex.DecodeLengthAtLeast(p, 32);
    if |c| >= 64 {
      assert forall i :: 0 <= i < 64 ==> p[i] == c[i];
    }
  }

  /** A client that puts the hex of a 32-byte key after the first `/` of the
      path (`ws://host:port/<64 hex>`) has that key recovered, whatever
      follows the 64 digits. */
  lemma KeyFromHexPath(a: string, k: seq<Byte>, t: string)
    requires forall i :: 0 <= i < |a| ==> a[i] != '/'
    requires |k| == 32
    ensures RoutingKey(a + "/" + Hex.Encode(k) + t) == k
  {
    var e := Hex.Encode(k);
    Hex.EncodeShape(k);
    TailIgnored(a, e, t);
    CaptureAfterFirstSlash(a, e);
    UpToLineEndHex(e);
    Hex.DecodeEncodeExact(k);
  }

  lemma {:induction false} UpToLineEndHex(s: string)
    requires forall i :: 0 <= i < |s| ==> Hex.IsHexDigit(s[i])
    ensures UpToLineEnd(s) == s
  {
    if s != [] {
      UpToLineEndHex(s[1..]);
    }
  }

  /** The path `/<hex of k>` routes `k`. */
  lemma KeyFromRootPath(k: seq<Byte>)
    requires |k| == 32
    ensures RoutingKey("/" + Hex.Encode(k)) == k
  {
    assert "" + "/" + Hex.Encode(k) + "" == "/" + Hex.Encode(k);
    KeyFromHexPath("", k, "");
  }
}
