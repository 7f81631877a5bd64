/** BrowserMobProxySession: one proxy on one port of a browsermob-proxy
    server, open until it is closed.

    The REST call the session makes (`curl` in BrowserMobProxyBase), the
    optional-feature check (`requireFeature`), `urlencode` and `parse_url`
    belong to code outside this model; a session holds them as values. */
module BrowserMobProxy {
  import opened PhpValues
  import opened Exceptions
  import opened HttpAddressing

  /** One REST call to the proxy server; `body` is null when none is sent. */
  datatype ProxyRequest = ProxyRequest(verb: string, path: string, body: Value)

  /** What a session works with besides its `closed` flag. */
  datatype ProxyEnv = ProxyEnv(
    port: Value,
    features: set<string>,
    transport: ProxyRequest -> Result<Value, Thrown>,
    urlEncode: string -> string)

  /** The operations that talk to the proxy server. */
  datatype ProxyOp =
    | StartHAR(logName: Value)
    | GetHAR(logName: Value)
    | SetHeaders(headers: Value)
    | RemoveHeader(name: string)
    | RemoveAllHeaders
    | GetHeader(name: string)
    | SetHttpBasicAuth(domain: string, username: Value, password: Value)
    | Close

  /** `'/proxy/' . $this->port` */
  function SessionPath(env: ProxyEnv): string {
    "/proxy/" + PhpString(env.port)
  }

  /** The optional feature an operation checks for after the open check. */
  function RequiredFeature(op: ProxyOp): Option<string> {
    match op
    case RemoveHeader(_) => Some("headerGetDelete")
    case RemoveAllHeaders => Some("headerGetDelete")
    case GetHeader(_) => Some("headerGetDelete")
    case SetHttpBasicAuth(_, _, _) => Some("httpBasicAuth")
    case _ => None
  }

  /** The one request each operation makes. */
  function RequestFor(env: ProxyEnv, op: ProxyOp): (req: ProxyRequest)
    ensures SessionPath(env) <= req.path
    ensures req.path == SessionPath(env) <==> op.Close?
  {
    var p := SessionPath(env);
    match op
    case StartHAR(logName) => ProxyRequest("PUT", p + "/har", Assoc([("initialPageRef", logName)]))
    case GetHAR(_) => ProxyRequest("GET", p + "/har", Null)
    case SetHeaders(headers) => ProxyRequest("POST", p + "/headers", headers)
    case RemoveHeader(name) => ProxyRequest("DELETE", p + "/header/" + env.urlEncode(name), Null)
    case RemoveAllHeaders => ProxyRequest("DELETE", p + "/headers", Null)
    case GetHeader(name) => ProxyRequest("GET", p + "/header/" + env.urlEncode(name), Null)
    case SetHttpBasicAuth(domain, username, password) =>
      ProxyRequest("PUT", p + "/basicAuth/" + env.urlEncode(domain),
        Assoc([("username", username), ("password", password)]))
    case Close => ProxyRequest("DELETE", p, Null)
  }

  /** Only the two readers hand the server's answer back. */
  predicate ReturnsResponse(op: ProxyOp) {
    op.GetHAR? || op.GetHeader?
  }

  /** The open check, then the feature check: the first error, if any. */
  function Guard(env: ProxyEnv, closed: bool, op: ProxyOp): (e: Option<Thrown>)
    ensures closed ==> e == Some(ClosedSession)
    ensures !closed ==> (e.Some? <==> RequiredFeature(op).Some? && RequiredFeature(op).value !in env.features)
  {
    if closed then Some(ClosedSession)
    else if RequiredFeature(op).Some? && RequiredFeature(op).value !in env.features then
      Some(FeatureUnavailable(RequiredFeature(op).value))
    else None
  }

  /** One operation: the flag afterwards, the requests sent, the result
      (null for the operations that return nothing). */
  datatype Step = Step(closed: bool, sent: seq<ProxyRequest>, result: Result<Value, Thrown>)

  function Perform(env: ProxyEnv, closed: bool, op: ProxyOp): Step {
    match Guard(env, closed, op)
    case Some(e) => Step(closed, [], Err(e))
    case None =>
      var req := RequestFor(env, op);
      match env.transport(req)
      case Err(e) => Step(closed, [req], Err(e))
      case Ok(v) => Step(closed || op.Close?, [req], Ok(if ReturnsResponse(op) then v else Null))
  }

  /** A closed session refuses everything and sends nothing; an open one
      sends exactly the operation's request unless the feature check
      refuses it; only a successful close closes, and nothing reopens. */
  lemma PerformGuards(env: ProxyEnv, closed: bool, op: ProxyOp)
    ensures var s := Perform(env, closed, op);
      && (closed ==> s == Step(true, [], Err(ClosedSession)))
      && (s.sent == [] <==> Guard(env, closed, op).Some?)
      && (s.sent != [] ==> s.sent == [RequestFor(env, op)])
      && (s.closed <==> closed || (op.Close? && s.result.Ok?))
      && (s.result.Ok? ==> s.sent == [RequestFor(env, op)] && env.transport(RequestFor(env, op)).Ok?)
  {
  }

  /** A run of operations: final flag, every request in order, and each
      operation's result. */
  datatype Trace = Trace(closed: bool, sent: seq<ProxyRequest>, results: seq<Result<Value, Thrown>>)

  function Run(env: ProxyEnv, closed: bool, ops: seq<ProxyOp>): (t: Trace)
    ensures |t.results| == |ops|
    decreases |ops|
  {
    if ops == [] then Trace(closed, [], [])
    else
      var s := Perform(env, closed, ops[0]);
      var rest := Run(env, s.closed, ops[1..]);
      Trace(rest.closed, s.sent + rest.sent, [s.result] + rest.results)
  }

  /** Once closed, a session stays closed, sends nothing more and answers
      every operation with the closed-session error. */
  lemma {:induction false} RunWhenClosed(env: ProxyEnv, ops: seq<ProxyOp>)
    ensures Run(env, true, ops).closed
    ensures Run(env, true, ops).sent == []
    ensures forall i :: 0 <= i < |ops| ==> Run(env, true, ops).results[i] == Err(ClosedSession)
    decreases |ops|
  {
    if ops != [] {
      RunWhenClosed(env, ops[1..]);
    }
  }

  /** A run from an open session ends closed exactly when one of its close
      operations succeeded. */
  lemma {:induction false} RunClosedIff(env: ProxyEnv, ops: seq<ProxyOp>)
    ensures var t := Run(env, false, ops);
      t.closed <==> exists i :: 0 <= i < |ops| && ops[i].Close? && t.results[i].Ok?
    decreases |ops|
  {
    if ops != [] {
      var s := Perform(env, false, ops[0]);
      var t := Run(env, false, ops);
      PerformGuards(env, false, ops[0]);
      if s.closed {
        RunWhenClosed(env, ops[1..]);
        assert ops[0].Close? && t.results[0].Ok?;
      } else {
        RunClosedIff(env, ops[1..]);
        var rest := Run(env, false, ops[1..]);
        assert t.results == [s.result] + rest.results;
        if t.closed {
          var i :| 0 <= i < |ops| - 1 && ops[1..][i].Close? && rest.results[i].Ok?;
          assert ops[i + 1].Close? && t.results[i + 1].Ok?;
        } else {
          forall i | 0 <= i < |ops| && ops[i].Close? ensures !t.results[i].Ok? {
            if i > 0 {
              assert ops[1..][i - 1] == ops[i] && t.results[i] == rest.results[i - 1];
            }
          }
        }
      }
    }
  }

  /** `getWebDriverProxyConfig()` as a value: the open check, then the
      proxy server's hostname (as parsed from the session URL) and the
      session port, for both plain and TLS traffic. */
  function ProxyConfig(closed: bool, url: string, parts: Value, port: Value): Result<Value, Thrown> {
    if closed then Err(ClosedSession)
    else
      match SetAddressSpec(Blank, url, parts)
      case Err(e) => Err(e)
      case Ok(address) =>
        var hostPort := PhpString(address.hostname) + ":" + PhpString(port);
        Ok(Assoc([("proxyType", Str("manual")), ("httpProxy", Str(hostPort)), ("sslProxy", Str(hostPort))]))
  }

  /** The configuration asks for a manual proxy and points plain and TLS
      traffic at the same host and port. */
  lemma ProxyConfigShape(closed: bool, url: string, parts: Value, port: Value)
    ensures var r := ProxyConfig(closed, url, parts, port);
      && (r.Ok? <==> !closed && parts.Arr?)
      && (r.Ok? ==>
        && Get(r.value, "proxyType") == Str("manual")
        && Get(r.value, "httpProxy") == Get(r.value, "sslProxy")
        && Get(r.value, "httpProxy") == Str(PhpString(Pick(Null, parts, "host")) + ":" + PhpString(port)))
  {
    if !closed && parts.Arr? {
      SetAddressFields(Blank, url, parts);
      ManualProxyEntries(PhpString(Pick(Null, parts, "host")) + ":" + PhpString(port));
    }
  }

  /** The three entries of a manual proxy configuration read back as
      written. */
  lemma ManualProxyEntries(hostPort: string)
    ensures var config := Assoc([("proxyType", Str("manual")), ("httpProxy", Str(hostPort)), ("sslProxy", Str(hostPort))]);
      && Get(config, "proxyType") == Str("manual")
      && Get(config, "httpProxy") == Str(hostPort)
      && Get(config, "sslProxy") == Str(hostPort)
  {
    var entries := [(StrKey("proxyType"), Str("manual")), (StrKey("httpProxy"), Str(hostPort)), (StrKey("sslProxy"), Str(hostPort))];
    assert Assoc([("proxyType", Str("manual")), ("httpProxy", Str(hostPort)), ("sslProxy", Str(hostPort))]).entries == entries;
    assert "proxyType" != "httpProxy" && "proxyType" != "sslProxy" && "httpProxy" != "sslProxy";
    assert entries[1..] == [entries[1], entries[2]] && entries[1..][1..] == [entries[2]];
    assert Find(entries, StrKey("httpProxy")) == Some(Str(hostPort));
    assert Find(entries[1..], StrKey("sslProxy")) == Some(Str(hostPort));
  }

  class BrowserMobProxySession {
    /** The URL of the proxy server's REST API. */
    const url: string
    const env: ProxyEnv
    /** parse_url, used to find the proxy server's hostname. */
    const parseUrl: string -> Value
    var closed: bool
    /** Every request sent to the proxy server, oldest first. */
    ghost var requests: seq<ProxyRequest>

    /** `new BrowserMobProxySession($url, $port)`: open, and nothing sent. */
    constructor(url: string, port: Value, features: set<string>,
                transport: ProxyRequest -> Result<Value, Thrown>,
                urlEncode: string -> string, parseUrl: string -> Value)
      ensures this.url == url && GetPort() == port && env.features == features
      ensures env.transport == transport && env.urlEncode == urlEncode && this.parseUrl == parseUrl
      ensures !closed && requests == []
    {
      this.url := url;
      this.env := ProxyEnv(port, features, transport, urlEncode);
      this.parseUrl := parseUrl;
      closed := false;
      requests := [];
    }

    /** `getPort()` */
    function GetPort(): Value {
      env.port
    }

    /** `requireOpenConnection()` */
    method RequireOpenConnection() returns (e: Option<Thrown>)
      ensures e.Some? <==> closed
      ensures e.Some? ==> e.value == ClosedSession
    {
      if closed {
        return Some(ClosedSession);
      }
      return None;
    }

    /** `requireFeature($feature)` */
    method RequireFeature(feature: string) returns (e: Option<Thrown>)
      ensures e.Some? <==> feature !in env.features
      ensures e.Some? ==> e.value == FeatureUnavailable(feature)
    {
      if feature !in env.features {
        return Some(FeatureUnavailable(feature));
      }
      return None;
    }

    /** The guarded request every operation but close makes: open check,
        feature check, then the request. */
    method Request(op: ProxyOp) returns (r: Result<Value, Thrown>)
      requires !op.Close?
      modifies this`requests
      ensures var s := Perform(env, closed, op); requests == old(requests) + s.sent && r == s.result
    {
      var e := RequireOpenConnection();
      if e.Some? {
        return Err(e.value);
      }
      var feature := RequiredFeature(op);
      if feature.Some? {
        e := RequireFeature(feature.value);
        if e.Some? {
          return Err(e.value);
        }
      }
      var req := RequestFor(env, op);
      requests := requests + [req];
      var response := env.transport(req);
      if response.Err? {
        return Err(response.error);
      }
      r := Ok(if ReturnsResponse(op) then response.value else Null);
    }

    /** `startHAR($logName = 'default')` */
    method StartHAR(logName: Value := Str("default")) returns (r: Result<Value, Thrown>)
      modifies this`requests
      ensures var s := Perform(env, closed, ProxyOp.StartHAR(logName)); requests == old(requests) + s.sent && r == s.result
    {
      r := Request(ProxyOp.StartHAR(logName));
    }

    /** `getHAR($logName = 'default')`, answering the server's reply itself. */
    method GetHAR(logName: Value := Str("default")) returns (r: Result<Value, Thrown>)
      modifies this`requests
      ensures var s := Perform(env, closed, ProxyOp.GetHAR(logName)); requests == old(requests) + s.sent && r == s.result
    {
      r := Request(ProxyOp.GetHAR(logName));
    }

    /** `setHeaders($headers)` */
    method SetHeaders(headers: Value) returns (r: Result<Value, Thrown>)
      modifies this`requests
      ensures var s := Perform(env, closed, ProxyOp.SetHeaders(headers)); requests == old(requests) + s.sent && r == s.result
    {
      r := Request(ProxyOp.SetHeaders(headers));
    }

    /** `removeHeader($name)` */
    method RemoveHeader(name: string) returns (r: Result<Value, Thrown>)
      modifies this`requests
      ensures var s := Perform(env, closed, ProxyOp.RemoveHeader(name)); requests == old(requests) + s.sent && r == s.result
    {
      r := Request(ProxyOp.RemoveHeader(name));
    }

    /** `removeAllHeaders()` */
    method RemoveAllHeaders() returns (r: Result<Value, Thrown>)
      modifies this`requests
      ensures var s := Perform(env, closed, ProxyOp.RemoveAllHeaders); requests == old(requests) + s.sent && r == s.result
    {
      r := Request(ProxyOp.RemoveAllHeaders);
    }

    /** `getHeader($name)` */
    method GetHeader(name: string) returns (r: Result<Value, Thrown>)
      modifies this`requests
      ensures var s := Perform(env, closed, ProxyOp.GetHeader(name)); requests == old(requests) + s.sent && r == s.result
    {
      r := Request(ProxyOp.GetHeader(name));
    }

    /** `setHttpBasicAuth($domain, $username, $password)` */
    method SetHttpBasicAuth(domain: string, username: Value, password: Value) returns (r: Result<Value, Thrown>)
      modifies this`requests
      ensures var s := Perform(env, closed, ProxyOp.SetHttpBasicAuth(domain, username, password));
        requests == old(requests) + s.sent && r == s.result
    {
      r := Request(ProxyOp.SetHttpBasicAuth(domain, username, password));
    }

    /** `close()`: the DELETE first, and the flag only once it succeeded. */
    method Close() returns (r: Result<Value, Thrown>)
      modifies this`requests, this`closed
      ensures var s := Perform(env, old(closed), ProxyOp.Close);
        closed == s.closed && requests == old(requests) + s.sent && r == s.result
    {
      var e := RequireOpenConnection();
      if e.Some? {
        return Err(e.value);
      }
      var req := RequestFor(env, ProxyOp.Close);
      requests := requests + [req];
      var response := env.transport(req);
      if response.Err? {
        return Err(response.error);
      }
      closed := true;
      r := Ok(Null);
    }

    /** `getWebDriverProxyConfig()` */
    method GetWebDriverProxyConfig() returns (r: Result<Value, Thrown>)
      ensures r == ProxyConfig(closed, url, parseUrl(url), env.port)
    {
      var e := RequireOpenConnection();
      if e.Some? {
        return Err(e.value);
      }
      var created := HttpAddress.Create(url, parseUrl(url));
      if created.Err? {
        return Err(created.error);
      }
      var address := created.value;
      var hostPort := PhpString(address.hostname) + ":" + PhpString(GetPort());
      r := Ok(Assoc([("proxyType", Str("manual")), ("httpProxy", Str(hostPort)), ("sslProxy", Str(hostPort))]));
    }
  }
}
