/** WebDriverBase: the layer that turns a command into a curl request and
    the decoded `{status, value}` envelope into a value or an exception.

    The transport itself (curl_exec, curl_getinfo, curl_error and the
    json_decode of the trimmed body) and json_encode are collaborators held
    by a WebDriverConnection as function values; the connection records
    every option set it hands to the transport in a ghost log. */
module WireProtocol {
  import opened PhpValues
  import opened Exceptions

  // ------------------------------------------------------------------
  // Status classification (returnExceptionToThrow)
  // ------------------------------------------------------------------

  /** The status code each named kind stands for; the fallback has none. */
  function StatusCodeOf(k: ErrorKind): Option<int> {
    match k
    case IndexOutOfBounds => Some(1)
    case NoCollection => Some(2)
    case NoString => Some(3)
    case NoStringLength => Some(4)
    case NoStringWrapper => Some(5)
    case NoSuchDriver => Some(6)
    case NoSuchElement => Some(7)
    case NoSuchFrame => Some(8)
    case UnknownCommand => Some(9)
    case ObsoleteElement => Some(10)
    case ElementNotDisplayed => Some(11)
    case InvalidElementState => Some(12)
    case Unhandled => Some(13)
    case Expected => Some(14)
    case ElementNotSelectable => Some(15)
    case NoSuchDocument => Some(16)
    case UnexpectedJavascript => Some(17)
    case NoScriptResult => Some(18)
    case XPathLookup => Some(19)
    case NoSuchCollection => Some(20)
    case TimeOut => Some(21)
    case NullPointer => Some(22)
    case NoSuchWindow => Some(23)
    case InvalidCookieDomain => Some(24)
    case UnableToSetCookie => Some(25)
    case UnexpectedAlertOpen => Some(26)
    case NoAlertOpen => Some(27)
    case ScriptTimeout => Some(28)
    case InvalidElementCoordinates => Some(29)
    case IMENotAvailable => Some(30)
    case IMEEngineActivationFailed => Some(31)
    case InvalidSelector => Some(32)
    case SessionNotCreated => Some(33)
    case MoveTargetOutOfBounds => Some(34)
    case UnknownWebDriverError => None
  }

  /** `returnExceptionToThrow($status_code)` over the class map: no class for
      0, the class the map names for 1..34, and the unknown-error class for every other
      code, so the classification never fails. */
  function ReturnExceptionToThrow(statusCode: int): (r: Option<ErrorKind>)
    ensures r.None? <==> statusCode == 0
  {
    match statusCode
    case 0 => None
    case 1 => Some(IndexOutOfBounds)
    case 2 => Some(NoCollection)
    case 3 => Some(NoString)
    case 4 => Some(NoStringLength)
    case 5 => Some(NoStringWrapper)
    case 6 => Some(NoSuchDriver)
    case 7 => Some(NoSuchElement)
    case 8 => Some(NoSuchFrame)
    case 9 => Some(UnknownCommand)
    case 10 => Some(ObsoleteElement)
    case 11 => Some(ElementNotDisplayed)
    case 12 => Some(InvalidElementState)
    case 13 => Some(Unhandled)
    case 14 => Some(Expected)
    case 15 => Some(ElementNotSelectable)
    case 16 => Some(NoSuchDocument)
    case 17 => Some(UnexpectedJavascript)
    case 18 => Some(NoScriptResult)
    case 19 => Some(XPathLookup)
    case 20 => Some(NoSuchCollection)
    case 21 => Some(TimeOut)
    case 22 => Some(NullPointer)
    case 23 => Some(NoSuchWindow)
    case 24 => Some(InvalidCookieDomain)
    case 25 => Some(UnableToSetCookie)
    case 26 => Some(UnexpectedAlertOpen)
    case 27 => Some(NoAlertOpen)
    case 28 => Some(ScriptTimeout)
    case 29 => Some(InvalidElementCoordinates)
    case 30 => Some(IMENotAvailable)
    case 31 => Some(IMEEngineActivationFailed)
    case 32 => Some(InvalidSelector)
    case 33 => Some(SessionNotCreated)
    case 34 => Some(MoveTargetOutOfBounds)
    case _ => Some(UnknownWebDriverError)
  }

  /** Every non-zero code outside the table, and only such a code, is an
      unknown error. */
  lemma ClassifyUnknown(statusCode: int)
    ensures ReturnExceptionToThrow(statusCode) == Some(UnknownWebDriverError)
      <==> statusCode != 0 && !(1 <= statusCode <= 34)
  {
    if 1 <= statusCode <= 34 {
      ClassifyNamed(statusCode);
    }
  }

  lemma ClassifyCodes1To9(statusCode: int)
    requires 1 <= statusCode <= 9
    ensures var r := ReturnExceptionToThrow(statusCode);
      r.Some? && r.value != UnknownWebDriverError && StatusCodeOf(r.value) == Some(statusCode)
  {
  }

  lemma ClassifyCodes10To17(statusCode: int)
    requires 10 <= statusCode <= 17
    ensures var r := ReturnExceptionToThrow(statusCode);
      r.Some? && r.value != UnknownWebDriverError && StatusCodeOf(r.value) == Some(statusCode)
  {
  }

  lemma ClassifyCodes18To26(statusCode: int)
    requires 18 <= statusCode <= 26
    ensures var r := ReturnExceptionToThrow(statusCode);
      r.Some? && r.value != UnknownWebDriverError && StatusCodeOf(r.value) == Some(statusCode)
  {
  }

  lemma ClassifyCodes27To34(statusCode: int)
    requires 27 <= statusCode <= 34
    ensures var r := ReturnExceptionToThrow(statusCode);
      r.Some? && r.value != UnknownWebDriverError && StatusCodeOf(r.value) == Some(statusCode)
  {
  }

  /** Each code of the table classifies as a named kind whose own code it
      is. */
  lemma ClassifyNamed(statusCode: int)
    requires 1 <= statusCode <= 34
    ensures var r := ReturnExceptionToThrow(statusCode);
      r.Some? && r.value != UnknownWebDriverError && StatusCodeOf(r.value) == Some(statusCode)
  {
    if statusCode <= 9 {
      ClassifyCodes1To9(statusCode);
    } else if statusCode <= 17 {
      ClassifyCodes10To17(statusCode);
    } else if statusCode <= 26 {
      ClassifyCodes18To26(statusCode);
    } else {
      ClassifyCodes27To34(statusCode);
    }
  }

  /** Every named kind is what its own code classifies as, so the 34 codes
      and the 34 named kinds are in one-to-one correspondence. */
  lemma ClassifyStatusCodeOf(k: ErrorKind)
    requires k != UnknownWebDriverError
    ensures StatusCodeOf(k).Some?
    ensures ReturnExceptionToThrow(StatusCodeOf(k).value) == Some(k)
  {
  }

  // ------------------------------------------------------------------
  // Request planning (the non-network part of curl)
  // ------------------------------------------------------------------

  /** A set of curl options, keyed by the CURLOPT_* constant. */
  type CurlOptions = map<int, Value>

  const OptPost: int := 47                 // CURLOPT_POST
  const OptUrl: int := 10002               // CURLOPT_URL, what curl_init($url) sets
  const OptPostFields: int := 10015        // CURLOPT_POSTFIELDS
  const OptHttpHeader: int := 10023        // CURLOPT_HTTPHEADER
  const OptCustomRequest: int := 10036     // CURLOPT_CUSTOMREQUEST
  const OptReturnTransfer: int := 19913    // CURLOPT_RETURNTRANSFER

  const JsonHeaders: Value :=
    List([Str("Content-Type: application/json;charset=UTF-8"), Str("Accept: application/json")])

  /** The guard that opens curl(): truthy array parameters need POST. */
  predicate RejectsParams(verb: string, params: Value) {
    Truthy(params) && params.Arr? && verb != "POST"
  }

  function RejectionMessage(verb: string, command: string, params: Value, encode: Value -> string): string {
    "The http method called for " + command + " is " + verb
      + " but it has to be POST if you want to pass the JSON params " + encode(params)
  }

  /** GET with a truthy integer or string parameter addresses `/<param>`. */
  predicate AppendsParam(verb: string, params: Value) {
    verb == "GET" && Truthy(params) && (params.Int? || params.Str?)
  }

  /** The URL curl() requests: base URL and command, then `/<param>` for a
      GET with a truthy integer or string parameter, and nothing in every
      other case. */
  function TargetUrl(base: string, verb: string, command: string, params: Value): (url: string)
    ensures |url| >= |base + command| && url[..|base + command|] == base + command
    ensures AppendsParam(verb, params) ==> url[|base + command|..] == "/" + PhpString(params)
    ensures !AppendsParam(verb, params) ==> |url| == |base + command|
  {
    var url := base + command;
    if AppendsParam(verb, params) then url + "/" + PhpString(params) else url
  }

  /** The options curl() sets before the caller's extra options: POST sets
      the POST flag and, for a truthy parameter, a body that is the JSON
      encoding of an array and the parameter itself otherwise; DELETE only
      sets the custom verb; nothing sends a body but POST. */
  function BaseOptions(url: string, verb: string, params: Value, encode: Value -> string): (opts: CurlOptions)
    ensures OptUrl in opts && opts[OptUrl] == Str(url)
    ensures OptHttpHeader in opts && opts[OptHttpHeader] == JsonHeaders
    ensures OptPost in opts <==> verb == "POST"
    ensures OptPostFields in opts <==> verb == "POST" && Truthy(params)
    ensures OptPostFields in opts ==>
      opts[OptPostFields] == if params.Arr? then Str(encode(params)) else params
    ensures OptCustomRequest in opts <==> verb == "DELETE"
    ensures OptCustomRequest in opts ==> opts[OptCustomRequest] == Str("DELETE")
  {
    var common := map[OptUrl := Str(url), OptReturnTransfer := Bool(true), OptHttpHeader := JsonHeaders];
    if verb == "POST" then
      var withPost := common[OptPost := Bool(true)];
      if Truthy(params) then
        withPost[OptPostFields := if params.Arr? then Str(encode(params)) else params]
      else withPost
    else if verb == "DELETE" then common[OptCustomRequest := Str("DELETE")]
    else common
  }

  /** `foreach ($extra_opts as $option => $value) curl_setopt(...)` */
  function ApplyOptions(opts: CurlOptions, extra: seq<(int, Value)>): CurlOptions
    decreases |extra|
  {
    if extra == [] then opts
    else ApplyOptions(opts, extra[..|extra| - 1])[extra[|extra| - 1].0 := extra[|extra| - 1].1]
  }

  /** Entry `j` is the last of `extra` that sets option `k`. */
  predicate LastSetAt(extra: seq<(int, Value)>, k: int, j: int) {
    0 <= j < |extra| && extra[j].0 == k && forall j' :: j < j' < |extra| ==> extra[j'].0 != k
  }

  /** An option is set after the extra options exactly when it was set
      before or some extra entry sets it. */
  lemma {:induction false} ApplyOptionsKeys(opts: CurlOptions, extra: seq<(int, Value)>, k: int)
    ensures k in ApplyOptions(opts, extra) <==> k in opts || exists j :: 0 <= j < |extra| && extra[j].0 == k
    decreases |extra|
  {
    if extra != [] {
      var n := |extra| - 1;
      ApplyOptionsKeys(opts, extra[..n], k);
      assert forall j :: 0 <= j < n ==> extra[..n][j] == extra[j];
    }
  }

  /** An option no extra entry sets keeps the value it had. */
  lemma {:induction false} ApplyOptionsUntouched(opts: CurlOptions, extra: seq<(int, Value)>, k: int)
    requires k in opts
    requires forall j :: 0 <= j < |extra| ==> extra[j].0 != k
    ensures k in ApplyOptions(opts, extra) && ApplyOptions(opts, extra)[k] == opts[k]
    decreases |extra|
  {
    if extra != [] {
      var n := |extra| - 1;
      assert forall j :: 0 <= j < n ==> extra[..n][j] == extra[j];
      ApplyOptionsUntouched(opts, extra[..n], k);
    }
  }

  /** The caller's extra options override: an option takes the value of
      the last extra entry that sets it. */
  lemma {:induction false} ApplyOptionsLastWins(opts: CurlOptions, extra: seq<(int, Value)>, k: int, j: int)
    requires LastSetAt(extra, k, j)
    ensures k in ApplyOptions(opts, extra) && ApplyOptions(opts, extra)[k] == extra[j].1
    decreases |extra|
  {
    var n := |extra| - 1;
    if j < n {
      var front := extra[..n];
      assert front[j] == extra[j];
      assert LastSetAt(front, k, j);
      ApplyOptionsLastWins(opts, front, k, j);
    }
  }

  /** What curl() hands to the transport, or the exception it throws before
      building any request. */
  function PlanRequest(base: string, verb: string, command: string, params: Value,
                       extra: seq<(int, Value)>, encode: Value -> string): (r: Result<CurlOptions, Thrown>)
    ensures r.Err? <==> RejectsParams(verb, params)
  {
    if RejectsParams(verb, params) then Err(PlainException(RejectionMessage(verb, command, params, encode)))
    else Ok(ApplyOptions(BaseOptions(TargetUrl(base, verb, command, params), verb, params, encode), extra))
  }

  // ------------------------------------------------------------------
  // Envelope decoding
  // ------------------------------------------------------------------

  /** What curl() returns: `array('value' => ..., 'info' => ...)`. */
  datatype CurlResult = CurlResult(value: Value, info: Value)

  /** One exchange with the server: curl_error (empty when none), the
      trimmed body after `json_decode(..., true)`, and curl_getinfo. */
  datatype Reply = Reply(error: string, results: Value, info: Value)

  /** The statuses the model covers: absent, null, boolean or integer, in
      a decoded body that is not a bare string. */
  predicate StatusModelled(results: Value) {
    var st := Get(results, "status");
    !results.Str? && (st.Null? || st.Bool? || st.Int?)
  }

  /** The integer `$results['status']` stands for under `!= 0` and as a key
      of the class map (true is key 1). */
  function StatusCode(status: Value): int
    requires status.Null? || status.Bool? || status.Int?
  {
    match status
    case Null => 0
    case Bool(b) => if b then 1 else 0
    case Int(i) => i
  }

  /** The second half of curl(): `value` is `$results['value']` when present
      and null otherwise; `message` is `$value['message']` only when `value`
      is an array holding that key; a non-zero status raises the classified
      error carrying (status, message, results), and status 0 returns
      `{value, info}`. A message that is itself an array makes PHP's
      Exception constructor raise an engine Error instead. */
  function DecodeEnvelope(results: Value, info: Value): (r: Result<CurlResult, Thrown>)
    requires StatusModelled(results)
    ensures r.Ok? <==> StatusCode(Get(results, "status")) == 0
    ensures r.Ok? ==> r.value == CurlResult(Get(results, "value"), info)
    ensures r.Err? ==> (r.error.WebDriverError? <==> !Get(Get(results, "value"), "message").Arr?)
    ensures r.Err? && r.error.WebDriverError? ==>
      && Some(r.error.error.kind) == ReturnExceptionToThrow(StatusCode(Get(results, "status")))
      && GetCode(r.error.error) == StatusCode(Get(results, "status"))
      && r.error.error.message == Get(Get(results, "value"), "message")
      && GetResults(r.error.error) == results
    ensures r.Err? && !r.error.WebDriverError? ==>
      r.error == EngineError(WrongParameters(ReturnExceptionToThrow(StatusCode(Get(results, "status"))).value))
  {
    var value := Get(results, "value");
    var message := Get(value, "message");
    var status := Get(results, "status");
    var code := StatusCode(status);
    if code != 0 then
      Err(Instantiate(ReturnExceptionToThrow(code).value, status, message, results))
    else Ok(CurlResult(value, info))
  }

  function CurlErrorMessage(verb: string, url: string, params: Value, encode: Value -> string, error: string): string {
    "Curl error thrown for http " + verb + " to " + url
      + (if Truthy(params) && params.Arr? then " with params: " + encode(params) else "")
      + "\n\n" + error
  }

  /** A truthy curl error raises WebDriverCurlException; otherwise the
      envelope is decoded. */
  function HandleReply(verb: string, url: string, params: Value, encode: Value -> string, reply: Reply)
    : (r: Result<CurlResult, Thrown>)
    requires StatusModelled(reply.results)
    ensures Truthy(Str(reply.error)) <==> r.Err? && r.error.CurlException?
  {
    if Truthy(Str(reply.error)) then Err(CurlException(CurlErrorMessage(verb, url, params, encode, reply.error)))
    else DecodeEnvelope(reply.results, reply.info)
  }

  /** Everything curl() does, as a value: the requests it sends (none or
      one) and its outcome. */
  function Exchange(base: string, verb: string, command: string, params: Value, extra: seq<(int, Value)>,
                    encode: Value -> string, respond: CurlOptions -> Reply): (x: (seq<CurlOptions>, Result<CurlResult, Thrown>))
    requires forall o :: StatusModelled(respond(o).results)
    ensures RejectsParams(verb, params) ==> x.0 == [] && x.1.Err? && x.1.error.PlainException?
    ensures !RejectsParams(verb, params) ==> |x.0| == 1
  {
    match PlanRequest(base, verb, command, params, extra, encode)
    case Err(e) => ([], Err(e))
    case Ok(opts) => ([opts], HandleReply(verb, TargetUrl(base, verb, command, params), params, encode, respond(opts)))
  }

  // ------------------------------------------------------------------
  // Name-to-verb dispatch (__call, getHttpVerb)
  // ------------------------------------------------------------------

  const TooManyArguments: string :=
    "Commands should have at most only one parameter, which should be the JSON Parameter object"

  /** `preg_match('/^(get|post|delete)/', $name)` */
  predicate HasVerbPrefix(name: string) {
    "get" <= name || "post" <= name || "delete" <= name
  }

  function VerbPrefix(name: string): string
    requires HasVerbPrefix(name)
  {
    if "get" <= name then "GET" else if "post" <= name then "POST" else "DELETE"
  }

  /** `getHttpVerb`: the verb the command table gives a name, or the
      exception for a name it lacks. */
  function GetHttpVerb(methods: map<string, string>, command: string): (r: Result<string, Thrown>)
    ensures r.Ok? <==> command in methods
    ensures r.Ok? ==> r.value == methods[command]
  {
    if command in methods then Ok(methods[command])
    else Err(PlainException(command + " is not a valid webdriver command."))
  }

  /** The curl() call a magic method call stands for. */
  datatype Dispatch = Dispatch(verb: string, command: string, params: Value)

  /** The guard-then-dispatch of `__call($name, $arguments)`: more than one
      argument is rejected first; a verb-prefixed name always fails (the
      branch reads the undefined `$webdriver_command`, so PHP 7 checks the
      verb against `$methods[null]`, `in_array` gets no array and returns
      null); a bare name is looked up in the command table and dispatched
      as `/<name>` with the first argument, or null when there is none. */
  function PlanCall(methods: map<string, string>, name: string, args: seq<Value>): (r: Result<Dispatch, Thrown>)
    ensures |args| > 1 ==> r == Err(PlainException(TooManyArguments))
    ensures |args| <= 1 && HasVerbPrefix(name) ==>
      r == Err(PlainException(VerbPrefix(name) + " is not an available http method for the command ."))
    ensures r.Ok? <==> |args| <= 1 && !HasVerbPrefix(name) && name in methods
    ensures r.Ok? ==>
      && r.value.verb == methods[name]
      && r.value.command == "/" + name
      && r.value.params == (if args == [] then Null else args[0])
  {
    if |args| > 1 then Err(PlainException(TooManyArguments))
    else if HasVerbPrefix(name) then
      Err(PlainException(VerbPrefix(name) + " is not an available http method for the command ."))
    else
      match GetHttpVerb(methods, name)
      case Err(e) => Err(e)
      case Ok(verb) => Ok(Dispatch(verb, "/" + name, if args == [] then Null else args[0]))
  }

  /** Everything `__call` does, as a value: requests sent and the result,
      which is only the `value` part of curl()'s answer. */
  function CallExchange(base: string, methods: map<string, string>, name: string, args: seq<Value>,
                        encode: Value -> string, respond: CurlOptions -> Reply): (x: (seq<CurlOptions>, Result<Value, Thrown>))
    requires forall o :: StatusModelled(respond(o).results)
    ensures PlanCall(methods, name, args).Err? ==> x.0 == [] && x.1.Err?
  {
    match PlanCall(methods, name, args)
    case Err(e) => ([], Err(e))
    case Ok(d) =>
      var (sent, r) := Exchange(base, d.verb, d.command, d.params, [], encode, respond);
      (sent, match r case Ok(res) => Ok(res.value) case Err(e) => Err(e))
  }

  /** The one request an accepted curl() call sends: the base options for
      the target URL, overridden by the extra options. */
  lemma ExchangeSends(base: string, verb: string, command: string, params: Value, extra: seq<(int, Value)>,
                      encode: Value -> string, respond: CurlOptions -> Reply)
    requires forall o :: StatusModelled(respond(o).results)
    requires !RejectsParams(verb, params)
    ensures Exchange(base, verb, command, params, extra, encode, respond).0
      == [ApplyOptions(BaseOptions(TargetUrl(base, verb, command, params), verb, params, encode), extra)]
  {
  }

  /** A POST sends its base options for base + command, the parameter
      never being appended to the URL. */
  lemma PostSends(base: string, command: string, params: Value, encode: Value -> string, respond: CurlOptions -> Reply)
    requires forall o :: StatusModelled(respond(o).results)
    ensures Exchange(base, "POST", command, params, [], encode, respond).0
      == [BaseOptions(base + command, "POST", params, encode)]
  {
    ExchangeSends(base, "POST", command, params, [], encode, respond);
    var opts := BaseOptions(TargetUrl(base, "POST", command, params), "POST", params, encode);
    assert ApplyOptions(opts, []) == opts;
  }

  /** A GET with a non-empty string parameter other than "0" sends its base
      options for base + command + `/param`. */
  lemma GetSends(base: string, command: string, param: string, encode: Value -> string, respond: CurlOptions -> Reply)
    requires forall o :: StatusModelled(respond(o).results)
    requires param != "" && param != "0"
    ensures Exchange(base, "GET", command, Str(param), [], encode, respond).0
      == [BaseOptions(base + command + "/" + param, "GET", Str(param), encode)]
  {
    ExchangeSends(base, "GET", command, Str(param), [], encode, respond);
    var opts := BaseOptions(TargetUrl(base, "GET", command, Str(param)), "GET", Str(param), encode);
    assert ApplyOptions(opts, []) == opts;
  }

  /** A dispatched magic call sends what curl() sends for its dispatch. */
  lemma CallExchangeSends(base: string, methods: map<string, string>, name: string, args: seq<Value>,
                          encode: Value -> string, respond: CurlOptions -> Reply)
    requires forall o :: StatusModelled(respond(o).results)
    requires PlanCall(methods, name, args).Ok?
    ensures var d := PlanCall(methods, name, args).value;
      CallExchange(base, methods, name, args, encode, respond).0
        == Exchange(base, d.verb, d.command, d.params, [], encode, respond).0
  {
  }

  /** A magic call dispatched as a GET with a non-empty string argument
      other than "0" sends its base options for base + command +
      `/<argument>`. */
  lemma CallGetSends(base: string, methods: map<string, string>, name: string, command: string, arg: string,
                     encode: Value -> string, respond: CurlOptions -> Reply)
    requires forall o :: StatusModelled(respond(o).results)
    requires arg != "" && arg != "0"
    requires PlanCall(methods, name, [Str(arg)]) == Ok(Dispatch("GET", command, Str(arg)))
    ensures CallExchange(base, methods, name, [Str(arg)], encode, respond).0
      == [BaseOptions(base + command + "/" + arg, "GET", Str(arg), encode)]
  {
    CallExchangeSends(base, methods, name, [Str(arg)], encode, respond);
    GetSends(base, command, arg, encode, respond);
  }

  // ------------------------------------------------------------------
  // The connection: curl() and __call as methods
  // ------------------------------------------------------------------

  /** The URL curl() builds: base and command, then `/<param>` appended
      for a GET with a truthy integer or string parameter. */
  method BuildUrl(base: string, verb: string, command: string, params: Value) returns (url: string)
    ensures url == TargetUrl(base, verb, command, params)
  {
    url := base + command;
    if verb == "GET" && Truthy(params) && (params.Int? || params.Str?) {
      url := url + "/" + PhpString(params);
    }
  }

  /** The options curl() sets one `curl_setopt` at a time before the
      caller's extra options. */
  method BuildOptions(url: string, verb: string, params: Value, encode: Value -> string) returns (opts: CurlOptions)
    ensures opts == BaseOptions(url, verb, params, encode)
  {
    opts := map[OptUrl := Str(url)];
    opts := opts[OptReturnTransfer := Bool(true)];
    opts := opts[OptHttpHeader := JsonHeaders];
    if verb == "POST" {
      opts := opts[OptPost := Bool(true)];
      if Truthy(params) {
        if params.Arr? {
          opts := opts[OptPostFields := Str(encode(params))];
        } else {
          opts := opts[OptPostFields := params];
        }
      }
    } else if verb == "DELETE" {
      opts := opts[OptCustomRequest := Str("DELETE")];
    }
  }

  /** `foreach ($extra_opts as $option => $value) curl_setopt(...)` */
  method SetExtraOptions(opts: CurlOptions, extra: seq<(int, Value)>) returns (result: CurlOptions)
    ensures result == ApplyOptions(opts, extra)
  {
    result := opts;
    for i := 0 to |extra|
      invariant result == ApplyOptions(opts, extra[..i])
    {
      assert extra[..i + 1][..i] == extra[..i];
      result := result[extra[i].0 := extra[i].1];
    }
    assert extra[..|extra|] == extra;
  }

  /** The end of curl(): a curl error, or the envelope read step by step. */
  method DecodeReply(verb: string, url: string, params: Value, encode: Value -> string, reply: Reply)
    returns (r: Result<CurlResult, Thrown>)
    requires StatusModelled(reply.results)
    ensures r == HandleReply(verb, url, params, encode, reply)
  {
    if Truthy(Str(reply.error)) {
      return Err(CurlException(CurlErrorMessage(verb, url, params, encode, reply.error)));
    }
    var results := reply.results;
    var value := Null;
    if results.Arr? && HasKey(results, "value") {
      value := Get(results, "value");
    }
    var message := Null;
    if value.Arr? && HasKey(value, "message") {
      message := Get(value, "message");
    }
    assert value == Get(results, "value") && message == Get(value, "message");
    var status := Get(results, "status");
    if StatusCode(status) != 0 {
      var kind := ReturnExceptionToThrow(StatusCode(status));
      return Err(Instantiate(kind.value, status, message, results));
    }
    return Ok(CurlResult(value, reply.info));
  }

  class WebDriverConnection {
    /** The transport: request options in, curl's report and decoded body out. */
    const respond: CurlOptions -> Reply
    /** json_encode */
    const encode: Value -> string
    /** Every option set handed to the transport, oldest first. */
    ghost var sent: seq<CurlOptions>

    ghost predicate Valid() {
      forall o :: StatusModelled(respond(o).results)
    }

    constructor(respond: CurlOptions -> Reply, encode: Value -> string)
      requires forall o :: StatusModelled(respond(o).results)
      ensures Valid() && this.respond == respond && this.encode == encode && sent == []
    {
      this.respond := respond;
      this.encode := encode;
      sent := [];
    }

    /** `curl($http_method, $command, $params, $extra_opts)` against the
        resource at `base`. */
    method Curl(base: string, verb: string, command: string, params: Value, extraOpts: seq<(int, Value)>)
      returns (r: Result<CurlResult, Thrown>)
      requires Valid()
      modifies this`sent
      ensures var x := Exchange(base, verb, command, params, extraOpts, encode, respond);
        sent == old(sent) + x.0 && r == x.1
    {
      if Truthy(params) && params.Arr? && verb != "POST" {
        r := Err(PlainException(RejectionMessage(verb, command, params, encode)));
        return;
      }
      var url := BuildUrl(base, verb, command, params);
      var opts := BuildOptions(url, verb, params, encode);
      opts := SetExtraOptions(opts, extraOpts);
      assert PlanRequest(base, verb, command, params, extraOpts, encode) == Ok(opts);
      sent := sent + [opts];
      var reply := respond(opts);
      r := DecodeReply(verb, url, params, encode, reply);
    }

    /** `__call($name, $arguments)` on a resource at `base` whose command
        table is `methods`. */
    method Call(base: string, methods: map<string, string>, name: string, args: seq<Value>)
      returns (r: Result<Value, Thrown>)
      requires Valid()
      modifies this`sent
      ensures var x := CallExchange(base, methods, name, args, encode, respond);
        sent == old(sent) + x.0 && r == x.1
    {
      if |args| > 1 {
        r := Err(PlainException(TooManyArguments));
        return;
      }
      var verb: string;
      if HasVerbPrefix(name) {
        r := Err(PlainException(VerbPrefix(name) + " is not an available http method for the command ."));
        return;
      } else {
        var found := GetHttpVerb(methods, name);
        if found.Err? {
          r := Err(found.error);
          return;
        }
        verb := found.value;
      }
      var param := if args == [] then Null else args[0];
      var res := Curl(base, verb, "/" + name, param, []);
      r := match res case Ok(v) => Ok(v.value) case Err(e) => Err(e);
    }
  }
}
