# A model of the DataSift PHP WebDriver and BrowserMob proxy client

This project models the request/response layer of a PHP client for the Selenium
JSON Wire Protocol and for the browsermob-proxy REST API, and proves properties
of that model:

- `WebDriverBase`: the status-code classifier, the request planner of
  `curl()` (parameter guard, target URL, curl options, the `foreach` over extra
  options), the decoder of the `{status, value}` envelope, and the magic
  `__call` dispatch through `getHttpVerb`.
- `WebDriverException`: the immutable error record (integer code, message, results),
  and the argument check PHP 7's `Exception` constructor makes, which turns a
  non-numeric code or an array message into an engine `Error` and an
  accepted code into an integer.
- `HttpAddress`: assigning parsed URL components, the scheme defaults for http,
  https, ws and wss, the request line, and the raw string form.
- `WebDriverContainer`: the `element` and `elements` searches, the
  re-raise of a no-such-element error, and the decoding and filtering of
  element references.
- `WebDriverElement`: the command table, the child element path, keystroke
  splitting, `type`, `typeSpecial` and `containsClass`.
- `BrowserMobProxySession`: the `closed` flag, the open check and the feature
  check before every call, the request each operation sends, terminal `close`,
  and the WebDriver proxy configuration.
- `WebDriverHelperContainer`: the PHP-side post-processing. This covers the
  `string:` / `boolean:` / `array:` decoding in `getValue`, the line-break
  flattening of `getText`, the empty attribute in `getAttribute`, the element
  placeholder of `executeJsOnXpath`, and the quoting of the value in
  `selectOption`.

PHP values are modelled by `PhpValues.Value` (null, bool, int, string, and
ordered arrays with integer or string keys). PHP 7 behaviour is written out for
each operation: truthiness, loose `== null`, `isset`, `array_key_exists`, the
`(string)` cast, `explode`, `str_replace` and `ucfirst`. The code reads string
offsets with `$text{$i}`, which PHP 8 removed, so the model follows PHP 7.

Code that changes objects in place is modelled by classes:

- `WebDriverConnection` keeps a ghost log of every option set handed to curl.
- `HttpAddress` assigns its fields in a loop.
- `BrowserMobProxySession` holds the `closed` flag and a ghost log of its requests.

Each of their methods is proved against a pure function. Those are
`WireProtocol.Exchange`, `WireProtocol.CallExchange`,
`HttpAddressing.SetAddressSpec` and `BrowserMobProxy.Perform`, and lemmas
state what each function promises.

The transport (curl), `json_encode`, `urlencode` and `parse_url` are code
outside this model. Each is a function value passed in: the connection's
`respond` and `encode`, the proxy session's `transport` and `urlEncode`, and
the `parts` given to `setAddress`.

Files: `PhpValues.dfy`, `Exceptions.dfy`, `WireProtocol.dfy`, `HttpAddress.dfy`,
`Containers.dfy`, `Elements.dfy`, `ProxySession.dfy`, `Helpers.dfy`.

## Model

| member | source | states |
|---|---|---|
| WireProtocol.ReturnExceptionToThrow | src/php/DataSift/WebDriver1/WebDriverBase.php:28-78 | status 0 gives no error, and only 0 does |
| WireProtocol.ClassifyUnknown | src/php/DataSift/WebDriver1/WebDriverBase.php:28-78 | UnknownWebDriverError is the answer iff the code is non-zero and outside 1..34 |
| WireProtocol.ClassifyNamed | src/php/DataSift/WebDriver1/WebDriverBase.php:30-75 | every code in 1..34 gives a named kind whose table code is that same code |
| WireProtocol.ClassifyCodes1To9 | src/php/DataSift/WebDriver1/WebDriverBase.php:31-39 | codes 1..9 give the named kind whose table code is the input |
| WireProtocol.ClassifyCodes10To17 | src/php/DataSift/WebDriver1/WebDriverBase.php:40-47 | codes 10..17 give the named kind whose table code is the input |
| WireProtocol.ClassifyCodes18To26 | src/php/DataSift/WebDriver1/WebDriverBase.php:48-56 | codes 18..26 give the named kind whose table code is the input |
| WireProtocol.ClassifyCodes27To34 | src/php/DataSift/WebDriver1/WebDriverBase.php:57-64 | codes 27..34 give the named kind whose table code is the input |
| WireProtocol.ClassifyStatusCodeOf | src/php/DataSift/WebDriver1/WebDriverBase.php:30-65 | every named kind has a table code, and classifying that code gives the kind back (the table is injective on 1..34) |
| WireProtocol.TargetUrl | src/php/DataSift/WebDriver1/WebDriverBase.php:147-150 | the URL starts with base + command; `/param` is appended exactly when the verb is GET and the param is a truthy int or string, otherwise nothing is appended |
| WireProtocol.BaseOptions | src/php/DataSift/WebDriver1/WebDriverBase.php:153-178 | URL and JSON headers are always set; POST is set iff the verb is POST; a body is set iff POST and the param is truthy, JSON-encoded when it is an array and verbatim otherwise; the custom DELETE verb is set iff the verb is DELETE |
| WireProtocol.ApplyOptionsKeys | src/php/DataSift/WebDriver1/WebDriverBase.php:179-181 | after the `foreach` over extra options, an option is present iff it was set before or appears in the extras |
| WireProtocol.ApplyOptionsUntouched | src/php/DataSift/WebDriver1/WebDriverBase.php:179-181 | an option the extras never mention keeps the value it had |
| WireProtocol.ApplyOptionsLastWins | src/php/DataSift/WebDriver1/WebDriverBase.php:179-181 | an option named by an extra entry ends with that entry's value; PHP array keys are unique, so in the source the entry naming an option is the only one, and the lemma also covers a list that repeats an option (the last entry wins) |
| WireProtocol.PlanRequest | src/php/DataSift/WebDriver1/WebDriverBase.php:137-144 | planning fails exactly when the params are a truthy array and the verb is not POST |
| WireProtocol.DecodeEnvelope | src/php/DataSift/WebDriver1/WebDriverBase.php:207-229 | success iff the status is 0, returning `{value, info}` with value = `results['value']` or null; otherwise the classified error carrying the integer status as code (`getCode()` gives 1 for a `true` status), `value['message']` (null unless present) as message, and the whole results; a message that is itself an array makes the constructor raise the engine `Error` "Wrong parameters for …" of that class instead |
| WireProtocol.HandleReply | src/php/DataSift/WebDriver1/WebDriverBase.php:190-229 | a truthy curl error string raises the curl exception, and only then is the outcome a curl exception |
| WireProtocol.Exchange | src/php/DataSift/WebDriver1/WebDriverBase.php:128-230 | a rejected parameter sends no request and raises a plain exception; every other call sends exactly one request |
| WireProtocol.ExchangeSends | src/php/DataSift/WebDriver1/WebDriverBase.php:146-181 | an accepted call sends the base options for the target URL, with the extra options applied over them |
| WireProtocol.PostSends | src/php/DataSift/WebDriver1/WebDriverBase.php:146-175 | a POST with no extra options sends the base options for base + command, with nothing appended to the URL |
| WireProtocol.GetSends | src/php/DataSift/WebDriver1/WebDriverBase.php:146-150 | a GET whose parameter is a string other than "" and "0" sends the base options for base + command + `/` + parameter |
| WireProtocol.CallExchangeSends | src/php/DataSift/WebDriver1/WebDriverBase.php:240-280 | a magic call that dispatches sends what `curl()` sends for the dispatched verb, command and parameter |
| WireProtocol.CallGetSends | src/php/DataSift/WebDriver1/WebDriverBase.php:240-280 | a magic call dispatched as a GET of a command with a string argument other than "" and "0" sends exactly one request: the base options for base + command + `/` + argument |
| WireProtocol.BuildUrl | src/php/DataSift/WebDriver1/WebDriverBase.php:146-150 | the URL built by appending is `TargetUrl` |
| WireProtocol.BuildOptions | src/php/DataSift/WebDriver1/WebDriverBase.php:152-178 | the options set one by one are `BaseOptions` |
| WireProtocol.SetExtraOptions | src/php/DataSift/WebDriver1/WebDriverBase.php:179-181 | the loop over the extras gives `ApplyOptions`, which the three ApplyOptions lemmas describe |
| WireProtocol.DecodeReply | src/php/DataSift/WebDriver1/WebDriverBase.php:186-229 | the reply is handled as `HandleReply` prescribes |
| WireProtocol.GetHttpVerb | src/php/DataSift/WebDriver1/WebDriverBase.php:288-301 | success iff the command is in the table, with the table's verb |
| WireProtocol.PlanCall | src/php/DataSift/WebDriver1/WebDriverBase.php:240-280 | more than one argument is rejected before anything else; a verb-prefixed name fails with PHP's message naming the verb and an empty command; otherwise success iff the name is in the table, dispatching `/name` with its verb and the first argument or null |
| WireProtocol.CallExchange | src/php/DataSift/WebDriver1/WebDriverBase.php:240-280 | a call that cannot be dispatched sends nothing and fails |
| WireProtocol.WebDriverConnection.Curl | src/php/DataSift/WebDriver1/WebDriverBase.php:128-230 | appends to the log exactly the requests of `Exchange` and returns its outcome |
| WireProtocol.WebDriverConnection.Call | src/php/DataSift/WebDriver1/WebDriverBase.php:240-280 | appends exactly the requests of `CallExchange` and returns only the `value` part of the answer |
| Exceptions.NewWebDriverException | src/php/DataSift/WebDriver1/WebDriverException.php:27-38 | the exception built from accepted arguments: `getCode` returns the integer made of the first argument, the second is the message, the third (null when omitted) the results that `getResults` returns |
| Exceptions.Instantiate | src/php/DataSift/WebDriver1/WebDriverException.php:27-38 | `new X($code, $message, $results)` yields the exception iff the code is accepted as an integer (null, bool, int or a leading-numeric string) and the message is not an array; then it is `NewWebDriverException` with the code converted by `LongOf` (null and false 0, true 1, an integer itself, a string the number it starts with, truncated toward zero), otherwise the engine `Error` "Wrong parameters for X([string $message [, long $code [, Throwable $previous = NULL]]])" with the class's qualified name |
| Exceptions.GetResults | src/php/DataSift/WebDriver1/WebDriverException.php:35-38 | `getResults()`: the results given to the constructor, unchanged (`Instantiate` ensures the built exception is `NewWebDriverException(kind, LongOf(code), message, results)`, whose ensures fix `results`) |
| Exceptions.LongOf | src/php/DataSift/WebDriver1/WebDriverException.php:27-31 | the integer PHP stores for an accepted code: null and false give 0, true gives 1, an integer itself; its promises are stated by `LongOfDecimal` (integers written out read back) and `LongOfTrailingText` (trailing text ignored) |
| Exceptions.InstantiateConvertsCode | src/php/DataSift/WebDriver1/WebDriverException.php:27-38 | `getCode()` is 1 for a `true` code and n for an integer code n |
| Exceptions.InstantiateReadsNumber | src/php/DataSift/WebDriver1/WebDriverException.php:27-38 | an integer written out as a string is accepted and `getCode()` reads it back; a string such as `"12abc"` (digits, then text that cannot continue a number) gives the integer it starts with |
| Exceptions.LongOfDecimal | src/php/DataSift/WebDriver1/WebDriverException.php:27-38 | every integer written out as PHP writes it is accepted as a code and converted back to itself |
| Exceptions.LongOfTrailingText | src/php/DataSift/WebDriver1/WebDriverException.php:27-38 | the digits of n followed by text starting with no digit, dot or exponent are accepted and converted to n |
| Exceptions.InstantiateRefusesText | src/php/DataSift/WebDriver1/WebDriverException.php:27-38 | a code that is a string starting with a letter (upper or lower case) always gives the engine `Error`, whatever the message and results |
| HttpAddressing.AssignParsed | src/php/DataSift/WebDriver1/HttpAddress.php:112-129 | each attribute takes the component it maps to when that is set in the parse and keeps its previous value otherwise; the raw address is untouched |
| HttpAddressing.WithField | src/php/DataSift/WebDriver1/HttpAddress.php:127 | assigning one attribute changes that attribute only |
| HttpAddressing.HandlerNameLower | src/php/DataSift/WebDriver1/HttpAddress.php:132-133 | the lower-cased handler name is the lower-cased prefix followed by the lower-cased scheme, so `ucfirst` does not matter |
| HttpAddressing.KnownHandlerNames | src/php/DataSift/WebDriver1/HttpAddress.php:147-202 | the four post-processor names lower-case to the lower-cased prefix followed by http, https, ws and wss |
| HttpAddressing.DefaultPortBySchemeName | src/php/DataSift/WebDriver1/HttpAddress.php:132-202 | the `postProcessSetAddress<Scheme>` lookup (case-insensitive) gives port 80 iff the scheme is http or ws, 443 iff https or wss, and nothing for any other scheme |
| HttpAddressing.FillDefaults | src/php/DataSift/WebDriver1/HttpAddress.php:147-202 | for a known scheme a loosely-null port becomes the default and a loosely-null path becomes `/`; nothing else changes, and an unknown scheme changes nothing |
| HttpAddressing.SetAddressFields | src/php/DataSift/WebDriver1/HttpAddress.php:103-142 | for a parse that is an array, every field of the result: parsed components or previous values, defaults for known schemes, and the raw string stored verbatim |
| HttpAddressing.SetAddressSpec | src/php/DataSift/WebDriver1/HttpAddress.php:103-142 | fails with "unable to parse URL" iff the parse is not an array; on success the address string is kept verbatim (each field is stated by `SetAddressFields`) |
| HttpAddressing.SetAddressIdempotent | src/php/DataSift/WebDriver1/HttpAddress.php:103-142 | setting the same address twice gives the same state as setting it once |
| HttpAddressing.RequestLine | src/php/DataSift/WebDriver1/HttpAddress.php:210-224 | the line is the bare path iff neither query nor fragment is set; with only a query it is `path?query`, with only a fragment `path#fragment`, with both `path?query#fragment` |
| HttpAddressing.RequestLineOfFullAddress | src/php/DataSift/WebDriver1/HttpAddress.php:103-224 | an address whose parse gives a non-empty path, a query and a fragment asks for exactly `path?query#fragment`, whatever the object held before |
| HttpAddressing.RequestLineOfBareAddress | src/php/DataSift/WebDriver1/HttpAddress.php:147-224 | a fresh http(s)/ws(s) address with no path, query or fragment has request line `/` |
| HttpAddressing.HttpAddress.Create | src/php/DataSift/WebDriver1/HttpAddress.php:90-109 | construction fails with "unable to parse URL" iff the parse is not an array, and otherwise yields the state `SetAddressSpec` gives from blank |
| HttpAddressing.HttpAddress.AssignComponents | src/php/DataSift/WebDriver1/HttpAddress.php:112-129 | the loop over the component table leaves the state `AssignParsed` of the old one |
| HttpAddressing.HttpAddress.FillDefaultComponents | src/php/DataSift/WebDriver1/HttpAddress.php:132-202 | the post-processor leaves the state `FillDefaults` of the old one |
| HttpAddressing.HttpAddress.SetAddress | src/php/DataSift/WebDriver1/HttpAddress.php:103-142 | on a failed parse the state is unchanged and the error raised; otherwise the new state is `SetAddressSpec` of the old one |
| HttpAddressing.HttpAddress.GetRequestLine | src/php/DataSift/WebDriver1/HttpAddress.php:210-224 | returns `RequestLine` of the current state |
| HttpAddressing.HttpAddress.ToString | src/php/DataSift/WebDriver1/HttpAddress.php:230-233 | returns the raw address string, not a re-serialisation |
| WebDriverContainers.WebDriverElement | src/php/DataSift/WebDriver/WebDriverContainer.php:111-123 | an element iff the record is an array with an `ELEMENT` key; its id is that value and its URL the container's path for it |
| WebDriverContainers.FilterElementsAppend | src/php/DataSift/WebDriver/WebDriverContainer.php:97-99 | filtering distributes over concatenation, so order is preserved |
| WebDriverContainers.FilterElements | src/php/DataSift/WebDriver/WebDriverContainer.php:97-99 | no more entries come out than went in, and every one is an element whose URL is the container's path for its id (membership by key is stated by `FilterElementsMembers`) |
| WebDriverContainers.FilterElementsMembers | src/php/DataSift/WebDriver/WebDriverContainer.php:97-99 | no more entries come out than went in; a (key, element) pair is in the output iff an input entry under that same key decodes to that element |
| WebDriverContainers.DecodeElements | src/php/DataSift/WebDriver/WebDriverContainer.php:97-99 | an array answer gives a list, anything else gives null |
| WebDriverContainers.ReRaiseAsWrittenFails | src/php/DataSift/WebDriver/WebDriverContainer.php:46-55 | with the arguments as written (the search text as the code), the re-raise never builds a `NoSuchElementWebDriverError`: it is always the engine `Error` "Wrong parameters for …NoSuchElementWebDriverError…" |
| WebDriverContainers.ReRaiseAsWritten | src/php/DataSift/WebDriver/WebDriverContainer.php:46-55 | the re-raise with the arguments in the source's order; `ReRaiseAsWrittenFails` states that it always ends in the engine `Error` |
| WebDriverContainers.ReRaise | src/php/DataSift/WebDriver/WebDriverContainer.php:46-55 | the corrected re-raise keeps the kind, code and results; its message starts with the search description and ends with the server's message |
| WebDriverContainers.Caught | src/php/DataSift/WebDriver/WebDriverContainer.php:46-99 | a success is decoded; only a no-such-element error is replaced, by what the given re-raise makes of it; every other error propagates unchanged |
| WebDriverContainers.SearchAsWrittenOutcome | src/php/DataSift/WebDriver/WebDriverContainer.php:46-99 | with the re-raise as written, a search never ends in a no-such-element exception: a not-found answer ends in the engine `Error` |
| WebDriverContainers.SearchIntendedOutcome | src/php/DataSift/WebDriver/WebDriverContainer.php:46-99 | with the corrected re-raise, a not-found answer ends in a no-such-element exception keeping the server's code and results, its message starting "Element not found with " + strategy + ", " + value |
| WebDriverContainers.SearchRequest | src/php/DataSift/WebDriver/WebDriverContainer.php:37-81 | a search sends exactly one POST to `<container>/element(s)` with the JSON-encoded `{using, value}` |
| WebDriverContainers.FindElement | src/php/DataSift/WebDriver/WebDriverContainer.php:33-61 | logs the one search request and returns `Caught` of the exchange, decoded by `WebDriverElement` and re-raised as written |
| WebDriverContainers.FindElements | src/php/DataSift/WebDriver/WebDriverContainer.php:71-100 | logs the one search request and returns `Caught` of the exchange, decoded by `DecodeElements` and re-raised as written |
| WebDriverElements.ElementCommandVerbs | src/php/DataSift/WebDriver/WebDriverElement.php:61-80 | the table holds exactly the fifteen commands; click, submit, value and clear are POST and every other command is GET |
| WebDriverElements.ElementCommandsDispatch | src/php/DataSift/WebDriver/WebDriverElement.php:61-80 | every table command with at most one argument dispatches as `/name` under its own verb |
| WebDriverElements.GetElementPath | src/php/DataSift/WebDriver/WebDriverElement.php:114-116 | the element's URL with its trailing id replaced by the new id; `ChildElementPath` states that a URL ending in the id keeps its prefix for children and grandchildren, `ElementPathWithoutId` that any other URL is returned unchanged |
| WebDriverElements.ChildElementPath | src/php/DataSift/WebDriver/WebDriverElement.php:114-116 | when the URL ends in the element's id, a child's URL is that URL with the child's id in its place, and grandchildren keep the prefix |
| WebDriverElements.ElementPathWithoutId | src/php/DataSift/WebDriver/WebDriverElement.php:114-116 | a URL that does not end in the id is returned unchanged |
| WebDriverElements.Keystrokes | src/php/DataSift/WebDriver/WebDriverElement.php:118-128 | one keystroke per character, the i-th being the i-th character |
| WebDriverElements.TypedKeystrokes | src/php/DataSift/WebDriver/WebDriverElement.php:118-128 | concatenating the keystrokes gives the text back |
| WebDriverElements.ConvertTextForTyping | src/php/DataSift/WebDriver/WebDriverElement.php:118-128 | the `for` loop builds exactly `Keystrokes(text)` |
| WebDriverElements.ValueAndAttributeDispatch | src/php/DataSift/WebDriver/WebDriverElement.php:61-80 | with one argument, a `value` call dispatches as a POST of `/value` and an `attribute` call as a GET of `/attribute`, each with that argument |
| WebDriverElements.ValueRequest | src/php/DataSift/WebDriver/WebDriverElement.php:61-112 | a `value` call with a truthy argument sends one POST to `<element>/value`, its body JSON-encoded when it is an array and verbatim otherwise |
| WebDriverElements.TypeRequests | src/php/DataSift/WebDriver/WebDriverElement.php:103-112 | `type` POSTs the encoded `{value: keystrokes}` to `<element>/value`; `typeSpecial` POSTs its hand-built string verbatim |
| WebDriverElements.ClassNames | src/php/DataSift/WebDriver/WebDriverElement.php:95 | at least one name, none containing a space |
| WebDriverElements.HasClassOfNames | src/php/DataSift/WebDriver/WebDriverElement.php:91-101 | for an attribute of space-joined, space-free names, the test holds iff the class is one of them |
| WebDriverElements.NoClassWithSpace | src/php/DataSift/WebDriver/WebDriverElement.php:91-101 | a class containing a space is never found |
| WebDriverElements.Type | src/php/DataSift/WebDriver/WebDriverElement.php:103-106 | logs and returns the `value` call with the keystrokes of the text |
| WebDriverElements.TypeSpecial | src/php/DataSift/WebDriver/WebDriverElement.php:108-112 | logs and returns the `value` call with the unescaped hand-built body |
| WebDriverElements.ClassTest | src/php/DataSift/WebDriver/WebDriverElement.php:95-98 | the answer is null exactly for an array attribute (PHP 7's `explode` and `in_array` both refuse it), and it is truthy exactly when `HasClass` holds |
| WebDriverElements.ArrayAttributeHasNoClass | src/php/DataSift/WebDriver/WebDriverElement.php:95-98 | an array attribute answers null for every class, "Array" included |
| WebDriverElements.ContainsClass | src/php/DataSift/WebDriver/WebDriverElement.php:91-101 | an error from fetching the attribute propagates; otherwise the answer is `ClassTest` of the fetched attribute |
| WebDriverElements.ContainsClassRequest | src/php/DataSift/WebDriver/WebDriverElement.php:91-95 | the class attribute is fetched by one request, the base options of a GET of `<element>/attribute/class`, which carry no POST flag and no body |
| BrowserMobProxy.RequestFor | src/php/DataSift/BrowserMobProxy/BrowserMobProxySession.php:83-195 | every request lies under `/proxy/<port>`, and only `close` addresses that path itself |
| BrowserMobProxy.Guard | src/php/DataSift/BrowserMobProxy/BrowserMobProxySession.php:134-208 | a closed session is refused first; an open one is refused iff the operation needs a feature the server lacks |
| BrowserMobProxy.PerformGuards | src/php/DataSift/BrowserMobProxy/BrowserMobProxySession.php:83-208 | when closed: refused, nothing sent, still closed; nothing is sent iff a guard refuses; otherwise exactly the operation's request; the session is closed afterwards iff it was already closed or a close succeeded |
| BrowserMobProxy.Perform | src/php/DataSift/BrowserMobProxy/BrowserMobProxySession.php:83-208 | one proxy operation as a value; `PerformGuards` states its guard, the one request sent and the closing rule |
| BrowserMobProxy.RunWhenClosed | src/php/DataSift/BrowserMobProxy/BrowserMobProxySession.php:185-208 | a closed session stays closed over any run, sends nothing, and refuses every operation |
| BrowserMobProxy.RunClosedIff | src/php/DataSift/BrowserMobProxy/BrowserMobProxySession.php:185-195 | a session that starts open ends closed iff some `close` in the run succeeded |
| BrowserMobProxy.ProxyConfigShape | src/php/DataSift/BrowserMobProxy/BrowserMobProxySession.php:64-75 | succeeds iff open and the URL parses; proxyType is manual, and httpProxy and sslProxy are both `hostname:port` |
| BrowserMobProxy.ProxyConfig | src/php/DataSift/BrowserMobProxy/BrowserMobProxySession.php:64-75 | `getWebDriverProxyConfig()` as a value; `ProxyConfigShape` and `ManualProxyEntries` state its success condition and its manual host:port entries |
| BrowserMobProxy.ManualProxyEntries | src/php/DataSift/BrowserMobProxy/BrowserMobProxySession.php:70-74 | the configuration array reads back proxyType manual and the same host:port under httpProxy and sslProxy |
| BrowserMobProxy.BrowserMobProxySession.constructor | src/php/DataSift/BrowserMobProxy/BrowserMobProxySession.php:28-48 | a new session is open, has sent nothing and reports the given port |
| BrowserMobProxy.BrowserMobProxySession.RequireOpenConnection | src/php/DataSift/BrowserMobProxy/BrowserMobProxySession.php:203-208 | raises the closed-session error iff the session is closed |
| BrowserMobProxy.BrowserMobProxySession.Close | src/php/DataSift/BrowserMobProxy/BrowserMobProxySession.php:185-195 | the flag, log and result follow `Perform` for close: the DELETE is sent first and the flag is set only when it succeeds |
| BrowserMobProxy.BrowserMobProxySession.GetPort | src/php/DataSift/BrowserMobProxy/BrowserMobProxySession.php:55-58 | the port the session was opened with: the constructor ensures `GetPort() == port`, and no method changes `env` |
| BrowserMobProxy.BrowserMobProxySession.StartHAR | src/php/DataSift/BrowserMobProxy/BrowserMobProxySession.php:83-92 | log and result follow `Perform`; the log name defaults to `default` |
| BrowserMobProxy.BrowserMobProxySession.GetHAR | src/php/DataSift/BrowserMobProxy/BrowserMobProxySession.php:101-114 | log and result follow `Perform`; the log name defaults to `default` |
| BrowserMobProxy.BrowserMobProxySession.SetHeaders | src/php/DataSift/BrowserMobProxy/BrowserMobProxySession.php:123-132 | log and result follow `Perform` |
| BrowserMobProxy.BrowserMobProxySession.RemoveHeader | src/php/DataSift/BrowserMobProxy/BrowserMobProxySession.php:134-142 | log and result follow `Perform` |
| BrowserMobProxy.BrowserMobProxySession.RemoveAllHeaders | src/php/DataSift/BrowserMobProxy/BrowserMobProxySession.php:144-152 | log and result follow `Perform` |
| BrowserMobProxy.BrowserMobProxySession.GetHeader | src/php/DataSift/BrowserMobProxy/BrowserMobProxySession.php:154-164 | log and result follow `Perform` |
| BrowserMobProxy.BrowserMobProxySession.SetHttpBasicAuth | src/php/DataSift/BrowserMobProxy/BrowserMobProxySession.php:166-178 | log and result follow `Perform` |
| BrowserMobProxy.BrowserMobProxySession.GetWebDriverProxyConfig | src/php/DataSift/BrowserMobProxy/BrowserMobProxySession.php:64-75 | returns `ProxyConfig` of the session's own URL and port |
| WebDriverHelpers.DecodeScriptValue | src/php/DataSift/WebDriver1/WebDriverHelperContainer.php:156-171 | a falsy script result gives null; the result is always null, a string, a boolean or a list |
| WebDriverHelpers.DecodeTaggedString | src/php/DataSift/WebDriver1/WebDriverHelperContainer.php:158-160 | `string:x` gives back x, newlines included |
| WebDriverHelpers.DecodeTaggedBoolean | src/php/DataSift/WebDriver1/WebDriverHelperContainer.php:161-163 | a one-line `boolean:x` gives true iff x lower-cased is "true" |
| WebDriverHelpers.TaggedLine | src/php/DataSift/WebDriver1/WebDriverHelperContainer.php:158-164 | a one-line subject that starts with a tag other than `string:` has no `string:` capture, and its tag captures the rest |
| WebDriverHelpers.DecodeArrayTag | src/php/DataSift/WebDriver1/WebDriverHelperContainer.php:164-170 | a one-line `array:x` gives no items when x is blank and the comma-separated pieces of x otherwise |
| WebDriverHelpers.DecodeTaggedArray | src/php/DataSift/WebDriver1/WebDriverHelperContainer.php:164-170 | `array:` followed by comma-joined items gives no items when blank and exactly those items otherwise |
| WebDriverHelpers.DecodeUntagged | src/php/DataSift/WebDriver1/WebDriverHelperContainer.php:156-171 | a one-line result with none of the three tags gives null |
| WebDriverHelpers.FindAtLineStart | src/php/DataSift/WebDriver1/WebDriverHelperContainer.php:158 | finds the leftmost line start where the tag begins, as `^` under `/m` does |
| WebDriverHelpers.StringCapture | src/php/DataSift/WebDriver1/WebDriverHelperContainer.php:158 | `preg_match('/^string:(.*)$/ms')`: a capture is everything after the leftmost `string:` that starts a line, to the very end of the subject; no capture iff no line starts with `string:` |
| WebDriverHelpers.SingleLineCapture | src/php/DataSift/WebDriver1/WebDriverHelperContainer.php:161-164 | a capture holds no newline, and the subject is the tag, the capture and at most one final newline |
| WebDriverHelpers.NormalizeTextPointwise | src/php/DataSift/WebDriver1/WebDriverHelperContainer.php:80 | the text keeps its length, every CR and LF becomes one space and nothing else changes, so CRLF becomes two spaces |
| WebDriverHelpers.NormalizeText | src/php/DataSift/WebDriver1/WebDriverHelperContainer.php:80 | `getText`'s flattening; `NormalizeTextPointwise` states that every CR and LF becomes one space and nothing else changes, `NormalizeTextCrLf` that a CRLF pair gives two spaces |
| WebDriverHelpers.AttributeOrNull | src/php/DataSift/WebDriver1/WebDriverHelperContainer.php:90-98 | the empty string becomes null; every other value, "0" and null included, is returned unchanged |
| WebDriverHelpers.BindElementComplete | src/php/DataSift/WebDriver1/WebDriverHelperContainer.php:57 | no `{{ELEMENT}}` remains after the substitution, and a script without `{` is unchanged |
| WebDriverHelpers.BindElement | src/php/DataSift/WebDriver1/WebDriverHelperContainer.php:57 | the placeholder substitution; `BindElementComplete`, `BindElementStep` and `BindElementPieces` state what it leaves and what it replaces |
| WebDriverHelpers.BindElementStep | src/php/DataSift/WebDriver1/WebDriverHelperContainer.php:57 | a placeholder after text with no `{` becomes `arguments[0]`, and the rest of the script is bound in turn |
| WebDriverHelpers.BindElementPieces | src/php/DataSift/WebDriver1/WebDriverHelperContainer.php:57 | a script `a{{ELEMENT}}b` with plain pieces is sent as `a` + `arguments[0]` + `b` |
| PhpValues.ReplaceAfterPlain | src/php/DataSift/WebDriver1/WebDriverHelperContainer.php:57 | `str_replace` copies the text before the first occurrence, puts the replacement in its place and goes on after it |
| WebDriverHelpers.ExecuteRequestBindsElement | src/php/DataSift/WebDriver1/WebDriverHelperContainer.php:51-64 | by default the call is the synchronous `execute`, and a script `a{{ELEMENT}}b` is sent with `arguments[0]` in the placeholder's place |
| WebDriverHelpers.ExecuteRequest | src/php/DataSift/WebDriver1/WebDriverHelperContainer.php:51-64 | the command and body `executeJsOnXpath` sends; `ExecuteRequestBody` and `ExecuteRequestBindsElement` state the command choice, the bound script and the single element argument |
| WebDriverHelpers.ExecuteRequestBody | src/php/DataSift/WebDriver1/WebDriverHelperContainer.php:51-64 | `execute` iff synchronous, `execute_async` otherwise; the script has no placeholder left; the only argument is the element reference |
| WebDriverHelpers.EscapeQuotesAsWrittenPlain | src/php/DataSift/WebDriver1/WebDriverHelperContainer.php:235-275 | for values with no backslash and no line break, the escaping as written reads back as the value in the script's string literal |
| WebDriverHelpers.EscapeQuotesAsWritten | src/php/DataSift/WebDriver1/WebDriverHelperContainer.php:235 | the escaping as written (only `"`); the lemmas named `EscapeQuotesAsWritten…` state where it is right and the inputs where it is not |
| WebDriverHelpers.EscapeQuotesAsWrittenNoQuote | src/php/DataSift/WebDriver1/WebDriverHelperContainer.php:235 | as written, a value with no double quote is placed in the script unchanged |
| WebDriverHelpers.EscapeQuotesAsWrittenTrailingBackslash | src/php/DataSift/WebDriver1/WebDriverHelperContainer.php:235-275 | as written, the value `a\` leaves the string literal unterminated |
| WebDriverHelpers.EscapeQuotesAsWrittenBackslashN | src/php/DataSift/WebDriver1/WebDriverHelperContainer.php:235-275 | as written, the two-character value backslash, n reads back as a single line feed |
| WebDriverHelpers.EscapeForJsStringRoundTrip | src/php/DataSift/WebDriver1/WebDriverHelperContainer.php:235-275 | the corrected escaping reads back as exactly the value, for every value |
| WebDriverHelpers.EscapeForJsString | src/php/DataSift/WebDriver1/WebDriverHelperContainer.php:235 | the corrected escaping grows each character to one or two; `EscapeForJsStringRoundTrip` states that the literal reads back as the value |

## Left out

- The network: `curl_init`, `curl_exec` and `curl_getinfo` are one function value (`respond`), and their requests are kept in a ghost log. The `echo` trace in `__call` is not modelled.
- `json_encode`, `json_decode`, `urlencode` and `parse_url` are function values or already-decoded inputs, not implementations.
- WireProtocol.DecodeEnvelope: statuses that are strings, floats or arrays, and a decoded body that is a bare string, are excluded by `StatusModelled`. PHP's loose `!= 0` on those depends on numeric-string rules that are not modelled.
- WireProtocol.PlanCall: the verb-prefixed branch of `__call` reads an undefined variable and calls `in_array` on a non-array. It is modelled as always failing, with the message PHP builds then (the verb, and an empty command name); the notices PHP raises on the way are not modelled.
- Exceptions.Instantiate: integers are unbounded. A numeric string beyond the 64-bit range, which PHP reads as a float and then refuses or converts, is converted exactly by `LongOf`; NaN and infinite values do not arise. A string with a fraction or an exponent is read by PHP as a double and rounded before it is truncated; `LongOf` truncates the exact decimal instead, so "2.9999999999999999999" gives 2 where PHP gives 3, and "9223372036854775807.5", which PHP rounds to 2^63 and refuses, gives 9223372036854775807.
- WebDriverElements.GetElementPath: `preg_replace` is modelled as a literal suffix replacement, including PCRE's `$` before a final newline. Ids holding regex metacharacters, empty ids and `$n` back-references in the new id are not modelled.
- WebDriverElements.HasClass: `in_array` compares loosely; the model compares strings exactly, so numeric-string matches such as "1" and "01" are not modelled.
- WebDriverElements.Keystrokes: `$text{$i}` reads bytes; the model splits by character, so multibyte characters are not split into bytes.
- WebDriverElements.TypeSpecial: no escaping is modelled, as the source does none.
- `getID` is the `id` field of `WebDriverContainers.Element`, which never changes once built.
- `WebDriverSession::getElementPath` is not part of this model; a container's path function is the parameter `pathOf`.
- BrowserMobProxy.BrowserMobProxySession.GetHAR: the `HttpArchive` that wraps the response is not part of this model; the raw response is returned.
- BrowserMobProxy.BrowserMobProxySession.SetHeaders: the `(object)` cast of the headers is not modelled; the headers value is sent as given.
- `BrowserMobProxyBase` (its `curl` and `requireFeature`) is not part of this model: the transport is a function value and the features are a set.
- The browser-side JavaScript of the helpers, `wait` (clock and sleep) and `dragTo` (floating-point halves) are not modelled. The session round trips made by `getText`, `getAttribute` and `getValue` are not modelled either; only the PHP post-processing is.
- WebDriverHelpers.JsStringBody: only the escapes `\\`, `\"`, `\n` and `\r` are decoded; other escapes count as unreadable.
- WebDriverKeys, WebDriverConfiguration (file I/O), Actions and CurrentPageActions have no modelled behaviour.

## Findings

| source | as written | input that shows it | evidently intended | confidence | as-written member | corrected member |
|---|---|---|---|---|---|---|
| src/php/DataSift/WebDriver/WebDriverContainer.php:46-55 | the re-raise passes (text, results) to a constructor taking (code, message, results), so the text lands in the integer code slot and PHP 7's `Exception` constructor raises an engine `Error` instead | any no-such-element error | code kept, the text as message, the server's results kept | high, not executed | WebDriverContainers.ReRaiseAsWritten (with WebDriverContainers.ReRaiseAsWrittenFails and WebDriverContainers.SearchAsWrittenOutcome) | WebDriverContainers.ReRaise (with WebDriverContainers.SearchIntendedOutcome) |
| src/php/DataSift/WebDriver1/WebDriverHelperContainer.php:235 | only `"` is escaped before the value is placed inside a JavaScript string literal | value `a\` (literal unterminated); the value backslash, n (reads back as a line feed) | every value reads back unchanged in the literal | high, not executed | WebDriverHelpers.EscapeQuotesAsWritten (with WebDriverHelpers.EscapeQuotesAsWrittenTrailingBackslash and WebDriverHelpers.EscapeQuotesAsWrittenBackslashN) | WebDriverHelpers.EscapeForJsString (with WebDriverHelpers.EscapeForJsStringRoundTrip) |
