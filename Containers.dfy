/** WebDriverContainer: searching for one element or for every element that
    matches, and wrapping the server's element records as elements.

    A container is anything addressed by a URL that can be searched (a
    session or an element); how a container builds the URL of an element
    it found is its own `getElementPath`, passed here as `pathOf`. */
module WebDriverContainers {
  import opened PhpValues
  import opened Exceptions
  import opened WireProtocol

  /** A WebDriverElement: the URL of its resource and the id the server
      gave it. Neither changes once the element exists. */
  datatype Element = Element(url: string, id: Value)

  /** `webDriverElement($value)`: an element only when the record is an
      array holding an `ELEMENT` key (even one whose value is null), with
      that value as id and the container's path for it as URL. */
  function WebDriverElement(value: Value, pathOf: Value -> string): (e: Option<Element>)
    ensures e.Some? <==> value.Arr? && HasKey(value, "ELEMENT")
    ensures e.Some? ==> e.value.id == Get(value, "ELEMENT") && e.value.url == pathOf(e.value.id)
  {
    if HasKey(value, "ELEMENT") then Some(Element(pathOf(Get(value, "ELEMENT")), Get(value, "ELEMENT")))
    else None
  }

  /** `array_filter(array_map(webDriverElement, $entries))`: keys are kept,
      records that are not elements are dropped, order is kept. */
  function FilterElements(entries: seq<(Key, Value)>, pathOf: Value -> string): (r: seq<(Key, Element)>)
    ensures |r| <= |entries|
    ensures forall j :: 0 <= j < |r| ==> r[j].1.url == pathOf(r[j].1.id)
    decreases |entries|
  {
    if entries == [] then []
    else
      var rest := FilterElements(entries[1..], pathOf);
      match WebDriverElement(entries[0].1, pathOf)
      case Some(e) => [(entries[0].0, e)] + rest
      case None => rest
  }

  /** Filtering distributes over concatenation, so it works entry by entry. */
  lemma {:induction false} FilterElementsAppend(a: seq<(Key, Value)>, b: seq<(Key, Value)>, pathOf: Value -> string)
    ensures FilterElements(a + b, pathOf) == FilterElements(a, pathOf) + FilterElements(b, pathOf)
    decreases |a|
  {
    if a == [] {
      assert a + b == b;
    } else {
      assert (a + b)[0] == a[0] && (a + b)[1..] == a[1..] + b;
      FilterElementsAppend(a[1..], b, pathOf);
    }
  }

  /** An entry survives exactly when it came from an element record under
      the same key, and no more entries come out than went in. */
  lemma {:induction false} FilterElementsMembers(entries: seq<(Key, Value)>, pathOf: Value -> string, k: Key, e: Element)
    ensures |FilterElements(entries, pathOf)| <= |entries|
    ensures (k, e) in FilterElements(entries, pathOf) <==>
      exists i :: 0 <= i < |entries| && entries[i].0 == k && WebDriverElement(entries[i].1, pathOf) == Some(e)
    decreases |entries|
  {
    if entries != [] {
      FilterElementsMembers(entries[1..], pathOf, k, e);
      var tail := entries[1..];
      assert forall i :: 1 <= i < |entries| ==> entries[i] == tail[i - 1];
      if (exists i :: 0 <= i < |entries| && entries[i].0 == k && WebDriverElement(entries[i].1, pathOf) == Some(e)) {
        var i :| 0 <= i < |entries| && entries[i].0 == k && WebDriverElement(entries[i].1, pathOf) == Some(e);
        if i > 0 {
          assert tail[i - 1].0 == k && WebDriverElement(tail[i - 1].1, pathOf) == Some(e);
        }
      }
    }
  }

  /** What `elements()` returns for the server's `value`: the filtered
      elements of an array, and null (None) for anything else, where
      array_map and array_filter both give up. */
  function DecodeElements(value: Value, pathOf: Value -> string): (r: Option<seq<(Key, Element)>>)
    ensures r.Some? <==> value.Arr?
  {
    if value.Arr? then Some(FilterElements(value.entries, pathOf)) else None
  }

  /** The body both searches POST. */
  function SearchParams(using: string, value: string): Value {
    Assoc([("using", Str(using)), ("value", Str(value))])
  }

  function NotFoundText(using: string, value: string, e: WebDriverException): string {
    "Element not found with " + using + ", " + value + "\n\n" + GetMessage(e)
  }

  /** The re-raise in `element()` and `elements()` as written: the text is
      passed where WebDriverException expects the code and the results
      where it expects the message, so PHP's Exception constructor is handed
      the text as its integer code. */
  function ReRaiseAsWritten(e: WebDriverException, using: string, value: string): Thrown {
    Instantiate(NoSuchElement, Str(NotFoundText(using, value, e)), GetResults(e))
  }

  /** Whatever error was caught, the re-raise as written never builds a
      NoSuchElementWebDriverError: the text starts with a letter, which
      PHP 7 refuses as an integer code, so the engine raises an Error. */
  lemma ReRaiseAsWrittenFails(e: WebDriverException, using: string, value: string)
    ensures ReRaiseAsWritten(e, using, value) == EngineError(WrongParameters(NoSuchElement))
  {
    var text := NotFoundText(using, value, e);
    assert text[0] == 'E';
    InstantiateRefusesText(NoSuchElement, text, GetResults(e), Null);
  }

  /** The re-raise as intended: the same class and code, a message that
      names the search and then quotes the server's message, and the
      server's results. */
  function ReRaise(e: WebDriverException, using: string, value: string): (x: WebDriverException)
    ensures x.kind == NoSuchElement && GetCode(x) == GetCode(e) && GetResults(x) == GetResults(e)
    ensures "Element not found with " + using + ", " + value <= GetMessage(x)
    ensures |GetMessage(x)| >= |GetMessage(e)|
    ensures GetMessage(x)[|GetMessage(x)| - |GetMessage(e)|..] == GetMessage(e)
  {
    var text := NotFoundText(using, value, e);
    assert text == "Element not found with " + using + ", " + value + ("\n\n" + GetMessage(e));
    NewWebDriverException(NoSuchElement, GetCode(e), Str(text), GetResults(e))
  }

  /** The `try ... catch (NoSuchElementWebDriverError $e)` around a search,
      with the handler's re-raise as a parameter: only a no-such-element
      error is handed to it, everything else propagates untouched, and a
      successful answer is decoded. */
  function Caught<T>(outcome: Result<CurlResult, Thrown>, decode: Value -> T, reRaise: WebDriverException -> Thrown)
    : (r: Result<T, Thrown>)
    ensures outcome.Ok? ==> r == Ok(decode(outcome.value.value))
    ensures outcome.Err? && !(outcome.error.WebDriverError? && outcome.error.error.kind == NoSuchElement) ==>
      r == Err(outcome.error)
    ensures outcome.Err? && outcome.error.WebDriverError? && outcome.error.error.kind == NoSuchElement ==>
      r == Err(reRaise(outcome.error.error))
  {
    match outcome
    case Ok(res) => Ok(decode(res.value))
    case Err(thrown) =>
      if thrown.WebDriverError? && thrown.error.kind == NoSuchElement then
        Err(reRaise(thrown.error))
      else Err(thrown)
  }

  /** As written, a search never raises a NoSuchElementWebDriverError: a
      server's no-such-element answer ends in PHP's engine Error, and the
      other errors pass through as they came. */
  lemma SearchAsWrittenOutcome<T>(outcome: Result<CurlResult, Thrown>, decode: Value -> T, using: string, value: string)
    ensures var r := Caught(outcome, decode, e => ReRaiseAsWritten(e, using, value));
      && !(r.Err? && r.error.WebDriverError? && r.error.error.kind == NoSuchElement)
      && (outcome.Err? && outcome.error.WebDriverError? && outcome.error.error.kind == NoSuchElement ==>
            r == Err(EngineError(WrongParameters(NoSuchElement))))
  {
    if outcome.Err? && outcome.error.WebDriverError? && outcome.error.error.kind == NoSuchElement {
      ReRaiseAsWrittenFails(outcome.error.error, using, value);
    }
  }

  /** As intended, a no-such-element answer is re-raised as a
      NoSuchElementWebDriverError that keeps the server's code and results
      and whose message starts with the search description. */
  lemma SearchIntendedOutcome<T>(outcome: Result<CurlResult, Thrown>, decode: Value -> T, using: string, value: string)
    requires outcome.Err? && outcome.error.WebDriverError? && outcome.error.error.kind == NoSuchElement
    ensures var r := Caught(outcome, decode, e => WebDriverError(ReRaise(e, using, value)));
      && r.Err? && r.error.WebDriverError? && r.error.error.kind == NoSuchElement
      && GetCode(r.error.error) == GetCode(outcome.error.error)
      && GetResults(r.error.error) == GetResults(outcome.error.error)
      && "Element not found with " + using + ", " + value <= GetMessage(r.error.error)
  {
  }

  /** Both searches send exactly one request, a POST of the JSON-encoded
      strategy and term to `<container>/element` or `<container>/elements`. */
  lemma SearchRequest(base: string, command: string, using: string, value: string,
                      encode: Value -> string, respond: CurlOptions -> Reply)
    requires forall o :: StatusModelled(respond(o).results)
    ensures var x := Exchange(base, "POST", command, SearchParams(using, value), [], encode, respond);
      && |x.0| == 1
      && x.0[0][OptUrl] == Str(base + command)
      && OptPost in x.0[0]
      && OptPostFields in x.0[0] && x.0[0][OptPostFields] == Str(encode(SearchParams(using, value)))
  {
    var params := SearchParams(using, value);
    assert Truthy(params) && params.Arr?;
  }

  /** `element($using, $value)` on a container at `base`. */
  method FindElement(conn: WebDriverConnection, base: string, using: string, value: string, pathOf: Value -> string)
    returns (r: Result<Option<Element>, Thrown>)
    requires conn.Valid()
    modifies conn`sent
    ensures var x := Exchange(base, "POST", "/element", SearchParams(using, value), [], conn.encode, conn.respond);
      && conn.sent == old(conn.sent) + x.0
      && r == Caught(x.1, v => WebDriverElement(v, pathOf), e => ReRaiseAsWritten(e, using, value))
  {
    var results := conn.Curl(base, "POST", "/element", SearchParams(using, value), []);
    if results.Err? {
      if results.error.WebDriverError? && results.error.error.kind == NoSuchElement {
        return Err(ReRaiseAsWritten(results.error.error, using, value));
      }
      return Err(results.error);
    }
    return Ok(WebDriverElement(results.value.value, pathOf));
  }

  /** `elements($using, $value)` on a container at `base`. */
  method FindElements(conn: WebDriverConnection, base: string, using: string, value: string, pathOf: Value -> string)
    returns (r: Result<Option<seq<(Key, Element)>>, Thrown>)
    requires conn.Valid()
    modifies conn`sent
    ensures var x := Exchange(base, "POST", "/elements", SearchParams(using, value), [], conn.encode, conn.respond);
      && conn.sent == old(conn.sent) + x.0
      && r == Caught(x.1, v => DecodeElements(v, pathOf), e => ReRaiseAsWritten(e, using, value))
  {
    var results := conn.Curl(base, "POST", "/elements", SearchParams(using, value), []);
    if results.Err? {
      if results.error.WebDriverError? && results.error.error.kind == NoSuchElement {
        return Err(ReRaiseAsWritten(results.error.error, using, value));
      }
      return Err(results.error);
    }
    return Ok(DecodeElements(results.value.value, pathOf));
  }
}
