/** The errors the client raises: the WebDriverException record that every
    remote error class shares, the closed set of those classes, and the
    other exceptions the modelled code throws. */
module Exceptions {
  import opened PhpValues

  /** One constructor per `*WebDriverError` class the status table names,
      plus the fallback `UnknownWebDriverError`. */
  datatype ErrorKind =
    | IndexOutOfBounds | NoCollection | NoString | NoStringLength
    | NoStringWrapper | NoSuchDriver | NoSuchElement | NoSuchFrame
    | UnknownCommand | ObsoleteElement | ElementNotDisplayed
    | InvalidElementState | Unhandled | Expected | ElementNotSelectable
    | NoSuchDocument | UnexpectedJavascript | NoScriptResult | XPathLookup
    | NoSuchCollection | TimeOut | NullPointer | NoSuchWindow
    | InvalidCookieDomain | UnableToSetCookie | UnexpectedAlertOpen
    | NoAlertOpen | ScriptTimeout | InvalidElementCoordinates
    | IMENotAvailable | IMEEngineActivationFailed | InvalidSelector
    | SessionNotCreated | MoveTargetOutOfBounds
    | UnknownWebDriverError

  const Namespace: string := "DataSift\\WebDriver\\"

  /** The unqualified PHP class name of each kind. */
  function ClassName(k: ErrorKind): string {
    match k
    case IndexOutOfBounds => "IndexOutOfBoundsWebDriverError"
    case NoCollection => "NoCollectionWebDriverError"
    case NoString => "NoStringWebDriverError"
    case NoStringLength => "NoStringLengthWebDriverError"
    case NoStringWrapper => "NoStringWrapperWebDriverError"
    case NoSuchDriver => "NoSuchDriverWebDriverError"
    case NoSuchElement => "NoSuchElementWebDriverError"
    case NoSuchFrame => "NoSuchFrameWebDriverError"
    case UnknownCommand => "UnknownCommandWebDriverError"
    case ObsoleteElement => "ObsoleteElementWebDriverError"
    case ElementNotDisplayed => "ElementNotDisplayedWebDriverError"
    case InvalidElementState => "InvalidElementStateWebDriverError"
    case Unhandled => "UnhandledWebDriverError"
    case Expected => "ExpectedWebDriverError"
    case ElementNotSelectable => "ElementNotSelectableWebDriverError"
    case NoSuchDocument => "NoSuchDocumentWebDriverError"
    case UnexpectedJavascript => "UnexpectedJavascriptWebDriverError"
    case NoScriptResult => "NoScriptResultWebDriverError"
    case XPathLookup => "XPathLookupWebDriverError"
    case NoSuchCollection => "NoSuchCollectionWebDriverError"
    case TimeOut => "TimeOutWebDriverError"
    case NullPointer => "NullPointerWebDriverError"
    case NoSuchWindow => "NoSuchWindowWebDriverError"
    case InvalidCookieDomain => "InvalidCookieDomainWebDriverError"
    case UnableToSetCookie => "UnableToSetCookieWebDriverError"
    case UnexpectedAlertOpen => "UnexpectedAlertOpenWebDriverError"
    case NoAlertOpen => "NoAlertOpenWebDriverError"
    case ScriptTimeout => "ScriptTimeoutWebDriverError"
    case InvalidElementCoordinates => "InvalidElementCoordinatesWebDriverError"
    case IMENotAvailable => "IMENotAvailableWebDriverError"
    case IMEEngineActivationFailed => "IMEEngineActivationFailedWebDriverError"
    case InvalidSelector => "InvalidSelectorWebDriverError"
    case SessionNotCreated => "SessionNotCreatedWebDriverError"
    case MoveTargetOutOfBounds => "MoveTargetOutOfBoundsWebDriverError"
    case UnknownWebDriverError => "UnknownWebDriverError"
  }

  /** The fully qualified class name that `new $className(...)` instantiates. */
  function QualifiedClassName(k: ErrorKind): string {
    Namespace + ClassName(k)
  }

  /** A WebDriverException: the kind (its class), the two slots PHP's
      Exception keeps (the integer code and the message) and the private
      `results`. No member changes a field after construction. */
  datatype WebDriverException =
    WebDriverException(kind: ErrorKind, code: int, message: Value, results: Value)

  /** The exception `new <Kind>($code, $message, $results = null)` builds
      once PHP has accepted its arguments: `code` is the integer PHP made of
      the first argument, the second is the message, and the optional
      third, null when omitted, the results that `getResults()` hands back. */
  function NewWebDriverException(kind: ErrorKind, code: int, message: Value, results: Value := Null)
    : (e: WebDriverException)
    ensures e.kind == kind
    ensures GetCode(e) == code && e.message == message
    ensures GetResults(e) == results
  {
    WebDriverException(kind, code, message, results)
  }

  /** `getResults()` */
  function GetResults(e: WebDriverException): Value {
    e.results
  }

  /** `getCode()` */
  function GetCode(e: WebDriverException): int {
    e.code
  }

  /** `getMessage()`: the message slot as a string. */
  function GetMessage(e: WebDriverException): string {
    PhpString(e.message)
  }

  /** Everything the modelled code throws. */
  datatype Thrown =
    | PlainException(text: string)             // new Exception(...)
    | CurlException(text: string)              // WebDriverCurlException
    | WebDriverError(error: WebDriverException)
    | ClosedSession                            // BrowserMobProxyClosedSessionException
    | FeatureUnavailable(feature: string)      // raised by BrowserMobProxyBase::requireFeature
    | EngineError(text: string)                // PHP's own Error, raised by the engine

  // ------------------------------------------------------------------
  // The `long $code` parameter: which values it takes, and the integer
  // it makes of them
  // ------------------------------------------------------------------

  /** The characters PHP skips before a number in a numeric string. */
  predicate NumericBlank(c: char) {
    c == ' ' || c == '\t' || c == '\n' || c == '\r' || c == 11 as char || c == 12 as char
  }

  predicate IsDigit(c: char) {
    '0' <= c <= '9'
  }

  /** Whether PHP 7 reads a number at the start of `s`: after blanks and an
      optional sign, a digit, or a dot followed by a digit. Trailing text
      after the number is tolerated (with a notice). */
  predicate NumericPrefix(s: string) {
    if s != [] && NumericBlank(s[0]) then NumericPrefix(s[1..])
    else
      var u := if s != [] && (s[0] == '+' || s[0] == '-') then s[1..] else s;
      (u != [] && IsDigit(u[0])) || (|u| >= 2 && u[0] == '.' && IsDigit(u[1]))
  }

  predicate AllDigits(d: string) {
    forall i :: 0 <= i < |d| ==> IsDigit(d[i])
  }

  /** The longest run of digits at the start of `s`. */
  function LeadingDigits(s: string): (d: string)
    ensures d <= s && AllDigits(d)
    ensures |d| < |s| ==> !IsDigit(s[|d|])
  {
    if s != [] && IsDigit(s[0]) then [s[0]] + LeadingDigits(s[1..]) else []
  }

  /** The number a run of decimal digits writes. */
  function DigitsValue(d: string): nat
    requires AllDigits(d)
  {
    if d == [] then 0 else 10 * DigitsValue(d[..|d| - 1]) + (d[|d| - 1] as int - '0' as int)
  }

  function Pow10(n: nat): (p: nat)
    ensures p >= 1
  {
    if n == 0 then 1 else 10 * Pow10(n - 1)
  }

  /** The exponent (`e12`, `E-3`, `e+4`) at the start of `s`, 0 when none. */
  function ExponentOf(s: string): int {
    if |s| >= 2 && (s[0] == 'e' || s[0] == 'E') then
      var ds := LeadingDigits(if s[1] == '+' || s[1] == '-' then s[2..] else s[1..]);
      var e: int := if ds == [] then 0 else DigitsValue(ds);
      if s[1] == '-' then -e else e
    else 0
  }

  /** `all` times ten to the power `scale`, truncated toward zero. */
  function Scaled(all: int, scale: int): int {
    if scale >= 0 then all * Pow10(scale) else all / Pow10(-scale)
  }

  /** The unsigned number at the start of `u` (digits, an optional
      fraction, an optional exponent), truncated toward zero. */
  function Magnitude(u: string): int {
    var ip := LeadingDigits(u);
    var rest := u[|ip|..];
    if rest != [] && rest[0] == '.' then
      var fp := LeadingDigits(rest[1..]);
      Scaled(DigitsValue(ip) * Pow10(|fp|) + DigitsValue(fp), ExponentOf(rest[1 + |fp|..]) - |fp|)
    else Scaled(DigitsValue(ip), ExponentOf(rest))
  }

  /** The integer PHP 7 makes of a numeric string for a `long` parameter:
      blanks skipped, the sign applied, the number truncated toward zero. */
  function LongOfString(s: string): int
    decreases |s|
  {
    if s != [] && NumericBlank(s[0]) then LongOfString(s[1..])
    else if s != [] && s[0] == '-' then 0 - Magnitude(s[1..])
    else if s != [] && s[0] == '+' then Magnitude(s[1..])
    else Magnitude(s)
  }

  /** What the `long $code` parameter of PHP 7's Exception constructor
      accepts in weak mode: null, a boolean, an integer, or a string that
      starts with a number. */
  predicate AcceptedAsCode(v: Value) {
    match v
    case Str(s) => NumericPrefix(s)
    case Arr(_) => false
    case _ => true
  }

  /** The integer an accepted code is stored as: null and false are 0,
      true is 1, a string gives the number it starts with. */
  function LongOf(v: Value): int
    requires AcceptedAsCode(v)
  {
    match v
    case Null => 0
    case Bool(b) => if b then 1 else 0
    case Int(n) => n
    case Str(s) => LongOfString(s)
  }

  /** Every integer, written out as PHP writes it, is accepted as a code
      and read back as itself. */
  lemma LongOfDecimal(n: int)
    ensures AcceptedAsCode(Str(IntToString(n)))
    ensures LongOf(Str(IntToString(n))) == n
  {
    var m := if n < 0 then -n else n;
    var d := NatToString(m);
    DecimalDigits(m, []);
    assert d + [] == d;
    if n < 0 {
      var s := IntToString(n);
      assert s == "-" + d && s[1..] == d;
      assert LongOfString(s) == 0 - Magnitude(d);
    }
  }

  /** A code that starts with an integer and goes on with text that cannot
      continue a number (`"12abc"`) is accepted and stored as that integer. */
  lemma LongOfTrailingText(n: nat, t: string)
    requires t == [] || !(IsDigit(t[0]) || t[0] == '.' || t[0] == 'e' || t[0] == 'E')
    ensures AcceptedAsCode(Str(NatToString(n) + t))
    ensures LongOf(Str(NatToString(n) + t)) == n
  {
    DecimalDigits(n, t);
  }

  /** The digits of `n` followed by text that starts with no digit, a
      dot or an exponent: the string reads as a number, and that number
      is `n`. */
  lemma DecimalDigits(n: nat, t: string)
    requires t == [] || !(IsDigit(t[0]) || t[0] == '.' || t[0] == 'e' || t[0] == 'E')
    ensures NatToString(n) != [] && IsDigit(NatToString(n)[0])
    ensures NumericPrefix(NatToString(n) + t)
    ensures Magnitude(NatToString(n) + t) == n
  {
    var d := NatToString(n);
    DecimalIsDigits(n);
    IntegerMagnitude(d, t);
    assert (d + t)[0] == d[0];
  }

  /** A run of digits followed by text that cannot continue a number
      reads as the value of the digits. */
  lemma IntegerMagnitude(d: string, t: string)
    requires AllDigits(d)
    requires t == [] || !(IsDigit(t[0]) || t[0] == '.' || t[0] == 'e' || t[0] == 'E')
    ensures Magnitude(d + t) == DigitsValue(d)
  {
    LeadingDigitsOfNumber(d, t);
    assert (d + t)[|d|..] == t;
    assert ExponentOf(t) == 0;
  }

  lemma {:induction false} DecimalIsDigits(n: nat)
    ensures NatToString(n) != [] && AllDigits(NatToString(n))
    ensures DigitsValue(NatToString(n)) == n
    decreases n
  {
    var d := NatToString(n);
    if n >= 10 {
      DecimalIsDigits(n / 10);
      assert d[..|d| - 1] == NatToString(n / 10);
    }
  }

  lemma {:induction false} LeadingDigitsOfNumber(d: string, t: string)
    requires AllDigits(d)
    requires t == [] || !IsDigit(t[0])
    ensures LeadingDigits(d + t) == d
    decreases |d|
  {
    if d == [] {
      assert d + t == t;
    } else {
      assert (d + t)[1..] == d[1..] + t;
      LeadingDigitsOfNumber(d[1..], t);
      assert d == [d[0]] + d[1..];
    }
  }

  /** What its `string $message` parameter accepts: anything but an array. */
  predicate AcceptedAsMessage(v: Value) {
    !v.Arr?
  }

  /** The text of the Error PHP 7's Exception constructor throws when it
      cannot parse its arguments. */
  function WrongParameters(k: ErrorKind): string {
    "Wrong parameters for " + QualifiedClassName(k)
      + "([string $message [, long $code [, Throwable $previous = NULL]]])"
  }

  /** `throw new <Kind>($code, $message, $results)` as PHP 7 runs it:
      WebDriverException's constructor passes ($message, $code) on to
      Exception's, which raises an engine Error instead of building the
      exception unless the code reads as an integer and the message as a
      string; the exception stores the integer. */
  function Instantiate(kind: ErrorKind, code: Value, message: Value, results: Value := Null): (t: Thrown)
    ensures t.WebDriverError? || t.EngineError?
    ensures t.WebDriverError? <==> AcceptedAsCode(code) && AcceptedAsMessage(message)
    ensures t.WebDriverError? ==> t.error == NewWebDriverException(kind, LongOf(code), message, results)
    ensures t.EngineError? ==> t.text == WrongParameters(kind)
  {
    if AcceptedAsCode(code) && AcceptedAsMessage(message) then
      WebDriverError(NewWebDriverException(kind, LongOf(code), message, results))
    else EngineError(WrongParameters(kind))
  }

  /** `getCode()` is always an integer: a `true` code is 1 and an integer
      code is kept. */
  lemma InstantiateConvertsCode(kind: ErrorKind, message: string, results: Value, n: int)
    ensures GetCode(Instantiate(kind, Bool(true), Str(message), results).error) == 1
    ensures GetCode(Instantiate(kind, Int(n), Str(message), results).error) == n
  {
  }

  /** A string code is read as the number it starts with: an integer
      written out reads back as itself, and `"12abc"` gives 12. */
  lemma InstantiateReadsNumber(kind: ErrorKind, message: string, results: Value, n: int, m: nat, t: string)
    requires t == [] || !(IsDigit(t[0]) || t[0] == '.' || t[0] == 'e' || t[0] == 'E')
    ensures var x := Instantiate(kind, Str(IntToString(n)), Str(message), results);
      x.WebDriverError? && GetCode(x.error) == n
    ensures var x := Instantiate(kind, Str(NatToString(m) + t), Str(message), results);
      x.WebDriverError? && GetCode(x.error) == m
  {
    LongOfDecimal(n);
    ReadsAccepted(kind, Str(IntToString(n)), message, results);
    LongOfTrailingText(m, t);
    ReadsAccepted(kind, Str(NatToString(m) + t), message, results);
  }

  lemma ReadsAccepted(kind: ErrorKind, code: Value, message: string, results: Value)
    requires AcceptedAsCode(code)
    ensures var x := Instantiate(kind, code, Str(message), results);
      x.WebDriverError? && GetCode(x.error) == LongOf(code)
  {
  }

  /** A code that starts with a letter is refused, whatever the message:
      the exception is never built. */
  lemma InstantiateRefusesText(kind: ErrorKind, code: string, message: Value, results: Value)
    requires code != [] && ('A' <= code[0] <= 'Z' || 'a' <= code[0] <= 'z')
    ensures Instantiate(kind, Str(code), message, results) == EngineError(WrongParameters(kind))
  {
    LetterStartsNoNumber(code);
    var t := Instantiate(kind, Str(code), message, results);
    assert t.EngineError? && t.text == WrongParameters(kind);
  }

  lemma LetterStartsNoNumber(s: string)
    requires s != [] && ('A' <= s[0] <= 'Z' || 'a' <= s[0] <= 'z')
    ensures !NumericPrefix(s)
  {
    assert !NumericBlank(s[0]) && s[0] != '+' && s[0] != '-' && s[0] != '.' && !IsDigit(s[0]);
  }
}
