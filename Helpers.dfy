/** WebDriverHelperContainer: the PHP-side post-processing around the
    scripts the helpers run in the browser: decoding the tagged result of
    the getValue script, flattening line breaks in text, the empty
    attribute, the element placeholder in scripts, and the quoting of an
    option value spliced into a script. */
module WebDriverHelpers {
  import opened PhpValues

  // ------------------------------------------------------------------
  // getValue: the `string:` / `boolean:` / `array:` tags
  // ------------------------------------------------------------------

  /** Position i starts a line of s (what `^` matches under `/m`). */
  predicate LineStart(s: string, i: int) {
    i == 0 || (0 < i <= |s| && s[i - 1] == '\n')
  }

  /** The leftmost position at or after `from` that starts a line and
      begins with `p`. */
  function FindAtLineStart(s: string, p: string, from: nat): (r: Option<nat>)
    requires from <= |s|
    ensures r.Some? ==> from <= r.value <= |s| && LineStart(s, r.value) && p <= s[r.value..]
    ensures forall j :: from <= j <= |s| && (r.None? || j < r.value) ==> !(LineStart(s, j) && p <= s[j..])
    decreases |s| - from
  {
    if LineStart(s, from) && p <= s[from..] then Some(from)
    else if from == |s| then None
    else FindAtLineStart(s, p, from + 1)
  }

  /** `preg_match('/^string:(.*)$/ms', $s)`: the tag may start any line,
      and the capture runs to the end of the subject, newlines included. */
  function StringCapture(s: string): (r: Option<string>)
    ensures r.Some? ==>
      var i := |s| - |r.value| - 7;
      && 0 <= i && LineStart(s, i) && s[i..] == "string:" + r.value
      && forall j :: 0 <= j < i ==> !(LineStart(s, j) && "string:" <= s[j..])
    ensures r.None? ==> forall j :: 0 <= j <= |s| ==> !(LineStart(s, j) && "string:" <= s[j..])
  {
    match FindAtLineStart(s, "string:", 0)
    case Some(i) =>
      assert s[i..] == "string:" + s[i + 7..];
      Some(s[i + 7..])
    case None => None
  }

  /** `preg_match('/^<tag>(.*)$/', $s)`: the tag starts the subject and the
      capture is the rest of it, which may hold no newline except a final
      one, which is not captured. */
  function SingleLineCapture(s: string, tag: string): (r: Option<string>)
    ensures r.Some? ==> '\n' !in r.value && tag <= s
    ensures r.Some? ==> s == tag + r.value || s == tag + r.value + "\n"
  {
    if !(tag <= s) then None
    else
      var rest := s[|tag|..];
      assert s == tag + rest;
      if '\n' !in rest then Some(rest)
      else if rest[|rest| - 1] == '\n' && '\n' !in rest[..|rest| - 1] then
        assert rest == rest[..|rest| - 1] + "\n";
        Some(rest[..|rest| - 1])
      else None
  }

  /** The characters `trim` strips. */
  predicate TrimmedAway(c: char) {
    c == ' ' || c == '\t' || c == '\n' || c == '\r' || c == '\0' || c == 11 as char
  }

  /** `'' === trim($x)` */
  predicate TrimsToEmpty(x: string) {
    forall i :: 0 <= i < |x| ==> TrimmedAway(x[i])
  }

  function Strs(parts: seq<string>): seq<Value> {
    seq(|parts|, i requires 0 <= i < |parts| => Str(parts[i]))
  }

  /** What getValue returns for the script's result: null for a falsy
      result; the rest of the subject after a `string:` tag at the start
      of any line; a boolean for `boolean:x`, true exactly when x reads
      "true" in any case; for `array:x`, no items when x is blank and the
      comma-separated items otherwise; null when nothing matches. */
  function DecodeScriptValue(v: Value): (r: Value)
    ensures !Truthy(v) ==> r == Null
    ensures r.Null? || r.Str? || r.Bool? || r.Arr?
  {
    if !Truthy(v) then Null
    else
      var s := PhpString(v);
      match StringCapture(s)
      case Some(x) => Str(x)
      case None =>
        match SingleLineCapture(s, "boolean:")
        case Some(x) => Bool(Lower(x) == "true")
        case None =>
          match SingleLineCapture(s, "array:")
          case Some(x) => if TrimsToEmpty(x) then List([]) else List(Strs(Split(x, ',')))
          case None => Null
  }

  /** A subject with no newline has one line start, so a tag is found at
      a line start exactly when the subject begins with it. */
  lemma SingleLineFind(s: string, p: string)
    requires '\n' !in s
    ensures FindAtLineStart(s, p, 0) == if p <= s then Some(0) else None
  {
  }

  /** A one-line subject that starts with `tag` and not with `string:`
      yields the rest after the tag for `tag`, and no `string:` capture. */
  lemma TaggedLine(tag: string, x: string)
    requires '\n' !in tag && '\n' !in x && !("string:" <= tag + x)
    ensures StringCapture(tag + x) == None
    ensures SingleLineCapture(tag + x, tag) == Some(x)
  {
    var s := tag + x;
    assert '\n' !in s by {
      forall i | 0 <= i < |s| ensures s[i] != '\n' {
        if i < |tag| {
          assert s[i] == tag[i];
        } else {
          assert s[i] == x[i - |tag|];
        }
      }
    }
    SingleLineFind(s, "string:");
    assert s[..|tag|] == tag && s[|tag|..] == x;
  }

  /** Everything after a leading `string:` comes back, newlines included. */
  lemma DecodeTaggedString(x: string)
    ensures DecodeScriptValue(Str("string:" + x)) == Str(x)
  {
    var s := "string:" + x;
    assert s[..7] == "string:";
    assert s[7..] == x;
  }

  /** A one-line `boolean:x` decodes to whether x reads "true". */
  lemma DecodeTaggedBoolean(x: string)
    requires '\n' !in x
    ensures DecodeScriptValue(Str("boolean:" + x)) == Bool(Lower(x) == "true")
  {
    var s := "boolean:" + x;
    assert s[0] == 'b';
    TaggedLine("boolean:", x);
  }

  /** A one-line `array:x` decodes to no items when x is blank and to the
      comma-separated pieces of x otherwise. */
  lemma DecodeArrayTag(x: string)
    requires '\n' !in x
    ensures DecodeScriptValue(Str("array:" + x))
      == if TrimsToEmpty(x) then List([]) else List(Strs(Split(x, ',')))
  {
    var s := "array:" + x;
    assert s[0] == 'a';
    TaggedLine("array:", x);
    NotBooleanTag(s);
    assert Truthy(Str(s));
  }

  /** A subject that does not begin with `b` carries no `boolean:` tag. */
  lemma NotBooleanTag(s: string)
    requires |s| > 0 && s[0] != 'b'
    ensures SingleLineCapture(s, "boolean:") == None
  {
    assert !("boolean:" <= s);
  }

  /** A one-line `array:` list of comma-free items that is not blank
      decodes to exactly those items; a blank one decodes to no items. */
  lemma DecodeTaggedArray(items: seq<string>)
    requires |items| >= 1
    requires forall i :: 0 <= i < |items| ==> ',' !in items[i] && '\n' !in items[i]
    ensures var x := Join(items, ',');
      DecodeScriptValue(Str("array:" + x)) == if TrimsToEmpty(x) then List([]) else List(Strs(items))
  {
    JoinAvoids(items, ',', '\n');
    DecodeArrayTag(Join(items, ','));
    SplitJoin(items, ',');
  }

  /** A one-line result that carries none of the three tags is null. */
  lemma DecodeUntagged(v: Value)
    requires '\n' !in PhpString(v)
    requires !("string:" <= PhpString(v)) && !("boolean:" <= PhpString(v)) && !("array:" <= PhpString(v))
    ensures DecodeScriptValue(v) == Null
  {
    SingleLineFind(PhpString(v), "string:");
  }

  // ------------------------------------------------------------------
  // getText and getAttribute
  // ------------------------------------------------------------------

  /** `(string) str_replace(array("\r", "\r\n", "\n"), ' ', $text)`: the
      three searches run one after the other; an array subject comes
      back as an array, which the cast turns into "Array". */
  function NormalizeText(text: Value): string {
    if text.Arr? then "Array"
    else ReplaceAll(ReplaceAll(ReplaceAll(PhpString(text), "\r", " "), "\r\n", " "), "\n", " ")
  }

  /** Every carriage return and every line feed becomes one space and
      nothing else changes, so a "\r\n" pair becomes two spaces. */
  lemma NormalizeTextPointwise(text: Value)
    requires !text.Arr?
    ensures var s := PhpString(text);
      && |NormalizeText(text)| == |s|
      && forall i :: 0 <= i < |s| ==>
        NormalizeText(text)[i] == if s[i] == '\r' || s[i] == '\n' then ' ' else s[i]
  {
    var s := PhpString(text);
    var once := ReplaceAll(s, "\r", " ");
    ReplaceCharPointwise(s, '\r', ' ');
    assert '\r' !in once by {
      forall i | 0 <= i < |once| ensures once[i] != '\r' {
      }
    }
    ReplaceAbsent(once, "\r\n", " ");
    ReplaceCharPointwise(once, '\n', ' ');
  }

  lemma NormalizeTextCrLf()
    ensures NormalizeText(Str("a\r\nb")) == "a  b"
  {
    NormalizeTextPointwise(Str("a\r\nb"));
  }

  /** `getAttribute`: the empty string (compared strictly) becomes null;
      every other answer, null and "0" included, is returned unchanged. */
  function AttributeOrNull(attribute: Value): (r: Value)
    ensures r != Str("")
    ensures attribute != Str("") ==> r == attribute
    ensures attribute == Str("") ==> r == Null
  {
    if attribute != Str("") then attribute else Null
  }

  // ------------------------------------------------------------------
  // executeJsOnXpath: the element placeholder
  // ------------------------------------------------------------------

  const Placeholder: string := "{{ELEMENT}}"
  const FirstArgument: string := "arguments[0]"

  /** The script actually sent: every placeholder replaced by the first
      script argument. */
  function BindElement(script: string): string {
    ReplaceAll(script, Placeholder, FirstArgument)
  }

  /** No placeholder is left in a bound script, and a script with no `{`
      is sent as it is. */
  lemma BindElementComplete(script: string)
    ensures !Occurs(BindElement(script), Placeholder)
    ensures '{' !in script ==> BindElement(script) == script
  {
    assert Placeholder[0] == '{' && FirstArgument[0] == 'a';
    assert Placeholder[0] !in FirstArgument by {
      forall i | 0 <= i < |FirstArgument| ensures FirstArgument[i] != '{' {
      }
    }
    assert FirstArgument[0] !in Placeholder by {
      forall i | 0 <= i < |Placeholder| ensures Placeholder[i] != 'a' {
      }
    }
    ReplaceEliminates(script, Placeholder, FirstArgument);
    if '{' !in script {
      ReplaceAbsent(script, Placeholder, FirstArgument);
    }
  }

  /** A placeholder after plain text becomes the first argument, and
      the rest is bound in turn. */
  lemma BindElementStep(a: string, rest: string)
    requires '{' !in a
    ensures BindElement(a + Placeholder + rest) == a + FirstArgument + BindElement(rest)
  {
    assert Placeholder[0] == '{';
    ReplaceAfterPlain(a, Placeholder, FirstArgument, rest);
  }

  /** A script with one placeholder between plain pieces is sent with the
      first argument in its place: `a{{ELEMENT}}b` becomes `a arguments[0] b`. */
  lemma BindElementPieces(a: string, b: string)
    requires '{' !in a && '{' !in b
    ensures BindElement(a + Placeholder + b) == a + FirstArgument + b
  {
    BindElementStep(a, b);
    BindElementComplete(b);
  }

  /** The session command and body executeJsOnXpath sends: `execute` when
      synchronous, `execute_async` otherwise, with the bound script and
      the element reference as the only argument; synchronous unless
      the caller says otherwise. */
  function ExecuteRequest(script: string, elementId: Value, sync: bool := true): (r: (string, Value)) {
    (if sync then "execute" else "execute_async",
     Assoc([("script", Str(BindElement(script))), ("args", List([Assoc([("ELEMENT", elementId)])]))]))
  }

  /** The command names the synchronous or asynchronous call, the script
      holds no placeholder any more, and the only argument is the element. */
  lemma ExecuteRequestBody(script: string, elementId: Value, sync: bool)
    ensures var (command, params) := ExecuteRequest(script, elementId, sync);
      && (command == "execute" <==> sync)
      && (command == "execute_async" <==> !sync)
      && Get(params, "script").Str?
      && !Occurs(Get(params, "script").s, Placeholder)
      && Get(params, "args") == List([Assoc([("ELEMENT", elementId)])])
  {
    BindElementComplete(script);
    var params := ExecuteRequest(script, elementId, sync).1;
    assert params.entries[0].0 == StrKey("script") && params.entries[1].0 == StrKey("args");
    assert params.entries[1..][0] == (StrKey("args"), List([Assoc([("ELEMENT", elementId)])]));
    assert Find(params.entries[1..], StrKey("args")) == Some(List([Assoc([("ELEMENT", elementId)])]));
  }

  /** A script `a{{ELEMENT}}b` with plain pieces is sent as
      `a arguments[0] b`, so the page code sees the element as its first
      argument; by default the call is synchronous. */
  lemma ExecuteRequestBindsElement(a: string, b: string, elementId: Value)
    requires '{' !in a && '{' !in b
    ensures ExecuteRequest(a + Placeholder + b, elementId).0 == "execute"
    ensures Get(ExecuteRequest(a + Placeholder + b, elementId).1, "script") == Str(a + FirstArgument + b)
  {
    BindElementPieces(a, b);
    var params := ExecuteRequest(a + Placeholder + b, elementId).1;
    assert params.entries[0] == (StrKey("script"), Str(a + FirstArgument + b));
  }

  // ------------------------------------------------------------------
  // selectOption: quoting a value for a JavaScript string literal
  // ------------------------------------------------------------------

  /** How a JavaScript engine reads the body of a double-quoted string
      literal: `\\`, `\"`, `\n` and `\r` are escapes; an unescaped quote,
      a raw line break or a trailing backslash ends or breaks the literal
      (None). Other escapes are outside this model and also give None. */
  function JsStringBody(body: string): Option<string>
    decreases |body|
  {
    if body == [] then Some("")
    else if body[0] == '"' || body[0] == '\n' || body[0] == '\r' then None
    else if body[0] != '\\' then
      match JsStringBody(body[1..])
      case Some(rest) => Some([body[0]] + rest)
      case None => None
    else if |body| == 1 then None
    else
      var c := body[1];
      var decoded := if c == 'n' then Some('\n') else if c == 'r' then Some('\r')
        else if c == '\\' || c == '"' then Some(c) else None;
      match decoded
      case None => None
      case Some(d) =>
        match JsStringBody(body[2..])
        case Some(rest) => Some([d] + rest)
        case None => None
  }

  /** A character with no special meaning in the literal stands for itself. */
  lemma JsPlainChar(c: char, rest: string)
    requires c != '"' && c != '\n' && c != '\r' && c != '\\'
    ensures JsStringBody([c] + rest) == match JsStringBody(rest)
      case Some(r) => Some([c] + r)
      case None => None
  {
    assert ([c] + rest)[1..] == rest;
  }

  /** A two-character escape stands for the character it names. */
  lemma JsEscapedChar(c: char, d: char, rest: string)
    requires (c == 'n' && d == '\n') || (c == 'r' && d == '\r') || ((c == '\\' || c == '"') && d == c)
    ensures JsStringBody(['\\', c] + rest) == match JsStringBody(rest)
      case Some(r) => Some([d] + r)
      case None => None
  {
    assert (['\\', c] + rest)[2..] == rest;
  }

  /** `str_replace('"', '\"', $value)`, as selectOption escapes. */
  function EscapeQuotesAsWritten(value: string): string {
    ReplaceAll(value, "\"", "\\\"")
  }

  /** Escaping what the literal cannot hold as it is: backslash, quote,
      line feed and carriage return. */
  function EscapeForJsString(value: string): (r: string)
    ensures |value| <= |r| <= 2 * |value|
    decreases |value|
  {
    if value == [] then ""
    else
      var c := value[0];
      var head := if c == '\\' then "\\\\" else if c == '"' then "\\\""
        else if c == '\n' then "\\n" else if c == '\r' then "\\r" else [c];
      head + EscapeForJsString(value[1..])
  }

  /** The escaping as written is right for values with no backslash and no
      line break: the literal reads back as the value. */
  lemma {:induction false} EscapeQuotesAsWrittenPlain(value: string)
    requires '\\' !in value && '\n' !in value && '\r' !in value
    ensures JsStringBody(EscapeQuotesAsWritten(value)) == Some(value)
    decreases |value|
  {
    if value != [] {
      var rest := value[1..];
      assert forall c :: c in rest ==> c in value;
      EscapeQuotesAsWrittenPlain(rest);
      var e := EscapeQuotesAsWritten(value);
      if value[0] == '"' {
        assert e == ['\\', '"'] + EscapeQuotesAsWritten(rest);
        JsEscapedChar('"', '"', EscapeQuotesAsWritten(rest));
        assert value == ['"'] + rest;
      } else {
        assert !("\"" <= value);
        assert e == [value[0]] + EscapeQuotesAsWritten(rest);
        JsPlainChar(value[0], EscapeQuotesAsWritten(rest));
        assert value == [value[0]] + rest;
      }
    }
  }

  /** A value without quotes is left as it is by the escaping as written. */
  lemma EscapeQuotesAsWrittenNoQuote(value: string)
    requires '"' !in value
    ensures EscapeQuotesAsWritten(value) == value
  {
    ReplaceAbsent(value, "\"", "\\\"");
  }

  /** As written, a value ending in a backslash escapes the closing quote:
      the literal never ends. */
  lemma EscapeQuotesAsWrittenTrailingBackslash()
    ensures JsStringBody(EscapeQuotesAsWritten("a\\")) == None
  {
    EscapeQuotesAsWrittenNoQuote("a\\");
    JsPlainChar('a', "\\");
    assert "a\\" == ['a'] + "\\";
  }

  /** As written, the two characters backslash and `n` read back as one
      line feed. */
  lemma EscapeQuotesAsWrittenBackslashN()
    ensures JsStringBody(EscapeQuotesAsWritten("\\n")) == Some("\n")
  {
    EscapeQuotesAsWrittenNoQuote("\\n");
    JsEscapedChar('n', '\n', "");
    assert ['\\', 'n'] + "" == "\\n";
    assert JsStringBody("") == Some("") && ['\n'] + "" == "\n";
  }

  /** Escaped in full, every value reads back exactly. */
  lemma {:induction false} EscapeForJsStringRoundTrip(value: string)
    ensures JsStringBody(EscapeForJsString(value)) == Some(value)
    decreases |value|
  {
    if value != [] {
      var rest := value[1..];
      EscapeForJsStringRoundTrip(rest);
      var e := EscapeForJsString(value);
      var c := value[0];
      if c == '\\' || c == '"' || c == '\n' || c == '\r' {
        assert e[2..] == EscapeForJsString(rest);
      } else {
        assert e[1..] == EscapeForJsString(rest);
      }
      assert [c] + rest == value;
    }
  }
}
