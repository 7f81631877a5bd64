/** WebDriverElement: one DOM element, its command table, its class test,
    typing into it, and the URL of an element found inside it. */
module WebDriverElements {
  import opened PhpValues
  import opened Exceptions
  import opened WireProtocol
  import opened WebDriverContainers

  /** `methods()`: the element commands and their HTTP verbs. */
  const Methods: map<string, string> := map[
    "click" := "POST", "submit" := "POST", "text" := "GET", "value" := "POST",
    "name" := "GET", "clear" := "POST", "selected" := "GET", "enabled" := "GET",
    "attribute" := "GET", "equals" := "GET", "displayed" := "GET", "location" := "GET",
    "location_in_view" := "GET", "size" := "GET", "css" := "GET"
  ]

  /** The fifteen commands of the table; the four that change the element
      are POSTs and every other one is a GET. */
  lemma ElementCommandVerbs(name: string)
    ensures name in Methods <==> name in ElementCommands
    ensures name in Methods ==>
      && (Methods[name] == "POST" <==> name in ["click", "submit", "value", "clear"])
      && (Methods[name] == "GET" <==> name !in ["click", "submit", "value", "clear"])
  {
  }

  const ElementCommands: seq<string> := [
    "click", "submit", "text", "value", "name", "clear", "selected", "enabled",
    "attribute", "equals", "displayed", "location", "location_in_view", "size", "css"
  ]

  /** Every element command is reachable through the magic call: no name in
      the table starts with a verb, so each one dispatches, with at most
      one argument, as `/<name>` under its own verb. */
  lemma ElementCommandsDispatch(name: string, args: seq<Value>)
    requires name in Methods && |args| <= 1
    ensures PlanCall(Methods, name, args).Ok?
    ensures PlanCall(Methods, name, args).value.verb == Methods[name]
    ensures PlanCall(Methods, name, args).value.command == "/" + name
  {
    assert name == "click" || name == "submit" || name == "text" || name == "value" || name == "name"
      || name == "clear" || name == "selected" || name == "enabled" || name == "attribute"
      || name == "equals" || name == "displayed" || name == "location" || name == "location_in_view"
      || name == "size" || name == "css";
    assert name[0] != 'g' && name[0] != 'p' && (name[0] == 'd' ==> name[1] == 'i');
    assert !HasVerbPrefix(name);
  }

  /** `getElementPath($element_id)`: `preg_replace('/<id>$/', $element_id,
      $url)` with the id read literally. `$` matches at the very end and
      also just before a final newline. */
  function GetElementPath(e: Element, elementId: Value): string {
    var id := PhpString(e.id);
    var newId := PhpString(elementId);
    var n := |e.url|;
    if |id| <= n && e.url[n - |id|..] == id then e.url[..n - |id|] + newId
    else if |id| < n && e.url[n - |id| - 1..] == id + "\n" then e.url[..n - |id| - 1] + newId + "\n"
    else e.url
  }

  /** An element whose URL ends in its own id hands a child the same URL
      with the child's id in its place, so the children of children keep
      the prefix too. */
  lemma ChildElementPath(prefix: string, id: Value, childId: Value, grandchildId: Value)
    ensures var parent := Element(prefix + PhpString(id), id);
      var child := Element(GetElementPath(parent, childId), childId);
      && child.url == prefix + PhpString(childId)
      && GetElementPath(child, grandchildId) == prefix + PhpString(grandchildId)
  {
    var url := prefix + PhpString(id);
    assert url[|url| - |PhpString(id)|..] == PhpString(id);
    assert url[..|url| - |PhpString(id)|] == prefix;
    var curl := prefix + PhpString(childId);
    assert curl[|curl| - |PhpString(childId)|..] == PhpString(childId);
    assert curl[..|curl| - |PhpString(childId)|] == prefix;
  }

  /** When the URL neither ends in the id nor in the id and a newline, the
      child is given the parent's own URL. */
  lemma ElementPathWithoutId(e: Element, childId: Value)
    requires !(|PhpString(e.id)| <= |e.url| && e.url[|e.url| - |PhpString(e.id)|..] == PhpString(e.id))
    requires !(|PhpString(e.id)| < |e.url| && e.url[|e.url| - |PhpString(e.id)| - 1..] == PhpString(e.id) + "\n")
    ensures GetElementPath(e, childId) == e.url
  {
  }

  /** The keystrokes `convertTextForTyping` makes of a text: one string
      per byte, in order. */
  function Keystrokes(text: string): (keys: seq<Value>)
    ensures |keys| == |text|
    ensures forall i :: 0 <= i < |text| ==> keys[i] == Str([text[i]])
  {
    if text == [] then [] else [Str([text[0]])] + Keystrokes(text[1..])
  }

  /** What the browser types for a sequence of keystrokes. */
  function Typed(keys: seq<Value>): string {
    if keys == [] then "" else PhpString(keys[0]) + Typed(keys[1..])
  }

  /** Typing the keystrokes of a text types that text. */
  lemma {:induction false} TypedKeystrokes(text: string)
    ensures Typed(Keystrokes(text)) == text
  {
    if text != [] {
      TypedKeystrokes(text[1..]);
      var keys := Keystrokes(text);
      assert keys[1..] == Keystrokes(text[1..]);
      assert [text[0]] + text[1..] == text;
    }
  }

  /** `convertTextForTyping($text)` */
  method ConvertTextForTyping(text: string) returns (keys: seq<Value>)
    ensures keys == Keystrokes(text)
  {
    keys := [];
    for i := 0 to |text|
      invariant |keys| == i
      invariant forall j :: 0 <= j < i ==> keys[j] == Str([text[j]])
    {
      keys := keys + [Str([text[i]])];
    }
  }

  /** The body `type($text)` sends. */
  function TypeParams(text: string): Value {
    Assoc([("value", List(Keystrokes(text)))])
  }

  /** The body `typeSpecial($text)` sends: a string, spliced in verbatim. */
  function TypeSpecialParams(text: string): Value {
    Str("{\"value\": [\"" + text + "\"]}")
  }

  /** A `value` call sends one POST to `<element>/value` whose body is the
      argument, JSON-encoded when it is an array. */
  lemma ValueRequest(url: string, p: Value, encode: Value -> string, respond: CurlOptions -> Reply)
    requires forall o :: StatusModelled(respond(o).results)
    requires Truthy(p)
    ensures var x := CallExchange(url, Methods, "value", [p], encode, respond);
      && |x.0| == 1
      && x.0[0][OptUrl] == Str(url + "/value")
      && OptPost in x.0[0]
      && OptPostFields in x.0[0] && x.0[0][OptPostFields] == if p.Arr? then Str(encode(p)) else p
  {
    ValueAndAttributeDispatch(p, Null);
    CallExchangeSends(url, Methods, "value", [p], encode, respond);
    PostSends(url, "/value", p, encode, respond);
  }

  /** The two commands the element's own methods go through: `value` is a
      POST of `/value` and `attribute` a GET of `/attribute`, each carrying
      its one argument. */
  lemma ValueAndAttributeDispatch(p: Value, name: Value)
    ensures PlanCall(Methods, "value", [p]) == Ok(Dispatch("POST", "/value", p))
    ensures PlanCall(Methods, "attribute", [name]) == Ok(Dispatch("GET", "/attribute", name))
  {
    ElementCommandsDispatch("value", [p]);
    ElementCommandsDispatch("attribute", [name]);
    assert Methods["value"] == "POST" && "/" + "value" == "/value";
    assert Methods["attribute"] == "GET" && "/" + "attribute" == "/attribute";
  }

  /** `type` POSTs the JSON encoding of `{value: <keystrokes>}` to
      `<element>/value`; `typeSpecial` POSTs its hand-built body as it is. */
  lemma TypeRequests(url: string, text: string, encode: Value -> string, respond: CurlOptions -> Reply)
    requires forall o :: StatusModelled(respond(o).results)
    ensures var x := CallExchange(url, Methods, "value", [TypeParams(text)], encode, respond);
      && |x.0| == 1
      && x.0[0][OptUrl] == Str(url + "/value")
      && OptPostFields in x.0[0] && x.0[0][OptPostFields] == Str(encode(TypeParams(text)))
    ensures var x := CallExchange(url, Methods, "value", [TypeSpecialParams(text)], encode, respond);
      && |x.0| == 1
      && x.0[0][OptUrl] == Str(url + "/value")
      && OptPostFields in x.0[0] && x.0[0][OptPostFields] == TypeSpecialParams(text)
  {
    ValueRequest(url, TypeParams(text), encode, respond);
    ValueRequest(url, TypeSpecialParams(text), encode, respond);
  }

  /** The class names in a class attribute: `explode(' ', ...)`. */
  function ClassNames(attribute: Value): (names: seq<string>)
    ensures |names| >= 1 && forall i :: 0 <= i < |names| ==> ' ' !in names[i]
  {
    Split(PhpString(attribute), ' ')
  }

  /** The test `containsClass` applies to the attribute it fetched. An
      array attribute has no class: PHP 7's `explode` refuses it. */
  predicate HasClass(attribute: Value, className: string) {
    !attribute.Arr? && className in ClassNames(attribute)
  }

  /** What `containsClass` returns: for an array attribute `explode` and
      then `in_array` both give null, otherwise the boolean test. */
  function ClassTest(attribute: Value, className: string): (r: Value)
    ensures r.Null? <==> attribute.Arr?
    ensures Truthy(r) <==> HasClass(attribute, className)
  {
    if attribute.Arr? then Null else Bool(className in Split(PhpString(attribute), ' '))
  }

  /** For an attribute made of space-separated names, the test holds exactly
      for those names; a class holding a space is never found. */
  lemma HasClassOfNames(names: seq<string>, className: string)
    requires |names| >= 1 && forall i :: 0 <= i < |names| ==> ' ' !in names[i]
    ensures HasClass(Str(Join(names, ' ')), className) <==> className in names
  {
    SplitJoin(names, ' ');
  }

  lemma NoClassWithSpace(attribute: Value, className: string)
    requires ' ' in className
    ensures !HasClass(attribute, className)
  {
  }

  /** An array attribute answers null for every class, "Array" included. */
  lemma ArrayAttributeHasNoClass(entries: seq<(Key, Value)>, className: string)
    ensures ClassTest(Arr(entries), className) == Null
    ensures !HasClass(Arr(entries), className)
  {
  }

  /** `type($text)` */
  method Type(conn: WebDriverConnection, e: Element, text: string) returns (r: Result<Value, Thrown>)
    requires conn.Valid()
    modifies conn`sent
    ensures var x := CallExchange(e.url, Methods, "value", [TypeParams(text)], conn.encode, conn.respond);
      conn.sent == old(conn.sent) + x.0 && r == x.1
  {
    var keys := ConvertTextForTyping(text);
    r := conn.Call(e.url, Methods, "value", [Assoc([("value", List(keys))])]);
  }

  /** `typeSpecial($text)` */
  method TypeSpecial(conn: WebDriverConnection, e: Element, text: string) returns (r: Result<Value, Thrown>)
    requires conn.Valid()
    modifies conn`sent
    ensures var x := CallExchange(e.url, Methods, "value", [TypeSpecialParams(text)], conn.encode, conn.respond);
      conn.sent == old(conn.sent) + x.0 && r == x.1
  {
    var params := "{\"value\": [\"" + text + "\"]}";
    r := conn.Call(e.url, Methods, "value", [Str(params)]);
  }

  /** `containsClass($class)`: fetches the class attribute through the
      `attribute` command and tests it. */
  method ContainsClass(conn: WebDriverConnection, e: Element, className: string) returns (r: Result<Value, Thrown>)
    requires conn.Valid()
    modifies conn`sent
    ensures var x := CallExchange(e.url, Methods, "attribute", [Str("class")], conn.encode, conn.respond);
      && conn.sent == old(conn.sent) + x.0
      && (x.1.Err? ==> r == Err(x.1.error))
      && (x.1.Ok? ==> r == Ok(ClassTest(x.1.value, className)))
  {
    var attribute := conn.Call(e.url, Methods, "attribute", [Str("class")]);
    if attribute.Err? {
      return Err(attribute.error);
    }
    if attribute.value.Arr? {
      return Ok(Null);
    }
    var names := Split(PhpString(attribute.value), ' ');
    return Ok(Bool(className in names));
  }

  /** The class attribute is fetched by one GET of
      `<element>/attribute/class`, with no body. */
  lemma ContainsClassRequest(url: string, encode: Value -> string, respond: CurlOptions -> Reply)
    requires forall o :: StatusModelled(respond(o).results)
    ensures CallExchange(url, Methods, "attribute", [Str("class")], encode, respond).0
      == [BaseOptions(url + "/attribute" + "/" + "class", "GET", Str("class"), encode)]
    ensures var opts := BaseOptions(url + "/attribute" + "/" + "class", "GET", Str("class"), encode);
      opts[OptUrl] == Str(url + "/attribute" + "/" + "class") && OptPost !in opts && OptPostFields !in opts
  {
    ValueAndAttributeDispatch(Null, Str("class"));
    CallGetSends(url, Methods, "attribute", "/attribute", "class", encode, respond);
  }
}
