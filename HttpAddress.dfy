/** HttpAddress: a URL taken apart into its components, with the gaps an
    http, https, ws or wss address leaves filled in.

    `parse_url` is a collaborator: SetAddress receives what it returned for
    the address string (an array of components, or anything else when the
    string could not be parsed). */
module HttpAddressing {
  import opened PhpValues
  import opened Exceptions

  /** The public properties of an HttpAddress, as one value. */
  datatype Components = Components(
    rawAddress: Value, scheme: Value, hostname: Value, port: Value, user: Value,
    password: Value, path: Value, queryString: Value, fragment: Value)

  const Blank: Components := Components(Null, Null, Null, Null, Null, Null, Null, Null, Null)

  /** The properties that setAddress copies out of parse_url's answer. */
  datatype Attribute = Scheme | Hostname | Port | User | Password | Path | QueryString | Fragment

  /** The static `$components` table: property, then parse_url key. */
  const ComponentTable: seq<(Attribute, string)> := [
    (Scheme, "scheme"), (Hostname, "host"), (Port, "port"), (User, "user"),
    (Password, "pass"), (Path, "path"), (QueryString, "query"), (Fragment, "fragment")
  ]

  /** The parse_url key each property is read from. */
  function IndexOf(a: Attribute): string {
    match a
    case Scheme => "scheme"
    case Hostname => "host"
    case Port => "port"
    case User => "user"
    case Password => "pass"
    case Path => "path"
    case QueryString => "query"
    case Fragment => "fragment"
  }

  function Field(c: Components, a: Attribute): Value {
    match a
    case Scheme => c.scheme
    case Hostname => c.hostname
    case Port => c.port
    case User => c.user
    case Password => c.password
    case Path => c.path
    case QueryString => c.queryString
    case Fragment => c.fragment
  }

  /** `$this->$attribute = $v`: that property changes and no other. */
  function WithField(c: Components, a: Attribute, v: Value): (c': Components)
    ensures Field(c', a) == v
    ensures forall b :: b != a ==> Field(c', b) == Field(c, b)
    ensures c'.rawAddress == c.rawAddress
  {
    match a
    case Scheme => c.(scheme := v)
    case Hostname => c.(hostname := v)
    case Port => c.(port := v)
    case User => c.(user := v)
    case Password => c.(password := v)
    case Path => c.(path := v)
    case QueryString => c.(queryString := v)
    case Fragment => c.(fragment := v)
  }

  /** What one property holds after the copy: the parsed component when
      it is set, and what it held before otherwise. */
  function Pick(previous: Value, parts: Value, index: string): Value {
    if Isset(parts, index) then Get(parts, index) else previous
  }

  /** The row of the component table each property sits in. */
  function Position(a: Attribute): nat {
    match a
    case Scheme => 0
    case Hostname => 1
    case Port => 2
    case User => 3
    case Password => 4
    case Path => 5
    case QueryString => 6
    case Fragment => 7
  }

  /** Row i of the table names the property at position i and the key it
      is read from. */
  lemma ComponentTableRows()
    ensures |ComponentTable| == 8
    ensures forall i :: 0 <= i < |ComponentTable| ==>
      Position(ComponentTable[i].0) == i && ComponentTable[i].1 == IndexOf(ComponentTable[i].0)
  {
  }

  /** The copy loop of setAddress: every component parse_url reports as set
      overwrites its property, and every other property keeps the value it
      had, even one left over from a previous address. */
  function AssignParsed(c: Components, parts: Value): (c': Components)
    ensures c'.rawAddress == c.rawAddress
    ensures forall a :: Field(c', a) == Pick(Field(c, a), parts, IndexOf(a))
  {
    Components(c.rawAddress,
      Pick(c.scheme, parts, "scheme"), Pick(c.hostname, parts, "host"), Pick(c.port, parts, "port"),
      Pick(c.user, parts, "user"), Pick(c.password, parts, "pass"), Pick(c.path, parts, "path"),
      Pick(c.queryString, parts, "query"), Pick(c.fragment, parts, "fragment"))
  }

  /** Two property sets that agree on every property and on the raw
      address are the same. */
  lemma FieldsDetermine(c: Components, d: Components)
    requires c.rawAddress == d.rawAddress
    requires forall a :: Field(c, a) == Field(d, a)
    ensures c == d
  {
    assert Field(c, Scheme) == Field(d, Scheme) && Field(c, Hostname) == Field(d, Hostname);
    assert Field(c, Port) == Field(d, Port) && Field(c, User) == Field(d, User);
    assert Field(c, Password) == Field(d, Password) && Field(c, Path) == Field(d, Path);
    assert Field(c, QueryString) == Field(d, QueryString) && Field(c, Fragment) == Field(d, Fragment);
  }

  /** `method_exists($this, 'postProcessSetAddress' . ucfirst($this->scheme))`
      matches method names case-insensitively: the default port of the
      post-processor the scheme selects, if any. */
  function DefaultPort(scheme: Value): Option<int> {
    var handler := Lower(HandlerPrefix + Ucfirst(PhpString(scheme)));
    if handler == Lower("postProcessSetAddressHttp") || handler == Lower("postProcessSetAddressWs") then Some(80)
    else if handler == Lower("postProcessSetAddressHttps") || handler == Lower("postProcessSetAddressWss") then Some(443)
    else None
  }

  const HandlerPrefix: string := "postProcessSetAddress"
  const LowerHandlerPrefix: string := "postprocesssetaddress"

  /** The handler name, lower-cased, is the lower-cased prefix followed by
      the lower-cased scheme: `ucfirst` makes no difference. */
  lemma HandlerNameLower(name: string)
    ensures Lower(HandlerPrefix + Ucfirst(name)) == LowerHandlerPrefix + Lower(name)
  {
    LowerAppend(HandlerPrefix, Ucfirst(name));
    LowerUcfirst(name);
    LowerOfHandlerPrefix();
  }

  lemma LowerOfHandlerPrefix()
    ensures Lower(HandlerPrefix) == LowerHandlerPrefix
  {
    assert |Lower(HandlerPrefix)| == |LowerHandlerPrefix|;
    forall i | 0 <= i < |HandlerPrefix| ensures Lower(HandlerPrefix)[i] == LowerHandlerPrefix[i] {
    }
  }

  /** The four post-processors' names, lower-cased. */
  lemma KnownHandlerNames()
    ensures Lower("postProcessSetAddressHttp") == LowerHandlerPrefix + "http"
    ensures Lower("postProcessSetAddressWs") == LowerHandlerPrefix + "ws"
    ensures Lower("postProcessSetAddressHttps") == LowerHandlerPrefix + "https"
    ensures Lower("postProcessSetAddressWss") == LowerHandlerPrefix + "wss"
  {
    HandlerNameLower("http");
    HandlerNameLower("ws");
    HandlerNameLower("https");
    HandlerNameLower("wss");
    assert HandlerPrefix + Ucfirst("http") == "postProcessSetAddressHttp";
    assert HandlerPrefix + Ucfirst("ws") == "postProcessSetAddressWs";
    assert HandlerPrefix + Ucfirst("https") == "postProcessSetAddressHttps";
    assert HandlerPrefix + Ucfirst("wss") == "postProcessSetAddressWss";
  }

  lemma AppendCancel(p: string, a: string, b: string)
    ensures p + a == p + b <==> a == b
  {
    if p + a == p + b {
      assert (p + a)[|p|..] == a && (p + b)[|p|..] == b;
    }
  }

  /** Only http and ws (port 80) and https and wss (port 443), in any
      letter case, have gaps filled in. */
  lemma DefaultPortBySchemeName(scheme: Value)
    ensures DefaultPort(scheme) == Some(80) <==> Lower(PhpString(scheme)) in ["http", "ws"]
    ensures DefaultPort(scheme) == Some(443) <==> Lower(PhpString(scheme)) in ["https", "wss"]
    ensures DefaultPort(scheme).None? <==> Lower(PhpString(scheme)) !in ["http", "ws", "https", "wss"]
  {
    var l := Lower(PhpString(scheme));
    HandlerNameLower(PhpString(scheme));
    KnownHandlerNames();
    AppendCancel(LowerHandlerPrefix, l, "http");
    AppendCancel(LowerHandlerPrefix, l, "ws");
    AppendCancel(LowerHandlerPrefix, l, "https");
    AppendCancel(LowerHandlerPrefix, l, "wss");
  }

  /** postProcessSetAddress{Http,Https,Ws,Wss}: a port that is loosely null
      becomes the scheme's default, a path that is loosely null becomes
      `/`; any other scheme leaves everything as it is. */
  function FillDefaults(c: Components): (c': Components)
    ensures DefaultPort(c.scheme).None? ==> c' == c
    ensures c'.rawAddress == c.rawAddress && c'.scheme == c.scheme && c'.hostname == c.hostname
    ensures c'.user == c.user && c'.password == c.password
    ensures c'.queryString == c.queryString && c'.fragment == c.fragment
    ensures DefaultPort(c.scheme).Some? ==>
      && c'.port == (if LooselyNull(c.port) then Int(DefaultPort(c.scheme).value) else c.port)
      && c'.path == (if LooselyNull(c.path) then Str("/") else c.path)
  {
    match DefaultPort(c.scheme)
    case None => c
    case Some(p) =>
      c.(port := if LooselyNull(c.port) then Int(p) else c.port,
         path := if LooselyNull(c.path) then Str("/") else c.path)
  }

  /** setAddress as a value: unparseable input raises and changes nothing;
      otherwise the parsed components are copied, the blanks filled and
      the address string kept verbatim. */
  function SetAddressSpec(c: Components, addressString: string, parts: Value): (r: Result<Components, Thrown>)
    ensures r.Err? <==> !parts.Arr?
    ensures r.Err? ==> r == Err(PlainException("unable to parse URL"))
    ensures r.Ok? ==> r.value.rawAddress == Str(addressString)
  {
    if !parts.Arr? then Err(PlainException("unable to parse URL"))
    else Ok(FillDefaults(AssignParsed(c, parts)).(rawAddress := Str(addressString)))
  }

  /** What setAddress leaves in each property. */
  lemma SetAddressFields(c: Components, addressString: string, parts: Value)
    requires parts.Arr?
    ensures var r := SetAddressSpec(c, addressString, parts);
      var scheme := Pick(c.scheme, parts, "scheme");
      var port := Pick(c.port, parts, "port");
      var path := Pick(c.path, parts, "path");
      && r.Ok?
      && r.value.rawAddress == Str(addressString)
      && r.value.scheme == scheme
      && r.value.hostname == Pick(c.hostname, parts, "host")
      && r.value.user == Pick(c.user, parts, "user")
      && r.value.password == Pick(c.password, parts, "pass")
      && r.value.queryString == Pick(c.queryString, parts, "query")
      && r.value.fragment == Pick(c.fragment, parts, "fragment")
      && r.value.port == (if DefaultPort(scheme).Some? && LooselyNull(port) then Int(DefaultPort(scheme).value) else port)
      && r.value.path == (if DefaultPort(scheme).Some? && LooselyNull(path) then Str("/") else path)
  {
  }

  /** Setting the same address twice is the same as setting it once. */
  lemma SetAddressIdempotent(c: Components, addressString: string, parts: Value)
    requires parts.Arr?
    ensures SetAddressSpec(SetAddressSpec(c, addressString, parts).value, addressString, parts)
         == SetAddressSpec(c, addressString, parts)
  {
    var once := SetAddressSpec(c, addressString, parts).value;
    SetAddressFields(c, addressString, parts);
    SetAddressFields(once, addressString, parts);
  }

  /** `getRequestLine()`: the path, then `?query` when the query string is
      set, then `#fragment` when the fragment is set. */
  function RequestLine(c: Components): (line: Value)
    ensures line == c.path <==> c.queryString == Null && c.fragment == Null
    ensures c.queryString != Null || c.fragment != Null ==>
      line.Str? && PhpString(c.path) <= line.s
    ensures c.fragment != Null ==>
      && line.Str?
      && |line.s| > |PhpString(c.fragment)|
      && line.s[|line.s| - |PhpString(c.fragment)| - 1..] == "#" + PhpString(c.fragment)
    ensures c.queryString != Null && c.fragment == Null ==>
      line == Str(PhpString(c.path) + "?" + PhpString(c.queryString))
    ensures c.queryString == Null && c.fragment != Null ==>
      line == Str(PhpString(c.path) + "#" + PhpString(c.fragment))
    ensures c.queryString != Null && c.fragment != Null ==>
      line == Str(PhpString(c.path) + "?" + PhpString(c.queryString) + "#" + PhpString(c.fragment))
  {
    var withQuery := if c.queryString != Null then Str(PhpString(c.path) + "?" + PhpString(c.queryString)) else c.path;
    if c.fragment != Null then Str(PhpString(withQuery) + "#" + PhpString(c.fragment)) else withQuery
  }

  /** An address whose parse sets a path, a query and a fragment asks for
      exactly `path?query#fragment`, whatever the object held before. */
  lemma RequestLineOfFullAddress(c: Components, addressString: string, parts: Value,
                                 path: string, query: string, fragment: string)
    requires parts.Arr?
    requires path != ""
    requires Get(parts, "path") == Str(path) && Get(parts, "query") == Str(query)
    requires Get(parts, "fragment") == Str(fragment)
    ensures RequestLine(SetAddressSpec(c, addressString, parts).value) == Str(path + "?" + query + "#" + fragment)
  {
    SetAddressFields(c, addressString, parts);
    var d := SetAddressSpec(c, addressString, parts).value;
    assert Isset(parts, "path") && Isset(parts, "query") && Isset(parts, "fragment");
    assert d.path == Str(path) && d.queryString == Str(query) && d.fragment == Str(fragment);
  }

  /** A parsed http-family address with no query or fragment asks for its
      path, or for `/` when it has none. */
  lemma RequestLineOfBareAddress(addressString: string, parts: Value)
    requires parts.Arr?
    requires DefaultPort(Get(parts, "scheme")).Some?
    requires !Isset(parts, "query") && !Isset(parts, "fragment") && !Isset(parts, "path")
    ensures RequestLine(SetAddressSpec(Blank, addressString, parts).value) == Str("/")
  {
    SetAddressFields(Blank, addressString, parts);
  }

  class HttpAddress {
    var rawAddress: Value
    var scheme: Value
    var hostname: Value
    var port: Value
    var user: Value
    var password: Value
    var path: Value
    var queryString: Value
    var fragment: Value

    function State(): Components
      reads this
    {
      Components(rawAddress, scheme, hostname, port, user, password, path, queryString, fragment)
    }

    /** Every property starts out null. */
    constructor()
      ensures State() == Blank
    {
      rawAddress, scheme, hostname, port, user := Null, Null, Null, Null, Null;
      password, path, queryString, fragment := Null, Null, Null, Null;
    }

    /** `new HttpAddress($addressString)`, with `parts` being what parse_url
        returned for it. */
    static method Create(addressString: string, parts: Value) returns (r: Result<HttpAddress, Thrown>)
      ensures r.Err? <==> !parts.Arr?
      ensures r.Err? ==> r.error == PlainException("unable to parse URL")
      ensures r.Ok? ==> fresh(r.value) && Ok(r.value.State()) == SetAddressSpec(Blank, addressString, parts)
    {
      var a := new HttpAddress();
      var outcome := a.SetAddress(addressString, parts);
      if outcome.Err? {
        return Err(outcome.error);
      }
      return Ok(a);
    }

    method SetField(a: Attribute, v: Value)
      modifies this
      ensures State() == WithField(old(State()), a, v)
    {
      match a
      case Scheme => scheme := v;
      case Hostname => hostname := v;
      case Port => port := v;
      case User => user := v;
      case Password => password := v;
      case Path => path := v;
      case QueryString => queryString := v;
      case Fragment => fragment := v;
    }

    /** The loop over the component table: every component parse_url
        reported replaces the stored one. */
    method AssignComponents(parts: Value)
      modifies this
      ensures State() == AssignParsed(old(State()), parts)
    {
      ComponentTableRows();
      for i := 0 to |ComponentTable|
        invariant rawAddress == old(rawAddress)
        invariant forall a ::
                    Field(State(), a) == if Position(a) < i then Pick(Field(old(State()), a), parts, IndexOf(a)) else Field(old(State()), a)
      {
        var (attribute, index) := ComponentTable[i];
        if Isset(parts, index) {
          SetField(attribute, Get(parts, index));
        }
      }
      FieldsDetermine(State(), AssignParsed(old(State()), parts));
    }

    /** The defaults for a scheme with a known port: the port when none was
        given, and `/` as path when none was given. */
    method FillDefaultComponents()
      modifies this
      ensures State() == FillDefaults(old(State()))
    {
      var defaultPort := DefaultPort(scheme);
      if defaultPort.Some? {
        if LooselyNull(port) {
          port := Int(defaultPort.value);
        }
        if LooselyNull(path) {
          path := Str("/");
        }
      }
    }

    /** `setAddress($addressString)` */
    method SetAddress(addressString: string, parts: Value) returns (r: Result<(), Thrown>)
      modifies this
      ensures var spec := SetAddressSpec(old(State()), addressString, parts);
        && (r.Err? <==> spec.Err?)
        && (spec.Err? ==> r.error == spec.error && State() == old(State()))
        && (spec.Ok? ==> State() == spec.value)
    {
      if !parts.Arr? {
        return Err(PlainException("unable to parse URL"));
      }

      AssignComponents(parts);
      FillDefaultComponents();
      rawAddress := Str(addressString);
      return Ok(());
    }

    /** `getRequestLine()` */
    method GetRequestLine() returns (line: Value)
      ensures line == RequestLine(State())
    {
      line := path;
      if queryString != Null {
        line := Str(PhpString(line) + "?" + PhpString(queryString));
      }
      if fragment != Null {
        line := Str(PhpString(line) + "#" + PhpString(fragment));
      }
    }

    /** `__toString()`: the address exactly as it was given. */
    function ToString(): (s: Value)
      reads this
      ensures s == State().rawAddress
    {
      rawAddress
    }
  }
}
