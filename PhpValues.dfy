/** Values as PHP 7 holds them once `json_decode($raw, true)` has run, and
    the few PHP primitives the client leans on: truthiness, the loose
    `== null` test, string conversion, `str_replace` with one search string,
    `explode` on one character and `strtolower`. */
module PhpValues {

  datatype Option<+T> = None | Some(value: T)

  datatype Result<+T, +E> = Ok(value: T) | Err(error: E)

  /** The key of a PHP array entry. */
  datatype Key = IntKey(n: int) | StrKey(s: string)

  /** A PHP value. Arrays keep their entries in insertion order, as PHP
      arrays do; a decoded JSON object is an array with string keys. */
  datatype Value =
    | Null
    | Bool(b: bool)
    | Int(i: int)
    | Str(s: string)
    | Arr(entries: seq<(Key, Value)>)

  /** `if ($v)`: PHP's conversion to boolean. */
  predicate Truthy(v: Value) {
    match v
    case Null => false
    case Bool(b) => b
    case Int(i) => i != 0
    case Str(s) => s != "" && s != "0"
    case Arr(e) => |e| > 0
  }

  /** `$v == null` under PHP 7's loose comparison: null, false, 0, "" and the
      empty array compare equal to null, but the string "0" does not (null is
      compared with a string as the empty string). */
  predicate LooselyNull(v: Value) {
    match v
    case Null => true
    case Bool(b) => !b
    case Int(i) => i == 0
    case Str(s) => s == ""
    case Arr(e) => |e| == 0
  }

  /** The first value stored under `k`; PHP arrays hold each key once. */
  function Find(entries: seq<(Key, Value)>, k: Key): Option<Value> {
    if entries == [] then None
    else if entries[0].0 == k then Some(entries[0].1)
    else Find(entries[1..], k)
  }

  /** `is_array($v) && array_key_exists($k, $v)` */
  predicate HasKey(v: Value, k: string) {
    v.Arr? && Find(v.entries, StrKey(k)).Some?
  }

  /** `$v[$k]` on an array, null when the key is absent. */
  function Get(v: Value, k: string): Value {
    if v.Arr? then
      match Find(v.entries, StrKey(k))
      case Some(x) => x
      case None => Null
    else Null
  }

  /** `isset($v[$k])` on an array: present and not null. */
  predicate Isset(v: Value, k: string) {
    Get(v, k) != Null
  }

  /** `array('k1' => v1, 'k2' => v2, ...)` */
  function Assoc(pairs: seq<(string, Value)>): Value {
    Arr(seq(|pairs|, i requires 0 <= i < |pairs| => (StrKey(pairs[i].0), pairs[i].1)))
  }

  /** `array(v0, v1, ...)`, keyed 0, 1, ... */
  function List(items: seq<Value>): Value {
    Arr(seq(|items|, i requires 0 <= i < |items| => (IntKey(i), items[i])))
  }

  function NatToString(n: nat): string
    decreases n
  {
    var d := "0123456789"[n % 10];
    if n < 10 then [d] else NatToString(n / 10) + [d]
  }

  function IntToString(i: int): string {
    if i < 0 then "-" + NatToString(-i) else NatToString(i)
  }

  /** `(string) $v`, and what `.` and `sprintf('%s')` do to a value. */
  function PhpString(v: Value): string {
    match v
    case Null => ""
    case Bool(b) => if b then "1" else ""
    case Int(i) => IntToString(i)
    case Str(s) => s
    case Arr(_) => "Array"
  }

  /** `strtolower` on one byte: ASCII letters only. */
  function LowerChar(c: char): char {
    if 'A' <= c <= 'Z' then (c as int + 32) as char else c
  }

  function Lower(s: string): string {
    seq(|s|, i requires 0 <= i < |s| => LowerChar(s[i]))
  }

  /** `ucfirst`: upper-cases the first byte only. */
  function Ucfirst(s: string): string {
    if s != [] && 'a' <= s[0] <= 'z' then [(s[0] as int - 32) as char] + s[1..] else s
  }

  /** Whatever `ucfirst` does to the first letter, `strtolower` undoes. */
  lemma LowerUcfirst(s: string)
    ensures Lower(Ucfirst(s)) == Lower(s)
  {
    if s != [] && 'a' <= s[0] <= 'z' {
      assert Lower(Ucfirst(s))[0] == Lower(s)[0];
      assert forall i :: 1 <= i < |s| ==> Lower(Ucfirst(s))[i] == Lower(s)[i];
    }
  }

  lemma LowerAppend(a: string, b: string)
    ensures Lower(a + b) == Lower(a) + Lower(b)
  {
  }

  /** `str_replace($pat, $rep, $s)`: scans left to right and replaces every
      non-overlapping occurrence of `pat`; an empty `pat` changes nothing. */
  function ReplaceAll(s: string, pat: string, rep: string): string
    decreases |s|
  {
    if |pat| == 0 || s == [] then s
    else if pat <= s then rep + ReplaceAll(s[|pat|..], pat, rep)
    else [s[0]] + ReplaceAll(s[1..], pat, rep)
  }

  predicate OccursAt(s: string, pat: string, i: int) {
    0 <= i && i + |pat| <= |s| && s[i..i + |pat|] == pat
  }

  ghost predicate Occurs(s: string, pat: string) {
    exists i :: OccursAt(s, pat, i)
  }

  /** Replacing one character by one character keeps the length and
      rewrites exactly the positions holding that character. */
  lemma {:induction false} ReplaceCharPointwise(s: string, c: char, d: char)
    ensures |ReplaceAll(s, [c], [d])| == |s|
    ensures forall i :: 0 <= i < |s| ==>
      ReplaceAll(s, [c], [d])[i] == (if s[i] == c then d else s[i])
  {
    if s != [] {
      ReplaceCharPointwise(s[1..], c, d);
      var r := ReplaceAll(s, [c], [d]);
      assert r == [if s[0] == c then d else s[0]] + ReplaceAll(s[1..], [c], [d]);
    }
  }

  /** A search string whose first character never occurs leaves the
      subject unchanged. */
  lemma {:induction false} ReplaceAbsent(s: string, pat: string, rep: string)
    requires |pat| > 0 && pat[0] !in s
    ensures ReplaceAll(s, pat, rep) == s
  {
    if s != [] {
      assert !(pat <= s);
      ReplaceAbsent(s[1..], pat, rep);
    }
  }

  // Helpers for ReplaceAfterPlain, each one step of the scan or one
  // rearrangement of a concatenation.

  lemma ReplaceSkipsPlain(c: char, t: string, pat: string, rep: string)
    requires |pat| > 0 && c != pat[0]
    ensures ReplaceAll([c] + t, pat, rep) == [c] + ReplaceAll(t, pat, rep)
  {
    assert ([c] + t)[1..] == t;
  }

  /** Text before the first occurrence is copied, the occurrence becomes
      the replacement, and the scan goes on after it. */
  lemma {:induction false} ReplaceAfterPlain(a: string, pat: string, rep: string, rest: string)
    requires |pat| > 0 && pat[0] !in a
    ensures ReplaceAll(a + pat + rest, pat, rep) == a + rep + ReplaceAll(rest, pat, rep)
    decreases |a|
  {
    if a == [] {
      ReplaceFromStart(a, pat, rep, rest);
    } else {
      PlainTail(a, pat[0]);
      ReplaceAfterPlain(a[1..], pat, rep, rest);
      ReplacePlainStep(a, pat, rep, rest);
    }
  }

  lemma ReplaceFromStart(a: string, pat: string, rep: string, rest: string)
    requires |pat| > 0 && a == []
    ensures ReplaceAll(a + pat + rest, pat, rep) == a + rep + ReplaceAll(rest, pat, rep)
  {
    var s := a + pat + rest;
    assert s[..|pat|] == pat && s[|pat|..] == rest;
  }

  lemma ConsAssoc(c: char, a: string, r: string, x: string)
    ensures [c] + (a + r + x) == [c] + a + r + x
  {
  }

  lemma ConsSplit(a: string, p: string, r: string)
    requires a != []
    ensures a == [a[0]] + a[1..] && a + p + r == [a[0]] + (a[1..] + p + r)
  {
  }

  lemma PlainTail(a: string, c: char)
    requires a != [] && c !in a
    ensures a[0] != c && c !in a[1..]
  {
    assert a == [a[0]] + a[1..];
  }

  lemma ReplacePlainStep(a: string, pat: string, rep: string, rest: string)
    requires |pat| > 0 && a != [] && a[0] != pat[0]
    requires ReplaceAll(a[1..] + pat + rest, pat, rep) == a[1..] + rep + ReplaceAll(rest, pat, rep)
    ensures ReplaceAll(a + pat + rest, pat, rep) == a + rep + ReplaceAll(rest, pat, rep)
  {
    var t := a[1..] + pat + rest;
    ConsSplit(a, pat, rest);
    ReplaceSkipsPlain(a[0], t, pat, rep);
    ConsAssoc(a[0], a[1..], rep, ReplaceAll(rest, pat, rep));
  }

  /** A prefix of the output made of characters that cannot start the
      replacement was copied from the input. */
  lemma {:induction false} OutputPrefixFromInput(t: string, w: string, pat: string, rep: string)
    requires |pat| > 0 && |rep| > 0 && rep[0] !in w
    requires w <= ReplaceAll(t, pat, rep)
    ensures w <= t
    decreases |t|
  {
    if w != [] && t != [] {
      OutputStart(t, pat, rep);
      var out := ReplaceAll(t, pat, rep);
      assert w[0] == out[0];
      assert !(pat <= t);
      var x := ReplaceAll(t[1..], pat, rep);
      assert w[1..] <= x;
      OutputPrefixFromInput(t[1..], w[1..], pat, rep);
    }
  }

  /** The output starts with the replacement where the input starts with
      the search string, and with the input's first character otherwise. */
  lemma OutputStart(t: string, pat: string, rep: string)
    requires t != [] && |pat| > 0 && |rep| > 0
    ensures ReplaceAll(t, pat, rep) != []
    ensures pat <= t ==> ReplaceAll(t, pat, rep)[0] == rep[0]
    ensures !(pat <= t) ==> ReplaceAll(t, pat, rep) == [t[0]] + ReplaceAll(t[1..], pat, rep)
  {
  }

  /** When neither string can start inside the other, no occurrence of the
      search string survives `str_replace`, and none is created by it. */
  lemma {:induction false} ReplaceEliminates(s: string, pat: string, rep: string)
    requires |pat| > 0 && |rep| > 0
    requires pat[0] !in rep && rep[0] !in pat
    ensures !Occurs(ReplaceAll(s, pat, rep), pat)
    decreases |s|
  {
    if s == [] {
      assert ReplaceAll(s, pat, rep) == [];
    } else if pat <= s {
      ReplaceEliminates(s[|pat|..], pat, rep);
      NoOccurrenceAfterReplacement(rep, ReplaceAll(s[|pat|..], pat, rep), pat);
    } else {
      ReplaceEliminates(s[1..], pat, rep);
      NoOccurrenceAfterCopy(s, pat, rep);
    }
  }

  /** The replacement string holds no first character of the search
      string, so an occurrence after it lies wholly in what follows. */
  lemma NoOccurrenceAfterReplacement(rep: string, x: string, pat: string)
    requires |pat| > 0 && pat[0] !in rep && !Occurs(x, pat)
    ensures !Occurs(rep + x, pat)
  {
    var r := rep + x;
    forall i | 0 <= i < |rep| && i + |pat| <= |r| ensures !OccursAt(r, pat, i) {
      assert r[i..i + |pat|][0] == rep[i] != pat[0];
    }
    forall i | |rep| <= i && i + |pat| <= |r| ensures !OccursAt(r, pat, i) {
      assert !OccursAt(x, pat, i - |rep|);
      assert x[i - |rep|..i - |rep| + |pat|] == r[i..i + |pat|];
    }
  }

  /** A character copied because no match starts at it cannot start an
      occurrence in the output either. */
  lemma NoOccurrenceAfterCopy(s: string, pat: string, rep: string)
    requires |pat| > 0 && |rep| > 0 && rep[0] !in pat
    requires s != [] && !(pat <= s)
    requires !Occurs(ReplaceAll(s[1..], pat, rep), pat)
    ensures !Occurs([s[0]] + ReplaceAll(s[1..], pat, rep), pat)
  {
    var r := [s[0]] + ReplaceAll(s[1..], pat, rep);
    NoOccurrenceAfterFirst(s[0], ReplaceAll(s[1..], pat, rep), pat);
    CopiedCharStartsNoMatch(s, pat, rep);
    if |pat| <= |r| {
      assert r[0..|pat|] == r[..|pat|];
    }
  }

  /** Occurrences after a leading character lie wholly in the rest. */
  lemma NoOccurrenceAfterFirst(c: char, x: string, pat: string)
    requires !Occurs(x, pat)
    ensures forall i :: 1 <= i ==> !OccursAt([c] + x, pat, i)
  {
    var r := [c] + x;
    forall i | 1 <= i && i + |pat| <= |r| ensures !OccursAt(r, pat, i) {
      assert !OccursAt(x, pat, i - 1);
      assert x[i - 1..i - 1 + |pat|] == r[i..i + |pat|];
    }
  }

  /** No match starts at a character that str_replace copied. */
  lemma CopiedCharStartsNoMatch(s: string, pat: string, rep: string)
    requires |pat| > 0 && |rep| > 0 && rep[0] !in pat
    requires s != [] && !(pat <= s)
    ensures !(pat <= [s[0]] + ReplaceAll(s[1..], pat, rep))
  {
    var x := ReplaceAll(s[1..], pat, rep);
    if pat <= [s[0]] + x {
      assert pat[1..] <= x;
      assert rep[0] !in pat[1..] by {
        forall i | 0 <= i < |pat| - 1 ensures pat[1..][i] != rep[0] {
          assert pat[1..][i] == pat[i + 1];
        }
      }
      OutputPrefixFromInput(s[1..], pat[1..], pat, rep);
      assert false;
    }
  }

  /** `explode($sep, $s)` for a one-character separator: at least one
      piece, and no piece holds the separator. */
  function Split(s: string, sep: char): (parts: seq<string>)
    ensures |parts| >= 1
    ensures forall i :: 0 <= i < |parts| ==> sep !in parts[i]
  {
    if s == [] then [""]
    else
      var rest := Split(s[1..], sep);
      if s[0] == sep then [""] + rest
      else [[s[0]] + rest[0]] + rest[1..]
  }

  /** `implode($sep, $parts)` */
  function Join(parts: seq<string>, sep: char): string
    requires |parts| >= 1
  {
    if |parts| == 1 then parts[0] else parts[0] + [sep] + Join(parts[1..], sep)
  }

  /** Splitting loses nothing: joining the pieces gives the subject back. */
  lemma {:induction false} JoinSplit(s: string, sep: char)
    ensures Join(Split(s, sep), sep) == s
  {
    if s != [] {
      JoinSplit(s[1..], sep);
      var rest := Split(s[1..], sep);
      if s[0] != sep {
        var parts := Split(s, sep);
        assert parts[0] == [s[0]] + rest[0] && parts[1..] == rest[1..];
        if |rest| == 1 {
          assert Join(parts, sep) == [s[0]] + rest[0];
        } else {
          assert Join(parts, sep) == [s[0]] + rest[0] + [sep] + Join(rest[1..], sep);
        }
      }
    }
  }

  lemma {:induction false} SplitAfterSeparator(a: string, b: string, sep: char)
    requires sep !in a
    ensures Split(a + [sep] + b, sep) == [a] + Split(b, sep)
  {
    if a == [] {
      assert a + [sep] + b == [sep] + b;
      assert ([sep] + b)[1..] == b;
    } else {
      SplitAfterSeparator(a[1..], b, sep);
      assert (a + [sep] + b)[1..] == a[1..] + [sep] + b;
      assert [a[0]] + a[1..] == a;
    }
  }

  lemma {:induction false} SplitNoSeparator(a: string, sep: char)
    requires sep !in a
    ensures Split(a, sep) == [a]
  {
    if a != [] {
      SplitNoSeparator(a[1..], sep);
      assert [a[0]] + a[1..] == a;
    }
  }

  /** Pieces free of the separator come back unchanged from joining and
      splitting, so `explode` inverts `implode` on such pieces. */
  lemma {:induction false} SplitJoin(parts: seq<string>, sep: char)
    requires |parts| >= 1
    requires forall i :: 0 <= i < |parts| ==> sep !in parts[i]
    ensures Split(Join(parts, sep), sep) == parts
  {
    if |parts| == 1 {
      SplitNoSeparator(parts[0], sep);
    } else {
      SplitJoin(parts[1..], sep);
      SplitAfterSeparator(parts[0], Join(parts[1..], sep), sep);
      assert [parts[0]] + parts[1..] == parts;
    }
  }
  /** A character that is neither the separator nor in any piece is not in
      their join. */
  lemma {:induction false} JoinAvoids(parts: seq<string>, sep: char, c: char)
    requires |parts| >= 1 && c != sep
    requires forall i :: 0 <= i < |parts| ==> c !in parts[i]
    ensures c !in Join(parts, sep)
  {
    if |parts| > 1 {
      JoinAvoids(parts[1..], sep, c);
      assert parts[1..][0] == parts[1];
    }
  }
}
