/**
 * The values the bot handles: what Python's `json` module decodes an API body
 * into, with the pieces of Python behaviour the bot relies on: truthiness,
 * `type(x).__name__`, dictionary lookup, substring search and `str()`.
 */
module PyJson {

  datatype Option<T> = None | Some(value: T)

  /** A key/value entry of a dict. */
  type Member = (string, Json)

  /**
   * A decoded JSON value. A dict is kept as its entries in insertion order,
   * as a Python dict keeps them; its keys are expected to be distinct, and a
   * lookup takes the first entry with the key.
   */
  datatype Json =
    | JNull
    | JBool(b: bool)
    | JInt(i: int)
    | JString(s: string)
    | JList(items: seq<Json>)
    | JObject(members: seq<Member>)

  /** Python's `not x`: None, False, 0, "", [] and {} are the falsy values. */
  predicate Falsy(j: Json) {
    match j
    case JNull => true
    case JBool(b) => !b
    case JInt(i) => i == 0
    case JString(s) => s == ""
    case JList(items) => items == []
    case JObject(members) => members == []
  }

  /** The falsy values are exactly the six empty or zero ones, one of each type. */
  lemma FalsyValues(j: Json)
    ensures Falsy(j) <==> j in [JNull, JBool(false), JInt(0), JString(""), JList([]), JObject([])]
  {
  }

  /** `type(x).__name__` */
  function TypeName(j: Json): string {
    match j
    case JNull => "NoneType"
    case JBool(_) => "bool"
    case JInt(_) => "int"
    case JString(_) => "str"
    case JList(_) => "list"
    case JObject(_) => "dict"
  }

  /** The value stored under `key`, if the dict has that key. */
  function Lookup(members: seq<Member>, key: string): (r: Option<Json>)
    ensures r.Some? <==> exists k :: 0 <= k < |members| && members[k].0 == key
    ensures r.Some? ==> exists k :: 0 <= k < |members| && members[k] == (key, r.value) &&
                                 forall i :: 0 <= i < k ==> members[i].0 != key
  {
    if members == [] then None
    else if members[0].0 == key then Some(members[0].1)
    else Lookup(members[1..], key)
  }

  /** `key in d` for a dict `d`. */
  predicate HasKey(members: seq<Member>, key: string) {
    Lookup(members, key).Some?
  }

  /** `d.get(key)`: the stored value, or None when the key is absent. */
  function Get(members: seq<Member>, key: string): (r: Json)
    ensures !HasKey(members, key) ==> r == JNull
    ensures HasKey(members, key) ==> exists k :: 0 <= k < |members| && members[k] == (key, r)
  {
    match Lookup(members, key)
    case Some(v) => v
    case None => JNull
  }

  /** `needle in hay` for two strings: `needle` occurs somewhere in `hay`. */
  predicate IsSubstring(needle: string, hay: string)
    decreases |hay|
  {
    needle <= hay || (|hay| > 0 && IsSubstring(needle, hay[1..]))
  }

  /** `needle` occurs in `hay` starting at position `p`. */
  predicate OccursAt(needle: string, hay: string, p: int) {
    0 <= p && p + |needle| <= |hay| && hay[p..p + |needle|] == needle
  }

  /** `IsSubstring` is exactly "occurs at some position". */
  lemma {:induction false} IsSubstringAt(needle: string, hay: string)
    ensures IsSubstring(needle, hay) <==> exists p :: OccursAt(needle, hay, p)
    decreases |hay|
  {
    if |hay| > 0 {
      IsSubstringAt(needle, hay[1..]);
    }
    if needle <= hay {
      assert OccursAt(needle, hay, 0);
    }
    if |hay| > 0 && IsSubstring(needle, hay[1..]) {
      var p :| OccursAt(needle, hay[1..], p);
      assert OccursAt(needle, hay, p + 1);
    }
    forall p | OccursAt(needle, hay, p)
      ensures IsSubstring(needle, hay)
    {
      if p == 0 {
        assert needle <= hay;
      } else {
        assert OccursAt(needle, hay[1..], p - 1);
      }
    }
  }

  predicate IsDigit(c: char) {
    '0' <= c <= '9'
  }

  predicate AllDigits(s: string) {
    forall k :: 0 <= k < |s| ==> IsDigit(s[k])
  }

  /** `str(n)` for a non-negative int: its decimal digits, without leading zeros. */
  function NatToString(n: nat): (r: string)
    ensures |r| > 0 && AllDigits(r)
    ensures r[0] == '0' ==> n == 0
  {
    if n < 10 then ["0123456789"[n]]
    else NatToString(n / 10) + ["0123456789"[n % 10]]
  }

  /** `str(i)` for any int. */
  function IntToString(i: int): (r: string)
    ensures |r| > 0
    ensures r[0] == '-' <==> i < 0
    ensures i < 0 ==> |r| > 1 && AllDigits(r[1..])
    ensures i >= 0 ==> AllDigits(r)
  {
    if i < 0 then "-" + NatToString(-i) else NatToString(i)
  }

  /** The number a string of decimal digits denotes. */
  function NatValue(s: string): nat
    requires AllDigits(s)
  {
    if s == [] then 0 else NatValue(s[..|s| - 1]) * 10 + (s[|s| - 1] as int - '0' as int)
  }

  /**
   * `int(s)` for an optional minus sign followed by at least one decimal
   * digit; None stands for the `ValueError` raised on any other text. The
   * other forms Python accepts (a `+` sign, surrounding whitespace, `_`
   * between digits) are read as None here.
   */
  function DecimalValue(s: string): (r: Option<int>)
    ensures r.Some? ==> |s| > 0 && (s[0] == '-' || IsDigit(s[0]))
  {
    if |s| > 1 && s[0] == '-' && AllDigits(s[1..]) then Some(0 - NatValue(s[1..]))
    else if |s| > 0 && AllDigits(s) then Some(NatValue(s))
    else None
  }

  lemma {:induction false} NatToStringRoundTrip(n: nat)
    ensures NatValue(NatToString(n)) == n
  {
    if n >= 10 {
      NatToStringRoundTrip(n / 10);
      var r := NatToString(n);
      assert r[..|r| - 1] == NatToString(n / 10);
    }
  }

  /** `int(str(i)) == i`: the decimal text of an int determines it. */
  lemma IntToStringRoundTrip(i: int)
    ensures DecimalValue(IntToString(i)) == Some(i)
  {
    var r := IntToString(i);
    if i < 0 {
      var n: nat := -i;
      NatToStringRoundTrip(n);
      assert r == "-" + NatToString(n);
      assert r[1..] == NatToString(n);
    } else {
      NatToStringRoundTrip(i);
      assert IsDigit(r[0]);
    }
  }

  /** The quote `repr` puts around a string: `"` when the text holds `'` but no `"`. */
  function QuoteFor(s: string): char {
    if '\'' in s && '"' !in s then '"' else '\''
  }

  /** How `repr` writes one character of a string quoted with `q`. */
  function EscapeChar(c: char, q: char): string {
    if c == '\\' then "\\\\"
    else if c == q then ['\\', q]
    else if c == '\n' then "\\n"
    else if c == '\r' then "\\r"
    else if c == '\t' then "\\t"
    else [c]
  }

  /** The body of a string's `repr` between the quotes `q`. */
  function EscapeChars(s: string, q: char): string {
    if s == [] then "" else EscapeChar(s[0], q) + EscapeChars(s[1..], q)
  }

  /** The character a backslash escape `\c` stands for. */
  function UnescapeChar(c: char): char {
    if c == 'n' then '\n' else if c == 'r' then '\r' else if c == 't' then '\t' else c
  }

  /** Reads the body of a string literal back: each backslash escape becomes its character. */
  function Unescape(e: string): string
    decreases |e|
  {
    if e == [] then ""
    else if e[0] == '\\' && |e| >= 2 then [UnescapeChar(e[1])] + Unescape(e[2..])
    else [e[0]] + Unescape(e[1..])
  }

  /** The escaped body of a `repr` reads back as the original string. */
  lemma {:induction false} UnescapeEscape(s: string, q: char)
    requires q == '\'' || q == '"'
    ensures Unescape(EscapeChars(s, q)) == s
  {
    if s != [] {
      UnescapeEscape(s[1..], q);
      var e := EscapeChar(s[0], q);
      var rest := EscapeChars(s[1..], q);
      if |e| == 2 {
        assert (e + rest)[2..] == rest;
      } else {
        assert (e + rest)[1..] == rest;
      }
    }
  }

  /** A string with nothing `repr` escapes. */
  predicate Plain(s: string) {
    forall k :: 0 <= k < |s| ==> s[k] != '\\' && s[k] != '\'' && s[k] != '"' &&
                                 s[k] != '\n' && s[k] != '\r' && s[k] != '\t'
  }

  /** A plain string is written unchanged between the quotes. */
  lemma {:induction false} EscapePlain(s: string, q: char)
    requires Plain(s) && (q == '\'' || q == '"')
    ensures EscapeChars(s, q) == s
  {
    if s != [] {
      assert Plain(s[1..]) by {
        forall k | 0 <= k < |s[1..]|
          ensures s[1..][k] == s[k + 1]
        {
        }
      }
      EscapePlain(s[1..], q);
      assert s == [s[0]] + s[1..];
    }
  }

  function Join(parts: seq<string>, sep: string): string {
    if parts == [] then ""
    else if |parts| == 1 then parts[0]
    else parts[0] + sep + Join(parts[1..], sep)
  }

  /** `repr(s)` for a string. */
  function QuoteString(s: string): string {
    var q := QuoteFor(s);
    [q] + EscapeChars(s, q) + [q]
  }

  /** `repr(x)`: how a value is written inside a list or dict, or on its own when not a str. */
  function Repr(j: Json): (r: string)
    ensures |r| > 0
    ensures j.JInt? ==> DecimalValue(r) == Some(j.i)
    ensures j.JString? ==> |r| >= 2 && r[0] == QuoteFor(j.s) && r[|r| - 1] == QuoteFor(j.s) &&
                           Unescape(r[1..|r| - 1]) == j.s
    ensures j.JList? ==> r[0] == '[' && r[|r| - 1] == ']'
    ensures j.JObject? ==> r[0] == '{' && r[|r| - 1] == '}'
    decreases j
  {
    match j
    case JNull => "None"
    case JBool(b) => if b then "True" else "False"
    case JInt(i) =>
      IntToStringRoundTrip(i);
      IntToString(i)
    case JString(s) =>
      var q := QuoteFor(s);
      UnescapeEscape(s, q);
      assert QuoteString(s)[1..|QuoteString(s)| - 1] == EscapeChars(s, q);
      QuoteString(s)
    case JList(items) =>
      "[" + Join(seq(|items|, k requires 0 <= k < |items| => Repr(items[k])), ", ") + "]"
    case JObject(members) =>
      "{" + Join(seq(|members|, k requires 0 <= k < |members| =>
                   QuoteString(members[k].0) + ": " + Repr(members[k].1)), ", ") + "}"
  }

  /** `repr` of a string without quotes, backslashes or control escapes is the string in single quotes. */
  lemma ReprPlainString(s: string)
    requires Plain(s)
    ensures Repr(JString(s)) == "'" + s + "'"
  {
    assert '\'' !in s by {
      forall k | 0 <= k < |s|
        ensures s[k] != '\''
      {
      }
    }
    EscapePlain(s, '\'');
  }

  /** A one-element list is written as its element's `repr` in brackets. */
  lemma ReprSingletonList(x: Json)
    ensures Repr(JList([x])) == "[" + Repr(x) + "]"
  {
    var parts := seq(1, k requires 0 <= k < 1 => Repr([x][k]));
    assert parts == [Repr(x)];
  }

  /** A one-entry dict is written as its key's `repr`, a colon and its value's `repr`, in braces. */
  lemma ReprSingletonDict(key: string, value: Json)
    ensures Repr(JObject([(key, value)])) == "{" + QuoteString(key) + ": " + Repr(value) + "}"
  {
    var members := [(key, value)];
    var parts := seq(1, k requires 0 <= k < 1 => QuoteString(members[k].0) + ": " + Repr(members[k].1));
    assert parts == [QuoteString(key) + ": " + Repr(value)];
  }

  /** `str(x)`, which is what an f-string interpolates. */
  function Str(j: Json): (r: string)
    ensures j.JString? ==> r == j.s
    ensures !j.JString? ==> r == Repr(j)
    ensures j.JInt? ==> DecimalValue(r) == Some(j.i)
  {
    if j.JString? then j.s else Repr(j)
  }
}
