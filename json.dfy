/**
 * A decoded JSON value as Python's `json` module hands it to the bot, together
 * with the few Python built-ins the bot applies to such values: truthiness,
 * `len`, `key in d`, `d[key]` and `str`.
 */
module Json {
  import opened Wrappers

  /**
   * `null`, `true`/`false`, integers, strings, arrays and objects. An object is
   * the decoded `dict`: its keys in insertion order, each at most once.
   */
  datatype Json =
    | JNull
    | JBool(b: bool)
    | JInt(i: int)
    | JStr(s: string)
    | JList(items: seq<Json>)
    | JObj(fields: seq<Field>)

  /** One `key: value` entry of an object. */
  datatype Field = Field(key: string, value: Json)

  /** `type(v).__name__` in Python. */
  function TypeName(v: Json): string {
    match v
    case JNull => "NoneType"
    case JBool(_) => "bool"
    case JInt(_) => "int"
    case JStr(_) => "str"
    case JList(_) => "list"
    case JObj(_) => "dict"
  }

  /** `bool(v)` in Python: `None`, `False`, `0` and empty containers are false. */
  predicate Truthy(v: Json) {
    match v
    case JNull => false
    case JBool(b) => b
    case JInt(i) => i != 0
    case JStr(s) => s != ""
    case JList(items) => items != []
    case JObj(fields) => fields != []
  }

  /** The falsy values are exactly `None`, `False`, `0` and the empty string, list and dict. */
  lemma FalsyValues(v: Json)
    ensures !Truthy(v) <==> v in {JNull, JBool(false), JInt(0), JStr(""), JList([]), JObj([])}
  {
  }

  /** `key in d` for a dict with the given fields. */
  predicate HasKey(fields: seq<Field>, key: string) {
    exists k :: 0 <= k < |fields| && fields[k].key == key
  }

  /** `d[key]` for a dict: the value stored under `key`, or `None` for a `KeyError`. */
  function Lookup(fields: seq<Field>, key: string): (r: Option<Json>)
    ensures r.Some? <==> HasKey(fields, key)
    ensures r.Some? ==> Field(key, r.value) in fields
  {
    if fields == [] then None
    else if fields[0].key == key then Some(fields[0].value)
    else
      var rest := Lookup(fields[1..], key);
      assert HasKey(fields, key) ==> HasKey(fields[1..], key) by {
        if HasKey(fields, key) {
          var k :| 0 <= k < |fields| && fields[k].key == key;
          assert 0 < k && fields[1..][k - 1].key == key;
        }
      }
      assert HasKey(fields[1..], key) ==> HasKey(fields, key) by {
        if HasKey(fields[1..], key) {
          var k :| 0 <= k < |fields[1..]| && fields[1..][k].key == key;
          assert fields[k + 1].key == key;
        }
      }
      rest
  }

  /**
   * `len(v)` in Python: the number of characters, elements or keys; `None` when
   * `len` raises `TypeError` because the value has no length.
   */
  function Len(v: Json): (r: Option<nat>)
    ensures r.None? <==> v.JNull? || v.JBool? || v.JInt?
    ensures r.Some? ==> (r.value == 0 <==> !Truthy(v))
  {
    match v
    case JStr(s) => Some(|s|)
    case JList(items) => Some(|items|)
    case JObj(fields) => Some(|fields|)
    case _ => None
  }

  /** `str(v)` in Python: what an f-string inserts for `{v}`. */
  function Str(v: Json): (r: string)
    ensures v.JStr? ==> r == v.s
    ensures v.JList? ==> |r| >= 2 && r[0] == '[' && r[|r| - 1] == ']'
    ensures v.JObj? ==> |r| >= 2 && r[0] == '{' && r[|r| - 1] == '}'
  {
    if v.JStr? then v.s else Repr(v)
  }

  /** `repr(v)` in Python. */
  function Repr(v: Json): (r: string)
    ensures |r| > 0
    ensures v.JStr? && (forall k :: 0 <= k < |v.s| ==> PlainChar(v.s[k])) ==> r == "'" + v.s + "'"
    ensures v.JList? ==> |r| >= 2 && r[0] == '[' && r[|r| - 1] == ']'
    ensures v.JObj? ==> |r| >= 2 && r[0] == '{' && r[|r| - 1] == '}'
    decreases v
  {
    match v
    case JNull => "None"
    case JBool(b) => if b then "True" else "False"
    case JInt(i) => Decimal(i)
    case JStr(s) =>
      if forall k :: 0 <= k < |s| ==> PlainChar(s[k]) then
        QuotePlain(s);
        Quote(s)
      else
        Quote(s)
    case JList(items) => "[" + ReprItems(items) + "]"
    case JObj(fields) => "{" + ReprFields(fields) + "}"
  }

  /** The elements of a list, each by `repr`, separated by `", "`. */
  function ReprItems(items: seq<Json>): string
    decreases items
  {
    if items == [] then ""
    else if |items| == 1 then Repr(items[0])
    else Repr(items[0]) + ", " + ReprItems(items[1..])
  }

  /** The entries of a dict as `'key': value`, separated by `", "`. */
  function ReprFields(fields: seq<Field>): string
    decreases fields
  {
    if fields == [] then ""
    else
      var entry := Quote(fields[0].key) + ": " + Repr(fields[0].value);
      if |fields| == 1 then entry else entry + ", " + ReprFields(fields[1..])
  }

  /**
   * `repr(s)` for a string: single quotes unless the string holds a single
   * quote and no double quote; backslash, the chosen quote, newline, carriage
   * return and tab are escaped.
   */
  function Quote(s: string): (r: string)
    ensures |r| >= 2
  {
    var q := if '\'' in s && '"' !in s then '"' else '\'';
    [q] + Escape(s, q) + [q]
  }

  function Escape(s: string, q: char): string {
    if s == [] then ""
    else
      var c := s[0];
      var e :=
        if c == '\\' then "\\\\"
        else if c == q then ['\\', q]
        else if c == '\n' then "\\n"
        else if c == '\r' then "\\r"
        else if c == '\t' then "\\t"
        else [c];
      e + Escape(s[1..], q)
  }

  /** A character `repr` writes as itself inside quotes. */
  predicate PlainChar(c: char) {
    c != '\\' && c != '\'' && c != '"' && c != '\n' && c != '\r' && c != '\t'
  }

  /** Escaping leaves a string of plain characters as it is. */
  lemma {:induction false} EscapePlain(s: string, q: char)
    requires forall k :: 0 <= k < |s| ==> PlainChar(s[k])
    requires q == '\'' || q == '"'
    ensures Escape(s, q) == s
  {
    if s != [] {
      EscapePlain(s[1..], q);
      assert s == [s[0]] + s[1..];
    }
  }

  /** `repr` of a string of plain characters is that string in single quotes. */
  lemma QuotePlain(s: string)
    requires forall k :: 0 <= k < |s| ==> PlainChar(s[k])
    ensures Quote(s) == "'" + s + "'"
  {
    assert forall k :: 0 <= k < |s| ==> s[k] != '\'';
    EscapePlain(s, '\'');
  }

  /** `str(i)` for an integer: an optional minus sign, then decimal digits. */
  function Decimal(i: int): (r: string)
    ensures |r| > 0
  {
    if i < 0 then "-" + Digits(-i) else Digits(i)
  }

  function Digits(n: nat): (r: string)
    ensures |r| > 0
  {
    var d := "0123456789"[n % 10];
    if n < 10 then [d] else Digits(n / 10) + [d]
  }
}
