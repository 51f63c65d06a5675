/**
 * JSON values as Python holds them after decoding (None, bool, int, str, list, dict),
 * dictionary lookup with a default, and the text Python's str() gives them, which is
 * what an f-string interpolates.
 */
module PyJson {
  import opened Wrappers
  import Decimal

  /**
   * A decoded JSON value. An object's fields are the members in document order; when
   * a key is repeated, decoding keeps its last value, which is what `Get` returns.
   */
  datatype Json =
    | JNull
    | JBool(b: bool)
    | JInt(i: int)
    | JStr(s: string)
    | JArr(items: seq<Json>)
    | JObj(fields: seq<Field>)

  datatype Field = Field(key: string, value: Json)

  /**
   * `d.get(key)` on the dict decoded from these members: the value of the last member
   * with that key, if any.
   */
  function Get(fields: seq<Field>, key: string): (r: Option<Json>)
    ensures r.None? <==> forall i :: 0 <= i < |fields| ==> fields[i].key != key
    ensures r.Some? ==>
      exists i :: 0 <= i < |fields| && fields[i] == Field(key, r.value) &&
        forall j :: i < j < |fields| ==> fields[j].key != key
  {
    if fields == [] then None
    else if fields[|fields| - 1].key == key then Some(fields[|fields| - 1].value)
    else
      var init := fields[..|fields| - 1];
      var r := Get(init, key);
      assert fields == init + [fields[|fields| - 1]];
      r
  }

  /** `d.get(key, default)` on a dict. */
  function GetOr(fields: seq<Field>, key: string, default: Json): Json {
    match Get(fields, key)
    case Some(v) => v
    case None => default
  }

  /** Python's str() of a decoded value: a string is itself, anything else its repr(). */
  function Str(j: Json): string {
    if j.JStr? then j.s else Repr(j)
  }

  /** Python's repr() of a decoded value. */
  function Repr(j: Json): string
    decreases j
  {
    match j
    case JNull => "None"
    case JBool(b) => if b then "True" else "False"
    case JInt(i) => Decimal.IntToString(i)
    case JStr(s) => ReprString(s)
    case JArr(items) => "[" + ReprItems(j, 0) + "]"
    case JObj(fields) => "{" + ReprFields(j, 0) + "}"
  }

  /** The list items from position k on, each as repr() writes it, separated by ", ". */
  function ReprItems(j: Json, k: nat): string
    requires j.JArr? && k <= |j.items|
    decreases j, |j.items| - k
  {
    if k == |j.items| then ""
    else (if k == 0 then "" else ", ") + Repr(j.items[k]) + ReprItems(j, k + 1)
  }

  /** The dict entries from position k on, as `'key': value`, separated by ", ". */
  function ReprFields(j: Json, k: nat): string
    requires j.JObj? && k <= |j.fields|
    decreases j, |j.fields| - k
  {
    if k == |j.fields| then ""
    else
      var f := j.fields[k];
      assert f < j;
      (if k == 0 then "" else ", ") + (ReprString(f.key) + ": " + Repr(f.value)) + ReprFields(j, k + 1)
  }

  /** The parts in order, with ", " between each two neighbours. */
  function Joined(parts: seq<string>): string {
    if parts == [] then "" else parts[0] + EachAfterComma(parts[1..])
  }

  /** Each part preceded by ", ". */
  function EachAfterComma(parts: seq<string>): string {
    if parts == [] then "" else ", " + parts[0] + EachAfterComma(parts[1..])
  }

  /** The repr() of each list item. */
  function ItemTexts(items: seq<Json>): (r: seq<string>)
    ensures |r| == |items| && forall i :: 0 <= i < |items| ==> r[i] == Repr(items[i])
  {
    seq(|items|, i requires 0 <= i < |items| => Repr(items[i]))
  }

  /** Each dict entry as `key: value`, both written by repr(). */
  function FieldTexts(fields: seq<Field>): (r: seq<string>)
    ensures |r| == |fields| &&
      forall i :: 0 <= i < |fields| ==> r[i] == ReprString(fields[i].key) + ": " + Repr(fields[i].value)
  {
    seq(|fields|, i requires 0 <= i < |fields| => ReprString(fields[i].key) + ": " + Repr(fields[i].value))
  }

  lemma {:induction false} ReprItemsFrom(j: Json, k: nat)
    requires j.JArr? && 0 < k <= |j.items|
    ensures ReprItems(j, k) == EachAfterComma(ItemTexts(j.items)[k..])
    decreases |j.items| - k
  {
    if k < |j.items| {
      ReprItemsFrom(j, k + 1);
      assert ItemTexts(j.items)[k..][1..] == ItemTexts(j.items)[k + 1..];
    }
  }

  lemma {:induction false} ReprFieldsFrom(j: Json, k: nat)
    requires j.JObj? && 0 < k <= |j.fields|
    ensures ReprFields(j, k) == EachAfterComma(FieldTexts(j.fields)[k..])
    decreases |j.fields| - k
  {
    if k < |j.fields| {
      ReprFieldsFrom(j, k + 1);
      assert FieldTexts(j.fields)[k..][1..] == FieldTexts(j.fields)[k + 1..];
    }
  }

  /** The first list item, written without a separator before it. */
  lemma ReprItemsHead(items: seq<Json>)
    requires items != []
    ensures ReprItems(JArr(items), 0) == ItemTexts(items)[0] + ReprItems(JArr(items), 1)
  {
  }

  /** repr() of a list: the items' repr() separated by ", " between brackets. */
  lemma ReprList(items: seq<Json>)
    ensures Repr(JArr(items)) == "[" + Joined(ItemTexts(items)) + "]"
  {
    var j := JArr(items);
    assert Repr(j) == "[" + ReprItems(j, 0) + "]";
    if items != [] {
      ReprItemsHead(items);
      ReprItemsFrom(j, 1);
    }
  }

  /** The first dict entry, written without a separator before it. */
  lemma ReprFieldsHead(fields: seq<Field>)
    requires fields != []
    ensures ReprFields(JObj(fields), 0) == FieldTexts(fields)[0] + ReprFields(JObj(fields), 1)
  {
  }

  /** repr() of a dict: its `key: value` entries separated by ", " between braces. */
  lemma ReprDict(fields: seq<Field>)
    ensures Repr(JObj(fields)) == "{" + Joined(FieldTexts(fields)) + "}"
  {
    var j := JObj(fields);
    assert Repr(j) == "{" + ReprFields(j, 0) + "}";
    if fields != [] {
      ReprFieldsHead(fields);
      ReprFieldsFrom(j, 1);
    }
  }

  /** A one-member dict, such as an `error` object with a single member. */
  lemma ReprOneMemberDict(key: string, value: Json)
    ensures Repr(JObj([Field(key, value)])) == "{" + ReprString(key) + ": " + Repr(value) + "}"
  {
    ReprDict([Field(key, value)]);
  }

  const HEX_DIGITS := "0123456789abcdef"

  /** Python quotes with double quotes only for text that has a single quote and no double one. */
  function QuoteFor(s: string): (q: char)
    ensures q == '\'' || q == '"'
  {
    if '\'' in s && '"' !in s then '"' else '\''
  }

  /** Characters repr() writes as a two-digit hexadecimal escape. */
  predicate HexEscaped(c: char) {
    var n := c as int;
    n < 0x20 || (0x7F <= n <= 0xA0) || n == 0xAD
  }

  /** How repr() writes one character inside quotes q. */
  function EscapeChar(c: char, q: char): string {
    if c == '\\' then "\\\\"
    else if c == q then ['\\', q]
    else if c == '\t' then "\\t"
    else if c == '\n' then "\\n"
    else if c == '\r' then "\\r"
    else if HexEscaped(c) then "\\x" + [HEX_DIGITS[(c as int) / 16], HEX_DIGITS[(c as int) % 16]]
    else [c]
  }

  function EscapeAll(s: string, q: char): string {
    if s == [] then "" else EscapeChar(s[0], q) + EscapeAll(s[1..], q)
  }

  /** Python's repr() of a str: quotes chosen as Python chooses them, special characters escaped. */
  function ReprString(s: string): string {
    var q := QuoteFor(s);
    [q] + EscapeAll(s, q) + [q]
  }

  /** The value of a lower-case hexadecimal digit. */
  function HexValue(c: char): (d: nat)
    ensures d < 16
  {
    if '0' <= c <= '9' then (c as int) - ('0' as int)
    else if 'a' <= c <= 'f' then (c as int) - ('a' as int) + 10
    else 0
  }

  /** Reads the body of a Python string literal written with quotes q back to its text. */
  function Unescape(t: string, q: char): string
    decreases |t|
  {
    if t == [] then ""
    else if t[0] == '\\' && |t| >= 2 then
      var e := t[1];
      if e == 'x' && |t| >= 4 then
        [(HexValue(t[2]) * 16 + HexValue(t[3])) as char] + Unescape(t[4..], q)
      else
        [if e == 't' then '\t' else if e == 'n' then '\n' else if e == 'r' then '\r' else e]
        + Unescape(t[2..], q)
    else [t[0]] + Unescape(t[1..], q)
  }

  lemma UnescapeHexEscape(c: char, q: char, rest: string)
    requires HexEscaped(c)
    ensures Unescape("\\x" + [HEX_DIGITS[(c as int) / 16], HEX_DIGITS[(c as int) % 16]] + rest, q)
      == [c] + Unescape(rest, q)
  {
    var n := c as int;
    var t := "\\x" + [HEX_DIGITS[n / 16], HEX_DIGITS[n % 16]] + rest;
    assert HexValue(t[2]) == n / 16;
    assert HexValue(t[3]) == n % 16;
    assert t[4..] == rest;
  }

  lemma UnescapeOneChar(c: char, q: char, rest: string)
    requires q == '\'' || q == '"'
    ensures Unescape(EscapeChar(c, q) + rest, q) == [c] + Unescape(rest, q)
  {
    var t := EscapeChar(c, q) + rest;
    if c == '\\' || c == q || c == '\t' || c == '\n' || c == '\r' {
      assert t[2..] == rest;
    } else if HexEscaped(c) {
      UnescapeHexEscape(c, q, rest);
    } else {
      assert t[1..] == rest;
    }
  }

  /** Reading the escaped body back gives the original text. */
  lemma {:induction false} EscapeAllRoundTrip(s: string, q: char)
    requires q == '\'' || q == '"'
    ensures Unescape(EscapeAll(s, q), q) == s
  {
    if s != [] {
      UnescapeOneChar(s[0], q, EscapeAll(s[1..], q));
      EscapeAllRoundTrip(s[1..], q);
    }
  }

  /**
   * A string's repr() is its text between matching quotes, and reading the literal back
   * gives the text: repr() of distinct strings differs.
   */
  lemma ReprStringRoundTrip(s: string)
    ensures var r := ReprString(s);
      |r| >= 2 && r[0] == r[|r| - 1] == QuoteFor(s) &&
      Unescape(r[1..|r| - 1], QuoteFor(s)) == s
  {
    var r := ReprString(s);
    assert r[1..|r| - 1] == EscapeAll(s, QuoteFor(s));
    EscapeAllRoundTrip(s, QuoteFor(s));
  }
}
