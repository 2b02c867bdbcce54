/**
 * The loosely typed Python values that cross the boundary of the search tool:
 * the argument a language model hands to a tool may be a string, a dictionary,
 * a list or a scalar. The module gives their truthiness, Python's `or`,
 * `dict.get` on a string key, and `str`/`repr` for the types modelled here.
 */
module PyValues {

  datatype PyVal =
    | PyNone
    | PyBool(b: bool)
    | PyInt(i: int)
    | PyStr(s: string)
    | PyList(items: seq<PyVal>)
    | PyDict(entries: seq<(PyVal, PyVal)>)  // in insertion order, as Python 3.7+ keeps it

  /** Python's truth value: `None`, `False`, `0`, `""`, `[]` and `{}` are false, everything else true. */
  predicate Truthy(v: PyVal) {
    match v
    case PyNone => false
    case PyBool(b) => b
    case PyInt(i) => i != 0
    case PyStr(s) => s != ""
    case PyList(items) => items != []
    case PyDict(entries) => entries != []
  }

  /** Python's `a or b`: the first operand when it is truthy, otherwise the second. */
  function Or(a: PyVal, b: PyVal): PyVal {
    if Truthy(a) then a else b
  }

  /**
   * `d.get(key)` for a string key: the value under the first entry whose key
   * equals the string `key` (a dictionary has at most one), `None` when there
   * is none. A key of another type never equals a string.
   */
  function Get(entries: seq<(PyVal, PyVal)>, key: string): PyVal {
    if entries == [] then PyNone
    else if entries[0].0 == PyStr(key) then entries[0].1
    else Get(entries[1..], key)
  }

  /** The value found is the one under the first entry with the key. */
  lemma {:induction false} GetFirstMatch(entries: seq<(PyVal, PyVal)>, key: string, i: nat)
    requires i < |entries| && entries[i].0 == PyStr(key)
    requires forall j :: 0 <= j < i ==> entries[j].0 != PyStr(key)
    ensures Get(entries, key) == entries[i].1
    decreases i
  {
    if i > 0 {
      assert entries[0].0 != PyStr(key);
      assert forall j :: 0 <= j < i - 1 ==> entries[1..][j] == entries[j + 1];
      GetFirstMatch(entries[1..], key, i - 1);
    }
  }

  /** Without an entry for the key, `get` gives `None`. */
  lemma {:induction false} GetMissing(entries: seq<(PyVal, PyVal)>, key: string)
    requires forall i :: 0 <= i < |entries| ==> entries[i].0 != PyStr(key)
    ensures Get(entries, key) == PyNone
    decreases |entries|
  {
    if entries != [] {
      assert entries[0].0 != PyStr(key);
      assert forall i :: 0 <= i < |entries| - 1 ==> entries[1..][i] == entries[i + 1];
      GetMissing(entries[1..], key);
    }
  }

  /** The name `type(v)` reports. */
  function TypeName(v: PyVal): string {
    match v
    case PyNone => "NoneType"
    case PyBool(_) => "bool"
    case PyInt(_) => "int"
    case PyStr(_) => "str"
    case PyList(_) => "list"
    case PyDict(_) => "dict"
  }

  /** What `{type(v)}` prints inside an f-string, e.g. `<class 'list'>`. */
  function ClassText(v: PyVal): string {
    "<class '" + TypeName(v) + "'>"
  }

  /** Python's `str(v)`: a string is itself, every other value is its `repr`. */
  function Str(v: PyVal): (r: string)
    ensures v.PyStr? ==> r == v.s
    ensures v.PyDict? ==> |r| >= 2 && r[0] == '{' && r[|r| - 1] == '}'
    ensures v.PyList? ==> |r| >= 2 && r[0] == '[' && r[|r| - 1] == ']'
    ensures !v.PyStr? ==> |r| >= 1
  {
    if v.PyStr? then v.s else Repr(v)
  }

  /** Python's `repr(v)`; containers print the `repr` of their elements, separated by ", ". */
  function Repr(v: PyVal): (r: string)
    ensures v.PyStr? ==> |r| >= 2 && r[0] == r[|r| - 1] && (r[0] == '\'' || r[0] == '"')
    ensures v.PyList? ==> |r| >= 2 && r[0] == '[' && r[|r| - 1] == ']'
    ensures v.PyDict? ==> |r| >= 2 && r[0] == '{' && r[|r| - 1] == '}'
    ensures v.PyInt? ==> r == IntText(v.i)
    decreases v
  {
    match v
    case PyNone => "None"
    case PyBool(b) => if b then "True" else "False"
    case PyInt(i) => IntText(i)
    case PyStr(s) => StrRepr(s)
    case PyList(items) =>
      "[" + Join(seq(|items|, k requires 0 <= k < |items| => Repr(items[k]))) + "]"
    case PyDict(entries) =>
      "{" + Join(seq(|entries|, k requires 0 <= k < |entries| =>
                   Repr(entries[k].0) + ": " + Repr(entries[k].1))) + "}"
  }

  /** The parts separated by ", ". */
  function Join(parts: seq<string>): string {
    if parts == [] then ""
    else if |parts| == 1 then parts[0]
    else parts[0] + ", " + Join(parts[1..])
  }

  /**
   * `repr` of a string: single quotes, unless the text holds a single quote
   * and no double quote; backslash, the chosen quote, tab, newline and
   * carriage return escaped, other control characters as `\xNN`.
   */
  function StrRepr(s: string): string {
    var quote := if '\'' in s && '"' !in s then '"' else '\'';
    [quote] + Escape(s, quote) + [quote]
  }

  function Escape(s: string, quote: char): string {
    if s == [] then "" else EscapeChar(s[0], quote) + Escape(s[1..], quote)
  }

  /** Printable ASCII other than the backslash and the quote is kept as it is. */
  predicate PlainChar(c: char, quote: char) {
    ' ' <= c <= '~' && c != '\\' && c != quote
  }

  lemma {:induction false} EscapePlain(s: string, quote: char)
    requires forall k :: 0 <= k < |s| ==> PlainChar(s[k], quote)
    ensures Escape(s, quote) == s
    decreases |s|
  {
    if s != [] {
      EscapePlain(s[1..], quote);
    }
  }

  /**
   * A string of printable ASCII without backslash or double quote prints
   * between quotes exactly as it is: double quotes when it holds a single
   * quote, single quotes otherwise.
   */
  lemma StrReprPlain(s: string)
    requires forall k :: 0 <= k < |s| ==> ' ' <= s[k] <= '~' && s[k] != '\\' && s[k] != '"'
    ensures var quote := if '\'' in s then '"' else '\'';
            StrRepr(s) == [quote] + s + [quote]
  {
    var quote := if '\'' in s then '"' else '\'';
    assert forall k :: 0 <= k < |s| ==> PlainChar(s[k], quote);
    EscapePlain(s, quote);
  }

  function EscapeChar(c: char, quote: char): string {
    if c == '\\' then "\\\\"
    else if c == quote then ['\\', c]
    else if c == '\t' then "\\t"
    else if c == '\n' then "\\n"
    else if c == '\r' then "\\r"
    else if c as int < 0x20 || 0x7f <= c as int <= 0xa0 || c as int == 0xad then "\\x" + Hex2(c as int)
    else [c]
  }

  function Hex2(n: int): string
    requires 0 <= n < 256
  {
    [HexDigit(n / 16), HexDigit(n % 16)]
  }

  function HexDigit(d: int): char
    requires 0 <= d < 16
  {
    if d < 10 then ('0' as int + d) as char else ('a' as int + d - 10) as char
  }

  function Digit(d: int): char
    requires 0 <= d < 10
  {
    ('0' as int + d) as char
  }

  /** The decimal digits of `n`, without leading zeros. */
  function NatText(n: nat): (r: string)
    ensures 1 <= |r|
    ensures forall k :: 0 <= k < |r| ==> '0' <= r[k] <= '9'
    ensures n < 10 <==> |r| == 1
    ensures n >= 10 ==> r[0] != '0'
    decreases n
  {
    if n < 10 then [Digit(n)] else NatText(n / 10) + [Digit(n % 10)]
  }

  /** The number a string of decimal digits denotes. */
  function DigitsValue(s: string): int
    requires forall k :: 0 <= k < |s| ==> '0' <= s[k] <= '9'
  {
    if s == [] then 0 else 10 * DigitsValue(s[..|s| - 1]) + (s[|s| - 1] as int - '0' as int)
  }

  /** Printing a number loses nothing: its digits read back as the number. */
  lemma {:induction false} NatTextRoundTrip(n: nat)
    ensures DigitsValue(NatText(n)) == n
    decreases n
  {
    if n >= 10 {
      NatTextRoundTrip(n / 10);
      var t := NatText(n);
      assert t[..|t| - 1] == NatText(n / 10);
    }
  }

  /** A minus sign in front of the digits of `m` keeps them, one position further on. */
  lemma MinusSign(t: string, m: nat)
    requires 1 <= |t| && forall k :: 0 <= k < |t| ==> '0' <= t[k] <= '9'
    requires DigitsValue(t) == m && (m >= 10 ==> t[0] != '0')
    ensures var r := "-" + t;
            && 1 <= |r| && r[0] == '-'
            && (forall k :: 1 <= k < |r| ==> '0' <= r[k] <= '9')
            && DigitsValue(r[1..]) == m
            && (m >= 10 ==> r[1] != '0')
  {
    var r := "-" + t;
    assert r[1..] == t;
  }

  /** `str(i)` for an int: a minus sign before the digits of a negative number. */
  function IntText(i: int): (r: string)
    ensures 1 <= |r| && (r[0] == '-' <==> i < 0)
    ensures i >= 0 ==> (forall k :: 0 <= k < |r| ==> '0' <= r[k] <= '9') && DigitsValue(r) == i
    ensures i < 0 ==> (forall k :: 1 <= k < |r| ==> '0' <= r[k] <= '9') && DigitsValue(r[1..]) == -i
    ensures i >= 10 ==> r[0] != '0'
    ensures i <= -10 ==> r[1] != '0'
  {
    if i < 0 then
      NatTextRoundTrip(-i);
      MinusSign(NatText(-i), -i);
      "-" + NatText(-i)
    else
      NatTextRoundTrip(i);
      NatText(i)
  }
}
