/** Canonical JSON: values, their one printed form, and what can be read off it.

    Objects are printed with their keys in order, without white space, as `serde_json` prints a
    `BTreeMap`. */
module CanonicalJson {
  import opened Identifiers

  type Object = map<string, Json>

  datatype Json =
    | Null
    | Bool(b: bool)
    | Integer(i: int)
    | Str(s: string)
    | Arr(items: seq<Json>)
    | Obj(fields: Object)

  // ---- Keys in order ----

  predicate IsLeast(k: string, s: set<string>) {
    k in s && forall j | j in s :: LexLeq(k, j)
  }

  lemma {:induction false} LeastExists(s: set<string>)
    requires s != {}
    ensures exists k :: IsLeast(k, s)
  {
    var k :| k in s;
    LexTotal(k, k);
    if s == {k} {
      assert IsLeast(k, s);
    } else {
      var rest := s - {k};
      assert s == rest + {k};
      LeastExists(rest);
      var j :| IsLeast(j, rest);
      LexTotal(k, j);
      var least := if LexLeq(k, j) then k else j;
      forall m | m in s
        ensures LexLeq(least, m)
      {
        if m != k && least == k {
          LexTransitive(k, j, m);
        }
      }
      assert IsLeast(least, s);
    }
  }

  function Least(s: set<string>): (k: string)
    requires s != {}
    ensures IsLeast(k, s)
  {
    LeastExists(s);
    assert forall j, k | IsLeast(j, s) && IsLeast(k, s) :: j == k by {
      forall j, k | IsLeast(j, s) && IsLeast(k, s)
        ensures j == k
      {
        LexAntisymmetric(j, k);
      }
    }
    var k :| IsLeast(k, s);
    k
  }

  /** The members of a set in order. */
  function Sorted(s: set<string>): (r: seq<string>)
    ensures forall k :: k in r <==> k in s
    ensures |r| == |s|
  {
    if s == {} then []
    else
      var k := Least(s);
      [k] + Sorted(s - {k})
  }

  // ---- Printing ----

  function HexDigit(n: nat): char
    requires n < 16
  {
    "0123456789abcdef"[n]
  }

  /** The two-character escapes, the `\u00..` escapes of other control characters, or the character
      itself. */
  function Escape(c: char): string {
    if c == '\"' then ['\\', '\"']
    else if c == '\\' then ['\\', '\\']
    else if c == '\U{8}' then ['\\', 'b']
    else if c == '\t' then ['\\', 't']
    else if c == '\n' then ['\\', 'n']
    else if c == '\U{c}' then ['\\', 'f']
    else if c == '\r' then ['\\', 'r']
    else if c as int < 0x20 then ['\\', 'u', '0', '0', HexDigit(c as int / 16), HexDigit(c as int % 16)]
    else [c]
  }

  /** The rest of a string literal, from after its opening quote, in front of `tail`. */
  function StringTo(s: string, tail: string): string {
    if s == "" then ['\"'] + tail else Escape(s[0]) + StringTo(s[1..], tail)
  }

  predicate IsDigit(c: char) {
    '0' <= c <= '9'
  }

  function Digit(n: nat): char
    requires n < 10
  {
    "0123456789"[n]
  }

  function Digits(n: nat): (r: string)
    ensures r != "" && forall i | 0 <= i < |r| :: IsDigit(r[i])
  {
    if n < 10 then [Digit(n)] else Digits(n / 10) + [Digit(n % 10)]
  }

  function IntTo(i: int, tail: string): string {
    if i < 0 then ['-'] + (Digits(-i) + tail) else Digits(i) + tail
  }

  /** `v` printed in front of `tail`. */
  function PrintTo(v: Json, tail: string): string
    decreases v
  {
    match v
    case Null => "null" + tail
    case Bool(b) => if b then "true" + tail else "false" + tail
    case Integer(i) => IntTo(i, tail)
    case Str(s) => ['\"'] + StringTo(s, tail)
    case Arr(items) => ['['] + ItemsTo(v, 0, tail)
    case Obj(fields) => ['{'] + FieldsTo(v, Sorted(fields.Keys), tail)
  }

  /** The items from the `i`-th on and the closing bracket, in front of `tail`. */
  function ItemsTo(v: Json, i: nat, tail: string): string
    requires v.Arr? && i <= |v.items|
    decreases v, |v.items| - i
  {
    if i == |v.items| then [']'] + tail
    else
      PrintTo(v.items[i], if i + 1 == |v.items| then [']'] + tail else [','] + ItemsTo(v, i + 1, tail))
  }

  /** The given fields and the closing brace, in front of `tail`. */
  function FieldsTo(v: Json, keys: seq<string>, tail: string): string
    requires v.Obj? && forall k | k in keys :: k in v.fields
    decreases v, |keys|
  {
    if keys == [] then ['}'] + tail
    else
      var rest := if |keys| == 1 then ['}'] + tail else [','] + FieldsTo(v, keys[1..], tail);
      ['\"'] + StringTo(keys[0], [':'] + PrintTo(v.fields[keys[0]], rest))
  }

  /** What follows the `i`-th item. */
  function AfterItem(v: Json, i: nat, tail: string): string
    requires v.Arr? && i < |v.items|
  {
    if i + 1 == |v.items| then [']'] + tail else [','] + ItemsTo(v, i + 1, tail)
  }

  /** What follows the first of the given fields. */
  function AfterField(v: Json, keys: seq<string>, tail: string): string
    requires v.Obj? && keys != [] && forall k | k in keys :: k in v.fields
  {
    if |keys| == 1 then ['}'] + tail else [','] + FieldsTo(v, keys[1..], tail)
  }

  /** The canonical form. */
  function Print(v: Json): string {
    PrintTo(v, "")
  }

  // ---- Length in bytes ----

  /** Bytes of a character in UTF-8. */
  function Utf8Width(c: char): nat {
    if c as int < 0x80 then 1 else if c as int < 0x800 then 2 else if c as int < 0x10000 then 3 else 4
  }

  function ByteLength(s: string): nat {
    if s == "" then 0 else Utf8Width(s[0]) + ByteLength(s[1..])
  }
}
