/** A reader of JSON without insignificant white space, written from the grammar of RFC 8259, and the
    round trip: what the canonical form prints is read back as the same value. */
module CanonicalReader {
  import opened Wrappers
  import opened Identifiers
  import opened CanonicalJson

  // ---- The grammar ----

  function HexValue(c: char): Option<nat> {
    if '0' <= c <= '9' then Some(c as int - '0' as int)
    else if 'a' <= c <= 'f' then Some(c as int - 'a' as int + 10)
    else None
  }

  /** The character of `\uXXXX`; surrogates stand for no character. */
  function HexChar(digits: string): Option<char>
    requires |digits| == 4
  {
    match (HexValue(digits[0]), HexValue(digits[1]), HexValue(digits[2]), HexValue(digits[3]))
    case (Some(a), Some(b), Some(c), Some(d)) =>
      var code := ((a * 16 + b) * 16 + c) * 16 + d;
      if 0 <= code < 0xD800 then Some(code as char) else None
    case _ => None
  }

  /** The character of a two-character escape. */
  function EscapedChar(c: char): Option<char> {
    if c == '\"' || c == '\\' || c == '/' then Some(c)
    else if c == 'b' then Some('\U{8}')
    else if c == 'f' then Some('\U{c}')
    else if c == 'n' then Some('\n')
    else if c == 'r' then Some('\r')
    else if c == 't' then Some('\t')
    else None
  }

  /** One character of a string literal: an escape, or any character but a quote and the control ones. */
  function ReadChar(text: string): (r: Option<(char, string)>)
    ensures r.Some? ==> |r.value.1| < |text|
  {
    if text == "" || text[0] == '\"' || text[0] < ' ' then None
    else if text[0] != '\\' then Some((text[0], text[1..]))
    else if |text| >= 6 && text[1] == 'u' then
      (match HexChar(text[2..6])
       case None => None
       case Some(c) => Some((c, text[6..])))
    else if |text| >= 2 then
      match EscapedChar(text[1])
      case None => None
      case Some(c) => Some((c, text[2..]))
    else None
  }

  /** The rest of a string literal, from after its opening quote. */
  function ReadString(text: string): (r: Option<(string, string)>)
    ensures r.Some? ==> |r.value.1| < |text|
    decreases |text|
  {
    if text == "" then None
    else if text[0] == '\"' then Some(("", text[1..]))
    else
      match ReadChar(text)
      case None => None
      case Some((c, rest)) =>
        match ReadString(rest)
        case None => None
        case Some((s, after)) => Some(([c] + s, after))
  }

  /** The digits from the start on, and the number they make after `n`. */
  function ReadDigits(text: string, n: nat): (r: (nat, string))
    ensures |r.1| <= |text|
    decreases |text|
  {
    if text != "" && '0' <= text[0] <= '9' then ReadDigits(text[1..], 10 * n + (text[0] as int - '0' as int)) else (n, text)
  }

  /** A natural number: a digit, and more only after a digit other than zero. */
  function ReadNat(text: string): (r: Option<(nat, string)>)
    ensures r.Some? ==> |r.value.1| < |text|
  {
    if text == "" || !('0' <= text[0] <= '9') then None
    else if text[0] == '0' then Some((0, text[1..]))
    else Some(ReadDigits(text[1..], text[0] as int - '0' as int))
  }

  function ReadInteger(text: string): (r: Option<(Json, string)>)
    ensures r.Some? ==> |r.value.1| < |text|
  {
    if text != "" && text[0] == '-' then
      match ReadNat(text[1..])
      case None => None
      case Some((n, rest)) => Some((Integer(-(n as int)), rest))
    else
      match ReadNat(text)
      case None => None
      case Some((n, rest)) => Some((Integer(n), rest))
  }

  function ReadWord(text: string, word: string, v: Json): (r: Option<(Json, string)>)
    requires word != ""
    ensures r.Some? ==> |r.value.1| < |text|
  {
    if word <= text then Some((v, text[|word|..])) else None
  }

  function ReadValue(text: string): (r: Option<(Json, string)>)
    ensures r.Some? ==> |r.value.1| < |text|
    decreases |text|, 0
  {
    if text == "" then None
    else if text[0] == 'n' then ReadWord(text, "null", Null)
    else if text[0] == 't' then ReadWord(text, "true", Bool(true))
    else if text[0] == 'f' then ReadWord(text, "false", Bool(false))
    else if text[0] == '\"' then
      (match ReadString(text[1..])
       case None => None
       case Some((s, rest)) => Some((Str(s), rest)))
    else if text[0] == '[' then
      if |text| > 1 && text[1] == ']' then Some((Arr([]), text[2..]))
      else
        (match ReadItems(text[1..])
         case None => None
         case Some((items, rest)) => Some((Arr(items), rest)))
    else if text[0] == '{' then
      if |text| > 1 && text[1] == '}' then Some((Obj(map[]), text[2..]))
      else
        (match ReadFields(text[1..])
         case None => None
         case Some((fields, rest)) => Some((Obj(FromPairs(fields)), rest)))
    else ReadInteger(text)
  }

  /** One or more values with commas between them, and the closing bracket. */
  function ReadItems(text: string): (r: Option<(seq<Json>, string)>)
    ensures r.Some? ==> |r.value.1| < |text|
    decreases |text|, 1
  {
    match ReadValue(text)
    case None => None
    case Some((v, rest)) =>
      if rest == "" then None
      else if rest[0] == ']' then Some(([v], rest[1..]))
      else if rest[0] == ',' then
        match ReadItems(rest[1..])
        case None => None
        case Some((items, after)) => Some(([v] + items, after))
      else None
  }

  /** One or more fields with commas between them, in the order they stand in, and the closing brace. */
  function ReadFields(text: string): (r: Option<(seq<(string, Json)>, string)>)
    ensures r.Some? ==> |r.value.1| < |text|
    decreases |text|, 1
  {
    match ReadKey(text)
    case None => None
    case Some((k, value)) =>
      match ReadValue(value)
      case None => None
      case Some((v, rest)) =>
        if rest == "" then None
        else if rest[0] == '}' then Some(([(k, v)], rest[1..]))
        else if rest[0] == ',' then
          match ReadFields(rest[1..])
          case None => None
          case Some((fields, after)) => Some(([(k, v)] + fields, after))
        else None
  }

  /** A key and the colon after it. */
  function ReadKey(text: string): (r: Option<(string, string)>)
    ensures r.Some? ==> |r.value.1| < |text|
  {
    if text == "" || text[0] != '\"' then None
    else
      match ReadString(text[1..])
      case None => None
      case Some((k, rest)) => if rest != "" && rest[0] == ':' then Some((k, rest[1..])) else None
  }

  function FromPairs(fields: seq<(string, Json)>): Object {
    if fields == [] then map[]
    else
      var last := |fields| - 1;
      FromPairs(fields[..last])[fields[last].0 := fields[last].1]
  }

  /** The object a text holds, if it holds nothing else. */
  function ReadObject(text: string): Option<Object> {
    match ReadValue(text)
    case Some((Obj(o), "")) => Some(o)
    case _ => None
  }

  // ---- Strings come back ----

  lemma HexBack(n: nat)
    requires n < 16
    ensures HexValue(HexDigit(n)) == Some(n)
  {
  }

  lemma ControlBack(c: char)
    requires |Escape(c)| == 6
    ensures Escape(c)[0] == '\\' && Escape(c)[1] == 'u' && HexChar(Escape(c)[2..6]) == Some(c)
  {
    var n := c as int;
    assert n < 32 && n / 16 * 16 + n % 16 == n;
    HexBack(n / 16);
    HexBack(n % 16);
    HexBack(0);
    var digits := Escape(c)[2..6];
    assert digits == ['0', '0', HexDigit(n / 16), HexDigit(n % 16)];
  }

  lemma ShortBack(c: char)
    requires |Escape(c)| == 2
    ensures Escape(c)[0] == '\\' && Escape(c)[1] != 'u' && EscapedChar(Escape(c)[1]) == Some(c)
  {
  }

  lemma PlainBack(c: char)
    requires |Escape(c)| != 6 && |Escape(c)| != 2
    ensures Escape(c) == [c] && c != '\"' && c != '\\' && !(c < ' ')
  {
  }

  lemma CharBack(c: char, tail: string)
    ensures ReadChar(Escape(c) + tail) == Some((c, tail))
  {
    var text := Escape(c) + tail;
    assert Escape(c) != "" && text[0] == Escape(c)[0];
    assert text[|Escape(c)|..] == tail;
    if |Escape(c)| == 6 {
      ControlBack(c);
      assert text[1] == Escape(c)[1] && text[2..6] == Escape(c)[2..6];
    } else if |Escape(c)| == 2 {
      ShortBack(c);
      assert text[1] == Escape(c)[1];
    } else {
      PlainBack(c);
    }
  }

  lemma {:induction false} StringBack(s: string, tail: string)
    ensures ReadString(StringTo(s, tail)) == Some((s, tail))
  {
    if s == "" {
      assert (['\"'] + tail)[1..] == tail;
    } else {
      CharBack(s[0], StringTo(s[1..], tail));
      StringBack(s[1..], tail);
      assert s == [s[0]] + s[1..];
    }
  }

  // ---- Numbers come back ----

  /** No digit follows. */
  predicate NoDigit(tail: string) {
    tail != "" ==> !('0' <= tail[0] <= '9')
  }

  lemma DigitValue(n: nat)
    requires n < 10
    ensures '0' <= Digit(n) <= '9' && Digit(n) as int - '0' as int == n
    ensures Digit(n) == '0' <==> n == 0
  {
  }

  /** Reading the digits of `n` and more after `m`. */
  function Shifted(m: nat, n: nat): nat {
    if n < 10 then 10 * m + n else 10 * Shifted(m, n / 10) + n % 10
  }

  lemma {:induction false} DigitsOn(n: nat, m: nat, tail: string)
    ensures ReadDigits(Digits(n) + tail, m) == ReadDigits(tail, Shifted(m, n))
    decreases n
  {
    if n < 10 {
      DigitValue(n);
      assert ([Digit(n)] + tail)[1..] == tail;
    } else {
      DigitValue(n % 10);
      DigitsOn(n / 10, m, [Digit(n % 10)] + tail);
      assert Digits(n) + tail == Digits(n / 10) + ([Digit(n % 10)] + tail);
      assert ([Digit(n % 10)] + tail)[1..] == tail;
    }
  }

  lemma {:induction false} ShiftedFromZero(n: nat)
    ensures Shifted(0, n) == n
  {
    if n < 10 {
    } else {
      ShiftedFromZero(n / 10);
    }
  }

  lemma {:induction false} FirstDigit(n: nat)
    requires n > 0
    ensures '1' <= Digits(n)[0] <= '9'
  {
    if n < 10 {
      DigitValue(n);
    } else {
      FirstDigit(n / 10);
    }
  }

  lemma ReadFirst(text: string, n: nat)
    requires text != "" && '0' <= text[0] <= '9'
    ensures ReadDigits(text, n) == ReadDigits(text[1..], 10 * n + (text[0] as int - '0' as int))
  {
  }

  lemma NatRead(text: string)
    requires text != "" && '1' <= text[0] <= '9'
    ensures ReadNat(text) == Some(ReadDigits(text, 0))
  {
    ReadFirst(text, 0);
  }

  lemma ZeroBack(tail: string)
    ensures ReadNat(Digits(0) + tail) == Some((0, tail))
  {
    DigitValue(0);
    var text := [Digit(0)] + tail;
    assert text[0] == '0' && text[1..] == tail;
  }

  lemma NatBack(n: nat, tail: string)
    requires NoDigit(tail)
    ensures ReadNat(Digits(n) + tail) == Some((n, tail))
  {
    if n == 0 {
      ZeroBack(tail);
    } else {
      var text := Digits(n) + tail;
      FirstDigit(n);
      assert text[0] == Digits(n)[0];
      NatRead(text);
      DigitsOn(n, 0, tail);
      ShiftedFromZero(n);
    }
  }

  lemma IntegerBack(i: int, tail: string)
    requires NoDigit(tail)
    ensures ReadInteger(IntTo(i, tail)) == Some((Integer(i), tail))
    ensures IntTo(i, tail) != "" && (IntTo(i, tail)[0] == '-' || '0' <= IntTo(i, tail)[0] <= '9')
  {
    var digits := Digits(if i < 0 then -i else i);
    NatBack(if i < 0 then -i else i, tail);
    assert IsDigit(digits[0]);
    if i < 0 {
      assert IntTo(i, tail)[1..] == digits + tail;
    }
  }

  // ---- Values come back ----

  lemma WordBack(word: string, v: Json, tail: string)
    requires word != ""
    ensures ReadWord(word + tail, word, v) == Some((v, tail))
  {
    assert (word + tail)[..|word|] == word && (word + tail)[|word|..] == tail;
  }

  /** The first character of a printed value tells its kind, and closes nothing. */
  lemma ValueStart(v: Json, tail: string)
    ensures PrintTo(v, tail) != "" && PrintTo(v, tail)[0] != ']' && PrintTo(v, tail)[0] != '}'
  {
    if v.Integer? {
      assert IsDigit(Digits(if v.i < 0 then -v.i else v.i)[0]);
    }
  }

  lemma ArrayBack(text: string, body: string, items: seq<Json>, tail: string)
    requires text == ['['] + body && body != "" && body[0] != ']' && ReadItems(body) == Some((items, tail))
    ensures ReadValue(text) == Some((Arr(items), tail))
  {
    assert text[1..] == body && text[1] == body[0];
  }

  lemma ObjectTextBack(text: string, body: string, fields: seq<(string, Json)>, tail: string)
    requires text == ['{'] + body && body != "" && body[0] != '}' && ReadFields(body) == Some((fields, tail))
    ensures ReadValue(text) == Some((Obj(FromPairs(fields)), tail))
  {
    assert text[1..] == body && text[1] == body[0];
  }

  lemma EmptyBack(tail: string)
    ensures ReadValue(['['] + ([']'] + tail)) == Some((Arr([]), tail))
    ensures ReadValue(['{'] + (['}'] + tail)) == Some((Obj(map[]), tail))
  {
    var a, o := ['['] + ([']'] + tail), ['{'] + (['}'] + tail);
    assert a[1] == ']' && a[2..] == tail;
    assert o[1] == '}' && o[2..] == tail;
  }

  lemma StringValueBack(s: string, tail: string)
    ensures ReadValue(['\"'] + StringTo(s, tail)) == Some((Str(s), tail))
  {
    StringBack(s, tail);
    assert (['\"'] + StringTo(s, tail))[1..] == StringTo(s, tail);
  }

  lemma ScalarBack(v: Json, tail: string)
    requires NoDigit(tail) && (v.Null? || v.Bool? || v.Integer?)
    ensures ReadValue(PrintTo(v, tail)) == Some((v, tail))
  {
    match v
    case Null => WordBack("null", v, tail);
    case Bool(b) => WordBack(if b then "true" else "false", v, tail);
    case Integer(i) => IntegerBack(i, tail);
  }

  lemma EmptyObjectPrint(tail: string)
    ensures PrintTo(Obj(map[]), tail) == ['{'] + (['}'] + tail)
    ensures PrintTo(Arr([]), tail) == ['['] + ([']'] + tail)
  {
    var empty: Object := map[];
    assert empty.Keys == {} && Sorted({}) == [];
  }

  /** The canonical form of any value, in front of anything but a digit, is read back as that value. */
  lemma {:induction false} ValueBack(v: Json, tail: string)
    requires NoDigit(tail)
    ensures ReadValue(PrintTo(v, tail)) == Some((v, tail))
    decreases v
  {
    if v == Obj(map[]) || v == Arr([]) {
      EmptyObjectPrint(tail);
      EmptyBack(tail);
    } else if v.Arr? {
      ItemsBack(v, 0, tail);
      ValueStart(v.items[0], AfterItem(v, 0, tail));
      assert v.items[0..] == v.items;
      ArrayBack(PrintTo(v, tail), ItemsTo(v, 0, tail), v.items, tail);
    } else if v.Obj? {
      var keys := SomeKeys(v.fields);
      FieldsBack(v, keys, tail);
      PairsBack(v.fields, keys);
      ObjectTextBack(PrintTo(v, tail), FieldsTo(v, keys, tail), PairsOf(v.fields, keys), tail);
    } else if v.Str? {
      StringValueBack(v.s, tail);
    } else {
      ScalarBack(v, tail);
    }
  }

  lemma SomeKeys(fields: Object) returns (keys: seq<string>)
    requires fields != map[]
    ensures keys == Sorted(fields.Keys) && keys != [] && forall k :: k in keys <==> k in fields
  {
    keys := Sorted(fields.Keys);
    var k :| k in fields;
    assert k in keys;
  }

  lemma {:induction false} ItemsBack(v: Json, i: nat, tail: string)
    requires v.Arr? && i < |v.items|
    ensures ReadItems(ItemsTo(v, i, tail)) == Some((v.items[i..], tail))
    decreases v, |v.items| - i
  {
    var after := AfterItem(v, i, tail);
    ValueBack(v.items[i], after);
    if i + 1 == |v.items| {
      assert after[1..] == tail && v.items[i..] == [v.items[i]];
    } else {
      ItemsBack(v, i + 1, tail);
      assert after[1..] == ItemsTo(v, i + 1, tail) && v.items[i..] == [v.items[i]] + v.items[i + 1..];
    }
  }

  function PairsOf(fields: Object, keys: seq<string>): seq<(string, Json)>
    requires forall k | k in keys :: k in fields
  {
    seq(|keys|, i requires 0 <= i < |keys| => (keys[i], fields[keys[i]]))
  }

  lemma KeyBack(k: string, value: string)
    ensures ReadKey(['\"'] + StringTo(k, [':'] + value)) == Some((k, value))
  {
    var text := ['\"'] + StringTo(k, [':'] + value);
    assert text[1..] == StringTo(k, [':'] + value);
    StringBack(k, [':'] + value);
    assert ([':'] + value)[1..] == value;
  }

  lemma FieldRead(text: string, k: string, value: string, v: Json, rest: string)
    requires ReadKey(text) == Some((k, value)) && ReadValue(value) == Some((v, rest)) && rest != ""
    ensures rest[0] == '}' ==> ReadFields(text) == Some(([(k, v)], rest[1..]))
    ensures rest[0] == ',' && ReadFields(rest[1..]).Some? ==>
              ReadFields(text) == Some(([(k, v)] + ReadFields(rest[1..]).value.0, ReadFields(rest[1..]).value.1))
  {
  }

  /** The fields come back in the order of the keys they are printed in. */
  lemma {:induction false} FieldsBack(v: Json, keys: seq<string>, tail: string)
    requires v.Obj? && keys != [] && forall k | k in keys :: k in v.fields
    ensures ReadFields(FieldsTo(v, keys, tail)) == Some((PairsOf(v.fields, keys), tail))
    decreases v, |keys|
  {
    var after := AfterField(v, keys, tail);
    var value := PrintTo(v.fields[keys[0]], after);
    KeyBack(keys[0], value);
    ValueBack(v.fields[keys[0]], after);
    FieldRead(FieldsTo(v, keys, tail), keys[0], value, v.fields[keys[0]], after);
    PairsFrom(v.fields, keys);
    if |keys| == 1 {
      assert after[1..] == tail;
    } else {
      FieldsBack(v, keys[1..], tail);
      assert after[1..] == FieldsTo(v, keys[1..], tail);
    }
  }

  lemma PairsFrom(fields: Object, keys: seq<string>)
    requires keys != [] && forall k | k in keys :: k in fields
    ensures PairsOf(fields, keys) == [(keys[0], fields[keys[0]])] + PairsOf(fields, keys[1..])
    ensures |keys| == 1 ==> PairsOf(fields, keys) == [(keys[0], fields[keys[0]])]
  {
  }

  lemma {:induction false} PairsRead(fields: Object, keys: seq<string>)
    requires forall k | k in keys :: k in fields
    ensures FromPairs(PairsOf(fields, keys)) == map k | k in keys :: fields[k]
  {
    if keys == [] {
    } else {
      var last := |keys| - 1;
      PairsRead(fields, keys[..last]);
      assert PairsOf(fields, keys)[..last] == PairsOf(fields, keys[..last]);
      assert forall k :: k in keys <==> k in keys[..last] || k == keys[last];
    }
  }

  lemma PairsBack(fields: Object, keys: seq<string>)
    requires forall k :: k in keys <==> k in fields
    ensures FromPairs(PairsOf(fields, keys)) == fields
  {
    PairsRead(fields, keys);
  }

  /** The round trip for whole objects. */
  lemma ObjectBack(o: Object)
    ensures ReadObject(Print(Obj(o))) == Some(o)
  {
    ValueBack(Obj(o), "");
  }

  // ---- The order of the keys ----

  /** The keys stand in strictly ascending order. */
  lemma {:induction false} KeysAscend(s: set<string>, i: nat, j: nat)
    requires i < j < |Sorted(s)|
    ensures LexLess(Sorted(s)[i], Sorted(s)[j])
    decreases |s|
  {
    var least := Least(s);
    var rest := Sorted(s - {least});
    assert Sorted(s) == [least] + rest;
    if i == 0 {
      assert rest[j - 1] in rest;
      LexByDifference(least, rest[j - 1]);
    } else {
      KeysAscend(s - {least}, i - 1, j - 1);
    }
  }

  // ---- Bytes ----

  /** The UTF-8 form of a character (RFC 3629): six bits a byte after the first. */
  function Utf8(c: char): seq<int> {
    var n := c as int;
    var n1 := n / 0x40;
    var n2 := n1 / 0x40;
    var n3 := n2 / 0x40;
    if n < 0x80 then [n]
    else if n < 0x800 then [0xC0 + n1, 0x80 + n % 0x40]
    else if n < 0x10000 then [0xE0 + n2, 0x80 + n1 % 0x40, 0x80 + n % 0x40]
    else [0xF0 + n3, 0x80 + n2 % 0x40, 0x80 + n1 % 0x40, 0x80 + n % 0x40]
  }

  /** What a UTF-8 form stands for. */
  function CodePoint(b: seq<int>): int
    requires 1 <= |b| <= 4
  {
    if |b| == 1 then b[0]
    else if |b| == 2 then (b[0] - 0xC0) * 0x40 + (b[1] - 0x80)
    else if |b| == 3 then ((b[0] - 0xE0) * 0x40 + (b[1] - 0x80)) * 0x40 + (b[2] - 0x80)
    else (((b[0] - 0xF0) * 0x40 + (b[1] - 0x80)) * 0x40 + (b[2] - 0x80)) * 0x40 + (b[3] - 0x80)
  }

  lemma SixBits(n: nat)
    ensures n / 0x40 * 0x40 + n % 0x40 == n && 0 <= n % 0x40 < 0x40
  {
  }

  /** It is as long as the width says and stands for the character. */
  lemma Utf8Back(c: char)
    ensures |Utf8(c)| == Utf8Width(c) && CodePoint(Utf8(c)) == c as int
  {
    var n: nat := c as int;
    SixBits(n);
    SixBits(n / 0x40);
    SixBits(n / 0x40 / 0x40);
  }

  /** The first byte tells how many follow. */
  lemma Utf8FirstByte(c: char)
    ensures |Utf8(c)| == 1 <==> Utf8(c)[0] < 0x80
    ensures |Utf8(c)| == 2 <==> 0xC0 <= Utf8(c)[0] < 0xE0
    ensures |Utf8(c)| == 3 <==> 0xE0 <= Utf8(c)[0] < 0xF0
    ensures |Utf8(c)| == 4 <==> 0xF0 <= Utf8(c)[0] < 0xF8
  {
    var n: nat := c as int;
    SixBits(n);
    SixBits(n / 0x40);
    SixBits(n / 0x40 / 0x40);
  }

  function Utf8String(s: string): seq<int> {
    if s == "" then [] else Utf8(s[0]) + Utf8String(s[1..])
  }

  /** The length in bytes is that of the UTF-8 form. */
  lemma {:induction false} BytesAreUtf8(s: string)
    ensures ByteLength(s) == |Utf8String(s)|
  {
    if s == "" {
    } else {
      Utf8Back(s[0]);
      BytesAreUtf8(s[1..]);
    }
  }
}
