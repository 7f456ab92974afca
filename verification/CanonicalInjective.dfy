/** Canonical JSON is unambiguous: the printed form determines the value, so a parser that inverts
    printing exists. */
module CanonicalInjective {
  import opened CanonicalJson

  // ---- Characters and strings ----

  lemma SplitAt(a: string, x: string, b: string, y: string)
    requires a + x == b + y && |a| == |b|
    ensures a == b && x == y
  {
    assert a == (a + x)[..|a|] && b == (b + y)[..|b|];
    assert x == (a + x)[|a|..] && y == (b + y)[|b|..];
  }

  lemma DropFirst(c: char, x: string, d: char, y: string)
    requires [c] + x == [d] + y
    ensures c == d && x == y
  {
    assert ([c] + x)[0] == c && ([d] + y)[0] == d;
    SplitAt([c], x, [d], y);
  }

  lemma HexInjective(m: nat, n: nat)
    requires m < 16 && n < 16 && HexDigit(m) == HexDigit(n)
    ensures m == n
  {
  }

  lemma EscapeShape(c: char)
    ensures |Escape(c)| in {1, 2, 6} && Escape(c)[0] != '\"'
    ensures Escape(c)[0] == '\\' <==> |Escape(c)| > 1
    ensures |Escape(c)| > 1 ==> (Escape(c)[1] == 'u' <==> |Escape(c)| == 6)
  {
  }

  lemma SameEscape(c: char, d: char)
    requires Escape(c) == Escape(d)
    ensures c == d
  {
    if |Escape(c)| == 6 {
      assert Escape(c)[4] == Escape(d)[4] && Escape(c)[5] == Escape(d)[5];
      HexInjective(c as int / 16, d as int / 16);
      HexInjective(c as int % 16, d as int % 16);
    } else if |Escape(c)| == 2 {
      assert Escape(c)[1] == Escape(d)[1];
    } else {
      assert Escape(c)[0] == Escape(d)[0];
    }
  }

  lemma EscapeInjective(c: char, d: char, x: string, y: string)
    requires Escape(c) + x == Escape(d) + y
    ensures c == d && x == y
  {
    var l, r := Escape(c) + x, Escape(d) + y;
    EscapeShape(c);
    EscapeShape(d);
    assert l[0] == Escape(c)[0] && r[0] == Escape(d)[0];
    if |Escape(c)| > 1 {
      assert l[1] == Escape(c)[1] && r[1] == Escape(d)[1];
    }
    SplitAt(Escape(c), x, Escape(d), y);
    SameEscape(c, d);
  }

  lemma StringStart(s: string, x: string)
    ensures StringTo(s, x) != "" && (StringTo(s, x)[0] == '\"' <==> s == "")
  {
    if s != "" {
      EscapeShape(s[0]);
    }
  }

  lemma {:induction false} StringInjective(s: string, t: string, x: string, y: string)
    requires StringTo(s, x) == StringTo(t, y)
    ensures s == t && x == y
  {
    StringStart(s, x);
    StringStart(t, y);
    if s == "" {
      DropFirst('\"', x, '\"', y);
    } else {
      EscapeInjective(s[0], t[0], StringTo(s[1..], x), StringTo(t[1..], y));
      StringInjective(s[1..], t[1..], x, y);
      assert s == [s[0]] + s[1..] && t == [t[0]] + t[1..];
    }
  }

  // ---- Numbers ----

  /** What can follow a value: the end, or a separator. */
  predicate Ends(x: string) {
    x == "" || x[0] == ',' || x[0] == ']' || x[0] == '}'
  }

  lemma DigitInjective(m: nat, n: nat)
    requires m < 10 && n < 10 && Digit(m) == Digit(n)
    ensures m == n
  {
  }

  lemma {:induction false} SameDigits(m: nat, n: nat)
    requires Digits(m) == Digits(n)
    ensures m == n
  {
    var s, t := Digits(m), Digits(n);
    var last := |s| - 1;
    assert s[last] == Digit(m % 10) && t[last] == Digit(n % 10);
    DigitInjective(m % 10, n % 10);
    assert |s| == 1 <==> m < 10;
    assert |t| == 1 <==> n < 10;
    if m < 10 {
    } else {
      assert s[..last] == Digits(m / 10) && t[..last] == Digits(n / 10);
      SameDigits(m / 10, n / 10);
    }
  }

  lemma CharAfter(a: string, x: string, b: string, y: string)
    requires a + x == b + y && |a| < |b|
    ensures x != "" && x[0] == b[|a|]
  {
    assert (a + x)[|a|] == (b + y)[|a|];
  }

  /** The digits end where the separator begins. */
  lemma NoLongerDigits(a: string, x: string, b: string, y: string)
    requires a + x == b + y && Ends(x) && forall i | 0 <= i < |b| :: IsDigit(b[i])
    ensures |b| <= |a|
  {
    if |a| < |b| {
      CharAfter(a, x, b, y);
    }
  }

  lemma DigitsInjective(m: nat, n: nat, x: string, y: string)
    requires Digits(m) + x == Digits(n) + y && Ends(x) && Ends(y)
    ensures m == n && x == y
  {
    NoLongerDigits(Digits(m), x, Digits(n), y);
    NoLongerDigits(Digits(n), y, Digits(m), x);
    SplitAt(Digits(m), x, Digits(n), y);
    SameDigits(m, n);
  }

  lemma IntStart(i: int, x: string)
    ensures IntTo(i, x) != ""
    ensures IntTo(i, x)[0] == '-' <==> i < 0
    ensures i >= 0 ==> IsDigit(IntTo(i, x)[0])
  {
  }

  lemma IntInjective(i: int, j: int, x: string, y: string)
    requires IntTo(i, x) == IntTo(j, y) && Ends(x) && Ends(y)
    ensures i == j && x == y
  {
    IntStart(i, x);
    IntStart(j, y);
    if i < 0 {
      DropFirst('-', Digits(-i) + x, '-', Digits(-j) + y);
      DigitsInjective(-i, -j, x, y);
    } else {
      DigitsInjective(i, j, x, y);
    }
  }

  // ---- Values ----

  function Kind(v: Json): nat {
    match v
    case Null => 0
    case Bool(b) => if b then 1 else 2
    case Integer(_) => 3
    case Str(_) => 4
    case Arr(_) => 5
    case Obj(_) => 6
  }

  /** The first character tells which kind of value follows, if any. */
  function KindOf(c: char): nat {
    if c == 'n' then 0 else if c == 't' then 1 else if c == 'f' then 2
    else if c == '-' || IsDigit(c) then 3
    else if c == '\"' then 4 else if c == '[' then 5 else if c == '{' then 6 else 7
  }

  lemma PrintStart(v: Json, x: string)
    ensures PrintTo(v, x) != "" && KindOf(PrintTo(v, x)[0]) == Kind(v)
  {
    if v.Integer? {
      IntStart(v.i, x);
    }
  }

  /** Two values printed in front of separators are told apart, and so are the separators. */
  lemma {:induction false} PrintInjective(v: Json, w: Json, x: string, y: string)
    requires PrintTo(v, x) == PrintTo(w, y) && Ends(x) && Ends(y)
    ensures v == w && x == y
    decreases v
  {
    PrintStart(v, x);
    PrintStart(w, y);
    assert Kind(v) == Kind(w);
    match v
    case Null => SplitAt("null", x, "null", y);
    case Bool(b) => SplitAt(if b then "true" else "false", x, if b then "true" else "false", y);
    case Integer(i) => IntInjective(i, w.i, x, y);
    case Str(s) =>
      DropFirst('\"', StringTo(s, x), '\"', StringTo(w.s, y));
      StringInjective(s, w.s, x, y);
    case Arr(_) =>
      DropFirst('[', ItemsTo(v, 0, x), '[', ItemsTo(w, 0, y));
      ItemsInjective(v, w, 0, x, y);
      assert v.items == w.items;
    case Obj(_) =>
      var ks, js := Sorted(v.fields.Keys), Sorted(w.fields.Keys);
      DropFirst('{', FieldsTo(v, ks, x), '{', FieldsTo(w, js, y));
      FieldsInjective(v, ks, w, js, x, y);
      SameFields(v.fields, w.fields);
  }

  lemma SameFields(a: Object, b: Object)
    requires Sorted(a.Keys) == Sorted(b.Keys) && forall k | k in Sorted(a.Keys) :: k in a && k in b && a[k] == b[k]
    ensures a == b
  {
    assert forall k :: k in a.Keys <==> k in Sorted(a.Keys);
    assert forall k :: k in b.Keys <==> k in Sorted(b.Keys);
    assert a.Keys == b.Keys;
  }

  lemma ItemsStart(v: Json, i: nat, x: string)
    requires v.Arr? && i <= |v.items|
    ensures ItemsTo(v, i, x) != "" && (ItemsTo(v, i, x)[0] == ']' <==> i == |v.items|)
  {
    if i < |v.items| {
      PrintStart(v.items[i], AfterItem(v, i, x));
    }
  }

  lemma {:induction false} ItemsInjective(v: Json, w: Json, i: nat, x: string, y: string)
    requires v.Arr? && w.Arr? && i <= |v.items| && i <= |w.items|
    requires ItemsTo(v, i, x) == ItemsTo(w, i, y)
    ensures |v.items| == |w.items| && x == y
    ensures forall j | i <= j < |v.items| :: v.items[j] == w.items[j]
    decreases v, |v.items| - i
  {
    ItemsStart(v, i, x);
    ItemsStart(w, i, y);
    if i == |v.items| {
      DropFirst(']', x, ']', y);
    } else {
      var a, b := AfterItem(v, i, x), AfterItem(w, i, y);
      PrintInjective(v.items[i], w.items[i], a, b);
      AfterItemInjective(v, w, i, x, y);
      if i + 1 < |v.items| {
        ItemsInjective(v, w, i + 1, x, y);
      }
    }
  }

  lemma AfterItemInjective(v: Json, w: Json, i: nat, x: string, y: string)
    requires v.Arr? && w.Arr? && i < |v.items| && i < |w.items|
    requires AfterItem(v, i, x) == AfterItem(w, i, y)
    ensures i + 1 == |v.items| <==> i + 1 == |w.items|
    ensures i + 1 == |v.items| ==> x == y
    ensures i + 1 < |v.items| ==> ItemsTo(v, i + 1, x) == ItemsTo(w, i + 1, y)
  {
    assert AfterItem(v, i, x)[0] == if i + 1 == |v.items| then ']' else ',';
    assert AfterItem(w, i, y)[0] == if i + 1 == |w.items| then ']' else ',';
    if i + 1 == |v.items| {
      DropFirst(']', x, ']', y);
    } else {
      DropFirst(',', ItemsTo(v, i + 1, x), ',', ItemsTo(w, i + 1, y));
    }
  }

  lemma FieldsStart(v: Json, keys: seq<string>, x: string)
    requires v.Obj? && forall k | k in keys :: k in v.fields
    ensures FieldsTo(v, keys, x) != "" && (FieldsTo(v, keys, x)[0] == '}' <==> keys == [])
  {
  }

  lemma {:induction false} FieldsInjective(v: Json, ks: seq<string>, w: Json, js: seq<string>, x: string, y: string)
    requires v.Obj? && w.Obj? && (forall k | k in ks :: k in v.fields) && (forall k | k in js :: k in w.fields)
    requires FieldsTo(v, ks, x) == FieldsTo(w, js, y)
    ensures ks == js && x == y && forall k | k in ks :: v.fields[k] == w.fields[k]
    decreases v, |ks|
  {
    FieldsStart(v, ks, x);
    FieldsStart(w, js, y);
    if ks == [] {
      DropFirst('}', x, '}', y);
    } else {
      var k, j := ks[0], js[0];
      var a, b := AfterField(v, ks, x), AfterField(w, js, y);
      FieldInjective(k, v.fields[k], a, j, w.fields[j], b);
      PrintInjective(v.fields[k], w.fields[j], a, b);
      AfterFieldInjective(v, ks, w, js, x, y);
      if |ks| > 1 {
        FieldsInjective(v, ks[1..], w, js[1..], x, y);
      }
      assert ks == [k] + ks[1..] && js == [j] + js[1..];
    }
  }

  lemma FieldInjective(k: string, v: Json, a: string, j: string, w: Json, b: string)
    requires ['\"'] + StringTo(k, [':'] + PrintTo(v, a)) == ['\"'] + StringTo(j, [':'] + PrintTo(w, b))
    ensures k == j && PrintTo(v, a) == PrintTo(w, b)
  {
    DropFirst('\"', StringTo(k, [':'] + PrintTo(v, a)), '\"', StringTo(j, [':'] + PrintTo(w, b)));
    StringInjective(k, j, [':'] + PrintTo(v, a), [':'] + PrintTo(w, b));
    DropFirst(':', PrintTo(v, a), ':', PrintTo(w, b));
  }

  lemma AfterFieldInjective(v: Json, ks: seq<string>, w: Json, js: seq<string>, x: string, y: string)
    requires v.Obj? && w.Obj? && ks != [] && js != []
    requires (forall k | k in ks :: k in v.fields) && (forall k | k in js :: k in w.fields)
    requires AfterField(v, ks, x) == AfterField(w, js, y)
    ensures |ks| == 1 <==> |js| == 1
    ensures |ks| == 1 ==> x == y
    ensures |ks| > 1 ==> FieldsTo(v, ks[1..], x) == FieldsTo(w, js[1..], y)
  {
    assert AfterField(v, ks, x)[0] == if |ks| == 1 then '}' else ',';
    assert AfterField(w, js, y)[0] == if |js| == 1 then '}' else ',';
    if |ks| == 1 {
      DropFirst('}', x, '}', y);
    } else {
      DropFirst(',', FieldsTo(v, ks[1..], x), ',', FieldsTo(w, js[1..], y));
    }
  }

  /** No two values have the same canonical form. */
  lemma CanonicalFormUnique(v: Json, w: Json)
    requires Print(v) == Print(w)
    ensures v == w
  {
    PrintInjective(v, w, "", "");
  }
}
