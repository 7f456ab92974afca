/** The length of canonical JSON in bytes: leaving out keys, or shortening values, never lengthens it. */
module CanonicalLength {
  import opened CanonicalJson

  lemma {:induction false} AppendLength(a: string, b: string)
    ensures ByteLength(a + b) == ByteLength(a) + ByteLength(b)
  {
    if a == "" {
      assert a + b == b;
    } else {
      AppendLength(a[1..], b);
      assert (a + b)[1..] == a[1..] + b;
    }
  }

  lemma PrefixLength(c: char, x: string)
    ensures ByteLength([c] + x) == Utf8Width(c) + ByteLength(x)
  {
    assert ([c] + x)[1..] == x;
  }

  // ---- Sizes by structure ----

  function StringSize(s: string): nat {
    if s == "" then 1 else ByteLength(Escape(s[0])) + StringSize(s[1..])
  }

  /** The bytes of a printed value, counted without printing it. */
  function Size(v: Json): nat
    decreases v
  {
    match v
    case Null => 4
    case Bool(b) => if b then 4 else 5
    case Integer(i) => if i < 0 then 1 + ByteLength(Digits(-i)) else ByteLength(Digits(i))
    case Str(s) => 1 + StringSize(s)
    case Arr(_) => 1 + ItemsSize(v, 0)
    case Obj(fields) => 1 + FieldsSize(v, Sorted(fields.Keys))
  }

  function ItemsSize(v: Json, i: nat): nat
    requires v.Arr? && i <= |v.items|
    decreases v, |v.items| - i
  {
    if i == |v.items| then 1
    else Size(v.items[i]) + 1 + if i + 1 == |v.items| then 0 else ItemsSize(v, i + 1)
  }

  /** Quotes, key, colon, value, and the comma or brace after it. */
  function FieldSize(v: Json, k: string): nat
    requires v.Obj? && k in v.fields
    decreases v, 0
  {
    1 + StringSize(k) + 1 + Size(v.fields[k]) + 1
  }

  function FieldsSize(v: Json, keys: seq<string>): nat
    requires v.Obj? && forall k | k in keys :: k in v.fields
    decreases v, |keys| + 1
  {
    if keys == [] then 1
    else FieldSize(v, keys[0]) + if |keys| == 1 then 0 else FieldsSize(v, keys[1..])
  }

  lemma {:induction false} StringLength(s: string, x: string)
    ensures ByteLength(StringTo(s, x)) == StringSize(s) + ByteLength(x)
  {
    if s == "" {
      PrefixLength('\"', x);
    } else {
      StringLength(s[1..], x);
      AppendLength(Escape(s[0]), StringTo(s[1..], x));
    }
  }

  lemma {:induction false} PrintLength(v: Json, x: string)
    ensures ByteLength(PrintTo(v, x)) == Size(v) + ByteLength(x)
    decreases v
  {
    match v
    case Null =>
      AppendLength("null", x);
      AsciiLength("null");
    case Bool(b) =>
      AppendLength(if b then "true" else "false", x);
      AsciiLength(if b then "true" else "false");
    case Integer(i) =>
      AppendLength(Digits(if i < 0 then -i else i), x);
      if i < 0 {
        PrefixLength('-', Digits(-i) + x);
      }
    case Str(s) =>
      StringLength(s, x);
      PrefixLength('\"', StringTo(s, x));
    case Arr(_) =>
      ItemsLength(v, 0, x);
      PrefixLength('[', ItemsTo(v, 0, x));
    case Obj(fields) =>
      FieldsLength(v, Sorted(fields.Keys), x);
      PrefixLength('{', FieldsTo(v, Sorted(fields.Keys), x));
  }

  lemma {:induction false} AsciiLength(s: string)
    requires forall i | 0 <= i < |s| :: s[i] as int < 0x80
    ensures ByteLength(s) == |s|
  {
    if s == "" {
    } else {
      AsciiLength(s[1..]);
    }
  }

  lemma {:induction false} ItemsLength(v: Json, i: nat, x: string)
    requires v.Arr? && i <= |v.items|
    ensures ByteLength(ItemsTo(v, i, x)) == ItemsSize(v, i) + ByteLength(x)
    decreases v, |v.items| - i
  {
    PrefixLength(']', x);
    if i == |v.items| {
    } else {
      var last := i + 1 == |v.items|;
      if !last {
        ItemsLength(v, i + 1, x);
        PrefixLength(',', ItemsTo(v, i + 1, x));
      }
      PrintLength(v.items[i], if last then [']'] + x else [','] + ItemsTo(v, i + 1, x));
    }
  }

  lemma {:induction false} FieldsLength(v: Json, keys: seq<string>, x: string)
    requires v.Obj? && forall k | k in keys :: k in v.fields
    ensures ByteLength(FieldsTo(v, keys, x)) == FieldsSize(v, keys) + ByteLength(x)
    decreases v, |keys|
  {
    PrefixLength('}', x);
    if keys == [] {
    } else {
      var last := |keys| == 1;
      if !last {
        FieldsLength(v, keys[1..], x);
        PrefixLength(',', FieldsTo(v, keys[1..], x));
      }
      var rest := if last then ['}'] + x else [','] + FieldsTo(v, keys[1..], x);
      var value := PrintTo(v.fields[keys[0]], rest);
      PrintLength(v.fields[keys[0]], rest);
      PrefixLength(':', value);
      StringLength(keys[0], [':'] + value);
      PrefixLength('\"', StringTo(keys[0], [':'] + value));
    }
  }

  // ---- Objects with fewer keys and shorter values ----

  /** The sizes of the fields, taken out one least key at a time. */
  function TotalSize(v: Json, keys: set<string>): nat
    requires v.Obj? && keys <= v.fields.Keys
  {
    if keys == {} then 0
    else
      var k := Least(keys);
      FieldSize(v, k) + TotalSize(v, keys - {k})
  }

  lemma {:induction false} TotalOfSorted(v: Json, keys: set<string>)
    requires v.Obj? && keys <= v.fields.Keys
    ensures FieldsSize(v, Sorted(keys)) == if keys == {} then 1 else TotalSize(v, keys)
  {
    if keys == {} {
    } else {
      var k := Least(keys);
      TotalOfSorted(v, keys - {k});
      assert Sorted(keys)[1..] == Sorted(keys - {k});
      assert |Sorted(keys)| == 1 <==> keys - {k} == {};
    }
  }

  lemma {:induction false} TotalWithout(v: Json, keys: set<string>, k: string)
    requires v.Obj? && keys <= v.fields.Keys && k in keys
    ensures TotalSize(v, keys) == FieldSize(v, k) + TotalSize(v, keys - {k})
  {
    var least := Least(keys);
    if k == least {
    } else {
      TotalWithout(v, keys - {least}, k);
      TotalWithout(v, keys - {k}, least);
      assert (keys - {least}) - {k} == (keys - {k}) - {least};
    }
  }

  lemma {:induction false} TotalMonotone(a: Json, aKeys: set<string>, b: Json, bKeys: set<string>)
    requires a.Obj? && b.Obj? && aKeys <= a.fields.Keys && bKeys <= b.fields.Keys && aKeys <= bKeys
    requires forall k | k in aKeys :: Size(a.fields[k]) <= Size(b.fields[k])
    ensures TotalSize(a, aKeys) <= TotalSize(b, bKeys)
  {
    if bKeys != {} {
      var k := Least(bKeys);
      if k in aKeys {
        TotalWithout(a, aKeys, k);
      }
      TotalMonotone(a, aKeys - {k}, b, bKeys - {k});
      assert k !in aKeys ==> aKeys - {k} == aKeys;
    } else {
      assert aKeys == {};
    }
  }

  /** An object with some of the keys, each with a value that is not longer, is not longer. */
  lemma ShorterObject(a: Object, b: Object)
    requires a.Keys <= b.Keys && forall k | k in a :: ByteLength(Print(a[k])) <= ByteLength(Print(b[k]))
    ensures ByteLength(Print(Obj(a))) <= ByteLength(Print(Obj(b)))
  {
    forall k | k in a
      ensures Size(a[k]) <= Size(b[k])
    {
      PrintLength(a[k], "");
      PrintLength(b[k], "");
    }
    TotalMonotone(Obj(a), a.Keys, Obj(b), b.Keys);
    TotalOfSorted(Obj(a), a.Keys);
    TotalOfSorted(Obj(b), b.Keys);
    PrintLength(Obj(a), "");
    PrintLength(Obj(b), "");
    if b.Keys != {} {
      TotalWithout(Obj(b), b.Keys, Least(b.Keys));
    }
  }
}
