/** JSON values and their canonical text (canonicalJsonStringify of src/companion/asset-manifest.ts):
    two values have the same text exactly when they are the same up to the order of object keys. */
module Json {
  import opened Sorting

  datatype Field = Field(key: string, value: Json)

  /** A parsed JSON value; an object's fields in insertion order. Numbers are integers. */
  datatype Json = Null | Bool(b: bool) | Num(n: int) | Str(s: string) | Arr(items: seq<Json>) | Obj(fields: seq<Field>)

  // ------------------------------------------------------------------ text

  function Digit(d: nat): char
    requires d < 10
  {
    "0123456789"[d]
  }

  function Digits(n: nat): string {
    if n < 10 then [Digit(n)] else Digits(n / 10) + [Digit(n % 10)]
  }

  function Number(n: int): string { if n < 0 then "-" + Digits(-n) else Digits(n) }

  function HexDigit(d: nat): char
    requires d < 16
  {
    "0123456789abcdef"[d]
  }

  /** How JSON.stringify writes one character of a string. */
  function Escape(c: char): string {
    if c == '"' then "\\\""
    else if c == '\\' then "\\\\"
    else if c as int == 8 then "\\b"
    else if c as int == 9 then "\\t"
    else if c as int == 10 then "\\n"
    else if c as int == 12 then "\\f"
    else if c as int == 13 then "\\r"
    else if c as int < 32 then "\\u00" + [HexDigit(c as int / 16), HexDigit(c as int % 16)]
    else [c]
  }

  function Escaped(s: string): string { if s == "" then "" else Escape(s[0]) + Escaped(s[1..]) }

  function Quote(s: string): string { "\"" + Escaped(s) + "\"" }

  function Keys(fields: seq<Field>): seq<string> {
    if fields == [] then [] else [fields[0].key] + Keys(fields[1..])
  }

  /** value[key]: the field of that key, the first if there were several. */
  function Lookup(fields: seq<Field>, key: string): (f: Field)
    requires key in Keys(fields)
    ensures f in fields && f.key == key
  {
    if fields[0].key == key then fields[0] else Lookup(fields[1..], key)
  }

  lemma {:induction false} KeysAreKeys(fields: seq<Field>)
    ensures |Keys(fields)| == |fields|
    ensures forall i :: 0 <= i < |fields| ==> Keys(fields)[i] == fields[i].key
  {
    if fields != [] {
      KeysAreKeys(fields[1..]);
    }
  }

  /** Object.keys(value).sort() */
  function SortedKeys(fields: seq<Field>): (ks: seq<string>)
    ensures forall k :: k in ks <==> k in Keys(fields)
  {
    SortContents(Keys(fields), ByCodeUnits());
    SameMembers(Sort(Keys(fields), ByCodeUnits()), Keys(fields));
    Sort(Keys(fields), ByCodeUnits())
  }

  /** canonicalJsonStringify. */
  function Text(v: Json): string
    decreases v, 1, 0
  {
    match v
    case Null => "null"
    case Bool(b) => if b then "true" else "false"
    case Num(n) => Number(n)
    case Str(s) => Quote(s)
    case Arr(items) => "[" + Items(v, 0) + "]"
    case Obj(fields) => "{" + Members(v, SortedKeys(fields)) + "}"
  }

  /** value.map(canonicalJsonStringify).join(','), from item `i` on. */
  function Items(v: Json, i: nat): string
    requires v.Arr? && i <= |v.items|
    decreases v, 0, |v.items| - i
  {
    if i == |v.items| then ""
    else Text(v.items[i]) + (if i + 1 == |v.items| then "" else "," + Items(v, i + 1))
  }

  /** keys.map(key => `${JSON.stringify(key)}:${...}`).join(',') */
  function Members(v: Json, keys: seq<string>): string
    requires v.Obj? && forall k :: k in keys ==> k in Keys(v.fields)
    decreases v, 0, |keys|
  {
    if keys == [] then ""
    else
      Quote(keys[0]) + ":" + Text(Lookup(v.fields, keys[0]).value)
      + (if |keys| == 1 then "" else "," + Members(v, keys[1..]))
  }

  // ------------------------------------------------------------------ sameness

  /** The same value up to the order of object keys, at every depth. */
  ghost predicate Same(v: Json, w: Json)
    decreases v
  {
    match (v, w)
    case (Arr(xs), Arr(ys)) => |xs| == |ys| && forall i :: 0 <= i < |xs| ==> Same(xs[i], ys[i])
    case (Obj(fs), Obj(gs)) =>
      && (forall k :: k in Keys(fs) <==> k in Keys(gs))
      && (forall k :: k in Keys(fs) && k in Keys(gs) ==> Same(Lookup(fs, k).value, Lookup(gs, k).value))
    case _ => v == w
  }

  ghost predicate Distinct(ks: seq<string>) { forall i, j :: 0 <= i < j < |ks| ==> ks[i] != ks[j] }

  /** No object has a key twice. */
  ghost predicate WellFormed(v: Json) {
    match v
    case Arr(xs) => forall i :: 0 <= i < |xs| ==> WellFormed(xs[i])
    case Obj(fs) => Distinct(Keys(fs)) && forall i :: 0 <= i < |fs| ==> WellFormed(fs[i].value)
    case _ => true
  }

  // ------------------------------------------------------------------ reading numbers back

  predicate IsDigit(c: char) { '0' <= c <= '9' }

  ghost predicate AllDigits(s: string) { forall i :: 0 <= i < |s| ==> IsDigit(s[i]) }

  ghost function ValueOf(s: string): int
  {
    if s == "" then 0 else ValueOf(s[..|s| - 1]) * 10 + (s[|s| - 1] as int - '0' as int)
  }

  lemma {:induction false} DigitsRead(n: nat)
    ensures Digits(n) != "" && AllDigits(Digits(n)) && ValueOf(Digits(n)) == n
  {
    if n < 10 {
      assert Digits(n)[..0] == "";
    } else {
      DigitsRead(n / 10);
      var s := Digits(n);
      assert s[..|s| - 1] == Digits(n / 10);
    }
  }

  /** What can follow a value inside a text: nothing, a comma, or a closing bracket. */
  ghost predicate Ends(x: string) { x == "" || x[0] == ',' || x[0] == ']' || x[0] == '}' }

  lemma NotShorter(a: string, x: string, b: string, y: string)
    requires AllDigits(b) && Ends(x) && a + x == b + y
    ensures |b| <= |a|
  {
    assert forall k :: 0 <= k < |b| ==> (b + y)[k] == b[k];
    assert x != "" ==> (a + x)[|a|] == x[0];
  }

  lemma DigitsSplit(a: string, x: string, b: string, y: string)
    requires AllDigits(a) && AllDigits(b) && Ends(x) && Ends(y) && a + x == b + y
    ensures a == b && x == y
  {
    NotShorter(a, x, b, y);
    NotShorter(b, y, a, x);
    SameSplit(a, x, b, y);
  }

  lemma SameSplit(a: string, x: string, b: string, y: string)
    requires |a| == |b| && a + x == b + y
    ensures a == b && x == y
  {
    assert a == (a + x)[..|a|] && b == (b + y)[..|b|];
    assert x == (a + x)[|a|..] && y == (b + y)[|b|..];
  }

  lemma Glue(a: string, b: string, c: string)
    ensures a + b + c == a + (b + c)
  {
  }

  lemma FirstOf(a: string, b: string)
    requires a != ""
    ensures (a + b)[0] == a[0]
  {
  }

  lemma Behind(c: char, a: string)
    ensures ([c] + a)[1..] == a
  {
  }

  /** The number's text is its sign and the digits of its magnitude. */
  lemma NumberParts(n: int, x: string) returns (d: string)
    ensures d == Digits(if n < 0 then -n else n) && d != "" && AllDigits(d) && ValueOf(d) == (if n < 0 then -n else n)
    ensures Number(n) + x == if n < 0 then "-" + (d + x) else d + x
    ensures (Number(n) + x)[0] == '-' <==> n < 0
  {
    hide Digits, ValueOf;
    d := Digits(if n < 0 then -n else n);
    DigitsRead(if n < 0 then -n else n);
    FirstOf(d, x);
    if n < 0 {
      Glue("-", d, x);
    }
  }

  lemma NumberRead(n: int, x: string, m: int, y: string)
    requires Ends(x) && Ends(y) && Number(n) + x == Number(m) + y
    ensures n == m && x == y
  {
    hide Digits, ValueOf, AllDigits, Ends, Number;
    var d := NumberParts(n, x);
    var e := NumberParts(m, y);
    assert n < 0 ==> (Number(n) + x)[1..] == d + x;
    assert m < 0 ==> (Number(m) + y)[1..] == e + y;
    DigitsSplit(d, x, e, y);
  }

  // ------------------------------------------------------------------ reading strings back

  lemma EscapeStarts(c: char)
    ensures Escape(c) != "" && Escape(c)[0] != '"'
    ensures Escape(c)[0] == '\\' <==> c == '"' || c == '\\' || c as int < 32
  {
  }

  lemma HexDiffers(a: nat, b: nat)
    requires a < 16 && b < 16 && HexDigit(a) == HexDigit(b)
    ensures a == b
  {
  }

  /** The escapes are a prefix code. */
  lemma EscapeRead(c: char, x: string, d: char, y: string)
    requires Escape(c) + x == Escape(d) + y
    ensures c == d && x == y
  {
    var e, f := Escape(c), Escape(d);
    EscapeStarts(c);
    EscapeStarts(d);
    assert e[0] == (e + x)[0] && f[0] == (f + y)[0];
    if e[0] == '\\' {
      assert e[1] == (e + x)[1] && f[1] == (f + y)[1];
      if e[1] == 'u' {
        assert e[4] == (e + x)[4] && f[4] == (f + y)[4];
        assert e[5] == (e + x)[5] && f[5] == (f + y)[5];
        HexDiffers(c as int / 16, d as int / 16);
        HexDiffers(c as int % 16, d as int % 16);
      }
    }
    assert c == d;
    assert x == (e + x)[|e|..] && y == (f + y)[|f|..];
  }

  /** The rest of a string literal and what follows it. */
  ghost function Closed(s: string, x: string): string { Escaped(s) + "\"" + x }

  lemma ClosedStarts(s: string, x: string)
    ensures Closed(s, x) != "" && (Closed(s, x)[0] == '"' <==> s == "")
    ensures s == "" ==> Closed(s, x)[1..] == x
    ensures s != "" ==> Closed(s, x) == Escape(s[0]) + Closed(s[1..], x)
  {
    hide Escape;
    if s != "" {
      EscapeStarts(s[0]);
      var e, rest := Escape(s[0]), Escaped(s[1..]);
      assert Escaped(s) == e + rest;
      hide Escaped;
      Glue(e, rest, "\"" + x);
      Glue(e + rest, "\"", x);
      Glue(rest, "\"", x);
      FirstOf(e, rest + ("\"" + x));
    } else {
      Behind('"', x);
    }
  }

  lemma {:induction false} EscapedRead(s: string, x: string, t: string, y: string)
    requires Closed(s, x) == Closed(t, y)
    ensures s == t && x == y
  {
    hide Closed, Escape;
    ClosedStarts(s, x);
    ClosedStarts(t, y);
    if s != "" {
      EscapeRead(s[0], Closed(s[1..], x), t[0], Closed(t[1..], y));
      EscapedRead(s[1..], x, t[1..], y);
      assert s == [s[0]] + s[1..] && t == [t[0]] + t[1..];
    }
  }

  lemma QuoteRest(s: string, x: string)
    ensures Quote(s) + x != "" && (Quote(s) + x)[1..] == Closed(s, x)
  {
    hide Escaped;
    var e := Escaped(s);
    Glue("\"", e, "\"");
    Glue("\"", e + "\"", x);
    Behind('"', e + "\"" + x);
  }

  lemma QuoteRead(s: string, x: string, t: string, y: string)
    requires Quote(s) + x == Quote(t) + y
    ensures s == t && x == y
  {
    QuoteRest(s, x);
    QuoteRest(t, y);
    hide Quote, Closed;
    EscapedRead(s, x, t, y);
  }

  // ------------------------------------------------------------------ reading values back

  /** Text of kind: what the first character of a value's text tells. */
  ghost function Kind(v: Json): int {
    match v
    case Null => 0 case Bool(b) => if b then 1 else 2 case Num(_) => 3 case Str(_) => 4 case Arr(_) => 5 case Obj(_) => 6
  }

  ghost function KindOf(c: char): int {
    if c == 'n' then 0 else if c == 't' then 1 else if c == 'f' then 2
    else if c == '-' || IsDigit(c) then 3 else if c == '"' then 4 else if c == '[' then 5 else if c == '{' then 6 else 7
  }

  lemma TextStarts(v: Json, x: string)
    ensures Text(v) != "" && KindOf((Text(v) + x)[0]) == Kind(v)
  {
    if v.Num? {
      DigitsRead(if v.n < 0 then -v.n else v.n);
      hide Digits, ValueOf;
    }
    hide Items, Members;
  }

  /** What follows item `i` of an array whose text is followed by `x`. */
  ghost function AfterItem(v: Json, i: nat, x: string): string
    requires v.Arr? && i < |v.items|
  {
    if i + 1 == |v.items| then "]" + x else "," + (Items(v, i + 1) + "]" + x)
  }

  lemma ItemFirst(v: Json, i: nat, x: string)
    requires v.Arr? && i <= |v.items|
    ensures i == |v.items| ==> Items(v, i) + "]" + x == "]" + x
    ensures i < |v.items| ==> Items(v, i) + "]" + x == Text(v.items[i]) + AfterItem(v, i, x) && Ends(AfterItem(v, i, x))
    ensures (Items(v, i) + "]" + x)[0] == ']' <==> i == |v.items|
  {
    if i < |v.items| {
      TextStarts(v.items[i], AfterItem(v, i, x));
      hide Text;
      var t := Text(v.items[i]);
      var more := if i + 1 == |v.items| then "" else "," + Items(v, i + 1);
      assert Items(v, i) == t + more;
      AfterItemIs(v, i, more, x);
      hide Items, AfterItem, Ends;
      Glue(t, more, "]" + x);
      Glue(t + more, "]", x);
    }
  }

  lemma AfterItemIs(v: Json, i: nat, more: string, x: string)
    requires v.Arr? && i < |v.items| && more == if i + 1 == |v.items| then "" else "," + Items(v, i + 1)
    ensures AfterItem(v, i, x) == more + ("]" + x) && Ends(AfterItem(v, i, x))
  {
    hide Items;
    if i + 1 < |v.items| {
      var rest := Items(v, i + 1);
      Glue(",", rest, "]" + x);
      Glue(rest, "]", x);
    }
  }

  /** What follows the first key's value in an object whose text is followed by `x`. */
  ghost function AfterMember(v: Json, ks: seq<string>, x: string): string
    requires v.Obj? && ks != [] && forall k :: k in ks ==> k in Keys(v.fields)
  {
    if |ks| == 1 then "}" + x else "," + (Members(v, ks[1..]) + "}" + x)
  }

  lemma MemberFirst(v: Json, ks: seq<string>, x: string)
    requires v.Obj? && forall k :: k in ks ==> k in Keys(v.fields)
    ensures ks == [] ==> Members(v, ks) + "}" + x == "}" + x
    ensures ks != [] ==>
              Members(v, ks) + "}" + x == Quote(ks[0]) + (":" + (Text(Lookup(v.fields, ks[0]).value) + AfterMember(v, ks, x)))
              && Ends(AfterMember(v, ks, x))
    ensures (Members(v, ks) + "}" + x)[0] == '}' <==> ks == []
  {
    if ks != [] {
      var q, t := Quote(ks[0]), Text(Lookup(v.fields, ks[0]).value);
      var more := if |ks| == 1 then "" else "," + Members(v, ks[1..]);
      FirstMember(v, ks, more);
      AfterIs(v, ks, more, x);
      hide *;
      Regroup(q, t, more, "}" + x);
      Glue(Members(v, ks), "}", x);
      QuoteStarts(ks[0], ":" + (t + AfterMember(v, ks, x)));
    }
  }

  lemma FirstMember(v: Json, ks: seq<string>, more: string)
    requires v.Obj? && (forall k :: k in ks ==> k in Keys(v.fields)) && ks != []
    requires more == if |ks| == 1 then "" else "," + Members(v, ks[1..])
    ensures Members(v, ks) == Quote(ks[0]) + ":" + Text(Lookup(v.fields, ks[0]).value) + more
  {
    hide Text, Lookup, Keys, Quote;
  }

  lemma AfterIs(v: Json, ks: seq<string>, more: string, x: string)
    requires v.Obj? && (forall k :: k in ks ==> k in Keys(v.fields)) && ks != []
    requires more == if |ks| == 1 then "" else "," + Members(v, ks[1..])
    ensures AfterMember(v, ks, x) == more + ("}" + x) && Ends(AfterMember(v, ks, x))
  {
    hide Members, Keys;
    if |ks| > 1 {
      var rest := Members(v, ks[1..]);
      Glue(",", rest, "}" + x);
      Glue(rest, "}", x);
    }
  }

  lemma Regroup(q: string, t: string, more: string, x: string)
    ensures q + ":" + t + more + x == q + (":" + (t + (more + x)))
  {
    Glue(q + ":" + t, more, x);
    Glue(q + ":", t, more + x);
    Glue(q, ":", t + (more + x));
  }

  lemma QuoteStarts(s: string, x: string)
    ensures (Quote(s) + x)[0] == '"'
  {
    hide Escaped;
    FirstOf(Quote(s), x);
  }

  /** A text that something follows is read back in only one way. */
  lemma {:induction false} TextRead(v: Json, x: string, w: Json, y: string)
    requires Text(v) + x == Text(w) + y && Ends(x) && Ends(y)
    ensures Same(v, w) && x == y
    decreases v, 1, 0
  {
    TextStarts(v, x);
    TextStarts(w, y);
    match v {
      case Arr(_) => ArrayRead(v, x, w, y);
      case Obj(_) => ObjectRead(v, x, w, y);
      case _ => AtomRead(v, x, w, y);
    }
    hide *;
  }

  lemma AtomRead(v: Json, x: string, w: Json, y: string)
    requires Text(v) + x == Text(w) + y && Ends(x) && Ends(y) && Kind(v) == Kind(w) && !v.Arr? && !v.Obj?
    ensures Same(v, w) && x == y
  {
    hide Number, Quote, Ends;
    if v.Num? {
      NumberRead(v.n, x, w.n, y);
    } else if v.Str? {
      QuoteRead(v.s, x, w.s, y);
    } else {
      SameSplit(Text(v), x, Text(w), y);
    }
  }

  lemma {:induction false} ArrayRead(v: Json, x: string, w: Json, y: string)
    requires Text(v) + x == Text(w) + y && v.Arr? && w.Arr?
    ensures Same(v, w) && x == y
    decreases v, 0, |v.items| + 1
  {
    hide Items, Text, Same;
    ArrayText(v, x);
    ArrayText(w, y);
    ItemsRead(v, x, w, y, 0);
    SameByItems(v, w);
  }

  lemma ArrayText(v: Json, x: string)
    requires v.Arr?
    ensures Text(v) + x != "" && (Text(v) + x)[1..] == Items(v, 0) + "]" + x
  {
    hide Items;
    var items := Items(v, 0);
    Glue("[", items, "]");
    Glue("[", items + "]", x);
    Behind('[', items + "]" + x);
  }

  lemma SameByItems(v: Json, w: Json)
    requires v.Arr? && w.Arr? && |v.items| == |w.items| && forall k :: 0 <= k < |v.items| ==> Same(v.items[k], w.items[k])
    ensures Same(v, w)
  {
  }

  lemma {:induction false} ItemsRead(v: Json, x: string, w: Json, y: string, i: nat)
    requires v.Arr? && w.Arr? && i <= |v.items| && i <= |w.items|
    requires Items(v, i) + "]" + x == Items(w, i) + "]" + y
    ensures |v.items| == |w.items| && x == y
    ensures forall k :: i <= k < |v.items| ==> Same(v.items[k], w.items[k])
    decreases v, 0, |v.items| - i
  {
    hide Text, Items, Same, AfterItem, Ends;
    ItemFirst(v, i, x);
    ItemFirst(w, i, y);
    if i < |v.items| {
      TextRead(v.items[i], AfterItem(v, i, x), w.items[i], AfterItem(w, i, y));
      AfterRead(v, x, w, y, i);
      if i + 1 < |v.items| {
        ItemsRead(v, x, w, y, i + 1);
      }
    } else {
      assert x == ("]" + x)[1..] && y == ("]" + y)[1..];
    }
  }

  lemma AfterRead(v: Json, x: string, w: Json, y: string, i: nat)
    requires v.Arr? && w.Arr? && i < |v.items| && i < |w.items| && AfterItem(v, i, x) == AfterItem(w, i, y)
    ensures i + 1 == |v.items| <==> i + 1 == |w.items|
    ensures i + 1 == |v.items| ==> x == y
    ensures i + 1 < |v.items| ==> Items(v, i + 1) + "]" + x == Items(w, i + 1) + "]" + y
  {
    hide Items;
    var a, b := AfterItem(v, i, x), AfterItem(w, i, y);
    assert a[0] == ']' <==> i + 1 == |v.items|;
    assert b[0] == ']' <==> i + 1 == |w.items|;
    assert a[1..] == if i + 1 == |v.items| then x else Items(v, i + 1) + "]" + x;
    assert b[1..] == if i + 1 == |w.items| then y else Items(w, i + 1) + "]" + y;
  }

  lemma {:induction false} ObjectRead(v: Json, x: string, w: Json, y: string)
    requires Text(v) + x == Text(w) + y && v.Obj? && w.Obj?
    ensures Same(v, w) && x == y
    decreases v, 0, |SortedKeys(v.fields)| + 1
  {
    hide Members, Text, Lookup, Keys, SortedKeys, Same;
    ObjectText(v, x);
    ObjectText(w, y);
    var ks, ls := SortedKeys(v.fields), SortedKeys(w.fields);
    MembersRead(v, ks, x, w, ls, y);
    SameByKeys(v, w, ks);
  }

  lemma ObjectText(v: Json, x: string)
    requires v.Obj?
    ensures Text(v) + x != "" && (Text(v) + x)[1..] == Members(v, SortedKeys(v.fields)) + "}" + x
  {
    hide Members, Keys, SortedKeys;
    var members := Members(v, SortedKeys(v.fields));
    Glue("{", members, "}");
    Glue("{", members + "}", x);
    Behind('{', members + "}" + x);
  }

  lemma SameByKeys(v: Json, w: Json, ks: seq<string>)
    requires v.Obj? && w.Obj? && (forall k :: k in Keys(v.fields) <==> k in ks) && (forall k :: k in Keys(w.fields) <==> k in ks)
    requires forall k :: k in ks ==> Same(Lookup(v.fields, k).value, Lookup(w.fields, k).value)
    ensures Same(v, w)
  {
    hide Lookup, Keys;
  }

  lemma {:induction false} MembersRead(v: Json, ks: seq<string>, x: string, w: Json, ls: seq<string>, y: string)
    requires v.Obj? && w.Obj? && (forall k :: k in ks ==> k in Keys(v.fields)) && (forall k :: k in ls ==> k in Keys(w.fields))
    requires Members(v, ks) + "}" + x == Members(w, ls) + "}" + y
    ensures ks == ls && x == y
    ensures forall k :: k in ks ==> k in Keys(w.fields) && Same(Lookup(v.fields, k).value, Lookup(w.fields, k).value)
    decreases v, 0, |ks|
  {
    hide Text, Members, Same, AfterMember, Ends, Quote, Keys, Lookup;
    MemberFirst(v, ks, x);
    MemberFirst(w, ls, y);
    if ks != [] {
      var a, b := Text(Lookup(v.fields, ks[0]).value) + AfterMember(v, ks, x), Text(Lookup(w.fields, ls[0]).value) + AfterMember(w, ls, y);
      QuoteRead(ks[0], ":" + a, ls[0], ":" + b);
      assert a == (":" + a)[1..] && b == (":" + b)[1..];
      TextRead(Lookup(v.fields, ks[0]).value, AfterMember(v, ks, x), Lookup(w.fields, ls[0]).value, AfterMember(w, ls, y));
      AfterMembersRead(v, ks, x, w, ls, y);
      if |ks| > 1 {
        MembersRead(v, ks[1..], x, w, ls[1..], y);
      }
      assert ks == [ks[0]] + ks[1..] && ls == [ls[0]] + ls[1..];
    } else {
      assert x == ("}" + x)[1..] && y == ("}" + y)[1..];
    }
  }

  lemma AfterMembersRead(v: Json, ks: seq<string>, x: string, w: Json, ls: seq<string>, y: string)
    requires v.Obj? && w.Obj? && ks != [] && ls != []
    requires (forall k :: k in ks ==> k in Keys(v.fields)) && (forall k :: k in ls ==> k in Keys(w.fields))
    requires AfterMember(v, ks, x) == AfterMember(w, ls, y)
    ensures |ks| == 1 <==> |ls| == 1
    ensures |ks| == 1 ==> x == y
    ensures |ks| > 1 ==> Members(v, ks[1..]) + "}" + x == Members(w, ls[1..]) + "}" + y
  {
    hide Members, Keys;
    var a, b := AfterMember(v, ks, x), AfterMember(w, ls, y);
    assert a[0] == '}' <==> |ks| == 1;
    assert b[0] == '}' <==> |ls| == 1;
    assert a[1..] == if |ks| == 1 then x else Members(v, ks[1..]) + "}" + x;
    assert b[1..] == if |ls| == 1 then y else Members(w, ls[1..]) + "}" + y;
  }

  // ------------------------------------------------------------------ the normal form

  /** The order of an object's keys, at any depth, does not show in the text. */
  lemma {:induction false} SameText(v: Json, w: Json)
    requires Same(v, w) && WellFormed(v) && WellFormed(w)
    ensures Text(v) == Text(w)
    decreases v, 1, 0
  {
    match (v, w) {
      case (Arr(_), Arr(_)) => SameItems(v, w, 0);
      case (Obj(fs), Obj(gs)) =>
        SameKeys(fs, gs);
        SameMemberTexts(v, w, SortedKeys(fs));
      case _ =>
    }
  }

  lemma {:induction false} SameItems(v: Json, w: Json, i: nat)
    requires v.Arr? && w.Arr? && Same(v, w) && WellFormed(v) && WellFormed(w) && i <= |v.items|
    ensures Items(v, i) == Items(w, i)
    decreases v, 0, |v.items| - i
  {
    if i < |v.items| {
      SameText(v.items[i], w.items[i]);
      SameItems(v, w, i + 1);
    }
  }

  lemma {:induction false} SameMemberTexts(v: Json, w: Json, ks: seq<string>)
    requires v.Obj? && w.Obj? && Same(v, w) && WellFormed(v) && WellFormed(w)
    requires (forall k :: k in ks ==> k in Keys(v.fields)) && (forall k :: k in ks ==> k in Keys(w.fields))
    ensures Members(v, ks) == Members(w, ks)
    decreases v, 0, |ks|
  {
    hide Text, Keys, Lookup, Quote;
    if ks != [] {
      FieldFormed(v, ks[0]);
      FieldFormed(w, ks[0]);
      SameText(Lookup(v.fields, ks[0]).value, Lookup(w.fields, ks[0]).value);
      if |ks| > 1 {
        SameMemberTexts(v, w, ks[1..]);
      }
    }
  }

  lemma FieldFormed(v: Json, k: string)
    requires v.Obj? && WellFormed(v) && k in Keys(v.fields)
    ensures WellFormed(Lookup(v.fields, k).value)
  {
    var f := Lookup(v.fields, k);
    var i :| 0 <= i < |v.fields| && v.fields[i] == f;
  }

  /** Distinct keys sort to the same list, however they were inserted. */
  lemma SameKeys(fs: seq<Field>, gs: seq<Field>)
    requires Distinct(Keys(fs)) && Distinct(Keys(gs)) && forall k :: k in Keys(fs) <==> k in Keys(gs)
    ensures SortedKeys(fs) == SortedKeys(gs)
  {
    DistinctBags(Keys(fs), Keys(gs));
    StringsOrdered();
    SortOfPermutation(Keys(fs), Keys(gs), ByCodeUnits());
  }

  lemma {:induction false} DistinctCount(xs: seq<string>, x: string)
    requires Distinct(xs)
    ensures multiset(xs)[x] == if x in xs then 1 else 0
  {
    if xs != [] {
      assert xs == [xs[0]] + xs[1..];
      DistinctCount(xs[1..], x);
    }
  }

  lemma DistinctBags(xs: seq<string>, ys: seq<string>)
    requires Distinct(xs) && Distinct(ys) && forall x :: x in xs <==> x in ys
    ensures multiset(xs) == multiset(ys)
  {
    forall x ensures multiset(xs)[x] == multiset(ys)[x] {
      DistinctCount(xs, x);
      DistinctCount(ys, x);
    }
  }

  /** The canonical text is a normal form: two values share it exactly when they are the same up to
      the order of object keys. */
  lemma TextIsNormalForm(v: Json, w: Json)
    requires WellFormed(v) && WellFormed(w)
    ensures Text(v) == Text(w) <==> Same(v, w)
  {
    if Same(v, w) {
      SameText(v, w);
    }
    if Text(v) == Text(w) {
      assert Text(v) + "" == Text(v) && Text(w) + "" == Text(w);
      TextRead(v, "", w, "");
    }
    hide *;
  }
}
