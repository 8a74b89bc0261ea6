/** A reader of JSON texts, after the grammar of RFC 8259, for values whose numbers are integers: what
    JSON.stringify and the canonical text write is read back as the value that was written. */
module JsonReader {
  import opened Common
  import opened Sorting
  import opened Json
  import opened JsonStringify

  // ------------------------------------------------------------------ the grammar

  datatype Read<T> = Bad | Good(value: T, rest: string)

  /** Section 2: ws. */
  function Skip(s: string): (r: string)
    ensures |r| <= |s|
  {
    if s != "" && (s[0] == ' ' || s[0] as int == 9 || s[0] as int == 10 || s[0] as int == 13) then Skip(s[1..]) else s
  }

  function DigitValue(c: char): Option<nat> { if '0' <= c <= '9' then Some(c as int - '0' as int) else None }

  function HexValue(c: char): Option<nat> {
    if '0' <= c <= '9' then Some(c as int - '0' as int)
    else if 'a' <= c <= 'f' then Some(c as int - 'a' as int + 10)
    else if 'A' <= c <= 'F' then Some(c as int - 'A' as int + 10)
    else None
  }

  /** Section 6: the digits of a number, `n` being the value so far. */
  function ReadDigits(s: string, n: nat): (r: Read<nat>)
    ensures r.Good? ==> |r.rest| <= |s|
  {
    if s != "" && DigitValue(s[0]).Some? then ReadDigits(s[1..], 10 * n + DigitValue(s[0]).value) else Good(n, s)
  }

  /** int: no leading zeros. A fraction or an exponent may not follow an integer. */
  function ReadNatural(s: string): (r: Read<nat>)
    ensures r.Good? ==> |r.rest| < |s|
  {
    if s == "" || DigitValue(s[0]).None? then Bad
    else
      var r := if s[0] == '0' then Good(0, s[1..]) else ReadDigits(s[1..], DigitValue(s[0]).value);
      if r.Good? && r.rest != "" && (DigitValue(r.rest[0]).Some? || r.rest[0] == '.' || r.rest[0] == 'e' || r.rest[0] == 'E') then Bad else r
  }

  function ReadNumber(s: string): (r: Read<int>)
    ensures r.Good? ==> |r.rest| < |s|
  {
    if s != "" && s[0] == '-' then
      var r := ReadNatural(s[1..]);
      if r.Bad? then Bad
      else Read<int>.Good(0 - r.value, r.rest)
    else
      var r := ReadNatural(s);
      if r.Bad? then Bad else Good(r.value, r.rest)
  }

  /** Section 7: what follows a backslash. Four hexadecimal digits stand for one character; pairs of them
      that stand for one are not read. */
  function ReadEscape(s: string): (r: Read<char>)
    ensures r.Good? ==> |r.rest| < |s|
  {
    if s == "" then Bad
    else if s[0] == '"' then Good('"', s[1..])
    else if s[0] == '\\' then Good('\\', s[1..])
    else if s[0] == '/' then Good('/', s[1..])
    else if s[0] == 'b' then Good(8 as char, s[1..])
    else if s[0] == 'f' then Good(12 as char, s[1..])
    else if s[0] == 'n' then Good(10 as char, s[1..])
    else if s[0] == 'r' then Good(13 as char, s[1..])
    else if s[0] == 't' then Good(9 as char, s[1..])
    else if s[0] == 'u' && |s| >= 5 && HexValue(s[1]).Some? && HexValue(s[2]).Some? && HexValue(s[3]).Some? && HexValue(s[4]).Some? then
      var n := 4096 * HexValue(s[1]).value + 256 * HexValue(s[2]).value + 16 * HexValue(s[3]).value + HexValue(s[4]).value;
      if n < 0xD800 || 0xE000 <= n < 0x10000 then Good(n as char, s[5..]) else Bad
    else Bad
  }

  /** The characters of a string and its closing quotation mark. */
  function ReadString(s: string): (r: Read<string>)
    ensures r.Good? ==> |r.rest| < |s|
    decreases |s|
  {
    if s == "" || s[0] as int < 32 then Bad
    else if s[0] == '"' then Good("", s[1..])
    else
      var first := if s[0] == '\\' then ReadEscape(s[1..]) else Good(s[0], s[1..]);
      if first.Bad? then Bad
      else
        var more := ReadString(first.rest);
        if more.Bad? then Bad else Good([first.value] + more.value, more.rest)
  }

  predicate Begins(s: string, word: string) { |word| <= |s| && s[..|word|] == word }

  /** Section 3: a value. */
  function ReadValue(text: string): (r: Read<Json>)
    ensures r.Good? ==> |r.rest| < |text|
    decreases |text|, 1
  {
    var s := Skip(text);
    if s == "" then Bad
    else if s[0] == '{' then
      var t := Skip(s[1..]);
      if t != "" && t[0] == '}' then Good(Obj([]), t[1..])
      else
        var r := ReadMembers(t);
        if r.Bad? then Bad else Good(Obj(r.value), r.rest)
    else if s[0] == '[' then
      var t := Skip(s[1..]);
      if t != "" && t[0] == ']' then Good(Arr([]), t[1..])
      else
        var r := ReadItems(t);
        if r.Bad? then Bad else Good(Arr(r.value), r.rest)
    else if s[0] == '"' then
      var r := ReadString(s[1..]);
      if r.Bad? then Bad else Good(Str(r.value), r.rest)
    else if Begins(s, "true") then Good(Bool(true), s[4..])
    else if Begins(s, "false") then Good(Bool(false), s[5..])
    else if Begins(s, "null") then Good(Null, s[4..])
    else
      var r := ReadNumber(s);
      if r.Bad? then Bad else Good(Num(r.value), r.rest)
  }

  /** Section 5: the values of an array and its closing bracket. */
  function ReadItems(s: string): (r: Read<seq<Json>>)
    ensures r.Good? ==> |r.rest| < |s|
    decreases |s|, 2
  {
    var first := ReadValue(s);
    if first.Bad? then Bad
    else
      var t := Skip(first.rest);
      if t != "" && t[0] == ']' then Good([first.value], t[1..])
      else if t != "" && t[0] == ',' then
        var more := ReadItems(t[1..]);
        if more.Bad? then Bad else Good([first.value] + more.value, more.rest)
      else Bad
  }

  /** Section 4: the members of an object and its closing brace. */
  function ReadMembers(text: string): (r: Read<seq<Field>>)
    ensures r.Good? ==> |r.rest| < |text|
    decreases |text|, 2
  {
    var s := Skip(text);
    if s == "" || s[0] != '"' then Bad
    else
      var key := ReadString(s[1..]);
      if key.Bad? then Bad
      else
        var colon := Skip(key.rest);
        if colon == "" || colon[0] != ':' then Bad
        else
          var value := ReadValue(colon[1..]);
          if value.Bad? then Bad
          else
            var t := Skip(value.rest);
            if t != "" && t[0] == '}' then Good([Field(key.value, value.value)], t[1..])
            else if t != "" && t[0] == ',' then
              var more := ReadMembers(t[1..]);
              if more.Bad? then Bad else Good([Field(key.value, value.value)] + more.value, more.rest)
            else Bad
  }

  /** JSON-text: one value, and nothing but white space behind it. */
  function ReadText(text: string): Option<Json> {
    var r := ReadValue(text);
    if r.Good? && Skip(r.rest) == "" then Some(r.value) else None
  }

  // ------------------------------------------------------------------ numbers

  /** Nothing that could belong to a number follows. */
  lemma EndsNumber(x: string)
    requires Ends(x)
    ensures x == "" || (DigitValue(x[0]).None? && x[0] != '.' && x[0] != 'e' && x[0] != 'E')
  {
  }

  lemma {:induction false} DigitsAreRead(d: string, n: nat, x: string)
    requires AllDigits(d) && (x == "" || DigitValue(x[0]).None?)
    ensures ReadDigits(d + x, n) == Good(Shifted(n, d), x)
    decreases |d|
  {
    if d == "" {
      assert d + x == x;
    } else {
      assert (d + x)[0] == d[0] && (d + x)[1..] == d[1..] + x;
      DigitsAreRead(d[1..], 10 * n + DigitValue(d[0]).value, x);
    }
  }

  /** `n` with the digits written behind it. */
  ghost function Shifted(n: nat, d: string): nat
    requires AllDigits(d)
    decreases |d|
  {
    if d == "" then n else Shifted(10 * n + DigitValue(d[0]).value, d[1..])
  }

  lemma {:induction false} ShiftedLast(n: nat, d: string, c: char)
    requires AllDigits(d) && IsDigit(c)
    ensures AllDigits(d + [c]) && Shifted(n, d + [c]) == 10 * Shifted(n, d) + DigitValue(c).value
    decreases |d|
  {
    if d == "" {
      assert d + [c] == [c] && [c][1..] == "";
    } else {
      assert (d + [c])[0] == d[0] && (d + [c])[1..] == d[1..] + [c];
      ShiftedLast(10 * n + DigitValue(d[0]).value, d[1..], c);
    }
  }

  lemma DigitIs(d: nat)
    requires d < 10
    ensures IsDigit(Digit(d)) && DigitValue(Digit(d)) == Some(d) && (Digit(d) == '0' <==> d == 0)
  {
  }

  /** The first digit of a number is not zero, unless it is the only one. */
  lemma {:induction false} DigitsAre(n: nat)
    ensures var d := Digits(n);
            && d != "" && AllDigits(d) && Shifted(0, d) == n && (d[0] == '0' <==> n == 0) && (n == 0 ==> |d| == 1)
  {
    if n < 10 {
      DigitIs(n);
      assert Digits(n)[1..] == "";
    } else {
      DigitsAre(n / 10);
      DigitIs(n % 10);
      var d, c := Digits(n / 10), Digit(n % 10);
      ShiftedLast(0, d, c);
      assert (d + [c])[0] == d[0];
    }
  }

  lemma NaturalIsRead(n: nat, x: string)
    requires Ends(x)
    ensures ReadNatural(Digits(n) + x) == Good(n, x)
  {
    EndsNumber(x);
    DigitsAre(n);
    var d := Digits(n);
    hide Digits;
    assert (d + x)[0] == d[0] && (d + x)[1..] == d[1..] + x;
    if n == 0 {
      assert d[1..] + x == x;
    } else {
      DigitsAreRead(d[1..], DigitValue(d[0]).value, x);
    }
  }

  lemma NumberIsRead(n: int, x: string)
    requires Ends(x)
    ensures ReadNumber(Number(n) + x) == Good(n, x)
    ensures var c := (Number(n) + x)[0]; c == '-' || IsDigit(c)
  {
    hide Digits, ReadNatural;
    var m := if n < 0 then -n else n;
    NaturalIsRead(m, x);
    DigitsAre(m);
    if n < 0 {
      assert ("-" + Digits(m) + x)[1..] == Digits(m) + x;
    } else {
      assert (Digits(m) + x)[0] == Digits(m)[0];
    }
  }

  // ------------------------------------------------------------------ strings

  lemma HexIs(d: nat)
    requires d < 16
    ensures HexValue(HexDigit(d)) == Some(d)
  {
  }

  /** One character, escaped or not. */
  lemma EscapeIsRead(c: char, x: string)
    ensures var s := Escape(c) + x;
            && s != "" && s[0] as int >= 32 && s[0] != '"'
            && (if s[0] == '\\' then ReadEscape(s[1..]) else Good(s[0], s[1..])) == Good(c, x)
  {
    var e := Escape(c);
    var s := e + x;
    assert s[|e|..] == x;
    assert forall i :: 0 <= i < |e| ==> s[i] == e[i];
    if |e| == 2 {
      assert s[1..][1..] == x;
    } else if |e| == 6 {
      HexIs(c as int / 16);
      HexIs(c as int % 16);
      assert s[1..][5..] == x;
      assert s[1..][1] == '0' && s[1..][2] == '0' && s[1..][3] == HexDigit(c as int / 16) && s[1..][4] == HexDigit(c as int % 16);
    }
  }

  lemma {:induction false} StringIsRead(s: string, x: string)
    ensures ReadString(Closed(s, x)) == Good(s, x)
  {
    hide Escape, ReadEscape;
    ClosedStarts(s, x);
    if s != "" {
      EscapeIsRead(s[0], Closed(s[1..], x));
      StringIsRead(s[1..], x);
      assert [s[0]] + s[1..] == s;
    }
    hide Closed;
  }

  // ------------------------------------------------------------------ values

  lemma Unskipped(s: string)
    requires s != "" && s[0] as int > 32
    ensures Skip(s) == s
  {
  }

  lemma AtomIsRead(v: Json, x: string)
    requires Ends(x) && !v.Arr? && !v.Obj?
    ensures ReadValue(Stringify(v) + x) == Good(v, x)
  {
    match v {
      case Null =>
        NullIsRead(x);
      case Bool(b) =>
        BoolIsRead(b, x);
      case Num(n) =>
        NumIsRead(n, x);
      case Str(s) =>
        StrIsRead(s, x);
    }
    hide ReadValue, Quote, Number;
  }

  lemma NullIsRead(x: string)
    ensures ReadValue("null" + x) == Good(Null, x)
  {
    hide ReadString, ReadNumber, ReadItems, ReadMembers;
    assert ("null" + x)[..4] == "null" && ("null" + x)[4..] == x;
  }

  lemma BoolIsRead(b: bool, x: string)
    ensures ReadValue((if b then "true" else "false") + x) == Good(Bool(b), x)
  {
    hide ReadString, ReadNumber, ReadItems, ReadMembers;
    assert b ==> ("true" + x)[..4] == "true" && ("true" + x)[4..] == x;
    assert !b ==> ("false" + x)[..5] == "false" && ("false" + x)[5..] == x;
  }

  lemma NumIsRead(n: int, x: string)
    requires Ends(x)
    ensures ReadValue(Number(n) + x) == Good(Num(n), x)
  {
    hide ReadString, ReadNumber, ReadItems, ReadMembers, Number;
    NumberIsRead(n, x);
  }

  lemma StrIsRead(s: string, x: string)
    ensures ReadValue(Quote(s) + x) == Good(Str(s), x)
  {
    hide ReadString, ReadNumber, ReadItems, ReadMembers, Quote;
    QuoteStarts(s, x);
    QuoteRest(s, x);
    StringIsRead(s, x);
  }

  /** What follows item `i`: the next one, or the closing bracket. */
  ghost function ItemsFrom(v: Json, i: nat, x: string): string
    requires v.Arr? && i <= |v.items|
  {
    Commas(ItemTexts(v, i)) + "]" + x
  }

  lemma FirstItem(v: Json, i: nat, x: string)
    requires v.Arr? && i < |v.items|
    ensures ItemsFrom(v, i, x) == Stringify(v.items[i]) + (if i + 1 == |v.items| then "]" + x else "," + ItemsFrom(v, i + 1, x))
  {
    hide Stringify;
    var t, rest := Stringify(v.items[i]), ItemTexts(v, i + 1);
    assert ItemTexts(v, i) == [t] + rest && ItemTexts(v, i)[1..] == rest;
    if i + 1 < |v.items| {
      Glue(t, ",", Commas(rest));
      Glue(t + ",", Commas(rest), "]" + x);
      assert Commas(ItemTexts(v, i)) == t + "," + Commas(rest);
      assert ItemsFrom(v, i, x) == t + ("," + (Commas(rest) + "]" + x));
    } else {
      assert ItemsFrom(v, i, x) == t + ("]" + x);
    }
  }

  lemma StartsValue(v: Json, x: string)
    ensures Stringify(v) + x != "" && (Stringify(v) + x)[0] as int > 32 && (Stringify(v) + x)[0] != ']' && (Stringify(v) + x)[0] != '}'
  {
    hide Commas, ItemTexts, MemberTexts, Digits;
    if v.Num? {
      DigitsAre(if v.n < 0 then -v.n else v.n);
    }
  }

  lemma {:induction false} ValueIsRead(v: Json, x: string)
    requires Ends(x)
    ensures ReadValue(Stringify(v) + x) == Good(v, x)
    decreases v, 1, 0
  {
    match v {
      case Arr(_) => ArrayIsRead(v, x);
      case Obj(_) => ObjectIsRead(v, x);
      case _ => AtomIsRead(v, x);
    }
    hide *;
  }

  lemma {:induction false} ArrayIsRead(v: Json, x: string)
    requires v.Arr?
    ensures ReadValue(Stringify(v) + x) == Good(v, x)
    decreases v, 0, |v.items| + 1
  {
    hide ReadItems, ReadMembers, ReadString, ReadNumber, ItemTexts, Commas, ItemsFrom;
    var s := Stringify(v) + x;
    ArrayOpens(v, x);
    if v.items == [] {
      EmptyItems(v, x);
      Unskipped("]" + x);
    } else {
      FirstItem(v, 0, x);
      var more := if 1 == |v.items| then "]" + x else "," + ItemsFrom(v, 1, x);
      StartsValue(v.items[0], more);
      hide Stringify;
      Unskipped(ItemsFrom(v, 0, x));
      ItemsAreRead(v, 0, x);
      assert v.items[0..] == v.items;
    }
  }

  lemma ArrayOpens(v: Json, x: string)
    requires v.Arr?
    ensures Stringify(v) + x != "" && (Stringify(v) + x)[0] == '[' && (Stringify(v) + x)[1..] == ItemsFrom(v, 0, x)
  {
    hide Commas, ItemTexts;
    assert Stringify(v) + x == "[" + ItemsFrom(v, 0, x);
  }

  lemma EmptyItems(v: Json, x: string)
    requires v.Arr? && v.items == []
    ensures ItemsFrom(v, 0, x) == "]" + x
  {
  }

  lemma {:induction false} ItemsAreRead(v: Json, i: nat, x: string)
    requires v.Arr? && i < |v.items|
    ensures ReadItems(ItemsFrom(v, i, x)) == Good(v.items[i..], x)
    decreases v, 0, |v.items| - i
  {
    hide ReadValue, Stringify, ItemsFrom;
    FirstItem(v, i, x);
    var more := if i + 1 == |v.items| then "]" + x else "," + ItemsFrom(v, i + 1, x);
    ValueIsRead(v.items[i], more);
    Unskipped(more);
    assert more[1..] == if i + 1 == |v.items| then x else ItemsFrom(v, i + 1, x);
    if i + 1 < |v.items| {
      ItemsAreRead(v, i + 1, x);
      assert [v.items[i]] + v.items[i + 1..] == v.items[i..];
    } else {
      assert [v.items[i]] == v.items[i..];
    }
  }

  ghost function MembersFrom(v: Json, i: nat, x: string): string
    requires v.Obj? && i <= |v.fields|
  {
    Commas(MemberTexts(v, i)) + "}" + x
  }

  lemma FirstMemberIs(v: Json, i: nat, x: string)
    requires v.Obj? && i < |v.fields|
    ensures MembersFrom(v, i, x)
         == Quote(v.fields[i].key) + (":" + (Stringify(v.fields[i].value)
                                             + (if i + 1 == |v.fields| then "}" + x else "," + MembersFrom(v, i + 1, x))))
  {
    hide Stringify, Quote;
    var q, t, rest := Quote(v.fields[i].key), Stringify(v.fields[i].value), MemberTexts(v, i + 1);
    var both := q + ":" + t;
    assert MemberTexts(v, i) == [both] + rest && MemberTexts(v, i)[1..] == rest;
    if i + 1 < |v.fields| {
      assert Commas(MemberTexts(v, i)) == both + "," + Commas(rest);
      assert MembersFrom(v, i, x) == both + ("," + (Commas(rest) + "}" + x));
    } else {
      assert MembersFrom(v, i, x) == both + ("}" + x);
    }
    var more := if i + 1 == |v.fields| then "}" + x else "," + MembersFrom(v, i + 1, x);
    hide *;
    Glue(q + ":", t, more);
    Glue(q, ":", t + more);
  }

  lemma {:induction false} ObjectIsRead(v: Json, x: string)
    requires v.Obj?
    ensures ReadValue(Stringify(v) + x) == Good(v, x)
    decreases v, 0, |v.fields| + 1
  {
    hide ReadItems, ReadMembers, ReadString, ReadNumber, MemberTexts, Commas, MembersFrom;
    ObjectOpens(v, x);
    if v.fields == [] {
      EmptyMembers(v, x);
      Unskipped("}" + x);
    } else {
      FirstMemberIs(v, 0, x);
      var more := if 1 == |v.fields| then "}" + x else "," + MembersFrom(v, 1, x);
      QuoteStarts(v.fields[0].key, ":" + (Stringify(v.fields[0].value) + more));
      hide Stringify;
      Unskipped(MembersFrom(v, 0, x));
      MembersAreRead(v, 0, x);
      assert v.fields[0..] == v.fields;
    }
  }

  lemma ObjectOpens(v: Json, x: string)
    requires v.Obj?
    ensures Stringify(v) + x != "" && (Stringify(v) + x)[0] == '{' && (Stringify(v) + x)[1..] == MembersFrom(v, 0, x)
  {
    hide Commas, MemberTexts;
    assert Stringify(v) + x == "{" + MembersFrom(v, 0, x);
  }

  lemma EmptyMembers(v: Json, x: string)
    requires v.Obj? && v.fields == []
    ensures MembersFrom(v, 0, x) == "}" + x
  {
  }

  lemma {:induction false} MembersAreRead(v: Json, i: nat, x: string)
    requires v.Obj? && i < |v.fields|
    ensures ReadMembers(MembersFrom(v, i, x)) == Good(v.fields[i..], x)
    decreases v, 0, |v.fields| - i
  {
    hide ReadValue, ReadString, Stringify, MembersFrom, Quote, Closed;
    FirstMemberIs(v, i, x);
    var key := v.fields[i].key;
    var more := if i + 1 == |v.fields| then "}" + x else "," + MembersFrom(v, i + 1, x);
    var value := Stringify(v.fields[i].value) + more;
    QuoteStarts(key, ":" + value);
    QuoteRest(key, ":" + value);
    StringIsRead(key, ":" + value);
    Unskipped(MembersFrom(v, i, x));
    Unskipped(":" + value);
    assert (":" + value)[1..] == value;
    ValueIsRead(v.fields[i].value, more);
    Unskipped(more);
    assert more[1..] == if i + 1 == |v.fields| then x else MembersFrom(v, i + 1, x);
    assert v.fields[i] == Field(key, v.fields[i].value);
    if i + 1 < |v.fields| {
      MembersAreRead(v, i + 1, x);
      assert [v.fields[i]] + v.fields[i + 1..] == v.fields[i..];
    } else {
      assert [v.fields[i]] == v.fields[i..];
    }
  }

  /** What JSON.stringify writes is the JSON text of the value. */
  lemma StringifyIsRead(v: Json)
    ensures ReadText(Stringify(v)) == Some(v)
  {
    hide Stringify, ReadValue;
    ValueIsRead(v, "");
    assert Stringify(v) + "" == Stringify(v);
  }

  // ------------------------------------------------------------------ the canonical text

  /** The value with the keys of its objects sorted, at every depth. */
  ghost function Ordered(v: Json): Json
    decreases v, 1, 0
  {
    match v
    case Arr(items) => Arr(OrderedItems(v, 0))
    case Obj(fields) => Obj(OrderedFields(v, SortedKeys(fields)))
    case _ => v
  }

  ghost function OrderedItems(v: Json, i: nat): (r: seq<Json>)
    requires v.Arr? && i <= |v.items|
    ensures |r| == |v.items| - i
    decreases v, 0, |v.items| - i
  {
    if i == |v.items| then [] else [Ordered(v.items[i])] + OrderedItems(v, i + 1)
  }

  ghost function OrderedFields(v: Json, keys: seq<string>): (r: seq<Field>)
    requires v.Obj? && forall k :: k in keys ==> k in Keys(v.fields)
    ensures |r| == |keys|
    decreases v, 0, |keys|
  {
    if keys == [] then [] else [Field(keys[0], Ordered(Lookup(v.fields, keys[0]).value))] + OrderedFields(v, keys[1..])
  }

  /** The canonical text is the plain text of the ordered value. */
  lemma {:induction false} TextIsStringify(v: Json)
    ensures Text(v) == Stringify(Ordered(v))
    decreases v, 1, 0
  {
    match v {
      case Arr(items) =>
        ItemsAreOrdered(v, 0);
        ArrayOfTexts(OrderedItems(v, 0));
      case Obj(fields) =>
        MembersAreOrdered(v, SortedKeys(fields));
        ObjectOfTexts(OrderedFields(v, SortedKeys(fields)));
      case _ =>
    }
    hide Items, Members, OrderedItems, OrderedFields, SortedKeys;
  }

  lemma {:induction false} ItemsAreOrdered(v: Json, i: nat)
    requires v.Arr? && i <= |v.items|
    ensures Items(v, i) == Commas(Texts(OrderedItems(v, i)))
    decreases v, 0, |v.items| - i
  {
    hide Text, Stringify, Ordered;
    if i < |v.items| {
      TextIsStringify(v.items[i]);
      ItemsAreOrdered(v, i + 1);
      var rest := OrderedItems(v, i + 1);
      var texts := Texts(OrderedItems(v, i));
      assert texts == [Stringify(Ordered(v.items[i]))] + Texts(rest) by {
        assert OrderedItems(v, i)[1..] == rest;
      }
      assert texts[1..] == Texts(rest);
      TextsLength(rest);
    }
  }

  lemma {:induction false} TextsLength(items: seq<Json>)
    ensures |Texts(items)| == |items|
  {
    if items != [] {
      TextsLength(items[1..]);
    }
  }

  lemma {:induction false} FieldTextsLength(fields: seq<Field>)
    ensures |FieldTexts(fields)| == |fields|
  {
    if fields != [] {
      FieldTextsLength(fields[1..]);
    }
  }

  lemma {:induction false} MembersAreOrdered(v: Json, keys: seq<string>)
    requires v.Obj? && forall k :: k in keys ==> k in Keys(v.fields)
    ensures Members(v, keys) == Commas(FieldTexts(OrderedFields(v, keys)))
    decreases v, 0, |keys|
  {
    hide Text, Stringify, Ordered, Quote, Lookup, Keys;
    if keys != [] {
      var value := Lookup(v.fields, keys[0]).value;
      TextIsStringify(value);
      MembersAreOrdered(v, keys[1..]);
      var rest := OrderedFields(v, keys[1..]);
      var texts := FieldTexts(OrderedFields(v, keys));
      assert texts == [Quote(keys[0]) + ":" + Stringify(Ordered(value))] + FieldTexts(rest) by {
        assert OrderedFields(v, keys)[1..] == rest;
      }
      assert texts[1..] == FieldTexts(rest);
      FieldTextsLength(rest);
    }
  }

  /** Ordering changes nothing but the order of keys. */
  lemma {:induction false} OrderedIsSame(v: Json)
    ensures Same(v, Ordered(v))
    decreases v, 1, 0
  {
    match v {
      case Arr(items) =>
        ItemsStay(v, 0);
      case Obj(fields) =>
        FieldsStay(v, SortedKeys(fields));
      case _ =>
    }
    hide SortedKeys, OrderedItems, OrderedFields, Keys, Lookup;
  }

  lemma {:induction false} ItemsStay(v: Json, i: nat)
    requires v.Arr? && i <= |v.items|
    ensures forall k :: i <= k < |v.items| ==> Same(v.items[k], OrderedItems(v, i)[k - i])
    decreases v, 0, |v.items| - i
  {
    hide Same, Ordered;
    if i < |v.items| {
      OrderedIsSame(v.items[i]);
      ItemsStay(v, i + 1);
      forall k | i <= k < |v.items| ensures Same(v.items[k], OrderedItems(v, i)[k - i]) {
        if k > i {
          assert OrderedItems(v, i)[k - i] == OrderedItems(v, i + 1)[k - (i + 1)];
        }
      }
    }
  }

  lemma {:induction false} FieldsStay(v: Json, keys: seq<string>)
    requires v.Obj? && forall k :: k in keys ==> k in Keys(v.fields)
    ensures forall k :: k in Keys(OrderedFields(v, keys)) <==> k in keys
    ensures forall k :: k in keys ==> k in Keys(OrderedFields(v, keys)) && Same(Lookup(v.fields, k).value, Lookup(OrderedFields(v, keys), k).value)
    decreases v, 0, |keys|
  {
    hide Same, Ordered;
    if keys != [] {
      OrderedIsSame(Lookup(v.fields, keys[0]).value);
      FieldsStay(v, keys[1..]);
      var gs, rest := OrderedFields(v, keys), OrderedFields(v, keys[1..]);
      assert gs[1..] == rest && gs[0].key == keys[0];
      assert Keys(gs) == [keys[0]] + Keys(rest);
      forall k ensures k in Keys(gs) <==> k in keys {
        assert k in keys <==> k == keys[0] || k in keys[1..];
      }
    }
  }

  /** One key comes before another: it is shorter, or smaller at the first place where they differ. */
  ghost predicate Earlier(a: string, b: string) {
    exists k :: 0 <= k <= |a| && k < |b| && a[..k] == b[..k] && (k == |a| || a[k] < b[k])
  }

  lemma {:induction false} EarlierExactly(a: string, b: string)
    ensures StringLeq(a, b) ==> a == b || Earlier(a, b)
  {
    if StringLeq(a, b) && a != b {
      if a == "" || a[0] != b[0] {
        assert a[..0] == b[..0];
      } else {
        EarlierExactly(a[1..], b[1..]);
        assert a == [a[0]] + a[1..] && b == [b[0]] + b[1..];
        var k :| 0 <= k <= |a[1..]| && k < |b[1..]| && a[1..][..k] == b[1..][..k] && (k == |a[1..]| || a[1..][k] < b[1..][k]);
        assert a[..k + 1] == [a[0]] + a[1..][..k] && b[..k + 1] == [b[0]] + b[1..][..k];
      }
    }
  }

  /** Every object has its keys in ascending order, at every depth. */
  ghost predicate Tidy(v: Json) {
    match v
    case Arr(items) => forall x :: x in items ==> Tidy(x)
    case Obj(fields) =>
      && (forall i, j :: 0 <= i < j < |fields| ==> fields[i].key == fields[j].key || Earlier(fields[i].key, fields[j].key))
      && (forall f :: f in fields ==> Tidy(f.value))
    case _ => true
  }

  lemma {:induction false} OrderedIsTidy(v: Json)
    ensures Tidy(Ordered(v))
    decreases v, 1, 0
  {
    match v {
      case Arr(items) =>
        ItemsAreTidy(v, 0);
      case Obj(fields) =>
        var ks := SortedKeys(fields);
        FieldsAreTidy(v, ks);
        StringsOrdered();
        SortSorts(Keys(fields), ByCodeUnits());
        forall i, j | 0 <= i < j < |ks| ensures ks[i] == ks[j] || Earlier(ks[i], ks[j]) {
          EarlierExactly(ks[i], ks[j]);
        }
      case _ =>
    }
    hide Earlier, OrderedItems, OrderedFields, Keys, Lookup, StringLeq;
  }

  lemma {:induction false} ItemsAreTidy(v: Json, i: nat)
    requires v.Arr? && i <= |v.items|
    ensures forall x :: x in OrderedItems(v, i) ==> Tidy(x)
    decreases v, 0, |v.items| - i
  {
    hide Tidy, Ordered;
    if i < |v.items| {
      OrderedIsTidy(v.items[i]);
      ItemsAreTidy(v, i + 1);
    }
  }

  lemma {:induction false} FieldsAreTidy(v: Json, keys: seq<string>)
    requires v.Obj? && forall k :: k in keys ==> k in Keys(v.fields)
    ensures forall i :: 0 <= i < |keys| ==> OrderedFields(v, keys)[i].key == keys[i]
    ensures forall f :: f in OrderedFields(v, keys) ==> Tidy(f.value)
    decreases v, 0, |keys|
  {
    hide Tidy, Ordered;
    if keys != [] {
      OrderedIsTidy(Lookup(v.fields, keys[0]).value);
      FieldsAreTidy(v, keys[1..]);
    }
  }

  /** What the canonical text says is the value, with the keys of every object in ascending order. */
  lemma CanonicalIsRead(v: Json)
    ensures ReadText(Text(v)).Some? && Same(v, ReadText(Text(v)).value) && Tidy(ReadText(Text(v)).value)
  {
    TextIsStringify(v);
    StringifyIsRead(Ordered(v));
    OrderedIsSame(v);
    OrderedIsTidy(v);
    hide *;
  }
}
