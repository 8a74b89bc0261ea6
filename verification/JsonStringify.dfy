/** JSON.stringify: the text of a value with its fields in insertion order. */
module JsonStringify {
  import opened Json

  /** Texts separated by commas. */
  function Commas(texts: seq<string>): string {
    if texts == [] then "" else if |texts| == 1 then texts[0] else texts[0] + "," + Commas(texts[1..])
  }

  /** JSON.stringify: fields in insertion order. */
  function Stringify(v: Json): string
    decreases v, 1, 0
  {
    match v
    case Null => "null"
    case Bool(b) => if b then "true" else "false"
    case Num(n) => Number(n)
    case Str(s) => Quote(s)
    case Arr(_) => "[" + Commas(ItemTexts(v, 0)) + "]"
    case Obj(_) => "{" + Commas(MemberTexts(v, 0)) + "}"
  }

  function ItemTexts(v: Json, i: nat): seq<string>
    requires v.Arr? && i <= |v.items|
    decreases v, 0, |v.items| - i
  {
    if i == |v.items| then [] else [Stringify(v.items[i])] + ItemTexts(v, i + 1)
  }

  function MemberTexts(v: Json, i: nat): seq<string>
    requires v.Obj? && i <= |v.fields|
    decreases v, 0, |v.fields| - i
  {
    if i == |v.fields| then [] else [Quote(v.fields[i].key) + ":" + Stringify(v.fields[i].value)] + MemberTexts(v, i + 1)
  }

  function Texts(items: seq<Json>): seq<string> { if items == [] then [] else [Stringify(items[0])] + Texts(items[1..]) }

  function FieldTexts(fields: seq<Field>): seq<string> {
    if fields == [] then [] else [Quote(fields[0].key) + ":" + Stringify(fields[0].value)] + FieldTexts(fields[1..])
  }

  lemma {:induction false} ItemTextsAre(items: seq<Json>, i: nat)
    requires i <= |items|
    ensures ItemTexts(Arr(items), i) == Texts(items[i..])
    decreases |items| - i
  {
    if i < |items| {
      ItemTextsAre(items, i + 1);
      assert items[i..][1..] == items[i + 1..];
    }
  }

  lemma {:induction false} MemberTextsAre(fields: seq<Field>, i: nat)
    requires i <= |fields|
    ensures MemberTexts(Obj(fields), i) == FieldTexts(fields[i..])
    decreases |fields| - i
  {
    if i < |fields| {
      MemberTextsAre(fields, i + 1);
      assert fields[i..][1..] == fields[i + 1..];
    }
  }

  lemma ArrayOfTexts(items: seq<Json>)
    ensures Stringify(Arr(items)) == "[" + Commas(Texts(items)) + "]"
  {
    ItemTextsAre(items, 0);
    assert items[0..] == items;
  }

  lemma ObjectOfTexts(fields: seq<Field>)
    ensures Stringify(Obj(fields)) == "{" + Commas(FieldTexts(fields)) + "}"
  {
    MemberTextsAre(fields, 0);
    assert fields[0..] == fields;
  }

  lemma {:induction false} CommasAppend(texts: seq<string>, last: string)
    ensures Commas(texts + [last]) == if texts == [] then last else Commas(texts) + "," + last
  {
    if texts == [] {
      assert texts + [last] == [last];
    } else {
      assert (texts + [last])[1..] == texts[1..] + [last];
      CommasAppend(texts[1..], last);
    }
  }

  lemma {:induction false} TextsAppend(items: seq<Json>, last: Json)
    ensures Texts(items + [last]) == Texts(items) + [Stringify(last)]
    ensures |Texts(items)| == |items|
  {
    if items == [] {
      assert items + [last] == [last];
    } else {
      assert (items + [last])[1..] == items[1..] + [last];
      TextsAppend(items[1..], last);
    }
  }

  lemma {:induction false} FieldTextsAppend(fields: seq<Field>, last: Field)
    ensures FieldTexts(fields + [last]) == FieldTexts(fields) + [Quote(last.key) + ":" + Stringify(last.value)]
    ensures |FieldTexts(fields)| == |fields|
  {
    if fields == [] {
      assert fields + [last] == [last];
    } else {
      assert (fields + [last])[1..] == fields[1..] + [last];
      FieldTextsAppend(fields[1..], last);
    }
  }

  /** Cutting off the closing brace and adding a member by hand is the text of the object with that
      field, as long as it has a field already. */
  lemma AddMember(fields: seq<Field>, key: string, value: Json)
    requires fields != []
    ensures var s := Stringify(Obj(fields));
            s != "" && s[..|s| - 1] + "," + Quote(key) + ":" + Stringify(value) + "}" == Stringify(Obj(fields + [Field(key, value)]))
  {
    ObjectOfTexts(fields);
    ObjectOfTexts(fields + [Field(key, value)]);
    FieldTextsAppend(fields, Field(key, value));
    CommasAppend(FieldTexts(fields), Quote(key) + ":" + Stringify(value));
    hide Commas, FieldTexts, Stringify, Quote;
    var s := Stringify(Obj(fields));
    assert s[..|s| - 1] == "{" + Commas(FieldTexts(fields));
  }
}
