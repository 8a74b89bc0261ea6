/** The streamed account export of src/portal/portal.service.ts: batches and nested generators produce
    the text that JSON.stringify would give for the whole nested value at once. */
module Export {
  import opened Common
  import opened Json
  import opened JsonStringify
  import opened JsonReader

  const EXPORT_BATCH_SIZE: nat := 100

  // ------------------------------------------------------------------ pages

  /** A selected row: its id, and its fields after secret keys were dropped. The id is one of them, so
      there is at least one. */
  datatype Row = Row(id: int, fields: seq<Field>)

  /** A table in id order. */
  ghost predicate InIdOrder(rows: seq<Row>) { forall i, j :: 0 <= i < j < |rows| ==> rows[i].id < rows[j].id }

  ghost predicate Selected(rows: seq<Row>) { InIdOrder(rows) && forall i :: 0 <= i < |rows| ==> rows[i].fields != [] }

  function AfterCursor(rows: seq<Row>, cursor: int): seq<Row> {
    if rows == [] || cursor < rows[0].id then rows else AfterCursor(rows[1..], cursor)
  }

  /** exportCursorPage: take 100 in id order, after the cursor. */
  function FetchBatch(rows: seq<Row>, cursor: Option<int>): seq<Row> {
    var rest := if cursor.Some? then AfterCursor(rows, cursor.value) else rows;
    if |rest| <= EXPORT_BATCH_SIZE then rest else rest[..EXPORT_BATCH_SIZE]
  }

  lemma {:induction false} CursorSplits(rows: seq<Row>, k: nat)
    requires InIdOrder(rows) && k < |rows|
    ensures AfterCursor(rows, rows[k].id) == rows[k + 1..]
  {
    assert k == 0 || rows[0].id < rows[k].id;
    if k == 0 {
      if |rows| > 1 { assert rows[0].id < rows[1..][0].id; }
      assert AfterCursor(rows, rows[0].id) == AfterCursor(rows[1..], rows[0].id);
    } else {
      CursorSplits(rows[1..], k - 1);
      assert rows[1..][k..] == rows[k + 1..];
    }
  }

  /** The batch after the first `n` rows. */
  lemma BatchIs(rows: seq<Row>, n: nat)
    requires InIdOrder(rows) && n <= |rows|
    ensures var batch := FetchBatch(rows, if n == 0 then None else Some(rows[n - 1].id));
            && |batch| == (if |rows| - n <= EXPORT_BATCH_SIZE then |rows| - n else EXPORT_BATCH_SIZE)
            && batch == rows[n..n + |batch|]
  {
    if n > 0 {
      CursorSplits(rows, n - 1);
    }
    assert rows[0..] == rows;
  }

  /** exportRows: every row once, in id order, however many batches it takes. */
  method ExportRows(rows: seq<Row>) returns (out: seq<Row>)
    requires InIdOrder(rows)
    ensures out == rows
  {
    hide FetchBatch;
    out := [];
    var cursor: Option<int> := None;
    while true
      invariant |out| <= |rows| && out == rows[..|out|]
      invariant cursor == if |out| == 0 then None else Some(rows[|out| - 1].id)
      decreases |rows| - |out|
    {
      BatchIs(rows, |out|);
      var batch := FetchBatch(rows, cursor);
      assert rows[..|out|] + batch == rows[..|out| + |batch|];
      out := Yielded(out, batch);
      if |batch| < EXPORT_BATCH_SIZE {
        assert |out| == |rows|;
        return;
      }
      cursor := Some(batch[|batch| - 1].id);
    }
  }

  /** for (const item of batch) yield item */
  method Yielded(before: seq<Row>, batch: seq<Row>) returns (out: seq<Row>)
    ensures out == before + batch
  {
    out := before;
    for i := 0 to |batch|
      invariant out == before + batch[..i]
    {
      out := out + [batch[i]];
    }
  }

  // ------------------------------------------------------------------ streams

  function Values(rows: seq<Row>): seq<Json> { if rows == [] then [] else [Obj(rows[0].fields)] + Values(rows[1..]) }

  lemma {:induction false} ValuesAppend(rows: seq<Row>, last: Row)
    ensures Values(rows + [last]) == Values(rows) + [Obj(last.fields)]
  {
    if rows == [] {
      assert rows + [last] == [last];
    } else {
      assert (rows + [last])[1..] == rows[1..] + [last];
      ValuesAppend(rows[1..], last);
    }
  }

  /** A stream of array elements so far: each after the first is preceded by a comma. */
  lemma Streamed(items: seq<Json>, last: Json)
    ensures Commas(Texts(items + [last])) == Commas(Texts(items)) + (if items == [] then "" else ",") + Stringify(last)
  {
    TextsAppend(items, last);
    CommasAppend(Texts(items), Stringify(last));
    hide Stringify;
    if items == [] {
      assert Commas(Texts(items)) == "";
    }
  }

  /** streamExportArray. */
  method StreamExportArray(rows: seq<Row>) returns (text: string)
    requires InIdOrder(rows)
    ensures text == Stringify(Arr(Values(rows)))
  {
    hide Stringify, Commas, Texts;
    var items := ExportRows(rows);
    var first := true;
    text := "[";
    NoTexts();
    for i := 0 to |items|
      invariant first == (i == 0)
      invariant text == "[" + Commas(Texts(Values(rows[..i])))
    {
      Streamed(Values(rows[..i]), Obj(items[i].fields));
      ValuesAppend(rows[..i], rows[i]);
      assert rows[..i + 1] == rows[..i] + [rows[i]];
      ValuesLength(rows[..i]);
      if !first { text := text + ","; }
      first := false;
      text := text + Stringify(Obj(items[i].fields));
    }
    assert rows[..|rows|] == rows;
    text := text + "]";
    ArrayOfTexts(Values(rows));
  }

  lemma NoTexts()
    ensures Commas(Texts([])) == "" && Values([]) == []
  {
  }

  lemma {:induction false} ValuesLength(rows: seq<Row>)
    ensures |Values(rows)| == |rows|
  {
    if rows != [] {
      ValuesLength(rows[1..]);
    }
  }

  // ------------------------------------------------------------------ nested streams

  datatype PackRow = PackRow(row: Row, files: seq<Row>)

  datatype CompanionRow = CompanionRow(row: Row, packs: seq<PackRow>)

  function PackValue(p: PackRow): Json { Obj(p.row.fields + [Field("files", Arr(Values(p.files)))]) }

  function PackValues(ps: seq<PackRow>): seq<Json> { if ps == [] then [] else [PackValue(ps[0])] + PackValues(ps[1..]) }

  function CompanionValue(c: CompanionRow): Json { Obj(c.row.fields + [Field("assetPacks", Arr(PackValues(c.packs)))]) }

  function CompanionValues(cs: seq<CompanionRow>): seq<Json> {
    if cs == [] then [] else [CompanionValue(cs[0])] + CompanionValues(cs[1..])
  }

  lemma {:induction false} PackValuesAppend(ps: seq<PackRow>, last: PackRow)
    ensures PackValues(ps + [last]) == PackValues(ps) + [PackValue(last)] && |PackValues(ps)| == |ps|
  {
    if ps == [] {
      assert ps + [last] == [last];
    } else {
      assert (ps + [last])[1..] == ps[1..] + [last];
      PackValuesAppend(ps[1..], last);
    }
  }

  lemma {:induction false} CompanionValuesAppend(cs: seq<CompanionRow>, last: CompanionRow)
    ensures CompanionValues(cs + [last]) == CompanionValues(cs) + [CompanionValue(last)] && |CompanionValues(cs)| == |cs|
  {
    if cs == [] {
      assert cs + [last] == [last];
    } else {
      assert (cs + [last])[1..] == cs[1..] + [last];
      CompanionValuesAppend(cs[1..], last);
    }
  }

  function PackRows(ps: seq<PackRow>): seq<Row> { seq(|ps|, i requires 0 <= i < |ps| => ps[i].row) }

  function CompanionRows(cs: seq<CompanionRow>): seq<Row> { seq(|cs|, i requires 0 <= i < |cs| => cs[i].row) }

  ghost predicate PacksSelected(ps: seq<PackRow>) {
    Selected(PackRows(ps)) && forall i :: 0 <= i < |ps| ==> InIdOrder(ps[i].files)
  }

  ghost predicate CompanionsSelected(cs: seq<CompanionRow>) {
    Selected(CompanionRows(cs)) && forall i :: 0 <= i < |cs| ==> PacksSelected(cs[i].packs)
  }

  /** slice(0, -1) */
  function WithoutLast(s: string): string { if s == "" then "" else s[..|s| - 1] }

  lemma MemberAdded(fields: seq<Field>, key: string, value: Json)
    requires fields != []
    ensures WithoutLast(Stringify(Obj(fields))) + "," + Quote(key) + ":" + Stringify(value) + "}"
         == Stringify(Obj(fields + [Field(key, value)]))
  {
    AddMember(fields, key, value);
    hide Stringify, Quote;
  }

  /** streamExportAssetPacks. */
  method StreamExportAssetPacks(packs: seq<PackRow>) returns (text: string)
    requires PacksSelected(packs)
    ensures text == Stringify(Arr(PackValues(packs)))
  {
    hide Stringify, Commas, Texts, Quote, WithoutLast, InIdOrder;
    var rows := ExportRows(PackRows(packs));
    var first := true;
    text := "[";
    NoTexts();
    for i := 0 to |packs|
      invariant first == (i == 0)
      invariant text == "[" + Commas(Texts(PackValues(packs[..i])))
    {
      Streamed(PackValues(packs[..i]), PackValue(packs[i]));
      PackValuesAppend(packs[..i], packs[i]);
      assert packs[..i + 1] == packs[..i] + [packs[i]];
      MemberAdded(rows[i].fields, "files", Arr(Values(packs[i].files)));
      if !first { text := text + ","; }
      first := false;
      var files := StreamExportArray(packs[i].files);
      text := text + (WithoutLast(Stringify(Obj(rows[i].fields))) + "," + Quote("files") + ":" + files + "}");
    }
    assert packs[..|packs|] == packs;
    text := text + "]";
    ArrayOfTexts(PackValues(packs));
  }

  /** streamExportCompanions. */
  method StreamExportCompanions(companions: seq<CompanionRow>) returns (text: string)
    requires CompanionsSelected(companions)
    ensures text == Stringify(Arr(CompanionValues(companions)))
  {
    hide Stringify, Commas, Texts, Quote, WithoutLast, InIdOrder, PacksSelected;
    var rows := ExportRows(CompanionRows(companions));
    var first := true;
    text := "[";
    NoTexts();
    for i := 0 to |companions|
      invariant first == (i == 0)
      invariant text == "[" + Commas(Texts(CompanionValues(companions[..i])))
    {
      Streamed(CompanionValues(companions[..i]), CompanionValue(companions[i]));
      CompanionValuesAppend(companions[..i], companions[i]);
      assert companions[..i + 1] == companions[..i] + [companions[i]];
      MemberAdded(rows[i].fields, "assetPacks", Arr(PackValues(companions[i].packs)));
      if !first { text := text + ","; }
      first := false;
      var packs := StreamExportAssetPacks(companions[i].packs);
      text := text + (WithoutLast(Stringify(Obj(rows[i].fields))) + "," + Quote("assetPacks") + ":" + packs + "}");
    }
    assert companions[..|companions|] == companions;
    text := text + "]";
    ArrayOfTexts(CompanionValues(companions));
  }

  // ------------------------------------------------------------------ the whole export

  /** The sections before and after the companions: a key and its rows. */
  datatype Section = Section(key: string, rows: seq<Row>)

  ghost predicate SectionsSelected(sections: seq<Section>) {
    forall i :: 0 <= i < |sections| ==> InIdOrder(sections[i].rows)
  }

  function SectionFields(sections: seq<Section>): seq<Field> {
    if sections == [] then []
    else [Field(sections[0].key, Arr(Values(sections[0].rows)))] + SectionFields(sections[1..])
  }

  lemma {:induction false} SectionFieldsAppend(sections: seq<Section>, last: Section)
    ensures SectionFields(sections + [last]) == SectionFields(sections) + [Field(last.key, Arr(Values(last.rows)))]
  {
    if sections == [] {
      assert sections + [last] == [last];
    } else {
      assert (sections + [last])[1..] == sections[1..] + [last];
      SectionFieldsAppend(sections[1..], last);
    }
  }

  const NEVER_STORED: Json :=
    Arr([Str("Local Chat"), Str("Local Memory"), Str("Local API Keys"), Str("Local private Discovery"), Str("Desktop activity history")])

  /** The exported value: head, sections, companions, sections, tail. */
  function ExportFields(generatedAt: Json, account: Json, before: seq<Section>, companions: seq<CompanionRow>, after: seq<Section>): seq<Field> {
    [Field("schemaVersion", Num(2)), Field("generatedAt", generatedAt), Field("account", account)]
    + SectionFields(before) + [Field("companions", Arr(CompanionValues(companions)))] + SectionFields(after)
    + [Field("neverStored", NEVER_STORED), Field("complete", Bool(true))]
  }

  /** The text of an object that is still open. */
  ghost function OpenText(fields: seq<Field>): string { "{" + Commas(FieldTexts(fields)) }

  lemma OpenAppend(fields: seq<Field>, f: Field)
    requires fields != []
    ensures OpenText(fields + [f]) == OpenText(fields) + "," + Quote(f.key) + ":" + Stringify(f.value)
  {
    FieldTextsAppend(fields, f);
    CommasAppend(FieldTexts(fields), Quote(f.key) + ":" + Stringify(f.value));
    hide Stringify, Quote, Commas;
  }

  /** The generator's text for some sections, after the fields `fields`. */
  method StreamSections(ghost fields: seq<Field>, sections: seq<Section>) returns (text: string)
    requires fields != [] && SectionsSelected(sections)
    ensures OpenText(fields) + text == OpenText(fields + SectionFields(sections))
  {
    hide Stringify, Quote, OpenText, InIdOrder;
    text := "";
    assert fields + SectionFields(sections[..0]) == fields;
    for i := 0 to |sections|
      invariant OpenText(fields) + text == OpenText(fields + SectionFields(sections[..i]))
    {
      var section := sections[i];
      SectionFieldsAppend(sections[..i], section);
      assert sections[..i + 1] == sections[..i] + [section];
      var f := Field(section.key, Arr(Values(section.rows)));
      OpenAppend(fields + SectionFields(sections[..i]), f);
      assert fields + SectionFields(sections[..i]) + [f] == fields + SectionFields(sections[..i + 1]);
      var rows := StreamExportArray(section.rows);
      text := text + ("," + Quote(section.key) + ":" + rows);
    }
    assert sections[..|sections|] == sections;
  }

  /** yield `,"key":` and a value's text. */
  method YieldMember(text: string, ghost fields: seq<Field>, key: string, valueText: string, ghost value: Json) returns (out: string)
    requires fields != [] && text == OpenText(fields) && valueText == Stringify(value)
    ensures out == OpenText(fields + [Field(key, value)])
  {
    hide Stringify, Quote, OpenText;
    OpenAppend(fields, Field(key, value));
    return text + "," + Quote(key) + ":" + valueText;
  }

  function HeadFields(generatedAt: Json, account: Json): seq<Field> {
    [Field("schemaVersion", Num(2)), Field("generatedAt", generatedAt), Field("account", account)]
  }

  method StreamHead(generatedAt: Json, account: Json) returns (text: string)
    ensures text == OpenText(HeadFields(generatedAt, account))
  {
    hide Stringify, Quote, OpenText;
    ghost var fields := [Field("schemaVersion", Num(2))];
    FirstField(fields[0]);
    text := "{" + Quote("schemaVersion") + ":" + Stringify(Num(2));
    text := YieldMember(text, fields, "generatedAt", Stringify(generatedAt), generatedAt);
    text := YieldMember(text, fields + [Field("generatedAt", generatedAt)], "account", Stringify(account), account);
    assert fields + [Field("generatedAt", generatedAt)] + [Field("account", account)] == HeadFields(generatedAt, account);
  }

  /** generateDataExport: the streamed text is the text of the whole value, and is read as that value. */
  method GenerateDataExport(generatedAt: Json, account: Json, before: seq<Section>, companions: seq<CompanionRow>, after: seq<Section>)
    returns (text: string)
    requires CompanionsSelected(companions) && SectionsSelected(before) && SectionsSelected(after)
    ensures text == Stringify(Obj(ExportFields(generatedAt, account, before, companions, after)))
    ensures ReadText(text) == Some(Obj(
      [Field("schemaVersion", Num(2)), Field("generatedAt", generatedAt), Field("account", account)] + SectionFields(before)
      + [Field("companions", Arr(CompanionValues(companions)))] + SectionFields(after)
      + [Field("neverStored", Arr([Str("Local Chat"), Str("Local Memory"), Str("Local API Keys"), Str("Local private Discovery"),
                                   Str("Desktop activity history")])),
         Field("complete", Bool(true))]))
  {
    hide ReadText, Stringify, Quote, CompanionsSelected, SectionsSelected, SectionFields, CompanionValues, OpenText;
    text := StreamHead(generatedAt, account);
    ghost var fields := HeadFields(generatedAt, account);
    var first := StreamSections(fields, before);
    text := text + first;
    fields := fields + SectionFields(before);
    var nested := StreamExportCompanions(companions);
    text := YieldMember(text, fields, "companions", nested, Arr(CompanionValues(companions)));
    fields := fields + [Field("companions", Arr(CompanionValues(companions)))];
    var second := StreamSections(fields, after);
    text := text + second;
    fields := fields + SectionFields(after);
    text := YieldMember(text, fields, "neverStored", Stringify(NEVER_STORED), NEVER_STORED);
    fields := fields + [Field("neverStored", NEVER_STORED)];
    text := YieldMember(text, fields, "complete", Stringify(Bool(true)), Bool(true));
    fields := fields + [Field("complete", Bool(true))];
    ExportIs(fields, generatedAt, account, before, companions, after);
    text := text + "}";
    ClosedText(fields);
    StringifyIsRead(Obj(fields));
  }

  /** What the exported value holds: each section's rows under its key, each row's fields, each companion's
      packs behind its fields, and each pack's files behind its. */
  lemma {:induction false} ExportHolds(rows: seq<Row>, ps: seq<PackRow>, cs: seq<CompanionRow>, sections: seq<Section>)
    ensures |Values(rows)| == |rows| && forall i :: 0 <= i < |rows| ==> Values(rows)[i] == Obj(rows[i].fields)
    ensures |PackValues(ps)| == |ps| && forall i :: 0 <= i < |ps| ==>
              PackValues(ps)[i] == Obj(ps[i].row.fields + [Field("files", Arr(Values(ps[i].files)))])
    ensures |CompanionValues(cs)| == |cs| && forall i :: 0 <= i < |cs| ==>
              CompanionValues(cs)[i] == Obj(cs[i].row.fields + [Field("assetPacks", Arr(PackValues(cs[i].packs)))])
    ensures |SectionFields(sections)| == |sections| && forall i :: 0 <= i < |sections| ==>
              SectionFields(sections)[i] == Field(sections[i].key, Arr(Values(sections[i].rows)))
    decreases |rows| + |ps| + |cs| + |sections|
  {
    if rows != [] || ps != [] || cs != [] || sections != [] {
      ExportHolds(Rest(rows), Rest(ps), Rest(cs), Rest(sections));
    }
  }

  function Rest<T>(xs: seq<T>): seq<T> { if xs == [] then [] else xs[1..] }

  lemma ExportIs(fields: seq<Field>, generatedAt: Json, account: Json, before: seq<Section>, companions: seq<CompanionRow>, after: seq<Section>)
    requires fields == HeadFields(generatedAt, account) + SectionFields(before)
                       + [Field("companions", Arr(CompanionValues(companions)))] + SectionFields(after)
                       + [Field("neverStored", NEVER_STORED)] + [Field("complete", Bool(true))]
    ensures fields == ExportFields(generatedAt, account, before, companions, after)
  {
  }

  lemma FirstField(f: Field)
    ensures OpenText([f]) == "{" + Quote(f.key) + ":" + Stringify(f.value)
  {
    assert FieldTexts([f]) == [Quote(f.key) + ":" + Stringify(f.value)];
    hide Stringify, Quote;
  }

  lemma ClosedText(fields: seq<Field>)
    ensures OpenText(fields) + "}" == Stringify(Obj(fields))
  {
    ObjectOfTexts(fields);
    hide Stringify, Commas, FieldTexts;
  }
}