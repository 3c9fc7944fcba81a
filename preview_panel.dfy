/** The live preview beside the editor (`PreviewPanel`): a placeholder until
    a workbook and fields exist, then counts, the first three rows with
    every included field shown by its role, up to two evidence images per
    row, and notes for what the preview leaves out. */
module PreviewPanel {
  import opened Common
  import opened Types
  import opened FieldRoles

  const RowCap: nat := 3
  const ImageCap: nat := 2
  const TextCap: nat := 200

  /** Colour class of a severity label. */
  function SeverityClass(value: string): (c: string)
    ensures c == "text-red-600" <==> Lower(value) == "critical"
    ensures c == "text-orange-600" <==> Lower(value) == "high"
    ensures c == "text-yellow-600" <==> Lower(value) == "medium"
    ensures c == "text-green-600" <==> Lower(value) !in {"critical", "high", "medium"}
  {
    var l := Lower(value);
    if l == "critical" then "text-red-600"
    else if l == "high" then "text-orange-600"
    else if l == "medium" then "text-yellow-600"
    else "text-green-600"
  }

  /** Colour class of a status label. */
  function StatusClass(value: string): (c: string)
    ensures c == "text-red-600" <==> Lower(value) == "open"
    ensures c == "text-green-600" <==> Lower(value) != "open"
  {
    if Lower(value) == "open" then "text-red-600" else "text-green-600"
  }

  /** How one included field of a row is shown. */
  datatype FieldView =
    | NameView(title: string)
    | SeverityView(text: string, colorClass: string)
    | StatusView(text: string, colorClass: string)
    | PlainView(heading: string, text: string, truncated: bool)

  /** The body of a generic field: a text over 200 characters is cut to its
      first 200 and marked; anything else is shown whole. */
  function PlainText(value: Value): (r: (string, bool))
    ensures r.1 <==> value.Str? && |value.s| > TextCap
    ensures r.1 ==> r.0 == value.s[..TextCap] + "..." && |r.0| == TextCap + 3
    ensures !r.1 ==> r.0 == ToStr(value)
  {
    if value.Str? && |value.s| > TextCap then (value.s[..TextCap] + "...", true) else (ToStr(value), false)
  }

  /** `row[field.name] || 'N/A'`. */
  function Shown(row: Row, f: FieldData): Value {
    Or(Get(row, f.name), Str("N/A"))
  }

  /** The view of one field, chosen by the field's own name: the name role
      first, then severity, then status. Lower-casing a numeric severity or
      status throws. */
  function ViewOf(rowIndex: nat, row: Row, f: FieldData): (r: Result<FieldView>)
    ensures r.Err? <==> !HasRole(f.name, NameRole) && (HasRole(f.name, SeverityRole) || HasRole(f.name, StatusRole)) &&
                         !Shown(row, f).Str?
    ensures r.Ok? ==> (r.value.NameView? <==> HasRole(f.name, NameRole))
    ensures r.Ok? ==> (r.value.SeverityView? <==> !HasRole(f.name, NameRole) && HasRole(f.name, SeverityRole))
    ensures r.Ok? ==> (r.value.StatusView? <==> !HasRole(f.name, NameRole) && !HasRole(f.name, SeverityRole) &&
                                                 HasRole(f.name, StatusRole))
    ensures r.Ok? && r.value.PlainView? ==> r.value.heading == f.name
  {
    var value := Shown(row, f);
    if HasRole(f.name, NameRole) then Ok(NameView(NatToString(rowIndex + 1) + ". " + ToStr(value)))
    else if HasRole(f.name, SeverityRole) then
      if value.Str? then Ok(SeverityView(value.s, SeverityClass(value.s))) else Err(NotText("value"))
    else if HasRole(f.name, StatusRole) then
      if value.Str? then Ok(StatusView(value.s, StatusClass(value.s))) else Err(NotText("value"))
    else
      var (text, truncated) := PlainText(value);
      Ok(PlainView(f.name, text, truncated))
  }

  /** What each view shows: the numbered value under the name column, the
      text with its colour class under a severity or status column, and the
      possibly cut value under any other column's name. */
  lemma {:induction false} ViewOfContents(rowIndex: nat, row: Row, f: FieldData)
    ensures var r := ViewOf(rowIndex, row, f);
            r.Ok? && r.value.NameView? ==> r.value.title == NatToString(rowIndex + 1) + ". " + ToStr(Shown(row, f))
    ensures var r := ViewOf(rowIndex, row, f);
            r.Ok? && r.value.SeverityView? ==>
              r.value.text == Shown(row, f).s && r.value.colorClass == SeverityClass(r.value.text)
    ensures var r := ViewOf(rowIndex, row, f);
            r.Ok? && r.value.StatusView? ==>
              r.value.text == Shown(row, f).s && r.value.colorClass == StatusClass(r.value.text)
    ensures var r := ViewOf(rowIndex, row, f);
            r.Ok? && r.value.PlainView? ==> (r.value.text, r.value.truncated) == PlainText(Shown(row, f))
  {
  }

  /** A falsy cell is shown as "N/A". */
  lemma {:induction false} FalsyShownAsNA(row: Row, f: FieldData)
    requires !Truthy(Get(row, f.name))
    ensures Shown(row, f) == Str("N/A")
    ensures ViewOf(0, row, f).Ok?
    ensures !HasRole(f.name, NameRole) && !HasRole(f.name, SeverityRole) && !HasRole(f.name, StatusRole) ==>
              ViewOf(0, row, f) == Ok(PlainView(f.name, "N/A", false))
  {
  }

  /** The views of the fields, in field order; the first throwing field
      aborts the row. */
  function ViewsOf(rowIndex: nat, row: Row, fields: seq<FieldData>): (r: Result<seq<FieldView>>)
    ensures r.Ok? ==> |r.value| == |fields|
    decreases |fields|
  {
    if |fields| == 0 then Ok([])
    else
      var before := ViewsOf(rowIndex, row, fields[..|fields| - 1]);
      if before.Err? then before
      else
        var last := ViewOf(rowIndex, row, fields[|fields| - 1]);
        if last.Err? then Err(last.message) else Ok(before.value + [last.value])
  }

  /** A row renders exactly when none of its fields throws, and then each
      field has the view its own name selects. */
  lemma {:induction false} ViewsOfIff(rowIndex: nat, row: Row, fields: seq<FieldData>)
    ensures ViewsOf(rowIndex, row, fields).Ok? <==> forall i :: 0 <= i < |fields| ==> ViewOf(rowIndex, row, fields[i]).Ok?
    ensures ViewsOf(rowIndex, row, fields).Ok? ==>
              forall i :: 0 <= i < |fields| ==> ViewsOf(rowIndex, row, fields).value[i] == ViewOf(rowIndex, row, fields[i]).value
    decreases |fields|
  {
    if ViewsOf(rowIndex, row, fields).Ok? {
      forall i | 0 <= i < |fields|
        ensures ViewOf(rowIndex, row, fields[i]).Ok?
        ensures ViewsOf(rowIndex, row, fields).value[i] == ViewOf(rowIndex, row, fields[i]).value
      {
        ViewsOfAt(rowIndex, row, fields, i);
      }
    } else {
      var init := fields[..|fields| - 1];
      if ViewsOf(rowIndex, row, init).Err? {
        ViewsOfIff(rowIndex, row, init);
        var j :| 0 <= j < |init| && ViewOf(rowIndex, row, init[j]).Err?;
        assert init[j] == fields[j];
      } else {
        assert ViewOf(rowIndex, row, fields[|fields| - 1]).Err?;
      }
    }
  }

  /** View `i` of a rendered row is field `i`'s view. */
  lemma {:induction false} ViewsOfAt(rowIndex: nat, row: Row, fields: seq<FieldData>, i: nat)
    requires i < |fields| && ViewsOf(rowIndex, row, fields).Ok?
    ensures ViewOf(rowIndex, row, fields[i]).Ok?
    ensures ViewsOf(rowIndex, row, fields).value[i] == ViewOf(rowIndex, row, fields[i]).value
    decreases |fields|
  {
    if i < |fields| - 1 {
      var init := fields[..|fields| - 1];
      ViewsOfAt(rowIndex, row, init, i);
      assert init[i] == fields[i];
    }
  }

  /** The evidence of a previewed row: how many images carry its name, the
      first two of them, and how many more there are. */
  datatype EvidenceView = EvidenceView(count: nat, shown: seq<PoCImage>, more: nat)

  /** No evidence without an included name field or without a matching
      image. */
  function EvidenceOf(row: Row, included: seq<FieldData>, images: seq<PoCImage>): (r: Option<EvidenceView>)
    ensures r.Some? ==> r.value.count > 0 && |r.value.shown| == (if r.value.count < ImageCap then r.value.count else ImageCap)
    ensures r.Some? ==> r.value.more == (if r.value.count > ImageCap then r.value.count - ImageCap else 0)
  {
    var nameField := FindRole(included, NameRole);
    if nameField.None? then None
    else
      var matching := ImagesFor(images, Get(row, nameField.value.name));
      if |matching| == 0 then None
      else Some(EvidenceView(|matching|, if |matching| > ImageCap then matching[..ImageCap] else matching,
                             if |matching| > ImageCap then |matching| - ImageCap else 0))
  }

  /** The evidence lists the first images to carry the row's name, in
      attachment order, and is absent exactly when none carries it. */
  lemma {:induction false} EvidenceOfMatches(row: Row, included: seq<FieldData>, images: seq<PoCImage>)
    ensures var nameField := FindRole(included, NameRole);
            EvidenceOf(row, included, images).None? <==>
              nameField.None? || ImagesFor(images, Get(row, nameField.value.name)) == []
    ensures var nameField := FindRole(included, NameRole);
            EvidenceOf(row, included, images).Some? ==>
              var matching := ImagesFor(images, Get(row, nameField.value.name));
              EvidenceOf(row, included, images).value.count == |matching| &&
              EvidenceOf(row, included, images).value.shown ==
                matching[..EvidenceOf(row, included, images).value.count - EvidenceOf(row, included, images).value.more]
  {
  }

  datatype RowPreview = RowPreview(views: seq<FieldView>, evidence: Option<EvidenceView>)

  function RowPreviewOf(rowIndex: nat, row: Row, included: seq<FieldData>, images: seq<PoCImage>): Result<RowPreview> {
    var views := ViewsOf(rowIndex, row, included);
    if views.Err? then Err(views.message) else Ok(RowPreview(views.value, EvidenceOf(row, included, images)))
  }

  /** The previews of the first `k` rows. */
  function RowPreviews(rows: seq<Row>, k: nat, included: seq<FieldData>, images: seq<PoCImage>): (r: Result<seq<RowPreview>>)
    requires k <= |rows|
    ensures r.Ok? ==> |r.value| == k
    ensures r.Ok? ==> forall i :: 0 <= i < k ==> RowPreviewOf(i, rows[i], included, images) == Ok(r.value[i])
  {
    if k == 0 then Ok([])
    else
      var before := RowPreviews(rows, k - 1, included, images);
      if before.Err? then before
      else
        var last := RowPreviewOf(k - 1, rows[k - 1], included, images);
        if last.Err? then Err(last.message) else Ok(before.value + [last.value])
  }

  lemma {:induction false} RowPreviewsIff(rows: seq<Row>, k: nat, included: seq<FieldData>, images: seq<PoCImage>)
    requires k <= |rows|
    ensures RowPreviews(rows, k, included, images).Ok? <==>
            forall i :: 0 <= i < k ==> RowPreviewOf(i, rows[i], included, images).Ok?
  {
    if k > 0 {
      RowPreviewsIff(rows, k - 1, included, images);
    }
  }

  /** The panel. */
  datatype Preview =
    | Placeholder
    | Full(vulnerabilityCount: nat, includedCount: nat, imageCount: nat,
           rows: seq<RowPreview>, moreRows: Option<nat>,
           observationCount: Option<nat>, scopeCount: Option<nat>)

  /** Number of rows the preview shows. */
  function PreviewedRows(n: nat): nat {
    if n < RowCap then n else RowCap
  }

  /** `sheet.length > 0 ? length : hidden`. */
  function CountWhenAny(rows: seq<Row>): Option<nat> {
    if |rows| > 0 then Some(|rows|) else None
  }

  function PreviewOf(excelData: Option<ExcelData>, fields: seq<FieldData>, images: seq<PoCImage>): (r: Result<Preview>)
    ensures r == Ok(Placeholder) <==> excelData.None? || |fields| == 0
    ensures r.Ok? && r.value.Full? ==>
              |r.value.rows| == PreviewedRows(|excelData.value.vulnerabilities|) &&
              r.value.vulnerabilityCount == |excelData.value.vulnerabilities| &&
              r.value.includedCount == |Included(fields)| && r.value.imageCount == |images|
    ensures r.Ok? && r.value.Full? ==>
              (r.value.moreRows.Some? <==> |excelData.value.vulnerabilities| > RowCap) &&
              (r.value.moreRows.Some? ==> r.value.moreRows.value == |excelData.value.vulnerabilities| - RowCap)
    ensures r.Ok? && r.value.Full? ==>
              RowPreviews(excelData.value.vulnerabilities, PreviewedRows(|excelData.value.vulnerabilities|),
                          Included(fields), images) == Ok(r.value.rows)
    ensures r.Ok? && r.value.Full? ==>
              r.value.observationCount == CountWhenAny(excelData.value.observations) &&
              r.value.scopeCount == CountWhenAny(excelData.value.scope)
    ensures r.Err? ==>
              RowPreviews(excelData.value.vulnerabilities, PreviewedRows(|excelData.value.vulnerabilities|),
                          Included(fields), images).Err?
  {
    if excelData.None? || |fields| == 0 then Ok(Placeholder)
    else
      var data := excelData.value;
      var n := |data.vulnerabilities|;
      var included := Included(fields);
      var rows := RowPreviews(data.vulnerabilities, PreviewedRows(n), included, images);
      if rows.Err? then Err(rows.message)
      else Ok(Full(n, |included|, |images|, rows.value, if n > RowCap then Some(n - RowCap) else None,
                   CountWhenAny(data.observations), CountWhenAny(data.scope)))
  }

  /** The panel renders exactly when no previewed row throws; rows past the
      third are never looked at. */
  lemma {:induction false} PreviewRenders(excelData: Option<ExcelData>, fields: seq<FieldData>, images: seq<PoCImage>)
    requires excelData.Some? && |fields| > 0
    ensures PreviewOf(excelData, fields, images).Ok? <==>
            forall i :: 0 <= i < PreviewedRows(|excelData.value.vulnerabilities|) ==>
              RowPreviewOf(i, excelData.value.vulnerabilities[i], Included(fields), images).Ok?
  {
    RowPreviewsIff(excelData.value.vulnerabilities, PreviewedRows(|excelData.value.vulnerabilities|), Included(fields), images);
  }
}
