/** The plain-text report path (`processDocxTemplate`): its own input
    checks, the text of every section (`prepareTemplateData`), its own file
    name, and the report history kept in browser storage
    (`saveToHistory`, `getReportHistory`, `deleteFromHistory`). */
module TemplateProcessor {
  import opened Common
  import opened Types
  import opened FieldRoles
  import DocumentGenerator

  function NoVulnerabilityData(): string {
    ("No vulnerability data " + "found. Please upload a " + "valid Excel file with " +
     "vulnerability data in " + "the first sheet.")
  }
  function NoFieldsConfigured(): string {
    ("No fields configured. " + "Please ensure your " + "Excel file has proper " + "column headers.")
  }
  function CompanyNameRequired(): string {
    ("Company name is " + "required. Please enter " + "a company name before " + "generating the report.")
  }
  function NoFieldsSelected(): string {
    ("No fields selected for " + "inclusion. Please select " + "at least one field in " +
     "the Field Customization " + "panel.")
  }
  function EmptyDocument(): string {
    ("Generated document is " + "empty. Please check your " + "data and template.")
  }
  function SaveFailed(): string {
    ("Failed to save the " + "document. Please check " + "your browser permissions " + "and try again.")
  }
  function HistoryFailure(): string {
    ("Failed to save report " + "to history.")
  }

  /** The checks of `processDocxTemplate`, in its order: no rows, no
      fields, blank company name, no included field. */
  function ValidateTemplateInputs(data: ExcelData, fields: seq<FieldData>, config: ReportConfig): (r: Outcome)
    ensures r == Pass <==>
      |data.vulnerabilities| > 0 && |fields| > 0 && !IsBlank(config.companyName) && Included(fields) != []
    ensures |data.vulnerabilities| == 0 ==> r == Fail(NoVulnerabilityData())
    ensures |data.vulnerabilities| > 0 && |fields| == 0 ==> r == Fail(NoFieldsConfigured())
    ensures |data.vulnerabilities| > 0 && |fields| > 0 && IsBlank(config.companyName) ==>
              r == Fail(CompanyNameRequired())
    ensures |data.vulnerabilities| > 0 && |fields| > 0 && !IsBlank(config.companyName) && Included(fields) == [] ==>
              r == Fail(NoFieldsSelected())
  {
    if |data.vulnerabilities| == 0 then Fail(NoVulnerabilityData())
    else if |fields| == 0 then Fail(NoFieldsConfigured())
    else if IsBlank(config.companyName) then Fail(CompanyNameRequired())
    else if Included(fields) == [] then Fail(NoFieldsSelected())
    else Pass
  }

  /** Both report paths accept exactly the same inputs; only the order of
      their checks, and so the message for some rejected inputs, differs. */
  lemma {:induction false} ValidationAgreesOnAcceptance(data: ExcelData, fields: seq<FieldData>, config: ReportConfig)
    ensures ValidateTemplateInputs(data, fields, config) == Pass <==>
            DocumentGenerator.ValidateInputs(data, fields, config) == Pass
  {
  }

  /** With rows and fields but none selected, and a blank company name,
      the text path reports the company name while the document path
      reports the selection. */
  lemma {:induction false} ValidationOrderDiffers(data: ExcelData, fields: seq<FieldData>, config: ReportConfig)
    requires |data.vulnerabilities| > 0 && |fields| > 0 && Included(fields) == [] && IsBlank(config.companyName)
    ensures ValidateTemplateInputs(data, fields, config) == Fail(CompanyNameRequired())
    ensures DocumentGenerator.ValidateInputs(data, fields, config) == Fail(DocumentGenerator.NoFieldsSelected())
    ensures CompanyNameRequired() != DocumentGenerator.NoFieldsSelected()
  {
    assert CompanyNameRequired()[0] != DocumentGenerator.NoFieldsSelected()[0];
  }

  /** `generateFileName` of this path: company and assessment type
      sanitised, the report type as it is, then the ISO date; there is no
      `_Report` part. */
  function FileName(config: ReportConfig, isoDate: string): (name: string)
    ensures StartsWith(name, Sanitize(config.companyName) + "_" + Sanitize(config.assessmentType) + "_" +
                             config.reportType + "_")
    ensures EndsWith(name, "_" + isoDate + ".docx")
    ensures |name| == |config.companyName| + |config.assessmentType| + |config.reportType| + |isoDate| + 8
  {
    var head := Sanitize(config.companyName) + "_" + Sanitize(config.assessmentType) + "_" + config.reportType;
    ConcatParts(head + "_", isoDate + ".docx");
    ConcatParts(head, "_" + isoDate + ".docx");
    assert head + "_" + isoDate + ".docx" == (head + "_") + (isoDate + ".docx");
    assert head + "_" + isoDate + ".docx" == head + ("_" + isoDate + ".docx");
    head + "_" + isoDate + ".docx"
  }

  /** The two paths never give a report the same file name: the document
      path's name is always seven characters longer (`_Report`). */
  lemma {:induction false} FileNamesDiffer(config: ReportConfig, isoDate: string)
    ensures |DocumentGenerator.FileName(config, isoDate)| == |FileName(config, isoDate)| + 7
    ensures DocumentGenerator.FileName(config, isoDate) != FileName(config, isoDate)
  {
  }

  // ---------------------------------------------------------------------
  // The section texts of `prepareTemplateData`.

  /** The text fields handed to the template. */
  datatype TemplateData = TemplateData(
    company: string, date: string, engagementType: string, scopeTable: string,
    vulnerabilities: string, observations: string, recommendations: string)

  /** `\n{i+1}. `: the opening of a vulnerability's text. */
  function Numbering(index: nat): string {
    "\n" + NatToString(index + 1) + ". "
  }

  /** The name and its `=` underline, when the name cell is truthy; a
      numeric name has no length, so its underline is empty. */
  function NameLines(name: Value): (t: string)
    ensures !Truthy(name) <==> t == ""
    ensures name.Str? && Truthy(name) ==> StartsWith(t, name.s + "\n") && EndsWith(t, Repeat('=', |name.s|) + "\n")
    ensures name.Num? && Truthy(name) ==> t == IntToString(name.n) + "\n" + "\n"
  {
    if Truthy(name) then
      var t := ToStr(name) + "\n" + Repeat('=', LengthOf(name)) + "\n";
      assert t == (ToStr(name) + "\n") + (Repeat('=', LengthOf(name)) + "\n");
      ConcatParts(ToStr(name) + "\n", Repeat('=', LengthOf(name)) + "\n");
      t
    else ""
  }

  /** A field other than the name column is listed when it is included. */
  predicate Listed(f: FieldData, nameField: Option<FieldData>) {
    f.included && !SameNameAs(nameField, f.name)
  }

  /** `\n{field}: {value or N/A}\n`. */
  function FieldLine(f: FieldData, vuln: Row): string {
    "\n" + f.name + ": " + CellText(vuln, f.name) + "\n"
  }

  /** The lines of the listed fields, in field order. */
  function FieldLines(fields: seq<FieldData>, vuln: Row, nameField: Option<FieldData>): string
    decreases |fields|
  {
    if |fields| == 0 then ""
    else
      var last := fields[|fields| - 1];
      FieldLines(fields[..|fields| - 1], vuln, nameField) + (if Listed(last, nameField) then FieldLine(last, vuln) else "")
  }

  /** `  - Evidence {k+1}: Screenshot attached\n`. */
  function EvidenceLine(k: nat): string {
    "  - Evidence " + NatToString(k + 1) + (": Screenshot " + "attached\n")
  }

  /** The lines for the first `n` images. */
  function EvidenceLines(n: nat): string {
    if n == 0 then "" else EvidenceLines(n - 1) + EvidenceLine(n - 1)
  }

  /** The image count and one line per image tagged with the row's name;
      nothing when there is no name column or no such image. */
  function EvidenceText(vuln: Row, nameField: Option<FieldData>, images: seq<PoCImage>): string {
    if nameField.None? then ""
    else
      var matching := ImagesFor(images, Get(vuln, nameField.value.name));
      if |matching| == 0 then ""
      else "\nProof of Concept: " + NatToString(|matching|) + (" image(s) " + "attached\n") + EvidenceLines(|matching|)
  }

  /** The closing rule of every vulnerability: fifty dashes on their own line. */
  function Rule(): string {
    "\n" + Repeat('-', 50) + "\n"
  }

  /** The text of one vulnerability. The name column is the first included
      field with the name role. */
  function VulnerabilityText(index: nat, vuln: Row, fields: seq<FieldData>, images: seq<PoCImage>): string {
    var nameField := FindIncludedRole(fields, NameRole);
    Numbering(index) + (if nameField.Some? then NameLines(Get(vuln, nameField.value.name)) else "") +
    FieldLines(fields, vuln, nameField) + EvidenceText(vuln, nameField, images) + Rule()
  }

  /** The texts of all vulnerabilities, in row order. */
  function VulnerabilityTexts(rows: seq<Row>, fields: seq<FieldData>, images: seq<PoCImage>): (ts: seq<string>)
    ensures |ts| == |rows|
    decreases |rows|
  {
    if |rows| == 0 then []
    else VulnerabilityTexts(rows[..|rows| - 1], fields, images) + [VulnerabilityText(|rows| - 1, rows[|rows| - 1], fields, images)]
  }

  /** The non-blank `key: value` entries of a row, one per indented line. */
  function EntriesText(row: Row): string {
    Join(RowEntries(row), "\n   ")
  }

  function EntryTexts(rows: seq<Row>): (ts: seq<string>)
    ensures |ts| == |rows|
    decreases |rows|
  {
    if |rows| == 0 then [] else EntryTexts(rows[..|rows| - 1]) + [EntriesText(rows[|rows| - 1])]
  }

  /** `texts.map((t, i) => `${i + 1}. ${t}`)`. */
  function Numbered(texts: seq<string>): (ts: seq<string>)
    ensures |ts| == |texts|
    decreases |texts|
  {
    if |texts| == 0 then [] else Numbered(texts[..|texts| - 1]) + [NatToString(|texts|) + ". " + texts[|texts| - 1]]
  }

  function NoObservations(): string {
    ("No additional " + "observations recorded " + "during this assessment.")
  }
  function DefaultScope(): string {
    ("Assessment scope as " + "defined in the " + "engagement agreement.")
  }

  /** The numbered rows separated by blank lines, or the fallback sentence
      when there are none. */
  function RowsText(rows: seq<Row>, fallback: string): string {
    if |rows| > 0 then Join(Numbered(EntryTexts(rows)), "\n\n") else fallback
  }

  function Recommendations(assessmentType: string): string {
    ("Based on the findings " + "of this ") + Lower(assessmentType) +
    (" assessment, we " + "recommend the following " + "actions:\n\n1. Prioritize " +
     "remediation of critical " + "and high-severity " + "vulnerabilities\n2. " +
     "Implement security " + "controls based on risk " + "assessment\n3. Conduct " +
     "regular security " + "reviews and assessments" + "\n4. Establish incident " +
     "response procedures\n5. " + "Provide security " + "awareness training to " +
     "staff\n\nPlease refer to " + "individual vulnerability " + "recommendations above " +
     "for specific technical " + "guidance. Implementation " + "should be based on risk " +
     "priority and business " + "requirements.")
  }

  /** What `prepareTemplateData` hands to the template for the given
      clock reading. */
  function TemplateDataOf(data: ExcelData, fields: seq<FieldData>, images: seq<PoCImage>,
                          config: ReportConfig, clock: Clock): TemplateData {
    TemplateData(
      if config.companyName != "" then config.companyName else "Company Name",
      clock.longDate,
      config.assessmentType,
      RowsText(data.scope, DefaultScope()),
      Join(VulnerabilityTexts(data.vulnerabilities, fields, images), "\n"),
      RowsText(data.observations, NoObservations()),
      Recommendations(config.assessmentType))
  }

  /** The text of one vulnerability, accumulated line by line as the
      source's `map` callback does. */
  method BuildVulnerabilityText(index: nat, vuln: Row, fields: seq<FieldData>, images: seq<PoCImage>)
    returns (text: string)
    ensures text == VulnerabilityText(index, vuln, fields, images)
  {
    var nameField := FindIncludedRole(fields, NameRole);
    var header := Numbering(index);
    if nameField.Some? {
      header := header + NameLines(Get(vuln, nameField.value.name));
    }
    var lines := "";
    var i := 0;
    while i < |fields|
      invariant 0 <= i <= |fields|
      invariant lines == FieldLines(fields[..i], vuln, nameField)
    {
      assert fields[..i + 1][..i] == fields[..i];
      if Listed(fields[i], nameField) {
        lines := lines + FieldLine(fields[i], vuln);
      }
      i := i + 1;
    }
    assert fields[..i] == fields;
    var evidence := "";
    if nameField.Some? {
      var matching := ImagesFor(images, Get(vuln, nameField.value.name));
      if |matching| > 0 {
        var tail := "";
        var k := 0;
        while k < |matching|
          invariant 0 <= k <= |matching|
          invariant tail == EvidenceLines(k)
        {
          tail := tail + EvidenceLine(k);
          k := k + 1;
        }
        evidence := "\nProof of Concept: " + NatToString(|matching|) + (" image(s) " + "attached\n") + tail;
      }
    }
    text := header + lines + evidence + Rule();
  }

  /** `prepareTemplateData`. */
  method PrepareTemplateData(data: ExcelData, fields: seq<FieldData>, images: seq<PoCImage>,
                             config: ReportConfig, clock: Clock) returns (t: TemplateData)
    ensures t == TemplateDataOf(data, fields, images, config, clock)
  {
    var rows := data.vulnerabilities;
    var texts: seq<string> := [];
    var i := 0;
    while i < |rows|
      invariant 0 <= i <= |rows|
      invariant texts == VulnerabilityTexts(rows[..i], fields, images)
    {
      assert rows[..i + 1][..i] == rows[..i];
      var text := BuildVulnerabilityText(i, rows[i], fields, images);
      texts := texts + [text];
      i := i + 1;
    }
    assert rows[..i] == rows;
    t := TemplateData(
      if config.companyName != "" then config.companyName else "Company Name",
      clock.longDate,
      config.assessmentType,
      RowsText(data.scope, DefaultScope()),
      Join(texts, "\n"),
      RowsText(data.observations, NoObservations()),
      Recommendations(config.assessmentType));
  }

  // ---------------------------------------------------------------------
  // Properties of the section texts.

  /** Five pieces joined start with the first and end with the last. */
  lemma {:induction false} FramedText(a: string, b: string, c: string, d: string, e: string)
    ensures StartsWith(a + b + c + d + e, a) && EndsWith(a + b + c + d + e, e)
  {
    assert a + b + c + d + e == a + (b + c + d + e);
    ConcatParts(a, b + c + d + e);
    ConcatParts(a + b + c + d, e);
  }

  /** Every vulnerability's text opens with its number and closes with the
      dashed rule. */
  lemma {:induction false} VulnerabilityTextFrame(index: nat, vuln: Row, fields: seq<FieldData>, images: seq<PoCImage>)
    ensures StartsWith(VulnerabilityText(index, vuln, fields, images), Numbering(index))
    ensures EndsWith(VulnerabilityText(index, vuln, fields, images), Rule())
  {
    var nameField := FindIncludedRole(fields, NameRole);
    var name := if nameField.Some? then NameLines(Get(vuln, nameField.value.name)) else "";
    FramedText(Numbering(index), name, FieldLines(fields, vuln, nameField), EvidenceText(vuln, nameField, images), Rule());
  }

  /** A truthy text name follows the number directly, underlined by as
      many `=` as it has characters. */
  lemma {:induction false} NameUnderlined(index: nat, vuln: Row, fields: seq<FieldData>, images: seq<PoCImage>)
    requires FindIncludedRole(fields, NameRole).Some?
    requires Get(vuln, FindIncludedRole(fields, NameRole).value.name).Str?
    requires Truthy(Get(vuln, FindIncludedRole(fields, NameRole).value.name))
    ensures var name := Get(vuln, FindIncludedRole(fields, NameRole).value.name).s;
            StartsWith(VulnerabilityText(index, vuln, fields, images),
                       Numbering(index) + name + "\n" + Repeat('=', |name|) + "\n")
  {
    var nameField := FindIncludedRole(fields, NameRole);
    var name := Get(vuln, nameField.value.name).s;
    var head := Numbering(index) + NameLines(Get(vuln, nameField.value.name));
    var rest := FieldLines(fields, vuln, nameField) + EvidenceText(vuln, nameField, images) + Rule();
    assert head == Numbering(index) + name + "\n" + Repeat('=', |name|) + "\n";
    assert VulnerabilityText(index, vuln, fields, images) == head + rest;
    ConcatParts(head, rest);
  }

  /** Without a name column, or with a falsy name, the fields follow the
      number directly. */
  lemma {:induction false} NoNameLines(index: nat, vuln: Row, fields: seq<FieldData>, images: seq<PoCImage>)
    requires var nameField := FindIncludedRole(fields, NameRole);
             nameField.None? || !Truthy(Get(vuln, nameField.value.name))
    ensures var nameField := FindIncludedRole(fields, NameRole);
            StartsWith(VulnerabilityText(index, vuln, fields, images),
                       Numbering(index) + FieldLines(fields, vuln, nameField))
  {
    var nameField := FindIncludedRole(fields, NameRole);
    var name := if nameField.Some? then NameLines(Get(vuln, nameField.value.name)) else "";
    assert name == "";
    var lines := FieldLines(fields, vuln, nameField);
    var rest := EvidenceText(vuln, nameField, images) + Rule();
    var t := VulnerabilityText(index, vuln, fields, images);
    assert t == Numbering(index) + name + lines + EvidenceText(vuln, nameField, images) + Rule();
    assert Numbering(index) + name == Numbering(index);
    assert t == (Numbering(index) + lines) + rest;
    ConcatParts(Numbering(index) + lines, rest);
  }

  /** The field lines of two runs of fields follow each other, so the lines
      keep the field order. */
  lemma {:induction false} FieldLinesConcat(a: seq<FieldData>, b: seq<FieldData>, vuln: Row, nameField: Option<FieldData>)
    ensures FieldLines(a + b, vuln, nameField) == FieldLines(a, vuln, nameField) + FieldLines(b, vuln, nameField)
    decreases |b|
  {
    if |b| > 0 {
      assert (a + b)[..|a + b| - 1] == a + b[..|b| - 1];
      FieldLinesConcat(a, b[..|b| - 1], vuln, nameField);
    } else {
      assert a + b == a;
    }
  }

  /** Every listed field has its line, and no field at all means no lines. */
  lemma {:induction false} FieldLinesMembers(fields: seq<FieldData>, vuln: Row, nameField: Option<FieldData>, f: FieldData)
    requires f in fields && Listed(f, nameField)
    ensures Contains(FieldLines(fields, vuln, nameField), FieldLine(f, vuln))
    decreases |fields|
  {
    var init := fields[..|fields| - 1];
    var last := fields[|fields| - 1];
    assert fields == init + [last];
    if f == last {
      ConcatParts(FieldLine(f, vuln), "");
      assert FieldLine(f, vuln) + "" == FieldLine(f, vuln);
      ContainsRight(FieldLines(init, vuln, nameField), FieldLine(f, vuln), FieldLine(f, vuln));
    } else {
      FieldLinesMembers(init, vuln, nameField, f);
      ContainsLeft(FieldLines(init, vuln, nameField), if Listed(last, nameField) then FieldLine(last, vuln) else "",
                   FieldLine(f, vuln));
    }
  }

  /** The field lines are empty exactly when no field is listed. */
  lemma {:induction false} FieldLinesEmptyIff(fields: seq<FieldData>, vuln: Row, nameField: Option<FieldData>)
    ensures FieldLines(fields, vuln, nameField) == "" <==>
            forall i :: 0 <= i < |fields| ==> !Listed(fields[i], nameField)
    decreases |fields|
  {
    if |fields| > 0 {
      var init := fields[..|fields| - 1];
      FieldLinesEmptyIff(init, vuln, nameField);
      assert forall i :: 0 <= i < |init| ==> init[i] == fields[i];
    }
  }

  /** The evidence text is empty exactly when there is no name column or no
      image carries the row's name; otherwise it has one line per image. */
  lemma {:induction false} EvidenceTextIff(vuln: Row, nameField: Option<FieldData>, images: seq<PoCImage>)
    ensures EvidenceText(vuln, nameField, images) == "" <==>
            nameField.None? || ImagesFor(images, Get(vuln, nameField.value.name)) == []
  {
  }

  /** The k-th line is among the lines of the first n images when k < n. */
  lemma {:induction false} EvidenceLinesMembers(n: nat, k: nat)
    requires k < n
    ensures Contains(EvidenceLines(n), EvidenceLine(k))
  {
    if k == n - 1 {
      assert EvidenceLine(k) + "" == EvidenceLine(k);
      ConcatParts(EvidenceLine(k), "");
      ContainsRight(EvidenceLines(n - 1), EvidenceLine(k), EvidenceLine(k));
    } else {
      EvidenceLinesMembers(n - 1, k);
      ContainsLeft(EvidenceLines(n - 1), EvidenceLine(n - 1), EvidenceLine(k));
    }
  }

  /** The texts of the rows keep the row order and number the rows from 1. */
  lemma {:induction false} VulnerabilityTextsAt(rows: seq<Row>, fields: seq<FieldData>, images: seq<PoCImage>, i: nat)
    requires i < |rows|
    ensures VulnerabilityTexts(rows, fields, images)[i] == VulnerabilityText(i, rows[i], fields, images)
    decreases |rows|
  {
    if i < |rows| - 1 {
      VulnerabilityTextsAt(rows[..|rows| - 1], fields, images, i);
    }
  }

  /** The vulnerability section opens with the first row, numbered 1. */
  lemma {:induction false} VulnerabilitiesStartAtOne(rows: seq<Row>, fields: seq<FieldData>, images: seq<PoCImage>)
    requires |rows| > 0
    ensures StartsWith(Join(VulnerabilityTexts(rows, fields, images), "\n"), Numbering(0))
  {
    var ts := VulnerabilityTexts(rows, fields, images);
    VulnerabilityTextsAt(rows, fields, images, 0);
    JoinStartsWith(ts, "\n");
    VulnerabilityTextFrame(0, rows[0], fields, images);
    StartsWithTrans(Join(ts, "\n"), ts[0], Numbering(0));
  }

  lemma {:induction false} EntryTextsAt(rows: seq<Row>, i: nat)
    requires i < |rows|
    ensures EntryTexts(rows)[i] == EntriesText(rows[i])
    decreases |rows|
  {
    if i < |rows| - 1 {
      EntryTextsAt(rows[..|rows| - 1], i);
    }
  }

  /** The i-th text is numbered i + 1. */
  lemma {:induction false} NumberedAt(texts: seq<string>, i: nat)
    requires i < |texts|
    ensures Numbered(texts)[i] == NatToString(i + 1) + ". " + texts[i]
    decreases |texts|
  {
    if i < |texts| - 1 {
      NumberedAt(texts[..|texts| - 1], i);
    }
  }

  /** The numbered texts open with number 1. */
  lemma {:induction false} FirstNumbered(texts: seq<string>)
    requires |texts| > 0
    ensures StartsWith(Join(Numbered(texts), "\n\n"), "1. ")
  {
    NumberedAt(texts, 0);
    assert NatToString(1) == "1";
    ConcatParts("1. ", texts[0]);
    JoinStartsWithPrefix(Numbered(texts), "\n\n", "1. ");
  }

  /** Row i of observations or scope is numbered i + 1 and lists that row's
      entries. */
  lemma {:induction false} RowTextAt(rows: seq<Row>, i: nat)
    requires i < |rows|
    ensures Numbered(EntryTexts(rows))[i] == NatToString(i + 1) + ". " + EntriesText(rows[i])
  {
    EntryTextsAt(rows, i);
    NumberedAt(EntryTexts(rows), i);
  }

  /** Observations and scope fall back to their sentence exactly when the
      sheet has no rows; otherwise the text opens with row 1. */
  lemma {:induction false} RowsTextShape(rows: seq<Row>, fallback: string)
    requires fallback != "" && fallback[0] != '1'
    ensures RowsText(rows, fallback) == fallback <==> |rows| == 0
    ensures |rows| > 0 ==> StartsWith(RowsText(rows, fallback), "1. ")
  {
    if |rows| > 0 {
      FirstNumbered(EntryTexts(rows));
      var t := RowsText(rows, fallback);
      assert t[..3] == "1. ";
      assert t[0] == '1';
    }
  }

  /** The two fallback sentences do not start like a numbered row. */
  lemma {:induction false} FallbacksUnnumbered()
    ensures NoObservations() != "" && NoObservations()[0] != '1'
    ensures DefaultScope() != "" && DefaultScope()[0] != '1'
  {
  }

  // ---------------------------------------------------------------------
  // The report history.

  /** What browser storage holds under the history key: nothing, text that
      does not parse, or a parsed list. */
  datatype Stored = Missing | Unparseable | Items(items: seq<ReportHistoryItem>)

  /** The list `JSON.parse(stored || '[]')` yields; only meaningful when the
      text parses. */
  function StoredList(s: Stored): seq<ReportHistoryItem> {
    if s.Items? then s.items else []
  }

  const MaxHistory: nat := 50

  /** `history.unshift(record); history.slice(0, 50)`. */
  function KeepLatest(record: ReportHistoryItem, history: seq<ReportHistoryItem>): (r: seq<ReportHistoryItem>)
    ensures |r| == if |history| < MaxHistory then |history| + 1 else MaxHistory
    ensures r[0] == record
    ensures forall i :: 1 <= i < |r| ==> r[i] == history[i - 1]
  {
    var all := [record] + history;
    if |all| <= MaxHistory then all else all[..MaxHistory]
  }

  /** The record `saveToHistory` builds for a saved report. */
  function NewRecord(name: string, config: ReportConfig, size: nat, clock: Clock): (item: ReportHistoryItem)
    ensures item.filePath == "report_history/" + name && item.size == size && item.name == name
    ensures item.reportType == config.reportType && item.companyName == config.companyName
    ensures item.assessmentType == config.assessmentType
    ensures item.id == clock.now && item.date == clock.isoDate
  {
    ReportHistoryItem(clock.now, name, clock.isoDate, config.reportType, config.companyName,
                      config.assessmentType, "report_history/" + name, size)
  }

  /** `history.filter(item => item.id !== id)`. */
  function WithoutId(history: seq<ReportHistoryItem>, id: string): seq<ReportHistoryItem>
    decreases |history|
  {
    if |history| == 0 then []
    else
      var last := history[|history| - 1];
      WithoutId(history[..|history| - 1], id) + (if last.id != id then [last] else [])
  }

  lemma {:induction false} WithoutIdConcat(a: seq<ReportHistoryItem>, b: seq<ReportHistoryItem>, id: string)
    ensures WithoutId(a + b, id) == WithoutId(a, id) + WithoutId(b, id)
    decreases |b|
  {
    if |b| > 0 {
      assert (a + b)[..|a + b| - 1] == a + b[..|b| - 1];
      WithoutIdConcat(a, b[..|b| - 1], id);
    } else {
      assert a + b == a;
    }
  }

  /** Deleting keeps exactly the records with another id. */
  lemma {:induction false} WithoutIdMembers(history: seq<ReportHistoryItem>, id: string, item: ReportHistoryItem)
    ensures item in WithoutId(history, id) <==> item in history && item.id != id
    decreases |history|
  {
    if |history| > 0 {
      WithoutIdMembers(history[..|history| - 1], id, item);
      assert history == history[..|history| - 1] + [history[|history| - 1]];
    }
  }

  /** Deleting an id nobody has changes nothing. */
  lemma {:induction false} WithoutAbsentId(history: seq<ReportHistoryItem>, id: string)
    requires forall i :: 0 <= i < |history| ==> history[i].id != id
    ensures WithoutId(history, id) == history
    decreases |history|
  {
    if |history| > 0 {
      WithoutAbsentId(history[..|history| - 1], id);
      assert history == history[..|history| - 1] + [history[|history| - 1]];
    }
  }

  /** Deleting the record just saved, under a fresh id, restores the older
      records that the cap kept. */
  lemma {:induction false} SaveThenDelete(record: ReportHistoryItem, history: seq<ReportHistoryItem>)
    requires forall i :: 0 <= i < |history| ==> history[i].id != record.id
    ensures WithoutId(KeepLatest(record, history), record.id) ==
            history[..if |history| < MaxHistory then |history| else MaxHistory - 1]
  {
    var kept := history[..if |history| < MaxHistory then |history| else MaxHistory - 1];
    assert KeepLatest(record, history) == [record] + kept;
    WithoutIdConcat([record], kept, record.id);
    assert WithoutId([record], record.id) == [] by {
      assert [record][..0] == [];
    }
    WithoutAbsentId(kept, record.id);
  }

  /** The storage after `record` is saved: unchanged when it does not parse,
      otherwise the newest fifty records with `record` first. */
  function Recorded(s: Stored, record: ReportHistoryItem): (t: Stored)
    ensures s.Unparseable? ==> t == s
    ensures !s.Unparseable? ==> t.Items? && 0 < |t.items| <= MaxHistory && t.items[0] == record
  {
    if s.Unparseable? then s else Items(KeepLatest(record, StoredList(s)))
  }

  /** The history in browser storage. */
  class HistoryStore {
    var stored: Stored

    constructor(initial: Stored)
      ensures stored == initial
    {
      stored := initial;
    }

    /** `getReportHistory`: the stored list, or none when nothing is stored
        or the text does not parse. */
    function GetReportHistory(): (r: seq<ReportHistoryItem>)
      reads this
      ensures stored.Items? ==> r == stored.items
      ensures !stored.Items? ==> r == []
    {
      StoredList(stored)
    }

    /** `saveToHistory`: the new record goes first and at most fifty
        records are kept; unparseable storage is an error and is left as it
        is. */
    method SaveToHistory(record: ReportHistoryItem) returns (r: Outcome)
      modifies this
      ensures r == (if old(stored).Unparseable? then Fail(HistoryFailure()) else Pass)
      ensures stored == Recorded(old(stored), record)
    {
      if stored.Unparseable? {
        return Fail(HistoryFailure());
      }
      var history := StoredList(stored);
      history := [record] + history;
      if |history| > MaxHistory {
        history := history[..MaxHistory];
      }
      stored := Items(history);
      r := Pass;
    }

    /** `deleteFromHistory`: stores and returns the records with another
        id; unparseable storage yields none and is left as it is. */
    method DeleteFromHistory(id: string) returns (r: seq<ReportHistoryItem>)
      modifies this
      ensures old(stored).Unparseable? ==> r == [] && stored == old(stored)
      ensures !old(stored).Unparseable? ==> r == WithoutId(old(GetReportHistory()), id) && stored == Items(r)
    {
      if stored.Unparseable? {
        return [];
      }
      r := WithoutId(StoredList(stored), id);
      stored := Items(r);
    }
  }

  /** The product of a successful run: the file name and the section texts. */
  datatype TextReport = TextReport(fileName: string, data: TemplateData)

  /** The outcome of `processDocxTemplate` before the history is written:
      the first failing check, an empty document, a failed download, or the
      report's file name and texts. */
  method RenderTemplate(data: ExcelData, fields: seq<FieldData>, images: seq<PoCImage>,
                        config: ReportConfig, clock: Clock, documentSize: nat, saveSucceeds: bool)
    returns (r: Result<TextReport>)
    ensures ValidateTemplateInputs(data, fields, config).Fail? ==>
              r == Err(ValidateTemplateInputs(data, fields, config).message)
    ensures ValidateTemplateInputs(data, fields, config) == Pass && documentSize == 0 ==> r == Err(EmptyDocument())
    ensures ValidateTemplateInputs(data, fields, config) == Pass && documentSize > 0 && !saveSucceeds ==>
              r == Err(SaveFailed())
    ensures ValidateTemplateInputs(data, fields, config) == Pass && documentSize > 0 && saveSucceeds ==>
              r == Ok(TextReport(FileName(config, clock.isoDate),
                                 TemplateDataOf(data, Included(fields), images, config, clock)))
  {
    var check := ValidateTemplateInputs(data, fields, config);
    if check.Fail? {
      return Err(check.message);
    }
    var included := Included(fields);
    var templateData := PrepareTemplateData(data, included, images, config, clock);
    if documentSize == 0 {
      return Err(EmptyDocument());
    }
    var fileName := FileName(config, clock.isoDate);
    if !saveSucceeds {
      return Err(SaveFailed());
    }
    r := Ok(TextReport(fileName, templateData));
  }

  /** `processDocxTemplate`. The size of the produced document and the
      outcome of the browser download are parameters. Only a downloaded
      report is recorded, and a failure to record it is swallowed. */
  method ProcessDocxTemplate(store: HistoryStore, data: ExcelData, fields: seq<FieldData>, images: seq<PoCImage>,
                             config: ReportConfig, clock: Clock, documentSize: nat, saveSucceeds: bool)
    returns (r: Result<TextReport>)
    modifies store
    ensures ValidateTemplateInputs(data, fields, config).Fail? ==>
              r == Err(ValidateTemplateInputs(data, fields, config).message) && store.stored == old(store.stored)
    ensures ValidateTemplateInputs(data, fields, config) == Pass && documentSize == 0 ==>
              r == Err(EmptyDocument()) && store.stored == old(store.stored)
    ensures ValidateTemplateInputs(data, fields, config) == Pass && documentSize > 0 && !saveSucceeds ==>
              r == Err(SaveFailed()) && store.stored == old(store.stored)
    ensures ValidateTemplateInputs(data, fields, config) == Pass && documentSize > 0 && saveSucceeds ==>
              r == Ok(TextReport(FileName(config, clock.isoDate),
                                 TemplateDataOf(data, Included(fields), images, config, clock))) &&
              store.stored == Recorded(old(store.stored), NewRecord(FileName(config, clock.isoDate), config, documentSize, clock))
  {
    r := RenderTemplate(data, fields, images, config, clock, documentSize, saveSucceeds);
    if r.Ok? {
      var _ := store.SaveToHistory(NewRecord(r.value.fileName, config, documentSize, clock));
    }
  }
}
