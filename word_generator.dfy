/** The second Word builder (`generateWordDocument`): a shorter report with
    its own palette, unnumbered headings, a page break between rows, fields
    filtered by name as well as by role, and sections for scope and
    observations that carry only their heading. Its roles are looked up in
    the list it is given, which is the included fields. */
module WordGenerator {
  import opened Common
  import opened Types
  import opened FieldRoles
  import opened Blocks

  /** `getSeverityColor` of this builder. */
  function SeverityColor(severity: string): (color: string)
    ensures color == "800000" <==> Lower(severity) == "critical"
    ensures color == "FF0000" <==> Lower(severity) == "high"
    ensures color == "DAA520" <==> Lower(severity) == "medium"
    ensures color == "90EE90" <==> Lower(severity) == "low"
    ensures color == "000000" <==> Lower(severity) !in {"critical", "high", "medium", "low"}
  {
    var l := Lower(severity);
    if l == "critical" then "800000"
    else if l == "high" then "FF0000"
    else if l == "medium" then "DAA520"
    else if l == "low" then "90EE90"
    else "000000"
  }

  /** `getStatusColor` of this builder. */
  function StatusColor(status: string): (color: string)
    ensures color == "FF0000" <==> Lower(status) == "open"
    ensures color == "90EE90" <==> Lower(status) != "open"
  {
    if Lower(status) == "open" then "FF0000" else "90EE90"
  }

  /** What `generateWordDocument` throws when no field is included or there
      are no rows. */
  function GuardFailure(): string {
    ("No fields selected or " + "no data available")
  }

  /** `row[field.name]` for the field found for a role, or `null` when there
      is none. */
  function RoleValue(vuln: Row, found: Option<FieldData>): (v: Value)
    ensures found.None? ==> v == Undefined
    ensures found.Some? ==> v == Get(vuln, found.value.name)
  {
    if found.Some? then Get(vuln, found.value.name) else Undefined
  }

  /** The unnumbered level-2 heading of a row with a truthy name. */
  function NameBlocks(name: Value): (bs: seq<Block>)
    ensures |bs| <= 1
    ensures |bs| == 1 <==> Truthy(name)
    ensures |bs| == 1 ==> bs[0] == HeadingBlock(ToStr(name), 28, Heading2)
  {
    if Truthy(name) then [HeadingBlock(ToStr(name), 28, Heading2)] else []
  }

  /** The runs of the severity paragraph: the bold label and the coloured
      value when the severity is truthy, none otherwise. */
  function SeverityRuns(severity: Value): Result<seq<Run>> {
    if !Truthy(severity) then Ok([])
    else if !severity.Str? then Err(NotText("severity"))
    else Ok([BoldRun("Severity: ", 24), Run(severity.s, false, false, Some(SeverityColor(severity.s)), 24)])
  }

  function StatusBlocks(status: Value): Result<seq<Block>> {
    if !Truthy(status) then Ok([])
    else if !status.Str? then Err(NotText("status"))
    else Ok([Paragraph([BoldRun("Status: ", 24), Run(status.s, false, false, Some(StatusColor(status.s)), 24)], Normal)])
  }

  /** The severity paragraph (present whenever severity or status is
      truthy) and the status paragraph. */
  function RatingBlocks(severity: Value, status: Value): (r: Result<seq<Block>>)
    ensures r.Err? <==> (Truthy(severity) && !severity.Str?) || (Truthy(status) && !status.Str?)
    ensures r.Ok? ==> (|r.value| > 0 <==> Truthy(severity) || Truthy(status))
    ensures r.Ok? ==> (|r.value| == 2 <==> Truthy(status)) && |r.value| <= 2
    ensures r.Ok? && !Truthy(severity) && Truthy(status) ==> r.value[0] == Paragraph([], Normal)
    ensures r.Ok? ==> forall j :: 0 <= j < |r.value| ==> r.value[j].Paragraph? && r.value[j].heading == Normal
  {
    if !(Truthy(severity) || Truthy(status)) then Ok([])
    else
      match SeverityRuns(severity)
      case Err(m) => Err(m)
      case Ok(runs) =>
        match StatusBlocks(status)
        case Err(m) => Err(m)
        case Ok(rest) => Ok([Paragraph(runs, Normal)] + rest)
  }

  /** A field listed in the body: included, not a role column, and not a
      proof-of-concept column by name. */
  predicate IsShown(f: FieldData, roles: Roles) {
    f.included && IsOtherField(f, roles) &&
    !Contains(Lower(f.name), "poc") && !Contains(Lower(f.name), "proof")
  }

  function FieldPair(f: FieldData, vuln: Row): seq<Block> {
    [Line(BoldRun(f.name, 24)), Line(PlainRun(CellText(vuln, f.name), 20))]
  }

  function ShownFieldBlocks(fields: seq<FieldData>, vuln: Row, roles: Roles): seq<Block>
    decreases |fields|
  {
    if |fields| == 0 then []
    else
      var last := fields[|fields| - 1];
      ShownFieldBlocks(fields[..|fields| - 1], vuln, roles) + (if IsShown(last, roles) then FieldPair(last, vuln) else [])
  }

  /** The fields shown, in order. */
  function ShownFields(fields: seq<FieldData>, roles: Roles): seq<FieldData>
    decreases |fields|
  {
    if |fields| == 0 then []
    else
      var last := fields[|fields| - 1];
      ShownFields(fields[..|fields| - 1], roles) + (if IsShown(last, roles) then [last] else [])
  }

  function ImageBlocks(image: PoCImage, caption: string, decodes: string -> bool): seq<Block> {
    if decodes(image.dataUrl) then
      [Picture(image.dataUrl, 500, 300), Line(Run("Evidence for: " + caption, false, true, None, 18))]
    else [ImageErrorMarker]
  }

  function EvidenceFor(images: seq<PoCImage>, caption: string, decodes: string -> bool): seq<Block>
    decreases |images|
  {
    if |images| == 0 then []
    else EvidenceFor(images[..|images| - 1], caption, decodes) + ImageBlocks(images[|images| - 1], caption, decodes)
  }

  /** The images of a row: those tagged with the text of its name, compared
      strictly, so an image tagged with a number never matches. */
  function MatchingImages(images: seq<PoCImage>, name: Value): seq<PoCImage> {
    ImagesFor(images, Str(ToStr(name)))
  }

  function EvidenceBlocks(name: Value, images: seq<PoCImage>, decodes: string -> bool): seq<Block> {
    if !Truthy(name) then []
    else
      var matching := MatchingImages(images, name);
      if |matching| == 0 then []
      else [HeadingBlock("Proof of Concept", 26, Heading3)] + EvidenceFor(matching, ToStr(name), decodes)
  }

  function PageBreakBefore(index: nat): seq<Block> {
    if index > 0 then [PageBreak] else []
  }

  /** A row throws exactly when its severity or status cell is a truthy
      number. */
  predicate BadRating(vuln: Row, roles: Roles) {
    var severity, status := RoleValue(vuln, roles.severity), RoleValue(vuln, roles.status);
    (Truthy(severity) && !severity.Str?) || (Truthy(status) && !status.Str?)
  }

  /** A row's blocks after its page break: the heading, the rating, the
      shown fields and the evidence. */
  function RowBody(name: Value, rating: seq<Block>, vuln: Row, fields: seq<FieldData>, roles: Roles,
                   images: seq<PoCImage>, decodes: string -> bool): seq<Block>
  {
    NameBlocks(name) + rating + ShownFieldBlocks(fields, vuln, roles) + EvidenceBlocks(name, images, decodes)
  }

  /** The blocks of one row, or the error its severity or status throws. */
  function RowBlocks(index: nat, vuln: Row, fields: seq<FieldData>, roles: Roles, images: seq<PoCImage>,
                     decodes: string -> bool): (r: Result<seq<Block>>)
    ensures r.Err? <==> BadRating(vuln, roles)
  {
    var rating := RatingBlocks(RoleValue(vuln, roles.severity), RoleValue(vuln, roles.status));
    if rating.Err? then Err(rating.message)
    else Ok(PageBreakBefore(index) + RowBody(RoleValue(vuln, roles.name), rating.value, vuln, fields, roles, images, decodes))
  }

  /** The first `k` rows, stopping at the first error. */
  function Rows(rows: seq<Row>, k: nat, fields: seq<FieldData>, roles: Roles, images: seq<PoCImage>,
                decodes: string -> bool): Result<seq<Block>>
    requires k <= |rows|
  {
    if k == 0 then Ok([])
    else
      match Rows(rows, k - 1, fields, roles, images, decodes)
      case Err(m) => Err(m)
      case Ok(prev) =>
        match RowBlocks(k - 1, rows[k - 1], fields, roles, images, decodes)
        case Err(m) => Err(m)
        case Ok(bs) => Ok(prev + bs)
  }

  function TitleBlocks(config: ReportConfig): seq<Block> {
    [ Paragraph([BoldRun(("Vulnerability " + "Assessment Report"), 36)], Normal),
      Line(PlainRun("Company: " + config.companyName, 24)),
      Line(PlainRun("Assessment Type: " + config.assessmentType, 24)) ]
  }

  /** Only the heading of the scope section, when there is a scope sheet. */
  function ScopeBlocks(scope: seq<Row>): seq<Block> {
    if |scope| > 0 then [HeadingBlock("Scope", 32, Heading1)] else []
  }

  function VulnerabilitiesHeading(): Block {
    HeadingBlock(("Identified " + "Vulnerabilities"), 32, Heading1)
  }

  /** A page break and only the heading of the observations section. */
  function ObservationBlocks(observations: seq<Row>): seq<Block> {
    if |observations| > 0 then [PageBreak, HeadingBlock(("Additional " + "Observations"), 32, Heading1)] else []
  }

  function Preamble(data: ExcelData, config: ReportConfig): seq<Block> {
    TitleBlocks(config) + ScopeBlocks(data.scope) + [VulnerabilitiesHeading()]
  }

  /** `generateDocumentContent` over the fields it is given. */
  function DocumentContent(data: ExcelData, fields: seq<FieldData>, images: seq<PoCImage>, config: ReportConfig,
                           decodes: string -> bool): Result<seq<Block>>
  {
    var rows := data.vulnerabilities;
    match Rows(rows, |rows|, fields, RolesOf(fields), images, decodes)
    case Err(m) => Err(m)
    case Ok(body) => Ok(Preamble(data, config) + body + ObservationBlocks(data.observations))
  }

  /** `vulnerability_report_{type}_{date}.docx` with the report type
      lower-cased and nothing sanitised. */
  function FileName(config: ReportConfig, isoDate: string): (name: string)
    ensures StartsWith(name, "vulnerability_report_" + Lower(config.reportType) + "_")
    ensures EndsWith(name, "_" + isoDate + ".docx")
    ensures |name| == |config.reportType| + |isoDate| + 27
  {
    var head := "vulnerability_report_" + Lower(config.reportType) + "_";
    var name := head + isoDate + ".docx";
    ConcatParts(head, isoDate + ".docx");
    assert name[|name| - |"_" + isoDate + ".docx"|..] == "_" + isoDate + ".docx" by {
      assert name == head[..|head| - 1] + ("_" + isoDate + ".docx");
    }
    name
  }

  /** `generateWordDocument`: the guard, then the content of the selected
      fields, saved under the builder's file name. */
  function WordDocument(data: ExcelData, fields: seq<FieldData>, images: seq<PoCImage>, config: ReportConfig,
                        isoDate: string, decodes: string -> bool): Result<SavedReport>
  {
    var included := Included(fields);
    if |included| == 0 || |data.vulnerabilities| == 0 then Err(GuardFailure())
    else
      match DocumentContent(data, included, images, config, decodes)
      case Err(m) => Err(m)
      case Ok(content) => Ok(SavedReport(FileName(config, isoDate), content))
  }

  // ---------------------------------------------------------------------
  // The loops of `generateDocumentContent`.

  method ShownFieldParagraphs(fields: seq<FieldData>, vuln: Row, roles: Roles) returns (bs: seq<Block>)
    ensures bs == ShownFieldBlocks(fields, vuln, roles)
  {
    bs := [];
    var j := 0;
    while j < |fields|
      invariant 0 <= j <= |fields|
      invariant bs == ShownFieldBlocks(fields[..j], vuln, roles)
    {
      var field := fields[j];
      if field.included && !(SameNameAs(roles.name, field.name) || SameNameAs(roles.severity, field.name) ||
                             SameNameAs(roles.status, field.name) || Contains(Lower(field.name), "poc") ||
                             Contains(Lower(field.name), "proof")) {
        bs := bs + [Line(BoldRun(field.name, 24)), Line(PlainRun(CellText(vuln, field.name), 20))];
      }
      assert fields[..j + 1][..j] == fields[..j];
      j := j + 1;
    }
    assert fields[..j] == fields;
  }

  method EvidenceParagraphs(matching: seq<PoCImage>, caption: string, decodes: string -> bool)
    returns (bs: seq<Block>)
    ensures bs == EvidenceFor(matching, caption, decodes)
  {
    bs := [];
    var k := 0;
    while k < |matching|
      invariant 0 <= k <= |matching|
      invariant bs == EvidenceFor(matching[..k], caption, decodes)
    {
      var image := matching[k];
      if decodes(image.dataUrl) {
        bs := bs + [Picture(image.dataUrl, 500, 300), Line(Run("Evidence for: " + caption, false, true, None, 18))];
      } else {
        bs := bs + [ImageErrorMarker];
      }
      assert matching[..k + 1][..k] == matching[..k];
      k := k + 1;
    }
    assert matching[..k] == matching;
  }

  method EvidenceSection(name: Value, images: seq<PoCImage>, decodes: string -> bool) returns (bs: seq<Block>)
    ensures bs == EvidenceBlocks(name, images, decodes)
  {
    bs := [];
    if Truthy(name) {
      var matching := ImagesFor(images, Str(ToStr(name)));
      if |matching| > 0 {
        var pictures := EvidenceParagraphs(matching, ToStr(name), decodes);
        bs := [HeadingBlock("Proof of Concept", 26, Heading3)] + pictures;
      }
    }
  }

  /** One pass of the loop over the rows. */
  method RowSection(index: nat, vuln: Row, fields: seq<FieldData>, roles: Roles, images: seq<PoCImage>,
                    decodes: string -> bool) returns (r: Result<seq<Block>>)
    ensures r == RowBlocks(index, vuln, fields, roles, images, decodes)
  {
    var name := RoleValue(vuln, roles.name);
    var rating := RatingBlocks(RoleValue(vuln, roles.severity), RoleValue(vuln, roles.status));
    if rating.Err? {
      return Err(rating.message);
    }
    var shown := ShownFieldParagraphs(fields, vuln, roles);
    var evidence := EvidenceSection(name, images, decodes);
    r := Ok(PageBreakBefore(index) + (NameBlocks(name) + rating.value + shown + evidence));
  }

  /** `generateDocumentContent`: pushes the blocks in order and rejects with
      the first error a row throws. */
  method GenerateDocumentContent(data: ExcelData, fields: seq<FieldData>, images: seq<PoCImage>,
                                 config: ReportConfig, decodes: string -> bool)
    returns (r: Result<seq<Block>>)
    ensures r == DocumentContent(data, fields, images, config, decodes)
  {
    var rows := data.vulnerabilities;
    var roles := RolesOf(fields);
    var body := [];
    var i := 0;
    while i < |rows|
      invariant 0 <= i <= |rows|
      invariant Rows(rows, i, fields, roles, images, decodes) == Ok(body)
    {
      var section := RowSection(i, rows[i], fields, roles, images, decodes);
      if section.Err? {
        RowsErrorSticks(rows, i + 1, |rows|, fields, roles, images, decodes);
        return Err(section.message);
      }
      assert Rows(rows, i + 1, fields, roles, images, decodes) == Ok(body + section.value);
      body := body + section.value;
      i := i + 1;
    }
    r := Ok(Preamble(data, config) + body + ObservationBlocks(data.observations));
  }

  /** `generateWordDocument`. */
  method GenerateWordDocument(data: ExcelData, fields: seq<FieldData>, images: seq<PoCImage>,
                              config: ReportConfig, isoDate: string, decodes: string -> bool)
    returns (r: Result<SavedReport>)
    ensures r == WordDocument(data, fields, images, config, isoDate, decodes)
  {
    var included := Included(fields);
    if |included| == 0 || |data.vulnerabilities| == 0 {
      return Err(GuardFailure());
    }
    var content := GenerateDocumentContent(data, included, images, config, decodes);
    if content.Err? {
      return Err(content.message);
    }
    r := Ok(SavedReport(FileName(config, isoDate), content.value));
  }

  // ---------------------------------------------------------------------
  // Properties.

  /** Once a prefix of the rows fails, every longer prefix fails with the
      same error. */
  lemma {:induction false} RowsErrorSticks(rows: seq<Row>, k: nat, k2: nat, fields: seq<FieldData>, roles: Roles,
                                           images: seq<PoCImage>, decodes: string -> bool)
    requires k <= k2 <= |rows|
    requires Rows(rows, k, fields, roles, images, decodes).Err?
    ensures Rows(rows, k2, fields, roles, images, decodes) == Rows(rows, k, fields, roles, images, decodes)
    decreases k2
  {
    if k2 > k {
      RowsErrorSticks(rows, k, k2 - 1, fields, roles, images, decodes);
    }
  }

  /** Some row among the first `k` has a bad rating. */
  predicate SomeBadRating(rows: seq<Row>, k: nat, roles: Roles)
    requires k <= |rows|
  {
    k > 0 && (SomeBadRating(rows, k - 1, roles) || BadRating(rows[k - 1], roles))
  }

  lemma {:induction false} SomeBadRatingIff(rows: seq<Row>, k: nat, roles: Roles)
    requires k <= |rows|
    ensures SomeBadRating(rows, k, roles) <==> exists i :: 0 <= i < k && BadRating(rows[i], roles)
  {
    if k > 0 {
      SomeBadRatingIff(rows, k - 1, roles);
    }
  }

  /** The rows fail exactly when one of them has a bad rating. */
  lemma {:induction false} RowsErrIff(rows: seq<Row>, k: nat, fields: seq<FieldData>, roles: Roles,
                                      images: seq<PoCImage>, decodes: string -> bool)
    requires k <= |rows|
    ensures Rows(rows, k, fields, roles, images, decodes).Err? <==> SomeBadRating(rows, k, roles)
  {
    if k > 0 {
      RowsErrIff(rows, k - 1, fields, roles, images, decodes);
    }
  }

  /** The builder refuses with the guard's message exactly when no field is
      included or there are no rows, and otherwise fails only on a bad
      rating. */
  lemma WordDocumentErrors(data: ExcelData, fields: seq<FieldData>, images: seq<PoCImage>, config: ReportConfig,
                           isoDate: string, decodes: string -> bool)
    ensures var included, rows := Included(fields), data.vulnerabilities;
      var r := WordDocument(data, fields, images, config, isoDate, decodes);
      ((|included| == 0 || |rows| == 0) ==> r == Err(GuardFailure())) &&
      (|included| > 0 && |rows| > 0 ==>
         (r.Err? <==> exists i :: 0 <= i < |rows| && BadRating(rows[i], RolesOf(included))))
  {
    var included, rows := Included(fields), data.vulnerabilities;
    if |included| > 0 && |rows| > 0 {
      RowsErrIff(rows, |rows|, included, RolesOf(included), images, decodes);
      SomeBadRatingIff(rows, |rows|, RolesOf(included));
    }
  }

  /** The shown fields come out as a label and a value paragraph each, in
      order. */
  lemma {:induction false} ShownFieldPairs(fields: seq<FieldData>, vuln: Row, roles: Roles)
    ensures var bs, shown := ShownFieldBlocks(fields, vuln, roles), ShownFields(fields, roles);
      |bs| == 2 * |shown| &&
      (forall k :: 0 <= k < |shown| ==>
         bs[2 * k] == Line(BoldRun(shown[k].name, 24)) &&
         bs[2 * k + 1] == Line(PlainRun(CellText(vuln, shown[k].name), 20))) &&
      forall j :: 0 <= j < |bs| ==> bs[j].Paragraph? && bs[j].heading == Normal
    decreases |fields|
  {
    if |fields| > 0 {
      ShownFieldPairs(fields[..|fields| - 1], vuln, roles);
    }
  }

  /** A field is shown exactly when it is in the list and passes the
      filter. */
  lemma {:induction false} ShownFieldsMembers(fields: seq<FieldData>, roles: Roles, f: FieldData)
    ensures f in ShownFields(fields, roles) <==> f in fields && IsShown(f, roles)
    decreases |fields|
  {
    if |fields| > 0 {
      ShownFieldsMembers(fields[..|fields| - 1], roles, f);
      assert fields == fields[..|fields| - 1] + [fields[|fields| - 1]];
    }
  }

  /** One picture per decodable image and one marker per failing image. */
  lemma {:induction false} EvidenceCounts(images: seq<PoCImage>, caption: string, decodes: string -> bool)
    ensures var bs := EvidenceFor(images, caption, decodes);
      |bs| == |images| + Decoded(images, decodes) &&
      Pictures(bs) == Decoded(images, decodes) &&
      Count(bs, ImageErrorMarker) == |images| - Decoded(images, decodes)
    decreases |images|
  {
    if |images| > 0 {
      var init, last := images[..|images| - 1], images[|images| - 1];
      EvidenceCounts(init, caption, decodes);
      PicturesConcat(EvidenceFor(init, caption, decodes), ImageBlocks(last, caption, decodes));
      CountConcat(EvidenceFor(init, caption, decodes), ImageBlocks(last, caption, decodes), ImageErrorMarker);
      CountZeroIff(ImageBlocks(last, caption, decodes), ImageErrorMarker);
      var captionLine := Line(Run("Evidence for: " + caption, false, true, None, 18));
      assert Pictures([captionLine]) == 0;
    }
  }

  /** No part of a row other than the leading break is a page break. */
  lemma {:induction false} NoPageBreaks(fields: seq<FieldData>, vuln: Row, roles: Roles)
    ensures PageBreak !in ShownFieldBlocks(fields, vuln, roles)
    decreases |fields|
  {
    if |fields| > 0 {
      NoPageBreaks(fields[..|fields| - 1], vuln, roles);
    }
  }

  lemma {:induction false} NoPageBreakInEvidence(images: seq<PoCImage>, caption: string, decodes: string -> bool)
    ensures PageBreak !in EvidenceFor(images, caption, decodes)
    decreases |images|
  {
    if |images| > 0 {
      NoPageBreakInEvidence(images[..|images| - 1], caption, decodes);
    }
  }

  /** The body of a row holds no page break. */
  lemma RowBodyNoBreak(name: Value, rating: seq<Block>, vuln: Row, fields: seq<FieldData>, roles: Roles,
                       images: seq<PoCImage>, decodes: string -> bool)
    requires forall j :: 0 <= j < |rating| ==> rating[j].Paragraph?
    ensures PageBreak !in RowBody(name, rating, vuln, fields, roles, images, decodes)
  {
    NoPageBreaks(fields, vuln, roles);
    var matching := MatchingImages(images, name);
    if Truthy(name) && |matching| > 0 {
      NoPageBreakInEvidence(matching, ToStr(name), decodes);
    }
  }

  /** The pictures of a row's body are the decodable images tagged with
      the text of its name; none when the name is falsy. */
  lemma RowBodyPictures(name: Value, rating: seq<Block>, vuln: Row, fields: seq<FieldData>, roles: Roles,
                        images: seq<PoCImage>, decodes: string -> bool)
    requires forall j :: 0 <= j < |rating| ==> rating[j].Paragraph?
    ensures Pictures(RowBody(name, rating, vuln, fields, roles, images, decodes)) ==
            if Truthy(name) then Decoded(MatchingImages(images, name), decodes) else 0
  {
    var head := NameBlocks(name) + rating;
    var shown := ShownFieldBlocks(fields, vuln, roles);
    var evidence := EvidenceBlocks(name, images, decodes);
    ShownFieldPairs(fields, vuln, roles);
    NoPictures(head);
    NoPictures(shown);
    if Truthy(name) {
      var matching := MatchingImages(images, name);
      EvidenceCounts(matching, ToStr(name), decodes);
      if |matching| > 0 {
        PicturesConcat([HeadingBlock("Proof of Concept", 26, Heading3)], EvidenceFor(matching, ToStr(name), decodes));
      }
    }
    PicturesConcat(head, shown);
    PicturesConcat(head + shown, evidence);
  }

  /** A row's blocks hold one page break, at their head, unless it is the
      first row, which has none; its pictures are those of its body. */
  lemma RowPageBreaks(index: nat, vuln: Row, fields: seq<FieldData>, roles: Roles, images: seq<PoCImage>,
                      decodes: string -> bool)
    requires RowBlocks(index, vuln, fields, roles, images, decodes).Ok?
    ensures var bs := RowBlocks(index, vuln, fields, roles, images, decodes).value;
      Count(bs, PageBreak) == (if index > 0 then 1 else 0) &&
      (index > 0 ==> bs[0] == PageBreak)
  {
    var rating := RatingBlocks(RoleValue(vuln, roles.severity), RoleValue(vuln, roles.status)).value;
    var body := RowBody(RoleValue(vuln, roles.name), rating, vuln, fields, roles, images, decodes);
    RowBodyNoBreak(RoleValue(vuln, roles.name), rating, vuln, fields, roles, images, decodes);
    CountZeroIff(body, PageBreak);
    CountConcat(PageBreakBefore(index), body, PageBreak);
  }

  /** Across the first `k` rows there is one page break before every row
      but the first. */
  lemma {:induction false} RowsPageBreaks(rows: seq<Row>, k: nat, fields: seq<FieldData>, roles: Roles,
                                          images: seq<PoCImage>, decodes: string -> bool)
    requires k <= |rows|
    requires Rows(rows, k, fields, roles, images, decodes).Ok?
    ensures Count(Rows(rows, k, fields, roles, images, decodes).value, PageBreak) == if k > 0 then k - 1 else 0
  {
    if k > 0 {
      var prev := Rows(rows, k - 1, fields, roles, images, decodes);
      var row := RowBlocks(k - 1, rows[k - 1], fields, roles, images, decodes);
      assert prev.Ok? && row.Ok? && Rows(rows, k, fields, roles, images, decodes) == Ok(prev.value + row.value);
      RowsPageBreaks(rows, k - 1, fields, roles, images, decodes);
      RowPageBreaks(k - 1, rows[k - 1], fields, roles, images, decodes);
      CountConcat(prev.value, row.value, PageBreak);
    }
  }

  /** The pictures of a row are the decodable images tagged with the text
      of its name; none when the name is falsy. */
  lemma RowPictures(index: nat, vuln: Row, fields: seq<FieldData>, roles: Roles, images: seq<PoCImage>,
                    decodes: string -> bool)
    requires RowBlocks(index, vuln, fields, roles, images, decodes).Ok?
    ensures var name := RoleValue(vuln, roles.name);
      Pictures(RowBlocks(index, vuln, fields, roles, images, decodes).value) ==
      if Truthy(name) then Decoded(MatchingImages(images, name), decodes) else 0
  {
    var rating := RatingBlocks(RoleValue(vuln, roles.severity), RoleValue(vuln, roles.status)).value;
    RowBodyPictures(RoleValue(vuln, roles.name), rating, vuln, fields, roles, images, decodes);
    NoPictures(PageBreakBefore(index));
    PicturesConcat(PageBreakBefore(index), RowBody(RoleValue(vuln, roles.name), rating, vuln, fields, roles, images, decodes));
  }
}
