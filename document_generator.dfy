/** The main report builder (`generateWordReport` and its helpers): input
    validation, the colour palette, the template path and file name, and
    the block sequence of the report: title, executive summary, scope,
    one section per vulnerability, observations, recommendations and the
    footer. */
module DocumentGenerator {
  import opened Common
  import opened Types
  import opened FieldRoles
  import opened Blocks

  function NoVulnerabilityData(): string { ("No vulnerability data " + "found. Please upload a " + "valid Excel file.") }
  function NoFieldsConfigured(): string { ("No fields configured. " + "Please ensure your " + "Excel file has proper " + "headers.") }
  function NoFieldsSelected(): string { ("No fields selected. " + "Please select at least " + "one field to include.") }
  function CompanyNameRequired(): string { ("Company name is " + "required.") }

  /** `validateInputs`: the first failing check, in this order: no rows,
      no fields, no included field, blank company name. */
  function ValidateInputs(data: ExcelData, fields: seq<FieldData>, config: ReportConfig): (r: Outcome)
    ensures r == Pass <==>
      |data.vulnerabilities| > 0 && |fields| > 0 && Included(fields) != [] && !IsBlank(config.companyName)
    ensures |data.vulnerabilities| == 0 ==> r == Fail(NoVulnerabilityData())
    ensures |data.vulnerabilities| > 0 && |fields| == 0 ==> r == Fail(NoFieldsConfigured())
    ensures |data.vulnerabilities| > 0 && |fields| > 0 && Included(fields) == [] ==> r == Fail(NoFieldsSelected())
    ensures |data.vulnerabilities| > 0 && Included(fields) != [] && IsBlank(config.companyName) ==>
              r == Fail(CompanyNameRequired())
  {
    if |data.vulnerabilities| == 0 then Fail(NoVulnerabilityData())
    else if |fields| == 0 then Fail(NoFieldsConfigured())
    else if Included(fields) == [] then Fail(NoFieldsSelected())
    else if IsBlank(config.companyName) then Fail(CompanyNameRequired())
    else Pass
  }

  /** `getSeverityColor`: a colour for every label, chosen by the
      lower-cased label alone. */
  function SeverityColor(severity: string): (color: string)
    ensures color == "800000" <==> Lower(severity) == "critical"
    ensures color == "FF0000" <==> Lower(severity) == "high"
    ensures color == "FF8C00" <==> Lower(severity) == "medium"
    ensures color == "228B22" <==> Lower(severity) == "low"
    ensures color == "000000" <==> Lower(severity) !in {"critical", "high", "medium", "low"}
  {
    var l := Lower(severity);
    if l == "critical" then "800000"
    else if l == "high" then "FF0000"
    else if l == "medium" then "FF8C00"
    else if l == "low" then "228B22"
    else "000000"
  }

  /** `getStatusColor`: red for "open" in any letter case, green otherwise. */
  function StatusColor(status: string): (color: string)
    ensures color == "FF0000" <==> Lower(status) == "open"
    ensures color == "228B22" <==> Lower(status) != "open"
  {
    if Lower(status) == "open" then "FF0000" else "228B22"
  }

  /** The folder `getTemplatePath` uses for each of the eight assessment types. */
  const TypeFolders: map<string, string> := map[
    "API" := "api",
    "Web Blackbox" := "web_blackbox",
    "Web Grey Box" := "web_greybox",
    "Network" := "network",
    "Network Architecture" := "network_architecture",
    "Config Review" := "config_review",
    "CSPM" := "cspm",
    "Source Code" := "source_code"]

  /** `typeMap[assessmentType] || 'web_blackbox'`. */
  function TypeFolder(assessmentType: string): (folder: string)
    ensures assessmentType in TypeFolders ==> folder == TypeFolders[assessmentType]
    ensures assessmentType !in TypeFolders ==> folder == "web_blackbox"
  {
    if assessmentType in TypeFolders then TypeFolders[assessmentType] else "web_blackbox"
  }

  /** A path `prefix + folder + "/template.docx"` starts with the prefix
      and, when the prefix ends in "/", ends with "/" + folder +
      "/template.docx". */
  lemma {:induction false} TemplatePathParts(prefix: string, folder: string)
    requires |prefix| > 0 && prefix[|prefix| - 1] == '/'
    ensures StartsWith(prefix + (folder + "/template.docx"), prefix)
    ensures EndsWith(prefix + (folder + "/template.docx"), "/" + folder + "/template.docx")
  {
    var rest := folder + "/template.docx";
    var path := prefix + rest;
    assert path[..|prefix|] == prefix;
    assert path == prefix[..|prefix| - 1] + ("/" + rest);
    assert path[|path| - |"/" + rest|..] == "/" + rest;
    assert "/" + rest == "/" + folder + "/template.docx";
  }

  /** Neither folder prefix starts the other's paths. */
  lemma {:induction false} PrefixesDiffer(rest: string)
    ensures !StartsWith("/sample_templates/gt/" + rest, "/sample_templates/certin/")
    ensures !StartsWith("/sample_templates/certin/" + rest, "/sample_templates/gt/")
  {
    assert ("/sample_templates/gt/" + rest)[18] == 'g';
    assert ("/sample_templates/certin/" + rest)[18] == 'c';
  }

  /** `getTemplatePath`. */
  function TemplatePath(assessmentType: string, reportType: string): (path: string)
    ensures StartsWith(path, "/sample_templates/gt/") <==> Lower(reportType) == "gt"
    ensures StartsWith(path, "/sample_templates/certin/") <==> Lower(reportType) != "gt"
    ensures EndsWith(path, "/" + TypeFolder(assessmentType) + "/template.docx")
    ensures |path| == (if Lower(reportType) == "gt" then 21 else 25) + |TypeFolder(assessmentType)| + 14
  {
    var prefix := if Lower(reportType) == "gt" then "/sample_templates/gt/" else "/sample_templates/certin/";
    var rest := TypeFolder(assessmentType) + "/template.docx";
    TemplatePathParts(prefix, TypeFolder(assessmentType));
    PrefixesDiffer(rest);
    prefix + rest
  }

  /** Three file-safe parts joined by `_` are file-safe. */
  lemma JoinedPartsSafe(c: string, a: string, t: string)
    requires FileSafe(c) && FileSafe(a) && FileSafe(t)
    ensures FileSafe(c + "_" + a + "_" + t)
  {
    FileSafeConcat(c, "_");
    FileSafeConcat(c + "_", a);
    FileSafeConcat(c + "_" + a, "_");
    FileSafeConcat(c + "_" + a + "_", t);
  }

  /** `generateFileName`: company, assessment type and report type with every
      character outside `[a-zA-Z0-9]` replaced by `_`, then `_Report_`, the
      ISO date and `.docx`. */
  function FileName(config: ReportConfig, isoDate: string): (name: string)
    ensures EndsWith(name, "_Report_" + isoDate + ".docx")
    ensures FileSafe(name[..|name| - |"_Report_" + isoDate + ".docx"|])
    ensures StartsWith(name, Sanitize(config.companyName) + "_" + Sanitize(config.assessmentType) + "_" +
                             Sanitize(config.reportType) + "_Report_")
    ensures |name| == |config.companyName| + |config.assessmentType| + |config.reportType| + |isoDate| + 15
  {
    var c, a, t := Sanitize(config.companyName), Sanitize(config.assessmentType), Sanitize(config.reportType);
    SanitizeSafe(config.companyName);
    SanitizeSafe(config.assessmentType);
    SanitizeSafe(config.reportType);
    JoinedPartsSafe(c, a, t);
    var head := c + "_" + a + "_" + t;
    var suffix := "_Report_" + isoDate + ".docx";
    ConcatParts(head, suffix);
    ConcatParts(head + "_Report_", isoDate + ".docx");
    assert head + suffix == (head + "_Report_") + (isoDate + ".docx");
    head + suffix
  }

  // ---------------------------------------------------------------------
  // The block sequence built by `createWordDocument`.

  function TitleBlocks(config: ReportConfig, clock: Clock): seq<Block> {
    [ HeadingBlock(config.companyName, 32, Title),
      HeadingBlock(config.assessmentType + (" Security Assessment " + "Report"), 28, Heading1),
      Line(PlainRun("Report Type: " + config.reportType, 24)),
      Line(PlainRun("Date: " + clock.longDate, 24)) ]
  }

  /** The wording of the summary and its CERT-In variant. */
  function StandardFollowed(config: ReportConfig): string {
    if config.reportType == "CERT-In" then ("CERT-In guidelines and " + "standards") else "industry best practices"
  }

  function SummaryBlocks(config: ReportConfig, count: nat): seq<Block> {
    [ HeadingBlock("Executive Summary", 28, Heading1),
      Line(PlainRun("This " + Lower(config.assessmentType) + (" security assessment " + "report for ") +
                    config.companyName + (" has been prepared " + "following ") + StandardFollowed(config) +
                    (". The assessment " + "identified ") + NatToString(count) +
                    (" vulnerabilities and " + "provides comprehensive " + "recommendations for " + "security improvements."), 24)) ]
  }

  /** One numbered paragraph of a scope or observation row: its non-blank
      entries joined by newlines. */
  function NumberedRow(index: nat, row: Row): Block {
    Line(PlainRun(NatToString(index + 1) + ". " + Join(RowEntries(row), "\n"), 22))
  }

  function NumberedRows(rows: seq<Row>): (bs: seq<Block>)
    ensures |bs| == |rows|
  {
    if |rows| == 0 then []
    else NumberedRows(rows[..|rows| - 1]) + [NumberedRow(|rows| - 1, rows[|rows| - 1])]
  }

  /** Row `i` becomes paragraph `i`, numbered `i + 1`. */
  lemma {:induction false} NumberedRowsAt(rows: seq<Row>, i: nat)
    requires i < |rows|
    ensures NumberedRows(rows)[i] == NumberedRow(i, rows[i])
  {
    if i < |rows| - 1 {
      NumberedRowsAt(rows[..|rows| - 1], i);
    }
  }

  /** A titled list of numbered rows, left out entirely when there are no
      rows. */
  function NumberedSection(title: string, rows: seq<Row>): seq<Block> {
    if |rows| == 0 then [] else [HeadingBlock(title, 28, Heading1)] + NumberedRows(rows)
  }

  function ScopeBlocks(scope: seq<Row>): seq<Block> {
    NumberedSection("Assessment Scope", scope)
  }

  function VulnerabilitiesHeading(count: nat): Block {
    HeadingBlock(("Identified " + "Vulnerabilities (") + NatToString(count) + ")", 28, Heading1)
  }

  /** `"{i+1}. {name}"` as a level-2 heading, when the row's name is truthy. */
  function NameHeading(index: nat, vuln: Row, roles: Roles): seq<Block> {
    if roles.name.Some? && Truthy(Get(vuln, roles.name.value.name)) then
      [HeadingBlock(NatToString(index + 1) + ". " + ToStr(Get(vuln, roles.name.value.name)), 26, Heading2)]
    else []
  }

  /** A bold label followed by the value in its colour. */
  function ColouredLine(title: string, value: string, color: string): Block {
    Paragraph([BoldRun(title, 24), Run(value, true, false, Some(color), 24)], Normal)
  }

  function SeverityBlocks(vuln: Row, roles: Roles): seq<Block> {
    if roles.severity.Some? && Truthy(Get(vuln, roles.severity.value.name)) then
      var s := ToStr(Get(vuln, roles.severity.value.name));
      [ColouredLine("Severity: ", s, SeverityColor(s))]
    else []
  }

  function StatusBlocks(vuln: Row, roles: Roles): seq<Block> {
    if roles.status.Some? && Truthy(Get(vuln, roles.status.value.name)) then
      var s := ToStr(Get(vuln, roles.status.value.name));
      [ColouredLine("Status: ", s, StatusColor(s))]
    else []
  }

  function FieldPair(f: FieldData, vuln: Row): seq<Block> {
    [Line(BoldRun(f.name, 24)), Line(PlainRun(CellText(vuln, f.name), 22))]
  }

  /** The label and value paragraphs of the generic fields among `fields`. */
  function FieldBlocks(fields: seq<FieldData>, vuln: Row, roles: Roles): seq<Block>
    decreases |fields|
  {
    if |fields| == 0 then []
    else
      var last := fields[|fields| - 1];
      FieldBlocks(fields[..|fields| - 1], vuln, roles) + (if IsOtherField(last, roles) then FieldPair(last, vuln) else [])
  }

  /** The generic fields among `fields`, in order. */
  function OtherFields(fields: seq<FieldData>, roles: Roles): seq<FieldData>
    decreases |fields|
  {
    if |fields| == 0 then []
    else
      var last := fields[|fields| - 1];
      OtherFields(fields[..|fields| - 1], roles) + (if IsOtherField(last, roles) then [last] else [])
  }

  function ImageBlocks(image: PoCImage, caption: string, decodes: string -> bool): seq<Block> {
    if decodes(image.dataUrl) then
      [Picture(image.dataUrl, 500, 300), Line(Run("Evidence for: " + caption, false, true, None, 20))]
    else [ImageErrorMarker]
  }

  /** The blocks of each image in turn; a failing image contributes its
      marker and the next image is still processed. */
  function EvidenceFor(images: seq<PoCImage>, caption: string, decodes: string -> bool): seq<Block>
    decreases |images|
  {
    if |images| == 0 then []
    else EvidenceFor(images[..|images| - 1], caption, decodes) + ImageBlocks(images[|images| - 1], caption, decodes)
  }

  const ProofOfConceptLabel: Block := Line(BoldRun("Proof of Concept", 24))

  /** The evidence of a row: looked up only when there is a name column. */
  function EvidenceBlocks(vuln: Row, roles: Roles, images: seq<PoCImage>, decodes: string -> bool): seq<Block> {
    if roles.name.None? then []
    else
      var name := Get(vuln, roles.name.value.name);
      var matching := ImagesFor(images, name);
      if |matching| == 0 then [] else [ProofOfConceptLabel] + EvidenceFor(matching, ToStr(name), decodes)
  }

  const Separator: Block := Line(PlainRun(Repeat('─', 80), 20))

  function SeparatorBlocks(index: nat, count: nat): seq<Block> {
    if index < count - 1 then [Separator] else []
  }

  /** Everything of a row's section between its heading and its separator. */
  function RowBody(vuln: Row, included: seq<FieldData>, roles: Roles, images: seq<PoCImage>,
                   decodes: string -> bool): seq<Block>
  {
    SeverityBlocks(vuln, roles) + StatusBlocks(vuln, roles) + FieldBlocks(included, vuln, roles) +
    EvidenceBlocks(vuln, roles, images, decodes)
  }

  function VulnerabilityBlocks(index: nat, count: nat, vuln: Row, included: seq<FieldData>, roles: Roles,
                               images: seq<PoCImage>, decodes: string -> bool): seq<Block>
  {
    NameHeading(index, vuln, roles) + RowBody(vuln, included, roles, images, decodes) + SeparatorBlocks(index, count)
  }

  /** The sections of the first `k` rows, one after the other. */
  function VulnerabilitySections(rows: seq<Row>, k: nat, included: seq<FieldData>, roles: Roles,
                                 images: seq<PoCImage>, decodes: string -> bool): seq<Block>
    requires k <= |rows|
  {
    if k == 0 then []
    else VulnerabilitySections(rows, k - 1, included, roles, images, decodes) +
         VulnerabilityBlocks(k - 1, |rows|, rows[k - 1], included, roles, images, decodes)
  }

  function ObservationBlocks(observations: seq<Row>): seq<Block> {
    NumberedSection("Additional Observations", observations)
  }

  function ImmediateActions(): string { ("• Address all critical " + "and high-severity " + "vulnerabilities within " + "30 days\n• Implement " + "temporary mitigations " + "for critical findings\n• " + "Review and update " + "security policies") }
  function ShortTermImprovements(): string { ("• Remediate " + "medium-severity " + "vulnerabilities\n• " + "Enhance security " + "monitoring and logging\n" + "• Conduct security " + "awareness training") }
  function LongTermStrategy(): string { ("• Implement " + "comprehensive security " + "framework\n• Establish " + "regular security " + "assessment schedule\n• " + "Develop incident " + "response procedures") }

  function RecommendationBlocks(config: ReportConfig): seq<Block> {
    [ HeadingBlock("Recommendations", 28, Heading1),
      Line(PlainRun(("Based on the findings " + "of this ") + Lower(config.assessmentType) +
                    (" assessment, we " + "recommend the following " + "actions:"), 24)),
      Line(BoldRun("1. IMMEDIATE ACTIONS", 24)),
      Line(PlainRun(ImmediateActions(), 22)),
      Line(BoldRun(("2. SHORT-TERM " + "IMPROVEMENTS (1-3 " + "months)"), 24)),
      Line(PlainRun(ShortTermImprovements(), 22)),
      Line(BoldRun(("3. LONG-TERM STRATEGY " + "(3-12 months)"), 24)),
      Line(PlainRun(LongTermStrategy(), 22)) ]
  }

  function FooterBlocks(config: ReportConfig, clock: Clock): seq<Block> {
    [ Line(Run(("This report was " + "generated on ") + clock.shortDate + " for " + config.companyName, false, true, None, 20)),
      Line(Run("Report Type: " + config.reportType + " | Assessment: " + config.assessmentType, false, true, None, 20)) ]
  }

  /** Everything before the first vulnerability section. */
  function Preamble(data: ExcelData, config: ReportConfig, clock: Clock): seq<Block> {
    TitleBlocks(config, clock) + SummaryBlocks(config, |data.vulnerabilities|) + ScopeBlocks(data.scope) +
    [VulnerabilitiesHeading(|data.vulnerabilities|)]
  }

  /** Everything after the last vulnerability section. */
  function Closing(data: ExcelData, config: ReportConfig, clock: Clock): seq<Block> {
    ObservationBlocks(data.observations) + RecommendationBlocks(config) + FooterBlocks(config, clock)
  }

  /** The whole report `createWordDocument` assembles. */
  function Report(data: ExcelData, fields: seq<FieldData>, images: seq<PoCImage>, config: ReportConfig,
                  clock: Clock, decodes: string -> bool): seq<Block>
  {
    Preamble(data, config, clock) +
    VulnerabilitySections(data.vulnerabilities, |data.vulnerabilities|, Included(fields), RolesOf(Included(fields)),
                          images, decodes) +
    Closing(data, config, clock)
  }

  /** The numbered paragraphs of the scope or observation rows, pushed one
      row at a time. */
  method NumberRows(rows: seq<Row>) returns (bs: seq<Block>)
    ensures bs == NumberedRows(rows)
  {
    bs := [];
    var k := 0;
    while k < |rows|
      invariant 0 <= k <= |rows|
      invariant bs == NumberedRows(rows[..k])
    {
      bs := bs + [NumberedRow(k, rows[k])];
      assert rows[..k + 1][..k] == rows[..k];
      k := k + 1;
    }
    assert rows[..k] == rows;
  }

  /** A scope or observation section: the heading, then the numbered rows. */
  method BuildNumberedSection(title: string, rows: seq<Row>) returns (bs: seq<Block>)
    ensures bs == NumberedSection(title, rows)
  {
    bs := [];
    if |rows| > 0 {
      var numbered := NumberRows(rows);
      bs := [HeadingBlock(title, 28, Heading1)] + numbered;
    }
  }

  /** The inner loop over the included fields. */
  method FieldParagraphs(included: seq<FieldData>, vuln: Row, roles: Roles) returns (bs: seq<Block>)
    ensures bs == FieldBlocks(included, vuln, roles)
  {
    bs := [];
    var j := 0;
    while j < |included|
      invariant 0 <= j <= |included|
      invariant bs == FieldBlocks(included[..j], vuln, roles)
    {
      var field := included[j];
      if !(SameNameAs(roles.name, field.name) || SameNameAs(roles.severity, field.name) ||
           SameNameAs(roles.status, field.name)) {
        bs := bs + [Line(BoldRun(field.name, 24)), Line(PlainRun(CellText(vuln, field.name), 22))];
      }
      assert included[..j + 1][..j] == included[..j];
      j := j + 1;
    }
    assert included[..j] == included;
  }

  /** The inner loop over the images of one row. */
  method EvidenceParagraphs(matching: seq<PoCImage>, caption: string, decodes: string -> bool)
    returns (bs: seq<Block>)
    ensures bs == EvidenceFor(matching, caption, decodes)
  {
    bs := [];
    var k := 0;
    while k < |matching|
      invariant 0 <= k <= |matching|
      invariant bs == EvidenceFor(matching[..k], caption, decodes)
    {
      var image := matching[k];
      if decodes(image.dataUrl) {
        bs := bs + [Picture(image.dataUrl, 500, 300), Line(Run("Evidence for: " + caption, false, true, None, 20))];
      } else {
        bs := bs + [ImageErrorMarker];
      }
      assert matching[..k + 1][..k] == matching[..k];
      k := k + 1;
    }
    assert matching[..k] == matching;
  }

  /** The evidence of one row: the label and the blocks of every image
      tagged with the row's name. */
  method EvidenceSection(vuln: Row, roles: Roles, images: seq<PoCImage>, decodes: string -> bool)
    returns (bs: seq<Block>)
    ensures bs == EvidenceBlocks(vuln, roles, images, decodes)
  {
    bs := [];
    if roles.name.Some? {
      var vulnName := Get(vuln, roles.name.value.name);
      var matching := ImagesFor(images, vulnName);
      if |matching| > 0 {
        var pictures := EvidenceParagraphs(matching, ToStr(vulnName), decodes);
        bs := [ProofOfConceptLabel] + pictures;
      }
    }
  }

  /** One pass of the loop over the rows. */
  method VulnerabilitySection(index: nat, count: nat, vuln: Row, included: seq<FieldData>, roles: Roles,
                              images: seq<PoCImage>, decodes: string -> bool) returns (bs: seq<Block>)
    ensures bs == VulnerabilityBlocks(index, count, vuln, included, roles, images, decodes)
  {
    var others := FieldParagraphs(included, vuln, roles);
    var evidence := EvidenceSection(vuln, roles, images, decodes);
    bs := NameHeading(index, vuln, roles) +
          (SeverityBlocks(vuln, roles) + StatusBlocks(vuln, roles) + others + evidence) +
          SeparatorBlocks(index, count);
  }

  /** `createWordDocument`: pushes the blocks of the report in order, with a
      loop over the rows. */
  method CreateWordDocument(data: ExcelData, fields: seq<FieldData>, images: seq<PoCImage>,
                            config: ReportConfig, clock: Clock, decodes: string -> bool)
    returns (children: seq<Block>)
    ensures children == Report(data, fields, images, config, clock, decodes)
  {
    var included := Included(fields);
    var rows := data.vulnerabilities;
    var scope := BuildNumberedSection("Assessment Scope", data.scope);
    var preamble := TitleBlocks(config, clock) + SummaryBlocks(config, |rows|) + scope + [VulnerabilitiesHeading(|rows|)];
    assert preamble == Preamble(data, config, clock);
    var roles := RolesOf(included);
    var sections := [];
    var i := 0;
    while i < |rows|
      invariant 0 <= i <= |rows|
      invariant sections == VulnerabilitySections(rows, i, included, roles, images, decodes)
    {
      var section := VulnerabilitySection(i, |rows|, rows[i], included, roles, images, decodes);
      assert VulnerabilitySections(rows, i + 1, included, roles, images, decodes) == sections + section;
      sections := sections + section;
      i := i + 1;
    }
    var observations := BuildNumberedSection("Additional Observations", data.observations);
    var closing := observations + RecommendationBlocks(config) + FooterBlocks(config, clock);
    assert closing == Closing(data, config, clock);
    children := preamble + sections + closing;
  }

  // ---------------------------------------------------------------------
  // Loading the template, saving the file, and the whole generation.

  /** What `fetch(templatePath)` yields: a failure before any response, or
      a response with its status and body text. */
  datatype FetchResponse =
    | NetworkError(message: string)
    | Response(ok: bool, status: nat, statusText: string, body: string)

  const LoadFailurePrefix := ("Failed to load " + "template: ")

  /** `loadTemplateContent`: the body of a successful, non-blank response;
      every failure is reported under the same prefix. */
  function LoadTemplateContent(response: FetchResponse): (r: Result<string>)
    ensures r.Ok? <==> response.Response? && response.ok && !IsBlank(response.body)
    ensures r.Ok? ==> r.value == response.body
    ensures r.Err? ==> StartsWith(r.message, LoadFailurePrefix)
    ensures response.Response? && !response.ok ==>
              r == Err(LoadFailurePrefix + "Template not found: " + NatToString(response.status) + " " + response.statusText)
  {
    var r := match response
      case NetworkError(message) => Err(LoadFailurePrefix + message)
      case Response(ok, status, statusText, body) =>
        if !ok then Err(LoadFailurePrefix + ("Template not found: " + NatToString(status) + " " + statusText))
        else if IsBlank(body) then Err(LoadFailurePrefix + "Template file is empty")
        else Ok(body);
    if r.Err? then ConcatParts(LoadFailurePrefix, r.message[|LoadFailurePrefix|..]); r else r
  }

  function SaveFailure(): string {
    ("Failed to save " + "document. ") + "Please check browser " + "permissions."
  }

  const GenerationFailurePrefix := ("Report generation " + "failed: ")

  /** The message of the first step of `generateWordReport` that fails
      (validation, then loading the template, then saving), if any. */
  function GenerationError(data: ExcelData, fields: seq<FieldData>, config: ReportConfig,
                           template: FetchResponse, saved: bool): (e: Option<string>)
    ensures e.None? <==> ValidateInputs(data, fields, config) == Pass && LoadTemplateContent(template).Ok? && saved
    ensures ValidateInputs(data, fields, config).Fail? ==> e == Some(ValidateInputs(data, fields, config).message)
    ensures ValidateInputs(data, fields, config) == Pass && LoadTemplateContent(template).Err? ==>
              e == Some(LoadTemplateContent(template).message)
    ensures ValidateInputs(data, fields, config) == Pass && LoadTemplateContent(template).Ok? && !saved ==>
              e == Some(SaveFailure())
  {
    var check := ValidateInputs(data, fields, config);
    if check.Fail? then Some(check.message)
    else
      var content := LoadTemplateContent(template);
      if content.Err? then Some(content.message)
      else if !saved then Some(SaveFailure())
      else None
  }

  /** `generateWordReport`: validate, load the template, build the document,
      name it and save it; any failure is re-thrown under one prefix.
      `template` is the fetch of the template path and `saved` whether
      packing and saving the file succeeds. Building the document has no
      effect and cannot fail, so the outcome of the three fallible steps is
      settled before it is built. */
  method GenerateWordReport(data: ExcelData, fields: seq<FieldData>, images: seq<PoCImage>,
                            config: ReportConfig, clock: Clock, decodes: string -> bool,
                            template: FetchResponse, saved: bool)
    returns (r: Result<SavedReport>)
    ensures r.Ok? <==> GenerationError(data, fields, config, template, saved).None?
    ensures r.Ok? ==> r.value == SavedReport(FileName(config, clock.isoDate), Report(data, fields, images, config, clock, decodes))
    ensures r.Err? ==> r.message == GenerationFailurePrefix + GenerationError(data, fields, config, template, saved).value
  {
    var error := GenerationError(data, fields, config, template, saved);
    if error.Some? {
      return Err(GenerationFailurePrefix + error.value);
    }
    var document := CreateWordDocument(data, fields, images, config, clock, decodes);
    r := Ok(SavedReport(FileName(config, clock.isoDate), document));
  }

  // ---------------------------------------------------------------------
  // Properties of the report.

  /** A body paragraph other than the separator line. */
  predicate BodyText(b: Block) {
    b.Paragraph? && b.heading == Normal && b != Separator
  }

  /** Body text or a picture: anything a row's fields and evidence emit. */
  predicate BodyContent(b: Block) {
    BodyText(b) || b.Picture?
  }

  /** The generic fields of a row come out as one label paragraph and one
      value paragraph each, in field order, and these are the only blocks
      of that part. */
  lemma {:induction false} FieldBlocksPairs(fields: seq<FieldData>, vuln: Row, roles: Roles)
    ensures var bs, others := FieldBlocks(fields, vuln, roles), OtherFields(fields, roles);
      |bs| == 2 * |others| &&
      (forall k :: 0 <= k < |others| ==>
         bs[2 * k] == Line(BoldRun(others[k].name, 24)) &&
         bs[2 * k + 1] == Line(PlainRun(CellText(vuln, others[k].name), 22))) &&
      forall j :: 0 <= j < |bs| ==> BodyText(bs[j])
    decreases |fields|
  {
    if |fields| > 0 {
      FieldBlocksPairs(fields[..|fields| - 1], vuln, roles);
    }
  }

  /** A field is rendered generically exactly when it is not the name,
      severity or status column. */
  lemma {:induction false} OtherFieldsMembers(fields: seq<FieldData>, roles: Roles, f: FieldData)
    ensures f in OtherFields(fields, roles) <==> f in fields && IsOtherField(f, roles)
    decreases |fields|
  {
    if |fields| > 0 {
      OtherFieldsMembers(fields[..|fields| - 1], roles, f);
      assert fields == fields[..|fields| - 1] + [fields[|fields| - 1]];
    }
  }

  /** Each image yields a picture and its caption when it decodes and one
      error marker when it does not; a failure never stops the others. */
  lemma {:induction false} EvidenceCounts(images: seq<PoCImage>, caption: string, decodes: string -> bool)
    ensures var bs := EvidenceFor(images, caption, decodes);
      |bs| == |images| + Decoded(images, decodes) &&
      Count(bs, ImageErrorMarker) == |images| - Decoded(images, decodes)
    decreases |images|
  {
    if |images| > 0 {
      var init, last := images[..|images| - 1], images[|images| - 1];
      EvidenceCounts(init, caption, decodes);
      CountConcat(EvidenceFor(init, caption, decodes), ImageBlocks(last, caption, decodes), ImageErrorMarker);
      CountZeroIff(ImageBlocks(last, caption, decodes), ImageErrorMarker);
    }
  }

  /** One picture per image that decodes, and nothing but body text and
      pictures. */
  lemma {:induction false} EvidencePictures(images: seq<PoCImage>, caption: string, decodes: string -> bool)
    ensures var bs := EvidenceFor(images, caption, decodes);
      Pictures(bs) == Decoded(images, decodes) &&
      forall j :: 0 <= j < |bs| ==> BodyContent(bs[j])
    decreases |images|
  {
    if |images| > 0 {
      var init, last := images[..|images| - 1], images[|images| - 1];
      EvidencePictures(init, caption, decodes);
      PicturesConcat(EvidenceFor(init, caption, decodes), ImageBlocks(last, caption, decodes));
      var captionLine := Line(Run("Evidence for: " + caption, false, true, None, 20));
      assert Pictures([captionLine]) == 0;
    }
  }

  lemma BodyHasNoSeparator(bs: seq<Block>)
    requires forall j :: 0 <= j < |bs| ==> BodyContent(bs[j])
    ensures Count(bs, Separator) == 0
  {
    CountZeroIff(bs, Separator);
  }

  lemma ConcatBodyContent(a: seq<Block>, b: seq<Block>)
    requires forall j :: 0 <= j < |a| ==> BodyContent(a[j])
    requires forall j :: 0 <= j < |b| ==> BodyContent(b[j])
    ensures forall j :: 0 <= j < |a + b| ==> BodyContent((a + b)[j])
  {
    forall j | |a| <= j < |a + b| ensures BodyContent((a + b)[j]) {
      assert (a + b)[j] == b[j - |a|];
    }
  }

  /** The evidence of a row is body text and pictures, one picture per
      decodable image tagged with the row's name. */
  lemma EvidenceContent(vuln: Row, roles: Roles, images: seq<PoCImage>, decodes: string -> bool)
    ensures var bs := EvidenceBlocks(vuln, roles, images, decodes);
      (forall j :: 0 <= j < |bs| ==> BodyContent(bs[j])) &&
      Pictures(bs) == if roles.name.Some? then Decoded(ImagesFor(images, Get(vuln, roles.name.value.name)), decodes) else 0
  {
    if roles.name.Some? {
      var name := Get(vuln, roles.name.value.name);
      var matching := ImagesFor(images, name);
      EvidencePictures(matching, ToStr(name), decodes);
      if |matching| > 0 {
        var pictures := EvidenceFor(matching, ToStr(name), decodes);
        PicturesConcat([ProofOfConceptLabel], pictures);
        ConcatBodyContent([ProofOfConceptLabel], pictures);
      }
    }
  }

  /** The blocks after a row's heading: its severity and status lines, its
      fields and its evidence, all of them body text or pictures. */
  lemma RowBodyContent(vuln: Row, included: seq<FieldData>, roles: Roles, images: seq<PoCImage>, decodes: string -> bool)
    ensures var body := RowBody(vuln, included, roles, images, decodes);
      forall j :: 0 <= j < |body| ==> BodyContent(body[j])
  {
    var a, b := SeverityBlocks(vuln, roles), StatusBlocks(vuln, roles);
    var c, d := FieldBlocks(included, vuln, roles), EvidenceBlocks(vuln, roles, images, decodes);
    FieldBlocksPairs(included, vuln, roles);
    EvidenceContent(vuln, roles, images, decodes);
    ConcatBodyContent(a, b);
    ConcatBodyContent(a + b, c);
    ConcatBodyContent(a + b + c, d);
  }

  /** A heading of at most one level-2 paragraph, a body of text and
      pictures and at most one separator: the heading is the only level-2
      paragraph, and the separator count is the tail's length. */
  lemma SectionShape(head: seq<Block>, body: seq<Block>, tail: seq<Block>)
    requires |head| <= 1 && (|head| == 1 ==> IsHeadingAt(head[0], Heading2))
    requires forall j :: 0 <= j < |body| ==> BodyContent(body[j])
    requires tail == [] || tail == [Separator]
    ensures var bs := head + body + tail;
      ((|bs| > 0 && IsHeadingAt(bs[0], Heading2)) <==> |head| == 1) &&
      (forall j :: 0 < j < |bs| ==> !IsHeadingAt(bs[j], Heading2)) &&
      Count(bs, Separator) == |tail|
  {
    var bs := head + body + tail;
    BodyHasNoSeparator(body);
    CountConcat(head, body, Separator);
    CountConcat(head + body, tail, Separator);
    forall j | 0 <= j < |bs| && j >= |head| ensures !IsHeadingAt(bs[j], Heading2) {
      if j < |head| + |body| {
        assert bs[j] == body[j - |head|];
      } else {
        assert bs[j] == tail[j - |head| - |body|];
      }
    }
    if |head| == 1 { assert Separator != head[0]; }
  }

  /** A row's section opens with a level-2 heading exactly when the row has
      a truthy name, and carries no other level-2 heading. */
  lemma RowHeadings(index: nat, count: nat, vuln: Row, included: seq<FieldData>, roles: Roles,
                    images: seq<PoCImage>, decodes: string -> bool)
    ensures var bs := VulnerabilityBlocks(index, count, vuln, included, roles, images, decodes);
      ((|bs| > 0 && IsHeadingAt(bs[0], Heading2)) <==> roles.name.Some? && Truthy(Get(vuln, roles.name.value.name))) &&
      (forall j :: 0 < j < |bs| ==> !IsHeadingAt(bs[j], Heading2))
  {
    RowBodyContent(vuln, included, roles, images, decodes);
    SectionShape(NameHeading(index, vuln, roles), RowBody(vuln, included, roles, images, decodes),
                 SeparatorBlocks(index, count));
  }

  /** A row's section ends with one separator line unless it is the last
      row, and has no other separator. */
  lemma RowSeparators(index: nat, count: nat, vuln: Row, included: seq<FieldData>, roles: Roles,
                      images: seq<PoCImage>, decodes: string -> bool)
    ensures Count(VulnerabilityBlocks(index, count, vuln, included, roles, images, decodes), Separator) ==
            if index < count - 1 then 1 else 0
  {
    RowBodyContent(vuln, included, roles, images, decodes);
    SectionShape(NameHeading(index, vuln, roles), RowBody(vuln, included, roles, images, decodes),
                 SeparatorBlocks(index, count));
  }

  /** Across the first `k` row sections there is one separator between
      consecutive rows and none after the last one. */
  lemma {:induction false} SeparatorCount(rows: seq<Row>, k: nat, included: seq<FieldData>, roles: Roles,
                                          images: seq<PoCImage>, decodes: string -> bool)
    requires k <= |rows|
    ensures Count(VulnerabilitySections(rows, k, included, roles, images, decodes), Separator) ==
            (if k == |rows| && k > 0 then k - 1 else k)
  {
    if k > 0 {
      var prev := VulnerabilitySections(rows, k - 1, included, roles, images, decodes);
      var row := VulnerabilityBlocks(k - 1, |rows|, rows[k - 1], included, roles, images, decodes);
      assert VulnerabilitySections(rows, k, included, roles, images, decodes) == prev + row;
      SeparatorCount(rows, k - 1, included, roles, images, decodes);
      RowSeparators(k - 1, |rows|, rows[k - 1], included, roles, images, decodes);
      CountConcat(prev, row, Separator);
    }
  }

  /** The pictures of a row are its decodable images when there is a name
      column, and there are none without one. */
  lemma RowPictures(index: nat, count: nat, vuln: Row, included: seq<FieldData>, roles: Roles,
                    images: seq<PoCImage>, decodes: string -> bool)
    ensures Pictures(VulnerabilityBlocks(index, count, vuln, included, roles, images, decodes)) ==
            if roles.name.Some? then Decoded(ImagesFor(images, Get(vuln, roles.name.value.name)), decodes) else 0
  {
    var head := NameHeading(index, vuln, roles);
    var lines := SeverityBlocks(vuln, roles) + StatusBlocks(vuln, roles);
    var fieldPart := FieldBlocks(included, vuln, roles);
    var evidence := EvidenceBlocks(vuln, roles, images, decodes);
    var tail := SeparatorBlocks(index, count);
    FieldBlocksPairs(included, vuln, roles);
    EvidenceContent(vuln, roles, images, decodes);
    NoPictures(head);
    NoPictures(lines);
    NoPictures(fieldPart);
    NoPictures(tail);
    PicturesConcat(lines, fieldPart);
    PicturesConcat(lines + fieldPart, evidence);
    PicturesConcat(head, lines + fieldPart + evidence);
    PicturesConcat(head + (lines + fieldPart + evidence), tail);
  }
}
