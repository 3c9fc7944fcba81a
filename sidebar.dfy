/** The side panel (`Sidebar`): the checks run before a report is
    generated, the disabled state of the generate buttons, the processing
    flag around a generation and the message shown when it fails. */
module Sidebar {
  import opened Common
  import opened Types
  import opened Blocks
  import DocumentGenerator

  /** The checks run before a generation, in the order they are made. */
  datatype Refusal = CompanyMissing | ExcelMissing | NoRows | NoFields | NoneSelected

  /** The alert of each refusal. */
  function RefusalAlert(r: Refusal): string {
    match r
    case CompanyMissing =>
      "❌ Company name is " + "required. Please enter " + "a company name before " +
      "generating the report."
    case ExcelMissing =>
      "❌ Excel file is " + "required. Please upload " + "an Excel file containing " +
      "vulnerability data."
    case NoRows =>
      "❌ No vulnerability data " + "found. Please ensure " + "your Excel file contains " +
      "vulnerability data in " + "the first sheet."
    case NoFields =>
      "❌ No fields detected. " + "Please ensure your Excel " + "file has proper column " + "headers."
    case NoneSelected =>
      "❌ No fields selected. " + "Please select at least " + "one field to include in " +
      "the report using the " + "Field Customization " + "panel."
  }

  /** The checks of `handleGenerateDocument`, in order: a blank company
      name, no workbook, no vulnerability rows, no fields, no included
      field. The first that holds is alerted and ends the handler. */
  function Guard(companyName: string, excelData: Option<ExcelData>, fields: seq<FieldData>): (refusal: Option<Refusal>)
    ensures refusal.None? <==>
              !IsBlank(companyName) && excelData.Some? && |excelData.value.vulnerabilities| > 0 &&
              |Included(fields)| > 0
  {
    if IsBlank(companyName) then Some(CompanyMissing)
    else if excelData.None? then Some(ExcelMissing)
    else if |excelData.value.vulnerabilities| == 0 then Some(NoRows)
    else if |fields| == 0 then Some(NoFields)
    else if |Included(fields)| == 0 then Some(NoneSelected)
    else None
  }

  /** Each check is reached only when the ones before it pass. */
  lemma {:induction false} GuardOrder(companyName: string, excelData: Option<ExcelData>, fields: seq<FieldData>)
    ensures Guard(companyName, excelData, fields) == Some(CompanyMissing) <==> IsBlank(companyName)
    ensures Guard(companyName, excelData, fields) == Some(ExcelMissing) <==> !IsBlank(companyName) && excelData.None?
    ensures Guard(companyName, excelData, fields) == Some(NoRows) <==>
              !IsBlank(companyName) && excelData.Some? && |excelData.value.vulnerabilities| == 0
    ensures Guard(companyName, excelData, fields) == Some(NoFields) <==>
              !IsBlank(companyName) && excelData.Some? && |excelData.value.vulnerabilities| > 0 && |fields| == 0
    ensures Guard(companyName, excelData, fields) == Some(NoneSelected) <==>
              !IsBlank(companyName) && excelData.Some? && |excelData.value.vulnerabilities| > 0 && |fields| > 0 &&
              |Included(fields)| == 0
  {
  }

  /** Whatever passes the panel's checks passes the checks of the report
      generator too, with any report type. */
  lemma {:induction false} GuardCoversValidation(config: ReportConfig, excelData: Option<ExcelData>,
                                                 fields: seq<FieldData>, reportType: string)
    requires Guard(config.companyName, excelData, fields).None?
    ensures DocumentGenerator.ValidateInputs(excelData.value, fields, config.(reportType := reportType)) == Pass
  {
    assert Included(fields) != [];
  }

  /** `isGenerateDisabled`. */
  predicate GenerateDisabled(excelData: Option<ExcelData>, processing: bool, fields: seq<FieldData>, companyName: string) {
    excelData.None? || processing || |Included(fields)| == 0 || IsBlank(companyName)
  }

  /** An enabled button is refused by the checks only for a workbook
      without vulnerability rows, and a disabled one, when not busy, would
      be refused by them. */
  lemma {:induction false} DisabledAgreesWithGuard(excelData: Option<ExcelData>, processing: bool,
                                                   fields: seq<FieldData>, companyName: string)
    ensures !GenerateDisabled(excelData, processing, fields, companyName) ==>
              (Guard(companyName, excelData, fields).Some? <==> |excelData.value.vulnerabilities| == 0)
    ensures GenerateDisabled(excelData, processing, fields, companyName) && !processing ==>
              Guard(companyName, excelData, fields).Some?
    ensures Guard(companyName, excelData, fields).None? && !processing ==>
              !GenerateDisabled(excelData, processing, fields, companyName)
  {
  }

  function TemplateMissing(templatePath: string): string {
    "Template file not found" + ". Please ensure the " + "template exists at the " + "expected location.\n\n" +
    "Template: " + templatePath
  }
  function TemplateUnloadable(): string {
    "Failed to load template " + "file. Please check:\n• " + "Template file exists\n• " +
    "File is not corrupted\n" + "• Network connection is " + "stable"
  }
  function GenerationTrouble(message: string): string {
    "Document generation " + "error: " + message + "\n\nThis may be due to:\n" + "• Template format issues" +
    "\n• Missing placeholders" + "\n• Data formatting " + "problems"
  }

  /** The message for a failed generation, chosen by what the error's text
      contains: a missing template, a template that did not load, a failed
      document build, or else the error's own text. */
  function ErrorMessage(error: string, templatePath: string): (m: string)
    ensures Contains(error, "Template not found") ==> m == TemplateMissing(templatePath)
    ensures !Contains(error, "Template not found") && Contains(error, "Failed to load template") ==>
              m == TemplateUnloadable()
    ensures (!Contains(error, "Template not found") && !Contains(error, "Failed to load template") &&
             Contains(error, "Document generation failed")) ==> m == GenerationTrouble(error)
    ensures (!Contains(error, "Template not found") && !Contains(error, "Failed to load template") &&
             !Contains(error, "Document generation failed")) ==> m == error
  {
    if Contains(error, "Template not found") then TemplateMissing(templatePath)
    else if Contains(error, "Failed to load template") then TemplateUnloadable()
    else if Contains(error, "Document generation failed") then GenerationTrouble(error)
    else error
  }

  /** The alert of a failed generation. */
  function FailureAlert(message: string): (a: string)
    ensures StartsWith(a, "❌ Report Generation " + "Failed\n\n")
  {
    ("❌ Report Generation " + "Failed\n\n") + (message + "\n\nPlease check:\n• All " +
    "required fields are " + "filled\n• Excel file " + "contains valid data\n• " + "Template files are " +
    "available\n• Browser " + "allows downloads\n\n" + "Check the browser " + "console for detailed " +
    "technical information.")
  }

  /** The alert of a successful generation. */
  function SuccessAlert(reportType: string, config: ReportConfig, vulnerabilities: nat, images: nat): (a: string)
    ensures StartsWith(a, "✅ " + reportType)
  {
    ("✅ " + reportType) + (" Report Generated " + "Successfully!\n\nThe " + "report has been " +
    "downloaded to your " + "Downloads folder.\n\n" + "Report Details:\n• " + "Company: " + config.companyName +
    "\n• Assessment: " + config.assessmentType + "\n• Vulnerabilities: " + NatToString(vulnerabilities) +
    "\n• PoC Images: " + NatToString(images))
  }

  /** An alert the panel shows: a refused check, a saved report, or a
      failed generation with the error's text and the template path. */
  datatype Alert =
    | Refused(refusal: Refusal)
    | Succeeded(reportType: string, config: ReportConfig, vulnerabilities: nat, images: nat)
    | Failed(error: string, templatePath: string)

  /** The text of an alert. */
  function AlertText(a: Alert): string {
    match a
    case Refused(refusal) => RefusalAlert(refusal)
    case Succeeded(reportType, config, vulnerabilities, images) => SuccessAlert(reportType, config, vulnerabilities, images)
    case Failed(error, templatePath) => FailureAlert(ErrorMessage(error, templatePath))
  }

  /** The alert closing a generation: the success alert for a saved
      report with the workbook's and the images' counts, and otherwise the
      failure alert for the error at the template path of the button's
      report type. */
  function GenerationAlert(reportType: string, config: ReportConfig, data: ExcelData, images: seq<PoCImage>,
                           r: Result<SavedReport>): (a: Alert)
    ensures a.Succeeded? <==> r.Ok?
    ensures r.Ok? ==> a == Succeeded(reportType, config, |data.vulnerabilities|, |images|)
    ensures r.Err? ==> a == Failed(r.message, DocumentGenerator.TemplatePath(config.assessmentType, reportType))
  {
    if r.Ok? then Succeeded(reportType, config, |data.vulnerabilities|, |images|)
    else Failed(r.message, DocumentGenerator.TemplatePath(config.assessmentType, reportType))
  }

  /** A template answered with an error status is reported as a missing
      template at the path of the chosen report type. */
  lemma {:induction false} MissingTemplateMessage(status: nat, statusText: string, templatePath: string)
    ensures ErrorMessage(DocumentGenerator.GenerationFailurePrefix +
                         (DocumentGenerator.LoadFailurePrefix + ("Template not found: " + NatToString(status) + " " + statusText)),
                         templatePath) == TemplateMissing(templatePath)
  {
    var rest := NatToString(status) + " " + statusText;
    var t := "Template not found: " + NatToString(status) + " " + statusText;
    assert t == "Template not found" + (": " + rest);
    assert StartsWith(t, "Template not found");
    assert Contains(t, "Template not found");
    ContainsRight(DocumentGenerator.LoadFailurePrefix, t, "Template not found");
    ContainsRight(DocumentGenerator.GenerationFailurePrefix, DocumentGenerator.LoadFailurePrefix + t, "Template not found");
  }

  /** What the panel keeps: the processing flag and the alert shown last. */
  class Panel {
    var processing: bool
    var alert: Option<Alert>

    constructor()
      ensures !processing && alert == None
    {
      processing := false;
      alert := None;
    }

    /** The generation started once the checks pass, run while the flag is
        set: the report, named and built for the button's report type, is
        saved exactly when the template loads and the save succeeds; the
        returned alert closes it. */
    method Generate(reportType: string, config: ReportConfig, data: ExcelData, fields: seq<FieldData>,
                    images: seq<PoCImage>, clock: Clock, decodes: string -> bool,
                    template: DocumentGenerator.FetchResponse, saveSucceeds: bool)
      returns (r: Result<SavedReport>, shown: Alert)
      requires processing
      requires Guard(config.companyName, Some(data), fields).None?
      ensures r.Ok? <==> saveSucceeds && DocumentGenerator.LoadTemplateContent(template).Ok?
      ensures r.Ok? ==>
                r.value == SavedReport(DocumentGenerator.FileName(config.(reportType := reportType), clock.isoDate),
                                       DocumentGenerator.Report(data, fields, images, config.(reportType := reportType), clock, decodes))
      ensures r.Err? ==>
                r.message == DocumentGenerator.GenerationFailurePrefix +
                  DocumentGenerator.GenerationError(data, fields, config.(reportType := reportType), template, saveSucceeds).value
      ensures shown == GenerationAlert(reportType, config, data, images, r)
    {
      var used := config.(reportType := reportType);
      GuardCoversValidation(config, Some(data), fields, reportType);
      r := DocumentGenerator.GenerateWordReport(data, fields, images, used, clock, decodes, template, saveSucceeds);
      shown := GenerationAlert(reportType, config, data, images, r);
    }

    /** `handleGenerateDocument(type)`: a refused check only alerts; past
        the checks the flag is set for the generation and cleared after it,
        whatever its outcome. `template` and `saveSucceeds` stand for the
        template fetch and the file save. The outcome of the generation, if
        one is started, is returned. */
    method HandleGenerateDocument(reportType: string, config: ReportConfig, excelData: Option<ExcelData>,
                                  fields: seq<FieldData>, images: seq<PoCImage>, clock: Clock,
                                  decodes: string -> bool, template: DocumentGenerator.FetchResponse,
                                  saveSucceeds: bool)
      returns (outcome: Option<Result<SavedReport>>)
      modifies this
      ensures outcome.None? <==> Guard(config.companyName, excelData, fields).Some?
      ensures outcome.None? ==>
                processing == old(processing) &&
                alert == Some(Refused(Guard(config.companyName, excelData, fields).value))
      ensures outcome.Some? ==>
                !processing && alert == Some(GenerationAlert(reportType, config, excelData.value, images, outcome.value))
      ensures outcome.Some? ==>
                (outcome.value.Ok? <==> saveSucceeds && DocumentGenerator.LoadTemplateContent(template).Ok?)
      ensures outcome.Some? && outcome.value.Ok? ==>
                outcome.value.value == SavedReport(DocumentGenerator.FileName(config.(reportType := reportType), clock.isoDate),
                                                   DocumentGenerator.Report(excelData.value, fields, images,
                                                                            config.(reportType := reportType), clock, decodes))
    {
      var check := Guard(config.companyName, excelData, fields);
      if check.Some? {
        alert := Some(Refused(check.value));
        return None;
      }
      processing := true;
      var r, shown := Generate(reportType, config, excelData.value, fields, images, clock, decodes, template, saveSucceeds);
      alert := Some(shown);
      processing := false;
      outcome := Some(r);
    }
  }
}
