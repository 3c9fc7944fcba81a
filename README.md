# Vulnerability report generator — Dafny model

The system turns a penetration-test spreadsheet into a vulnerability assessment
report. The user uploads an Excel workbook. Its first sheet holds one row per
vulnerability. Optional "Observations" and "Scope" sheets hold extra rows.
The column headers become a field list. The user can reorder that list, remove
fields and toggle whether each one is included. A step-by-step wizard attaches
proof-of-concept images to each vulnerability. A preview panel shows the first
rows. A template library points at the GT and CERT-In Word templates for eight
assessment types. The sidebar collects the company and assessment details and
starts generation.

Three report builders exist:

- `documentGenerator` builds the full Word report: title page, executive
  summary, scope, one section per vulnerability (name heading, coloured severity
  and status, the other included fields, evidence images), observations,
  recommendations and footer. It first validates the inputs, loads the template
  and saves the file.
- `wordGenerator` is an older, simpler builder. It puts a page break between
  vulnerabilities and fails when a severity or status cell is not text.
- `templateProcessor` renders the same data as plain text and keeps a bounded
  report history in browser storage.

The model is organised as follows:

- `types.dfy` holds the records: fields, images, configuration, history items
  and the spreadsheet data.
- `common.dfy` holds the cell values and their JavaScript truthiness, plus the
  string helpers these builders rely on.
- `field_roles.dfy` holds how a column is recognised as the name, severity or
  status column.
- `blocks.dfy` holds a document tree of paragraphs, pictures and page breaks.
- One module per core file follows. `App.AppState`, `ImageWizard.Wizard`,
  `FileUploader.Uploader`, `TemplateManager.TemplateManagerState`,
  `Sidebar.Panel` and `TemplateProcessor.HistoryStore` are classes. Their fields
  are the React state or the storage they update. Their methods are the event
  handlers.

Each builder loop is a method proved equal to a specification function. Lemmas
about those functions state what each report contains.

Long message texts are written as concatenations of short literals. Each
concatenation is the same string as the source's message.

## Model

A row for a specification function without a contract of its own says what
the function defines; the members beside it state and prove its properties.

| member | source | states |
|---|---|---|
| Types.Included | project/src/utils/documentGenerator.ts:51 | Only included fields are kept, and never more fields than were given |
| Types.IncludedIdempotent | project/src/utils/documentGenerator.ts:51 | Filtering the included fields a second time changes nothing |
| Types.IncludedEmptyIff | project/src/utils/documentGenerator.ts:51-53 | The included list is empty exactly when no field is marked included |
| Types.ImagesFor | project/src/utils/documentGenerator.ts:340 | Every image kept for a vulnerability carries that vulnerability's name |
| Types.ImagesForMembers | project/src/utils/documentGenerator.ts:340 | An image is kept exactly when it is in the list and its tag equals the name |
| Types.ImagesForConcat | project/src/utils/documentGenerator.ts:340 | The name filter keeps upload order: filtering two lists joined is joining the filtered lists |
| Common.Sanitize | project/src/utils/documentGenerator.ts:627 | Same length; each ASCII letter or digit is kept in place and every other character becomes `_` |
| Common.SanitizeSafe | project/src/utils/documentGenerator.ts:627-629 | A sanitised string holds only letters, digits and underscores, and sanitising it again changes nothing |
| Common.BlankIffAllSpace | project/src/utils/documentGenerator.ts:56 | A company name counts as blank exactly when every character is whitespace |
| Common.Truthy | project/src/utils/documentGenerator.ts:236 | JavaScript truthiness of a cell: non-empty text or a non-zero number |
| Common.Or | project/src/utils/documentGenerator.ts:312 | `v || fallback`: the value itself when truthy, the fallback otherwise |
| Common.Get | project/src/utils/documentGenerator.ts:312 | `row[key]`: the first entry with that key, or undefined |
| Common.Lower | project/src/utils/documentGenerator.ts:585 | Same length, each ASCII capital lowered and every other character kept |
| Common.Trim | project/src/utils/documentGenerator.ts:56 | `s.trim()`: leading and trailing whitespace removed |
| Common.IsBlank | project/src/utils/documentGenerator.ts:56 | Nothing left after trimming |
| Common.ToStr | project/src/utils/documentGenerator.ts:328 | The text of a cell: the text itself, a number in decimal, or "undefined" |
| FieldRoles.FindRole | project/src/utils/documentGenerator.ts:226-229 | The first field whose lower-cased name contains the role's words ("vulnerability" and "name", "severity", "status"); None exactly when no field has them |
| FieldRoles.FindIncludedRole | project/src/utils/templateProcessor.ts:181-184 | A field that is found is in the list, is included and has the role |
| FieldRoles.FindRoleInIncluded | project/src/utils/documentGenerator.ts:226-229 | Searching the included list gives the same field as searching all fields for the first included one with the role |
| DocumentGenerator.ValidateInputs | project/src/utils/documentGenerator.ts:42-59 | Passes exactly when there are rows, fields, an included field and a non-blank company name; otherwise fails with the first check's message, in the order rows, fields, selection, company |
| DocumentGenerator.SeverityColor | project/src/utils/documentGenerator.ts:584-598 | Critical, high, medium and low in any case give 800000, FF0000, FF8C00 and 228B22; every other label gives black; each colour appears exactly for its label |
| DocumentGenerator.StatusColor | project/src/utils/documentGenerator.ts:600-603 | Red exactly for "open" in any case, green for everything else |
| DocumentGenerator.TypeFolder | project/src/utils/documentGenerator.ts:636-648 | A known assessment type maps to its folder from the eight-entry table; any other type maps to web_blackbox |
| DocumentGenerator.PrefixesDiffer | project/src/utils/documentGenerator.ts:647-650 | A GT template path is never a CERT-In template path, and the reverse |
| DocumentGenerator.TemplatePath | project/src/utils/documentGenerator.ts:635-651 | The path is under /sample_templates/gt/ exactly when the report type lower-cases to "gt", otherwise under /sample_templates/certin/; it ends in the type's folder and template.docx, and its length pins the middle to that folder |
| DocumentGenerator.FileName | project/src/utils/documentGenerator.ts:625-632 | The name starts with the sanitised company, assessment type and report type joined by `_` and then `_Report_`, ends with `_Report_<date>.docx`, and is exactly 15 characters longer than those three inputs and the date together, so nothing else is in it |
| DocumentGenerator.NumberedRows | project/src/utils/documentGenerator.ts:190-207 | One paragraph per scope or observation row |
| DocumentGenerator.TitleBlocks | project/src/utils/documentGenerator.ts:98-148 | The company name as title, "<type> Security Assessment Report", the report type and the long date |
| DocumentGenerator.SummaryBlocks | project/src/utils/documentGenerator.ts:150-172 | The "Executive Summary" heading and a paragraph naming the lower-cased type, the company, the standard followed (CERT-In guidelines for a CERT-In report) and the row count |
| DocumentGenerator.NumberedRowsAt | project/src/utils/documentGenerator.ts:190-207 | Paragraph i holds row i, numbered i+1, with that row's non-blank entries |
| DocumentGenerator.NumberRows | project/src/utils/documentGenerator.ts:190-207 | The loop builds exactly the numbered paragraphs of the rows |
| DocumentGenerator.BuildNumberedSection | project/src/utils/documentGenerator.ts:175-208 | The scope and observations sections: a heading followed by the numbered rows, and nothing at all for an empty sheet |
| DocumentGenerator.FieldParagraphs | project/src/utils/documentGenerator.ts:305-335 | The loop over included fields builds exactly the generic field blocks |
| DocumentGenerator.FieldBlocksPairs | project/src/utils/documentGenerator.ts:305-335 | Two body paragraphs per generic field, in field order: the bold name at size 24, then the cell text (N/A when falsy) at size 22 |
| DocumentGenerator.OtherFieldsMembers | project/src/utils/documentGenerator.ts:305-310 | A field is rendered generically exactly when it is in the list and is not the name, severity or status column |
| DocumentGenerator.EvidenceParagraphs | project/src/utils/documentGenerator.ts:356-402 | The image loop builds exactly the evidence blocks of the matching images |
| DocumentGenerator.EvidenceCounts | project/src/utils/documentGenerator.ts:356-402 | There is a caption per image plus a picture per decodable image, and exactly one error marker per image that fails to decode |
| DocumentGenerator.EvidencePictures | project/src/utils/documentGenerator.ts:356-386 | The evidence holds one picture per decodable image and only body content |
| DocumentGenerator.EvidenceSection | project/src/utils/documentGenerator.ts:338-404 | Builds exactly the evidence part of a vulnerability section |
| DocumentGenerator.EvidenceContent | project/src/utils/documentGenerator.ts:338-404 | Evidence pictures are the decodable images tagged with this row's name; there are none when no name column exists |
| DocumentGenerator.NameHeading | project/src/utils/documentGenerator.ts:235-250 | A level-2 heading "{i+1}. {name}" when a name column exists and the row's cell is truthy, otherwise nothing |
| DocumentGenerator.SeverityBlocks | project/src/utils/documentGenerator.ts:256-278 | The labelled severity in its colour when a severity column exists and the cell is truthy, otherwise nothing |
| DocumentGenerator.StatusBlocks | project/src/utils/documentGenerator.ts:280-302 | The labelled status in its colour when a status column exists and the cell is truthy, otherwise nothing |
| DocumentGenerator.FieldBlocks | project/src/utils/documentGenerator.ts:304-335 | The bold name and the value (N/A when falsy) of each included field other than the role columns, in order |
| DocumentGenerator.EvidenceBlocks | project/src/utils/documentGenerator.ts:337-404 | With a name column and matching images, the "Proof of Concept" label followed by each image's blocks, otherwise nothing |
| DocumentGenerator.SeparatorBlocks | project/src/utils/documentGenerator.ts:406-419 | A line of 80 box-drawing dashes after every section but the last |
| DocumentGenerator.RowBody | project/src/utils/documentGenerator.ts:252-404 | The severity, status, generic fields and evidence of one row, in that order |
| DocumentGenerator.VulnerabilityBlocks | project/src/utils/documentGenerator.ts:232-420 | One row's section: heading, body, separator |
| DocumentGenerator.RecommendationBlocks | project/src/utils/documentGenerator.ts:458-537 | The heading, the introduction naming the lower-cased assessment type, and the three titled action lists |
| DocumentGenerator.FooterBlocks | project/src/utils/documentGenerator.ts:539-562 | The italic generation line with the short date and company, then the report type and assessment line |
| DocumentGenerator.Report | project/src/utils/documentGenerator.ts:86-582 | The whole report: preamble, the section of every row in row order, closing; its contents are stated by the lemmas above and by CreateWordDocument |
| DocumentGenerator.VulnerabilitySection | project/src/utils/documentGenerator.ts:232-420 | Builds exactly the section of one vulnerability |
| DocumentGenerator.RowHeadings | project/src/utils/documentGenerator.ts:236-250 | A section opens with a level-2 heading exactly when a name column exists and the row's name is truthy; no other level-2 heading appears in it |
| DocumentGenerator.RowSeparators | project/src/utils/documentGenerator.ts:407-419 | A section ends with one separator line unless it is the last vulnerability |
| DocumentGenerator.SeparatorCount | project/src/utils/documentGenerator.ts:232-419 | n vulnerabilities give n-1 separators |
| DocumentGenerator.RowPictures | project/src/utils/documentGenerator.ts:338-404 | A section's pictures are exactly its decodable evidence images |
| DocumentGenerator.CreateWordDocument | project/src/utils/documentGenerator.ts:86-582 | The built children are the title, summary, scope, vulnerability sections, observations, recommendations and footer of the report specification |
| DocumentGenerator.LoadTemplateContent | project/src/utils/documentGenerator.ts:61-84 | Succeeds exactly for an OK, non-blank response and returns its body; every failure starts "Failed to load template: "; a non-OK status gives "Template not found: status text" |
| DocumentGenerator.GenerationError | project/src/utils/documentGenerator.ts:11-40 | No error exactly when validation passes, the template loads and the save succeeds; otherwise the first failing step's message |
| DocumentGenerator.GenerateWordReport | project/src/utils/documentGenerator.ts:11-40 | Succeeds exactly when no step fails, returning the file name and the full report; otherwise the error is "Report generation failed: " followed by the first failure |
| WordGenerator.SeverityColor | project/src/utils/wordGenerator.ts:5-19 | Critical, high, medium and low in any case give 800000, FF0000, DAA520 and 90EE90; every other label gives black |
| WordGenerator.StatusColor | project/src/utils/wordGenerator.ts:21-24 | Red exactly for "open" in any case, light green otherwise |
| WordGenerator.RoleValue | project/src/utils/wordGenerator.ts:171-174 | The cell of the role's column, or undefined when no column has the role |
| WordGenerator.SeverityRuns | project/src/utils/wordGenerator.ts:199-216 | No runs for a falsy severity, an error for a truthy non-text one, otherwise the bold label and the value in its colour |
| WordGenerator.StatusBlocks | project/src/utils/wordGenerator.ts:223-246 | No paragraph for a falsy status, an error for a truthy non-text one, otherwise the labelled status in its colour |
| WordGenerator.NameBlocks | project/src/utils/wordGenerator.ts:176-195 | One unnumbered level-2 heading exactly when the name is truthy |
| WordGenerator.RatingBlocks | project/src/utils/wordGenerator.ts:197-248 | Fails exactly when a truthy severity or status is not text (lower-casing it throws); otherwise it is a severity paragraph when either is truthy (empty when only status is), plus a status paragraph when status is truthy |
| WordGenerator.RowBlocks | project/src/utils/wordGenerator.ts:158-373 | A vulnerability fails to render exactly when its rating cells are bad |
| WordGenerator.RowBody | project/src/utils/wordGenerator.ts:176-373 | A row's name heading, rating, shown fields and evidence, in that order |
| WordGenerator.RowsErrorSticks | project/src/utils/wordGenerator.ts:158-373 | Once a row has failed, the rows after it do not change the outcome (the first error is the one reported) |
| WordGenerator.SomeBadRatingIff | project/src/utils/wordGenerator.ts:197-247 | Some row among the first k has a bad rating exactly when the recursive check says so |
| WordGenerator.RowsErrIff | project/src/utils/wordGenerator.ts:158-373 | The row loop fails exactly when some row has a bad rating |
| WordGenerator.WordDocumentErrors | project/src/utils/wordGenerator.ts:36-61 | With no included field or no row the result is the guard error; otherwise generation fails exactly when some row has a bad rating |
| WordGenerator.ShownFieldParagraphs | project/src/utils/wordGenerator.ts:251-291 | The field loop builds exactly the generic field blocks |
| WordGenerator.ShownFieldPairs | project/src/utils/wordGenerator.ts:251-291 | Two paragraphs per shown field, in field order: the bold name at size 24, then the cell text at size 20 |
| WordGenerator.ShownFieldsMembers | project/src/utils/wordGenerator.ts:251-259 | A field is shown generically exactly when it is listed and is not a role column |
| WordGenerator.EvidenceParagraphs | project/src/utils/wordGenerator.ts:316-371 | The image loop builds exactly the evidence blocks |
| WordGenerator.EvidenceCounts | project/src/utils/wordGenerator.ts:316-371 | A caption per image, a picture per decodable image, and one error marker per image that fails |
| WordGenerator.EvidenceSection | project/src/utils/wordGenerator.ts:294-373 | Builds exactly the evidence part of a row |
| WordGenerator.NoPageBreaks | project/src/utils/wordGenerator.ts:251-291 | Field paragraphs contain no page break |
| WordGenerator.NoPageBreakInEvidence | project/src/utils/wordGenerator.ts:316-371 | Evidence blocks contain no page break |
| WordGenerator.RowBodyNoBreak | project/src/utils/wordGenerator.ts:176-373 | The body of a row contains no page break |
| WordGenerator.RowBodyPictures | project/src/utils/wordGenerator.ts:294-373 | A row body's pictures are its decodable matching images when the name is truthy, and none otherwise |
| WordGenerator.RowSection | project/src/utils/wordGenerator.ts:158-373 | Builds exactly one row's blocks or its error |
| WordGenerator.RowPageBreaks | project/src/utils/wordGenerator.ts:162-168 | Every row except the first starts with a page break, and the row holds no other page break |
| WordGenerator.RowsPageBreaks | project/src/utils/wordGenerator.ts:158-373 | k rendered rows hold k-1 page breaks |
| WordGenerator.RowPictures | project/src/utils/wordGenerator.ts:294-373 | A row's pictures are exactly the decodable images tagged with its truthy name |
| WordGenerator.GenerateDocumentContent | project/src/utils/wordGenerator.ts:63-399 | Builds exactly the document content or the first row error |
| WordGenerator.DocumentContent | project/src/utils/wordGenerator.ts:63-399 | The title, the scope heading, the vulnerabilities heading, the rows and the observations heading, or the first row error |
| WordGenerator.FileName | project/src/utils/wordGenerator.ts:60 | The name starts with vulnerability_report_, the lower-cased report type and `_`, ends with `_<date>.docx`, and is exactly 27 characters longer than the report type and the date together, so nothing else is in it |
| WordGenerator.GenerateWordDocument | project/src/utils/wordGenerator.ts:26-61 | Builds exactly the saved document or its error |
| WordGenerator.WordDocument | project/src/utils/wordGenerator.ts:26-61 | The guard error with no included field or no row; otherwise the content of the included fields under the builder's file name |
| TemplateProcessor.ValidateTemplateInputs | project/src/utils/templateProcessor.ts:27-42 | Passes exactly when there are rows, fields, a non-blank company and an included field; otherwise fails with the first message in the order rows, fields, company, selection |
| TemplateProcessor.ValidationAgreesOnAcceptance | project/src/utils/templateProcessor.ts:27-42 | The text builder and the Word builder accept exactly the same inputs |
| TemplateProcessor.ValidationOrderDiffers | project/src/utils/templateProcessor.ts:35-42 | For every input with rows and fields but none included and a blank company, the text builder reports the company while the Word builder reports the selection, and the two messages differ |
| TemplateProcessor.FileName | project/src/utils/templateProcessor.ts:151-156 | The name is the sanitised company, the sanitised assessment type, the raw report type and the date, joined by `_` and ending `.docx` |
| TemplateProcessor.FileNamesDiffer | project/src/utils/templateProcessor.ts:151-156 | For the same inputs the Word builder's name is seven characters longer (`_Report`), so it never equals the text builder's name |
| TemplateProcessor.NameLines | project/src/utils/templateProcessor.ts:186-189 | Empty exactly for a falsy name; a text name is followed by an `=` underline of its length |
| TemplateProcessor.VulnerabilityText | project/src/utils/templateProcessor.ts:177-212 | A row's text: its number, the underlined name, the field lines, the evidence lines and the dashed rule |
| TemplateProcessor.VulnerabilityTexts | project/src/utils/templateProcessor.ts:177-213 | One text block per vulnerability row |
| TemplateProcessor.VulnerabilityTextsAt | project/src/utils/templateProcessor.ts:177-213 | Block i is the text of row i at index i |
| TemplateProcessor.VulnerabilitiesStartAtOne | project/src/utils/templateProcessor.ts:177-213 | The whole vulnerability text starts with the first numbering |
| TemplateProcessor.BuildVulnerabilityText | project/src/utils/templateProcessor.ts:177-212 | The line-appending loop builds exactly the vulnerability text |
| TemplateProcessor.VulnerabilityTextFrame | project/src/utils/templateProcessor.ts:178-211 | Every vulnerability text starts with its number and ends with the horizontal rule |
| TemplateProcessor.NameUnderlined | project/src/utils/templateProcessor.ts:186-189 | With an included name column and a text name, the text starts with the number, the name and its underline |
| TemplateProcessor.NoNameLines | project/src/utils/templateProcessor.ts:178-197 | With no name column or a falsy name, the field lines follow the number directly |
| TemplateProcessor.FieldLinesConcat | project/src/utils/templateProcessor.ts:192-197 | The field lines keep field order |
| TemplateProcessor.FieldLinesMembers | project/src/utils/templateProcessor.ts:192-197 | Every listed field's line appears in the text |
| TemplateProcessor.FieldLinesEmptyIff | project/src/utils/templateProcessor.ts:192-197 | The field lines are empty exactly when no field is listed |
| TemplateProcessor.EvidenceTextIff | project/src/utils/templateProcessor.ts:200-209 | The evidence part is empty exactly when there is no name column or no image is tagged with this name |
| TemplateProcessor.EvidenceLinesMembers | project/src/utils/templateProcessor.ts:205-207 | For n images, every image line 1..n appears |
| TemplateProcessor.EntryTexts | project/src/utils/templateProcessor.ts:216-233 | One entry text per row |
| TemplateProcessor.EntryTextsAt | project/src/utils/templateProcessor.ts:216-233 | Entry text i is the text of row i |
| TemplateProcessor.EntriesText | project/src/utils/templateProcessor.ts:218-221 | The non-blank entries of a row as `key: value`, joined by a newline and three spaces |
| TemplateProcessor.RowsText | project/src/utils/templateProcessor.ts:216-233 | The numbered rows separated by blank lines, or the fallback sentence for no rows |
| TemplateProcessor.Numbered | project/src/utils/templateProcessor.ts:221-231 | Numbering keeps one text per row |
| TemplateProcessor.NumberedAt | project/src/utils/templateProcessor.ts:221-231 | Text i is prefixed with "i+1. " |
| TemplateProcessor.FirstNumbered | project/src/utils/templateProcessor.ts:221-231 | A non-empty numbered list starts with "1. " |
| TemplateProcessor.RowTextAt | project/src/utils/templateProcessor.ts:216-233 | Row i of scope or observations reads "i+1. " followed by its entries |
| TemplateProcessor.RowsTextShape | project/src/utils/templateProcessor.ts:216-233 | The fallback text appears exactly when the sheet is empty; otherwise the text starts "1. " |
| TemplateProcessor.FallbacksUnnumbered | project/src/utils/templateProcessor.ts:223-233 | Neither fallback text could be mistaken for a numbered list |
| TemplateProcessor.Recommendations | project/src/utils/templateProcessor.ts:246 | The recommendations text naming the lower-cased assessment type |
| TemplateProcessor.TemplateDataOf | project/src/utils/templateProcessor.ts:235-247 | The company (or "Company Name"), the long date, the type, and the scope, vulnerability, observation and recommendation texts |
| TemplateProcessor.PrepareTemplateData | project/src/utils/templateProcessor.ts:158-251 | Builds exactly the template data: the company (or "Company Name"), the long date, the engagement type, the scope, vulnerability and observation texts, and the recommendations |
| TemplateProcessor.KeepLatest | project/src/utils/templateProcessor.ts:274-276 | The new record goes first, the older ones follow in order, and the list is capped at the history limit |
| TemplateProcessor.NewRecord | project/src/utils/templateProcessor.ts:263-272 | The record carries the file name, its history path, the size, the configuration, the date and the clock's id |
| TemplateProcessor.WithoutIdMembers | project/src/utils/templateProcessor.ts:296 | Deleting keeps exactly the items with another id |
| TemplateProcessor.WithoutIdConcat | project/src/utils/templateProcessor.ts:296 | Deleting keeps the order of the history |
| TemplateProcessor.WithoutAbsentId | project/src/utils/templateProcessor.ts:296 | Deleting an id that is not present changes nothing |
| TemplateProcessor.SaveThenDelete | project/src/utils/templateProcessor.ts:274-296 | Saving a record with a fresh id and then deleting it restores the history, less any item the cap dropped |
| TemplateProcessor.Recorded | project/src/utils/templateProcessor.ts:261-281 | Storage that cannot be parsed is left alone; otherwise the stored list is non-empty, capped and starts with the new record |
| TemplateProcessor.StoredList | project/src/utils/templateProcessor.ts:286 | The list that parsing stored history yields, empty when nothing is stored |
| TemplateProcessor.WithoutId | project/src/utils/templateProcessor.ts:296 | The history without the items of that id |
| TemplateProcessor.HistoryStore.GetReportHistory | project/src/utils/templateProcessor.ts:284-291 | The stored list, or empty when storage is missing or cannot be parsed |
| TemplateProcessor.HistoryStore.SaveToHistory | project/src/utils/templateProcessor.ts:253-282 | Updates storage to the recorded history, and reports a failure exactly when storage cannot be parsed |
| TemplateProcessor.HistoryStore.DeleteFromHistory | project/src/utils/templateProcessor.ts:293-302 | Stores and returns the history without the id; unparseable storage gives an empty list and is left alone |
| TemplateProcessor.RenderTemplate | project/src/utils/templateProcessor.ts:17-71 | A validation failure, an empty document or a failed save gives its message, in that order; otherwise the file name and the template data of the included fields |
| TemplateProcessor.ProcessDocxTemplate | project/src/utils/templateProcessor.ts:6-99 | As RenderTemplate; only a successful save records a history item, and a failure to record history does not fail the report |
| App.SheetOrEmpty | project/src/App.tsx:42-43 | A named sheet's rows, or no rows when the workbook lacks it |
| App.FieldsFromHeaders | project/src/App.tsx:33-38 | One field per header |
| App.FieldsFromHeadersFacts | project/src/App.tsx:33-38 | Field i is named after header i, every field starts included, and the ids are distinct |
| App.AllIncluded | project/src/App.tsx:37 | When every field is included, the included list is the whole list |
| App.RemoveAt | project/src/App.tsx:62 | Removing at i drops exactly element i and shifts the rest down |
| App.InsertAt | project/src/App.tsx:63 | Inserting at i puts the element at i and shifts the rest up; past the end it appends |
| App.MovedPermutes | project/src/App.tsx:61-63 | Dragging a field permutes the list and puts the dragged field at the destination |
| App.Moved | project/src/App.tsx:61-63 | The field at the source index taken out and put back at the destination |
| App.MovedBack | project/src/App.tsx:61-63 | Dragging back from the destination to the source restores the list |
| App.IndexOfId | project/src/App.tsx:73 | The first index with this id, or None exactly when no field has it |
| App.Swapped | project/src/App.tsx:79-81 | Exchanges two positions and leaves every other position unchanged |
| App.SwappedPermutes | project/src/App.tsx:78-82 | Swapping permutes the list and swapping twice restores it |
| App.MoveField | project/src/App.tsx:72-85 | Moving up or down swaps the field with its neighbour; an unknown id, or the edge of the list, leaves the list unchanged; always a permutation |
| App.MoveUpThenDown | project/src/App.tsx:72-85 | With distinct ids, moving a field up and then down restores the list |
| App.MoveDownThenUp | project/src/App.tsx:72-85 | With distinct ids, moving a field down and then up restores the list |
| App.WithoutFieldMembers | project/src/App.tsx:68-70 | Removing keeps exactly the fields with another id |
| App.WithoutField | project/src/App.tsx:68-70 | The fields without those of that id |
| App.WithoutFieldConcat | project/src/App.tsx:68-70 | Removing keeps field order |
| App.WithoutAbsentField | project/src/App.tsx:68-70 | Removing an absent id changes nothing |
| App.Toggled | project/src/App.tsx:87-91 | Toggling keeps the number of fields |
| App.ToggledChangesOnlyTarget | project/src/App.tsx:87-91 | Only fields with that id change, and only their included flag flips |
| App.ToggledTwice | project/src/App.tsx:87-91 | Toggling twice restores the list |
| App.Vulnerabilities | project/src/App.tsx:102-116 | No vulnerabilities without data or a name column; otherwise one per row |
| App.VulnerabilitiesNamed | project/src/App.tsx:102-116 | Each vulnerability carries the row's name cell, or "Unnamed Vulnerability" when that is falsy, and no images |
| App.AppState.constructor | project/src/App.tsx:18-19 | Starts with no data and no fields |
| App.AppState.HandleExcelData | project/src/App.tsx:31-47 | A non-empty main sheet sets the data with its Observations and Scope sheets and derives the fields from the first row's keys; an empty one changes nothing |
| App.AppState.HandleDragEnd | project/src/App.tsx:49-66 | A drop outside the list or onto the same place changes nothing; otherwise the field moves from source to destination |
| App.AppState.HandleRemoveField | project/src/App.tsx:68-70 | The fields lose every field with that id; the data is unchanged |
| App.AppState.HandleMoveField | project/src/App.tsx:72-85 | The fields become the moved list; the data is unchanged |
| App.AppState.ToggleFieldInclusion | project/src/App.tsx:87-91 | The fields become the toggled list; the data is unchanged |
| ImageWizard.DroppedImages | project/src/components/ImageUploadWizard.tsx:22-37 | Every file that reads to a data URL becomes an image tagged with the current vulnerability |
| ImageWizard.DroppedCount | project/src/components/ImageUploadWizard.tsx:22-37 | Every dropped file becomes an image exactly when every file reads successfully |
| ImageWizard.PastedImages | project/src/components/ImageUploadWizard.tsx:50-71 | Pasted images are tagged with the current vulnerability and never outnumber the items |
| ImageWizard.PastedCount | project/src/components/ImageUploadWizard.tsx:50-71 | One image per clipboard item of an image type whose file reads; none exactly when no item yields one |
| ImageWizard.WithoutImageMembers | project/src/components/ImageUploadWizard.tsx:77-79 | Removing keeps exactly the images with another id |
| ImageWizard.WithoutImage | project/src/components/ImageUploadWizard.tsx:77-79 | The images without those of that id |
| ImageWizard.WithoutImageConcat | project/src/components/ImageUploadWizard.tsx:77-79 | Removing keeps upload order |
| ImageWizard.NextIndex | project/src/components/ImageUploadWizard.tsx:81-88 | Next advances the index unless it is on the last vulnerability |
| ImageWizard.BackIndex | project/src/components/ImageUploadWizard.tsx:90-94 | Back steps the index down, stopping at zero |
| ImageWizard.IndexStaysOnPage | project/src/components/ImageUploadWizard.tsx:81-94 | From the first vulnerability, any sequence of Next and Back keeps the index on a real vulnerability |
| ImageWizard.NextThenBack | project/src/components/ImageUploadWizard.tsx:81-94 | Next then Back returns to the same vulnerability when Next advanced |
| ImageWizard.Wizard.constructor | project/src/components/ImageUploadWizard.tsx:17-20 | Opens on the first vulnerability with no images; the wizard is usable exactly when the list is not empty |
| ImageWizard.Wizard.HeaderName | project/src/components/ImageUploadWizard.tsx:103-106 | The header names the current vulnerability, and fails exactly when there is no vulnerability at the current index, as with an empty list |
| ImageWizard.Wizard.CurrentImages | project/src/components/ImageUploadWizard.tsx:96 | Exactly the uploaded images tagged with the current vulnerability |
| ImageWizard.Wizard.OnDrop | project/src/components/ImageUploadWizard.tsx:22-37 | Appends the dropped images for the current vulnerability and changes nothing else |
| ImageWizard.Wizard.HandlePaste | project/src/components/ImageUploadWizard.tsx:50-71 | Appends the pasted images for the current vulnerability and changes nothing else |
| ImageWizard.Wizard.RemoveImage | project/src/components/ImageUploadWizard.tsx:77-79 | Drops the image with that id and changes nothing else |
| ImageWizard.Wizard.HandleNext | project/src/components/ImageUploadWizard.tsx:81-88 | Advances to the next vulnerability, or on the last one hands all images over and closes |
| ImageWizard.Wizard.HandleBack | project/src/components/ImageUploadWizard.tsx:90-94 | Steps back one vulnerability, stopping at the first, and keeps the images |
| PreviewPanel.SeverityClass | project/src/components/PreviewPanel.tsx:84-87 | Red, orange or yellow exactly for critical, high or medium in any case; green for everything else |
| PreviewPanel.StatusClass | project/src/components/PreviewPanel.tsx:98 | Red exactly for "open" in any case, green otherwise |
| PreviewPanel.PlainText | project/src/components/PreviewPanel.tsx:114-123 | Text over 200 characters is cut to its first 200 and marked with "..."; anything else is shown whole |
| PreviewPanel.ViewOf | project/src/components/PreviewPanel.tsx:66-126 | A name column gets the name view, then severity, then status, then plain under the field's name; the render fails exactly when a severity or status column shows a non-text value |
| PreviewPanel.ViewOfContents | project/src/components/PreviewPanel.tsx:67-123 | A name column shows "{i+1}. {value}", a severity or status column its text with the matching colour class, and any other column its value cut by PlainText, the value being the cell or N/A |
| PreviewPanel.FalsyShownAsNA | project/src/components/PreviewPanel.tsx:67 | A falsy cell is shown as N/A and always renders |
| PreviewPanel.ViewsOf | project/src/components/PreviewPanel.tsx:66-127 | One view per included field |
| PreviewPanel.ViewsOfIff | project/src/components/PreviewPanel.tsx:66-127 | The row renders exactly when every field view does, and view i is field i's view |
| PreviewPanel.ViewsOfAt | project/src/components/PreviewPanel.tsx:66-127 | In a rendered row, view i is field i's view and that view renders |
| PreviewPanel.EvidenceOf | project/src/components/PreviewPanel.tsx:130-169 | An evidence strip shows at most two thumbnails and counts the hidden rest |
| PreviewPanel.EvidenceOfMatches | project/src/components/PreviewPanel.tsx:130-169 | The strip is absent exactly when there is no name column or no matching image; otherwise it counts and shows the matching images in order |
| PreviewPanel.RowPreviews | project/src/components/PreviewPanel.tsx:64-171 | One preview per shown row, and preview i is row i's preview |
| PreviewPanel.RowPreviewsIff | project/src/components/PreviewPanel.tsx:64-171 | The rows render exactly when every row does |
| PreviewPanel.PreviewOf | project/src/components/PreviewPanel.tsx:11-210 | The placeholder appears exactly without data or fields; otherwise the previews of the first three rows, the vulnerability, field and image counts, the number of further rows, and the observation and scope counts, each shown only when there are any; the preview fails only when a shown row fails |
| PreviewPanel.PreviewRenders | project/src/components/PreviewPanel.tsx:64-171 | The preview renders exactly when each of its rows does |
| TemplateManager.CatalogTypes | project/src/components/TemplateManager.tsx:15-76 | The library lists eight distinct assessment types, all known to the report builder |
| TemplateManager.CatalogPathsAgree | project/src/components/TemplateManager.tsx:15-76 | A library entry's GT and CERT-In paths are the builder's template paths for its type |
| TemplateManager.CatalogFolders | project/src/utils/documentGenerator.ts:636-645 | The folder of each of the eight assessment types |
| TemplateManager.CatalogMatchesTemplatePath | project/src/components/TemplateManager.tsx:15-76 | Every template in the library points where the report builder looks |
| TemplateManager.WithoutCategory | project/src/components/TemplateManager.tsx:86 | Collapsing keeps exactly the other expanded categories |
| TemplateManager.ToggleCategory | project/src/components/TemplateManager.tsx:83-89 | Toggling flips whether the category is expanded and leaves the others as they were |
| TemplateManager.ToggleTwice | project/src/components/TemplateManager.tsx:83-89 | Toggling twice restores which categories are expanded |
| TemplateManager.CheckUpload | project/src/components/TemplateManager.tsx:166-181 | An upload passes exactly when it is a .docx in any case and between 1 byte and 10 MB; otherwise the first failing check's message |
| TemplateManager.ReplaceFirst | project/src/components/TemplateManager.tsx:99-101 | Replaces the first occurrence only; a string without the pattern is unchanged |
| TemplateManager.ReplaceFirstAt | project/src/components/TemplateManager.tsx:99-101 | Wherever the first occurrence of the pattern sits, the result is the text before it, then the replacement, then the text after it |
| TemplateManager.PossiblePaths | project/src/components/TemplateManager.tsx:97-102 | Four candidate paths, the given path first |
| TemplateManager.CatalogAlternatives | project/src/components/TemplateManager.tsx:97-102 | For a library path, the alternatives are the /public, ./public and relative forms |
| TemplateManager.FirstOk | project/src/components/TemplateManager.tsx:107-119 | The first candidate that answered OK; None exactly when none did |
| TemplateManager.DownloadName | project/src/components/TemplateManager.tsx:143 | The sanitised template name followed by `_template.docx`, exactly 14 characters longer than the name |
| TemplateManager.TemplateManagerState.constructor | project/src/components/TemplateManager.tsx:80-81 | Starts with Web Security expanded and nothing downloading |
| TemplateManager.TemplateManagerState.ToggleCategoryOf | project/src/components/TemplateManager.tsx:83-89 | The expanded categories become the toggled list |
| TemplateManager.DownloadAlert | project/src/components/TemplateManager.tsx:157-160 | The alert opens "Failed to download template: ", then carries the error message unchanged, then the fixed checklist |
| TemplateManager.TemplateManagerState.HandleDownload | project/src/components/TemplateManager.tsx:91-164 | Tries the paths in order up to the first OK one; none OK means "not found"; an empty body means "empty"; otherwise it downloads that body under the download name and always clears the downloading flag; a failure, and only a failure, raises DownloadAlert of its message |
| FileUploader.ProcessFailed | project/src/components/FileUploader.tsx:87 | Processing errors are prefixed with "Failed to process Excel file: " |
| FileUploader.CheckDrop | project/src/components/FileUploader.tsx:102-122 | No file, a wrong extension, too large or empty, each exactly in its case and in that order; otherwise the first accepted file is processed |
| FileUploader.Converted | project/src/components/FileUploader.tsx:39-47 | A sheet that fails to convert contributes no rows |
| FileUploader.SheetsOfKeys | project/src/components/FileUploader.tsx:38-48 | Every sheet name of the workbook is a key, and no other |
| FileUploader.SheetsOf | project/src/components/FileUploader.tsx:38-48 | Each sheet name mapped to its converted rows, a later sheet of the same name winning |
| FileUploader.SheetsOfLookup | project/src/components/FileUploader.tsx:38-48 | The last sheet of a name gives that name's rows |
| FileUploader.ThrowingSheetIsolated | project/src/components/FileUploader.tsx:38-48 | A sheet that throws leaves every other name's rows unchanged |
| FileUploader.BuildSheets | project/src/components/FileUploader.tsx:38-48 | The loop over sheets builds exactly the sheet map |
| FileUploader.MainData | project/src/components/FileUploader.tsx:51-63 | The first sheet's rows, or "no data" when it is missing or empty, or "no headers" when its first row is empty |
| FileUploader.MainDataIsFirstSheet | project/src/components/FileUploader.tsx:51-55 | The main data is the first sheet's converted rows, and a first sheet that throws means "no data" |
| FileUploader.StatsOf | project/src/components/FileUploader.tsx:73-77 | The counts of vulnerabilities, observations and scope rows, with zero for a missing sheet |
| FileUploader.AbsentSheetsCountZero | project/src/components/FileUploader.tsx:73-77 | A workbook without an Observations or Scope sheet counts zero of them |
| FileUploader.LoadOf | project/src/components/FileUploader.tsx:23-97 | Loads exactly when the file is read and its main sheet has data; a read error and a parse error each give their message |
| FileUploader.Uploader.constructor | project/src/components/FileUploader.tsx:11-14 | Starts with no file, no error, no stats and not loading |
| FileUploader.Uploader.ProcessExcelFile | project/src/components/FileUploader.tsx:16-100 | On success it records the file name and stats and hands the data over; on failure it shows the error and clears the stats; loading ends either way |
| FileUploader.Uploader.OnDrop | project/src/components/FileUploader.tsx:102-133 | No file changes nothing; a refused file shows its error; an accepted file is processed as ProcessExcelFile states |
| Sidebar.Guard | project/src/components/Sidebar.tsx:48-72 | Generation goes ahead exactly with a non-blank company, data with rows and an included field |
| Sidebar.GuardOrder | project/src/components/Sidebar.tsx:48-72 | Each refusal occurs exactly in its case, in the order company, data, rows, fields, selection |
| Sidebar.GuardCoversValidation | project/src/components/Sidebar.tsx:48-72 | Whatever the sidebar lets through, the report builder's validation accepts |
| Sidebar.DisabledAgreesWithGuard | project/src/components/Sidebar.tsx:146-147 | An enabled button can be refused only for an empty sheet, and a disabled idle button is always refused |
| Sidebar.ErrorMessage | project/src/components/Sidebar.tsx:115-127 | Template-not-found errors get the missing-template text, then load failures, then generation failures; anything else is shown as is |
| Sidebar.MissingTemplateMessage | project/src/components/Sidebar.tsx:117-119 | A builder error for a missing template is shown as the missing-template text |
| Sidebar.FailureAlert | project/src/components/Sidebar.tsx:129 | The failure alert starts with its fixed heading |
| Sidebar.SuccessAlert | project/src/components/Sidebar.tsx:110 | The success alert starts with the report type |
| Sidebar.GenerationAlert | project/src/components/Sidebar.tsx:109-129 | Success exactly when generation succeeded, quoting the counts; otherwise the failure with the builder's template path |
| Sidebar.Panel.constructor | project/src/components/Sidebar.tsx:35-36 | Starts idle with no alert |
| Sidebar.Panel.Generate | project/src/components/Sidebar.tsx:76-111 | Succeeds exactly when the template loads and the save works, with the report builder's file name and document; otherwise the builder's error; the matching alert is shown |
| Sidebar.Panel.HandleGenerateDocument | project/src/components/Sidebar.tsx:44-133 | A refusal leaves processing alone and shows its alert; otherwise it generates, shows the result's alert and ends processing |

## Left out

- Binary output is not modelled. The `Packer` serialisation, `saveAs` and the docx library's layout are left out. Documents are the block tree in `blocks.dfy`, and the outcome of saving is a boolean parameter.
- Network reads are parameters. `fetch` of templates is a response value, and image decoding is a predicate on the data URL.
- `FileReader`, the XLSX parser, `localStorage` and `JSON.parse` become parameters or values. A file read is a `ReadResult` and a workbook is a list of named sheets. Storage is a three-way `Stored` value: missing, unparsable, or a list.
- A `localStorage` write failure is not modelled, because only unparsable storage is a failure here.
- Stored JSON that parses but is not an array is treated like missing storage.
- Dates and ids (`new Date()`, `Date.now()`, `toLocaleDateString`) come from a `Clock` parameter.
- TemplateProcessor: the `createWordDocument` at templateProcessor.ts:101-149 is not modelled. Its output size is a parameter of `RenderTemplate` and `ProcessDocxTemplate`.
- TemplateProcessor.RenderTemplate: admits a document size of zero and then gives the empty-document error (templateProcessor.ts:57-59). The text `createWordDocument` builds always holds its fixed headings, so the source never reaches that branch.
- WordGenerator: roles are looked up among the included fields. The code passes the included list as `fields` at wordGenerator.ts:55, so the model follows the code and not a reading that searches all fields.
- Asynchronous reads (dropped files, pasted images, sheet conversion) are treated as finishing in list order.
- Lengths are in characters, not UTF-16 code units, and `Lower` folds ASCII letters only.
- Numbers are integers. Floats, booleans, dates and NaN cells are not modelled.
- PreviewPanel: captions, pluralised texts and styling beyond the colour classes are not modelled.
- FileUploader and ImageWizard: the dropzone's accept and maximum-size filters are not modelled. The accepted list is the input.
- Errors thrown as non-`Error` values ("Unknown error" branches) are not modelled.
- Sidebar: `handleDownloadTemplate` and `generateExcelTemplate` are not modelled. They build a sample spreadsheet outside the report path.
- Sidebar.Panel keeps only the last alert, not the sequence of alerts shown.
- App.AppState.HandleDragEnd: requires the drag source to be an index in the list, as the drag library guarantees.
- ImageWizard.Wizard: with an empty list the component's first render throws at ImageUploadWizard.tsx:105. App passes `getVulnerabilities()`, which is empty when no field has the name role (App.tsx:102-116, 186). The model accepts the list; the wizard is then not `Valid`, `HeaderName` is `None`, and the handlers, which require `Valid`, model no event after the crash.
- App: `handleImageUploadComplete`, the theme and the view state are not modelled. They store an image list or UI flags without logic.
- The error-message mapping in `Sidebar.ErrorMessage` has a "Document generation failed" branch. Messages from `generateWordReport` never reach it, because they are wrapped as "Report generation failed". The model keeps the branch as written.
