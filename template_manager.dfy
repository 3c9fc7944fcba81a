/** The template library page (`TemplateManager`): the catalogue of
    templates by category, expanding and collapsing categories, checking an
    uploaded template, and downloading a template by trying a fixed list of
    locations in turn. */
module TemplateManager {
  import opened Common
  import DocumentGenerator

  /** One assessment type and the locations of its two templates. */
  datatype Template = Template(assessmentType: string, gtTemplate: string, certInTemplate: string)

  datatype TemplateGroup = TemplateGroup(category: string, templates: seq<Template>)

  function GtPath(folder: string): string {
    "/sample_templates/gt/" + folder + "/template.docx"
  }

  function CertInPath(folder: string): string {
    "/sample_templates/certin/" + folder + "/template.docx"
  }

  function Entry(assessmentType: string, folder: string): Template {
    Template(assessmentType, GtPath(folder), CertInPath(folder))
  }

  /** `templateGroups`. */
  const TemplateGroups: seq<TemplateGroup> := [
    TemplateGroup("Web Security", [
      Entry("Web Blackbox", "web_blackbox"),
      Entry("Web Grey Box", "web_greybox"),
      Entry("API", "api")]),
    TemplateGroup("Infrastructure", [
      Entry("Network", "network"),
      Entry("Network Architecture", "network_architecture")]),
    TemplateGroup("Cloud & Configuration", [
      Entry("Config Review", "config_review"),
      Entry("CSPM", "cspm")]),
    TemplateGroup("Application Security", [
      Entry("Source Code", "source_code")])]

  /** Every template of the catalogue, in display order. */
  function AllTemplates(groups: seq<TemplateGroup>): seq<Template> {
    if |groups| == 0 then [] else groups[0].templates + AllTemplates(groups[1..])
  }

  /** The catalogue lists the eight assessment types, each once. */
  lemma {:induction false} CatalogTypes()
    ensures |AllTemplates(TemplateGroups)| == 8
    ensures forall i, j :: 0 <= i < j < 8 ==>
              AllTemplates(TemplateGroups)[i].assessmentType != AllTemplates(TemplateGroups)[j].assessmentType
    ensures forall i :: 0 <= i < 8 ==> AllTemplates(TemplateGroups)[i].assessmentType in DocumentGenerator.TypeFolders
  {
    var all := AllTemplates(TemplateGroups);
    assert AllTemplates(TemplateGroups[3..]) == TemplateGroups[3].templates + AllTemplates(TemplateGroups[4..]);
    assert all == TemplateGroups[0].templates + TemplateGroups[1].templates + TemplateGroups[2].templates +
                  TemplateGroups[3].templates;
  }

  /** Each listed template sits at the path the report generator computes
      for its assessment type and report type. */
  lemma {:induction false} CatalogPathsAgree(folder: string, assessmentType: string)
    requires assessmentType in DocumentGenerator.TypeFolders && DocumentGenerator.TypeFolders[assessmentType] == folder
    ensures Entry(assessmentType, folder).gtTemplate == DocumentGenerator.TemplatePath(assessmentType, "GT")
    ensures Entry(assessmentType, folder).certInTemplate == DocumentGenerator.TemplatePath(assessmentType, "CERT-In")
  {
    assert Lower("GT") == "gt";
    assert Lower("CERT-In") != "gt" by {
      assert |Lower("CERT-In")| == 7;
    }
  }

  /** The catalogue's folder for every type is the generator's folder. */
  lemma {:induction false} CatalogFolders()
    ensures DocumentGenerator.TypeFolders["Web Blackbox"] == "web_blackbox"
    ensures DocumentGenerator.TypeFolders["Web Grey Box"] == "web_greybox"
    ensures DocumentGenerator.TypeFolders["API"] == "api"
    ensures DocumentGenerator.TypeFolders["Network"] == "network"
    ensures DocumentGenerator.TypeFolders["Network Architecture"] == "network_architecture"
    ensures DocumentGenerator.TypeFolders["Config Review"] == "config_review"
    ensures DocumentGenerator.TypeFolders["CSPM"] == "cspm"
    ensures DocumentGenerator.TypeFolders["Source Code"] == "source_code"
  {
  }

  /** Every template of the catalogue is where `getTemplatePath` looks for
      it, for both report types. */
  lemma {:induction false} CatalogMatchesTemplatePath()
    ensures forall t :: t in AllTemplates(TemplateGroups) ==>
              t.gtTemplate == DocumentGenerator.TemplatePath(t.assessmentType, "GT") &&
              t.certInTemplate == DocumentGenerator.TemplatePath(t.assessmentType, "CERT-In")
  {
    CatalogTypes();
    CatalogFolders();
    var all := AllTemplates(TemplateGroups);
    forall i | 0 <= i < 8
      ensures all[i].gtTemplate == DocumentGenerator.TemplatePath(all[i].assessmentType, "GT")
      ensures all[i].certInTemplate == DocumentGenerator.TemplatePath(all[i].assessmentType, "CERT-In")
    {
      var folder := DocumentGenerator.TypeFolders[all[i].assessmentType];
      assert all[i] == Entry(all[i].assessmentType, folder);
      CatalogPathsAgree(folder, all[i].assessmentType);
    }
  }

  // ---------------------------------------------------------------------
  // Expanding categories.

  /** `prev.filter(c => c !== category)`. */
  function WithoutCategory(expanded: seq<string>, category: string): (r: seq<string>)
    ensures forall c :: c in r <==> c in expanded && c != category
    decreases |expanded|
  {
    if |expanded| == 0 then []
    else
      var rest := WithoutCategory(expanded[..|expanded| - 1], category);
      var last := expanded[|expanded| - 1];
      assert expanded == expanded[..|expanded| - 1] + [last];
      rest + (if last != category then [last] else [])
  }

  /** `toggleCategory`: an expanded category collapses, any other expands
      at the end. */
  function ToggleCategory(expanded: seq<string>, category: string): (r: seq<string>)
    ensures category in r <==> category !in expanded
    ensures forall c :: c != category ==> (c in r <==> c in expanded)
    ensures category !in expanded ==> r == expanded + [category]
  {
    if category in expanded then WithoutCategory(expanded, category) else expanded + [category]
  }

  /** Toggling twice restores which categories are expanded. */
  lemma {:induction false} ToggleTwice(expanded: seq<string>, category: string)
    ensures forall c :: c in ToggleCategory(ToggleCategory(expanded, category), category) <==> c in expanded
  {
  }

  // ---------------------------------------------------------------------
  // Uploading a template.

  function NotDocx(): string { ("Please upload a .docx " + "file only.") }
  function EmptyUpload(): string {
    ("The uploaded file is " + "empty. Please select a " + "valid template file.")
  }
  function UploadTooLarge(): string {
    ("File size too large. " + "Please upload a file " + "smaller than 10MB.")
  }

  const MaxUpload: nat := 10 * 1024 * 1024

  /** `handleUpload`'s checks, in order: the name must end in `.docx` in any
      letter case, the file must not be empty, and it must not exceed 10 MB. */
  function CheckUpload(fileName: string, size: nat): (r: Outcome)
    ensures r == Pass <==> EndsWith(Lower(fileName), ".docx") && 0 < size <= MaxUpload
    ensures !EndsWith(Lower(fileName), ".docx") ==> r == Fail(NotDocx())
    ensures EndsWith(Lower(fileName), ".docx") && size == 0 ==> r == Fail(EmptyUpload())
    ensures EndsWith(Lower(fileName), ".docx") && size > MaxUpload ==> r == Fail(UploadTooLarge())
  {
    if !EndsWith(Lower(fileName), ".docx") then Fail(NotDocx())
    else if size == 0 then Fail(EmptyUpload())
    else if size > MaxUpload then Fail(UploadTooLarge())
    else Pass
  }

  // ---------------------------------------------------------------------
  // Downloading a template.

  /** `s.replace(pattern, replacement)` with a text pattern: the first
      occurrence is replaced, and a text without one is unchanged. */
  function ReplaceFirst(s: string, pattern: string, replacement: string): (r: string)
    ensures !Contains(s, pattern) ==> r == s
    ensures StartsWith(s, pattern) ==> r == replacement + s[|pattern|..]
    decreases |s|
  {
    if StartsWith(s, pattern) then replacement + s[|pattern|..]
    else if |s| == 0 then s
    else [s[0]] + ReplaceFirst(s[1..], pattern, replacement)
  }

  /** Wherever the first occurrence of the pattern sits, it and only it is
      replaced. */
  lemma {:induction false} ReplaceFirstAt(s: string, pattern: string, replacement: string, k: nat)
    requires k <= |s| && StartsWith(s[k..], pattern)
    requires forall j :: 0 <= j < k ==> !StartsWith(s[j..], pattern)
    ensures ReplaceFirst(s, pattern, replacement) == s[..k] + replacement + s[k + |pattern|..]
    decreases k
  {
    assert s[0..] == s;
    if k > 0 {
      var t := s[1..];
      assert !StartsWith(s, pattern);
      assert ReplaceFirst(s, pattern, replacement) == [s[0]] + ReplaceFirst(t, pattern, replacement);
      assert t[k - 1..] == s[k..];
      forall j | 0 <= j < k - 1
        ensures !StartsWith(t[j..], pattern)
      {
        assert t[j..] == s[j + 1..];
      }
      ReplaceFirstAt(t, pattern, replacement, k - 1);
      var rest := t[k - 1 + |pattern|..];
      assert rest == s[k + |pattern|..];
      calc {
        ReplaceFirst(s, pattern, replacement);
        [s[0]] + (t[..k - 1] + replacement + rest);
        ([s[0]] + t[..k - 1]) + replacement + rest;
        { assert [s[0]] + t[..k - 1] == s[..k]; }
        s[..k] + replacement + s[k + |pattern|..];
      }
    }
  }

  /** The four locations tried for a template, the given one first. */
  function PossiblePaths(templatePath: string): (paths: seq<string>)
    ensures |paths| == 4 && paths[0] == templatePath
  {
    [templatePath,
     ReplaceFirst(templatePath, "/sample_templates/", "/public/sample_templates/"),
     "./public" + templatePath,
     ReplaceFirst(templatePath, "/sample_templates/", "./sample_templates/")]
  }

  /** For a catalogue path the alternatives put it under `/public`, under
      `./public` and under `.`. */
  lemma {:induction false} CatalogAlternatives(folder: string, reportFolder: string)
    ensures var p := "/sample_templates/" + reportFolder + "/" + folder + "/template.docx";
            var rest := reportFolder + "/" + folder + "/template.docx";
            PossiblePaths(p) == [p, "/public/sample_templates/" + rest, "./public" + p, "./sample_templates/" + rest]
  {
    var rest := reportFolder + "/" + folder + "/template.docx";
    var p := "/sample_templates/" + reportFolder + "/" + folder + "/template.docx";
    assert p == "/sample_templates/" + rest;
    ConcatParts("/sample_templates/", rest);
    assert p[|"/sample_templates/"|..] == rest;
  }

  /** What a fetch of one location gives: it throws, or answers with a
      status flag and, when read, a body of some size. */
  datatype FetchOutcome = Threw | Answered(ok: bool, bodySize: nat)

  /** The index of the first location that answers ok. */
  function FirstOk(paths: seq<string>, fetch: string -> FetchOutcome): (r: Option<nat>)
    ensures r.None? <==> forall i :: 0 <= i < |paths| ==> !(fetch(paths[i]).Answered? && fetch(paths[i]).ok)
    ensures r.Some? ==> r.value < |paths| && fetch(paths[r.value]).Answered? && fetch(paths[r.value]).ok &&
                        forall i :: 0 <= i < r.value ==> !(fetch(paths[i]).Answered? && fetch(paths[i]).ok)
  {
    if |paths| == 0 then None
    else if fetch(paths[0]).Answered? && fetch(paths[0]).ok then Some(0)
    else
      var r := FirstOk(paths[1..], fetch);
      assert forall i :: 1 <= i < |paths| ==> paths[i] == paths[1..][i - 1];
      if r.None? then None else Some(r.value + 1)
  }

  function NotFound(): string {
    ("Template not found at " + "any of the expected " + "locations. Please ensure " + "the template file exists.")
  }
  function EmptyTemplate(): string { ("Template file is empty " + "or corrupted.") }

  /** The alert shown when a download fails: the error's message between
      a fixed heading and a fixed checklist. */
  function DownloadAlert(message: string): (text: string)
    ensures StartsWith(text, "Failed to download template: ")
    ensures |text| == |message| + 29 + 96
    ensures text[29..29 + |message|] == message
  {
    ("Failed to download " + "template: ") + message +
    ("\n\nPlease check:\n• " + "Template file exists\n• " + "Network connection is " + "stable\n• Browser allows " + "downloads")
  }

  /** `{name with non-alphanumerics as _}_template.docx`. */
  function DownloadName(templateName: string): (name: string)
    ensures StartsWith(name, Sanitize(templateName)) && EndsWith(name, "_template.docx")
    ensures FileSafe(name[..|templateName|])
    ensures |name| == |templateName| + 14
  {
    SanitizeSafe(templateName);
    ConcatParts(Sanitize(templateName), "_template.docx");
    Sanitize(templateName) + "_template.docx"
  }

  /** A successful download: the file name it is saved under, the location
      it came from and its size. */
  datatype Download = Download(fileName: string, path: string, size: nat)

  /** The page's state: which categories are expanded and which template is
      being downloaded. */
  class TemplateManagerState {
    var expandedCategories: seq<string>
    var downloadingTemplate: Option<string>

    constructor()
      ensures expandedCategories == ["Web Security"] && downloadingTemplate == None
    {
      expandedCategories := ["Web Security"];
      downloadingTemplate := None;
    }

    method ToggleCategoryOf(category: string)
      modifies this
      ensures expandedCategories == ToggleCategory(old(expandedCategories), category)
      ensures downloadingTemplate == old(downloadingTemplate)
    {
      expandedCategories := ToggleCategory(expandedCategories, category);
    }

    /** `handleDownload`: fetches the locations in order until one answers
        ok (`tried` lists the fetches made), then refuses an empty body. The
        in-progress marker is cleared whatever the outcome. */
    method HandleDownload(templatePath: string, templateName: string, fetch: string -> FetchOutcome)
      returns (r: Result<Download>, tried: seq<string>, alert: Option<string>)
      modifies this
      ensures downloadingTemplate == None && expandedCategories == old(expandedCategories)
      ensures alert == (if r.Err? then Some(DownloadAlert(r.message)) else None)
      ensures FirstOk(PossiblePaths(templatePath), fetch).None? ==>
                tried == PossiblePaths(templatePath) && r == Err(NotFound())
      ensures FirstOk(PossiblePaths(templatePath), fetch).Some? ==>
                var first := FirstOk(PossiblePaths(templatePath), fetch).value;
                var path := PossiblePaths(templatePath)[first];
                tried == PossiblePaths(templatePath)[..first + 1] &&
                (fetch(path).bodySize == 0 ==> r == Err(EmptyTemplate())) &&
                (fetch(path).bodySize > 0 ==> r == Ok(Download(DownloadName(templateName), path, fetch(path).bodySize)))
    {
      downloadingTemplate := Some(templatePath);
      var paths := PossiblePaths(templatePath);
      var response: Option<FetchOutcome> := None;
      var found := false;
      var successfulPath := "";
      tried := [];
      var i := 0;
      while i < |paths| && !found
        invariant 0 <= i <= |paths|
        invariant tried == paths[..i]
        invariant !found ==> forall k :: 0 <= k < i ==> !(fetch(paths[k]).Answered? && fetch(paths[k]).ok)
        invariant !found ==> response.None? || (response.value.Answered? && !response.value.ok)
        invariant found ==> i > 0 && FirstOk(paths, fetch) == Some(i - 1) && successfulPath == paths[i - 1] &&
                            response == Some(fetch(paths[i - 1]))
      {
        tried := tried + [paths[i]];
        var outcome := fetch(paths[i]);
        if outcome.Answered? {
          response := Some(outcome);
          if outcome.ok {
            successfulPath := paths[i];
            found := true;
          }
        }
        i := i + 1;
      }
      if !found {
        assert i == |paths|;
        downloadingTemplate := None;
        return Err(NotFound()), tried, Some(DownloadAlert(NotFound()));
      }
      var size := response.value.bodySize;
      if size == 0 {
        downloadingTemplate := None;
        return Err(EmptyTemplate()), tried, Some(DownloadAlert(EmptyTemplate()));
      }
      r := Ok(Download(DownloadName(templateName), successfulPath, size));
      alert := None;
      downloadingTemplate := None;
    }
  }
}
