/** The workbook upload (`FileUploader`): the checks on a dropped file, the
    sheet dictionary built from the workbook, the choice of the first sheet
    as the vulnerability data and the counts shown after a load. */
module FileUploader {
  import opened Common
  import opened Types
  import opened App

  /** A dropped file: its name and its size in bytes. */
  datatype UploadFile = UploadFile(name: string, size: nat)

  /** 10 MB, the largest workbook accepted. */
  const MaxSize: nat := 10 * 1024 * 1024

  function WrongType(): string { "Please upload an Excel " + "file (.xlsx or .xls)" }
  function TooLarge(): string {
    "File size too large. " + "Please upload a file " + "smaller than 10MB."
  }
  function EmptyFile(): string { "File is empty. Please " + "upload a valid Excel " + "file." }
  function ReadFailed(): string { "Failed to read file. " + "Please try again." }
  function NothingRead(): string { "Failed to read file" }
  function NoData(): string {
    "No data found in the " + "first sheet. Please " + "ensure your Excel file " +
    "contains vulnerability " + "data."
  }
  function NoHeaders(): string {
    "No column headers found" + ". Please ensure your " + "Excel file has proper " + "column headers."
  }

  /** The message shown when reading or checking the workbook throws. */
  function ProcessFailed(message: string): (m: string)
    ensures StartsWith(m, "Failed to process Excel" + " file: ") && EndsWith(m, message)
  {
    ("Failed to process Excel" + " file: ") + message
  }

  /** What `onDrop` does with the files the drop zone accepted. */
  datatype DropDecision = NoFile | Rejected(message: string) | Process(file: UploadFile)

  /** Only the first file counts. Its name must end in ".xlsx" or ".xls"
      (letter case matters), checked before the size; then a file over
      10 MB and then an empty file are refused. */
  function CheckDrop(accepted: seq<UploadFile>): (d: DropDecision)
    ensures d.NoFile? <==> |accepted| == 0
    ensures d == Rejected(WrongType()) <==>
              |accepted| > 0 && !EndsWith(accepted[0].name, ".xlsx") && !EndsWith(accepted[0].name, ".xls")
    ensures d == Rejected(TooLarge()) <==>
              |accepted| > 0 && (EndsWith(accepted[0].name, ".xlsx") || EndsWith(accepted[0].name, ".xls")) &&
              accepted[0].size > MaxSize
    ensures d == Rejected(EmptyFile()) <==>
              |accepted| > 0 && (EndsWith(accepted[0].name, ".xlsx") || EndsWith(accepted[0].name, ".xls")) &&
              accepted[0].size == 0
    ensures d.Process? <==>
              |accepted| > 0 && (EndsWith(accepted[0].name, ".xlsx") || EndsWith(accepted[0].name, ".xls")) &&
              0 < accepted[0].size <= MaxSize
    ensures d.Process? ==> d.file == accepted[0]
  {
    if |accepted| == 0 then NoFile
    else
      var file := accepted[0];
      if !EndsWith(file.name, ".xlsx") && !EndsWith(file.name, ".xls") then Rejected(WrongType())
      else if file.size > MaxSize then Rejected(TooLarge())
      else if file.size == 0 then Rejected(EmptyFile())
      else Process(file)
  }

  /** A worksheet of the workbook, in sheet order: its name and its rows,
      or `None` when converting it to rows throws. */
  datatype Worksheet = Worksheet(name: string, rows: Option<seq<Row>>)

  /** The rows a sheet contributes: a sheet whose conversion throws counts
      as empty. */
  function Converted(w: Worksheet): (rows: seq<Row>)
    ensures w.rows.None? ==> rows == []
    ensures w.rows.Some? ==> rows == w.rows.value
  {
    if w.rows.Some? then w.rows.value else []
  }

  /** The sheet dictionary after the `forEach` over the sheet names: each
      name set to its sheet's rows, a later sheet of the same name winning. */
  function SheetsOf(workbook: seq<Worksheet>): Sheets
    decreases |workbook|
  {
    if |workbook| == 0 then map[]
    else
      var last := workbook[|workbook| - 1];
      SheetsOf(workbook[..|workbook| - 1])[last.name := Converted(last)]
  }

  /** The dictionary has exactly the workbook's sheet names. */
  lemma {:induction false} SheetsOfKeys(workbook: seq<Worksheet>, name: string)
    ensures name in SheetsOf(workbook) <==> exists i :: 0 <= i < |workbook| && workbook[i].name == name
    decreases |workbook|
  {
    if |workbook| > 0 {
      var init := workbook[..|workbook| - 1];
      SheetsOfKeys(init, name);
      if name in SheetsOf(init) {
        var i :| 0 <= i < |init| && init[i].name == name;
        assert workbook[i].name == name;
      }
      if exists i :: 0 <= i < |workbook| && workbook[i].name == name {
        var i :| 0 <= i < |workbook| && workbook[i].name == name;
        if i < |init| {
          assert init[i].name == name;
        }
      }
    }
  }

  /** A sheet no later sheet shares a name with is stored under its name,
      as its rows or as `[]` when its conversion threw. */
  lemma {:induction false} SheetsOfLookup(workbook: seq<Worksheet>, i: nat)
    requires i < |workbook|
    requires forall j :: i < j < |workbook| ==> workbook[j].name != workbook[i].name
    ensures workbook[i].name in SheetsOf(workbook)
    ensures SheetsOf(workbook)[workbook[i].name] == Converted(workbook[i])
    decreases |workbook|
  {
    if i < |workbook| - 1 {
      var init := workbook[..|workbook| - 1];
      assert init[i] == workbook[i];
      SheetsOfLookup(init, i);
    }
  }

  /** A sheet whose conversion throws changes only its own entry: every
      other name keeps what it would have had. */
  lemma {:induction false} ThrowingSheetIsolated(workbook: seq<Worksheet>, k: nat, name: string)
    requires k < |workbook| && name != workbook[k].name
    ensures var failed := workbook[k := Worksheet(workbook[k].name, None)];
            (name in SheetsOf(failed) <==> name in SheetsOf(workbook)) &&
            (name in SheetsOf(workbook) ==> SheetsOf(failed)[name] == SheetsOf(workbook)[name])
    decreases |workbook|
  {
    var failed := workbook[k := Worksheet(workbook[k].name, None)];
    var n := |workbook|;
    if k < n - 1 {
      assert failed[..n - 1] == workbook[..n - 1][k := Worksheet(workbook[k].name, None)];
      assert workbook[..n - 1][k] == workbook[k];
      ThrowingSheetIsolated(workbook[..n - 1], k, name);
      assert failed[n - 1] == workbook[n - 1];
    } else {
      assert failed[..n - 1] == workbook[..n - 1];
    }
  }

  /** The `forEach` that fills the dictionary. */
  method BuildSheets(workbook: seq<Worksheet>) returns (sheets: Sheets)
    ensures sheets == SheetsOf(workbook)
  {
    sheets := map[];
    var i := 0;
    while i < |workbook|
      invariant 0 <= i <= |workbook|
      invariant sheets == SheetsOf(workbook[..i])
    {
      assert workbook[..i + 1][..i] == workbook[..i];
      var w := workbook[i];
      if w.rows.Some? {
        sheets := sheets[w.name := w.rows.value];
      } else {
        sheets := sheets[w.name := []];
      }
      i := i + 1;
    }
    assert workbook[..i] == workbook;
  }

  /** The vulnerability data: the dictionary's entry for the first sheet's
      name. A workbook without sheets, an empty first sheet or a first row
      without keys is refused, in that order. */
  function MainData(workbook: seq<Worksheet>, sheets: Sheets): (r: Result<seq<Row>>)
    ensures r == Err(NoData()) <==>
              |workbook| == 0 || workbook[0].name !in sheets || |sheets[workbook[0].name]| == 0
    ensures r == Err(NoHeaders()) <==>
              |workbook| > 0 && workbook[0].name in sheets && |sheets[workbook[0].name]| > 0 &&
              |sheets[workbook[0].name][0]| == 0
    ensures r.Ok? <==>
              |workbook| > 0 && workbook[0].name in sheets && |sheets[workbook[0].name]| > 0 &&
              |sheets[workbook[0].name][0]| > 0
    ensures r.Ok? ==> r.value == sheets[workbook[0].name]
  {
    if |workbook| == 0 || workbook[0].name !in sheets || |sheets[workbook[0].name]| == 0 then Err(NoData())
    else
      var rows := sheets[workbook[0].name];
      if |Keys(rows[0])| == 0 then Err(NoHeaders()) else Ok(rows)
  }

  /** With sheet names that are all different, the vulnerability data is
      the first sheet's own rows, and a first sheet that throws is empty. */
  lemma {:induction false} MainDataIsFirstSheet(workbook: seq<Worksheet>)
    requires |workbook| > 0
    requires forall j :: 0 < j < |workbook| ==> workbook[j].name != workbook[0].name
    ensures MainData(workbook, SheetsOf(workbook)).Ok? ==> MainData(workbook, SheetsOf(workbook)).value == Converted(workbook[0])
    ensures workbook[0].rows.None? ==> MainData(workbook, SheetsOf(workbook)) == Err(NoData())
  {
    SheetsOfLookup(workbook, 0);
  }

  /** The counts shown after a load. */
  datatype FileStats = FileStats(vulnerabilities: nat, observations: nat, scope: nat)

  /** `sheets['Observations']?.length || 0` and the same for "Scope". */
  function StatsOf(main: seq<Row>, sheets: Sheets): (s: FileStats)
    ensures s.vulnerabilities == |main|
    ensures "Observations" !in sheets ==> s.observations == 0
    ensures "Observations" in sheets ==> s.observations == |sheets["Observations"]|
    ensures "Scope" !in sheets ==> s.scope == 0
    ensures "Scope" in sheets ==> s.scope == |sheets["Scope"]|
  {
    FileStats(|main|, |SheetOrEmpty(sheets, "Observations")|, |SheetOrEmpty(sheets, "Scope")|)
  }

  /** A workbook without a sheet named exactly "Observations" (or "Scope")
      counts none of them. */
  lemma {:induction false} AbsentSheetsCountZero(main: seq<Row>, workbook: seq<Worksheet>)
    ensures (forall i :: 0 <= i < |workbook| ==> workbook[i].name != "Observations") ==>
              StatsOf(main, SheetsOf(workbook)).observations == 0
    ensures (forall i :: 0 <= i < |workbook| ==> workbook[i].name != "Scope") ==>
              StatsOf(main, SheetsOf(workbook)).scope == 0
  {
    SheetsOfKeys(workbook, "Observations");
    SheetsOfKeys(workbook, "Scope");
  }

  /** What the file reader delivers: a read error, nothing, a workbook the
      spreadsheet parser refuses with a message, or the workbook's sheets. */
  datatype ReadResult = ReadError | ReadNothing | Unparsable(message: string) | Read(workbook: seq<Worksheet>)

  /** What a read comes to: the data and dictionary handed on, or the
      message shown. Only a reader error is shown without the
      "Failed to process Excel file: " prefix. */
  function LoadOf(read: ReadResult): (r: Result<(seq<Row>, Sheets)>)
    ensures r.Ok? <==> read.Read? && MainData(read.workbook, SheetsOf(read.workbook)).Ok?
    ensures r.Ok? ==> r.value == (MainData(read.workbook, SheetsOf(read.workbook)).value, SheetsOf(read.workbook))
    ensures read.ReadError? ==> r == Err(ReadFailed())
    ensures read.Unparsable? ==> r == Err(ProcessFailed(read.message))
    ensures r.Err? && !read.ReadError? ==> StartsWith(r.message, "Failed to process Excel" + " file: ")
    ensures read.Read? && r.Err? ==> r.message == ProcessFailed(MainData(read.workbook, SheetsOf(read.workbook)).message)
  {
    match read
    case ReadError => Err(ReadFailed())
    case ReadNothing => Err(ProcessFailed(NothingRead()))
    case Unparsable(message) => Err(ProcessFailed(message))
    case Read(workbook) =>
      var sheets := SheetsOf(workbook);
      var main := MainData(workbook, sheets);
      if main.Err? then Err(ProcessFailed(main.message)) else Ok((main.value, sheets))
  }

  /** The uploader's state, together with the last data handed to
      `onFileLoaded`. */
  class Uploader {
    var fileName: Option<string>
    var error: Option<string>
    var isLoading: bool
    var fileStats: Option<FileStats>
    var delivered: Option<(seq<Row>, Sheets)>

    constructor()
      ensures fileName == None && error == None && !isLoading && fileStats == None && delivered == None
    {
      fileName := None;
      error := None;
      isLoading := false;
      fileStats := None;
      delivered := None;
    }

    /** `processExcelFile`: loading is on while the file is read and off
        afterwards; a failure shows its message, clears the counts and keeps
        the previous file name and data. */
    method ProcessExcelFile(file: UploadFile, read: ReadResult)
      modifies this
      ensures !isLoading
      ensures LoadOf(read).Err? ==>
                error == Some(LoadOf(read).message) && fileStats == None &&
                fileName == old(fileName) && delivered == old(delivered)
      ensures LoadOf(read).Ok? ==>
                error == None && fileName == Some(file.name) &&
                fileStats == Some(StatsOf(LoadOf(read).value.0, LoadOf(read).value.1)) &&
                delivered == Some(LoadOf(read).value)
    {
      isLoading := true;
      error := None;
      fileStats := None;
      match read {
        case ReadError =>
          error := Some(ReadFailed());
        case ReadNothing =>
          error := Some(ProcessFailed(NothingRead()));
        case Unparsable(message) =>
          error := Some(ProcessFailed(message));
        case Read(workbook) =>
          var sheets := BuildSheets(workbook);
          var main := MainData(workbook, sheets);
          if main.Err? {
            error := Some(ProcessFailed(main.message));
          } else {
            fileStats := Some(StatsOf(main.value, sheets));
            delivered := Some((main.value, sheets));
            fileName := Some(file.name);
          }
      }
      isLoading := false;
    }

    /** `onDrop`: nothing without a file, only the message for a refused
        file, and otherwise the first file is processed. */
    method OnDrop(accepted: seq<UploadFile>, read: ReadResult)
      modifies this
      ensures CheckDrop(accepted).NoFile? ==>
                fileName == old(fileName) && error == old(error) && isLoading == old(isLoading) &&
                fileStats == old(fileStats) && delivered == old(delivered)
      ensures CheckDrop(accepted).Rejected? ==>
                error == Some(CheckDrop(accepted).message) && fileName == old(fileName) &&
                isLoading == old(isLoading) && fileStats == old(fileStats) && delivered == old(delivered)
      ensures CheckDrop(accepted).Process? && LoadOf(read).Err? ==>
                !isLoading && error == Some(LoadOf(read).message) && fileStats == None &&
                fileName == old(fileName) && delivered == old(delivered)
      ensures CheckDrop(accepted).Process? && LoadOf(read).Ok? ==>
                !isLoading && error == None && fileName == Some(accepted[0].name) &&
                fileStats == Some(StatsOf(LoadOf(read).value.0, LoadOf(read).value.1)) &&
                delivered == Some(LoadOf(read).value)
    {
      var decision := CheckDrop(accepted);
      match decision
      case NoFile =>
      case Rejected(message) =>
        error := Some(message);
      case Process(file) =>
        ProcessExcelFile(file, read);
    }
  }
}
