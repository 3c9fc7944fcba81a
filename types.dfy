/** The record shapes of the report tool: a selectable spreadsheet column,
    an attached evidence image, the report configuration, a history
    record and the imported workbook. */
module Types {
  import opened Common

  /** A spreadsheet column offered for the report; `included` (the source's `include`) says whether
      it is selected. */
  datatype FieldData = FieldData(id: string, name: string, included: bool)

  /** An evidence image. The tag is the cell value of the vulnerability
      name it was attached to (the wizard copies the cell as it is, so a
      numeric name yields a numeric tag). */
  datatype PoCImage = PoCImage(id: string, dataUrl: string, vulnerabilityName: Value)

  /** `assessmentType` is one of the eight catalogue names and `reportType`
      is "GT" or "CERT-In" at the call sites; both are kept as text since
      the code compares and prints them as text. */
  datatype ReportConfig = ReportConfig(assessmentType: string, companyName: string, reportType: string)

  /** One entry of the report history (`type` of the source is `reportType`). */
  datatype ReportHistoryItem = ReportHistoryItem(
    id: string, name: string, date: string, reportType: string,
    companyName: string, assessmentType: string, filePath: string, size: nat)

  /** The imported workbook: the first sheet and the two optional sheets. */
  datatype ExcelData = ExcelData(vulnerabilities: seq<Row>, observations: seq<Row>, scope: seq<Row>)

  /** One page of the evidence wizard. */
  datatype VulnerabilityData = VulnerabilityData(name: Value, images: seq<PoCImage>)

  /** The clock readings a generation uses: the long US date, the default
      locale date, the ISO date and `Date.now()` as text. */
  datatype Clock = Clock(longDate: string, shortDate: string, isoDate: string, now: string)

  /** `fields.filter(f => f.included)`. */
  function Included(fields: seq<FieldData>): (r: seq<FieldData>)
    ensures |r| <= |fields|
    ensures forall i :: 0 <= i < |r| ==> r[i].included
  {
    if |fields| == 0 then []
    else (if fields[0].included then [fields[0]] else []) + Included(fields[1..])
  }

  /** Every field of the selection is included, so selecting again keeps it. */
  lemma {:induction false} IncludedIdempotent(fields: seq<FieldData>)
    ensures Included(Included(fields)) == Included(fields)
  {
    if |fields| > 0 {
      IncludedIdempotent(fields[1..]);
      var rest := Included(fields[1..]);
      if fields[0].included {
        var s := [fields[0]] + rest;
        assert Included(fields) == s;
        assert s[0] == fields[0] && s[1..] == rest;
        assert Included(s) == [fields[0]] + Included(rest);
      } else {
        assert Included(fields) == [] + rest == rest;
      }
    }
  }

  /** The selection is empty exactly when no field is included. */
  lemma {:induction false} IncludedEmptyIff(fields: seq<FieldData>)
    ensures Included(fields) == [] <==> forall i :: 0 <= i < |fields| ==> !fields[i].included
  {
    if |fields| > 0 {
      IncludedEmptyIff(fields[1..]);
      assert forall i :: 1 <= i < |fields| ==> fields[i] == fields[1..][i - 1];
    }
  }

  /** `images.filter(img => img.vulnerabilityName === name)`: the images
      tagged with exactly this cell value, in attachment order. */
  function ImagesFor(images: seq<PoCImage>, name: Value): (r: seq<PoCImage>)
    ensures |r| <= |images|
    ensures forall i :: 0 <= i < |r| ==> r[i].vulnerabilityName == name
    decreases |images|
  {
    if |images| == 0 then []
    else
      var last := images[|images| - 1];
      ImagesFor(images[..|images| - 1], name) + (if last.vulnerabilityName == name then [last] else [])
  }

  /** Filtering distributes over concatenation, so the images keep their
      relative attachment order. */
  lemma {:induction false} ImagesForConcat(a: seq<PoCImage>, b: seq<PoCImage>, name: Value)
    ensures ImagesFor(a + b, name) == ImagesFor(a, name) + ImagesFor(b, name)
    decreases |b|
  {
    if |b| > 0 {
      assert (a + b)[..|a + b| - 1] == a + b[..|b| - 1];
      ImagesForConcat(a, b[..|b| - 1], name);
    } else {
      assert a + b == a;
    }
  }

  /** Every image carrying the tag is selected, and only those. */
  lemma {:induction false} ImagesForMembers(images: seq<PoCImage>, name: Value, img: PoCImage)
    decreases |images|
    ensures img in ImagesFor(images, name) <==> img in images && img.vulnerabilityName == name
  {
    if |images| > 0 {
      ImagesForMembers(images[..|images| - 1], name, img);
      assert images == images[..|images| - 1] + [images[|images| - 1]];
    }
  }

  /** The number of images that decode. */
  function Decoded(images: seq<PoCImage>, decodes: string -> bool): (n: nat)
    ensures n <= |images|
    decreases |images|
  {
    if |images| == 0 then 0
    else Decoded(images[..|images| - 1], decodes) + (if decodes(images[|images| - 1].dataUrl) then 1 else 0)
  }
}
