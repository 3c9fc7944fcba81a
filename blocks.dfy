/** The document tree both report builders emit, in place of the `docx`
    library's `Paragraph`, `TextRun`, `ImageRun` and `PageBreak`: a
    paragraph of styled runs at a heading level, an embedded image at fixed
    dimensions, or a page break. Spacing, alignment and fonts are not part
    of the tree. */
module Blocks {
  import opened Common

  datatype Heading = Normal | Title | Heading1 | Heading2 | Heading3

  /** A styled span; `size` is in half-points as the `docx` library takes it. */
  datatype Run = Run(text: string, bold: bool, italics: bool, color: Option<string>, size: int)

  datatype Block =
    | Paragraph(runs: seq<Run>, heading: Heading)
    | Picture(dataUrl: string, width: nat, height: nat)
    | PageBreak

  function PlainRun(text: string, size: int): Run {
    Run(text, false, false, None, size)
  }

  function BoldRun(text: string, size: int): Run {
    Run(text, true, false, None, size)
  }

  /** A body paragraph holding one run. */
  function Line(run: Run): Block {
    Paragraph([run], Normal)
  }

  /** A paragraph holding one bold run at a heading level. */
  function HeadingBlock(text: string, size: int, level: Heading): Block {
    Paragraph([BoldRun(text, size)], level)
  }

  /** The red marker a builder emits when an image cannot be decoded. */
  const ImageErrorMarker: Block :=
    Line(Run(("Error: Failed to " + "include image"), false, false, Some("FF0000"), 20))

  predicate IsPicture(b: Block) {
    b.Picture?
  }

  predicate IsHeadingAt(b: Block, level: Heading) {
    b.Paragraph? && b.heading == level
  }

  /** Number of pictures in a block sequence. */
  function Pictures(bs: seq<Block>): nat {
    if |bs| == 0 then 0 else (if bs[0].Picture? then 1 else 0) + Pictures(bs[1..])
  }

  lemma {:induction false} PicturesConcat(a: seq<Block>, b: seq<Block>)
    ensures Pictures(a + b) == Pictures(a) + Pictures(b)
  {
    if |a| > 0 {
      assert (a + b)[1..] == a[1..] + b;
      PicturesConcat(a[1..], b);
    } else {
      assert a + b == b;
    }
  }

  /** Number of occurrences of a block in a block sequence. */
  function Count(bs: seq<Block>, x: Block): nat {
    if |bs| == 0 then 0 else (if bs[0] == x then 1 else 0) + Count(bs[1..], x)
  }

  lemma {:induction false} CountConcat(a: seq<Block>, b: seq<Block>, x: Block)
    ensures Count(a + b, x) == Count(a, x) + Count(b, x)
  {
    if |a| > 0 {
      assert (a + b)[1..] == a[1..] + b;
      CountConcat(a[1..], b, x);
    } else {
      assert a + b == b;
    }
  }

  /** A block occurs in a sequence exactly when it is counted there. */
  lemma {:induction false} CountZeroIff(bs: seq<Block>, x: Block)
    ensures Count(bs, x) == 0 <==> x !in bs
  {
    if |bs| > 0 {
      CountZeroIff(bs[1..], x);
      assert bs == [bs[0]] + bs[1..];
    }
  }

  /** A sequence without a picture block counts none. */
  lemma {:induction false} NoPictures(bs: seq<Block>)
    requires forall j :: 0 <= j < |bs| ==> !bs[j].Picture?
    ensures Pictures(bs) == 0
  {
    if |bs| > 0 {
      NoPictures(bs[1..]);
    }
  }

  /** The file handed to the browser: its name and the document. */
  datatype SavedReport = SavedReport(fileName: string, document: seq<Block>)
}
