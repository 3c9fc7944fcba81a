/** The evidence wizard (`ImageUploadWizard`): one page per vulnerability,
    a page index moved by Next and Back, and the list of attached images,
    which grows by dropped files and pasted clipboard items, shrinks by
    removal, and is handed over when Next is pressed on the last page. */
module ImageWizard {
  import opened Common
  import opened Types

  /** A dropped file once read: its name and its data URL (empty when the
      reader produced nothing). */
  datatype DroppedFile = DroppedFile(name: string, dataUrl: string)

  /** A clipboard item: its MIME type and, when it yields a file, the
      file's data URL. */
  datatype ClipboardItem = ClipboardItem(mimeType: string, dataUrl: Option<string>)

  /** The images made from dropped files, in drop order; `now` is the
      clock reading used in the ids. A file read as nothing adds no image. */
  function DroppedImages(files: seq<DroppedFile>, now: string, name: Value): (r: seq<PoCImage>)
    ensures |r| <= |files|
    ensures forall i :: 0 <= i < |r| ==> r[i].vulnerabilityName == name && r[i].dataUrl != ""
    decreases |files|
  {
    if |files| == 0 then []
    else
      var last := files[|files| - 1];
      DroppedImages(files[..|files| - 1], now, name) +
      (if last.dataUrl != "" then [PoCImage(now + "-" + last.name, last.dataUrl, name)] else [])
  }

  /** A clipboard item is taken when its type mentions "image" and it
      yields a non-empty data URL. */
  predicate TakesItem(item: ClipboardItem) {
    Contains(item.mimeType, "image") && item.dataUrl.Some? && item.dataUrl.value != ""
  }

  /** The images made from the first `k` clipboard items; item `i` gets the
      id `{now}-pasted-{i}`. */
  function PastedImages(items: seq<ClipboardItem>, k: nat, now: string, name: Value): (r: seq<PoCImage>)
    requires k <= |items|
    ensures |r| <= k
    ensures forall i :: 0 <= i < |r| ==> r[i].vulnerabilityName == name
  {
    if k == 0 then []
    else
      PastedImages(items, k - 1, now, name) +
      (if TakesItem(items[k - 1]) then [PoCImage(now + "-pasted-" + NatToString(k - 1), items[k - 1].dataUrl.value, name)]
       else [])
  }

  /** The number of the first `k` clipboard items that are taken. */
  function ImageItems(items: seq<ClipboardItem>, k: nat): (n: nat)
    requires k <= |items|
  {
    if k == 0 then 0 else ImageItems(items, k - 1) + (if TakesItem(items[k - 1]) then 1 else 0)
  }

  /** A paste adds one image per taken item, and nothing when no item is
      an image that yields a file. */
  lemma {:induction false} PastedCount(items: seq<ClipboardItem>, k: nat, now: string, name: Value)
    requires k <= |items|
    ensures |PastedImages(items, k, now, name)| == ImageItems(items, k)
    ensures ImageItems(items, k) == 0 <==> forall i :: 0 <= i < k ==> !TakesItem(items[i])
  {
    if k > 0 {
      PastedCount(items, k - 1, now, name);
    }
  }

  /** Every dropped file read as something becomes exactly one image. */
  lemma {:induction false} DroppedCount(files: seq<DroppedFile>, now: string, name: Value)
    ensures |DroppedImages(files, now, name)| == |files| <==> forall i :: 0 <= i < |files| ==> files[i].dataUrl != ""
    decreases |files|
  {
    if |files| > 0 {
      DroppedCount(files[..|files| - 1], now, name);
      assert forall i :: 0 <= i < |files| - 1 ==> files[..|files| - 1][i] == files[i];
    }
  }

  /** `images.filter(img => img.id !== id)`. */
  function WithoutImage(images: seq<PoCImage>, id: string): seq<PoCImage>
    decreases |images|
  {
    if |images| == 0 then []
    else
      var last := images[|images| - 1];
      WithoutImage(images[..|images| - 1], id) + (if last.id != id then [last] else [])
  }

  /** Removal keeps exactly the images with another id. */
  lemma {:induction false} WithoutImageMembers(images: seq<PoCImage>, id: string, img: PoCImage)
    ensures img in WithoutImage(images, id) <==> img in images && img.id != id
    decreases |images|
  {
    if |images| > 0 {
      WithoutImageMembers(images[..|images| - 1], id, img);
      assert images == images[..|images| - 1] + [images[|images| - 1]];
    }
  }

  /** Removal distributes over concatenation, so the rest keep their order. */
  lemma {:induction false} WithoutImageConcat(a: seq<PoCImage>, b: seq<PoCImage>, id: string)
    ensures WithoutImage(a + b, id) == WithoutImage(a, id) + WithoutImage(b, id)
    decreases |b|
  {
    if |b| > 0 {
      assert (a + b)[..|a + b| - 1] == a + b[..|b| - 1];
      WithoutImageConcat(a, b[..|b| - 1], id);
    } else {
      assert a + b == a;
    }
  }

  // ---------------------------------------------------------------------
  // The page index.

  /** The index after Next: one page on, unless already on the last page. */
  function NextIndex(index: nat, pages: nat): (r: nat)
    ensures index + 1 < pages ==> r == index + 1
    ensures index + 1 >= pages ==> r == index
  {
    if index + 1 < pages then index + 1 else index
  }

  /** The index after Back: one page back, unless on the first page. */
  function BackIndex(index: nat): (r: nat)
    ensures index > 0 ==> r == index - 1
    ensures index == 0 ==> r == 0
  {
    if index > 0 then index - 1 else 0
  }

  datatype Move = Next | Back

  /** The page index after a run of moves from `start`. */
  function IndexAfter(start: nat, pages: nat, moves: seq<Move>): nat
    decreases |moves|
  {
    if |moves| == 0 then start
    else
      var before := IndexAfter(start, pages, moves[..|moves| - 1]);
      match moves[|moves| - 1]
      case Next => NextIndex(before, pages)
      case Back => BackIndex(before)
  }

  /** From the first page, any run of moves stays on a page. */
  lemma {:induction false} IndexStaysOnPage(pages: nat, moves: seq<Move>)
    requires pages >= 1
    ensures IndexAfter(0, pages, moves) < pages
    decreases |moves|
  {
    if |moves| > 0 {
      IndexStaysOnPage(pages, moves[..|moves| - 1]);
    }
  }

  /** Next then Back returns to the page, unless the page was the last. */
  lemma {:induction false} NextThenBack(index: nat, pages: nat)
    requires index + 1 < pages
    ensures BackIndex(NextIndex(index, pages)) == index
  {
  }

  /** The wizard's state. */
  class Wizard {
    const vulnerabilities: seq<VulnerabilityData>
    var currentIndex: nat
    var images: seq<PoCImage>
    /** What `onComplete` received, once the last page was left. */
    var completed: Option<seq<PoCImage>>
    var open: bool

    predicate Valid()
      reads this
    {
      currentIndex < |vulnerabilities|
    }

    /** Opens on the first page with no images. An empty list is accepted
        as the component accepts it; the wizard is then not `Valid` and its
        first render fails (see `HeaderName`). */
    constructor(vulnerabilities: seq<VulnerabilityData>)
      ensures this.vulnerabilities == vulnerabilities && (Valid() <==> |vulnerabilities| > 0)
      ensures currentIndex == 0 && images == [] && completed == None && open
    {
      this.vulnerabilities := vulnerabilities;
      currentIndex := 0;
      images := [];
      completed := None;
      open := true;
    }

    /** The name in the page header, `currentVuln.name`; `None` stands for
        the TypeError the render throws when there is no vulnerability at
        the current index (an empty list), after which no handler runs. */
    function HeaderName(): (r: Option<Value>)
      reads this
      ensures r.Some? <==> currentIndex < |vulnerabilities|
      ensures r.Some? ==> r.value == vulnerabilities[currentIndex].name
    {
      if currentIndex < |vulnerabilities| then Some(vulnerabilities[currentIndex].name) else None
    }

    /** The name of the current page's vulnerability. */
    function CurrentName(): Value
      reads this
      requires Valid()
    {
      vulnerabilities[currentIndex].name
    }

    /** `currentImages`: the images tagged with exactly the current name,
        in attachment order; pages sharing a name share their images. */
    function CurrentImages(): (r: seq<PoCImage>)
      reads this
      requires Valid()
      ensures forall img :: img in r <==> img in images && img.vulnerabilityName == CurrentName()
    {
      var r := ImagesFor(images, CurrentName());
      forall img | img in images || img in r
        ensures img in r <==> img in images && img.vulnerabilityName == CurrentName()
      {
        ImagesForMembers(images, CurrentName(), img);
      }
      r
    }

    /** `onDrop`: one image per file read as something, appended after the
        existing ones and tagged with the current name. */
    method OnDrop(files: seq<DroppedFile>, now: string)
      requires Valid()
      modifies this
      ensures Valid() && currentIndex == old(currentIndex) && completed == old(completed) && open == old(open)
      ensures images == old(images) + DroppedImages(files, now, old(CurrentName()))
    {
      var name := CurrentName();
      var added: seq<PoCImage> := [];
      var i := 0;
      while i < |files|
        invariant 0 <= i <= |files|
        invariant added == DroppedImages(files[..i], now, name)
      {
        assert files[..i + 1][..i] == files[..i];
        if files[i].dataUrl != "" {
          added := added + [PoCImage(now + "-" + files[i].name, files[i].dataUrl, name)];
        }
        i := i + 1;
      }
      assert files[..i] == files;
      images := images + added;
    }

    /** `handlePaste`: one image per clipboard item whose type mentions
        "image" and which yields a file, appended and tagged likewise. */
    method HandlePaste(items: seq<ClipboardItem>, now: string)
      requires Valid()
      modifies this
      ensures Valid() && currentIndex == old(currentIndex) && completed == old(completed) && open == old(open)
      ensures images == old(images) + PastedImages(items, |items|, now, old(CurrentName()))
    {
      var name := CurrentName();
      var added: seq<PoCImage> := [];
      var i := 0;
      while i < |items|
        invariant 0 <= i <= |items|
        invariant added == PastedImages(items, i, now, name)
      {
        if Contains(items[i].mimeType, "image") {
          var file := items[i].dataUrl;
          if file.Some? && file.value != "" {
            added := added + [PoCImage(now + "-pasted-" + NatToString(i), file.value, name)];
          }
        }
        i := i + 1;
      }
      images := images + added;
    }

    /** `removeImage`. */
    method RemoveImage(id: string)
      requires Valid()
      modifies this
      ensures Valid() && currentIndex == old(currentIndex) && completed == old(completed) && open == old(open)
      ensures images == WithoutImage(old(images), id)
    {
      images := WithoutImage(images, id);
    }

    /** `handleNext`: the next page, or on the last page hands over every
        image and closes. */
    method HandleNext()
      requires Valid()
      modifies this
      ensures Valid() && images == old(images)
      ensures currentIndex == NextIndex(old(currentIndex), |vulnerabilities|)
      ensures old(currentIndex) < |vulnerabilities| - 1 ==>
                currentIndex == old(currentIndex) + 1 && completed == old(completed) && open == old(open)
      ensures old(currentIndex) == |vulnerabilities| - 1 ==>
                currentIndex == old(currentIndex) && completed == Some(images) && !open
    {
      if currentIndex < |vulnerabilities| - 1 {
        currentIndex := currentIndex + 1;
      } else {
        completed := Some(images);
        open := false;
      }
    }

    /** `handleBack`. */
    method HandleBack()
      requires Valid()
      modifies this
      ensures Valid() && images == old(images) && completed == old(completed) && open == old(open)
      ensures currentIndex == BackIndex(old(currentIndex))
    {
      if currentIndex > 0 {
        currentIndex := currentIndex - 1;
      }
    }
  }
}
