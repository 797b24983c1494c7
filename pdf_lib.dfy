/**
 * The document library both injectors drive, reduced to what placement
 * depends on: a document is a list of pages, a page is its size plus the
 * trace of draw calls made on it, and loading, saving and image decoding are
 * oracles supplied by the caller.
 */
module PdfLib {
  import opened Wrappers

  type Bytes = seq<bv8>

  type Positive = r: real | r > 0.0 witness 1.0

  /** The natural size of a decoded image (`embeddedImage.scale(1)`). */
  datatype ImageSize = ImageSize(width: Positive, height: Positive)

  /** One draw call on a page, with the geometry it was given. */
  datatype DrawOp =
    | /** `drawText` in black Helvetica. */
      TextOp(text: string, x: real, y: real, size: real)
    | /** `drawRectangle` with a grey border of the given width and no fill. */
      RectOp(x: real, y: real, width: real, height: real, borderWidth: real)
    | /** `drawImage` of an embedded image stretched to the given box. */
      ImageOp(x: real, y: real, width: real, height: real)
    | /** `drawCircle`: a black outline of width 1, or a black disc when `filled`. */
      CircleOp(x: real, y: real, size: real, filled: bool)

  datatype PageContent = PageContent(width: real, height: real, ops: seq<DrawOp>)

  datatype Pdf = Pdf(pages: seq<PageContent>)

  /**
   * The library's entry points as oracles. A string argument of `embedPng`,
   * `embedJpg` and `atobAccepts` is base64 text and stands for the bytes it
   * encodes; `embedPngText` is `embedPng` handed a string, which the library
   * decodes itself (as a data URL or as base64). `encodes` says whether the
   * embedded standard Helvetica font, whose encoding is WinAnsi, can encode
   * every character of a string; `drawText` throws on one it cannot.
   */
  datatype Library = Library(
    load: Bytes -> Option<Pdf>,
    save: Pdf -> Bytes,
    embedPng: string -> Option<ImageSize>,
    embedJpg: string -> Option<ImageSize>,
    embedPngText: string -> Option<ImageSize>,
    atobAccepts: string -> bool,
    encodes: string -> bool)

  /** Why an injection produced no document. */
  datatype InjectError =
    | /** `PDFDocument.load` rejected the bytes. */
      LoadFailed
    | /** The document has no first page to draw on. */
      NoPage
    | /** A signature's fallback decoding threw outside any handler (client only). */
      SignatureNotBase64
    | /** `drawText` was given a character the standard font cannot encode. */
      TextNotEncodable

  /** A loaded page that draw calls append to. */
  class Page {
    const width: real
    const height: real
    var ops: seq<DrawOp>

    constructor (content: PageContent)
      ensures width == content.width && height == content.height && ops == content.ops
    {
      width := content.width;
      height := content.height;
      ops := content.ops;
    }

    function Content(): PageContent
      reads this
    {
      PageContent(width, height, ops)
    }

    method Draw(op: DrawOp)
      modifies this
      ensures ops == old(ops) + [op]
    {
      ops := ops + [op];
    }
  }

  /** The draw calls of a list of items, each item's calls in list order. */
  function ConcatMap<T>(xs: seq<T>, g: T -> seq<DrawOp>): seq<DrawOp>
    decreases |xs|
  {
    if xs == [] then [] else ConcatMap(xs[..|xs| - 1], g) + g(xs[|xs| - 1])
  }

  /** The calls of two fallible steps run one after the other: the first failure, or both traces in order. */
  function Then(a: Result<seq<DrawOp>, InjectError>, b: Result<seq<DrawOp>, InjectError>): (r: Result<seq<DrawOp>, InjectError>)
    ensures r.Ok? <==> a.Ok? && b.Ok?
    ensures a.Err? ==> r == a
    ensures a.Ok? && b.Err? ==> r == b
    ensures r.Ok? ==> r.value == a.value + b.value
  {
    match a
    case Err(_) => a
    case Ok(x) =>
      match b
      case Err(_) => b
      case Ok(y) => Ok(x + y)
  }

  lemma ThenAssociative(a: Result<seq<DrawOp>, InjectError>, b: Result<seq<DrawOp>, InjectError>, c: Result<seq<DrawOp>, InjectError>)
    ensures Then(Then(a, b), c) == Then(a, Then(b, c))
  {
    if a.Ok? && b.Ok? && c.Ok? {
      assert (a.value + b.value) + c.value == a.value + (b.value + c.value);
    }
  }

  /**
   * The draw calls of a list of items where an item may fail: the calls of
   * every item in list order, or the error of the first item that fails.
   */
  function TryConcatMap<T>(xs: seq<T>, g: T -> Result<seq<DrawOp>, InjectError>): Result<seq<DrawOp>, InjectError>
    decreases |xs|
  {
    if xs == [] then Ok([]) else Then(TryConcatMap(xs[..|xs| - 1], g), g(xs[|xs| - 1]))
  }

  /** Extending a list by one item runs that item after the list. */
  lemma TryConcatMapSnoc<T>(xs: seq<T>, i: nat, g: T -> Result<seq<DrawOp>, InjectError>)
    requires i < |xs|
    ensures TryConcatMap(xs[..i + 1], g) == Then(TryConcatMap(xs[..i], g), g(xs[i]))
  {
    assert xs[..i + 1][..i] == xs[..i];
  }

  /** The trace of two lists is that of the first followed by that of the second, or the first failure. */
  lemma {:induction false} TryConcatMapAppend<T>(a: seq<T>, b: seq<T>, g: T -> Result<seq<DrawOp>, InjectError>)
    ensures TryConcatMap(a + b, g) == Then(TryConcatMap(a, g), TryConcatMap(b, g))
    decreases |b|
  {
    if b == [] {
      assert a + b == a;
      var r := TryConcatMap(a, g);
      if r.Ok? {
        assert r.value + [] == r.value;
      }
    } else {
      var b' := b[..|b| - 1];
      assert (a + b)[..|a + b| - 1] == a + b';
      assert (a + b)[|a + b| - 1] == b[|b| - 1];
      TryConcatMapAppend(a, b', g);
      ThenAssociative(TryConcatMap(a, g), TryConcatMap(b', g), g(b[|b| - 1]));
    }
  }

  /** Once a prefix of the list fails, the whole list fails with the same error. */
  lemma TryConcatMapPrefixFails<T>(xs: seq<T>, i: nat, g: T -> Result<seq<DrawOp>, InjectError>)
    requires i <= |xs| && TryConcatMap(xs[..i], g).Err?
    ensures TryConcatMap(xs, g) == TryConcatMap(xs[..i], g)
  {
    assert xs == xs[..i] + xs[i..];
    TryConcatMapAppend(xs[..i], xs[i..], g);
  }

  /** Fallible items: the whole list fails as soon as one item fails. */
  lemma {:induction false} TryConcatMapFails<T>(xs: seq<T>, k: nat, g: T -> Result<seq<DrawOp>, InjectError>)
    requires k < |xs| && g(xs[k]).Err?
    ensures TryConcatMap(xs, g).Err?
    decreases |xs|
  {
    if k < |xs| - 1 {
      TryConcatMapFails(xs[..|xs| - 1], k, g);
    }
  }

  /** Fallible items that all succeed: the calls are those of the items' results in list order. */
  lemma {:induction false} TryConcatMapSucceeds<T>(xs: seq<T>, g: T -> Result<seq<DrawOp>, InjectError>)
    requires forall i :: 0 <= i < |xs| ==> g(xs[i]).Ok?
    ensures TryConcatMap(xs, g) == Ok(ConcatMap(xs, x => if g(x).Ok? then g(x).value else []))
    decreases |xs|
  {
    if xs != [] {
      TryConcatMapSucceeds(xs[..|xs| - 1], g);
    }
  }

  /** `pdfDoc.save()` after drawing: the document with its first page's content replaced. */
  function WithFirstPage(doc: Pdf, first: PageContent): (d: Pdf)
    requires |doc.pages| > 0
    ensures |d.pages| == |doc.pages| && d.pages[0] == first
    ensures forall i :: 0 < i < |doc.pages| ==> d.pages[i] == doc.pages[i]
  {
    Pdf(doc.pages[0 := first])
  }
}
