/**
 * What the three text extractors share: the extension dispatch of
 * `extract_text`, the page loop of `_extract_text_from_pdf`, and the
 * resolution of the API key in each constructor.
 */
module TextExtraction {
  import opened Wrappers

  /** Python's `ValueError`, with its message. */
  datatype ValueError = ValueError(message: string)

  /** The branch `extract_text` takes for a file. */
  datatype Route = Pdf | Image | Unsupported

  // ---------------------------------------------------------------------------
  // Extension dispatch
  // ---------------------------------------------------------------------------

  /** Lower-casing of one character (ASCII letters only). */
  function LowerChar(c: char): char {
    if 'A' <= c <= 'Z' then (c as int + 32) as char else c
  }

  /** `str.lower()`, character by character. */
  function Lower(s: string): (r: string)
    ensures |r| == |s|
    ensures forall k :: 0 <= k < |s| ==> r[k] == LowerChar(s[k])
  {
    if s == [] then [] else [LowerChar(s[0])] + Lower(s[1..])
  }

  /** The extensions sent to local PDF extraction, in lower case. */
  const PdfExtensions: seq<string> := [".pdf"]

  /** The extensions sent to a vision model, in lower case. */
  const ImageExtensions: seq<string> := [".jpg", ".jpeg", ".png"]

  /** The branch of `extract_text` for a file with this extension. */
  function RouteOf(extension: string): (r: Route)
    ensures r == Pdf ==> |extension| == 4 && extension[0] == '.'
    ensures r == Image ==> 4 <= |extension| <= 5 && extension[0] == '.'
  {
    var e := Lower(extension);
    if e in PdfExtensions then Pdf
    else if e in ImageExtensions then Image
    else Unsupported
  }

  /** The message of the `ValueError` raised for an extension outside both lists. */
  function UnsupportedMessage(extension: string): (m: string)
    ensures |m| == |UnsupportedPrefix| + |extension|
    ensures m[..|UnsupportedPrefix|] == UnsupportedPrefix
    ensures SameIgnoringCase(m[|UnsupportedPrefix|..], extension)
    ensures Lower(m[|UnsupportedPrefix|..]) == m[|UnsupportedPrefix|..]
  {
    UnsupportedPrefix + Lower(extension)
  }

  /** The fixed start of that message. */
  const UnsupportedPrefix := "Unsupported file type: "

  /** The two strings differ at most in the case of their letters. */
  predicate SameIgnoringCase(a: string, b: string) {
    |a| == |b| && forall k :: 0 <= k < |a| ==> LowerChar(a[k]) == LowerChar(b[k])
  }

  /** Lower-casing yields an all-lower-case `t` exactly when the input equals `t` up to case. */
  lemma LowerEqualsIffSameIgnoringCase(e: string, t: string)
    requires Lower(t) == t
    ensures Lower(e) == t <==> SameIgnoringCase(e, t)
  {
  }

  /** Extensions that differ only in case take the same branch. */
  lemma RouteIgnoresCase(a: string, b: string)
    requires SameIgnoringCase(a, b)
    ensures RouteOf(a) == RouteOf(b)
  {
    assert Lower(a) == Lower(b);
  }

  /**
   * The dispatch rule stated without lower-casing: `.pdf` in any case goes to
   * the PDF branch, `.jpg`, `.jpeg` and `.png` in any case to the vision
   * branch, everything else is rejected.
   */
  lemma RouteByExtension(extension: string)
    ensures RouteOf(extension) == Pdf <==> SameIgnoringCase(extension, ".pdf")
    ensures RouteOf(extension) == Image <==>
              || SameIgnoringCase(extension, ".jpg")
              || SameIgnoringCase(extension, ".jpeg")
              || SameIgnoringCase(extension, ".png")
  {
    LowerEqualsIffSameIgnoringCase(extension, ".pdf");
    LowerEqualsIffSameIgnoringCase(extension, ".jpg");
    LowerEqualsIffSameIgnoringCase(extension, ".jpeg");
    LowerEqualsIffSameIgnoringCase(extension, ".png");
  }

  /** Upper- and mixed-case spellings route like their lower-case forms. */
  lemma RouteExamplesMixedCase()
    ensures RouteOf(".PDF") == Pdf && RouteOf(".Png") == Image && RouteOf(".JPEG") == Image
  {
    assert Lower(".PDF") == ".pdf";
    assert Lower(".Png") == ".png";
    assert Lower(".JPEG") == ".jpeg";
  }

  /** Extensions outside both lists, or without their dot, are rejected. */
  lemma RouteExamplesUnsupported()
    ensures RouteOf("") == Unsupported && RouteOf(".gif") == Unsupported && RouteOf("pdf") == Unsupported
  {
  }

  // ---------------------------------------------------------------------------
  // PDF text
  // ---------------------------------------------------------------------------

  /** The page texts joined in document order, with nothing between them. */
  function Concat(pages: seq<string>): string {
    if pages == [] then "" else pages[0] + Concat(pages[1..])
  }

  /** The summed length of the page texts. */
  function TotalLength(pages: seq<string>): nat {
    if pages == [] then 0 else |pages[0]| + TotalLength(pages[1..])
  }

  /** Joining distributes over splitting the document in two. */
  lemma {:induction false} ConcatAppend(a: seq<string>, b: seq<string>)
    ensures Concat(a + b) == Concat(a) + Concat(b)
    decreases |a|
  {
    if a == [] {
      assert a + b == b;
    } else {
      assert (a + b)[1..] == a[1..] + b;
      ConcatAppend(a[1..], b);
    }
  }

  /** No separator is inserted: the text is exactly as long as its pages together. */
  lemma {:induction false} ConcatLength(pages: seq<string>)
    ensures |Concat(pages)| == TotalLength(pages)
    decreases |pages|
  {
    if pages != [] {
      ConcatLength(pages[1..]);
    }
  }

  /** Page `k` sits in the text right after the pages before it. */
  lemma PageInPlace(pages: seq<string>, k: nat)
    requires k < |pages|
    ensures var o := |Concat(pages[..k])|;
            && o + |pages[k]| <= |Concat(pages)|
            && Concat(pages)[o..o + |pages[k]|] == pages[k]
  {
    assert pages == pages[..k] + [pages[k]] + pages[k + 1..];
    ConcatAppend(pages[..k] + [pages[k]], pages[k + 1..]);
    ConcatAppend(pages[..k], [pages[k]]);
    assert Concat([pages[k]]) == pages[k] + Concat([]);
  }

  /**
   * `_extract_text_from_pdf`: append each page's text, in document order, to
   * an initially empty string. The document is given as its page texts.
   */
  method ExtractTextFromPdf(document: seq<string>) returns (text: string)
    ensures text == Concat(document)
  {
    text := "";
    for i := 0 to |document|
      invariant text == Concat(document[..i])
    {
      assert document[..i + 1] == document[..i] + [document[i]];
      ConcatAppend(document[..i], [document[i]]);
      assert Concat([document[i]]) == document[i] + Concat([]);
      text := text + document[i];
    }
    assert document[..|document|] == document;
  }

  // ---------------------------------------------------------------------------
  // API key
  // ---------------------------------------------------------------------------

  /**
   * `api_key or os.getenv(variable)` followed by the truthiness check: an
   * argument that is absent or empty falls back to the environment, and the
   * key is missing when that is absent or empty too.
   */
  function ResolveApiKey(apiKey: Option<string>, environment: map<string, string>, variable: string): (r: Option<string>)
    ensures r.Some? ==> r.value != ""
    ensures r.None? <==>
              && (apiKey.None? || apiKey.value == "")
              && (variable !in environment || environment[variable] == "")
    ensures apiKey.Some? && apiKey.value != "" ==> r == apiKey
    ensures r.Some? && r != apiKey ==> variable in environment && r.value == environment[variable]
  {
    if apiKey.Some? && apiKey.value != "" then apiKey
    else if variable in environment && environment[variable] != "" then Some(environment[variable])
    else None
  }
}
