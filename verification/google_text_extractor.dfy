/**
 * `GoogleVisionTextExtractor` of google_text_extractor.py: text from a PDF
 * through the shared page loop, text from an image through the Gemini
 * `generate_content` API, which is asked for a packing slip as JSON.
 */
module GoogleTextExtractor {
  import opened Wrappers
  import opened TextExtraction

  /** The environment variable read when no key is passed. */
  const ApiKeyVariable := "GOOGLE_API_KEY"

  /** The message of the `ValueError` raised when no key is found. */
  const MissingKeyMessage :=
    "API key is required. Either pass it to the constructor or set GOOGLE_API_KEY environment variable."

  const Model := "gemini-2.0-flash-exp"

  /** The instruction sent with every image, its line breaks and indentation included. */
  const Prompt :=
    "Extract all the text content from the attached image of a packing slip. Return the result in a strict JSON format:\n                    \n                    Use this JSON schema:\n                    Item = {'itemName': str, 'itemQuantity': int, 'itemPrice': float}\n                    PackingSlip = {'trackingNumber': str, 'date': str, 'customerName': str, 'customerAddress': str, 'purchaseOrderNumber': str, 'items': list[Item]}\n                    Return: PackingSlip\n                    "

  /**
   * The `models.generate_content` call of the image branch: the prompt and
   * the raw image bytes with their declared MIME type, by the client built
   * with the extractor's key.
   */
  datatype GenerateRequest = GenerateRequest(
    apiKey: string,
    model: string,
    prompt: string,
    mimeType: string,
    image: seq<bv8>)

  /** The MIME type declared for an image: `image/` and the lower-cased extension without its dot. */
  function ImageMimeType(extension: string): (m: string)
    requires |extension| > 0
    ensures |m| == 5 + |extension|
    ensures m[..6] == "image/"
    ensures SameIgnoringCase(m[6..], extension[1..])
    ensures Lower(m[6..]) == m[6..]
  {
    "image/" + Lower(extension)[1..]
  }

  /**
   * The declared MIME type follows the extension: `.jpg` in any case gives
   * `image/jpg` (not `image/jpeg`), `.jpeg` gives `image/jpeg`, `.png` gives `image/png`.
   */
  lemma ImageMimeTypeByExtension(extension: string)
    requires RouteOf(extension) == Image
    ensures |extension| > 0
    ensures ImageMimeType(extension) ==
              if SameIgnoringCase(extension, ".jpg") then "image/jpg"
              else if SameIgnoringCase(extension, ".jpeg") then "image/jpeg"
              else "image/png"
  {
  }

  class GoogleVisionTextExtractor {
    /** The resolved key; never empty. */
    const apiKey: string

    /** Builds an extractor around a key that has already been resolved. */
    constructor (apiKey: string)
      requires apiKey != ""
      ensures this.apiKey == apiKey
    {
      this.apiKey := apiKey;
    }

    /**
     * `__init__`: the key passed in, else `GOOGLE_API_KEY` from the
     * environment; a `ValueError` when both are absent or empty.
     */
    static method Create(apiKey: Option<string>, environment: map<string, string>)
      returns (r: Result<GoogleVisionTextExtractor, ValueError>)
      ensures r.Failure? <==> ResolveApiKey(apiKey, environment, ApiKeyVariable).None?
      ensures r.Failure? ==> r.error == ValueError(MissingKeyMessage)
      ensures r.Success? ==> Some(r.value.apiKey) == ResolveApiKey(apiKey, environment, ApiKeyVariable)
    {
      var key := ResolveApiKey(apiKey, environment, ApiKeyVariable);
      if key.None? {
        return Failure(ValueError(MissingKeyMessage));
      }
      var extractor := new GoogleVisionTextExtractor(key.value);
      return Success(extractor);
    }

    /**
     * `extract_text` for a file with the given extension. `document` is the
     * page texts of the file read as a PDF, `image` its bytes, and
     * `generateContent` the text of the API's response to a request.
     */
    method ExtractText(
      extension: string,
      document: seq<string>,
      image: seq<bv8>,
      generateContent: GenerateRequest -> string)
      returns (r: Result<string, ValueError>)
      ensures RouteOf(extension) == Pdf ==> r == Success(Concat(document))
      ensures RouteOf(extension) == Image ==>
                |extension| > 0 &&
                r == Success(generateContent(GenerateRequest(apiKey, Model, Prompt, ImageMimeType(extension), image)))
      ensures RouteOf(extension) == Unsupported ==> r == Failure(ValueError(UnsupportedMessage(extension)))
    {
      match RouteOf(extension)
      case Pdf =>
        var text := ExtractTextFromPdf(document);
        r := Success(text);
      case Image =>
        var request := GenerateRequest(apiKey, Model, Prompt, ImageMimeType(extension), image);
        r := Success(generateContent(request));
      case Unsupported =>
        r := Failure(ValueError(UnsupportedMessage(extension)));
    }
  }
}
