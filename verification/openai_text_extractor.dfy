/**
 * `OpenAIVisionTextExtractor` of openai_text_extractor.py: text from a PDF
 * through the shared page loop, text from an image through the OpenAI chat
 * completions API.
 */
module OpenAITextExtractor {
  import opened Wrappers
  import opened TextExtraction

  /** The environment variable read when no key is passed. */
  const ApiKeyVariable := "OPENAI_API_KEY"

  /** The message of the `ValueError` raised when no key is found. */
  const MissingKeyMessage :=
    "OpenAI API key is required. Either pass it to the constructor or set OPENAI_API_KEY environment variable."

  const Model := "gpt-4-vision-preview"
  const MaxTokens: nat := 4096
  const Prompt := "Please extract all the text content from this image. Format it in a clean, readable way."

  /** The data-URL prefix put before the base64 image, whatever its extension. */
  const ImageUrlPrefix := "data:image/jpeg;base64,"

  /**
   * The `chat.completions.create` call of the image branch: one user message
   * holding the prompt and the image as a base64 data URL, by a client
   * authenticated with the extractor's key.
   */
  datatype ChatRequest = ChatRequest(
    apiKey: string,
    model: string,
    maxTokens: nat,
    prompt: string,
    imageUrlPrefix: string,
    image: seq<bv8>)

  class OpenAIVisionTextExtractor {
    /** The resolved key; never empty. */
    const apiKey: string

    /** Builds an extractor around a key that has already been resolved. */
    constructor (apiKey: string)
      requires apiKey != ""
      ensures this.apiKey == apiKey
    {
      this.apiKey := apiKey;
    }

    /**
     * `__init__`: the key passed in, else `OPENAI_API_KEY` from the
     * environment; a `ValueError` when both are absent or empty.
     */
    static method Create(apiKey: Option<string>, environment: map<string, string>)
      returns (r: Result<OpenAIVisionTextExtractor, ValueError>)
      ensures r.Failure? <==> ResolveApiKey(apiKey, environment, ApiKeyVariable).None?
      ensures r.Failure? ==> r.error == ValueError(MissingKeyMessage)
      ensures r.Success? ==> Some(r.value.apiKey) == ResolveApiKey(apiKey, environment, ApiKeyVariable)
    {
      var key := ResolveApiKey(apiKey, environment, ApiKeyVariable);
      if key.None? {
        return Failure(ValueError(MissingKeyMessage));
      }
      var extractor := new OpenAIVisionTextExtractor(key.value);
      return Success(extractor);
    }

    /**
     * `extract_text` for a file with the given extension. `document` is the
     * page texts of the file read as a PDF, `image` its bytes, and
     * `completionsCreate` the content of the API's first choice for a request.
     */
    method ExtractText(
      extension: string,
      document: seq<string>,
      image: seq<bv8>,
      completionsCreate: ChatRequest -> string)
      returns (r: Result<string, ValueError>)
      ensures RouteOf(extension) == Pdf ==> r == Success(Concat(document))
      ensures RouteOf(extension) == Image ==>
                r == Success(completionsCreate(ChatRequest(apiKey, Model, MaxTokens, Prompt, ImageUrlPrefix, image)))
      ensures RouteOf(extension) == Unsupported ==> r == Failure(ValueError(UnsupportedMessage(extension)))
    {
      match RouteOf(extension)
      case Pdf =>
        var text := ExtractTextFromPdf(document);
        r := Success(text);
      case Image =>
        var request := ChatRequest(apiKey, Model, MaxTokens, Prompt, ImageUrlPrefix, image);
        r := Success(completionsCreate(request));
      case Unsupported =>
        r := Failure(ValueError(UnsupportedMessage(extension)));
    }
  }
}
