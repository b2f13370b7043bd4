/**
 * `TextExtractor` of claude_text_extractor.py: text from a PDF through the
 * shared page loop, text from an image through the Anthropic messages API.
 */
module ClaudeTextExtractor {
  import opened Wrappers
  import opened TextExtraction

  /** The environment variable read when no key is passed. */
  const ApiKeyVariable := "ANTHROPIC_API_KEY"

  /** The message of the `ValueError` raised when no key is found. */
  const MissingKeyMessage :=
    "API key is required. Either pass it to the constructor or set ANTHROPIC_API_KEY environment variable."

  const Model := "claude-3-sonnet-20240229"
  const MaxTokens: nat := 4096
  const Prompt := "Please extract all the text content from this image. Format it in a clean, readable way."

  /** The media type declared for every image, whatever its extension. */
  const MediaType := "image/jpeg"

  /**
   * The `messages.create` call of the image branch: one user message holding
   * the prompt and the image, sent base64-encoded with the declared media type,
   * by a client authenticated with the extractor's key.
   */
  datatype MessagesRequest = MessagesRequest(
    apiKey: string,
    model: string,
    maxTokens: nat,
    prompt: string,
    mediaType: string,
    image: seq<bv8>)

  class TextExtractor {
    /** The resolved key; never empty. */
    const apiKey: string

    /** Builds an extractor around a key that has already been resolved. */
    constructor (apiKey: string)
      requires apiKey != ""
      ensures this.apiKey == apiKey
    {
      this.apiKey := apiKey;
    }

    /**
     * `__init__`: the key passed in, else `ANTHROPIC_API_KEY` from the
     * environment; a `ValueError` when both are absent or empty.
     */
    static method Create(apiKey: Option<string>, environment: map<string, string>)
      returns (r: Result<TextExtractor, ValueError>)
      ensures r.Failure? <==> ResolveApiKey(apiKey, environment, ApiKeyVariable).None?
      ensures r.Failure? ==> r.error == ValueError(MissingKeyMessage)
      ensures r.Success? ==> Some(r.value.apiKey) == ResolveApiKey(apiKey, environment, ApiKeyVariable)
    {
      var key := ResolveApiKey(apiKey, environment, ApiKeyVariable);
      if key.None? {
        return Failure(ValueError(MissingKeyMessage));
      }
      var extractor := new TextExtractor(key.value);
      return Success(extractor);
    }

    /**
     * `extract_text` for a file with the given extension. `document` is the
     * page texts of the file read as a PDF, `image` its bytes, and
     * `messagesCreate` the API's answer to a request.
     */
    method ExtractText(
      extension: string,
      document: seq<string>,
      image: seq<bv8>,
      messagesCreate: MessagesRequest -> string)
      returns (r: Result<string, ValueError>)
      ensures RouteOf(extension) == Pdf ==> r == Success(Concat(document))
      ensures RouteOf(extension) == Image ==>
                r == Success(messagesCreate(MessagesRequest(apiKey, Model, MaxTokens, Prompt, MediaType, image)))
      ensures RouteOf(extension) == Unsupported ==> r == Failure(ValueError(UnsupportedMessage(extension)))
    {
      match RouteOf(extension)
      case Pdf =>
        var text := ExtractTextFromPdf(document);
        r := Success(text);
      case Image =>
        var request := MessagesRequest(apiKey, Model, MaxTokens, Prompt, MediaType, image);
        r := Success(messagesCreate(request));
      case Unsupported =>
        r := Failure(ValueError(UnsupportedMessage(extension)));
    }
  }
}
