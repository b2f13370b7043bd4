# llm-ocr-extract: order lookup and text-extraction dispatch in Dafny

The service takes an uploaded image or PDF and turns it into text. A PDF is
read locally, page by page. An image goes to one of three vision APIs:
Anthropic, OpenAI or Gemini. On the Gemini route, the handler also searches
the text for a purchase-order number and looks that number up in a small
in-memory order directory.

This project models the parts of that flow that are logic rather than glue.
It then proves what they promise.

- `wrappers.dfy` (`Wrappers`): `Option` and `Result`.
- `purchase_orders.dfy` (`PurchaseOrders`): the `Item` and `PurchaseOrder`
  records as datatypes.
  - The order-number parser is a pure function. It is specified
    declaratively: `MatchAt` says when the pattern
    `"purchaseOrderNumber": "([A-Za-z0-9-]+)"` matches at a position, and
    `LeftmostMatch` says that no match starts further left.
  - The directory `PurchaseOrderList` is a class whose field is a
    `seq<PurchaseOrder>`. `Add` appends to it. `GetPurchaseOrder` scans it
    with a loop and is proved equal to the first-match function `Lookup`.
- `text_extraction.dfy` (`TextExtraction`): what the three extractor classes
  share.
  - ASCII lower-casing and the three-way extension dispatch `RouteOf`.
  - The page-concatenation loop `ExtractTextFromPdf`, specified by `Concat`.
  - The key rule `api_key or os.getenv(NAME)`, then a truthiness check
    (`ResolveApiKey`).
  - `_extract_text_from_pdf` is the same code in all three source files
    (claude_text_extractor.py:26-33, openai_text_extractor.py:20-27 and
    google_text_extractor.py:23-30), so it is modelled once here.
- `claude_text_extractor.dfy`, `openai_text_extractor.dfy`,
  `google_text_extractor.dfy`: one class per extractor.
  - Each has a `Create` method. It models the `__init__` that can raise.
  - Each has an `ExtractText` method for `extract_text`.
  - The vision API call is a function parameter. It receives a request
    datatype that carries the source's constants: model name, token limit,
    prompt, and declared media or MIME type. The request also carries the
    extractor's resolved key, with which the client authenticates.
- `upload.dfy` (`Upload`): the parse-then-lookup step of the Gemini upload
  route. It also holds two worked examples of the parser, proved as lemmas.

Where the real program does I/O, the model takes the result as an input:

- The file extension (`os.path.splitext`).
- The environment (`os.getenv`, as a `map<string, string>`).
- The PDF, as its page texts.
- The image, as its bytes.
- The answer of the vision API, as a function from request to text.

## Model

| member | source | states |
|---|---|---|
| `PurchaseOrders.RunLength` | purchase_orders.py:39 | the greedy `[A-Za-z0-9-]+` run at a position: every character in it is in the class, and the character after it is not (or the text ends) |
| `PurchaseOrders.ValueAt` | purchase_orders.py:39 | at a given position the pattern matches with group `v` exactly when `ValueAt` returns `v`; at most one group can match at a position |
| `PurchaseOrders.FirstMatch` | purchase_orders.py:39 | returns the smallest position at or after `from` where the pattern matches; `None` means no position from `from` on matches |
| `PurchaseOrders.ParsePurchaseOrder` | purchase_orders.py:37-43 | non-`None` iff the pattern matches somewhere; the number is captured by the leftmost match; it is non-empty and within `[A-Za-z0-9-]`; items are empty and tracking number, date, customer name and address are absent |
| `PurchaseOrders.ParseReturnsLeftmost` | purchase_orders.py:39-41 | whenever `v` is captured by the leftmost match, the parser returns exactly the order with number `v` and nothing else set |
| `PurchaseOrders.ParsedNumberHasNoHashOrUnderscore` | purchase_orders.py:39 | a parsed number never contains `#` or `_`, so `#ORDER_571`..`#ORDER_575` can never be parsed |
| `PurchaseOrders.LookupFindsFirst` | purchase_orders.py:123-128 | lookup is absent iff no entry has the number, and returns the entry at the first position holding the number (exact, case-sensitive string equality) |
| `PurchaseOrders.LookupSkipsPrefix` | purchase_orders.py:125-127 | entries before the first one with the number do not affect the lookup |
| `PurchaseOrders.LookupAfterAppend` | purchase_orders.py:120-128 | after appending `o`, a lookup gives the same answer if the number was already present (first match wins, no uniqueness check), else `o` if it carries the number, else absent |
| `PurchaseOrders.SeedOrders` | purchase_orders.py:47-118 | the seed holds six orders with pairwise distinct numbers; the first five numbers start with `#` and the sixth is `W1506150551` |
| `PurchaseOrders.SeedLookups` | purchase_orders.py:46-118 | the seed has six orders; `#ORDER_571` resolves to tracking `LZ92738101` with quantities 1, 2, 3 at prices 100, 200, 300; `W1506150551` to tracking `75882988764` with one item of 16 at 1600; `NOPE` is absent |
| `PurchaseOrders.SeedLookupOfOrderNumber` | purchase_orders.py:53-113 | for any number of the parser's shape, a lookup in the seed is absent or yields the `W1506150551` record |
| `PurchaseOrders.PurchaseOrderList.constructor` | purchase_orders.py:46-118 | a new directory holds exactly the six seeded orders in source order |
| `PurchaseOrders.PurchaseOrderList.Add` | purchase_orders.py:120-121 | the new list is the old list with the order appended last; earlier entries keep their positions |
| `PurchaseOrders.PurchaseOrderList.GetPurchaseOrder` | purchase_orders.py:123-128 | the loop returns the first entry whose number equals the argument (`Lookup`), or `None`; the method changes nothing |
| `PurchaseOrders.PurchaseOrderList.GetPurchaseOrders` | purchase_orders.py:130-131 | returns the current list unchanged and modifies nothing, so two calls with no `Add` between them agree |
| `TextExtraction.Lower` | claude_text_extractor.py:45 | lower-casing keeps the length and lowers each character where it stands |
| `TextExtraction.RouteOf` | claude_text_extractor.py:45-50 | only a four-character extension starting with `.` can take the PDF branch, and only a four- or five-character one starting with `.` the image branch |
| `TextExtraction.UnsupportedMessage` | claude_text_extractor.py:80 | the message is `Unsupported file type: ` followed by the extension, equal to it up to letter case and itself in lower case |
| `TextExtraction.LowerEqualsIffSameIgnoringCase` | claude_text_extractor.py:45-50 | the lower-cased extension equals a lower-case literal iff the extension equals it up to letter case |
| `TextExtraction.RouteIgnoresCase` | claude_text_extractor.py:45-50 | extensions that differ only in letter case take the same branch |
| `TextExtraction.RouteByExtension` | claude_text_extractor.py:45-52 | the PDF branch is taken iff the extension is `.pdf` in any case; the vision branch iff it is `.jpg`, `.jpeg` or `.png` in any case; the branches are exclusive and all else is rejected |
| `TextExtraction.RouteExamplesMixedCase` | claude_text_extractor.py:45-50 | `.PDF` routes to PDF; `.Png` and `.JPEG` route to the vision call |
| `TextExtraction.RouteExamplesUnsupported` | claude_text_extractor.py:79-80 | `""`, `.gif` and `pdf` (no dot) are unsupported |
| `TextExtraction.ConcatAppend` | claude_text_extractor.py:29-31 | the text of a document split in two is the text of the first part followed by that of the second |
| `TextExtraction.ConcatLength` | claude_text_extractor.py:29-31 | the PDF text is exactly as long as all page texts together: no separator is added |
| `TextExtraction.PageInPlace` | claude_text_extractor.py:29-31 | page `k`'s text appears verbatim immediately after the text of pages `0..k-1` |
| `TextExtraction.ExtractTextFromPdf` | claude_text_extractor.py:26-33 | the accumulator loop returns the in-order concatenation of the page texts (`""` for no pages) |
| `TextExtraction.ResolveApiKey` | claude_text_extractor.py:15-17 | the key is missing iff the argument and the environment variable are each absent or empty; a non-empty argument wins over the environment; a resolved key is never empty and otherwise comes from the environment |
| `ClaudeTextExtractor.TextExtractor.constructor` | claude_text_extractor.py:15 | the extractor keeps the key it is given; only `Create` calls it, with a key that has already been resolved |
| `ClaudeTextExtractor.TextExtractor.Create` | claude_text_extractor.py:10-19 | construction fails with the source's `ValueError` message iff no key resolves from the argument or `ANTHROPIC_API_KEY`; otherwise the extractor holds the resolved key |
| `ClaudeTextExtractor.TextExtractor.ExtractText` | claude_text_extractor.py:35-80 | `.pdf` yields exactly the PDF text; `.jpg`/`.jpeg`/`.png` yield exactly the answer to a `claude-3-sonnet-20240229` request of 4096 tokens declaring `image/jpeg` whatever the extension, authenticated with the extractor's key; anything else fails with `Unsupported file type: ` and the lower-cased extension |
| `OpenAITextExtractor.OpenAIVisionTextExtractor.constructor` | openai_text_extractor.py:14 | the extractor keeps the key it is given; only `Create` calls it, with a key that has already been resolved |
| `OpenAITextExtractor.OpenAIVisionTextExtractor.Create` | openai_text_extractor.py:9-18 | construction fails with the source's `ValueError` message iff no key resolves from the argument or `OPENAI_API_KEY`; otherwise the extractor holds the resolved key |
| `OpenAITextExtractor.OpenAIVisionTextExtractor.ExtractText` | openai_text_extractor.py:29-71 | `.pdf` yields exactly the PDF text; image extensions yield exactly the answer to a `gpt-4-vision-preview` request with a `data:image/jpeg;base64,` URL, authenticated with the extractor's key; anything else fails with `Unsupported file type: ` and the lower-cased extension |
| `GoogleTextExtractor.ImageMimeType` | google_text_extractor.py:62 | the MIME type is `image/` followed by the extension without its first character, equal to it up to letter case and itself in lower case |
| `GoogleTextExtractor.ImageMimeTypeByExtension` | google_text_extractor.py:62 | the declared MIME type is `image/` plus the extension without its dot: `.jpg` gives `image/jpg`, `.jpeg` gives `image/jpeg`, `.png` gives `image/png`, in any letter case |
| `GoogleTextExtractor.GoogleVisionTextExtractor.constructor` | google_text_extractor.py:17 | the extractor keeps the key it is given; only `Create` calls it, with a key that has already been resolved |
| `GoogleTextExtractor.GoogleVisionTextExtractor.Create` | google_text_extractor.py:12-21 | construction fails with the source's `ValueError` message iff no key resolves from the argument or `GOOGLE_API_KEY`; otherwise the extractor holds the resolved key |
| `GoogleTextExtractor.GoogleVisionTextExtractor.ExtractText` | google_text_extractor.py:32-68 | `.pdf` yields exactly the PDF text; image extensions yield exactly the answer to a `gemini-2.0-flash-exp` request with the packing-slip prompt and MIME type `image/<ext>`, sent with the extractor's key; anything else fails with `Unsupported file type: ` and the lower-cased extension |
| `Upload.ParseThenLookup` | main.py:90-93 | the result is absent when parsing fails, else the lookup of the parsed number in a fresh directory; it is present iff the parsed number is `W1506150551`, and then it is that seeded record |
| `Upload.PackingSlipParsesAndResolves` | main.py:88-93 | `{"purchaseOrderNumber": "W1506150551", "items": []}` parses to `W1506150551`, which resolves to tracking `75882988764` with one item of 16 at 1600 |
| `Upload.NoMatchWithoutKeyStart` | purchase_orders.py:39 | a match can start only at a `"` followed by `p` |
| `Upload.MalformedOccurrenceIsSkipped` | purchase_orders.py:39 | an earlier occurrence with value `#X` does not stop the search: the later `AB-1` is returned |

## Left out

- The HTTP layer of main.py is not modelled: routes, content-type checks, saving uploads, file sizes and JSON responses. Only the parse-then-lookup step at main.py:90-93 is modelled. main.py builds its extractors at import time, and two of them are commented out; that is not modelled either.
- The vision SDK calls are function parameters that return a string. These are `messages.create`, `chat.completions.create` and `models.generate_content`. Their network failures and exceptions are not modelled.
- In claude_text_extractor.py:19 and openai_text_extractor.py:18 the client is the integer placeholder `5`, so the real image branch of those two classes fails when it looks up the client's attribute. The model treats the client as the SDK client named in the commented-out code.
- Building the Gemini client (`genai.Client`, google_text_extractor.py:21) is not modelled, and neither are its failures.
- Base64 encoding of the image bytes is not modelled. A request carries the raw bytes.
- Opening and reading the file is not modelled, and neither is PyMuPDF. A PDF is given as its page texts, and an unreadable PDF (which raises in the source) is not represented.
- ClaudeTextExtractor.TextExtractor.ExtractText: the contract does not say that the unsupported branch reads no file, because the file's page texts and bytes are inputs. It says only that the result depends on neither. The same holds for the OpenAI and Gemini `ExtractText`.
- `os.path.splitext` and `os.getenv` are not modelled. The extension and the environment are inputs.
- TextExtraction.Lower: only ASCII letters are lowered, whereas Python's `str.lower()` covers all of Unicode. This cannot change the branch taken, since no non-ASCII character lower-cases to the ASCII letters of `.pdf`, `.jpg`, `.jpeg` or `.png`. It can change the extension as quoted in the `Unsupported file type` message, and the MIME type Gemini is sent.
- `itemPrice` is an optional integer rather than a float. No arithmetic is done on it, and every seeded price is whole.
- The Pydantic serialisation helpers (`to_dict`, `to_json`, `from_dict`, `from_json`, purchase_orders.py:23-35) are library wrappers and are not modelled.
- `get_purchase_orders` returns the underlying Python list itself, so a caller could mutate the directory through it. The model returns an immutable sequence, so this aliasing is not captured.
- The `print` calls are logging and are left out.
- Concurrency is left out. Each request builds its own `PurchaseOrderList`, so the directory is never shared.
