# Dialogflow CX webhook data model in Dafny

This project models the logic of a small Go package for Dialogflow CX
webhooks. The package decodes the platform's "detect-intent" webhook call into
a `WebhookRequest`. The fulfillment service then builds a `WebhookResponse`
that is encoded back to the platform. Most of the package is record
declarations. The model covers the logic between them:

- the session-path parser `SessionInfo.ExtractSession`, which returns part 7
  of `projects/P/locations/L/agents/A/sessions/S` split on `/`;
- the decode-result policies: the free `FromReader`/`FromRequest` treat
  `io.EOF` as an empty body, while the receiver methods of the same names pass
  every error on;
- the batch re-encoder `WebhookRequests.UnmarshalJSONToReaders`;
- the closed family of four response messages and the builders that append
  to, or replace, a response's message list;
- the rich-content card builder `RichContents.AddContents` and
  `NewRichContentsMessage`.

Layout (one module per file):

- `wrappers.dfy` (`Wrappers`): `Option` stands for nil pointers, and `Result`
  stands for Go's `(value, error)` returns.
- `errors.dfy` (`Errors`): the error values the package creates or compares,
  and the `%d` formatting of the "too short" message.
- `json.dfy` (`Json`): bytes, an opaque `float64`, a JSON value type, and the
  encoding/json codec as abstract function types. `Decoder<T>` takes the
  target's current value and the input. It yields the target's new value and
  the error. `Encoder<T>` yields the bytes or the error.
- `strings.dfy` (`Strings`): Go's `strings.Split` on a one-character
  separator, with `Join` as its inverse.
- `requests.dfy` (`Requests`): the request records as datatypes, the session
  parser and its lemmas, the decode policies, and the batch class.
- `responses.dfy` (`Responses`): the `Message` datatype and the response
  classes (`FulfillmentResponse`, `WebhookResponse`, `RichContents`), whose
  methods update their fields in place.

Three details of the code shape the model:

- The free `FromReader`/`FromRequest` accept `io.EOF` and return a request.
  The receiver methods of the same names return `io.EOF` as an error.
- `NewTextResponse` neither encodes nor enables playback interruption.
  `TextResponse` does both.
- `UnmarshalJSONToReaders` ignores the batch decode error. It then re-encodes
  whatever the slice holds.

## Model

| member | source | states |
|---|---|---|
| `Strings.Split` | requests.go:115 | the result has one part more than the number of separators, and no part contains the separator |
| `Strings.JoinSplit` | requests.go:115 | joining the parts of any string with the separator gives the string back |
| `Strings.SplitJoin` | requests.go:115 | splitting a join of one or more separator-free parts gives exactly those parts back |
| `Requests.SessionInfo.ExtractSession` | requests.go:113-121 | fails exactly when the path has fewer than 7 slashes (fewer than 8 parts); the error then carries the part count; on success the identifier contains no slash |
| `Requests.ExtractSessionOfParts` | requests.go:115-119 | for a path made of separator-free parts: fewer than 8 parts gives the error with that count, otherwise part 7 |
| `Requests.ExtractSessionOfEight` | requests.go:114-119 | any eight slash-free parts yield the last one; the first seven are not compared with `projects`, `locations`, `agents` or `sessions` |
| `Requests.ExtractSessionIgnoresRest` | requests.go:115-119 | parts after the eighth, whatever they contain, do not change the result |
| `Requests.ExtractSessionOfPath` | requests.go:114-119 | `projects/P/locations/L/agents/A/sessions/S` yields `S` |
| `Requests.ExtractSessionOfThree` | requests.go:116-117 | a three-part path fails with count 3 |
| `Requests.ExtractSessionWellFormedExample` | requests.go:114-119 | `projects/p/locations/l/agents/a/sessions/s1` yields `s1` |
| `Requests.ExtractSessionLongerExample` | requests.go:115-119 | the same path with `/x` appended still yields `s1` |
| `Requests.ExtractSessionRejectsExamples` | requests.go:115-117 | `too/short/path` fails with count 3; the empty string fails with count 1 |
| `Errors.Decimal` | requests.go:117 | `%d` output: at least one decimal digit, with a leading `0` only for zero |
| `Errors.ParseDecimalOfDecimal` | requests.go:117 | the digits printed for a count read back as that count |
| `Errors.TooShortCountRecoverable` | requests.go:117 | the "too short" message is the fixed prefix followed by digits that read back as the reported count |
| `Requests.FromReader` | requests.go:50-58 | decodes into a zero-valued request; succeeds exactly when the decoder reports no error or `io.EOF`, with the decoded request; otherwise fails with the decoder's error unchanged (never `io.EOF`) |
| `Requests.FromRequest` | requests.go:40-48 | the same policy as `FromReader`, applied to the body of the HTTP request |
| `Requests.EmptyBodyGivesZeroRequest` | requests.go:41-44 | if the decoder reports `io.EOF` before it writes anything, both free functions return the zero-valued request and no error |
| `Requests.WebhookRequestRef.constructor` | requests.go:12-22 | a request pointer holding the given request |
| `Requests.WebhookRequestRef.FromReader` | requests.go:32-38 | decodes into the current request in place; returns the decoder's error unchanged, `io.EOF` included |
| `Requests.WebhookRequestRef.FromRequest` | requests.go:24-30 | the same on the HTTP request body |
| `Requests.WebhookRequests.constructor` | requests.go:60 | a batch holding the given request pointers |
| `Requests.WebhookRequests.UnmarshalJSONReader` | requests.go:62-65 | the slice becomes what the decoder left; the decoder's error is returned |
| `Requests.WebhookRequests.UnmarshalJSONToReaders` | requests.go:68-80 | the slice is replaced by the batch decode whatever its error; the result is the in-order encoding of every element, or the first encode error |
| `Requests.EncodeAllSuccess` | requests.go:71-79 | the batch encoding succeeds exactly when every element encodes; it then holds one buffer per element, in order, each that element's encoding |
| `Requests.EncodeAllFirstFailure` | requests.go:73-76 | when element k is the first that fails to encode, the batch fails with element k's error |
| `Requests.EncodeAllPrefixFailure` | requests.go:73-76 | a failure inside a prefix of the batch is the failure of the whole batch (the loop returns at once) |
| `Responses.RichContents.constructor` | responses.go:77-79 | a payload with the given rows of cards |
| `Responses.RichContents.AddContents` | responses.go:81-84 | requires row 0 to exist; the card is appended to the end of row 0; the row count and every other row are unchanged |
| `Responses.NewRichContentsMessage` | responses.go:86-93 | the requires is what the source's call `rcm.Payload.AddContents(c)` needs of a zero-valued message's payload, which only a nil card meets; the result is a rich-contents message with a nil payload |
| `Responses.NewRichContentsMessageRejectsCards` | responses.go:87-91 | for every card, that precondition fails: the zero-valued message's payload is nil |
| `Responses.NewRichContentsMessageWithRow` | responses.go:86-93 | the corrected builder: nil gives a nil payload; a card gives a fresh payload with exactly one row holding exactly that card |
| `Responses.FulfillmentResponse.constructor` | responses.go:32-36 | a fulfillment response with the given messages and merge behaviour |
| `Responses.FulfillmentResponse.AddMessage` | responses.go:38-40 | the message list becomes the old list plus the message at the end; the merge behaviour is unchanged |
| `Responses.WebhookResponse.constructor` | responses.go:12-17 | a response from its four fields |
| `Responses.WebhookResponse.AddMessage` | responses.go:27-30 | requires an attached fulfillment response; appends the message to that same object, changes nothing else, and returns the receiver |
| `Responses.WebhookResponse.TextResponse` | responses.go:130-143 | a fresh fulfillment response replaces the old one; it holds one text message with the given strings, playback interruption on, and merge behaviour 0; page, session and payload are unchanged; the old fulfillment response object is not modified |
| `Responses.WebhookResponse.SSMLResponse` | responses.go:147-162 | a fresh fulfillment response replaces the old one; it holds one speech message whose source has the given SSML and empty text, playback interruption on, and merge behaviour 0; page, session and payload are unchanged; the old fulfillment response object is not modified |
| `Responses.NewTextResponse` | responses.go:116-128 | a fresh response with a fresh fulfillment response holding one text message with the given strings; playback interruption is off, merge behaviour is 0, and there is no page, session or payload |

## Left out

- encoding/json: decoding, encoding, `omitempty` and the wire shape of each message variant are not modelled. The codec is a function parameter (`Json.Decoder`, `Json.Encoder`) because its code is not part of this model.
- `WebhookResponse.Respond` (responses.go:19-25) is not modelled. Neither is the encode to the `http.ResponseWriter` at the end of `TextResponse` and `SSMLResponse` (responses.go:144, 163). Both are output; the model keeps only the state change made before the write.
- `net/http` and `io.Reader`/`bytes.Buffer`: a request is reduced to its body, and readers and buffers are byte sequences.
- `IntentInfo.Confidence` is a `float64`, kept as an opaque 64-bit pattern and never computed with.
- `interface{}` and `map[string]interface{}` values are a JSON-value datatype whose contents nothing reasons about.
- Nil and empty slices and maps are both the empty value. In the request types every slice and map field is `omitempty`, so the encoder used by `UnmarshalJSONToReaders` writes nil and empty alike. The response wire shape is not modelled; there the distinction matters for `RichContents.RichContent` (responses.go:78, no `omitempty`), where a nil row list encodes as `null` and an empty one as `[]`.
- Strings are sequences of characters, not bytes. Splitting on the ASCII `/` cuts at the same places either way.
- `Responses.RichContents.AddContents`: a row holds card values, not `*RichContent` pointers. Passing a nil card pointer straight to `AddContents`, which appends a nil entry, is not modelled.
- Text, speech and payload messages are values. The source holds them through pointers, but it never changes them after it builds them. Only the rich-contents payload is kept as a shared object.
- The `*PageInfo` and `*SessionInfo` fields of a response are optional values, not shared pointers.
- Three more pointer-level details are not captured. The batch's `[]*WebhookRequest` elements (requests.go:60) are held as optional values, so a caller holding an old element pointer, which encoding/json decodes into in place, is not shown to see it change. A nil `Message` interface value appended by `AddMessage(nil)` (responses.go:34, 39) is not representable in the `Message` datatype. The `""` that `ExtractSession` returns beside its error (requests.go:117) is not kept; an error result carries no string.
- `MergeBehavior` is a Go `int`; the package only stores 0 in it, so it is modelled as an unbounded integer.

## Findings

| source | as written | input that shows it | evidently intended | confidence | as-written member | corrected member |
|---|---|---|---|---|---|---|
| responses.go:86-93 | `NewRichContentsMessage` starts from a zero-valued message and calls `rcm.Payload.AddContents(c)`. `Payload` is still nil there, and no first row would exist even if it were allocated. | any non-nil card, e.g. `&RichContent{Type: "info"}` | a message whose payload has one row holding just that card | high; not executed | `Responses.NewRichContentsMessage`, `Responses.NewRichContentsMessageRejectsCards` | `Responses.NewRichContentsMessageWithRow` |
