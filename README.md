# Profile picture generation: a Dafny model of the callable

`generateProfilePicture` is a Firebase callable function. It takes a signed-in
user's photo URL and an optional instruction. It then works in four stages:

- downloads the photo;
- asks the Gemini image model for a restyled portrait;
- stores the result in Cloud Storage and signs a one-week read URL for it;
- records the result in Firestore.

It returns the signed URL and the new result id. Every error the caller sees is
a typed `HttpsError`.

This project models that function (`functions/src/index.ts`) as a pipeline over
abstract service outcomes:

- **Calls.** Each awaited call into the outside world is an input, either
  `Returned(value)` or `Threw(reason)`. These calls are `fetch`, the body read,
  `generateContent`, `file.save`, `getSignedUrl` and the two Firestore writes.
- **Fresh id and clock.** The fresh `uuidv4()` and `Date.now()` are parameters.
- **Effect log.** Every call the handler issues is recorded, in order, in a log
  of effects. This lets the contracts say which calls happen in which failure
  case.

Modules:

- `Errors`: the error codes, `HttpsError`, and the `catch` block's coercion.
- `Text`: the JavaScript string built-ins the code relies on: `trim`,
  `toLowerCase`, `startsWith` and `join`.
- `Validation`: the handler's checks on the caller and the payload, in order,
  and the prompt default.
- `Download`: `downloadImage`, with content-type defaulting, lower-casing,
  alias rewriting and the allow-list.
- `Generation`: `runGemini` and its choice of the image part in the response.
- `Persistence`: `saveGeneratedImage`, covering the object path, the expiry and
  the four ordered writes.
- `Handler`: the callable itself, i.e. validation, then the `try` block with its
  `catch`.
- `Effects` and `Wrappers`: the call outcomes, the effect log, the stages, and
  `Option`/`Result`.

The stage functions are modelled as methods with early returns. Each returns
its effect log as an out-parameter. Each is specified against pure functions
(`DownloadError`, `SelectImage`, `ResultPath`, `SignedUrlExpiry`, `Writes`), and
the promised properties are proved about those functions as lemmas.

The URL rule follows the code, not a looser reading of it. The code accepts any
URL whose first four characters are `http`. So `httpx:stuff` passes validation,
and `HTTP://x` and `ftp://x` do not. A content-type header that is present but
empty is defaulted to JPEG like a missing one, because `''` is falsy.

## Model

| member | source | states |
|---|---|---|
| Errors.Coerce | functions/src/index.ts:55-61 | A typed error passes through unchanged. Anything else becomes `internal` with the fixed "Generation failed, please retry later." message. |
| Errors.CoercePreservesHandlerKinds | functions/src/index.ts:55-61 | If what was thrown is untyped or one of the four handler kinds, the coerced error is one of the four kinds. Coercing a coerced error changes nothing. |
| Text.Trim | functions/src/index.ts:28 | `trim` returns the infix of the input left once whitespace is cut from both ends: everything before and after it is whitespace. It is empty exactly when the input is all JavaScript whitespace. Otherwise it starts and ends with a non-whitespace character. |
| Text.TrimIdempotent | functions/src/index.ts:28 | Trimming twice is trimming once. |
| Text.TrimStripsSurrounding | functions/src/index.ts:28 | Whitespace around a string with non-whitespace ends is removed exactly, and the string is kept. |
| Text.Join | functions/src/index.ts:86 | `join` of no elements is empty. Otherwise the result starts with the first element and its length is the elements' lengths plus one separator between each pair of neighbours. |
| Text.LowerAscii | functions/src/index.ts:79 | `toLowerCase` keeps the length and maps each character through the ASCII lower-case map. No capital letter remains. |
| Text.LowerAsciiIdempotent | functions/src/index.ts:79 | Lower-casing is idempotent. A string with no capitals is unchanged. |
| Validation.EffectivePrompt | functions/src/index.ts:27-29 | The prompt is the trimmed prompt when that is non-empty. It is the fixed default when the prompt is absent or all whitespace. It is never empty and never starts or ends with whitespace. |
| Validation.PromptDefaulting | functions/src/index.ts:27-29 | The default is used exactly when the prompt is absent, all whitespace, or trims to the default itself. An empty prompt gets the default. |
| Validation.PromptIsTrimmed | functions/src/index.ts:27-29 | A prompt surrounded by whitespace is replaced by the prompt without it, not kept as given. |
| Validation.Validate | functions/src/index.ts:21-44 | A missing or empty uid gives `unauthenticated`. Otherwise a URL not starting with `http` gives `invalid-argument`. Otherwise a missing or empty key gives `failed-precondition`. Success holds exactly when all three checks pass, and carries the uid, the URL, the effective prompt and the key. Every failure is one of the handler's kinds. |
| Validation.UrlRule | functions/src/index.ts:26-36 | A URL is accepted exactly when its first four characters are `h`, `t`, `t`, `p`. `httpx:stuff` and `https://x/y.png` are accepted. `ftp://x/y.jpg`, a missing URL and `HTTP://x` are rejected. |
| Validation.CheckOrder | functions/src/index.ts:21-44 | Without a uid, the result is the same whatever the URL, prompt and key are. With a uid and a bad URL, the result is `invalid-argument` whatever the key is. |
| Download.NormaliseMime | functions/src/index.ts:79-82 | A missing or empty header gives `image/jpeg`. Otherwise the result is the header lower-cased, with `image/jpg` rewritten to `image/jpeg`. The result is never `image/jpg` and has no capitals. |
| Download.AcceptedHeaders | functions/src/index.ts:65-83 | A header is accepted exactly when it is missing, is empty, or lower-cases to one of the five supported types or to `image/jpg`. |
| Download.CaseInsensitive | functions/src/index.ts:79 | A header and its lower-cased form normalise to the same type. |
| Download.RejectionListsAllowed | functions/src/index.ts:84-87 | A rejection is `invalid-argument`. Its message is "Unsupported image mime type: " followed by the type, then ". Allowed: " and all five types in set order, separated by ", ". |
| Download.UnsupportedMimeError | functions/src/index.ts:84-87 | The rejection is `invalid-argument`, and its message begins "Unsupported image mime type: ", the rejected type, then ". Allowed: ". |
| Download.DownloadError | functions/src/index.ts:73-88 | The error of a failed download is untyped exactly when the GET threw, or the response was `ok` and reading its body threw. Every typed one is `invalid-argument`. |
| Download.DownloadErrorCases | functions/src/index.ts:73-88 | A thrown GET or body read propagates untyped. A response that is not `ok` gives "Unable to download image.". An unsupported type gives the rejection naming the normalised type. Every typed download error is `invalid-argument`. |
| Download.FailedDownloadIgnoresResponse | functions/src/index.ts:74-77 | A response that is not `ok` is rejected with the same error whatever its content type and body. |
| Download.DownloadedTypeSupported | functions/src/index.ts:79-89 | A successful download carries one of the five supported types, never `image/jpg`. |
| Download.DownloadImage | functions/src/index.ts:73-90 | Exactly one GET is issued. The download succeeds exactly when the call and body read return, the status is `ok` and the normalised type is supported. It then yields the body and the normalised type. Otherwise it fails with the error `DownloadError` assigns to that case. |
| Generation.FirstCandidateParts | functions/src/index.ts:118 | The parts searched are non-empty only when there is a first candidate with content, and they are then exactly that content's parts. A missing link gives no parts. |
| Generation.FindImagePart | functions/src/index.ts:119 | `find` returns the index of a part carrying non-empty inline data, and no earlier part carries any. It returns none exactly when no part carries data. |
| Generation.SelectImage | functions/src/index.ts:118-125 | The result fails, with `internal` "Gemini did not return an image.", exactly when no part of the first candidate carries data. Otherwise it is the data of the first part that does. |
| Generation.OnlyFirstCandidate | functions/src/index.ts:118 | Candidates after the first never affect the choice. |
| Generation.EmptyResponsesFail | functions/src/index.ts:118-123 | No candidates, a first candidate without content or parts, or an empty part list all give `internal`. |
| Generation.RunGemini | functions/src/index.ts:92-126 | One `generateContent` call is made with the fixed model, the prompt and the source image's type and bytes. The result is the selected image. An SDK error propagates untyped. A response without an image gives `internal`. |
| Persistence.ResultPath | functions/src/index.ts:136 | The object path lies under `users/<uid>/`, ends in `.jpg`, and is 21 characters longer than the uid and the result id together. |
| Persistence.SignedUrlExpiry | functions/src/index.ts:148 | The signed URL expires at `now + 604800000` milliseconds, one week later. |
| Persistence.ResultPathRoundTrip | functions/src/index.ts:136 | The result id can be read back from the user's object path. |
| Persistence.ResultPathInjective | functions/src/index.ts:135-136 | For one user, distinct result ids give distinct object paths, so no two results share an object. |
| Persistence.ResultPathDeterminesOwner | functions/src/index.ts:135-136 | For result ids without `/`, as `uuidv4()` produces, the path determines both the user and the result id, whatever the uids contain. No two users' results share an object. |
| Persistence.Writes | functions/src/index.ts:136-164 | A save that reaches the result record makes four writes. The first stores the object at the user's result path, and all four belong to the persisting stage. |
| Persistence.WritesAttempted | functions/src/index.ts:139-164 | Between one and four writes are issued, and all four exactly when the save, the signing and the merge return. |
| Persistence.SaveGeneratedImage | functions/src/index.ts:128-167 | The writes run in order: save, sign, merge, record. Each is attempted only after the previous one returned: the log is the first `WritesAttempted` of the four writes. The call succeeds exactly when all four return, with the signed URL and the fresh id. Every failure is untyped, and its log begins with the save call. |
| Handler.RunStages | functions/src/index.ts:46-61 | Implements the `try` block and its `catch`. A failed download stops after the GET, with its typed error or `internal`. A failed generation leaves exactly the GET and the model call, made with the validated prompt and the downloaded image and type, and no write. A failed write leaves the GET, the model call and the writes up to and including the one that threw, none after it, and answers `internal`. Success holds exactly when every stage succeeds, and then the log is the six calls in order and the reply carries the signed URL and the fresh id. Errors are one of four kinds, and the log only moves forward through the stages. |
| Handler.GenerateAndSave | functions/src/index.ts:47-61 | The same guarantees, once the download has produced the source image. |
| Handler.SaveAndReply | functions/src/index.ts:49-61 | The same guarantees, once the model has produced the image. |
| Handler.GenerateProfilePicture | functions/src/index.ts:14-63 | A validation failure returns its error with no outbound call made. Otherwise the stages run as above. The reply is a success exactly when validation and every stage succeed. Every error is `unauthenticated`, `invalid-argument`, `failed-precondition` or `internal`. |

## Left out

- Platform wiring is not modelled: `onCall`, region, CORS, secret injection, `initializeApp` and `logger.error`. The API key is an input, and its absence is the `failed-precondition` case.
- The HTTP transport and body buffering are not modelled. A fetch is its outcome: thrown, or a response carrying `ok`, the `content-type` header and the outcome of reading the body. Redirects and timeouts belong to the transport.
- Gemini SDK construction is not modelled. The system instruction text, the temperature `0.65` and the API key are not recorded in the `generateContent` effect. The response is taken as given.
- Base64 encoding and decoding through `Buffer` are not modelled. The source body is opaque bytes, and the generated image is identified with the base64 payload string the response carries.
- `uuidv4()` and `Date.now()` are parameters. Their freshness and monotonicity are not modelled, so distinct results rest on distinct ids (`Persistence.ResultPathInjective`).
- Firestore merge semantics, `serverTimestamp()`, the missing transaction across the writes, and Storage metadata beyond content type and cache control are left out. A write is an effect in the log.
- Persistence.ResultPathDeterminesOwner: the `uuidv4()` format is captured only as the hypothesis that result ids contain no `/`; the hex-and-hyphen shape itself is not modelled.
- Concurrent invocations are left out; each invocation is modelled on its own.
- Text.LowerAscii: models `toLowerCase` on ASCII letters only. Characters outside ASCII are kept. This can change the text of a rejection message for an unusual header, but never whether it is accepted: every supported type is pure ASCII, and the only non-ASCII character that lower-cases into ASCII is U+212A KELVIN SIGN, which becomes `k`, a letter no supported type contains.
- Text.Trim: the whitespace set is the ECMAScript WhiteSpace and LineTerminator code points with the Zs category as of Unicode 15; later Unicode changes are not followed.
- Validation.Validate: payload fields are optional strings. A non-string `imageUrl` or `prompt` is not modelled; in the source, calling `trim` or `startsWith` on one would throw a TypeError outside the `try` block.
- Validation.UrlRule: a URL such as `httpx:stuff` passes validation, and what `fetch` then does with it is a download outcome given as input.
