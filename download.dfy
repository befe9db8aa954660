/**
 * `downloadImage` (functions/src/index.ts, lines 65-90): one GET, a status
 * check, then the declared content type is defaulted, lower-cased, de-aliased
 * and checked against the five supported image types.
 */
module Download {
  import opened Wrappers
  import opened Errors
  import opened Text
  import opened Effects

  /** What the model keeps of a `fetch` response: `ok`, the `content-type`
      header if any, and the outcome of buffering the body. */
  datatype HttpResponse = HttpResponse(ok: bool, contentType: Option<string>, body: Call<Bytes>)

  datatype SourceImage = SourceImage(bytes: Bytes, mimeType: string)

  const DEFAULT_MIME_TYPE: string := "image/jpeg"
  const JPEG_ALIAS: string := "image/jpg"

  /** `SUPPORTED_MIME_TYPES`, in the set's insertion (iteration) order. */
  const SUPPORTED_MIME_TYPES: seq<string> :=
    ["image/jpeg", "image/png", "image/webp", "image/heic", "image/heif"]

  const ALLOWED_SEPARATOR: string := ", "
  const UNSUPPORTED_PREFIX: string := "Unsupported image mime type: "
  const ALLOWED_INFIX: string := ". Allowed: "

  const DOWNLOAD_FAILED_ERROR: HttpsError := HttpsError(InvalidArgument, "Unable to download image.")

  /** The rejection for an unsupported type names it and lists the allowed ones. */
  function UnsupportedMimeError(mimeType: string): (e: HttpsError)
    ensures e.code == InvalidArgument
    ensures StartsWith(e.message, UNSUPPORTED_PREFIX + mimeType + ALLOWED_INFIX)
  {
    HttpsError(InvalidArgument,
               UNSUPPORTED_PREFIX + mimeType + ALLOWED_INFIX + Join(SUPPORTED_MIME_TYPES, ALLOWED_SEPARATOR))
  }

  /** The content type `downloadImage` ends up with: a missing or empty header
      means JPEG; otherwise the header lower-cased, with `image/jpg` read as
      `image/jpeg`. */
  function NormaliseMime(header: Option<string>): (m: string)
    ensures m != JPEG_ALIAS
    ensures forall i :: 0 <= i < |m| ==> !IsAsciiUpper(m[i])
    ensures (header.None? || header.value == "") ==> m == DEFAULT_MIME_TYPE
    ensures header.Some? && header.value != "" && LowerAscii(header.value) == JPEG_ALIAS ==> m == DEFAULT_MIME_TYPE
    ensures header.Some? && header.value != "" && LowerAscii(header.value) != JPEG_ALIAS
            ==> m == LowerAscii(header.value)
  {
    var declared := if header.Some? && header.value != "" then header.value else DEFAULT_MIME_TYPE;
    var lowered := LowerAscii(declared);
    assert DEFAULT_MIME_TYPE[6] == 'j' && DEFAULT_MIME_TYPE[9] == 'g';
    LowerAsciiIdempotent(DEFAULT_MIME_TYPE);
    if lowered == JPEG_ALIAS then DEFAULT_MIME_TYPE else lowered
  }

  predicate IsSupportedMime(m: string) {
    m in SUPPORTED_MIME_TYPES
  }

  /** Which headers are accepted: none at all, an empty one, or one that
      lower-cases to a supported type or to the `image/jpg` alias. An accepted
      type is always one of the five. */
  lemma AcceptedHeaders(header: Option<string>)
    ensures IsSupportedMime(NormaliseMime(header))
            <==> header.None? || header.value == ""
                 || LowerAscii(header.value) in SUPPORTED_MIME_TYPES + [JPEG_ALIAS]
  {
  }

  /** The lower-casing makes the check case-insensitive for ASCII letters. */
  lemma CaseInsensitive(header: string)
    ensures NormaliseMime(Some(header)) == NormaliseMime(Some(LowerAscii(header)))
  {
  }

  /** The rejection message names the normalised type and lists all five
      allowed types, in set order. The list is one string; it is written in
      pieces because the verifier compares short literals with the joined set
      far more readily than one long literal. */
  lemma RejectionListsAllowed(mimeType: string)
    ensures UnsupportedMimeError(mimeType).code == InvalidArgument
    ensures UnsupportedMimeError(mimeType).message
            == "Unsupported image mime type: " + mimeType + ". Allowed: "
               + "image/jpeg, image/png, " + "image/webp, image/heic, " + "image/heif"
  {
    var xs, sep := SUPPORTED_MIME_TYPES, ALLOWED_SEPARATOR;
    assert Join(xs[4..], sep) == "image/heif";
    assert Join(xs[3..], sep) == "image/heic" + sep + Join(xs[4..], sep);
    assert Join(xs[2..], sep) == "image/webp" + sep + Join(xs[3..], sep);
    assert Join(xs[1..], sep) == "image/png" + sep + Join(xs[2..], sep);
    assert Join(xs, sep) == "image/jpeg" + sep + Join(xs[1..], sep);
  }

  /** The download yields a usable source image: the GET and the body read
      return, the status is ok, and the normalised type is supported. */
  predicate Downloadable(fetch: Call<HttpResponse>) {
    fetch.Returned? && fetch.value.ok && fetch.value.body.Returned?
    && IsSupportedMime(NormaliseMime(fetch.value.contentType))
  }

  /** What `downloadImage` throws for a download that is not usable. */
  function DownloadError(fetch: Call<HttpResponse>): (e: Thrown)
    requires !Downloadable(fetch)
    ensures e.Untyped? <==> fetch.Threw? || (fetch.value.ok && fetch.value.body.Threw?)
    ensures e.Typed? ==> e.err.code == InvalidArgument
  {
    if fetch.Threw? then Untyped(fetch.reason)
    else if !fetch.value.ok then Typed(DOWNLOAD_FAILED_ERROR)
    else if fetch.value.body.Threw? then Untyped(fetch.value.body.reason)
    else Typed(UnsupportedMimeError(NormaliseMime(fetch.value.contentType)))
  }

  /** The error for each way a download can fail: a thrown GET or body read
      propagates untyped; a response that is not `ok` is `invalid-argument`
      whatever its headers say; an unsupported type is `invalid-argument`
      naming the normalised type. */
  lemma DownloadErrorCases(fetch: Call<HttpResponse>)
    requires !Downloadable(fetch)
    ensures fetch.Threw? ==> DownloadError(fetch) == Untyped(fetch.reason)
    ensures fetch.Returned? && !fetch.value.ok ==> DownloadError(fetch) == Typed(DOWNLOAD_FAILED_ERROR)
    ensures fetch.Returned? && fetch.value.ok && fetch.value.body.Threw?
            ==> DownloadError(fetch) == Untyped(fetch.value.body.reason)
    ensures fetch.Returned? && fetch.value.ok && fetch.value.body.Returned?
            ==> DownloadError(fetch) == Typed(UnsupportedMimeError(NormaliseMime(fetch.value.contentType)))
    ensures DownloadError(fetch).Typed? ==> DownloadError(fetch).err.code == InvalidArgument
  {
  }

  /** A response that is not `ok` is rejected the same way whatever its
      content type and body: neither is examined. */
  lemma FailedDownloadIgnoresResponse(status: bool, type1: Option<string>, type2: Option<string>,
                                      body1: Call<Bytes>, body2: Call<Bytes>)
    requires !status
    ensures !Downloadable(Returned(HttpResponse(status, type1, body1)))
    ensures DownloadError(Returned(HttpResponse(status, type1, body1)))
            == DownloadError(Returned(HttpResponse(status, type2, body2)))
            == Typed(DOWNLOAD_FAILED_ERROR)
  {
  }

  /** A downloaded image always carries one of the five supported types, and
      never the `image/jpg` alias. */
  lemma DownloadedTypeSupported(fetch: Call<HttpResponse>)
    requires Downloadable(fetch)
    ensures NormaliseMime(fetch.value.contentType) in SUPPORTED_MIME_TYPES
    ensures NormaliseMime(fetch.value.contentType) != JPEG_ALIAS
  {
  }

  /** `downloadImage`: the GET is always issued; a response that is not `ok`
      is rejected before its headers or body are looked at; otherwise the
      body is buffered and the content type is normalised in place and checked. */
  method DownloadImage(url: string, fetch: Call<HttpResponse>) returns (r: Result<SourceImage, Thrown>, log: seq<Effect>)
    ensures log == [HttpGet(url)]
    ensures r.Success? <==> Downloadable(fetch)
    ensures r.Success? ==> r.value == SourceImage(fetch.value.body.value, NormaliseMime(fetch.value.contentType))
    ensures r.Failure? ==> r.error == DownloadError(fetch)
  {
    log := [HttpGet(url)];
    if fetch.Threw? {
      return Failure(Untyped(fetch.reason)), log;
    }
    var response := fetch.value;
    if !response.ok {
      return Failure(Typed(DOWNLOAD_FAILED_ERROR)), log;
    }
    if response.body.Threw? {
      return Failure(Untyped(response.body.reason)), log;
    }
    var declared := if response.contentType.Some? && response.contentType.value != ""
                    then response.contentType.value else DEFAULT_MIME_TYPE;
    var mimeType := LowerAscii(declared);
    if mimeType == JPEG_ALIAS {
      mimeType := DEFAULT_MIME_TYPE;
    }
    if mimeType !in SUPPORTED_MIME_TYPES {
      return Failure(Typed(UnsupportedMimeError(mimeType))), log;
    }
    r := Success(SourceImage(response.body.value, mimeType));
  }
}
