/**
 * The checks at the top of the `generateProfilePicture` handler
 * (functions/src/index.ts, lines 21-44): caller identity, image URL, prompt
 * default and API key, in that order.
 */
module Validation {
  import opened Wrappers
  import opened Errors
  import opened Text

  /** The callable's input: the caller's uid from the auth context, and the
      payload's `imageUrl` and `prompt`, each possibly absent. */
  datatype Request = Request(uid: Option<string>, imageUrl: Option<string>, prompt: Option<string>)

  /** What survives validation. */
  datatype Validated = Validated(uid: string, imageUrl: string, prompt: string, apiKey: string)

  /** One sentence, written in pieces only because the verifier indexes a
      concatenation of short literals far more readily than one long literal. */
  const DEFAULT_PROMPT: string := "Create a professional " + "profile headshot " + "with even lighting."
  const URL_SCHEME_PREFIX: string := "http"

  const UNAUTHENTICATED_ERROR: HttpsError := HttpsError(Unauthenticated, "Authentication required.")
  const INVALID_URL_ERROR: HttpsError := HttpsError(InvalidArgument, "A valid HTTPS imageUrl is required.")
  const MISSING_KEY_ERROR: HttpsError :=
    HttpsError(FailedPrecondition, "GEMINI_API_KEY secret is not configured.")

  /** JavaScript truthiness of an optional string: present and non-empty. */
  predicate Truthy(s: Option<string>) {
    s.Some? && s.value != ""
  }

  /** `imageUrl ?? ''`. */
  function UrlOrEmpty(u: Option<string>): string {
    if u.Some? then u.value else ""
  }

  /** The URL rule: `startsWith('http')`, nothing more. */
  predicate IsAcceptedUrl(url: string) {
    StartsWith(url, URL_SCHEME_PREFIX)
  }

  /** `prompt?.trim() || DEFAULT_PROMPT`: the trimmed prompt, or the default
      when the prompt is absent or only whitespace. */
  function EffectivePrompt(p: Option<string>): (r: string)
    ensures (p.None? || AllWhitespace(p.value)) ==> r == DEFAULT_PROMPT
    ensures (p.Some? && !AllWhitespace(p.value)) ==> r == Trim(p.value)
    ensures r != [] && !IsJsWhitespace(r[0]) && !IsJsWhitespace(r[|r| - 1])
  {
    var trimmed := if p.Some? then Trim(p.value) else "";
    assert DEFAULT_PROMPT[0] == 'C' && DEFAULT_PROMPT[57] == '.';
    if trimmed != "" then trimmed else DEFAULT_PROMPT
  }

  /** The handler's checks, in source order: uid, then URL, then API key. */
  function Validate(req: Request, apiKey: Option<string>): (r: Result<Validated, HttpsError>)
    ensures !Truthy(req.uid) ==> r == Failure(UNAUTHENTICATED_ERROR)
    ensures Truthy(req.uid) && !IsAcceptedUrl(UrlOrEmpty(req.imageUrl)) ==> r == Failure(INVALID_URL_ERROR)
    ensures Truthy(req.uid) && IsAcceptedUrl(UrlOrEmpty(req.imageUrl)) && !Truthy(apiKey)
            ==> r == Failure(MISSING_KEY_ERROR)
    ensures r.Success? <==> Truthy(req.uid) && IsAcceptedUrl(UrlOrEmpty(req.imageUrl)) && Truthy(apiKey)
    ensures r.Success? ==> r.value == Validated(req.uid.value, req.imageUrl.value,
                                                EffectivePrompt(req.prompt), apiKey.value)
    ensures r.Failure? ==> IsHandlerKind(r.error.code)
  {
    var uid := req.uid;
    var imageUrl := UrlOrEmpty(req.imageUrl);
    var prompt := EffectivePrompt(req.prompt);
    if !Truthy(uid) then Failure(UNAUTHENTICATED_ERROR)
    else if !IsAcceptedUrl(imageUrl) then Failure(INVALID_URL_ERROR)
    else if !Truthy(apiKey) then Failure(MISSING_KEY_ERROR)
    else Success(Validated(uid.value, imageUrl, prompt, apiKey.value))
  }

  /** The URL is accepted exactly when its first four characters are `http`:
      a missing URL, an `ftp://` URL and a plain `http` lookalike all follow
      from this. */
  lemma UrlRule(url: string)
    ensures IsAcceptedUrl(url) <==> |url| >= 4 && url[0] == 'h' && url[1] == 't' && url[2] == 't' && url[3] == 'p'
    ensures IsAcceptedUrl("httpx:stuff") && IsAcceptedUrl("https://x/y.png")
    ensures !IsAcceptedUrl("ftp://x/y.jpg") && !IsAcceptedUrl(UrlOrEmpty(None)) && !IsAcceptedUrl("HTTP://x")
  {
    if |url| >= 4 && url[0] == 'h' && url[1] == 't' && url[2] == 't' && url[3] == 'p' {
      assert url[..4] == URL_SCHEME_PREFIX;
    }
    assert "httpx:stuff"[..4] == URL_SCHEME_PREFIX;
    assert "ftp://x/y.jpg"[0] != URL_SCHEME_PREFIX[0];
    assert "HTTP://x"[0] != URL_SCHEME_PREFIX[0];
    assert "https://x/y.png"[..4] == URL_SCHEME_PREFIX;
  }

  /** The prompt is replaced by the default exactly when it is absent or all
      whitespace (or trims to the default itself). */
  lemma PromptDefaulting(p: Option<string>)
    ensures EffectivePrompt(p) == DEFAULT_PROMPT
            <==> p.None? || AllWhitespace(p.value) || Trim(p.value) == DEFAULT_PROMPT
    ensures EffectivePrompt(Some("")) == DEFAULT_PROMPT
  {
  }

  /** A present prompt is trimmed, not kept as given: whitespace around a
      prompt is removed and the prompt itself is kept. */
  lemma PromptIsTrimmed(before: string, prompt: string, after: string)
    requires AllWhitespace(before) && AllWhitespace(after)
    requires prompt != [] && !IsJsWhitespace(prompt[0]) && !IsJsWhitespace(prompt[|prompt| - 1])
    ensures EffectivePrompt(Some(before + prompt + after)) == prompt
  {
    TrimStripsSurrounding(before, prompt, after);
  }

  /** Failures are decided in a fixed order: a missing uid wins over every other
      input, and a bad URL over a missing key. */
  lemma CheckOrder(req: Request, other: Request, apiKey: Option<string>, otherKey: Option<string>)
    ensures !Truthy(req.uid) && !Truthy(other.uid) ==> Validate(req, apiKey) == Validate(other, otherKey)
    ensures Truthy(req.uid) && !IsAcceptedUrl(UrlOrEmpty(req.imageUrl))
            ==> Validate(req, apiKey) == Validate(req, otherKey) == Failure(INVALID_URL_ERROR)
  {
  }
}
