/**
 * The `generateProfilePicture` callable (functions/src/index.ts, lines 14-63):
 * validate, then download, generate and persist inside one `try`, coercing
 * whatever a stage throws into a typed error.
 */
module Handler {
  import opened Wrappers
  import opened Errors
  import opened Effects
  import opened Validation
  import opened Download
  import opened Generation
  import opened Persistence

  /** Everything the outside world decides for one invocation: the outcome of
      each awaited call, the fresh `uuidv4()` and `Date.now()`. */
  datatype Services = Services(
    fetch: Call<HttpResponse>,
    model: Call<GenerateResponse>,
    freshId: string,
    now: int,
    save: Call<()>,
    sign: Call<string>,
    mergeUser: Call<()>,
    writeResult: Call<()>)

  /** The callable's success payload. */
  datatype Reply = Reply(imageUrl: string, resultId: string)

  /** The generic error every untyped failure becomes. */
  const GENERIC_FAILURE: HttpsError := HttpsError(Internal, GENERIC_FAILURE_MESSAGE)

  /** The model returns a response holding an image. */
  predicate Generates(model: Call<GenerateResponse>) {
    model.Returned? && SelectImage(model.value).Success?
  }

  /** The four writes all return. */
  predicate Persists(svc: Services) {
    svc.save.Returned? && svc.sign.Returned? && svc.mergeUser.Returned? && svc.writeResult.Returned?
  }

  /** The two calls made before any write: the GET and the model call. */
  function CallsBeforeWrites(v: Validated, svc: Services): seq<Effect>
    requires Downloadable(svc.fetch)
  {
    [HttpGet(v.imageUrl),
     GenerateContent(MODEL_NAME, v.prompt, NormaliseMime(svc.fetch.value.contentType), svc.fetch.value.body.value)]
  }

  /** The writes issued once the model has produced an image: each one up to
      and including the first that throws. */
  function WritesIssued(v: Validated, svc: Services): seq<Effect>
    requires Generates(svc.model)
  {
    Writes(v.uid, SelectImage(svc.model.value).value, v.prompt, svc.freshId, svc.now,
           if svc.sign.Returned? then svc.sign.value else "")
      [..WritesAttempted(svc.save, svc.sign, svc.mergeUser)]
  }

  /** The complete log of a successful invocation. */
  function SuccessLog(v: Validated, svc: Services): seq<Effect>
    requires Downloadable(svc.fetch) && Generates(svc.model) && svc.sign.Returned?
  {
    CallsBeforeWrites(v, svc)
    + Writes(v.uid, SelectImage(svc.model.value).value, v.prompt, svc.freshId, svc.now, svc.sign.value)
  }

  /** What the `try` block (download, generate, persist, then the `catch`)
      does for validated input `v`: each stage's exits, and the full log on
      success. */
  ghost predicate StagesBehave(v: Validated, svc: Services, r: Result<Reply, HttpsError>,
                               log: seq<Effect>, halted: Phase)
  {
    // The download is always the first call.
    && halted != Validating && |log| >= 1 && log[0] == HttpGet(v.imageUrl)
    // The download stage's exits: nothing after the GET is attempted.
    && (!Downloadable(svc.fetch)
        ==> halted == Fetching && |log| == 1
            && r == Failure(
                 if svc.fetch.Returned? && !svc.fetch.value.ok then DOWNLOAD_FAILED_ERROR
                 else if svc.fetch.Returned? && svc.fetch.value.body.Returned?
                 then UnsupportedMimeError(NormaliseMime(svc.fetch.value.contentType))
                 else GENERIC_FAILURE))
    // The generation stage's exits: the model was called with the prompt and
    // the downloaded image, and no write is attempted.
    && (Downloadable(svc.fetch) && !Generates(svc.model)
        ==> halted == Generating && log == CallsBeforeWrites(v, svc)
            && r == Failure(if svc.model.Threw? then GENERIC_FAILURE else NO_IMAGE_ERROR))
    // The persistence stage's exits: the writes up to the one that threw are
    // issued, none after it, and the caller gets `internal`.
    && (Downloadable(svc.fetch) && Generates(svc.model) && !Persists(svc)
        ==> halted == Persisting && log == CallsBeforeWrites(v, svc) + WritesIssued(v, svc)
            && r == Failure(GENERIC_FAILURE))
    // Success: exactly the six calls; the reply names the fresh id and the signed URL.
    && (r.Success? <==> Downloadable(svc.fetch) && Generates(svc.model) && Persists(svc))
    && (r.Success? ==> halted == Done && r.value == Reply(svc.sign.value, svc.freshId)
                       && log == SuccessLog(v, svc))
    // Four kinds of error, and the stages only ever move forward.
    && (r.Failure? ==> IsHandlerKind(r.error.code) && halted != Done)
    && ForwardOnly(log, halted)
  }

  /** The `try` block with its `catch` (lines 46-61). */
  method RunStages(v: Validated, svc: Services) returns (r: Result<Reply, HttpsError>, log: seq<Effect>, halted: Phase)
    ensures StagesBehave(v, svc, r, log, halted)
  {
    var source;
    source, log := DownloadImage(v.imageUrl, svc.fetch);
    if source.Failure? {
      FetchExit(v, svc, source.error);
      return Failure(Coerce(source.error)), log, Fetching;
    }
    r, log, halted := GenerateAndSave(v, svc, source.value, log);
  }

  /** The `try` block once the download has produced `source`: the model
      call, then the writes. */
  method GenerateAndSave(v: Validated, svc: Services, source: SourceImage, before: seq<Effect>)
    returns (r: Result<Reply, HttpsError>, log: seq<Effect>, halted: Phase)
    requires Downloadable(svc.fetch)
    requires source == SourceImage(svc.fetch.value.body.value, NormaliseMime(svc.fetch.value.contentType))
    requires before == [HttpGet(v.imageUrl)]
    ensures StagesBehave(v, svc, r, log, halted)
  {
    var image, generateLog := RunGemini(source, v.prompt, svc.model);
    log := before + generateLog;
    if image.Failure? {
      GenerateExit(v, svc, image.error, log);
      return Failure(Coerce(image.error)), log, Generating;
    }
    r, log, halted := SaveAndReply(v, svc, image.value, log);
  }

  /** The end of the `try` block once the model has produced `image`: the
      writes, and the reply built from the signed URL and the fresh id. */
  method SaveAndReply(v: Validated, svc: Services, image: string, before: seq<Effect>)
    returns (r: Result<Reply, HttpsError>, log: seq<Effect>, halted: Phase)
    requires Downloadable(svc.fetch) && Generates(svc.model)
    requires image == SelectImage(svc.model.value).value
    requires before == CallsBeforeWrites(v, svc)
    ensures StagesBehave(v, svc, r, log, halted)
  {
    var saved, writes := SaveGeneratedImage(v.uid, image, v.prompt, svc.freshId, svc.now,
                                            svc.save, svc.sign, svc.mergeUser, svc.writeResult);
    ForwardThroughPersisting(before, writes);
    log := before + writes;
    if saved.Failure? {
      PersistExit(v, svc, saved.error, log);
      return Failure(Coerce(saved.error)), log, Persisting;
    }
    DoneExit(v, svc, log);
    r, halted := Success(Reply(saved.value.imageUrl, saved.value.resultId)), Done;
  }

  lemma FetchExit(v: Validated, svc: Services, e: Thrown)
    requires !Downloadable(svc.fetch) && e == DownloadError(svc.fetch)
    ensures StagesBehave(v, svc, Failure(Coerce(e)), [HttpGet(v.imageUrl)], Fetching)
  {
  }

  lemma GenerateExit(v: Validated, svc: Services, e: Thrown, log: seq<Effect>)
    requires Downloadable(svc.fetch) && !Generates(svc.model)
    requires e == if svc.model.Threw? then Untyped(svc.model.reason) else Typed(NO_IMAGE_ERROR)
    requires log == CallsBeforeWrites(v, svc)
    ensures StagesBehave(v, svc, Failure(Coerce(e)), log, Generating)
  {
  }

  lemma DoneExit(v: Validated, svc: Services, log: seq<Effect>)
    requires Downloadable(svc.fetch) && Generates(svc.model) && Persists(svc)
    requires log == SuccessLog(v, svc) && ForwardOnly(log, Done)
    ensures StagesBehave(v, svc, Success(Reply(svc.sign.value, svc.freshId)), log, Done)
  {
  }

  lemma PersistExit(v: Validated, svc: Services, e: Thrown, log: seq<Effect>)
    requires Downloadable(svc.fetch) && Generates(svc.model) && !Persists(svc) && e.Untyped?
    requires log == CallsBeforeWrites(v, svc) + WritesIssued(v, svc)
    requires ForwardOnly(log, Persisting)
    ensures StagesBehave(v, svc, Failure(Coerce(e)), log, Persisting)
  {
  }

  /** One invocation: the reply or error the caller sees, the outbound calls
      made, in order, and the stage the pipeline stopped in (`Done` on success). */
  method GenerateProfilePicture(req: Request, apiKey: Option<string>, svc: Services)
    returns (r: Result<Reply, HttpsError>, log: seq<Effect>, halted: Phase)
    ensures Validate(req, apiKey).Failure?
            ==> r == Failure(Validate(req, apiKey).error) && log == [] && halted == Validating
    ensures Validate(req, apiKey).Success? ==> StagesBehave(Validate(req, apiKey).value, svc, r, log, halted)
    ensures r.Success? <==> Validate(req, apiKey).Success? && Downloadable(svc.fetch) && Generates(svc.model) && Persists(svc)
    ensures r.Failure? ==> IsHandlerKind(r.error.code)
    ensures ForwardOnly(log, halted)
  {
    var validated := Validate(req, apiKey);
    if validated.Failure? {
      return Failure(validated.error), [], Validating;
    }
    r, log, halted := RunStages(validated.value, svc);
  }

  /** Appending persistence calls to a download and a generation call keeps
      the log moving forward. */
  lemma ForwardThroughPersisting(before: seq<Effect>, writes: seq<Effect>)
    requires |before| == 2 && before[0].HttpGet? && before[1].GenerateContent?
    requires forall i :: 0 <= i < |writes| ==> writes[i].Stage() == Persisting
    ensures ForwardOnly(before + writes, Persisting) && ForwardOnly(before + writes, Done)
  {
  }
}
