/**
 * `runGemini` (functions/src/index.ts, lines 92-126): one `generateContent`
 * call carrying the prompt and the inline source image, then the choice of
 * the generated image in the response.
 */
module Generation {
  import opened Wrappers
  import opened Errors
  import opened Effects
  import opened Download

  const MODEL_NAME: string := "gemini-2.5-flash-image"

  /** The response shape, every level optional as the SDK types declare it. */
  datatype InlineData = InlineData(data: Option<string>, mimeType: Option<string>)
  datatype Part = Part(text: Option<string>, inlineData: Option<InlineData>)
  datatype Content = Content(parts: Option<seq<Part>>)
  datatype Candidate = Candidate(content: Option<Content>)
  datatype GenerateResponse = GenerateResponse(candidates: Option<seq<Candidate>>)

  const NO_IMAGE_ERROR: HttpsError := HttpsError(Internal, "Gemini did not return an image.")

  /** `part.inlineData?.data` is truthy: the part carries non-empty base64 data. */
  predicate CarriesImage(p: Part) {
    p.inlineData.Some? && p.inlineData.value.data.Some? && p.inlineData.value.data.value != ""
  }

  /** `candidates?.[0]?.content?.parts ?? []`: the first candidate's parts, or
      none when any link of the chain is missing. */
  function FirstCandidateParts(resp: GenerateResponse): (parts: seq<Part>)
    ensures parts != [] ==> resp.candidates.Some? && |resp.candidates.value| > 0
                            && resp.candidates.value[0].content.Some?
                            && resp.candidates.value[0].content.value.parts == Some(parts)
  {
    if resp.candidates.Some? && |resp.candidates.value| > 0
       && resp.candidates.value[0].content.Some? && resp.candidates.value[0].content.value.parts.Some?
    then resp.candidates.value[0].content.value.parts.value
    else []
  }

  /** `parts.find(...)`: the index of the first part carrying image data. */
  function FindImagePart(parts: seq<Part>): (r: Option<nat>)
    ensures r.Some? ==> r.value < |parts| && CarriesImage(parts[r.value])
                        && forall j :: 0 <= j < r.value ==> !CarriesImage(parts[j])
    ensures r.None? <==> forall j :: 0 <= j < |parts| ==> !CarriesImage(parts[j])
  {
    if parts == [] then None
    else if CarriesImage(parts[0]) then Some(0)
    else
      match FindImagePart(parts[1..])
      case None => None
      case Some(i) => Some(i + 1)
  }

  /** The base64 payload of the generated image: the data of the first
      image-bearing part of the first candidate, or `internal` when there is
      no candidate, no part, or no part with data. */
  function SelectImage(resp: GenerateResponse): (r: Result<string, HttpsError>)
    ensures r.Failure? <==> forall j :: 0 <= j < |FirstCandidateParts(resp)| ==> !CarriesImage(FirstCandidateParts(resp)[j])
    ensures r.Failure? ==> r.error == NO_IMAGE_ERROR
    ensures r.Success? ==>
              var parts := FirstCandidateParts(resp);
              exists i :: 0 <= i < |parts| && CarriesImage(parts[i])
                          && r.value == parts[i].inlineData.value.data.value
                          && (forall j :: 0 <= j < i ==> !CarriesImage(parts[j]))
  {
    var parts := FirstCandidateParts(resp);
    match FindImagePart(parts)
    case None => Failure(NO_IMAGE_ERROR)
    case Some(i) => Success(parts[i].inlineData.value.data.value)
  }

  /** Only the first candidate is ever inspected: whatever candidates follow
      it, the choice is the same. */
  lemma OnlyFirstCandidate(c: Candidate, rest1: seq<Candidate>, rest2: seq<Candidate>)
    ensures SelectImage(GenerateResponse(Some([c] + rest1))) == SelectImage(GenerateResponse(Some([c] + rest2)))
  {
  }

  /** A response with no candidates, or whose first candidate has no content
      or no parts, yields `internal`. */
  lemma EmptyResponsesFail(resp: GenerateResponse)
    requires resp.candidates.None? || resp.candidates.value == []
             || resp.candidates.value[0].content.None? || resp.candidates.value[0].content.value.parts.None?
             || resp.candidates.value[0].content.value.parts.value == []
    ensures SelectImage(resp) == Failure(NO_IMAGE_ERROR)
  {
  }

  /** `runGemini`: the model call is always made with the fixed model, the
      prompt and the inline source image; a thrown SDK error propagates as
      untyped; otherwise the selected image, or `internal`. */
  method RunGemini(source: SourceImage, prompt: string, model: Call<GenerateResponse>)
    returns (r: Result<string, Thrown>, log: seq<Effect>)
    ensures log == [GenerateContent(MODEL_NAME, prompt, source.mimeType, source.bytes)]
    ensures r.Success? <==> model.Returned? && SelectImage(model.value).Success?
    ensures r.Success? ==> r.value == SelectImage(model.value).value
    ensures r.Failure? ==> r.error == if model.Threw? then Untyped(model.reason) else Typed(NO_IMAGE_ERROR)
  {
    log := [GenerateContent(MODEL_NAME, prompt, source.mimeType, source.bytes)];
    if model.Threw? {
      return Failure(Untyped(model.reason)), log;
    }
    var parts := FirstCandidateParts(model.value);
    var found := FindImagePart(parts);
    if found.None? {
      return Failure(Typed(NO_IMAGE_ERROR)), log;
    }
    r := Success(parts[found.value].inlineData.value.data.value);
  }
}
