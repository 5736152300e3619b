/** The request and response shaping of the remote image service
    (services/geminiService.ts): data-URL prefix stripping, the client key
    check, the analysis request, the try-on prompt parts and the extraction
    of the generated image. The network call itself is a parameter: the
    reply the service would give. */
module GeminiService {
  import opened Wrappers
  import opened Types

  // ---------------------------------------------------------------------------
  // Errors and results

  /** What the service functions throw. `Error(m)` is `new Error(m)` thrown by
      the module itself; the others come from the runtime or the remote side. */
  datatype ServiceError =
    | Error(message: string)
    | SyntaxError   // `JSON.parse` rejected the analysis text
    | TypeError     // a property read of `undefined` in the response walk
    | RemoteFailure // `generateContent` rejected (network, quota, auth)

  /** The settled value of a service promise: resolved or rejected. */
  datatype Attempt<+T> = Done(value: T) | Threw(error: ServiceError)

  const ApiKeyMissingMessage := "API Key is missing."
  const NoResponseMessage := "No response from AI"
  const NoImageMessage := "No image generated."

  // ---------------------------------------------------------------------------
  // Data URLs

  const PngPrefix := "data:image/png;base64,"
  const JpegPrefix := "data:image/jpeg;base64,"
  const WebpPrefix := "data:image/webp;base64,"

  /** The three prefixes the pattern `^data:image\/(png|jpeg|webp);base64,` matches. */
  predicate IsDataUrlPrefix(p: string)
  {
    p == PngPrefix || p == JpegPrefix || p == WebpPrefix
  }

  predicate HasDataUrlPrefix(s: string)
  {
    PngPrefix <= s || JpegPrefix <= s || WebpPrefix <= s
  }

  /** `s.replace(/^data:image\/(png|jpeg|webp);base64,/, "")`: drops one
      leading data-URL prefix, if there is one. */
  function StripDataUrlPrefix(s: string): (r: string)
    ensures |r| <= |s| && r == s[|s| - |r|..]
    ensures r == s <==> !HasDataUrlPrefix(s)
    ensures HasDataUrlPrefix(s) ==> IsDataUrlPrefix(s[..|s| - |r|])
  {
    if PngPrefix <= s then s[|PngPrefix|..]
    else if JpegPrefix <= s then s[|JpegPrefix|..]
    else if WebpPrefix <= s then s[|WebpPrefix|..]
    else s
  }

  /** Stripping undoes the prefixing: the payload behind any accepted prefix
      comes back unchanged, in particular the payload of a generated image. */
  lemma StripAfterPrefix(p: string, payload: string)
    requires IsDataUrlPrefix(p)
    ensures StripDataUrlPrefix(p + payload) == payload
  {
    var s := p + payload;
    assert s[..|p|] == p;
    // The prefixes part ways at index 11 ('p', 'j', 'w'), so only `p` matches.
    assert s[11] == p[11];
    if p == JpegPrefix {
      assert !(PngPrefix <= s) by { assert PngPrefix[11] != s[11]; }
    } else if p == WebpPrefix {
      assert !(PngPrefix <= s) by { assert PngPrefix[11] != s[11]; }
      assert !(JpegPrefix <= s) by { assert JpegPrefix[11] != s[11]; }
    }
  }

  // ---------------------------------------------------------------------------
  // The client

  /** The configured client; only its key matters to this model. */
  datatype AiClient = AiClient(apiKey: string)

  /** `getAiClient`: throws when the key is absent or empty. */
  function GetAiClient(apiKey: Option<string>): (r: Attempt<AiClient>)
    ensures r.Done? <==> Truthy(apiKey)
    ensures r.Done? ==> r.value.apiKey == apiKey.value
    ensures r.Threw? ==> r.error == Error(ApiKeyMissingMessage)
  {
    if Truthy(apiKey) then Done(AiClient(apiKey.value))
    else Threw(Error(ApiKeyMissingMessage))
  }

  // ---------------------------------------------------------------------------
  // Requests

  /** One element of `contents.parts`. */
  datatype Part = InlineImage(mimeType: string, data: string) | Text(text: string)

  /** A `generateContent` request: the model name, the parts and, for the
      analysis, the response MIME type (the response schema is not modelled). */
  datatype Request = Request(model: string, parts: seq<Part>, responseMimeType: Option<string>)

  const JpegMime := "image/jpeg"
  const AnalysisModel := "gemini-3-flash-preview"
  const TryOnModel := "gemini-2.5-flash-image"

  const AnalysisPrompt :=
    "Analyze this person's face for a hairstyle try-on application. \n"
    + "                   Identify face shape, skin tone, and current hair. Be polite and professional.\n"
    + "                   Provide the output strictly in JSON format."

  /** The instruction sent with a reference image; it does not mention the description. */
  const ReferenceInstruction :=
    "Using the second image (hairstyle) as a reference, apply this hairstyle to the person in the first image.\n"
    + "               Maintain the person's exact face features, skin texture, makeup, and clothing. \n"
    + "               Only change the hair. Blend it naturally with the forehead and ears.\n"
    + "               Make it look photorealistic."

  const StylePromptHead := "Change the person's hairstyle to: "
  const StylePromptTail :=
    ". \n"
    + "               Maintain the person's exact face features, expression, skin texture, and current clothing. \n"
    + "               Only modify the hair.\n"
    + "               Make it look photorealistic. High quality salon photography."

  /** The text-only instruction: the template with the description interpolated. */
  function StylePrompt(description: string): (t: string)
    ensures |t| == |StylePromptHead| + |description| + |StylePromptTail|
    ensures t[..|StylePromptHead|] == StylePromptHead
    ensures t[|StylePromptHead|..|StylePromptHead| + |description|] == description
  {
    StylePromptHead + description + StylePromptTail
  }

  /** The description can be read back from the prompt: it is carried verbatim. */
  lemma StylePromptInjective(d1: string, d2: string)
    requires StylePrompt(d1) == StylePrompt(d2)
    ensures d1 == d2
  {
    var h := |StylePromptHead|;
    assert |d1| == |d2|;
    assert d1 == StylePrompt(d1)[h..h + |d1|];
  }

  /** The parts `generateTryOnImage` sends: the cleaned person image first,
      then either the cleaned reference image and the fixed instruction (when
      the reference is a non-empty string) or the description prompt. */
  function TryOnParts(person: string, description: string, reference: Option<string>): (ps: seq<Part>)
    ensures |ps| == (if Truthy(reference) then 3 else 2)
    ensures ps[0] == InlineImage(JpegMime, StripDataUrlPrefix(person))
    ensures Truthy(reference) ==>
      ps[1] == InlineImage(JpegMime, StripDataUrlPrefix(reference.value)) && ps[2] == Text(ReferenceInstruction)
    ensures !Truthy(reference) ==> ps[1] == Text(StylePrompt(description))
  {
    var first := InlineImage(JpegMime, StripDataUrlPrefix(person));
    if Truthy(reference) then
      [first, InlineImage(JpegMime, StripDataUrlPrefix(reference.value)), Text(ReferenceInstruction)]
    else
      [first, Text(StylePrompt(description))]
  }

  /** With a reference image the description is not sent at all. */
  lemma ReferenceIgnoresDescription(person: string, d1: string, d2: string, reference: Option<string>)
    requires Truthy(reference)
    ensures TryOnParts(person, d1, reference) == TryOnParts(person, d2, reference)
  {
  }

  /** Without a reference image, distinct descriptions give distinct requests. */
  lemma TextPromptDistinguishesDescriptions(person: string, d1: string, d2: string, reference: Option<string>)
    requires !Truthy(reference)
    requires TryOnParts(person, d1, reference) == TryOnParts(person, d2, reference)
    ensures d1 == d2
  {
    assert TryOnParts(person, d1, reference)[1] == Text(StylePrompt(d1));
    StylePromptInjective(d1, d2);
  }

  // ---------------------------------------------------------------------------
  // Face analysis

  /** What the remote side does with an analysis request: it rejects, or it
      answers with an optional `text`. `parsed` is what `JSON.parse` makes of
      that text: None when it throws, Some(None) for the literal `null`, and
      Some(Some(a)) for a record. The parse is not modelled, only its verdict. */
  datatype AnalysisReply =
    | AnalysisRejected
    | AnalysisAnswered(text: Option<string>, parsed: Option<Option<FaceAnalysis>>)

  /** A service call: the request that went out (None when none was sent)
      and how the returned promise settled. */
  datatype Call<+T> = Call(sent: Option<Request>, result: Attempt<T>)

  /** `analyzeFaceImage`. */
  function AnalyzeFaceImage(image: string, apiKey: Option<string>, reply: AnalysisReply): (c: Call<Option<FaceAnalysis>>)
    ensures !Truthy(apiKey) ==> c == Call(None, Threw(Error(ApiKeyMissingMessage)))
    ensures Truthy(apiKey) ==> c.sent == Some(Request(AnalysisModel,
      [InlineImage(JpegMime, StripDataUrlPrefix(image)), Text(AnalysisPrompt)], Some("application/json")))
    ensures c.result.Done? <==>
      Truthy(apiKey) && reply.AnalysisAnswered? && Truthy(reply.text) && reply.parsed.Some?
    ensures c.result.Done? ==> c.result.value == reply.parsed.value
    ensures Truthy(apiKey) && reply.AnalysisAnswered? && !Truthy(reply.text) ==>
      c.result == Threw(Error(NoResponseMessage))
  {
    match GetAiClient(apiKey)
    case Threw(e) => Call(None, Threw(e))
    case Done(_) =>
      var request := Request(AnalysisModel,
        [InlineImage(JpegMime, StripDataUrlPrefix(image)), Text(AnalysisPrompt)], Some("application/json"));
      var result :=
        match reply
        case AnalysisRejected => Threw(RemoteFailure)
        case AnalysisAnswered(text, parsed) =>
          if !Truthy(text) then Threw(Error(NoResponseMessage))
          else if parsed.None? then Threw(SyntaxError)
          else Done(parsed.value);
      Call(Some(request), result)
  }

  // ---------------------------------------------------------------------------
  // Try-on generation

  /** The response envelope, with every level as optional as the SDK's typing. */
  datatype InlineData = InlineData(data: Option<string>)
  datatype ResponsePart = ResponsePart(inlineData: Option<InlineData>)
  datatype Content = Content(parts: Option<seq<ResponsePart>>)
  datatype Candidate = Candidate(content: Option<Content>)
  datatype Response = Response(candidates: Option<seq<Candidate>>)

  /** What the remote side does with a try-on request. */
  datatype TryOnReply = TryOnRejected | TryOnAnswered(response: Response)

  /** `part.inlineData && part.inlineData.data`. */
  predicate HasImage(p: ResponsePart)
  {
    p.inlineData.Some? && Truthy(p.inlineData.value.data)
  }

  /** `k` is the first part carrying image data. */
  ghost predicate FirstImageAt(ps: seq<ResponsePart>, k: int)
  {
    0 <= k < |ps| && HasImage(ps[k]) && forall j :: 0 <= j < k ==> !HasImage(ps[j])
  }

  /** `response.candidates && response.candidates[0].content.parts`: the parts
      list when there is one, None when the guard is falsy, and a TypeError
      when candidate 0 or its content is missing. */
  function CandidateParts(response: Response): Attempt<Option<seq<ResponsePart>>>
  {
    match response.candidates
    case None => Done(None)
    case Some(cs) =>
      if |cs| == 0 || cs[0].content.None? then Threw(TypeError)
      else Done(cs[0].content.value.parts)
  }

  /** `image` is what the extraction yields for `response`: the data of the
      first part of candidate 0 that carries image data, as a PNG data URL. */
  ghost predicate ExtractsTo(response: Response, image: string)
  {
    var walk := CandidateParts(response);
    && walk.Done? && walk.value.Some?
    && exists k :: FirstImageAt(walk.value.value, k)
                && image == PngPrefix + walk.value.value[k].inlineData.value.data.value
  }

  /** How the extraction after the call settles for `response`: a TypeError
      when candidate 0 or its content is missing; "No image generated." when
      there are no parts or no part carries image data; otherwise the data
      of the first such part, re-prefixed as a PNG data URL. */
  ghost predicate ExtractionSettles(response: Response, r: Attempt<string>)
  {
    var walk := CandidateParts(response);
    && (r.Done? ==> ExtractsTo(response, r.value))
    && (walk.Threw? ==> r == Threw(TypeError))
    && (walk == Done(None) ==> r == Threw(Error(NoImageMessage)))
    && (walk.Done? && walk.value.Some? ==>
          && (r.Done? <==> exists k :: 0 <= k < |walk.value.value| && HasImage(walk.value.value[k]))
          && (r.Threw? ==> r.error == Error(NoImageMessage)))
  }

  /** `ExtractionSettles` leaves no freedom: one response settles one way. */
  lemma ExtractionIsDetermined(response: Response, r1: Attempt<string>, r2: Attempt<string>)
    requires ExtractionSettles(response, r1) && ExtractionSettles(response, r2)
    ensures r1 == r2
  {
  }

  /** The extraction loop of `generateTryOnImage`: walks the parts of
      candidate 0 and returns at the first one with image data; later parts
      are never looked at. */
  method ExtractImage(response: Response) returns (r: Attempt<string>)
    ensures ExtractionSettles(response, r)
  {
    var walk := CandidateParts(response);
    if walk.Threw? {
      return Threw(TypeError);
    }
    if walk.value.Some? {
      var ps := walk.value.value;
      for i := 0 to |ps|
        invariant forall j :: 0 <= j < i ==> !HasImage(ps[j])
      {
        if HasImage(ps[i]) {
          assert FirstImageAt(ps, i);
          return Done(PngPrefix + ps[i].inlineData.value.data.value);
        }
      }
    }
    return Threw(Error(NoImageMessage));
  }

  /** The `parts` array of `generateTryOnImage`, built with `push`. */
  method BuildTryOnParts(person: string, description: string, reference: Option<string>)
    returns (parts: seq<Part>)
    ensures parts == TryOnParts(person, description, reference)
  {
    var cleanPerson := StripDataUrlPrefix(person);
    parts := [InlineImage(JpegMime, cleanPerson)];
    if Truthy(reference) {
      var cleanReference := StripDataUrlPrefix(reference.value);
      parts := parts + [InlineImage(JpegMime, cleanReference)];
      parts := parts + [Text(ReferenceInstruction)];
    } else {
      parts := parts + [Text(StylePrompt(description))];
    }
  }

  /** `generateTryOnImage`: builds the parts, checks the key, sends the
      request and extracts the image from the reply. */
  method GenerateTryOnImage(person: string, description: string, reference: Option<string>,
                            apiKey: Option<string>, reply: TryOnReply)
    returns (c: Call<string>)
    ensures !Truthy(apiKey) ==> c == Call(None, Threw(Error(ApiKeyMissingMessage)))
    ensures Truthy(apiKey) ==> c.sent == Some(Request(TryOnModel, TryOnParts(person, description, reference), None))
    ensures Truthy(apiKey) && reply.TryOnRejected? ==> c.result == Threw(RemoteFailure)
    ensures c.result.Done? ==> Truthy(apiKey) && reply.TryOnAnswered?
    ensures Truthy(apiKey) && reply.TryOnAnswered? ==> ExtractionSettles(reply.response, c.result)
  {
    var parts := BuildTryOnParts(person, description, reference);
    var client := GetAiClient(apiKey);
    if client.Threw? {
      return Call(None, Threw(client.error));
    }
    var request := Request(TryOnModel, parts, None);
    match reply
    case TryOnRejected =>
      c := Call(Some(request), Threw(RemoteFailure));
    case TryOnAnswered(response) =>
      var image := ExtractImage(response);
      c := Call(Some(request), image);
  }

  /** The generated image is a PNG data URL whose payload stripping recovers. */
  lemma GeneratedImageStripsToPayload(payload: string)
    ensures StripDataUrlPrefix(PngPrefix + payload) == payload
  {
    StripAfterPrefix(PngPrefix, payload);
  }
}
