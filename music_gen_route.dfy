/** The server route that forwards a music request to the ElevenLabs compose
    endpoint: it validates the request in a fixed order, copies at most four
    fields into the provider's request, and passes back either the audio or
    the provider's error. */
module MusicGenRoute {
  import opened JsText
  import opened JsValue
  import opened WavespeedApi

  const ComposeUrl: string := "https://api.elevenlabs.io/v1/music/compose"
  const NoKeyError: string := "API key not configured. Please set ELEVENLABS_API_KEY in .env.local"
  const PromptRequired: string := "Prompt is required"
  const DefaultAudioType: string := "audio/mpeg"
  const Disposition: string := "attachment; filename=\"music.mp3\""

  /** The four fields the route reads from the request. */
  const ForwardableKeys: set<string> := {"prompt", "music_length_ms", "force_instrumental", "output_format"}

  /** The request body as `request.json()` reads it. */
  datatype RequestBody = Parsed(value: Value) | Unparseable(message: string)

  /** How the provider call ended: audio with the blob's MIME type, a non-ok
      answer with its status and text, or an exception. */
  datatype ProviderReply = Audio(blobType: string) | ProviderError(status: int, text: string) | ProviderThrew(message: string)

  datatype RouteResponse =
    | JsonResponse(status: int, body: Value)
    | AudioResponse(contentType: string, disposition: string)

  function ErrorResponse(status: int, message: string): RouteResponse {
    JsonResponse(status, Obj(map["error" := Str(message)]))
  }

  /** The message of the TypeError raised by destructuring `null` or
      `undefined` (the engine's wording). */
  function DestructureError(v: Value): string {
    "Cannot destructure property 'prompt' of 'body' as it is " + ToJsString(v) + "."
  }

  /** `ELEVENLABS_API_KEY || NEXT_PUBLIC_ELEVENLABS_API_KEY`, "" standing for unset. */
  function ApiKey(primary: string, fallback: string): (r: string)
    ensures r == "" <==> primary == "" && fallback == ""
    ensures r == primary || r == fallback
    ensures primary != "" ==> r == primary
  {
    if primary != "" then primary else fallback
  }

  /** Whether the route copies `key` of the request into the provider
      request: the prompt always, the length and the instrumental flag
      whenever they are present (so 0 and false are copied), the format only
      when it is truthy. */
  predicate Forwards(body: Value, key: string) {
    || key == "prompt"
    || ((key == "music_length_ms" || key == "force_instrumental") && !Get(body, key).Undefined?)
    || (key == "output_format" && Truthy(Get(body, key)))
  }

  /** The provider request's fields, as a reference definition. */
  function Forwarded(body: Value): map<string, Value> {
    map key | key in ForwardableKeys && Forwards(body, key) :: Get(body, key)
  }

  /** `POST`: every early return, the provider request it sends (if any),
      and the response. */
  method Post(request: RequestBody, primaryKey: string, fallbackKey: string, provider: ProviderReply)
    returns (response: RouteResponse, call: Option<HttpCall>)
    ensures request.Unparseable? ==> response == ErrorResponse(500, request.message) && call.None?
    ensures request.Parsed? && ApiKey(primaryKey, fallbackKey) == "" ==>
      response == ErrorResponse(500, NoKeyError) && call.None?
    ensures request.Parsed? && ApiKey(primaryKey, fallbackKey) != "" && Nullish(request.value) ==>
      response == ErrorResponse(500, DestructureError(request.value)) && call.None?
    ensures request.Parsed? && ApiKey(primaryKey, fallbackKey) != "" && !Nullish(request.value)
            && !Truthy(Get(request.value, "prompt")) ==>
      response == ErrorResponse(400, PromptRequired) && call.None?
    ensures call.Some? <==>
      request.Parsed? && ApiKey(primaryKey, fallbackKey) != "" && Truthy(Get(request.value, "prompt"))
    ensures call.Some? ==>
      && call.value.verb == HttpPost && call.value.url == ComposeUrl
      && call.value.body == Some(Obj(Forwarded(request.value)))
      && Header(call.value.headers, "xi-api-key") == Some(ApiKey(primaryKey, fallbackKey))
      && Header(call.value.headers, "Content-Type") == Some("application/json")
    ensures call.Some? ==> response == match provider
      case ProviderError(status, text) => ErrorResponse(status, "Elevenlabs API Error: " + text)
      case ProviderThrew(message) => ErrorResponse(500, message)
      case Audio(blobType) => AudioResponse(if blobType != "" then blobType else DefaultAudioType, Disposition)
  {
    if request.Unparseable? {
      return ErrorResponse(500, request.message), None;
    }
    var body := request.value;
    var apiKey := ApiKey(primaryKey, fallbackKey);
    if apiKey == "" {
      return ErrorResponse(500, NoKeyError), None;
    }
    if Nullish(body) {
      return ErrorResponse(500, DestructureError(body)), None;
    }
    var prompt := Get(body, "prompt");
    var musicLength := Get(body, "music_length_ms");
    var forceInstrumental := Get(body, "force_instrumental");
    var outputFormat := Get(body, "output_format");
    if !Truthy(prompt) {
      return ErrorResponse(400, PromptRequired), None;
    }
    var requestBody: map<string, Value> := map["prompt" := prompt];
    if !musicLength.Undefined? {
      requestBody := requestBody["music_length_ms" := musicLength];
    }
    if !forceInstrumental.Undefined? {
      requestBody := requestBody["force_instrumental" := forceInstrumental];
    }
    if Truthy(outputFormat) {
      requestBody := requestBody["output_format" := outputFormat];
    }
    assert requestBody.Keys == Forwarded(body).Keys;
    assert forall k :: k in requestBody ==> requestBody[k] == Get(body, k);
    assert requestBody == Forwarded(body);
    call := Some(HttpCall(HttpPost, ComposeUrl, [("Content-Type", "application/json"), ("xi-api-key", apiKey)],
                          Some(Obj(requestBody))));
    match provider {
      case ProviderError(status, text) =>
        response := ErrorResponse(status, "Elevenlabs API Error: " + text);
      case ProviderThrew(message) =>
        response := ErrorResponse(500, message);
      case Audio(blobType) =>
        response := AudioResponse(if blobType != "" then blobType else DefaultAudioType, Disposition);
    }
  }

  /** The provider request always carries the prompt and never a field
      beyond the four; a length of 0 and a flag of false are carried, an
      empty format is not. */
  lemma ForwardedFields(body: Value)
    ensures Forwarded(body).Keys <= ForwardableKeys
    ensures "prompt" in Forwarded(body) && Forwarded(body)["prompt"] == Get(body, "prompt")
    ensures Get(body, "music_length_ms") == Num(0) ==> Forwarded(body)["music_length_ms"] == Num(0)
    ensures Get(body, "force_instrumental") == Bool(false) ==> Forwarded(body)["force_instrumental"] == Bool(false)
    ensures Get(body, "output_format") == Str("") ==> "output_format" !in Forwarded(body)
    ensures forall key :: key in Forwarded(body) ==> Forwarded(body)[key] == Get(body, key)
  {
  }

  /** Fields other than the four never reach the provider, whatever the
      request holds. */
  lemma {:induction false} ExtraFieldsDropped(m: map<string, Value>, key: string, v: Value)
    requires key !in ForwardableKeys
    ensures Forwarded(Obj(m[key := v])) == Forwarded(Obj(m))
  {
    var a, b := Forwarded(Obj(m[key := v])), Forwarded(Obj(m));
    assert a.Keys == b.Keys;
    forall k | k in a.Keys
      ensures a[k] == b[k]
    {
      assert k != key;
    }
  }
}
