/** The provider adapter for the WaveSpeed prediction API: the three
    submission calls, the result poll, and the error they raise on a non-ok
    answer. Only the request each function would send is modelled; the
    transport is the caller's concern. */
module WavespeedApi {
  import opened JsText
  import opened JsValue

  const ApiBase: string := "https://api.wavespeed.ai/api/v3"

  const AudioToAudioPath: string := "/wavespeed-ai/ace-step/audio-to-audio"
  const TextToAudioPath: string := "/minimax/music-02"
  const AudioInpaintPath: string := "/wavespeed-ai/ace-step/audio-inpaint"

  datatype HttpMethod = HttpGet | HttpPost

  /** One `fetch` call: method, absolute URL, headers in the order written,
      and the value `JSON.stringify` serialises as the body. */
  datatype HttpCall = HttpCall(verb: HttpMethod, url: string, headers: seq<(string, string)>, body: Option<Value>)

  datatype EditMode = Remix | Lyrics
  datatype Anchor = FromStart | FromEnd

  datatype AudioToAudioRequest = AudioToAudioRequest(
    audio: string, editMode: EditMode, lyrics: string, originalLyrics: string,
    originalTags: string, seed: Option<int>, tags: string)

  datatype TextToAudioRequest = TextToAudioRequest(
    bitrate: int, lyrics: string, prompt: string, sampleRate: Option<int>)

  datatype AudioInpaintRequest = AudioInpaintRequest(
    audio: string, endTime: int, endTimeRelativeTo: Anchor, lyrics: string, seed: Option<int>,
    startTime: int, startTimeRelativeTo: Anchor, tags: string)

  /** The six literals of `PredictionResponse.status`. */
  datatype PredictionStatus = Starting | Processing | Succeeded | Failed | Completed | Created

  function StatusName(s: PredictionStatus): string {
    match s
    case Starting => "starting"
    case Processing => "processing"
    case Succeeded => "succeeded"
    case Failed => "failed"
    case Completed => "completed"
    case Created => "created"
  }

  /** The status a provider string denotes, if it is one of the six. */
  function ParseStatus(name: string): (r: Option<PredictionStatus>)
    ensures r.Some? ==> StatusName(r.value) == name
  {
    if name == "starting" then Some(Starting)
    else if name == "processing" then Some(Processing)
    else if name == "succeeded" then Some(Succeeded)
    else if name == "failed" then Some(Failed)
    else if name == "completed" then Some(Completed)
    else if name == "created" then Some(Created)
    else None
  }

  /** Every status literal parses back to itself, so the six are distinct. */
  lemma StatusNamesRoundTrip(s: PredictionStatus)
    ensures ParseStatus(StatusName(s)) == Some(s)
  {
    match s
    case Starting =>
    case Processing =>
    case Succeeded =>
    case Failed =>
    case Completed =>
    case Created =>
  }

  function AnchorName(a: Anchor): string {
    match a
    case FromStart => "start"
    case FromEnd => "end"
  }

  function EditModeName(m: EditMode): string {
    match m
    case Remix => "remix"
    case Lyrics => "lyrics"
  }

  /** An optional number as `JSON.stringify` treats it: absent when undefined. */
  function WithOptional(fields: map<string, Value>, key: string, v: Option<int>): map<string, Value> {
    if v.Some? then fields[key := Num(v.value)] else fields
  }

  function AudioToAudioBody(r: AudioToAudioRequest): Value {
    Obj(WithOptional(map[
      "audio" := Str(r.audio), "edit_mode" := Str(EditModeName(r.editMode)),
      "lyrics" := Str(r.lyrics), "original_lyrics" := Str(r.originalLyrics),
      "original_tags" := Str(r.originalTags), "tags" := Str(r.tags)], "seed", r.seed))
  }

  function TextToAudioBody(r: TextToAudioRequest): Value {
    Obj(WithOptional(map[
      "bitrate" := Num(r.bitrate), "lyrics" := Str(r.lyrics), "prompt" := Str(r.prompt)],
      "sample_rate", r.sampleRate))
  }

  function AudioInpaintBody(r: AudioInpaintRequest): Value {
    Obj(WithOptional(map[
      "audio" := Str(r.audio), "end_time" := Num(r.endTime),
      "end_time_relative_to" := Str(AnchorName(r.endTimeRelativeTo)), "lyrics" := Str(r.lyrics),
      "start_time" := Num(r.startTime), "start_time_relative_to" := Str(AnchorName(r.startTimeRelativeTo)),
      "tags" := Str(r.tags)], "seed", r.seed))
  }

  function Bearer(apiKey: string): string {
    "Bearer " + apiKey
  }

  /** The value of the first header called `name`, if any. */
  function Header(headers: seq<(string, string)>, name: string): Option<string> {
    if headers == [] then None
    else if headers[0].0 == name then Some(headers[0].1)
    else Header(headers[1..], name)
  }

  /** A JSON POST to one of the submission endpoints. */
  function SubmitCall(path: string, body: Value, apiKey: string): (r: HttpCall)
    ensures r.verb == HttpPost && r.body == Some(body)
    ensures Header(r.headers, "Authorization") == Some(Bearer(apiKey))
    ensures Header(r.headers, "Content-Type") == Some("application/json")
  {
    HttpCall(HttpPost, ApiBase + path, [("Content-Type", "application/json"), ("Authorization", Bearer(apiKey))], Some(body))
  }

  function SubmitAudioToAudio(r: AudioToAudioRequest, apiKey: string): HttpCall {
    SubmitCall(AudioToAudioPath, AudioToAudioBody(r), apiKey)
  }

  function SubmitTextToAudio(r: TextToAudioRequest, apiKey: string): HttpCall {
    SubmitCall(TextToAudioPath, TextToAudioBody(r), apiKey)
  }

  function SubmitAudioInpaint(r: AudioInpaintRequest, apiKey: string): HttpCall {
    SubmitCall(AudioInpaintPath, AudioInpaintBody(r), apiKey)
  }

  /** The result URL of a prediction. */
  function PollUrl(requestId: string): string {
    ApiBase + "/predictions/" + requestId + "/result"
  }

  /** `pollResult`: a GET with no body, keyed by the request id. */
  function PollResult(requestId: string, apiKey: string): (r: HttpCall)
    ensures r.verb == HttpGet && r.body == None && r.url == PollUrl(requestId)
    ensures Header(r.headers, "Authorization") == Some(Bearer(apiKey))
    ensures Header(r.headers, "Content-Type") == None
  {
    HttpCall(HttpGet, PollUrl(requestId), [("Authorization", Bearer(apiKey))], None)
  }

  /** The message of the error every call throws on a non-ok response. */
  function ApiError(bodyText: string): string {
    "API Error: " + bodyText
  }

  /** The three submission endpoints are distinct URLs, and none is the poll URL. */
  lemma {:induction false} EndpointsDistinct(a: AudioToAudioRequest, t: TextToAudioRequest, p: AudioInpaintRequest, key: string, id: string)
    ensures SubmitAudioToAudio(a, key).url != SubmitTextToAudio(t, key).url
    ensures SubmitAudioToAudio(a, key).url != SubmitAudioInpaint(p, key).url
    ensures SubmitTextToAudio(t, key).url != SubmitAudioInpaint(p, key).url
    ensures SubmitAudioToAudio(a, key).url != PollResult(id, key).url
    ensures SubmitTextToAudio(t, key).url != PollResult(id, key).url
    ensures SubmitAudioInpaint(p, key).url != PollResult(id, key).url
  {
    var n := |ApiBase|;
    assert SubmitAudioToAudio(a, key).url[n + 1] == 'w';
    assert SubmitTextToAudio(t, key).url[n + 1] == 'm';
    assert SubmitAudioToAudio(a, key).url[n + 29] == 't';
    assert SubmitAudioInpaint(p, key).url[n + 29] == 'i';
    assert SubmitAudioInpaint(p, key).url[n + 1] == 'w';
    assert PollResult(id, key).url[n + 1] == 'p';
  }

  /** Each submission sends its request record, field for field, as the body. */
  lemma SubmitBodies(a: AudioToAudioRequest, t: TextToAudioRequest, key: string)
    ensures SubmitAudioToAudio(a, key).body.value.fields.Keys ==
      {"audio", "edit_mode", "lyrics", "original_lyrics", "original_tags", "tags"} + (if a.seed.Some? then {"seed"} else {})
    ensures Get(SubmitAudioToAudio(a, key).body.value, "audio") == Str(a.audio)
    ensures SubmitTextToAudio(t, key).body.value.fields.Keys ==
      {"bitrate", "lyrics", "prompt"} + (if t.sampleRate.Some? then {"sample_rate"} else {})
    ensures Get(SubmitTextToAudio(t, key).body.value, "prompt") == Str(t.prompt)
  {
  }
}
