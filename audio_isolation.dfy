/** The audio-isolation panel: it posts the selected file to the
    application's isolation route and shows either the track that comes back
    or an error. The answer may be an audio blob or a JSON record naming the
    track under one of several fields. */
module AudioIsolation {
  import opened JsText
  import opened JsValue
  import opened WavespeedApi

  const NoFileError: string := "Please select an audio file"
  const UnknownError: string := "Unknown error"
  const UnexpectedFormat: string := "Unexpected response format from API"

  function HttpStatusError(status: int): string {
    "HTTP error! status: " + IntToString(status)
  }

  /** A response body as `response.json()` sees it. */
  datatype Body = Json(value: Value) | NotJson(syntaxError: string)

  /** How the request ended: a response with its ok flag, status, content
      type header (`None` when absent) and body, or a network failure. */
  datatype Reply =
    | Responded(ok: bool, status: int, contentType: Option<string>, body: Body)
    | NetworkError(message: string)

  /** What the panel ends up showing. */
  datatype Outcome = ShowResult(url: Value) | ShowError(message: string)

  /** `contentType && contentType.includes("application/json")` */
  predicate IsJson(contentType: Option<string>) {
    contentType.Some? && contentType.value != "" && Contains(contentType.value, "application/json")
  }

  /** The message of the error thrown for a non-ok response: the body's
      `error`, else the status; a body that is not JSON reads as
      "Unknown error". */
  function FailureMessage(status: int, body: Body): string {
    match body
    case NotJson(_) => UnknownError
    case Json(v) =>
      if Nullish(v) then NullReadError(v, "error")
      else ToJsString(Or(Get(v, "error"), Str(HttpStatusError(status))))
  }

  /** The track named by a JSON answer. */
  function JsonOutcome(body: Body): Outcome {
    match body
    case NotJson(message) => ShowError(message)
    case Json(v) =>
      if Nullish(v) then ShowError(NullReadError(v, "url"))
      else
        var named := Or(Or(Get(v, "url"), Get(v, "audio_url")), Get(v, "output"));
        if Truthy(named) then ShowResult(named)
        else if Truthy(Get(v, "audio")) then ShowResult(Get(v, "audio"))
        else ShowError(UnexpectedFormat)
  }

  /** The outcome of a request; `blobUrl` is the object URL the browser
      creates for a blob answer. */
  function ResponseOutcome(reply: Reply, blobUrl: string): Outcome {
    match reply
    case NetworkError(message) => ShowError(message)
    case Responded(ok, status, contentType, body) =>
      if !ok then ShowError(FailureMessage(status, body))
      else if IsJson(contentType) then JsonOutcome(body)
      else ShowResult(Str(blobUrl))
  }

  /** The first truthy value of a list, if any. */
  function FirstTruthy(vs: seq<Value>): (r: Option<Value>)
    ensures r.Some? ==> Truthy(r.value) && r.value in vs
    ensures r.None? <==> forall i :: 0 <= i < |vs| ==> !Truthy(vs[i])
  {
    if vs == [] then None
    else if Truthy(vs[0]) then Some(vs[0])
    else FirstTruthy(vs[1..])
  }

  /** A JSON answer names its track by the first truthy field among `url`,
      `audio_url`, `output` and `audio`; with none, the answer is refused. */
  lemma {:induction false} JsonFieldOrder(m: map<string, Value>)
    ensures var fields := [Get(Obj(m), "url"), Get(Obj(m), "audio_url"), Get(Obj(m), "output"), Get(Obj(m), "audio")];
      JsonOutcome(Json(Obj(m))) ==
        match FirstTruthy(fields)
        case Some(v) => ShowResult(v)
        case None => ShowError(UnexpectedFormat)
  {
    var fields := [Get(Obj(m), "url"), Get(Obj(m), "audio_url"), Get(Obj(m), "output"), Get(Obj(m), "audio")];
    var rest1, rest2, rest3 := fields[1..], fields[2..], fields[3..];
    assert rest1 == [fields[1], fields[2], fields[3]] && rest1[1..] == rest2;
    assert rest2 == [fields[2], fields[3]] && rest2[1..] == rest3;
    assert rest3 == [fields[3]] && rest3[1..] == [];
    if !Truthy(fields[0]) {
      assert FirstTruthy(fields) == FirstTruthy(rest1);
      if !Truthy(fields[1]) {
        assert FirstTruthy(rest1) == FirstTruthy(rest2);
        if !Truthy(fields[2]) {
          assert FirstTruthy(rest2) == FirstTruthy(rest3);
        }
      }
    }
  }

  /** A missing or non-JSON content type takes the blob path: the body is
      never read as JSON. */
  lemma BlobPathIgnoresBody(status: int, contentType: Option<string>, b1: Body, b2: Body, blobUrl: string)
    requires !IsJson(contentType)
    ensures ResponseOutcome(Responded(true, status, contentType, b1), blobUrl) == ShowResult(Str(blobUrl))
    ensures ResponseOutcome(Responded(true, status, contentType, b1), blobUrl)
         == ResponseOutcome(Responded(true, status, contentType, b2), blobUrl)
  {
  }

  /** The three messages of a non-ok answer. */
  lemma FailureMessages(status: int, body: Body, blobUrl: string, contentType: Option<string>)
    ensures var r := ResponseOutcome(Responded(false, status, contentType, body), blobUrl);
      && r.ShowError?
      && (body.NotJson? ==> r.message == UnknownError)
      && (body.Json? && body.value.Obj? && Get(body.value, "error").Str? && Truthy(Get(body.value, "error")) ==>
            r.message == Get(body.value, "error").s)
      && (body.Json? && body.value.Obj? && !Truthy(Get(body.value, "error")) ==>
            r.message == HttpStatusError(status))
  {
  }

  // ---------------------------------------------------------------------
  // The component
  // ---------------------------------------------------------------------

  datatype IsolationState = IsolationState(hasFile: bool, isLoading: bool, error: Value, resultAudioUrl: Value)

  const Initial: IsolationState := IsolationState(false, false, Null, Null)

  datatype Step = Step(state: IsolationState, call: Option<HttpCall>)

  /** The multipart POST with the file under `audio`. */
  const IsolationCall: HttpCall :=
    HttpCall(HttpPost, "/api/audio-isolation", [], Some(Obj(map["fields" := Arr([Str("audio")])])))

  /** `handleFileSelect`: the file is taken whatever its type. A file chosen
      through the picker arrives here directly. */
  function PickStep(s: IsolationState): IsolationState {
    s.(hasFile := true)
  }

  /** A dropped file reaches `handleFileSelect` only when it is audio. */
  function DropStep(s: IsolationState, mimeType: string): IsolationState {
    if StartsWith(mimeType, "audio/") then PickStep(s) else s
  }

  /** `handleSubmit`; the `finally` clears `isLoading` on every path that
      reached the request. */
  function SubmitStep(s: IsolationState, reply: Reply, blobUrl: string): Step {
    var cleared := s.(error := Null, resultAudioUrl := Null);
    if !s.hasFile then Step(cleared.(error := Str(NoFileError)), None)
    else match ResponseOutcome(reply, blobUrl)
      case ShowResult(url) => Step(cleared.(resultAudioUrl := url, isLoading := false), Some(IsolationCall))
      case ShowError(message) => Step(cleared.(error := Str(message), isLoading := false), Some(IsolationCall))
  }

  /** Without a file: an error, no request, and `isLoading` as it was. */
  lemma SubmitWithoutFile(s: IsolationState, reply: Reply, blobUrl: string)
    requires !s.hasFile
    ensures SubmitStep(s, reply, blobUrl) ==
      Step(IsolationState(false, s.isLoading, Str(NoFileError), Null), None)
  {
  }

  /** With a file, loading ends whatever happens, and exactly one of a
      result and an error is shown. */
  lemma {:induction false} SubmitEndsLoading(s: IsolationState, reply: Reply, blobUrl: string)
    requires s.hasFile && blobUrl != ""
    ensures var r := SubmitStep(s, reply, blobUrl);
      && r.call == Some(IsolationCall) && !r.state.isLoading
      && (Truthy(r.state.resultAudioUrl) <==> r.state.error == Null)
      && (r.state.resultAudioUrl == Null <==> r.state.error != Null)
  {
    var outcome := ResponseOutcome(reply, blobUrl);
    if outcome.ShowResult? {
      assert Truthy(outcome.url) by {
        if reply.Responded? && reply.ok && IsJson(reply.contentType) {
          assert reply.body.Json? && !Nullish(reply.body.value);
        }
      }
    }
  }

  /** Into an empty panel, a file that is not audio is refused when dropped,
      so submitting sends nothing; the same file picked is sent. */
  lemma {:induction false} PickIgnoresType(s: IsolationState, mimeType: string, reply: Reply, blobUrl: string)
    requires !s.hasFile && !StartsWith(mimeType, "audio/")
    ensures SubmitStep(DropStep(s, mimeType), reply, blobUrl).call.None?
    ensures SubmitStep(PickStep(s), reply, blobUrl).call == Some(IsolationCall)
  {
    assert DropStep(s, mimeType) == s;
  }

  class IsolationPanel {
    var hasFile: bool
    var isLoading: bool
    var error: Value
    var resultAudioUrl: Value

    function State(): IsolationState
      reads this
    {
      IsolationState(hasFile, isLoading, error, resultAudioUrl)
    }

    constructor ()
      ensures State() == Initial
    {
      hasFile, isLoading, error, resultAudioUrl := false, false, Null, Null;
    }

    /** A file chosen in the picker. */
    method Pick()
      modifies this
      ensures State() == PickStep(old(State()))
    {
      hasFile := true;
    }

    /** A file dropped on the panel is taken only when it is audio. */
    method Drop(mimeType: string)
      modifies this
      ensures State() == old(State()).(hasFile := old(hasFile) || StartsWith(mimeType, "audio/"))
      ensures State() == DropStep(old(State()), mimeType)
    {
      if StartsWith(mimeType, "audio/") {
        hasFile := true;
      }
    }

    method Submit(reply: Reply, blobUrl: string) returns (call: Option<HttpCall>)
      modifies this
      ensures Step(State(), call) == SubmitStep(old(State()), reply, blobUrl)
    {
      error := Null;
      resultAudioUrl := Null;
      if !hasFile {
        error := Str(NoFileError);
        return None;
      }
      isLoading := true;
      call := Some(IsolationCall);
      var outcome := ResponseOutcome(reply, blobUrl);
      if outcome.ShowResult? {
        resultAudioUrl := outcome.url;
      } else {
        error := Str(outcome.message);
      }
      isLoading := false;
    }
  }
}
