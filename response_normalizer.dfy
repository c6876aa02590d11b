/** How the audio-to-audio and text-to-audio panels read the provider's
    answers: the request id out of a creation response, and the outcome of
    one poll out of a result response. Both absorb an optional `data`
    envelope. The two components hold identical copies of this logic. */
module ResponseNormalizer {
  import opened JsText
  import opened JsValue
  import opened WavespeedApi

  /** `response?.data || response` */
  function Payload(response: Value): Value {
    Or(Get(response, "data"), response)
  }

  // ---------------------------------------------------------------------
  // The id inside a polling URL: /\/predictions\/([^\/]+)\//
  // ---------------------------------------------------------------------

  const Marker: string := "/predictions/"

  /** The first '/' of `s` at or after `j`. */
  function NextSlash(s: string, j: nat): (r: Option<nat>)
    requires j <= |s|
    ensures r.Some? ==> j <= r.value < |s| && s[r.value] == '/' && '/' !in s[j..r.value]
    ensures r.None? ==> '/' !in s[j..]
    decreases |s| - j
  {
    if j == |s| then None
    else if s[j] == '/' then Some(j)
    else
      var r := NextSlash(s, j + 1);
      assert s[j..] == [s[j]] + s[j + 1..];
      assert r.Some? ==> s[j..r.value] == [s[j]] + s[j + 1..r.value];
      r
  }

  /** The capture group of the pattern when a match starts at `i`: the
      non-empty run of non-slash characters after the marker, which a '/'
      must close. */
  function CaptureAt(s: string, i: nat): Option<string>
    requires i <= |s|
  {
    var j := i + |Marker|;
    if j <= |s| && s[i..j] == Marker then
      match NextSlash(s, j)
      case Some(k) => if j < k then Some(s[j..k]) else None
      case None => None
    else None
  }

  /** The leftmost position at or after `i` where the pattern matches. */
  function LeftmostMatch(s: string, i: nat): (r: Option<nat>)
    requires i <= |s|
    ensures r.Some? ==> i <= r.value <= |s| && CaptureAt(s, r.value).Some?
    ensures r.Some? ==> forall p :: i <= p < r.value ==> CaptureAt(s, p).None?
    ensures r.None? ==> forall p :: i <= p <= |s| ==> CaptureAt(s, p).None?
    decreases |s| - i
  {
    if CaptureAt(s, i).Some? then Some(i)
    else if i == |s| then None
    else LeftmostMatch(s, i + 1)
  }

  /** `s.match(/\/predictions\/([^\/]+)\//)?.[1]` */
  function MatchPredictionId(s: string): (r: Option<string>)
    ensures r.Some? ==> r.value != [] && '/' !in r.value
  {
    match LeftmostMatch(s, 0)
    case Some(p) => CaptureAt(s, p)
    case None => None
  }

  /** No match of the pattern can start inside a text in which no '/' is
      followed by 'p'. */
  predicate NoMarkerStart(prefix: string) {
    forall q :: 0 <= q < |prefix| - 1 ==> !(prefix[q] == '/' && prefix[q + 1] == 'p')
  }

  /** The first '/' at or after `j` is the one at `k` when none lies between. */
  lemma {:induction false} NextSlashAt(s: string, j: nat, k: nat)
    requires j <= k < |s| && s[k] == '/'
    requires forall t :: j <= t < k ==> s[t] != '/'
    ensures NextSlash(s, j) == Some(k)
    decreases k - j
  {
    if j < k {
      NextSlashAt(s, j + 1, k);
    }
  }

  /** After such a prefix, the pattern captures exactly the segment that
      follows the marker. */
  lemma {:induction false} MatchAfterPrefix(prefix: string, id: string, rest: string)
    requires NoMarkerStart(prefix) && id != [] && '/' !in id
    ensures MatchPredictionId(prefix + Marker + id + "/" + rest) == Some(id)
  {
    var s := prefix + Marker + id + "/" + rest;
    var m := |prefix|;
    var j := m + |Marker|;
    var k := j + |id|;
    assert s[m..j] == Marker;
    assert s[j..k] == id;
    forall t | j <= t < k
      ensures s[t] != '/'
    {
      assert s[t] == id[t - j];
    }
    NextSlashAt(s, j, k);
    assert CaptureAt(s, m) == Some(id);
    forall q | 0 <= q < m
      ensures CaptureAt(s, q).None?
    {
      if q + |Marker| <= |s| {
        var window := s[q..q + |Marker|];
        if s[q] != '/' {
          assert window[0] != Marker[0];
        } else if q + 1 < m {
          assert prefix[q] == '/';
          assert window[1] == prefix[q + 1] != 'p';
        } else {
          assert window[1] == Marker[0] != Marker[1];
        }
      }
    }
    var found := LeftmostMatch(s, 0);
    assert found.Some? && found.value == m;
  }

  lemma ApiBaseHasNoMarkerStart()
    ensures NoMarkerStart(ApiBase)
  {
  }

  /** The poll URL the adapter builds for an id gives that id back. */
  lemma {:induction false} PollUrlRoundTrip(id: string)
    requires id != [] && '/' !in id
    ensures MatchPredictionId(PollUrl(id)) == Some(id)
  {
    ApiBaseHasNoMarkerStart();
    assert PollUrl(id) == ApiBase + Marker + id + "/" + "result";
    MatchAfterPrefix(ApiBase, id, "result");
  }

  // ---------------------------------------------------------------------
  // Request-id extraction (handleSubmit)
  // ---------------------------------------------------------------------

  datatype IdExtraction =
    | Found(id: Value)
    /** `urls.get` is truthy but not a string, so `.match` is not a function. */
    | MatchNotAFunction
    | NotFound

  /** `data?.id`, then the polling URL, then `data.prediction_id ||
      data.request_id || response.prediction_id || response.request_id`. */
  function ExtractRequestId(response: Value): (r: IdExtraction)
    ensures r.Found? ==> Truthy(r.id)
  {
    var data := Payload(response);
    var id := Get(data, "id");
    if Truthy(id) then Found(id)
    else
      var get := Get(Get(data, "urls"), "get");
      if Truthy(get) && !get.Str? then MatchNotAFunction
      else
        var fromUrl := if Truthy(get) then MatchPredictionId(get.s) else None;
        if fromUrl.Some? then Found(Str(fromUrl.value))
        else
          var alternate := Or(Or(Or(Get(data, "prediction_id"), Get(data, "request_id")),
                                 Get(response, "prediction_id")), Get(response, "request_id"));
          if Truthy(alternate) then Found(alternate) else NotFound
  }

  /** The four response shapes that carry an id. */
  datatype CreationShape =
    | TopLevelId
    | WrappedId
    | PollingUrl(wrapped: bool)
    | AlternateField(name: string, wrapped: bool)

  function Wrap(wrapped: bool, payload: map<string, Value>): Value {
    if wrapped then Obj(map["data" := Obj(payload)]) else Obj(payload)
  }

  function CreationResponse(shape: CreationShape, id: string): Value {
    match shape
    case TopLevelId => Obj(map["id" := Str(id)])
    case WrappedId => Wrap(true, map["id" := Str(id)])
    case PollingUrl(w) => Wrap(w, map["urls" := Obj(map["get" := Str(PollUrl(id))])])
    case AlternateField(name, w) => Wrap(w, map[name := Str(id)])
  }

  /** Every recognised shape yields the id it carries. */
  lemma {:induction false} ExtractRecognizesShapes(shape: CreationShape, id: string)
    requires id != []
    requires shape.PollingUrl? ==> '/' !in id
    requires shape.AlternateField? ==> shape.name == "prediction_id" || shape.name == "request_id"
    ensures ExtractRequestId(CreationResponse(shape, id)) == Found(Str(id))
  {
    if shape.PollingUrl? {
      PollUrlRoundTrip(id);
    }
  }

  /** Once the payload has a truthy `id`, no other field is consulted. */
  lemma IdShortCircuits(r1: Value, r2: Value)
    requires Truthy(Get(Payload(r1), "id"))
    requires Get(Payload(r1), "id") == Get(Payload(r2), "id")
    ensures ExtractRequestId(r1) == ExtractRequestId(r2) == Found(Get(Payload(r1), "id"))
  {
  }

  /** Under a truthy `data` wrapper, a top-level `id` plays no part. */
  lemma TopLevelIdIgnoredUnderWrapper(m: map<string, Value>, v: Value)
    requires "data" in m && Truthy(m["data"])
    ensures ExtractRequestId(Obj(m["id" := v])) == ExtractRequestId(Obj(m))
  {
    assert Payload(Obj(m["id" := v])) == Payload(Obj(m)) == m["data"];
  }

  /** Without an id and without a polling URL, the alternates are tried in
      the order `data.prediction_id`, `data.request_id`,
      `prediction_id`, `request_id`; none gives "not found". */
  lemma AlternateFieldOrder(response: Value)
    requires !Truthy(Get(Payload(response), "id"))
    requires !Truthy(Get(Get(Payload(response), "urls"), "get"))
    ensures var data := Payload(response);
      ExtractRequestId(response) ==
        if Truthy(Get(data, "prediction_id")) then Found(Get(data, "prediction_id"))
        else if Truthy(Get(data, "request_id")) then Found(Get(data, "request_id"))
        else if Truthy(Get(response, "prediction_id")) then Found(Get(response, "prediction_id"))
        else if Truthy(Get(response, "request_id")) then Found(Get(response, "request_id"))
        else NotFound
  {
  }

  // ---------------------------------------------------------------------
  // Poll-result classification (the interval callback)
  // ---------------------------------------------------------------------

  datatype TickOutcome = Success(audioUrl: Value) | Failure(error: Value) | Pending

  const GenerationFailed: string := "Generation failed"

  /** `resultData?.key || result?.key`: the envelope first, field by field. */
  function Field(response: Value, key: string): Value {
    Or(Get(Payload(response), key), Get(response, key))
  }

  function Classify(response: Value): TickOutcome {
    var status := Field(response, "status");
    var outputs := Field(response, "outputs");
    var output := Field(response, "output");
    if (status == Str("succeeded") || status == Str("completed")) && (Truthy(output) || HasItems(outputs)) then
      Success(if HasItems(outputs) then First(outputs) else output)
    else if status == Str("failed") then
      Failure(Or(Field(response, "error"), Str(GenerationFailed)))
    else
      Pending
  }

  /** A poll is terminal only on the success or failure literals of the
      status domain; the other four statuses keep polling, and a failure
      always carries a message. */
  lemma {:induction false} ClassifyFollowsStatusDomain(response: Value)
    ensures var status := Field(response, "status");
      && (Classify(response).Success? ==>
            status.Str? && ParseStatus(status.s) in {Some(Succeeded), Some(Completed)})
      && (Classify(response).Failure? ==>
            status.Str? && ParseStatus(status.s) == Some(Failed) && Truthy(Classify(response).error))
      && (status.Str? && ParseStatus(status.s) in {Some(Starting), Some(Processing), Some(Created)} ==>
            Classify(response).Pending?)
  {
    var status := Field(response, "status");
    if status.Str? && ParseStatus(status.s).Some? {
      StatusNamesRoundTrip(ParseStatus(status.s).value);
    }
  }

  /** A status answer in canonical form: "" stands for an absent string. */
  datatype PredictionView = PredictionView(status: PredictionStatus, output: string, outputs: seq<string>, error: string)

  /** The answer as the provider sends it, bare or inside a `data` envelope. */
  function PollResponse(v: PredictionView, wrapped: bool): Value {
    Wrap(wrapped, map["status" := Str(StatusName(v.status)), "output" := Str(v.output),
                      "outputs" := Arr(Strs(v.outputs)), "error" := Str(v.error)])
  }

  /** The outcome the design promises for a canonical answer: success-like
      status with some output gives the first output (or the single one);
      "failed" gives the provider's text or a generic one; anything else
      keeps polling. */
  function Expected(v: PredictionView): TickOutcome {
    if (v.status == Succeeded || v.status == Completed) && (v.outputs != [] || v.output != "") then
      Success(Str(if v.outputs != [] then v.outputs[0] else v.output))
    else if v.status == Failed then
      Failure(Str(if v.error != "" then v.error else GenerationFailed))
    else
      Pending
  }

  lemma {:induction false} ClassifyMatchesExpected(v: PredictionView, wrapped: bool)
    ensures Classify(PollResponse(v, wrapped)) == Expected(v)
  {
    var r := PollResponse(v, wrapped);
    assert Field(r, "status") == Str(StatusName(v.status));
    assert Field(r, "output") == Str(v.output) || (v.output == "" && !Truthy(Field(r, "output")));
    assert HasItems(Field(r, "outputs")) <==> v.outputs != [];
    assert v.outputs != [] ==> First(Field(r, "outputs")) == Str(v.outputs[0]);
    StatusNamesRoundTrip(v.status);
  }

  /** Wrapping an answer in a `data` envelope does not change its outcome. */
  lemma {:induction false} EnvelopeTransparent(m: map<string, Value>)
    requires "data" !in m
    ensures Classify(Obj(map["data" := Obj(m)])) == Classify(Obj(m))
  {
    var wrapped := Obj(map["data" := Obj(m)]);
    assert Payload(wrapped) == Obj(m) == Payload(Obj(m));
    forall key | key != "data"
      ensures Truthy(Field(wrapped, key)) <==> Truthy(Field(Obj(m), key))
      ensures Truthy(Field(wrapped, key)) ==> Field(wrapped, key) == Field(Obj(m), key)
    {
    }
  }
}
