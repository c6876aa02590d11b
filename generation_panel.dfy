/** The audio-to-audio and text-to-audio panels. Both submit a generation
    request, pull a request id out of the answer, and poll the provider on an
    interval until a terminal answer arrives; they differ only in the form
    they send and in the audio-to-audio panel's file, whose every change runs
    an effect cleanup that clears the interval.

    Each `await` is taken as atomic: a submission is one step given the
    creation answer, a timer firing is one step given the poll answer. */
module GenerationPanel {
  import opened JsText
  import opened JsValue
  import opened WavespeedApi
  import opened ResponseNormalizer
  import opened Intervals

  datatype Kind = AudioToAudio | TextToAudio

  const NoFileError: string := "Please select an audio file"
  const NoKeyError: string := "API key not configured. Please set NEXT_PUBLIC_WAVESPEED_API_KEY in .env.local"
  const PollingKeyError: string := "API key not configured"
  const NoRequestIdError: string := "Failed to get request ID from API response. Check console for details."
  const InvalidIdError: string := "Invalid request ID"
  /** The message of the TypeError raised by `urls.get.match(…)` when
      `urls.get` is not a string (the engine's wording). */
  const MatchTypeError: string := "data.urls.get.match is not a function"

  /** What the form holds when it is submitted; `audio` is the data URL the
      browser read from the selected file. */
  datatype Form =
    | RemixForm(audio: string, editMode: EditMode, lyrics: string, originalLyrics: string,
                originalTags: string, tags: string)
    | TextForm(prompt: string, lyrics: string, bitrate: int)

  predicate Fits(kind: Kind, form: Form) {
    kind.AudioToAudio? <==> form.RemixForm?
  }

  /** The submission the panel sends: a fixed seed of -1 for a remix, a fixed
      sample rate of 44100 for text. */
  function RequestFor(form: Form, apiKey: string): (r: HttpCall)
    ensures r.verb == HttpPost && r.body.Some? && Header(r.headers, "Authorization") == Some(Bearer(apiKey))
    ensures form.RemixForm? ==> Get(r.body.value, "seed") == Num(-1) && Get(r.body.value, "audio") == Str(form.audio)
    ensures form.TextForm? ==> Get(r.body.value, "sample_rate") == Num(44100) && Get(r.body.value, "prompt") == Str(form.prompt)
  {
    match form
    case RemixForm(audio, mode, lyrics, originalLyrics, originalTags, tags) =>
      SubmitAudioToAudio(AudioToAudioRequest(audio, mode, lyrics, originalLyrics, originalTags, Some(-1), tags), apiKey)
    case TextForm(prompt, lyrics, bitrate) =>
      SubmitTextToAudio(TextToAudioRequest(bitrate, lyrics, prompt, Some(44100)), apiKey)
  }

  /** How the creation call ended: a parsed body, a non-ok answer with its
      body text, or an exception (network failure, unparseable JSON) with its
      message. */
  datatype CreateReply = Answered(body: Value) | Rejected(bodyText: string) | Threw(message: string)

  /** How one poll ended; every exception inside the timer callback is
      caught and logged. */
  datatype PollReply = Polled(body: Value) | PollThrew

  datatype PanelState = PanelState(
    hasFile: bool, isLoading: bool, isPolling: bool,
    error: Value, audioUrl: Value, requestId: Value, timers: Table)

  const Initial: PanelState := PanelState(false, false, false, Null, Null, Null, Quiet)

  /** The state after a step and the request the step sent, if any. */
  datatype Step = Step(state: PanelState, call: Option<HttpCall>)

  /** The one-poller discipline: at most one interval runs, the ref holds it,
      it runs only while the panel is loading and polling, and it polls a
      truthy id. */
  predicate Inv(s: PanelState) {
    && Valid(s.timers) && Single(s.timers)
    && (s.timers.live != map[] ==> s.isLoading && s.isPolling)
    && (forall h :: h in s.timers.live ==> Truthy(s.timers.live[h]))
  }

  /** `startPolling(id)` */
  function StartPollingStep(s: PanelState, id: Value, apiKey: string): PanelState
    requires Valid(s.timers)
  {
    if apiKey == "" then s.(error := Str(PollingKeyError))
    else s.(isPolling := true, timers := Start(s.timers, id))
  }

  /** The answer to the creation call, from the point where `isLoading` is set. */
  function CreationStep(s: PanelState, reply: CreateReply, apiKey: string): PanelState
    requires Valid(s.timers)
  {
    match reply
    case Rejected(text) => s.(error := Str(ApiError(text)), isLoading := false)
    case Threw(message) => s.(error := Str(message), isLoading := false)
    case Answered(body) =>
      match ExtractRequestId(body)
      case MatchNotAFunction => s.(error := Str(MatchTypeError), isLoading := false)
      case NotFound => s.(error := Str(NoRequestIdError), isLoading := false)
      case Found(id) => StartPollingStep(s.(requestId := id), id, apiKey)
  }

  /** `handleSubmit` */
  function SubmitStep(kind: Kind, apiKey: string, s: PanelState, form: Form, reply: CreateReply): Step
    requires Fits(kind, form) && Valid(s.timers)
  {
    var cleared := s.(error := Null, audioUrl := Null);
    if kind.AudioToAudio? && !s.hasFile then Step(cleared.(error := Str(NoFileError)), None)
    else if apiKey == "" then Step(cleared.(error := Str(NoKeyError)), None)
    else Step(CreationStep(cleared.(isLoading := true), reply, apiKey), Some(RequestFor(form, apiKey)))
  }

  /** A terminal tick: polling off, the ref's interval cleared, loading off. */
  function Stop(s: PanelState): PanelState
    requires Valid(s.timers)
  {
    s.(isPolling := false, timers := ClearCurrent(s.timers), isLoading := false)
  }

  /** Interval `h` fires. */
  function TickStep(apiKey: string, s: PanelState, h: nat, reply: PollReply): Step
    requires Valid(s.timers) && h in s.timers.live
  {
    var id := s.timers.live[h];
    if !Truthy(id) then Step(Stop(s).(error := Str(InvalidIdError)), None)
    else
      var call := Some(PollResult(ToJsString(id), apiKey));
      match reply
      case PollThrew => Step(s, call)
      case Polled(body) =>
        match Classify(body)
        case Success(url) => Step(Stop(s).(audioUrl := if Truthy(url) then url else s.audioUrl), call)
        case Failure(message) => Step(Stop(s).(error := message), call)
        case Pending => Step(s, call)
  }

  /** The effect cleanup on unmount. */
  function UnmountStep(s: PanelState): PanelState
    requires Valid(s.timers)
  {
    s.(timers := ClearCurrent(s.timers))
  }

  /** Choosing a file changes `fileUrl`, whose effect cleanup clears the interval. */
  function SelectFileStep(s: PanelState): PanelState
    requires Valid(s.timers)
  {
    s.(hasFile := true, timers := ClearCurrent(s.timers))
  }

  // ---------------------------------------------------------------------
  // Properties of a submission
  // ---------------------------------------------------------------------

  /** Without a file (audio-to-audio) or without an API key nothing is sent,
      an error is shown, and loading and polling are left alone. */
  lemma SubmitPreconditions(kind: Kind, apiKey: string, s: PanelState, form: Form, reply: CreateReply)
    requires Fits(kind, form) && Valid(s.timers)
    ensures var r := SubmitStep(kind, apiKey, s, form, reply);
      && (kind.AudioToAudio? && !s.hasFile ==> r.state.error == Str(NoFileError))
      && ((kind.TextToAudio? || s.hasFile) && apiKey == "" ==> r.state.error == Str(NoKeyError))
      && (r.call.None? <==> (kind.AudioToAudio? && !s.hasFile) || apiKey == "")
      && (r.call.None? ==> r.state == s.(error := r.state.error, audioUrl := Null))
  {
  }

  /** Whatever happens, a submission leaves no previous result on screen. */
  lemma SubmitClearsResult(kind: Kind, apiKey: string, s: PanelState, form: Form, reply: CreateReply)
    requires Fits(kind, form) && Valid(s.timers)
    ensures SubmitStep(kind, apiKey, s, form, reply).state.audioUrl == Null
  {
  }

  /** A sent request whose answer yields no id ends loading with an error
      and starts no interval; so do a rejected or failed call. */
  lemma SubmitFailures(kind: Kind, apiKey: string, s: PanelState, form: Form, reply: CreateReply)
    requires Fits(kind, form) && Valid(s.timers)
    requires SubmitStep(kind, apiKey, s, form, reply).call.Some?
    requires !(reply.Answered? && ExtractRequestId(reply.body).Found?)
    ensures var r := SubmitStep(kind, apiKey, s, form, reply).state;
      && !r.isLoading && r.timers == s.timers && r.isPolling == s.isPolling && r.requestId == s.requestId
      && r.error == Str(match reply
                        case Rejected(text) => ApiError(text)
                        case Threw(message) => message
                        case Answered(body) =>
                          if ExtractRequestId(body).NotFound? then NoRequestIdError else MatchTypeError)
  {
  }

  /** A found id is recorded and polled by one new interval held in the ref. */
  lemma SubmitStartsPolling(kind: Kind, apiKey: string, s: PanelState, form: Form, body: Value)
    requires Fits(kind, form) && Valid(s.timers)
    requires (kind.TextToAudio? || s.hasFile) && apiKey != ""
    requires ExtractRequestId(body).Found?
    ensures var id := ExtractRequestId(body).id;
      var r := SubmitStep(kind, apiKey, s, form, Answered(body));
      && r.call == Some(RequestFor(form, apiKey))
      && r.state.requestId == id && r.state.isLoading && r.state.isPolling && r.state.error == Null
      && r.state.timers.current == Some(s.timers.next)
      && r.state.timers.live == s.timers.live[s.timers.next := id]
  {
  }

  // ---------------------------------------------------------------------
  // Properties of a tick
  // ---------------------------------------------------------------------

  /** A success or failure answer ends polling and loading and clears the
      ref's interval; under the one-poller discipline no interval is left. */
  lemma {:induction false} TickTerminalStops(apiKey: string, s: PanelState, h: nat, body: Value)
    requires Inv(s) && h in s.timers.live
    requires !Classify(body).Pending?
    ensures var r := TickStep(apiKey, s, h, Polled(body)).state;
      !r.isPolling && !r.isLoading && r.timers.live == map[]
  {
    ClearSingleStopsAll(s.timers);
  }

  /** What a terminal answer shows: the artifact (kept only when truthy), or
      the provider's error text and otherwise "Generation failed". */
  lemma TickOutcomeShown(apiKey: string, s: PanelState, h: nat, body: Value)
    requires Valid(s.timers) && h in s.timers.live && Truthy(s.timers.live[h])
    ensures var r := TickStep(apiKey, s, h, Polled(body)).state;
      match Classify(body)
      case Success(url) => r.audioUrl == (if Truthy(url) then url else s.audioUrl) && r.error == s.error
      case Failure(message) => r.error == message && Truthy(r.error) && r.audioUrl == s.audioUrl
      case Pending => r == s
  {
    ClassifyFollowsStatusDomain(body);
  }

  /** A poll that throws, or an answer that is not terminal, changes nothing:
      the interval stays and fires again. Every such tick polls the id the
      interval captured. */
  lemma TickNonTerminalKeepsState(apiKey: string, s: PanelState, h: nat, reply: PollReply)
    requires Valid(s.timers) && h in s.timers.live && Truthy(s.timers.live[h])
    requires reply.PollThrew? || Classify(reply.body).Pending?
    ensures TickStep(apiKey, s, h, reply) == Step(s, Some(PollResult(ToJsString(s.timers.live[h]), apiKey)))
  {
  }

  /** The result on screen changes only through a successful answer. */
  lemma TickAudioUrlOnlyOnSuccess(apiKey: string, s: PanelState, h: nat, reply: PollReply)
    requires Valid(s.timers) && h in s.timers.live
    ensures var r := TickStep(apiKey, s, h, reply).state;
      r.audioUrl != s.audioUrl ==>
        reply.Polled? && Classify(reply.body).Success? && r.audioUrl == Classify(reply.body).audioUrl
        && Truthy(r.audioUrl)
  {
  }

  /** An interval whose captured id is falsy stops itself with "Invalid
      request ID" and never reaches the provider. */
  lemma TickInvalidId(apiKey: string, s: PanelState, h: nat, reply: PollReply)
    requires Valid(s.timers) && h in s.timers.live && !Truthy(s.timers.live[h])
    ensures var r := TickStep(apiKey, s, h, reply);
      && r.call.None? && r.state.error == Str(InvalidIdError)
      && !r.state.isPolling && !r.state.isLoading
  {
  }

  /** Under the one-poller discipline that branch is never taken: every tick
      polls the provider. */
  lemma TickAlwaysPolls(apiKey: string, s: PanelState, h: nat, reply: PollReply)
    requires Inv(s) && h in s.timers.live
    ensures TickStep(apiKey, s, h, reply).call == Some(PollResult(ToJsString(s.timers.live[h]), apiKey))
  {
  }

  // ---------------------------------------------------------------------
  // The one-poller discipline
  // ---------------------------------------------------------------------

  lemma InitialInv()
    ensures Inv(Initial) && !Initial.isLoading
  {
  }

  /** A submission from an idle panel (the button is disabled while loading)
      keeps the discipline. */
  lemma {:induction false} SubmitKeepsInv(kind: Kind, apiKey: string, s: PanelState, form: Form, reply: CreateReply)
    requires Fits(kind, form) && Inv(s) && !s.isLoading
    ensures Inv(SubmitStep(kind, apiKey, s, form, reply).state)
  {
    assert s.timers.live == map[];
    var r := SubmitStep(kind, apiKey, s, form, reply).state;
    if r.timers != s.timers {
      var id := ExtractRequestId(reply.body).id;
      StartQuietIsSingle(s.timers, id);
    }
  }

  /** Without that guard a second submission leaks the running interval. */
  lemma {:induction false} SecondSubmitLeaks(kind: Kind, apiKey: string, s: PanelState, form: Form, body: Value)
    requires Fits(kind, form) && Inv(s) && s.timers.live != map[]
    requires (kind.TextToAudio? || s.hasFile) && apiKey != ""
    requires ExtractRequestId(body).Found?
    ensures !Inv(SubmitStep(kind, apiKey, s, form, Answered(body)).state)
  {
    var h :| h in s.timers.live;
    StartWhileLiveLeaks(s.timers, ExtractRequestId(body).id, h);
  }

  lemma {:induction false} TickKeepsInv(apiKey: string, s: PanelState, h: nat, reply: PollReply)
    requires Inv(s) && h in s.timers.live
    ensures Inv(TickStep(apiKey, s, h, reply).state)
  {
    ClearSingleStopsAll(s.timers);
  }

  /** Unmounting leaves no interval running. */
  lemma {:induction false} UnmountStopsAll(s: PanelState)
    requires Inv(s)
    ensures Inv(UnmountStep(s)) && UnmountStep(s).timers.live == map[]
  {
    ClearSingleStopsAll(s.timers);
  }

  /** Choosing a file while a generation is polled stops the poller but
      leaves the panel loading: no tick remains to end it. */
  lemma {:induction false} SelectFileStopsPoller(s: PanelState)
    requires Inv(s)
    ensures var r := SelectFileStep(s);
      Inv(r) && r.timers.live == map[] && r.isLoading == s.isLoading && r.isPolling == s.isPolling
  {
    ClearSingleStopsAll(s.timers);
  }

  /** A whole run from a fresh panel: the submission starts interval 1, and
      a successful answer to its first tick shows the artifact and leaves the
      panel idle with no interval running. */
  lemma {:induction false} RunCompletes(kind: Kind, apiKey: string, form: Form, body: Value, answer: Value)
    requires Fits(kind, form) && kind.TextToAudio? && apiKey != ""
    requires ExtractRequestId(body).Found?
    requires Classify(answer).Success? && Truthy(Classify(answer).audioUrl)
    ensures var s1 := SubmitStep(kind, apiKey, Initial, form, Answered(body)).state;
      && s1.timers.live.Keys == {1} && s1.isLoading
      && var s2 := TickStep(apiKey, s1, 1, Polled(answer)).state;
      && s2.audioUrl == Classify(answer).audioUrl && s2.error == Null
      && !s2.isLoading && !s2.isPolling && s2.timers.live == map[]
  {
    var s1 := SubmitStep(kind, apiKey, Initial, form, Answered(body)).state;
    InitialInv();
    SubmitKeepsInv(kind, apiKey, Initial, form, Answered(body));
    assert s1.timers.live.Keys == {1};
    TickTerminalStops(apiKey, s1, 1, answer);
  }

  // ---------------------------------------------------------------------
  // The component
  // ---------------------------------------------------------------------

  class Panel {
    const kind: Kind
    /** `NEXT_PUBLIC_WAVESPEED_API_KEY || ""`, fixed at build time. */
    const apiKey: string
    var hasFile: bool
    var isLoading: bool
    var isPolling: bool
    var error: Value
    var audioUrl: Value
    var requestId: Value
    /** The browser's intervals and `pollingIntervalRef.current`. */
    var timers: Table

    function State(): PanelState
      reads this
    {
      PanelState(hasFile, isLoading, isPolling, error, audioUrl, requestId, timers)
    }

    constructor (kind: Kind, apiKey: string)
      ensures this.kind == kind && this.apiKey == apiKey && State() == Initial
    {
      this.kind := kind;
      this.apiKey := apiKey;
      hasFile := false;
      isLoading := false;
      isPolling := false;
      error := Null;
      audioUrl := Null;
      requestId := Null;
      timers := Quiet;
    }

    method SelectFile()
      requires kind.AudioToAudio? && Valid(timers)
      modifies this
      ensures State() == SelectFileStep(old(State()))
    {
      hasFile := true;
      timers := ClearCurrent(timers);
    }

    method Unmount()
      requires Valid(timers)
      modifies this
      ensures State() == UnmountStep(old(State()))
    {
      timers := ClearCurrent(timers);
    }

    method StartPolling(id: Value)
      requires Valid(timers)
      modifies this
      ensures State() == StartPollingStep(old(State()), id, apiKey)
    {
      if apiKey == "" {
        error := Str(PollingKeyError);
        return;
      }
      isPolling := true;
      timers := Start(timers, id);
    }

    method Submit(form: Form, reply: CreateReply) returns (call: Option<HttpCall>)
      requires Fits(kind, form) && Valid(timers)
      modifies this
      ensures Step(State(), call) == SubmitStep(kind, apiKey, old(State()), form, reply)
    {
      error := Null;
      audioUrl := Null;
      if kind.AudioToAudio? && !hasFile {
        error := Str(NoFileError);
        return None;
      }
      if apiKey == "" {
        error := Str(NoKeyError);
        return None;
      }
      isLoading := true;
      call := Some(RequestFor(form, apiKey));
      match reply {
        case Rejected(text) =>
          error := Str(ApiError(text));
          isLoading := false;
        case Threw(message) =>
          error := Str(message);
          isLoading := false;
        case Answered(body) =>
          var extracted := ExtractRequestId(body);
          match extracted {
            case MatchNotAFunction =>
              error := Str(MatchTypeError);
              isLoading := false;
            case NotFound =>
              error := Str(NoRequestIdError);
              isLoading := false;
            case Found(id) =>
              requestId := id;
              StartPolling(id);
          }
      }
    }

    method Tick(h: nat, reply: PollReply) returns (call: Option<HttpCall>)
      requires Valid(timers) && h in timers.live
      modifies this
      ensures Step(State(), call) == TickStep(apiKey, old(State()), h, reply)
    {
      var id := timers.live[h];
      if !Truthy(id) {
        isPolling := false;
        timers := ClearCurrent(timers);
        error := Str(InvalidIdError);
        isLoading := false;
        return None;
      }
      call := Some(PollResult(ToJsString(id), apiKey));
      if reply.Polled? {
        var outcome := Classify(reply.body);
        if outcome.Success? {
          isPolling := false;
          timers := ClearCurrent(timers);
          if Truthy(outcome.audioUrl) {
            audioUrl := outcome.audioUrl;
          }
          isLoading := false;
        } else if outcome.Failure? {
          isPolling := false;
          timers := ClearCurrent(timers);
          error := outcome.error;
          isLoading := false;
        }
      }
    }
  }
}
