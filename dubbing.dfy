/** The dubbing panel: it uploads a media file (with optional transcript and
    stem files) to the application's own dubbing route, polls that route for
    the job's status every few seconds until the job is dubbed or failed, and
    downloads the dubbed track for the first target language.

    As in the generation panels, each `await` is taken as atomic. */
module Dubbing {
  import opened JsText
  import opened JsValue
  import opened WavespeedApi
  import opened Intervals

  const NoFileError: string := "Please select an audio or video file"
  const CreateFailed: string := "Failed to create dubbing"
  const NoDubbingIdError: string := "No dubbing ID received from API"
  const DubbingFailed: string := "Dubbing failed"
  const NoDubbingIdAvailable: string := "No dubbing ID available"
  const DownloadFailed: string := "Download failed"
  const DownloadFailedFallback: string := "Failed to download dubbing"
  const DefaultTargetLang: string := "es"

  // ---------------------------------------------------------------------
  // Dropping files onto the four slots
  // ---------------------------------------------------------------------

  datatype Slot = Main | Csv | Foreground | Background

  /** The MIME types a slot takes from a drop: audio or video for the media
      file, exactly "text/csv" for the transcript, audio for the two stems. */
  predicate Accepts(slot: Slot, mimeType: string) {
    match slot
    case Main => StartsWith(mimeType, "audio/") || StartsWith(mimeType, "video/")
    case Csv => mimeType == "text/csv"
    case Foreground => StartsWith(mimeType, "audio/")
    case Background => StartsWith(mimeType, "audio/")
  }

  /** Whichever slot it is dropped on, a file whose type names neither audio
      nor video nor CSV is refused, and a CSV is taken only by its own slot. */
  lemma AcceptsByType(slot: Slot, mimeType: string)
    ensures Accepts(slot, mimeType) ==>
      StartsWith(mimeType, "audio/") || StartsWith(mimeType, "video/") || mimeType == "text/csv"
    ensures mimeType == "text/csv" ==> (Accepts(slot, mimeType) <==> slot == Csv)
    ensures StartsWith(mimeType, "video/") ==> (Accepts(slot, mimeType) <==> slot == Main)
    ensures StartsWith(mimeType, "audio/") ==> (Accepts(slot, mimeType) <==> slot != Csv)
  {
    if StartsWith(mimeType, "video/") || mimeType == "text/csv" {
      assert mimeType[..6] != "audio/";
    }
    if mimeType == "text/csv" {
      assert mimeType[..6] != "video/";
    }
  }

  // ---------------------------------------------------------------------
  // State and steps
  // ---------------------------------------------------------------------

  datatype DubbingState = DubbingState(
    hasFile: bool, hasCsv: bool, hasForeground: bool, hasBackground: bool,
    targetLang: string, isLoading: bool, isPolling: bool, error: Value,
    dubbingId: Value, dubbingStatus: Value, expectedDurationSec: Value, audioUrl: Value,
    timers: Table)

  const Initial: DubbingState :=
    DubbingState(false, false, false, false, DefaultTargetLang, false, false, Null, Null, Null, Null, Null, Quiet)

  datatype Step = Step(state: DubbingState, call: Option<HttpCall>)

  /** Whether `slot` holds a file. */
  predicate Holds(s: DubbingState, slot: Slot) {
    match slot
    case Main => s.hasFile
    case Csv => s.hasCsv
    case Foreground => s.hasForeground
    case Background => s.hasBackground
  }

  /** `handleFileSelect`: the file goes into its slot whatever its type. A
      file chosen through a slot's picker arrives here directly. */
  function PickStep(s: DubbingState, slot: Slot): DubbingState {
    match slot
    case Main => s.(hasFile := true)
    case Csv => s.(hasCsv := true)
    case Foreground => s.(hasForeground := true)
    case Background => s.(hasBackground := true)
  }

  /** A file dropped on `slot` reaches `handleFileSelect` only when the slot
      accepts its type. */
  function DropStep(s: DubbingState, slot: Slot, mimeType: string): DubbingState {
    if !Accepts(slot, mimeType) then s else PickStep(s, slot)
  }

  /** The effect keyed on `audioUrl`: setting it to a different value runs
      the cleanup, which clears the ref's interval. */
  function SetAudioUrl(s: DubbingState, url: Value): DubbingState
    requires Valid(s.timers)
  {
    if url == s.audioUrl then s else s.(audioUrl := url, timers := ClearCurrent(s.timers))
  }

  /** The names of the multipart fields, in the order they are appended. */
  function FormFields(s: DubbingState): (r: seq<string>)
    ensures |r| >= 2 && r[0] == "file" && r[|r| - 1] == "target_lang"
    ensures "csv_file" in r <==> s.hasCsv
    ensures "foreground_audio_file" in r <==> s.hasForeground
    ensures "background_audio_file" in r <==> s.hasBackground
  {
    ["file"]
      + (if s.hasCsv then ["csv_file"] else [])
      + (if s.hasForeground then ["foreground_audio_file"] else [])
      + (if s.hasBackground then ["background_audio_file"] else [])
      + ["target_lang"]
  }

  /** The multipart POST to the dubbing route; only the field names and the
      language travel in the model. */
  function CreateCall(s: DubbingState): HttpCall {
    HttpCall(HttpPost, "/api/dubbing", [], Some(Obj(map["fields" := Arr(Strs(FormFields(s))),
                                                       "target_lang" := Str(s.targetLang)])))
  }

  /** How the creation call ended: an ok answer's parsed body, a non-ok
      answer's parsed body, or an exception with its message (network
      failure, or a body that is not JSON). */
  datatype CreateReply = Answered(body: Value) | NotOk(errorBody: Value) | Threw(message: string)

  /** The message the submission's `catch` shows for a reply, or the id to
      poll. */
  function CreationError(reply: CreateReply): Option<string> {
    match reply
    case Threw(message) => Some(message)
    case NotOk(body) =>
      if Nullish(body) then Some(NullReadError(body, "error"))
      else Some(ToJsString(Or(Get(body, "error"), Str(CreateFailed))))
    case Answered(body) =>
      if Nullish(body) then Some(NullReadError(body, "dubbing_id"))
      else if !Truthy(Get(body, "dubbing_id")) then Some(NoDubbingIdError)
      else None
  }

  /** What a submission forgets before anything else: the previous
      error, result, status and duration. */
  function ResetStep(s: DubbingState): DubbingState
    requires Valid(s.timers)
  {
    SetAudioUrl(s.(error := Null), Null).(dubbingStatus := Null, expectedDurationSec := Null)
  }

  /** The answer to the creation call, from the point where `isLoading` is set. */
  function CreationStep(s: DubbingState, reply: CreateReply): DubbingState
    requires Valid(s.timers)
  {
    match CreationError(reply)
    case Some(message) => s.(error := Str(message), isLoading := false)
    case None =>
      var id := Get(reply.body, "dubbing_id");
      var duration := Get(reply.body, "expected_duration_sec");
      var withDuration := if Truthy(duration) then s.(expectedDurationSec := duration) else s;
      withDuration.(dubbingId := id, isPolling := true, timers := Start(s.timers, id))
  }

  /** `handleSubmit` */
  function SubmitStep(s: DubbingState, reply: CreateReply): Step
    requires Valid(s.timers)
  {
    var cleared := ResetStep(s);
    if !s.hasFile then Step(cleared.(error := Str(NoFileError)), None)
    else Step(CreationStep(cleared.(isLoading := true), reply), Some(CreateCall(s)))
  }

  /** How one status check ended. */
  datatype StatusReply = StatusOk(body: Value) | StatusNotOk | StatusThrew

  function StatusCall(id: Value): HttpCall {
    HttpCall(HttpGet, "/api/dubbing?id=" + ToJsString(id), [], None)
  }

  /** Interval `h` fires and checks the status of the job it captured. */
  function TickStep(s: DubbingState, h: nat, reply: StatusReply): Step
    requires Valid(s.timers) && h in s.timers.live
  {
    var call := Some(StatusCall(s.timers.live[h]));
    match reply
    case StatusNotOk => Step(s, call)
    case StatusThrew => Step(s, call)
    case StatusOk(body) =>
      var stored := s.(dubbingStatus := body);
      if Nullish(body) then Step(stored, call)
      else
        var status := Get(body, "status");
        if status == Str("dubbed") then
          Step(stored.(isPolling := false, timers := ClearCurrent(s.timers), isLoading := false), call)
        else if status == Str("failed") || status == Str("error") then
          Step(stored.(isPolling := false, timers := ClearCurrent(s.timers), error := Str(DubbingFailed),
                       isLoading := false), call)
        else Step(stored, call)
  }

  /** How the download ended: a blob URL, a non-ok answer with its parsed
      body (`None` when it is not JSON), or an exception with its message. */
  datatype DownloadReply = Fetched(blobUrl: string) | Refused(errorBody: Option<Value>) | DownloadThrew(message: string)

  /** `target_languages?.[0] || targetLang` */
  function DownloadLanguage(s: DubbingState): Value {
    Or(First(Get(s.dubbingStatus, "target_languages")), Str(s.targetLang))
  }

  function DownloadCall(s: DubbingState): HttpCall {
    HttpCall(HttpGet, "/api/dubbing/download?id=" + ToJsString(s.dubbingId) + "&lang=" + ToJsString(DownloadLanguage(s)),
             [], None)
  }

  /** `handleDownload` */
  function DownloadStep(s: DubbingState, reply: DownloadReply): Step
    requires Valid(s.timers)
  {
    if !Truthy(s.dubbingId) || !Truthy(s.dubbingStatus) then Step(s.(error := Str(NoDubbingIdAvailable)), None)
    else
      var call := Some(DownloadCall(s));
      match reply
      case Fetched(url) => Step(SetAudioUrl(s, Str(url)), call)
      case DownloadThrew(message) => Step(s.(error := Str(message)), call)
      case Refused(None) => Step(s.(error := Str(DownloadFailed)), call)
      case Refused(Some(body)) =>
        var message := if Nullish(body) then NullReadError(body, "error")
                       else ToJsString(Or(Get(body, "error"), Str(DownloadFailedFallback)));
        Step(s.(error := Str(message)), call)
  }

  function UnmountStep(s: DubbingState): DubbingState
    requires Valid(s.timers)
  {
    s.(timers := ClearCurrent(s.timers))
  }

  /** The one-poller discipline, as in the generation panels. */
  predicate Inv(s: DubbingState) {
    && Valid(s.timers) && Single(s.timers)
    && (s.timers.live != map[] ==> s.isLoading && s.isPolling)
  }

  // ---------------------------------------------------------------------
  // Properties
  // ---------------------------------------------------------------------

  /** A dropped file fills its slot exactly when the slot accepts its type,
      and nothing else changes. */
  lemma DropFillsOnlyItsSlot(s: DubbingState, slot: Slot, mimeType: string)
    ensures var r := DropStep(s, slot, mimeType);
      && r.(hasFile := s.hasFile, hasCsv := s.hasCsv, hasForeground := s.hasForeground,
            hasBackground := s.hasBackground) == s
      && (r.hasFile != s.hasFile ==> slot == Main)
      && (r.hasCsv != s.hasCsv ==> slot == Csv)
      && (r.hasForeground != s.hasForeground ==> slot == Foreground)
      && (r.hasBackground != s.hasBackground ==> slot == Background)
      && (slot == Main ==> r.hasFile == (s.hasFile || Accepts(Main, mimeType)))
      && (slot == Csv ==> r.hasCsv == (s.hasCsv || mimeType == "text/csv"))
      && (slot == Foreground ==> r.hasForeground == (s.hasForeground || StartsWith(mimeType, "audio/")))
      && (slot == Background ==> r.hasBackground == (s.hasBackground || StartsWith(mimeType, "audio/")))
  {
  }

  /** The picker fills its slot whatever the file's type and touches no
      other slot; a drop of the same file agrees with it exactly when the
      slot accepts the type or already holds a file. */
  lemma PickIgnoresType(s: DubbingState, slot: Slot, mimeType: string)
    ensures Holds(PickStep(s, slot), slot)
    ensures forall other: Slot :: other != slot ==> Holds(PickStep(s, slot), other) == Holds(s, other)
    ensures PickStep(s, slot).(hasFile := s.hasFile, hasCsv := s.hasCsv, hasForeground := s.hasForeground,
                               hasBackground := s.hasBackground) == s
    ensures DropStep(s, slot, mimeType) == PickStep(s, slot) <==> Accepts(slot, mimeType) || Holds(s, slot)
  {
  }

  /** A transcript that the browser reports as a spreadsheet is refused
      when dropped but sent when picked. */
  lemma {:induction false} PickedSpreadsheetIsSent()
    ensures var withMedia := PickStep(Initial, Main);
      && "csv_file" !in FormFields(DropStep(withMedia, Csv, "application/vnd.ms-excel"))
      && "csv_file" in FormFields(PickStep(withMedia, Csv))
  {
    var withMedia := PickStep(Initial, Main);
    assert !Accepts(Csv, "application/vnd.ms-excel");
    assert DropStep(withMedia, Csv, "application/vnd.ms-excel") == withMedia;
  }

  /** A submission first forgets the previous job's result, status and
      duration; only a new answer's truthy duration is kept. Without a media
      file it then stops with an error and sends nothing. */
  lemma SubmitResets(s: DubbingState, reply: CreateReply)
    requires Valid(s.timers)
    ensures var r := SubmitStep(s, reply);
      && r.state.audioUrl == Null && r.state.dubbingStatus == Null
      && (!(reply.Answered? && Truthy(Get(reply.body, "expected_duration_sec"))) ==>
            r.state.expectedDurationSec == Null)
      && (!s.hasFile ==> r.call.None? && r.state.error == Str(NoFileError)
                          && r.state.isLoading == s.isLoading && r.state.expectedDurationSec == Null)
      && (s.hasFile ==> r.call == Some(CreateCall(s)))
  {
    var cleared := ResetStep(s);
    assert cleared.audioUrl == Null;
    if s.hasFile {
      assert CreationStep(cleared.(isLoading := true), reply).audioUrl == Null;
    }
  }

  /** Any answer without a truthy `dubbing_id` ends loading with an error
      and starts no poller. */
  lemma {:induction false} SubmitWithoutIdStops(s: DubbingState, reply: CreateReply)
    requires Valid(s.timers) && s.hasFile
    requires !(reply.Answered? && Truthy(Get(reply.body, "dubbing_id")))
    ensures var r := SubmitStep(s, reply).state;
      && !r.isLoading && r.isPolling == s.isPolling && r.dubbingId == s.dubbingId
      && r.timers.live.Keys <= s.timers.live.Keys
      && (reply.Answered? && !Nullish(reply.body) ==> r.error == Str(NoDubbingIdError))
      && (reply.NotOk? && !Nullish(reply.errorBody) ==>
            r.error == Str(ToJsString(Or(Get(reply.errorBody, "error"), Str(CreateFailed)))))
  {
    if reply.Answered? {
      assert CreationError(reply).Some?;
    }
  }

  /** An answer with a truthy id is polled by one new interval. */
  lemma SubmitStartsPolling(s: DubbingState, body: Value)
    requires Valid(s.timers) && s.hasFile && Truthy(Get(body, "dubbing_id"))
    ensures var r := SubmitStep(s, Answered(body)).state;
      && r.dubbingId == Get(body, "dubbing_id") && r.isLoading && r.isPolling && r.error == Null
      && r.timers.current == Some(r.timers.next - 1)
      && r.timers.live[r.timers.next - 1] == Get(body, "dubbing_id")
      && r.expectedDurationSec == (if Truthy(Get(body, "expected_duration_sec")) then Get(body, "expected_duration_sec") else Null)
  {
  }

  /** Every status body fetched is stored, whatever it says; "dubbed" stops
      polling without an error; "failed" and "error" stop it with "Dubbing
      failed"; anything else keeps polling. */
  lemma {:induction false} TickStatusRules(s: DubbingState, h: nat, body: Value)
    requires Inv(s) && h in s.timers.live
    ensures var r := TickStep(s, h, StatusOk(body)).state;
      var status := Get(body, "status");
      && r.dubbingStatus == body
      && (status == Str("dubbed") ==>
            !r.isPolling && !r.isLoading && r.timers.live == map[] && r.error == s.error)
      && (status == Str("failed") || status == Str("error") ==>
            !r.isPolling && !r.isLoading && r.timers.live == map[] && r.error == Str(DubbingFailed))
      && (status !in {Str("dubbed"), Str("failed"), Str("error")} ==> r == s.(dubbingStatus := body))
  {
    ClearSingleStopsAll(s.timers);
  }

  /** A non-ok or failed status check changes nothing; polling goes on. */
  lemma TickFailureKeepsState(s: DubbingState, h: nat, reply: StatusReply)
    requires Valid(s.timers) && h in s.timers.live && !reply.StatusOk?
    ensures TickStep(s, h, reply) == Step(s, Some(StatusCall(s.timers.live[h])))
  {
  }

  /** Downloading needs both an id and a status; it fetches the first
      target language the job reports, or else the language selected. */
  lemma DownloadRules(s: DubbingState, reply: DownloadReply)
    requires Valid(s.timers)
    ensures var r := DownloadStep(s, reply);
      && (r.call.None? <==> !Truthy(s.dubbingId) || !Truthy(s.dubbingStatus))
      && (r.call.Some? ==> r.call == Some(DownloadCall(s)))
      && (r.call.None? ==> r.state == s.(error := Str(NoDubbingIdAvailable)))
      && (r.call.Some? ==> r.state.isLoading == s.isLoading && r.state.isPolling == s.isPolling)
      && (r.call.Some? && reply.Refused? && reply.errorBody.None? ==> r.state.error == Str(DownloadFailed))
      && (r.call.Some? && reply.Fetched? ==> r.state.audioUrl == Str(reply.blobUrl))
  {
  }

  /** The language downloaded is the job's first target language when it
      has one, and otherwise the one selected in the form; a status that
      carries no `target_languages` at all also falls back to the form. */
  lemma {:induction false} DownloadLanguageChoice(s: DubbingState, langs: seq<string>)
    ensures s.dubbingStatus.Obj? && "target_languages" in s.dubbingStatus.fields
            && s.dubbingStatus.fields["target_languages"] == Arr(Strs(langs)) ==>
      DownloadLanguage(s) == Str(if langs != [] && langs[0] != "" then langs[0] else s.targetLang)
    ensures s.dubbingStatus.Obj? && "target_languages" !in s.dubbingStatus.fields ==>
      DownloadLanguage(s) == Str(s.targetLang)
  {
    if langs != [] {
      assert Strs(langs)[0] == Str(langs[0]);
    }
  }

  lemma InitialInv()
    ensures Inv(Initial) && Initial.targetLang == "es"
  {
  }

  /** A submission from an idle panel (its button is disabled while
      loading) keeps the discipline, and so does every tick. */
  lemma {:induction false} SubmitKeepsInv(s: DubbingState, reply: CreateReply)
    requires Inv(s) && !s.isLoading
    ensures Inv(SubmitStep(s, reply).state)
  {
    assert s.timers.live == map[];
    assert ResetStep(s).timers.live == map[];
  }

  lemma {:induction false} TickKeepsInv(s: DubbingState, h: nat, reply: StatusReply)
    requires Inv(s) && h in s.timers.live
    ensures Inv(TickStep(s, h, reply).state)
  {
    ClearSingleStopsAll(s.timers);
  }

  /** A download that sets a new result runs the cleanup: a poller still
      running stops, while the panel stays loading. */
  lemma {:induction false} DownloadStopsPoller(s: DubbingState, url: string)
    requires Inv(s) && Truthy(s.dubbingId) && Truthy(s.dubbingStatus) && s.audioUrl != Str(url)
    ensures var r := DownloadStep(s, Fetched(url)).state;
      Inv(r) && r.timers.live == map[] && r.isLoading == s.isLoading
  {
    ClearSingleStopsAll(s.timers);
  }

  lemma {:induction false} UnmountStopsAll(s: DubbingState)
    requires Inv(s)
    ensures Inv(UnmountStep(s)) && UnmountStep(s).timers.live == map[]
  {
    ClearSingleStopsAll(s.timers);
  }

  // ---------------------------------------------------------------------
  // The component
  // ---------------------------------------------------------------------

  class DubbingPanel {
    var hasFile: bool
    var hasCsv: bool
    var hasForeground: bool
    var hasBackground: bool
    var targetLang: string
    var isLoading: bool
    var isPolling: bool
    var error: Value
    var dubbingId: Value
    var dubbingStatus: Value
    var expectedDurationSec: Value
    var audioUrl: Value
    /** The browser's intervals and `pollingIntervalRef.current`. */
    var timers: Table

    function State(): DubbingState
      reads this
    {
      DubbingState(hasFile, hasCsv, hasForeground, hasBackground, targetLang, isLoading, isPolling,
                   error, dubbingId, dubbingStatus, expectedDurationSec, audioUrl, timers)
    }

    constructor ()
      ensures State() == Initial
    {
      hasFile, hasCsv, hasForeground, hasBackground := false, false, false, false;
      targetLang := DefaultTargetLang;
      isLoading, isPolling := false, false;
      error, dubbingId, dubbingStatus, expectedDurationSec, audioUrl := Null, Null, Null, Null, Null;
      timers := Quiet;
    }

    method SelectLanguage(lang: string)
      modifies this
      ensures State() == old(State()).(targetLang := lang)
    {
      targetLang := lang;
    }

    /** A file chosen in `slot`'s picker. */
    method Pick(slot: Slot)
      modifies this
      ensures State() == PickStep(old(State()), slot)
    {
      match slot {
        case Main => hasFile := true;
        case Csv => hasCsv := true;
        case Foreground => hasForeground := true;
        case Background => hasBackground := true;
      }
    }

    method Drop(slot: Slot, mimeType: string)
      modifies this
      ensures State() == DropStep(old(State()), slot, mimeType)
    {
      if slot == Main && Accepts(Main, mimeType) {
        hasFile := true;
      } else if slot == Csv && mimeType == "text/csv" {
        hasCsv := true;
      } else if (slot == Foreground || slot == Background) && StartsWith(mimeType, "audio/") {
        if slot == Foreground {
          hasForeground := true;
        } else {
          hasBackground := true;
        }
      }
    }

    /** `setAudioUrl(url)` together with the effect it triggers. */
    method UpdateAudioUrl(url: Value)
      requires Valid(timers)
      modifies this
      ensures State() == SetAudioUrl(old(State()), url)
    {
      if url != audioUrl {
        audioUrl := url;
        timers := ClearCurrent(timers);
      }
    }

    method Reset()
      requires Valid(timers)
      modifies this
      ensures State() == ResetStep(old(State()))
    {
      error := Null;
      UpdateAudioUrl(Null);
      dubbingStatus := Null;
      expectedDurationSec := Null;
    }

    method ReceiveCreation(reply: CreateReply)
      requires Valid(timers)
      modifies this
      ensures State() == CreationStep(old(State()), reply)
    {
      var failure := CreationError(reply);
      if failure.Some? {
        error := Str(failure.value);
        isLoading := false;
        return;
      }
      var id := Get(reply.body, "dubbing_id");
      var duration := Get(reply.body, "expected_duration_sec");
      if Truthy(duration) {
        expectedDurationSec := duration;
      }
      dubbingId := id;
      isPolling := true;
      timers := Start(timers, id);
    }

    method Submit(reply: CreateReply) returns (call: Option<HttpCall>)
      requires Valid(timers)
      modifies this
      ensures Step(State(), call) == SubmitStep(old(State()), reply)
    {
      // The handler reads the form's values as they were when it was called.
      var before := State();
      Reset();
      ghost var cleared := State();
      assert cleared == ResetStep(before);
      if !hasFile {
        error := Str(NoFileError);
        assert State() == cleared.(error := Str(NoFileError));
        return None;
      }
      isLoading := true;
      call := Some(CreateCall(before));
      ghost var loading := State();
      assert loading == cleared.(isLoading := true);
      ReceiveCreation(reply);
    }

    method Tick(h: nat, reply: StatusReply) returns (call: Option<HttpCall>)
      requires Valid(timers) && h in timers.live
      modifies this
      ensures Step(State(), call) == TickStep(old(State()), h, reply)
    {
      call := Some(StatusCall(timers.live[h]));
      if !reply.StatusOk? {
        return;
      }
      var body := reply.body;
      dubbingStatus := body;
      if Nullish(body) {
        return;
      }
      var status := Get(body, "status");
      if status == Str("dubbed") {
        isPolling := false;
        timers := ClearCurrent(timers);
        isLoading := false;
      } else if status == Str("failed") || status == Str("error") {
        isPolling := false;
        timers := ClearCurrent(timers);
        error := Str(DubbingFailed);
        isLoading := false;
      }
    }

    method Download(reply: DownloadReply) returns (call: Option<HttpCall>)
      requires Valid(timers)
      modifies this
      ensures Step(State(), call) == DownloadStep(old(State()), reply)
    {
      if !Truthy(dubbingId) || !Truthy(dubbingStatus) {
        error := Str(NoDubbingIdAvailable);
        return None;
      }
      call := Some(DownloadCall(State()));
      match reply {
        case Fetched(url) =>
          UpdateAudioUrl(Str(url));
        case DownloadThrew(message) =>
          error := Str(message);
        case Refused(parsed) =>
          if parsed.None? {
            error := Str(DownloadFailed);
          } else if Nullish(parsed.value) {
            error := Str(NullReadError(parsed.value, "error"));
          } else {
            error := Str(ToJsString(Or(Get(parsed.value, "error"), Str(DownloadFailedFallback))));
          }
      }
    }

    method Unmount()
      requires Valid(timers)
      modifies this
      ensures State() == UnmountStep(old(State()))
    {
      timers := ClearCurrent(timers);
    }
  }
}
