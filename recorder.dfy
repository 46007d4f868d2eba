/** The recording screen's workflow (src/App.tsx:144-289): the state the
    React setters update, and the handlers that move it between idle,
    recording, recorded, analyzing and result. The browser's recorder, the
    live meter, the upload and the 3-second retry are outside the model: the
    microphone's answer, the recorded bytes and the server's reply enter as
    parameters. */
module Recorder {
  import opened Wrappers
  import opened Radar
  import opened Insight

  datatype Status = Idle | Recording | Recorded | Analyzing | ShowingResult
  datatype Gender = Male | Female
  datatype ResultView = Summary | DetailView

  /** The fields of the server's reply that the screen reads. */
  datatype AnalysisResult = AnalysisResult(
    ageRange: string, humorQuote: string, voiceType: string, attractionScore: int,
    specialTag: string, voiceColor: string, uniquenessScore: int, radar: seq<RadarEntry>)

  /** How the analysis request ended. */
  datatype Reply =
    | Ok(result: AnalysisResult)
    | HttpError(detail: Option<string>)       // a non-2xx answer, with its `detail` when readable
    | NetworkError(message: string)           // fetch itself failed

  const MIC_DENIED: string := "마이크 권한이 필요해요. 브라우저 설정을 확인해주세요!"
  const TOO_SHORT: string := "너무 짧아요! 2초 이상 녹음해야 정확한 분석이 가능해요."
  const NEED_GENDER: string := "성별을 선택해야 분석을 시작할 수 있습니다."
  const ANALYSIS_FAILED: string := "분석 중 에러가 발생했습니다."
  const SERVER_UNREACHABLE: string := "분석 서버에 연결할 수 없습니다."
  const MIN_RECORDING_SEC: real := 2.0
  const MAX_RECORDING_SEC: real := 10.0

  /** The error text the screen shows for a failed request: the server's
      `detail`, else the generic analysis error; a failure without a
      message falls back to the connection error. */
  function ErrorMessage(reply: Reply): (msg: string)
    requires !reply.Ok?
    ensures msg != ""
    ensures reply.HttpError? && reply.detail.Some? && reply.detail.value != "" ==> msg == reply.detail.value
    ensures reply.NetworkError? && reply.message != "" ==> msg == reply.message
    ensures reply.HttpError? && (reply.detail.None? || reply.detail.value == "") ==> msg == ANALYSIS_FAILED
    ensures reply.NetworkError? && reply.message == "" ==> msg == SERVER_UNREACHABLE
  {
    match reply
    case HttpError(detail) =>
      if detail.Some? && detail.value != "" then detail.value else ANALYSIS_FAILED
    case NetworkError(message) =>
      if message != "" then message else SERVER_UNREACHABLE
  }

  class RecordingScreen {
    var status: Status
    var gender: Option<Gender>
    var recordedAudio: Option<seq<bv8>>
    var recordingTime: real
    var error: Option<string>
    var analysisResult: Option<AnalysisResult>
    var resultView: ResultView

    /** The timer stays within [0, 10] seconds, and the result screen always
        has a result to show. */
    ghost predicate Valid()
      reads this
    {
      0.0 <= recordingTime <= MAX_RECORDING_SEC
      && (status == ShowingResult ==> analysisResult.Some?)
    }

    constructor ()
      ensures Valid()
      ensures status == Idle && gender == None && recordedAudio == None && recordingTime == 0.0
      ensures error == None && analysisResult == None && resultView == Summary
    {
      status := Idle;
      gender := None;
      recordedAudio := None;
      recordingTime := 0.0;
      error := None;
      analysisResult := None;
      resultView := Summary;
    }

    method ChooseGender(g: Gender)
      modifies this
      requires Valid()
      ensures Valid()
      ensures gender == Some(g)
      ensures status == old(status) && recordedAudio == old(recordedAudio) && recordingTime == old(recordingTime)
      ensures error == old(error) && analysisResult == old(analysisResult) && resultView == old(resultView)
    {
      gender := Some(g);
    }

    /** `startRecording`: clears the error, then starts only from idle with a
        gender chosen; a refused microphone leaves an error instead. */
    method StartRecording(microphoneGranted: bool)
      modifies this
      requires Valid()
      ensures Valid()
      ensures (old(status) == Idle && old(gender).Some? && microphoneGranted) ==>
                (status == Recording && recordingTime == 0.0 && error == None)
      ensures (old(status) == Idle && old(gender).Some? && !microphoneGranted) ==>
                (status == old(status) && recordingTime == old(recordingTime) && error == Some(MIC_DENIED))
      ensures !(old(status) == Idle && old(gender).Some?) ==>
                (status == old(status) && recordingTime == old(recordingTime) && error == None)
      ensures gender == old(gender) && recordedAudio == old(recordedAudio)
      ensures analysisResult == old(analysisResult) && resultView == old(resultView)
    {
      error := None;
      if status != Idle || gender.None? {
        return;
      }
      if !microphoneGranted {
        error := Some(MIC_DENIED);
        return;
      }
      status := Recording;
      recordingTime := 0.0;
    }

    /** One 100 ms interval while recording. Reports whether the recorder
        was told to stop because the ten seconds are up. */
    method TimerTick() returns (stopRequested: bool)
      modifies this
      requires Valid()
      ensures Valid()
      ensures old(status) == Recording ==> recordingTime == Tick(old(recordingTime))
      ensures old(status) != Recording ==> recordingTime == old(recordingTime)
      ensures stopRequested <==> old(status) == Recording && old(recordingTime) >= 9.9
      ensures status == old(status) && gender == old(gender) && recordedAudio == old(recordedAudio)
      ensures error == old(error) && analysisResult == old(analysisResult) && resultView == old(resultView)
    {
      stopRequested := false;
      if status == Recording {
        stopRequested := recordingTime >= 9.9;
        recordingTime := Tick(recordingTime);
        assert recordingTime >= 0.0 by {
          assert old(recordingTime) >= 0.0;
        }
      }
    }

    /** The recorder's `onstop`: a take under two seconds is discarded and
        the screen returns to idle; a longer one is kept for analysis. */
    method OnStop(audio: seq<bv8>)
      modifies this
      requires Valid()
      ensures Valid()
      ensures old(recordingTime) < MIN_RECORDING_SEC ==>
                status == Idle && recordingTime == 0.0 && recordedAudio == None && error == Some(TOO_SHORT)
      ensures old(recordingTime) >= MIN_RECORDING_SEC ==>
                status == Recorded && recordedAudio == Some(audio)
                && recordingTime == old(recordingTime) && error == old(error)
      ensures gender == old(gender) && analysisResult == old(analysisResult) && resultView == old(resultView)
    {
      if recordingTime < MIN_RECORDING_SEC {
        error := Some(TOO_SHORT);
        status := Idle;
        recordingTime := 0.0;
        recordedAudio := None;
      } else {
        recordedAudio := Some(audio);
        status := Recorded;
      }
    }

    /** `resetAll`: back to the start screen with everything cleared. */
    method ResetAll()
      modifies this
      requires Valid()
      ensures Valid()
      ensures status == Idle && gender == None && recordedAudio == None && recordingTime == 0.0
      ensures error == None && analysisResult == None && resultView == Summary
    {
      recordedAudio := None;
      recordingTime := 0.0;
      status := Idle;
      error := None;
      analysisResult := None;
      resultView := Summary;
      gender := None;
    }

    /** `analyzeVoice` up to the request: without audio or gender only the
        error is set; otherwise the screen shows the analysis in progress
        and the request carries the gender and the recorded bytes. */
    method AnalyzeVoice() returns (request: Option<(Gender, seq<bv8>)>)
      modifies this
      requires Valid()
      ensures Valid()
      ensures request.None? <==> old(recordedAudio).None? || old(gender).None?
      ensures request.None? ==> status == old(status) && error == Some(NEED_GENDER)
      ensures request.Some? ==>
                (status == Analyzing && error == None
                 && request.value == (old(gender).value, old(recordedAudio).value))
      ensures gender == old(gender) && recordedAudio == old(recordedAudio) && recordingTime == old(recordingTime)
      ensures analysisResult == old(analysisResult) && resultView == old(resultView)
    {
      if recordedAudio.None? || gender.None? {
        error := Some(NEED_GENDER);
        return None;
      }
      status := Analyzing;
      error := None;
      return Some((gender.value, recordedAudio.value));
    }

    /** The rest of `analyzeVoice` once the server answers: a result is
        shown; a failure returns to the recorded screen with its message. */
    method CompleteAnalysis(reply: Reply)
      modifies this
      requires Valid()
      ensures Valid()
      ensures reply.Ok? ==> status == ShowingResult && analysisResult == Some(reply.result) && error == old(error)
      ensures !reply.Ok? ==>
                (status == Recorded && analysisResult == old(analysisResult) && error == Some(ErrorMessage(reply)))
      ensures gender == old(gender) && recordedAudio == old(recordedAudio) && recordingTime == old(recordingTime)
      ensures resultView == old(resultView)
    {
      if reply.Ok? {
        analysisResult := Some(reply.result);
        status := ShowingResult;
      } else {
        error := Some(ErrorMessage(reply));
        status := Recorded;
      }
    }

    method ShowView(view: ResultView)
      modifies this
      requires Valid()
      ensures Valid()
      ensures resultView == view
      ensures status == old(status) && gender == old(gender) && recordedAudio == old(recordedAudio)
      ensures recordingTime == old(recordingTime) && error == old(error) && analysisResult == old(analysisResult)
    {
      resultView := view;
    }

    /** The insight chips the result screen shows: none before a result. */
    function Chips(): (chips: seq<string>)
      reads this
      ensures analysisResult.None? ==> chips == []
      ensures analysisResult.Some? ==> |chips| <= 3
      ensures analysisResult.Some? ==> chips == ComputeInsightChips(analysisResult.value.radar)
    {
      if analysisResult.Some? then ComputeInsightChips(analysisResult.value.radar) else []
    }
  }

  /** A full happy path: choose a gender, record past two seconds, stop,
      analyse and receive a result. */
  method HappyPath(audio: seq<bv8>, result: AnalysisResult) returns (screen: RecordingScreen)
    ensures screen.Valid()
    ensures screen.status == ShowingResult && screen.analysisResult == Some(result)
    ensures screen.recordedAudio == Some(audio) && screen.gender == Some(Female)
  {
    screen := new RecordingScreen();
    screen.ChooseGender(Female);
    screen.StartRecording(true);
    // 25 firings of the 100 ms recording interval: 2.5 seconds.
    var i := 0;
    while i < 25
      invariant 0 <= i <= 25
      invariant screen.Valid() && screen.status == Recording && screen.gender == Some(Female)
      invariant screen.recordingTime == TimeAfter(i)
      invariant screen.analysisResult == None
    {
      var _ := screen.TimerTick();
      i := i + 1;
    }
    TimerCountsTenths(25);
    screen.OnStop(audio);
    var request := screen.AnalyzeVoice();
    screen.CompleteAnalysis(Ok(result));
  }
}
