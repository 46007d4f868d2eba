/** The input guards of the analysis endpoint (api/analyze.py:448-482): the
    upload is checked for its content type, emptiness and size, and the
    decoded samples for a minimum length before they are cut to a maximum.
    Each rejection is an HTTP 400 with a fixed message. */
module Guards {
  import opened Wrappers

  const MAX_SEC: nat := 12
  const MAX_BYTES: nat := 10 * 1024 * 1024
  const TARGET_SAMPLE_RATE: nat := 22050

  datatype GuardError =
    | UnsupportedContentType(contentType: string)
    | EmptyUpload
    | UploadTooLarge
    | UndecodableAudio
    | AudioTooShort
  {
    function StatusCode(): nat { 400 }

    function Detail(): string {
      match this
      case UnsupportedContentType(ct) => "지원하지 않는 콘텐츠 타입입니다: " + ct
      case EmptyUpload => "오디오 파일이 비어 있습니다."
      case UploadTooLarge => "파일이 너무 큽니다(≤ 10MB)."
      case UndecodableAudio => "오디오 포맷을 인식할 수 없습니다. WAV/MP3 등 표준 포맷을 사용해 주세요."
      case AudioTooShort => "오디오 길이가 너무 짧습니다(≥0.5초 필요)."
    }
  }

  datatype Upload = Upload(contentType: Option<string>, body: seq<bv8>)

  predicate StartsWith(s: string, prefix: string) {
    |prefix| <= |s| && s[..|prefix|] == prefix
  }

  /** A missing or empty content type is not checked; otherwise it must be an
      `audio/` type or `application/octet-stream`. */
  predicate AcceptedContentType(contentType: Option<string>) {
    match contentType
    case None => true
    case Some(ct) => ct == "" || StartsWith(ct, "audio/") || ct == "application/octet-stream"
  }

  /** The three checks on the raw upload, in the endpoint's order. */
  function CheckUpload(u: Upload): (r: Result<seq<bv8>, GuardError>)
    ensures r.Success? <==> AcceptedContentType(u.contentType) && 0 < |u.body| <= MAX_BYTES
    ensures r.Success? ==> r.value == u.body
    ensures !AcceptedContentType(u.contentType) ==> r == Failure(UnsupportedContentType(u.contentType.value))
    ensures AcceptedContentType(u.contentType) && |u.body| == 0 ==> r == Failure(EmptyUpload)
    ensures AcceptedContentType(u.contentType) && |u.body| > MAX_BYTES ==> r == Failure(UploadTooLarge)
  {
    if !AcceptedContentType(u.contentType) then Failure(UnsupportedContentType(u.contentType.value))
    else if |u.body| == 0 then Failure(EmptyUpload)
    else if |u.body| > MAX_BYTES then Failure(UploadTooLarge)
    else Success(u.body)
  }

  /** A browser upload labelled `application/octet-stream` or `audio/webm`
      passes the type check; `text/plain` does not. */
  lemma ContentTypeExamples()
    ensures AcceptedContentType(Some("application/octet-stream"))
    ensures AcceptedContentType(Some("audio/webm"))
    ensures AcceptedContentType(None)
    ensures !AcceptedContentType(Some("text/plain"))
  {
    assert "audio/webm"[..6] == "audio/";
    assert "text/plain"[..6] != "audio/" by { assert "text/plain"[0] != "audio/"[0]; }
  }

  /** `int(MIN_SEC * sr)` with MIN_SEC = 0.5, and `int(MAX_SEC * sr)`. */
  function MinSamples(sr: nat): nat { sr / 2 }
  function MaxSamples(sr: nat): nat { MAX_SEC * sr }

  /** `y[:int(MAX_SEC * sr)]` when the take is longer than twelve seconds, else the whole take. */
  function KeptSamples(y: seq<real>, sr: nat): (kept: seq<real>)
    ensures |kept| == if |y| <= MaxSamples(sr) then |y| else MaxSamples(sr)
    ensures kept == y[..|kept|]
  {
    if |y| <= MaxSamples(sr) then y else y[..MaxSamples(sr)]
  }

  /** Rejects a take shorter than half a second and keeps only the first
      twelve seconds of a longer one. */
  method PrepareSamples(y: seq<real>, sr: nat) returns (r: Result<seq<real>, GuardError>)
    ensures r.Failure? <==> |y| < MinSamples(sr)
    ensures r.Failure? ==> r.error == AudioTooShort
    ensures r.Success? ==> |r.value| == if |y| <= MaxSamples(sr) then |y| else MaxSamples(sr)
    ensures r.Success? ==> r.value == y[..|r.value|]
    ensures r.Success? ==> r.value == KeptSamples(y, sr)
    ensures r.Success? ==> MinSamples(sr) <= |r.value| <= MaxSamples(sr)
  {
    if |y| < MinSamples(sr) {
      return Failure(AudioTooShort);
    }
    var kept := y;
    if |y| > MaxSamples(sr) {
      kept := y[..MaxSamples(sr)];
    }
    assert kept == y[..|kept|];
    return Success(kept);
  }

  /** At the 22050 Hz working rate a take must hold 11025 samples and keeps
      at most 264600. */
  lemma WorkingRateBounds()
    ensures MinSamples(TARGET_SAMPLE_RATE) == 11025
    ensures MaxSamples(TARGET_SAMPLE_RATE) == 264600
  {
  }
}
