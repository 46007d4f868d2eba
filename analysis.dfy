/** The analysis endpoint `analyze_voice` (api/analyze.py:445-557) as one
    pass through the modelled steps: guards, profile, detail tables, age
    bracket, radar, scores, warnings and the deterministic quote. Decoding,
    resampling, trimming and feature extraction are signal processing
    outside the model; their outputs enter as parameters. */
module Analysis {
  import opened Wrappers
  import opened Profile
  import opened Tables
  import opened Jobs
  import opened Details
  import opened Age
  import opened Radar
  import opened Diagnostics
  import opened Picker
  import opened Guards

  const API_VERSION: string := "1.3.0"

  datatype Report = Report(
    version: string,
    ageRange: string,
    humorQuote: Option<string>,
    attractionScore: int,
    uniquenessScore: int,
    radar: seq<RadarEntry>,
    warnings: seq<Warning>,
    details: Details)

  /** The signal-processing results for one request: the trimmed mono
      waveform at 22050 Hz (None when the upload cannot be decoded), the six
      features, the spectral centroid, the SNR, the voiced share of the
      take and the population standard deviation of the radar values. */
  datatype Measurements = Measurements(
    waveform: Option<seq<real>>,
    features: FeatureVector,
    spectralCentroid: real,
    snr: real,
    voicedRatio: real,
    radarStdDev: real)

  /** The analysis endpoint: the first failing guard decides the error;
      otherwise every part of the report comes from its own rule. */
  method AnalyzeVoice(gender: string, upload: Upload, m: Measurements,
                      md5: seq<bv8> -> nat, strHash: string -> int,
                      randomAnimal: AnimalType, randomPersonality: PersonalityType)
    returns (r: Result<Report, GuardError>)
    requires m.features.tempo.Some? && m.radarStdDev >= 0.0
    ensures CheckUpload(upload).Failure? ==> r == Failure(CheckUpload(upload).error)
    ensures CheckUpload(upload).Success? && m.waveform.None? ==> r == Failure(UndecodableAudio)
    ensures (CheckUpload(upload).Success? && m.waveform.Some? && |m.waveform.value| < MinSamples(TARGET_SAMPLE_RATE)) ==>
              r == Failure(AudioTooShort)
    ensures r.Success? <==>
              CheckUpload(upload).Success? && m.waveform.Some? && |m.waveform.value| >= MinSamples(TARGET_SAMPLE_RATE)
    ensures r.Success? ==>
              var report := r.value;
              var key := AgeKeyFor(gender, m.features.pitch, m.spectralCentroid, m.features.energy);
              && report.version == API_VERSION
              && report.ageRange == AGE_GROUPS[key.Name()].range
              && report.humorQuote == ChooseDeterministic(AGE_GROUPS[key.Name()].humor, upload.body, md5)
              && report.humorQuote.Some? && report.humorQuote.value in AGE_GROUPS[key.Name()].humor
              && report.radar == NormalizeForRadar(m.features)
              && report.attractionScore == Attraction(RadarValues(report.radar), m.radarStdDev)
              && 60 <= report.attractionScore <= 99
              && 60 <= report.uniquenessScore <= 99
              && report.uniquenessScore == Uniqueness(m.features)
              && (Noise in report.warnings <==> m.snr < SNR_FLOOR_DB)
              && (Clipping in report.warnings <==> ClippingRatio(KeptSamples(m.waveform.value, TARGET_SAMPLE_RATE)) > CLIP_RATIO_LIMIT)
              && (Silence in report.warnings <==> m.voicedRatio < VOICED_RATIO_FLOOR)
              && |report.warnings| <= 3
              && report.details.voiceType == VoiceTypeOf(ProfileOf(m.features))
              && report.details.animal == ToAnimalCard(FindAnimal(ANIMAL_TYPES, AnimalOf(ProfileOf(m.features)), randomAnimal))
              && report.details.animal.typeName == AnimalOf(ProfileOf(m.features))
              && report.details.personality
                   == ToPersonalityCard(FindPersonality(PERSONALITY_TYPES, PersonalityOf(ProfileOf(m.features)), randomPersonality))
              && report.details.personality.typeName == PersonalityOf(ProfileOf(m.features))
              && report.details.specialTag == TagOf(ProfileOf(m.features))
              && report.details.voiceColor == ColorOf(ProfileOf(m.features))
              && report.details.jobCandidates
                   == RankedCandidates(JobScores(ProfileOf(m.features), TempoOf(m.features)), Some(upload.body), md5, strHash)
              && |report.details.jobCandidates| == 3
              && report.details.job == report.details.jobCandidates[0].job
  {
    var checked := CheckUpload(upload);
    if checked.Failure? {
      return Failure(checked.error);
    }
    if m.waveform.None? {
      return Failure(UndecodableAudio);
    }
    var prepared := PrepareSamples(m.waveform.value, TARGET_SAMPLE_RATE);
    if prepared.Failure? {
      return Failure(prepared.error);
    }
    var y := prepared.value;

    var profile := GetVoiceProfile(m.features);
    var details := AnalyzeDetails(profile, Some(m.features), Some(upload.body), md5, strHash,
                                  randomAnimal, randomPersonality);

    var key := AgeKeyFor(gender, m.features.pitch, m.spectralCentroid, m.features.energy);
    LadderKeysAreKnown(key);
    var info := AgeInfo(key.Name());

    var radar := NormalizeForRadar(m.features);
    var attraction := Attraction(RadarValues(radar), m.radarStdDev);
    var uniqueness := Uniqueness(m.features);

    var clip := ClippingRatio(y);
    var warnings := QualityWarnings(m.snr, clip, m.voicedRatio);

    var humor := ChooseDeterministic(info.humor, upload.body, md5);

    return Success(Report(API_VERSION, info.range, humor, attraction, uniqueness, radar, warnings, details));
  }
}
