# Voice Age rule engine, in Dafny

VoiceAge takes a short voice recording and a gender flag and returns a
playful "voice personality" report: an age bracket with a humorous quote,
a voice type, an animal look, a personality, a matching job with its two
runners-up, a special tag, a colour, an attraction score, a uniqueness
score, five radar readings and input-quality warnings. The server
(`api/analyze.py`) measures a handful of acoustic features and runs them
through threshold ladders, ordered first-match tables, additive job
weights and clamped formulas. The browser app (`src/App.tsx`) records the
take, drives the recording screen through idle, recording, recorded,
analyzing and result, and turns the report into insight chips, hashtags and
a share text.

This project models that rule engine and the screen's workflow and proves
what they promise.

| file | module | what it holds |
|---|---|---|
| `wrappers.dfy` | `Wrappers` | `Option` and `Result` |
| `sorting.dfy` | `Sorting` | the stable largest-first sort shared by Python's `sorted(..., reverse=True)` and JavaScript's `sort` |
| `profile.dfy` | `Profile` | the feature vector, the eleven profile labels and `get_voice_profile` |
| `age.dfy` | `Age` | the female and male age ladders and the `age_groups` table |
| `tables.dfy` | `Tables` | the first-match tables (voice type, animal, personality, tag, colour) and the animal/personality lists |
| `jobs.dfy` | `Jobs` | the 41 job-weight rules, the score table, the ranking and the MD5 tie-break |
| `details.dfy` | `Details` | `analyze_details_based_on_profile` |
| `radar.dfy` | `Radar` | the radar normaliser, the attraction score and the uniqueness formula |
| `diagnostics.dfy` | `Diagnostics` | `clipping_ratio` and the three quality warnings |
| `picker.dfy` | `Picker` | `choose_deterministic` |
| `median.dfy` | `Median` | `median_filter_1d` and `np.median` |
| `guards.dfy` | `Guards` | the upload and sample-length guards |
| `analysis.dfy` | `Analysis` | the endpoint as one pass through all of the above |
| `insight.dfy` | `Insight` | insight chips, whitespace stripping, hashtags, share text, progress ring, timer tick |
| `recorder.dfy` | `Recorder` | the recording screen as a class whose methods are the React handlers |

Modelling choices:

- Features are `real`s. Job weights are multiples of 0.5 and are stored as
  whole half-points. The sums are therefore exact, and `round(s, 2)` on a
  candidate score is the identity.
- A profile is a `set<Label>`. Each first-match table is a sequence of
  `(label set, value)` rules in declaration order. `Tables.Lookup` runs the
  source's `for ... break` loop over it, and `Tables.FirstMatch` specifies
  that loop.
- The 41 `if ...: add(job, w)` lines of `select_job_with_scores` are one
  constant rule table, in source order. `Jobs.ScoreJobs` applies it to a
  13-slot score array.
- MD5 and Python's `hash(str)` are function parameters. The tie-break key
  `(score, (h ^ hash(job)) & 0xffff)` is encoded as
  `halfPoints * 65536 + low16`. The low 16 bits are taken on values
  reduced mod 65536, which agrees with Python's two's-complement `&` on
  negative hashes.
- Python's `int()` on a float truncates toward zero (`Radar.Trunc`).
  `np.interp` over three anchors saturates at both ends (`Radar.Interp3`).
- `np.std` of the radar values enters the attraction score as a
  non-negative real parameter.
- The server's random fallback in the animal and personality lookups
  (`random.choice`, evaluated eagerly) is a parameter. `Tables.AnimalAlwaysListed`
  and `Tables.PersonalityAlwaysListed` show that it is never the value used.
- `computeInsightChips` sorts a copy of the radar. In Dafny, sequences are
  values, so the caller's radar cannot change.
- `recordingTimeRef` mirrors `recordingTime` through an effect. The model
  reads `recordingTime` directly.

Two facts about the code that a reader might not expect:

- At 150 Hz the male ladder (api/analyze.py:156-163) returns "20s_early"
  (`Age.Male150IsEarlyTwenties`).
- The job tie-break uses Python's `hash(str)`, which is salted per process,
  so a result can be reproduced only within one server process.

The rule `('soft_voice', 'clear_voice') → "목소리 꿀"` in the tag table can
never fire, because the two clarity labels exclude each other
(`Tables.HoneyTagUnreachable`).

## Model

| member | source | states |
|---|---|---|
| Profile.ProfileOf | api/analyze.py:167-187 | the profile has exactly one label per axis, and each label is present iff its threshold holds: pitch > 180 high, < 130 low; energy > 0.75 / < 0.30; harmonicity > 7 clear, < 3 husky; dynamic iff cents > 110 when cents are known, else Hz spread > 35 |
| Profile.GetVoiceProfile | api/analyze.py:167-187 | the set built label by label is exactly `ProfileOf` |
| Profile.ClarityLabelsExclusive | api/analyze.py:177-180 | soft and clear never occur together |
| Age.LadderMonotone | api/analyze.py:147-163 | on any descending ladder, a lower pitch never gives a younger bracket |
| Age.AgeKeyMonotone | api/analyze.py:147-163 | for either gender, with centroid and energy fixed, bracket rank does not decrease as pitch falls |
| Age.Ladder | api/analyze.py:147-163 | body only: the shared descending elif chain, with the energy test on the 30s rung and the centroid test on the 40s rung; its ordering is stated by `Age.LadderMonotone` |
| Age.AgeKeyFemale | api/analyze.py:147-154 | body only: the ladder at 245/220/200/185/170 Hz with centroid cut 2200; see `Age.AgeKeyMonotone` |
| Age.AgeKeyMale | api/analyze.py:156-163 | body only: the ladder at 165/140/125/110/95 Hz with centroid cut 1800; see `Age.AgeKeyMonotone` and `Age.Male150IsEarlyTwenties` |
| Age.AgeKeyFor | api/analyze.py:504-507 | body only: exactly "female" selects the female ladder, any other string the male one; see `Age.AgeKeyMonotone` |
| Age.AgeInfo | api/analyze.py:509 | body only: `age_groups.get(key, age_groups["30s_early"])`; `Age.LadderKeysAreKnown` shows the fallback is never taken |
| Age.Male150IsEarlyTwenties | api/analyze.py:156-163 | under the male ladder, 150 Hz gives "20s_early" whatever the centroid and energy |
| Age.LadderKeysAreKnown | api/analyze.py:37-46 | every bracket a ladder returns is a key of `age_groups`, so the "30s_early" fallback is never taken, and its quote pool has six entries |
| Tables.FirstMatch | api/analyze.py:286-299 | the result is the value of the first rule, in table order, whose labels are all in the profile; it is the default when no rule matches; otherwise it is some matching rule's value |
| Tables.Lookup | api/analyze.py:296-299 | the `for ... break` loop returns exactly `FirstMatch` |
| Tables.FindByName | api/analyze.py:314-317 | `next(...)` returns the first listed entry with that name when one exists (no earlier entry has the name), and the fallback exactly when none has it (used for both the animal and the personality lookup) |
| Tables.FindByNameIgnoresFallback | api/analyze.py:314-317 | for a listed name the fallback is irrelevant |
| Tables.AnimalAlwaysListed | api/analyze.py:300-317 | every animal the table can return is in `animalTypes`, so the random fallback is never used |
| Tables.PersonalityAlwaysListed | api/analyze.py:319-336 | every personality the table can return is in `personalityTypes` |
| Tables.TagListed | api/analyze.py:346-357 | the tag is always one of `specialTags` |
| Tables.ColorListed | api/analyze.py:359-373 | the colour is always one of `voiceColors` |
| Tables.HoneyTagUnreachable | api/analyze.py:350 | no feature vector reaches the `('soft_voice','clear_voice')` tag rule |
| Tables.EnergeticBeforeCrystal | api/analyze.py:286-290 | {high_energy, dynamic_tone, high_pitch, clear_voice} gets the energetic voice type, and swapping the first two rules would give the crystal type |
| Tables.ExampleProfile | api/analyze.py:167-187 | pitch 220, energy 0.85, cents 150, harmonicity 15 classify to exactly that profile |
| Jobs.SpeedBands | api/analyze.py:198-201 | fast and slow exclude each other, slow and mid-speed exclude each other, and fast overlaps mid-speed exactly on [120, 130) |
| Jobs.ScoreJobs | api/analyze.py:196-273 | after the loop, every job's slot holds the sum of the weights of its fired rules, and none is negative |
| Jobs.Ranking | api/analyze.py:272 | body only: the stable largest-first sort of the score items; see `Jobs.RankingIsStable` and `Jobs.RankingHeadIsMaximum` |
| Jobs.RankingIsStable | api/analyze.py:272 | the ranking is a permutation of the 13 jobs, ordered by score and, among equal scores, by position in the job list |
| Jobs.RankingHeadIsMaximum | api/analyze.py:272-273 | the first ranked job has the highest score of all 13 |
| Jobs.TieKeyRefinesScore | api/analyze.py:276 | the tie-break key orders any two entries with different scores as the scores do |
| Jobs.TieBreak | api/analyze.py:274-276 | body only: the re-sort by `(score, low16)` runs only with audio bytes and equal first two scores; see `Jobs.TieBreakSwapsOnlyTies` and `Jobs.TieBreakKeepsTopScore` |
| Jobs.TieBreakSwapsOnlyTies | api/analyze.py:274-276 | the re-sort keeps the same three entries, keeps them in score order, and can only swap entries with equal scores |
| Jobs.TieBreakKeepsTopScore | api/analyze.py:274-276 | after the re-sort the head still has the top score |
| Jobs.Candidates | api/analyze.py:279 | one candidate per entry, in the same order, scored at half its half-points, which `round(s, 2)` leaves unchanged |
| Jobs.RankedCandidatesBest | api/analyze.py:272-279 | there are three candidates, their scores do not increase, and the first score is the maximum over all jobs |
| Jobs.SelectJobWithScores | api/analyze.py:191-282 | `best_job` is the first of exactly three candidates; the scores do not increase; the first score is every job's maximum and belongs to a real job |
| Details.AnalyzeDetails | api/analyze.py:284-385 | each field is its table's first match; the animal and personality cards are the listed entries without `id`; tag and colour are listed; without features the job is "라디오 DJ" with the one candidate scored 0.0; with features it is the first of the three ranked candidates |
| Radar.NormalizeForRadar | api/analyze.py:387-414 | five entries named 높이, 에너지, 속도, 맑음, 안정감 in that order, each an integer in [10, 100] |
| Radar.StabilityFromCents | api/analyze.py:397-402 | the cents table maps 40→90, 120→50, 200→10, saturates beyond the anchors, stays in [10, 90] and never rises as the spread grows |
| Radar.StabilityFromHz | api/analyze.py:403-406 | the Hz fallback maps 20→50, saturates at 5 and 40, stays in [10, 90] and never rises |
| Radar.PitchAxis | api/analyze.py:387-414 | a pitch of 250 Hz or more reads 100, 97 Hz or less reads 10, and a higher pitch never reads lower |
| Radar.StabilityEntryNonIncreasing | api/analyze.py:397-414 | a wider cents spread never raises the stability entry |
| Radar.Attraction | api/analyze.py:416-423 | the attraction score is in [60, 99]: it equals the truncated formula whenever that lies in range, 99 above the range and 60 below |
| Radar.AttractionMonotone | api/analyze.py:416-423 | for the same number of values and the same ideal-range status, a higher total never lowers the score and a wider spread never raises it |
| Radar.AttractionOfFlatRadar | api/analyze.py:416-423 | five readings of 50 with no spread score 95 |
| Radar.Uniqueness | api/analyze.py:516-522 | the uniqueness score is in [60, 99] |
| Radar.UniquenessFloorAndGrowth | api/analyze.py:516-522 | with a non-negative cents spread the score is at least 65, and a wider spread never lowers it |
| Diagnostics.ClippingRatio | api/analyze.py:433-434 | the ratio is in [0, 1]; it is 0 iff no sample exceeds 0.98 in magnitude, and 1 iff every sample does |
| Diagnostics.ClippingRatioOfRepeat | api/analyze.py:433-434 | a recording played twice has the same ratio |
| Diagnostics.QualityWarnings | api/analyze.py:524-534 | noise iff SNR < 10, clipping iff ratio > 0.02, silence iff voiced share < 0.4; each at most once, in that order, so at most three |
| Picker.ChooseDeterministic | api/analyze.py:436-440 | None exactly for an empty pool; otherwise the element at digest mod length, which is in the pool |
| Picker.SamePositionInEqualPools | api/analyze.py:436-440 | the choice depends only on the bytes and the pool's size: equal-size pools are indexed at the same position |
| Median.Median | api/analyze.py:84 | the median lies between two window values, and for an odd window it is one of them |
| Median.MedianBalanced | api/analyze.py:84 | at most half the window lies strictly above the median, and at most half strictly below |
| Median.MedianIgnoresOneOutlier | api/analyze.py:79-84 | in a window of three or more, a single outlier does not move the median |
| Median.EdgePad | api/analyze.py:83 | the padded sequence is `p` copies of the first value, then `x` unchanged, then `p` copies of the last value |
| Median.MedianFilter | api/analyze.py:79-84 | the output has the input's length; a shorter input than `k` comes back unchanged; otherwise each output is the median of its edge-padded window |
| Median.FilterStaysInRange | api/analyze.py:79-84 | every output lies between two input values, and for odd `k` it is an input value |
| Median.ConstantIsFixed | api/analyze.py:79-84 | a constant signal passes through unchanged |
| Guards.CheckUpload | api/analyze.py:448-459 | accepted iff the content type is absent, empty, `audio/*` or `application/octet-stream` and the body has 1 to 10485760 bytes; otherwise the first failing check names the error |
| Guards.ContentTypeExamples | api/analyze.py:448-452 | `application/octet-stream`, `audio/webm` and a missing type pass; `text/plain` does not |
| Guards.KeptSamples | api/analyze.py:481-482 | the first min(len, 12*sr) samples of the take |
| Guards.PrepareSamples | api/analyze.py:479-482 | rejected iff shorter than `int(0.5*sr)`; otherwise the result is `KeptSamples`, the prefix of length min(len, 12*sr) |
| Guards.WorkingRateBounds | api/analyze.py:31-32 | at 22050 Hz a take needs 11025 samples and keeps at most 264600 |
| Analysis.AnalyzeVoice | api/analyze.py:445-548 | the guards decide the error in order; on success the age range comes from the bracket's entry and the quote is `choose_deterministic` over its pool; the radar is the normalised features, the attraction score is `Attraction` of its values and the uniqueness score the clipped formula, both in [60, 99]; noise, clipping (on the kept samples) and silence are each warned iff their threshold is crossed, at most three warnings; voice type, animal, personality, tag and colour are the profile's first matches; the three job candidates are the ranked ones and the job is the first |
| Sorting.SortDesc | api/analyze.py:272 | the sort returns a permutation of its input, ordered largest key first |
| Sorting.SortDescStable | src/App.tsx:136 | entries with equal keys keep their input order |
| Sorting.SortDescKeyThenTag | api/analyze.py:272 | for an input listed by increasing tag, the output is ordered by key and then by tag |
| Insight.ChipLabel | src/App.tsx:134-137 | body only: the positive label from 60 up, the negative label up to 40, else the name; see `Insight.ChipIsNameExactly` and `Insight.ChipLabelExamples` |
| Insight.ChipIsNameExactly | src/App.tsx:134-137 | a chip shows the bare feature name iff the value is strictly between 40 and 60 or its band has no label |
| Insight.TopEntries | src/App.tsx:136 | min(3, n) entries in non-increasing value order |
| Insight.ComputeInsightChips | src/App.tsx:133-138 | exactly min(3, n) chips |
| Insight.TopEntriesAreTheHighest | src/App.tsx:136 | the chosen entries come from the radar, and no entry left out has a higher value than any chosen one |
| Insight.ChipsFollowRanking | src/App.tsx:136-137 | each chip is the label of the radar entry at the same rank |
| Insight.ChipLabelExamples | src/App.tsx:134-137 | 90 clearness gives "맑은 톤", 30 energy "차분함", 50 tempo "속도", an unknown feature its own name |
| Insight.StripWhitespace | src/App.tsx:120-121 | no whitespace character of JavaScript's `\s` remains, every other character of the input is kept, and no character is introduced; with `StripConcat` and `StripKeepsClean` this fixes the result |
| Insight.StripConcat | src/App.tsx:120-121 | stripping distributes over concatenation |
| Insight.StripKeepsClean | src/App.tsx:120-121 | a string without whitespace is unchanged |
| Insight.StripIdempotent | src/App.tsx:120-121 | stripping twice equals stripping once |
| Insight.Hashtag | src/App.tsx:120-121 | a hashtag is `#` followed by the stripped text |
| Insight.CardHashtags | src/App.tsx:119-123 | three hashtags: `#` and the special tag with its whitespace removed, `#` and the voice colour with its whitespace removed, then "#VoiceAge"; none has whitespace after the `#` |
| Insight.ShareText | src/App.tsx:141 | the share text ends with " #VoiceAge" |
| Insight.ShareTextCarriesCardHashtags | src/App.tsx:141 | the share text ends with the card's three hashtags joined by spaces |
| Insight.ProgressPercent | src/App.tsx:43 | the percentage never exceeds 100, is 100 iff `sec >= max`, and is non-negative for non-negative `sec` |
| Insight.ProgressMonotone | src/App.tsx:43 | more seconds never show less progress |
| Insight.Tick | src/App.tsx:172-178 | a tick never passes 10, and from 9.9 on it reads 10 |
| Insight.TimerCountsTenths | src/App.tsx:168-179 | after `n` ticks from zero the timer reads min(n, 100)/10 |
| Recorder.ErrorMessage | src/App.tsx:274-284 | an HTTP error shows the server's non-empty `detail`, else "분석 중 에러가 발생했습니다."; a network failure shows its non-empty message, else "분석 서버에 연결할 수 없습니다."; never an empty message |
| Recorder.RecordingScreen.constructor | src/App.tsx:144-153 | the screen starts idle with nothing chosen, recorded or shown |
| Recorder.RecordingScreen.ChooseGender | src/App.tsx:355-356 | only the gender changes |
| Recorder.RecordingScreen.StartRecording | src/App.tsx:216-245 | the error is always cleared; recording starts with time 0 only from idle with a gender; a refused microphone leaves the permission error |
| Recorder.RecordingScreen.TimerTick | src/App.tsx:168-182 | while recording the time advances by `Tick` and a stop is requested from 9.9 on; otherwise nothing changes |
| Recorder.RecordingScreen.OnStop | src/App.tsx:226-239 | under 2 s: idle, time 0, no audio, the too-short error; otherwise recorded with the take kept |
| Recorder.RecordingScreen.ResetAll | src/App.tsx:259-262 | idle, time 0, no audio, error, result or gender, summary view |
| Recorder.RecordingScreen.AnalyzeVoice | src/App.tsx:264-269 | without audio or gender only the error is set; otherwise the screen is analyzing and the request carries the gender and the take |
| Recorder.RecordingScreen.CompleteAnalysis | src/App.tsx:270-288 | a reply shows the result; a failure returns to recorded with its message |
| Recorder.RecordingScreen.ShowView | src/App.tsx:344-346 | only the result view changes |
| Recorder.RecordingScreen.Chips | src/App.tsx:333 | no chips before a result; after one, exactly `ComputeInsightChips` of the result's radar, so at most three, following its ranking |
| Recorder.HappyPath | src/App.tsx:216-289 | gender, 2.5 s of recording, stop, analyse and a reply end on the result screen with the take and the result kept |

## Left out

- Signal processing: pydub decoding, resampling, trimming, `pyin`, RMS
  energy, speaking rate, HNR, spectral centroid, `estimate_snr` and the
  voiced share from `librosa.effects.split`. Their outputs enter as
  parameters (`Analysis.Measurements`).
- MD5 and Python's `hash(str)`: function parameters, not implemented.
- NaN and infinity: `np.nan_to_num` is not modelled, because reals have no
  NaN. The stability branch does not apply `nan_to_num`, so `int(nan)`
  would raise there.
- The HTTP layer: FastAPI routing, CORS, status 500 for unexpected
  exceptions, and JSON serialisation. Guard errors carry their 400 status
  and message (`Guards.GuardError`).
- Browser I/O: MediaRecorder, getUserMedia, the live level meter,
  html2canvas capture, `fetch`, the share and clipboard APIs, JSX
  rendering, toasts, and the random sample-sentence loop.
- Radar.NormalizeForRadar, Radar.Attraction, Radar.Uniqueness: the
  features and formulas are exact reals, so the rounding of
  double-precision arithmetic before `int()` is not modelled. At an integer
  boundary a value can be one higher than the program's: with energy 0.29
  the product `0.29 * 100` is 28.999999999999996 as a double, so the
  program's radar energy is 28 where the model gives 29.
- Recorder.RecordingScreen.CompleteAnalysis: the automatic retry three
  seconds after a failure is left out. The `setTimeout` callback calls the
  `analyzeVoice` closure of the render that sent the failed request, and
  that closure holds that render's `recordedAudio` and `gender`. So the
  retry posts the old take even after `resetAll`, and can move the screen
  from idle to analyzing with `gender` null. Each failed retry schedules
  another, every three seconds, for as long as the server keeps failing.
  The model's `AnalyzeVoice` reads the current fields, so it does not
  capture this stale-closure behaviour.
- Median.MedianFilter: requires `k >= 1`. With `k = 0`, numpy takes
  medians of empty windows and returns NaN, which reals cannot express.
- Insight.ProgressPercent: requires `max > 0`. The component is only used
  with its default of 10. A zero maximum would divide by zero.
- Radar.NormalizeForRadar: requires the tempo feature, because the source
  indexes `features["tempo"]` and raises without it. The endpoint always
  supplies it.
- Analysis.AnalyzeVoice: requires the tempo feature and a non-negative
  standard deviation, as above. The spectral centroid's and the SNR's own
  computations are not modelled.
- Diagnostics.ClippingRatio: requires a non-empty waveform. `np.mean` of
  an empty array is NaN. After the length guard the waveform is never
  empty.
- Radar.Attraction: requires a non-empty radar, for the same reason; the
  radar always has five entries.
- `check_ffmpeg.py` and `vite.config.ts` hold environment and build
  configuration only.
