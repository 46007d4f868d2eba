/** The job scorer `select_job_with_scores` (api/analyze.py:191-280): thirteen
    jobs start at zero, additive rules raise their scores, a stable
    largest-first sort ranks them, the top three are kept and, when the
    first two tie and the audio bytes are known, re-ranked by a content hash.
    Every weight in the source is a multiple of 0.5, so scores are kept here as
    integers counting half points. */
module Jobs {
  import opened Wrappers
  import opened Sorting
  import opened Profile

  const JOBS: seq<string> := [
    "아나운서", "MC", "오디오북 내레이터", "배우", "유튜버", "상담사",
    "성우", "가수", "교사", "팟캐스터", "강사", "통역사", "라디오 DJ"
  ]

  type JobIndex = j: nat | j < 13

  /** What a rule tests: one label, two labels, or a speaking-rate band. */
  datatype Condition = Has(l: Label) | HasBoth(first: Label, second: Label) | Fast | Slow | MidSpeed

  /** `if <condition>: add(job, halfPoints / 2)`. */
  datatype JobRule = JobRule(job: JobIndex, when: Condition, halfPoints: nat)

  /** The rules of api/analyze.py:205-270, in source order. */
  const RULES: seq<JobRule> := [
    JobRule(0, Has(ClearVoice), 5), JobRule(0, Has(StableTone), 4),
    JobRule(0, Has(MidEnergy), 2), JobRule(0, MidSpeed, 2),
    JobRule(1, HasBoth(HighEnergy, DynamicTone), 4), JobRule(1, Fast, 4), JobRule(1, Has(ClearVoice), 2),
    JobRule(2, Has(LowEnergy), 4), JobRule(2, Has(SoftVoice), 4),
    JobRule(2, Has(StableTone), 2), JobRule(2, Slow, 3),
    JobRule(3, Has(DynamicTone), 4), JobRule(3, Has(HuskyVoice), 2), JobRule(3, Has(HighEnergy), 1),
    JobRule(4, Has(HighEnergy), 3), JobRule(4, Has(ClearVoice), 2), JobRule(4, Has(DynamicTone), 2),
    JobRule(5, Has(SoftVoice), 4), JobRule(5, Has(StableTone), 2), JobRule(5, Has(LowEnergy), 2),
    JobRule(6, Has(ClearVoice), 4), JobRule(6, Has(DynamicTone), 2), JobRule(6, Has(MidEnergy), 2),
    JobRule(7, Has(ClearVoice), 2), JobRule(7, Has(HighPitch), 2), JobRule(7, Has(DynamicTone), 1),
    JobRule(8, Has(StableTone), 4), JobRule(8, Has(MidEnergy), 2),
    JobRule(9, Has(DynamicTone), 2), JobRule(9, Has(SoftVoice), 2), JobRule(9, Has(MidEnergy), 1),
    JobRule(10, Has(HighEnergy), 4), JobRule(10, Fast, 2), JobRule(10, Has(ClearVoice), 1),
    JobRule(11, Has(ClearVoice), 2), JobRule(11, Has(StableTone), 2),
    JobRule(11, MidSpeed, 2), JobRule(11, Has(LowEnergy), 1),
    JobRule(12, Has(SoftVoice), 2), JobRule(12, Has(LowEnergy), 1), JobRule(12, Has(StableTone), 1)
  ]

  /** `features.get("tempo", 110.0)`. */
  function TempoOf(f: FeatureVector): real { f.tempo.GetOr(110.0) }

  predicate IsFast(tempo: real) { tempo >= 120.0 }
  predicate IsSlow(tempo: real) { tempo <= 95.0 }
  predicate IsMidSpeed(tempo: real) { 95.0 < tempo < 130.0 }

  predicate Holds(c: Condition, profile: set<Label>, fast: bool, slow: bool, midSpeed: bool) {
    match c
    case Has(l) => l in profile
    case HasBoth(l1, l2) => l1 in profile && l2 in profile
    case Fast => fast
    case Slow => slow
    case MidSpeed => midSpeed
  }

  predicate Fires(c: Condition, profile: set<Label>, tempo: real) {
    Holds(c, profile, IsFast(tempo), IsSlow(tempo), IsMidSpeed(tempo))
  }

  /** The sum of the weights of the rules in `rs` that fire for job `j`. */
  function Earned(rs: seq<JobRule>, j: int, profile: set<Label>, tempo: real): nat {
    if rs == [] then 0
    else
      var last := rs[|rs| - 1];
      Earned(rs[..|rs| - 1], j, profile, tempo)
        + (if last.job == j && Fires(last.when, profile, tempo) then last.halfPoints else 0)
  }

  /** The two speed flags that overlap, and the two that exclude each other. */
  lemma SpeedBands(tempo: real)
    ensures !(IsFast(tempo) && IsSlow(tempo))
    ensures !(IsSlow(tempo) && IsMidSpeed(tempo))
    ensures IsFast(tempo) && IsMidSpeed(tempo) <==> 120.0 <= tempo < 130.0
  {
  }

  /** The `scores` dictionary after every `add`: all jobs start at 0 and each
      rule that fires adds its weight to its job. */
  method ScoreJobs(profile: set<Label>, tempo: real) returns (scores: seq<int>)
    ensures |scores| == |JOBS|
    ensures forall j :: 0 <= j < |JOBS| ==> scores[j] == Earned(RULES, j, profile, tempo) && scores[j] >= 0
  {
    scores := seq(|JOBS|, _ => 0);
    var fast, slow, midSpeed := IsFast(tempo), IsSlow(tempo), IsMidSpeed(tempo);
    for i := 0 to |RULES|
      invariant |scores| == |JOBS|
      invariant forall j :: 0 <= j < |JOBS| ==> scores[j] == Earned(RULES[..i], j, profile, tempo)
    {
      var rule := RULES[i];
      assert RULES[..i + 1][..i] == RULES[..i];
      if Holds(rule.when, profile, fast, slow, midSpeed) {
        scores := scores[rule.job := scores[rule.job] + rule.halfPoints];
      }
    }
    assert RULES[..|RULES|] == RULES;
  }

  function JobScores(profile: set<Label>, tempo: real): (scores: seq<int>)
    ensures |scores| == |JOBS|
  {
    seq(|JOBS|, j => Earned(RULES, j, profile, tempo))
  }

  /** One `(job, score)` item; `position` is the job's place in the jobs list. */
  datatype Entry = Entry(position: nat, job: string, halfPoints: int)

  function ScoreKey(e: Entry): real { e.halfPoints as real }
  function Position(e: Entry): int { e.position }

  /** `scores.items()`, in the jobs-list order the dictionary was filled in. */
  function Items(scores: seq<int>): (items: seq<Entry>)
    requires |scores| == |JOBS|
    ensures |items| == |JOBS|
  {
    seq(|JOBS|, j requires 0 <= j < |JOBS| => Entry(j, JOBS[j], scores[j]))
  }

  /** `sorted(scores.items(), key=lambda kv: kv[1], reverse=True)`. */
  function Ranking(scores: seq<int>): seq<Entry>
    requires |scores| == |JOBS|
  {
    SortDesc(Items(scores), ScoreKey)
  }

  /** The ranking is by score, largest first, and by job-list position among
      equal scores; it holds every job exactly once. */
  lemma RankingIsStable(scores: seq<int>)
    requires |scores| == |JOBS|
    ensures multiset(Ranking(scores)) == multiset(Items(scores))
    ensures KeyThenTag(Ranking(scores), ScoreKey, Position)
  {
    SortDescKeyThenTag(Items(scores), ScoreKey, Position);
  }

  /** The first ranked score is the largest score of all thirteen jobs. */
  lemma RankingHeadIsMaximum(scores: seq<int>)
    requires |scores| == |JOBS|
    ensures |Ranking(scores)| == |JOBS|
    ensures forall j :: 0 <= j < |JOBS| ==> Ranking(scores)[0].halfPoints >= scores[j]
    ensures exists j :: 0 <= j < |JOBS| && Ranking(scores)[0] == Entry(j, JOBS[j], scores[j])
  {
    var items, ranked := Items(scores), Ranking(scores);
    forall j | 0 <= j < |JOBS| ensures ranked[0].halfPoints >= scores[j] {
      assert items[j] in multiset(ranked);
      var k :| 0 <= k < |ranked| && ranked[k] == items[j];
      assert ScoreKey(ranked[0]) >= ScoreKey(ranked[k]);
    }
    assert ranked[0] in multiset(items);
    var k :| 0 <= k < |items| && items[k] == ranked[0];
  }

  /** `(h ^ hash(name)) & 0xffff`: Python's bitwise operators act on the two's
      complement of unbounded integers, so the low 16 bits of the XOR are the
      XOR of the low 16 bits, and `x & 0xffff` is `x` modulo 65536. */
  function Low16Xor(h: int, g: int): (r: int)
    ensures 0 <= r < 65536
  {
    ((h % 65536) as bv16 ^ (g % 65536) as bv16) as int
  }

  /** The tuple key `(score, low16)` compared lexicographically, as one number. */
  function TieKey(h: int, strHash: string -> int): Entry -> real {
    (e: Entry) => (e.halfPoints * 65536 + Low16Xor(h, strHash(e.job))) as real
  }

  /** The tie-break key keeps the score as its primary key. */
  lemma TieKeyRefinesScore(h: int, strHash: string -> int, a: Entry, b: Entry)
    ensures a.halfPoints > b.halfPoints ==> TieKey(h, strHash)(a) > TieKey(h, strHash)(b)
    ensures TieKey(h, strHash)(a) >= TieKey(h, strHash)(b) ==> a.halfPoints >= b.halfPoints
  {
  }

  /** api/analyze.py:274-276: only when the audio bytes are given and the first
      two scores are equal are the three re-sorted by `(score, low16)`. */
  function TieBreak(top3: seq<Entry>, audio: Option<seq<bv8>>, md5: seq<bv8> -> nat,
                    strHash: string -> int): seq<Entry>
  {
    if audio.Some? && |top3| > 1 && top3[0].halfPoints == top3[1].halfPoints
    then SortDesc(top3, TieKey(md5(audio.value), strHash))
    else top3
  }

  /** The re-sort permutes the same entries, keeps them in score order, and
      only entries with equal scores change their relative order. */
  lemma {:induction false} TieBreakSwapsOnlyTies(top3: seq<Entry>, audio: Option<seq<bv8>>,
                                                 md5: seq<bv8> -> nat, strHash: string -> int)
    requires SortedDesc(top3, ScoreKey)
    ensures multiset(TieBreak(top3, audio, md5, strHash)) == multiset(top3)
    ensures |TieBreak(top3, audio, md5, strHash)| == |top3|
    ensures SortedDesc(TieBreak(top3, audio, md5, strHash), ScoreKey)
    ensures forall i, j, p, q ::
              0 <= i < j < |top3| && 0 <= p < q < |top3|
              && TieBreak(top3, audio, md5, strHash)[i] == top3[q]
              && TieBreak(top3, audio, md5, strHash)[j] == top3[p]
              ==> top3[p].halfPoints == top3[q].halfPoints
  {
    var r := TieBreak(top3, audio, md5, strHash);
    if r != top3 {
      var key := TieKey(md5(audio.value), strHash);
      forall i, j | 0 <= i < j < |r| ensures ScoreKey(r[i]) >= ScoreKey(r[j]) {
        TieKeyRefinesScore(md5(audio.value), strHash, r[i], r[j]);
      }
    }
  }

  datatype Candidate = Candidate(job: string, score: real)

  /** `[{"job": j, "score": round(s, 2)} for j, s in top3]`; a multiple of 0.5
      is unchanged by rounding to two decimals. */
  function Candidates(entries: seq<Entry>): (cs: seq<Candidate>)
    ensures |cs| == |entries|
    ensures forall i :: 0 <= i < |entries| ==> cs[i].job == entries[i].job && 2.0 * cs[i].score == entries[i].halfPoints as real
  {
    seq(|entries|, i requires 0 <= i < |entries| =>
      Candidate(entries[i].job, entries[i].halfPoints as real / 2.0))
  }

  /** The whole ranking that follows the scoring. */
  function RankedCandidates(scores: seq<int>, audio: Option<seq<bv8>>, md5: seq<bv8> -> nat,
                            strHash: string -> int): seq<Candidate>
    requires |scores| == |JOBS|
  {
    Candidates(TieBreak(Ranking(scores)[..3], audio, md5, strHash))
  }

  /** Two score-sorted arrangements of the same entries start with the same score. */
  lemma SortedHeadsAgree(a: seq<Entry>, b: seq<Entry>)
    requires |a| > 0 && multiset(a) == multiset(b)
    requires SortedDesc(a, ScoreKey) && SortedDesc(b, ScoreKey)
    ensures |b| > 0 && a[0].halfPoints == b[0].halfPoints
    ensures exists k :: 0 <= k < |a| && b[0] == a[k]
  {
    assert a[0] in multiset(b);
    var m :| 0 <= m < |b| && b[m] == a[0];
    assert b[0] in multiset(a);
    var k :| 0 <= k < |a| && a[k] == b[0];
    assert ScoreKey(a[0]) >= ScoreKey(a[k]);
    assert ScoreKey(b[0]) >= ScoreKey(b[m]);
  }

  /** The head after the tie-break is one of the three and has the top score. */
  lemma TieBreakKeepsTopScore(top3: seq<Entry>, audio: Option<seq<bv8>>, md5: seq<bv8> -> nat,
                              strHash: string -> int)
    requires |top3| == 3 && SortedDesc(top3, ScoreKey)
    ensures var chosen := TieBreak(top3, audio, md5, strHash);
      && |chosen| == 3
      && SortedDesc(chosen, ScoreKey)
      && chosen[0].halfPoints == top3[0].halfPoints
      && exists k :: 0 <= k < 3 && chosen[0] == top3[k]
  {
    TieBreakSwapsOnlyTies(top3, audio, md5, strHash);
    SortedHeadsAgree(top3, TieBreak(top3, audio, md5, strHash));
  }

  /** The head of the chosen three is a job whose score is the largest. */
  lemma ChosenHeadIsMaximum(scores: seq<int>, audio: Option<seq<bv8>>, md5: seq<bv8> -> nat,
                            strHash: string -> int)
    requires |scores| == |JOBS|
    ensures var chosen := TieBreak(Ranking(scores)[..3], audio, md5, strHash);
      && |chosen| == 3
      && SortedDesc(chosen, ScoreKey)
      && (forall j :: 0 <= j < |JOBS| ==> chosen[0].halfPoints >= scores[j])
      && exists j :: 0 <= j < |JOBS| && chosen[0] == Entry(j, JOBS[j], scores[j])
  {
    var ranked := Ranking(scores);
    RankingHeadIsMaximum(scores);
    var top3 := ranked[..3];
    assert SortedDesc(top3, ScoreKey);
    TieBreakKeepsTopScore(top3, audio, md5, strHash);
    var chosen := TieBreak(top3, audio, md5, strHash);
    var k :| 0 <= k < 3 && chosen[0] == top3[k];
    RankingIsStable(scores);
    assert ranked[k] in multiset(Items(scores));
    var w :| 0 <= w < |JOBS| && Items(scores)[w] == ranked[k];
  }

  /** The candidates are exactly three, by non-increasing score, and the first
      one names a job whose score is the largest of all thirteen. */
  lemma RankedCandidatesBest(scores: seq<int>, audio: Option<seq<bv8>>, md5: seq<bv8> -> nat,
                             strHash: string -> int)
    requires |scores| == |JOBS|
    ensures var cs := RankedCandidates(scores, audio, md5, strHash);
      && |cs| == 3
      && (forall i, j :: 0 <= i < j < 3 ==> cs[i].score >= cs[j].score)
      && (forall j :: 0 <= j < |JOBS| ==> cs[0].score >= scores[j] as real / 2.0)
      && exists j :: 0 <= j < |JOBS| && cs[0] == Candidate(JOBS[j], scores[j] as real / 2.0)
  {
    ChosenHeadIsMaximum(scores, audio, md5, strHash);
    var chosen := TieBreak(Ranking(scores)[..3], audio, md5, strHash);
    var cs := Candidates(chosen);
    forall i, j | 0 <= i < j < 3 ensures cs[i].score >= cs[j].score {
      assert ScoreKey(chosen[i]) >= ScoreKey(chosen[j]);
    }
  }

  /** `select_job_with_scores`: the best job is the first of exactly three
      candidates, listed by non-increasing score, and its score is the largest
      of all thirteen jobs. */
  method SelectJobWithScores(profile: set<Label>, f: FeatureVector, audio: Option<seq<bv8>>,
                             md5: seq<bv8> -> nat, strHash: string -> int)
    returns (bestJob: string, candidates: seq<Candidate>)
    ensures candidates == RankedCandidates(JobScores(profile, TempoOf(f)), audio, md5, strHash)
    ensures |candidates| == 3 && bestJob == candidates[0].job
    ensures forall i, j :: 0 <= i < j < 3 ==> candidates[i].score >= candidates[j].score
    ensures forall j :: 0 <= j < |JOBS| ==> candidates[0].score >= Earned(RULES, j, profile, TempoOf(f)) as real / 2.0
    ensures exists j :: 0 <= j < |JOBS| && candidates[0].job == JOBS[j]
                        && candidates[0].score == Earned(RULES, j, profile, TempoOf(f)) as real / 2.0
  {
    var scores := ScoreJobs(profile, TempoOf(f));
    assert scores == JobScores(profile, TempoOf(f));
    candidates := RankedCandidates(scores, audio, md5, strHash);
    RankedCandidatesBest(scores, audio, md5, strHash);
    bestJob := candidates[0].job;
  }
}
