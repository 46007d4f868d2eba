/** The radar normaliser `normalize_features_for_radar`, the attraction score
    `calculate_attraction_score` (api/analyze.py:387-423) and the uniqueness
    formula (api/analyze.py:516-522). */
module Radar {
  import opened Wrappers
  import opened Profile

  /** `np.clip(x, lo, hi)`. */
  function Clip(x: real, lo: real, hi: real): (r: real)
    requires lo <= hi
    ensures lo <= r <= hi
    ensures lo <= x <= hi ==> r == x
    ensures x < lo ==> r == lo
    ensures x > hi ==> r == hi
  {
    if x < lo then lo else if x > hi then hi else x
  }

  /** Python's `int(x)` on a float: truncation toward zero. */
  function Trunc(x: real): (n: int)
    ensures x >= 0.0 ==> n as real <= x < n as real + 1.0
    ensures x < 0.0 ==> n as real - 1.0 < x <= n as real
  {
    if x >= 0.0 then x.Floor else -((-x).Floor)
  }

  lemma TruncMonotone(x: real, y: real)
    requires 0.0 <= x <= y
    ensures Trunc(x) <= Trunc(y)
  {
  }

  /** `int(np.clip(score, 10, 100))`. */
  function RadarValue(score: real): (v: int)
    ensures 10 <= v <= 100
  {
    Trunc(Clip(score, 10.0, 100.0))
  }

  lemma RadarValueMonotone(a: real, b: real)
    requires a <= b
    ensures RadarValue(a) <= RadarValue(b)
  {
    TruncMonotone(Clip(a, 10.0, 100.0), Clip(b, 10.0, 100.0));
  }

  /** `np.interp(x, [x0, x1, x2], [y0, y1, y2])`: linear between the anchors,
      constant beyond them. */
  function Interp3(x: real, xs: (real, real, real), ys: (real, real, real)): real
    requires xs.0 < xs.1 < xs.2
  {
    if x <= xs.0 then ys.0
    else if x >= xs.2 then ys.2
    else if x <= xs.1 then ys.0 + (x - xs.0) * (ys.1 - ys.0) / (xs.1 - xs.0)
    else ys.1 + (x - xs.1) * (ys.2 - ys.1) / (xs.2 - xs.1)
  }

  const CENTS_ANCHORS: (real, real, real) := (40.0, 120.0, 200.0)
  const HZ_ANCHORS: (real, real, real) := (5.0, 20.0, 40.0)
  const STABILITY_SCORES: (real, real, real) := (90.0, 50.0, 10.0)

  /** The stability score before truncation: cents when known, Hz otherwise. */
  function StabilityScore(f: FeatureVector): real {
    var raw := match f.pitchStdCents
      case Some(c) => Interp3(c, CENTS_ANCHORS, STABILITY_SCORES)
      case None => Interp3(f.pitchStdHz, HZ_ANCHORS, STABILITY_SCORES);
    Clip(raw, 10.0, 100.0)
  }

  /** The cents table maps 40 to 90, 120 to 50 and 200 to 10, saturates
      outside [40, 200], and never rises as the spread grows. */
  lemma StabilityFromCents(c1: real, c2: real)
    requires c1 <= c2
    ensures Interp3(40.0, CENTS_ANCHORS, STABILITY_SCORES) == 90.0
    ensures Interp3(120.0, CENTS_ANCHORS, STABILITY_SCORES) == 50.0
    ensures Interp3(200.0, CENTS_ANCHORS, STABILITY_SCORES) == 10.0
    ensures c1 <= 40.0 ==> Interp3(c1, CENTS_ANCHORS, STABILITY_SCORES) == 90.0
    ensures c2 >= 200.0 ==> Interp3(c2, CENTS_ANCHORS, STABILITY_SCORES) == 10.0
    ensures 10.0 <= Interp3(c2, CENTS_ANCHORS, STABILITY_SCORES)
                 <= Interp3(c1, CENTS_ANCHORS, STABILITY_SCORES) <= 90.0
  {
  }

  /** The same shape for the Hz fallback table (5 -> 90, 20 -> 50, 40 -> 10). */
  lemma StabilityFromHz(h1: real, h2: real)
    requires h1 <= h2
    ensures Interp3(20.0, HZ_ANCHORS, STABILITY_SCORES) == 50.0
    ensures h1 <= 5.0 ==> Interp3(h1, HZ_ANCHORS, STABILITY_SCORES) == 90.0
    ensures h2 >= 40.0 ==> Interp3(h2, HZ_ANCHORS, STABILITY_SCORES) == 10.0
    ensures 10.0 <= Interp3(h2, HZ_ANCHORS, STABILITY_SCORES)
                 <= Interp3(h1, HZ_ANCHORS, STABILITY_SCORES) <= 90.0
  {
  }

  datatype RadarEntry = RadarEntry(feature: string, value: int)

  const RADAR_FEATURES: seq<string> := ["높이", "에너지", "속도", "맑음", "안정감"]

  function PitchScore(pitch: real): real { (pitch - 80.0) / (250.0 - 80.0) * 100.0 }
  function EnergyScore(energy: real): real { energy * 100.0 }
  function TempoScore(tempo: real): real { (tempo - 70.0) / (180.0 - 70.0) * 100.0 }
  function ClearnessScore(hnr: real): real { hnr * 2.5 + 50.0 }

  /** `normalize_features_for_radar`; `features["tempo"]` must be present. */
  function NormalizeForRadar(f: FeatureVector): (radar: seq<RadarEntry>)
    requires f.tempo.Some?
    ensures |radar| == |RADAR_FEATURES|
    ensures forall i :: 0 <= i < |radar| ==> radar[i].feature == RADAR_FEATURES[i]
    ensures forall i :: 0 <= i < |radar| ==> 10 <= radar[i].value <= 100
  {
    [ RadarEntry("높이", RadarValue(PitchScore(f.pitch))),
      RadarEntry("에너지", RadarValue(EnergyScore(f.energy))),
      RadarEntry("속도", RadarValue(TempoScore(f.tempo.value))),
      RadarEntry("맑음", RadarValue(ClearnessScore(f.harmonicity))),
      RadarEntry("안정감", RadarValue(StabilityScore(f))) ]
  }

  /** Pitch at or above 250 Hz scores 100; at or below 97 Hz it scores 10; a
      higher pitch never scores lower. */
  lemma PitchAxis(p1: real, p2: real)
    requires p1 <= p2
    ensures p2 >= 250.0 ==> RadarValue(PitchScore(p2)) == 100
    ensures p1 <= 97.0 ==> RadarValue(PitchScore(p1)) == 10
    ensures RadarValue(PitchScore(p1)) <= RadarValue(PitchScore(p2))
  {
    RadarValueMonotone(PitchScore(p1), PitchScore(p2));
  }

  /** A wider pitch spread never raises the stability entry. */
  lemma StabilityEntryNonIncreasing(f: FeatureVector, c1: real, c2: real)
    requires f.tempo.Some? && c1 <= c2
    ensures NormalizeForRadar(f.(pitchStdCents := Some(c2)))[4].value
         <= NormalizeForRadar(f.(pitchStdCents := Some(c1)))[4].value
  {
    StabilityFromCents(c1, c2);
    RadarValueMonotone(StabilityScore(f.(pitchStdCents := Some(c2))), StabilityScore(f.(pitchStdCents := Some(c1))));
  }

  function Sum(values: seq<int>): int {
    if values == [] then 0 else values[0] + Sum(values[1..])
  }

  predicate AllInIdealRange(values: seq<int>) {
    forall i :: 0 <= i < |values| ==> 40 <= values[i] <= 85
  }

  /** The attraction score before truncation and clamping; `stdDev` is
      `np.std(values)`. */
  function RawAttraction(values: seq<int>, stdDev: real): real
    requires |values| > 0
  {
    var mean := Sum(values) as real / |values| as real;
    var balanceBonus := if 25.0 - stdDev > 0.0 then 25.0 - stdDev else 0.0;
    var idealBonus := if AllInIdealRange(values) then 10.0 else 0.0;
    60.0 + (mean - 50.0) * 0.5 + balanceBonus + idealBonus
  }

  /** `calculate_attraction_score`: always within [60, 99]. */
  function Attraction(values: seq<int>, stdDev: real): (score: int)
    requires |values| > 0 && stdDev >= 0.0
    ensures 60 <= score <= 99
    ensures var raw := Trunc(RawAttraction(values, stdDev)); 60 <= raw <= 99 ==> score == raw
    ensures var raw := Trunc(RawAttraction(values, stdDev)); (raw > 99 ==> score == 99) && (raw < 60 ==> score == 60)
  {
    var n := Trunc(RawAttraction(values, stdDev));
    if n > 99 then 99 else if n < 60 then 60 else n
  }

  function RadarValues(radar: seq<RadarEntry>): (values: seq<int>)
    ensures |values| == |radar|
  {
    seq(|radar|, i requires 0 <= i < |radar| => radar[i].value)
  }

  /** A higher total, with the same spread and the same ideal-range bonus,
      never lowers the attraction score; a wider spread never raises it. */
  lemma AttractionMonotone(a: seq<int>, b: seq<int>, sdA: real, sdB: real)
    requires |a| == |b| > 0 && 0.0 <= sdB <= sdA
    requires Sum(a) <= Sum(b) && AllInIdealRange(a) == AllInIdealRange(b)
    ensures Attraction(a, sdA) <= Attraction(b, sdB)
  {
    MeanMonotone(Sum(a) as real, Sum(b) as real, |a| as real);
    var ra, rb := RawAttraction(a, sdA), RawAttraction(b, sdB);
    assert ra <= rb;
    if ra >= 0.0 {
      TruncMonotone(ra, rb);
    }
  }

  lemma MeanMonotone(x: real, y: real, n: real)
    requires x <= y && n > 0.0
    ensures x / n <= y / n
  {
    assert y / n - x / n == (y - x) / n;
  }

  /** Five equal entries of 50 with no spread score 95. */
  lemma AttractionOfFlatRadar()
    ensures Attraction([50, 50, 50, 50, 50], 0.0) == 95
  {
    assert Sum([50, 50, 50, 50, 50]) == 250;
    assert RawAttraction([50, 50, 50, 50, 50], 0.0) == 95.0;
  }

  /** The uniqueness formula; a missing "pitch_std_cents" counts as 80. */
  function Uniqueness(f: FeatureVector): (score: int)
    ensures 60 <= score <= 99
  {
    var cents := f.pitchStdCents.GetOr(80.0);
    var energyDev := if f.energy >= 0.5 then f.energy - 0.5 else 0.5 - f.energy;
    var hnrDev := if f.harmonicity >= 5.0 then f.harmonicity - 5.0 else 5.0 - f.harmonicity;
    Trunc(Clip(65.0 + 0.20 * cents + 25.0 * energyDev + 1.5 * hnrDev, 60.0, 99.0))
  }

  /** With a non-negative pitch spread the score is at least 65, and a wider
      spread never lowers it. */
  lemma UniquenessFloorAndGrowth(f: FeatureVector, c1: real, c2: real)
    requires 0.0 <= c1 <= c2
    ensures Uniqueness(f.(pitchStdCents := Some(c1))) >= 65
    ensures Uniqueness(f.(pitchStdCents := Some(c1))) <= Uniqueness(f.(pitchStdCents := Some(c2)))
  {
    var g1, g2 := f.(pitchStdCents := Some(c1)), f.(pitchStdCents := Some(c2));
    var energyDev := if f.energy >= 0.5 then f.energy - 0.5 else 0.5 - f.energy;
    var hnrDev := if f.harmonicity >= 5.0 then f.harmonicity - 5.0 else 5.0 - f.harmonicity;
    var x1 := 65.0 + 0.20 * c1 + 25.0 * energyDev + 1.5 * hnrDev;
    var x2 := 65.0 + 0.20 * c2 + 25.0 * energyDev + 1.5 * hnrDev;
    assert x1 <= x2;
    TruncMonotone(Clip(x1, 60.0, 99.0), Clip(x2, 60.0, 99.0));
  }
}
