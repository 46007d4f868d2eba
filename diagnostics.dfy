/** The input-quality diagnostics: `clipping_ratio` (api/analyze.py:433-434)
    and the three warnings the endpoint attaches to a result
    (api/analyze.py:524-534). The SNR and the voiced ratio come from signal
    processing outside this model and enter as numbers. */
module Diagnostics {

  const CLIP_LEVEL: real := 0.98

  function Clipped(v: real): bool { v > CLIP_LEVEL || v < -CLIP_LEVEL }

  /** The number of samples whose magnitude exceeds the clipping level. */
  function CountClipped(y: seq<real>): (n: nat)
    ensures n <= |y|
    ensures n == 0 <==> forall i :: 0 <= i < |y| ==> !Clipped(y[i])
    ensures n == |y| <==> forall i :: 0 <= i < |y| ==> Clipped(y[i])
  {
    if y == [] then 0
    else
      var n := (if Clipped(y[0]) then 1 else 0) + CountClipped(y[1..]);
      assert forall i :: 1 <= i < |y| ==> y[i] == y[1..][i - 1];
      n
  }

  lemma {:induction false} CountClippedConcat(a: seq<real>, b: seq<real>)
    ensures CountClipped(a + b) == CountClipped(a) + CountClipped(b)
  {
    if a == [] {
      assert a + b == b;
    } else {
      assert (a + b)[1..] == a[1..] + b;
      CountClippedConcat(a[1..], b);
    }
  }

  /** `np.mean(np.abs(y) > 0.98)`: the share of clipped samples. */
  function ClippingRatio(y: seq<real>): (r: real)
    requires |y| > 0
    ensures 0.0 <= r <= 1.0
    ensures r == 0.0 <==> forall i :: 0 <= i < |y| ==> !Clipped(y[i])
    ensures r == 1.0 <==> forall i :: 0 <= i < |y| ==> Clipped(y[i])
  {
    RatioBounds(CountClipped(y), |y|);
    CountClipped(y) as real / |y| as real
  }

  lemma RatioBounds(c: nat, n: nat)
    requires 0 < n && c <= n
    ensures 0.0 <= c as real / n as real <= 1.0
    ensures c as real / n as real == 0.0 <==> c == 0
    ensures c as real / n as real == 1.0 <==> c == n
  {
    var r := c as real / n as real;
    assert r * n as real == c as real;
  }

  /** Playing the same recording twice does not change its clipping ratio. */
  lemma ClippingRatioOfRepeat(y: seq<real>)
    requires |y| > 0
    ensures ClippingRatio(y + y) == ClippingRatio(y)
  {
    CountClippedConcat(y, y);
    HalvedRatio(CountClipped(y) as real, |y| as real);
  }

  lemma HalvedRatio(c: real, n: real)
    requires n > 0.0
    ensures (2.0 * c) / (2.0 * n) == c / n
  {
  }

  datatype Warning = Noise | Clipping | Silence {
    /** The fixed order in which the endpoint appends warnings. */
    function Rank(): nat {
      match this
      case Noise => 0
      case Clipping => 1
      case Silence => 2
    }

    function Message(): string {
      match this
      case Noise => "주변 소음이 커서 정확도가 떨어질 수 있어요."
      case Clipping => "입력이 클리핑되었습니다. 마이크 입력 레벨을 낮춰주세요."
      case Silence => "무음 구간이 많습니다. 2초 이상 또박또박 말해주세요."
    }
  }

  const SNR_FLOOR_DB: real := 10.0
  const CLIP_RATIO_LIMIT: real := 0.02
  const VOICED_RATIO_FLOOR: real := 0.4

  /** The endpoint's warning list: noise when the SNR is under 10 dB,
      clipping when more than 2% of samples clip, silence when less than 40%
      of the take is voiced; each at most once and in that order. */
  method QualityWarnings(snr: real, clip: real, voicedRatio: real) returns (warnings: seq<Warning>)
    ensures Noise in warnings <==> snr < SNR_FLOOR_DB
    ensures Clipping in warnings <==> clip > CLIP_RATIO_LIMIT
    ensures Silence in warnings <==> voicedRatio < VOICED_RATIO_FLOOR
    ensures forall i, j :: 0 <= i < j < |warnings| ==> warnings[i].Rank() < warnings[j].Rank()
    ensures |warnings| <= 3
  {
    warnings := [];
    if snr < SNR_FLOOR_DB {
      warnings := warnings + [Noise];
    }
    if clip > CLIP_RATIO_LIMIT {
      warnings := warnings + [Clipping];
    }
    if voicedRatio < VOICED_RATIO_FLOOR {
      warnings := warnings + [Silence];
    }
  }
}
