/** The pure helpers of the result screen (src/App.tsx): the insight chips
    drawn from the radar, the whitespace-free hashtags and share text, the
    progress ring's percentage and the recording timer's tick. */
module Insight {
  import opened Wrappers
  import opened Sorting
  import opened Radar

  function Value(e: RadarEntry): real { e.value as real }

  /** `labelPos`: the chip for a high reading of each radar feature. */
  function PositiveLabel(feature: string): Option<string> {
    if feature == "높이" then Some("고음도 높음")
    else if feature == "에너지" then Some("에너지 넘침")
    else if feature == "속도" then Some("말 속도 빠름")
    else if feature == "맑음" then Some("맑은 톤")
    else if feature == "안정감" then Some("안정감 높음")
    else None
  }

  /** `labelNeg`: the chip for a low reading of each radar feature. */
  function NegativeLabel(feature: string): Option<string> {
    if feature == "높이" then Some("저음 기조")
    else if feature == "에너지" then Some("차분함")
    else if feature == "속도" then Some("말 속도 느림")
    else if feature == "맑음" then Some("허스키 톤")
    else if feature == "안정감" then Some("톤 변동 큼")
    else None
  }

  function ChipLabel(e: RadarEntry): string {
    if e.value >= 60 then PositiveLabel(e.feature).GetOr(e.feature)
    else if e.value <= 40 then NegativeLabel(e.feature).GetOr(e.feature)
    else e.feature
  }

  /** The chip reads the feature's own name exactly when the value is in the
      neutral band (40, 60) or the feature has no label for its band. */
  lemma ChipIsNameExactly(e: RadarEntry)
    ensures ChipLabel(e) == e.feature <==>
      (40 < e.value < 60) || (e.value >= 60 && PositiveLabel(e.feature).None?)
                          || (e.value <= 40 && NegativeLabel(e.feature).None?)
  {
  }

  /** The at most three highest entries, largest first, ties in input order. */
  function TopEntries(radar: seq<RadarEntry>): (top: seq<RadarEntry>)
    ensures |top| == if |radar| < 3 then |radar| else 3
    ensures SortedDesc(top, Value)
  {
    var sorted := SortDesc(radar, Value);
    sorted[..if |radar| < 3 then |radar| else 3]
  }

  /** `computeInsightChips`. */
  function ComputeInsightChips(radar: seq<RadarEntry>): (chips: seq<string>)
    ensures |chips| == if |radar| < 3 then |radar| else 3
  {
    var top := TopEntries(radar);
    seq(|top|, i requires 0 <= i < |top| => ChipLabel(top[i]))
  }

  /** The chips come from entries of the radar, and no entry left out has a
      higher value than any chosen one. */
  lemma TopEntriesAreTheHighest(radar: seq<RadarEntry>)
    ensures multiset(TopEntries(radar)) <= multiset(radar)
    ensures forall e, k :: e in multiset(radar) - multiset(TopEntries(radar)) && 0 <= k < |TopEntries(radar)|
              ==> e.value <= TopEntries(radar)[k].value
  {
    var d := SortDesc(radar, Value);
    var m := if |radar| < 3 then |radar| else 3;
    var top := d[..m];
    assert d == top + d[m..];
    assert multiset(d) == multiset(top) + multiset(d[m..]);
    assert multiset(radar) - multiset(top) == multiset(d[m..]);
    forall e, k | e in multiset(d[m..]) && 0 <= k < m ensures e.value <= top[k].value {
      var j :| 0 <= j < |d[m..]| && d[m..][j] == e;
      assert Value(d[k]) >= Value(d[m + j]);
    }
  }

  /** Each chip is the label of the entry in the same place of the ranking. */
  lemma ChipsFollowRanking(radar: seq<RadarEntry>, i: nat)
    requires i < |ComputeInsightChips(radar)|
    ensures TopEntries(radar)[i] in radar
    ensures ComputeInsightChips(radar)[i] == ChipLabel(TopEntries(radar)[i])
  {
    var d := SortDesc(radar, Value);
    assert TopEntries(radar)[i] == d[i];
    assert d[i] in multiset(d);
  }

  /** A reading of 90 for clearness, 30 for energy and 50 for tempo gives
      the clear-tone chip, the calm chip and the plain feature name. */
  lemma ChipLabelExamples()
    ensures ChipLabel(RadarEntry("맑음", 90)) == "맑은 톤"
    ensures ChipLabel(RadarEntry("에너지", 30)) == "차분함"
    ensures ChipLabel(RadarEntry("속도", 50)) == "속도"
    ensures ChipLabel(RadarEntry("음색", 75)) == "음색"
  {
  }

  /** The characters JavaScript's `\s` matches. */
  predicate IsWhitespace(c: char) {
    c == ' ' || c == '\t' || c == '\n' || c == '\U{000B}' || c == '\U{000C}' || c == '\r'
    || c == '\U{00A0}' || c == '\U{1680}' || ('\U{2000}' <= c <= '\U{200A}')
    || c == '\U{2028}' || c == '\U{2029}' || c == '\U{202F}' || c == '\U{205F}'
    || c == '\U{3000}' || c == '\U{FEFF}'
  }


  /** `s.replace(/\s/g, '')`. */
  function StripWhitespace(s: string): (r: string)
    ensures |r| <= |s|
    ensures forall i :: 0 <= i < |r| ==> !IsWhitespace(r[i])
    ensures forall c :: c in s && !IsWhitespace(c) ==> c in r
    ensures forall c :: c in r ==> c in s
  {
    if s == [] then []
    else
      var rest := StripWhitespace(s[1..]);
      assert forall c :: c in s && c != s[0] ==> c in s[1..];
      assert forall c :: c in s[1..] ==> c in s;
      if IsWhitespace(s[0]) then rest else [s[0]] + rest
  }

  lemma {:induction false} StripConcat(a: string, b: string)
    ensures StripWhitespace(a + b) == StripWhitespace(a) + StripWhitespace(b)
  {
    if a == [] {
      assert a + b == b;
    } else {
      assert (a + b)[1..] == a[1..] + b;
      StripConcat(a[1..], b);
    }
  }

  /** A string without whitespace is left as it is, so stripping twice is
      the same as stripping once. */
  lemma {:induction false} StripKeepsClean(s: string)
    requires forall i :: 0 <= i < |s| ==> !IsWhitespace(s[i])
    ensures StripWhitespace(s) == s
  {
    if s != [] { StripKeepsClean(s[1..]); }
  }

  lemma StripIdempotent(s: string)
    ensures StripWhitespace(StripWhitespace(s)) == StripWhitespace(s)
  {
    StripKeepsClean(StripWhitespace(s));
  }

  function Hashtag(s: string): (tag: string)
    ensures |tag| > 0 && tag[0] == '#' && tag[1..] == StripWhitespace(s)
  {
    "#" + StripWhitespace(s)
  }

  /** The three hashtags on the shareable card. */
  function CardHashtags(specialTag: string, voiceColor: string): (tags: seq<string>)
    ensures |tags| == 3 && tags[2] == "#VoiceAge"
    ensures tags[0] == Hashtag(specialTag) && tags[0][1..] == StripWhitespace(specialTag)
    ensures tags[1] == Hashtag(voiceColor) && tags[1][1..] == StripWhitespace(voiceColor)
    ensures forall i :: 0 <= i < 3 ==> forall j :: 1 <= j < |tags[i]| ==> !IsWhitespace(tags[i][j])
  {
    [Hashtag(specialTag), Hashtag(voiceColor), "#VoiceAge"]
  }

  const SHARE_SUFFIX: string := " #VoiceAge"

  /** `shareText`: age line, quoted humour line, then the hashtags. */
  function ShareText(ageRange: string, humorQuote: string, specialTag: string, voiceColor: string): (text: string)
    ensures |text| >= |SHARE_SUFFIX| && text[|text| - |SHARE_SUFFIX|..] == SHARE_SUFFIX
  {
    var head := "🎤 내 보이스 에이지: " + ageRange + "\n“" + humorQuote + "”\n";
    head + Hashtag(specialTag) + " " + Hashtag(voiceColor) + SHARE_SUFFIX
  }

  /** The hashtag line of the share text is exactly the card's hashtags
      joined by spaces. */
  lemma ShareTextCarriesCardHashtags(ageRange: string, humorQuote: string, specialTag: string, voiceColor: string)
    ensures var text := ShareText(ageRange, humorQuote, specialTag, voiceColor);
            var tags := CardHashtags(specialTag, voiceColor);
            var line := tags[0] + " " + tags[1] + " " + tags[2];
            |line| <= |text| && text[|text| - |line|..] == line
  {
    var head := "🎤 내 보이스 에이지: " + ageRange + "\n“" + humorQuote + "”\n";
    var line := Hashtag(specialTag) + " " + Hashtag(voiceColor) + " " + "#VoiceAge";
    assert ShareText(ageRange, humorQuote, specialTag, voiceColor) == head + line;
  }

  /** The progress ring's percentage, `Math.min(100, (sec / max) * 100)`. */
  function ProgressPercent(sec: real, max: real): (pct: real)
    requires max > 0.0
    ensures pct <= 100.0
    ensures pct == 100.0 <==> sec >= max
    ensures sec >= 0.0 ==> pct >= 0.0
  {
    var raw := sec / max * 100.0;
    if raw < 100.0 then raw else 100.0
  }

  lemma ProgressMonotone(s1: real, s2: real, max: real)
    requires max > 0.0 && s1 <= s2
    ensures ProgressPercent(s1, max) <= ProgressPercent(s2, max)
  {
    assert s1 / max <= s2 / max by {
      assert s2 / max - s1 / max == (s2 - s1) / max;
    }
  }

  /** `+x.toFixed(1)` for a non-negative `x`: round half up to one decimal. */
  function RoundTenth(x: real): real {
    (x * 10.0 + 0.5).Floor as real / 10.0
  }

  /** One 100 ms tick of the recording timer. */
  function Tick(prev: real): (next: real)
    ensures next <= 10.0
    ensures prev >= 9.9 ==> next == 10.0
  {
    if prev >= 9.9 then 10.0 else RoundTenth(prev + 0.1)
  }

  /** The timer value after `n` ticks from zero. */
  function TimeAfter(n: nat): real {
    if n == 0 then 0.0 else Tick(TimeAfter(n - 1))
  }

  /** The timer counts tenths of a second and stops at 10: after `n` ticks it
      reads min(n, 100) / 10. */
  lemma {:induction false} TimerCountsTenths(n: nat)
    ensures TimeAfter(n) == (if n < 100 then n else 100) as real / 10.0
  {
    if n > 0 {
      TimerCountsTenths(n - 1);
      if n - 1 < 99 {
        var x := (n - 1) as real / 10.0;
        assert x < 9.9;
        assert (x + 0.1) * 10.0 + 0.5 == n as real + 0.5;
        assert (n as real + 0.5).Floor == n;
      }
    }
  }
}
