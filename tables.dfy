/** The ordered first-match tables of `analyze_details_based_on_profile`
    (api/analyze.py:286-373) and the data lists their values come from
    (api/analyze.py:47-69). */
module Tables {
  import opened Wrappers
  import opened Profile

  /** One `(label tuple) -> value` entry; the tuple becomes a set of labels. */
  datatype Rule<V> = Rule(labels: set<Label>, value: V)

  predicate Matches<V>(r: Rule<V>, profile: set<Label>) {
    r.labels <= profile
  }

  /** The value of the first entry, in declaration order, whose labels are all
      in the profile; the default when none is. */
  function FirstMatch<V>(table: seq<Rule<V>>, default: V, profile: set<Label>): (r: V)
    ensures (forall k :: 0 <= k < |table| ==> !Matches(table[k], profile)) ==> r == default
    ensures forall i :: (0 <= i < |table| && Matches(table[i], profile)
                         && forall k :: 0 <= k < i ==> !Matches(table[k], profile)) ==> r == table[i].value
    ensures r == default || exists i :: 0 <= i < |table| && Matches(table[i], profile) && r == table[i].value
  {
    if table == [] then default
    else if Matches(table[0], profile) then table[0].value
    else
      var r := FirstMatch(table[1..], default, profile);
      assert forall i :: 1 <= i < |table| ==> table[1..][i - 1] == table[i];
      r
  }

  /** The `for p_set, v in table.items(): if all(...): v = ...; break` loop. */
  method Lookup<V>(table: seq<Rule<V>>, default: V, profile: set<Label>) returns (v: V)
    ensures v == FirstMatch(table, default, profile)
  {
    v := default;
    var i := 0;
    while i < |table|
      invariant 0 <= i <= |table|
      invariant v == default
      invariant FirstMatch(table, default, profile) == FirstMatch(table[i..], default, profile)
    {
      if table[i].labels <= profile {
        v := table[i].value;
        break;
      }
      assert table[i..][1..] == table[i + 1..];
      i := i + 1;
    }
  }

  const VOICE_TYPES: seq<Rule<string>> := [
    Rule({HighEnergy, DynamicTone}, "활기찬 에너지 보이스"),
    Rule({HighPitch, ClearVoice}, "맑고 청량한 크리스탈 보이스"),
    Rule({LowPitch, StableTone}, "깊고 카리스마 있는 베이스 보이스"),
    Rule({LowEnergy, SoftVoice}, "차분하고 속삭이는 위스퍼 보이스"),
    Rule({ClearVoice}, "따뜻하고 부드러운 허니 보이스"),
    Rule({HuskyVoice, HighEnergy}, "파워풀하고 강렬한 썬더 보이스"),
    Rule({MidEnergy, DynamicTone}, "감성적이고 몽환적인 문라이트 보이스")
  ]
  const DEFAULT_VOICE_TYPE: string := "시원하고 깔끔한 민트 보이스"

  const ANIMALS: seq<Rule<string>> := [
    Rule({HighPitch, DynamicTone}, "토끼상"),
    Rule({HighPitch, LowEnergy}, "고양이상"),
    Rule({HighPitch, HighEnergy}, "강아지상"),
    Rule({LowPitch, HuskyVoice}, "늑대상"),
    Rule({LowPitch, HighEnergy}, "사자상"),
    Rule({MidPitch, StableTone}, "곰상"),
    Rule({MidPitch, DynamicTone}, "여우상")
  ]
  const DEFAULT_ANIMAL: string := "햄스터상"

  const PERSONALITIES: seq<Rule<string>> := [
    Rule({HighEnergy, DynamicTone}, "분위기 메이커형"),
    Rule({LowEnergy, StableTone}, "깊고 차분한 안정형"),
    Rule({LowPitch, StableTone}, "타고난 리더형"),
    Rule({HighPitch, DynamicTone}, "창의적인 아티스트형"),
    Rule({HighEnergy, ClearVoice}, "활동적인 스포츠형"),
    Rule({HuskyVoice, DynamicTone}, "유머러스한 재미형"),
    Rule({ClearVoice, StableTone}, "지적이고 분석적인 형")
  ]
  const DEFAULT_PERSONALITY: string := "따뜻한 감성형"

  const TAGS: seq<Rule<string>> := [
    Rule({LowEnergy, SoftVoice}, "ASMR 천재"),
    Rule({ClearVoice, HighPitch}, "귀호강 주인공"),
    Rule({LowPitch, StableTone}, "카리스마 폭발"),
    Rule({SoftVoice, ClearVoice}, "목소리 꿀"),
    Rule({HighEnergy, DynamicTone}, "매력 발산기"),
    Rule({HuskyVoice, LowPitch}, "보이스 피셔")
  ]
  const DEFAULT_TAG: string := "힐링 보이스"

  const COLORS: seq<Rule<string>> := [
    Rule({HighPitch, ClearVoice}, "사파이어 블루"),
    Rule({HighPitch, HighEnergy}, "골든 옐로우"),
    Rule({LowPitch, StableTone}, "오닉스 블랙"),
    Rule({LowPitch, HuskyVoice}, "루비 레드"),
    Rule({SoftVoice, MidPitch}, "로즈 골드"),
    Rule({ClearVoice, StableTone}, "에메랄드 그린"),
    Rule({DynamicTone, MidEnergy}, "아메시스트 퍼플")
  ]
  const DEFAULT_COLOR: string := "실버 화이트"

  datatype AnimalType = AnimalType(id: string, typeName: string, emoji: string, desc: string)
  datatype PersonalityType = PersonalityType(id: string, typeName: string, emoji: string, color: string)

  const ANIMAL_TYPES: seq<AnimalType> := [
    AnimalType("cat", "고양이상", "🐱", "츤데레의 완성체, 관심없는 척 하지만 사실 관종"),
    AnimalType("dog", "강아지상", "🐶", "세상 모든 사람이 좋은 사람일 거라고 믿는 순수함"),
    AnimalType("bear", "곰상", "🐻", "포근한 인간 담요, 안기고 싶게 만드는 마성의 체질"),
    AnimalType("fox", "여우상", "🦊", "계산기보다 빠른 두뇌, 눈빛만으로 사람 홀리는 마법사"),
    AnimalType("hamster", "햄스터상", "🐹", "입에 음식 가득 넣고도 귀여운 반칙급 외모"),
    AnimalType("lion", "사자상", "🦁", "가만히 있어도 포스 폭발, 천상천하 유아독존"),
    AnimalType("rabbit", "토끼상", "🐰", "깜찍함으로 세상을 정복하는 중, 보호본능 자극 전문가"),
    AnimalType("wolf", "늑대상", "🐺", "야성미 철철 흘러넘치는 매력, 길들여지지 않는 자유로운 영혼")
  ]

  const PERSONALITY_TYPES: seq<PersonalityType> := [
    PersonalityType("leader", "타고난 리더형", "👑", "#f59e0b"),
    PersonalityType("emotional", "따뜻한 감성형", "💝", "#ec4899"),
    PersonalityType("maker", "분위기 메이커형", "🎉", "#8b5cf6"),
    PersonalityType("stable", "깊고 차분한 안정형", "🧘", "#06b6d4"),
    PersonalityType("humorous", "유머러스한 재미형", "😄", "#10b981"),
    PersonalityType("artist", "창의적인 아티스트형", "🎨", "#f97316"),
    PersonalityType("analytical", "지적이고 분석적인 형", "🤓", "#6366f1"),
    PersonalityType("active", "활동적인 스포츠형", "🏃", "#ef4444")
  ]

  const SPECIAL_TAGS: seq<string> := ["ASMR 천재", "목소리 마약", "귀호강 주인공", "보이스 피셔", "음성 치료사",
    "힐링 보이스", "매력 발산기", "카리스마 폭발", "목소리 꿀", "보컬 DNA", "음성 마술사", "귀감 제조기"]

  const VOICE_COLORS: seq<string> := ["루비 레드", "사파이어 블루", "에메랄드 그린", "골든 옐로우", "아메시스트 퍼플",
    "다이아몬드 화이트", "오닉스 블랙", "로즈 골드", "실버 화이트", "코발트 블루"]

  /** `next((item for item in items if item["type"] == name), fallback)`, for any table whose
      entries carry a type name given by `nameOf`. */
  function FindByName<T(==)>(items: seq<T>, nameOf: T -> string, name: string, fallback: T): (r: T)
    ensures (exists k :: 0 <= k < |items| && nameOf(items[k]) == name) ==> nameOf(r) == name && r in items
    ensures (forall k :: 0 <= k < |items| ==> nameOf(items[k]) != name) ==> r == fallback
    ensures (exists k :: 0 <= k < |items| && nameOf(items[k]) == name) ==>
              exists k :: 0 <= k < |items| && items[k] == r && nameOf(r) == name && IsFirstNamed(items, nameOf, name, k)
  {
    if items == [] then fallback
    else if nameOf(items[0]) == name then
      assert IsFirstNamed(items, nameOf, name, 0);
      items[0]
    else
      var r := FindByName(items[1..], nameOf, name, fallback);
      assert forall k :: 1 <= k < |items| ==> items[1..][k - 1] == items[k];
      FirstNamedShifts(items, nameOf, name, r);
      r
  }

  /** A first match in `items[1..]` is a first match in `items` when `items[0]` lacks the name. */
  lemma FirstNamedShifts<T>(items: seq<T>, nameOf: T -> string, name: string, r: T)
    requires |items| > 0 && nameOf(items[0]) != name
    requires (exists k :: 0 <= k < |items| - 1 && nameOf(items[1..][k]) == name) ==>
               exists k :: 0 <= k < |items| - 1 && items[1..][k] == r && nameOf(r) == name
                           && IsFirstNamed(items[1..], nameOf, name, k)
    ensures (exists k :: 0 <= k < |items| && nameOf(items[k]) == name) ==>
              exists k :: 0 <= k < |items| && items[k] == r && nameOf(r) == name && IsFirstNamed(items, nameOf, name, k)
  {
    if exists k :: 0 <= k < |items| && nameOf(items[k]) == name {
      var k :| 0 <= k < |items| && nameOf(items[k]) == name;
      assert nameOf(items[1..][k - 1]) == name;
      var k' :| 0 <= k' < |items| - 1 && items[1..][k'] == r && nameOf(r) == name
                && IsFirstNamed(items[1..], nameOf, name, k');
      assert items[k' + 1] == items[1..][k'];
      assert IsFirstNamed(items, nameOf, name, k' + 1);
    }
  }

  /** No entry before position `k` carries the name. */
  predicate IsFirstNamed<T>(items: seq<T>, nameOf: T -> string, name: string, k: int)
    requires 0 <= k <= |items|
  {
    forall j :: 0 <= j < k ==> nameOf(items[j]) != name
  }

  lemma {:induction false} FindByNameIgnoresFallback<T>(items: seq<T>, nameOf: T -> string, name: string, f1: T, f2: T)
    requires exists k :: 0 <= k < |items| && nameOf(items[k]) == name
    ensures FindByName(items, nameOf, name, f1) == FindByName(items, nameOf, name, f2)
  {
    if nameOf(items[0]) != name {
      var k :| 0 <= k < |items| && nameOf(items[k]) == name;
      assert nameOf(items[1..][k - 1]) == name;
      FindByNameIgnoresFallback(items[1..], nameOf, name, f1, f2);
    }
  }

  function AnimalName(a: AnimalType): string { a.typeName }
  function PersonalityName(t: PersonalityType): string { t.typeName }

  function FindAnimal(items: seq<AnimalType>, name: string, fallback: AnimalType): AnimalType {
    FindByName(items, AnimalName, name, fallback)
  }

  function FindPersonality(items: seq<PersonalityType>, name: string, fallback: PersonalityType): PersonalityType {
    FindByName(items, PersonalityName, name, fallback)
  }

  function VoiceTypeOf(profile: set<Label>): string { FirstMatch(VOICE_TYPES, DEFAULT_VOICE_TYPE, profile) }
  function AnimalOf(profile: set<Label>): string { FirstMatch(ANIMALS, DEFAULT_ANIMAL, profile) }
  function PersonalityOf(profile: set<Label>): string { FirstMatch(PERSONALITIES, DEFAULT_PERSONALITY, profile) }
  function TagOf(profile: set<Label>): string { FirstMatch(TAGS, DEFAULT_TAG, profile) }
  function ColorOf(profile: set<Label>): string { FirstMatch(COLORS, DEFAULT_COLOR, profile) }

  predicate NamesAnimal(name: string) {
    exists k :: 0 <= k < |ANIMAL_TYPES| && ANIMAL_TYPES[k].typeName == name
  }

  predicate NamesPersonality(name: string) {
    exists k :: 0 <= k < |PERSONALITY_TYPES| && PERSONALITY_TYPES[k].typeName == name
  }

  /** Every animal the table or its default can produce is one of `animalTypes`. */
  lemma AnimalNamed(profile: set<Label>)
    ensures NamesAnimal(AnimalOf(profile))
  {
    var name := AnimalOf(profile);
    if name != DEFAULT_ANIMAL {
      var i :| 0 <= i < |ANIMALS| && Matches(ANIMALS[i], profile) && name == ANIMALS[i].value;
      AnimalValueListed(i);
    } else {
      assert ANIMAL_TYPES[4].typeName == name;
    }
  }

  lemma AnimalValueListed(i: nat)
    requires i < |ANIMALS|
    ensures NamesAnimal(ANIMALS[i].value)
  {
    var where := [6, 0, 1, 7, 5, 2, 3];
    assert ANIMAL_TYPES[where[i]].typeName == ANIMALS[i].value;
  }

  /** So `next` always finds the animal, and the eagerly drawn random
      fallback is never what it returns. */
  lemma AnimalAlwaysListed(profile: set<Label>, fallback: AnimalType, other: AnimalType)
    ensures FindAnimal(ANIMAL_TYPES, AnimalOf(profile), fallback).typeName == AnimalOf(profile)
    ensures FindAnimal(ANIMAL_TYPES, AnimalOf(profile), fallback) in ANIMAL_TYPES
    ensures FindAnimal(ANIMAL_TYPES, AnimalOf(profile), fallback) == FindAnimal(ANIMAL_TYPES, AnimalOf(profile), other)
  {
    AnimalNamed(profile);
    var k :| 0 <= k < |ANIMAL_TYPES| && ANIMAL_TYPES[k].typeName == AnimalOf(profile);
    assert AnimalName(ANIMAL_TYPES[k]) == AnimalOf(profile);
    FindByNameIgnoresFallback(ANIMAL_TYPES, AnimalName, AnimalOf(profile), fallback, other);
  }

  /** Every personality the table or its default can produce is one of `personalityTypes`. */
  lemma PersonalityNamed(profile: set<Label>)
    ensures NamesPersonality(PersonalityOf(profile))
  {
    var name := PersonalityOf(profile);
    if name != DEFAULT_PERSONALITY {
      var i :| 0 <= i < |PERSONALITIES| && Matches(PERSONALITIES[i], profile) && name == PERSONALITIES[i].value;
      PersonalityValueListed(i);
    } else {
      assert PERSONALITY_TYPES[1].typeName == name;
    }
  }

  lemma PersonalityValueListed(i: nat)
    requires i < |PERSONALITIES|
    ensures NamesPersonality(PERSONALITIES[i].value)
  {
    var where := [2, 3, 0, 5, 7, 4, 6];
    assert PERSONALITY_TYPES[where[i]].typeName == PERSONALITIES[i].value;
  }

  lemma PersonalityAlwaysListed(profile: set<Label>, fallback: PersonalityType, other: PersonalityType)
    ensures FindPersonality(PERSONALITY_TYPES, PersonalityOf(profile), fallback).typeName == PersonalityOf(profile)
    ensures FindPersonality(PERSONALITY_TYPES, PersonalityOf(profile), fallback) in PERSONALITY_TYPES
    ensures FindPersonality(PERSONALITY_TYPES, PersonalityOf(profile), fallback)
         == FindPersonality(PERSONALITY_TYPES, PersonalityOf(profile), other)
  {
    PersonalityNamed(profile);
    var k :| 0 <= k < |PERSONALITY_TYPES| && PERSONALITY_TYPES[k].typeName == PersonalityOf(profile);
    assert PersonalityName(PERSONALITY_TYPES[k]) == PersonalityOf(profile);
    FindByNameIgnoresFallback(PERSONALITY_TYPES, PersonalityName, PersonalityOf(profile), fallback, other);
  }

  /** Tags are always entries of `specialTags`. */
  lemma TagListed(profile: set<Label>)
    ensures TagOf(profile) in SPECIAL_TAGS
  {
    var tag := TagOf(profile);
    if tag != DEFAULT_TAG {
      var i :| 0 <= i < |TAGS| && Matches(TAGS[i], profile) && tag == TAGS[i].value;
      TagValueListed(i);
    } else {
      assert SPECIAL_TAGS[5] == tag;
    }
  }

  lemma TagValueListed(i: nat)
    requires i < |TAGS|
    ensures TAGS[i].value in SPECIAL_TAGS
  {
    var where := [0, 2, 7, 8, 6, 3];
    assert SPECIAL_TAGS[where[i]] == TAGS[i].value;
  }

  /** Colours are always entries of `voiceColors`. */
  lemma ColorListed(profile: set<Label>)
    ensures ColorOf(profile) in VOICE_COLORS
  {
    var color := ColorOf(profile);
    if color != DEFAULT_COLOR {
      var i :| 0 <= i < |COLORS| && Matches(COLORS[i], profile) && color == COLORS[i].value;
      ColorValueListed(i);
    } else {
      assert VOICE_COLORS[8] == color;
    }
  }

  lemma ColorValueListed(i: nat)
    requires i < |COLORS|
    ensures COLORS[i].value in VOICE_COLORS
  {
    var where := [1, 3, 6, 0, 7, 2, 4];
    assert VOICE_COLORS[where[i]] == COLORS[i].value;
  }

  /** The ('soft_voice', 'clear_voice') tag rule never fires on a classified
      profile, so "목소리 꿀" is never the tag. */
  lemma HoneyTagUnreachable(f: FeatureVector)
    ensures TagOf(ProfileOf(f)) != "목소리 꿀"
  {
    ClarityLabelsExclusive(f);
  }

  /** The profile {high_energy, dynamic_tone, high_pitch, clear_voice} gets the
      ('high_energy', 'dynamic_tone') voice type, the earlier of the two entries
      it satisfies. */
  lemma EnergeticBeforeCrystal()
    ensures VoiceTypeOf({HighEnergy, DynamicTone, HighPitch, ClearVoice}) == "활기찬 에너지 보이스"
    ensures FirstMatch([VOICE_TYPES[1], VOICE_TYPES[0]] + VOICE_TYPES[2..], DEFAULT_VOICE_TYPE,
                       {HighEnergy, DynamicTone, HighPitch, ClearVoice}) == "맑고 청량한 크리스탈 보이스"
  {
  }

  /** The features of that example classify to exactly that profile. */
  lemma ExampleProfile()
    ensures ProfileOf(FeatureVector(220.0, 0.85, None, 0.0, Some(150.0), 15.0))
         == {HighEnergy, DynamicTone, HighPitch, ClearVoice}
  {
  }
}
