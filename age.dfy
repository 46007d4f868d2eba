/** The age ladders `get_age_key_female` / `get_age_key_male`
    (api/analyze.py:147-163) and the `age_groups` table they index
    (api/analyze.py:37-46, looked up at api/analyze.py:509). */
module Age {

  datatype AgeKey =
    | Teens | TwentiesEarly | TwentiesLate | ThirtiesEarly
    | ThirtiesLate | FortiesEarly | FortiesLate | FiftiesPlus
  {
    /** Position from youngest (0) to oldest (7). */
    function Rank(): nat {
      match this
      case Teens => 0
      case TwentiesEarly => 1
      case TwentiesLate => 2
      case ThirtiesEarly => 3
      case ThirtiesLate => 4
      case FortiesEarly => 5
      case FortiesLate => 6
      case FiftiesPlus => 7
    }

    /** The dictionary key the ladders return. */
    function Name(): string {
      match this
      case Teens => "10s"
      case TwentiesEarly => "20s_early"
      case TwentiesLate => "20s_late"
      case ThirtiesEarly => "30s_early"
      case ThirtiesLate => "30s_late"
      case FortiesEarly => "40s_early"
      case FortiesLate => "40s_late"
      case FiftiesPlus => "50s_plus"
    }
  }

  /** Descending pitch ladder; the 30s rung looks at energy and the 40s rung at
      the spectral centroid. */
  function Ladder(t: (real, real, real, real, real), centroidCut: real,
                  pitch: real, centroid: real, energy: real): AgeKey
  {
    if pitch > t.0 then Teens
    else if pitch > t.1 then TwentiesEarly
    else if pitch > t.2 then TwentiesLate
    else if pitch > t.3 then (if energy > 0.5 then ThirtiesEarly else ThirtiesLate)
    else if pitch > t.4 then (if centroid > centroidCut then FortiesEarly else FortiesLate)
    else FiftiesPlus
  }

  function AgeKeyFemale(pitch: real, centroid: real, energy: real): AgeKey {
    Ladder((245.0, 220.0, 200.0, 185.0, 170.0), 2200.0, pitch, centroid, energy)
  }

  function AgeKeyMale(pitch: real, centroid: real, energy: real): AgeKey {
    Ladder((165.0, 140.0, 125.0, 110.0, 95.0), 1800.0, pitch, centroid, energy)
  }

  /** api/analyze.py:504-507: only the exact string "female" selects the female ladder. */
  function AgeKeyFor(gender: string, pitch: real, centroid: real, energy: real): AgeKey {
    if gender == "female" then AgeKeyFemale(pitch, centroid, energy)
    else AgeKeyMale(pitch, centroid, energy)
  }

  lemma {:induction false} LadderMonotone(t: (real, real, real, real, real), cut: real,
                                          p1: real, p2: real, centroid: real, energy: real)
    requires t.0 >= t.1 >= t.2 >= t.3 >= t.4
    requires p1 >= p2
    ensures Ladder(t, cut, p1, centroid, energy).Rank() <= Ladder(t, cut, p2, centroid, energy).Rank()
  {
  }

  /** For a fixed centroid and energy, a lower pitch never gives a younger bracket. */
  lemma AgeKeyMonotone(gender: string, p1: real, p2: real, centroid: real, energy: real)
    requires p1 >= p2
    ensures AgeKeyFor(gender, p1, centroid, energy).Rank() <= AgeKeyFor(gender, p2, centroid, energy).Rank()
  {
    if gender == "female" {
      LadderMonotone((245.0, 220.0, 200.0, 185.0, 170.0), 2200.0, p1, p2, centroid, energy);
    } else {
      LadderMonotone((165.0, 140.0, 125.0, 110.0, 95.0), 1800.0, p1, p2, centroid, energy);
    }
  }

  /** Under the male ladder a 150 Hz median pitch falls in the early twenties. */
  lemma Male150IsEarlyTwenties(centroid: real, energy: real)
    ensures AgeKeyFor("male", 150.0, centroid, energy) == TwentiesEarly
  {
  }

  datatype AgeGroup = AgeGroup(range: string, humor: seq<string>)

  const AGE_GROUPS: map<string, AgeGroup> := map[
    "10s" := AgeGroup("10대", [
      "목소리에서 '엄마 용돈 올려달라'는 간절함이 느껴져요! 🌸",
      "라면 끓이는 소리만 들어도 달려올 것 같은 목소리! ⚡",
      "밤 12시에 '숙제 언제 하지?' 하는 목소리네요! 📱",
      "청춘 드라마에서 '야, 너 좋아해' 고백할 목소리! 🎭",
      "새로 나온 줄임말을 일주일 만에 마스터할 것 같아요!",
      "에너지 드링크가 목소리로 변한 느낌!"]),
    "20s_early" := AgeGroup("20대 초반", [
      "대학 과제 마감 2시간 전의 절망과 희망이 공존하는 목소리! 🎓",
      "밤새 팀플하고 '이번엔 진짜 A+ 받을 거야' 하는 목소리!",
      "MT에서 '우리 과 최고!' 외칠 목소리에요!",
      "'오늘 뭐 먹지?'가 인생 최대 고민인 목소리!",
      "개강파티 주최자 목소리네요!",
      "친구 번호 물어봐달라고 부탁받을 목소리!"]),
    "20s_late" := AgeGroup("20대 후반", [
      "이제 막 '어른'이라는 가면을 쓰기 시작한 목소리! 🍺",
      "퇴근길에 '오늘도 고생했다' 혼잣말할 목소리네요!",
      "첫 월급으로 '이제야 사람 됐다' 느끼는 목소리!",
      "주말 약속 없으면 인싸 자격 박탈당할 것 같은 목소리!",
      "연애할 때 가장 설레지만 현실은 솔로인 목소리 💕",
      "독립 후 '집에서 속옷만 입고 다니는 자유'를 만끽하는 목소리!"]),
    "30s_early" := AgeGroup("30대 초반", [
      "안정감은 있는데 여전히 게임 밤새는 목소리예요.",
      "넷플릭스 정주행이 최고의 힐링이라고 확신하는 목소리!",
      "'아, 허리야...' 첫 신음소리를 낸 목소리!",
      "회사에서 '믿고 맡길 수 있는' 목소리 💼",
      "결혼식 축사에서 웃음과 감동을 동시에 줄 목소리!",
      "커피 없으면 좀비가 되는 목소리 ☕"]),
    "30s_late" := AgeGroup("30대 후반", [
      "깊이는 있는데 아직 유튜브 알고리즘에 당하는 목소리! 💰",
      "재테크 유튜브 보면서 '나도 부자 될 수 있어' 하는 목소리!",
      "육아 현실에 치여도 아이 앞에선 천사가 되는 목소리 👶",
      "캠핑 가서 '자연이 최고야' 하지만 와이파이 찾는 목소리!",
      "인생 황금기라지만 체력은 이미 하향곡선인 목소리! ✨",
      "'집이 천국'이라는 진리를 깨달은 목소리!"]),
    "40s_early" := AgeGroup("40대 초반", [
      "편안하지만 갑자기 '요즘 애들은...' 하고 싶어지는 목소리!",
      "와인 마시면서 '인생을 논하고' 싶어지는 목소리 🍷",
      "후배들에게 밥 사주면서 '내 젊었을 때는' 시전할 목소리!",
      "아이 숙제 도와주다가 '이게 뭐야?' 할 목소리 📝",
      "경험담이 레전드가 된 목소리 📚",
      "골프 치면서 '스트레스 푸는' 목소리!"]),
    "40s_late" := AgeGroup("40대 후반", [
      "지혜롭지만 아직 스마트폰 기능을 다 모르는 목소리!",
      "'내가 너 때는...' 전설의 시작을 알리는 목소리!",
      "인생의 단맛을 아는 동시에 쓴맛도 아는 목소리!",
      "다큐 보면서 '역시 옛날이 좋았어' 할 목소리!",
      "가족여행 계획 세우는 게 취미가 된 목소리!",
      "친구 모임에서 '건강이 최고야' 외치는 목소리!"]),
    "50s_plus" := AgeGroup("50대 이상", [
      "모든 것을 다 겪어본 '인생 고수'의 여유로운 목소리!",
      "차 한 잔에 '인생 철학'을 담아낼 수 있는 목소리 🍵",
      "'이제야 진짜 내 인생이 시작이야' 하는 목소리 🎭",
      "손자 손녀에게 '옛날에 할아버지는...' 시전하는 목소리!",
      "등산복이 일상복이 된 목소리 🏔️",
      "텃밭에서 '내가 기른 배추가 최고야' 하는 목소리!"])
  ]

  /** `age_groups.get(age_key, age_groups["30s_early"])`. */
  function AgeInfo(key: string): AgeGroup {
    if key in AGE_GROUPS then AGE_GROUPS[key] else AGE_GROUPS["30s_early"]
  }

  /** Every bracket a ladder can return is a key of the table, with a
      non-empty flavour pool, so the "30s_early" fallback is never taken. */
  lemma LadderKeysAreKnown(k: AgeKey)
    ensures k.Name() in AGE_GROUPS
    ensures AgeInfo(k.Name()) == AGE_GROUPS[k.Name()]
    ensures |AGE_GROUPS[k.Name()].humor| == 6
  {
  }
}
