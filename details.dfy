/** `analyze_details_based_on_profile` (api/analyze.py:284-383): the five
    first-match lookups, the two data-list lookups and the job match. */
module Details {
  import opened Wrappers
  import opened Profile
  import opened Tables
  import opened Jobs

  /** The animal and personality records as returned, without their "id". */
  datatype AnimalCard = AnimalCard(typeName: string, emoji: string, desc: string)
  datatype PersonalityCard = PersonalityCard(typeName: string, emoji: string, color: string)

  function ToAnimalCard(a: AnimalType): AnimalCard { AnimalCard(a.typeName, a.emoji, a.desc) }
  function ToPersonalityCard(p: PersonalityType): PersonalityCard { PersonalityCard(p.typeName, p.emoji, p.color) }

  datatype Details = Details(
    voiceType: string,
    animal: AnimalCard,
    personality: PersonalityCard,
    job: string,
    jobCandidates: seq<Candidate>,
    specialTag: string,
    voiceColor: string)

  const FALLBACK_JOB: string := "라디오 DJ"

  /** `randomAnimal` and `randomPersonality` stand for the `random.choice`
      defaults, which Python evaluates before `next` runs. */
  method AnalyzeDetails(profile: set<Label>, features: Option<FeatureVector>, audio: Option<seq<bv8>>,
                        md5: seq<bv8> -> nat, strHash: string -> int,
                        randomAnimal: AnimalType, randomPersonality: PersonalityType)
    returns (d: Details)
    ensures d.voiceType == VoiceTypeOf(profile)
    ensures d.animal == ToAnimalCard(FindAnimal(ANIMAL_TYPES, AnimalOf(profile), randomAnimal))
    ensures d.animal.typeName == AnimalOf(profile)
    ensures d.personality == ToPersonalityCard(FindPersonality(PERSONALITY_TYPES, PersonalityOf(profile), randomPersonality))
    ensures d.personality.typeName == PersonalityOf(profile)
    ensures d.specialTag == TagOf(profile) && d.specialTag in SPECIAL_TAGS
    ensures d.voiceColor == ColorOf(profile) && d.voiceColor in VOICE_COLORS
    ensures features.None? ==> d.job == FALLBACK_JOB && d.jobCandidates == [Candidate(FALLBACK_JOB, 0.0)]
    ensures features.Some? ==>
              && d.jobCandidates == RankedCandidates(JobScores(profile, TempoOf(features.value)), audio, md5, strHash)
              && |d.jobCandidates| == 3
              && d.job == d.jobCandidates[0].job
  {
    var voiceType := Lookup(VOICE_TYPES, DEFAULT_VOICE_TYPE, profile);

    var animalName := Lookup(ANIMALS, DEFAULT_ANIMAL, profile);
    var animal := FindAnimal(ANIMAL_TYPES, animalName, randomAnimal);
    AnimalAlwaysListed(profile, randomAnimal, randomAnimal);

    var personalityName := Lookup(PERSONALITIES, DEFAULT_PERSONALITY, profile);
    var personality := FindPersonality(PERSONALITY_TYPES, personalityName, randomPersonality);
    PersonalityAlwaysListed(profile, randomPersonality, randomPersonality);

    var job, candidates;
    if features.Some? {
      job, candidates := SelectJobWithScores(profile, features.value, audio, md5, strHash);
    } else {
      job := FALLBACK_JOB;
      candidates := [Candidate(FALLBACK_JOB, 0.0)];
    }

    var tag := Lookup(TAGS, DEFAULT_TAG, profile);
    TagListed(profile);
    var color := Lookup(COLORS, DEFAULT_COLOR, profile);
    ColorListed(profile);

    d := Details(voiceType, ToAnimalCard(animal), ToPersonalityCard(personality), job, candidates, tag, color);
  }
}
