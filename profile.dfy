/** The feature vector the signal-processing stage hands over, and the
    profile classifier `get_voice_profile` (api/analyze.py:167-187), which
    buckets it into one label on each of four axes. */
module Profile {
  import opened Wrappers

  /** The `features` dictionary built at api/analyze.py:491-498. The keys
      "pitch_std_cents" and "tempo" may be absent in other callers, so they are
      optional here; `pitchStdHz` is the source's "pitch_std". */
  datatype FeatureVector = FeatureVector(
    pitch: real,
    energy: real,
    tempo: Option<real>,
    pitchStdHz: real,
    pitchStdCents: Option<real>,
    harmonicity: real)

  datatype Label =
    | HighPitch | MidPitch | LowPitch
    | HighEnergy | MidEnergy | LowEnergy
    | ClearVoice | SoftVoice | HuskyVoice
    | StableTone | DynamicTone

  datatype Axis = PitchAxis | EnergyAxis | ClarityAxis | StabilityAxis

  function AxisOf(l: Label): Axis {
    match l
    case HighPitch | MidPitch | LowPitch => PitchAxis
    case HighEnergy | MidEnergy | LowEnergy => EnergyAxis
    case ClearVoice | SoftVoice | HuskyVoice => ClarityAxis
    case StableTone | DynamicTone => StabilityAxis
  }

  // The classifier's cut points.
  const HIGH_PITCH_HZ: real := 180.0
  const LOW_PITCH_HZ: real := 130.0
  const HIGH_ENERGY: real := 0.75
  const LOW_ENERGY: real := 0.30
  const CLEAR_HNR_DB: real := 7.0
  const HUSKY_HNR_DB: real := 3.0
  const DYNAMIC_CENTS: real := 110.0
  const DYNAMIC_HZ: real := 35.0

  ghost predicate HasAxis(p: set<Label>, a: Axis) {
    exists l :: l in p && AxisOf(l) == a
  }

  /** A profile holds exactly one label on every axis. */
  ghost predicate OneLabelPerAxis(p: set<Label>) {
    && (forall a: Axis :: HasAxis(p, a))
    && (forall l1, l2 :: l1 in p && l2 in p && AxisOf(l1) == AxisOf(l2) ==> l1 == l2)
  }

  /** Pitch spread is judged in cents when they are known, in Hz otherwise. */
  predicate IsDynamic(f: FeatureVector) {
    match f.pitchStdCents
    case Some(c) => c > DYNAMIC_CENTS
    case None => f.pitchStdHz > DYNAMIC_HZ
  }

  function PitchLabel(pitch: real): Label {
    if pitch > HIGH_PITCH_HZ then HighPitch
    else if pitch < LOW_PITCH_HZ then LowPitch
    else MidPitch
  }

  function EnergyLabel(energy: real): Label {
    if energy > HIGH_ENERGY then HighEnergy
    else if energy < LOW_ENERGY then LowEnergy
    else MidEnergy
  }

  function ClarityLabel(hnr: real): Label {
    if hnr > CLEAR_HNR_DB then ClearVoice
    else if hnr < HUSKY_HNR_DB then HuskyVoice
    else SoftVoice
  }

  /** The profile of a feature vector. */
  function ProfileOf(f: FeatureVector): (p: set<Label>)
    ensures OneLabelPerAxis(p)
    ensures HighPitch in p <==> f.pitch > HIGH_PITCH_HZ
    ensures LowPitch in p <==> f.pitch < LOW_PITCH_HZ
    ensures MidPitch in p <==> LOW_PITCH_HZ <= f.pitch <= HIGH_PITCH_HZ
    ensures HighEnergy in p <==> f.energy > HIGH_ENERGY
    ensures LowEnergy in p <==> f.energy < LOW_ENERGY
    ensures MidEnergy in p <==> LOW_ENERGY <= f.energy <= HIGH_ENERGY
    ensures ClearVoice in p <==> f.harmonicity > CLEAR_HNR_DB
    ensures HuskyVoice in p <==> f.harmonicity < HUSKY_HNR_DB
    ensures SoftVoice in p <==> HUSKY_HNR_DB <= f.harmonicity <= CLEAR_HNR_DB
    ensures DynamicTone in p <==> IsDynamic(f)
    ensures StableTone in p <==> !IsDynamic(f)
  {
    var p := {PitchLabel(f.pitch), EnergyLabel(f.energy), ClarityLabel(f.harmonicity),
              if IsDynamic(f) then DynamicTone else StableTone};
    assert HasAxis(p, PitchAxis) && HasAxis(p, EnergyAxis) by {
      assert AxisOf(PitchLabel(f.pitch)) == PitchAxis;
      assert AxisOf(EnergyLabel(f.energy)) == EnergyAxis;
    }
    assert HasAxis(p, ClarityAxis) && HasAxis(p, StabilityAxis) by {
      assert AxisOf(ClarityLabel(f.harmonicity)) == ClarityAxis;
      assert AxisOf(if IsDynamic(f) then DynamicTone else StableTone) == StabilityAxis;
    }
    p
  }

  /** `get_voice_profile`: starts from the empty set and adds one label per axis. */
  method GetVoiceProfile(f: FeatureVector) returns (profile: set<Label>)
    ensures profile == ProfileOf(f)
  {
    profile := {};
    if f.pitch > HIGH_PITCH_HZ {
      profile := profile + {HighPitch};
    } else if f.pitch < LOW_PITCH_HZ {
      profile := profile + {LowPitch};
    } else {
      profile := profile + {MidPitch};
    }
    if f.energy > HIGH_ENERGY {
      profile := profile + {HighEnergy};
    } else if f.energy < LOW_ENERGY {
      profile := profile + {LowEnergy};
    } else {
      profile := profile + {MidEnergy};
    }
    if f.harmonicity > CLEAR_HNR_DB {
      profile := profile + {ClearVoice};
    } else if f.harmonicity < HUSKY_HNR_DB {
      profile := profile + {HuskyVoice};
    } else {
      profile := profile + {SoftVoice};
    }
    match f.pitchStdCents {
      case Some(c) =>
        profile := profile + {if c > DYNAMIC_CENTS then DynamicTone else StableTone};
      case None =>
        profile := profile + {if f.pitchStdHz > DYNAMIC_HZ then DynamicTone else StableTone};
    }
  }

  /** The two clarity labels of the dead ('soft_voice', 'clear_voice') tag rule
      never occur together. */
  lemma ClarityLabelsExclusive(f: FeatureVector)
    ensures !({SoftVoice, ClearVoice} <= ProfileOf(f))
  {
  }
}
