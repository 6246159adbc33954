/**
 * The value-level part of the sound-awareness component: the clamped
 * detection level, the three alert tiers derived from it, the indicator
 * colour set on entering a tier, and the curiosity decision made when a
 * sound is heard. The classes in module SoundDetection are specified by
 * the functions here.
 */
module Awareness {

  /** The alert tiers, in the order the component declares them. */
  datatype AlertLevel = HIGH | MED | LOW

  /** Debug indicator colours; Clear is the value of a colour nobody has set yet. */
  datatype Color = Clear | Red | Yellow | Green

  /** A world position; only ever passed through to the navigation side. */
  datatype Vec3 = Vec3(x: real, y: real, z: real)

  /** Engine-side effects, recorded instead of performed. */
  datatype Effect =
    | Entered(tier: AlertLevel)   // ChangeState ran for this tier
    | Curious                     // the enemy controller was switched to CURIOUS
    | Destination(target: Vec3)   // the navigation agent was sent to target

  /** Per-agent settings, fixed once the agent exists. */
  datatype Config = Config(
    detectionPerSecDecrease: real,
    soundDetectionSensitivity: real,
    raiseToHighThreshold: real,
    raiseToMedThreshold: real,
    highCuriosityThreshold: real,
    medCuriosityThreshold: real,
    lowCuriosityThreshold: real,
    initState: AlertLevel)

  const MAX_DETECTION_LEVEL: real := 100.0

  /** The settings an agent gets when none is edited. */
  const DefaultConfig: Config := Config(1.0, 1.0, 80.0, 40.0, 0.2, 0.4, 0.6, LOW)

  /** What ChangeAwareness reads and writes: level, tier and indicator colour. */
  datatype Status = Status(level: real, state: AlertLevel, color: Color)

  /** Orders the tiers from least to most alert. */
  function Rank(t: AlertLevel): nat {
    match t
    case LOW => 0
    case MED => 1
    case HIGH => 2
  }

  /** Clamping of a new detection level into [0, MAX_DETECTION_LEVEL]. */
  function ClampLevel(v: real): (r: real)
    ensures 0.0 <= r <= MAX_DETECTION_LEVEL
    ensures 0.0 <= v <= MAX_DETECTION_LEVEL ==> r == v
    ensures v < 0.0 ==> r == 0.0
    ensures v > MAX_DETECTION_LEVEL ==> r == MAX_DETECTION_LEVEL
  {
    if v < 0.0 then 0.0 else if v > MAX_DETECTION_LEVEL then MAX_DETECTION_LEVEL else v
  }

  /** The tier a detection level stands for: the reference definition. */
  function TierOf(level: real, cfg: Config): AlertLevel {
    if level < cfg.raiseToMedThreshold then LOW
    else if level < cfg.raiseToHighThreshold then MED
    else HIGH
  }

  /** The colour shown on entering a tier. */
  function Indicator(t: AlertLevel): Color {
    match t
    case HIGH => Red
    case MED => Yellow
    case LOW => Green
  }

  /** ChangeState on values: store the tier and set its indicator colour. */
  function Enter(s: Status, t: AlertLevel): (r: Status)
    ensures r.level == s.level && r.state == t && r.color == Indicator(t)
  {
    s.(state := t, color := Indicator(t))
  }

  /**
   * ChangeAwareness on values, in the component's own shape: clamp, then
   * walk the two thresholds and enter the derived tier only if the agent
   * is not already in it.
   */
  function Adjust(s: Status, amount: real, cfg: Config): (r: Status)
    ensures r.level == ClampLevel(s.level + amount)
    ensures 0.0 <= r.level <= MAX_DETECTION_LEVEL
    ensures r.state == TierOf(r.level, cfg)
    ensures r.state == s.state ==> r.color == s.color
    ensures r.state != s.state ==> r.color == Indicator(r.state)
  {
    var level := ClampLevel(s.level + amount);
    var t := s.(level := level);
    if level < cfg.raiseToMedThreshold then
      (if s.state != LOW then Enter(t, LOW) else t)
    else if level < cfg.raiseToHighThreshold then
      (if s.state != MED then Enter(t, MED) else t)
    else if s.state != HIGH then Enter(t, HIGH)
    else t
  }

  /** The entry effect of a tier change: one Entered event, or none when the tier stays. */
  function EntryEffects(before: AlertLevel, after: AlertLevel): seq<Effect> {
    if before == after then [] else [Entered(after)]
  }

  /** The curiosity threshold of a tier. */
  function CuriosityThreshold(cfg: Config, t: AlertLevel): real {
    match t
    case HIGH => cfg.highCuriosityThreshold
    case MED => cfg.medCuriosityThreshold
    case LOW => cfg.lowCuriosityThreshold
  }

  /** Loudness over distance: the louder a sound, the farther it carries. */
  function Ratio(loudness: real, distance: real): real
    requires distance > 0.0
  {
    loudness / distance
  }

  /** The status after an agent hears a sound that reaches it with the given loudness/distance ratio. */
  function Hear(s: Status, ratio: real, cfg: Config): Status {
    Adjust(s, ratio * cfg.soundDetectionSensitivity, cfg)
  }

  /** Whether the sound makes the agent curious: judged in the tier it is in after the update. */
  predicate TriggersCuriosity(s: Status, ratio: real, cfg: Config) {
    ratio >= CuriosityThreshold(cfg, Hear(s, ratio, cfg).state)
  }

  /** Every effect of hearing a sound from position loc, in order. */
  function SoundEffects(s: Status, loc: Vec3, ratio: real, cfg: Config): seq<Effect> {
    EntryEffects(s.state, Hear(s, ratio, cfg).state)
    + (if TriggersCuriosity(s, ratio, cfg) then [Curious, Destination(loc)] else [])
  }

  /** A run of ChangeAwareness calls (frames of decay, sounds heard), one amount each. */
  function Replay(s: Status, amounts: seq<real>, cfg: Config): Status
    decreases |amounts|
  {
    if amounts == [] then s else Replay(Adjust(s, amounts[0], cfg), amounts[1..], cfg)
  }

  /** The entry effects a run of ChangeAwareness calls emits. */
  function ReplayEffects(s: Status, amounts: seq<real>, cfg: Config): seq<Effect>
    decreases |amounts|
  {
    if amounts == [] then []
    else
      var next := Adjust(s, amounts[0], cfg);
      EntryEffects(s.state, next.state) + ReplayEffects(next, amounts[1..], cfg)
  }

  // ---------------------------------------------------------------------
  // Tier derivation

  /** A higher detection level never yields a lower tier, whatever the thresholds. */
  lemma TierMonotone(lo: real, hi: real, cfg: Config)
    requires lo <= hi
    ensures Rank(TierOf(lo, cfg)) <= Rank(TierOf(hi, cfg))
  {
  }

  /** Nothing orders the two thresholds; when they are inverted the MED tier is never derived. */
  lemma InvertedThresholdsSkipMed(level: real, cfg: Config)
    requires cfg.raiseToHighThreshold <= cfg.raiseToMedThreshold
    ensures TierOf(level, cfg) != MED
  {
  }

  /** A second ChangeAwareness(0) changes nothing, so it enters no tier. */
  lemma AdjustByZeroIsIdempotent(s: Status, amount: real, cfg: Config)
    ensures Adjust(Adjust(s, amount, cfg), 0.0, cfg) == Adjust(s, amount, cfg)
    ensures EntryEffects(Adjust(s, amount, cfg).state, Adjust(Adjust(s, amount, cfg), 0.0, cfg).state) == []
  {
  }

  /**
   * A forced HIGH tier with a level below the high threshold is left by the
   * next ChangeAwareness that does not raise the level: a change by 0 or a
   * frame of decay.
   */
  lemma ForcedAlertCanRevert(s: Status, amount: real, cfg: Config)
    requires s.state == HIGH
    requires 0.0 <= s.level <= MAX_DETECTION_LEVEL && s.level < cfg.raiseToHighThreshold
    requires amount <= 0.0
    ensures Adjust(s, amount, cfg).level <= s.level
    ensures amount == 0.0 ==> Adjust(s, amount, cfg).level == s.level
    ensures Adjust(s, amount, cfg).state != HIGH
    ensures EntryEffects(s.state, Adjust(s, amount, cfg).state) == [Entered(Adjust(s, amount, cfg).state)]
  {
  }

  // ---------------------------------------------------------------------
  // Decay

  /** One frame of decay never raises the level and never takes it below 0. */
  lemma DecayNeverRaises(s: Status, rate: real, dt: real, cfg: Config)
    requires 0.0 <= s.level <= MAX_DETECTION_LEVEL
    requires rate >= 0.0 && dt >= 0.0
    ensures 0.0 <= Adjust(s, rate * dt * -1.0, cfg).level <= s.level
  {
    assert rate * dt >= 0.0;
  }

  /** A run of ChangeAwareness calls ends inside [0, MAX_DETECTION_LEVEL] if it starts there. */
  lemma {:induction false} ReplayBounded(s: Status, amounts: seq<real>, cfg: Config)
    requires 0.0 <= s.level <= MAX_DETECTION_LEVEL
    ensures 0.0 <= Replay(s, amounts, cfg).level <= MAX_DETECTION_LEVEL
    decreases |amounts|
  {
    if amounts != [] {
      ReplayBounded(Adjust(s, amounts[0], cfg), amounts[1..], cfg);
    }
  }

  /** After at least one ChangeAwareness call the stored tier is the derived one. */
  lemma {:induction false} ReplayTierConsistent(s: Status, amounts: seq<real>, cfg: Config)
    requires amounts != []
    ensures Replay(s, amounts, cfg).state == TierOf(Replay(s, amounts, cfg).level, cfg)
    decreases |amounts|
  {
    if |amounts| > 1 {
      ReplayTierConsistent(Adjust(s, amounts[0], cfg), amounts[1..], cfg);
    }
  }

  /** Frames of pure decay never raise the level and never take it below 0. */
  lemma {:induction false} ReplayDecayNeverRaises(s: Status, amounts: seq<real>, cfg: Config)
    requires 0.0 <= s.level <= MAX_DETECTION_LEVEL
    requires forall i :: 0 <= i < |amounts| ==> amounts[i] <= 0.0
    ensures 0.0 <= Replay(s, amounts, cfg).level <= s.level
    decreases |amounts|
  {
    if amounts != [] {
      var next := Adjust(s, amounts[0], cfg);
      assert next.level <= s.level;
      ReplayDecayNeverRaises(next, amounts[1..], cfg);
    }
  }

  /**
   * No redundant tier entry: over any run of ChangeAwareness calls every
   * Entered event names a tier different from the one before it, the
   * last one names the final tier, and no event at all means the tier
   * never moved.
   */
  lemma {:induction false} ReplayEntriesChangeTier(s: Status, amounts: seq<real>, cfg: Config)
    ensures var e := ReplayEffects(s, amounts, cfg);
      && (forall i :: 0 <= i < |e| ==> e[i].Entered?)
      && (forall i :: 0 < i < |e| ==> e[i - 1] != e[i])
      && (e == [] ==> Replay(s, amounts, cfg).state == s.state)
      && (e != [] ==> e[0] != Entered(s.state) && e[|e| - 1] == Entered(Replay(s, amounts, cfg).state))
    decreases |amounts|
  {
    if amounts != [] {
      var next := Adjust(s, amounts[0], cfg);
      ReplayEntriesChangeTier(next, amounts[1..], cfg);
      var rest := ReplayEffects(next, amounts[1..], cfg);
      assert ReplayEffects(s, amounts, cfg) == EntryEffects(s.state, next.state) + rest;
      assert Replay(s, amounts, cfg) == Replay(next, amounts[1..], cfg);
    }
  }

  /** Raise to MED with defaults, then decay back below the MED threshold: the tier returns to LOW. */
  lemma TierRisesAndFallsScenario()
    ensures var s0 := Status(0.0, LOW, Green);
      var s1 := Hear(s0, Ratio(50.0, 1.0), DefaultConfig);
      && s1 == Status(50.0, MED, Yellow)
      && Replay(s1, [-5.0, -5.0, -5.0], DefaultConfig) == Status(35.0, LOW, Green)
      && ReplayEffects(s1, [-5.0, -5.0, -5.0], DefaultConfig) == [Entered(LOW)]
  {
    var s1 := Status(50.0, MED, Yellow);
    assert Adjust(s1, -5.0, DefaultConfig) == Status(45.0, MED, Yellow);
    assert Adjust(Status(45.0, MED, Yellow), -5.0, DefaultConfig) == Status(40.0, MED, Yellow);
    assert Adjust(Status(40.0, MED, Yellow), -5.0, DefaultConfig) == Status(35.0, LOW, Green);
  }

  // ---------------------------------------------------------------------
  // Curiosity

  /** With thresholds ordered as in the defaults, a more alert tier needs a smaller ratio. */
  lemma ThresholdAntitone(cfg: Config, lower: AlertLevel, higher: AlertLevel)
    requires cfg.highCuriosityThreshold <= cfg.medCuriosityThreshold <= cfg.lowCuriosityThreshold
    requires Rank(lower) <= Rank(higher)
    ensures CuriosityThreshold(cfg, higher) <= CuriosityThreshold(cfg, lower)
  {
  }

  /** With non-negative sensitivity, a larger ratio never leaves a lower detection level. */
  lemma HearLevelMonotone(s: Status, lo: real, hi: real, cfg: Config)
    requires lo <= hi
    requires cfg.soundDetectionSensitivity >= 0.0
    ensures Hear(s, lo, cfg).level <= Hear(s, hi, cfg).level
  {
    var sens := cfg.soundDetectionSensitivity;
    MultiplyMonotone(lo, hi, sens);
    ClampMonotone(s.level + lo * sens, s.level + hi * sens);
  }

  lemma ClampMonotone(a: real, b: real)
    requires a <= b
    ensures ClampLevel(a) <= ClampLevel(b)
  {
  }

  lemma DivideMonotone(a: real, b: real, d: real)
    requires d > 0.0 && a <= b
    ensures a / d <= b / d
  {
    assert b / d - a / d == (b - a) / d;
  }

  lemma MultiplyMonotone(a: real, b: real, k: real)
    requires k >= 0.0 && a <= b
    ensures a * k <= b * k
  {
    assert b * k - a * k == (b - a) * k;
  }

  /**
   * With non-negative sensitivity and curiosity thresholds ordered as in the
   * defaults, a sound that makes an agent curious still does so when louder.
   */
  lemma LouderSoundStillTriggers(s: Status, quiet: real, loud: real, distance: real, cfg: Config)
    requires distance > 0.0 && quiet <= loud
    requires cfg.soundDetectionSensitivity >= 0.0
    requires cfg.highCuriosityThreshold <= cfg.medCuriosityThreshold <= cfg.lowCuriosityThreshold
    requires TriggersCuriosity(s, Ratio(quiet, distance), cfg)
    ensures TriggersCuriosity(s, Ratio(loud, distance), cfg)
  {
    var rq, rl := Ratio(quiet, distance), Ratio(loud, distance);
    DivideMonotone(quiet, loud, distance);
    var q, l := Hear(s, rq, cfg), Hear(s, rl, cfg);
    HearLevelMonotone(s, rq, rl, cfg);
    TierMonotone(q.level, l.level, cfg);
    ThresholdAntitone(cfg, q.state, l.state);
  }

  /** Curiosity is judged in the tier after the update: this sound is too faint for MED but the update reaches HIGH. */
  lemma PostUpdateTierDecidesScenario()
    ensures var s := Status(79.8, MED, Yellow);
      && Ratio(3.0, 10.0) < CuriosityThreshold(DefaultConfig, s.state)
      && Hear(s, Ratio(3.0, 10.0), DefaultConfig).state == HIGH
      && TriggersCuriosity(s, Ratio(3.0, 10.0), DefaultConfig)
  {
  }

  /** Loudness 5 at distance 10 (ratio 0.5) with defaults: ignored at rest in LOW, investigated from MED. */
  lemma HalfRatioScenario(loc: Vec3)
    ensures !TriggersCuriosity(Status(0.0, LOW, Green), Ratio(5.0, 10.0), DefaultConfig)
    ensures SoundEffects(Status(0.0, LOW, Green), loc, Ratio(5.0, 10.0), DefaultConfig) == []
    ensures SoundEffects(Status(45.0, MED, Yellow), loc, Ratio(5.0, 10.0), DefaultConfig) == [Curious, Destination(loc)]
  {
  }
}
