/**
 * The sound-detection component as objects: one SoundDetectionBehavior per
 * enemy, whose methods update its detection level, alert tier and indicator
 * colour in place, and the list of every live agent that sounds are fanned
 * out to (a static list in the component, an AgentRegistry object here).
 * Engine calls are recorded in each agent's ghost effects log.
 */
module SoundDetection {
  import opened Awareness

  /** One enemy's awareness of the player. */
  class SoundDetectionBehavior {
    const cfg: Config
    var currentDetectionLevel: real
    var aIState: AlertLevel
    var testColor: Color
    /** The engine calls made so far, in order. */
    ghost var effects: seq<Effect>

    /** The detection level stays within [0, MAX_DETECTION_LEVEL]. */
    ghost predicate Valid()
      reads this
    {
      0.0 <= currentDetectionLevel <= MAX_DETECTION_LEVEL
    }

    /** The fields ChangeAwareness reads and writes, as one value. */
    function Current(): Status
      reads this
    {
      Status(currentDetectionLevel, aIState, testColor)
    }

    /**
     * The component before Awake: every field at its default, which for
     * the tier is HIGH (the first value of the enumeration).
     */
    constructor (cfg: Config)
      ensures this.cfg == cfg && Valid()
      ensures Current() == Status(0.0, HIGH, Clear) && effects == []
    {
      this.cfg := cfg;
      currentDetectionLevel := 0.0;
      aIState := HIGH;
      testColor := Clear;
      effects := [];
    }

    /** The detection level scaled to [0, 1]. */
    function CurrentDetectionLevel(): (r: real)
      reads this
      requires Valid()
      ensures 0.0 <= r <= 1.0
      ensures r * MAX_DETECTION_LEVEL == currentDetectionLevel
    {
      currentDetectionLevel * 0.01
    }

    /** Stores the new tier and shows its colour; runs even when the tier does not change. */
    method ChangeState(newState: AlertLevel)
      modifies this
      ensures Current() == Enter(old(Current()), newState)
      ensures effects == old(effects) + [Entered(newState)]
    {
      match newState {
        case HIGH => testColor := Red;
        case MED => testColor := Yellow;
        case LOW => testColor := Green;
      }
      aIState := newState;
      effects := effects + [Entered(newState)];
    }

    /**
     * Adds amount to the detection level, clamped, and enters the tier the
     * new level stands for unless the agent is already in it.
     */
    method ChangeAwareness(amount: real)
      modifies this
      ensures Valid()
      ensures Current() == Adjust(old(Current()), amount, cfg)
      ensures aIState == TierOf(currentDetectionLevel, cfg)
      ensures effects == old(effects) + EntryEffects(old(aIState), aIState)
    {
      currentDetectionLevel := ClampLevel(currentDetectionLevel + amount);
      if currentDetectionLevel < cfg.raiseToMedThreshold {
        if aIState != LOW {
          ChangeState(LOW);
        }
      } else if currentDetectionLevel < cfg.raiseToHighThreshold {
        if aIState != MED {
          ChangeState(MED);
        }
      } else if aIState != HIGH {
        ChangeState(HIGH);
      }
    }

    /** Level 0 and the configured initial tier, entered unconditionally. */
    method InitAI()
      modifies this
      ensures Valid()
      ensures Current() == Status(0.0, cfg.initState, Indicator(cfg.initState))
      ensures effects == old(effects) + [Entered(cfg.initState)]
    {
      currentDetectionLevel := 0.0;
      ChangeState(cfg.initState);
    }

    /** One frame: the level decays by detectionPerSecDecrease per second of dt. */
    method Update(dt: real)
      modifies this
      ensures Valid()
      ensures Current() == Adjust(old(Current()), cfg.detectionPerSecDecrease * dt * -1.0, cfg)
      ensures effects == old(effects) + EntryEffects(old(aIState), aIState)
      ensures old(Valid()) && cfg.detectionPerSecDecrease >= 0.0 && dt >= 0.0 ==>
                currentDetectionLevel <= old(currentDetectionLevel)
    {
      ghost var before := Current();
      ChangeAwareness(cfg.detectionPerSecDecrease * dt * -1.0);
      if 0.0 <= before.level <= MAX_DETECTION_LEVEL && cfg.detectionPerSecDecrease >= 0.0 && dt >= 0.0 {
        DecayNeverRaises(before, cfg.detectionPerSecDecrease, dt, cfg);
      }
    }

    /** Switches the controller to CURIOUS and heads for the sound. */
    method TriggerCuriosity(alertLocation: Vec3)
      modifies this
      ensures Current() == old(Current())
      ensures effects == old(effects) + [Curious, Destination(alertLocation)]
    {
      effects := effects + [Curious, Destination(alertLocation)];
    }

    /**
     * Sends the agent to the player and forces the HIGH tier without
     * touching the detection level, the colour or the entry effect.
     */
    method AlertAgentToPlayer(playerPosition: Vec3)
      modifies this
      ensures currentDetectionLevel == old(currentDetectionLevel)
      ensures aIState == HIGH && testColor == old(testColor)
      ensures effects == old(effects) + [Destination(playerPosition)]
    {
      effects := effects + [Destination(playerPosition)];
      aIState := HIGH;
    }

    /**
     * Hears a sound of the given loudness from distance away: the level
     * rises by the loudness/distance ratio times the sensitivity, and the
     * agent becomes curious when the ratio reaches the threshold of the
     * tier it is in after that rise.
     */
    method AlertAgentToSound(alertLocation: Vec3, loudness: real, distance: real)
      requires distance > 0.0
      modifies this
      ensures Valid()
      ensures Current() == Hear(old(Current()), Ratio(loudness, distance), cfg)
      ensures effects == old(effects) + SoundEffects(old(Current()), alertLocation, Ratio(loudness, distance), cfg)
    {
      var ratio := loudness / distance;
      ghost var s0 := Current();
      var amount := ratio * cfg.soundDetectionSensitivity;
      assert Hear(s0, ratio, cfg) == Adjust(s0, amount, cfg);
      ChangeAwareness(amount);
      assert Current() == Adjust(s0, amount, cfg);
      assert Current() == Hear(s0, ratio, cfg);
      match aIState {
        case HIGH =>
          if ratio >= cfg.highCuriosityThreshold {
            TriggerCuriosity(alertLocation);
          }
        case MED =>
          if ratio >= cfg.medCuriosityThreshold {
            TriggerCuriosity(alertLocation);
          }
        case LOW =>
          if ratio >= cfg.lowCuriosityThreshold {
            TriggerCuriosity(alertLocation);
          }
      }
    }
  }

  /** No agent is listed twice. */
  ghost predicate Distinct<T>(s: seq<T>) {
    forall i, j :: 0 <= i < j < |s| ==> s[i] != s[j]
  }

  /** List removal: the first occurrence of x goes, everything else stays in order. */
  function RemoveFirst<T(==)>(s: seq<T>, x: T): (r: seq<T>)
    ensures x !in s ==> r == s
    ensures x in s ==> |r| == |s| - 1
  {
    if s == [] then []
    else if s[0] == x then s[1..]
    else [s[0]] + RemoveFirst(s[1..], x)
  }

  /** Removal takes out exactly one copy of x when there is one, and nothing else. */
  lemma {:induction false} RemoveFirstMultiset<T>(s: seq<T>, x: T)
    ensures multiset(RemoveFirst(s, x)) == multiset(s) - multiset{x}
  {
    if s != [] {
      assert s == [s[0]] + s[1..];
      if s[0] != x {
        RemoveFirstMultiset(s[1..], x);
      }
    }
  }

  /** RemoveFirst cuts the list exactly at the first occurrence. */
  lemma {:induction false} RemoveFirstAt<T>(s: seq<T>, x: T, k: nat)
    requires k < |s| && s[k] == x && x !in s[..k]
    ensures RemoveFirst(s, x) == s[..k] + s[k + 1..]
  {
    if k == 0 {
      assert s[..0] + s[1..] == s[1..];
    } else {
      assert s[0] in s[..k];
      var tail := s[1..];
      assert tail[..k - 1] == s[1..k];
      assert x !in tail[..k - 1];
      RemoveFirstAt(tail, x, k - 1);
      assert RemoveFirst(s, x) == [s[0]] + RemoveFirst(tail, x);
      assert tail[k..] == s[k + 1..];
      assert [s[0]] + s[1..k] == s[..k];
    }
  }

  /** Dropping one entry of a list without repeats leaves a list without repeats and without that entry. */
  lemma DropFromDistinct<T>(s: seq<T>, k: nat)
    requires Distinct(s) && k < |s|
    ensures s[k] !in s[..k]
    ensures Distinct(s[..k] + s[k + 1..])
    ensures s[k] !in s[..k] + s[k + 1..]
    ensures forall y :: y in s[..k] + s[k + 1..] ==> y in s
  {
    var r := s[..k] + s[k + 1..];
    assert forall i :: 0 <= i < |r| ==> r[i] == s[if i < k then i else i + 1];
  }

  /** The list of every agent in the scene, and whether the player has been found. */
  class AgentRegistry {
    var agents: seq<SoundDetectionBehavior>
    var playerFound: bool
    /** Every agent a sound has been delivered to, in delivery order. */
    ghost var deliveries: seq<SoundDetectionBehavior>

    ghost predicate Valid()
      reads this, agents
    {
      && Distinct(agents)
      && forall i :: 0 <= i < |agents| ==> agents[i].Valid()
    }

    constructor ()
      ensures Valid() && agents == [] && !playerFound && deliveries == []
    {
      agents := [];
      playerFound := false;
      deliveries := [];
    }

    /**
     * A new agent wakes up: the player is looked up once (the lookup fails
     * when no object carries the player tag, and then nothing else
     * happens), the agent joins the list and is initialised.
     */
    method Awake(agent: SoundDetectionBehavior, playerTagged: bool) returns (ok: bool)
      requires Valid() && agent !in agents
      modifies this, agent
      ensures Valid() && deliveries == old(deliveries)
      ensures ok == (old(playerFound) || playerTagged)
      ensures playerFound == ok
      ensures ok ==> agents == old(agents) + [agent]
      ensures ok ==> agent.Current() == Status(0.0, agent.cfg.initState, Indicator(agent.cfg.initState))
      ensures ok ==> agent.effects == old(agent.effects) + [Entered(agent.cfg.initState)]
      ensures !ok ==> agents == old(agents) && agent.Current() == old(agent.Current())
      ensures !ok ==> agent.effects == old(agent.effects)
    {
      if !playerFound {
        if !playerTagged {
          return false;
        }
        playerFound := true;
      }
      agents := agents + [agent];
      agent.InitAI();
      ok := true;
    }

    /** A destroyed agent leaves the list. */
    method OnDestroy(agent: SoundDetectionBehavior)
      requires Valid()
      modifies this
      ensures Valid()
      ensures playerFound == old(playerFound) && deliveries == old(deliveries)
      ensures agents == RemoveFirst(old(agents), agent)
      ensures agent !in agents
    {
      ghost var before := agents;
      if agent in agents {
        var k :| 0 <= k < |agents| && agents[k] == agent;
        DropFromDistinct(agents, k);
        RemoveFirstAt(agents, agent, k);
      }
      agents := RemoveFirst(agents, agent);
      forall i | 0 <= i < |agents| ensures agents[i].Valid() {
        assert agents[i] in before;
      }
    }

    /**
     * Fans a sound out: every listed agent hears it exactly once, at its own
     * distance (distances[i] for agents[i]); the list does not change.
     */
    method AlertAgentsToSound(alertLocation: Vec3, amplitude: real, distances: seq<real>)
      requires Valid()
      requires |distances| == |agents|
      requires forall i :: 0 <= i < |distances| ==> distances[i] > 0.0
      modifies this, agents
      ensures Valid() && agents == old(agents) && playerFound == old(playerFound)
      ensures deliveries == old(deliveries) + agents
      ensures forall i :: 0 <= i < |agents| ==>
                agents[i].Current() == Hear(old(agents[i].Current()), Ratio(amplitude, distances[i]), agents[i].cfg)
      ensures forall i :: 0 <= i < |agents| ==>
                agents[i].effects
                == old(agents[i].effects)
                   + SoundEffects(old(agents[i].Current()), alertLocation, Ratio(amplitude, distances[i]), agents[i].cfg)
    {
      var i := 0;
      while i < |agents|
        invariant 0 <= i <= |agents|
        invariant agents == old(agents) && playerFound == old(playerFound)
        invariant deliveries == old(deliveries) + agents[..i]
        invariant forall j :: 0 <= j < i ==> agents[j].Valid()
        invariant forall j :: 0 <= j < i ==>
                    agents[j].Current() == Hear(old(agents[j].Current()), Ratio(amplitude, distances[j]), agents[j].cfg)
        invariant forall j :: 0 <= j < i ==>
                    agents[j].effects
                    == old(agents[j].effects)
                       + SoundEffects(old(agents[j].Current()), alertLocation, Ratio(amplitude, distances[j]), agents[j].cfg)
        invariant forall j :: i <= j < |agents| ==>
                    agents[j].Valid() && agents[j].Current() == old(agents[j].Current())
                    && agents[j].effects == old(agents[j].effects)
      {
        agents[i].AlertAgentToSound(alertLocation, amplitude, distances[i]);
        deliveries := deliveries + [agents[i]];
        i := i + 1;
      }
      assert agents[..i] == agents;
    }

    /** Every listed agent goes back to level 0 and its own initial tier; the list does not change. */
    method ResetAgents()
      requires Valid()
      modifies agents
      ensures Valid() && agents == old(agents)
      ensures forall i :: 0 <= i < |agents| ==>
                agents[i].Current() == Status(0.0, agents[i].cfg.initState, Indicator(agents[i].cfg.initState))
      ensures forall i :: 0 <= i < |agents| ==>
                agents[i].effects == old(agents[i].effects) + [Entered(agents[i].cfg.initState)]
    {
      var i := 0;
      while i < |agents|
        invariant 0 <= i <= |agents|
        invariant forall j :: 0 <= j < |agents| ==> agents[j].Valid()
        invariant forall j :: 0 <= j < i ==>
                    agents[j].Current() == Status(0.0, agents[j].cfg.initState, Indicator(agents[j].cfg.initState))
        invariant forall j :: 0 <= j < i ==>
                    agents[j].effects == old(agents[j].effects) + [Entered(agents[j].cfg.initState)]
        invariant forall j :: i <= j < |agents| ==> agents[j].effects == old(agents[j].effects)
      {
        var agent := agents[i];
        agent.currentDetectionLevel := 0.0;
        agent.ChangeState(agent.cfg.initState);
        i := i + 1;
      }
    }
  }
}
