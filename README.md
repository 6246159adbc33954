# Sound-awareness model of the Planet44 enemy behaviour

This project models `SoundDetectionBehavior`, the Unity component that makes an enemy aware of the player through sound. Each enemy keeps a detection level between 0 and 100. The level decays every frame and rises when the enemy hears a sound. It is mapped onto one of three alert tiers (`HIGH`, `MED`, `LOW`) by two thresholds. Entering a tier sets a debug indicator colour. A sound loud enough for the enemy's tier makes the enemy curious: its controller switches to CURIOUS and its navigation agent heads for the sound. A static list holds every enemy that has this component. A sound is fanned out to everyone on that list, and the whole list can be reset.

Layout:

- `awareness.dfy`, module `Awareness`: the value-level specification. It holds the configuration (`Config`) and the fields one awareness update touches (`Status`). It defines the clamping, the reference tier function `TierOf`, and `Adjust`, which is `ChangeAwareness` written on values in the component's own branch structure. It also holds the curiosity decision (`Hear`, `TriggersCuriosity`, `SoundEffects`) and runs of several updates (`Replay`, `ReplayEffects`), with the lemmas about all of these.
- `sound_detection.dfy`, module `SoundDetection`: the component as objects. Class `SoundDetectionBehavior` is one enemy. Its methods update `currentDetectionLevel`, `aIState` and `testColor` in place, and each is proved against the functions of `Awareness`. Class `AgentRegistry` stands for the static `agents` list and the static `player` reference. It holds the list as a `seq` field that `Awake` and `OnDestroy` reassign. Its `AlertAgentsToSound` and `ResetAgents` loop over the list and update each agent.

Engine calls are not performed. Each agent records them in a ghost `effects` log, in call order. There are three kinds of entry:

- `Entered(tier)`: `ChangeState` ran for that tier, including its colour change.
- `Curious`: the enemy controller was set to CURIOUS.
- `Destination(p)`: the navigation agent was sent to `p`.

The registry's ghost `deliveries` log records which agents a sound was handed to, in order.

Three facts about the component shape the model:

- The two tier thresholds are not ordered by anything, and the same two thresholds decide both a rise and a fall in tier; there is no hysteresis band (`InvertedThresholdsSkipMed`).
- A sound's effect is its loudness divided by its distance, so a sound at distance 0 divides by zero. The model requires a positive distance (see Left out).
- The stored tier is not always the tier the level derives. `AlertAgentToPlayer` forces HIGH without touching the level, and `InitAI` and `ResetAgents` enter the configured initial tier at level 0 without deriving the tier from the level. The next awareness change re-derives it (`ForcedAlertCanRevert`, `ReplayTierConsistent`).

## Model

| member | source | states |
|---|---|---|
| Awareness.ClampLevel | Project3/Assets/Scripts/EnemyScripts/SoundDetectionBehavior.cs:228 | the new level always lies in [0, 100]; a level already in range is kept; a level below 0 becomes 0 and one above 100 becomes 100 |
| Awareness.Enter | Project3/Assets/Scripts/EnemyScripts/SoundDetectionBehavior.cs:118-142 | entering a tier keeps the level, stores the tier and shows that tier's colour (red, yellow, green) |
| Awareness.Adjust | Project3/Assets/Scripts/EnemyScripts/SoundDetectionBehavior.cs:225-248 | one awareness change, whatever the amount: the level is the clamped sum and lies in [0, 100]; the stored tier equals the reference tier of the new level; the colour stays when the tier stays and is the new tier's colour when the tier changes |
| Awareness.TierMonotone | Project3/Assets/Scripts/EnemyScripts/SoundDetectionBehavior.cs:231-247 | a higher level never derives a lower tier, for any two thresholds |
| Awareness.InvertedThresholdsSkipMed | Project3/Assets/Scripts/EnemyScripts/SoundDetectionBehavior.cs:46-47 | nothing orders the thresholds; when the high threshold is not above the medium one, MED is never derived |
| Awareness.AdjustByZeroIsIdempotent | Project3/Assets/Scripts/EnemyScripts/SoundDetectionBehavior.cs:232-247 | a second change by 0 leaves the status as it was and enters no tier |
| Awareness.ForcedAlertCanRevert | Project3/Assets/Scripts/EnemyScripts/SoundDetectionBehavior.cs:173-178 | after a forced HIGH, a level below the high threshold makes the next change by 0 or by a decay amount leave HIGH, with one entry effect; the level does not rise, and a change by 0 keeps it |
| Awareness.DecayNeverRaises | Project3/Assets/Scripts/EnemyScripts/SoundDetectionBehavior.cs:111 | one frame of decay with non-negative rate and frame time neither raises the level nor takes it below 0 |
| Awareness.ReplayBounded | Project3/Assets/Scripts/EnemyScripts/SoundDetectionBehavior.cs:225-228 | any run of awareness changes that starts in [0, 100] stays there |
| Awareness.ReplayTierConsistent | Project3/Assets/Scripts/EnemyScripts/SoundDetectionBehavior.cs:231-247 | after at least one awareness change, the stored tier is the tier the level derives |
| Awareness.ReplayDecayNeverRaises | Project3/Assets/Scripts/EnemyScripts/SoundDetectionBehavior.cs:110-111 | any run of frames with non-positive changes ends between 0 and the starting level |
| Awareness.ReplayEntriesChangeTier | Project3/Assets/Scripts/EnemyScripts/SoundDetectionBehavior.cs:232-247 | no redundant tier entry over any run: each entry names a tier other than the previous one; the first differs from the starting tier; the last is the final tier; no entry means the tier never moved |
| Awareness.TierRisesAndFallsScenario | Project3/Assets/Scripts/EnemyScripts/SoundDetectionBehavior.cs:225-247 | with default thresholds (40, 80), a sound raising the level to 50 enters MED; three frames of decay to 35 enter LOW, with exactly one entry |
| Awareness.ThresholdAntitone | Project3/Assets/Scripts/EnemyScripts/SoundDetectionBehavior.cs:58-65 | with curiosity thresholds ordered as in the defaults (0.2, 0.4, 0.6), a more alert tier never needs a larger ratio |
| Awareness.HearLevelMonotone | Project3/Assets/Scripts/EnemyScripts/SoundDetectionBehavior.cs:194-198 | with non-negative sensitivity, a larger loudness/distance ratio never leaves a lower level |
| Awareness.LouderSoundStillTriggers | Project3/Assets/Scripts/EnemyScripts/SoundDetectionBehavior.cs:188-216 | with non-negative sensitivity and ordered curiosity thresholds, a sound that makes the agent curious still does when louder |
| Awareness.PostUpdateTierDecidesScenario | Project3/Assets/Scripts/EnemyScripts/SoundDetectionBehavior.cs:197-215 | curiosity is judged in the tier after the update: a ratio of 0.3 is below MED's threshold, but it lifts a level of 79.8 into HIGH, where it triggers |
| Awareness.HalfRatioScenario | Project3/Assets/Scripts/EnemyScripts/SoundDetectionBehavior.cs:188-216 | loudness 5 at distance 10 with defaults triggers no curiosity and enters no tier for a resting LOW agent; a MED agent becomes curious and heads for the sound |
| SoundDetection.SoundDetectionBehavior.constructor | Project3/Assets/Scripts/EnemyScripts/SoundDetectionBehavior.cs:36-69 | before Awake the level is 0, the tier is HIGH (the enumeration's first value), the colour is unset and no effect has happened |
| SoundDetection.SoundDetectionBehavior.CurrentDetectionLevel | Project3/Assets/Scripts/EnemyScripts/SoundDetectionBehavior.cs:39-42 | the public level lies in [0, 1] and is the stored level divided by 100 |
| SoundDetection.SoundDetectionBehavior.ChangeState | Project3/Assets/Scripts/EnemyScripts/SoundDetectionBehavior.cs:118-142 | stores the tier, sets its colour and records one entry, even when the tier is unchanged |
| SoundDetection.SoundDetectionBehavior.ChangeAwareness | Project3/Assets/Scripts/EnemyScripts/SoundDetectionBehavior.cs:225-248 | the new status is the value-level change applied to the old; the level is in [0, 100]; the tier is the derived tier; an entry is recorded exactly when the tier changed |
| SoundDetection.SoundDetectionBehavior.InitAI | Project3/Assets/Scripts/EnemyScripts/SoundDetectionBehavior.cs:180-185 | level 0, the configured initial tier and its colour, and one entry for that tier |
| SoundDetection.SoundDetectionBehavior.Update | Project3/Assets/Scripts/EnemyScripts/SoundDetectionBehavior.cs:94-112 | one frame is an awareness change by minus the decay rate times the frame time; with non-negative rate and frame time the level does not rise |
| SoundDetection.SoundDetectionBehavior.TriggerCuriosity | Project3/Assets/Scripts/EnemyScripts/SoundDetectionBehavior.cs:218-222 | records the switch to CURIOUS, then the destination, and leaves level, tier and colour alone |
| SoundDetection.SoundDetectionBehavior.AlertAgentToPlayer | Project3/Assets/Scripts/EnemyScripts/SoundDetectionBehavior.cs:173-178 | heads for the player and forces HIGH; level and colour stay, and no tier entry is recorded |
| SoundDetection.SoundDetectionBehavior.AlertAgentToSound | Project3/Assets/Scripts/EnemyScripts/SoundDetectionBehavior.cs:188-216 | the level rises by ratio times sensitivity through the awareness change; curiosity is recorded iff the ratio reaches the threshold of the tier after the change |
| SoundDetection.RemoveFirst | Project3/Assets/Scripts/EnemyScripts/SoundDetectionBehavior.cs:258 | removing an agent that is not listed changes nothing; removing a listed one shortens the list by one |
| SoundDetection.RemoveFirstMultiset | Project3/Assets/Scripts/EnemyScripts/SoundDetectionBehavior.cs:258 | removal takes out exactly one copy of the agent when it is listed, and nothing else |
| SoundDetection.RemoveFirstAt | Project3/Assets/Scripts/EnemyScripts/SoundDetectionBehavior.cs:258 | removal cuts the list at the first occurrence and keeps the order of everything else |
| SoundDetection.AgentRegistry.constructor | Project3/Assets/Scripts/EnemyScripts/SoundDetectionBehavior.cs:20 | the list starts empty, and the player has not been looked up yet |
| SoundDetection.AgentRegistry.Awake | Project3/Assets/Scripts/EnemyScripts/SoundDetectionBehavior.cs:71-91 | the player is looked up only while not yet found; a failed lookup leaves the list and the agent untouched; otherwise the agent is appended and initialised |
| SoundDetection.AgentRegistry.OnDestroy | Project3/Assets/Scripts/EnemyScripts/SoundDetectionBehavior.cs:255-259 | the agent is removed from the list by list removal, and afterwards it is no longer listed |
| SoundDetection.AgentRegistry.AlertAgentsToSound | Project3/Assets/Scripts/EnemyScripts/SoundDetectionBehavior.cs:149-155 | every listed agent hears the sound exactly once, in list order, at its own distance; the list is unchanged |
| SoundDetection.AgentRegistry.ResetAgents | Project3/Assets/Scripts/EnemyScripts/SoundDetectionBehavior.cs:160-168 | every listed agent gets level 0 and its own initial tier and colour, with one entry; the list is unchanged |

## Left out

- `Project3/Assets/Scripts/UI/PauseMenu.cs` is not part of this model. Every action in it is a call into the engine: activating the menu object, setting the time scale, loading a scene, quitting.
- SoundDetection.SoundDetectionBehavior.AlertAgentToSound: requires a positive distance. At distance 0 the component's single-precision division gives infinity or NaN, which `real` cannot represent.
- SoundDetection.AgentRegistry.AlertAgentsToSound: takes each agent's distance to the sound as a parameter. The component computes it with `Vector3.Distance` from each agent's transform.
- Arithmetic is exact (`real`): single-precision rounding is not modelled. This affects the sum before clamping, the ratio, and the `* 0.01` scaling in `CurrentDetectionLevel`.
- The frame time comes from the engine clock. `Update` takes it as a parameter.
- `Awake`'s component lookups (`EnemyController`, `NavMeshAgent`) are not modelled. Of the player lookup, only its outcome is kept: whether an object with the player tag exists. A player object that is destroyed later (for example by a scene reload) is not modelled: the component's engine null test would then look the player up again, but `playerFound` never goes back to false. The exception becomes `ok == false`. The player's position is a parameter of `AlertAgentToPlayer`.
- The per-state switch at the top of `Update` is not modelled, because every branch is empty. `OnDrawGizmos`, which only draws the indicator colour, and the `print` of the ratio are not modelled either.
- The `CurrentAiState` getter is not modelled as a member, because it only returns `aIState`. The model reads that field directly.
- AgentRegistry requires distinct agents. Unity runs `Awake` once per component, so an agent is never added twice, and `Awake` requires the agent not to be listed yet.
- The list cannot change while a sound is being fanned out, because no modelled operation calls back into the registry. The component's enumerator would throw on such a change; that case is not modelled.
- Order across agents during a fan-out is recorded only in the ghost `deliveries` log. Agents share no state, so nothing else can observe it.
