# Third-person character: movement state, stamina and camera zoom

This project models the gameplay logic of the TPS third-person character
(`ATPSCharacter`). The character is in one of three movement states: Aim,
Walk or Run. It carries a stamina gauge that starts at 1000. Every frame:

- in Run, it spends one stamina point while running is allowed;
- in Run, once running is not allowed, it is forced to Walk;
- in any other state, it regains one point per frame up to 1000.

Running is allowed while stamina is above 0 and the look and move
directions are less than 15 degrees apart. A state change recomputes the
maximum walk speed that the engine's movement component applies; entering
Run gives the run speed only when stamina is above 100 and the angle is
aligned. The mouse wheel moves the camera arm length; a guard stops it
moving further past a minimum or maximum it has reached, but there is no
clamp, so one step can overshoot a bound.

Files:

- `types.dfy` (module `Types`): the movement states and the speed record with its default speeds.
- `movement_rules.dfy` (module `MovementRules`): the rules as functions on a `Movement` value. This value holds stamina, state, maximum walk speed and the last angle. The module also holds the zoom step and lemmas about any number of ticks and zoom steps.
- `tps_character.dfy` (module `TPSCharacter`): class `Character`. Its methods update fields in place, as the C++ methods do. Each method is proved to follow the matching function of `MovementRules`.

Modelling choices:

- The look/move angle is an explicit `real` input to the permission queries, to `CharacterUpdate`, to `ChangeMovementState` and to `MovementTick`. In the C++ it comes from `acos` over engine vectors. The permission queries store the angle they use in `angle`, as `CalculateAngleBetweenVectors` stores it in `AngleBetwenVectors`. This happens only on the paths that call a permission query.
- Stamina is an `int`. The C++ field is a float, but it starts at 1000.0 and only ever moves by ±1.0, so it stays integral. The `int` type makes that integrality part of the model.
- Speeds and lengths are `real`s.
- `abs(angle) < 15` is written `-15 < angle < 15`. This holds for a float `abs`. It also holds for an integer `abs` of the truncated angle, which gives the same predicate.

Notes on the code:

- In Run without run-start permission, `CharacterUpdate` keeps its initial literal 600. It does not use `WalkSpeed`. With the default speeds this literal equals `RunSpeed`, so the fallback cannot be seen (`DefaultRunSpeedHidesFallback`).
- A tick in Run never recomputes the speed, so a character that entered Run with more than 100 stamina keeps its run speed down to 1 stamina (`SustainedRun`). If the speed is recomputed in Run (entering Run, or `CharacterUpdate`) with 1 to 100 stamina, the state is Run but the speed is the fallback 600 (`TiredRunDiverges`).
- `ChangeMovementState(Run)` is not guarded. Run can be entered with no stamina at all (`RunStateWithoutPermission`). Only the next tick forces Walk.
- Stamina is never clamped. It stays within [0, 1000] because the Run branch spends stamina only while it is positive and regeneration stops at 1000. `ChangeStamina` itself has no bound.
- The angle computation has no guard for a zero velocity.

## Model

| member | source | states |
|---|---|---|
| `Types.MovementStatesAreExactlyThree` | Source/TPS/FunctionLibrary/Types.h:9-14 | every movement state is Aim, Walk or Run, and the three are distinct |
| `Types.DefaultSpeeds` | Source/TPS/FunctionLibrary/Types.h:16-28 | default speeds are Aim 200, Run 600, Walk 300, so Aim < Walk < Run |
| `MovementRules.CanRunWith` | Source/TPS/Character/TPSCharacter.cpp:117-121 | running may continue iff stamina > 0 and the angle is within (-15, 15) |
| `MovementRules.CanStartRunWith` | Source/TPS/Character/TPSCharacter.cpp:123-127 | a run may start iff stamina > 100 and the angle is within (-15, 15); this implies CanRun |
| `MovementRules.Refresh` | Source/TPS/Character/TPSCharacter.cpp:192-213 | sets the speed to Aim → aimSpeed, Walk → walkSpeed, Run → runSpeed if CanStartRun, else 600. Keeps state and stamina. Records the angle only in Run |
| `MovementRules.SwitchState` | Source/TPS/Character/TPSCharacter.cpp:215-219 | the new state is exactly the requested one, stamina is kept, and the speed is the requested state's speed (600 for Run without start permission); the angle is recorded only when switching to Run |
| `MovementRules.Step` | Source/TPS/Character/TPSCharacter.cpp:176-189 | Run with CanRun: stamina −1, state and speed unchanged. Run without CanRun: Walk at walkSpeed, stamina kept. Otherwise: state and speed kept, stamina +1 iff below 1000. A tick never enters Run, only changes Run to Walk, moves stamina by at most 1 and keeps it within [0, 1000] |
| `MovementRules.StepsKeepStaminaInRange` | Source/TPS/Character/TPSCharacter.cpp:176-189 | from stamina in [0, 1000], any sequence of ticks keeps it in [0, 1000] |
| `MovementRules.StepsNeverEnterRun` | Source/TPS/Character/TPSCharacter.cpp:176-189 | over any sequence of ticks, a non-running character keeps its state and speed, and a running one ends in Run or Walk |
| `MovementRules.RestingRegenerates` | Source/TPS/Character/TPSCharacter.cpp:186-189 | outside Run, n ticks raise stamina to min(stamina + n, 1000) and change nothing else |
| `MovementRules.SustainedRun` | Source/TPS/Character/TPSCharacter.cpp:177-180 | n aligned ticks in Run with at least n stamina spend exactly n points, keep Run and keep the speed |
| `MovementRules.RunExhaustsIntoWalk` | Source/TPS/Character/TPSCharacter.cpp:177-184 | stamina + 1 aligned ticks in Run end in Walk at walkSpeed with 0 stamina |
| `MovementRules.RunStateWithoutPermission` | Source/TPS/Character/TPSCharacter.cpp:204-218 | changing to Run with no stamina gives state Run, CanRun false and the speed 600 |
| `MovementRules.SwitchStateIdempotent` | Source/TPS/Character/TPSCharacter.cpp:215-219 | changing to the same state twice equals changing once |
| `MovementRules.DefaultRunSpeedHidesFallback` | Source/TPS/Character/TPSCharacter.cpp:194-208 | with default speeds, a speed recomputed in Run equals the run speed 600 whatever the stamina and angle |
| `MovementRules.TiredRunDiverges` | Source/TPS/Character/TPSCharacter.cpp:117-127 | with stamina in 2..101 and an aligned angle, a Run tick stays in Run, and if the speed is then recomputed it is the fallback 600, not the run speed |
| `MovementRules.ArmStep` | Source/TPS/Character/TPSCharacter.cpp:106-115 | the length changes only by the whole value. A value of 0 never changes it. A positive value changes it iff length < max, a negative one iff length > min. The length never grows from ≥ max or shrinks from ≤ min |
| `MovementRules.ArmStepOvershoots` | Source/TPS/Character/TPSCharacter.cpp:110-113 | there is no clamp: 1190 + 50 gives 1240, past the maximum of 1200 |
| `MovementRules.ArmStepsStayWithinMargin` | Source/TPS/Character/TPSCharacter.cpp:106-115 | with every wheel value at most d in size, the length stays within [min − d, max + d] once it starts there |
| `TPSCharacter.Character.constructor` | Source/TPS/Character/TPSCharacter.h:49-98 | a new character has stamina 1000, health 1000, state Run, axes 0 and angle 0. Its arm bounds are 500 < 1200, its speeds are the defaults, and its arm length is 800, the camera boom's initial length set at Source/TPS/Character/TPSCharacter.cpp line 37 |
| `TPSCharacter.Character.SetNewArmLength` | Source/TPS/Character/TPSCharacter.cpp:106-115 | the arm length becomes ArmStep of the old length, so it is unchanged for 0 and never moves past a bound it has reached; nothing else changes |
| `TPSCharacter.Character.CanRun` | Source/TPS/Character/TPSCharacter.cpp:117-121 | returns stamina > 0 ∧ \|angle\| < 15 and stores the angle; nothing else changes |
| `TPSCharacter.Character.CanStartRun` | Source/TPS/Character/TPSCharacter.cpp:123-127 | returns stamina > 100 ∧ \|angle\| < 15, which implies CanRun, and stores the angle |
| `TPSCharacter.Character.ChangeStamina` | Source/TPS/Character/TPSCharacter.cpp:129-132 | adds exactly the value to stamina and changes no other field |
| `TPSCharacter.Character.InputAxisX` | Source/TPS/Character/TPSCharacter.cpp:147-149 | stores the value unchanged in axisX only |
| `TPSCharacter.Character.InputAxisY` | Source/TPS/Character/TPSCharacter.cpp:151-153 | stores the value unchanged in axisY only |
| `TPSCharacter.Character.CharacterUpdate` | Source/TPS/Character/TPSCharacter.cpp:192-213 | the new fields equal Refresh of the old ones: aimSpeed, walkSpeed, or runSpeed if CanStartRun else 600 |
| `TPSCharacter.Character.ChangeMovementState` | Source/TPS/Character/TPSCharacter.cpp:215-219 | the new fields equal SwitchState of the old ones: state is exactly the argument and stamina is kept |
| `TPSCharacter.Character.MovementTick` | Source/TPS/Character/TPSCharacter.cpp:155-190 | the new fields equal Step of the old ones (drain, forced Walk, regeneration as in Step), health and axes are untouched, and stamina in [0, 1000] stays there |

## Left out

- Constructor component wiring (capsule, camera boom, camera, cursor decal and its material) is engine object setup. Only the boom's initial arm length, 800, is kept.
- The cursor decal update in `Tick` is left out. It uses engine line traces, head-mounted-display checks and world hits.
- Input binding in `SetupPlayerInputComponent` is left out. It belongs to the engine's input system.
- The physical part of `MovementTick` is left out. `AddMovementInput` and the look-at rotation towards the cursor are calls into the engine's movement and physics.
- `CalculateAngleBetweenVectors` is left out. It uses `acos` over engine vectors, `FVector::Normalize` (its zero-vector behaviour lies in the engine) and a log call. The angle is an input instead.
- `MovementTick`'s `DeltaTime` parameter is not modelled, because the logic never reads it.
- `AxisMouseWeel` is not modelled, because it is never read or written.
- The inline getters and the empty `UTypes` library class have no behaviour.
- Reflection metadata, and a designer editing fields between calls, are outside the model. The functions of `MovementRules` accept any field values.
- The initial `MaxWalkSpeed` is a constructor parameter. Its value is set by the engine's movement component, which is not part of this model.
- `TPSCharacter.Character.ChangeStamina`: takes an integer amount, so a fractional float argument is not modelled. Every caller passes +1 or −1.
- IEEE float rounding, NaN and infinities are not modelled. Stamina is an `int`; speeds, lengths and angles are `real`s.
