/** The movement rules of the third-person character, as functions on values:
    the run permissions, the state-to-speed switch, one movement tick, a
    state change, and the mouse-wheel zoom step of the camera arm. The class
    in module TPSCharacter is proved to follow these functions; the lemmas
    here say what they guarantee over any number of ticks or zoom steps. */
module MovementRules {
  import opened Types

  /** Stamina regenerates up to this value and no further. */
  const StaminaMax: int := 1000
  /** Stamina must exceed this value for a speed recomputed in Run to be the run speed. */
  const StartRunStamina: int := 100
  /** Look and move directions must be closer than this many degrees to run. */
  const MaxRunAngle: real := 15.0
  /** The speed a recomputation in Run falls back to when a run may not start. */
  const FallbackSpeed: real := 600.0

  /** The part of the character the movement rules read and write:
      its stamina, movement state, maximum walk speed (the speed the
      movement component applies) and the last look/move angle it computed. */
  datatype Movement = Movement(stamina: int, state: MovementState, maxWalkSpeed: real, angle: real)

  function Abs(x: real): (r: real)
    ensures 0.0 <= r && (r == x || r == -x)
  {
    if x < 0.0 then -x else x
  }

  /** Whether a running character may keep running. */
  function CanRunWith(stamina: int, angle: real): (b: bool)
    ensures b <==> stamina > 0 && -MaxRunAngle < angle < MaxRunAngle
  {
    stamina > 0 && Abs(angle) < MaxRunAngle
  }

  /** Whether a character entering the run state gets its run speed. */
  function CanStartRunWith(stamina: int, angle: real): (b: bool)
    ensures b <==> stamina > StartRunStamina && -MaxRunAngle < angle < MaxRunAngle
    ensures b ==> CanRunWith(stamina, angle)
  {
    stamina > StartRunStamina && Abs(angle) < MaxRunAngle
  }

  /** The speed switch: the speed that starts as the literal 600 and is
      overwritten by the state's speed, except in Run without permission. */
  function SpeedFor(state: MovementState, info: CharacterSpeed, stamina: int, angle: real): (speed: real)
  {
    match state
    case Aim => info.aimSpeed
    case Walk => info.walkSpeed
    case Run => if CanStartRunWith(stamina, angle) then info.runSpeed else FallbackSpeed
  }

  /** Recomputing the maximum walk speed from the current state. Only the Run
      case asks for permission, and so only it records the supplied angle. */
  function Refresh(m: Movement, info: CharacterSpeed, angle: real): (r: Movement)
    ensures r.state == m.state && r.stamina == m.stamina
    ensures m.state == Aim ==> r.maxWalkSpeed == info.aimSpeed
    ensures m.state == Walk ==> r.maxWalkSpeed == info.walkSpeed
    ensures m.state == Run && CanStartRunWith(m.stamina, angle) ==> r.maxWalkSpeed == info.runSpeed
    ensures m.state == Run && !CanStartRunWith(m.stamina, angle) ==> r.maxWalkSpeed == 600.0
    ensures r.angle == if m.state == Run then angle else m.angle
  {
    var speed := SpeedFor(m.state, info, m.stamina, angle);
    if m.state == Run then m.(maxWalkSpeed := speed, angle := angle)
    else m.(maxWalkSpeed := speed)
  }

  /** A state change: store the new state, then recompute the speed. */
  function SwitchState(m: Movement, s: MovementState, info: CharacterSpeed, angle: real): (r: Movement)
    ensures r.state == s && r.stamina == m.stamina
    ensures s == Aim ==> r.maxWalkSpeed == info.aimSpeed
    ensures s == Walk ==> r.maxWalkSpeed == info.walkSpeed
    ensures s == Run && CanStartRunWith(m.stamina, angle) ==> r.maxWalkSpeed == info.runSpeed
    ensures s == Run && !CanStartRunWith(m.stamina, angle) ==> r.maxWalkSpeed == FallbackSpeed
    ensures r.angle == if s == Run then angle else m.angle
  {
    Refresh(m.(state := s), info, angle)
  }

  /** One movement tick, given the look/move angle of this frame. */
  function Step(m: Movement, info: CharacterSpeed, angle: real): (r: Movement)
    // running with permission: one stamina point spent, nothing else but the angle changes
    ensures m.state == Run && CanRunWith(m.stamina, angle) ==>
      r == m.(stamina := m.stamina - 1, angle := angle)
    // running without permission: forced to Walk at walk speed, stamina kept
    ensures m.state == Run && !CanRunWith(m.stamina, angle) ==>
      r == m.(state := Walk, maxWalkSpeed := info.walkSpeed, angle := angle)
    // not running: one stamina point regained exactly when below the maximum
    ensures m.state != Run ==>
      r.state == m.state && r.maxWalkSpeed == m.maxWalkSpeed && r.angle == m.angle &&
      (r.stamina == m.stamina + 1 <==> m.stamina < StaminaMax) &&
      (r.stamina == m.stamina <==> m.stamina >= StaminaMax)
    // a tick never enters Run; its only state change is Run to Walk
    ensures r.state == Run ==> m.state == Run
    ensures r.state != m.state ==> m.state == Run && r.state == Walk
    ensures -1 <= r.stamina - m.stamina <= 1
    ensures 0 <= m.stamina <= StaminaMax ==> 0 <= r.stamina <= StaminaMax
  {
    if m.state == Run then
      var checked := m.(angle := angle);
      if CanRunWith(m.stamina, angle) then checked.(stamina := m.stamina - 1)
      else SwitchState(checked, Walk, info, angle)
    else if m.stamina < StaminaMax then m.(stamina := m.stamina + 1)
    else m
  }

  /** The effect of consecutive ticks, one per angle, in order. */
  function Steps(m: Movement, info: CharacterSpeed, angles: seq<real>): (r: Movement)
    decreases |angles|
  {
    if angles == [] then m else Steps(Step(m, info, angles[0]), info, angles[1..])
  }

  /** Stamina that starts within [0, StaminaMax] stays there over any ticks. */
  lemma {:induction false} StepsKeepStaminaInRange(m: Movement, info: CharacterSpeed, angles: seq<real>)
    requires 0 <= m.stamina <= StaminaMax
    ensures 0 <= Steps(m, info, angles).stamina <= StaminaMax
    decreases |angles|
  {
    if angles != [] {
      StepsKeepStaminaInRange(Step(m, info, angles[0]), info, angles[1..]);
    }
  }

  /** Ticks never bring a character into Run: a character not running keeps
      its state and speed, and a running one ends in Run or Walk. */
  lemma {:induction false} StepsNeverEnterRun(m: Movement, info: CharacterSpeed, angles: seq<real>)
    ensures m.state != Run ==>
      Steps(m, info, angles).state == m.state && Steps(m, info, angles).maxWalkSpeed == m.maxWalkSpeed
    ensures m.state == Run ==> Steps(m, info, angles).state in {Run, Walk}
    decreases |angles|
  {
    if angles != [] {
      StepsNeverEnterRun(Step(m, info, angles[0]), info, angles[1..]);
    }
  }

  function MinInt(a: int, b: int): (r: int)
  {
    if a < b then a else b
  }

  /** A character that is not running regains one stamina point per tick
      until it reaches the maximum, whatever the angles. */
  lemma {:induction false} RestingRegenerates(m: Movement, info: CharacterSpeed, angles: seq<real>)
    requires m.state != Run && 0 <= m.stamina <= StaminaMax
    ensures Steps(m, info, angles) == m.(stamina := MinInt(m.stamina + |angles|, StaminaMax))
    decreases |angles|
  {
    if angles != [] {
      RestingRegenerates(Step(m, info, angles[0]), info, angles[1..]);
    }
  }

  /** Running with aligned directions and enough stamina spends exactly one
      point per tick and keeps the state Run and the speed unchanged. */
  lemma {:induction false} SustainedRun(m: Movement, info: CharacterSpeed, angles: seq<real>)
    requires m.state == Run && |angles| <= m.stamina
    requires forall i :: 0 <= i < |angles| ==> Abs(angles[i]) < MaxRunAngle
    ensures Steps(m, info, angles).state == Run
    ensures Steps(m, info, angles).stamina == m.stamina - |angles|
    ensures Steps(m, info, angles).maxWalkSpeed == m.maxWalkSpeed
    decreases |angles|
  {
    if angles != [] {
      SustainedRun(Step(m, info, angles[0]), info, angles[1..]);
    }
  }

  /** A run with aligned directions that lasts one tick longer than the
      stamina ends in Walk, at walk speed, with no stamina left. */
  lemma {:induction false} RunExhaustsIntoWalk(m: Movement, info: CharacterSpeed, angles: seq<real>)
    requires m.state == Run && 0 <= m.stamina && |angles| == m.stamina + 1
    requires forall i :: 0 <= i < |angles| ==> Abs(angles[i]) < MaxRunAngle
    ensures Steps(m, info, angles).state == Walk
    ensures Steps(m, info, angles).stamina == 0
    ensures Steps(m, info, angles).maxWalkSpeed == info.walkSpeed
    decreases |angles|
  {
    var next := Step(m, info, angles[0]);
    if m.stamina == 0 {
      assert next.state == Walk && next.stamina == 0 && next.maxWalkSpeed == info.walkSpeed;
      assert angles[1..] == [];
    } else {
      RunExhaustsIntoWalk(next, info, angles[1..]);
    }
  }

  /** Entering Run is not guarded: with no stamina the state is Run while
      running is not allowed, and the speed is the literal fallback. */
  lemma RunStateWithoutPermission(m: Movement, info: CharacterSpeed, angle: real)
    requires m.stamina <= 0
    ensures SwitchState(m, Run, info, angle).state == Run
    ensures !CanRunWith(SwitchState(m, Run, info, angle).stamina, angle)
    ensures SwitchState(m, Run, info, angle).maxWalkSpeed == FallbackSpeed
  {
  }

  /** Switching to a state twice is the same as switching once. */
  lemma SwitchStateIdempotent(m: Movement, s: MovementState, info: CharacterSpeed, angle: real)
    ensures SwitchState(SwitchState(m, s, info, angle), s, info, angle) == SwitchState(m, s, info, angle)
  {
  }

  /** With the default speeds the fallback coincides with the run speed, so a
      speed recomputed in Run is 600 whatever the stamina and angle. */
  lemma DefaultRunSpeedHidesFallback(stamina: int, angle: real)
    ensures SpeedFor(Run, DefaultSpeeds(), stamina, angle) == DefaultSpeeds().runSpeed
  {
  }

  /** A tick alone keeps the speed it had, but if the speed is recomputed
      (entering Run, or CharacterUpdate) with 1 to 100 stamina, the state is
      Run while the speed is the fallback 600 rather than the run speed. */
  lemma TiredRunDiverges(m: Movement, info: CharacterSpeed, angle: real)
    requires m.state == Run && 1 < m.stamina <= StartRunStamina + 1 && Abs(angle) < MaxRunAngle
    ensures Step(m, info, angle).state == Run
    ensures !CanStartRunWith(Step(m, info, angle).stamina, angle)
    ensures Refresh(Step(m, info, angle), info, angle).maxWalkSpeed == FallbackSpeed
  {
  }

  /** The zoom step: the arm length moves by the wheel value only when it moves
      away from a bound it has not passed; there is no clamp. */
  function ArmStep(len: real, value: real, minLen: real, maxLen: real): (r: real)
    ensures r == len || r == len + value
    ensures value == 0.0 ==> r == len
    ensures value > 0.0 ==> (r != len <==> len < maxLen)
    ensures value < 0.0 ==> (r != len <==> len > minLen)
    ensures len >= maxLen ==> r <= len
    ensures len <= minLen ==> r >= len
  {
    if (value < 0.0 && len > minLen) || (value > 0.0 && len < maxLen) then len + value else len
  }

  /** The arm length after consecutive wheel inputs. */
  function ArmSteps(len: real, values: seq<real>, minLen: real, maxLen: real): (r: real)
    decreases |values|
  {
    if values == [] then len else ArmSteps(ArmStep(len, values[0], minLen, maxLen), values[1..], minLen, maxLen)
  }

  /** One step can overshoot a bound: from 1190 a wheel value of 50 reaches 1240. */
  lemma ArmStepOvershoots()
    ensures ArmStep(1190.0, 50.0, 500.0, 1200.0) == 1240.0
  {
  }

  /** When no wheel value exceeds d in size, the arm length never strays more
      than d outside [minLen, maxLen] once it starts within that margin. */
  lemma {:induction false} ArmStepsStayWithinMargin(len: real, values: seq<real>, minLen: real, maxLen: real, d: real)
    requires minLen - d <= len <= maxLen + d
    requires forall i :: 0 <= i < |values| ==> Abs(values[i]) <= d
    ensures minLen - d <= ArmSteps(len, values, minLen, maxLen) <= maxLen + d
    decreases |values|
  {
    if values != [] {
      ArmStepsStayWithinMargin(ArmStep(len, values[0], minLen, maxLen), values[1..], minLen, maxLen, d);
    }
  }
}
