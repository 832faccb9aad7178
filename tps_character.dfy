/** The playable character as an object whose methods update its fields in
    place: input axes, movement state, stamina, maximum walk speed, the last
    look/move angle and the camera arm length. Each method is proved to
    follow the corresponding function of MovementRules. */
module TPSCharacter {
  import opened Types
  import opened MovementRules

  class Character {
    var axisX: real
    var axisY: real
    var speedInfo: CharacterSpeed
    var state: MovementState
    /** The speed the engine's movement component is told to apply. */
    var maxWalkSpeed: real
    var maxArmLength: real
    var minArmLength: real
    /** The target length of the camera boom. */
    var armLength: real
    var stamina: int
    var health: real
    /** The look/move angle in degrees, as last supplied to a permission query. */
    var angle: real

    /** Stamina lies within the range the movement rules keep it in. */
    ghost predicate Valid()
      reads this
    {
      0 <= stamina <= StaminaMax
    }

    /** The fields the movement rules read and write, as one value. */
    function Snapshot(): (m: Movement)
      reads this
      ensures m.stamina == stamina && m.state == state && m.maxWalkSpeed == maxWalkSpeed && m.angle == angle
    {
      Movement(stamina, state, maxWalkSpeed, angle)
    }

    /** A new character with the default field values. The initial maximum
        walk speed belongs to the engine's movement component and is given. */
    constructor (engineMaxWalkSpeed: real)
      ensures Valid()
      ensures stamina == 1000 && health == 1000.0 && state == Run
      ensures axisX == 0.0 && axisY == 0.0 && angle == 0.0
      ensures minArmLength == 500.0 && maxArmLength == 1200.0 && minArmLength < maxArmLength
      ensures armLength == 800.0
      ensures speedInfo == DefaultSpeeds()
      ensures maxWalkSpeed == engineMaxWalkSpeed
    {
      axisX, axisY := 0.0, 0.0;
      speedInfo := DefaultSpeeds();
      state := Run;
      maxWalkSpeed := engineMaxWalkSpeed;
      maxArmLength, minArmLength := 1200.0, 500.0;
      armLength := 800.0;
      stamina := 1000;
      health := 1000.0;
      angle := 0.0;
    }

    /** The mouse-wheel handler: move the arm length by the wheel value when
        that moves it away from a bound it has not yet passed. */
    method SetNewArmLength(value: real)
      modifies this`armLength
      ensures armLength == ArmStep(old(armLength), value, minArmLength, maxArmLength)
      ensures value == 0.0 ==> armLength == old(armLength)
      ensures old(armLength) >= maxArmLength ==> armLength <= old(armLength)
      ensures old(armLength) <= minArmLength ==> armLength >= old(armLength)
    {
      if (value < 0.0 && armLength > minArmLength) || (value > 0.0 && armLength < maxArmLength) {
        armLength := armLength + value;
      }
    }

    /** Whether the character may keep running, recording the angle it used. */
    method CanRun(a: real) returns (ok: bool)
      modifies this`angle
      ensures angle == a
      ensures ok <==> stamina > 0 && -MaxRunAngle < a < MaxRunAngle
    {
      angle := a;
      ok := stamina > 0 && Abs(angle) < MaxRunAngle;
    }

    /** Whether the character may start a run, recording the angle it used. */
    method CanStartRun(a: real) returns (ok: bool)
      modifies this`angle
      ensures angle == a
      ensures ok <==> stamina > StartRunStamina && -MaxRunAngle < a < MaxRunAngle
      ensures ok ==> CanRunWith(stamina, a)
    {
      angle := a;
      ok := stamina > StartRunStamina && Abs(angle) < MaxRunAngle;
    }

    /** Add the given amount to the stamina, with no bound. */
    method ChangeStamina(value: int)
      modifies this`stamina
      ensures stamina == old(stamina) + value
    {
      stamina := stamina + value;
    }

    method InputAxisX(value: real)
      modifies this`axisX
      ensures axisX == value
    {
      axisX := value;
    }

    method InputAxisY(value: real)
      modifies this`axisY
      ensures axisY == value
    {
      axisY := value;
    }

    /** Recompute the maximum walk speed from the current state. */
    method CharacterUpdate(a: real)
      modifies this`maxWalkSpeed, this`angle
      ensures Snapshot() == Refresh(old(Snapshot()), speedInfo, a)
      ensures state == Aim ==> maxWalkSpeed == speedInfo.aimSpeed
      ensures state == Walk ==> maxWalkSpeed == speedInfo.walkSpeed
      ensures state == Run ==>
        maxWalkSpeed == if CanStartRunWith(stamina, a) then speedInfo.runSpeed else 600.0
    {
      var newSpeed := 600.0;
      match state {
        case Aim =>
          newSpeed := speedInfo.aimSpeed;
        case Walk =>
          newSpeed := speedInfo.walkSpeed;
        case Run =>
          var ok := CanStartRun(a);
          if ok {
            newSpeed := speedInfo.runSpeed;
          }
      }
      maxWalkSpeed := newSpeed;
    }

    /** Enter the given state and recompute the maximum walk speed. */
    method ChangeMovementState(s: MovementState, a: real)
      modifies this`state, this`maxWalkSpeed, this`angle
      ensures Snapshot() == SwitchState(old(Snapshot()), s, speedInfo, a)
      ensures state == s && stamina == old(stamina)
    {
      state := s;
      CharacterUpdate(a);
    }

    /** The state and stamina part of the per-frame movement update, given
        this frame's look/move angle. */
    method MovementTick(a: real)
      modifies this`stamina, this`state, this`maxWalkSpeed, this`angle
      ensures Snapshot() == Step(old(Snapshot()), speedInfo, a)
      ensures old(state) == Run && CanRunWith(old(stamina), a) ==>
        stamina == old(stamina) - 1 && state == Run && maxWalkSpeed == old(maxWalkSpeed)
      ensures old(state) == Run && !CanRunWith(old(stamina), a) ==>
        stamina == old(stamina) && state == Walk && maxWalkSpeed == speedInfo.walkSpeed
      ensures old(state) != Run ==>
        state == old(state) && maxWalkSpeed == old(maxWalkSpeed) &&
        stamina == if old(stamina) < StaminaMax then old(stamina) + 1 else old(stamina)
      ensures old(Valid()) ==> Valid()
    {
      if state == Run {
        var ok := CanRun(a);
        if ok {
          ChangeStamina(-1);
        } else {
          ChangeMovementState(Walk, a);
        }
      } else if stamina < StaminaMax {
        ChangeStamina(1);
      }
    }
  }
}
