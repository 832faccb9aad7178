/** The gameplay value types shared by the character: its movement state and
    the record of speeds the designer assigns to each state. */
module Types {

  /** The three movement states a character can be in; there is no other. */
  datatype MovementState = Aim | Walk | Run

  /** The speed (engine units per second) used in each movement state. */
  datatype CharacterSpeed = CharacterSpeed(aimSpeed: real, runSpeed: real, walkSpeed: real)

  /** The speeds a freshly created speed record carries before a designer edits it. */
  function DefaultSpeeds(): (s: CharacterSpeed)
    ensures s.aimSpeed == 200.0 && s.runSpeed == 600.0 && s.walkSpeed == 300.0
    ensures 0.0 < s.aimSpeed < s.walkSpeed < s.runSpeed
  {
    CharacterSpeed(200.0, 600.0, 300.0)
  }

  /** Every movement state is one of Aim, Walk and Run, and these are distinct. */
  lemma MovementStatesAreExactlyThree(s: MovementState)
    ensures s == Aim || s == Walk || s == Run
    ensures Aim != Walk && Walk != Run && Aim != Run
  {
  }
}
