// Types of src/objects/character/CharacterAppearance.ts.

module Appearance {
  import opened Common

  /** CharacterAnimState: the six animation states a character can be asked to show. */
  datatype AnimState = Idle | Run | Jump | Fall | Dead | Win

  /** The string a state is spelled as in the source ("idle", "run", ...). */
  function StateName(s: AnimState): string
  {
    match s
    case Idle => "idle"
    case Run => "run"
    case Jump => "jump"
    case Fall => "fall"
    case Dead => "dead"
    case Win => "win"
  }

  /** Distinct states are spelled differently, so a state name identifies its state. */
  lemma StateNameInjective(a: AnimState, b: AnimState)
    requires StateName(a) == StateName(b)
    ensures a == b
  {
  }

  /** A playable character: its id, the key of its model, and optional palette colours (24-bit RGB). */
  datatype CharacterAppearance = CharacterAppearance(
    id: string,
    modelKey: string,
    baseColor: Option<int>,
    beakColor: Option<int>,
    accentColor: Option<int>)
}
