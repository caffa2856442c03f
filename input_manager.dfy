// InputManager (src/core/InputManager.ts): the key table and mouse delta the
// browser's keyboard and mouse listeners keep up to date.

module Input {
  import opened Common

  datatype MouseDelta = MouseDelta(x: real, y: real)

  const NoMovement := MouseDelta(0.0, 0.0)

  class InputManager {
    /** Last known state of every key code seen so far (true = held down). */
    var keys: map<string, bool>
    /** Mouse movement reported by the latest mousemove event since the last read. */
    var mouseDelta: MouseDelta

    constructor()
      ensures keys == map[] && mouseDelta == NoMovement
    {
      keys := map[];
      mouseDelta := NoMovement;
    }

    /** The keydown listener: the key is now held. */
    method KeyDown(code: string)
      modifies this`keys
      ensures keys == old(keys)[code := true]
      ensures IsKeyPressed(code)
      ensures forall k :: k != code ==> IsKeyPressed(k) == old(IsKeyPressed(k))
    {
      keys := keys[code := true];
    }

    /** The keyup listener: the key is now released. */
    method KeyUp(code: string)
      modifies this`keys
      ensures keys == old(keys)[code := false]
      ensures !IsKeyPressed(code)
      ensures forall k :: k != code ==> IsKeyPressed(k) == old(IsKeyPressed(k))
    {
      keys := keys[code := false];
    }

    /**
     * The mousemove listener: the delta is overwritten, not accumulated; a
     * missing movement field (None) counts as 0.
     */
    method MouseMove(movementX: Option<real>, movementY: Option<real>)
      modifies this`mouseDelta
      ensures mouseDelta == MouseDelta(movementX.GetOr(0.0), movementY.GetOr(0.0))
    {
      mouseDelta := MouseDelta(movementX.GetOr(0.0), movementY.GetOr(0.0));
    }

    /** isKeyPressed: a key never seen counts as released. */
    function IsKeyPressed(key: string): (pressed: bool)
      reads this
      ensures pressed <==> key in keys && keys[key]
      ensures key !in keys ==> !pressed
    {
      key in keys && keys[key]
    }

    /**
     * getAxis: +1 when only the positive key is held, -1 when only the negative
     * one is, 0 when both or neither are.
     */
    function GetAxis(negative: string, positive: string): (axis: int)
      reads this
      ensures -1 <= axis <= 1
      ensures axis == 1 <==> IsKeyPressed(positive) && !IsKeyPressed(negative)
      ensures axis == -1 <==> IsKeyPressed(negative) && !IsKeyPressed(positive)
      ensures axis == 0 <==> IsKeyPressed(positive) == IsKeyPressed(negative)
    {
      (if IsKeyPressed(positive) then 1 else 0) - (if IsKeyPressed(negative) then 1 else 0)
    }

    /** getMouseDelta: returns the pending delta and resets it, so each movement is read once. */
    method GetMouseDelta() returns (delta: MouseDelta)
      modifies this`mouseDelta
      ensures delta == old(mouseDelta)
      ensures mouseDelta == NoMovement
    {
      delta := mouseDelta;
      mouseDelta := NoMovement;
    }
  }
}
