/** InputHandler: held keys, and one-shot latches for key presses, touches and clicks. A latch
    is set by its event, cleared by its release, and consumed by the first query that sees it. */
module Input {

  /** A latch is set when the key code is present and true. */
  predicate Latched(m: map<string, bool>, code: string)
  {
    code in m && m[code]
  }

  /** Clearing one latch after it has been read; every other entry is untouched. */
  function Consume(m: map<string, bool>, code: string): (r: map<string, bool>)
    ensures !Latched(r, code)
    ensures code in r <==> code in m
    ensures forall c :: c != code ==> (c in r <==> c in m) && (c in m ==> r[c] == m[c])
  {
    if Latched(m, code) then m[code := false] else m
  }

  datatype MovementInput = MovementInput(left: bool, right: bool, jump: bool)
  datatype ControlInput = ControlInput(pause: bool, reset: bool, menu: bool)

  class InputHandler {
    var keys: map<string, bool>
    var keyPressed: map<string, bool>
    var touchPressed: bool
    var clickPressed: bool

    constructor ()
      ensures keys == map[] && keyPressed == map[] && !touchPressed && !clickPressed
    {
      keys := map[];
      keyPressed := map[];
      touchPressed := false;
      clickPressed := false;
    }

    /** The state change of the keydown listener: the key is held and its press latched. */
    method KeyDown(code: string)
      modifies this`keys, this`keyPressed
      ensures keys == old(keys)[code := true]
      ensures keyPressed == old(keyPressed)[code := true]
      ensures IsKeyDown(code)
    {
      keys := keys[code := true];
      if !Latched(keyPressed, code) {
        keyPressed := keyPressed[code := true];
      } else {
        assert keyPressed == keyPressed[code := true];
      }
    }

    /** The state change of the keyup listener: the key is released and its latch cleared. */
    method KeyUp(code: string)
      modifies this`keys, this`keyPressed
      ensures keys == old(keys)[code := false]
      ensures keyPressed == old(keyPressed)[code := false]
      ensures !IsKeyDown(code)
    {
      keys := keys[code := false];
      keyPressed := keyPressed[code := false];
    }

    /** isKeyDown: the key is held (an unknown key is not). */
    predicate IsKeyDown(code: string)
      reads this
      ensures code !in keys ==> !IsKeyDown(code)
      ensures code in keys ==> (IsKeyDown(code) <==> keys[code])
    {
      code in keys && keys[code]
    }

    /** isKeyPressed: true exactly when the key's latch was set, which it then clears. */
    method IsKeyPressed(code: string) returns (pressed: bool)
      modifies this`keyPressed
      ensures pressed == Latched(old(keyPressed), code)
      ensures keyPressed == Consume(old(keyPressed), code)
      ensures !Latched(keyPressed, code)
    {
      if Latched(keyPressed, code) {
        keyPressed := keyPressed[code := false];
        return true;
      }
      return false;
    }

    /** isTouchPressed: true exactly once per touch. */
    method IsTouchPressed() returns (pressed: bool)
      modifies this`touchPressed
      ensures pressed == old(touchPressed) && !touchPressed
    {
      if touchPressed {
        touchPressed := false;
        return true;
      }
      return false;
    }

    /** isClickPressed: true exactly once per click. */
    method IsClickPressed() returns (pressed: bool)
      modifies this`clickPressed
      ensures pressed == old(clickPressed) && !clickPressed
    {
      if clickPressed {
        clickPressed := false;
        return true;
      }
      return false;
    }

    /** getMovementInput: left and right read held keys; jump is any of the Space, ArrowUp and
        KeyW latches or a touch or click. The queries short-circuit, so only the first latch
        found is consumed, and a click survives when a touch was already pending. */
    method GetMovementInput() returns (input: MovementInput)
      modifies this`keyPressed, this`touchPressed, this`clickPressed
      ensures input.left == (old(IsKeyDown("ArrowLeft")) || old(IsKeyDown("KeyA")))
      ensures input.right == (old(IsKeyDown("ArrowRight")) || old(IsKeyDown("KeyD")))
      ensures input.jump == (Latched(old(keyPressed), "Space") || Latched(old(keyPressed), "ArrowUp") ||
                             Latched(old(keyPressed), "KeyW") || old(touchPressed) || old(clickPressed))
      ensures !touchPressed && clickPressed == (old(clickPressed) && old(touchPressed))
      ensures keyPressed == if Latched(old(keyPressed), "Space") then Consume(old(keyPressed), "Space")
                            else if Latched(old(keyPressed), "ArrowUp") then Consume(old(keyPressed), "ArrowUp")
                            else Consume(old(keyPressed), "KeyW")
    {
      var touchJump := IsTouchPressed();
      if !touchJump {
        touchJump := IsClickPressed();
      }
      var left := IsKeyDown("ArrowLeft") || IsKeyDown("KeyA");
      var right := IsKeyDown("ArrowRight") || IsKeyDown("KeyD");
      var jump := IsKeyPressed("Space");
      if !jump {
        jump := IsKeyPressed("ArrowUp");
      }
      if !jump {
        jump := IsKeyPressed("KeyW");
      }
      input := MovementInput(left, right, jump || touchJump);
    }

    /** getGameControlInput: each of the KeyP, KeyR and Escape latches is read and consumed. */
    method GetGameControlInput() returns (input: ControlInput)
      modifies this`keyPressed
      ensures input.pause == Latched(old(keyPressed), "KeyP")
      ensures input.reset == Latched(old(keyPressed), "KeyR")
      ensures input.menu == Latched(old(keyPressed), "Escape")
      ensures keyPressed == Consume(Consume(Consume(old(keyPressed), "KeyP"), "KeyR"), "Escape")
    {
      var pause := IsKeyPressed("KeyP");
      var reset := IsKeyPressed("KeyR");
      var menu := IsKeyPressed("Escape");
      input := ControlInput(pause, reset, menu);
    }
  }
}
