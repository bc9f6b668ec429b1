/** The input controller of src/inputController.js: the held state of seven
    keys and two mouse buttons, written by browser events, and the mouse
    motion of the latest event. */
module Input {
  import opened Wrappers

  /** The keys the controller tracks. */
  datatype Key = W | A | S | D | Shift | Space | R

  /** `this.keys`. */
  datatype Keys = Keys(w: bool, a: bool, s: bool, d: bool, shift: bool, space: bool, r: bool) {

    function Get(k: Key): bool {
      match k
      case W => w
      case A => a
      case S => s
      case D => d
      case Shift => shift
      case Space => space
      case R => r
    }

    function Set(k: Key, v: bool): (res: Keys)
      ensures res.Get(k) == v
      ensures forall j :: j != k ==> res.Get(j) == Get(j)
    {
      match k
      case W => this.(w := v)
      case A => this.(a := v)
      case S => this.(s := v)
      case D => this.(d := v)
      case Shift => this.(shift := v)
      case Space => this.(space := v)
      case R => this.(r := v)
    }

    /** Any of W, A, S, D is held: the character's "moving" test for the
        walk clip and for the spread penalty. */
    predicate AnyMoveKey() {
      w || s || a || d
    }
  }

  const AllUp := Keys(false, false, false, false, false, false, false)

  /** The `KeyboardEvent.code` of each tracked key. */
  function CodeOf(k: Key): string {
    match k
    case W => "KeyW"
    case A => "KeyA"
    case S => "KeyS"
    case D => "KeyD"
    case Shift => "ShiftLeft"
    case Space => "Space"
    case R => "KeyR"
  }

  /** The key a code names, if the controller tracks it. */
  function KeyForCode(code: string): (r: Option<Key>)
    ensures r.Some? ==> CodeOf(r.value) == code
    ensures r.None? ==> forall k :: CodeOf(k) != code
  {
    if code == "KeyW" then Some(W)
    else if code == "KeyA" then Some(A)
    else if code == "KeyS" then Some(S)
    else if code == "KeyD" then Some(D)
    else if code == "ShiftLeft" then Some(Shift)
    else if code == "Space" then Some(Space)
    else if code == "KeyR" then Some(R)
    else None
  }

  /** The code table is a bijection between tracked keys and their codes. */
  lemma CodeRoundTrip(k: Key)
    ensures KeyForCode(CodeOf(k)) == Some(k)
  {
    match k
    case W =>
    case A =>
    case S =>
    case D => assert CodeOf(D) != "KeyA";
    case Shift =>
    case Space =>
    case R =>
  }

  /** The state of the keys after a key event with `code`, `held` being true
      for keydown and false for keyup. */
  function KeyEvent(keys: Keys, code: string, held: bool): (r: Keys)
    ensures forall k :: r.Get(k) == if CodeOf(k) == code then held else keys.Get(k)
    ensures KeyForCode(code).None? ==> r == keys
  {
    match KeyForCode(code)
    case Some(k) => keys.Set(k, held)
    case None => keys
  }

  /** `KeyEvent` case by case, as the `switch` of the two handlers. */
  lemma KeyEventCases(keys: Keys, code: string, held: bool)
    ensures code == "KeyW" ==> KeyEvent(keys, code, held) == keys.(w := held)
    ensures code == "KeyA" ==> KeyEvent(keys, code, held) == keys.(a := held)
    ensures code == "KeyS" ==> KeyEvent(keys, code, held) == keys.(s := held)
    ensures code == "KeyD" ==> KeyEvent(keys, code, held) == keys.(d := held)
    ensures code == "ShiftLeft" ==> KeyEvent(keys, code, held) == keys.(shift := held)
    ensures code == "Space" ==> KeyEvent(keys, code, held) == keys.(space := held)
    ensures code == "KeyR" ==> KeyEvent(keys, code, held) == keys.(r := held)
    ensures code !in ["KeyW", "KeyA", "KeyS", "KeyD", "ShiftLeft", "Space", "KeyR"] ==> KeyEvent(keys, code, held) == keys
  {
    var k := KeyForCode(code);
    if k.Some? {
      assert code == CodeOf(k.value);
      match k.value
      case W =>
      case A => assert code != "KeyW";
      case S => assert code != "KeyW" && code != "KeyA";
      case D => assert code != "KeyW" && code != "KeyA" && code != "KeyS";
      case Shift => assert code != "KeyW" && code != "KeyA" && code != "KeyS" && code != "KeyD";
      case Space => assert code != "KeyW" && code != "KeyA" && code != "KeyS" && code != "KeyD" && code != "ShiftLeft";
      case R => assert code != "KeyW" && code != "KeyA" && code != "KeyS" && code != "KeyD" && code != "ShiftLeft" && code != "Space";
    }
  }

  /** A keydown followed by the keyup of the same code leaves that key
      released and every other key as it was before the pair. */
  lemma PressRelease(keys: Keys, code: string)
    ensures forall k :: KeyEvent(KeyEvent(keys, code, true), code, false).Get(k)
                        == if CodeOf(k) == code then false else keys.Get(k)
  {
  }

  /** `this.mouse`. */
  datatype Mouse = Mouse(deltaX: real, deltaY: real, leftButton: bool, rightButton: bool, locked: bool)

  const MouseAtRest := Mouse(0.0, 0.0, false, false, false)

  /** A mousedown (`held`) or mouseup (`!held`) of `button`: 0 is the left
      button, 2 the right one, any other button is ignored. */
  function ButtonEvent(m: Mouse, button: int, held: bool): (r: Mouse)
    ensures r.deltaX == m.deltaX && r.deltaY == m.deltaY && r.locked == m.locked
    ensures r.leftButton == if button == 0 then held else m.leftButton
    ensures r.rightButton == if button == 2 then held else m.rightButton
  {
    if button == 0 then m.(leftButton := held)
    else if button == 2 then m.(rightButton := held)
    else m
  }

  /** A mousemove: while `locked` holds the deltas are REPLACED by the
      event's `movementX`/`movementY`, a missing value reading as 0;
      otherwise nothing changes. */
  function MotionEvent(m: Mouse, movementX: Option<real>, movementY: Option<real>): (r: Mouse)
    ensures !m.locked ==> r == m
    ensures m.locked ==> r.deltaX == movementX.GetOr(0.0) && r.deltaY == movementY.GetOr(0.0)
    ensures r.leftButton == m.leftButton && r.rightButton == m.rightButton && r.locked == m.locked
  {
    if m.locked then m.(deltaX := movementX.GetOr(0.0), deltaY := movementY.GetOr(0.0)) else m
  }

  /** Two motion events in one frame do not add up: only the second counts. */
  lemma MotionOverwrites(m: Mouse, x1: real, y1: real, x2: real, y2: real)
    requires m.locked
    ensures MotionEvent(MotionEvent(m, Some(x1), Some(y1)), Some(x2), Some(y2)).deltaX == x2
    ensures MotionEvent(MotionEvent(m, Some(x1), Some(y1)), Some(x2), Some(y2)).deltaY == y2
    ensures x1 != 0.0 && x2 != 0.0 ==>
      MotionEvent(MotionEvent(m, Some(x1), Some(y1)), Some(x2), Some(y2)).deltaX != x1 + x2
  {
  }

  class InputController {
    var keys: Keys
    var mouse: Mouse

    /** Every key and button released, deltas 0, pointer not locked; the
        listener registration of `_init` is the browser wiring. */
    constructor ()
      ensures keys == AllUp && mouse == MouseAtRest
    {
      keys := AllUp;
      mouse := MouseAtRest;
    }

    method OnKeyDown(code: string)
      modifies this
      ensures keys == KeyEvent(old(keys), code, true) && mouse == old(mouse)
    {
      KeyEventCases(keys, code, true);
      if code == "KeyW" { keys := keys.(w := true); }
      else if code == "KeyA" { keys := keys.(a := true); }
      else if code == "KeyS" { keys := keys.(s := true); }
      else if code == "KeyD" { keys := keys.(d := true); }
      else if code == "ShiftLeft" { keys := keys.(shift := true); }
      else if code == "Space" { keys := keys.(space := true); }
      else if code == "KeyR" { keys := keys.(r := true); }
    }

    method OnKeyUp(code: string)
      modifies this
      ensures keys == KeyEvent(old(keys), code, false) && mouse == old(mouse)
    {
      KeyEventCases(keys, code, false);
      if code == "KeyW" { keys := keys.(w := false); }
      else if code == "KeyA" { keys := keys.(a := false); }
      else if code == "KeyS" { keys := keys.(s := false); }
      else if code == "KeyD" { keys := keys.(d := false); }
      else if code == "ShiftLeft" { keys := keys.(shift := false); }
      else if code == "Space" { keys := keys.(space := false); }
      else if code == "KeyR" { keys := keys.(r := false); }
    }

    method OnMouseDown(button: int)
      modifies this
      ensures mouse == ButtonEvent(old(mouse), button, true) && keys == old(keys)
    {
      if button == 0 { mouse := mouse.(leftButton := true); }
      if button == 2 { mouse := mouse.(rightButton := true); }
    }

    method OnMouseUp(button: int)
      modifies this
      ensures mouse == ButtonEvent(old(mouse), button, false) && keys == old(keys)
    {
      if button == 0 { mouse := mouse.(leftButton := false); }
      if button == 2 { mouse := mouse.(rightButton := false); }
    }

    /** `movementX`/`movementY` are `None` when the event does not carry them. */
    method OnMouseMove(movementX: Option<real>, movementY: Option<real>)
      modifies this
      ensures mouse == MotionEvent(old(mouse), movementX, movementY) && keys == old(keys)
    {
      if mouse.locked {
        mouse := mouse.(deltaX := movementX.GetOr(0.0), deltaY := movementY.GetOr(0.0));
      }
    }

    /** The `pointerlockchange` listener: `bodyLocked` is whether
        `document.pointerLockElement` is now the document body. */
    method OnPointerLockChange(bodyLocked: bool)
      modifies this
      ensures mouse == old(mouse).(locked := bodyLocked) && keys == old(keys)
    {
      mouse := mouse.(locked := bodyLocked);
    }

    /** Called once the frame has consumed the deltas. */
    method ResetDeltas()
      modifies this
      ensures mouse == old(mouse).(deltaX := 0.0, deltaY := 0.0) && keys == old(keys)
    {
      mouse := mouse.(deltaX := 0.0, deltaY := 0.0);
    }
  }
}
