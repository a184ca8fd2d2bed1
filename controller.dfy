/**
  The per-frame input controller of the demo. Each animation frame reads the
  key-held map and updates the cube's two rotation angles, the light's
  position and the two light-mode flags.

  The model has two halves. `Next` states declaratively what one frame does
  to the abstract scene state (`SceneState`); `Scene.UpdateMovement` is the
  frame as the program runs it, a sequence of conditionals over mutable
  fields, an in-place light-position array and a local movement flag, and is
  proved to agree with `Next`. `Run` folds `Next` over a sequence of frames,
  and the lemmas state what the controller promises over one or many frames.

  Arithmetic is exact (`real`); the program's double-precision rounding is
  not modelled.
 */
module Controller {

  /** Rotation, in radians, applied per frame by each held arrow key. */
  const RotationStep: real := 0.1
  /** Rotation applied per frame to both angles when no arrow key is held. */
  const IdleStep: real := 0.006
  /** Distance the light moves per frame for each held w, s, a or d key. */
  const LightStep: real := 0.1

  /**
    The key-held map: a key appears once it has been pressed and maps to
    true while it is down and to false after it is released. A key that is
    absent or maps to false is not held.
   */
  type KeyMap = map<string, bool>

  predicate Held(keys: KeyMap, key: string) {
    key in keys && keys[key]
  }

  /** The twelve keys the controller reacts to. */
  const ControlKeys: set<string> := {
    "ArrowLeft", "ArrowRight", "ArrowUp", "ArrowDown",
    "w", "s", "a", "d",
    "1", "2", "3", "4"
  }

  /** Some arrow key is held: the frame is user-driven and the idle rotation is skipped. */
  predicate IsMoving(keys: KeyMap) {
    Held(keys, "ArrowLeft") || Held(keys, "ArrowRight") || Held(keys, "ArrowUp") || Held(keys, "ArrowDown")
  }

  /** The signed step for a pair of opposing keys: +step for `plus` alone, -step for `minus` alone, 0 for both or neither. */
  function Offset(keys: KeyMap, plus: string, minus: string, step: real): real {
    (if Held(keys, plus) then step else 0.0) - (if Held(keys, minus) then step else 0.0)
  }

  /**
    A light-mode flag after a frame in which its `on` key is checked first and
    its `off` key second: when both are held the later test wins.
   */
  function Forced(keys: KeyMap, on: string, off: string, current: bool): bool {
    if Held(keys, off) then false else if Held(keys, on) then true else current
  }

  datatype Point3 = Point3(x: real, y: real, z: real)

  /** The part of the scene the controller updates. */
  datatype SceneState = SceneState(
    rotationX: real,
    rotationY: real,
    lightPosition: Point3,
    useDirectionalLight: bool,
    usePositionalLight: bool)

  /** The scene as the program starts: no rotation, light at (2, 2, 2), both light modes on. */
  const InitialState: SceneState := SceneState(0.0, 0.0, Point3(2.0, 2.0, 2.0), true, true)

  /**
    One frame. ArrowDown/ArrowUp turn the cube about X, ArrowRight/ArrowLeft
    about Y, one step each; with no arrow held both angles take the idle
    step instead. d/a move the light along X and w/s along Y; its Z never
    moves. Keys 1 and 2 set the positional flag on and off, 3 and 4 the
    directional flag.
   */
  function Next(s: SceneState, keys: KeyMap): SceneState {
    var idle := if IsMoving(keys) then 0.0 else IdleStep;
    SceneState(
      s.rotationX + Offset(keys, "ArrowDown", "ArrowUp", RotationStep) + idle,
      s.rotationY + Offset(keys, "ArrowRight", "ArrowLeft", RotationStep) + idle,
      Point3(
        s.lightPosition.x + Offset(keys, "d", "a", LightStep),
        s.lightPosition.y + Offset(keys, "w", "s", LightStep),
        s.lightPosition.z),
      Forced(keys, "3", "4", s.useDirectionalLight),
      Forced(keys, "1", "2", s.usePositionalLight))
  }

  /** The frames one after another, each with its own key map. */
  function Run(s: SceneState, frames: seq<KeyMap>): SceneState
    decreases |frames|
  {
    if frames == [] then s else Run(Next(s, frames[0]), frames[1..])
  }

  function AbsReal(x: real): real {
    if x < 0.0 then -x else x
  }

  // ---------------------------------------------------------------- one frame

  /** With no arrow key held both angles grow by exactly the idle step. */
  lemma IdleFrame(s: SceneState, keys: KeyMap)
    requires !IsMoving(keys)
    ensures Next(s, keys).rotationX == s.rotationX + 0.006
    ensures Next(s, keys).rotationY == s.rotationY + 0.006
  {
  }

  /** ArrowRight alone turns the cube by 0.1 about Y, leaves X alone and suppresses the idle step. */
  lemma ArrowRightOnly(s: SceneState, keys: KeyMap)
    requires Held(keys, "ArrowRight")
    requires !Held(keys, "ArrowLeft") && !Held(keys, "ArrowUp") && !Held(keys, "ArrowDown")
    ensures Next(s, keys).rotationY == s.rotationY + 0.1
    ensures Next(s, keys).rotationX == s.rotationX
  {
  }

  /** Holding both horizontal arrows leaves Y unchanged, and the idle step is still skipped. */
  lemma HorizontalArrowsCancel(s: SceneState, keys: KeyMap)
    requires Held(keys, "ArrowLeft") && Held(keys, "ArrowRight")
    ensures Next(s, keys).rotationY == s.rotationY
    ensures !Held(keys, "ArrowUp") && !Held(keys, "ArrowDown") ==> Next(s, keys).rotationX == s.rotationX
  {
  }

  /** Holding both vertical arrows leaves X unchanged, and the idle step is still skipped. */
  lemma VerticalArrowsCancel(s: SceneState, keys: KeyMap)
    requires Held(keys, "ArrowUp") && Held(keys, "ArrowDown")
    ensures Next(s, keys).rotationX == s.rotationX
    ensures !Held(keys, "ArrowLeft") && !Held(keys, "ArrowRight") ==> Next(s, keys).rotationY == s.rotationY
  {
  }

  /** With w and a held (and not s or d) the light moves up by 0.1 and left by 0.1; its Z stays. */
  lemma LightUpLeft(s: SceneState, keys: KeyMap)
    requires Held(keys, "w") && Held(keys, "a") && !Held(keys, "s") && !Held(keys, "d")
    ensures Next(s, keys).lightPosition == Point3(s.lightPosition.x - 0.1, s.lightPosition.y + 0.1, s.lightPosition.z)
  {
  }

  /**
    The number keys set the flags rather than flip them: 2 switches the
    positional light off whatever it was, also when 1 is held too; 1 alone
    switches it on; neither leaves it. 3 and 4 do the same for the
    directional light. Each pair affects only its own flag.
   */
  lemma TogglesSet(s: SceneState, keys: KeyMap)
    ensures Held(keys, "2") ==> !Next(s, keys).usePositionalLight
    ensures Held(keys, "1") && !Held(keys, "2") ==> Next(s, keys).usePositionalLight
    ensures !Held(keys, "1") && !Held(keys, "2") ==> Next(s, keys).usePositionalLight == s.usePositionalLight
    ensures Held(keys, "4") ==> !Next(s, keys).useDirectionalLight
    ensures Held(keys, "3") && !Held(keys, "4") ==> Next(s, keys).useDirectionalLight
    ensures !Held(keys, "3") && !Held(keys, "4") ==> Next(s, keys).useDirectionalLight == s.useDirectionalLight
  {
  }

  /** The four arrow keys: the only keys whose holding counts as movement. */
  const ArrowKeys: set<string> := {"ArrowLeft", "ArrowRight", "ArrowUp", "ArrowDown"}

  /**
    Only arrow keys block the idle rotation: pressing or releasing any other
    key (a light key, a number key or an unrecognised one) leaves both angles
    after the frame as they would have been, idle step included.
   */
  lemma NonArrowKeysKeepIdle(s: SceneState, keys: KeyMap, key: string, down: bool)
    requires key !in ArrowKeys
    ensures Next(s, keys[key := down]).rotationX == Next(s, keys).rotationX
    ensures Next(s, keys[key := down]).rotationY == Next(s, keys).rotationY
  {
  }

  /** With no arrow key held, whatever else is held, both angles take exactly the idle step. */
  lemma NoArrowIdles(s: SceneState, keys: KeyMap)
    requires forall k :: k in ArrowKeys ==> !Held(keys, k)
    ensures Next(s, keys).rotationX == s.rotationX + IdleStep
    ensures Next(s, keys).rotationY == s.rotationY + IdleStep
  {
    assert !Held(keys, "ArrowLeft") && !Held(keys, "ArrowRight");
    assert !Held(keys, "ArrowUp") && !Held(keys, "ArrowDown");
  }

  /** Pressing or releasing a key other than the twelve control keys changes nothing the frame does. */
  lemma OtherKeysIgnored(s: SceneState, keys: KeyMap, key: string, down: bool)
    requires key !in ControlKeys
    ensures Next(s, keys[key := down]) == Next(s, keys)
  {
  }

  // ---------------------------------------------------------------- many frames

  /** Running a + b is running a, then b. */
  lemma {:induction false} RunAppend(s: SceneState, a: seq<KeyMap>, b: seq<KeyMap>)
    ensures Run(s, a + b) == Run(Run(s, a), b)
    decreases |a|
  {
    if a != [] {
      assert (a + b)[1..] == a[1..] + b;
      RunAppend(Next(s, a[0]), a[1..], b);
    } else {
      assert a + b == b;
    }
  }

  /** After n frames without an arrow key each angle has grown by exactly 0.006 * n. */
  lemma {:induction false} IdleFrames(s: SceneState, frames: seq<KeyMap>)
    requires forall i :: 0 <= i < |frames| ==> !IsMoving(frames[i])
    ensures Run(s, frames).rotationX == s.rotationX + IdleStep * |frames| as real
    ensures Run(s, frames).rotationY == s.rotationY + IdleStep * |frames| as real
    decreases |frames|
  {
    if frames != [] {
      assert !IsMoving(frames[0]);
      var rest := frames[1..];
      assert forall i :: 0 <= i < |rest| ==> rest[i] == frames[i + 1];
      IdleFrames(Next(s, frames[0]), rest);
    }
  }

  /** The light's Z coordinate never changes, however many frames run. */
  lemma {:induction false} LightHeightKept(s: SceneState, frames: seq<KeyMap>)
    ensures Run(s, frames).lightPosition.z == s.lightPosition.z
    decreases |frames|
  {
    if frames != [] {
      LightHeightKept(Next(s, frames[0]), frames[1..]);
    }
  }

  /** Each angle and each light coordinate moves by at most 0.1 per frame. */
  lemma {:induction false} BoundedRate(s: SceneState, frames: seq<KeyMap>)
    ensures AbsReal(Run(s, frames).rotationX - s.rotationX) <= RotationStep * |frames| as real
    ensures AbsReal(Run(s, frames).rotationY - s.rotationY) <= RotationStep * |frames| as real
    ensures AbsReal(Run(s, frames).lightPosition.x - s.lightPosition.x) <= LightStep * |frames| as real
    ensures AbsReal(Run(s, frames).lightPosition.y - s.lightPosition.y) <= LightStep * |frames| as real
    decreases |frames|
  {
    if frames != [] {
      var t := Next(s, frames[0]);
      BoundedRate(t, frames[1..]);
      assert AbsReal(t.rotationX - s.rotationX) <= RotationStep;
      assert AbsReal(t.rotationY - s.rotationY) <= RotationStep;
    }
  }

  /** Frames that hold neither 1 nor 2 leave the positional-light flag as it was, however many run. */
  lemma {:induction false} PositionalFlagKept(s: SceneState, frames: seq<KeyMap>)
    requires forall i :: 0 <= i < |frames| ==> !Held(frames[i], "1") && !Held(frames[i], "2")
    ensures Run(s, frames).usePositionalLight == s.usePositionalLight
    decreases |frames|
  {
    if frames != [] {
      var rest := frames[1..];
      assert forall i :: 0 <= i < |rest| ==> rest[i] == frames[i + 1];
      PositionalFlagKept(Next(s, frames[0]), rest);
    }
  }

  /** Frames that hold neither 3 nor 4 leave the directional-light flag as it was, however many run. */
  lemma {:induction false} DirectionalFlagKept(s: SceneState, frames: seq<KeyMap>)
    requires forall i :: 0 <= i < |frames| ==> !Held(frames[i], "3") && !Held(frames[i], "4")
    ensures Run(s, frames).useDirectionalLight == s.useDirectionalLight
    decreases |frames|
  {
    if frames != [] {
      var rest := frames[1..];
      assert forall i :: 0 <= i < |rest| ==> rest[i] == frames[i + 1];
      DirectionalFlagKept(Next(s, frames[0]), rest);
    }
  }

  // ---------------------------------------------------------------- the program's state

  /** The light. Only its position array is ever written. */
  class Light {
    const direction: seq<real>
    const position: array<real>
    const color: seq<real>
    const ambientColor: seq<real>

    /** The light as the program creates it. */
    constructor ()
      ensures direction == [1.0, -1.0, -1.0] && color == [1.0, 1.0, 1.0] && ambientColor == [0.1, 0.1, 0.1]
      ensures fresh(position) && position[..] == [2.0, 2.0, 2.0]
    {
      direction := [1.0, -1.0, -1.0];
      color := [1.0, 1.0, 1.0];
      ambientColor := [0.1, 0.1, 0.1];
      position := new real[3] [2.0, 2.0, 2.0];
    }
  }

  /** The program's mutable scene: the two angles, the two flags and the light. */
  class Scene {
    var rotationX: real
    var rotationY: real
    var useDirectionalLight: bool
    var usePositionalLight: bool
    const light: Light

    predicate Valid()
      reads this, light
    {
      light.position.Length == 3
    }

    /** The abstract value of the scene. */
    function State(): SceneState
      reads this, light, light.position
      requires Valid()
    {
      SceneState(
        rotationX, rotationY,
        Point3(light.position[0], light.position[1], light.position[2]),
        useDirectionalLight, usePositionalLight)
    }

    constructor ()
      ensures Valid() && fresh(light) && fresh(light.position)
      ensures State() == InitialState
      ensures light.direction == [1.0, -1.0, -1.0] && light.color == [1.0, 1.0, 1.0]
      ensures light.ambientColor == [0.1, 0.1, 0.1]
    {
      rotationX := 0.0;
      rotationY := 0.0;
      useDirectionalLight := true;
      usePositionalLight := true;
      light := new Light();
    }

    /**
      The arrow-key tests: each held arrow turns the cube by one step, and
      the result records whether any arrow was held.
     */
    method RotateByArrows(keysPressed: KeyMap) returns (isMoving: bool)
      modifies this`rotationX, this`rotationY
      ensures isMoving == IsMoving(keysPressed)
      ensures rotationX == old(rotationX) + Offset(keysPressed, "ArrowDown", "ArrowUp", RotationStep)
      ensures rotationY == old(rotationY) + Offset(keysPressed, "ArrowRight", "ArrowLeft", RotationStep)
    {
      isMoving := false;
      if Held(keysPressed, "ArrowLeft") {
        rotationY := rotationY - RotationStep;
        isMoving := true;
      }
      if Held(keysPressed, "ArrowRight") {
        rotationY := rotationY + RotationStep;
        isMoving := true;
      }
      if Held(keysPressed, "ArrowUp") {
        rotationX := rotationX - RotationStep;
        isMoving := true;
      }
      if Held(keysPressed, "ArrowDown") {
        rotationX := rotationX + RotationStep;
        isMoving := true;
      }
    }

    /** The light-key tests: w and s move the light along Y, a and d along X, in place. */
    method MoveLight(keysPressed: KeyMap)
      requires Valid()
      modifies light.position
      ensures light.position[..] == [
        old(light.position[0]) + Offset(keysPressed, "d", "a", LightStep),
        old(light.position[1]) + Offset(keysPressed, "w", "s", LightStep),
        old(light.position[2])]
    {
      if Held(keysPressed, "w") {
        light.position[1] := light.position[1] + LightStep;
      }
      if Held(keysPressed, "s") {
        light.position[1] := light.position[1] - LightStep;
      }
      if Held(keysPressed, "a") {
        light.position[0] := light.position[0] - LightStep;
      }
      if Held(keysPressed, "d") {
        light.position[0] := light.position[0] + LightStep;
      }
    }

    /** The number-key tests, in order 1, 2, 3, 4: each sets a flag, so a later key overrides an earlier one. */
    method SetLightModes(keysPressed: KeyMap)
      modifies this`usePositionalLight, this`useDirectionalLight
      ensures usePositionalLight == Forced(keysPressed, "1", "2", old(usePositionalLight))
      ensures useDirectionalLight == Forced(keysPressed, "3", "4", old(useDirectionalLight))
    {
      if Held(keysPressed, "1") {
        usePositionalLight := true;
      }
      if Held(keysPressed, "2") {
        usePositionalLight := false;
      }
      if Held(keysPressed, "3") {
        useDirectionalLight := true;
      }
      if Held(keysPressed, "4") {
        useDirectionalLight := false;
      }
    }

    /**
      One animation frame: the arrow, light and number-key tests in the
      program's order, then the idle rotation when no arrow was held.
     */
    method UpdateMovement(keysPressed: KeyMap)
      requires Valid()
      modifies this, light.position
      ensures Valid()
      ensures State() == Next(old(State()), keysPressed)
    {
      var isMoving := RotateByArrows(keysPressed);
      MoveLight(keysPressed);
      SetLightModes(keysPressed);
      if !isMoving {
        rotationY := rotationY + IdleStep;
        rotationX := rotationX + IdleStep;
      }
    }
  }
}
