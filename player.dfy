/** The player controller: the input-to-intent mapping of the control
    scheme, the weapon-change request and its execution at the grab signal,
    ground contact and air time, the run factor, the model yaw table, and
    the messages a tick sends (grenades and shots).  Rendering, the camera
    rig, sound and the rigid-body velocity are outside the model. */
module PlayerControl {
  import opened Common

  // ---------------------------------------------------------------------
  // Weapon change direction

  /** The weapon change requested by the last next/previous press and not
      yet carried out. */
  datatype Direction = None | Next | Previous

  /** Decoding of the persisted direction id; any other id is a load error. */
  function DirectionFromId(id: nat): (r: Result<Direction>)
    ensures r.Ok? <==> id <= 2
  {
    if id == 0 then Ok(Direction.None)
    else if id == 1 then Ok(Next)
    else if id == 2 then Ok(Previous)
    else Err("Invalid Direction id")
  }

  /** Encoding as the persisted id; decoding inverts it. */
  function DirectionId(d: Direction): (id: nat)
    ensures id <= 2
    ensures DirectionFromId(id) == Ok(d)
  {
    match d
    case None => 0
    case Next => 1
    case Previous => 2
  }

  /** Every id that decodes is the id of the direction it decodes to. */
  lemma DirectionFromIdInverse(id: nat)
    ensures DirectionFromId(id).Ok? ==> DirectionId(DirectionFromId(id).value) == id
  {
  }

  /** The weapon index after a change in the given direction: one step,
      never past either end of the list. */
  function Switched(dir: Direction, current: nat, count: nat): (r: nat)
    ensures dir == Direction.None ==> r == current
    ensures r == current || r == current + 1 || r + 1 == current
    ensures r > current ==> dir == Next
    ensures r < current ==> dir == Previous
    ensures current < count ==> r < count
    ensures dir == Next && current + 1 < count ==> r == current + 1
    ensures dir == Previous && current > 0 ==> r + 1 == current
  {
    match dir
    case None => current
    case Next => if current + 1 < count then current + 1 else current
    case Previous => if current > 0 then current - 1 else current
  }

  // ---------------------------------------------------------------------
  // Control scheme and input events

  /** A bindable button: a keyboard key, a mouse button, or a wheel turn. */
  datatype ControlButton = Key(code: nat) | Mouse(button: nat) | WheelUp | WheelDown

  /** The bindings the controller consults, and the mouse sensitivity. */
  datatype ControlScheme = ControlScheme(
    aim: ControlButton,
    moveForward: ControlButton,
    moveBackward: ControlButton,
    moveLeft: ControlButton,
    moveRight: ControlButton,
    jump: ControlButton,
    run: ControlButton,
    nextWeapon: ControlButton,
    prevWeapon: ControlButton,
    tossGrenade: ControlButton,
    shoot: ControlButton,
    mouseSens: real)

  /** The actions in the order the scheme is consulted. */
  datatype Action =
    | AimAction | Forward | Backward | Left | Right | JumpAction | RunAction
    | NextWeapon | PrevWeapon | TossAction | ShootAction

  function Rank(a: Action): nat {
    match a
    case AimAction => 0
    case Forward => 1
    case Backward => 2
    case Left => 3
    case Right => 4
    case JumpAction => 5
    case RunAction => 6
    case NextWeapon => 7
    case PrevWeapon => 8
    case TossAction => 9
    case ShootAction => 10
  }

  function Binding(scheme: ControlScheme, a: Action): ControlButton {
    match a
    case AimAction => scheme.aim
    case Forward => scheme.moveForward
    case Backward => scheme.moveBackward
    case Left => scheme.moveLeft
    case Right => scheme.moveRight
    case JumpAction => scheme.jump
    case RunAction => scheme.run
    case NextWeapon => scheme.nextWeapon
    case PrevWeapon => scheme.prevWeapon
    case TossAction => scheme.tossGrenade
    case ShootAction => scheme.shoot
  }

  /** The action a button triggers: the first binding, in scheme order, that
      equals the button; a button bound twice triggers only the first. */
  function ActionOf(scheme: ControlScheme, button: ControlButton): (r: Option<Action>)
    ensures r.Some? ==> Binding(scheme, r.value) == button
  {
    if button == scheme.aim then Some(AimAction)
    else if button == scheme.moveForward then Some(Forward)
    else if button == scheme.moveBackward then Some(Backward)
    else if button == scheme.moveLeft then Some(Left)
    else if button == scheme.moveRight then Some(Right)
    else if button == scheme.jump then Some(JumpAction)
    else if button == scheme.run then Some(RunAction)
    else if button == scheme.nextWeapon then Some(NextWeapon)
    else if button == scheme.prevWeapon then Some(PrevWeapon)
    else if button == scheme.tossGrenade then Some(TossAction)
    else if button == scheme.shoot then Some(ShootAction)
    else Option.None
  }

  /** No binding consulted before the triggered one matches the button, and
      a button that triggers nothing matches no binding. */
  lemma ActionOfFirstMatch(scheme: ControlScheme, button: ControlButton, a: Action)
    ensures ActionOf(scheme, button).Some? && Rank(a) < Rank(ActionOf(scheme, button).value) ==>
            Binding(scheme, a) != button
    ensures ActionOf(scheme, button).None? ==> Binding(scheme, a) != button
  {
  }

  /** A window or device event as the controller sees it.  Both wheel delta
      forms are reduced to their vertical component. */
  datatype InputEvent =
    | KeyboardInput(key: Option<nat>, pressed: bool)
    | MouseWheel(dy: real)
    | MouseButton(id: nat, pressed: bool)
    | MouseMotion(dx: real, dy: real)
    | OtherEvent

  /** The button and state an event stands for, if any: a key with a code
      keeps its code and state, the wheel presses, and a mouse button keeps
      its state with its id truncated to 16 bits. */
  function DecodeEvent(e: InputEvent): (r: Option<(ControlButton, bool)>)
    ensures r.Some? <==> (e.KeyboardInput? && e.key.Some?) || e.MouseWheel? || e.MouseButton?
    ensures e.MouseWheel? ==> r.value == (if e.dy < 0.0 then WheelDown else WheelUp, true)
    ensures e.KeyboardInput? && e.key.Some? ==> r.value == (Key(e.key.value), e.pressed)
    ensures e.MouseButton? ==> r.value == (Mouse(e.id % 0x1_0000), e.pressed)
    ensures e.MouseButton? ==> r.value.0.button < 0x1_0000 && (e.id < 0x1_0000 ==> r.value.0.button == e.id)
  {
    match e
    case KeyboardInput(key, pressed) =>
      if key.Some? then Some((Key(key.value), pressed)) else Option.None
    case MouseWheel(dy) => Some((if dy < 0.0 then WheelDown else WheelUp, true))
    case MouseButton(id, pressed) => Some((Mouse(id % 0x1_0000), pressed))
    case MouseMotion(_, _) => Option.None
    case OtherEvent => Option.None
  }

  /** The held-button state the controller keeps, plus the look angles. */
  datatype InputController = InputController(
    walkForward: bool,
    walkBackward: bool,
    walkLeft: bool,
    walkRight: bool,
    jump: bool,
    yaw: real,
    pitch: real,
    aim: bool,
    tossGrenade: bool,
    shoot: bool,
    run: bool)

  /** The controller after a button event: the flag of the triggered action
      takes the button state and nothing else changes. */
  function ApplyAction(c: InputController, action: Option<Action>, pressed: bool): (r: InputController)
    ensures r.aim == (if action == Some(AimAction) then pressed else c.aim)
    ensures r.walkForward == (if action == Some(Forward) then pressed else c.walkForward)
    ensures r.walkBackward == (if action == Some(Backward) then pressed else c.walkBackward)
    ensures r.walkLeft == (if action == Some(Left) then pressed else c.walkLeft)
    ensures r.walkRight == (if action == Some(Right) then pressed else c.walkRight)
    ensures r.jump == (if action == Some(JumpAction) then pressed else c.jump)
    ensures r.run == (if action == Some(RunAction) then pressed else c.run)
    ensures r.tossGrenade == (if action == Some(TossAction) then pressed else c.tossGrenade)
    ensures r.shoot == (if action == Some(ShootAction) then pressed else c.shoot)
    ensures r.yaw == c.yaw && r.pitch == c.pitch
  {
    if action.None? then c
    else
      match action.value
      case AimAction => c.(aim := pressed)
      case Forward => c.(walkForward := pressed)
      case Backward => c.(walkBackward := pressed)
      case Left => c.(walkLeft := pressed)
      case Right => c.(walkRight := pressed)
      case JumpAction => c.(jump := pressed)
      case RunAction => c.(run := pressed)
      case NextWeapon => c
      case PrevWeapon => c
      case TossAction => c.(tossGrenade := pressed)
      case ShootAction => c.(shoot := pressed)
  }

  const U32_MODULUS: nat := 0x1_0000_0000

  /** The next-weapon guard as written: the current index is compared with
      the weapon count minus one, computed in unsigned 32-bit arithmetic. */
  predicate NextAllowedAsWritten(current: nat, count: nat)
    requires current < U32_MODULUS && count < U32_MODULUS
  {
    current < (count + U32_MODULUS - 1) % U32_MODULUS
  }

  /** With no weapons the subtraction wraps and the guard admits the request. */
  lemma NextGuardWrapsWhenUnarmed()
    ensures NextAllowedAsWritten(0, 0)
    ensures !NextAllowed(0, 0)
  {
  }

  /** The intended guard: a next weapon exists. */
  predicate NextAllowed(current: nat, count: nat) {
    current + 1 < count
  }

  /** Whenever the player owns a weapon the two guards agree. */
  lemma NextGuardsAgree(current: nat, count: nat)
    requires current < U32_MODULUS && 0 < count < U32_MODULUS
    ensures NextAllowedAsWritten(current, count) <==> NextAllowed(current, count)
  {
  }

  /** The pending direction after a button event: a press of next (when a
      next weapon exists) or previous (when not at the first) records the
      request; anything else leaves it. */
  function RequestedDirection(action: Option<Action>, pressed: bool, dir: Direction, current: nat, count: nat): (r: Direction)
    ensures r != dir ==> pressed && ((r == Next && action == Some(NextWeapon) && NextAllowed(current, count))
                                     || (r == Previous && action == Some(PrevWeapon) && current > 0))
    ensures action == Some(NextWeapon) && pressed && NextAllowed(current, count) ==> r == Next
    ensures action == Some(PrevWeapon) && pressed && current > 0 ==> r == Previous
    ensures action != Some(NextWeapon) && action != Some(PrevWeapon) ==> r == dir
  {
    if action == Some(NextWeapon) && pressed && NextAllowed(current, count) then Next
    else if action == Some(PrevWeapon) && pressed && current > 0 then Previous
    else dir
  }

  /** Clip commands a button event issues: restarting the weapon switch
      (rewind the put-back clip, disable and rewind the grab clip), and
      rewinding the grenade toss clip. */
  datatype ClipRequests = ClipRequests(restartSwitch: bool, rewindToss: bool)

  // ---------------------------------------------------------------------
  // Look angles

  /** Ninety degrees in radians, as a single-precision constant. */
  const PITCH_LIMIT: real := 1.5707964

  function Clamp(x: real, lo: real, hi: real): (r: real)
    requires lo <= hi
    ensures lo <= r <= hi
    ensures lo <= x <= hi ==> r == x
  {
    if x < lo then lo else if x > hi then hi else x
  }

  // ---------------------------------------------------------------------
  // Model yaw

  /** The walking heading in degrees for a walk direction with left/right
      component x and forward/backward component z, each in -1..1. */
  function Heading(x: int, z: int): real
    requires -1 <= x <= 1 && -1 <= z <= 1
  {
    if x == 0 then (if z < 0 then 180.0 else 0.0)
    else if x > 0 then (if z > 0 then 45.0 else if z < 0 then 135.0 else 90.0)
    else (if z > 0 then -45.0 else if z < 0 then -135.0 else -90.0)
  }

  function Axis(plus: bool, minus: bool): int {
    (if plus then 1 else 0) - (if minus then 1 else 0)
  }

  /** The yaw, in degrees, the model turns to relative to the look
      direction, from the aim flag and the four walk flags. */
  function ModelYaw(aim: bool, forward: bool, backward: bool, left: bool, right: bool): (angle: real)
    ensures aim ==> angle == -45.0 || angle == 0.0 || angle == 45.0
    ensures aim ==> (angle == 0.0 <==> !left && !right)
    ensures aim && left ==> (angle > 0.0 <==> !backward)
    ensures aim && !left && right ==> (angle > 0.0 <==> backward)
    ensures -135.0 <= angle <= 180.0
  {
    if aim then
      if left then (if backward then -45.0 else 45.0)
      else if right then (if backward then 45.0 else -45.0)
      else 0.0
    else
      if left then (if forward then 45.0 else if backward then 135.0 else 90.0)
      else if right then (if forward then -45.0 else if backward then -135.0 else -90.0)
      else (if backward then 180.0 else 0.0)
  }

  /** Without opposing keys held, the model faces the walking heading. */
  lemma YawFollowsHeading(forward: bool, backward: bool, left: bool, right: bool)
    requires !(forward && backward) && !(left && right)
    ensures ModelYaw(false, forward, backward, left, right) == Heading(Axis(left, right), Axis(forward, backward))
  {
  }

  /** While walking the model turns to one of the eight compass points. */
  lemma YawIsCompassPoint(forward: bool, backward: bool, left: bool, right: bool)
    ensures ModelYaw(false, forward, backward, left, right) in {0.0, 45.0, -45.0, 90.0, -90.0, 135.0, -135.0, 180.0}
  {
  }

  /** Forward and backward held together: while walking, forward wins as
      soon as a side key is held and backward wins otherwise; while aiming,
      backward always wins. */
  lemma YawForwardBackward(left: bool, right: bool)
    ensures ModelYaw(false, true, true, left, right)
            == (if left || right then ModelYaw(false, true, false, left, right) else 180.0)
    ensures ModelYaw(true, true, true, left, right) == ModelYaw(true, false, true, left, right)
  {
  }

  /** Left and right held together: left wins. */
  lemma YawLeftWins(aim: bool, forward: bool, backward: bool)
    ensures ModelYaw(aim, forward, backward, true, true) == ModelYaw(aim, forward, backward, true, false)
  {
  }

  /** Swapping left and right mirrors the yaw (180 is its own mirror). */
  lemma YawMirror(aim: bool, forward: bool, backward: bool, left: bool, right: bool)
    requires !(left && right)
    ensures var a := ModelYaw(aim, forward, backward, left, right);
            ModelYaw(aim, forward, backward, right, left) == (if a == 180.0 then 180.0 else -a)
  {
  }

  // ---------------------------------------------------------------------
  // The tick

  /** Signal ids carried by the clips; the machines that declare them are not
      part of this model, only their distinctness matters here. */
  const JUMP_SIGNAL: SignalId := 1
  const GRAB_WEAPON_SIGNAL: SignalId := 2
  const PUT_BACK_WEAPON_END_SIGNAL: SignalId := 3
  const TOSS_GRENADE_SIGNAL: SignalId := 4

  const GROUND_NORMAL_Y: real := 0.7
  const COYOTE_TIME: real := 0.3
  const RUN_SMOOTHING: real := 0.1
  const GRENADE_SPEED: real := 15.0

  /** Whether some contact manifold of the capsule has a normal pointing up
      more steeply than the ground threshold.  contacts holds, per contact
      pair, the vertical component of each manifold's normal. */
  method HasGroundContact(contacts: seq<seq<real>>) returns (ground: bool)
    ensures ground <==> exists i, j :: 0 <= i < |contacts| && 0 <= j < |contacts[i]| && contacts[i][j] > GROUND_NORMAL_Y
  {
    ground := false;
    var i := 0;
    label outer:
    while i < |contacts|
      invariant 0 <= i <= |contacts|
      invariant !ground
      invariant forall k, j :: 0 <= k < i && 0 <= j < |contacts[k]| ==> contacts[k][j] <= GROUND_NORMAL_Y
    {
      var j := 0;
      while j < |contacts[i]|
        invariant 0 <= j <= |contacts[i]|
        invariant forall m :: 0 <= m < j ==> contacts[i][m] <= GROUND_NORMAL_Y
      {
        if contacts[i][j] > GROUND_NORMAL_Y {
          ground := true;
          break outer;
        }
        j := j + 1;
      }
      i := i + 1;
    }
  }

  /** Pops every event of the queue and reports whether one carried signal. */
  method DrainSeen(queue: seq<SignalId>, signal: SignalId) returns (seen: bool)
    ensures seen <==> signal in queue
  {
    seen := false;
    var k := 0;
    while k < |queue|
      invariant 0 <= k <= |queue|
      invariant seen <==> signal in queue[..k]
    {
      if queue[k] == signal {
        seen := true;
      }
      k := k + 1;
      assert queue[..k] == queue[..k - 1] + [queue[k - 1]];
    }
    assert queue[..k] == queue;
  }

  /** Drains the grab clip: at each grab signal the pending direction is
      carried out and cleared, so at most one switch happens per drain. */
  method DrainGrab(queue: seq<SignalId>, dir: Direction, current: nat, count: nat) returns (dirAfter: Direction, currentAfter: nat)
    ensures GRAB_WEAPON_SIGNAL in queue ==> dirAfter == Direction.None && currentAfter == Switched(dir, current, count)
    ensures GRAB_WEAPON_SIGNAL !in queue ==> dirAfter == dir && currentAfter == current
  {
    dirAfter, currentAfter := dir, current;
    var k := 0;
    while k < |queue|
      invariant 0 <= k <= |queue|
      invariant GRAB_WEAPON_SIGNAL in queue[..k] ==>
                  dirAfter == Direction.None && currentAfter == Switched(dir, current, count)
      invariant GRAB_WEAPON_SIGNAL !in queue[..k] ==> dirAfter == dir && currentAfter == current
    {
      if queue[k] == GRAB_WEAPON_SIGNAL {
        currentAfter := Switched(dirAfter, currentAfter, count);
        dirAfter := Direction.None;
      }
      k := k + 1;
      assert queue[..k] == queue[..k - 1] + [queue[k - 1]];
    }
    assert queue[..k] == queue;
  }

  datatype LowerBodyInput = LowerBodyInput(walking: bool, jumping: bool, hasGroundContact: bool, runFactor: real)

  /** The upper-body inputs; the weapon kind is always the rifle. */
  datatype UpperBodyInput = UpperBodyInput(walking: bool, jumping: bool, hasGroundContact: bool, aiming: bool,
                                           tossGrenade: bool, changeWeapon: bool, runFactor: real)

  /** Everything the host engine hands the player for one tick. */
  datatype PlayerTick = PlayerTick(
    delta: real,
    contacts: seq<seq<real>>,
    jumpSignals: seq<SignalId>,
    inJumpPhase: bool,
    grabSignals: seq<SignalId>,
    putBackSignals: seq<SignalId>,
    tossSignals: seq<SignalId>,
    weaponPivot: Vec3,
    cameraLook: Vec3,
    upperInAimState: bool)

  /** What one tick produces besides the player's own state. */
  datatype PlayerOutput = PlayerOutput(
    lower: LowerBodyInput,
    upper: UpperBodyInput,
    jumpVelocity: Option<real>,
    enableGrab: bool,
    modelYaw: Option<real>,
    rewindJump: bool,
    rewindLand: bool,
    sent: seq<Message>)

  predicate IsWalking(c: InputController) {
    c.walkForward || c.walkBackward || c.walkLeft || c.walkRight
  }

  function Scale(v: Vec3, k: real): Vec3 {
    Vec3(v.x * k, v.y * k, v.z * k)
  }

  /** The grenades tossed this tick: one per toss signal popped. */
  function GrenadeMessages(tick: PlayerTick): seq<Message> {
    Emissions(tick.tossSignals, TOSS_GRENADE_SIGNAL, true,
              CreateProjectile(Grenade, tick.weaponPivot, tick.cameraLook, Scale(tick.cameraLook, GRENADE_SPEED), NONE))
  }

  /** The shot of a tick: with a current weapon, the shoot button held and
      the upper body in its aim state. */
  function ShotMessages(weapons: seq<Handle>, current: nat, shoot: bool, inAimState: bool, look: Vec3): (r: seq<Message>)
    ensures |r| <= 1
    ensures r != [] <==> current < |weapons| && shoot && inAimState
    ensures r != [] ==> r[0] == ShootWeapon(weapons[current], Some(look))
  {
    if current < |weapons| && shoot && inAimState then [ShootWeapon(weapons[current], Some(look))] else []
  }

  /** The run factor eases a tenth of the way toward its target each tick. */
  function EaseRun(runFactor: real, target: real): (r: real)
    ensures 0.0 <= runFactor <= 1.0 && 0.0 <= target <= 1.0 ==> 0.0 <= r <= 1.0
    ensures runFactor < target ==> runFactor < r <= target
    ensures runFactor > target ==> target <= r < runFactor
    ensures runFactor == target ==> r == target
  {
    runFactor + (target - runFactor) * RUN_SMOOTHING
  }

  class Player {
    var health: real
    var weapons: seq<Handle>
    var currentWeapon: nat
    var controller: InputController
    var weaponChangeDirection: Direction
    var inAirTime: real
    var runFactor: real
    var targetRunFactor: real

    ghost predicate Valid()
      reads this
    {
      0.0 <= runFactor <= 1.0
      && (targetRunFactor == 0.0 || targetRunFactor == 1.0)
      && -PITCH_LIMIT <= controller.pitch <= PITCH_LIMIT
      && (|weapons| == 0 || currentWeapon < |weapons|)
    }

    /** A dead player's actor may be removed from the level. */
    predicate CanBeRemoved()
      reads this
    {
      health <= 0.0
    }

    /** Handles one button event: updates the held flag or records a weapon
        change request, and says which clips to restart. */
    method ProcessButton(scheme: ControlScheme, button: ControlButton, pressed: bool) returns (clips: ClipRequests)
      requires Valid()
      modifies this`controller, this`weaponChangeDirection
      ensures Valid()
      ensures controller == ApplyAction(old(controller), ActionOf(scheme, button), pressed)
      ensures weaponChangeDirection
              == RequestedDirection(ActionOf(scheme, button), pressed, old(weaponChangeDirection), currentWeapon, |weapons|)
      ensures clips.restartSwitch <==>
              pressed && ((ActionOf(scheme, button) == Some(NextWeapon) && NextAllowed(currentWeapon, |weapons|))
                          || (ActionOf(scheme, button) == Some(PrevWeapon) && currentWeapon > 0))
      ensures clips.rewindToss <==> pressed && ActionOf(scheme, button) == Some(TossAction)
    {
      clips := ClipRequests(false, false);
      var action := ActionOf(scheme, button);
      controller := ApplyAction(controller, action, pressed);
      if action == Some(NextWeapon) {
        if pressed && NextAllowed(currentWeapon, |weapons|) {
          weaponChangeDirection := Next;
          clips := clips.(restartSwitch := true);
        }
      } else if action == Some(PrevWeapon) {
        if pressed && currentWeapon > 0 {
          weaponChangeDirection := Previous;
          clips := clips.(restartSwitch := true);
        }
      } else if action == Some(TossAction) && pressed {
        clips := clips.(rewindToss := true);
      }
    }

    /** Handles one input event: mouse motion turns the look angles (pitch
        clamped to straight up and down), other events act as buttons. */
    method ProcessInputEvent(scheme: ControlScheme, event: InputEvent, dt: real) returns (clips: ClipRequests)
      requires Valid()
      modifies this`controller, this`weaponChangeDirection
      ensures Valid()
      ensures event.MouseMotion? ==>
                var sens := scheme.mouseSens * dt;
                controller == old(controller).(yaw := old(controller).yaw - event.dx * sens,
                                               pitch := Clamp(old(controller).pitch + event.dy * sens, -PITCH_LIMIT, PITCH_LIMIT))
                && weaponChangeDirection == old(weaponChangeDirection)
      ensures DecodeEvent(event).Some? ==>
                var (button, pressed) := DecodeEvent(event).value;
                controller == ApplyAction(old(controller), ActionOf(scheme, button), pressed)
                && weaponChangeDirection
                   == RequestedDirection(ActionOf(scheme, button), pressed, old(weaponChangeDirection), currentWeapon, |weapons|)
      ensures !event.MouseMotion? && DecodeEvent(event).None? ==>
                controller == old(controller) && weaponChangeDirection == old(weaponChangeDirection)
    {
      clips := ClipRequests(false, false);
      if event.MouseMotion? {
        var sens := scheme.mouseSens * dt;
        var pitch := Clamp(controller.pitch + event.dy * sens, -PITCH_LIMIT, PITCH_LIMIT);
        controller := controller.(yaw := controller.yaw - event.dx * sens, pitch := pitch);
      }
      var decoded := DecodeEvent(event);
      if decoded.Some? {
        clips := ProcessButton(scheme, decoded.value.0, decoded.value.1);
      }
    }

    /** One controller tick. */
    method Update(tick: PlayerTick) returns (out: PlayerOutput)
      requires Valid()
      modifies this`currentWeapon, this`weaponChangeDirection, this`inAirTime, this`runFactor, this`targetRunFactor
      ensures Valid()
      ensures var ground := exists i, j :: 0 <= i < |tick.contacts| && 0 <= j < |tick.contacts[i]|
                                          && tick.contacts[i][j] > GROUND_NORMAL_Y;
              inAirTime == (if ground then 0.0 else old(inAirTime) + tick.delta)
              && out.rewindJump == (ground && controller.jump)
              && out.rewindLand == !ground
              && out.lower == LowerBodyInput(IsWalking(controller), ground && controller.jump,
                                             old(inAirTime) <= COYOTE_TIME, old(runFactor))
              && out.upper == UpperBodyInput(IsWalking(controller), ground && controller.jump,
                                             old(inAirTime) <= COYOTE_TIME, controller.aim, controller.tossGrenade,
                                             old(weaponChangeDirection) != Direction.None, old(runFactor))
      ensures targetRunFactor == (if controller.run then 1.0 else 0.0)
      ensures runFactor == EaseRun(old(runFactor), targetRunFactor)
      ensures out.jumpVelocity == (if tick.inJumpPhase && JUMP_SIGNAL in tick.jumpSignals
                                   then Some(3.0 * tick.delta) else Option.None)
      ensures GRAB_WEAPON_SIGNAL in tick.grabSignals ==>
                weaponChangeDirection == Direction.None
                && currentWeapon == Switched(old(weaponChangeDirection), old(currentWeapon), |weapons|)
      ensures GRAB_WEAPON_SIGNAL !in tick.grabSignals ==>
                weaponChangeDirection == old(weaponChangeDirection) && currentWeapon == old(currentWeapon)
      ensures out.enableGrab <==> PUT_BACK_WEAPON_END_SIGNAL in tick.putBackSignals
      ensures out.modelYaw == (if IsWalking(controller) || controller.aim
                               then Some(ModelYaw(controller.aim, controller.walkForward, controller.walkBackward,
                                                  controller.walkLeft, controller.walkRight))
                               else Option.None)
      ensures out.sent == GrenadeMessages(tick)
                          + ShotMessages(weapons, currentWeapon, controller.shoot, tick.upperInAimState, tick.cameraLook)
    {
      var ground, lower, upper := Locomote(tick);
      var jumpVelocity, enableGrab, grenades := DrainClips(tick);
      var yaw := if IsWalking(controller) || controller.aim
                 then Some(ModelYaw(controller.aim, controller.walkForward, controller.walkBackward,
                                    controller.walkLeft, controller.walkRight))
                 else Option.None;
      var shot: seq<Message> := [];
      if currentWeapon < |weapons| {
        if controller.shoot && tick.upperInAimState {
          shot := [ShootWeapon(weapons[currentWeapon], Some(tick.cameraLook))];
        }
      }
      out := PlayerOutput(lower, upper, jumpVelocity, enableGrab, yaw, lower.jumping, !ground, grenades + shot);
    }

    /** The movement half of a tick: ground probe, machine inputs, run
        easing and air time. */
    method Locomote(tick: PlayerTick) returns (ground: bool, lower: LowerBodyInput, upper: UpperBodyInput)
      requires Valid()
      modifies this`inAirTime, this`runFactor, this`targetRunFactor
      ensures Valid()
      ensures ground <==> exists i, j :: 0 <= i < |tick.contacts| && 0 <= j < |tick.contacts[i]|
                                         && tick.contacts[i][j] > GROUND_NORMAL_Y
      ensures inAirTime == (if ground then 0.0 else old(inAirTime) + tick.delta)
      ensures lower == LowerBodyInput(IsWalking(controller), ground && controller.jump,
                                      old(inAirTime) <= COYOTE_TIME, old(runFactor))
      ensures upper == UpperBodyInput(IsWalking(controller), ground && controller.jump,
                                      old(inAirTime) <= COYOTE_TIME, controller.aim, controller.tossGrenade,
                                      weaponChangeDirection != Direction.None, old(runFactor))
      ensures targetRunFactor == (if controller.run then 1.0 else 0.0)
      ensures runFactor == EaseRun(old(runFactor), targetRunFactor)
    {
      ground := HasGroundContact(tick.contacts);
      var walking := IsWalking(controller);
      var jumping := ground && controller.jump;
      var grounded := inAirTime <= COYOTE_TIME;
      lower := LowerBodyInput(walking, jumping, grounded, runFactor);
      upper := UpperBodyInput(walking, jumping, grounded, controller.aim, controller.tossGrenade,
                              weaponChangeDirection != Direction.None, runFactor);
      targetRunFactor := if controller.run then 1.0 else 0.0;
      runFactor := runFactor + (targetRunFactor - runFactor) * RUN_SMOOTHING;
      if ground {
        inAirTime := 0.0;
      } else {
        inAirTime := inAirTime + tick.delta;
      }
    }

    /** The signal half of a tick: drains the jump, grab, put-back and toss
        clips. */
    method DrainClips(tick: PlayerTick) returns (jumpVelocity: Option<real>, enableGrab: bool, grenades: seq<Message>)
      requires Valid()
      modifies this`currentWeapon, this`weaponChangeDirection
      ensures Valid()
      ensures jumpVelocity == (if tick.inJumpPhase && JUMP_SIGNAL in tick.jumpSignals
                               then Some(3.0 * tick.delta) else Option.None)
      ensures GRAB_WEAPON_SIGNAL in tick.grabSignals ==>
                weaponChangeDirection == Direction.None
                && currentWeapon == Switched(old(weaponChangeDirection), old(currentWeapon), |weapons|)
      ensures GRAB_WEAPON_SIGNAL !in tick.grabSignals ==>
                weaponChangeDirection == old(weaponChangeDirection) && currentWeapon == old(currentWeapon)
      ensures enableGrab <==> PUT_BACK_WEAPON_END_SIGNAL in tick.putBackSignals
      ensures grenades == GrenadeMessages(tick)
    {
      var jumpSeen := DrainSeen(tick.jumpSignals, JUMP_SIGNAL);
      jumpVelocity := if jumpSeen && tick.inJumpPhase then Some(3.0 * tick.delta) else Option.None;
      weaponChangeDirection, currentWeapon := DrainGrab(tick.grabSignals, weaponChangeDirection, currentWeapon, |weapons|);
      enableGrab := DrainSeen(tick.putBackSignals, PUT_BACK_WEAPON_END_SIGNAL);
      grenades := DrainSignals(tick.tossSignals, TOSS_GRENADE_SIGNAL, true,
                               CreateProjectile(Grenade, tick.weaponPivot, tick.cameraLook,
                                                Scale(tick.cameraLook, GRENADE_SPEED), NONE));
    }
  }

  /** The air time the machines compare with the coyote time: reset by any
      ground contact, otherwise grown by the frame time. */
  function AirTimeAfter(inAirTime: real, grounded: seq<bool>, delta: real): (r: real)
    requires delta >= 0.0 && inAirTime >= 0.0
    ensures r >= 0.0
    ensures grounded != [] && grounded[|grounded| - 1] ==> r == 0.0
  {
    if grounded == [] then inAirTime
    else if grounded[|grounded| - 1] then 0.0
    else AirTimeAfter(inAirTime, grounded[..|grounded| - 1], delta) + delta
  }

  /** A player who has been airborne for more ticks than fit in the coyote
      time is reported to the machines as off the ground. */
  lemma {:induction false} AirborneRunGrows(inAirTime: real, grounded: seq<bool>, delta: real)
    requires delta >= 0.0 && inAirTime >= 0.0
    requires forall i :: 0 <= i < |grounded| ==> !grounded[i]
    ensures AirTimeAfter(inAirTime, grounded, delta) == inAirTime + |grounded| as real * delta
  {
    if grounded != [] {
      AirborneRunGrows(inAirTime, grounded[..|grounded| - 1], delta);
    }
  }
}
