// The player motion of src/scripts/controller/player.ts. One update applies,
// in order, a pointer turn, strafe left (A), turn left, strafe right (D), turn
// right, forward (W / up) and back (S / down), each guarded by its key. The
// held keys, the pointer's horizontal step and the frame time are parameters.

module Player {
  import opened MathExt
  import opened Vectors
  import opened Maps

  /** The keys the player reacts to. */
  datatype Key = Shift | A | D | W | S | ArrowLeft | ArrowRight | ArrowUp | ArrowDown

  /** Where the player stands and where it looks (radians). */
  datatype Pose = Pose(position: Vec, angle: real)

  const SprintSpeedMultiplier: real := 2.5
  const MovementSpeed: real := 5.0
  const AngularVelocity: real := 2.5

  /** The speed multiplier: the sprint multiplier while Shift is held, 1 otherwise. */
  function SpeedMultiplier(pressed: set<Key>): (r: real)
    ensures Shift in pressed ==> r == SprintSpeedMultiplier
    ensures Shift !in pressed ==> r == 1.0
  {
    if Shift in pressed then SprintSpeedMultiplier else 1.0
  }

  /** A pointer step turns the player by a quarter of the angular velocity per unit, wrapped once. */
  function Look(p: Pose, axisX: real, angular: real, dt: real): Pose
  {
    if axisX != 0.0 then p.(angle := ClampAngle(p.angle + axisX * (angular / 4.0) * dt)) else p
  }

  /** The step sideways along angle - pi/2 covered in dt at speed v. */
  function Sideways(angle: real, v: real, dt: real): Vec
  {
    Vec(Cos(angle - Pi / 2.0) * v * dt, Sin(angle - Pi / 2.0) * v * dt)
  }

  /** The step ahead along angle covered in dt at speed v. */
  function Ahead(angle: real, v: real, dt: real): Vec
  {
    Vec(v * Cos(angle) * dt, v * Sin(angle) * dt)
  }

  /** A: move along angle - pi/2. */
  function StrafeLeft(p: Pose, v: real, dt: real): Pose
  {
    p.(position := Vec.Add(p.position, Sideways(p.angle, v, dt)))
  }

  /** D: move against angle - pi/2. */
  function StrafeRight(p: Pose, v: real, dt: real): Pose
  {
    p.(position := Vec.Subtract(p.position, Sideways(p.angle, v, dt)))
  }

  /** Left arrow: turn by -w * dt, adding one turn when the angle drops below 0. */
  function TurnLeft(p: Pose, w: real, dt: real): Pose
  {
    var a := p.angle - w * dt;
    p.(angle := if a < 0.0 then a + Pi * 2.0 else a)
  }

  /** Right arrow: turn by w * dt, removing one turn when the angle reaches 2 pi. */
  function TurnRight(p: Pose, w: real, dt: real): Pose
  {
    var a := p.angle + w * dt;
    p.(angle := if a >= Pi * 2.0 then a - Pi * 2.0 else a)
  }

  /** W or up arrow: move along angle. */
  function Forward(p: Pose, v: real, dt: real): Pose
  {
    p.(position := Vec.Add(p.position, Ahead(p.angle, v, dt)))
  }

  /** S or down arrow: move against angle. */
  function Back(p: Pose, v: real, dt: real): Pose
  {
    p.(position := Vec.Subtract(p.position, Ahead(p.angle, v, dt)))
  }

  /** The guarded blocks of PlayerController.update, in source order. */
  datatype UpdateBlock = LookBlock | StrafeLeftBlock | TurnLeftBlock | StrafeRightBlock | TurnRightBlock | ForwardBlock | BackBlock

  /** One block at linear speed v and angular speed w: its stage when its key (or pointer step) is present, otherwise nothing. */
  function Guarded(b: UpdateBlock, p: Pose, pressed: set<Key>, axisX: real, v: real, w: real, dt: real): Pose
  {
    match b
    case LookBlock => Look(p, axisX, w, dt)
    case StrafeLeftBlock => if A in pressed then StrafeLeft(p, v, dt) else p
    case TurnLeftBlock => if ArrowLeft in pressed then TurnLeft(p, w, dt) else p
    case StrafeRightBlock => if D in pressed then StrafeRight(p, v, dt) else p
    case TurnRightBlock => if ArrowRight in pressed then TurnRight(p, w, dt) else p
    case ForwardBlock => if ArrowUp in pressed || W in pressed then Forward(p, v, dt) else p
    case BackBlock => if ArrowDown in pressed || S in pressed then Back(p, v, dt) else p
  }

  /** The seven blocks in source order at the given speeds. */
  function Stages(p: Pose, pressed: set<Key>, axisX: real, v: real, w: real, dt: real): Pose
  {
    var p1 := Guarded(LookBlock, p, pressed, axisX, v, w, dt);
    var p2 := Guarded(StrafeLeftBlock, p1, pressed, axisX, v, w, dt);
    var p3 := Guarded(TurnLeftBlock, p2, pressed, axisX, v, w, dt);
    var p4 := Guarded(StrafeRightBlock, p3, pressed, axisX, v, w, dt);
    var p5 := Guarded(TurnRightBlock, p4, pressed, axisX, v, w, dt);
    var p6 := Guarded(ForwardBlock, p5, pressed, axisX, v, w, dt);
    Guarded(BackBlock, p6, pressed, axisX, v, w, dt)
  }

  /** One PlayerController.update: the blocks at the speeds scaled by the multiplier. */
  function Step(p: Pose, pressed: set<Key>, axisX: real, dt: real): Pose
  {
    var m := SpeedMultiplier(pressed);
    Stages(p, pressed, axisX, MovementSpeed * m, AngularVelocity * m, dt)
  }

  class PlayerController {
    var position: Vector2
    /** Radians. */
    var angle: real

    /** The field initialisers: the origin, facing angle 0. */
    constructor ()
      ensures fresh(position) && position.Value() == Vec.Zero() && angle == 0.0
    {
      position := new Vector2(0.0, 0.0);
      angle := 0.0;
    }

    /** PlayerController.init: the centre of the map, facing up the screen (-pi/2). */
    method Init(level: MapController)
      requires level.Ready()
      modifies this
      ensures fresh(position)
      ensures position.Value() == Vec(level.Width() as real / 2.0, level.Height() as real / 2.0)
      ensures angle == -(Pi as real) / 2.0
    {
      position := new Vector2(level.Width() as real / 2.0, level.Height() as real / 2.0);
      angle := -(Pi as real) / 2.0;
    }

    /** The current pose. */
    function Current(): Pose
      reads this, position
    {
      Pose(position.Value(), angle)
    }

    /** PlayerController.update, with the held keys, the pointer step and the frame time passed in. */
    method Update(pressed: set<Key>, axisX: real, deltaTime: real)
      modifies this, position
      ensures position == old(position)
      ensures Current() == Step(old(Current()), pressed, axisX, deltaTime)
    {
      var velocityMultiplier := if Shift in pressed then SprintSpeedMultiplier else 1.0;
      var velocity := MovementSpeed * velocityMultiplier;
      var angularVelocity := AngularVelocity * velocityMultiplier;

      ghost var p0 := Current();
      if axisX != 0.0 {
        TurnByPointer(axisX, angularVelocity, deltaTime);
      }
      ghost var p1 := Current();
      if A in pressed {
        StrafeLeftBy(velocity, deltaTime);
      }
      ghost var p2 := Current();
      if ArrowLeft in pressed {
        TurnLeftBy(angularVelocity, deltaTime);
      }
      ghost var p3 := Current();
      if D in pressed {
        StrafeRightBy(velocity, deltaTime);
      }
      ghost var p4 := Current();
      if ArrowRight in pressed {
        TurnRightBy(angularVelocity, deltaTime);
      }
      ghost var p5 := Current();
      if ArrowUp in pressed || W in pressed {
        ForwardBy(velocity, deltaTime);
      }
      ghost var p6 := Current();
      if ArrowDown in pressed || S in pressed {
        BackBy(velocity, deltaTime);
      }
      StepStages(p0, pressed, axisX, deltaTime, p1, p2, p3, p4, p5, p6, Current());
    }

    /** The A block: position += (cos, sin)(angle - pi/2) * v * dt. */
    method StrafeLeftBy(v: real, dt: real)
      modifies position
      ensures Current() == StrafeLeft(old(Current()), v, dt)
    {
      position.x := position.x + Cos(angle - Pi / 2.0) * v * dt;
      position.y := position.y + Sin(angle - Pi / 2.0) * v * dt;
    }

    /** The D block: position -= (cos, sin)(angle - pi/2) * v * dt. */
    method StrafeRightBy(v: real, dt: real)
      modifies position
      ensures Current() == StrafeRight(old(Current()), v, dt)
    {
      position.x := position.x - Cos(angle - Pi / 2.0) * v * dt;
      position.y := position.y - Sin(angle - Pi / 2.0) * v * dt;
    }

    /** The W / up-arrow block: position += v * (cos, sin)(angle) * dt. */
    method ForwardBy(v: real, dt: real)
      modifies position
      ensures Current() == Forward(old(Current()), v, dt)
    {
      position.x := position.x + v * Cos(angle) * dt;
      position.y := position.y + v * Sin(angle) * dt;
    }

    /** The S / down-arrow block: position -= v * (cos, sin)(angle) * dt. */
    method BackBy(v: real, dt: real)
      modifies position
      ensures Current() == Back(old(Current()), v, dt)
    {
      position.x := position.x - v * Cos(angle) * dt;
      position.y := position.y - v * Sin(angle) * dt;
    }

    /** The pointer block: turn by a quarter of the angular velocity per unit of pointer step, wrapped once. */
    method TurnByPointer(axisX: real, w: real, dt: real)
      requires axisX != 0.0
      modifies this
      ensures position == old(position)
      ensures Current() == Look(old(Current()), axisX, w, dt)
    {
      angle := ClampAngle(angle + axisX * (w / 4.0) * dt);
    }

    /** The left-arrow block. */
    method TurnLeftBy(w: real, dt: real)
      modifies this
      ensures position == old(position)
      ensures Current() == TurnLeft(old(Current()), w, dt)
    {
      angle := angle - w * dt;
      if angle < 0.0 {
        angle := angle + Pi * 2.0;
      }
    }

    /** The right-arrow block. */
    method TurnRightBy(w: real, dt: real)
      modifies this
      ensures position == old(position)
      ensures Current() == TurnRight(old(Current()), w, dt)
    {
      angle := angle + w * dt;
      if angle >= Pi * 2.0 {
        angle := angle - Pi * 2.0;
      }
    }
  }

  /** Step is the composition of its stages: the pose after each guarded block determines the result. */
  lemma StepStages(p0: Pose, pressed: set<Key>, axisX: real, dt: real,
                   p1: Pose, p2: Pose, p3: Pose, p4: Pose, p5: Pose, p6: Pose, p7: Pose)
    requires p1 == Look(p0, axisX, AngularVelocity * SpeedMultiplier(pressed), dt)
    requires p2 == if A in pressed then StrafeLeft(p1, MovementSpeed * SpeedMultiplier(pressed), dt) else p1
    requires p3 == if ArrowLeft in pressed then TurnLeft(p2, AngularVelocity * SpeedMultiplier(pressed), dt) else p2
    requires p4 == if D in pressed then StrafeRight(p3, MovementSpeed * SpeedMultiplier(pressed), dt) else p3
    requires p5 == if ArrowRight in pressed then TurnRight(p4, AngularVelocity * SpeedMultiplier(pressed), dt) else p4
    requires p6 == if ArrowUp in pressed || W in pressed then Forward(p5, MovementSpeed * SpeedMultiplier(pressed), dt) else p5
    requires p7 == if ArrowDown in pressed || S in pressed then Back(p6, MovementSpeed * SpeedMultiplier(pressed), dt) else p6
    ensures p7 == Step(p0, pressed, axisX, dt)
  {
  }

  /** With no key held and no pointer step, an update changes nothing. */
  lemma IdleStep(p: Pose, dt: real)
    ensures Step(p, {}, 0.0, dt) == p
  {
  }

  /** Without the turn keys and the pointer, only the position moves. */
  lemma MovementKeepsAngle(p: Pose, pressed: set<Key>, dt: real)
    requires ArrowLeft !in pressed && ArrowRight !in pressed
    ensures Step(p, pressed, 0.0, dt).angle == p.angle
  {
  }

  /** Without the movement keys, only the angle turns. */
  lemma RotationKeepsPosition(p: Pose, pressed: set<Key>, axisX: real, dt: real)
    requires forall k :: k in pressed ==> k == Shift || k == ArrowLeft || k == ArrowRight
    ensures Step(p, pressed, axisX, dt).position == p.position
  {
    assert A !in pressed && D !in pressed && W !in pressed && S !in pressed;
    assert ArrowUp !in pressed && ArrowDown !in pressed;
  }

  /** Moving forward and then back at the same angle returns to the start. */
  lemma ForwardBackCancel(p: Pose, v: real, dt: real)
    ensures Back(Forward(p, v, dt), v, dt) == p
  {
    SubtractUndoesAdd(p.position, Ahead(p.angle, v, dt));
  }

  /** Strafing left and then right at the same angle returns to the start. */
  lemma StrafeCancel(p: Pose, v: real, dt: real)
    ensures StrafeRight(StrafeLeft(p, v, dt), v, dt) == p
  {
    SubtractUndoesAdd(p.position, Sideways(p.angle, v, dt));
  }

  /**
   * Holding all four movement keys (and no turn key) leaves the player where it
   * was: A and D cancel with no turn between them, and so do forward and back.
   */
  lemma OpposedKeysCancel(p: Pose, dt: real)
    ensures Step(p, {A, D, W, S}, 0.0, dt) == p
  {
    var v := MovementSpeed * 1.0;
    StrafeCancel(p, v, dt);
    ForwardBackCancel(p, v, dt);
  }

  /** A pointer turn with angular speed w * k over dt is the turn with w over k * dt. */
  lemma LookScale(p: Pose, axisX: real, w: real, k: real, dt: real)
    ensures Look(p, axisX, w * k, dt) == Look(p, axisX, w, k * dt)
  {
    assert axisX * ((w * k) / 4.0) * dt == axisX * (w / 4.0) * (k * dt);
  }

  /** The four moves at speed v * k over dt are the moves at speed v over k * dt. */
  lemma MoveScale(p: Pose, v: real, k: real, dt: real)
    ensures StrafeLeft(p, v * k, dt) == StrafeLeft(p, v, k * dt)
    ensures StrafeRight(p, v * k, dt) == StrafeRight(p, v, k * dt)
    ensures Forward(p, v * k, dt) == Forward(p, v, k * dt)
    ensures Back(p, v * k, dt) == Back(p, v, k * dt)
  {
    assert Sideways(p.angle, v * k, dt) == Sideways(p.angle, v, k * dt) by {
      assert Cos(p.angle - Pi / 2.0) * (v * k) * dt == Cos(p.angle - Pi / 2.0) * v * (k * dt);
      assert Sin(p.angle - Pi / 2.0) * (v * k) * dt == Sin(p.angle - Pi / 2.0) * v * (k * dt);
    }
    assert Ahead(p.angle, v * k, dt) == Ahead(p.angle, v, k * dt) by {
      assert (v * k) * Cos(p.angle) * dt == v * Cos(p.angle) * (k * dt);
      assert (v * k) * Sin(p.angle) * dt == v * Sin(p.angle) * (k * dt);
    }
  }

  /** The arrow turns at angular speed w * k over dt are the turns at w over k * dt. */
  lemma TurnScale(p: Pose, w: real, k: real, dt: real)
    ensures TurnLeft(p, w * k, dt) == TurnLeft(p, w, k * dt)
    ensures TurnRight(p, w * k, dt) == TurnRight(p, w, k * dt)
  {
    assert (w * k) * dt == w * (k * dt);
  }

  /** A block at speeds scaled by k over dt, with Shift held, acts as the block without Shift over k * dt. */
  lemma BlockScale(b: UpdateBlock, p: Pose, pressed: set<Key>, axisX: real, v: real, w: real, k: real, dt: real)
    ensures Guarded(b, p, pressed, axisX, v * k, w * k, dt) == Guarded(b, p, pressed - {Shift}, axisX, v, w, k * dt)
  {
    var plain := pressed - {Shift};
    match b
    case LookBlock => LookScale(p, axisX, w, k, dt);
    case StrafeLeftBlock =>
      assert A in plain <==> A in pressed;
      MoveScale(p, v, k, dt);
    case TurnLeftBlock =>
      assert ArrowLeft in plain <==> ArrowLeft in pressed;
      TurnScale(p, w, k, dt);
    case StrafeRightBlock =>
      assert D in plain <==> D in pressed;
      MoveScale(p, v, k, dt);
    case TurnRightBlock =>
      assert ArrowRight in plain <==> ArrowRight in pressed;
      TurnScale(p, w, k, dt);
    case ForwardBlock =>
      assert (ArrowUp in plain || W in plain) <==> (ArrowUp in pressed || W in pressed);
      MoveScale(p, v, k, dt);
    case BackBlock =>
      assert (ArrowDown in plain || S in plain) <==> (ArrowDown in pressed || S in pressed);
      MoveScale(p, v, k, dt);
  }

  /** All seven blocks at speeds scaled by k over dt act as the blocks without Shift over k * dt. */
  lemma StagesScale(p: Pose, pressed: set<Key>, axisX: real, v: real, w: real, k: real, dt: real)
    ensures Stages(p, pressed, axisX, v * k, w * k, dt) == Stages(p, pressed - {Shift}, axisX, v, w, k * dt)
  {
    var vk, wk := v * k, w * k;
    var p1 := Guarded(LookBlock, p, pressed, axisX, vk, wk, dt);
    BlockScale(LookBlock, p, pressed, axisX, v, w, k, dt);
    var p2 := Guarded(StrafeLeftBlock, p1, pressed, axisX, vk, wk, dt);
    BlockScale(StrafeLeftBlock, p1, pressed, axisX, v, w, k, dt);
    var p3 := Guarded(TurnLeftBlock, p2, pressed, axisX, vk, wk, dt);
    BlockScale(TurnLeftBlock, p2, pressed, axisX, v, w, k, dt);
    var p4 := Guarded(StrafeRightBlock, p3, pressed, axisX, vk, wk, dt);
    BlockScale(StrafeRightBlock, p3, pressed, axisX, v, w, k, dt);
    var p5 := Guarded(TurnRightBlock, p4, pressed, axisX, vk, wk, dt);
    BlockScale(TurnRightBlock, p4, pressed, axisX, v, w, k, dt);
    var p6 := Guarded(ForwardBlock, p5, pressed, axisX, vk, wk, dt);
    BlockScale(ForwardBlock, p5, pressed, axisX, v, w, k, dt);
    BlockScale(BackBlock, p6, pressed, axisX, v, w, k, dt);
  }

  /**
   * Sprinting is the same as a longer frame: with Shift held, an update moves
   * and turns exactly as the update without Shift over a frame the sprint
   * multiplier times as long, whatever else is held.
   */
  lemma SprintIsLongerFrame(p: Pose, pressed: set<Key>, axisX: real, dt: real)
    requires Shift in pressed
    ensures Step(p, pressed, axisX, dt) == Step(p, pressed - {Shift}, axisX, SprintSpeedMultiplier * dt)
  {
    assert SpeedMultiplier(pressed - {Shift}) == 1.0;
    StagesScale(p, pressed, axisX, MovementSpeed, AngularVelocity, SprintSpeedMultiplier, dt);
  }

  /** A left turn of at most one revolution keeps an angle in [0, 2 pi) within it. */
  lemma TurnLeftStaysInRange(p: Pose, w: real, dt: real)
    requires 0.0 <= p.angle < 2.0 * Pi && 0.0 <= w * dt <= 2.0 * Pi
    ensures 0.0 <= TurnLeft(p, w, dt).angle < 2.0 * Pi
  {
  }

  /** A right turn of at most one revolution keeps an angle in [0, 2 pi) within it. */
  lemma TurnRightStaysInRange(p: Pose, w: real, dt: real)
    requires 0.0 <= p.angle < 2.0 * Pi && 0.0 <= w * dt <= 2.0 * Pi
    ensures 0.0 <= TurnRight(p, w, dt).angle < 2.0 * Pi
  {
  }

  /** A pointer step only turns, and lands in [0, 2 pi] when it is at most one revolution from the start. */
  lemma LookStaysInRange(p: Pose, axisX: real, w: real, dt: real)
    requires 0.0 <= p.angle <= 2.0 * Pi
    requires -2.0 * Pi <= axisX * (w / 4.0) * dt <= 2.0 * Pi
    ensures Look(p, axisX, w, dt).position == p.position
    ensures 0.0 <= Look(p, axisX, w, dt).angle <= 2.0 * Pi
  {
  }
}
