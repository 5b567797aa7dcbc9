/**
 * Units (players and creatures): the movement-direction mask, the heading
 * and animation each mask selects, and which map fields a unit may walk on.
 *
 * A direction is one of the MoveDirectionElement bits (up 1, right 2,
 * down 4, left 8); the mask is the OR of the directions held. Screen
 * coordinates grow rightwards and downwards, and a heading k stands for
 * the angle k·π/4 measured from +X towards +Y.
 */
module Unit {
  import opened Bytes
  import opened ObjectEnums
  import opened MapTypes
  import opened ImageStorage
  import opened WorldObject

  const DirUp: bv8 := 1
  const DirRight: bv8 := 2
  const DirDown: bv8 := 4
  const DirLeft: bv8 := 8

  /** movementAngles, in multiples of π/4 (0 for the masks without a direction). */
  const MovementOctants: seq<nat> := [0, 6, 0, 7, 2, 0, 1, 0, 4, 5, 0, 6, 3, 4, 2, 0]

  /** movementAnims. */
  const MovementAnims: seq<U32> := [
    AnimIdle, AnimWalkUp, AnimWalkRight, AnimWalkUpRight,
    AnimWalkDown, AnimIdle, AnimWalkDownRight, AnimWalkRight,
    AnimWalkLeft, AnimWalkUpLeft, AnimIdle, AnimWalkUp,
    AnimWalkDownLeft, AnimWalkLeft, AnimWalkDown, AnimIdle]

  // ---------------------------------------------------------------------
  // The mask
  // ---------------------------------------------------------------------

  /** IsMovingInDirection. */
  predicate IsMoving(mask: bv8, dir: bv8)
  {
    mask & dir != 0
  }

  /** The mask StartMovementInDirection leaves: unchanged when already moving that way, else with the bits of dir added. */
  function MaskAfterStart(mask: bv8, dir: bv8): (r: bv8)
    ensures IsMoving(mask, dir) ==> r == mask
    ensures forall d: bv8 {:trigger IsMoving(r, d)} :: IsMoving(mask, d) ==> IsMoving(r, d)
  {
    if IsMoving(mask, dir) then mask else mask | dir
  }

  /** The mask StopMovementInDirection leaves: unchanged when not moving that way, else with the bits of dir removed. */
  function MaskAfterStop(mask: bv8, dir: bv8): (r: bv8)
    ensures !IsMoving(mask, dir) ==> r == mask
    ensures forall d: bv8 {:trigger IsMoving(r, d)} :: IsMoving(r, d) ==> IsMoving(mask, d)
  {
    if !IsMoving(mask, dir) then mask else mask & !dir
  }

  /** After a start in a non-empty direction the unit moves that way; after a stop it does not. */
  lemma StartStopDirection(mask: bv8, dir: bv8)
    requires dir != 0
    ensures IsMoving(MaskAfterStart(mask, dir), dir)
    ensures !IsMoving(MaskAfterStop(mask, dir), dir)
  {
  }

  /** Starting a direction not yet held and stopping it again gives the mask back. */
  lemma StartThenStop(mask: bv8, dir: bv8)
    requires mask & dir == 0
    ensures MaskAfterStop(MaskAfterStart(mask, dir), dir) == mask
  {
  }

  /** A start and a stop of single directions leave a mask of the four direction bits within them. */
  lemma MaskStaysInDirections(mask: bv8, dir: bv8)
    requires mask < 16 && dir in {DirUp, DirRight, DirDown, DirLeft}
    ensures MaskAfterStart(mask, dir) < 16 && MaskAfterStop(mask, dir) < 16
  {
  }

  // ---------------------------------------------------------------------
  // What a mask selects
  // ---------------------------------------------------------------------

  /** The net step of a mask: right minus left, down minus up. */
  function NetDirection(mask: bv8): (int, int)
  {
    ((if mask & DirRight != 0 then 1 else 0) - (if mask & DirLeft != 0 then 1 else 0),
     (if mask & DirDown != 0 then 1 else 0) - (if mask & DirUp != 0 then 1 else 0))
  }

  /** The angle, in multiples of π/4, of a non-zero step. */
  function OctantOf(dx: int, dy: int): nat
  {
    if dy == 0 then (if dx > 0 then 0 else 4)
    else if dy > 0 then (if dx > 0 then 1 else if dx == 0 then 2 else 3)
    else (if dx < 0 then 5 else if dx == 0 then 6 else 7)
  }

  /** The walk animation of a step, idle for none. */
  function AnimOfStep(dx: int, dy: int): U32
  {
    if dx == 0 && dy == 0 then AnimIdle
    else if dx == 0 then (if dy < 0 then AnimWalkUp else AnimWalkDown)
    else if dy == 0 then (if dx > 0 then AnimWalkRight else AnimWalkLeft)
    else if dx > 0 then (if dy < 0 then AnimWalkUpRight else AnimWalkDownRight)
    else (if dy < 0 then AnimWalkUpLeft else AnimWalkDownLeft)
  }

  /** The direction bits of a mask, the only part the two tables cover. */
  function TableIndex(mask: bv8): (i: nat)
    ensures i < 16
  {
    (mask & 0x0F) as int
  }

  /** The heading the movement vector takes: none for the masks whose directions cancel. */
  function HeadingOf(mask: bv8): Heading
  {
    if TableIndex(mask) % 5 == 0 then Still else Toward(MovementOctants[TableIndex(mask)])
  }

  function MovementAnim(mask: bv8): (a: U32)
    ensures IsMovementAnim(a) || a == AnimIdle
  {
    MovementAnims[TableIndex(mask)]
  }

  /**
   * The two tables agree with the geometry of the mask: the masks that the
   * zero-vector test picks (0, 5, 10, 15) are exactly those whose
   * directions cancel, and they select the idle animation; every other
   * mask is headed along its net step and walks in that direction.
   */
  lemma TablesMatchDirections(mask: bv8)
    requires mask < 16
    ensures TableIndex(mask) == mask as int
    ensures mask % 5 == 0 <==> NetDirection(mask) == (0, 0)
    ensures MovementAnim(mask) == AnimOfStep(NetDirection(mask).0, NetDirection(mask).1)
    ensures mask % 5 != 0 ==> HeadingOf(mask) == Toward(OctantOf(NetDirection(mask).0, NetDirection(mask).1))
    ensures mask % 5 == 0 ==> HeadingOf(mask) == Still && MovementAnim(mask) == AnimIdle
  {
    if mask == 0 {} else if mask == 1 {} else if mask == 2 {} else if mask == 3 {}
    else if mask == 4 {} else if mask == 5 {} else if mask == 6 {} else if mask == 7 {}
    else if mask == 8 {} else if mask == 9 {} else if mask == 10 {} else if mask == 11 {}
    else if mask == 12 {} else if mask == 13 {} else if mask == 14 {} else {}
  }

  /**
   * The tables as written are indexed with the whole mask, so a mask with
   * a bit above the four directions reads past their 16 entries. The
   * direction byte of a received movement start is passed on unchecked,
   * so a foreign unit at rest that is sent direction 16 gets mask 16.
   */
  predicate TableIndexAsWrittenInBounds(mask: bv8)
  {
    (mask as int) < |MovementAnims| && (mask as int) < |MovementOctants|
  }

  lemma DirectionSixteenOverruns()
    ensures MaskAfterStart(0, 16) == 16 && !TableIndexAsWrittenInBounds(MaskAfterStart(0, 16))
    ensures TableIndex(MaskAfterStart(0, 16)) == 0
  {
  }

  /** CanMoveOn: only ground is walkable, whatever the flags. */
  function CanMoveOn(fieldType: U16, flags: U32): (r: bool)
    ensures r <==> fieldType == FieldGround
    ensures r ==> fieldType != FieldSolid && fieldType != FieldWater && fieldType != FieldLava
  {
    fieldType == FieldGround
  }

  // ---------------------------------------------------------------------
  // The unit methods, on a world object of a unit type
  // ---------------------------------------------------------------------

  /** UpdateMovementVector: the heading and the animation the mask selects. */
  method UpdateMovementVector(u: WorldObject, meta: MetadataTable, now: U32)
    requires u.Valid() && IsUnit(u.objectType)
    modifies u`heading, u`animId, u`animFrame, u`animTimer
    ensures u.heading == HeadingOf(u.moveMask)
    ensures u.Anim() == SetAnim(old(u.Anim()), u.TextureId(), meta, MovementAnim(u.moveMask), now)
  {
    var i := TableIndex(u.moveMask);
    if i % 5 == 0 {
      u.heading := Still;
    } else {
      u.heading := Toward(MovementOctants[i]);
    }
    u.SetAnimId(MovementAnims[i], meta, now);
  }

  /**
   * StartMovementInDirection. Nothing changes when the unit already moves
   * that way; otherwise the direction is added, the vector and animation
   * follow the new mask, and when the unit was at rest OnMoveStart records
   * the start time (started says so).
   */
  method StartMovementInDirection(u: WorldObject, dir: bv8, meta: MetadataTable, now: U32) returns (started: bool)
    requires u.Valid() && IsUnit(u.objectType)
    modifies u`moveMask, u`heading, u`animId, u`animFrame, u`animTimer, u`lastMovementUpdate
    ensures u.moveMask == MaskAfterStart(old(u.moveMask), dir)
    ensures started <==> !IsMoving(old(u.moveMask), dir) && old(u.moveMask) == 0
    ensures IsMoving(old(u.moveMask), dir) ==>
              u.heading == old(u.heading) && u.Anim() == old(u.Anim()) && u.lastMovementUpdate == old(u.lastMovementUpdate)
    ensures !IsMoving(old(u.moveMask), dir) ==>
              u.heading == HeadingOf(u.moveMask) &&
              u.Anim() == SetAnim(old(u.Anim()), u.TextureId(), meta, MovementAnim(u.moveMask), now) &&
              u.lastMovementUpdate == (if started then now else old(u.lastMovementUpdate))
  {
    started := false;
    if IsMoving(u.moveMask, dir) {
      return;
    }
    started := u.moveMask == 0;
    u.moveMask := u.moveMask | dir;
    UpdateMovementVector(u, meta, now);
    if started {
      u.lastMovementUpdate := now;
    }
  }

  /**
   * StopMovementInDirection. Nothing changes when the unit does not move
   * that way; otherwise the direction is removed and the vector and
   * animation follow the new mask. OnMoveStop, which does nothing, is
   * called when the mask becomes empty (stopped says so).
   */
  method StopMovementInDirection(u: WorldObject, dir: bv8, meta: MetadataTable, now: U32) returns (stopped: bool)
    requires u.Valid() && IsUnit(u.objectType)
    modifies u`moveMask, u`heading, u`animId, u`animFrame, u`animTimer
    ensures u.moveMask == MaskAfterStop(old(u.moveMask), dir)
    ensures stopped <==> IsMoving(old(u.moveMask), dir) && u.moveMask == 0
    ensures !IsMoving(old(u.moveMask), dir) ==> u.heading == old(u.heading) && u.Anim() == old(u.Anim())
    ensures IsMoving(old(u.moveMask), dir) ==>
              u.heading == HeadingOf(u.moveMask) &&
              u.Anim() == SetAnim(old(u.Anim()), u.TextureId(), meta, MovementAnim(u.moveMask), now)
  {
    stopped := false;
    if !IsMoving(u.moveMask, dir) {
      return;
    }
    u.moveMask := u.moveMask & !dir;
    UpdateMovementVector(u, meta, now);
    stopped := u.moveMask == 0;
  }

  /** Stopping the last direction held brings the unit to rest on the idle animation. */
  lemma LastStopIdles(mask: bv8, dir: bv8)
    requires IsMoving(mask, dir) && MaskAfterStop(mask, dir) == 0
    ensures HeadingOf(MaskAfterStop(mask, dir)) == Still && MovementAnim(MaskAfterStop(mask, dir)) == AnimIdle
  {
  }
}
