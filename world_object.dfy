/**
 * A world object as the client keeps it: the update-field words the
 * server replicates, the name, the position, and the animation the
 * renderer shows. Units (players and creatures) add their movement state;
 * because the model has no inheritance those fields live in this class
 * too and only the functions of module Unit touch them.
 *
 * Positions are floats in the client. Here each coordinate is a
 * whole-number stand-in, used for the visibility order and for the chunk
 * index the player's position is cast to; fractional positions are not
 * modelled.
 */
module WorldObject {
  import opened Wrappers
  import opened Bytes
  import opened ObjectEnums
  import opened ImageStorage
  import opened Compatibility

  // Update-field word indexes of every object, then of units.
  const ObjectFieldGuid: nat := 0
  const ObjectFieldImageId: nat := 2
  const ObjectFieldsEnd: nat := 3
  const UnitFieldLevel: nat := 3
  const UnitFieldMovementSpeed: nat := 4
  const UnitFieldFaction: nat := 5
  const UnitFieldHealth: nat := 6
  const UnitFieldsEnd: nat := 7
  const PlayerFieldsEnd: nat := 7
  const GameobjectFieldsEnd: nat := 3

  /** The number of update-field words the object's class allocates. */
  function FieldsEnd(t: ObjectType): (n: nat)
    requires t != MaxObjectType
    ensures n >= ObjectFieldsEnd
  {
    match t
    case TypePlayer => PlayerFieldsEnd
    case TypeCreature => UnitFieldsEnd
    case TypeGameobject => GameobjectFieldsEnd
  }

  // Animation ids.
  const AnimIdle: U32 := 0
  const AnimWalkUp: U32 := 1
  const AnimWalkRight: U32 := 2
  const AnimWalkDown: U32 := 3
  const AnimWalkLeft: U32 := 4
  const AnimWalkUpRight: U32 := 5
  const AnimWalkDownRight: U32 := 6
  const AnimWalkDownLeft: U32 := 7
  const AnimWalkUpLeft: U32 := 8

  /** The id the constructor stores: -1 as an unsigned word, which names no animation. */
  const NoAnim: U32 := 0xFFFF_FFFF

  /** _isMovementAnim */
  predicate IsMovementAnim(animId: U32)
  {
    AnimWalkUp <= animId <= AnimWalkUpLeft
  }

  // ---------------------------------------------------------------------
  // Words and bytes of the update fields
  // ---------------------------------------------------------------------

  function Low32(v: U64): U32 { v % 0x1_0000_0000 }
  function High32(v: U64): U32 { v / 0x1_0000_0000 }

  /** GetUInt64Value: the word at the field is the low half, the next word the high half. */
  function Join64(lo: U32, hi: U32): U64
  {
    lo + hi * 0x1_0000_0000
  }

  /** Splitting a 64-bit value into its halves and joining them gives the value back, and the halves back. */
  lemma SplitJoin(v: U64, lo: U32, hi: U32)
    ensures Join64(Low32(v), High32(v)) == v
    ensures Low32(Join64(lo, hi)) == lo && High32(Join64(lo, hi)) == hi
  {
  }

  /*
   * The byte operations on a word. The source shifts and masks an unsigned
   * 32-bit word; on such a word, shifting right by 8 is division by 256,
   * and clearing the byte at an offset and or-ing x (a byte) into its place
   * is subtracting the old byte and adding x, both scaled by 256^offset.
   * The model uses the arithmetic form.
   */

  /** 256^offset, the weight of the byte at an offset. */
  function Scale(offset: nat): nat
    requires offset <= 3
  {
    if offset == 0 then 1 else if offset == 1 then 0x100 else if offset == 2 then 0x1_0000 else 0x100_0000
  }
  /** The word shifted right by 8·offset, as SetUByteValue compares it with the new byte. */
  function Shifted(w: nat, offset: nat): nat
    requires offset <= 3
  {
    if offset == 0 then w else if offset == 1 then w / 0x100 else if offset == 2 then w / 0x100 / 0x100 else w / 0x100 / 0x100 / 0x100
  }
  /** GetUByteValue: the shifted word cut to a byte. */
  function ByteOf(w: nat, offset: nat): Byte
    requires offset <= 3
  {
    Shifted(w, offset) % 0x100
  }
  /** SetUByteValue's replacement: the byte at the offset becomes x. */
  function WithByte(w: U32, offset: nat, x: Byte): int
    requires offset <= 3
  {
    w - ByteOf(w, offset) * Scale(offset) + x * Scale(offset)
  }
  /** The word with the bytes b0 (lowest) to b3. */
  function Word(b0: Byte, b1: Byte, b2: Byte, b3: Byte): nat
  {
    b0 + 0x100 * (b1 + 0x100 * (b2 + 0x100 * b3))
  }
  /** Division by 256 of a number written in base 256 splits off its last digit. */
  lemma Div256(q: nat, r: Byte)
    ensures (q * 0x100 + r) / 0x100 == q && (q * 0x100 + r) % 0x100 == r
  {
  }
  /** A word built from four bytes fits 32 bits and yields those bytes. */
  lemma WordBytes(b0: Byte, b1: Byte, b2: Byte, b3: Byte)
    ensures var w := Word(b0, b1, b2, b3);
      w < 0x1_0000_0000 && ByteOf(w, 0) == b0 && ByteOf(w, 1) == b1 && ByteOf(w, 2) == b2 && ByteOf(w, 3) == b3
  {
    var r2 := b2 + 0x100 * b3;
    var r1 := b1 + 0x100 * r2;
    Div256(r1, b0);
    Div256(r2, b1);
    Div256(b3, b2);
    Div256(0, b3);
  }
  /** Every word is built from its four bytes. */
  lemma BytesWord(w: U32)
    ensures w == Word(ByteOf(w, 0), ByteOf(w, 1), ByteOf(w, 2), ByteOf(w, 3))
  {
    var r1 := w / 0x100;
    var r2 := r1 / 0x100;
    var r3 := r2 / 0x100;
    assert r3 < 0x100;
    assert Shifted(w, 3) == r3;
  }
  /**
   * Replacing the byte at an offset keeps the value a 32-bit word; the byte
   * written reads back at that offset and every other byte reads as before.
   */
  lemma SetThenGetByte(w: U32, offset: nat, other: nat, x: Byte)
    requires offset <= 3 && other <= 3
    ensures 0 <= WithByte(w, offset, x) < 0x1_0000_0000
    ensures ByteOf(WithByte(w, offset, x), other) == if other == offset then x else ByteOf(w, other)
  {
    BytesWord(w);
    var b0, b1, b2, b3 := ByteOf(w, 0), ByteOf(w, 1), ByteOf(w, 2), ByteOf(w, 3);
    if offset == 0 {
      assert WithByte(w, offset, x) == Word(x, b1, b2, b3);
      WordBytes(x, b1, b2, b3);
    } else if offset == 1 {
      assert WithByte(w, offset, x) == Word(b0, x, b2, b3);
      WordBytes(b0, x, b2, b3);
    } else if offset == 2 {
      assert WithByte(w, offset, x) == Word(b0, b1, x, b3);
      WordBytes(b0, b1, x, b3);
    } else {
      assert WithByte(w, offset, x) == Word(b0, b1, b2, x);
      WordBytes(b0, b1, b2, x);
    }
  }
  /**
   * SetUByteValue returns early when the word shifted by the offset already
   * equals the byte. That happens only when the byte is in place and every
   * higher bit is clear, so the early return changes nothing: writing the
   * byte would have left the word as it was.
   */
  lemma EarlyReturnHarmless(w: U32, offset: nat, x: Byte)
    requires offset <= 3 && Shifted(w, offset) == x
    ensures WithByte(w, offset, x) == w
  {
  }

  // ---------------------------------------------------------------------
  // Animation state
  // ---------------------------------------------------------------------

  /** The animation id, the frame shown and the time the frame started (0: frozen). */
  datatype AnimState = AnimState(animId: U32, frame: U32, timer: U32)

  /** The first frame an animation shows: movement animations skip their first, "idle" frame when they have more than two. */
  function StartFrame(animId: U32, r: AnimationRecord): (f: U32)
    ensures r.frameBegin <= f
    ensures f == r.frameBegin || f < r.frameEnd
  {
    if !IsMovementAnim(animId) || r.frameBegin + 1 >= r.frameEnd then r.frameBegin else r.frameBegin + 1
  }

  /**
   * SetAnimId. The same id or an object without an image changes nothing.
   * Going idle from a movement animation parks on that animation's first
   * frame with the timer stopped (or, without its record, restarts the
   * timer on the current frame); going idle otherwise shows the idle
   * animation's first frame, or frame 0 without a record. Any other id
   * needs a record and starts at its first frame.
   */
  function SetAnim(st: AnimState, textureId: U32, meta: MetadataTable, animId: U32, now: U32): (r: AnimState)
    ensures r.animId == st.animId || r.animId == animId
  {
    if st.animId == animId || textureId == 0 then st
    else
      var animres := AnimationOf(meta, textureId, animId);
      if animId == AnimIdle then
        if IsMovementAnim(st.animId) then
          match AnimationOf(meta, textureId, st.animId)
          case Some(r2) => AnimState(AnimIdle, r2.frameBegin, 0)
          case None => AnimState(AnimIdle, st.frame, now)
        else AnimState(AnimIdle, if animres.Some? then animres.value.frameBegin else 0, now)
      else if animres.None? then st
      else AnimState(animId, StartFrame(animId, animres.value), now)
  }

  /**
   * WorldObject::Update's animation step: when the current animation has a
   * record, the timer runs and more than the frame delay has passed, the
   * timer restarts and the frame advances (as a 32-bit counter); past the
   * last frame it loops back to the start frame.
   */
  function Tick(st: AnimState, textureId: U32, meta: MetadataTable, now: U32): (r: AnimState)
    ensures r.animId == st.animId
  {
    if textureId == 0 then st
    else match AnimationOf(meta, textureId, st.animId)
      case None => st
      case Some(rec) =>
        if st.timer != 0 && MSTimeDiff(st.timer, now) > rec.frameDelay then
          var f := (st.frame + 1) % 0x1_0000_0000;
          AnimState(st.animId, if f > rec.frameEnd then StartFrame(st.animId, rec) else f, now)
        else st
  }

  /** The frame lies inside the range of the animation's record. */
  predicate InRange(st: AnimState, rec: AnimationRecord)
  {
    rec.frameBegin <= st.frame <= rec.frameEnd
  }

  /** Setting an animation twice is the same as setting it once. */
  lemma SetAnimIdempotent(st: AnimState, textureId: U32, meta: MetadataTable, animId: U32, now: U32, later: U32)
    ensures SetAnim(SetAnim(st, textureId, meta, animId, now), textureId, meta, animId, later) == SetAnim(st, textureId, meta, animId, now)
  {
  }

  /** A newly started animation with a well-formed record shows a frame of that animation. */
  lemma StartsInRange(st: AnimState, textureId: U32, meta: MetadataTable, animId: U32, now: U32)
    requires st.animId != animId && textureId != 0 && animId != AnimIdle
    requires AnimationOf(meta, textureId, animId).Some?
    requires AnimationOf(meta, textureId, animId).value.frameBegin <= AnimationOf(meta, textureId, animId).value.frameEnd
    ensures InRange(SetAnim(st, textureId, meta, animId, now), AnimationOf(meta, textureId, animId).value)
  {
  }

  /**
   * Ticking keeps the frame inside a well-formed animation (one whose last
   * frame is below the counter's top, so the increment does not wrap), and
   * a movement animation that skips its idle frame never returns to it.
   */
  lemma TickStaysInRange(st: AnimState, textureId: U32, meta: MetadataTable, now: U32)
    requires textureId != 0 && AnimationOf(meta, textureId, st.animId).Some?
    requires var rec := AnimationOf(meta, textureId, st.animId).value;
             InRange(st, rec) && rec.frameEnd < 0xFFFF_FFFF
    ensures var rec := AnimationOf(meta, textureId, st.animId).value;
            InRange(Tick(st, textureId, meta, now), rec)
    ensures var rec := AnimationOf(meta, textureId, st.animId).value;
            IsMovementAnim(st.animId) && rec.frameBegin + 1 < rec.frameEnd && st.frame > rec.frameBegin ==>
            Tick(st, textureId, meta, now).frame > rec.frameBegin
  {
  }

  /**
   * Stopping a movement animation whose record exists parks the object on
   * that animation's first frame with the timer at 0, and a stopped timer
   * freezes the frame for every later tick.
   */
  lemma IdleAfterMoveFreezes(st: AnimState, textureId: U32, meta: MetadataTable, now: U32, later: U32)
    requires textureId != 0 && IsMovementAnim(st.animId) && AnimationOf(meta, textureId, st.animId).Some?
    ensures var idle := SetAnim(st, textureId, meta, AnimIdle, now);
            idle == AnimState(AnimIdle, AnimationOf(meta, textureId, st.animId).value.frameBegin, 0) &&
            Tick(idle, textureId, meta, later) == idle
  {
  }

  // ---------------------------------------------------------------------
  // Unit movement state kept on the object
  // ---------------------------------------------------------------------

  /** The direction of the movement vector: none, or the angle k·π/4 measured clockwise on screen from +X. */
  datatype Heading = Still | Toward(eighths: nat)

  class WorldObject {
    const objectType: ObjectType
    /** The update-field words; empty until InitializeObject allocates them. */
    var fields: array<U32>
    /** The name shown above the object, as UTF-8 bytes. */
    var name: seq<Byte>
    var posX: int
    var posY: int
    var mapId: U32
    var animId: U32
    var animFrame: U32
    var animTimer: U32
    /** The object's place in the map's visibility vector. */
    var visibilityIndex: nat
    /** Units only: the direction bits held, the resulting heading, and the time of the last position step. */
    var moveMask: bv8
    var heading: Heading
    var lastMovementUpdate: U32

    /** The fields are allocated with the size the object's class gives them. */
    predicate Valid()
      reads this`fields
    {
      objectType != MaxObjectType && fields.Length == FieldsEnd(objectType)
    }

    function Anim(): AnimState
      reads this`animId, this`animFrame, this`animTimer
    {
      AnimState(animId, animFrame, animTimer)
    }

    /**
     * The Player, Creature and Gameobject constructors: no animation, frame
     * 0, the timer at the current tick, the name "???" and the origin as
     * position. The visibility index and the last movement time are left
     * uninitialised by the source; the model starts them at 0.
     */
    constructor (t: ObjectType, now: U32)
      requires t != MaxObjectType
      ensures objectType == t && fields.Length == 0 && name == [63, 63, 63]
      ensures posX == 0 && posY == 0 && mapId == 0
      ensures Anim() == AnimState(NoAnim, 0, now)
      ensures moveMask == 0 && heading == Still
    {
      objectType := t;
      fields := new U32[0];
      name := [63, 63, 63];
      posX := 0;
      posY := 0;
      mapId := 0;
      animId := NoAnim;
      animFrame := 0;
      animTimer := now;
      visibilityIndex := 0;
      moveMask := 0;
      heading := Still;
      lastMovementUpdate := 0;
    }

    /** InitializeObject: zeroed update fields of the class's size, then the GUID in words 0 and 1. */
    method InitializeObject(guid: U64)
      requires objectType != MaxObjectType
      modifies this
      ensures fresh(fields) && Valid()
      ensures GetGUID() == guid
      ensures forall i :: ObjectFieldImageId <= i < fields.Length ==> fields[i] == 0
      ensures name == old(name) && posX == old(posX) && posY == old(posY) && Anim() == old(Anim())
      ensures moveMask == old(moveMask) && heading == old(heading)
    {
      fields := new U32[FieldsEnd(objectType)](_ => 0);
      SetUInt64Value(ObjectFieldGuid, guid);
    }

    /** GetGUID: words 0 and 1 as one 64-bit value. */
    function GetGUID(): U64
      requires fields.Length >= 2
      reads this`fields, fields
    {
      Join64(fields[0], fields[1])
    }

    function GetUInt32Value(field: nat): U32
      requires field < fields.Length
      reads this`fields, fields
    {
      fields[field]
    }

    /** The image id the object is drawn with (word 2); 0 means none. */
    function TextureId(): U32
      requires Valid()
      reads this`fields, fields
    {
      fields[ObjectFieldImageId]
    }

    function GetUInt64Value(field: nat): (v: U64)
      requires field + 1 < fields.Length
      reads this`fields, fields
      ensures Low32(v) == fields[field] && High32(v) == fields[field + 1]
    {
      Join64(fields[field], fields[field + 1])
    }

    /** GetUByteValue, for the offsets 0..3 that fit a word. */
    function GetUByteValue(field: nat, offset: nat): Byte
      requires field < fields.Length && offset <= 3
      reads this`fields, fields
    {
      ByteOf(fields[field], offset)
    }

    /** SetUInt32Value: the word becomes the value (the equality short cut changes nothing). */
    method SetUInt32Value(field: nat, value: U32)
      requires field < fields.Length
      modifies fields
      ensures fields[..] == old(fields[..])[field := value]
    {
      if fields[field] == value {
        return;
      }
      fields[field] := value;
    }

    /** SetUInt64Value: the low half to the word, the high half to the next. */
    method SetUInt64Value(field: nat, value: U64)
      requires field + 1 < fields.Length
      modifies fields
      ensures fields[..] == old(fields[..])[field := Low32(value)][field + 1 := High32(value)]
      ensures GetUInt64Value(field) == value
    {
      SetUInt32Value(field, Low32(value));
      SetUInt32Value(field + 1, High32(value));
      SplitJoin(value, 0, 0);
    }

    /** SetUByteValue: an offset past the word is ignored; otherwise one byte of the word is replaced. */
    method SetUByteValue(field: nat, offset: nat, value: Byte)
      requires field < fields.Length
      modifies fields
      ensures offset > 3 ==> fields[..] == old(fields[..])
      ensures offset <= 3 ==> fields[..] == old(fields[..])[field := WithByte(old(fields[field]), offset, value)]
    {
      if offset > 3 {
        return;
      }
      if Shifted(fields[field], offset) == value {
        EarlyReturnHarmless(fields[field], offset, value);
        return;
      }
      SetThenGetByte(fields[field], offset, offset, value);
      fields[field] := WithByte(fields[field], offset, value);
    }

    /** ApplyValueSet: the words sent overwrite the first fields; the copy must fit the allocation. */
    method ApplyValueSet(values: seq<U32>)
      requires |values| <= fields.Length
      modifies fields
      ensures fields[..] == values + old(fields[..])[|values|..]
    {
      var i := 0;
      while i < |values|
        invariant i <= |values|
        invariant fields[..] == values[..i] + old(fields[..])[i..]
      {
        fields[i] := values[i];
        i := i + 1;
        assert values[..i] == values[..i - 1] + [values[i - 1]];
      }
      assert values[..i] == values;
    }

    method SetName(n: seq<Byte>)
      modifies this`name
      ensures name == n
    {
      name := n;
    }

    /** SetAnimId; the image id is the object's word 2, the records come from the image storage. */
    method SetAnimId(id: U32, meta: MetadataTable, now: U32)
      requires Valid()
      modifies this`animId, this`animFrame, this`animTimer
      ensures Anim() == SetAnim(old(Anim()), TextureId(), meta, id, now)
    {
      if animId == id {
        return;
      }
      var textureId := TextureId();
      if textureId == 0 {
        return;
      }
      var animres := AnimationOf(meta, textureId, id);
      if id == AnimIdle {
        if IsMovementAnim(animId) {
          var animres2 := AnimationOf(meta, textureId, animId);
          if animres2.Some? {
            animFrame := animres2.value.frameBegin;
            animTimer := 0;
          } else {
            animTimer := now;
          }
        } else {
          animFrame := if animres.Some? then animres.value.frameBegin else 0;
          animTimer := now;
        }
        animId := AnimIdle;
        return;
      }
      if animres.None? {
        return;
      }
      animId := id;
      animFrame := StartFrame(id, animres.value);
      animTimer := now;
    }

    /** WorldObject::Update: one animation step at the current tick. */
    method Update(meta: MetadataTable, now: U32)
      requires Valid()
      modifies this`animFrame, this`animTimer
      ensures Anim() == Tick(old(Anim()), TextureId(), meta, now)
    {
      var textureId := TextureId();
      if textureId != 0 {
        var animres := AnimationOf(meta, textureId, animId);
        if animres.Some? && animTimer != 0 && MSTimeDiff(animTimer, now) > animres.value.frameDelay {
          animTimer := now;
          animFrame := (animFrame + 1) % 0x1_0000_0000;
          if animFrame > animres.value.frameEnd {
            animFrame := StartFrame(animId, animres.value);
          }
        }
      }
    }
  }
}
