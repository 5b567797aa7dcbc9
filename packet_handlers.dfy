// The packet handlers as decoders: each reads its fixed field sequence from
// the packet cursor and yields the list of calls it makes into the rest of
// the client (its effects), in order. A read past the payload throws, and so
// does a dereference of an absent player, map or object; either ends the
// handler with the effects made so far and a fault.
module PacketHandlers {
  import opened Wrappers
  import opened Bytes
  import opened SmartPacket
  import opened Enums
  import opened MapTypes
  import opened ObjectEnums
  import opened HandlerTable

  /** Number of inventory slots of a character. */
  const InventorySlots: nat := 100

  /** The name shown for a name-query reply whose name is empty. */
  const UnknownName: seq<Byte> := ['?' as int, '?' as int, '?' as int]

  /** Why a handler stopped early: an uncaught packet read exception, or a
      dereference of a missing player, map or created object. */
  datatype Fault = ReadFault(error: ReadError) | NoPlayer | NoMap | UnknownObjectType(guid: U64)

  /** The nine 32-bit words of an image metadata reply. */
  datatype ImageHeader = ImageHeader(
    id: U32, sizeX: U32, sizeY: U32, baseCenterX: U32, baseCenterY: U32,
    collisionX1: U32, collisionY1: U32, collisionX2: U32, collisionY2: U32)

  function HeaderWords(h: ImageHeader): (w: seq<U32>)
    ensures |w| == 9 && w[0] == h.id
  {
    [h.id, h.sizeX, h.sizeY, h.baseCenterX, h.baseCenterY,
     h.collisionX1, h.collisionY1, h.collisionX2, h.collisionY2]
  }

  /** The calls a handler makes on the network manager, the application, the
      gameplay layer, the world objects, the stores and the resource layer.
      Strings are the received UTF-8 bytes; floats are their bit patterns. */
  datatype Effect =
    | SetConnectionState(state: ConnectionState)
    | Disconnect
    | SignalEvent(action: GlobalAction)
    | SetStageType(stage: StageType)
    | ClearCharacterList
    | AddCharacter(charGuid: U32, name: seq<Byte>, level: U16)
    | CreateResourceStream(filename: seq<Byte>, rtype: Byte, id: U32)
    | WriteToResourceStream(rtype: Byte, id: U32, bytes: seq<Byte>)
    | FinishResourceStream(rtype: Byte, id: U32)
    /** looks the file checksum up and sends the resource checksum verify */
    | SendResourceChecksum(rtype: Byte, id: U32)
    | RequestResource(rtype: Byte, id: U32)
    | CreatePlayer(mapId: U32, x: U32, y: U32)
    /** creates the object for the GUID and applies the update fields */
    | CreateForeignObject(guid: U64, fields: seq<U32>)
    | ApplyPlayerFields(fields: seq<U32>)
    | SetPosition(guid: U64, x: U32, y: U32)
    | StartMovement(guid: U64, dir: Byte)
    | StopMovement(guid: U64, dir: Byte)
    | AddWorldObject(guid: U64)
    | RemoveWorldObject(guid: U64)
    | SetUpdateField(guid: U64, field: U32, value: U32)
    | InsertMapRecord(mapId: U32, filename: seq<Byte>, checksum: seq<Byte>, time: U32)
    | CreateMapUsing(header: MapHeader)
    | SendMapMetadataVerify(mapId: U32, checksum: seq<Byte>)
    | SetFieldContents(x: U32, y: U32, cell: MapField)
    | InsertMapChunkRecord(mapId: U32, startX: U32, startY: U32, sizeX: U32, sizeY: U32, checksum: seq<Byte>, time: U32)
    | SaveMapToFile
    | SendMapChunkVerify(mapId: U32, startX: U32, startY: U32, checksum: seq<Byte>)
    | SignalMapLoaded(mapId: U32)
    | RequestMapMetadata(mapId: U32)
    | SignalChunkLoaded(startX: U32, startY: U32)
    | RequestMapChunk(mapId: U32, startX: U32, startY: U32)
    | WipeImageMetadata(id: U32)
    | InsertImageAnimation(id: U32, animId: U32, frameBegin: U32, frameEnd: U32, frameDelay: U32, time: U32)
    | InsertImageMetadata(image: ImageHeader, checksum: seq<Byte>, time: U32)
    | SendImageMetadataVerify(id: U32, checksum: seq<Byte>)
    | SignalImageMetadataRetrieved(id: U32)
    | RequestImageMetadata(id: U32)
    | NameResolved(guid: U64, name: seq<Byte>)
    | Talk(guid: U64, talkType: Byte, text: seq<Byte>)
    | AddChatMessage(talkType: Byte, author: Option<seq<Byte>>, text: seq<Byte>)
    /** starts or resets the dialogue with the fixed "conversation in progress" text */
    | StartWaitingDialogue(guid: U64)
    | StartDialogue(guid: U64, text: seq<Byte>)
    | AddDialogueDecision(id: U32, text: seq<Byte>)
    | EndDialogue
    | ClearInventory
    | SetInventorySlot(slot: U32, itemGuid: U32, itemId: U32, count: U32)
    | AddItemCacheEntry(id: U32, imageId: U32, name: seq<Byte>, description: seq<Byte>, stackSize: U32, rarity: U32, time: U32)
    | SignalItemCacheEntryLoaded(id: U32)
    | ReportItemOperation(itemId: U32, operation: Byte, count: U32)

  /** The result of running a handler: the effects in order, the fault that
      stopped it (if any) and the cursor after the last successful read. */
  datatype Step = Step(effects: seq<Effect>, fault: Option<Fault>, rest: Cursor)

  function Done(es: seq<Effect>, c: Cursor): Step { Step(es, None, c) }
  function Failed(es: seq<Effect>, c: Cursor, e: ReadError): Step { Step(es, Some(ReadFault(e)), c) }
  function Crashed(es: seq<Effect>, c: Cursor, f: Fault): Step { Step(es, Some(f), c) }

  /** Effects es happen first, then the step s. */
  function Then(es: seq<Effect>, s: Step): Step { Step(es + s.effects, s.fault, s.rest) }

  /** Effects es happen after s, unless s stopped with a fault. */
  function Finally(s: Step, es: seq<Effect>): Step
  {
    if s.fault.None? then Step(s.effects + es, None, s.rest) else s
  }

  lemma ThenThen(a: seq<Effect>, b: seq<Effect>, s: Step)
    ensures Then(a, Then(b, s)) == Then(a + b, s)
  {
    assert a + (b + s.effects) == (a + b) + s.effects;
  }

  /** Two cursors over the same packet. */
  predicate SameBuffer(c: Cursor, d: Cursor)
  {
    d.data == c.data && d.size == c.size
  }

  /** What the handlers see of the session when they run: the local player's
      GUID when a player object exists, whether a map exists, and the
      objects on the map with their types and names. */
  datatype Session = Session(player: Option<U64>, hasMap: bool, objects: map<U64, Seen>)

  /** What a handler reads of an object on the map: its type and its name. */
  datatype Seen = Seen(otype: ObjectType, name: seq<Byte>)

  /** GetForeignObject: nothing without a map, else the map's object. */
  function ForeignType(s: Session, guid: U64): (t: Option<ObjectType>)
    ensures t.Some? <==> s.hasMap && guid in s.objects
    ensures t.Some? ==> t.value == s.objects[guid].otype
  {
    if s.hasMap && guid in s.objects then Some(s.objects[guid].otype) else None
  }

  /** The values handlers take from outside the packet: the wall clock, and
      the checksum functions over the stored content (CRC32 rendered as a
      string). */
  datatype Context = Context(
    now: U32,
    headerChecksum: MapHeader -> seq<Byte>,
    chunkChecksum: seq<MapField> -> seq<Byte>,
    imageChecksum: seq<U32> -> seq<Byte>,
    dialogueWait: Byte,
    dialogueDecide: Byte)

  /** A 32-bit unsigned sum. */
  function Wrap32(x: nat): (r: U32)
    ensures x < 0x1_0000_0000 ==> r == x
  {
    x % 0x1_0000_0000
  }

  // ---------------------------------------------------------------- counted reads

  /** n one-byte reads in a row, appended to acc. */
  function DecodeUInt8s(c: Cursor, n: nat, acc: seq<Byte>): (r: Read<seq<Byte>>)
    requires c.Wf()
    ensures r.Ok? ==> |r.value.value| == |acc| + n && SameBuffer(c, r.value.rest)
    decreases n
  {
    if n == 0 then Ok(Got(acc, c))
    else
      var b :- DecodeUInt8(c);
      DecodeUInt8s(b.rest, n - 1, acc + [b.value])
  }

  /** Reading n bytes one at a time yields the n bytes at the cursor when they
      fit; otherwise the read that fails is the one at the end of the payload,
      so the reported position is the size, not the starting cursor. */
  lemma {:induction false} DecodeUInt8sIsSlice(c: Cursor, n: nat, acc: seq<Byte>)
    requires c.Wf() && c.pos <= c.size
    ensures c.pos + n <= c.size ==>
      DecodeUInt8s(c, n, acc) == Ok(Got(acc + c.data[c.pos..c.pos + n], c.(pos := c.pos + n)))
    ensures c.pos + n > c.size ==>
      DecodeUInt8s(c, n, acc) == Err(PacketReadException(c.size, c.size))
    decreases n
  {
    Pow256Widths();
    if n == 0 {
      assert c.(pos := c.pos + n) == c && acc + c.data[c.pos..c.pos + n] == acc;
    } else if c.pos + 1 <= c.size {
      var b := DecodeUInt8(c);
      var c1 := c.(pos := c.pos + 1);
      DecodeUInt8sIsSlice(c1, n - 1, acc + [c.data[c.pos]]);
      if c.pos + n <= c.size {
        assert (acc + [c.data[c.pos]]) + c.data[c1.pos..c1.pos + (n - 1)] == acc + c.data[c.pos..c.pos + n];
      }
    }
  }

  method ReadUInt8s(c: Cursor, n: nat) returns (r: Read<seq<Byte>>)
    requires c.Wf()
    ensures r == DecodeUInt8s(c, n, [])
  {
    var bytes: seq<Byte> := [];
    var cur := c;
    var left: nat := n;
    while left > 0
      invariant cur.Wf()
      invariant DecodeUInt8s(c, n, []) == DecodeUInt8s(cur, left, bytes)
    {
      var b := DecodeUInt8(cur);
      if b.Err? {
        return Err(b.error);
      }
      bytes := bytes + [b.value.value];
      cur := b.value.rest;
      left := left - 1;
    }
    return Ok(Got(bytes, cur));
  }

  /** n 32-bit reads in a row, appended to acc. */
  function DecodeUInt32s(c: Cursor, n: nat, acc: seq<U32>): (r: Read<seq<U32>>)
    requires c.Wf()
    ensures r.Ok? ==> |r.value.value| == |acc| + n && SameBuffer(c, r.value.rest)
    decreases n
  {
    if n == 0 then Ok(Got(acc, c))
    else
      var w :- DecodeUInt32(c);
      DecodeUInt32s(w.rest, n - 1, acc + [w.value])
  }

  method ReadUInt32s(c: Cursor, n: nat) returns (r: Read<seq<U32>>)
    requires c.Wf()
    ensures r == DecodeUInt32s(c, n, [])
  {
    var words: seq<U32> := [];
    var cur := c;
    var left: nat := n;
    while left > 0
      invariant cur.Wf()
      invariant DecodeUInt32s(c, n, []) == DecodeUInt32s(cur, left, words)
    {
      var w := DecodeUInt32(cur);
      if w.Err? {
        return Err(w.error);
      }
      words := words + [w.value.value];
      cur := w.value.rest;
      left := left - 1;
    }
    return Ok(Got(words, cur));
  }

  // ---------------------------------------------------------------- repeated items

  /** The item kinds read in a counted loop, one item per iteration. */
  datatype Item =
    | CharacterItem
    | FailedResourceItem
    | UpdateFieldItem(guid: U64)
    | DestroyItem
    | AnimationItem(imageId: U32, now: U32)
    | DecisionItem
    | InventorySlotItem

  /** One item at the cursor; i is the iteration index. */
  function DecodeItem(c: Cursor, item: Item, i: nat): (r: Read<seq<Effect>>)
    requires c.Wf()
    ensures r.Ok? ==> SameBuffer(c, r.value.rest)
    ensures r.Ok? && !item.InventorySlotItem? ==> |r.value.value| == 1
    ensures r.Ok? && item.InventorySlotItem? ==> |r.value.value| <= 1
    ensures r.Ok? && r.value.value != [] ==> Yields(item, r.value.value[0])
  {
    match item
    case CharacterItem => DecodeCharacter(c)
    case FailedResourceItem => DecodeFailedResource(c)
    case UpdateFieldItem(guid) => DecodeUpdateField(c, guid)
    case DestroyItem => DecodeDestroyed(c)
    case AnimationItem(imageId, now) => DecodeAnimation(c, imageId, now)
    case DecisionItem => DecodeDecision(c)
    case InventorySlotItem => DecodeInventorySlot(c, i)
  }

  /** u32 character GUID, string name, u16 level. */
  function DecodeCharacter(c: Cursor): (r: Read<seq<Effect>>)
    requires c.Wf()
    ensures r.Ok? ==> SameBuffer(c, r.value.rest) && |r.value.value| == 1 && r.value.value[0].AddCharacter?
  {
    var g :- DecodeUInt32(c);
    var n :- DecodeString(g.rest);
    var l :- DecodeUInt16(n.rest);
    Ok(Got([AddCharacter(g.value, n.value, l.value)], l.rest))
  }

  /** u8 resource type, u32 id. */
  function DecodeFailedResource(c: Cursor): (r: Read<seq<Effect>>)
    requires c.Wf()
    ensures r.Ok? ==> SameBuffer(c, r.value.rest) && |r.value.value| == 1 && r.value.value[0].RequestResource?
  {
    var t :- DecodeUInt8(c);
    var id :- DecodeUInt32(t.rest);
    Ok(Got([RequestResource(t.value, id.value)], id.rest))
  }

  /** u32 field index, u32 value. */
  function DecodeUpdateField(c: Cursor, guid: U64): (r: Read<seq<Effect>>)
    requires c.Wf()
    ensures r.Ok? ==> (SameBuffer(c, r.value.rest) && |r.value.value| == 1 &&
      r.value.value[0].SetUpdateField? && r.value.value[0].guid == guid)
  {
    var f :- DecodeUInt32(c);
    var v :- DecodeUInt32(f.rest);
    Ok(Got([SetUpdateField(guid, f.value, v.value)], v.rest))
  }

  /** u64 GUID of an object to remove. */
  function DecodeDestroyed(c: Cursor): (r: Read<seq<Effect>>)
    requires c.Wf()
    ensures r.Ok? ==> SameBuffer(c, r.value.rest) && |r.value.value| == 1 && r.value.value[0].RemoveWorldObject?
  {
    var g :- DecodeUInt64(c);
    Ok(Got([RemoveWorldObject(g.value)], g.rest))
  }

  /** u32 animation id, first frame, last frame, frame delay. */
  function DecodeAnimation(c: Cursor, imageId: U32, now: U32): (r: Read<seq<Effect>>)
    requires c.Wf()
    ensures r.Ok? ==> (SameBuffer(c, r.value.rest) && |r.value.value| == 1 &&
      r.value.value[0].InsertImageAnimation? && r.value.value[0].id == imageId && r.value.value[0].time == now)
  {
    var w :- DecodeUInt32s(c, 4, []);
    Ok(Got([InsertImageAnimation(imageId, w.value[0], w.value[1], w.value[2], w.value[3], now)], w.rest))
  }

  /** u32 decision id, string text. */
  function DecodeDecision(c: Cursor): (r: Read<seq<Effect>>)
    requires c.Wf()
    ensures r.Ok? ==> SameBuffer(c, r.value.rest) && |r.value.value| == 1 && r.value.value[0].AddDialogueDecision?
  {
    var id :- DecodeUInt32(c);
    var t :- DecodeString(id.rest);
    Ok(Got([AddDialogueDecision(id.value, t.value)], t.rest))
  }

  /** u32 item GUID; unless zero, u32 item id and u32 count for slot i. */
  function DecodeInventorySlot(c: Cursor, i: nat): (r: Read<seq<Effect>>)
    requires c.Wf()
    ensures r.Ok? ==> SameBuffer(c, r.value.rest) && |r.value.value| <= 1
    ensures r.Ok? && r.value.value != [] ==> r.value.value[0].SetInventorySlot? && r.value.value[0].itemGuid != 0
  {
    var g :- DecodeUInt32(c);
    if g.value == 0 then Ok(Got([], g.rest))
    else
      var id :- DecodeUInt32(g.rest);
      var n :- DecodeUInt32(id.rest);
      Ok(Got([SetInventorySlot(Wrap32(i), g.value, id.value, n.value)], n.rest))
  }

  /** Items from, from+1, ... for n iterations after the effects acc: the
      effects in order, or those of the complete items and the failing read. */
  function Gather(c: Cursor, item: Item, from: nat, n: nat, acc: seq<Effect>): (s: Step)
    requires c.Wf()
    ensures SameBuffer(c, s.rest)
    ensures s.fault.None? || s.fault.value.ReadFault?
    ensures |acc| <= |s.effects| <= |acc| + n && s.effects[..|acc|] == acc
    ensures s.fault.None? && !item.InventorySlotItem? ==> |s.effects| == |acc| + n
    ensures AllYield(item, s.effects, |acc|)
    decreases n
  {
    if n == 0 then Done(acc, c)
    else
      var r := DecodeItem(c, item, from);
      if r.Err? then Failed(acc, c, r.error)
      else
        var v := r.value.value;
        var s := Gather(r.value.rest, item, from + 1, n - 1, acc + v);
        PrefixAfter(s.effects, acc, v);
        YieldsAfter(item, s.effects, acc, v);
        s
  }

  lemma PrefixAfter(es: seq<Effect>, acc: seq<Effect>, v: seq<Effect>)
    requires |acc + v| <= |es| && es[..|acc + v|] == acc + v
    ensures |acc| <= |es| && es[..|acc|] == acc
  {
    assert es[..|acc|] == es[..|acc + v|][..|acc|];
  }

  /** The counted loop of a handler. */
  method GatherLoop(c: Cursor, item: Item, n: nat, acc: seq<Effect>) returns (s: Step)
    requires c.Wf()
    ensures s == Gather(c, item, 0, n, acc)
  {
    var effects := acc;
    var cur := c;
    var i: nat := 0;
    var left: nat := n;
    while left > 0
      invariant i + left == n && cur.Wf()
      invariant Gather(c, item, 0, n, acc) == Gather(cur, item, i, left, effects)
    {
      var r := DecodeItem(cur, item, i);
      if r.Err? {
        return Failed(effects, cur, r.error);
      }
      effects := effects + r.value.value;
      cur := r.value.rest;
      i := i + 1;
      left := left - 1;
    }
    return Done(effects, cur);
  }


  // ---------------------------------------------------------------- fixed field groups

  function DecodeTypeAndId(c: Cursor): (r: Read<(Byte, U32)>)
    requires c.Wf()
    ensures r.Ok? <==> c.pos + 5 <= c.size
    ensures r.Ok? ==> r.value.rest == c.(pos := c.pos + 5) && r.value.value.0 == c.data[c.pos]
    ensures r.Ok? ==> r.value.value.1 == UnsignedAt(c.data, c.pos + 1, 4)
  {
    var t :- DecodeUInt8(c);
    var id :- DecodeUInt32(t.rest);
    Ok(Got((t.value, id.value), id.rest))
  }

  function DecodeUInt32Pair(c: Cursor): (r: Read<(U32, U32)>)
    requires c.Wf()
    ensures r.Ok? ==> SameBuffer(c, r.value.rest)
  {
    var a :- DecodeUInt32(c);
    var b :- DecodeUInt32(a.rest);
    Ok(Got((a.value, b.value), b.rest))
  }

  function DecodeGuidAndByte(c: Cursor): (r: Read<(U64, Byte)>)
    requires c.Wf()
    ensures r.Ok? ==> SameBuffer(c, r.value.rest)
  {
    var g :- DecodeUInt64(c);
    var b :- DecodeUInt8(g.rest);
    Ok(Got((g.value, b.value), b.rest))
  }

  /** u64 GUID, u8, then the float pair x, y. */
  function DecodeGuidBytePosition(c: Cursor): (r: Read<(U64, Byte, U32, U32)>)
    requires c.Wf()
    ensures r.Ok? ==> SameBuffer(c, r.value.rest)
  {
    var gb :- DecodeGuidAndByte(c);
    var p :- DecodeUInt32Pair(gb.rest);
    Ok(Got((gb.value.0, gb.value.1, p.value.0, p.value.1), p.rest))
  }

  // ---------------------------------------------------------------- handlers

  /** Handle_NULL and Handle_ServerSide read nothing and do nothing. */
  function Ignore(c: Cursor): (s: Step)
    ensures s.effects == [] && s.fault.None? && s.rest == c
  {
    Step([], None, c)
  }

  /** The effects of a login response status. */
  function LoginEffects(status: Byte): (es: seq<Effect>)
    ensures (SetConnectionState(StateLobby) in es) <==> status == AuthStatusOk
    ensures (SignalEvent(ConnectionFetching) in es) <==> status == AuthStatusOk
    ensures (Disconnect in es) <==> 1 <= status <= 4
    ensures (SignalEvent(ConnectionInvalidUser) in es) <==> status == AuthStatusUnknownUser
    ensures (SignalEvent(ConnectionInvalidPassword) in es) <==> status == AuthStatusInvalidPassword
    ensures (SignalEvent(ConnectionIncompatibleVersion) in es) <==> status == AuthStatusIncompatibleVersion
    ensures (SignalEvent(ConnectionBanned) in es) <==> status == AuthStatusBanned
    ensures es == [] <==> status > 4
  {
    if status == AuthStatusOk then [SetConnectionState(StateLobby), SignalEvent(ConnectionFetching)]
    else if status == AuthStatusUnknownUser then [Disconnect, SignalEvent(ConnectionInvalidUser)]
    else if status == AuthStatusInvalidPassword then [Disconnect, SignalEvent(ConnectionInvalidPassword)]
    else if status == AuthStatusIncompatibleVersion then [Disconnect, SignalEvent(ConnectionIncompatibleVersion)]
    else if status == AuthStatusBanned then [Disconnect, SignalEvent(ConnectionBanned)]
    else []
  }

  function LoginResponse(c: Cursor): (s: Step)
    requires c.Wf()
    ensures s.fault.None? <==> c.pos + 1 <= c.size
    ensures s.fault.None? ==> s.effects == LoginEffects(c.data[c.pos])
  {
    var r := DecodeUInt8(c);
    if r.Err? then Failed([], c, r.error)
    else
      Done(LoginEffects(r.value.value), r.value.rest)
  }

  /** The kind of effect an item of each kind yields. */
  predicate Yields(item: Item, e: Effect)
  {
    match item
    case CharacterItem => e.AddCharacter?
    case FailedResourceItem => e.RequestResource?
    case UpdateFieldItem(guid) => e.SetUpdateField? && e.guid == guid
    case DestroyItem => e.RemoveWorldObject?
    case AnimationItem(imageId, now) => e.InsertImageAnimation? && e.id == imageId && e.time == now
    case DecisionItem => e.AddDialogueDecision?
    case InventorySlotItem => e.SetInventorySlot? && e.itemGuid != 0
  }



  /** All effects from index lo on are of the item's kind. */
  predicate AllYield(item: Item, es: seq<Effect>, lo: nat)
  {
    forall k :: lo <= k < |es| ==> Yields(item, es[k])
  }

  /** If the effects after acc + v are of the item's kind and v is at most
      one such effect, so are the effects after acc. */
  lemma YieldsAfter(item: Item, es: seq<Effect>, acc: seq<Effect>, v: seq<Effect>)
    requires |acc + v| <= |es| && es[..|acc + v|] == acc + v
    requires |v| <= 1 && (v != [] ==> Yields(item, v[0]))
    requires AllYield(item, es, |acc + v|)
    ensures AllYield(item, es, |acc|)
  {
    if v != [] {
      assert es[|acc|] == es[..|acc + v|][|acc|] == v[0];
    }
  }

  /** The list is cleared first; each entry is added as it is read; the
      "list acquired" event follows only a complete list. */
  function CharacterList(c: Cursor): (s: Step)
    requires c.Wf()
    ensures c.pos + 1 <= c.size ==> s.effects != [] && s.effects[0] == ClearCharacterList
    ensures s.fault.None? ==> c.pos < c.size && |s.effects| == c.data[c.pos] as int + 2
    ensures s.fault.None? ==> s.effects[|s.effects| - 1] == SignalEvent(CharacterListAcquired)
    ensures s.fault.None? ==> forall k :: 0 < k < |s.effects| - 1 ==> s.effects[k].AddCharacter?
  {
    var r := DecodeUInt8(c);
    if r.Err? then Failed([], c, r.error)
    else
      var body := Gather(r.value.rest, CharacterItem, 0, r.value.value, [ClearCharacterList]);
      Finally(body, [SignalEvent(CharacterListAcquired)])
  }

  method RunCharacterList(c: Cursor) returns (s: Step)
    requires c.Wf()
    ensures s == CharacterList(c)
  {
    var r := DecodeUInt8(c);
    if r.Err? {
      return Failed([], c, r.error);
    }
    var body := GatherLoop(r.value.rest, CharacterItem, r.value.value, [ClearCharacterList]);
    return Finally(body, [SignalEvent(CharacterListAcquired)]);
  }

  function ResourceSendStart(c: Cursor): (s: Step)
    requires c.Wf()
    ensures s.fault.None? ==> |s.effects| == 1 && s.effects[0].CreateResourceStream?
    ensures s.fault.Some? ==> s.effects == []
  {
    var f := DecodeString(c);
    if f.Err? then Failed([], c, f.error)
    else
      var ti := DecodeTypeAndId(f.value.rest);
      if ti.Err? then Failed([], f.value.rest, ti.error)
      else Done([CreateResourceStream(f.value.value, ti.value.value.0, ti.value.value.1)], ti.value.rest)
  }

  function ResourceSendFinished(c: Cursor): (s: Step)
    requires c.Wf()
    ensures s.fault.None? ==> |s.effects| == 2 && s.effects[0].FinishResourceStream?
    ensures s.fault.None? ==> s.effects[1] == SendResourceChecksum(s.effects[0].rtype, s.effects[0].id)
    ensures s.fault.Some? ==> s.effects == []
  {
    var ti := DecodeTypeAndId(c);
    if ti.Err? then Failed([], c, ti.error)
    else
      var (t, id) := ti.value.value;
      Done([FinishResourceStream(t, id), SendResourceChecksum(t, id)], ti.value.rest)
  }

  /** u8 type, u32 id, u16 size, then size single-byte reads: the bytes
      written are the size bytes that follow the seven-byte preamble. */
  function ResourceData(c: Cursor): (s: Step)
    requires c.Wf()
    ensures s.fault.None? ==> |s.effects| == 1 && s.effects[0].WriteToResourceStream?
    ensures s.fault.None? ==> var n := |s.effects[0].bytes|;
      c.pos + 7 + n <= c.size && s.effects[0].bytes == c.data[c.pos + 7..c.pos + 7 + n] && s.rest.pos == c.pos + 7 + n
  {
    var ti := DecodeTypeAndId(c);
    if ti.Err? then Failed([], c, ti.error)
    else
      var n := DecodeUInt16(ti.value.rest);
      if n.Err? then Failed([], ti.value.rest, n.error)
      else
        var c2 := n.value.rest;
        assert c2.pos == c.pos + 7;
        var bytes := DecodeUInt8s(c2, n.value.value, []);
        if bytes.Err? then Failed([], c2, bytes.error)
        else
          DecodeUInt8sIsSlice(c2, n.value.value, []);
          assert bytes.value.value == c.data[c.pos + 7..c.pos + 7 + n.value.value];
          Done([WriteToResourceStream(ti.value.value.0, ti.value.value.1, bytes.value.value)], bytes.value.rest)
  }

  method RunResourceData(c: Cursor) returns (s: Step)
    requires c.Wf()
    ensures s == ResourceData(c)
  {
    var ti := DecodeTypeAndId(c);
    if ti.Err? {
      return Failed([], c, ti.error);
    }
    var n := DecodeUInt16(ti.value.rest);
    if n.Err? {
      return Failed([], ti.value.rest, n.error);
    }
    var bytes := ReadUInt8s(n.value.rest, n.value.value);
    if bytes.Err? {
      return Failed([], n.value.rest, bytes.error);
    }
    return Done([WriteToResourceStream(ti.value.value.0, ti.value.value.1, bytes.value.value)], bytes.value.rest);
  }

  /** u16 count of failed checksums, then (u8 type, u32 id) per failure,
      each re-requested as soon as it is read. */
  function ResourceChecksumVerify(c: Cursor): (s: Step)
    requires c.Wf()
    ensures forall k :: 0 <= k < |s.effects| ==> s.effects[k].RequestResource?
    ensures s.fault.None? && c.pos + 2 <= c.size ==> |s.effects| == DecodeUInt16(c).value.value
  {
    var r := DecodeUInt16(c);
    if r.Err? then Failed([], c, r.error)
    else
      Gather(r.value.rest, FailedResourceItem, 0, r.value.value, [])
  }

  method RunResourceChecksumVerify(c: Cursor) returns (s: Step)
    requires c.Wf()
    ensures s == ResourceChecksumVerify(c)
  {
    var r := DecodeUInt16(c);
    if r.Err? {
      return Failed([], c, r.error);
    }
    s := GatherLoop(r.value.rest, FailedResourceItem, r.value.value, []);
  }

  /** A failed world entry sends the client back to the menu and reads no
      more; a successful one creates the player at the received map and
      position. */
  function EnterWorldResult(c: Cursor): (s: Step)
    requires c.Wf()
    ensures c.pos + 1 <= c.size && c.data[c.pos] != EnterWorldOk ==>
      s == Done([SetStageType(StageMenu)], c.(pos := c.pos + 1))
    ensures c.pos + 1 <= c.size && c.data[c.pos] == EnterWorldOk && s.fault.None? ==>
      |s.effects| == 1 && s.effects[0].CreatePlayer? && s.rest.pos == c.pos + 13
  {
    var st := DecodeUInt8(c);
    if st.Err? then Failed([], c, st.error)
    else
      if st.value.value != EnterWorldOk then Done([SetStageType(StageMenu)], st.value.rest)
      else
        var m := DecodeUInt32(st.value.rest);
        if m.Err? then Failed([], st.value.rest, m.error)
        else
          var p := DecodeUInt32Pair(m.value.rest);
          if p.Err? then Failed([], m.value.rest, p.error)
          else Done([CreatePlayer(m.value.value, p.value.value.0, p.value.value.1)], p.value.rest)
  }

  /** StartMovementInDirection(1 << i) for each bit i in 0..3 of the mask
      that is set, lowest bit first. */
  function MoveStarts(guid: U64, mask: Byte): (es: seq<Effect>)
    ensures forall k :: 0 <= k < |es| ==> es[k].StartMovement? && es[k].guid == guid
    ensures |es| <= 4
    ensures mask % 16 == 0 ==> es == []
  {
    (if mask % 2 == 1 then [StartMovement(guid, MoveUp)] else [])
    + (if mask / 2 % 2 == 1 then [StartMovement(guid, MoveRight)] else [])
    + (if mask / 4 % 2 == 1 then [StartMovement(guid, MoveDown)] else [])
    + (if mask / 8 % 2 == 1 then [StartMovement(guid, MoveLeft)] else [])
  }

  /** A block about another object: it is created (an unknown high GUID
      yields no object, whose initialisation crashes), positioned, given its
      movement (units only) and added to the map (absent map: crash). */
  function ForeignTail(c: Cursor, s: Session, guid: U64, fields: seq<U32>): (r: Step)
    requires c.Wf()
    ensures SameBuffer(c, r.rest)
    ensures r.effects != [] ==> r.effects[0] == CreateForeignObject(guid, fields)
    ensures r.fault.None? ==> r.effects != [] && r.effects[|r.effects| - 1] == AddWorldObject(guid) && s.hasMap
    ensures TypeOfGuid(guid) == MaxObjectType ==> r == Crashed([], c, UnknownObjectType(guid))
  {
    var t := TypeOfGuid(guid);
    if t == MaxObjectType then Crashed([], c, UnknownObjectType(guid))
    else
      var created := [CreateForeignObject(guid, fields)];
      var p := DecodeUInt32Pair(c);
      if p.Err? then Failed(created, c, p.error)
      else
        var placed := created + [SetPosition(guid, p.value.value.0, p.value.value.1)];
        if IsUnit(t) then
          var m := DecodeUInt8(p.value.rest);
          if m.Err? then Failed(placed, p.value.rest, m.error)
          else
            var moved := placed + MoveStarts(guid, m.value.value);
            if !s.hasMap then Crashed(moved, m.value.rest, NoMap)
            else Done(moved + [AddWorldObject(guid)], m.value.rest)
        else if !s.hasMap then Crashed(placed, p.value.rest, NoMap)
        else Done(placed + [AddWorldObject(guid)], p.value.rest)
  }

  /** The local player's block still consumes float, float, u8 but only
      applies the fields. */
  function PlayerTail(c: Cursor, fields: seq<U32>): (r: Step)
    requires c.Wf()
    ensures SameBuffer(c, r.rest)
    ensures r.fault.None? <==> c.pos + 9 <= c.size
    ensures r.fault.None? ==> r.effects == [ApplyPlayerFields(fields)] && r.rest.pos == c.pos + 9
    ensures r.fault.Some? ==> r.effects == []
  {
    Pow256Widths();
    var p := DecodeUInt32Pair(c);
    if p.Err? then Failed([], c, p.error)
    else
      var m := DecodeUInt8(p.value.rest);
      if m.Err? then Failed([], p.value.rest, m.error)
      else Done([ApplyPlayerFields(fields)], m.value.rest)
  }

  /** What follows the update fields of a block: the player object must
      exist, since its GUID decides which kind of block this is. */
  function ObjectTail(c: Cursor, s: Session, guid: U64, fields: seq<U32>): (r: Step)
    requires c.Wf()
    ensures SameBuffer(c, r.rest)
    ensures s.player.None? ==> r == Crashed([], c, NoPlayer)
  {
    if s.player.None? then Crashed([], c, NoPlayer)
    else if guid != s.player.value then ForeignTail(c, s, guid, fields)
    else PlayerTail(c, fields)
  }

  /** The head of a create block: u64 GUID, u32 field count, the fields. */
  function ObjectHead(c: Cursor): (r: Read<(U64, seq<U32>)>)
    requires c.Wf()
    ensures r.Ok? ==> SameBuffer(c, r.value.rest)
  {
    var g :- DecodeUInt64(c);
    var n :- DecodeUInt32(g.rest);
    var f :- DecodeUInt32s(n.rest, n.value, []);
    Ok(Got((g.value, f.value), f.rest))
  }

  method ReadObjectHead(c: Cursor) returns (r: Read<(U64, seq<U32>)>)
    requires c.Wf()
    ensures r == ObjectHead(c)
  {
    var g := DecodeUInt64(c);
    if g.Err? {
      return Err(g.error);
    }
    var n := DecodeUInt32(g.value.rest);
    if n.Err? {
      return Err(n.error);
    }
    var f := ReadUInt32s(n.value.rest, n.value.value);
    if f.Err? {
      return Err(f.error);
    }
    return Ok(Got((g.value.value, f.value.value), f.value.rest));
  }

  /** One create block. */
  function ObjectBlock(c: Cursor, s: Session): (r: Step)
    requires c.Wf()
    ensures SameBuffer(c, r.rest)
  {
    var h := ObjectHead(c);
    if h.Err? then Failed([], c, h.error)
    else ObjectTail(h.value.rest, s, h.value.value.0, h.value.value.1)
  }

  method RunObjectBlock(c: Cursor, s: Session) returns (b: Step)
    requires c.Wf()
    ensures b == ObjectBlock(c, s)
  {
    var h := ReadObjectHead(c);
    if h.Err? {
      return Failed([], c, h.error);
    }
    b := ObjectTail(h.value.rest, s, h.value.value.0, h.value.value.1);
  }

  /** n create blocks after the effects acc; the first fault ends them. */
  function ObjectBlocks(c: Cursor, s: Session, n: nat, acc: seq<Effect>): (r: Step)
    requires c.Wf()
    ensures SameBuffer(c, r.rest)
    ensures s.player.None? && n > 0 ==> r.fault.Some?
    decreases n, 0
  {
    if n == 0 then Done(acc, c) else BlocksAfter(ObjectBlock(c, s), s, n - 1, acc)
  }

  /** The run once the block b has been read: a fault in b ends it, else n blocks more follow. */
  function BlocksAfter(b: Step, s: Session, n: nat, acc: seq<Effect>): (r: Step)
    requires b.rest.Wf()
    ensures SameBuffer(b.rest, r.rest)
    ensures b.fault.Some? ==> r.fault == b.fault
    decreases n, 1
  {
    if b.fault.Some? then Step(acc + b.effects, b.fault, b.rest)
    else ObjectBlocks(b.rest, s, n, acc + b.effects)
  }

  /** u8 object count, then the blocks. Without a player object the first
      block that reads its fields ends the handler. */
  function CreateObject(c: Cursor, s: Session): (r: Step)
    requires c.Wf()
    ensures s.player.None? && c.pos + 1 <= c.size && c.data[c.pos] > 0 ==> r.fault.Some?
    ensures c.pos + 1 <= c.size && c.data[c.pos] == 0 ==> r == Done([], c.(pos := c.pos + 1))
  {
    var r := DecodeUInt8(c);
    if r.Err? then Failed([], c, r.error)
    else
      ObjectBlocks(r.value.rest, s, r.value.value, [])
  }

  method RunCreateObject(c: Cursor, s: Session) returns (out: Step)
    requires c.Wf()
    ensures out == CreateObject(c, s)
  {
    var r := DecodeUInt8(c);
    if r.Err? {
      return Failed([], c, r.error);
    }
    out := RunObjectBlocks(r.value.rest, s, r.value.value);
  }

  /** The loop over the create blocks. */
  method RunObjectBlocks(c: Cursor, s: Session, n: nat) returns (out: Step)
    requires c.Wf()
    ensures out == ObjectBlocks(c, s, n, [])
  {
    var effects: seq<Effect> := [];
    var cur := c;
    var left := n;
    ghost var goal := ObjectBlocks(c, s, n, []);
    while left > 0
      invariant cur.Wf()
      invariant goal == ObjectBlocks(cur, s, left, effects)
    {
      var b := RunObjectBlock(cur, s);
      if b.fault.Some? {
        return Step(effects + b.effects, b.fault, b.rest);
      }
      effects := effects + b.effects;
      cur := b.rest;
      left := left - 1;
    }
    return Done(effects, cur);
  }

  /** An update for an object not on the map reads only the GUID; otherwise
      every effect sets a field of that object. */
  function UpdateObject(c: Cursor, s: Session): (r: Step)
    requires c.Wf()
    ensures c.pos + 8 <= c.size && ForeignType(s, DecodeUInt64(c).value.value).None? ==>
      r == Done([], c.(pos := c.pos + 8))
    ensures c.pos + 8 <= c.size ==>
      forall k :: 0 <= k < |r.effects| ==> r.effects[k].SetUpdateField? && r.effects[k].guid == DecodeUInt64(c).value.value
  {
    Pow256Widths();
    var g := DecodeUInt64(c);
    if g.Err? then Failed([], c, g.error)
    else if ForeignType(s, g.value.value).None? then Done([], g.value.rest)
    else
      var n := DecodeUInt8(g.value.rest);
      if n.Err? then Failed([], g.value.rest, n.error)
      else
        Gather(n.value.rest, UpdateFieldItem(g.value.value), 0, n.value.value, [])
  }

  method RunUpdateObject(c: Cursor, s: Session) returns (r: Step)
    requires c.Wf()
    ensures r == UpdateObject(c, s)
  {
    var g := DecodeUInt64(c);
    if g.Err? {
      return Failed([], c, g.error);
    }
    if ForeignType(s, g.value.value).None? {
      return Done([], g.value.rest);
    }
    var n := DecodeUInt8(g.value.rest);
    if n.Err? {
      return Failed([], g.value.rest, n.error);
    }
    r := GatherLoop(n.value.rest, UpdateFieldItem(g.value.value), n.value.value, []);
  }

  /** Without a map only the count is read; otherwise each GUID read is
      removed from the map. */
  function DestroyObject(c: Cursor, s: Session): (r: Step)
    requires c.Wf()
    ensures !s.hasMap && c.pos + 1 <= c.size ==> r == Done([], c.(pos := c.pos + 1))
    ensures forall k :: 0 <= k < |r.effects| ==> r.effects[k].RemoveWorldObject?
  {
    Pow256Widths();
    var n := DecodeUInt8(c);
    if n.Err? then Failed([], c, n.error)
    else if !s.hasMap then Done([], n.value.rest)
    else
      Gather(n.value.rest, DestroyItem, 0, n.value.value, [])
  }

  method RunDestroyObject(c: Cursor, s: Session) returns (r: Step)
    requires c.Wf()
    ensures r == DestroyObject(c, s)
  {
    var n := DecodeUInt8(c);
    if n.Err? {
      return Failed([], c, n.error);
    }
    if !s.hasMap {
      return Done([], n.value.rest);
    }
    r := GatherLoop(n.value.rest, DestroyItem, n.value.value, []);
  }

  /** The map header fields after the status, and the file name. */
  function DecodeMapHeader(c: Cursor): (r: Read<(MapHeader, seq<Byte>)>)
    requires c.Wf()
    ensures r.Ok? ==> SameBuffer(c, r.value.rest)
    ensures r.Ok? ==> r.value.value.0.versionMagic == MapVersionMagic && |r.value.value.0.name| == MapNameLength
  {
    var id :- DecodeUInt32(c);
    var sx :- DecodeUInt32(id.rest);
    var sy :- DecodeUInt32(sx.rest);
    var name :- DecodeString(sy.rest);
    var ex :- DecodeUInt32(name.rest);
    var ey :- DecodeUInt32(ex.rest);
    var ft :- DecodeUInt16(ey.rest);
    var tex :- DecodeUInt32(ft.rest);
    var fl :- DecodeUInt32(tex.rest);
    var file :- DecodeString(fl.rest);
    var h := MapHeader(MapVersionMagic, id.value, NameField(name.value), sx.value, sy.value,
                       ex.value, ey.value, ft.value, tex.value, fl.value);
    Ok(Got((h, file.value), file.rest))
  }

  /** A non-OK status ends the handler; otherwise the map record is stored
      with the header checksum, the map is created from the header and the
      same checksum is sent for verification. */
  function MapMetadata(c: Cursor, ctx: Context): (r: Step)
    requires c.Wf()
    ensures c.pos + 1 <= c.size && c.data[c.pos] != GenericStatusOk ==> r == Done([], c.(pos := c.pos + 1))
    ensures r.fault.None? && r.effects != [] ==>
      |r.effects| == 3 && r.effects[0].InsertMapRecord? && r.effects[1].CreateMapUsing? &&
      r.effects[0].mapId == r.effects[1].header.mapId &&
      r.effects[0].checksum == ctx.headerChecksum(r.effects[1].header) &&
      r.effects[2] == SendMapMetadataVerify(r.effects[0].mapId, r.effects[0].checksum) &&
      r.effects[0].time == ctx.now &&
      r.effects[1].header.versionMagic == MapVersionMagic
    ensures r.fault.Some? ==> r.effects == []
  {
    var st := DecodeUInt8(c);
    if st.Err? then Failed([], c, st.error)
    else
      if st.value.value != GenericStatusOk then Done([], st.value.rest)
      else
        var m := DecodeMapHeader(st.value.rest);
        if m.Err? then Failed([], st.value.rest, m.error)
        else
          var (h, file) := m.value.value;
          var sum := ctx.headerChecksum(h);
          Done([InsertMapRecord(h.mapId, file, sum, ctx.now), CreateMapUsing(h), SendMapMetadataVerify(h.mapId, sum)], m.value.rest)
  }

  /** The chunk rectangle of a chunk reply. */
  datatype ChunkArea = ChunkArea(mapId: U32, startX: U32, startY: U32, sizeX: U32, sizeY: U32)

  function DecodeChunkArea(c: Cursor): (r: Read<ChunkArea>)
    requires c.Wf()
    ensures r.Ok? ==> SameBuffer(c, r.value.rest)
  {
    var m :- DecodeUInt32(c);
    var x :- DecodeUInt32(m.rest);
    var y :- DecodeUInt32(x.rest);
    var sx :- DecodeUInt32(y.rest);
    var sy :- DecodeUInt32(sx.rest);
    Ok(Got(ChunkArea(m.value, x.value, y.value, sx.value, sy.value), sy.rest))
  }

  function DecodeMapField(c: Cursor): (r: Read<MapField>)
    requires c.Wf()
    ensures r.Ok? ==> SameBuffer(c, r.value.rest)
  {
    var t :- DecodeUInt16(c);
    var tex :- DecodeUInt32(t.rest);
    var fl :- DecodeUInt32(tex.rest);
    Ok(Got(MapField(t.value, tex.value, fl.value), fl.rest))
  }

  /** The fields of the chunk from column i, row j on, x outer and y inner,
      each stored at start + offset with 32-bit wrap-around. */
  function ChunkCells(c: Cursor, a: ChunkArea, i: nat, j: nat, acc: seq<Effect>): (r: Step)
    requires c.Wf() && i <= a.sizeX && j <= a.sizeY
    ensures SameBuffer(c, r.rest)
    ensures r.fault.None? || r.fault.value.ReadFault?
    decreases a.sizeX - i, a.sizeY - j
  {
    if i == a.sizeX then Done(acc, c)
    else if j == a.sizeY then ChunkCells(c, a, i + 1, 0, acc)
    else
      var f := DecodeMapField(c);
      if f.Err? then Failed(acc, c, f.error)
      else ChunkCells(f.value.rest, a, i, j + 1, acc + [SetFieldContents(Wrap32(a.startX + i), Wrap32(a.startY + j), f.value.value)])
  }

  /** The fields stored by a run of SetFieldContents effects, in order. */
  function CellsOf(es: seq<Effect>): (fs: seq<MapField>)
    ensures |fs| <= |es|
  {
    if es == [] then []
    else (if es[0].SetFieldContents? then [es[0].cell] else []) + CellsOf(es[1..])
  }

  /** A non-OK status ends the handler. Without a map the first field store
      dereferences the absent map (or, for an empty rectangle, saving it
      does); with a map every field is stored, then the chunk record with
      the checksum of the fields, the map is saved and the checksum sent. */
  function MapChunk(c: Cursor, s: Session, ctx: Context): (r: Step)
    requires c.Wf()
    ensures c.pos + 1 <= c.size && c.data[c.pos] != GenericStatusOk ==> r == Done([], c.(pos := c.pos + 1))
    ensures !s.hasMap && c.pos + 1 <= c.size && c.data[c.pos] == GenericStatusOk ==> r.fault.Some?
    ensures s.hasMap && r.fault.None? && r.effects != [] ==>
      |r.effects| >= 3 && r.effects[|r.effects| - 2] == SaveMapToFile &&
      r.effects[|r.effects| - 3].InsertMapChunkRecord? &&
      r.effects[|r.effects| - 3].checksum == ctx.chunkChecksum(CellsOf(r.effects[..|r.effects| - 3]))
  {
    var st := DecodeUInt8(c);
    if st.Err? then Failed([], c, st.error)
    else
      if st.value.value != GenericStatusOk then Done([], st.value.rest)
      else
        var ar := DecodeChunkArea(st.value.rest);
        if ar.Err? then Failed([], st.value.rest, ar.error)
        else
          var a := ar.value.value;
          var c1 := ar.value.rest;
          if !s.hasMap then
            if a.sizeX > 0 && a.sizeY > 0 then
              var f := DecodeMapField(c1);
              if f.Err? then Failed([], c1, f.error) else Crashed([], f.value.rest, NoMap)
            else
              Crashed([InsertMapChunkRecord(a.mapId, a.startX, a.startY, a.sizeX, a.sizeY, ctx.chunkChecksum([]), ctx.now)], c1, NoMap)
          else
            var cells := ChunkCells(c1, a, 0, 0, []);
            if cells.fault.Some? then cells
            else
              var sum := ctx.chunkChecksum(CellsOf(cells.effects));
              var es := cells.effects + [InsertMapChunkRecord(a.mapId, a.startX, a.startY, a.sizeX, a.sizeY, sum, ctx.now),
                                        SaveMapToFile, SendMapChunkVerify(a.mapId, a.startX, a.startY, sum)];
              assert es[..|es| - 3] == cells.effects;
              Done(es, cells.rest)
  }

  /** The nested field loop of the chunk reply. */
  method ReadChunkCells(c: Cursor, a: ChunkArea) returns (r: Step)
    requires c.Wf()
    ensures r == ChunkCells(c, a, 0, 0, [])
  {
    ghost var goal := ChunkCells(c, a, 0, 0, []);
    var effects: seq<Effect> := [];
    var cur := c;
    var i: nat := 0;
    while i < a.sizeX
      invariant i <= a.sizeX && cur.Wf()
      invariant goal == ChunkCells(cur, a, i, 0, effects)
    {
      var j: nat := 0;
      while j < a.sizeY
        invariant j <= a.sizeY && cur.Wf()
        invariant goal == ChunkCells(cur, a, i, j, effects)
      {
        var f := DecodeMapField(cur);
        if f.Err? {
          return Failed(effects, cur, f.error);
        }
        effects := effects + [SetFieldContents(Wrap32(a.startX + i), Wrap32(a.startY + j), f.value.value)];
        cur := f.value.rest;
        j := j + 1;
      }
      i := i + 1;
    }
    return Done(effects, cur);
  }

  method RunMapChunk(c: Cursor, s: Session, ctx: Context) returns (r: Step)
    requires c.Wf()
    ensures r == MapChunk(c, s, ctx)
  {
    var st := DecodeUInt8(c);
    if st.Err? {
      return Failed([], c, st.error);
    }
    if st.value.value != GenericStatusOk {
      return Done([], st.value.rest);
    }
    var ar := DecodeChunkArea(st.value.rest);
    if ar.Err? {
      return Failed([], st.value.rest, ar.error);
    }
    var a := ar.value.value;
    var c1 := ar.value.rest;
    if !s.hasMap {
      return MapChunk(c, s, ctx);
    }
    var cells := ReadChunkCells(c1, a);
    if cells.fault.Some? {
      return cells;
    }
    var sum := ctx.chunkChecksum(CellsOf(cells.effects));
    r := Done(cells.effects + [InsertMapChunkRecord(a.mapId, a.startX, a.startY, a.sizeX, a.sizeY, sum, ctx.now),
                              SaveMapToFile, SendMapChunkVerify(a.mapId, a.startX, a.startY, sum)], cells.rest);
  }

  /** The verify replies: OK signals the unit loaded, anything else requests
      the same unit again. */
  function MapMetaChecksumVerify(c: Cursor): (r: Step)
    requires c.Wf()
    ensures r.fault.None? ==> |r.effects| == 1 && (r.effects[0].SignalMapLoaded? || r.effects[0].RequestMapMetadata?)
    ensures r.fault.None? ==> c.pos < c.size && (r.effects[0].SignalMapLoaded? <==> c.data[c.pos] == GenericStatusOk)
  {
    var ti := DecodeTypeAndId(c);
    if ti.Err? then Failed([], c, ti.error)
    else
      var (status, mapId) := ti.value.value;
      Done([if status == GenericStatusOk then SignalMapLoaded(mapId) else RequestMapMetadata(mapId)], ti.value.rest)
  }

  function MapChunkChecksumVerify(c: Cursor): (r: Step)
    requires c.Wf()
    ensures r.fault.None? ==> |r.effects| == 1 && (r.effects[0].SignalChunkLoaded? || r.effects[0].RequestMapChunk?)
    ensures r.fault.None? ==> c.pos < c.size && (r.effects[0].SignalChunkLoaded? <==> c.data[c.pos] == GenericStatusOk)
  {
    var ti := DecodeTypeAndId(c);
    if ti.Err? then Failed([], c, ti.error)
    else
      var (status, mapId) := ti.value.value;
      var p := DecodeUInt32Pair(ti.value.rest);
      if p.Err? then Failed([], ti.value.rest, p.error)
      else
        var (x, y) := p.value.value;
        Done([if status == GenericStatusOk then SignalChunkLoaded(x, y) else RequestMapChunk(mapId, x, y)], p.value.rest)
  }

  function DecodeImageHeader(c: Cursor): (r: Read<ImageHeader>)
    requires c.Wf()
    ensures r.Ok? ==> SameBuffer(c, r.value.rest)
  {
    var w :- DecodeUInt32s(c, 9, []);
    var v := w.value;
    Ok(Got(ImageHeader(v[0], v[1], v[2], v[3], v[4], v[5], v[6], v[7], v[8]), w.rest))
  }

  /** The words of the animation records among es, four per record. */
  function AnimationWords(es: seq<Effect>): seq<U32>
  {
    if es == [] then []
    else
      (if es[0].InsertImageAnimation? then [es[0].animId, es[0].frameBegin, es[0].frameEnd, es[0].frameDelay] else [])
      + AnimationWords(es[1..])
  }

  /** The checksum of an image metadata reply covers the nine header words
      and then the words of each animation in order. */
  function ImageChecksum(ctx: Context, h: ImageHeader, anims: seq<Effect>): seq<Byte>
  {
    ctx.imageChecksum(HeaderWords(h) + AnimationWords(anims))
  }

  /** A non-OK status ends the handler; otherwise the image's metadata is
      wiped, each animation stored, and the parent record stored and its
      checksum sent for verification. */
  function ImageMetadata(c: Cursor, ctx: Context): (r: Step)
    requires c.Wf()
    ensures c.pos + 1 <= c.size && c.data[c.pos] != GenericStatusOk ==> r == Done([], c.(pos := c.pos + 1))
    ensures r.effects != [] ==> r.effects[0].WipeImageMetadata?
    ensures r.fault.None? && r.effects != [] ==>
      |r.effects| >= 3 && r.effects[|r.effects| - 2].InsertImageMetadata? &&
      r.effects[|r.effects| - 1] == SendImageMetadataVerify(r.effects[0].id, r.effects[|r.effects| - 2].checksum) &&
      r.effects[|r.effects| - 2].image.id == r.effects[0].id
    ensures r.effects != [] ==>
      forall k :: 0 < k < |r.effects| && r.effects[k].InsertImageAnimation? ==> r.effects[k].id == r.effects[0].id
  {
    var st := DecodeUInt8(c);
    if st.Err? then Failed([], c, st.error)
    else
      if st.value.value != GenericStatusOk then Done([], st.value.rest)
      else
        var hd := DecodeImageHeader(st.value.rest);
        if hd.Err? then Failed([], st.value.rest, hd.error)
        else ImageBody(hd.value.rest, hd.value.value, ctx)
  }

  /** The animation count and records after the header words, behind the
      wipe of the image's old metadata. */
  function ImageAnimations(c: Cursor, h: ImageHeader, ctx: Context): (r: Step)
    requires c.Wf()
    ensures r.effects != [] && r.effects[0] == WipeImageMetadata(h.id)
    ensures forall k :: 0 < k < |r.effects| && r.effects[k].InsertImageAnimation? ==> r.effects[k].id == h.id
  {
    var wiped := [WipeImageMetadata(h.id)];
    var n := DecodeUInt32(c);
    if n.Err? then Failed(wiped, c, n.error)
    else Gather(n.value.rest, AnimationItem(h.id, ctx.now), 0, n.value.value, wiped)
  }

  /** What follows the nine header words. */
  function ImageBody(c: Cursor, h: ImageHeader, ctx: Context): (r: Step)
    requires c.Wf()
    ensures r.effects != [] && r.effects[0] == WipeImageMetadata(h.id)
    ensures r.fault.None? ==> (|r.effects| >= 3 &&
      r.effects[|r.effects| - 2] == InsertImageMetadata(h, ImageChecksum(ctx, h, r.effects[..|r.effects| - 2]), ctx.now) &&
      r.effects[|r.effects| - 1] == SendImageMetadataVerify(h.id, ImageChecksum(ctx, h, r.effects[..|r.effects| - 2])))
    ensures forall k :: 0 < k < |r.effects| && r.effects[k].InsertImageAnimation? ==> r.effects[k].id == h.id
  {
    var anims := ImageAnimations(c, h, ctx);
    if anims.fault.Some? then anims
    else
      var sum := ImageChecksum(ctx, h, anims.effects);
      var es := anims.effects + [InsertImageMetadata(h, sum, ctx.now), SendImageMetadataVerify(h.id, sum)];
      assert es[..|es| - 2] == anims.effects;
      Done(es, anims.rest)
  }

  method RunImageMetadata(c: Cursor, ctx: Context) returns (r: Step)
    requires c.Wf()
    ensures r == ImageMetadata(c, ctx)
  {
    var st := DecodeUInt8(c);
    if st.Err? {
      return Failed([], c, st.error);
    }
    if st.value.value != GenericStatusOk {
      return Done([], st.value.rest);
    }
    var hd := DecodeImageHeader(st.value.rest);
    if hd.Err? {
      return Failed([], st.value.rest, hd.error);
    }
    var h := hd.value.value;
    var c1 := hd.value.rest;
    var n := DecodeUInt32(c1);
    if n.Err? {
      return Failed([WipeImageMetadata(h.id)], c1, n.error);
    }
    var anims := GatherLoop(n.value.rest, AnimationItem(h.id, ctx.now), n.value.value, [WipeImageMetadata(h.id)]);
    if anims.fault.Some? {
      return anims;
    }
    var sum := ImageChecksum(ctx, h, anims.effects);
    r := Done(anims.effects + [InsertImageMetadata(h, sum, ctx.now), SendImageMetadataVerify(h.id, sum)], anims.rest);
  }

  function ImageMetaChecksumVerify(c: Cursor): (r: Step)
    requires c.Wf()
    ensures r.fault.None? ==> |r.effects| == 1 && (r.effects[0].SignalImageMetadataRetrieved? || r.effects[0].RequestImageMetadata?)
    ensures r.fault.None? ==> c.pos < c.size && (r.effects[0].SignalImageMetadataRetrieved? <==> c.data[c.pos] == GenericStatusOk)
  {
    var ti := DecodeTypeAndId(c);
    if ti.Err? then Failed([], c, ti.error)
    else
      var (status, id) := ti.value.value;
      Done([if status == GenericStatusOk then SignalImageMetadataRetrieved(id) else RequestImageMetadata(id)], ti.value.rest)
  }

  /** An empty name resolves as "???". */
  function NameQueryResponse(c: Cursor): (r: Step)
    requires c.Wf()
    ensures r.fault.None? ==> |r.effects| == 1 && r.effects[0].NameResolved? && r.effects[0].name != []
    ensures r.fault.None? ==> c.pos + 8 < c.size && (r.effects[0].name == UnknownName || c.data[c.pos + 8] != 0)
  {
    var g := DecodeUInt64(c);
    if g.Err? then Failed([], c, g.error)
    else
      var n := DecodeString(g.value.rest);
      if n.Err? then Failed([], g.value.rest, n.error)
      else Done([NameResolved(g.value.value, if n.value.value == [] then UnknownName else n.value.value)], n.value.rest)
  }

  /** Whether a movement packet about guid applies: never to the local
      player, and only to a unit present on the map. */
  predicate MovesForeignUnit(s: Session, guid: U64)
    requires s.player.Some?
  {
    guid != s.player.value && ForeignType(s, guid).Some? && IsUnit(ForeignType(s, guid).value)
  }

  function MoveStartDir(c: Cursor, s: Session): (r: Step)
    requires c.Wf()
    ensures c.pos + 9 <= c.size ==> (r.fault.Some? <==> s.player.None?)
    ensures r.effects != [] ==>
      (s.player.Some? && |r.effects| == 1 && r.effects[0].StartMovement? && MovesForeignUnit(s, r.effects[0].guid))
  {
    var gd := DecodeGuidAndByte(c);
    if gd.Err? then Failed([], c, gd.error)
    else
      var (guid, dir) := gd.value.value;
      if s.player.None? then Crashed([], gd.value.rest, NoPlayer)
      else if !MovesForeignUnit(s, guid) then Done([], gd.value.rest)
      else Done([StartMovement(guid, dir)], gd.value.rest)
  }

  function MoveStopDir(c: Cursor, s: Session): (r: Step)
    requires c.Wf()
    ensures c.pos + 17 <= c.size ==> (r.fault.Some? <==> s.player.None?)
    ensures r.effects != [] ==>
      (s.player.Some? && |r.effects| == 2 && r.effects[0].SetPosition? &&
       r.effects[1].StopMovement? && r.effects[1].guid == r.effects[0].guid && MovesForeignUnit(s, r.effects[0].guid))
  {
    var m := DecodeGuidBytePosition(c);
    if m.Err? then Failed([], c, m.error)
    else
      var (guid, dir, x, y) := m.value.value;
      if s.player.None? then Crashed([], m.value.rest, NoPlayer)
      else if !MovesForeignUnit(s, guid) then Done([], m.value.rest)
      else Done([SetPosition(guid, x, y), StopMovement(guid, dir)], m.value.rest)
  }

  /** The movement mask of a heartbeat is read and not used. */
  function MoveHeartbeat(c: Cursor, s: Session): (r: Step)
    requires c.Wf()
    ensures c.pos + 17 <= c.size ==> (r.fault.Some? <==> s.player.None?)
    ensures r.effects != [] ==> s.player.Some? && |r.effects| == 1 && r.effects[0].SetPosition? && MovesForeignUnit(s, r.effects[0].guid)
  {
    var m := DecodeGuidBytePosition(c);
    if m.Err? then Failed([], c, m.error)
    else
      var (guid, _, x, y) := m.value.value;
      if s.player.None? then Crashed([], m.value.rest, NoPlayer)
      else if !MovesForeignUnit(s, guid) then Done([], m.value.rest)
      else Done([SetPosition(guid, x, y)], m.value.rest)
  }

  /** A server message goes to the history without an author; any other
      type needs a unit on the map, which says it and whose name is the
      author. */
  function ChatMessage(c: Cursor, s: Session): (r: Step)
    requires c.Wf()
    ensures r.fault.None? ==> |r.effects| <= 2 && (r.effects == [] || r.effects[|r.effects| - 1].AddChatMessage?)
    ensures r.fault.None? && r.effects != [] ==>
      (r.effects[|r.effects| - 1].author.None? <==> r.effects[|r.effects| - 1].talkType == TalkServerMessage)
    ensures r.fault.None? && r.effects != [] && r.effects[|r.effects| - 1].author.Some? ==>
      r.effects[0].Talk? && var g := r.effects[0].guid;
      ForeignType(s, g).Some? && IsUnit(ForeignType(s, g).value) &&
      r.effects[|r.effects| - 1].author == Some(s.objects[g].name)
    ensures r.fault.Some? ==> r.effects == []
  {
    var tg := DecodeUInt8(c);
    if tg.Err? then Failed([], c, tg.error)
    else
      var g := DecodeUInt64(tg.value.rest);
      if g.Err? then Failed([], tg.value.rest, g.error)
      else
        var m := DecodeString(g.value.rest);
        if m.Err? then Failed([], g.value.rest, m.error)
        else
          var (t, guid, text) := (tg.value.value, g.value.value, m.value.value);
          if t == TalkServerMessage then Done([AddChatMessage(t, None, text)], m.value.rest)
          else if ForeignType(s, guid).Some? && IsUnit(ForeignType(s, guid).value) then
            Done([Talk(guid, t, text), AddChatMessage(t, Some(s.objects[guid].name), text)], m.value.rest)
          else Done([], m.value.rest)
  }

  /** A wait state restarts the dialogue with the fixed text; a decide state
      restarts it with the received header and adds each decision; any other
      state reads nothing more. */
  function DialogueData(c: Cursor, ctx: Context): (r: Step)
    requires c.Wf()
    ensures r.effects != [] ==> r.effects[0].StartWaitingDialogue? || r.effects[0].StartDialogue?
    ensures forall k :: 0 < k < |r.effects| ==> r.effects[k].AddDialogueDecision?
  {
    var gs := DecodeGuidAndByte(c);
    if gs.Err? then Failed([], c, gs.error)
    else
      var (guid, state) := gs.value.value;
      if state == ctx.dialogueWait then Done([StartWaitingDialogue(guid)], gs.value.rest)
      else if state == ctx.dialogueDecide then
        var hdr := DecodeString(gs.value.rest);
        if hdr.Err? then Failed([], gs.value.rest, hdr.error)
        else
          var started := [StartDialogue(guid, hdr.value.value)];
          var n := DecodeUInt8(hdr.value.rest);
          if n.Err? then Failed(started, hdr.value.rest, n.error)
          else
            Gather(n.value.rest, DecisionItem, 0, n.value.value, started)
      else Done([], gs.value.rest)
  }

  method RunDialogueData(c: Cursor, ctx: Context) returns (r: Step)
    requires c.Wf()
    ensures r == DialogueData(c, ctx)
  {
    var gs := DecodeGuidAndByte(c);
    if gs.Err? {
      return Failed([], c, gs.error);
    }
    var (guid, state) := gs.value.value;
    if state == ctx.dialogueWait {
      return Done([StartWaitingDialogue(guid)], gs.value.rest);
    }
    if state != ctx.dialogueDecide {
      return Done([], gs.value.rest);
    }
    var hdr := DecodeString(gs.value.rest);
    if hdr.Err? {
      return Failed([], gs.value.rest, hdr.error);
    }
    var n := DecodeUInt8(hdr.value.rest);
    if n.Err? {
      return Failed([StartDialogue(guid, hdr.value.value)], hdr.value.rest, n.error);
    }
    r := GatherLoop(n.value.rest, DecisionItem, n.value.value, [StartDialogue(guid, hdr.value.value)]);
  }

  function DialogueClose(c: Cursor): (r: Step)
    ensures r.effects == [EndDialogue] && r.fault.None? && r.rest == c
  {
    Done([EndDialogue], c)
  }

  /** The records are cleared, then each of the 100 slots is read: a zero
      item GUID leaves the slot out, any other sets it. */
  function Inventory(c: Cursor): (r: Step)
    requires c.Wf()
    ensures 1 <= |r.effects| <= InventorySlots + 1 && r.effects[0] == ClearInventory
    ensures forall k :: 0 < k < |r.effects| ==> r.effects[k].SetInventorySlot? && r.effects[k].itemGuid != 0
  {
    var s := Gather(c, InventorySlotItem, 0, InventorySlots, [ClearInventory]);
    assert s.effects[0] == s.effects[..1][0];
    s
  }

  method RunInventory(c: Cursor) returns (r: Step)
    requires c.Wf()
    ensures r == Inventory(c)
  {
    r := GatherLoop(c, InventorySlotItem, InventorySlots, [ClearInventory]);
  }

  function ItemQueryResponse(c: Cursor, ctx: Context): (r: Step)
    requires c.Wf()
    ensures c.pos + 1 <= c.size && c.data[c.pos] != GenericStatusOk ==> r == Done([], c.(pos := c.pos + 1))
    ensures r.fault.None? && r.effects != [] ==>
      |r.effects| == 2 && r.effects[0].AddItemCacheEntry? && r.effects[0].time == ctx.now &&
      r.effects[1] == SignalItemCacheEntryLoaded(r.effects[0].id)
    ensures r.fault.Some? ==> r.effects == []
  {
    var st := DecodeUInt8(c);
    if st.Err? then Failed([], c, st.error)
    else
      if st.value.value != GenericStatusOk then Done([], st.value.rest)
      else
        var ids := DecodeUInt32Pair(st.value.rest);
        if ids.Err? then Failed([], st.value.rest, ids.error)
        else
          var name := DecodeString(ids.value.rest);
          if name.Err? then Failed([], ids.value.rest, name.error)
          else
            var desc := DecodeString(name.value.rest);
            if desc.Err? then Failed([], name.value.rest, desc.error)
            else
              var nums := DecodeUInt32Pair(desc.value.rest);
              if nums.Err? then Failed([], desc.value.rest, nums.error)
              else
                var (id, image) := ids.value.value;
                var (stack, rarity) := nums.value.value;
                Done([AddItemCacheEntry(id, image, name.value.value, desc.value.value, stack, rarity, ctx.now),
                      SignalItemCacheEntryLoaded(id)], nums.value.rest)
  }

  function ItemOperationInfo(c: Cursor): (r: Step)
    requires c.Wf()
    ensures r.fault.None? ==> c.pos < c.size && |r.effects| == 1 && r.effects[0].ReportItemOperation? && r.effects[0].operation == c.data[c.pos]
    ensures r.fault.Some? ==> r.effects == []
  {
    var op := DecodeUInt8(c);
    if op.Err? then Failed([], c, op.error)
    else
      var ic := DecodeUInt32Pair(op.value.rest);
      if ic.Err? then Failed([], op.value.rest, ic.error)
      else Done([ReportItemOperation(ic.value.value.0, op.value.value, ic.value.value.1)], ic.value.rest)
  }

  /** A zero item GUID empties the slot and ends the packet after eight
      bytes; any other carries the item id and count. */
  function UpdateInventorySlot(c: Cursor): (r: Step)
    requires c.Wf()
    ensures r.fault.None? ==> |r.effects| == 1 && r.effects[0].SetInventorySlot?
    ensures r.fault.None? && r.effects[0].itemGuid == 0 ==>
      r.effects[0].itemId == 0 && r.effects[0].count == 0 && r.rest.pos == c.pos + 8
    ensures r.fault.None? && r.effects[0].itemGuid != 0 ==> r.rest.pos == c.pos + 16
  {
    var sg := DecodeUInt32Pair(c);
    if sg.Err? then Failed([], c, sg.error)
    else
      var (slot, guid) := sg.value.value;
      if guid == 0 then Done([SetInventorySlot(slot, 0, 0, 0)], sg.value.rest)
      else
        var ic := DecodeUInt32Pair(sg.value.rest);
        if ic.Err? then Failed([], sg.value.rest, ic.error)
        else Done([SetInventorySlot(slot, guid, ic.value.value.0, ic.value.value.1)], ic.value.rest)
  }

  // ---------------------------------------------------------------- dispatch

  /** The handler a table row names, run on the packet payload. */
  function Run(h: Handler, c: Cursor, s: Session, ctx: Context): Step
    requires c.Wf()
  {
    match h
    case HandleNull => Ignore(c)
    case HandleServerSide => Ignore(c)
    case HandleLoginResponse => LoginResponse(c)
    case HandleCharacterList => CharacterList(c)
    case HandleResourceSendStart => ResourceSendStart(c)
    case HandleResourceSendFinished => ResourceSendFinished(c)
    case HandleResourceData => ResourceData(c)
    case HandleResourceChecksumVerify => ResourceChecksumVerify(c)
    case HandleEnterWorldResult => EnterWorldResult(c)
    case HandleCreateObject => CreateObject(c, s)
    case HandleUpdateObject => UpdateObject(c, s)
    case HandleDestroyObject => DestroyObject(c, s)
    case HandleMapMetadata => MapMetadata(c, ctx)
    case HandleMapChunk => MapChunk(c, s, ctx)
    case HandleMapMetaChecksumVerify => MapMetaChecksumVerify(c)
    case HandleMapChunkChecksumVerify => MapChunkChecksumVerify(c)
    case HandleImageMetadata => ImageMetadata(c, ctx)
    case HandleImageMetaChecksumVerify => ImageMetaChecksumVerify(c)
    case HandleNameQueryResponse => NameQueryResponse(c)
    case HandleMoveStartDir => MoveStartDir(c, s)
    case HandleMoveStopDir => MoveStopDir(c, s)
    case HandleMoveHeartbeat => MoveHeartbeat(c, s)
    case HandleChatMessage => ChatMessage(c, s)
  }

  /** Runs a handler, through its loop where it has one. */
  method Dispatch(h: Handler, c: Cursor, s: Session, ctx: Context) returns (r: Step)
    requires c.Wf()
    ensures r == Run(h, c, s, ctx)
  {
    match h {
      case HandleCharacterList => r := RunCharacterList(c);
      case HandleResourceData => r := RunResourceData(c);
      case HandleResourceChecksumVerify => r := RunResourceChecksumVerify(c);
      case HandleCreateObject => r := RunCreateObject(c, s);
      case HandleUpdateObject => r := RunUpdateObject(c, s);
      case HandleDestroyObject => r := RunDestroyObject(c, s);
      case HandleMapChunk => r := RunMapChunk(c, s, ctx);
      case HandleImageMetadata => r := RunImageMetadata(c, ctx);
      case _ => r := Run(h, c, s, ctx);
    }
  }
}
