/**
 * The handlers run on payloads laid out as the server writes them. For each
 * handler: the values the server writes, in order, and the calls the handler
 * makes from them. Each lemma states that the handler, run where those
 * values were written, makes exactly those calls, ends without a fault and
 * leaves the cursor just past the values.
 */
module HandlerWire {
  import opened Wrappers
  import opened Bytes
  import opened SmartPacket
  import opened Enums
  import opened MapTypes
  import opened ObjectEnums
  import opened PacketHandlers

  // ---------------------------------------------------------------- words

  lemma AppendFirst<T>(acc: seq<T>, s: seq<T>)
    requires s != []
    ensures acc + [s[0]] + s[1..] == acc + s
  {
    assert [s[0]] + s[1..] == s;
  }

  /** A run of 32-bit values. */
  function Words(ws: seq<U32>): (vs: seq<Value>)
    ensures |vs| == |ws| && forall k :: 0 <= k < |ws| ==> vs[k] == UInt32(ws[k])
  {
    seq(|ws|, k requires 0 <= k < |ws| => UInt32(ws[k]))
  }

  lemma {:induction false} DecodeUInt32sReadsBack(c: Cursor, ws: seq<U32>, acc: seq<U32>)
    requires Carries(c, Words(ws))
    ensures DecodeUInt32s(c, |ws|, acc) == Ok(Got(acc + ws, After(c, Words(ws))))
    decreases |ws|
  {
    if ws == [] {
      assert acc + ws == acc;
    } else {
      var vs := Words(ws);
      Peel(c, vs);
      var c1 := Skip(c, Size(vs[0]));
      assert vs[1..] == Words(ws[1..]);
      DecodeUInt32sReadsBack(c1, ws[1..], acc + [ws[0]]);
      AppendFirst(acc, ws);
    }
  }

  // ---------------------------------------------------------------- repeated items

  /** The values an item is written as, given the call the handler makes for it. */
  function ItemWire(item: Item, e: Effect): (vs: seq<Value>)
    requires Yields(item, e) && !item.InventorySlotItem?
  {
    match item
    case CharacterItem => [UInt32(e.charGuid), Str(e.name), UInt16(e.level)]
    case FailedResourceItem => [UInt8(e.rtype), UInt32(e.id)]
    case UpdateFieldItem(_) => [UInt32(e.field), UInt32(e.value)]
    case DestroyItem => [UInt64(e.guid)]
    case AnimationItem(_, _) => Words([e.animId, e.frameBegin, e.frameEnd, e.frameDelay])
    case DecisionItem => [UInt32(e.id), Str(e.text)]
    case InventorySlotItem => []
  }

  /** The values of a run of items, one item after the other. */
  function ItemsWire(item: Item, es: seq<Effect>): (vs: seq<Value>)
    requires !item.InventorySlotItem? && AllYield(item, es, 0)
    decreases |es|
  {
    if es == [] then []
    else
      assert forall k :: 0 <= k < |es| - 1 ==> es[1..][k] == es[k + 1];
      ItemWire(item, es[0]) + ItemsWire(item, es[1..])
  }

  /** A character: u32 GUID, name, u16 level. */
  lemma CharacterReadsBack(c: Cursor, guid: U32, name: seq<Byte>, level: U16)
    requires Carries(c, [UInt32(guid), Str(name), UInt16(level)])
    ensures DecodeCharacter(c) == Ok(Got([AddCharacter(guid, name, level)], After(c, [UInt32(guid), Str(name), UInt16(level)])))
  {
    Reads3(c, UInt32(guid), Str(name), UInt16(level));
  }

  /** A failed resource: u8 type, u32 id. */
  lemma FailedResourceReadsBack(c: Cursor, rtype: Byte, id: U32)
    requires Carries(c, [UInt8(rtype), UInt32(id)])
    ensures DecodeFailedResource(c) == Ok(Got([RequestResource(rtype, id)], After(c, [UInt8(rtype), UInt32(id)])))
  {
    Reads2(c, UInt8(rtype), UInt32(id));
  }

  /** An update field: u32 index, u32 value. */
  lemma UpdateFieldReadsBack(c: Cursor, guid: U64, field: U32, value: U32)
    requires Carries(c, [UInt32(field), UInt32(value)])
    ensures DecodeUpdateField(c, guid) == Ok(Got([SetUpdateField(guid, field, value)], After(c, [UInt32(field), UInt32(value)])))
  {
    Reads2(c, UInt32(field), UInt32(value));
  }

  /** A destroyed object: its u64 GUID. */
  lemma DestroyedReadsBack(c: Cursor, guid: U64)
    requires Carries(c, [UInt64(guid)])
    ensures DecodeDestroyed(c) == Ok(Got([RemoveWorldObject(guid)], After(c, [UInt64(guid)])))
  {
    Peel(c, [UInt64(guid)]);
  }

  /** An animation record: id, first frame, last frame, frame delay. */
  lemma AnimationReadsBack(c: Cursor, imageId: U32, now: U32, animId: U32, frameBegin: U32, frameEnd: U32, frameDelay: U32)
    requires Carries(c, Words([animId, frameBegin, frameEnd, frameDelay]))
    ensures DecodeAnimation(c, imageId, now) ==
      Ok(Got([InsertImageAnimation(imageId, animId, frameBegin, frameEnd, frameDelay, now)],
             After(c, Words([animId, frameBegin, frameEnd, frameDelay]))))
  {
    DecodeUInt32sReadsBack(c, [animId, frameBegin, frameEnd, frameDelay], []);
  }

  /** A dialogue decision: u32 id, text. */
  lemma DecisionReadsBack(c: Cursor, id: U32, text: seq<Byte>)
    requires Carries(c, [UInt32(id), Str(text)])
    ensures DecodeDecision(c) == Ok(Got([AddDialogueDecision(id, text)], After(c, [UInt32(id), Str(text)])))
  {
    Reads2(c, UInt32(id), Str(text));
  }

  /** One item written by the server is read back as the call it stands for. */
  lemma DecodeItemReadsBack(c: Cursor, item: Item, i: nat, e: Effect)
    requires !item.InventorySlotItem? && Yields(item, e) && Carries(c, ItemWire(item, e))
    ensures DecodeItem(c, item, i) == Ok(Got([e], After(c, ItemWire(item, e))))
  {
    match item {
      case CharacterItem => CharacterReadsBack(c, e.charGuid, e.name, e.level);
      case FailedResourceItem => FailedResourceReadsBack(c, e.rtype, e.id);
      case UpdateFieldItem(guid) => UpdateFieldReadsBack(c, guid, e.field, e.value);
      case DestroyItem => DestroyedReadsBack(c, e.guid);
      case AnimationItem(imageId, now) =>
        AnimationReadsBack(c, imageId, now, e.animId, e.frameBegin, e.frameEnd, e.frameDelay);
      case DecisionItem => DecisionReadsBack(c, e.id, e.text);
    }
  }

  /** One turn of the counted loop. */
  lemma GatherStep(c: Cursor, item: Item, from: nat, n: nat, acc: seq<Effect>, v: seq<Effect>, c1: Cursor)
    requires c.Wf() && c1.Wf() && DecodeItem(c, item, from) == Ok(Got(v, c1))
    ensures Gather(c, item, from, n + 1, acc) == Gather(c1, item, from + 1, n, acc + v)
  {
  }

  /**
   * A counted run of items written by the server is read back as the calls
   * they stand for, in the order written, after the calls acc.
   */
  lemma {:induction false} GatherReadsBack(c: Cursor, item: Item, from: nat, es: seq<Effect>, acc: seq<Effect>)
    requires !item.InventorySlotItem? && AllYield(item, es, 0) && Carries(c, ItemsWire(item, es))
    ensures Gather(c, item, from, |es|, acc) == Done(acc + es, After(c, ItemsWire(item, es)))
    decreases |es|
  {
    if es == [] {
      assert acc + es == acc;
    } else {
      assert forall k :: 0 <= k < |es| - 1 ==> es[1..][k] == es[k + 1];
      var w := ItemWire(item, es[0]);
      var ws := ItemsWire(item, es[1..]);
      CarriesConcat(c, w, ws);
      DecodeItemReadsBack(c, item, from, es[0]);
      GatherStep(c, item, from, |es| - 1, acc, [es[0]], After(c, w));
      GatherReadsBack(After(c, w), item, from + 1, es[1..], acc + [es[0]]);
      AppendFirst(acc, es);
    }
  }

  // ---------------------------------------------------------------- lobby and resources

  /** A u8 count, then per character its u32 GUID, name and u16 level. */
  lemma CharacterListReadsBack(c: Cursor, chars: seq<Effect>)
    requires |chars| < 0x100 && AllYield(CharacterItem, chars, 0)
    requires Carries(c, [UInt8(|chars|)] + ItemsWire(CharacterItem, chars))
    ensures CharacterList(c) ==
      Done([ClearCharacterList] + chars + [SignalEvent(CharacterListAcquired)],
           After(c, [UInt8(|chars|)] + ItemsWire(CharacterItem, chars)))
  {
    Lead(c, UInt8(|chars|), ItemsWire(CharacterItem, chars));
    GatherReadsBack(Skip(c, 1), CharacterItem, 0, chars, [ClearCharacterList]);
  }

  /** The file name, the resource type and id: one stream is created for them. */
  lemma ResourceSendStartReadsBack(c: Cursor, file: seq<Byte>, rtype: Byte, id: U32)
    requires Carries(c, [Str(file), UInt8(rtype), UInt32(id)])
    ensures ResourceSendStart(c) ==
      Done([CreateResourceStream(file, rtype, id)], After(c, [Str(file), UInt8(rtype), UInt32(id)]))
  {
    Reads3(c, Str(file), UInt8(rtype), UInt32(id));
  }

  /** The type and id of the finished resource: that stream is finished and its checksum sent. */
  lemma ResourceSendFinishedReadsBack(c: Cursor, rtype: Byte, id: U32)
    requires Carries(c, [UInt8(rtype), UInt32(id)])
    ensures ResourceSendFinished(c) ==
      Done([FinishResourceStream(rtype, id), SendResourceChecksum(rtype, id)], After(c, [UInt8(rtype), UInt32(id)]))
  {
    Reads2(c, UInt8(rtype), UInt32(id));
  }

  /** A u16 count of failures, then a type and id per failure: each is requested again, in order. */
  lemma ResourceChecksumVerifyReadsBack(c: Cursor, failed: seq<Effect>)
    requires |failed| < 0x1_0000 && AllYield(FailedResourceItem, failed, 0)
    requires Carries(c, [UInt16(|failed|)] + ItemsWire(FailedResourceItem, failed))
    ensures ResourceChecksumVerify(c) ==
      Done(failed, After(c, [UInt16(|failed|)] + ItemsWire(FailedResourceItem, failed)))
  {
    Lead(c, UInt16(|failed|), ItemsWire(FailedResourceItem, failed));
    GatherReadsBack(Skip(c, 2), FailedResourceItem, 0, failed, []);
    assert [] + failed == failed;
  }

  /** A successful entry with the map id and the float position: the player is created there. */
  lemma EnterWorldResultReadsBack(c: Cursor, mapId: U32, x: U32, y: U32)
    requires Carries(c, [UInt8(EnterWorldOk), UInt32(mapId), Float(x), Float(y)])
    ensures EnterWorldResult(c) ==
      Done([CreatePlayer(mapId, x, y)], After(c, [UInt8(EnterWorldOk), UInt32(mapId), Float(x), Float(y)]))
  {
    Reads4(c, UInt8(EnterWorldOk), UInt32(mapId), Float(x), Float(y));
  }

  /** Raw bytes at the cursor read back one at a time. */
  lemma BytesReadBack(c: Cursor, bytes: seq<Byte>)
    requires WrittenAt(c, bytes)
    ensures DecodeUInt8s(c, |bytes|, []) == Ok(Got(bytes, Skip(c, |bytes|)))
  {
    DecodeUInt8sIsSlice(c, |bytes|, []);
    assert [] + bytes == bytes;
  }

  /** ResourceData given what its reads return. */
  lemma ResourceDataSteps(c: Cursor, rtype: Byte, id: U32, n: U16, bytes: seq<Byte>, c1: Cursor, c2: Cursor, c3: Cursor)
    requires c.Wf() && c1.Wf() && c2.Wf()
    requires DecodeTypeAndId(c) == Ok(Got((rtype, id), c1)) && DecodeUInt16(c1) == Ok(Got(n, c2))
    requires DecodeUInt8s(c2, n as nat, []) == Ok(Got(bytes, c3))
    ensures ResourceData(c) == Done([WriteToResourceStream(rtype, id, bytes)], c3)
  {
  }

  /** The type, id and size of a data block, then its bytes: they are written to that stream. */
  lemma ResourceDataReadsBack(c: Cursor, rtype: Byte, id: U32, bytes: seq<Byte>)
    requires |bytes| < 0x1_0000 && Carries(c, [UInt8(rtype), UInt32(id), UInt16(|bytes|)])
    requires WrittenAt(After(c, [UInt8(rtype), UInt32(id), UInt16(|bytes|)]), bytes)
    ensures ResourceData(c) ==
      Done([WriteToResourceStream(rtype, id, bytes)], Skip(After(c, [UInt8(rtype), UInt32(id), UInt16(|bytes|)]), |bytes|))
  {
    Reads3(c, UInt8(rtype), UInt32(id), UInt16(|bytes|));
    var c3 := After(c, [UInt8(rtype), UInt32(id), UInt16(|bytes|)]);
    BytesReadBack(c3, bytes);
    ResourceDataSteps(c, rtype, id, |bytes| as U16, bytes, Skip(c, 5), c3, Skip(c3, |bytes|));
  }

  // ---------------------------------------------------------------- verify replies

  /** The status and map id: an OK status signals the map loaded, any other requests its metadata again. */
  lemma MapMetaChecksumVerifyReadsBack(c: Cursor, status: Byte, mapId: U32)
    requires Carries(c, [UInt8(status), UInt32(mapId)])
    ensures MapMetaChecksumVerify(c) ==
      Done([if status == GenericStatusOk then SignalMapLoaded(mapId) else RequestMapMetadata(mapId)],
           After(c, [UInt8(status), UInt32(mapId)]))
  {
    Reads2(c, UInt8(status), UInt32(mapId));
  }

  /** The status, map id and chunk origin: OK signals that chunk loaded, any other requests the same chunk again. */
  lemma MapChunkChecksumVerifyReadsBack(c: Cursor, status: Byte, mapId: U32, x: U32, y: U32)
    requires Carries(c, [UInt8(status), UInt32(mapId), UInt32(x), UInt32(y)])
    ensures MapChunkChecksumVerify(c) ==
      Done([if status == GenericStatusOk then SignalChunkLoaded(x, y) else RequestMapChunk(mapId, x, y)],
           After(c, [UInt8(status), UInt32(mapId), UInt32(x), UInt32(y)]))
  {
    Reads4(c, UInt8(status), UInt32(mapId), UInt32(x), UInt32(y));
  }

  /** The status and image id: OK signals the metadata retrieved, any other requests it again. */
  lemma ImageMetaChecksumVerifyReadsBack(c: Cursor, status: Byte, id: U32)
    requires Carries(c, [UInt8(status), UInt32(id)])
    ensures ImageMetaChecksumVerify(c) ==
      Done([if status == GenericStatusOk then SignalImageMetadataRetrieved(id) else RequestImageMetadata(id)],
           After(c, [UInt8(status), UInt32(id)]))
  {
    Reads2(c, UInt8(status), UInt32(id));
  }

  // ---------------------------------------------------------------- names, movement, chat

  /** The GUID and its name: the name resolves for that GUID, "???" when empty. */
  lemma NameQueryResponseReadsBack(c: Cursor, guid: U64, name: seq<Byte>)
    requires Carries(c, [UInt64(guid), Str(name)])
    ensures NameQueryResponse(c) ==
      Done([NameResolved(guid, if name == [] then UnknownName else name)], After(c, [UInt64(guid), Str(name)]))
  {
    Reads2(c, UInt64(guid), Str(name));
  }

  /** The GUID and the direction: a unit on the map other than the local player starts moving that way; any other GUID is ignored. */
  lemma MoveStartDirReadsBack(c: Cursor, s: Session, guid: U64, dir: Byte)
    requires Carries(c, [UInt64(guid), UInt8(dir)])
    ensures s.player.None? ==> MoveStartDir(c, s) == Crashed([], After(c, [UInt64(guid), UInt8(dir)]), NoPlayer)
    ensures s.player.Some? ==> (MoveStartDir(c, s) ==
      Done(if MovesForeignUnit(s, guid) then [StartMovement(guid, dir)] else [], After(c, [UInt64(guid), UInt8(dir)])))
  {
    Reads2(c, UInt64(guid), UInt8(dir));
  }

  /** The GUID, the direction and the float position: such a unit is placed there and stops moving that way. */
  lemma MoveStopDirReadsBack(c: Cursor, s: Session, guid: U64, dir: Byte, x: U32, y: U32)
    requires Carries(c, [UInt64(guid), UInt8(dir), Float(x), Float(y)])
    ensures s.player.None? ==>
      MoveStopDir(c, s) == Crashed([], After(c, [UInt64(guid), UInt8(dir), Float(x), Float(y)]), NoPlayer)
    ensures s.player.Some? ==> (MoveStopDir(c, s) ==
      Done(if MovesForeignUnit(s, guid) then [SetPosition(guid, x, y), StopMovement(guid, dir)] else [],
           After(c, [UInt64(guid), UInt8(dir), Float(x), Float(y)])))
  {
    Reads4(c, UInt64(guid), UInt8(dir), Float(x), Float(y));
  }

  /** The GUID, the movement mask and the float position: such a unit is placed there; the mask is not used. */
  lemma MoveHeartbeatReadsBack(c: Cursor, s: Session, guid: U64, mask: Byte, x: U32, y: U32)
    requires Carries(c, [UInt64(guid), UInt8(mask), Float(x), Float(y)])
    ensures s.player.None? ==>
      MoveHeartbeat(c, s) == Crashed([], After(c, [UInt64(guid), UInt8(mask), Float(x), Float(y)]), NoPlayer)
    ensures s.player.Some? ==> (MoveHeartbeat(c, s) ==
      Done(if MovesForeignUnit(s, guid) then [SetPosition(guid, x, y)] else [],
           After(c, [UInt64(guid), UInt8(mask), Float(x), Float(y)])))
  {
    Reads4(c, UInt64(guid), UInt8(mask), Float(x), Float(y));
  }

  /**
   * The talk type, the speaker's GUID and the text: a server message is
   * added without an author; otherwise a unit on the map says the text and
   * it is added under that unit's name; any other speaker is ignored.
   */
  lemma ChatMessageReadsBack(c: Cursor, s: Session, talkType: Byte, guid: U64, text: seq<Byte>)
    requires Carries(c, [UInt8(talkType), UInt64(guid), Str(text)])
    ensures ChatMessage(c, s) ==
      Done(if talkType == TalkServerMessage then [AddChatMessage(talkType, None, text)]
           else if guid in s.objects && s.hasMap && IsUnit(s.objects[guid].otype) then
             [Talk(guid, talkType, text), AddChatMessage(talkType, Some(s.objects[guid].name), text)]
           else [],
           After(c, [UInt8(talkType), UInt64(guid), Str(text)]))
  {
    Reads3(c, UInt8(talkType), UInt64(guid), Str(text));
  }

  // ---------------------------------------------------------------- items

  /** The operation, the item id and the count are reported as received. */
  lemma ItemOperationInfoReadsBack(c: Cursor, op: Byte, itemId: U32, count: U32)
    requires Carries(c, [UInt8(op), UInt32(itemId), UInt32(count)])
    ensures ItemOperationInfo(c) ==
      Done([ReportItemOperation(itemId, op, count)], After(c, [UInt8(op), UInt32(itemId), UInt32(count)]))
  {
    Reads3(c, UInt8(op), UInt32(itemId), UInt32(count));
  }

  /** A slot and a zero item GUID: the slot is emptied. */
  lemma EmptiedSlotReadsBack(c: Cursor, slot: U32)
    requires Carries(c, [UInt32(slot), UInt32(0)])
    ensures UpdateInventorySlot(c) == Done([SetInventorySlot(slot, 0, 0, 0)], After(c, [UInt32(slot), UInt32(0)]))
  {
    Reads2(c, UInt32(slot), UInt32(0));
  }

  /** A slot, a nonzero item GUID, the item id and the count: the slot holds that item. */
  lemma FilledSlotReadsBack(c: Cursor, slot: U32, itemGuid: U32, itemId: U32, count: U32)
    requires itemGuid != 0 && Carries(c, [UInt32(slot), UInt32(itemGuid), UInt32(itemId), UInt32(count)])
    ensures UpdateInventorySlot(c) ==
      Done([SetInventorySlot(slot, itemGuid, itemId, count)],
           After(c, [UInt32(slot), UInt32(itemGuid), UInt32(itemId), UInt32(count)]))
  {
    Reads4(c, UInt32(slot), UInt32(itemGuid), UInt32(itemId), UInt32(count));
  }

  /** The record of an item as the server sends it; the entry stores it stamped with the time. */
  lemma ItemQueryResponseReadsBack(c: Cursor, ctx: Context, id: U32, imageId: U32, name: seq<Byte>,
                                   description: seq<Byte>, stackSize: U32, rarity: U32)
    requires Carries(c, [UInt8(GenericStatusOk), UInt32(id), UInt32(imageId), Str(name)] +
                        [Str(description), UInt32(stackSize), UInt32(rarity)])
    ensures ItemQueryResponse(c, ctx) ==
      Done([AddItemCacheEntry(id, imageId, name, description, stackSize, rarity, ctx.now), SignalItemCacheEntryLoaded(id)],
           After(c, [UInt8(GenericStatusOk), UInt32(id), UInt32(imageId), Str(name)] +
                    [Str(description), UInt32(stackSize), UInt32(rarity)]))
  {
    var a := [UInt8(GenericStatusOk), UInt32(id), UInt32(imageId), Str(name)];
    var b := [Str(description), UInt32(stackSize), UInt32(rarity)];
    CarriesConcat(c, a, b);
    Reads4(c, UInt8(GenericStatusOk), UInt32(id), UInt32(imageId), Str(name));
    Reads3(After(c, a), Str(description), UInt32(stackSize), UInt32(rarity));
  }

  // ---------------------------------------------------------------- objects and dialogue

  /** UpdateObject about an object on the map, given what its first two reads return. */
  lemma UpdateObjectSteps(c: Cursor, s: Session, guid: U64, n: Byte, c1: Cursor, c2: Cursor)
    requires c.Wf() && c1.Wf() && c2.Wf() && ForeignType(s, guid).Some?
    requires DecodeUInt64(c) == Ok(Got(guid, c1)) && DecodeUInt8(c1) == Ok(Got(n, c2))
    ensures UpdateObject(c, s) == Gather(c2, UpdateFieldItem(guid), 0, n as nat, [])
  {
  }

  /** An object on the map, a u8 count and that many field updates: each sets its field of the object, in order. */
  lemma UpdateObjectReadsBack(c: Cursor, s: Session, guid: U64, updates: seq<Effect>)
    requires ForeignType(s, guid).Some? && |updates| < 0x100 && AllYield(UpdateFieldItem(guid), updates, 0)
    requires Carries(c, [UInt64(guid), UInt8(|updates|)] + ItemsWire(UpdateFieldItem(guid), updates))
    ensures UpdateObject(c, s) ==
      Done(updates, After(c, [UInt64(guid), UInt8(|updates|)] + ItemsWire(UpdateFieldItem(guid), updates)))
  {
    var w := ItemsWire(UpdateFieldItem(guid), updates);
    CarriesConcat(c, [UInt64(guid), UInt8(|updates|)], w);
    Reads2(c, UInt64(guid), UInt8(|updates|));
    UpdateObjectSteps(c, s, guid, |updates| as Byte, Skip(c, 8), Skip(Skip(c, 8), 1));
    GatherReadsBack(After(c, [UInt64(guid), UInt8(|updates|)]), UpdateFieldItem(guid), 0, updates, []);
    assert [] + updates == updates;
  }

  /** With a map, a u8 count and that many GUIDs: each object is removed, in order. */
  lemma DestroyObjectReadsBack(c: Cursor, s: Session, removed: seq<Effect>)
    requires s.hasMap && |removed| < 0x100 && AllYield(DestroyItem, removed, 0)
    requires Carries(c, [UInt8(|removed|)] + ItemsWire(DestroyItem, removed))
    ensures DestroyObject(c, s) == Done(removed, After(c, [UInt8(|removed|)] + ItemsWire(DestroyItem, removed)))
  {
    Lead(c, UInt8(|removed|), ItemsWire(DestroyItem, removed));
    GatherReadsBack(Skip(c, 1), DestroyItem, 0, removed, []);
    assert [] + removed == removed;
  }

  /** The GUID and the wait state: the waiting dialogue starts for it. */
  lemma DialogueWaitReadsBack(c: Cursor, ctx: Context, guid: U64)
    requires Carries(c, [UInt64(guid), UInt8(ctx.dialogueWait)])
    ensures DialogueData(c, ctx) == Done([StartWaitingDialogue(guid)], After(c, [UInt64(guid), UInt8(ctx.dialogueWait)]))
  {
    Reads2(c, UInt64(guid), UInt8(ctx.dialogueWait));
  }

  /** The decide branch of DialogueData, given what its first three reads return. */
  lemma DialogueDecideSteps(c: Cursor, ctx: Context, guid: U64, header: seq<Byte>, n: Byte, c1: Cursor, c2: Cursor, c3: Cursor)
    requires c.Wf() && c1.Wf() && c2.Wf() && c3.Wf() && ctx.dialogueWait != ctx.dialogueDecide
    requires DecodeGuidAndByte(c) == Ok(Got((guid, ctx.dialogueDecide), c1))
    requires DecodeString(c1) == Ok(Got(header, c2)) && DecodeUInt8(c2) == Ok(Got(n, c3))
    ensures DialogueData(c, ctx) == Gather(c3, DecisionItem, 0, n as nat, [StartDialogue(guid, header)])
  {
  }

  /**
   * The GUID, the decide state, the header text, a u8 count and the
   * decisions: the dialogue starts with the header and each decision is
   * added, in order.
   */
  lemma DialogueDecideReadsBack(c: Cursor, ctx: Context, guid: U64, header: seq<Byte>, decisions: seq<Effect>)
    requires ctx.dialogueWait != ctx.dialogueDecide && |decisions| < 0x100 && AllYield(DecisionItem, decisions, 0)
    requires Carries(c, [UInt64(guid), UInt8(ctx.dialogueDecide), Str(header), UInt8(|decisions|)] + ItemsWire(DecisionItem, decisions))
    ensures DialogueData(c, ctx) ==
      Done([StartDialogue(guid, header)] + decisions,
           After(c, [UInt64(guid), UInt8(ctx.dialogueDecide), Str(header), UInt8(|decisions|)] + ItemsWire(DecisionItem, decisions)))
  {
    var a := [UInt64(guid), UInt8(ctx.dialogueDecide), Str(header), UInt8(|decisions|)];
    CarriesConcat(c, a, ItemsWire(DecisionItem, decisions));
    Reads4(c, UInt64(guid), UInt8(ctx.dialogueDecide), Str(header), UInt8(|decisions|));
    var c1 := Skip(Skip(c, 8), 1);
    var c2 := Skip(c1, |header| + 1);
    DialogueDecideSteps(c, ctx, guid, header, |decisions| as Byte, c1, c2, Skip(c2, 1));
    GatherReadsBack(After(c, a), DecisionItem, 0, decisions, [StartDialogue(guid, header)]);
  }

  // ---------------------------------------------------------------- maps

  /** The header fields of a map metadata reply as the server writes them, then the file name. */
  function MapHeaderWire(h: MapHeader, name: seq<Byte>, file: seq<Byte>): seq<Value>
  {
    [UInt32(h.mapId), UInt32(h.sizeX), UInt32(h.sizeY), Str(name), UInt32(h.entryX)] +
    [UInt32(h.entryY), UInt16(h.defaultFieldType), UInt32(h.defaultFieldTexture), UInt32(h.defaultFieldFlags), Str(file)]
  }

  /** The header read back is the map's header, its name padded to the name field, with the current version. */
  lemma DecodeMapHeaderReadsBack(c: Cursor, h: MapHeader, name: seq<Byte>, file: seq<Byte>)
    requires h.versionMagic == MapVersionMagic && h.name == NameField(name)
    requires Carries(c, MapHeaderWire(h, name, file))
    ensures DecodeMapHeader(c) == Ok(Got((h, file), After(c, MapHeaderWire(h, name, file))))
  {
    var a := [UInt32(h.mapId), UInt32(h.sizeX), UInt32(h.sizeY), Str(name), UInt32(h.entryX)];
    var b := [UInt32(h.entryY), UInt16(h.defaultFieldType), UInt32(h.defaultFieldTexture), UInt32(h.defaultFieldFlags), Str(file)];
    CarriesConcat(c, a, b);
    Reads5(c, UInt32(h.mapId), UInt32(h.sizeX), UInt32(h.sizeY), Str(name), UInt32(h.entryX));
    Reads5(After(c, a), UInt32(h.entryY), UInt16(h.defaultFieldType), UInt32(h.defaultFieldTexture), UInt32(h.defaultFieldFlags), Str(file));
  }

  /**
   * An OK status and the header: the map record is stored with the file
   * name and the header's checksum, the map is created from the header and
   * that checksum is sent for the same map.
   */
  lemma MapMetadataReadsBack(c: Cursor, ctx: Context, h: MapHeader, name: seq<Byte>, file: seq<Byte>)
    requires h.versionMagic == MapVersionMagic && h.name == NameField(name)
    requires Carries(c, [UInt8(GenericStatusOk)] + MapHeaderWire(h, name, file))
    ensures MapMetadata(c, ctx) ==
      Done([InsertMapRecord(h.mapId, file, ctx.headerChecksum(h), ctx.now), CreateMapUsing(h),
            SendMapMetadataVerify(h.mapId, ctx.headerChecksum(h))],
           After(c, [UInt8(GenericStatusOk)] + MapHeaderWire(h, name, file)))
  {
    Lead(c, UInt8(GenericStatusOk), MapHeaderWire(h, name, file));
    DecodeMapHeaderReadsBack(Skip(c, 1), h, name, file);
  }

  /** The rectangle of a chunk reply: map id, origin and size. */
  function AreaWire(a: ChunkArea): seq<Value>
  {
    [UInt32(a.mapId), UInt32(a.startX), UInt32(a.startY), UInt32(a.sizeX), UInt32(a.sizeY)]
  }

  lemma DecodeChunkAreaReadsBack(c: Cursor, a: ChunkArea)
    requires Carries(c, AreaWire(a))
    ensures DecodeChunkArea(c) == Ok(Got(a, After(c, AreaWire(a))))
  {
    Reads5(c, UInt32(a.mapId), UInt32(a.startX), UInt32(a.startY), UInt32(a.sizeX), UInt32(a.sizeY));
  }

  /** One field of a chunk: u16 type, u32 texture, u32 flags. */
  function CellWire(f: MapField): seq<Value>
  {
    [UInt16(f.fieldType), UInt32(f.texture), UInt32(f.flags)]
  }

  function CellsWire(cells: seq<MapField>): seq<Value>
  {
    if cells == [] then [] else CellWire(cells[0]) + CellsWire(cells[1..])
  }

  lemma DecodeMapFieldReadsBack(c: Cursor, f: MapField)
    requires Carries(c, CellWire(f))
    ensures DecodeMapField(c) == Ok(Got(f, After(c, CellWire(f))))
  {
    Reads3(c, UInt16(f.fieldType), UInt32(f.texture), UInt32(f.flags));
  }

  /**
   * Where field k of a chunk is stored: the fields come column by column,
   * so field k lies in column k / sizeY and row k % sizeY of the chunk, and
   * is stored at the chunk origin plus that offset, with 32-bit wrap-around.
   */
  function StoredAt(a: ChunkArea, k: nat, f: MapField): Effect
    requires a.sizeY > 0
  {
    SetFieldContents(Wrap32(a.startX + k / a.sizeY), Wrap32(a.startY + k % a.sizeY), f)
  }

  /** The stores of a chunk's fields, in the order they are received. */
  function ChunkStores(a: ChunkArea, cells: seq<MapField>): (es: seq<Effect>)
    requires |cells| == a.sizeX * a.sizeY
    ensures |es| == |cells|
  {
    if a.sizeY == 0 then
      assert a.sizeX * a.sizeY == 0;
      []
    else seq(|cells|, k requires 0 <= k < |cells| => StoredAt(a, k, cells[k]))
  }

  lemma MulLe(x: nat, y: nat, h: nat)
    requires x <= y
    ensures x * h <= y * h
  {
  }

  lemma ColumnRow(i: nat, j: nat, h: nat)
    requires j < h
    ensures (i * h + j) / h == i && (i * h + j) % h == j
  {
    var q, r := (i * h + j) / h, (i * h + j) % h;
    assert q * h + r == i * h + j;
    if q > i {
      MulLe(i + 1, q, h);
      assert false;
    } else if q < i {
      MulLe(q + 1, i, h);
      assert false;
    }
  }

  lemma BeforeLastColumn(i: nat, j: nat, w: nat, h: nat)
    requires i < w && j < h
    ensures i * h + j < w * h
  {
    assert (i + 1) * h <= w * h;
  }

  /** The field in column i, row j of the chunk is stored at (startX + i, startY + j). */
  lemma ChunkStoresAt(a: ChunkArea, cells: seq<MapField>, i: nat, j: nat)
    requires |cells| == a.sizeX * a.sizeY && i < a.sizeX && j < a.sizeY
    ensures i * a.sizeY + j < |cells|
    ensures ChunkStores(a, cells)[i * a.sizeY + j] ==
      SetFieldContents(Wrap32(a.startX + i), Wrap32(a.startY + j), cells[i * a.sizeY + j])
  {
    BeforeLastColumn(i, j, a.sizeX, a.sizeY);
    ColumnRow(i, j, a.sizeY);
  }

  lemma TakeOneMore<T>(s: seq<T>, k: nat)
    requires k < |s|
    ensures s[..k] + [s[k]] == s[..k + 1]
  {
  }

  lemma CellsWireFrom(cells: seq<MapField>, k: nat)
    requires k < |cells|
    ensures CellsWire(cells[k..]) == CellWire(cells[k]) + CellsWire(cells[k + 1..])
  {
    assert cells[k..][1..] == cells[k + 1..];
  }

  /** One turn of the inner loop over a chunk's fields. */
  lemma ChunkCellsStep(c: Cursor, a: ChunkArea, i: nat, j: nat, acc: seq<Effect>, f: MapField, c1: Cursor)
    requires c.Wf() && c1.Wf() && i < a.sizeX && j < a.sizeY && DecodeMapField(c) == Ok(Got(f, c1))
    ensures ChunkCells(c, a, i, j, acc) ==
      ChunkCells(c1, a, i, j + 1, acc + [SetFieldContents(Wrap32(a.startX + i), Wrap32(a.startY + j), f)])
  {
  }

  /** The field in column i, row j, field k of the chunk, read back as its store, the rest carried after it. */
  lemma ChunkCellNext(c: Cursor, a: ChunkArea, cells: seq<MapField>, i: nat, j: nat, k: nat, acc: seq<Effect>)
    requires |cells| == a.sizeX * a.sizeY && i < a.sizeX && j < a.sizeY && k == i * a.sizeY + j
    requires k < |cells| && Carries(c, CellsWire(cells[k..])) && acc == ChunkStores(a, cells)[..k]
    ensures Carries(c, CellWire(cells[k])) && var c1 := After(c, CellWire(cells[k]));
      Carries(c1, CellsWire(cells[k + 1..])) &&
      After(c1, CellsWire(cells[k + 1..])) == After(c, CellsWire(cells[k..])) &&
      ChunkCells(c, a, i, j, acc) == ChunkCells(c1, a, i, j + 1, ChunkStores(a, cells)[..k + 1])
  {
    ChunkStoresAt(a, cells, i, j);
    CellsWireFrom(cells, k);
    CarriesConcat(c, CellWire(cells[k]), CellsWire(cells[k + 1..]));
    DecodeMapFieldReadsBack(c, cells[k]);
    ChunkCellsStep(c, a, i, j, acc, cells[k], After(c, CellWire(cells[k])));
    TakeOneMore(ChunkStores(a, cells), k);
  }

  lemma NextColumn(i: nat, h: nat)
    ensures (i + 1) * h == i * h + h
  {
  }

  /**
   * The fields of a chunk from column i, row j on, field k of the chunk
   * onwards, read back as the stores ChunkStores states, after the stores
   * of the fields before them.
   */
  lemma {:induction false} ChunkCellsReadsBack(c: Cursor, a: ChunkArea, cells: seq<MapField>, i: nat, j: nat, k: nat, acc: seq<Effect>)
    requires |cells| == a.sizeX * a.sizeY && i <= a.sizeX && j <= a.sizeY && k == i * a.sizeY + j && k <= |cells|
    requires Carries(c, CellsWire(cells[k..])) && acc == ChunkStores(a, cells)[..k]
    ensures ChunkCells(c, a, i, j, acc) == Done(ChunkStores(a, cells), After(c, CellsWire(cells[k..])))
    decreases a.sizeX - i, a.sizeY - j, 1
  {
    if i == a.sizeX {
      assert k == |cells| && cells[k..] == [];
      assert Skip(c, 0) == c;
    } else if j == a.sizeY {
      NextColumn(i, a.sizeY);
      ChunkCellsReadsBack(c, a, cells, i + 1, 0, k, acc);
    } else {
      BeforeLastColumn(i, j, a.sizeX, a.sizeY);
      ChunkCellReadsBack(c, a, cells, i, j, k, acc);
    }
  }

  /** The turn of ChunkCellsReadsBack that reads field k, in column i and row j. */
  lemma {:induction false} ChunkCellReadsBack(c: Cursor, a: ChunkArea, cells: seq<MapField>, i: nat, j: nat, k: nat, acc: seq<Effect>)
    requires |cells| == a.sizeX * a.sizeY && i < a.sizeX && j < a.sizeY && k == i * a.sizeY + j && k < |cells|
    requires Carries(c, CellsWire(cells[k..])) && acc == ChunkStores(a, cells)[..k]
    ensures ChunkCells(c, a, i, j, acc) == Done(ChunkStores(a, cells), After(c, CellsWire(cells[k..])))
    decreases a.sizeX - i, a.sizeY - j, 0
  {
    ChunkCellNext(c, a, cells, i, j, k, acc);
    ChunkCellsReadsBack(After(c, CellWire(cells[k])), a, cells, i, j + 1, k + 1, ChunkStores(a, cells)[..k + 1]);
  }

  /** The fields stored by a chunk's stores are its fields, in order. */
  lemma {:induction false} CellsOfStores(es: seq<Effect>, cells: seq<MapField>)
    requires |es| == |cells| && forall k :: 0 <= k < |es| ==> es[k].SetFieldContents? && es[k].cell == cells[k]
    ensures CellsOf(es) == cells
    decreases |es|
  {
    if es != [] {
      CellsOfStores(es[1..], cells[1..]);
      assert [cells[0]] + cells[1..] == cells;
    }
  }

  /** The stores of a chunk carry exactly its fields, in order: what the checksum is taken over. */
  lemma ChunkStoresCells(a: ChunkArea, cells: seq<MapField>)
    requires |cells| == a.sizeX * a.sizeY
    ensures CellsOf(ChunkStores(a, cells)) == cells
  {
    CellsOfStores(ChunkStores(a, cells), cells);
  }

  /** MapChunk with a map and an OK status, given the area read and the result of its field loop. */
  lemma MapChunkSteps(c: Cursor, s: Session, ctx: Context, a: ChunkArea, c1: Cursor, c2: Cursor, es: seq<Effect>, c3: Cursor)
    requires c.Wf() && c1.Wf() && c2.Wf() && s.hasMap
    requires DecodeUInt8(c) == Ok(Got(GenericStatusOk, c1)) && DecodeChunkArea(c1) == Ok(Got(a, c2))
    requires ChunkCells(c2, a, 0, 0, []) == Done(es, c3)
    ensures MapChunk(c, s, ctx) ==
      Done(es + [InsertMapChunkRecord(a.mapId, a.startX, a.startY, a.sizeX, a.sizeY, ctx.chunkChecksum(CellsOf(es)), ctx.now),
                 SaveMapToFile, SendMapChunkVerify(a.mapId, a.startX, a.startY, ctx.chunkChecksum(CellsOf(es)))], c3)
  {
  }

  /**
   * With a map, an OK status, the chunk rectangle and its fields column by
   * column: each field is stored at the chunk origin plus its column and
   * row, then the chunk record is stored with the checksum of exactly those
   * fields, the map is saved and that checksum is sent for the same map and
   * origin.
   */
  lemma MapChunkReadsBack(c: Cursor, s: Session, ctx: Context, a: ChunkArea, cells: seq<MapField>)
    requires s.hasMap && |cells| == a.sizeX * a.sizeY
    requires Carries(c, [UInt8(GenericStatusOk)] + AreaWire(a) + CellsWire(cells))
    ensures MapChunk(c, s, ctx) ==
      Done(ChunkStores(a, cells) +
           [InsertMapChunkRecord(a.mapId, a.startX, a.startY, a.sizeX, a.sizeY, ctx.chunkChecksum(cells), ctx.now),
            SaveMapToFile, SendMapChunkVerify(a.mapId, a.startX, a.startY, ctx.chunkChecksum(cells))],
           After(c, [UInt8(GenericStatusOk)] + AreaWire(a) + CellsWire(cells)))
  {
    var head := [UInt8(GenericStatusOk)] + AreaWire(a);
    CarriesConcat(c, head, CellsWire(cells));
    Lead(c, UInt8(GenericStatusOk), AreaWire(a));
    DecodeChunkAreaReadsBack(Skip(c, 1), a);
    assert cells[0..] == cells && 0 * a.sizeY + 0 == 0;
    ChunkCellsReadsBack(After(c, head), a, cells, 0, 0, 0, []);
    var es := ChunkStores(a, cells);
    ChunkStoresCells(a, cells);
    MapChunkSteps(c, s, ctx, a, Skip(c, 1), After(c, head), es, After(After(c, head), CellsWire(cells)));
  }

  // ---------------------------------------------------------------- images

  /** The nine header words read back as the header. */
  lemma DecodeImageHeaderReadsBack(c: Cursor, h: ImageHeader)
    requires Carries(c, Words(HeaderWords(h)))
    ensures DecodeImageHeader(c) == Ok(Got(h, After(c, Words(HeaderWords(h)))))
  {
    DecodeUInt32sReadsBack(c, HeaderWords(h), []);
    assert [] + HeaderWords(h) == HeaderWords(h);
  }

  /** The words of the animations after the wipe are those of the animations. */
  lemma AnimationWordsAfterWipe(id: U32, anims: seq<Effect>)
    ensures AnimationWords([WipeImageMetadata(id)] + anims) == AnimationWords(anims)
  {
    assert ([WipeImageMetadata(id)] + anims)[1..] == anims;
  }

  /** The animation count and records: the old metadata is wiped and each animation inserted, in order. */
  lemma ImageAnimationsReadsBack(c: Cursor, h: ImageHeader, ctx: Context, anims: seq<Effect>)
    requires |anims| < 0x1_0000_0000 && AllYield(AnimationItem(h.id, ctx.now), anims, 0)
    requires Carries(c, [UInt32(|anims|)] + ItemsWire(AnimationItem(h.id, ctx.now), anims))
    ensures ImageAnimations(c, h, ctx) ==
      Done([WipeImageMetadata(h.id)] + anims, After(c, [UInt32(|anims|)] + ItemsWire(AnimationItem(h.id, ctx.now), anims)))
  {
    Lead(c, UInt32(|anims|), ItemsWire(AnimationItem(h.id, ctx.now), anims));
    GatherReadsBack(Skip(c, 4), AnimationItem(h.id, ctx.now), 0, anims, [WipeImageMetadata(h.id)]);
  }

  /** ImageMetadata with an OK status, given the header read and the result of its animation loop. */
  lemma ImageMetadataSteps(c: Cursor, ctx: Context, h: ImageHeader, c1: Cursor, c2: Cursor, es: seq<Effect>, c3: Cursor)
    requires c.Wf() && c1.Wf() && c2.Wf()
    requires DecodeUInt8(c) == Ok(Got(GenericStatusOk, c1)) && DecodeImageHeader(c1) == Ok(Got(h, c2))
    requires ImageAnimations(c2, h, ctx) == Done(es, c3)
    ensures ImageMetadata(c, ctx) ==
      Done(es + [InsertImageMetadata(h, ImageChecksum(ctx, h, es), ctx.now), SendImageMetadataVerify(h.id, ImageChecksum(ctx, h, es))], c3)
  {
  }

  /**
   * An OK status, the header words, the animation count and records: the
   * old metadata is wiped, each animation inserted in order, then the
   * header is stored with the checksum of its nine words followed by the
   * words of each animation, and that checksum is sent for the same image.
   */
  lemma ImageMetadataReadsBack(c: Cursor, ctx: Context, h: ImageHeader, anims: seq<Effect>)
    requires |anims| < 0x1_0000_0000 && AllYield(AnimationItem(h.id, ctx.now), anims, 0)
    requires Carries(c, [UInt8(GenericStatusOk)] + Words(HeaderWords(h)) +
                        ([UInt32(|anims|)] + ItemsWire(AnimationItem(h.id, ctx.now), anims)))
    ensures var sum := ctx.imageChecksum(HeaderWords(h) + AnimationWords(anims));
      ImageMetadata(c, ctx) ==
      Done([WipeImageMetadata(h.id)] + anims + [InsertImageMetadata(h, sum, ctx.now), SendImageMetadataVerify(h.id, sum)],
           After(c, [UInt8(GenericStatusOk)] + Words(HeaderWords(h)) +
                    ([UInt32(|anims|)] + ItemsWire(AnimationItem(h.id, ctx.now), anims))))
  {
    var head := [UInt8(GenericStatusOk)] + Words(HeaderWords(h));
    var body := [UInt32(|anims|)] + ItemsWire(AnimationItem(h.id, ctx.now), anims);
    CarriesConcat(c, head, body);
    Lead(c, UInt8(GenericStatusOk), Words(HeaderWords(h)));
    DecodeImageHeaderReadsBack(Skip(c, 1), h);
    ImageAnimationsReadsBack(After(c, head), h, ctx, anims);
    AnimationWordsAfterWipe(h.id, anims);
    ImageMetadataSteps(c, ctx, h, Skip(c, 1), After(c, head), [WipeImageMetadata(h.id)] + anims, After(After(c, head), body));
  }

  // ---------------------------------------------------------------- created objects

  /** One create block as the server sends it: GUID, update fields, float position and movement mask. */
  datatype Block = Block(guid: U64, fields: seq<U32>, x: U32, y: U32, moveMask: Byte)

  /** A block the handler can apply: the player object exists, and another
      object has a known type and a map to go on. */
  predicate Placeable(s: Session, b: Block)
  {
    s.player.Some? && |b.fields| < 0x1_0000_0000
    && (b.guid != s.player.value ==> TypeOfGuid(b.guid) != MaxObjectType && s.hasMap)
  }

  /** The GUID, the field count and the fields. */
  function HeadWire(b: Block): seq<Value>
    requires |b.fields| < 0x1_0000_0000
  {
    [UInt64(b.guid), UInt32(|b.fields|)] + Words(b.fields)
  }

  /** The position, then the movement mask for the player and for units. */
  function TailWire(s: Session, b: Block): seq<Value>
    requires s.player.Some?
  {
    if b.guid == s.player.value || IsUnit(TypeOfGuid(b.guid)) then [Float(b.x), Float(b.y), UInt8(b.moveMask)]
    else [Float(b.x), Float(b.y)]
  }

  function BlockWire(s: Session, b: Block): seq<Value>
    requires Placeable(s, b)
  {
    HeadWire(b) + TailWire(s, b)
  }

  /** The player's block only applies its fields; another object is created,
      placed, set moving (units only) and added to the map. */
  function BlockEffects(s: Session, b: Block): seq<Effect>
    requires s.player.Some?
  {
    if b.guid == s.player.value then [ApplyPlayerFields(b.fields)]
    else
      [CreateForeignObject(b.guid, b.fields), SetPosition(b.guid, b.x, b.y)]
      + (if IsUnit(TypeOfGuid(b.guid)) then MoveStarts(b.guid, b.moveMask) else [])
      + [AddWorldObject(b.guid)]
  }

  predicate AllPlaceable(s: Session, bs: seq<Block>)
  {
    forall k :: 0 <= k < |bs| ==> Placeable(s, bs[k])
  }

  function BlocksWire(s: Session, bs: seq<Block>): seq<Value>
    requires AllPlaceable(s, bs)
  {
    if bs == [] then [] else BlockWire(s, bs[0]) + BlocksWire(s, bs[1..])
  }

  function BlocksEffects(s: Session, bs: seq<Block>): seq<Effect>
    requires AllPlaceable(s, bs)
  {
    if bs == [] then [] else BlockEffects(s, bs[0]) + BlocksEffects(s, bs[1..])
  }

  lemma ObjectHeadReadsBack(c: Cursor, b: Block)
    requires |b.fields| < 0x1_0000_0000 && Carries(c, HeadWire(b))
    ensures ObjectHead(c) == Ok(Got((b.guid, b.fields), After(c, HeadWire(b))))
  {
    var lead := [UInt64(b.guid), UInt32(|b.fields|)];
    CarriesConcat(c, lead, Words(b.fields));
    Reads2(c, UInt64(b.guid), UInt32(|b.fields|));
    DecodeUInt32sReadsBack(After(c, lead), b.fields, []);
    assert [] + b.fields == b.fields;
  }

  /** ForeignTail on a unit of known type with a map, given what its two reads return. */
  lemma ForeignUnitTail(c: Cursor, s: Session, guid: U64, fields: seq<U32>, x: U32, y: U32, mask: Byte, c1: Cursor, c2: Cursor)
    requires TypeOfGuid(guid) != MaxObjectType && IsUnit(TypeOfGuid(guid)) && s.hasMap
    requires c.Wf() && c1.Wf() && c2.Wf()
    requires DecodeUInt32Pair(c) == Ok(Got((x, y), c1)) && DecodeUInt8(c1) == Ok(Got(mask, c2))
    ensures ForeignTail(c, s, guid, fields) ==
      Done([CreateForeignObject(guid, fields), SetPosition(guid, x, y)] + MoveStarts(guid, mask) + [AddWorldObject(guid)], c2)
  {
    assert [CreateForeignObject(guid, fields)] + [SetPosition(guid, x, y)] == [CreateForeignObject(guid, fields), SetPosition(guid, x, y)];
  }

  /** The calls of a foreign unit's block. */
  lemma UnitBlockEffects(s: Session, b: Block)
    requires s.player.Some? && b.guid != s.player.value && IsUnit(TypeOfGuid(b.guid))
    ensures BlockEffects(s, b) ==
      [CreateForeignObject(b.guid, b.fields), SetPosition(b.guid, b.x, b.y)] + MoveStarts(b.guid, b.moveMask) + [AddWorldObject(b.guid)]
  {
  }

  /** A unit's tail: the position, then the movement mask. */
  lemma UnitTailSteps(c: Cursor, s: Session, b: Block, c1: Cursor, c2: Cursor)
    requires Placeable(s, b) && b.guid != s.player.value && IsUnit(TypeOfGuid(b.guid))
    requires c.Wf() && c1.Wf() && c2.Wf()
    requires DecodeUInt32Pair(c) == Ok(Got((b.x, b.y), c1)) && DecodeUInt8(c1) == Ok(Got(b.moveMask, c2))
    ensures ForeignTail(c, s, b.guid, b.fields) == Done(BlockEffects(s, b), c2)
  {
    ForeignUnitTail(c, s, b.guid, b.fields, b.x, b.y, b.moveMask, c1, c2);
    UnitBlockEffects(s, b);
  }

  /** The tail of any other known type on a loaded map: created, placed, added, after the position. */
  lemma ForeignStaticTail(c: Cursor, s: Session, guid: U64, fields: seq<U32>, x: U32, y: U32, c1: Cursor)
    requires TypeOfGuid(guid) != MaxObjectType && !IsUnit(TypeOfGuid(guid)) && s.hasMap
    requires c.Wf() && c1.Wf() && DecodeUInt32Pair(c) == Ok(Got((x, y), c1))
    ensures ForeignTail(c, s, guid, fields) ==
      Done([CreateForeignObject(guid, fields), SetPosition(guid, x, y), AddWorldObject(guid)], c1)
  {
    assert [CreateForeignObject(guid, fields)] + [SetPosition(guid, x, y)] + [AddWorldObject(guid)]
      == [CreateForeignObject(guid, fields), SetPosition(guid, x, y), AddWorldObject(guid)];
  }

  /** The calls of any other foreign object's block. */
  lemma StaticBlockEffects(s: Session, b: Block)
    requires s.player.Some? && b.guid != s.player.value && !IsUnit(TypeOfGuid(b.guid))
    ensures BlockEffects(s, b) == [CreateForeignObject(b.guid, b.fields), SetPosition(b.guid, b.x, b.y), AddWorldObject(b.guid)]
  {
    assert [CreateForeignObject(b.guid, b.fields), SetPosition(b.guid, b.x, b.y)] + [] + [AddWorldObject(b.guid)]
      == [CreateForeignObject(b.guid, b.fields), SetPosition(b.guid, b.x, b.y), AddWorldObject(b.guid)];
  }

  /** Any other object's tail: the position only. */
  lemma StaticTailSteps(c: Cursor, s: Session, b: Block, c1: Cursor)
    requires Placeable(s, b) && b.guid != s.player.value && !IsUnit(TypeOfGuid(b.guid))
    requires c.Wf() && c1.Wf() && DecodeUInt32Pair(c) == Ok(Got((b.x, b.y), c1))
    ensures ForeignTail(c, s, b.guid, b.fields) == Done(BlockEffects(s, b), c1)
  {
    ForeignStaticTail(c, s, b.guid, b.fields, b.x, b.y, c1);
    StaticBlockEffects(s, b);
  }

  /** The two floats of a position read back as their bit patterns. */
  lemma PositionReadsBack(c: Cursor, x: U32, y: U32)
    requires Carries(c, [Float(x), Float(y)])
    ensures DecodeUInt32Pair(c) == Ok(Got((x, y), After(c, [Float(x), Float(y)])))
  {
    Reads2(c, Float(x), Float(y));
  }

  lemma UnitTailReadsBack(c: Cursor, s: Session, b: Block)
    requires Placeable(s, b) && b.guid != s.player.value && IsUnit(TypeOfGuid(b.guid))
    requires Carries(c, [Float(b.x), Float(b.y)] + [UInt8(b.moveMask)])
    ensures ForeignTail(c, s, b.guid, b.fields) ==
      Done(BlockEffects(s, b), After(c, [Float(b.x), Float(b.y)] + [UInt8(b.moveMask)]))
  {
    CarriesConcat(c, [Float(b.x), Float(b.y)], [UInt8(b.moveMask)]);
    PositionReadsBack(c, b.x, b.y);
    var c1 := After(c, [Float(b.x), Float(b.y)]);
    Peel(c1, [UInt8(b.moveMask)]);
    UnitTailSteps(c, s, b, c1, Skip(c1, 1));
  }

  lemma ForeignTailReadsBack(c: Cursor, s: Session, b: Block)
    requires Placeable(s, b) && b.guid != s.player.value && Carries(c, TailWire(s, b))
    ensures ForeignTail(c, s, b.guid, b.fields) == Done(BlockEffects(s, b), After(c, TailWire(s, b)))
  {
    if IsUnit(TypeOfGuid(b.guid)) {
      assert TailWire(s, b) == [Float(b.x), Float(b.y)] + [UInt8(b.moveMask)];
      UnitTailReadsBack(c, s, b);
    } else {
      PositionReadsBack(c, b.x, b.y);
      StaticTailSteps(c, s, b, After(c, TailWire(s, b)));
    }
  }

  lemma ObjectTailReadsBack(c: Cursor, s: Session, b: Block)
    requires Placeable(s, b) && Carries(c, TailWire(s, b))
    ensures ObjectTail(c, s, b.guid, b.fields) == Done(BlockEffects(s, b), After(c, TailWire(s, b)))
  {
    if b.guid == s.player.value {
      Reads3(c, Float(b.x), Float(b.y), UInt8(b.moveMask));
    } else {
      ForeignTailReadsBack(c, s, b);
    }
  }

  lemma ObjectBlockSteps(c: Cursor, s: Session, b: Block, c1: Cursor)
    requires c.Wf() && c1.Wf() && ObjectHead(c) == Ok(Got((b.guid, b.fields), c1))
    ensures ObjectBlock(c, s) == ObjectTail(c1, s, b.guid, b.fields)
  {
  }

  /** One block written by the server is read back as the calls it stands for. */
  lemma ObjectBlockReadsBack(c: Cursor, s: Session, b: Block)
    requires Placeable(s, b) && Carries(c, BlockWire(s, b))
    ensures ObjectBlock(c, s) == Done(BlockEffects(s, b), After(c, BlockWire(s, b)))
  {
    CarriesConcat(c, HeadWire(b), TailWire(s, b));
    ObjectHeadReadsBack(c, b);
    ObjectBlockSteps(c, s, b, After(c, HeadWire(b)));
    ObjectTailReadsBack(After(c, HeadWire(b)), s, b);
  }

  lemma BlocksSplit(s: Session, bs: seq<Block>, acc: seq<Effect>)
    requires bs != [] && AllPlaceable(s, bs)
    ensures AllPlaceable(s, bs[1..])
    ensures BlocksWire(s, bs) == BlockWire(s, bs[0]) + BlocksWire(s, bs[1..])
    ensures acc + BlocksEffects(s, bs) == (acc + BlockEffects(s, bs[0])) + BlocksEffects(s, bs[1..])
  {
    assert forall k :: 0 <= k < |bs| - 1 ==> bs[1..][k] == bs[k + 1];
    assert acc + (BlockEffects(s, bs[0]) + BlocksEffects(s, bs[1..]))
      == (acc + BlockEffects(s, bs[0])) + BlocksEffects(s, bs[1..]);
  }

  /** One block's turn of the run: its calls are appended and the cursor moves past it. */
  lemma BlocksStep(c: Cursor, s: Session, b: Block, n: nat, acc: seq<Effect>)
    requires Placeable(s, b) && Carries(c, BlockWire(s, b))
    ensures ObjectBlocks(c, s, n + 1, acc) == ObjectBlocks(After(c, BlockWire(s, b)), s, n, acc + BlockEffects(s, b))
  {
    ObjectBlockReadsBack(c, s, b);
  }

  /** The wire of several blocks is the first block's, then the others'. */
  lemma BlocksNext(c: Cursor, s: Session, bs: seq<Block>, acc: seq<Effect>)
    requires bs != [] && AllPlaceable(s, bs) && Carries(c, BlocksWire(s, bs))
    ensures Placeable(s, bs[0]) && AllPlaceable(s, bs[1..])
    ensures Carries(c, BlockWire(s, bs[0])) && Carries(After(c, BlockWire(s, bs[0])), BlocksWire(s, bs[1..]))
    ensures After(After(c, BlockWire(s, bs[0])), BlocksWire(s, bs[1..])) == After(c, BlocksWire(s, bs))
    ensures acc + BlocksEffects(s, bs) == (acc + BlockEffects(s, bs[0])) + BlocksEffects(s, bs[1..])
  {
    BlocksSplit(s, bs, acc);
    CarriesConcat(c, BlockWire(s, bs[0]), BlocksWire(s, bs[1..]));
  }

  /** Blocks written by the server are read back as the calls they stand for, in order, after acc. */
  lemma {:induction false} ObjectBlocksReadsBack(c: Cursor, s: Session, bs: seq<Block>, n: nat, acc: seq<Effect>)
    requires n == |bs| && AllPlaceable(s, bs) && Carries(c, BlocksWire(s, bs))
    ensures ObjectBlocks(c, s, n, acc) == Done(acc + BlocksEffects(s, bs), After(c, BlocksWire(s, bs)))
    decreases n
  {
    if n == 0 {
      assert acc + [] == acc;
    } else {
      BlocksNext(c, s, bs, acc);
      BlocksStep(c, s, bs[0], n - 1, acc);
      ObjectBlocksReadsBack(After(c, BlockWire(s, bs[0])), s, bs[1..], n - 1, acc + BlockEffects(s, bs[0]));
    }
  }

  /** A u8 count and that many blocks: each block's calls, in the order sent. */
  lemma CreateObjectReadsBack(c: Cursor, s: Session, bs: seq<Block>)
    requires |bs| < 0x100 && AllPlaceable(s, bs)
    requires Carries(c, [UInt8(|bs|)] + BlocksWire(s, bs))
    ensures CreateObject(c, s) == Done(BlocksEffects(s, bs), After(c, [UInt8(|bs|)] + BlocksWire(s, bs)))
  {
    Lead(c, UInt8(|bs|), BlocksWire(s, bs));
    ObjectBlocksReadsBack(Skip(c, 1), s, bs, |bs|, []);
    assert [] + BlocksEffects(s, bs) == BlocksEffects(s, bs);
  }

  // ---------------------------------------------------------------- inventory

  /** One inventory slot as the server sends it; a zero item GUID is an empty slot. */
  datatype Slot = Slot(itemGuid: U32, itemId: U32, count: U32)

  /** An empty slot is only its zero GUID; a filled one adds the item id and count. */
  function SlotWire(sl: Slot): seq<Value>
  {
    if sl.itemGuid == 0 then [UInt32(0)] else [UInt32(sl.itemGuid), UInt32(sl.itemId), UInt32(sl.count)]
  }

  function SlotsWire(sls: seq<Slot>): seq<Value>
  {
    if sls == [] then [] else SlotWire(sls[0]) + SlotsWire(sls[1..])
  }

  /** What slot i sets: nothing when empty, else the item at index i. */
  function SlotSet(sl: Slot, i: nat): seq<Effect>
  {
    if sl.itemGuid == 0 then [] else [SetInventorySlot(Wrap32(i), sl.itemGuid, sl.itemId, sl.count)]
  }

  /** The slots from index i on that hold an item, each set at its own index, in order. */
  function SlotsSet(sls: seq<Slot>, i: nat): seq<Effect>
  {
    if sls == [] then [] else SlotSet(sls[0], i) + SlotsSet(sls[1..], i + 1)
  }

  lemma DecodeInventorySlotReadsBack(c: Cursor, i: nat, sl: Slot)
    requires Carries(c, SlotWire(sl))
    ensures DecodeInventorySlot(c, i) == Ok(Got(SlotSet(sl, i), After(c, SlotWire(sl))))
  {
    if sl.itemGuid == 0 {
      Peel(c, [UInt32(0)]);
    } else {
      Reads3(c, UInt32(sl.itemGuid), UInt32(sl.itemId), UInt32(sl.count));
    }
  }

  lemma SlotsSplit(sls: seq<Slot>, i: nat, acc: seq<Effect>)
    requires sls != []
    ensures SlotsWire(sls) == SlotWire(sls[0]) + SlotsWire(sls[1..])
    ensures acc + SlotsSet(sls, i) == (acc + SlotSet(sls[0], i)) + SlotsSet(sls[1..], i + 1)
  {
    assert acc + (SlotSet(sls[0], i) + SlotsSet(sls[1..], i + 1)) == (acc + SlotSet(sls[0], i)) + SlotsSet(sls[1..], i + 1);
  }

  /** The wire of several slots splits after the first. */
  lemma SlotsHead(c: Cursor, sls: seq<Slot>)
    requires sls != [] && Carries(c, SlotsWire(sls))
    ensures Carries(c, SlotWire(sls[0])) && Carries(After(c, SlotWire(sls[0])), SlotsWire(sls[1..]))
    ensures After(After(c, SlotWire(sls[0])), SlotsWire(sls[1..])) == After(c, SlotsWire(sls))
  {
    CarriesConcat(c, SlotWire(sls[0]), SlotsWire(sls[1..]));
  }

  /** The slots, decoded one after another from c at indexes i, i+1, ..., give their sets and stop at end. */
  predicate SlotsDecodeTo(c: Cursor, i: nat, sls: seq<Slot>, end: Cursor)
    decreases |sls|
  {
    c.Wf() &&
    if sls == [] then c == end
    else
      var r := DecodeItem(c, InventorySlotItem, i);
      r.Ok? && r.value.value == SlotSet(sls[0], i) && SlotsDecodeTo(r.value.rest, i + 1, sls[1..], end)
  }

  /** A slot written at c decodes into its sets and stops where its wire ends. */
  lemma SlotDecodedHead(c: Cursor, i: nat, sl: Slot, c1: Cursor)
    requires Carries(c, SlotWire(sl)) && c1 == After(c, SlotWire(sl))
    ensures c.Wf() && c1.Wf() && DecodeItem(c, InventorySlotItem, i) == Ok(Got(SlotSet(sl, i), c1))
  {
    DecodeInventorySlotReadsBack(c, i, sl);
  }

  /** A decoded first slot followed by decoded others is a decoded run. */
  lemma SlotsDecodedCons(c: Cursor, i: nat, sls: seq<Slot>, c1: Cursor, end: Cursor)
    requires sls != [] && c.Wf() && c1.Wf() && DecodeItem(c, InventorySlotItem, i) == Ok(Got(SlotSet(sls[0], i), c1))
    requires SlotsDecodeTo(c1, i + 1, sls[1..], end)
    ensures SlotsDecodeTo(c, i, sls, end)
  {
  }

  /** Slots written by the server decode one after another into their sets. */
  lemma {:induction false} SlotsDecoded(c: Cursor, i: nat, sls: seq<Slot>)
    requires Carries(c, SlotsWire(sls))
    ensures SlotsDecodeTo(c, i, sls, After(c, SlotsWire(sls)))
    decreases |sls|
  {
    if sls == [] {
      assert After(c, SlotsWire(sls)) == c;
    } else {
      SlotsHead(c, sls);
      var c1 := After(c, SlotWire(sls[0]));
      SlotDecodedHead(c, i, sls[0], c1);
      SlotsDecoded(c1, i + 1, sls[1..]);
      SlotsDecodedCons(c, i, sls, c1, After(c, SlotsWire(sls)));
    }
  }

  /** One turn of the slot loop, with the next index and count named. */
  lemma DecodedSlotStep(c: Cursor, j: nat, n: nat, acc: seq<Effect>, v: seq<Effect>, c1: Cursor, j1: nat, n1: nat)
    requires c.Wf() && c1.Wf() && n > 0 && j1 == j + 1 && n1 == n - 1
    requires DecodeItem(c, InventorySlotItem, j) == Ok(Got(v, c1))
    ensures Gather(c, InventorySlotItem, j, n, acc) == Gather(c1, InventorySlotItem, j1, n1, acc + v)
  {
  }

  /** Decoded slots run through the loop give the sets of the filled ones after acc. */
  lemma {:induction false} GatherDecodedSlots(c: Cursor, i: nat, sls: seq<Slot>, acc: seq<Effect>, end: Cursor)
    requires SlotsDecodeTo(c, i, sls, end)
    ensures Gather(c, InventorySlotItem, i, |sls|, acc) == Done(acc + SlotsSet(sls, i), end)
    decreases |sls|
  {
    if sls == [] {
      assert acc + [] == acc;
    } else {
      var c1 := DecodeItem(c, InventorySlotItem, i).value.rest;
      var v := SlotSet(sls[0], i);
      DecodedSlotStep(c, i, |sls|, acc, v, c1, i + 1, |sls[1..]|);
      GatherDecodedSlots(c1, i + 1, sls[1..], acc + v, end);
      SlotsSplit(sls, i, acc);
    }
  }

  /** The slots from index i on read back as the sets of the filled ones, after acc. */
  lemma GatherSlotsReadsBack(c: Cursor, i: nat, sls: seq<Slot>, acc: seq<Effect>)
    requires Carries(c, SlotsWire(sls))
    ensures Gather(c, InventorySlotItem, i, |sls|, acc) == Done(acc + SlotsSet(sls, i), After(c, SlotsWire(sls)))
  {
    SlotsDecoded(c, i, sls);
    GatherDecodedSlots(c, i, sls, acc, After(c, SlotsWire(sls)));
  }

  /** The 100 slots: the records are cleared, then each filled slot is set at its index, in order. */
  lemma InventoryReadsBack(c: Cursor, sls: seq<Slot>)
    requires |sls| == InventorySlots && Carries(c, SlotsWire(sls))
    ensures Inventory(c) == Done([ClearInventory] + SlotsSet(sls, 0), After(c, SlotsWire(sls)))
  {
    GatherSlotsReadsBack(c, 0, sls, [ClearInventory]);
  }
}
