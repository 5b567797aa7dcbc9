# BubbleWorldClient protocol core in Dafny

This project models the network and protocol layer of the BubbleWorld MMORPG client, together with the session and world state that the protocol drives. It then proves properties of that model. The client is written in C++ on SDL. Its rendering and UI are not modelled. What remains is sequential state and byte manipulation, and that is what the model covers.

| file | module | models |
|---|---|---|
| wrappers.dfy | Wrappers | `Option` and `Result` |
| bytes.dfy | Bytes | fixed-width integers, network byte order, two's complement |
| enums.dfy | Enums | connection states, opcodes, status codes, resource types, directions, stages |
| smart_packet.dfy | SmartPacket | the `SmartPacket` codec: a class over a byte sequence, proved against pure decoders on a cursor value |
| handler_table.dfy | HandlerTable | the state restriction masks and the 39-entry `PacketHandlerTable` |
| network.dfy | Network | `NetworkManager`: frame layout, receive-side framing, the packet FIFO, the state gate, connection-state changes |
| packet_handlers.dfy | PacketHandlers | each handler as a decoder that yields the ordered list of calls it makes (its effects) and any fault |
| handler_wire.dfy | HandlerWire | each handler run on a payload laid out as the server writes it: the calls it makes carry exactly the values written |
| outgoing.dfy | Outgoing | outgoing packets as messages, shown equal to the bytes `SendPacket` puts on the wire |
| resource_streams.dfy | ResourceStreams | `ResourceStreamManager`: streams keyed by (id, type), verified-checksum flags, the three verify senders |
| resource_manager.dfy | ResourceManagement | `ResourceManager`: the load and metadata-load state machine, and sprite frame cutting |
| map_storage.dfy, image_storage.dfy, item_cache_storage.dfy | MapStorage, ImageStorage, ItemCacheStorage | the in-memory halves of the three stores |
| map_types.dfy, map.dfy | MapTypes, GameMap | chunk arithmetic, the field grid, the GUID map and the Y-ordered visibility vector |
| object_enums.dfy | ObjectEnums | the 64-bit GUID layout and the object type of a high GUID |
| world_object.dfy, unit.dfy | WorldObject, Unit | update-field packing, animation stepping, the movement-direction mask and its lookup tables |
| gameplay.dfy | Gameplay | the session: movement keys, map loading, the surrounding-chunk rectangle and load queue, name queries, chat history |
| compatibility.dfy, config.dfy, application.dfy | Compatibility, Config, Application | tick difference and min/max, the configuration parser and validator, the stage switch and modifier flags |

Modelling conventions:

- Objects whose fields the client updates in place are Dafny classes. Examples are the packet, the managers, the stores, the map, world objects and the gameplay session. Each method states its whole new state against a pure function, and the properties are proved as lemmas about those functions.
- The client's singletons (`sNetwork`, `sMapStorage`, …) are objects a component is built with.
- Handlers do not call them. Each handler returns the ordered list of calls it would make.
- The model does not interpret the following; each one is a parameter instead:
  - clocks (`getMSTime`, `time(nullptr)`) are the parameters `now` and `nowSecs`;
  - the CRC32 checksum strings are an uninterpreted function `crc` of the stored bytes;
  - `str_trim` and `str2int` are function parameters;
  - whether an image or map file exists on disk is a parameter.
- Floats travel only as their 32-bit patterns. Object positions are whole-number stand-ins for the float values. Two things use them: the visibility order, and the chunk index the player's position is cast to (Gameplay.cpp:188-189, 302-303).
- Read faults are thrown with `throw new` as heap objects (SmartPacket.cpp:68, 82, 96). `HandlePacket` catches by reference (NetworkManager.cpp:315), so a read fault is not absorbed there. The model therefore ends `ProcessPending` at the first fault.
- A handler that would dereference an absent player, map or object in the client ends with the fault `NoPlayer`, `NoMap` or `UnknownObjectType`, keeping the effects made up to that point. Outside the handlers the model does one of two things:
  - where every caller guarantees that the object exists, that is a stated precondition;
  - where a lookup in the resource or stream table can miss, the method returns `found = false` and changes nothing, while the client dereferences the missing entry. These members are named under "## Left out".
- Where a header disagrees with its `.cpp` file, the model follows the `.cpp`:
  - `ImageStorage::InsertImageMetadataRecord`: ImageStorage.h:106 against ImageStorage.cpp:150;
  - the `Map` constructor and visibility vector: Map.h:136-139 against Map.cpp:31.

## Model

| member | source | states |
|---|---|---|
| Application.KeyModFlags | src/General/Application.cpp:206-213 | one flag per modifier slot (five in all), set exactly when the word meets that slot's SDL mask |
| Application.SingleModifier | src/General/Application.cpp:206-213 | the five masks do not overlap: a word holding one modifier's mask sets that flag and no other |
| Application.Application.StoreKeyMod | src/General/Application.cpp:206-213 | every stored modifier flag is recomputed from the new word (KeyModFlags) |
| Application.Request | src/General/Application.cpp:215-220 | asking for the type already current leaves the pending type as it was; asking for any other type makes it pending; stage and current type never change |
| Application.Application.SetStageType | src/General/Application.cpp:215-220 | the stage state afterwards is Request of the state before |
| Application.Application.constructor | src/General/Application.cpp:33-40 | no stage, current and pending type STAGE_NONE, every modifier flag cleared |
| Application.Application.SetStageInternal | src/General/Application.cpp:227-277 | the new stage state, the outcome and the calls made (OnLeave, DestroyUI, OnEnter) are those of SwitchStage of the old state |
| Application.RequestThenSwitch | src/General/Application.cpp:215-277 | a known stage type asked for while another is current is current after the next switch, nothing stays pending, and the last call is its OnEnter |
| Application.SwitchSettles | src/General/Application.cpp:229-231 | after a switch nothing is pending, so the switch on the next frame does nothing |
| Application.LeaveBeforeEnter | src/General/Application.cpp:262-271 | the live stage, if any, gets OnLeave and the UI is destroyed before the new stage gets OnEnter |
| Bytes.EncodeBE | src/Network/SmartPacket.cpp:185-213 | the n network-order (big-endian) bytes of a value below 256^n, as htons/htonl/htonll give them |
| Bytes.DecodeBE | src/Network/SmartPacket.cpp:102-142 | the value of a run of network-order bytes, below 256 to the power of their count |
| Bytes.DecodeEncode | src/Network/SmartPacket.cpp:102-213 | decoding the encoding of a value at width n gives the value back |
| Bytes.EncodeDecode | src/Network/SmartPacket.cpp:102-213 | encoding a decoded run at its own width gives back the same bytes |
| Bytes.DecodeBEFront | src/Network/SmartPacket.cpp:102-142 | the first byte is the most significant: it weighs 256 to the power of the remaining length |
| Bytes.ToSigned | src/Network/SmartPacket.cpp:109-142 | the two's-complement reading of an n-byte pattern: in range for the signed type, negative exactly when the top bit is set |
| Bytes.FromSigned | src/Network/SmartPacket.cpp:191-215 | the n-byte pattern of an in-range signed value, which reads back as that value |
| Bytes.SignedPatternRoundTrip | src/Network/SmartPacket.cpp:109-215 | reading a pattern as signed and writing it back gives the same pattern |
| Compatibility.NumMin | src/General/Compatibility.h:23 | the result is one of the two arguments and at most each of them |
| Compatibility.NumMax | src/General/Compatibility.h:24 | the result is one of the two arguments and at least each of them |
| Compatibility.MSTimeDiff | src/General/Compatibility.h:41-48 | without a wrap the result is the plain difference of the ticks |
| Compatibility.MSTimeDiffElapsed | src/General/Compatibility.h:41-48 | exact without a wrap; across a wrap exactly one millisecond short of the true elapsed time |
| Compatibility.MSTimeDiffZero | src/General/Compatibility.h:41-48 | the difference is zero exactly for equal ticks or for the uncounted step from 0xFFFFFFFF to 0 |
| Config.IndexFrom | src/General/Config.cpp:192-202 | the first initialized slot at or after i with the identifier, or the table size when there is none; no slot before it matches |
| Config.IndexOf | src/General/Config.cpp:192-214 | the MAX sentinel (the table size) is returned exactly when no initialized slot carries the identifier |
| Config.FindIndex | src/General/Config.cpp:195-201 | the search loop returns IndexOf of the identifier |
| Config.ConfigMgr.GetIntIndexByIdentifier | src/General/Config.cpp:192-202 | the integer slot found is IndexOf over the integer table |
| Config.ConfigMgr.GetStringIndexByIdentifier | src/General/Config.cpp:204-214 | the string slot found is IndexOf over the string table |
| Config.UnsetFrom | src/General/Config.cpp:71-81 | exactly the indexes of the uninitialized slots from position i on |
| Config.UnsetIndexes | src/General/Config.cpp:71-81 | the reporting loop lists UnsetFrom of the whole table |
| Config.FirstOf | src/General/Config.cpp:136 | the position of the first '=' if there is one (no earlier '='), otherwise none at all |
| Config.Classify | src/General/Config.cpp:127-170 | a line starting with '#' and only such a line is a comment; an integer or string store names a slot in range; an unrecognized identifier is in neither table |
| Config.LineKeepsNames | src/General/Config.cpp:127-180 | processing a line changes only values: every slot keeps its identifier and its initialized flag |
| Config.IntLineStores | src/General/Config.cpp:136-175 | a well-formed line naming an integer slot with a parsable value stores that value in the slot found, and changes nothing else |
| Config.ConfigMgr.ProcessConfigLine | src/General/Config.cpp:127-180 | the outcome is Classify of the line, and the new tables are Apply of that outcome to the old ones |
| Config.ErrorCount | src/General/Config.cpp:54-70 | no error exactly when the connect port is in 1..65535 and the FPS limit is above 10 |
| Config.ConfigMgr.ValidateConfig | src/General/Config.cpp:54-91 | the verdict is true exactly when ErrorCount is zero; the warnings are the uninitialized slots of each table in index order |
| Config.ConfigMgr.constructor | src/General/Config.cpp:25-37 | both tables sized to their MAX index with every slot uninitialized |
| Config.ConfigMgr.SetConfigIntField | src/General/Config.cpp:216-226 | an empty identifier changes nothing; otherwise the slot gets the name and the default and becomes initialized, every other slot unchanged |
| Config.ConfigMgr.SetConfigStringField | src/General/Config.cpp:228-238 | the same, for the string table |
| Config.ConfigMgr.InitDefaults | src/General/Config.cpp:44-52 | on a fresh manager the tables become exactly the defaults (connect_ip 127.0.0.1, connect_port 7874, fps_limit 200) |
| Config.DefaultsValid | src/General/Config.cpp:44-91 | the defaults pass validation, leave no slot uninitialized and are found by their names; connect_port is not a string name |
| Enums.Index | src/Network/Opcodes.h:24-31 | the enumerator value of a connection state, one of the four bit positions the masks use |
| HandlerTable.TableLength | src/Network/PacketHandlers.h:83-123 | the table has 39 rows, opcodes 0 to SP_CHAT_MESSAGE, fewer than MAX_OPCODES |
| HandlerTable.MaskStates | src/Network/PacketHandlers.h:31-39 | AUTH, LOBBY and GAME each admit their one state, VERIFIED admits lobby and in-game, ANY every state, NEVER none |
| HandlerTable.NeverMaskedRows | src/Network/PacketHandlers.h:83-123 | the NULL handler sits exactly at MSG_NONE, the server-side placeholder exactly at the client-to-server opcodes, and exactly those rows carry the NEVER mask |
| HandlerTable.RowKindLow | src/Network/PacketHandlers.h:84-93 | rows 0-9 have the shape NeverMaskedRows states |
| HandlerTable.RowKindMid | src/Network/PacketHandlers.h:94-103 | rows 10-19 have that shape |
| HandlerTable.RowKindHigh | src/Network/PacketHandlers.h:104-113 | rows 20-29 have that shape |
| HandlerTable.RowKindTop | src/Network/PacketHandlers.h:114-122 | rows 30-38 have that shape |
| HandlerTable.LoginAndLobbyRows | src/Network/PacketHandlers.h:86-96 | the login response is accepted only while authenticating; the character list and the enter-world result only in the lobby |
| HandlerTable.ResourceRowsAnyState | src/Network/PacketHandlers.h:90-94 | the four resource stream replies are accepted in every state, NONE included |
| HandlerTable.VerifiedRows | src/Network/PacketHandlers.h:98-114 | object, map, chunk, image metadata, checksum and name query replies are accepted exactly in the lobby and in game |
| HandlerTable.GameRows | src/Network/PacketHandlers.h:118-122 | movement and chat replies are accepted only in game |
| HandlerTable.DialogueAndInventoryHaveNoRow | src/Network/Opcodes.h:76-86 | the dialogue, inventory and item opcodes lie past the end of the table, so no state accepts them |
| ObjectEnums.GuidHigh | src/Objects/ObjectEnums.h:33 | the high part read from a GUID is below 64 (six bits) |
| ObjectEnums.TypeFromHighGuid | src/Objects/ObjectEnums.h:46-59 | each of the three high GUID values maps to its object type, and every value above 2 to MAX_OBJECT_TYPE (both directions) |
| ObjectEnums.LowRoundTrip | src/Objects/ObjectEnums.h:31-32 | the low GUID read from a composed GUID is the low part it was composed with |
| ObjectEnums.HighRoundTrip | src/Objects/ObjectEnums.h:31-33 | the high part reads back cut to six bits, and unchanged when it fits |
| ObjectEnums.EntryReadsHighBits | src/Objects/ObjectEnums.h:31-34 | the entry read back is the stored 26 entry bits with the low four bits of the high part above them, so it equals the entry only when those bits are zero |
| ObjectEnums.CreatureEntryMismatch | src/Objects/ObjectEnums.h:26-34 | a creature GUID composed with entry 5 reads back entry 5 with bit 26 set |
| ObjectEnums.EntryMaskedRoundTrip | src/Objects/ObjectEnums.h:31 | reading the entry with the 26-bit mask it is stored with returns the entry cut to 26 bits, and the entry itself when it fits |
| ObjectEnums.TypeRoundTrip | src/Objects/ObjectEnums.h:24-59 | a GUID composed with one of the three high GUID values yields the matching object type |
| MapTypes.NameField | src/Network/PacketHandlers.cpp:334-336 | the header's name field is exactly MAP_NAME_LENGTH bytes: the name's bytes where it has them, zero after |
| WorldObject.FieldsEnd | src/Objects/UpdateFields.h:27-46 | every object class allocates at least the three object fields (GUID and image id) |
| WorldObject.SplitJoin | src/Objects/WorldObject.cpp:96-142 | splitting a 64-bit value into the two words SetUInt64Value writes and joining them as GetUInt64Value does gives the value back, and the halves back |
| WorldObject.SetThenGetByte | src/Objects/WorldObject.cpp:102-112 | replacing one byte of a word keeps it a 32-bit word, the byte written reads back at its offset and the other three bytes are unchanged |
| WorldObject.EarlyReturnHarmless | src/Objects/WorldObject.cpp:107-108 | the early return of SetUByteValue happens only where writing the byte would leave the word as it is |
| WorldObject.StartFrame | src/Objects/WorldObject.cpp:366-394 | the first frame shown lies at or after the animation's first frame, and past it only when that is below the last frame |
| WorldObject.SetAnim | src/Objects/WorldObject.cpp:315-373 | after SetAnimId the animation is either the old one or the one asked for |
| WorldObject.Tick | src/Objects/WorldObject.cpp:375-402 | the animation step never changes which animation runs |
| WorldObject.SetAnimIdempotent | src/Objects/WorldObject.cpp:317-319 | setting the same animation twice equals setting it once, whatever the second call's time |
| WorldObject.StartsInRange | src/Objects/WorldObject.cpp:358-372 | a newly started animation whose record is well formed shows a frame of that animation |
| WorldObject.TickStaysInRange | src/Objects/WorldObject.cpp:375-402 | the animation step keeps the frame inside a well-formed animation, and a movement animation past its idle frame never returns to it |
| WorldObject.IdleAfterMoveFreezes | src/Objects/WorldObject.cpp:334-381 | going idle from a movement animation parks on that animation's first frame with the timer at 0, and the step then leaves it frozen |
| WorldObject.WorldObject.constructor | src/Objects/WorldObject.cpp:33-41 | a new object has its type, no fields, the name "???", the origin as position, no animation at frame 0 with the timer at the current tick |
| WorldObject.WorldObject.InitializeObject | src/Objects/WorldObject.cpp:283-290 | the fields are freshly allocated with the class's size, zero except the GUID words, which read back as the GUID; nothing else changes |
| WorldObject.WorldObject.GetUInt64Value | src/Objects/WorldObject.cpp:139-142 | the value read has the word at the field as its low half and the next word as its high half |
| WorldObject.WorldObject.SetUInt32Value | src/Objects/WorldObject.cpp:88-94 | exactly the one word becomes the value |
| WorldObject.WorldObject.SetUInt64Value | src/Objects/WorldObject.cpp:96-100 | the two words become the value's halves and nothing else changes; the value reads back |
| WorldObject.WorldObject.SetUByteValue | src/Objects/WorldObject.cpp:102-112 | an offset above 3 changes nothing; otherwise only the one byte of the one word is replaced |
| WorldObject.WorldObject.ApplyValueSet | src/Objects/WorldObject.cpp:83-86 | the words received overwrite the first fields and the rest keep their values |
| WorldObject.WorldObject.SetName | src/Objects/WorldObject.cpp:170-179 | the name becomes the one given |
| WorldObject.WorldObject.SetAnimId | src/Objects/WorldObject.cpp:315-373 | the object's animation state becomes SetAnim of the old state, its image id and the image storage's records |
| WorldObject.WorldObject.Update | src/Objects/WorldObject.cpp:375-402 | the object's animation state becomes Tick of the old state |
| Unit.MaskAfterStart | src/Objects/Unit.cpp:123-137 | a start in a direction already held leaves the mask as it is, and every direction held before is still held |
| Unit.MaskAfterStop | src/Objects/Unit.cpp:139-149 | a stop in a direction not held leaves the mask as it is, and no direction becomes held that was not |
| Unit.StartStopDirection | src/Objects/Unit.cpp:123-154 | after a start the unit moves in that direction, after a stop it does not |
| Unit.StartThenStop | src/Objects/Unit.cpp:123-149 | starting a direction not yet held and stopping it again restores the mask |
| Unit.MaskStaysInDirections | src/Objects/Unit.cpp:123-149 | starts and stops of the four single directions keep the mask below 16 |
| Unit.TableIndex | src/Objects/Unit.cpp:205-210 | the index into the two tables is below their 16 entries |
| Unit.MovementAnim | src/Objects/Unit.cpp:177-210 | the animation a mask selects is a walk animation or idle |
| Unit.TablesMatchDirections | src/Objects/Unit.cpp:158-211 | for every mask of the four directions: the zero-vector masks (0, 5, 10, 15) are exactly those whose directions cancel and they select idle; every other mask is headed along its net step and walks in that direction |
| Unit.DirectionSixteenOverruns | src/Objects/Unit.cpp:132-210 | a unit at rest started in direction 16 gets mask 16, which indexes past both tables as written |
| Unit.CanMoveOn | src/Objects/Unit.cpp:107-111 | a field is walkable exactly when it is ground, whatever its flags |
| Unit.UpdateMovementVector | src/Objects/Unit.cpp:196-211 | the heading becomes the one the mask selects and the animation is set to the mask's walk animation, both looked up through TableIndex (mask & 0x0F), where Unit.cpp:205 and 210 index the tables with the whole mask; the two agree for every mask of the four directions (Unit.TablesMatchDirections), and the whole-mask overrun is a Findings row |
| Unit.StartMovementInDirection | src/Objects/Unit.cpp:113-137 | nothing changes when the unit already moves that way; otherwise the direction is added, heading and animation follow the new mask, and the start time is recorded exactly when the unit was at rest |
| Unit.StopMovementInDirection | src/Objects/Unit.cpp:118-149 | nothing changes when the unit does not move that way; otherwise the direction is removed and heading and animation follow; the stop hook runs exactly when the mask becomes empty |
| Unit.LastStopIdles | src/Objects/Unit.cpp:139-211 | stopping the last direction held brings the unit to rest on the idle animation |
| GameMap.ChunkStartIndex | src/Gameplay/Map.cpp:107-125 | for every chunk index whose start fits 32 bits the start is index·40 and lies in that chunk |
| GameMap.ChunkIndexStart | src/Gameplay/Map.cpp:107-125 | every coordinate lies within the 40 fields from the start of its chunk |
| GameMap.ChunkStartWraps | src/Gameplay/Map.cpp:117-125 | past the largest index the 32-bit start wraps to 24, which lies in chunk 0 |
| GameMap.SurroundingLimits | src/Gameplay/Map.cpp:127-137 | the rectangle starts two cells before the cell, cut at 0, and ends two cells after it, cut at the chunk of the last column and of the last row of the first column (with the 32-bit sum and difference the source computes) |
| GameMap.SurroundingInGrid | src/Gameplay/Map.cpp:127-137 | every chunk of the surrounding rectangle starts inside the grid |
| GameMap.SurroundingContainsCell | src/Gameplay/Map.cpp:127-137 | a cell of the grid whose sum does not wrap lies in its own rectangle |
| GameMap.Depths | src/Gameplay/Map.cpp:263-340 | the keys of the visibility order, one per object |
| GameMap.Without | src/Gameplay/Map.cpp:342-353 | cutting out one element shifts every later element one place left and keeps the earlier ones |
| GameMap.RemoveOne | src/Gameplay/Map.cpp:221-235 | cutting a key out of a sorted sequence leaves it sorted (see also lines 342-353) |
| GameMap.Swapped | src/Gameplay/Map.cpp:263-340 | the neighbours at p and p+1 are exchanged and nothing else changes |
| GameMap.SwappedMultiset | src/Gameplay/Map.cpp:263-340 | a swap of neighbours keeps the objects |
| GameMap.SwappedDepths | src/Gameplay/Map.cpp:263-340 | swapping neighbouring objects swaps their keys |
| GameMap.Settled | src/Gameplay/Map.cpp:263-340 | a key with nothing above it on its left and nothing below it on its right leaves a sorted vector |
| GameMap.RemovedObjects | src/Gameplay/Map.cpp:342-353 | cutting an object out of a vector of distinct objects drops exactly that object |
| GameMap.SameObjectsAdd | src/Gameplay/Map.cpp:207-219 | an object added under a new GUID to the map and to the vector keeps the two collections in step |
| GameMap.SameObjectsPermuted | src/Gameplay/Map.cpp:263-340 | reordering the vector keeps it in step with the GUID map |
| GameMap.SameObjectsRemoved | src/Gameplay/Map.cpp:221-235 | erasing a GUID and cutting its object out keeps the collections in step |
| GameMap.Map.constructor | src/Gameplay/Map.cpp:28-32 | a new map has id 0, no fields and no objects, and its invariant holds |
| GameMap.Map.Load | src/Gameplay/Map.cpp:158-168 | the header and the grid become those read from the file, and only those two fields change, so the objects and the visibility vector are kept |
| GameMap.Map.SetId | src/Gameplay/Map.cpp:68-71 | only the header's map id changes |
| GameMap.Map.InitEmpty | src/Gameplay/Map.cpp:39-59 | the header is the one given with the version magic forced, and the grid is sizeX columns of sizeY copies of the header's default field |
| GameMap.Map.SetFieldContents | src/Gameplay/Map.cpp:78-92 | a position outside the grid changes nothing; otherwise exactly that field is replaced |
| GameMap.Map.GetField | src/Gameplay/Map.cpp:94-100 | no field exactly when the position is outside the grid, else the field stored there |
| GameMap.Map.GetWorldObject | src/Gameplay/Map.cpp:244-251 | null exactly when the GUID is not mapped, else its object |
| GameMap.Map.AddWorldObject | src/Gameplay/Map.cpp:207-219 | the object is added exactly when its GUID is new: then it is mapped under its GUID, the vector gains exactly it and a sorted vector stays sorted; otherwise nothing changes |
| GameMap.Map.PushObject | src/Gameplay/Map.cpp:211-215 | the map entry, the push onto the vector and the object's index; a sorted vector is sorted except at the new last place |
| GameMap.Map.RemoveWorldObject | src/Gameplay/Map.cpp:221-242 | an unmapped GUID changes nothing; otherwise its entry is erased, its object is cut out of the vector at its index, a sorted vector stays sorted, and the object is returned |
| GameMap.Map.CheckObjectVisibilityIndex | src/Gameplay/Map.cpp:263-340 | the vector stays a permutation with every object knowing its index; a vector sorted except at the index becomes sorted, and a sorted one is unchanged |
| GameMap.Map.WalkRight | src/Gameplay/Map.cpp:305-319 | the rightward pass keeps the permutation and the indexes and, started in order, leaves the vector sorted |
| GameMap.Map.WalkLeft | src/Gameplay/Map.cpp:320-337 | the leftward pass keeps the permutation and the indexes and, started in order, leaves the vector sorted |
| GameMap.Map.SwapAt | src/Gameplay/Map.cpp:311-316 | one swap of neighbours, both objects told their new places; the keys are swapped with them |
| GameMap.Map.RemoveObjectFromVisibilityVector | src/Gameplay/Map.cpp:342-353 | the object at the index is cut out, every later object moves one place left and knows its new index |
| GameMap.OnAddedToMap | src/Objects/WorldObject.cpp:307-310 | the object's animation becomes the idle one, as SetAnim gives it |
| GameMap.SetPosition | src/Objects/WorldObject.cpp:232-238 | the coordinates become the ones given; with a current map the vector stays a permutation of the same objects, a sorted vector stays sorted and the GUID map is unchanged |
| MapStorage.ChunkAtPut | src/Storage/MapStorage.cpp:117-143 | a chunk record inserted is found at its map and start coordinates, and every other key finds what it found before |
| MapStorage.MapStorage.constructor | src/Storage/MapStorage.cpp:26-29 | a new storage holds no map and no chunk records |
| MapStorage.MapStorage.InsertMapRecord | src/Storage/MapStorage.cpp:98-107 | the record for the id is replaced by one with the values given; no other record changes |
| MapStorage.MapStorage.GetMapRecord | src/Storage/MapStorage.cpp:109-115 | a record exactly when the id is cached, and then the cached one |
| MapStorage.MapStorage.InsertMapChunkRecord | src/Storage/MapStorage.cpp:117-129 | the chunk table becomes the old one with the record put at its three keys, creating missing levels |
| MapStorage.MapStorage.GetMapChunkRecord | src/Storage/MapStorage.cpp:131-143 | the record exactly when all three levels hold their key, as ChunkAt states |
| ImageStorage.AnimationOfPut | src/Storage/ImageStorage.cpp:176-204 | an animation inserted is found under its image and animation id, and every other lookup is unchanged |
| ImageStorage.MetadataKeepsAnimations | src/Storage/ImageStorage.cpp:150-167 | replacing an image's metadata keeps every animation known and takes the new size and checksum |
| ImageStorage.AnimationCreatesPlaceholder | src/Storage/ImageStorage.cpp:176-193 | an animation for an image with no metadata creates metadata that is zero except for the id and this one animation |
| ImageStorage.ImageStorage.constructor | src/Storage/ImageStorage.cpp:26-29 | a new storage holds no images and no metadata |
| ImageStorage.ImageStorage.InsertImageRecord | src/Storage/ImageStorage.cpp:132-141 | the record for the id is replaced by one with the values given |
| ImageStorage.ImageStorage.GetImageRecord | src/Storage/ImageStorage.cpp:143-148 | a record exactly when the id is cached, and then the cached one |
| ImageStorage.ImageStorage.InsertImageMetadataRecord | src/Storage/ImageStorage.cpp:150-167 | the metadata becomes PutMetadata of the old table: every field replaced, the animations kept |
| ImageStorage.ImageStorage.GetImageMetadataRecord | src/Storage/ImageStorage.cpp:169-174 | metadata exactly when the id is cached, and then the cached one |
| ImageStorage.ImageStorage.InsertImageAnimationRecord | src/Storage/ImageStorage.cpp:176-193 | the metadata becomes PutAnimation of the old table |
| ImageStorage.ImageStorage.GetImageAnimationRecord | src/Storage/ImageStorage.cpp:195-204 | the animation exactly when the image has metadata holding that animation id |
| ImageStorage.ImageStorage.WipeImageMetadata | src/Storage/ImageStorage.cpp:206-210 | the records in memory are left unchanged |
| ItemCacheStorage.ItemCacheStorage.constructor | src/Storage/ItemCacheStorage.cpp:24-27 | a new cache is empty |
| ItemCacheStorage.ItemCacheStorage.AddItemCacheEntry | src/Storage/ItemCacheStorage.cpp:71-84 | the entry for the id is replaced by one with the values given |
| ItemCacheStorage.ItemCacheStorage.GetItemCacheEntry | src/Storage/ItemCacheStorage.cpp:86-92 | an entry exactly when the id is cached, the cached one, carrying that id when the cache is keyed by id |
| ItemCacheStorage.AddKeepsKeyed | src/Storage/ItemCacheStorage.cpp:71-92 | adding an entry keeps every entry stored under its own id, and the entry is found under its id |
| SmartPacket.Resize | src/Network/SmartPacket.cpp:168 | the buffer takes the new length, keeping its bytes and padding with zeros |
| SmartPacket.Overwrite | src/Network/SmartPacket.cpp:169-177 | the bytes are copied in at the position and every other byte is kept |
| SmartPacket.TakeBytes | src/Network/SmartPacket.cpp:92-100 | the read succeeds exactly when the bytes lie within the declared size, then yields them and advances the cursor by their count; otherwise it fails with the cursor and the size |
| SmartPacket.UnsignedAt | src/Network/SmartPacket.cpp:102-156 | the value of w bytes read big-endian is below 256^w |
| SmartPacket.DecodeUnsigned | src/Network/SmartPacket.cpp:102-156 | an unsigned read takes w bytes as _Read does and yields their big-endian value |
| SmartPacket.DecodeUInt8 | src/Network/SmartPacket.cpp:144-149 | one byte is consumed and it is the value |
| SmartPacket.DecodeInt8 | src/Network/SmartPacket.cpp:151-156 | one byte is consumed, and the value is its two's-complement reading |
| SmartPacket.DecodeUInt16 | src/Network/SmartPacket.cpp:130-135 | two bytes are consumed, and the value is their big-endian reading |
| SmartPacket.DecodeInt16 | src/Network/SmartPacket.cpp:137-142 | two bytes are consumed, and the value is the two's-complement reading of their big-endian value |
| SmartPacket.DecodeUInt32 | src/Network/SmartPacket.cpp:116-121 | four bytes are consumed, and the value is their big-endian reading |
| SmartPacket.DecodeInt32 | src/Network/SmartPacket.cpp:123-128 | four bytes are consumed, and the value is the two's-complement reading of their big-endian value |
| SmartPacket.DecodeUInt64 | src/Network/SmartPacket.cpp:102-107 | eight bytes are consumed, and the value is their big-endian reading |
| SmartPacket.DecodeInt64 | src/Network/SmartPacket.cpp:109-114 | eight bytes are consumed, and the value is the two's-complement reading of their big-endian value |
| SmartPacket.DecodeFloat | src/Network/SmartPacket.cpp:158-164 | four bytes are consumed, and the value is the float's 32-bit pattern, read big-endian |
| SmartPacket.FirstNul | src/Network/SmartPacket.cpp:72-77 | the scan stops between the cursor and the size, and on a NUL when it stops before the size |
| SmartPacket.FirstNulSkips | src/Network/SmartPacket.cpp:72-77 | the scan passes over non-NUL bytes only |
| SmartPacket.ReadStringAsWritten | src/Network/SmartPacket.cpp:64-90 | the string read as written: a cursor at or past the size fails with (cursor, 1), a failed scan with (cursor, size - cursor + 1); a string read is the NUL-free run of bytes at the cursor up to a NUL byte, with the cursor just past that NUL as a 16-bit counter, and keeps the buffer and size |
| SmartPacket.NulInsideReadsAgree | src/Network/SmartPacket.cpp:64-90 | whenever a NUL lies between the cursor and the size, on a received or a locally built packet alike, the read as written returns exactly what the intended reader DecodeString returns |
| SmartPacket.DecodeString | src/Network/SmartPacket.cpp:64-90 | the intended string read: fails with (cursor, 1) at the end and (cursor, size - cursor + 1) without a NUL; otherwise yields the bytes before the first NUL inside the size and moves the cursor past that NUL |
| SmartPacket.DecodeStringStopsAtNul | src/Network/SmartPacket.cpp:72-84 | the string read contains no NUL, and succeeds exactly when a NUL lies between the cursor and the size |
| SmartPacket.ReceivedStringReadsAgree | src/Network/SmartPacket.cpp:64-90 | on a received packet, whose buffer is exactly its declared size, the two string readers agree (see also lines 254-257) |
| SmartPacket.UnterminatedStringAccepted | src/Network/SmartPacket.cpp:80-89 | as written, an unterminated string at the end of a locally built packet is accepted and leaves the cursor one past the size, where the intended reader fails (see also line 168) |
| SmartPacket.Pattern | src/Network/SmartPacket.cpp:102-235 | the bit pattern of a fixed-width value fits its width and converts back to the value |
| SmartPacket.DecodeValue | src/Network/SmartPacket.cpp:102-164 | a successful read of a kind yields a value of that kind and keeps buffer and size |
| SmartPacket.DecodeValues | src/Network/SmartPacket.cpp:102-164 | reading several kinds in order yields one value per kind |
| SmartPacket.KindsOf | src/Network/SmartPacket.cpp:180-235 | the kind of each value, in order |
| SmartPacket.Encode | src/Network/SmartPacket.cpp:180-235 | a fixed-width write appends exactly its width in bytes; a string write appends the string and its NUL |
| SmartPacket.EncodeAllAppend | src/Network/SmartPacket.cpp:166-173 | encoding one more value appends its encoding |
| SmartPacket.DecodeUnsignedEncode | src/Network/SmartPacket.cpp:102-156 | an unsigned value written big-endian at the cursor reads back, and the cursor moves past it (see also lines 185-229) |
| SmartPacket.DecodeStringEncode | src/Network/SmartPacket.cpp:64-90 | a NUL-free string written with its NUL reads back, and the cursor moves past the NUL (see also lines 180-183) |
| SmartPacket.DecodeEncodeValue | src/Network/SmartPacket.cpp:102-235 | one value of any kind read back from where it was written is the value, with the cursor just past it |
| SmartPacket.DecodeEncodeAll | src/Network/SmartPacket.cpp:102-235 | reading back, in write order, the kinds of values written gives those values, whatever follows in the buffer |
| SmartPacket.SmartPacket.constructor | src/Network/SmartPacket.cpp:24-32 | the packet has the opcode and declared size given, no contents and both cursors at 0 |
| SmartPacket.SmartPacket.ResetData | src/Network/SmartPacket.cpp:39-45 | the buffer empties and size and both cursors go to 0; the opcode stays |
| SmartPacket.SmartPacket.SetReadPos | src/Network/SmartPacket.cpp:47-57 | a position past the declared size is refused and the cursor stays; otherwise the cursor moves there |
| SmartPacket.SmartPacket.SetData | src/Network/SmartPacket.cpp:254-257 | the buffer becomes the bytes received |
| SmartPacket.SmartPacket.ReadRaw | src/Network/SmartPacket.cpp:92-100 | the packet's read cursor and result follow TakeBytes |
| SmartPacket.SmartPacket.ReadUInt8 | src/Network/SmartPacket.cpp:144-149 | result and cursor follow DecodeUInt8 |
| SmartPacket.SmartPacket.ReadInt8 | src/Network/SmartPacket.cpp:151-156 | result and cursor follow DecodeInt8 |
| SmartPacket.SmartPacket.ReadUInt16 | src/Network/SmartPacket.cpp:130-135 | result and cursor follow DecodeUInt16 |
| SmartPacket.SmartPacket.ReadInt16 | src/Network/SmartPacket.cpp:137-142 | result and cursor follow DecodeInt16 |
| SmartPacket.SmartPacket.ReadUInt32 | src/Network/SmartPacket.cpp:116-121 | result and cursor follow DecodeUInt32 |
| SmartPacket.SmartPacket.ReadInt32 | src/Network/SmartPacket.cpp:123-128 | result and cursor follow DecodeInt32 |
| SmartPacket.SmartPacket.ReadUInt64 | src/Network/SmartPacket.cpp:102-107 | result and cursor follow DecodeUInt64 |
| SmartPacket.SmartPacket.ReadInt64 | src/Network/SmartPacket.cpp:109-114 | result and cursor follow DecodeInt64 |
| SmartPacket.SmartPacket.ReadFloat | src/Network/SmartPacket.cpp:158-164 | result and cursor follow DecodeFloat |
| SmartPacket.SmartPacket.ReadString | src/Network/SmartPacket.cpp:64-90 | result and cursor follow ReadStringAsWritten |
| SmartPacket.SmartPacket.WriteRaw | src/Network/SmartPacket.cpp:166-173 | the buffer grows to the write cursor plus one plus the width, the bytes are copied at the write cursor, and write cursor and size advance as 16-bit counters |
| SmartPacket.SmartPacket.Write | src/Network/SmartPacket.cpp:166-235 | every write appends the value's encoding; a packet holding the payload of vs then holds vs with the value appended, when the counters do not wrap |
| SmartPacket.SmartPacket.WriteUInt8 | src/Network/SmartPacket.cpp:221-224 | one byte appended as WriteRaw states |
| SmartPacket.SmartPacket.WriteUInt16 | src/Network/SmartPacket.cpp:209-213 | the value's two big-endian bytes appended |
| SmartPacket.SmartPacket.WriteUInt32 | src/Network/SmartPacket.cpp:197-201 | the value's four big-endian bytes appended |
| SmartPacket.SmartPacket.WriteUInt64 | src/Network/SmartPacket.cpp:185-189 | the value's eight big-endian bytes appended |
| SmartPacket.SmartPacket.WriteInt8 | src/Network/SmartPacket.cpp:226-229 | the value's two's-complement byte appended |
| SmartPacket.SmartPacket.WriteInt16 | src/Network/SmartPacket.cpp:215-219 | the value's two's-complement pattern appended big-endian |
| SmartPacket.SmartPacket.WriteInt32 | src/Network/SmartPacket.cpp:203-207 | the value's two's-complement pattern appended big-endian |
| SmartPacket.SmartPacket.WriteInt64 | src/Network/SmartPacket.cpp:191-195 | the value's two's-complement pattern appended big-endian |
| SmartPacket.SmartPacket.WriteFloat | src/Network/SmartPacket.cpp:231-235 | the float's 32-bit pattern appended big-endian |
| SmartPacket.SmartPacket.WriteString | src/Network/SmartPacket.cpp:180-183 | the string's bytes and its NUL appended |
| SmartPacket.SmartPacket.WriteRawAt | src/Network/SmartPacket.cpp:175-178 | the bytes are copied in at the position; size and write cursor stay |
| SmartPacket.SmartPacket.WriteUInt8At | src/Network/SmartPacket.cpp:249-252 | one byte copied at the position |
| SmartPacket.SmartPacket.WriteUInt16At | src/Network/SmartPacket.cpp:243-247 | the value's two big-endian bytes copied at the position |
| SmartPacket.SmartPacket.WriteUInt32At | src/Network/SmartPacket.cpp:237-241 | the value's four big-endian bytes copied at the position |
| SmartPacket.BuiltPacketReadsBack | src/Network/SmartPacket.cpp:102-235 | a packet built by writing values reads those values back from cursor 0, ending at its size |
| PacketHandlers.ForeignType | src/Gameplay/Gameplay.cpp:420-426 | an object is found exactly when there is a map holding its GUID |
| PacketHandlers.DecodeUInt8s | src/Network/PacketHandlers.cpp:143-144 | n one-byte reads in a row add n bytes and keep the buffer |
| PacketHandlers.DecodeUInt8sIsSlice | src/Network/PacketHandlers.cpp:143-144 | the bytes read are exactly the n bytes at the cursor when they lie within the size; otherwise the read fails at the size |
| PacketHandlers.ReadUInt8s | src/Network/PacketHandlers.cpp:143-144 | the loop computes DecodeUInt8s |
| PacketHandlers.DecodeUInt32s | src/Network/PacketHandlers.cpp:210-211 | n word reads in a row add n words and keep the buffer |
| PacketHandlers.ReadUInt32s | src/Network/PacketHandlers.cpp:210-211 | the loop computes DecodeUInt32s |
| PacketHandlers.DecodeItem | src/Network/PacketHandlers.cpp:97-104 | one iteration of a counted loop yields at most one effect, exactly one except for an empty inventory slot, and of the loop's kind (see also lines 159-165,271-276,295-308,492-505,654-660,678-687); the values read: HandlerWire.DecodeItemReadsBack |
| PacketHandlers.DecodeCharacter | src/Network/PacketHandlers.cpp:99-104 | a character entry read adds one character to the list; the values read: HandlerWire.CharacterReadsBack |
| PacketHandlers.DecodeFailedResource | src/Network/PacketHandlers.cpp:159-165 | a failed checksum entry read re-requests one resource; the values read: HandlerWire.FailedResourceReadsBack |
| PacketHandlers.DecodeUpdateField | src/Network/PacketHandlers.cpp:271-276 | a field update entry sets one field of the object the packet names; the values read: HandlerWire.UpdateFieldReadsBack |
| PacketHandlers.DecodeDestroyed | src/Network/PacketHandlers.cpp:295-308 | a destroy entry removes one object; the values read: HandlerWire.DestroyedReadsBack |
| PacketHandlers.DecodeAnimation | src/Network/PacketHandlers.cpp:492-505 | an animation entry inserts one animation of the image being read, stamped with the current time; the values read: HandlerWire.AnimationReadsBack |
| PacketHandlers.DecodeDecision | src/Network/PacketHandlers.cpp:654-660 | a decision entry adds one dialogue decision; the values read: HandlerWire.DecisionReadsBack |
| PacketHandlers.DecodeInventorySlot | src/Network/PacketHandlers.cpp:678-687 | a slot with a zero item GUID adds nothing, any other sets that slot; the values read: HandlerWire.DecodeInventorySlotReadsBack |
| PacketHandlers.Gather | src/Network/PacketHandlers.cpp:97-104 | a counted loop keeps the effects before it, adds at most one effect of its kind per iteration, exactly n when none faults (an empty slot excepted), and only a read fault stops it (see also lines 159-165,271-276,295-308,492-505,654-660,678-687); the values read: HandlerWire.GatherReadsBack |
| PacketHandlers.GatherLoop | src/Network/PacketHandlers.cpp:97-104 | the loop computes Gather (see also lines 159-165,271-276,295-308,492-505,654-660,678-687) |
| PacketHandlers.DecodeTypeAndId | src/Network/PacketHandlers.cpp:115-138 | the type byte and id read take exactly five bytes: the type is the byte at the cursor and the id the big-endian word after it |
| PacketHandlers.Ignore | src/Network/PacketHandlers.cpp:43-51 | the NULL and server-side handlers read nothing and do nothing |
| PacketHandlers.LoginEffects | src/Network/PacketHandlers.cpp:53-85 | OK moves to the lobby and signals fetching; each of the four refusals disconnects and signals its own event; any other status does nothing (each in both directions) |
| PacketHandlers.LoginResponse | src/Network/PacketHandlers.cpp:53-85 | the handler fails exactly when no status byte is left, and otherwise has LoginEffects of that byte |
| PacketHandlers.CharacterList | src/Network/PacketHandlers.cpp:87-110 | the list is cleared first; a complete reply adds exactly one character per count and ends with the list-acquired event; the values read: HandlerWire.CharacterListReadsBack |
| PacketHandlers.RunCharacterList | src/Network/PacketHandlers.cpp:87-110 | the loop computes CharacterList |
| PacketHandlers.ResourceSendStart | src/Network/PacketHandlers.cpp:112-120 | a complete start opens exactly one resource stream; a fault does nothing; the values read: HandlerWire.ResourceSendStartReadsBack |
| PacketHandlers.ResourceSendFinished | src/Network/PacketHandlers.cpp:122-133 | a complete finish closes the stream and sends that stream's checksum; a fault does nothing; the values read: HandlerWire.ResourceSendFinishedReadsBack |
| PacketHandlers.ResourceData | src/Network/PacketHandlers.cpp:135-149 | a complete chunk writes to the stream exactly the bytes that follow the seven-byte preamble, and the cursor ends after them |
| PacketHandlers.RunResourceData | src/Network/PacketHandlers.cpp:135-149 | the loop computes ResourceData |
| PacketHandlers.ResourceChecksumVerify | src/Network/PacketHandlers.cpp:151-169 | every effect re-requests a resource, one per failure counted when the reply is complete; the values read: HandlerWire.ResourceChecksumVerifyReadsBack |
| PacketHandlers.RunResourceChecksumVerify | src/Network/PacketHandlers.cpp:151-169 | the loop computes ResourceChecksumVerify |
| PacketHandlers.EnterWorldResult | src/Network/PacketHandlers.cpp:171-189 | a status other than OK returns to the menu after one byte; OK creates the player from the thirteen bytes of status, map and position; the values read: HandlerWire.EnterWorldResultReadsBack |
| PacketHandlers.MoveStarts | src/Network/PacketHandlers.cpp:233-235 | one movement start per set bit among the four direction bits, for that object; none when those bits are clear |
| PacketHandlers.ForeignTail | src/Network/PacketHandlers.cpp:216-239 | a foreign object is created with its fields first and, when the block is complete, added to the map last; an unknown type crashes |
| PacketHandlers.PlayerTail | src/Network/PacketHandlers.cpp:241-250 | the player's own block consumes the nine dummy bytes and only applies the fields |
| PacketHandlers.ObjectTail | src/Network/PacketHandlers.cpp:214 | a block needs the player object to decide whose block it is; without it the handler crashes |
| PacketHandlers.ObjectHead | src/Network/PacketHandlers.cpp:202-211 | the GUID, the field count and the fields read keep the buffer; the values read: HandlerWire.ObjectHeadReadsBack |
| PacketHandlers.ReadObjectHead | src/Network/PacketHandlers.cpp:202-211 | the loop computes ObjectHead |
| PacketHandlers.ObjectBlock | src/Network/PacketHandlers.cpp:200-255 | one create block keeps the buffer; the values read: HandlerWire.ObjectBlockReadsBack |
| PacketHandlers.RunObjectBlock | src/Network/PacketHandlers.cpp:200-255 | the method computes ObjectBlock |
| PacketHandlers.ObjectBlocks | src/Network/PacketHandlers.cpp:200-255 | the blocks keep the buffer; without a player object any block faults; the values read: HandlerWire.ObjectBlocksReadsBack |
| PacketHandlers.BlocksAfter | src/Network/PacketHandlers.cpp:200-255 | a fault in one block ends the run with that fault |
| PacketHandlers.CreateObject | src/Network/PacketHandlers.cpp:191-256 | a count of 0 reads one byte and does nothing; without a player object any block faults; the values read: HandlerWire.CreateObjectReadsBack |
| PacketHandlers.RunCreateObject | src/Network/PacketHandlers.cpp:191-256 | the method computes CreateObject |
| PacketHandlers.RunObjectBlocks | src/Network/PacketHandlers.cpp:200-255 | the loop computes ObjectBlocks |
| PacketHandlers.UpdateObject | src/Network/PacketHandlers.cpp:258-281 | an update for an object not on the map reads only the GUID; otherwise every effect sets a field of that object; the values read: HandlerWire.UpdateObjectReadsBack |
| PacketHandlers.RunUpdateObject | src/Network/PacketHandlers.cpp:258-281 | the loop computes UpdateObject |
| PacketHandlers.DestroyObject | src/Network/PacketHandlers.cpp:283-310 | without a map only the count is read; every effect removes an object; the values read: HandlerWire.DestroyObjectReadsBack |
| PacketHandlers.RunDestroyObject | src/Network/PacketHandlers.cpp:283-310 | the loop computes DestroyObject |
| PacketHandlers.DecodeMapHeader | src/Network/PacketHandlers.cpp:326-344 | the header read has the version magic and a name field of exactly MAP_NAME_LENGTH bytes; the values read: HandlerWire.DecodeMapHeaderReadsBack |
| PacketHandlers.MapMetadata | src/Network/PacketHandlers.cpp:312-359 | a failed status does nothing after one byte; a complete reply records the map with the header's checksum and the current time, creates the map from that header and sends the checksum for verification |
| PacketHandlers.DecodeChunkArea | src/Network/PacketHandlers.cpp:376-380 | the chunk's map, start and size read keep the buffer; the values read: HandlerWire.DecodeChunkAreaReadsBack |
| PacketHandlers.DecodeMapField | src/Network/PacketHandlers.cpp:394-396 | a field read keeps the buffer; the values read: HandlerWire.DecodeMapFieldReadsBack |
| PacketHandlers.ChunkCells | src/Network/PacketHandlers.cpp:388-401 | the field loop keeps the buffer and only a read fault stops it; the values read: HandlerWire.ChunkCellsReadsBack |
| PacketHandlers.CellsOf | src/Network/PacketHandlers.cpp:388-412 | the fields the loop stored, in order |
| PacketHandlers.MapChunk | src/Network/PacketHandlers.cpp:361-419 | a failed status does nothing after one byte; without a map the handler crashes; a complete reply records the chunk with the checksum of exactly the fields it stored, then saves the map; the values read: HandlerWire.MapChunkReadsBack |
| PacketHandlers.ReadChunkCells | src/Network/PacketHandlers.cpp:388-401 | the nested loop computes ChunkCells |
| PacketHandlers.RunMapChunk | src/Network/PacketHandlers.cpp:361-419 | the method computes MapChunk |
| PacketHandlers.MapMetaChecksumVerify | src/Network/PacketHandlers.cpp:421-431 | a complete reply signals the map loaded exactly when the status is OK, and otherwise requests the map again |
| PacketHandlers.MapChunkChecksumVerify | src/Network/PacketHandlers.cpp:433-445 | a complete reply signals the chunk loaded exactly when the status is OK, and otherwise requests the chunk again |
| PacketHandlers.DecodeImageHeader | src/Network/PacketHandlers.cpp:464-472 | the nine header words read keep the buffer; the values read: HandlerWire.DecodeImageHeaderReadsBack |
| PacketHandlers.ImageMetadata | src/Network/PacketHandlers.cpp:447-520 | a failed status does nothing after one byte; otherwise the image's old metadata is wiped first, every animation inserted belongs to that image, and a complete reply inserts the metadata and sends its checksum |
| PacketHandlers.ImageAnimations | src/Network/PacketHandlers.cpp:476-505 | the wipe comes first and every animation inserted belongs to the image |
| PacketHandlers.ImageBody | src/Network/PacketHandlers.cpp:474-519 | after the wipe, a complete reply ends with the metadata insert and the verify request, both with the checksum of the header and the animations read |
| PacketHandlers.RunImageMetadata | src/Network/PacketHandlers.cpp:447-520 | the loop computes ImageMetadata |
| PacketHandlers.ImageMetaChecksumVerify | src/Network/PacketHandlers.cpp:522-532 | a complete reply signals the metadata retrieved exactly when the status is OK, and otherwise requests it again |
| PacketHandlers.NameQueryResponse | src/Network/PacketHandlers.cpp:534-541 | one name resolution, never empty: the name sent, or "???" for an empty one (see also src/Gameplay/Gameplay.cpp:202-218) |
| PacketHandlers.MoveStartDir | src/Network/PacketHandlers.cpp:543-559 | with a complete packet the handler crashes exactly when there is no player; a start applies only to a foreign unit on the map; the values read: HandlerWire.MoveStartDirReadsBack |
| PacketHandlers.MoveStopDir | src/Network/PacketHandlers.cpp:561-580 | with a complete packet the handler crashes exactly when there is no player; a stop sets the position and then stops the direction, only for a foreign unit on the map; the values read: HandlerWire.MoveStopDirReadsBack |
| PacketHandlers.MoveHeartbeat | src/Network/PacketHandlers.cpp:582-602 | with a complete packet the handler crashes exactly when there is no player; a heartbeat only sets the position of a foreign unit on the map; the values read: HandlerWire.MoveHeartbeatReadsBack |
| PacketHandlers.ChatMessage | src/Network/PacketHandlers.cpp:604-628 | a message goes to the history without an author exactly when it is a server message; an authored one needs a unit on the map, which says it first; the values read: HandlerWire.ChatMessageReadsBack |
| PacketHandlers.DialogueData | src/Network/PacketHandlers.cpp:630-664 | the dialogue is started waiting or with a header first, and every later effect adds a decision; the values read: HandlerWire.DialogueDecideReadsBack |
| PacketHandlers.RunDialogueData | src/Network/PacketHandlers.cpp:630-664 | the loop computes DialogueData |
| PacketHandlers.DialogueClose | src/Network/PacketHandlers.cpp:666-671 | the dialogue ends and nothing is read |
| PacketHandlers.Inventory | src/Network/PacketHandlers.cpp:673-689 | the inventory is cleared first, then at most one slot per each of the 100 slots is set, never with a zero GUID; the values read: HandlerWire.InventoryReadsBack |
| PacketHandlers.RunInventory | src/Network/PacketHandlers.cpp:673-689 | the loop computes Inventory |
| PacketHandlers.ItemQueryResponse | src/Network/PacketHandlers.cpp:691-707 | a failed status does nothing after one byte; a complete reply caches the item at the current time and signals it loaded; the values read: HandlerWire.ItemQueryResponseReadsBack |
| PacketHandlers.ItemOperationInfo | src/Network/PacketHandlers.cpp:709-716 | a complete reply reports exactly the operation byte read |
| PacketHandlers.UpdateInventorySlot | src/Network/PacketHandlers.cpp:718-734 | a zero GUID empties the slot after eight bytes; any other reads the id and count too, sixteen bytes |
| PacketHandlers.Dispatch | src/Network/PacketHandlers.h:83-123 | running the handler a table row names, through its loop where it has one, computes that handler's Run |
| HandlerWire.DecodeUInt32sReadsBack | src/Network/PacketHandlers.cpp:210-211 | n words written in a row read back as exactly those words, in order, with the cursor just past them |
| HandlerWire.CharacterReadsBack | src/Network/PacketHandlers.cpp:99-104 | an entry written as u32 GUID, name and u16 level adds exactly that character |
| HandlerWire.FailedResourceReadsBack | src/Network/PacketHandlers.cpp:159-165 | an entry written as u8 type and u32 id re-requests exactly that resource |
| HandlerWire.UpdateFieldReadsBack | src/Network/PacketHandlers.cpp:271-276 | an entry written as u32 field index and u32 value sets exactly that field of the named object to that value |
| HandlerWire.DestroyedReadsBack | src/Network/PacketHandlers.cpp:295-308 | an entry written as a u64 GUID removes exactly that object |
| HandlerWire.AnimationReadsBack | src/Network/PacketHandlers.cpp:492-505 | four words written as animation id, first frame, last frame and frame delay insert exactly that animation of the image, stamped with the current time |
| HandlerWire.DecisionReadsBack | src/Network/PacketHandlers.cpp:654-660 | an entry written as u32 id and text adds exactly that dialogue decision |
| HandlerWire.DecodeItemReadsBack | src/Network/PacketHandlers.cpp:97-104 | an entry of any counted loop, written as its fields, reads back as the one call that carries those fields |
| HandlerWire.GatherReadsBack | src/Network/PacketHandlers.cpp:97-104 | a counted loop over entries written one after another yields exactly the calls they carry, in order, after the calls made before it |
| HandlerWire.CharacterListReadsBack | src/Network/PacketHandlers.cpp:87-110 | a u8 count and that many characters clear the list, add exactly those characters in order, and signal the list acquired |
| HandlerWire.ResourceSendStartReadsBack | src/Network/PacketHandlers.cpp:112-120 | file name, u8 type and u32 id open exactly the stream for that file, type and id |
| HandlerWire.ResourceSendFinishedReadsBack | src/Network/PacketHandlers.cpp:122-133 | u8 type and u32 id finish exactly that stream and then send its checksum |
| HandlerWire.BytesReadBack | src/Network/PacketHandlers.cpp:143-144 | n bytes written in a row read back as exactly those bytes |
| HandlerWire.ResourceDataReadsBack | src/Network/PacketHandlers.cpp:135-149 | type, id, a u16 length and that many bytes write exactly those bytes to that stream |
| HandlerWire.ResourceChecksumVerifyReadsBack | src/Network/PacketHandlers.cpp:151-169 | a u16 count and that many (u8 type, u32 id) pairs re-request exactly those resources, in the order received |
| HandlerWire.EnterWorldResultReadsBack | src/Network/PacketHandlers.cpp:171-189 | an OK status, a map id and the two position patterns create the player with exactly that map and position |
| HandlerWire.ObjectHeadReadsBack | src/Network/PacketHandlers.cpp:202-211 | a u64 GUID, a u32 count and that many words read back as that GUID and exactly those update fields |
| HandlerWire.UnitTailReadsBack | src/Network/PacketHandlers.cpp:216-239 | for a foreign creature or player, the position and movement byte create it with its fields, place it, start one movement per set direction bit and add it to the map |
| HandlerWire.ForeignTailReadsBack | src/Network/PacketHandlers.cpp:216-239 | for any foreign object of known type, the position, and for units also the movement byte, give exactly BlockEffects: create, place, start moving (units only), add to the map |
| HandlerWire.ObjectTailReadsBack | src/Network/PacketHandlers.cpp:214-250 | the player's own block still consumes the position and the movement byte but only applies its fields; any other block gives the foreign object's calls |
| HandlerWire.ObjectBlockReadsBack | src/Network/PacketHandlers.cpp:200-255 | one create block written as the server writes it gives exactly the calls for that object |
| HandlerWire.ObjectBlocksReadsBack | src/Network/PacketHandlers.cpp:200-255 | n blocks written one after another give the calls of each block, in order |
| HandlerWire.CreateObjectReadsBack | src/Network/PacketHandlers.cpp:191-256 | a u8 count and that many blocks give exactly the calls of those blocks, in order |
| HandlerWire.UpdateObjectReadsBack | src/Network/PacketHandlers.cpp:258-281 | for an object on the map, a u8 count and that many (field, value) pairs set exactly those fields, in order |
| HandlerWire.DestroyObjectReadsBack | src/Network/PacketHandlers.cpp:283-310 | with a map, a u8 count and that many GUIDs remove exactly those objects, in order |
| HandlerWire.DecodeMapHeaderReadsBack | src/Network/PacketHandlers.cpp:326-344 | a map header written field by field, with its name, reads back as that header, with the current version magic and the name zero-padded or cut to the fixed name field, together with the file name |
| HandlerWire.MapMetadataReadsBack | src/Network/PacketHandlers.cpp:312-359 | an OK reply records the map under its file name with the header's checksum and the current time, creates the map from exactly that header, and sends a verify for the same id with the same checksum |
| HandlerWire.DecodeChunkAreaReadsBack | src/Network/PacketHandlers.cpp:376-380 | the chunk's map id, start and size read back as written |
| HandlerWire.DecodeMapFieldReadsBack | src/Network/PacketHandlers.cpp:394-396 | a field written as type, texture and flags reads back as that field |
| HandlerWire.ChunkStoresAt | src/Network/PacketHandlers.cpp:388-401 | the cell read in position k = i*sizeY + j, x outer and y inner, is stored at (startX+i, startY+j), each wrapping at 2^32 |
| HandlerWire.ChunkCellsReadsBack | src/Network/PacketHandlers.cpp:388-401 | the nested field loop over cells written column by column stores exactly those cells at their positions |
| HandlerWire.ChunkStoresCells | src/Network/PacketHandlers.cpp:388-412 | the fields the chunk loop stored are exactly the cells written, in order, so the checksum is taken over them |
| HandlerWire.MapChunkReadsBack | src/Network/PacketHandlers.cpp:361-419 | an OK chunk stores every cell at (startX+i, startY+j), records the chunk with the checksum of those cells, saves the map, and sends a verify for the same (mapId, startX, startY) with the same checksum |
| HandlerWire.MapMetaChecksumVerifyReadsBack | src/Network/PacketHandlers.cpp:421-431 | status and map id: OK signals that map loaded, any other status re-requests exactly that map's metadata |
| HandlerWire.MapChunkChecksumVerifyReadsBack | src/Network/PacketHandlers.cpp:433-445 | status, map id and start: OK signals the chunk at that start loaded, any other status re-requests exactly that chunk |
| HandlerWire.DecodeImageHeaderReadsBack | src/Network/PacketHandlers.cpp:464-472 | the nine header words read back as the image header written |
| HandlerWire.ImageAnimationsReadsBack | src/Network/PacketHandlers.cpp:476-505 | a u32 count and that many animations wipe the image's old metadata, then insert exactly those animations, in order |
| HandlerWire.ImageMetadataReadsBack | src/Network/PacketHandlers.cpp:447-520 | an OK reply wipes, inserts the animations, then stores the metadata and sends its verify, both with the checksum of the header and animations written |
| HandlerWire.ImageMetaChecksumVerifyReadsBack | src/Network/PacketHandlers.cpp:522-532 | status and id: OK signals that image metadata retrieved, any other status re-requests exactly that metadata |
| HandlerWire.NameQueryResponseReadsBack | src/Network/PacketHandlers.cpp:534-541 | GUID and name resolve that GUID to that name, or to "???" when the name is empty |
| HandlerWire.MoveStartDirReadsBack | src/Network/PacketHandlers.cpp:543-559 | GUID and direction: with no player the handler crashes; otherwise it starts exactly that direction for that GUID when it is a foreign unit on the map, and does nothing for the local player, an unknown GUID or a non-unit |
| HandlerWire.MoveStopDirReadsBack | src/Network/PacketHandlers.cpp:561-580 | GUID, direction and position: for a foreign unit on the map, sets exactly that position and then stops that direction; nothing for the local player, an unknown GUID or a non-unit; a crash with no player |
| HandlerWire.MoveHeartbeatReadsBack | src/Network/PacketHandlers.cpp:582-602 | GUID, mask and position: for a foreign unit on the map, sets exactly that position; nothing for the local player, an unknown GUID or a non-unit; a crash with no player |
| HandlerWire.ChatMessageReadsBack | src/Network/PacketHandlers.cpp:604-628 | a server message goes to the history with that text and no author; any other goes, for a unit on the map, first to the unit's Talk and then to the history under the unit's name; otherwise nothing happens |
| HandlerWire.DialogueWaitReadsBack | src/Network/PacketHandlers.cpp:630-640 | GUID and the wait state start a waiting dialogue with that source and read nothing more |
| HandlerWire.DialogueDecideReadsBack | src/Network/PacketHandlers.cpp:630-664 | GUID, the decide state, a header and a u8 count of decisions start the dialogue with that header, then add exactly those decisions, in order |
| HandlerWire.DecodeInventorySlotReadsBack | src/Network/PacketHandlers.cpp:678-687 | a slot written with a zero item GUID sets nothing; any other sets that slot to exactly the GUID, id and count written |
| HandlerWire.GatherSlotsReadsBack | src/Network/PacketHandlers.cpp:678-687 | slots written one after another set exactly the non-empty ones, at their own indexes, in order |
| HandlerWire.InventoryReadsBack | src/Network/PacketHandlers.cpp:673-689 | all 100 slots written clear the inventory and then set exactly the non-empty slots |
| HandlerWire.ItemQueryResponseReadsBack | src/Network/PacketHandlers.cpp:691-707 | an OK reply caches the item with exactly the id, image, name, description, stack size and rarity written, at the current time, then signals it loaded |
| HandlerWire.ItemOperationInfoReadsBack | src/Network/PacketHandlers.cpp:709-716 | operation byte, item id and count are reported exactly as written |
| HandlerWire.EmptiedSlotReadsBack | src/Network/PacketHandlers.cpp:718-734 | a slot update with a zero item GUID reads only the slot and the GUID and sets that slot empty (zero GUID, id and count) |
| HandlerWire.FilledSlotReadsBack | src/Network/PacketHandlers.cpp:718-734 | a slot update with a non-zero GUID sets that slot to exactly the GUID, id and count written |
| Network.Frame | src/Network/NetworkManager.cpp:249-266 | the frame is the four header bytes followed by exactly the packet's first size bytes |
| Network.FrameHeaderRoundTrip | src/Network/NetworkManager.cpp:160-161 | the header of a frame written by SendPacket reads back as its opcode and size (see also lines 249-266) |
| Network.Open | src/Network/NetworkManager.cpp:200-201 | the packet a handler reads is the payload with the cursor at 0 and the size of the payload |
| Network.Assemble | src/Network/NetworkManager.cpp:165-181 | a completed payload has exactly the declared size and extends the bytes already received |
| Network.OneRecvCompletes | src/Network/NetworkManager.cpp:165-181 | one recv delivering the whole payload completes the packet |
| Network.Receive | src/Network/NetworkManager.cpp:145-206 | a short header disconnects and nothing else does; a queued packet carries the header's opcode, a payload of the declared size and the arrival time; a size of 0 queues an empty packet; a dropped payload had a recv error or an empty recv |
| Network.BrokenHasCause | src/Network/NetworkManager.cpp:171-179 | a payload loop abandons the packet only after a recv error or an empty recv |
| Network.FrameReceivedWhole | src/Network/NetworkManager.cpp:145-206 | a frame as SendPacket writes it, received whole, is queued as the same opcode and payload (see also lines 249-266) |
| Network.Gate | src/Network/NetworkManager.cpp:293-319 | an opcode at or past MAX_OPCODES is dropped; one inside the guard but past the table overruns it; otherwise the row's handler runs exactly when the row's mask admits the state |
| Network.GateNeverRunsOutbound | src/Network/NetworkManager.cpp:304-311 | no state lets MSG_NONE or a client-to-server opcode reach a handler (see also src/Network/PacketHandlers.h:83-123) |
| Network.GateRunsReplyHandler | src/Network/NetworkManager.cpp:304-314 | a packet that reaches a handler is a server reply and runs neither the null nor the server-side placeholder |
| Network.GateByState | src/Network/NetworkManager.cpp:304-314 | the login response runs only while authenticating, the character list and enter-world result only in the lobby, resource data in every state, the heartbeat only in game (see also src/Network/PacketHandlers.h:86-120) |
| Network.DialogueAndInventoryPastTable | src/Network/NetworkManager.cpp:296-314 | the dialogue, inventory and item replies pass the opcode guard but overrun the table (see also src/Network/Opcodes.h:76-86) |
| Network.AfterEffects | src/Network/NetworkManager.cpp:237-291 | without a state change among the handler's calls the state stays, and a raised disconnect flag stays raised |
| Network.AfterEffectsLast | src/Network/NetworkManager.cpp:288-291 | the state after a handler's calls is the last state set |
| Network.HandleOne | src/Network/NetworkManager.cpp:293-319 | a packet the gate does not admit makes no effect and changes nothing; only a packet past the table or a faulting handler escapes |
| Network.Drain | src/Network/NetworkManager.cpp:268-286 | the popped and remaining packets are the queue in order; without an escape every packet is popped; an escape pops the packet that raised it; effects accumulate in order |
| Network.DroppedPacketIsInvisible | src/Network/NetworkManager.cpp:268-319 | a packet the gate drops leaves the drain exactly as if it had not been queued |
| Network.NetworkManager.constructor | src/Network/NetworkManager.cpp:28-33 | the three flags start cleared, with nothing queued, sent or signalled |
| Network.NetworkManager.Init | src/Network/NetworkManager.cpp:40-64 | not connected, running, the disconnect flag cleared |
| Network.NetworkManager.Connect | src/Network/NetworkManager.cpp:224-235 | the disconnect flag is cleared and the address stored |
| Network.NetworkManager.ConnectAttempt | src/Network/NetworkManager.cpp:89-126 | START is signalled; connected exactly when the address resolves and the connect succeeds, then state AUTH and CONNECTED, else UNABLE_TO_CONNECT with the state unchanged |
| Network.NetworkManager.Disconnect | src/Network/NetworkManager.cpp:237-247 | the disconnect flag is raised |
| Network.NetworkManager.SetConnectionState | src/Network/NetworkManager.cpp:288-291 | the state becomes the one given |
| Network.NetworkManager.EndConnection | src/Network/NetworkManager.cpp:211-220 | when running with disconnection requested the state goes back to NONE, the manager is no longer connected and DISCONNECTED is signalled; otherwise nothing changes |
| Network.NetworkManager.SendPacket | src/Network/NetworkManager.cpp:249-266 | the frame of the packet is appended to what was sent |
| Network.NetworkManager.ReadPayload | src/Network/NetworkManager.cpp:165-181 | the payload loop computes Assemble |
| Network.NetworkManager.ReceivePacket | src/Network/NetworkManager.cpp:145-206 | the arrival is Receive's, a queued packet is appended to the queue and nothing else is, and the disconnect flag is raised exactly on a disconnecting arrival |
| Network.NetworkManager.HandlePacket | src/Network/NetworkManager.cpp:293-319 | the packet is handled as HandleOne states and the handler's calls leave the state and the flag it gives |
| Network.NetworkManager.ProcessPending | src/Network/NetworkManager.cpp:268-286 | the effects, what escaped, the packets left queued, the state and the flag are those of Drain over the old queue |
| Outgoing.Wire | src/Network/NetworkManager.cpp:249-266 | the frame of a message is the header followed by exactly the encoded fields |
| Outgoing.WireReadsBack | src/Network/NetworkManager.cpp:160-161 | the receiving side reads back the opcode, the payload size and, reading the payload with the kinds written, the fields themselves (see also lines 249-266; src/Network/SmartPacket.cpp:102-235) |
| Outgoing.EncodeAllSplit | src/Network/SmartPacket.cpp:166-173 | the encoding of a field list is the encoding of any prefix followed by that of the rest |
| Outgoing.Transmit | src/Network/SmartPacket.cpp:166-235 | building a packet with the message's opcode, writing its fields in order and sending it appends exactly the message's frame to what was sent (see also lines 29-32; src/Network/NetworkManager.cpp:249-266) |
| Outgoing.WriteNext | src/Network/SmartPacket.cpp:166-235 | one more write extends a packet holding a prefix of the fields by the next field |
| Outgoing.Outbox.Send | src/Network/NetworkManager.cpp:249-266 | the packet built is appended to the messages sent |
| ResourceStreams.ResPair | src/Resources/ResourceStreamManager.h:59 | the key holds the id in its upper 32 bits and the type in its lower 32 |
| ResourceStreams.ResPairInjective | src/Resources/ResourceStreamManager.h:59 | two keys are equal exactly when the id and the type are |
| ResourceStreams.ItemFields | src/Resources/ResourceStreamManager.cpp:125-131 | three fields per listed resource |
| ResourceStreams.ItemFieldsAt | src/Resources/ResourceStreamManager.cpp:125-131 | resource i is listed as its type, id and checksum at fields 3i, 3i+1 and 3i+2 |
| ResourceStreams.SingleVerifyIsBatch | src/Resources/ResourceStreamManager.cpp:101-113 | the single-resource verify packet is a count of 1 followed by that one resource's type, id and checksum |
| ResourceStreams.BatchesAsWrittenSend | src/Resources/ResourceStreamManager.cpp:115-138 | the batches as written carry the resources in list order from the iterator, one fewer per packet than the loop index advances |
| ResourceStreams.BatchVerifyLosesTail | src/Resources/ResourceStreamManager.cpp:115-138 | for every non-empty list the batches as written send a proper prefix of it, so the last resource is never verified, and a lone resource goes out as an empty batch |
| ResourceStreams.BatchesAsWrittenBounded | src/Resources/ResourceStreamManager.cpp:120-121 | no packet lists more than MAX_CHECKSUM_VERIFY_ITEMS resources |
| ResourceStreams.BatchesCorrectedCover | src/Resources/ResourceStreamManager.cpp:115-138 | the intended batching sends every resource of the list, once and in order |
| ResourceStreams.BatchesCorrectedBounded | src/Resources/ResourceStreamManager.cpp:120-121 | every intended packet lists between 1 and MAX_CHECKSUM_VERIFY_ITEMS resources |
| ResourceStreams.ResourceStreamManager.constructor | src/Resources/ResourceStreamManager.cpp:32-35 | no streams and no verified pairs |
| ResourceStreams.ResourceStreamManager.CreateResourceStream | src/Resources/ResourceStreamManager.cpp:42-54 | a new empty stream at position 0 replaces any stream under the same key |
| ResourceStreams.ResourceStreamManager.WriteToResourceStream | src/Resources/ResourceStreamManager.cpp:56-64 | for a known stream the bytes are appended to its file and its position advances by their count, wrapping at 2^32; otherwise nothing changes |
| ResourceStreams.ResourceStreamManager.CloseResourceStream | src/Resources/ResourceStreamManager.cpp:66-95 | for a known stream an image is stored with the checksum of its file and the current time, any other type stores nothing, and the stream record is erased |
| ResourceStreams.ResourceStreamManager.SetResourceChecksumVerified | src/Resources/ResourceStreamManager.cpp:155-174 | that pair is verified from then on and every other flag is as before |
| ResourceStreams.ResourceStreamManager.SetMetadataChecksumVerified | src/Resources/ResourceStreamManager.cpp:161-183 | that pair's metadata is verified from then on and every other flag is as before |
| ResourceStreams.ResourceStreamManager.SendVerifyChecksumPacket | src/Resources/ResourceStreamManager.cpp:101-113 | nothing for a verified pair, else exactly the single-resource verify packet |
| ResourceStreams.ResourceStreamManager.SendVerifyChecksumsPacket | src/Resources/ResourceStreamManager.cpp:115-138 | the packets sent are exactly the batches as written |
| ResourceStreams.ResourceStreamManager.ListItems | src/Resources/ResourceStreamManager.cpp:125-131 | the inner loop lists exactly the cnt resources at the iterator |
| ResourceStreams.ResourceStreamManager.SendVerifyChecksumsPacketCorrected | src/Resources/ResourceStreamManager.cpp:115-138 | the packets sent are exactly the intended batches |
| ResourceStreams.ResourceStreamManager.SendVerifyMetadataChecksumPacket | src/Resources/ResourceStreamManager.cpp:140-153 | nothing for a verified pair or a type other than image, else exactly the metadata verify packet with the id and checksum |
| ResourceManagement.CoherentUpdate | src/Resources/ResourceManager.cpp:80-105 | storing a coherent resource under its own id keeps the whole resource table coherent |
| ResourceManagement.FrameCount | src/Resources/ResourceManager.cpp:135-144 | the frame count along an axis is at least one, and more than one only when that many whole sprites fit in the texture |
| ResourceManagement.RowRects | src/Resources/ResourceManager.cpp:158-169 | one row of the sprite sheet holds exactly n frames |
| ResourceManagement.RowRectsAt | src/Resources/ResourceManager.cpp:158-169 | frame j of row iY is the sprite-sized rectangle at (j·sizeX, iY·sizeY) |
| ResourceManagement.GridRectsAt | src/Resources/ResourceManager.cpp:158-171 | the grid holds rows·countX frames and the frame at row r, column j is entry r·countX + j, at (j·sizeX, r·sizeY) |
| ResourceManagement.GridRectsLength | src/Resources/ResourceManager.cpp:146-150 | the grid of frames has exactly rows·countX entries |
| ResourceManagement.SpriteRectsLayout | src/Resources/ResourceManager.cpp:125-174 | the cached frames are countX·countY sprite-sized rectangles laid out row by row, with at least one frame per axis |
| ResourceManagement.Cached | src/Resources/ResourceManager.cpp:125-174 | caching the frames changes only the frame list, and leaves the id and both load states as they were |
| ResourceManagement.LoadersKeepCoherent | src/Resources/ResourceManager.cpp:176-246 | the metadata loader and the contents loader each keep a resource coherent and leave the other half of it untouched |
| ResourceManagement.LoadersLeaveNotLoaded | src/Resources/ResourceManager.cpp:176-246 | from NOT_LOADED, metadata becomes LOADED exactly when a record is stored and RETRIEVING otherwise; contents become RETRIEVING without a record, LOADED when the file loads and LOADING_FROM_FILE when it does not |
| ResourceManagement.FailedFileLoadSticks | src/Resources/ResourceManager.cpp:199-246 | a file that fails to load leaves the contents LOADING_FROM_FILE, and every later contents load is a no-op that sends nothing |
| ResourceManagement.VerifiedNotResent | src/Resources/ResourceManager.cpp:176-246 | once a checksum is verified, a loader sends at most the resource or metadata request, never the checksum verify again (see also src/Resources/ResourceStreamManager.cpp:101-113,140-153) |
| ResourceManagement.ResourceManager.constructor | src/Resources/ResourceManager.cpp:30-33 | the manager starts with no resources and is coherent |
| ResourceManagement.ResourceManager.RequestResource | src/Resources/ResourceManager.cpp:248-256 | sends CP_REQUEST_RESOURCE with type and id, and marks exactly the image entry for id RETRIEVING when it exists |
| ResourceManagement.ResourceManager.RequestResourceMetadata | src/Resources/ResourceManager.cpp:258-268 | for images sends CP_GET_IMAGE_METADATA with the id and marks exactly the entry's metadata RETRIEVING; for other types does nothing |
| ResourceManagement.ResourceManager.CutFrames | src/Resources/ResourceManager.cpp:158-171 | the nested loop produces exactly the row-major grid of frames |
| ResourceManagement.ResourceManager.CacheAnimSpriteRectagles | src/Resources/ResourceManager.cpp:125-174 | only the entry for id changes, to its recut frames; a zero sprite width or height, where the client divides by zero, is reported and changes nothing |
| ResourceManagement.ResourceManager.LoadImageResourceMeta | src/Resources/ResourceManager.cpp:176-197 | the entry becomes its state after the metadata loader and the sent packets are exactly the loader's messages; coherence is kept |
| ResourceManagement.ResourceManager.LoadImageResource | src/Resources/ResourceManager.cpp:199-246 | the entry becomes its state after the contents loader and the sent packets are exactly the loader's messages; coherence is kept |
| ResourceManagement.ResourceManager.GetOrCreateImageResource | src/Resources/ResourceManager.cpp:80-105 | an unknown id gets a fresh NOT_LOADED resource, then both halves are loaded when NOT_LOADED; afterwards neither half is NOT_LOADED and only the entry for id has changed |
| ResourceManagement.ResourceManager.LoadMetaIfNotLoaded | src/Resources/ResourceManager.cpp:97-99 | runs the metadata loader exactly when the metadata is NOT_LOADED; afterwards it is not |
| ResourceManagement.ResourceManager.LoadIfNotLoaded | src/Resources/ResourceManager.cpp:100-102 | runs the contents loader exactly when the contents are NOT_LOADED; afterwards they are not, and the metadata state is unchanged |
| ResourceManagement.ResourceManager.GetImage | src/Resources/ResourceManager.cpp:107-111 | returns the texture of the entry after GetOrCreateImageResource; a LOADED entry has one |
| ResourceManagement.ResourceManager.GetImageMetadata | src/Resources/ResourceManager.cpp:113-117 | returns the metadata of the entry after GetOrCreateImageResource; LOADED metadata is present |
| ResourceManagement.ResourceManager.SignalResourceRetrieved | src/Resources/ResourceManager.cpp:40-58 | marks the resource checksum verified, resets the image entry and loads it again, so no checksum verify is sent for it; a missing entry is reported |
| ResourceManagement.ResourceManager.SignalResourceMetadataRetrieved | src/Resources/ResourceManager.cpp:60-78 | marks the metadata checksum verified, resets the entry's metadata and loads it again without a verify; a missing entry is reported |
| ResourceManagement.ResourceManager.GetResourceFileChecksum | src/Resources/ResourceManager.cpp:270-284 | a checksum is returned exactly for an image with a stored record |
| ResourceManagement.ResourceManager.FinishResourceStream | src/Resources/ResourceStreamManager.cpp:66-99 | the finished stream is closed and removed, a finished image is stored so that its checksum becomes available, and the resource checksum is marked verified; an unknown stream changes nothing |
| Gameplay.KeyMessages | src/Gameplay/Gameplay.cpp:81-112 | a key event sends at most one packet, and sends one exactly when a press is for a direction the player is not moving in or a release is for one it is; a press sends a start, a release a stop |
| Gameplay.PressHoldRelease | src/Gameplay/Gameplay.cpp:81-112 | pressing sends one start with the direction, holding sends nothing more, releasing sends one stop and restores the mask held before the press; a release without a press sends nothing (see also src/Objects/Unit.cpp:123-154) |
| Gameplay.LoadMapMessage | src/Gameplay/Gameplay.cpp:126-155 | the packet LoadMap sends is the stored header checksum verify exactly when the map record and its file exist, else the metadata request for the map (see also lines 220-233) |
| Gameplay.WantedHas | src/Gameplay/Gameplay.cpp:312-332 | every chunk of the new rectangle that is forced or lies outside the old rectangle is asked for |
| Gameplay.WantedOnly | src/Gameplay/Gameplay.cpp:312-332 | everything asked for is a chunk of the new rectangle that is forced or lies outside the old rectangle |
| Gameplay.ForcedCount | src/Gameplay/Gameplay.cpp:315-332 | with force, exactly one chunk per cell of the rectangle is asked for |
| Gameplay.StayingPutAsksNothing | src/Gameplay/Gameplay.cpp:311-324 | without force, a rectangle equal to the old one asks for no chunk |
| Gameplay.ChunkRequestShape | src/Gameplay/Gameplay.cpp:326-331 | a chunk with a stored record is verified with its checksum, any other is fetched; both packets carry the map id and the chunk origin first (see also lines 235-256) |
| Gameplay.ChunkRequests | src/Gameplay/Gameplay.cpp:326-331 | one request per queued chunk |
| Gameplay.ChunkRequestsAt | src/Gameplay/Gameplay.cpp:326-331 | the i-th request is the one for the i-th queued chunk |
| Gameplay.ChunkRequestsAppend | src/Gameplay/Gameplay.cpp:326-331 | requesting a run of chunks followed by another sends the requests of the first run, then those of the second |
| Gameplay.RemoveFirstAt | src/Gameplay/Gameplay.cpp:341-349 | erasing at the first match keeps the records before and after it in order; with no match the queue is unchanged |
| Gameplay.RemoveFirstMultiset | src/Gameplay/Gameplay.cpp:341-349 | erasing removes exactly one copy of the chunk when there is one and nothing otherwise |
| Gameplay.QueuedThenLoaded | src/Gameplay/Gameplay.cpp:326-349 | a chunk queued once and then reported loaded leaves the queue as it was before |
| Gameplay.ChatHistoryBounded | src/Gameplay/Gameplay.cpp:482-484 | the history stays within 15 entries, ends with the new line, and is the newest entries of the old history plus the new line, in order (see also src/Display/Drawing.h:41) |
| Gameplay.LineOf | src/Gameplay/Gameplay.cpp:432-480 | a chat line is rendered as a server line exactly for server messages, and carries the message text |
| Gameplay.AsInt64 | src/Gameplay/Gameplay.cpp:272 | the value WriteInt64 receives is the GUID read as a two's-complement 64-bit integer |
| Gameplay.QueryOnce | src/Gameplay/Gameplay.cpp:258-276 | once a query is recorded at a nonzero time that GUID is never queried again, and every other GUID is queried exactly as before |
| Gameplay.QueryAtEpochRepeats | src/Gameplay/Gameplay.cpp:268-275 | a query recorded at time 0 does not stop a second query for the same GUID |
| Gameplay.Gameplay.constructor | src/Gameplay/Gameplay.cpp:36-39 | the session starts with no player, no map, and empty chunk queue, chat history and name caches |
| Gameplay.Gameplay.EnterWorld | src/Gameplay/Gameplay.cpp:63-72 | the GUID is kept, CP_ENTER_WORLD with it is sent, and the connecting stage is requested |
| Gameplay.Gameplay.MovementKeyEvent | src/Gameplay/Gameplay.cpp:81-112 | without a player nothing is sent; with one, exactly the key event's packets are sent, the mask becomes the press or release applied to it, and the position is untouched |
| Gameplay.Gameplay.LoadMap | src/Gameplay/Gameplay.cpp:126-155 | exactly LoadMapMessage is sent; a new empty map with that id becomes current exactly when the checksum verify is sent, otherwise the current map is unchanged |
| Gameplay.Gameplay.CreatePlayer | src/Gameplay/Gameplay.cpp:114-124 | a fresh player with the kept GUID, the map id and the position is created, followed by LoadMap's packet; the current map is a new empty map with that id exactly when the checksum verify is sent, and is unchanged otherwise |
| Gameplay.Gameplay.CreateMapUsing | src/Gameplay/Gameplay.cpp:157-167 | a fresh map initialised from the header becomes current; it holds exactly the player when there is one and nothing otherwise |
| Gameplay.Gameplay.AddToMap | src/Gameplay/Map.cpp:207-219 | an object not yet on the map is added to the GUID map and the visibility vector, gets the idle animation, and has its name queried: the sent-time is recorded exactly when a query goes out, and a cached name is given to it at once; one already there changes nothing (see also src/Objects/WorldObject.cpp:307-313) |
| Gameplay.Gameplay.Arrive | src/Objects/WorldObject.cpp:307-313 | a newly added object gets the idle animation; its name query goes out and its sent-time is recorded exactly when the name is neither cached nor already asked for, and a cached name is given to it at once |
| Gameplay.Gameplay.SignalMapLoaded | src/Gameplay/Gameplay.cpp:169-200 | without a map record nothing changes; otherwise the map's header and grid become those of its file, the player is on the map, its chunk is kept, all surrounding chunks are queued and requested, the state is INGAME, the game stage is requested and CP_WORLD_ENTER_COMPLETE is sent last |
| Gameplay.Gameplay.EnterMap | src/Gameplay/Gameplay.cpp:180-200 | with the record found: the player is on the map and the rest of SignalMapLoaded follows |
| Gameplay.Gameplay.JoinPlayer | src/Gameplay/Gameplay.cpp:184-185 | the player ends up in the current map's GUID map and the join messages of AddWorldObject are the only packets sent |
| Gameplay.Gameplay.EnterGame | src/Gameplay/Gameplay.cpp:187-199 | keeps the player's chunk, queues and requests every chunk around it, switches to INGAME and the game stage, then sends CP_WORLD_ENTER_COMPLETE |
| Gameplay.Gameplay.RequestSorroundingChunks | src/Gameplay/Gameplay.cpp:299-335 | exactly the wanted chunks of the rectangle around the player are appended to the queue, each followed by its request |
| Gameplay.Gameplay.RequestRect | src/Gameplay/Gameplay.cpp:315-334 | the outer loop appends exactly the wanted chunks, column by column, and sends their requests in the same order |
| Gameplay.Gameplay.ColumnStep | src/Gameplay/Gameplay.cpp:315-334 | one pass of the outer loop extends the queue and the requests by exactly one column's wanted chunks |
| Gameplay.Gameplay.RequestColumn | src/Gameplay/Gameplay.cpp:319-333 | the inner loop appends exactly the wanted chunks of one column, y ascending, each followed by its request |
| Gameplay.Gameplay.CellStep | src/Gameplay/Gameplay.cpp:319-333 | one pass of the inner loop extends the queue and the requests by exactly that cell's chunk when it is wanted |
| Gameplay.Gameplay.ChunkStep | src/Gameplay/Gameplay.cpp:323-332 | a forced or outside chunk is queued and requested, any other leaves both unchanged |
| Gameplay.Gameplay.SendChunkRequest | src/Gameplay/Gameplay.cpp:328-331 | sends exactly the chunk's verify or fetch request |
| Gameplay.Gameplay.SignalChunkLoaded | src/Gameplay/Gameplay.cpp:337-360 | the first queued record of the chunk is erased, and the all-loaded flag holds exactly when the queue is then empty |
| Gameplay.Gameplay.SignalNameQueryResolved | src/Gameplay/Gameplay.cpp:202-218 | a null name changes nothing; otherwise the name is cached and given to the map object of that GUID, or to the player when the GUID is its own |
| Gameplay.Gameplay.SendNameQuery | src/Gameplay/Gameplay.cpp:258-276 | a cached name is handed back without sending; a GUID with a nonzero sent-time is not asked again; otherwise one CP_NAME_QUERY is sent and the time recorded |
| Gameplay.Gameplay.AddChatMessage | src/Gameplay/Gameplay.cpp:428-485 | the rendered line with its time is pushed and, past 15 entries, the oldest is dropped |
| Gameplay.Gameplay.CreateForeignObject | src/Gameplay/Gameplay.cpp:390-418 | an object of the type the GUID's high part names, initialised with the GUID; none exactly when that type is unknown (see also src/Objects/ObjectEnums.h:46-59) |
| Gameplay.Gameplay.GetForeignObject | src/Gameplay/Gameplay.cpp:420-426 | an object is returned exactly when there is a map holding that GUID, and then it is the map's object |

## Left out

- Rendering and UI: all SDL drawing, the stages, widgets, hover/focus bookkeeping and the redraw flags. They are presentation. `Gameplay::SetHoverObject`/`CheckHoverObject` and the hover reset in `Map::RemoveWorldObject` are not modelled.
- Sockets, the network thread, its mutexes and `select`/`recv`/`send`/`connect`. Each call is replaced by the outcome it returns, given as an argument. `NetworkManager::Update` is modelled as its framing decisions on those outcomes.
- SQLite and file I/O are persistence. This covers:
  - `CreateTablesIfNotExist` and `Load` of the three stores;
  - `Map::LoadFromFile` and `SaveToFile`;
  - the file writes of the resource streams;
  - `IMG_Load`;
  - `ConfigMgr::LoadConfig`'s reading of the file.
  
  Whether a file exists or loads is a parameter.
- CRC32, `GetCRC32String`, `str_trim`, `str2int` and the UTF-8 conversions are not part of this model. Checksums are an uninterpreted function of the stored bytes. The two string helpers are function parameters. Names and chat texts are kept as the bytes that arrived.
- Floating point: the meaning of `ReadFloat`/`WriteFloat` (only the 32-bit pattern is kept) and `Vector2`/`SetFromPolar` (headings are kept as octants). Also `Unit::Update`'s movement integration, `Position::GetDistance` and the interaction distance check are left out.
- Clocks: `getMSTime` and `time(nullptr)` are the parameters `now` and `nowSecs`.
- `Log` output is left out.
- `Gameplay::Login`, `ConnectToServer`, `RequestCharacterList`, `SendChat`, `SendInteractionRequest`, `Update`, and the character-list accessors: each only builds one fixed packet, calls into rendering, or needs the float distance check. The character list appears as handler effects.
- `Unit::Talk` and the chat bubble state, `Map::Update` and `WorldObject::GetViewRect`/`SetInView` are drawing state.
- The signed and float getters and setters of `WorldObject` are left out, because each is a cast of its unsigned counterpart (WorldObject.cpp:114-170).
- `WorldObject::GetEntry`, `GetGUIDLow`, `GetType`, `ToUnit`, `ToPlayer` and `ToCreature` are accessors. The model uses them only through `ObjectEnums` and `objectType`.
- `Map::GetField_unsafe` is left out. `GetField` is the checked copy of it.
- `Application::Init`, `Run`, `SignalUIEvent`, `SignalGlobalEvent` and `SetTextInputModeState` are the SDL loop and UI hooks. Global events appear as handler effects.
- SmartPacket.ReadStringAsWritten: on a received packet the buffer ends at the declared size, so the client's final check reads one byte past the buffer. The model treats that absent byte as not NUL.
- Fractional positions are not modelled. Positions are whole numbers, so the float-to-`uint32_t` cast's truncation toward zero, which picks the player's chunk in `SignalMapLoaded` and `RequestSorroundingChunks` (Gameplay.cpp:188-189, 302-303), is not captured. A negative position, whose cast is undefined, is taken modulo 2^32.
- SmartPacket.SmartPacket.WriteRawAt, SmartPacket.SmartPacket.WriteUInt8At, SmartPacket.SmartPacket.WriteUInt16At, SmartPacket.SmartPacket.WriteUInt32At: require the bytes to lie inside the buffer. `_WriteAt` (SmartPacket.cpp:175-178) copies with `memcpy` and checks nothing, so a write past the buffer is undefined behaviour in the client.
- GameMap.Map.AddWorldObject: requires that an object already in the visibility vector has its GUID mapped. Every caller keeps this, but the client does not check it.
- GameMap.Map.RemoveWorldObject: models the GUID overload, which is the only way into the object overload for an object that is on the map. It leaves out the object overload called directly with an unmapped object, which returns at once.
- GameMap.SetPosition: requires the object's visibility index to lie inside the vector. The client indexes the vector at it unchecked.
- WorldObject.WorldObject.SetUInt32Value, WorldObject.WorldObject.SetUInt64Value, WorldObject.WorldObject.SetUByteValue: require the field to lie inside the object's update-field array. The client writes unchecked.
- WorldObject.WorldObject.ApplyValueSet: requires the values to fit the update-field array. The client copies as many words as the create-object packet declares, and a larger count overruns the array.
- Unit.StartMovementInDirection, Unit.StopMovementInDirection, Unit.UpdateMovementVector: require a unit-typed object, because these are `Unit` methods in the client.
- ResourceStreams.ResourceStreamManager.SendVerifyChecksumsPacket: requires fewer than 65536 items, the range of the client's 16-bit count.
- ResourceStreams.ResourceStreamManager.WriteToResourceStream: requires a chunk of fewer than 65536 bytes. The argument is 16 bits wide in the client.
- SmartPacket.SmartPacket.SetData: requires fewer than 65536 bytes, because the size argument is 16 bits wide.
- SmartPacket.SmartPacket.WriteString: requires a string without NUL, because a C string cannot contain NUL.
- Config.ConfigMgr.ProcessConfigLine: requires a non-empty line. Its only caller skips empty lines (Config.cpp:120-121).
- ResourceManagement.ResourceManager.LoadImageResourceMeta, ResourceManagement.ResourceManager.LoadImageResource, ResourceManagement.ResourceManager.CacheAnimSpriteRectagles: require the resource to be in the table under its own id. The client passes these an entry it has just taken from the table.
- DecodeItem: its own contract gives the shape of the step (effect kinds, counts, faults). The values it reads are tied to its effects by HandlerWire.DecodeItemReadsBack, for payloads laid out as the server writes them.
- DecodeCharacter: its own contract gives the shape of the step (effect kinds, counts, faults). The values it reads are tied to its effects by HandlerWire.CharacterReadsBack, for payloads laid out as the server writes them.
- DecodeFailedResource: its own contract gives the shape of the step (effect kinds, counts, faults). The values it reads are tied to its effects by HandlerWire.FailedResourceReadsBack, for payloads laid out as the server writes them.
- DecodeUpdateField: its own contract gives the shape of the step (effect kinds, counts, faults). The values it reads are tied to its effects by HandlerWire.UpdateFieldReadsBack, for payloads laid out as the server writes them.
- DecodeDestroyed: its own contract gives the shape of the step (effect kinds, counts, faults). The values it reads are tied to its effects by HandlerWire.DestroyedReadsBack, for payloads laid out as the server writes them.
- DecodeAnimation: its own contract gives the shape of the step (effect kinds, counts, faults). The values it reads are tied to its effects by HandlerWire.AnimationReadsBack, for payloads laid out as the server writes them.
- DecodeDecision: its own contract gives the shape of the step (effect kinds, counts, faults). The values it reads are tied to its effects by HandlerWire.DecisionReadsBack, for payloads laid out as the server writes them.
- DecodeInventorySlot: its own contract gives the shape of the step (effect kinds, counts, faults). The values it reads are tied to its effects by HandlerWire.DecodeInventorySlotReadsBack, for payloads laid out as the server writes them.
- Gather: its own contract gives the shape of the step (effect kinds, counts, faults). The values it reads are tied to its effects by HandlerWire.GatherReadsBack, for payloads laid out as the server writes them.
- CharacterList: its own contract gives the shape of the step (effect kinds, counts, faults). The values it reads are tied to its effects by HandlerWire.CharacterListReadsBack, for payloads laid out as the server writes them.
- ResourceSendStart: its own contract gives the shape of the step (effect kinds, counts, faults). The values it reads are tied to its effects by HandlerWire.ResourceSendStartReadsBack, for payloads laid out as the server writes them.
- ResourceSendFinished: its own contract gives the shape of the step (effect kinds, counts, faults). The values it reads are tied to its effects by HandlerWire.ResourceSendFinishedReadsBack, for payloads laid out as the server writes them.
- ResourceChecksumVerify: its own contract gives the shape of the step (effect kinds, counts, faults). The values it reads are tied to its effects by HandlerWire.ResourceChecksumVerifyReadsBack, for payloads laid out as the server writes them.
- EnterWorldResult: its own contract gives the shape of the step (effect kinds, counts, faults). The values it reads are tied to its effects by HandlerWire.EnterWorldResultReadsBack, for payloads laid out as the server writes them.
- ObjectHead: its own contract gives the shape of the step (effect kinds, counts, faults). The values it reads are tied to its effects by HandlerWire.ObjectHeadReadsBack, for payloads laid out as the server writes them.
- ObjectBlock: its own contract gives the shape of the step (effect kinds, counts, faults). The values it reads are tied to its effects by HandlerWire.ObjectBlockReadsBack, for payloads laid out as the server writes them.
- ObjectBlocks: its own contract gives the shape of the step (effect kinds, counts, faults). The values it reads are tied to its effects by HandlerWire.ObjectBlocksReadsBack, for payloads laid out as the server writes them.
- CreateObject: its own contract gives the shape of the step (effect kinds, counts, faults). The values it reads are tied to its effects by HandlerWire.CreateObjectReadsBack, for payloads laid out as the server writes them.
- UpdateObject: its own contract gives the shape of the step (effect kinds, counts, faults). The values it reads are tied to its effects by HandlerWire.UpdateObjectReadsBack, for payloads laid out as the server writes them.
- DestroyObject: its own contract gives the shape of the step (effect kinds, counts, faults). The values it reads are tied to its effects by HandlerWire.DestroyObjectReadsBack, for payloads laid out as the server writes them.
- DecodeMapHeader: its own contract gives the shape of the step (effect kinds, counts, faults). The values it reads are tied to its effects by HandlerWire.DecodeMapHeaderReadsBack, for payloads laid out as the server writes them.
- DecodeChunkArea: its own contract gives the shape of the step (effect kinds, counts, faults). The values it reads are tied to its effects by HandlerWire.DecodeChunkAreaReadsBack, for payloads laid out as the server writes them.
- DecodeMapField: its own contract gives the shape of the step (effect kinds, counts, faults). The values it reads are tied to its effects by HandlerWire.DecodeMapFieldReadsBack, for payloads laid out as the server writes them.
- ChunkCells: its own contract gives the shape of the step (effect kinds, counts, faults). The values it reads are tied to its effects by HandlerWire.ChunkCellsReadsBack, for payloads laid out as the server writes them.
- MapChunk: its own contract gives the shape of the step (effect kinds, counts, faults). The values it reads are tied to its effects by HandlerWire.MapChunkReadsBack, for payloads laid out as the server writes them.
- DecodeImageHeader: its own contract gives the shape of the step (effect kinds, counts, faults). The values it reads are tied to its effects by HandlerWire.DecodeImageHeaderReadsBack, for payloads laid out as the server writes them.
- MoveStartDir: its own contract gives the shape of the step (effect kinds, counts, faults). The values it reads are tied to its effects by HandlerWire.MoveStartDirReadsBack, for payloads laid out as the server writes them.
- MoveStopDir: its own contract gives the shape of the step (effect kinds, counts, faults). The values it reads are tied to its effects by HandlerWire.MoveStopDirReadsBack, for payloads laid out as the server writes them.
- MoveHeartbeat: its own contract gives the shape of the step (effect kinds, counts, faults). The values it reads are tied to its effects by HandlerWire.MoveHeartbeatReadsBack, for payloads laid out as the server writes them.
- ChatMessage: its own contract gives the shape of the step (effect kinds, counts, faults). The values it reads are tied to its effects by HandlerWire.ChatMessageReadsBack, for payloads laid out as the server writes them.
- DialogueData: its own contract gives the shape of the step (effect kinds, counts, faults). The values it reads are tied to its effects by HandlerWire.DialogueDecideReadsBack, for payloads laid out as the server writes them.
- Inventory: its own contract gives the shape of the step (effect kinds, counts, faults). The values it reads are tied to its effects by HandlerWire.InventoryReadsBack, for payloads laid out as the server writes them.
- ItemQueryResponse: its own contract gives the shape of the step (effect kinds, counts, faults). The values it reads are tied to its effects by HandlerWire.ItemQueryResponseReadsBack, for payloads laid out as the server writes them.
- ResourceManagement.ResourceManager.RequestResource: an id missing from the image table returns `found = false` and only sends the request. The client dereferences the missing entry (ResourceManager.cpp:255).
- ResourceManagement.ResourceManager.RequestResourceMetadata: an id missing from the image table returns `found = false` and only sends the request. The client dereferences the missing entry (ResourceManager.cpp:266).
- ResourceManagement.ResourceManager.SignalResourceRetrieved: an id missing from the image table returns `found = false` and changes nothing. The client dereferences the missing entry (ResourceManager.cpp:43).
- ResourceManagement.ResourceManager.SignalResourceMetadataRetrieved: an id missing from the image table returns `found = false` and changes nothing. The client dereferences the missing entry (ResourceManager.cpp:63).
- ResourceStreams.ResourceStreamManager.WriteToResourceStream: a stream that was never created returns `found = false` and changes nothing. The client dereferences the missing entry (ResourceStreamManager.cpp:59-61).
- ResourceStreams.ResourceStreamManager.CloseResourceStream: a stream that was never created returns `found = false` and changes nothing. The client dereferences the missing entry (ResourceStreamManager.cpp:69-71).
- ResourceManagement.ResourceManager.FinishResourceStream: a stream that was never created returns `found = false` and changes nothing. The client dereferences the missing entry (ResourceStreamManager.cpp:69-71).
- ResourceManagement.ResourceManager.CacheAnimSpriteRectagles: a zero sprite width or height in the stored metadata is a division by zero in the client (ResourceManager.cpp:138-139). The model reports it as `divisionByZero` and leaves the entry unchanged. LoadImageResourceMeta and LoadImageResource carry on after it, where the client would have stopped.
- Gameplay.Gameplay.SignalMapLoaded: `Map::LoadFromFile` is file I/O, so the header and grid it would read are the parameters `fileHeader` and `fileGrid`. The method requires that grid to be non-empty, because `GetCellSorroundingLimits` reads its first column. It also requires a current map and a player once the map record exists: the client dereferences both unchecked (Gameplay.cpp:181, 188).
- PacketHandlers.DialogueData: the values of `DIALOGUE_WAIT` and `DIALOGUE_DECIDE` are defined in a header that is not part of this model. They are the context fields `dialogueWait` and `dialogueDecide`, and HandlerWire.DialogueDecideReadsBack assumes the two differ.

## Findings

| source | as written | input that shows it | evidently intended | confidence | as-written member | corrected member |
|---|---|---|---|---|---|---|
| src/Network/SmartPacket.cpp:64-90 | when no NUL lies in [readPos, size), the final check reads `m_data[size]`, and on a locally built packet that byte is the zero that `_Write` always allocates (SmartPacket.cpp:166-173) | a packet holding only `WriteUInt8(0x61)` (size 1), then `ReadString()` | fail with (0, 2) | not executed | SmartPacket.UnterminatedStringAccepted, reached via SmartPacket.ReadStringAsWritten: "a" is returned with the cursor at 2, one past the size | SmartPacket.DecodeString (SmartPacket.DecodeStringStopsAtNul; SmartPacket.ReceivedStringReadsAgree and SmartPacket.NulInsideReadsAgree show both agree on received packets and wherever a NUL lies inside the size) |
| src/Objects/ObjectEnums.h:31-34 | `EXTRACT_ENTRY` masks 30 bits, but `MAKE_GUID64` stores only 26 entry bits under the high GUID | `MAKE_GUID64(HIGHGUID_CREATURE, 5, 7)` | entry 5 | not executed | ObjectEnums.CreatureEntryMismatch (ObjectEnums.EntryReadsHighBits): bit 26 is set (entry 5 \| 1<<26) | ObjectEnums.EntryMaskedRoundTrip: the 26-bit extraction returns every entry below 2^26 |
| src/Resources/ResourceStreamManager.cpp:115-138 | the count is min(50, size-1-i), and then `i += cnt` before the loop's own `i++` | a list of one resource | one packet listing that resource | not executed | ResourceStreams.BatchVerifyLosesTail: the last resource is never listed, and a single resource goes out as a count-0 packet | ResourceStreams.BatchesCorrectedCover and ResourceStreams.ResourceStreamManager.SendVerifyChecksumsPacketCorrected: every resource once, in order, at most 50 per packet |
| src/Objects/Unit.cpp:205-210 | the direction tables have 16 entries, but they are indexed with the whole 8-bit mask, and a received movement start passes its direction byte on unchecked (Unit.cpp:132, PacketHandlers.cpp:543-559) | SP_MOVE_START_DIRECTION with direction 16 for a creature at rest | only the four direction bits select an entry | not executed | Unit.DirectionSixteenOverruns: mask 16 indexes past both tables | Unit.TableIndex (Unit.TablesMatchDirections): the index is below 16 and agrees with the mask's directions |
