/**
 * The gameplay session: the local player, the current map, the queue of
 * map chunks asked for and not yet loaded, the chat history and the name
 * queries. Every packet it builds goes to the Outbox as a Message; the
 * connection state and the application stage it sets live in the network
 * manager and the application object.
 */
module Gameplay {
  import opened Wrappers
  import opened Bytes
  import opened SmartPacket
  import opened Enums
  import opened ObjectEnums
  import opened MapTypes
  import opened WorldObject
  import opened GameMap
  import MapStorage
  import ImageStorage
  import opened Unit
  import opened Outgoing
  import Network
  import Application

  // ---------------------------------------------------------------------
  // Values kept by the session
  // ---------------------------------------------------------------------

  /** ChunkLoadQueueRecord: a chunk asked for, by its first field. */
  datatype ChunkLoad = ChunkLoad(startX: U32, startY: U32)

  /** What a chat texture shows: a server message carries no author. */
  datatype ChatLine = ServerLine(text: seq<Byte>) | PlayerLine(author: seq<Byte>, text: seq<Byte>)

  /** ChatMessageRecord: the rendered line and the time it was added. */
  datatype ChatRecord = ChatRecord(line: ChatLine, addedTimestamp: U64)

  /** CHAT_MSG_MAX_COUNT: the longest chat history kept. */
  const ChatMsgMaxCount: nat := 15

  /**
   * The cast (uint32_t) of a position. Positions are whole numbers here; a
   * negative one has no defined cast in the source and is taken modulo 2^32.
   */
  function Coord(x: int): U32
  {
    x % 0x1_0000_0000
  }

  // ---------------------------------------------------------------------
  // Movement keys
  // ---------------------------------------------------------------------

  /** The packets a key event sends, given the player's direction mask and the float patterns of its position. */
  function KeyMessages(mask: bv8, dir: bv8, press: bool, x: U32, y: U32): (ms: seq<Message>)
    ensures |ms| <= 1
    ensures ms != [] <==> press != IsMoving(mask, dir)
    ensures ms != [] ==> ms[0].opcode == (if press then CpMoveStartDirection else CpMoveStopDirection)
  {
    if press then
      if IsMoving(mask, dir) then [] else [Message(CpMoveStartDirection, [UInt8(dir as int)])]
    else
      if IsMoving(mask, dir) then [Message(CpMoveStopDirection, [UInt8(dir as int), Float(x), Float(y)])] else []
  }

  /** The direction mask a key event leaves. */
  function KeyMask(mask: bv8, dir: bv8, press: bool): bv8
  {
    if press then MaskAfterStart(mask, dir) else MaskAfterStop(mask, dir)
  }

  /**
   * Pressing a key the player is not moving in sends one start; holding it
   * (a repeated press) sends nothing more; releasing it sends one stop and
   * gives back the mask held before the press. A release without a press
   * sends nothing.
   */
  lemma PressHoldRelease(mask: bv8, dir: bv8, x: U32, y: U32)
    requires dir != 0 && !IsMoving(mask, dir)
    ensures KeyMessages(mask, dir, true, x, y) == [Message(CpMoveStartDirection, [UInt8(dir as int)])]
    ensures KeyMessages(KeyMask(mask, dir, true), dir, true, x, y) == []
    ensures KeyMessages(KeyMask(mask, dir, true), dir, false, x, y) ==
            [Message(CpMoveStopDirection, [UInt8(dir as int), Float(x), Float(y)])]
    ensures KeyMask(KeyMask(mask, dir, true), dir, false) == mask
    ensures KeyMessages(mask, dir, false, x, y) == []
  {
  }

  // ---------------------------------------------------------------------
  // Map loading
  // ---------------------------------------------------------------------

  /**
   * The one packet LoadMap sends: a metadata request when the map record
   * or its file is missing, else a verification of the stored header
   * checksum.
   */
  function LoadMapMessage(rec: Option<MapStorage.MapRecord>, mapId: U32, onDisk: seq<Byte> -> bool): (m: Message)
    ensures m.opcode == CpMapMetadataVerifyChecksum <==> rec.Some? && onDisk(rec.value.filename)
    ensures m.opcode == CpMapMetadataVerifyChecksum ==> m.fields == [UInt32(mapId), Str(rec.value.headerChecksum)]
    ensures m.opcode != CpMapMetadataVerifyChecksum ==> m == Message(CpGetMapMetadata, [UInt32(mapId)])
  {
    if rec.None? || !onDisk(rec.value.filename) then Message(CpGetMapMetadata, [UInt32(mapId)])
    else Message(CpMapMetadataVerifyChecksum, [UInt32(mapId), Str(rec.value.headerChecksum)])
  }

  /**
   * A grid GetCellSorroundingLimits can measure: it reads the first column,
   * and both sizes are taken as 32-bit values.
   */
  predicate Measurable(fields: seq<seq<MapField>>)
  {
    1 <= |fields| <= 0xFFFF_FFFF && |fields[0]| <= 0xFFFF_FFFF
  }

  /** The chunk rectangle around the chunk (cx, cy) of a measurable grid. */
  function Around(fields: seq<seq<MapField>>, cx: U32, cy: U32): Limits
    requires Measurable(fields)
  {
    SurroundingLimits(cx, cy, |fields|, |fields[0]|)
  }

  // ---------------------------------------------------------------------
  // Surrounding chunks
  // ---------------------------------------------------------------------

  /** A chunk index pair outside a rectangle. */
  predicate Outside(x: int, y: int, o: Limits)
  {
    x > o.endX || x < o.beginX || y > o.endY || y < o.beginY
  }

  /** The chunk (x, y) when it is wanted: always without an old rectangle, else when it lies outside it. */
  function Cell(x: U32, y: U32, o: Option<Limits>): seq<ChunkLoad>
  {
    if o.None? || Outside(x, y, o.value) then [ChunkLoad(ChunkStart(x), ChunkStart(y))] else []
  }

  /** The wanted chunks of column x with row indexes from l.beginY up to y - 1. */
  function ColumnPart(l: Limits, o: Option<Limits>, x: U32, y: int): seq<ChunkLoad>
    requires y <= 0x1_0000_0000
    decreases y - l.beginY
  {
    if y <= l.beginY then [] else ColumnPart(l, o, x, y - 1) + Cell(x, y - 1, o)
  }

  /** The wanted chunks of the columns from l.beginX up to x - 1, column after column. */
  function Columns(l: Limits, o: Option<Limits>, x: int): seq<ChunkLoad>
    requires x <= 0x1_0000_0000
    decreases x - l.beginX
  {
    if x <= l.beginX then [] else Columns(l, o, x - 1) + ColumnPart(l, o, x - 1, l.endY + 1)
  }

  /** Every wanted chunk of the rectangle l, x outer and y inner. */
  function Wanted(l: Limits, o: Option<Limits>): seq<ChunkLoad>
  {
    Columns(l, o, l.endX + 1)
  }

  /** A chunk index pair of the rectangle l that is wanted. */
  predicate Picked(l: Limits, o: Option<Limits>, x: int, y: int)
  {
    l.beginX <= x <= l.endX && l.beginY <= y <= l.endY && (o.None? || Outside(x, y, o.value))
  }

  lemma {:induction false} ColumnPartHas(l: Limits, o: Option<Limits>, x: U32, y: int, yi: U32)
    requires y <= 0x1_0000_0000 && l.beginY <= yi < y
    requires o.None? || Outside(x, yi, o.value)
    ensures ChunkLoad(ChunkStart(x), ChunkStart(yi)) in ColumnPart(l, o, x, y)
    decreases y - l.beginY
  {
    if yi < y - 1 {
      ColumnPartHas(l, o, x, y - 1, yi);
    }
  }

  lemma {:induction false} ColumnsHas(l: Limits, o: Option<Limits>, x: int, xi: U32, yi: U32)
    requires x <= 0x1_0000_0000 && l.beginX <= xi < x && Picked(l, o, xi, yi)
    ensures ChunkLoad(ChunkStart(xi), ChunkStart(yi)) in Columns(l, o, x)
    decreases x - l.beginX
  {
    var c := ChunkLoad(ChunkStart(xi), ChunkStart(yi));
    var a, b := Columns(l, o, x - 1), ColumnPart(l, o, x - 1, l.endY + 1);
    assert Columns(l, o, x) == a + b;
    if xi < x - 1 {
      ColumnsHas(l, o, x - 1, xi, yi);
      assert c in a;
    } else {
      ColumnPartHas(l, o, xi, l.endY + 1, yi);
      assert c in b;
    }
  }

  /** Every pair of the rectangle that the old rectangle does not cover is asked for. */
  lemma WantedHas(l: Limits, o: Option<Limits>, x: U32, y: U32)
    requires Picked(l, o, x, y)
    ensures ChunkLoad(ChunkStart(x), ChunkStart(y)) in Wanted(l, o)
  {
    ColumnsHas(l, o, l.endX + 1, x, y);
  }

  lemma {:induction false} ColumnPartOnly(l: Limits, o: Option<Limits>, x: U32, y: int, i: nat) returns (yi: U32)
    requires y <= l.endY + 1 && i < |ColumnPart(l, o, x, y)|
    ensures l.beginY <= yi < y && (o.None? || Outside(x, yi, o.value))
    ensures ColumnPart(l, o, x, y)[i] == ChunkLoad(ChunkStart(x), ChunkStart(yi))
    decreases y - l.beginY
  {
    var before := ColumnPart(l, o, x, y - 1);
    if i < |before| {
      yi := ColumnPartOnly(l, o, x, y - 1, i);
    } else {
      yi := y - 1;
    }
  }

  lemma {:induction false} ColumnsOnly(l: Limits, o: Option<Limits>, x: int, i: nat) returns (xi: U32, yi: U32)
    requires x <= l.endX + 1 && i < |Columns(l, o, x)|
    ensures l.beginX <= xi < x && Picked(l, o, xi, yi)
    ensures Columns(l, o, x)[i] == ChunkLoad(ChunkStart(xi), ChunkStart(yi))
    decreases x - l.beginX
  {
    var before := Columns(l, o, x - 1);
    if i < |before| {
      xi, yi := ColumnsOnly(l, o, x - 1, i);
    } else {
      xi := x - 1;
      yi := ColumnPartOnly(l, o, xi, l.endY + 1, i - |before|);
    }
  }

  /** Everything asked for is a pair of the rectangle that the old rectangle does not cover. */
  lemma WantedOnly(l: Limits, o: Option<Limits>, i: nat) returns (x: U32, y: U32)
    requires i < |Wanted(l, o)|
    ensures Picked(l, o, x, y) && Wanted(l, o)[i] == ChunkLoad(ChunkStart(x), ChunkStart(y))
  {
    x, y := ColumnsOnly(l, o, l.endX + 1, i);
  }

  lemma {:induction false} ColumnPartLength(l: Limits, x: U32, y: int)
    requires y <= 0x1_0000_0000
    ensures |ColumnPart(l, None, x, y)| == if y <= l.beginY then 0 else y - l.beginY
    decreases y - l.beginY
  {
    if y > l.beginY {
      ColumnPartLength(l, x, y - 1);
    }
  }

  lemma {:induction false} ColumnsLength(l: Limits, x: int)
    requires x <= 0x1_0000_0000 && l.beginX <= x && l.beginY <= l.endY
    ensures |Columns(l, None, x)| == (x - l.beginX) * (l.endY + 1 - l.beginY)
    decreases x - l.beginX
  {
    if x > l.beginX {
      ColumnsLength(l, x - 1);
      ColumnPartLength(l, x - 1, l.endY + 1);
      var h := l.endY + 1 - l.beginY;
      assert (x - l.beginX) * h == (x - 1 - l.beginX) * h + h;
    }
  }

  /** With force, one chunk per pair of the rectangle. */
  lemma ForcedCount(l: Limits)
    requires l.beginX <= l.endX && l.beginY <= l.endY
    ensures |Wanted(l, None)| == (l.endX + 1 - l.beginX) * (l.endY + 1 - l.beginY)
  {
    ColumnsLength(l, l.endX + 1);
  }

  lemma {:induction false} ColumnPartCovered(l: Limits, x: U32, y: int)
    requires y <= 0x1_0000_0000 && l.beginX <= x <= l.endX && y <= l.endY + 1
    ensures ColumnPart(l, Some(l), x, y) == []
    decreases y - l.beginY
  {
    if y > l.beginY {
      ColumnPartCovered(l, x, y - 1);
    }
  }

  lemma {:induction false} ColumnsCovered(l: Limits, x: int)
    requires x <= l.endX + 1
    ensures Columns(l, Some(l), x) == []
    decreases x - l.beginX
  {
    if x > l.beginX {
      ColumnsCovered(l, x - 1);
      ColumnPartCovered(l, x - 1, l.endY + 1);
    }
  }

  /** Without force, a player still in the chunk the old rectangle was taken around asks for nothing. */
  lemma StayingPutAsksNothing(l: Limits)
    ensures Wanted(l, Some(l)) == []
  {
    ColumnsCovered(l, l.endX + 1);
  }

  /** The packet that follows a queued chunk: a checksum verification when a chunk record is cached, else a chunk request. */
  function ChunkRequest(mapId: U32, c: ChunkLoad, t: MapStorage.ChunkTable): Message
  {
    match MapStorage.ChunkAt(t, mapId, c.startX, c.startY)
    case Some(r) => Message(CpMapChunkVerifyChecksum, [UInt32(mapId), UInt32(c.startX), UInt32(c.startY), Str(r.checksum)])
    case None => Message(CpGetMapChunk, [UInt32(mapId), UInt32(c.startX), UInt32(c.startY)])
  }

  /** A cached chunk is verified by checksum, any other is fetched; both packets name the map and the chunk's origin first. */
  lemma ChunkRequestShape(mapId: U32, c: ChunkLoad, t: MapStorage.ChunkTable)
    ensures var m := ChunkRequest(mapId, c, t);
            && (m.opcode == CpMapChunkVerifyChecksum <==> MapStorage.ChunkAt(t, mapId, c.startX, c.startY).Some?)
            && (m.opcode == CpGetMapChunk <==> MapStorage.ChunkAt(t, mapId, c.startX, c.startY).None?)
            && |m.fields| >= 3 && m.fields[0] == UInt32(mapId) && m.fields[1] == UInt32(c.startX) && m.fields[2] == UInt32(c.startY)
  {
  }

  /** The packets that follow a run of queued chunks, one per chunk. */
  function ChunkRequests(mapId: U32, cs: seq<ChunkLoad>, t: MapStorage.ChunkTable): (ms: seq<Message>)
    ensures |ms| == |cs|
  {
    seq(|cs|, i requires 0 <= i < |cs| => ChunkRequest(mapId, cs[i], t))
  }

  /** The i-th request is the one for the i-th chunk. */
  lemma ChunkRequestsAt(mapId: U32, cs: seq<ChunkLoad>, t: MapStorage.ChunkTable, i: nat)
    requires i < |cs|
    ensures ChunkRequests(mapId, cs, t)[i] == ChunkRequest(mapId, cs[i], t)
  {
  }

  /** Requesting a + b sends the requests of a, then those of b. */
  lemma ChunkRequestsAppend(mapId: U32, a: seq<ChunkLoad>, b: seq<ChunkLoad>, t: MapStorage.ChunkTable)
    ensures ChunkRequests(mapId, a + b, t) == ChunkRequests(mapId, a, t) + ChunkRequests(mapId, b, t)
  {
    var l, r := ChunkRequests(mapId, a + b, t), ChunkRequests(mapId, a, t) + ChunkRequests(mapId, b, t);
    assert |l| == |r|;
    forall i | 0 <= i < |l|
      ensures l[i] == r[i]
    {
      if i < |a| {
        assert (a + b)[i] == a[i];
      } else {
        assert (a + b)[i] == b[i - |a|];
      }
    }
  }

  // ---------------------------------------------------------------------
  // The chunk load queue
  // ---------------------------------------------------------------------

  /** The queue after erasing the first record equal to c, if there is one. */
  function RemoveFirst(q: seq<ChunkLoad>, c: ChunkLoad): seq<ChunkLoad>
  {
    if q == [] then [] else if q[0] == c then q[1..] else [q[0]] + RemoveFirst(q[1..], c)
  }

  /** Erasing at the first match i keeps the records before and after it in order; no match keeps the queue. */
  lemma {:induction false} RemoveFirstAt(q: seq<ChunkLoad>, c: ChunkLoad, i: nat)
    requires i <= |q| && c !in q[..i] && (i < |q| ==> q[i] == c)
    ensures RemoveFirst(q, c) == if i < |q| then q[..i] + q[i + 1..] else q
  {
    if q == [] {
    } else if q[0] == c {
      assert q[..i] + q[i + 1..] == q[1..];
    } else {
      assert i > 0;
      assert q[1..][..i - 1] == q[1..i];
      RemoveFirstAt(q[1..], c, i - 1);
      if i < |q| {
        assert q[1..][i..] == q[i + 1..];
        assert [q[0]] + (q[1..i] + q[i + 1..]) == q[..i] + q[i + 1..];
      }
    }
  }

  /** Erasing removes one copy of c when there is one, and nothing else. */
  lemma {:induction false} RemoveFirstMultiset(q: seq<ChunkLoad>, c: ChunkLoad)
    ensures c in q ==> multiset(RemoveFirst(q, c)) == multiset(q) - multiset{c}
    ensures c !in q ==> RemoveFirst(q, c) == q
  {
    if q != [] {
      assert q == [q[0]] + q[1..];
      RemoveFirstMultiset(q[1..], c);
    }
  }

  /** A chunk queued once and then loaded leaves the queue as it was. */
  lemma {:induction false} QueuedThenLoaded(q: seq<ChunkLoad>, c: ChunkLoad)
    requires c !in q
    ensures RemoveFirst(q + [c], c) == q
  {
    RemoveFirstAt(q + [c], c, |q|);
    assert (q + [c])[..|q|] == q;
  }

  // ---------------------------------------------------------------------
  // Chat history and name queries
  // ---------------------------------------------------------------------

  /** The history after a push: the oldest record goes once the limit is passed. */
  function WithChat(h: seq<ChatRecord>, r: ChatRecord): seq<ChatRecord>
  {
    if |h + [r]| > ChatMsgMaxCount then (h + [r])[1..] else h + [r]
  }

  /** A history within the limit stays within it, ends with the new line and keeps the newest ones in order. */
  lemma ChatHistoryBounded(h: seq<ChatRecord>, r: ChatRecord)
    requires |h| <= ChatMsgMaxCount
    ensures |WithChat(h, r)| == if |h| < ChatMsgMaxCount then |h| + 1 else ChatMsgMaxCount
    ensures WithChat(h, r)[|WithChat(h, r)| - 1] == r
    ensures WithChat(h, r) == (h + [r])[|h| + 1 - |WithChat(h, r)|..]
  {
  }

  /** The line a chat message is rendered as. */
  function LineOf(talkType: Byte, author: seq<Byte>, message: seq<Byte>): (l: ChatLine)
    ensures l.ServerLine? <==> talkType == TalkServerMessage
    ensures l.text == message
  {
    if talkType == TalkServerMessage then ServerLine(message) else PlayerLine(author, message)
  }

  /** SendNameQuery sends for a GUID with no cached name and no nonzero sent-timestamp. */
  predicate Queries(cached: map<U64, seq<Byte>>, sent: map<U64, U64>, g: U64)
  {
    g !in cached && (g !in sent || sent[g] == 0)
  }

  /** The implicit cast of a GUID to int64_t that WriteInt64 receives: two's complement. */
  function AsInt64(g: U64): (x: I64)
    ensures x % 0x1_0000_0000_0000_0000 == g
  {
    if g < 0x8000_0000_0000_0000 then g else g - 0x1_0000_0000_0000_0000
  }

  /** CP_NAME_QUERY: the GUID written as a signed 64-bit value. */
  function NameQueryMessage(g: U64): Message
  {
    Message(CpNameQuery, [Int64(AsInt64(g))])
  }

  /** What putting the object g on a map sends: a name query when the map did not hold g and the query is due. */
  function JoinMessages(guidMap: map<U64, WorldObject>, cached: map<U64, seq<Byte>>, sent: map<U64, U64>, g: U64): seq<Message>
  {
    if g !in guidMap && Queries(cached, sent, g) then [NameQueryMessage(g)] else []
  }

  /**
   * Once a query for g was recorded at a nonzero time, g is never queried
   * again; the other GUIDs are queried exactly as before.
   */
  lemma QueryOnce(cached: map<U64, seq<Byte>>, sent: map<U64, U64>, g: U64, now: U64, h: U64)
    requires now != 0
    ensures !Queries(cached, sent[g := now], g)
    ensures h != g ==> (Queries(cached, sent[g := now], h) <==> Queries(cached, sent, h))
  {
  }

  /** The time 0 recorded by a clock at the epoch does not block a second query. */
  lemma QueryAtEpochRepeats(cached: map<U64, seq<Byte>>, sent: map<U64, U64>, g: U64)
    requires g !in cached
    ensures Queries(cached, sent[g := 0], g)
  {
  }

  // ---------------------------------------------------------------------
  // The session
  // ---------------------------------------------------------------------

  class Gameplay {
    const out: Outbox
    const maps: MapStorage.MapStorage
    const net: Network.NetworkManager
    const app: Application.Application

    var playerGuid: U32
    var player: WorldObject?
    var currentMap: Map?
    /** The chunk the player stood in when the map was entered; RequestSorroundingChunks does not move it. */
    var currentChunkX: U32
    var currentChunkY: U32
    var chunkLoadQueue: seq<ChunkLoad>
    var chatMessages: seq<ChatRecord>
    var nameQuerySent: map<U64, U64>
    var cachedNames: map<U64, seq<Byte>>

    /** No player, no map, empty queues and caches (the source leaves most of these uninitialised). */
    constructor (out: Outbox, maps: MapStorage.MapStorage, net: Network.NetworkManager, app: Application.Application)
      ensures this.out == out && this.maps == maps && this.net == net && this.app == app
      ensures player == null && currentMap == null && chunkLoadQueue == [] && chatMessages == []
      ensures nameQuerySent == map[] && cachedNames == map[]
    {
      this.out := out;
      this.maps := maps;
      this.net := net;
      this.app := app;
      playerGuid := 0;
      player := null;
      currentMap := null;
      currentChunkX := 0;
      currentChunkY := 0;
      chunkLoadQueue := [];
      chatMessages := [];
      nameQuerySent := map[];
      cachedNames := map[];
    }

    /** The player and the current map as frames: empty for null. */
    function Player(): set<WorldObject>
      reads this
    {
      if player == null then {} else {player}
    }

    /** The objects in the current map's visibility vector. */
    function Shown(): set<WorldObject>
      reads this, currentMap
    {
      if currentMap == null then {} else set o | o in currentMap.vis
    }

    /** The player's object has its GUID words. */
    predicate PlayerOk()
      reads this, player
    {
      player != null ==> player.fields.Length >= 2
    }

    /** EnterWorld: the GUID is kept for CreatePlayer, CP_ENTER_WORLD is sent and the connecting stage requested. */
    method EnterWorld(guid: U32)
      modifies this`playerGuid, out, app`pendingStageType
      ensures playerGuid == guid
      ensures out.messages == old(out.messages) + [Message(CpEnterWorld, [UInt32(guid)])]
      ensures app.State() == Application.Request(old(app.State()), StageConnecting)
    {
      playerGuid := guid;
      out.Send(CpEnterWorld, [UInt32(guid)]);
      app.SetStageType(StageConnecting);
    }

    /**
     * MovementKeyEvent: without a player nothing happens. A press sends a
     * start and adds the direction unless the player already moves that
     * way; a release sends a stop with the position and removes the
     * direction only if it does. floatOf gives the float bit pattern of a
     * coordinate.
     */
    method MovementKeyEvent(dir: bv8, press: bool, meta: ImageStorage.MetadataTable, now: U32, floatOf: int -> U32)
      requires player != null ==> player.Valid() && player.objectType == TypePlayer
      modifies out, player
      ensures player == null ==> out.messages == old(out.messages)
      ensures player != null ==>
                out.messages == old(out.messages) +
                  KeyMessages(old(player.moveMask), dir, press, floatOf(old(player.posX)), floatOf(old(player.posY)))
      ensures player != null ==> player.moveMask == KeyMask(old(player.moveMask), dir, press)
      ensures player != null ==> player.posX == old(player.posX) && player.posY == old(player.posY)
    {
      if player == null {
        return;
      }
      var p := player;
      if press {
        if !IsMoving(p.moveMask, dir) {
          out.Send(CpMoveStartDirection, [UInt8(dir as int)]);
          var started := StartMovementInDirection(p, dir, meta, now);
        }
      } else {
        if IsMoving(p.moveMask, dir) {
          out.Send(CpMoveStopDirection, [UInt8(dir as int), Float(floatOf(p.posX)), Float(floatOf(p.posY))]);
          var stopped := StopMovementInDirection(p, dir, meta, now);
        }
      }
    }

    /**
     * LoadMap: without a map record, or without its file (onDisk), the
     * metadata is requested. Otherwise an empty map with that id becomes
     * the current map and the stored header checksum is sent for
     * verification.
     */
    method LoadMap(mapId: U32, onDisk: seq<Byte> -> bool)
      modifies this`currentMap, out
      ensures out.messages == old(out.messages) + [LoadMapMessage(maps.GetMapRecord(mapId), mapId, onDisk)]
      ensures LoadMapMessage(maps.GetMapRecord(mapId), mapId, onDisk).opcode != CpMapMetadataVerifyChecksum ==>
                currentMap == old(currentMap)
      ensures LoadMapMessage(maps.GetMapRecord(mapId), mapId, onDisk).opcode == CpMapMetadataVerifyChecksum ==>
                currentMap != null && fresh(currentMap) && currentMap.GetId() == mapId &&
                currentMap.fields == [] && currentMap.objectGuidMap == map[] && currentMap.vis == [] && currentMap.Valid()
    {
      var mrec := maps.GetMapRecord(mapId);
      if mrec.None? {
        out.Send(CpGetMapMetadata, [UInt32(mapId)]);
        return;
      }
      if !onDisk(mrec.value.filename) {
        out.Send(CpGetMapMetadata, [UInt32(mapId)]);
        return;
      }
      var m := new Map();
      m.SetId(mapId);
      currentMap := m;
      out.Send(CpMapMetadataVerifyChecksum, [UInt32(mapId), Str(mrec.value.headerChecksum)]);
    }

    /**
     * CreatePlayer: a fresh player object with the kept GUID, the map id
     * and the position, then LoadMap for that map.
     */
    method CreatePlayer(mapId: U32, x: int, y: int, now: U32, onDisk: seq<Byte> -> bool)
      modifies this`player, this`currentMap, out
      ensures player != null && fresh(player) && player.Valid() && player.objectType == TypePlayer
      ensures player.GetGUID() == playerGuid && player.mapId == mapId && player.posX == x && player.posY == y
      ensures out.messages == old(out.messages) + [LoadMapMessage(maps.GetMapRecord(mapId), mapId, onDisk)]
      ensures LoadMapMessage(maps.GetMapRecord(mapId), mapId, onDisk).opcode != CpMapMetadataVerifyChecksum ==>
                currentMap == old(currentMap)
      ensures LoadMapMessage(maps.GetMapRecord(mapId), mapId, onDisk).opcode == CpMapMetadataVerifyChecksum ==>
                currentMap != null && fresh(currentMap) && currentMap.GetId() == mapId &&
                currentMap.fields == [] && currentMap.objectGuidMap == map[] && currentMap.vis == [] && currentMap.Valid()
    {
      var p := new WorldObject(TypePlayer, now);
      p.InitializeObject(playerGuid);
      p.mapId := mapId;
      SetPosition(p, null, x, y);
      player := p;
      LoadMap(mapId, onDisk);
    }

    /**
     * CreateMapUsing: a new map built from the header (InitEmpty) becomes
     * the current map, and a player already created is put on it. Saving
     * the map file is left to the file layer.
     */
    method CreateMapUsing(mh: MapHeader, meta: ImageStorage.MetadataTable, now: U32, nowSecs: U64)
      requires player != null ==> player.Valid()
      modifies this`currentMap, this`cachedNames, this`nameQuerySent, out
      modifies Player()`visibilityIndex, Player()`animId, Player()`animFrame, Player()`animTimer, Player()`name
      ensures currentMap != null && fresh(currentMap) && currentMap.Valid()
      ensures currentMap.header == mh.(versionMagic := MapVersionMagic)
      ensures IsGrid(currentMap.fields, mh.sizeX, mh.sizeY, DefaultField(mh))
      ensures player == null ==> currentMap.objectGuidMap == map[] && out.messages == old(out.messages)
      ensures player != null ==> currentMap.objectGuidMap == map[player.GetGUID() := player]
      ensures player != null ==>
                out.messages == old(out.messages) +
                  (if Queries(old(cachedNames), old(nameQuerySent), player.GetGUID()) then [NameQueryMessage(player.GetGUID())] else [])
    {
      var m := new Map();
      m.InitEmpty(mh);
      currentMap := m;
      if player != null {
        var added := AddToMap(player, meta, now, nowSecs);
      }
    }

    /**
     * Map::AddWorldObject on the current map followed, when the object is
     * added, by WorldObject::OnAddedToMap: the idle animation and a name
     * query for the object (which a cached name answers at once).
     */
    method AddToMap(obj: WorldObject, meta: ImageStorage.MetadataTable, now: U32, nowSecs: U64) returns (added: bool)
      requires currentMap != null && currentMap.Valid() && obj.Valid()
      requires obj in currentMap.vis ==> obj.GetGUID() in currentMap.objectGuidMap
      requires player != null ==> player.Valid()
      modifies currentMap`objectGuidMap, currentMap`vis, Shown()`visibilityIndex, obj`visibilityIndex
      modifies obj`animId, obj`animFrame, obj`animTimer, obj`name, this`cachedNames, this`nameQuerySent, out
      ensures currentMap.Valid() && obj.GetGUID() in currentMap.objectGuidMap
      ensures added <==> obj.GetGUID() !in old(currentMap.objectGuidMap)
      ensures !added ==> currentMap.objectGuidMap == old(currentMap.objectGuidMap) && currentMap.vis == old(currentMap.vis)
      ensures !added ==> nameQuerySent == old(nameQuerySent)
      ensures added ==> currentMap.objectGuidMap == old(currentMap.objectGuidMap)[obj.GetGUID() := obj]
      ensures added ==> multiset(currentMap.vis) == multiset(old(currentMap.vis)) + multiset{obj}
      ensures out.messages == old(out.messages) + JoinMessages(old(currentMap.objectGuidMap), old(cachedNames), old(nameQuerySent), obj.GetGUID())
      ensures cachedNames == old(cachedNames)
      ensures added ==>
                nameQuerySent == if Queries(old(cachedNames), old(nameQuerySent), obj.GetGUID())
                                 then old(nameQuerySent)[obj.GetGUID() := nowSecs] else old(nameQuerySent)
      ensures added ==> obj.Anim() == SetAnim(old(obj.Anim()), obj.TextureId(), meta, AnimIdle, now)
      ensures !added ==> obj.Anim() == old(obj.Anim()) && obj.name == old(obj.name)
      ensures added && obj.GetGUID() in old(cachedNames) ==> obj.name == old(cachedNames)[obj.GetGUID()]
      ensures obj.GetGUID() !in old(cachedNames) ==> obj.name == old(obj.name)
    {
      var m := currentMap;
      added := m.AddWorldObject(obj);
      if added {
        Arrive(obj, meta, now, nowSecs);
      }
    }

    /** What AddToMap does once obj is new on the map: the idle animation, then the name query. */
    method Arrive(obj: WorldObject, meta: ImageStorage.MetadataTable, now: U32, nowSecs: U64)
      requires currentMap != null && obj.Valid() && PlayerOk()
      requires obj.GetGUID() in currentMap.objectGuidMap && currentMap.objectGuidMap[obj.GetGUID()] == obj
      modifies obj`animId, obj`animFrame, obj`animTimer, obj`name, this`cachedNames, this`nameQuerySent, out
      ensures out.messages == old(out.messages) +
                (if Queries(old(cachedNames), old(nameQuerySent), obj.GetGUID()) then [NameQueryMessage(obj.GetGUID())] else [])
      ensures cachedNames == old(cachedNames)
      ensures nameQuerySent == if Queries(old(cachedNames), old(nameQuerySent), obj.GetGUID())
                               then old(nameQuerySent)[obj.GetGUID() := nowSecs] else old(nameQuerySent)
      ensures obj.Anim() == SetAnim(old(obj.Anim()), obj.TextureId(), meta, AnimIdle, now)
      ensures obj.GetGUID() in old(cachedNames) ==> obj.name == old(cachedNames)[obj.GetGUID()]
      ensures obj.GetGUID() !in old(cachedNames) ==> obj.name == old(obj.name)
    {
      OnAddedToMap(obj, meta, now);
      SendNameQuery(obj.GetGUID(), nowSecs);
    }

    /**
     * SignalMapLoaded: without a map record nothing happens. Otherwise the
     * client dereferences the current map and the player, so both must
     * exist once the record does. Map::LoadFromFile replaces the map's
     * header and grid with those of the map file; the file layer reads
     * them and passes them in as fileHeader and fileGrid. Then the player
     * is put on the map, the chunk it stands in is kept, every surrounding
     * chunk is requested, the connection state becomes INGAME, the game
     * stage is requested and CP_WORLD_ENTER_COMPLETE is sent.
     */
    method SignalMapLoaded(mapId: U32, fileHeader: MapHeader, fileGrid: seq<seq<MapField>>,
                           meta: ImageStorage.MetadataTable, now: U32, nowSecs: U64) returns (found: bool)
      requires maps.GetMapRecord(mapId).Some? ==> currentMap != null && player != null
      requires maps.GetMapRecord(mapId).Some? ==> currentMap.Valid() && Measurable(fileGrid)
      requires maps.GetMapRecord(mapId).Some? ==> player.Valid()
      requires maps.GetMapRecord(mapId).Some? ==> (player in currentMap.vis ==> player.GetGUID() in currentMap.objectGuidMap)
      modifies this`currentChunkX, this`currentChunkY, this`chunkLoadQueue, this`cachedNames, this`nameQuerySent, out
      modifies net`state, app`pendingStageType
      modifies currentMap, Shown()`visibilityIndex, player
      ensures found <==> maps.GetMapRecord(mapId).Some?
      ensures !found ==>
                out.messages == old(out.messages) && chunkLoadQueue == old(chunkLoadQueue) && net.state == old(net.state)
      ensures found ==>
                currentMap != null && player != null && currentMap == old(currentMap) && player.Valid() &&
                currentMap.header == fileHeader && currentMap.fields == fileGrid
      ensures found ==>
                player.GetGUID() in currentMap.objectGuidMap &&
                currentChunkX == ChunkIndex(Coord(player.posX)) && currentChunkY == ChunkIndex(Coord(player.posY)) &&
                net.state == StateInGame && app.State() == Application.Request(old(app.State()), StageGame)
      ensures found ==>
                var wanted := Wanted(Around(currentMap.fields, currentChunkX, currentChunkY), None);
                chunkLoadQueue == old(chunkLoadQueue) + wanted &&
                out.messages == old(out.messages) +
                  JoinMessages(old(currentMap.objectGuidMap), old(cachedNames), old(nameQuerySent), player.GetGUID()) +
                  ChunkRequests(currentMap.GetId(), wanted, maps.chunkRecords) + [Message(CpWorldEnterComplete, [])]
    {
      var mrec := maps.GetMapRecord(mapId);
      found := mrec.Some?;
      if !found {
        return;
      }
      currentMap.Load(fileHeader, fileGrid);
      EnterMap(meta, now, nowSecs);
    }

    /** SignalMapLoaded once the map record is found. */
    method EnterMap(meta: ImageStorage.MetadataTable, now: U32, nowSecs: U64)
      requires currentMap != null && player != null
      requires currentMap.Valid() && Measurable(currentMap.fields)
      requires player.Valid()
      requires player in currentMap.vis ==> player.GetGUID() in currentMap.objectGuidMap
      modifies this`currentChunkX, this`currentChunkY, this`chunkLoadQueue, this`cachedNames, this`nameQuerySent, out
      modifies net`state, app`pendingStageType
      modifies currentMap`objectGuidMap, currentMap`vis, Shown()`visibilityIndex
      modifies player`visibilityIndex, player`animId, player`animFrame, player`animTimer, player`name
      ensures currentMap != null && player != null && Measurable(currentMap.fields) && player.Valid()
      ensures player.GetGUID() in currentMap.objectGuidMap &&
              currentChunkX == ChunkIndex(Coord(player.posX)) && currentChunkY == ChunkIndex(Coord(player.posY)) &&
              net.state == StateInGame && app.State() == Application.Request(old(app.State()), StageGame)
      ensures var wanted := Wanted(Around(currentMap.fields, currentChunkX, currentChunkY), None);
              chunkLoadQueue == old(chunkLoadQueue) + wanted &&
              out.messages == old(out.messages) +
                JoinMessages(old(currentMap.objectGuidMap), old(cachedNames), old(nameQuerySent), player.GetGUID()) +
                ChunkRequests(currentMap.GetId(), wanted, maps.chunkRecords) + [Message(CpWorldEnterComplete, [])]
    {
      JoinPlayer(meta, now, nowSecs);
      EnterGame();
    }

    /** The player put on the current map by AddToMap, with what EnterMap needs of it kept. */
    method JoinPlayer(meta: ImageStorage.MetadataTable, now: U32, nowSecs: U64)
      requires currentMap != null && player != null
      requires currentMap.Valid() && player.Valid()
      requires player in currentMap.vis ==> player.GetGUID() in currentMap.objectGuidMap
      modifies this`cachedNames, this`nameQuerySent, out
      modifies currentMap`objectGuidMap, currentMap`vis, Shown()`visibilityIndex
      modifies player`visibilityIndex, player`animId, player`animFrame, player`animTimer, player`name
      ensures player.GetGUID() in currentMap.objectGuidMap
      ensures out.messages == old(out.messages) + JoinMessages(old(currentMap.objectGuidMap), old(cachedNames), old(nameQuerySent), player.GetGUID())
    {
      var added := AddToMap(player, meta, now, nowSecs);
    }

    /**
     * The part of SignalMapLoaded after the player is on the map: keep the
     * player's chunk, request every chunk around it, switch to INGAME and
     * the game stage, and send CP_WORLD_ENTER_COMPLETE.
     */
    method EnterGame()
      requires currentMap != null && player != null && Measurable(currentMap.fields)
      modifies this`currentChunkX, this`currentChunkY, this`chunkLoadQueue, out, net`state, app`pendingStageType
      ensures unchanged(currentMap, player, player.fields)
      ensures currentChunkX == ChunkIndex(Coord(player.posX)) && currentChunkY == ChunkIndex(Coord(player.posY))
      ensures net.state == StateInGame && app.State() == Application.Request(old(app.State()), StageGame)
      ensures var wanted := Wanted(Around(currentMap.fields, currentChunkX, currentChunkY), None);
              chunkLoadQueue == old(chunkLoadQueue) + wanted &&
              out.messages == old(out.messages) + ChunkRequests(currentMap.GetId(), wanted, maps.chunkRecords) +
                [Message(CpWorldEnterComplete, [])]
    {
      currentChunkX := ChunkIndex(Coord(player.posX));
      currentChunkY := ChunkIndex(Coord(player.posY));
      RequestSorroundingChunks(true);
      net.SetConnectionState(StateInGame);
      app.SetStageType(StageGame);
      out.Send(CpWorldEnterComplete, []);
    }

    /**
     * RequestSorroundingChunks: each chunk of the rectangle around the
     * player's chunk, x outer and y inner, that is forced or lies outside
     * the rectangle around the kept chunk, is queued and followed by its
     * request.
     */
    method RequestSorroundingChunks(force: bool)
      requires currentMap != null && player != null && Measurable(currentMap.fields)
      modifies this`chunkLoadQueue, out
      ensures var l := Around(currentMap.fields, ChunkIndex(Coord(player.posX)), ChunkIndex(Coord(player.posY)));
              var o := if force then None else Some(Around(currentMap.fields, currentChunkX, currentChunkY));
              chunkLoadQueue == old(chunkLoadQueue) + Wanted(l, o) &&
              out.messages == old(out.messages) + ChunkRequests(currentMap.GetId(), Wanted(l, o), maps.chunkRecords)
    {
      var m, p := currentMap, player;
      var cellX := ChunkIndex(Coord(p.posX));
      var cellY := ChunkIndex(Coord(p.posY));
      var l := SurroundingLimits(cellX, cellY, |m.fields|, |m.fields[0]|);
      var o: Option<Limits> := None;
      if !force {
        o := Some(SurroundingLimits(currentChunkX, currentChunkY, |m.fields|, |m.fields[0]|));
      }
      RequestRect(l, o, m.GetId());
    }

    /** The outer loop of RequestSorroundingChunks: the columns of l from left to right. */
    method RequestRect(l: Limits, o: Option<Limits>, id: U32)
      modifies this`chunkLoadQueue, out
      ensures chunkLoadQueue == old(chunkLoadQueue) + Wanted(l, o)
      ensures out.messages == old(out.messages) + ChunkRequests(id, Wanted(l, o), maps.chunkRecords)
    {
      ghost var q0, m0 := chunkLoadQueue, out.messages;
      ghost var done: seq<ChunkLoad> := [];
      var iX: int := l.beginX;
      while iX <= l.endX
        invariant l.beginX <= iX && (iX == l.beginX || iX <= l.endX + 1)
        invariant done == Columns(l, o, iX)
        invariant chunkLoadQueue == q0 + done && out.messages == m0 + ChunkRequests(id, done, maps.chunkRecords)
      {
        done := ColumnStep(l, o, iX, id, q0, m0, done);
        iX := iX + 1;
        assert done == Columns(l, o, iX);
      }
    }

    /** One pass of the outer loop: column x is requested, and the columns done so far grow by it. */
    method ColumnStep(l: Limits, o: Option<Limits>, x: U32, id: U32, ghost q0: seq<ChunkLoad>, ghost m0: seq<Message>,
                      ghost done: seq<ChunkLoad>) returns (ghost done': seq<ChunkLoad>)
      requires chunkLoadQueue == q0 + done && out.messages == m0 + ChunkRequests(id, done, maps.chunkRecords)
      modifies this`chunkLoadQueue, out
      ensures done' == done + ColumnPart(l, o, x, l.endY + 1)
      ensures chunkLoadQueue == q0 + done' && out.messages == m0 + ChunkRequests(id, done', maps.chunkRecords)
    {
      ghost var column := ColumnPart(l, o, x, l.endY + 1);
      ghost var t := maps.chunkRecords;
      RequestColumn(l, o, x, id);
      ChunkRequestsAppend(id, done, column, t);
      done' := done + column;
    }

    /** The inner loop of RequestSorroundingChunks: the wanted chunks of column x, y ascending, each with its request. */
    method RequestColumn(l: Limits, o: Option<Limits>, x: U32, id: U32)
      modifies this`chunkLoadQueue, out
      ensures chunkLoadQueue == old(chunkLoadQueue) + ColumnPart(l, o, x, l.endY + 1)
      ensures out.messages == old(out.messages) + ChunkRequests(id, ColumnPart(l, o, x, l.endY + 1), maps.chunkRecords)
    {
      ghost var q0, m0 := chunkLoadQueue, out.messages;
      ghost var done: seq<ChunkLoad> := [];
      var iY: int := l.beginY;
      while iY <= l.endY
        invariant l.beginY <= iY && (iY == l.beginY || iY <= l.endY + 1)
        invariant done == ColumnPart(l, o, x, iY)
        invariant chunkLoadQueue == q0 + done && out.messages == m0 + ChunkRequests(id, done, maps.chunkRecords)
      {
        done := CellStep(l, o, x, iY, id, q0, m0, done);
        iY := iY + 1;
      }
    }

    /** One pass of the inner loop: chunk (x, y) is handled, and the chunks done so far grow by its cell. */
    method CellStep(l: Limits, o: Option<Limits>, x: U32, y: U32, id: U32, ghost q0: seq<ChunkLoad>, ghost m0: seq<Message>,
                    ghost done: seq<ChunkLoad>) returns (ghost done': seq<ChunkLoad>)
      requires l.beginY <= y && done == ColumnPart(l, o, x, y)
      requires chunkLoadQueue == q0 + done && out.messages == m0 + ChunkRequests(id, done, maps.chunkRecords)
      modifies this`chunkLoadQueue, out
      ensures done' == ColumnPart(l, o, x, y + 1)
      ensures chunkLoadQueue == q0 + done' && out.messages == m0 + ChunkRequests(id, done', maps.chunkRecords)
    {
      ghost var cell := Cell(x, y, o);
      ghost var t := maps.chunkRecords;
      ChunkStep(o, x, y, id);
      ChunkRequestsAppend(id, done, cell, t);
      done' := done + cell;
    }

    /** The body of the inner loop: chunk (x, y) is queued and requested when forced (o is None) or outside o. */
    method ChunkStep(o: Option<Limits>, x: U32, y: U32, id: U32)
      modifies this`chunkLoadQueue, out
      ensures chunkLoadQueue == old(chunkLoadQueue) + Cell(x, y, o)
      ensures out.messages == old(out.messages) + ChunkRequests(id, Cell(x, y, o), maps.chunkRecords)
    {
      var startX, startY := ChunkStart(x), ChunkStart(y);
      if o.None? || Outside(x, y, o.value) {
        var c := ChunkLoad(startX, startY);
        chunkLoadQueue := chunkLoadQueue + [c];
        SendChunkRequest(id, c);
        assert ChunkRequests(id, [c], maps.chunkRecords) == [ChunkRequest(id, c, maps.chunkRecords)];
      }
    }

    /** The request that follows a queued chunk (SendRequestMapChunkChecksumVerify or SendRequestMapChunk). */
    method SendChunkRequest(id: U32, c: ChunkLoad)
      modifies out
      ensures out.messages == old(out.messages) + [ChunkRequest(id, c, maps.chunkRecords)]
    {
      var mrec := maps.GetMapChunkRecord(id, c.startX, c.startY);
      if mrec.Some? {
        out.Send(CpMapChunkVerifyChecksum, [UInt32(id), UInt32(c.startX), UInt32(c.startY), Str(mrec.value.checksum)]);
      } else {
        out.Send(CpGetMapChunk, [UInt32(id), UInt32(c.startX), UInt32(c.startY)]);
      }
    }

    /** SignalChunkLoaded: the first queued record of that chunk is erased; allLoaded says whether the queue is now empty. */
    method SignalChunkLoaded(startX: U32, startY: U32) returns (allLoaded: bool)
      modifies this`chunkLoadQueue
      ensures chunkLoadQueue == RemoveFirst(old(chunkLoadQueue), ChunkLoad(startX, startY))
      ensures allLoaded <==> chunkLoadQueue == []
    {
      var c := ChunkLoad(startX, startY);
      var i := 0;
      while i < |chunkLoadQueue| && chunkLoadQueue[i] != c
        invariant i <= |chunkLoadQueue| && c !in chunkLoadQueue[..i]
      {
        assert chunkLoadQueue[..i + 1] == chunkLoadQueue[..i] + [chunkLoadQueue[i]];
        i := i + 1;
      }
      RemoveFirstAt(chunkLoadQueue, c, i);
      if i < |chunkLoadQueue| {
        chunkLoadQueue := chunkLoadQueue[..i] + chunkLoadQueue[i + 1..];
      }
      allLoaded := chunkLoadQueue == [];
    }

    /** The object whose name a resolved query for guid sets: the map's object, else a matching player. */
    function NameTargets(guid: U64): set<WorldObject>
      requires PlayerOk()
      reads this, currentMap, player, if player == null then {} else {player.fields}
    {
      if currentMap == null then {}
      else if guid in currentMap.objectGuidMap then {currentMap.objectGuidMap[guid]}
      else if player != null && player.GetGUID() == guid then {player}
      else {}
    }

    /**
     * SignalNameQueryResolved: a null name changes nothing. Otherwise the
     * name is cached and, when there is a map, given to the map's object
     * of that GUID or else to the player if the GUID is its own.
     */
    method SignalNameQueryResolved(guid: U64, name: Option<seq<Byte>>)
      requires PlayerOk()
      modifies this`cachedNames, NameTargets(guid)`name
      ensures name.None? ==> cachedNames == old(cachedNames) && unchanged(old(NameTargets(guid))`name)
      ensures name.Some? ==> cachedNames == old(cachedNames)[guid := name.value]
      ensures name.Some? ==> forall o :: o in old(NameTargets(guid)) ==> o.name == name.value
    {
      if name.None? {
        return;
      }
      cachedNames := cachedNames[guid := name.value];
      if currentMap != null {
        var obj := currentMap.GetWorldObject(guid);
        if obj != null {
          obj.SetName(name.value);
        } else if player != null && player.GetGUID() == guid {
          player.SetName(name.value);
        }
      }
    }

    /**
     * SendNameQuery: a cached name is handed back at once and nothing is
     * sent; a GUID with a nonzero sent-time is not asked again; otherwise
     * CP_NAME_QUERY is sent and the time recorded.
     */
    method SendNameQuery(guid: U64, now: U64)
      requires PlayerOk()
      modifies this`cachedNames, this`nameQuerySent, out, NameTargets(guid)`name
      ensures cachedNames == old(cachedNames)
      ensures out.messages == old(out.messages) +
                (if Queries(old(cachedNames), old(nameQuerySent), guid) then [NameQueryMessage(guid)] else [])
      ensures nameQuerySent ==
                if Queries(old(cachedNames), old(nameQuerySent), guid) then old(nameQuerySent)[guid := now] else old(nameQuerySent)
      ensures guid in old(cachedNames) ==> forall o :: o in old(NameTargets(guid)) ==> o.name == old(cachedNames)[guid]
      ensures guid !in old(cachedNames) ==> forall o :: o in old(NameTargets(guid)) ==> o.name == old(o.name)
    {
      if guid in cachedNames {
        SignalNameQueryResolved(guid, Some(cachedNames[guid]));
        return;
      }
      if guid in nameQuerySent && nameQuerySent[guid] != 0 {
        return;
      }
      out.Send(CpNameQuery, [Int64(AsInt64(guid))]);
      nameQuerySent := nameQuerySent[guid := now];
    }

    /** AddChatMessage: the rendered line is pushed and, past the limit, the oldest dropped. */
    method AddChatMessage(talkType: Byte, author: seq<Byte>, message: seq<Byte>, now: U64)
      modifies this`chatMessages
      ensures chatMessages == WithChat(old(chatMessages), ChatRecord(LineOf(talkType, author, message), now))
    {
      var line := if talkType == TalkServerMessage then ServerLine(message) else PlayerLine(author, message);
      chatMessages := chatMessages + [ChatRecord(line, now)];
      if |chatMessages| > ChatMsgMaxCount {
        chatMessages := chatMessages[1..];
      }
    }

    /**
     * CreateForeignObject: the type the GUID's high part names, initialised
     * with the GUID. An unknown type leaves the source with a null object
     * that it then dereferences: None.
     */
    method CreateForeignObject(guid: U64, now: U32) returns (r: Option<WorldObject>)
      ensures r.None? <==> TypeOfGuid(guid) == MaxObjectType
      ensures r.Some? ==> fresh(r.value) && r.value.Valid() && r.value.objectType == TypeOfGuid(guid) && r.value.GetGUID() == guid
    {
      var t := TypeOfGuid(guid);
      if t == MaxObjectType {
        return None;
      }
      var obj := new WorldObject(t, now);
      obj.InitializeObject(guid);
      return Some(obj);
    }

    /** GetForeignObject: null without a map, else the map's object with that GUID. */
    function GetForeignObject(guid: U64): (r: WorldObject?)
      reads this, currentMap
      ensures r != null <==> currentMap != null && guid in currentMap.objectGuidMap
      ensures r != null ==> r == currentMap.objectGuidMap[guid]
    {
      if currentMap == null then null else currentMap.GetWorldObject(guid)
    }
  }
}
