/**
 * The client's cache of map records and map chunk records. The SQLite
 * table behind each insert is persistence and stays out; the in-memory
 * maps are what every later lookup sees.
 */
module MapStorage {
  import opened Wrappers
  import opened Bytes

  /** A cached map: its file and the checksum of its header. */
  datatype MapRecord = MapRecord(id: U32, filename: seq<Byte>, headerChecksum: seq<Byte>, addedTimestamp: U32)

  /** A cached chunk of a map, keyed by the map and the chunk's starting field. */
  datatype ChunkRecord = ChunkRecord(mapId: U32, startX: U32, startY: U32, sizeX: U32, sizeY: U32,
                                     checksum: seq<Byte>, addedTimestamp: U32)

  /** The three-level table map id -> start X -> start Y -> record. */
  type ChunkTable = map<U32, map<U32, map<U32, ChunkRecord>>>

  /** GetMapChunkRecord as a value: each of the three levels must hold its key. */
  function ChunkAt(t: ChunkTable, mapId: U32, startX: U32, startY: U32): Option<ChunkRecord>
  {
    if mapId in t && startX in t[mapId] && startY in t[mapId][startX] then Some(t[mapId][startX][startY]) else None
  }

  /** The table after InsertMapChunkRecord: missing levels are created, a record already there is replaced. */
  function PutChunk(t: ChunkTable, r: ChunkRecord): ChunkTable
  {
    var byX: map<U32, map<U32, ChunkRecord>> := if r.mapId in t then t[r.mapId] else map[];
    var byY: map<U32, ChunkRecord> := if r.startX in byX then byX[r.startX] else map[];
    t[r.mapId := byX[r.startX := byY[r.startY := r]]]
  }

  /** A chunk inserted is found at its key; every other key finds what it found before. */
  lemma ChunkAtPut(t: ChunkTable, r: ChunkRecord, mapId: U32, startX: U32, startY: U32)
    ensures ChunkAt(PutChunk(t, r), mapId, startX, startY) ==
            if (mapId, startX, startY) == (r.mapId, r.startX, r.startY) then Some(r) else ChunkAt(t, mapId, startX, startY)
  {
  }

  class MapStorage {
    var mapRecords: map<U32, MapRecord>
    var chunkRecords: ChunkTable

    constructor ()
      ensures mapRecords == map[] && chunkRecords == map[]
    {
      mapRecords := map[];
      chunkRecords := map[];
    }

    /** InsertMapRecord: the record for the id is replaced by the new one. */
    method InsertMapRecord(id: U32, filename: seq<Byte>, headerChecksum: seq<Byte>, addedTimestamp: U32)
      modifies this`mapRecords
      ensures mapRecords == old(mapRecords)[id := MapRecord(id, filename, headerChecksum, addedTimestamp)]
    {
      mapRecords := mapRecords[id := MapRecord(id, filename, headerChecksum, addedTimestamp)];
    }

    /** GetMapRecord: the record, or None where the client returns null. */
    function GetMapRecord(id: U32): (r: Option<MapRecord>)
      reads this
      ensures r.Some? <==> id in mapRecords
      ensures r.Some? ==> r.value == mapRecords[id]
    {
      if id in mapRecords then Some(mapRecords[id]) else None
    }

    method InsertMapChunkRecord(mapId: U32, startX: U32, startY: U32, sizeX: U32, sizeY: U32,
                                checksum: seq<Byte>, addedTimestamp: U32)
      modifies this`chunkRecords
      ensures chunkRecords == PutChunk(old(chunkRecords), ChunkRecord(mapId, startX, startY, sizeX, sizeY, checksum, addedTimestamp))
    {
      var r := ChunkRecord(mapId, startX, startY, sizeX, sizeY, checksum, addedTimestamp);
      var byX: map<U32, map<U32, ChunkRecord>> := if mapId in chunkRecords then chunkRecords[mapId] else map[];
      var byY: map<U32, ChunkRecord> := if startX in byX then byX[startX] else map[];
      chunkRecords := chunkRecords[mapId := byX[startX := byY[startY := r]]];
    }

    function GetMapChunkRecord(mapId: U32, startX: U32, startY: U32): (r: Option<ChunkRecord>)
      reads this
      ensures r == ChunkAt(chunkRecords, mapId, startX, startY)
    {
      if mapId !in chunkRecords then None
      else if startX !in chunkRecords[mapId] then None
      else if startY !in chunkRecords[mapId][startX] then None
      else Some(chunkRecords[mapId][startX][startY])
    }
  }
}
