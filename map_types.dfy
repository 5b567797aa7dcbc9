// The map header and map field records and the map constants.
module MapTypes {
  import opened Bytes

  /** Version magic stored in every map header. */
  const MapVersionMagic: U32 := 0x0001_00FF
  /** Length of the zero-filled name field of the header. */
  const MapNameLength: nat := 64
  /** Fields per chunk in each direction; a cell is a chunk. */
  const ChunkSizeX: nat := 40
  const ChunkSizeY: nat := 40
  /** How many cells around the current one count as surrounding. */
  const SurroundingCellsX: nat := 2
  const SurroundingCellsY: nat := 2

  /** Map field types. */
  const FieldGround: U16 := 0
  const FieldSolid: U16 := 1
  const FieldWater: U16 := 2
  const FieldLava: U16 := 3

  datatype MapHeader = MapHeader(
    versionMagic: U32,
    mapId: U32,
    name: seq<Byte>,
    sizeX: U32,
    sizeY: U32,
    entryX: U32,
    entryY: U32,
    defaultFieldType: U16,
    defaultFieldTexture: U32,
    defaultFieldFlags: U32)

  datatype MapField = MapField(fieldType: U16, texture: U32, flags: U32)

  /** The name field of a header: the name's bytes, cut at the field length,
      followed by zeros up to the field length. */
  function NameField(name: seq<Byte>): (r: seq<Byte>)
    ensures |r| == MapNameLength
    ensures forall i :: 0 <= i < MapNameLength ==> r[i] == (if i < |name| then name[i] else 0)
  {
    if |name| >= MapNameLength then name[..MapNameLength]
    else name + seq(MapNameLength - |name|, _ => 0)
  }
}
