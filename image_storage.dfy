/**
 * The client's cache of images, image metadata and the animations each
 * image's metadata carries. The database tables behind the inserts are
 * persistence and stay out; the in-memory maps are what the resource
 * manager and the animation code read.
 */
module ImageStorage {
  import opened Wrappers
  import opened Bytes

  datatype ImageRecord = ImageRecord(id: U32, filename: seq<Byte>, checksum: seq<Byte>, addedTimestamp: U32)

  /** One animation of an image: the frame range and the delay between frames. */
  datatype AnimationRecord = AnimationRecord(id: U32, animId: U32, frameBegin: U32, frameEnd: U32, frameDelay: U32, addedTimestamp: U32)

  /** An image's metadata: sprite size, base centre, collision box and the animations keyed by animation id. */
  datatype MetadataRecord = MetadataRecord(id: U32, sizeX: U32, sizeY: U32, baseCenterX: U32, baseCenterY: U32,
                                           collisionX1: U32, collisionY1: U32, collisionX2: U32, collisionY2: U32,
                                           checksum: seq<Byte>, addedTimestamp: U32,
                                           animations: map<U32, AnimationRecord>)

  type MetadataTable = map<U32, MetadataRecord>

  /** A record as operator[] creates it for an id first seen through an animation: every field zero or empty. */
  function Placeholder(id: U32): MetadataRecord
  {
    MetadataRecord(id, 0, 0, 0, 0, 0, 0, 0, 0, [], 0, map[])
  }

  /** The metadata after InsertImageMetadataRecord: every field is replaced, the animations already known are kept. */
  function PutMetadata(t: MetadataTable, id: U32, sizeX: U32, sizeY: U32, baseCenterX: U32, baseCenterY: U32,
                       collisionX1: U32, collisionY1: U32, collisionX2: U32, collisionY2: U32,
                       checksum: seq<Byte>, addedTimestamp: U32): MetadataTable
  {
    var anims := if id in t then t[id].animations else map[];
    t[id := MetadataRecord(id, sizeX, sizeY, baseCenterX, baseCenterY, collisionX1, collisionY1, collisionX2, collisionY2,
                           checksum, addedTimestamp, anims)]
  }

  /** The metadata after InsertImageAnimationRecord: a placeholder parent when the image has none, then the animation replaced. */
  function PutAnimation(t: MetadataTable, a: AnimationRecord): MetadataTable
  {
    var parent := if a.id in t then t[a.id] else Placeholder(a.id);
    t[a.id := parent.(animations := parent.animations[a.animId := a])]
  }

  /** GetImageAnimationRecord as a value. */
  function AnimationOf(t: MetadataTable, id: U32, animId: U32): Option<AnimationRecord>
  {
    if id in t && animId in t[id].animations then Some(t[id].animations[animId]) else None
  }

  /** An inserted animation is found under its image and animation id; every other lookup is unchanged. */
  lemma AnimationOfPut(t: MetadataTable, a: AnimationRecord, id: U32, animId: U32)
    ensures AnimationOf(PutAnimation(t, a), id, animId) == if (id, animId) == (a.id, a.animId) then Some(a) else AnimationOf(t, id, animId)
  {
  }

  /** Replacing an image's metadata loses none of its animations, and animations are all the record keeps from before. */
  lemma MetadataKeepsAnimations(t: MetadataTable, id: U32, sizeX: U32, sizeY: U32, baseCenterX: U32, baseCenterY: U32,
                                collisionX1: U32, collisionY1: U32, collisionX2: U32, collisionY2: U32,
                                checksum: seq<Byte>, addedTimestamp: U32, i: U32, animId: U32)
    ensures var t' := PutMetadata(t, id, sizeX, sizeY, baseCenterX, baseCenterY, collisionX1, collisionY1, collisionX2, collisionY2, checksum, addedTimestamp);
            AnimationOf(t', i, animId) == AnimationOf(t, i, animId) &&
            t'[id].checksum == checksum && t'[id].sizeX == sizeX && t'[id].sizeY == sizeY
  {
  }

  /** An animation for an image without metadata creates metadata that is all zero except for the id and this animation. */
  lemma AnimationCreatesPlaceholder(t: MetadataTable, a: AnimationRecord)
    requires a.id !in t
    ensures PutAnimation(t, a)[a.id] == Placeholder(a.id).(animations := map[a.animId := a])
  {
  }

  class ImageStorage {
    var imageRecords: map<U32, ImageRecord>
    var imageMetadata: MetadataTable

    constructor ()
      ensures imageRecords == map[] && imageMetadata == map[]
    {
      imageRecords := map[];
      imageMetadata := map[];
    }

    method InsertImageRecord(id: U32, filename: seq<Byte>, checksum: seq<Byte>, addedTimestamp: U32)
      modifies this`imageRecords
      ensures imageRecords == old(imageRecords)[id := ImageRecord(id, filename, checksum, addedTimestamp)]
    {
      imageRecords := imageRecords[id := ImageRecord(id, filename, checksum, addedTimestamp)];
    }

    function GetImageRecord(id: U32): (r: Option<ImageRecord>)
      reads this
      ensures r.Some? <==> id in imageRecords
      ensures r.Some? ==> r.value == imageRecords[id]
    {
      if id in imageRecords then Some(imageRecords[id]) else None
    }

    method InsertImageMetadataRecord(id: U32, sizeX: U32, sizeY: U32, baseCenterX: U32, baseCenterY: U32,
                                     collisionX1: U32, collisionY1: U32, collisionX2: U32, collisionY2: U32,
                                     checksum: seq<Byte>, addedTimestamp: U32)
      modifies this`imageMetadata
      ensures imageMetadata == PutMetadata(old(imageMetadata), id, sizeX, sizeY, baseCenterX, baseCenterY,
                                           collisionX1, collisionY1, collisionX2, collisionY2, checksum, addedTimestamp)
    {
      var anims := if id in imageMetadata then imageMetadata[id].animations else map[];
      imageMetadata := imageMetadata[id := MetadataRecord(id, sizeX, sizeY, baseCenterX, baseCenterY,
                                                          collisionX1, collisionY1, collisionX2, collisionY2,
                                                          checksum, addedTimestamp, anims)];
    }

    function GetImageMetadataRecord(id: U32): (r: Option<MetadataRecord>)
      reads this
      ensures r.Some? <==> id in imageMetadata
      ensures r.Some? ==> r.value == imageMetadata[id]
    {
      if id in imageMetadata then Some(imageMetadata[id]) else None
    }

    method InsertImageAnimationRecord(id: U32, animId: U32, frameBegin: U32, frameEnd: U32, frameDelay: U32, addedTimestamp: U32)
      modifies this`imageMetadata
      ensures imageMetadata == PutAnimation(old(imageMetadata), AnimationRecord(id, animId, frameBegin, frameEnd, frameDelay, addedTimestamp))
    {
      if id !in imageMetadata {
        imageMetadata := imageMetadata[id := Placeholder(id)];
      }
      var parent := imageMetadata[id];
      var a := AnimationRecord(id, animId, frameBegin, frameEnd, frameDelay, addedTimestamp);
      imageMetadata := imageMetadata[id := parent.(animations := parent.animations[animId := a])];
    }

    function GetImageAnimationRecord(id: U32, animId: U32): (r: Option<AnimationRecord>)
      reads this
      ensures r == AnimationOf(imageMetadata, id, animId)
    {
      if id !in imageMetadata then None
      else if animId !in imageMetadata[id].animations then None
      else Some(imageMetadata[id].animations[animId])
    }

    /** WipeImageMetadata deletes the database rows only: the records in memory stay as they are. */
    method WipeImageMetadata(id: U32)
      ensures unchanged(this)
    {
    }
  }
}
