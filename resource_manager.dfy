/**
 * The resource manager: the image resources the client knows, each with a
 * load state for its contents and one for its metadata, and the protocol
 * that fills them: a stored record is loaded and its checksum sent for
 * verification (once per session), a missing one is requested from the
 * server, and a resource that arrives is reset and loaded again.
 *
 * Loading an image file (IMG_Load and the texture made from it) is the
 * parameter `disk`: the texture size of every file that loads; a file
 * outside it fails to load. The stores, the stream manager and the
 * outgoing packets are objects the manager is built with, as the client's
 * singletons are.
 */
module ResourceManagement {
  import opened Wrappers
  import opened Bytes
  import opened SmartPacket
  import opened Enums
  import ImageStorage
  import opened Outgoing
  import opened ResourceStreams

  /** ResourceLoadState: RLS_NOT_LOADED = 1, RLS_RETRIEVING = 2, RLS_LOADING_FROM_FILE = 3, RLS_LOADED = 4. */
  datatype LoadState = NotLoaded | Retrieving | LoadingFromFile | Loaded

  /** A rendered texture, of which the manager only queries the size. */
  datatype Texture = Texture(w: nat, h: nat)

  datatype Rect = Rect(x: int, y: int, w: int, h: int)

  /** ImageResource: the two load states, the texture and metadata once loaded, and the cut animation frames. */
  datatype ImageResource = ImageResource(id: U32, loadState: LoadState, metaLoadState: LoadState,
                                         texture: Option<Texture>, metadata: Option<ImageStorage.MetadataRecord>,
                                         animSpriteRects: seq<Rect>)

  /** Every resource is stored under its own id and is coherent. */
  ghost predicate AllCoherent(rs: map<U32, ImageResource>)
  {
    forall id :: id in rs ==> rs[id].id == id && Coherent(rs[id])
  }

  lemma CoherentUpdate(rs: map<U32, ImageResource>, id: U32, r: ImageResource)
    requires AllCoherent(rs) && r.id == id && Coherent(r)
    ensures AllCoherent(rs[id := r])
  {
  }

  lemma UpdateSame<K, V>(m: map<K, V>, k: K)
    requires k in m
    ensures m[k := m[k]] == m
  {
  }

  lemma UpdateTwice<K, V>(m: map<K, V>, k: K, a: V, b: V)
    ensures m[k := a][k := b] == m[k := b]
  {
  }

  /** The resource GetOrCreateImageResource creates: nothing loaded, no attempt made. */
  function NewResource(id: U32): ImageResource
  {
    ImageResource(id, NotLoaded, NotLoaded, None, None, [])
  }

  // ---------------------------------------------------------------------
  // Animation frames
  // ---------------------------------------------------------------------

  /** The number of frames along one axis: how many whole sprites fit, at least one. */
  function FrameCount(extent: nat, size: nat): (n: nat)
    requires size > 0
    ensures n >= 1
    ensures n == 1 || n * size <= extent
  {
    if extent / size == 0 then 1 else extent / size
  }

  /** The frames of row iY from column 0 up to n. */
  function RowRects(iY: nat, n: nat, sx: nat, sy: nat): (rs: seq<Rect>)
    ensures |rs| == n
  {
    if n == 0 then [] else RowRects(iY, n - 1, sx, sy) + [Rect((n - 1) * sx, iY * sy, sx, sy)]
  }

  /** The frames of the first rows rows, row by row. */
  function GridRects(rows: nat, cx: nat, sx: nat, sy: nat): (rs: seq<Rect>)
  {
    if rows == 0 then [] else GridRects(rows - 1, cx, sx, sy) + RowRects(rows - 1, cx, sx, sy)
  }

  /** The sprite cut into frames of the metadata's size, row by row. */
  function SpriteRects(t: Texture, m: ImageStorage.MetadataRecord): seq<Rect>
    requires m.sizeX > 0 && m.sizeY > 0
  {
    GridRects(FrameCount(t.h, m.sizeY), FrameCount(t.w, m.sizeX), m.sizeX, m.sizeY)
  }

  lemma {:induction false} RowRectsAt(iY: nat, n: nat, sx: nat, sy: nat, j: nat)
    requires j < n
    ensures RowRects(iY, n, sx, sy)[j] == Rect(j * sx, iY * sy, sx, sy)
  {
    if j < n - 1 {
      RowRectsAt(iY, n - 1, sx, sy, j);
    }
  }

  lemma MulMono(a: nat, b: nat, c: nat)
    requires a <= b
    ensures a * c <= b * c
  {
  }

  /** The frame at row r, column j of the grid is entry r·cx + j. */
  lemma {:induction false} GridRectsAt(rows: nat, cx: nat, sx: nat, sy: nat, r: nat, j: nat)
    requires r < rows && j < cx
    ensures |GridRects(rows, cx, sx, sy)| == rows * cx
    ensures r * cx + j < rows * cx
    ensures GridRects(rows, cx, sx, sy)[r * cx + j] == Rect(j * sx, r * sy, sx, sy)
  {
    GridRectsLength(rows, cx, sx, sy);
    GridRectsLength(rows - 1, cx, sx, sy);
    if r < rows - 1 {
      MulMono(r + 1, rows - 1, cx);
      GridRectsAt(rows - 1, cx, sx, sy, r, j);
    } else {
      RowRectsAt(rows - 1, cx, sx, sy, j);
    }
  }

  lemma {:induction false} GridRectsLength(rows: nat, cx: nat, sx: nat, sy: nat)
    ensures |GridRects(rows, cx, sx, sy)| == rows * cx
  {
    if rows > 0 {
      GridRectsLength(rows - 1, cx, sx, sy);
    }
  }

  /**
   * The frames CacheAnimSpriteRectagles stores: countX·countY rectangles of
   * the sprite size, row by row, the frame of row iY and column iX at
   * (iX·sizeX, iY·sizeY).
   */
  lemma SpriteRectsLayout(t: Texture, m: ImageStorage.MetadataRecord, iY: nat, iX: nat)
    requires m.sizeX > 0 && m.sizeY > 0
    ensures var cx := FrameCount(t.w, m.sizeX);
            |SpriteRects(t, m)| == cx * FrameCount(t.h, m.sizeY) &&
            (iY < FrameCount(t.h, m.sizeY) && iX < cx ==>
              iY * cx + iX < |SpriteRects(t, m)| &&
              SpriteRects(t, m)[iY * cx + iX] == Rect(iX * m.sizeX, iY * m.sizeY, m.sizeX, m.sizeY))
  {
    var cx := FrameCount(t.w, m.sizeX);
    var cy := FrameCount(t.h, m.sizeY);
    GridRectsLength(cy, cx, m.sizeX, m.sizeY);
    if iY < cy && iX < cx {
      GridRectsAt(cy, cx, m.sizeX, m.sizeY, iY, iX);
    }
  }

  /** The frames can be cut: metadata loaded, texture and metadata present, sprite size non-zero. */
  predicate Sliceable(r: ImageResource)
  {
    r.metaLoadState == Loaded && r.metadata.Some? && r.texture.Some? &&
    r.metadata.value.sizeX > 0 && r.metadata.value.sizeY > 0
  }

  /**
   * The client divides the texture size by a sprite size of zero: metadata
   * loaded, texture and metadata present, and a zero sprite width or height.
   */
  predicate DividesByZero(r: ImageResource)
  {
    r.metaLoadState == Loaded && r.metadata.Some? && r.texture.Some? &&
    (r.metadata.value.sizeX == 0 || r.metadata.value.sizeY == 0)
  }

  /** CacheAnimSpriteRectagles on one resource: recut when it can be cut, else unchanged. */
  function Cached(r: ImageResource): (c: ImageResource)
    ensures c.(animSpriteRects := r.animSpriteRects) == r
    ensures c.id == r.id && c.loadState == r.loadState && c.metaLoadState == r.metaLoadState
  {
    if Sliceable(r) then r.(animSpriteRects := SpriteRects(r.texture.value, r.metadata.value)) else r
  }

  /**
   * What the manager keeps true of every resource: a loaded content has a
   * texture, loaded metadata has a record, and whenever the frames can be
   * cut they are those of the current texture and metadata.
   */
  predicate Coherent(r: ImageResource)
  {
    (r.loadState == Loaded ==> r.texture.Some?) &&
    (r.metaLoadState == Loaded ==> r.metadata.Some?) &&
    (Sliceable(r) ==> r.animSpriteRects == SpriteRects(r.texture.value, r.metadata.value))
  }

  // ---------------------------------------------------------------------
  // The two loaders on one resource
  // ---------------------------------------------------------------------

  /** LoadImageResourceMeta leaves a resource alone while its metadata is retrieved or read. */
  predicate MetaBusy(r: ImageResource)
  {
    r.metaLoadState == Retrieving || r.metaLoadState == LoadingFromFile
  }

  /** LoadImageResource leaves it alone while the contents are retrieved or read, and while loaded contents wait for metadata. */
  predicate LoadBusy(r: ImageResource)
  {
    r.loadState == Retrieving || r.loadState == LoadingFromFile ||
    (r.loadState == Loaded && r.metaLoadState == Retrieving)
  }

  /** The resource after LoadImageResourceMeta, with rec the stored metadata. */
  function AfterMetaLoad(r: ImageResource, rec: Option<ImageStorage.MetadataRecord>): ImageResource
  {
    if MetaBusy(r) then r
    else if rec.Some? then Cached(r.(metaLoadState := Loaded, metadata := rec))
    else r.(metaLoadState := Retrieving)
  }

  /** The packets LoadImageResourceMeta sends: a metadata verify unless verified, or a metadata request. */
  function MetaLoadMessages(r: ImageResource, rec: Option<ImageStorage.MetadataRecord>, verified: bool): seq<Message>
  {
    if MetaBusy(r) then []
    else if rec.Some? then (if verified then [] else [Message(CpVerifyImageMetadataChecksum, [UInt32(r.id), Str(rec.value.checksum)])])
    else [Message(CpGetImageMetadata, [UInt32(r.id)])]
  }

  /** The resource after LoadImageResource, with rec the stored image record and disk the files that load. */
  function AfterLoad(r: ImageResource, rec: Option<ImageStorage.ImageRecord>, disk: map<seq<Byte>, Texture>): ImageResource
  {
    if LoadBusy(r) then r
    else if rec.None? then r.(loadState := Retrieving)
    else if rec.value.filename in disk then Cached(r.(loadState := Loaded, texture := Some(disk[rec.value.filename])))
    else r.(loadState := LoadingFromFile)
  }

  /** The packets LoadImageResource sends: a resource request, or a checksum verify unless verified. */
  function LoadMessages(r: ImageResource, rec: Option<ImageStorage.ImageRecord>, verified: bool): seq<Message>
  {
    if LoadBusy(r) then []
    else if rec.None? then [Message(CpRequestResource, [UInt8(ResourceImage), UInt32(r.id)])]
    else if verified then []
    else [BatchMessage([ChecksumItem(ResourceImage, r.id, rec.value.checksum)])]
  }

  /** Both loaders keep a resource coherent and change only their own half of it. */
  lemma LoadersKeepCoherent(r: ImageResource, mrec: Option<ImageStorage.MetadataRecord>, rec: Option<ImageStorage.ImageRecord>,
                            disk: map<seq<Byte>, Texture>)
    requires Coherent(r)
    ensures Coherent(AfterMetaLoad(r, mrec)) && Coherent(AfterLoad(r, rec, disk))
    ensures AfterMetaLoad(r, mrec).loadState == r.loadState && AfterMetaLoad(r, mrec).texture == r.texture
    ensures AfterLoad(r, rec, disk).metaLoadState == r.metaLoadState && AfterLoad(r, rec, disk).metadata == r.metadata
  {
  }

  /**
   * From NOT_LOADED each loader always moves on: metadata becomes LOADED
   * exactly when a record is stored, else RETRIEVING; contents become
   * RETRIEVING without a record, LOADED when the file loads, and
   * LOADING_FROM_FILE when it does not.
   */
  lemma LoadersLeaveNotLoaded(r: ImageResource, mrec: Option<ImageStorage.MetadataRecord>, rec: Option<ImageStorage.ImageRecord>,
                              disk: map<seq<Byte>, Texture>)
    ensures r.metaLoadState == NotLoaded ==>
              AfterMetaLoad(r, mrec).metaLoadState == (if mrec.Some? then Loaded else Retrieving)
    ensures r.loadState == NotLoaded ==>
              AfterLoad(r, rec, disk).loadState ==
                (if rec.None? then Retrieving else if rec.value.filename in disk then Loaded else LoadingFromFile)
  {
  }

  /** A file that fails to load leaves the contents LOADING_FROM_FILE, and no later LoadImageResource changes them. */
  lemma FailedFileLoadSticks(r: ImageResource, rec: Option<ImageStorage.ImageRecord>, disk: map<seq<Byte>, Texture>,
                             rec2: Option<ImageStorage.ImageRecord>, disk2: map<seq<Byte>, Texture>)
    requires !LoadBusy(r) && rec.Some? && rec.value.filename !in disk
    ensures AfterLoad(r, rec, disk).loadState == LoadingFromFile
    ensures AfterLoad(AfterLoad(r, rec, disk), rec2, disk2) == AfterLoad(r, rec, disk)
    ensures LoadMessages(AfterLoad(r, rec, disk), rec2, false) == []
  {
  }

  /** A verified resource or metadata checksum is never sent again by a loader. */
  lemma VerifiedNotResent(r: ImageResource, mrec: Option<ImageStorage.MetadataRecord>, rec: Option<ImageStorage.ImageRecord>)
    ensures forall m :: m in MetaLoadMessages(r, mrec, true) ==> m.opcode == CpGetImageMetadata
    ensures forall m :: m in LoadMessages(r, rec, true) ==> m.opcode == CpRequestResource
  {
  }

  // ---------------------------------------------------------------------
  // The manager
  // ---------------------------------------------------------------------

  class ResourceManager {
    /** m_resources[RSTYPE_IMAGE]; every state change of the client goes to this map, whatever type it is given. */
    var resources: map<U32, ImageResource>
    const images: ImageStorage.ImageStorage
    const streams: ResourceStreamManager
    const out: Outbox

    ghost predicate Valid()
      reads this
    {
      AllCoherent(resources)
    }

    constructor (images: ImageStorage.ImageStorage, streams: ResourceStreamManager, out: Outbox)
      ensures this.images == images && this.streams == streams && this.out == out
      ensures resources == map[] && Valid()
    {
      this.images := images;
      this.streams := streams;
      this.out := out;
      resources := map[];
    }

    /**
     * RequestResource: a CP_REQUEST_RESOURCE with type and id, then the
     * image entry for id becomes RETRIEVING. found is false when there is
     * no such entry, where the client dereferences null.
     */
    method RequestResource(rtype: Byte, id: U32) returns (found: bool)
      modifies this`resources, out
      ensures out.messages == old(out.messages) + [Message(CpRequestResource, [UInt8(rtype), UInt32(id)])]
      ensures found <==> id in old(resources)
      ensures found ==> resources == old(resources)[id := old(resources)[id].(loadState := Retrieving)]
      ensures !found ==> resources == old(resources)
      ensures old(Valid()) ==> Valid()
    {
      out.Send(CpRequestResource, [UInt8(rtype), UInt32(id)]);
      if id !in resources {
        return false;
      }
      resources := resources[id := resources[id].(loadState := Retrieving)];
      found := true;
    }

    /**
     * RequestResourceMetadata: only images have metadata; for them a
     * CP_GET_IMAGE_METADATA with the id, and the entry's metadata becomes
     * RETRIEVING (found as for RequestResource).
     */
    method RequestResourceMetadata(rtype: Byte, id: U32) returns (found: bool)
      modifies this`resources, out
      ensures rtype != ResourceImage ==> out.messages == old(out.messages) && resources == old(resources) && found
      ensures rtype == ResourceImage ==> out.messages == old(out.messages) + [Message(CpGetImageMetadata, [UInt32(id)])]
      ensures rtype == ResourceImage ==> (found <==> id in old(resources))
      ensures rtype == ResourceImage && found ==> resources == old(resources)[id := old(resources)[id].(metaLoadState := Retrieving)]
      ensures !found ==> resources == old(resources)
      ensures old(Valid()) ==> Valid()
    {
      found := true;
      if rtype == ResourceImage {
        out.Send(CpGetImageMetadata, [UInt32(id)]);
        if id !in resources {
          return false;
        }
        resources := resources[id := resources[id].(metaLoadState := Retrieving)];
      }
    }

    /** The nested loop of CacheAnimSpriteRectagles: countY rows of countX frames. */
    static method CutFrames(countX: nat, countY: nat, sizeX: nat, sizeY: nat) returns (rects: seq<Rect>)
      ensures rects == GridRects(countY, countX, sizeX, sizeY)
    {
      rects := [];
      var iY := 0;
      while iY < countY
        invariant 0 <= iY <= countY
        invariant rects == GridRects(iY, countX, sizeX, sizeY)
      {
        var iX := 0;
        while iX < countX
          invariant 0 <= iX <= countX
          invariant rects == GridRects(iY, countX, sizeX, sizeY) + RowRects(iY, iX, sizeX, sizeY)
        {
          rects := rects + [Rect(iX * sizeX, iY * sizeY, sizeX, sizeY)];
          iX := iX + 1;
        }
        iY := iY + 1;
      }
    }

    /**
     * CacheAnimSpriteRectagles: recut the frames of the entry for id when it
     * can be (SpriteRectsLayout). A zero sprite size, where the client
     * divides by zero, is reported as divisionByZero with the entry unchanged.
     */
    method CacheAnimSpriteRectagles(id: U32) returns (divisionByZero: bool)
      requires id in resources
      modifies this`resources
      ensures resources == old(resources)[id := Cached(old(resources)[id])]
      ensures divisionByZero <==> DividesByZero(old(resources)[id])
      ensures divisionByZero ==> resources == old(resources)
    {
      divisionByZero := false;
      var r := resources[id];
      if r.metaLoadState != Loaded || r.metadata.None? || r.texture.None? {
        return;
      }
      var m := r.metadata.value;
      var t := r.texture.value;
      if m.sizeX == 0 || m.sizeY == 0 {
        divisionByZero := true;
        return;
      }
      var countX := t.w / m.sizeX;
      var countY := t.h / m.sizeY;
      if countX == 0 {
        countX := 1;
      }
      if countY == 0 {
        countY := 1;
      }
      var rects := CutFrames(countX, countY, m.sizeX, m.sizeY);
      resources := resources[id := r.(animSpriteRects := rects)];
    }

    /** LoadImageResourceMeta on the entry for id (the client passes it the stored resource). */
    method LoadImageResourceMeta(id: U32)
      requires id in resources && resources[id].id == id
      modifies this`resources, out
      ensures resources == old(resources)[id := AfterMetaLoad(old(resources)[id], images.GetImageMetadataRecord(id))]
      ensures out.messages == old(out.messages) +
                MetaLoadMessages(old(resources)[id], images.GetImageMetadataRecord(id),
                                 streams.IsMetadataChecksumVerified(ResourceImage, id))
      ensures old(Valid()) ==> Valid()
    {
      var r := resources[id];
      if Valid() {
        LoadersKeepCoherent(r, images.GetImageMetadataRecord(id), images.GetImageRecord(id), map[]);
        CoherentUpdate(resources, id, AfterMetaLoad(r, images.GetImageMetadataRecord(id)));
      }
      if r.metaLoadState == Retrieving || r.metaLoadState == LoadingFromFile {
        return;
      }
      var rec := images.GetImageMetadataRecord(id);
      if rec.Some? {
        ghost var before := resources;
        var loaded := r.(metaLoadState := Loaded, metadata := rec);
        resources := resources[id := loaded];
        var _ := CacheAnimSpriteRectagles(id);
        UpdateTwice(before, id, loaded, Cached(loaded));
        streams.SendVerifyMetadataChecksumPacket(ResourceImage, id, rec.value.checksum, out);
      } else {
        var _ := RequestResourceMetadata(ResourceImage, id);
      }
    }

    /** LoadImageResource on the entry for id: the file load, then the checksum verify; or the resource request. */
    method LoadImageResource(id: U32, disk: map<seq<Byte>, Texture>)
      requires id in resources && resources[id].id == id
      modifies this`resources, out
      ensures resources == old(resources)[id := AfterLoad(old(resources)[id], images.GetImageRecord(id), disk)]
      ensures out.messages == old(out.messages) +
                LoadMessages(old(resources)[id], images.GetImageRecord(id),
                             streams.IsResourceChecksumVerified(ResourceImage, id))
      ensures old(Valid()) ==> Valid()
    {
      var r := resources[id];
      if Valid() {
        LoadersKeepCoherent(r, images.GetImageMetadataRecord(id), images.GetImageRecord(id), disk);
        CoherentUpdate(resources, id, AfterLoad(r, images.GetImageRecord(id), disk));
      }
      if r.loadState == Retrieving || r.loadState == LoadingFromFile || (r.loadState == Loaded && r.metaLoadState == Retrieving) {
        return;
      }
      var rec := images.GetImageRecord(id);
      if rec.Some? {
        ghost var before := resources;
        resources := resources[id := r.(loadState := LoadingFromFile)];
        if rec.value.filename in disk {
          var loaded := r.(loadState := Loaded, texture := Some(disk[rec.value.filename]));
          UpdateTwice(before, id, r.(loadState := LoadingFromFile), loaded);
          resources := resources[id := loaded];
          var _ := CacheAnimSpriteRectagles(id);
          UpdateTwice(before, id, loaded, Cached(loaded));
        }
        SingleVerifyIsBatch(ResourceImage, id, rec.value.checksum);
        streams.SendVerifyChecksumPacket(ResourceImage, id, rec.value.checksum, out);
      } else {
        var _ := RequestResource(ResourceImage, id);
      }
    }

    /**
     * GetOrCreateImageResource: an unknown id gets a fresh resource with
     * nothing loaded; then the metadata is loaded if it is NOT_LOADED, and
     * the contents if they are.
     */
    method GetOrCreateImageResource(id: U32, disk: map<seq<Byte>, Texture>) returns (r: ImageResource)
      requires Valid()
      modifies this`resources, out
      ensures Valid() && id in resources
      ensures resources == old(resources)[id := r]
      ensures var r0 := if id in old(resources) then old(resources)[id] else NewResource(id);
              var r1 := if r0.metaLoadState == NotLoaded then AfterMetaLoad(r0, images.GetImageMetadataRecord(id)) else r0;
              r == (if r1.loadState == NotLoaded then AfterLoad(r1, images.GetImageRecord(id), disk) else r1)
      ensures r.metaLoadState != NotLoaded && r.loadState != NotLoaded
    {
      ghost var before := resources;
      if id !in resources {
        resources := resources[id := NewResource(id)];
      } else {
        UpdateSame(resources, id);
      }
      ghost var r0 := resources[id];
      LoadMetaIfNotLoaded(id);
      ghost var r1 := resources[id];
      UpdateTwice(before, id, r0, r1);
      LoadIfNotLoaded(id, disk);
      r := resources[id];
      UpdateTwice(before, id, r1, r);
    }

    /** The metadata step of GetOrCreateImageResource: LoadImageResourceMeta when it is NOT_LOADED. */
    method LoadMetaIfNotLoaded(id: U32)
      requires Valid() && id in resources
      modifies this`resources, out
      ensures Valid()
      ensures var r0 := old(resources)[id];
              resources == old(resources)[id := if r0.metaLoadState == NotLoaded then AfterMetaLoad(r0, images.GetImageMetadataRecord(id)) else r0]
      ensures resources[id].metaLoadState != NotLoaded
    {
      if resources[id].metaLoadState == NotLoaded {
        LoadImageResourceMeta(id);
      }
    }

    /** The contents step of GetOrCreateImageResource: LoadImageResource when they are NOT_LOADED. */
    method LoadIfNotLoaded(id: U32, disk: map<seq<Byte>, Texture>)
      requires Valid() && id in resources
      modifies this`resources, out
      ensures Valid()
      ensures var r1 := old(resources)[id];
              resources == old(resources)[id := if r1.loadState == NotLoaded then AfterLoad(r1, images.GetImageRecord(id), disk) else r1]
      ensures resources[id].loadState != NotLoaded && resources[id].metaLoadState == old(resources)[id].metaLoadState
    {
      if resources[id].loadState == NotLoaded {
        LoadImageResource(id, disk);
      }
    }

    /** GetImage: the texture of the resource, after GetOrCreateImageResource. */
    method GetImage(id: U32, disk: map<seq<Byte>, Texture>) returns (t: Option<Texture>)
      requires Valid()
      modifies this`resources, out
      ensures Valid() && id in resources && t == resources[id].texture
      ensures resources[id].loadState == Loaded ==> t.Some?
    {
      var r := GetOrCreateImageResource(id, disk);
      t := r.texture;
    }

    /** GetImageMetadata: the metadata of the resource, after GetOrCreateImageResource. */
    method GetImageMetadata(id: U32, disk: map<seq<Byte>, Texture>) returns (m: Option<ImageStorage.MetadataRecord>)
      requires Valid()
      modifies this`resources, out
      ensures Valid() && id in resources && m == resources[id].metadata
      ensures resources[id].metaLoadState == Loaded ==> m.Some?
    {
      var r := GetOrCreateImageResource(id, disk);
      m := r.metadata;
    }

    /**
     * SignalResourceRetrieved: the image entry's contents go back to
     * NOT_LOADED, the checksum is marked verified, and an image is loaded
     * again, so its just-verified checksum is not sent. found is false
     * when there is no image entry for id (a null dereference in the client).
     */
    method SignalResourceRetrieved(rtype: Byte, id: U32, disk: map<seq<Byte>, Texture>) returns (found: bool)
      requires Valid()
      modifies this`resources, out, streams`resourceVerified
      ensures Valid()
      ensures found <==> id in old(resources)
      ensures !found ==> resources == old(resources) && out.messages == old(out.messages) &&
                         streams.resourceVerified == old(streams.resourceVerified)
      ensures found ==> streams.IsResourceChecksumVerified(rtype, id)
      ensures found ==> streams.resourceVerified == old(streams.resourceVerified)[ResPair(id, rtype) := true]
      ensures found ==>
                var reset := old(resources)[id].(loadState := NotLoaded);
                resources == old(resources)[id := if rtype == ResourceImage then AfterLoad(reset, images.GetImageRecord(id), disk) else reset] &&
                out.messages == old(out.messages) + (if rtype == ResourceImage then LoadMessages(reset, images.GetImageRecord(id), true) else [])
    {
      if id !in resources {
        return false;
      }
      ghost var before := resources;
      var reset := resources[id].(loadState := NotLoaded);
      CoherentUpdate(resources, id, reset);
      resources := resources[id := reset];
      streams.SetResourceChecksumVerified(rtype, id);
      if rtype == ResourceImage {
        LoadImageResource(id, disk);
        UpdateTwice(before, id, reset, resources[id]);
      }
      found := true;
    }

    /**
     * SignalResourceMetadataRetrieved: the same for the metadata; the
     * metadata checksum is marked verified and an image's metadata loaded
     * again without a verify. found as for SignalResourceRetrieved.
     */
    method SignalResourceMetadataRetrieved(rtype: Byte, id: U32) returns (found: bool)
      requires Valid()
      modifies this`resources, out, streams`metadataVerified
      ensures Valid()
      ensures found <==> id in old(resources)
      ensures !found ==> resources == old(resources) && out.messages == old(out.messages) &&
                         streams.metadataVerified == old(streams.metadataVerified)
      ensures found ==> streams.IsMetadataChecksumVerified(rtype, id)
      ensures found ==> streams.metadataVerified == old(streams.metadataVerified)[ResPair(id, rtype) := true]
      ensures found ==>
                var reset := old(resources)[id].(metaLoadState := NotLoaded);
                resources == old(resources)[id := if rtype == ResourceImage then AfterMetaLoad(reset, images.GetImageMetadataRecord(id)) else reset] &&
                out.messages == old(out.messages) + (if rtype == ResourceImage then MetaLoadMessages(reset, images.GetImageMetadataRecord(id), true) else [])
    {
      if id !in resources {
        return false;
      }
      ghost var before := resources;
      var reset := resources[id].(metaLoadState := NotLoaded);
      CoherentUpdate(resources, id, reset);
      resources := resources[id := reset];
      streams.SetMetadataChecksumVerified(rtype, id);
      if rtype == ResourceImage {
        LoadImageResourceMeta(id);
        UpdateTwice(before, id, reset, resources[id]);
      }
      found := true;
    }

    /** GetResourceFileChecksum: the stored checksum of an image, none for a missing record or another type. */
    function GetResourceFileChecksum(rtype: Byte, id: U32): (c: Option<seq<Byte>>)
      reads images
      ensures c.Some? <==> rtype == ResourceImage && id in images.imageRecords
    {
      if rtype == ResourceImage then
        match images.GetImageRecord(id)
        case None => None
        case Some(rec) => Some(rec.checksum)
      else None
    }

    /**
     * FinishResourceStream: the stream is closed (an image stored with the
     * checksum of its contents, so GetResourceFileChecksum now returns it)
     * and SignalResourceRetrieved follows. found is false where the client
     * dereferences a null stream or resource.
     */
    method FinishResourceStream(rtype: Byte, id: U32, crc: seq<Byte> -> seq<Byte>, now: U32, disk: map<seq<Byte>, Texture>)
        returns (found: bool)
      requires Valid()
      modifies this`resources, out, streams`streams, streams`resourceVerified, images`imageRecords
      ensures Valid()
      ensures found ==> ResPair(id, rtype) in old(streams.streams) && streams.streams == old(streams.streams) - {ResPair(id, rtype)}
      ensures found && rtype == ResourceImage ==>
                GetResourceFileChecksum(rtype, id) == Some(crc(old(streams.streams)[ResPair(id, rtype)].contents))
      ensures found ==> streams.IsResourceChecksumVerified(rtype, id)
      ensures ResPair(id, rtype) !in old(streams.streams) ==> !found && unchanged(this, out, streams, images)
    {
      found := streams.CloseResourceStream(rtype, id, crc, now, images);
      if !found {
        return;
      }
      found := SignalResourceRetrieved(rtype, id, disk);
    }
  }
}
