/**
 * The client's map: the header, the grid of fields, the chunk arithmetic
 * that names 40×40 blocks of fields, and the objects on the map, kept both
 * by GUID and in the visibility vector. The visibility vector is the
 * drawing order: objects further up the screen (smaller Y) come first, so
 * that nearer objects are drawn over them.
 */
module GameMap {
  import opened Wrappers
  import opened Bytes
  import opened MapTypes
  import opened ImageStorage
  import opened WorldObject

  // ---------------------------------------------------------------------
  // Chunk arithmetic (both axes use chunks of 40 fields)
  // ---------------------------------------------------------------------

  /** GetChunkIndexX / GetChunkIndexY: the chunk a coordinate lies in. */
  function ChunkIndex(start: U32): U32
  {
    start / ChunkSizeX
  }

  /** GetChunkStartX / GetChunkStartY: the first coordinate of a chunk, as a 32-bit product. */
  function ChunkStart(index: U32): U32
  {
    (index * ChunkSizeX) % 0x1_0000_0000
  }

  /** The largest chunk index whose start coordinate does not wrap. */
  const MaxChunkIndex: U32 := 0xFFFF_FFFF / 40

  /** A chunk's start coordinate lies in that chunk, unless the product wraps. */
  lemma ChunkStartIndex(i: U32)
    requires i <= MaxChunkIndex
    ensures ChunkStart(i) == i * 40
    ensures ChunkIndex(ChunkStart(i)) == i
  {
  }

  /** Every coordinate lies in the 40 fields from the start of its chunk. */
  lemma ChunkIndexStart(x: U32)
    ensures ChunkStart(ChunkIndex(x)) <= x < ChunkStart(ChunkIndex(x)) + 40
  {
  }

  /** Past the largest index the start coordinate wraps and names a different chunk. */
  lemma ChunkStartWraps()
    ensures ChunkStart(MaxChunkIndex + 1) == 24 && ChunkIndex(ChunkStart(MaxChunkIndex + 1)) == 0
  {
    assert MaxChunkIndex == 107_374_182;
    assert (MaxChunkIndex + 1) * ChunkSizeX == 0x1_0000_0000 + 24;
  }

  /** The rectangle of chunk indexes (inclusive) around a cell. */
  datatype Limits = Limits(beginX: U32, beginY: U32, endX: U32, endY: U32)

  /**
   * GetCellSorroundingLimits for a grid of `columns` columns whose first
   * column has `rows` fields: two cells either way, cut at index 0 and at
   * the chunk of the last field. The sum cell + 2 is a 32-bit sum; rows - 1
   * is a 32-bit difference. The source reads the first column, so the grid
   * must have one.
   */
  function SurroundingLimits(cellX: U32, cellY: U32, columns: nat, rows: nat): (l: Limits)
    requires 1 <= columns <= 0xFFFF_FFFF && rows <= 0xFFFF_FFFF
    ensures l.beginX == (if cellX > SurroundingCellsX then cellX - SurroundingCellsX else 0)
    ensures l.beginY == (if cellY > SurroundingCellsY then cellY - SurroundingCellsY else 0)
    ensures l.endX <= ChunkIndex(columns - 1) && l.endY <= ChunkIndex((rows - 1) % 0x1_0000_0000)
    ensures cellX + SurroundingCellsX < 0x1_0000_0000 ==>
              l.endX == Compatibility.NumMin(cellX + SurroundingCellsX, ChunkIndex(columns - 1))
  {
    var limitX := ChunkIndex(columns - 1);
    var limitY := ChunkIndex((rows - 1) % 0x1_0000_0000);
    var sumX := (cellX + SurroundingCellsX) % 0x1_0000_0000;
    var sumY := (cellY + SurroundingCellsY) % 0x1_0000_0000;
    Limits(
      if cellX > SurroundingCellsX then cellX - SurroundingCellsX else 0,
      if cellY > SurroundingCellsY then cellY - SurroundingCellsY else 0,
      if sumX < limitX then sumX else limitX,
      if sumY < limitY then sumY else limitY)
  }

  /**
   * Every chunk of the surrounding rectangle exists: its start lies inside
   * the grid in both directions (for a non-empty first column).
   */
  lemma SurroundingInGrid(cellX: U32, cellY: U32, columns: nat, rows: nat, ix: U32, iy: U32)
    requires 1 <= columns <= 0xFFFF_FFFF && 1 <= rows <= 0xFFFF_FFFF
    requires ix <= SurroundingLimits(cellX, cellY, columns, rows).endX
    requires iy <= SurroundingLimits(cellX, cellY, columns, rows).endY
    ensures ChunkStart(ix) < columns && ChunkStart(iy) < rows
  {
    ChunkStartIndex(ix);
    ChunkStartIndex(iy);
  }

  /** A cell inside the grid whose sum does not wrap lies inside its own rectangle. */
  lemma SurroundingContainsCell(cellX: U32, cellY: U32, columns: nat, rows: nat)
    requires 1 <= columns <= 0xFFFF_FFFF && 1 <= rows <= 0xFFFF_FFFF
    requires cellX <= ChunkIndex(columns - 1) && cellY <= ChunkIndex(rows - 1)
    ensures var l := SurroundingLimits(cellX, cellY, columns, rows);
            l.beginX <= cellX <= l.endX && l.beginY <= cellY <= l.endY
  {
  }

  // ---------------------------------------------------------------------
  // The field grid
  // ---------------------------------------------------------------------

  /** The field InitEmpty fills the grid with: the header's defaults. */
  function DefaultField(h: MapHeader): MapField
  {
    MapField(h.defaultFieldType, h.defaultFieldTexture, h.defaultFieldFlags)
  }

  /** A grid of columns×rows copies of one field, indexed [x][y]. */
  predicate IsGrid(g: seq<seq<MapField>>, columns: nat, rows: nat, f: MapField)
  {
    |g| == columns && forall x :: 0 <= x < columns ==> |g[x]| == rows && forall y :: 0 <= y < rows ==> g[x][y] == f
  }

  /** GetField's range test: the column exists and has the row. */
  predicate InGrid(g: seq<seq<MapField>>, x: U32, y: U32)
  {
    x < |g| && y < |g[x]|
  }

  // ---------------------------------------------------------------------
  // Visibility order
  // ---------------------------------------------------------------------

  /** The Y coordinates of a sequence of objects, in order. */
  function Depths(s: seq<WorldObject>): (ks: seq<int>)
    reads s`posY
    ensures |ks| == |s|
  {
    if s == [] then [] else [s[0].posY] + Depths(s[1..])
  }

  /** The key at i is the Y of the object at i. */
  lemma DepthAt(s: seq<WorldObject>, i: nat)
    requires i < |s|
    ensures Depths(s)[i] == s[i].posY
  {
    if i > 0 {
      DepthAt(s[1..], i - 1);
    }
  }

  lemma DepthsPointwise(s: seq<WorldObject>)
    ensures forall i :: 0 <= i < |s| ==> Depths(s)[i] == s[i].posY
  {
    forall i | 0 <= i < |s| {
      DepthAt(s, i);
    }
  }

  predicate Sorted(ks: seq<int>)
  {
    forall i, j :: 0 <= i < j < |ks| ==> ks[i] <= ks[j]
  }

  /** Sorted once the element at p is ignored. */
  predicate SortedExcept(ks: seq<int>, p: nat)
  {
    forall i, j :: 0 <= i < j < |ks| && i != p && j != p ==> ks[i] <= ks[j]
  }

  /** No key left of p is above the key at p. */
  predicate NoneAboveLeft(ks: seq<int>, p: nat)
    requires p < |ks|
  {
    forall i :: 0 <= i < p ==> ks[i] <= ks[p]
  }

  /** No key right of p is below the key at p. */
  predicate NoneBelowRight(ks: seq<int>, p: nat)
    requires p < |ks|
  {
    forall i :: p < i < |ks| ==> ks[i] >= ks[p]
  }

  predicate Distinct(s: seq<WorldObject>)
  {
    forall i, j :: 0 <= i < j < |s| ==> s[i] != s[j]
  }

  /** Every object's visibility index is its place in the vector. */
  predicate IndexesAgree(s: seq<WorldObject>)
    reads s`visibilityIndex
  {
    forall i :: 0 <= i < |s| ==> s[i].visibilityIndex == i
  }

  /** A sorted sequence with one key changed is sorted except at that key. */
  lemma ChangeOne(ks: seq<int>, p: nat, v: int)
    requires Sorted(ks) && p < |ks|
    ensures SortedExcept(ks[p := v], p)
  {
  }

  /** A sorted sequence with a key appended is sorted except at the new key. */
  lemma AppendOne(ks: seq<int>, v: int)
    requires Sorted(ks)
    ensures SortedExcept(ks + [v], |ks|)
  {
  }

  /** The sequence with the element at i cut out. */
  function Without<T>(s: seq<T>, i: nat): (t: seq<T>)
    requires i < |s|
    ensures |t| == |s| - 1
    ensures forall k :: 0 <= k < i ==> t[k] == s[k]
    ensures forall k :: i <= k < |t| ==> t[k] == s[k + 1]
  {
    s[..i] + s[i + 1..]
  }

  /** Removing a key keeps a sequence sorted. */
  lemma RemoveOne(ks: seq<int>, p: nat)
    requires Sorted(ks) && p < |ks|
    ensures Sorted(Without(ks, p))
  {
    var r := Without(ks, p);
    forall i, j | 0 <= i < j < |r|
      ensures r[i] <= r[j]
    {
      var i' := if i < p then i else i + 1;
      var j' := if j < p then j else j + 1;
      assert r[i] == ks[i'] && r[j] == ks[j'];
    }
  }

  /** When the key at p is below its right neighbour, every key left of p is below it too. */
  lemma TurnRight(ks: seq<int>, p: nat)
    requires SortedExcept(ks, p) && p + 1 < |ks| && ks[p + 1] < ks[p]
    ensures NoneAboveLeft(ks, p)
  {
    forall i | 0 <= i < p
      ensures ks[i] <= ks[p]
    {
      assert ks[i] <= ks[p + 1];
    }
  }

  /** When the key at p is not above its right neighbour, every key right of p is at least it. */
  lemma TurnLeft(ks: seq<int>, p: nat)
    requires SortedExcept(ks, p) && p < |ks| && (p == |ks| - 1 || ks[p + 1] >= ks[p])
    ensures NoneBelowRight(ks, p)
  {
    forall i | p < i < |ks|
      ensures ks[i] >= ks[p]
    {
      if i > p + 1 {
        assert ks[p + 1] <= ks[i];
      }
    }
  }

  /** The sequence with the neighbours at p and p + 1 exchanged. */
  function Swapped<T>(s: seq<T>, p: nat): (t: seq<T>)
    requires p + 1 < |s|
    ensures |t| == |s| && t[p] == s[p + 1] && t[p + 1] == s[p]
    ensures forall i :: 0 <= i < |s| && i != p && i != p + 1 ==> t[i] == s[i]
  {
    s[p := s[p + 1]][p + 1 := s[p]]
  }

  /** Two sequences of one length that agree once the element at i is cut out differ at most at i. */
  lemma WithoutAgree<T>(a: seq<T>, b: seq<T>, i: nat)
    requires |a| == |b| && i < |a| && Without(a, i) == Without(b, i)
    ensures a == b[i := a[i]]
  {
    forall k | 0 <= k < |a| && k != i
      ensures a[k] == b[k]
    {
      var k' := if k < i then k else k - 1;
      assert Without(a, i)[k'] == Without(b, i)[k'];
    }
  }

  /** Exchanging neighbours keeps the elements. */
  lemma SwappedMultiset<T>(s: seq<T>, p: nat)
    requires p + 1 < |s|
    ensures multiset(Swapped(s, p)) == multiset(s)
  {
    var t := s[p := s[p + 1]];
    assert multiset(t) == multiset(s) - multiset{s[p]} + multiset{s[p + 1]};
    assert multiset(t[p + 1 := s[p]]) == multiset(t) - multiset{s[p + 1]} + multiset{s[p]};
    assert Swapped(s, p) == t[p + 1 := s[p]];
  }

  /** Exchanging neighbouring objects exchanges their keys. */
  lemma SwappedDepths(s: seq<WorldObject>, p: nat)
    requires p + 1 < |s|
    ensures Depths(Swapped(s, p)) == Swapped(Depths(s), p)
  {
    DepthsPointwise(s);
    DepthsPointwise(Swapped(s, p));
  }

  /** The key at p moved one place right past a key not above it: the invariant of the rightward pass holds one place on. */
  lemma SwapRight(ks: seq<int>, p: nat)
    requires p + 1 < |ks| && SortedExcept(ks, p) && ks[p + 1] <= ks[p]
    requires NoneAboveLeft(ks, p)
    ensures var ks' := Swapped(ks, p);
            SortedExcept(ks', p + 1) && NoneAboveLeft(ks', p + 1)
  {
    var ks' := Swapped(ks, p);
    forall i, j | 0 <= i < j < |ks'| && i != p + 1 && j != p + 1
      ensures ks'[i] <= ks'[j]
    {
      var i' := if i == p then p + 1 else i;
      var j' := if j == p then p + 1 else j;
      assert ks'[i] == ks[i'] && ks'[j] == ks[j'];
    }
  }

  /** The key at p moved one place left past a key not below it: the invariant of the leftward pass holds one place on. */
  lemma SwapLeft(ks: seq<int>, q: nat)
    requires q + 1 < |ks| && SortedExcept(ks, q + 1) && ks[q] >= ks[q + 1]
    requires NoneBelowRight(ks, q + 1)
    ensures var ks' := Swapped(ks, q);
            SortedExcept(ks', q) && NoneBelowRight(ks', q)
  {
    var ks' := Swapped(ks, q);
    forall i, j | 0 <= i < j < |ks'| && i != q && j != q
      ensures ks'[i] <= ks'[j]
    {
      var i' := if i == q + 1 then q else i;
      var j' := if j == q + 1 then q else j;
      assert ks'[i] == ks[i'] && ks'[j] == ks[j'];
    }
  }

  /** The key at p is in its place when nothing left of it is above it and nothing right of it below it. */
  lemma Settled(ks: seq<int>, p: nat)
    requires p < |ks| && SortedExcept(ks, p)
    requires NoneAboveLeft(ks, p)
    requires NoneBelowRight(ks, p)
    ensures Sorted(ks)
  {
  }

  /** The mirror of TurnLeft: when the key at p is not below its left neighbour, every key left of p is at most it. */
  lemma LeftSide(ks: seq<int>, p: nat)
    requires SortedExcept(ks, p) && p < |ks| && (p == 0 || ks[p - 1] <= ks[p])
    ensures NoneAboveLeft(ks, p)
  {
    forall i | 0 <= i < p
      ensures ks[i] <= ks[p]
    {
      if i < p - 1 {
        assert ks[i] <= ks[p - 1];
      }
    }
  }

  /** Cutting the object at i out of a vector of distinct objects keeps every other object and drops that one. */
  lemma RemovedObjects(s: seq<WorldObject>, i: nat)
    requires i < |s| && Distinct(s)
    ensures forall o :: o in Without(s, i) <==> o in s && o != s[i]
  {
    var t := Without(s, i);
    forall o | o in s && o != s[i]
      ensures o in t
    {
      var j :| 0 <= j < |s| && s[j] == o;
      assert t[if j < i then j else j - 1] == o;
    }
  }

  /** Cutting an object out cuts its key out. */
  lemma DepthsWithout(s: seq<WorldObject>, i: nat)
    requires i < |s|
    ensures Depths(Without(s, i)) == Without(Depths(s), i)
  {
    DepthsPointwise(s);
    DepthsPointwise(Without(s, i));
  }

  /** Appending an object appends its key. */
  lemma DepthsAppend(s: seq<WorldObject>, o: WorldObject)
    ensures Depths(s + [o]) == Depths(s) + [o.posY]
  {
    DepthsPointwise(s);
    DepthsPointwise(s + [o]);
  }

  /** Objects whose Y is unchanged keep their keys. */
  twostate lemma DepthsKept(s: seq<WorldObject>)
    requires forall k :: 0 <= k < |s| ==> old(s[k].posY) == s[k].posY
    ensures Depths(s) == old(Depths(s))
  {
    if s != [] {
      DepthsKept(s[1..]);
    }
  }

  /** Agreeing indexes make the objects distinct. */
  lemma AgreeDistinct(s: seq<WorldObject>)
    requires IndexesAgree(s)
    ensures Distinct(s)
  {
  }

  /** Objects whose indexes agreed before a change of state are distinct. */
  twostate lemma AgreedDistinct(s: seq<WorldObject>)
    requires old(IndexesAgree(s))
    ensures Distinct(s)
  {
  }

  /** The values of the guid map are the objects of the vector, under one GUID each. */
  predicate SameObjects(m: map<U64, WorldObject>, s: seq<WorldObject>)
  {
    (forall g :: g in m ==> m[g] in s) &&
    (forall o :: o in s ==> exists g :: g in m && m[g] == o) &&
    (forall g, h :: g in m && h in m && g != h ==> m[g] != m[h])
  }

  lemma SameObjectsAdd(m: map<U64, WorldObject>, s: seq<WorldObject>, g: U64, o: WorldObject)
    requires SameObjects(m, s) && g !in m && o !in s
    ensures SameObjects(m[g := o], s + [o])
  {
    var m', s' := m[g := o], s + [o];
    forall x | x in s'
      ensures exists h :: h in m' && m'[h] == x
    {
      if x == o {
        assert m'[g] == x;
      } else {
        assert x in s;
        var h :| h in m && m[h] == x;
        assert m'[h] == x;
      }
    }
  }

  lemma SameObjectsPermuted(m: map<U64, WorldObject>, s: seq<WorldObject>, t: seq<WorldObject>)
    requires SameObjects(m, s) && multiset(s) == multiset(t)
    ensures SameObjects(m, t)
  {
    forall x | x in t
      ensures exists h :: h in m && m[h] == x
    {
      assert x in multiset(t);
      assert x in s;
    }
    forall h | h in m
      ensures m[h] in t
    {
      assert m[h] in multiset(s);
      assert m[h] in multiset(t);
    }
  }

  lemma SameObjectsRemoved(m: map<U64, WorldObject>, s: seq<WorldObject>, i: nat, g: U64)
    requires SameObjects(m, s) && Distinct(s) && i < |s| && g in m && m[g] == s[i]
    ensures SameObjects(m - {g}, Without(s, i))
  {
    var m', t := m - {g}, Without(s, i);
    RemovedObjects(s, i);
    forall x | x in t
      ensures exists h :: h in m' && m'[h] == x
    {
      var h :| h in m && m[h] == x;
      assert m'[h] == x;
    }
  }

  // ---------------------------------------------------------------------
  // The map object
  // ---------------------------------------------------------------------

  class Map {
    var header: MapHeader
    /** m_fields, indexed [x][y]. */
    var fields: seq<seq<MapField>>
    var objectGuidMap: map<U64, WorldObject>
    /** The visibility vector, drawn first to last. */
    var vis: seq<WorldObject>

    /**
     * The guid map and the visibility vector hold the same objects, each
     * once, and each object's visibility index is its place in the vector.
     */
    predicate Valid()
      reads this, vis`visibilityIndex
    {
      IndexesAgree(vis) && SameObjects(objectGuidMap, vis)
    }

    /** The constructor sets the map id to 0 and leaves the map empty; the rest of the header starts zeroed here. */
    constructor ()
      ensures header.mapId == 0 && fields == [] && objectGuidMap == map[] && vis == []
      ensures Valid()
    {
      header := MapHeader(0, 0, [], 0, 0, 0, 0, 0, 0, 0);
      fields := [];
      objectGuidMap := map[];
      vis := [];
    }

    /** What LoadFromFile stores once the file is read: its header and its grid, with the objects kept. */
    method Load(h: MapHeader, g: seq<seq<MapField>>)
      modifies this`header, this`fields
      ensures header == h && fields == g
    {
      header := h;
      fields := g;
    }

    method SetId(id: U32)
      modifies this`header
      ensures header == old(header).(mapId := id)
    {
      header := header.(mapId := id);
    }

    function GetId(): U32
      reads this
    {
      header.mapId
    }

    /**
     * InitEmpty: the header is copied with the version magic forced, and
     * the grid becomes sizeX columns of sizeY fields, each the header's
     * default field.
     */
    method InitEmpty(mh: MapHeader)
      modifies this`header, this`fields
      ensures header == mh.(versionMagic := MapVersionMagic)
      ensures IsGrid(fields, mh.sizeX, mh.sizeY, DefaultField(mh))
    {
      header := mh.(versionMagic := MapVersionMagic);
      var cell := DefaultField(header);
      var grid: seq<seq<MapField>> := [];
      var ix := 0;
      while ix < header.sizeX
        invariant ix <= header.sizeX && header == mh.(versionMagic := MapVersionMagic)
        invariant IsGrid(grid, ix, header.sizeY, cell)
      {
        var row: seq<MapField> := [];
        var iy := 0;
        while iy < header.sizeY
          invariant iy <= header.sizeY
          invariant |row| == iy && forall y :: 0 <= y < iy ==> row[y] == cell
        {
          row := row + [cell];
          iy := iy + 1;
        }
        grid := grid + [row];
        ix := ix + 1;
      }
      fields := grid;
    }

    /** SetFieldContents: a field outside the grid is refused and nothing changes; otherwise only that field is replaced. */
    method SetFieldContents(x: U32, y: U32, fieldType: U16, texture: U32, flags: U32)
      modifies this`fields
      ensures !InGrid(old(fields), x, y) ==> fields == old(fields)
      ensures InGrid(old(fields), x, y) ==>
                fields == old(fields)[x := old(fields)[x][y := MapField(fieldType, texture, flags)]]
    {
      if x >= |fields| || y >= |fields[x]| {
        return;
      }
      fields := fields[x := fields[x][y := MapField(fieldType, texture, flags)]];
    }

    /** GetField: no field outside the grid, else the field at (x, y). */
    function GetField(x: U32, y: U32): (r: Option<MapField>)
      reads this
      ensures r.None? <==> !InGrid(fields, x, y)
      ensures r.Some? ==> r.value == fields[x][y]
    {
      if x >= |fields| || y >= |fields[x]| then None else Some(fields[x][y])
    }

    /** GetWorldObject: the object with that GUID, or null. */
    function GetWorldObject(guid: U64): (r: WorldObject?)
      reads this
      ensures r == null <==> guid !in objectGuidMap
      ensures r != null ==> r == objectGuidMap[guid]
    {
      if guid in objectGuidMap then objectGuidMap[guid] else null
    }

    /**
     * AddWorldObject: an object whose GUID is already mapped is ignored.
     * Otherwise it is mapped under its GUID, appended to the visibility
     * vector and told its index, and moved to its place by Y. The
     * OnAddedToMap hook that follows is run by the caller when added says
     * so (OnAddedToMap below). An object already on the map is expected
     * under its own GUID, so that the check refuses it.
     */
    method AddWorldObject(obj: WorldObject) returns (added: bool)
      requires Valid() && obj.Valid() && (obj in vis ==> obj.GetGUID() in objectGuidMap)
      modifies this`objectGuidMap, this`vis, vis`visibilityIndex, obj`visibilityIndex
      ensures added <==> obj.GetGUID() !in old(objectGuidMap)
      ensures !added ==> objectGuidMap == old(objectGuidMap) && vis == old(vis)
      ensures added ==> objectGuidMap == old(objectGuidMap)[obj.GetGUID() := obj]
      ensures added ==> multiset(vis) == multiset(old(vis)) + multiset{obj}
      ensures added ==> (Sorted(old(Depths(vis))) ==> Sorted(Depths(vis)))
      ensures Valid()
    {
      var guid := obj.GetGUID();
      if guid in objectGuidMap {
        return false;
      }
      PushObject(guid, obj);
      ghost var appended := vis;
      CheckObjectVisibilityIndex(obj.visibilityIndex);
      SameObjectsPermuted(objectGuidMap, appended, vis);
      added := true;
    }

    /** The first half of AddWorldObject: the map entry, the push onto the vector and the object's index. */
    method PushObject(guid: U64, obj: WorldObject)
      requires Valid() && guid !in objectGuidMap && obj !in vis
      modifies this`objectGuidMap, this`vis, obj`visibilityIndex
      ensures objectGuidMap == old(objectGuidMap)[guid := obj] && vis == old(vis) + [obj]
      ensures obj.visibilityIndex == |vis| - 1 && Valid()
      ensures Sorted(old(Depths(vis))) ==> SortedExcept(Depths(vis), |vis| - 1)
    {
      label init:
      ghost var ks := Depths(vis);
      ghost var before := vis;
      SameObjectsAdd(objectGuidMap, vis, guid, obj);
      objectGuidMap := objectGuidMap[guid := obj];
      vis := vis + [obj];
      obj.visibilityIndex := |vis| - 1;
      DepthsKept@init(before);
      DepthsAppend(before, obj);
      if Sorted(ks) {
        AppendOne(ks, obj.posY);
      }
    }

    /**
     * RemoveWorldObject: a GUID that is not mapped changes nothing.
     * Otherwise its entry is erased and the object is cut out of the
     * visibility vector at its index; removed is the object, for the
     * caller to clear its hover mark.
     */
    method RemoveWorldObject(guid: U64) returns (removed: WorldObject?)
      requires Valid()
      modifies this`objectGuidMap, this`vis, vis`visibilityIndex
      ensures removed == old(GetWorldObject(guid))
      ensures removed == null ==> objectGuidMap == old(objectGuidMap) && vis == old(vis)
      ensures removed != null ==>
                objectGuidMap == old(objectGuidMap) - {guid} && removed !in vis &&
                removed.visibilityIndex < |old(vis)| && old(vis)[removed.visibilityIndex] == removed &&
                vis == Without(old(vis), removed.visibilityIndex)
      ensures removed != null ==> (Sorted(old(Depths(vis))) ==> Sorted(Depths(vis)))
      ensures Valid()
    {
      if guid !in objectGuidMap {
        return null;
      }
      removed := objectGuidMap[guid];
      var i := removed.visibilityIndex;
      assert vis[i] == removed by {
        var j :| 0 <= j < |vis| && vis[j] == removed;
      }
      assert SameObjects(objectGuidMap - {guid}, Without(vis, i)) by {
        AgreeDistinct(vis);
        SameObjectsRemoved(objectGuidMap, vis, i, guid);
      }
      ghost var ks := Depths(vis);
      if Sorted(ks) {
        RemoveOne(ks, i);
      }
      RemoveObjectFromVisibilityVector(i);
      objectGuidMap := objectGuidMap - {guid};
    }

    /**
     * CheckObjectVisibilityIndex: when the object at the index is below its
     * right neighbour it walks right, else when it is above its left
     * neighbour it walks left (the source's direction variable, which is
     * set once and then kept). The vector stays a permutation with its
     * indexes agreeing; when it was sorted by Y except at the index it
     * ends sorted, and when it was sorted it does not change.
     */
    method CheckObjectVisibilityIndex(index: nat)
      requires (|vis| <= 1 || index < |vis|) && IndexesAgree(vis)
      modifies this`vis, vis`visibilityIndex
      ensures multiset(vis) == multiset(old(vis)) && IndexesAgree(vis)
      ensures SortedExcept(old(Depths(vis)), index) ==> Sorted(Depths(vis))
      ensures Sorted(old(Depths(vis))) ==> vis == old(vis)
    {
      if |vis| <= 1 {
        return;
      }
      ghost var ordered := SortedExcept(Depths(vis), index);
      DepthAt(vis, index);
      if index != |vis| - 1 {
        DepthAt(vis, index + 1);
      }
      if index != 0 {
        DepthAt(vis, index - 1);
      }
      if index != |vis| - 1 && vis[index + 1].posY < vis[index].posY {
        if ordered {
          TurnRight(Depths(vis), index);
        }
        WalkRight(index);
        return;
      }
      if index != 0 && vis[index - 1].posY > vis[index].posY {
        if ordered {
          TurnLeft(Depths(vis), index);
        }
        WalkLeft(index);
        return;
      }
      if ordered {
        TurnLeft(Depths(vis), index);
        LeftSide(Depths(vis), index);
        Settled(Depths(vis), index);
      }
    }

    /** The rightward pass: swap with the right neighbour while it is not above the object. */
    method WalkRight(index: nat)
      requires index < |vis| && IndexesAgree(vis)
      modifies this`vis, vis`visibilityIndex
      ensures multiset(vis) == multiset(old(vis)) && IndexesAgree(vis)
      ensures SortedExcept(old(Depths(vis)), index) && NoneAboveLeft(old(Depths(vis)), index) ==>
                Sorted(Depths(vis))
    {
      ghost var ordered := SortedExcept(Depths(vis), index) && NoneAboveLeft(Depths(vis), index);
      var p: nat := index;
      while p != |vis| - 1 && vis[p + 1].posY <= vis[p].posY
        invariant p < |vis| == |old(vis)|
        invariant multiset(vis) == multiset(old(vis)) && IndexesAgree(vis)
        invariant ordered ==> SortedExcept(Depths(vis), p) && NoneAboveLeft(Depths(vis), p)
        decreases |vis| - p
      {
        assert vis[p] in multiset(vis) && vis[p + 1] in multiset(vis);
        StepRight(p, ordered);
        p := p + 1;
      }
      if ordered {
        DepthAt(vis, p);
        if p != |vis| - 1 {
          DepthAt(vis, p + 1);
        }
        TurnLeft(Depths(vis), p);
        Settled(Depths(vis), p);
      }
    }

    /** The leftward pass: swap with the left neighbour while it is not below the object. */
    method WalkLeft(index: nat)
      requires index < |vis| && IndexesAgree(vis)
      modifies this`vis, vis`visibilityIndex
      ensures multiset(vis) == multiset(old(vis)) && IndexesAgree(vis)
      ensures SortedExcept(old(Depths(vis)), index) && NoneBelowRight(old(Depths(vis)), index) ==>
                Sorted(Depths(vis))
    {
      ghost var ordered := SortedExcept(Depths(vis), index) && NoneBelowRight(Depths(vis), index);
      var p: nat := index;
      while p != 0 && vis[p - 1].posY >= vis[p].posY
        invariant p < |vis| == |old(vis)|
        invariant multiset(vis) == multiset(old(vis)) && IndexesAgree(vis)
        invariant ordered ==> SortedExcept(Depths(vis), p) && NoneBelowRight(Depths(vis), p)
        decreases p
      {
        assert vis[p - 1] in multiset(vis) && vis[p] in multiset(vis);
        StepLeft(p - 1, ordered);
        p := p - 1;
      }
      if ordered {
        DepthAt(vis, p);
        if p != 0 {
          DepthAt(vis, p - 1);
        }
        LeftSide(Depths(vis), p);
        Settled(Depths(vis), p);
      }
    }

    /** One step of the rightward pass: the swap, and the order it keeps when the pass started ordered. */
    method StepRight(p: nat, ghost ordered: bool)
      requires p + 1 < |vis| && IndexesAgree(vis) && vis[p + 1].posY <= vis[p].posY
      requires ordered ==> SortedExcept(Depths(vis), p) && NoneAboveLeft(Depths(vis), p)
      modifies this`vis, {vis[p], vis[p + 1]}`visibilityIndex
      ensures vis == Swapped(old(vis), p) && IndexesAgree(vis) && multiset(vis) == multiset(old(vis))
      ensures ordered ==> SortedExcept(Depths(vis), p + 1) && NoneAboveLeft(Depths(vis), p + 1)
    {
      ghost var ks := Depths(vis);
      if ordered {
        DepthAt(vis, p);
        DepthAt(vis, p + 1);
        SwapRight(ks, p);
      }
      SwapAt(p);
    }

    /** One step of the leftward pass, swapping q with q + 1. */
    method StepLeft(q: nat, ghost ordered: bool)
      requires q + 1 < |vis| && IndexesAgree(vis) && vis[q].posY >= vis[q + 1].posY
      requires ordered ==> SortedExcept(Depths(vis), q + 1) && NoneBelowRight(Depths(vis), q + 1)
      modifies this`vis, {vis[q], vis[q + 1]}`visibilityIndex
      ensures vis == Swapped(old(vis), q) && IndexesAgree(vis) && multiset(vis) == multiset(old(vis))
      ensures ordered ==> SortedExcept(Depths(vis), q) && NoneBelowRight(Depths(vis), q)
    {
      ghost var ks := Depths(vis);
      if ordered {
        DepthAt(vis, q);
        DepthAt(vis, q + 1);
        SwapLeft(ks, q);
      }
      SwapAt(q);
    }

    /** One swap of neighbours in the visibility vector, with both objects told their new places. */
    method SwapAt(p: nat)
      requires p + 1 < |vis| && IndexesAgree(vis)
      modifies this`vis, {vis[p], vis[p + 1]}`visibilityIndex
      ensures vis == Swapped(old(vis), p) && IndexesAgree(vis)
      ensures multiset(vis) == multiset(old(vis))
      ensures Depths(vis) == Swapped(old(Depths(vis)), p)
    {
      label init:
      SwappedMultiset(vis, p);
      ghost var before := vis;
      var a, b := vis[p], vis[p + 1];
      a.visibilityIndex := p + 1;
      b.visibilityIndex := p;
      vis := Swapped(vis, p);
      DepthsKept@init(before);
      SwappedDepths(before, p);
    }

    /**
     * RemoveObjectFromVisibilityVector: every object right of the index
     * moves one place left and is told its new place; the last slot is
     * cut. The object cut out keeps its index.
     */
    method RemoveObjectFromVisibilityVector(index: nat)
      requires index < |vis| && IndexesAgree(vis)
      modifies this`vis, vis`visibilityIndex
      ensures vis == Without(old(vis), index) && IndexesAgree(vis)
      ensures old(vis)[index].visibilityIndex == index && old(vis)[index] !in vis
      ensures Depths(vis) == Without(old(Depths(vis)), index)
    {
      ghost var before := vis;
      var i := index;
      while i < |vis| - 1
        invariant index <= i < |vis| == |before|
        invariant forall k :: 0 <= k < |vis| ==> vis[k] == before[if index <= k < i then k + 1 else k]
        invariant forall k :: 0 <= k < i ==> vis[k].visibilityIndex == k
        invariant before[index].visibilityIndex == index
      {
        vis := vis[i := vis[i + 1]];
        assert vis[i] == before[i + 1];
        vis[i].visibilityIndex := i;
        i := i + 1;
      }
      vis := vis[..|vis| - 1];
      assert vis == Without(before, index);
      AgreedDistinct(before);
      RemovedObjects(before, index);
      DepthsKept(before);
      DepthsWithout(before, index);
    }
  }

  /**
   * WorldObject::OnAddedToMap, its animation half: the idle animation.
   * The name query it also sends belongs to the gameplay state.
   */
  method OnAddedToMap(obj: WorldObject, meta: MetadataTable, now: U32)
    requires obj.Valid()
    modifies obj`animId, obj`animFrame, obj`animTimer
    ensures obj.Anim() == SetAnim(old(obj.Anim()), obj.TextureId(), meta, AnimIdle, now)
  {
    obj.SetAnimId(AnimIdle, meta, now);
  }

  /**
   * The half of SetPosition that stores the coordinates. For a vector s
   * whose indexes agree, the keys of s change at most at obj's index, so a
   * sorted s is left sorted except there.
   */
  method MoveTo(obj: WorldObject, x: int, y: int, ghost s: seq<WorldObject>)
    requires IndexesAgree(s)
    modifies obj`posX, obj`posY
    ensures obj.posX == x && obj.posY == y
    ensures Sorted(old(Depths(s))) ==> SortedExcept(Depths(s), obj.visibilityIndex)
  {
    label init:
    ghost var ks := Depths(s);
    ghost var i := obj.visibilityIndex;
    ghost var inside := obj in s;
    if inside {
      assert s[i] == obj by {
        var j :| 0 <= j < |s| && s[j] == obj;
      }
      DepthsWithout(s, i);
    }
    obj.posX := x;
    obj.posY := y;
    if inside && Sorted(ks) {
      DepthsKept@init(Without(s, i));
      DepthsWithout(s, i);
      DepthAt(s, i);
      WithoutAgree(Depths(s), ks, i);
      ChangeOne(ks, i, y);
    } else if !inside {
      DepthsKept@init(s);
    }
  }

  /**
   * WorldObject::SetPosition(x, y): the new coordinates, then, when there
   * is a current map, the visibility check at the object's index. The
   * index is whatever the object last stored, so the source's check is
   * only safe where it lies inside the vector; the model requires this.
   */
  method SetPosition(obj: WorldObject, m: Map?, x: int, y: int)
    requires m != null ==> IndexesAgree(m.vis) && (|m.vis| <= 1 || obj.visibilityIndex < |m.vis|)
    modifies obj`posX, obj`posY, (if m == null then {} else {m})`vis, (if m == null then [] else m.vis)`visibilityIndex
    ensures obj.posX == x && obj.posY == y
    ensures m != null ==> multiset(m.vis) == multiset(old(m.vis)) && IndexesAgree(m.vis)
    ensures m != null ==> (Sorted(old(Depths(m.vis))) ==> Sorted(Depths(m.vis)))
    ensures m != null && old(m.Valid()) ==> m.Valid() && m.objectGuidMap == old(m.objectGuidMap)
  {
    MoveTo(obj, x, y, if m == null then [] else m.vis);
    if m != null {
      ghost var before := m.vis;
      m.CheckObjectVisibilityIndex(obj.visibilityIndex);
      if old(m.Valid()) {
        SameObjectsPermuted(m.objectGuidMap, before, m.vis);
      }
    }
  }
}
