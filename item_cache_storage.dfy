/**
 * The client's cache of item descriptions the server sent, keyed by item
 * id. The database table behind it is persistence and stays out.
 */
module ItemCacheStorage {
  import opened Wrappers
  import opened Bytes

  /** A cached item; names and descriptions are kept as the UTF-8 bytes that arrived. */
  datatype ItemCacheEntry = ItemCacheEntry(id: U32, imageId: U32, name: seq<Byte>, description: seq<Byte>,
                                           stackSize: U32, rarity: U32, addedTimestamp: U32)

  class ItemCacheStorage {
    var itemCache: map<U32, ItemCacheEntry>

    constructor ()
      ensures itemCache == map[]
    {
      itemCache := map[];
    }

    /** AddItemCacheEntry: the entry for the id is replaced by the new one. */
    method AddItemCacheEntry(id: U32, imageId: U32, name: seq<Byte>, description: seq<Byte>,
                             stackSize: U32, rarity: U32, addedTimestamp: U32)
      modifies this
      ensures itemCache == old(itemCache)[id := ItemCacheEntry(id, imageId, name, description, stackSize, rarity, addedTimestamp)]
    {
      itemCache := itemCache[id := ItemCacheEntry(id, imageId, name, description, stackSize, rarity, addedTimestamp)];
    }

    function GetItemCacheEntry(id: U32): (r: Option<ItemCacheEntry>)
      reads this
      ensures r.Some? <==> id in itemCache
      ensures r.Some? ==> r.value == itemCache[id]
      ensures Keyed(itemCache) && r.Some? ==> r.value.id == id
    {
      if id in itemCache then Some(itemCache[id]) else None
    }
  }

  /** Every entry is stored under its own id, as AddItemCacheEntry stores it. */
  predicate Keyed(cache: map<U32, ItemCacheEntry>)
  {
    forall id :: id in cache ==> cache[id].id == id
  }

  /** Adding an entry keeps the table keyed by id, and the entry is found under its id with the fields given. */
  lemma AddKeepsKeyed(cache: map<U32, ItemCacheEntry>, e: ItemCacheEntry)
    requires Keyed(cache)
    ensures Keyed(cache[e.id := e])
    ensures e.id in cache[e.id := e] && cache[e.id := e][e.id] == e
  {
  }
}
