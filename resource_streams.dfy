/**
 * The resource stream manager: resources the server streams to the client
 * are collected in stream records keyed by (id, type), and two maps of
 * per-session flags remember which resource and metadata checksums the
 * server has already confirmed, so that they are not verified again.
 *
 * The file a stream writes is modelled by the bytes written to it; its
 * checksum (CRC32 of the file, formatted as a string) is the parameter
 * `crc`, an uninterpreted function of those bytes. The time a record is
 * stored with is the parameter `now`.
 */
module ResourceStreams {
  import opened Bytes
  import opened SmartPacket
  import opened Enums
  import opened Compatibility
  import ImageStorage
  import opened Outgoing

  /** MAX_CHECKSUM_VERIFY_ITEMS: the most resources one batch verify packet carries. */
  const MaxChecksumVerifyItems: nat := 50

  const Shift32: nat := 0x1_0000_0000

  /** MAKE_RES_PAIR: the id in the upper 32 bits of the key, the type in the lower. */
  function ResPair(id: U32, rtype: Byte): (k: U64)
    ensures k / Shift32 == id && k % Shift32 == rtype
  {
    id * Shift32 + rtype
  }

  /** Distinct (id, type) pairs have distinct keys. */
  lemma ResPairInjective(id1: U32, t1: Byte, id2: U32, t2: Byte)
    ensures ResPair(id1, t1) == ResPair(id2, t2) <==> id1 == id2 && t1 == t2
  {
  }

  /** An open stream: the file contents written so far, and the 32-bit position counter. */
  datatype StreamRecord = StreamRecord(rtype: Byte, id: U32, filename: seq<Byte>, contents: seq<Byte>, filePosition: U32)

  /** One entry of a batch verify request. */
  datatype ChecksumItem = ChecksumItem(rtype: Byte, id: U32, checksum: seq<Byte>)

  // ---------------------------------------------------------------------
  // Verify packets
  // ---------------------------------------------------------------------

  /** The fields with which a batch packet lists its resources: type, id and checksum of each. */
  function ItemFields(items: seq<ChecksumItem>): (fs: seq<Value>)
    ensures |fs| == 3 * |items|
  {
    if items == [] then []
    else [UInt8(items[0].rtype), UInt32(items[0].id), Str(items[0].checksum)] + ItemFields(items[1..])
  }

  lemma {:induction false} ItemFieldsAppend(items: seq<ChecksumItem>, x: ChecksumItem)
    ensures ItemFields(items + [x]) == ItemFields(items) + [UInt8(x.rtype), UInt32(x.id), Str(x.checksum)]
  {
    if items == [] {
      assert [x][1..] == [];
    } else {
      assert (items + [x])[1..] == items[1..] + [x];
      ItemFieldsAppend(items[1..], x);
    }
  }

  /** The i-th listed resource is fields 3i, 3i+1 and 3i+2 of the list. */
  lemma {:induction false} ItemFieldsAt(items: seq<ChecksumItem>, i: nat)
    requires i < |items|
    ensures ItemFields(items)[3 * i] == UInt8(items[i].rtype)
    ensures ItemFields(items)[3 * i + 1] == UInt32(items[i].id)
    ensures ItemFields(items)[3 * i + 2] == Str(items[i].checksum)
  {
    if i > 0 {
      ItemFieldsAt(items[1..], i - 1);
    }
  }

  /** The items of one batch packet; the count field is 16 bits wide. */
  type Batch = s: seq<ChecksumItem> | |s| < 0x1_0000

  lemma ConcatAssoc<T>(a: seq<T>, b: seq<T>, c: seq<T>)
    ensures a + (b + c) == (a + b) + c
  {
  }

  /** CP_RESOURCE_VERIFY_CHECKSUM listing items: a u16 count, then the items. */
  function BatchMessage(items: Batch): Message
  {
    Message(CpResourceVerifyChecksum, [UInt16(|items|)] + ItemFields(items))
  }

  function BatchMessages(bs: seq<Batch>): (ms: seq<Message>)
    ensures |ms| == |bs|
  {
    if bs == [] then [] else [BatchMessage(bs[0])] + BatchMessages(bs[1..])
  }

  /** The single-resource verify packet: a count of 1 and the one item. */
  lemma SingleVerifyIsBatch(rtype: Byte, id: U32, checksum: seq<Byte>)
    ensures BatchMessage([ChecksumItem(rtype, id, checksum)]) ==
            Message(CpResourceVerifyChecksum, [UInt16(1), UInt8(rtype), UInt32(id), Str(checksum)])
  {
    assert ItemFields([ChecksumItem(rtype, id, checksum)]) == [UInt8(rtype), UInt32(id), Str(checksum)];
  }

  function Flatten(bs: seq<Batch>): seq<ChecksumItem>
  {
    if bs == [] then [] else bs[0] + Flatten(bs[1..])
  }

  /**
   * The batches SendVerifyChecksumsPacket sends from loop index i with the
   * list iterator at k: each packet takes min(50, n - 1 - i) items at the
   * iterator, then the index moves past them and one more.
   */
  function BatchesAsWritten(list: seq<ChecksumItem>, i: nat, k: nat): (bs: seq<Batch>)
    requires k <= i <= |list|
    decreases |list| - i
  {
    if i == |list| then []
    else
      var cnt := NumMin(MaxChecksumVerifyItems, |list| - 1 - i);
      [list[k..k + cnt]] + BatchesAsWritten(list, i + cnt + 1, k + cnt)
  }

  /**
   * What the batches as written carry: the items in list order from the
   * iterator, one fewer per packet than the index advances, so the last as
   * many items as there are packets are never sent.
   */
  lemma {:induction false} BatchesAsWrittenSend(list: seq<ChecksumItem>, i: nat, k: nat)
    requires k <= i <= |list|
    ensures k + (|list| - i) - |BatchesAsWritten(list, i, k)| >= k
    ensures Flatten(BatchesAsWritten(list, i, k)) == list[k..k + (|list| - i) - |BatchesAsWritten(list, i, k)|]
    ensures i < |list| ==> |BatchesAsWritten(list, i, k)| >= 1
    decreases |list| - i
  {
    if i < |list| {
      var cnt := NumMin(MaxChecksumVerifyItems, |list| - 1 - i);
      BatchesAsWrittenSend(list, i + cnt + 1, k + cnt);
      var rest := BatchesAsWritten(list, i + cnt + 1, k + cnt);
      assert BatchesAsWritten(list, i, k)[1..] == rest;
      var f := (|list| - (i + cnt + 1)) - |rest|;
      assert list[k..k + cnt] + list[k + cnt..k + cnt + f] == list[k..k + cnt + f];
    }
  }

  /** Whatever the list, the last resource is never verified, and a lone resource goes out as an empty batch. */
  lemma BatchVerifyLosesTail(list: seq<ChecksumItem>)
    requires list != []
    ensures |Flatten(BatchesAsWritten(list, 0, 0))| < |list|
    ensures Flatten(BatchesAsWritten(list, 0, 0)) == list[..|Flatten(BatchesAsWritten(list, 0, 0))|]
    ensures |list| == 1 ==> BatchesAsWritten(list, 0, 0) == [[]]
  {
    BatchesAsWrittenSend(list, 0, 0);
    if |list| == 1 {
      assert BatchesAsWritten(list, 1, 0) == [];
    }
  }

  /** No packet as written lists more than 50 resources. */
  lemma {:induction false} BatchesAsWrittenBounded(list: seq<ChecksumItem>, i: nat, k: nat)
    requires k <= i <= |list|
    ensures forall j :: 0 <= j < |BatchesAsWritten(list, i, k)| ==> |BatchesAsWritten(list, i, k)[j]| <= MaxChecksumVerifyItems
    decreases |list| - i
  {
    if i < |list| {
      var cnt := NumMin(MaxChecksumVerifyItems, |list| - 1 - i);
      BatchesAsWrittenBounded(list, i + cnt + 1, k + cnt);
      assert BatchesAsWritten(list, i, k)[1..] == BatchesAsWritten(list, i + cnt + 1, k + cnt);
    }
  }

  /** The intended batching: consecutive chunks of at most 50 items covering the list. */
  function BatchesCorrected(list: seq<ChecksumItem>): (bs: seq<Batch>)
    decreases |list|
  {
    if list == [] then []
    else if |list| <= MaxChecksumVerifyItems then [list]
    else [list[..MaxChecksumVerifyItems]] + BatchesCorrected(list[MaxChecksumVerifyItems..])
  }

  /** Every resource of the list is sent, once and in order. */
  lemma {:induction false} BatchesCorrectedCover(list: seq<ChecksumItem>)
    ensures Flatten(BatchesCorrected(list)) == list
    decreases |list|
  {
    if |list| > MaxChecksumVerifyItems {
      var rest := list[MaxChecksumVerifyItems..];
      BatchesCorrectedCover(rest);
      assert BatchesCorrected(list)[1..] == BatchesCorrected(rest);
      assert list[..MaxChecksumVerifyItems] + rest == list;
    } else if list != [] {
      assert BatchesCorrected(list)[1..] == [];
    }
  }

  /** One turn of the as-written loop: the next packet, then the batches from the advanced index and iterator. */
  lemma AsWrittenStep(list: seq<ChecksumItem>, i: nat, k: nat)
    requires k <= i < |list|
    ensures var cnt := NumMin(MaxChecksumVerifyItems, |list| - 1 - i);
            k + cnt <= |list| &&
            BatchMessages(BatchesAsWritten(list, i, k)) ==
            [BatchMessage(list[k..k + cnt])] + BatchMessages(BatchesAsWritten(list, i + cnt + 1, k + cnt))
  {
    var cnt := NumMin(MaxChecksumVerifyItems, |list| - 1 - i);
    assert BatchesAsWritten(list, i, k)[1..] == BatchesAsWritten(list, i + cnt + 1, k + cnt);
  }

  /** One turn of the corrected loop: the next chunk of up to 50, then the batches of what follows it. */
  lemma CorrectedStep(list: seq<ChecksumItem>, i: nat)
    requires i < |list|
    ensures var cnt := NumMin(MaxChecksumVerifyItems, |list| - i);
            BatchMessages(BatchesCorrected(list[i..])) ==
            [BatchMessage(list[i..i + cnt])] + BatchMessages(BatchesCorrected(list[i + cnt..]))
  {
    var cnt := NumMin(MaxChecksumVerifyItems, |list| - i);
    if |list| - i <= MaxChecksumVerifyItems {
      assert list[i..i + cnt] == list[i..];
      assert list[i + cnt..] == [];
    } else {
      assert list[i..i + cnt] == list[i..][..MaxChecksumVerifyItems];
      assert list[i..][MaxChecksumVerifyItems..] == list[i + cnt..];
      assert BatchesCorrected(list[i..])[1..] == BatchesCorrected(list[i + cnt..]);
    }
  }

  /** Every corrected packet lists between 1 and 50 resources. */
  lemma {:induction false} BatchesCorrectedBounded(list: seq<ChecksumItem>)
    ensures forall j :: 0 <= j < |BatchesCorrected(list)| ==> 0 < |BatchesCorrected(list)[j]| <= MaxChecksumVerifyItems
    decreases |list|
  {
    if |list| > MaxChecksumVerifyItems {
      BatchesCorrectedBounded(list[MaxChecksumVerifyItems..]);
      assert BatchesCorrected(list)[1..] == BatchesCorrected(list[MaxChecksumVerifyItems..]);
    }
  }

  // ---------------------------------------------------------------------
  // The manager
  // ---------------------------------------------------------------------

  class ResourceStreamManager {
    var streams: map<U64, StreamRecord>
    var resourceVerified: map<U64, bool>
    var metadataVerified: map<U64, bool>

    /** Each record sits under its own key and its position counter is its length modulo 2^32. */
    ghost predicate Valid()
      reads this
    {
      forall key :: key in streams ==>
        key == ResPair(streams[key].id, streams[key].rtype) &&
        streams[key].filePosition == |streams[key].contents| % Shift32
    }

    constructor ()
      ensures Valid()
      ensures streams == map[] && resourceVerified == map[] && metadataVerified == map[]
      ensures forall t: Byte, i: U32 {:trigger IsResourceChecksumVerified(t, i)} :: !IsResourceChecksumVerified(t, i)
      ensures forall t: Byte, i: U32 {:trigger IsMetadataChecksumVerified(t, i)} :: !IsMetadataChecksumVerified(t, i)
    {
      streams := map[];
      resourceVerified := map[];
      metadataVerified := map[];
    }

    /** CreateResourceStream: a new empty stream at position 0 replaces any stream under the same key. */
    method CreateResourceStream(filename: seq<Byte>, rtype: Byte, id: U32)
      modifies this`streams
      ensures streams == old(streams)[ResPair(id, rtype) := StreamRecord(rtype, id, filename, [], 0)]
      ensures old(Valid()) ==> Valid()
    {
      streams := streams[ResPair(id, rtype) := StreamRecord(rtype, id, filename, [], 0)];
    }

    /**
     * WriteToResourceStream: the bytes are appended to the stream's file and
     * its position advances by their number, wrapping at 2^32. For a pair
     * with no stream the client dereferences a null record; found is false
     * and the model changes nothing.
     */
    method WriteToResourceStream(rtype: Byte, id: U32, bytes: seq<Byte>) returns (found: bool)
      requires |bytes| < 0x1_0000
      modifies this`streams
      ensures found <==> ResPair(id, rtype) in old(streams)
      ensures !found ==> streams == old(streams)
      ensures found ==>
                var r := old(streams)[ResPair(id, rtype)];
                streams == old(streams)[ResPair(id, rtype) :=
                  r.(contents := r.contents + bytes, filePosition := (r.filePosition + |bytes|) % Shift32)]
      ensures old(Valid()) ==> Valid()
    {
      var key := ResPair(id, rtype);
      if key !in streams {
        return false;
      }
      var r := streams[key];
      streams := streams[key := r.(contents := r.contents + bytes, filePosition := (r.filePosition + |bytes|) % Shift32)];
      found := true;
    }

    /**
     * FinishResourceStream up to the erase: an image is stored with the
     * checksum of its file and the current time, any other type is only
     * logged, and the stream record goes. found is false, and nothing
     * changes, for a pair with no stream (a null dereference in the client).
     */
    method CloseResourceStream(rtype: Byte, id: U32, crc: seq<Byte> -> seq<Byte>, now: U32, images: ImageStorage.ImageStorage)
        returns (found: bool)
      modifies this`streams, images`imageRecords
      ensures found <==> ResPair(id, rtype) in old(streams)
      ensures !found ==> streams == old(streams) && images.imageRecords == old(images.imageRecords)
      ensures found ==> streams == old(streams) - {ResPair(id, rtype)}
      ensures found && rtype == ResourceImage ==>
                var r := old(streams)[ResPair(id, rtype)];
                images.imageRecords == old(images.imageRecords)[id := ImageStorage.ImageRecord(id, r.filename, crc(r.contents), now)]
      ensures rtype != ResourceImage ==> images.imageRecords == old(images.imageRecords)
      ensures old(Valid()) ==> Valid()
    {
      var key := ResPair(id, rtype);
      if key !in streams {
        return false;
      }
      var r := streams[key];
      var checksum := crc(r.contents);
      if rtype == ResourceImage {
        images.InsertImageRecord(id, r.filename, checksum, now);
      }
      streams := streams - {key};
      found := true;
    }

    // -------------------------------------------------------------------
    // Verified flags
    // -------------------------------------------------------------------

    /** IsResourceChecksumVerified: an absent pair is not verified, a present one is its stored flag. */
    function IsResourceChecksumVerified(rtype: Byte, id: U32): bool
      reads this`resourceVerified
    {
      var key := ResPair(id, rtype);
      key in resourceVerified && resourceVerified[key]
    }

    /** IsMetadataChecksumVerified, the same over the metadata flags. */
    function IsMetadataChecksumVerified(rtype: Byte, id: U32): bool
      reads this`metadataVerified
    {
      var key := ResPair(id, rtype);
      key in metadataVerified && metadataVerified[key]
    }

    /** SetResourceChecksumVerified: that pair is verified from now on; every other pair and every metadata flag is as before. */
    method SetResourceChecksumVerified(rtype: Byte, id: U32)
      modifies this`resourceVerified
      ensures resourceVerified == old(resourceVerified)[ResPair(id, rtype) := true]
      ensures IsResourceChecksumVerified(rtype, id)
      ensures forall t: Byte, i: U32 {:trigger IsResourceChecksumVerified(t, i)} ::
                (t != rtype || i != id) ==> IsResourceChecksumVerified(t, i) == old(IsResourceChecksumVerified(t, i))
      ensures forall t: Byte, i: U32 {:trigger IsMetadataChecksumVerified(t, i)} ::
                IsMetadataChecksumVerified(t, i) == old(IsMetadataChecksumVerified(t, i))
    {
      resourceVerified := resourceVerified[ResPair(id, rtype) := true];
      forall t: Byte, i: U32 | t != rtype || i != id
        ensures IsResourceChecksumVerified(t, i) == old(IsResourceChecksumVerified(t, i))
      {
        ResPairInjective(i, t, id, rtype);
      }
    }

    /** SetMetadataChecksumVerified: that pair's metadata is verified; every other pair and every resource flag is as before. */
    method SetMetadataChecksumVerified(rtype: Byte, id: U32)
      modifies this`metadataVerified
      ensures metadataVerified == old(metadataVerified)[ResPair(id, rtype) := true]
      ensures IsMetadataChecksumVerified(rtype, id)
      ensures forall t: Byte, i: U32 {:trigger IsMetadataChecksumVerified(t, i)} ::
                (t != rtype || i != id) ==> IsMetadataChecksumVerified(t, i) == old(IsMetadataChecksumVerified(t, i))
      ensures forall t: Byte, i: U32 {:trigger IsResourceChecksumVerified(t, i)} ::
                IsResourceChecksumVerified(t, i) == old(IsResourceChecksumVerified(t, i))
    {
      metadataVerified := metadataVerified[ResPair(id, rtype) := true];
      forall t: Byte, i: U32 | t != rtype || i != id
        ensures IsMetadataChecksumVerified(t, i) == old(IsMetadataChecksumVerified(t, i))
      {
        ResPairInjective(i, t, id, rtype);
      }
    }

    // -------------------------------------------------------------------
    // Verify senders
    // -------------------------------------------------------------------

    /** SendVerifyChecksumPacket: nothing for a verified pair, else one single-item verify packet. */
    method SendVerifyChecksumPacket(rtype: Byte, id: U32, checksum: seq<Byte>, out: Outbox)
      modifies out
      ensures IsResourceChecksumVerified(rtype, id) ==> out.messages == old(out.messages)
      ensures !IsResourceChecksumVerified(rtype, id) ==>
                out.messages == old(out.messages) + [BatchMessage([ChecksumItem(rtype, id, checksum)])]
    {
      if IsResourceChecksumVerified(rtype, id) {
        return;
      }
      SingleVerifyIsBatch(rtype, id, checksum);
      out.Send(CpResourceVerifyChecksum, [UInt16(1), UInt8(rtype), UInt32(id), Str(checksum)]);
    }

    /**
     * SendVerifyChecksumsPacket as written: the packets of BatchesAsWritten,
     * which drop the tail of the list (BatchVerifyLosesTail). The list
     * length is cast to 16 bits in the client; the model takes lists that fit.
     */
    method SendVerifyChecksumsPacket(list: seq<ChecksumItem>, out: Outbox)
      requires |list| < 0x1_0000
      modifies out
      ensures out.messages == old(out.messages) + BatchMessages(BatchesAsWritten(list, 0, 0))
    {
      ghost var goal := old(out.messages) + BatchMessages(BatchesAsWritten(list, 0, 0));
      var i: nat := 0;
      var k: nat := 0;
      while i < |list|
        invariant k <= i <= |list|
        invariant goal == out.messages + BatchMessages(BatchesAsWritten(list, i, k))
        decreases |list| - i
      {
        var cnt := NumMin(MaxChecksumVerifyItems, |list| - 1 - i);
        AsWrittenStep(list, i, k);
        ghost var b: Batch := list[k..k + cnt];
        ghost var rest := BatchMessages(BatchesAsWritten(list, i + cnt + 1, k + cnt));
        ghost var prev := out.messages;
        assert goal == prev + ([BatchMessage(b)] + rest);
        var fields := ListItems(list, k, cnt);
        out.Send(CpResourceVerifyChecksum, [UInt16(cnt)] + fields);
        assert out.messages == prev + [BatchMessage(b)];
        ConcatAssoc(prev, [BatchMessage(b)], rest);
        k := k + cnt;
        i := i + cnt + 1;
      }
    }

    /** The inner loop of the batch sender: cnt items from the iterator at k, as packet fields. */
    static method ListItems(list: seq<ChecksumItem>, k: nat, cnt: nat) returns (fields: seq<Value>)
      requires k + cnt <= |list|
      ensures fields == ItemFields(list[k..k + cnt])
    {
      fields := [];
      var j := 0;
      while j < cnt
        invariant 0 <= j <= cnt
        invariant fields == ItemFields(list[k..k + j])
      {
        assert list[k..k + j + 1] == list[k..k + j] + [list[k + j]];
        ItemFieldsAppend(list[k..k + j], list[k + j]);
        fields := fields + [UInt8(list[k + j].rtype), UInt32(list[k + j].id), Str(list[k + j].checksum)];
        j := j + 1;
      }
    }

    /** The batch sender with the intended batching: every resource of the list is verified (BatchesCorrectedCover). */
    method SendVerifyChecksumsPacketCorrected(list: seq<ChecksumItem>, out: Outbox)
      modifies out
      ensures out.messages == old(out.messages) + BatchMessages(BatchesCorrected(list))
    {
      ghost var goal := old(out.messages) + BatchMessages(BatchesCorrected(list));
      var i := 0;
      while i < |list|
        invariant 0 <= i <= |list|
        invariant goal == out.messages + BatchMessages(BatchesCorrected(list[i..]))
        decreases |list| - i
      {
        var cnt := NumMin(MaxChecksumVerifyItems, |list| - i);
        var part: Batch := list[i..i + cnt];
        CorrectedStep(list, i);
        ghost var rest := BatchMessages(BatchesCorrected(list[i + cnt..]));
        ghost var prev := out.messages;
        assert goal == prev + ([BatchMessage(part)] + rest);
        out.Send(CpResourceVerifyChecksum, [UInt16(cnt)] + ItemFields(part));
        assert out.messages == prev + [BatchMessage(part)];
        ConcatAssoc(prev, [BatchMessage(part)], rest);
        i := i + cnt;
      }
    }

    /** SendVerifyMetadataChecksumPacket: nothing for a verified pair or a non-image type, else CP_VERIFY_IMAGE_METADATA_CHECKSUM with id and checksum. */
    method SendVerifyMetadataChecksumPacket(rtype: Byte, id: U32, checksum: seq<Byte>, out: Outbox)
      modifies out
      ensures IsMetadataChecksumVerified(rtype, id) || rtype != ResourceImage ==> out.messages == old(out.messages)
      ensures !IsMetadataChecksumVerified(rtype, id) && rtype == ResourceImage ==>
                out.messages == old(out.messages) + [Message(CpVerifyImageMetadataChecksum, [UInt32(id), Str(checksum)])]
    {
      if IsMetadataChecksumVerified(rtype, id) {
        return;
      }
      if rtype == ResourceImage {
        out.Send(CpVerifyImageMetadataChecksum, [UInt32(id), Str(checksum)]);
      }
    }
  }
}
