// The 64-bit object GUID layout and the object type encoded in its high part.
//
// bits 58..63  high GUID (object kind)
// bits 32..57  entry (26 bits)
// bits  0..31  low GUID
module ObjectEnums {
  import opened Bytes

  const HighGuidPlayer: bv32 := 0
  const HighGuidCreature: bv32 := 1
  const HighGuidGameobject: bv32 := 2

  datatype ObjectType = TypePlayer | TypeCreature | TypeGameobject | MaxObjectType

  /** MAKE_GUID64: the high part is shifted to bit 58 (its bits above the
      sixth fall off), the entry is cut to 26 bits. */
  function MakeGuid(hi: bv32, en: bv32, lo: bv32): bv64
  {
    ((hi as bv64) << 58) | (((en as bv64) & 0x3FF_FFFF) << 32) | ((lo as bv64) & 0xFFFF_FFFF)
  }

  /** EXTRACT_GUIDLOW */
  function GuidLow(g: bv64): bv32
  {
    (g & 0xFFFF_FFFF) as bv32
  }

  /** EXTRACT_GUIDHIGH */
  function GuidHigh(g: bv64): (h: bv32)
    ensures h < 64
  {
    (g >> 58) as bv32
  }

  /** EXTRACT_ENTRY: note the 30-bit mask, wider than the 26 bits MakeGuid
      stores. */
  function GuidEntry(g: bv64): bv32
  {
    ((g >> 32) & 0x3FFF_FFFF) as bv32
  }

  /** Players and creatures are units. */
  predicate IsUnit(t: ObjectType)
  {
    t == TypePlayer || t == TypeCreature
  }

  /** _getTypeFromHighGUID */
  function TypeFromHighGuid(h: bv32): (t: ObjectType)
    ensures t == TypePlayer <==> h == HighGuidPlayer
    ensures t == TypeCreature <==> h == HighGuidCreature
    ensures t == TypeGameobject <==> h == HighGuidGameobject
    ensures t == MaxObjectType <==> h > 2
  {
    if h == HighGuidPlayer then TypePlayer
    else if h == HighGuidCreature then TypeCreature
    else if h == HighGuidGameobject then TypeGameobject
    else MaxObjectType
  }

  /** The object type a 64-bit GUID carries, as the gameplay layer derives it
      when creating a foreign object. */
  function TypeOfGuid(g: U64): ObjectType
  {
    TypeFromHighGuid(GuidHigh(g as bv64))
  }

  lemma LowRoundTrip(hi: bv32, en: bv32, lo: bv32)
    ensures GuidLow(MakeGuid(hi, en, lo)) == lo
  {
  }

  lemma HighRoundTrip(hi: bv32, en: bv32, lo: bv32)
    ensures GuidHigh(MakeGuid(hi, en, lo)) == hi & 0x3F
    ensures hi < 64 ==> GuidHigh(MakeGuid(hi, en, lo)) == hi
  {
  }

  /** The entry read back carries the low four bits of the high part above
      the 26 stored entry bits, so it round-trips only when those are zero. */
  lemma EntryReadsHighBits(hi: bv32, en: bv32, lo: bv32)
    ensures GuidEntry(MakeGuid(hi, en, lo)) == (en & 0x3FF_FFFF) | ((hi & 0xF) << 26)
    ensures (en < 0x400_0000 && hi & 0xF == 0) ==> GuidEntry(MakeGuid(hi, en, lo)) == en
  {
  }

  /** A concrete case of the mismatch: a creature GUID reads back entry 5
      with bit 26 set. */
  lemma CreatureEntryMismatch()
    ensures GuidEntry(MakeGuid(HighGuidCreature, 5, 7)) == 5 | (1 << 26)
    ensures GuidEntry(MakeGuid(HighGuidCreature, 5, 7)) != 5
  {
    EntryReadsHighBits(HighGuidCreature, 5, 7);
  }

  /** The entry extraction with the 26-bit mask that MakeGuid uses. */
  function GuidEntryMasked(g: bv64): bv32
  {
    ((g >> 32) & 0x3FF_FFFF) as bv32
  }

  lemma EntryMaskedRoundTrip(hi: bv32, en: bv32, lo: bv32)
    ensures GuidEntryMasked(MakeGuid(hi, en, lo)) == en & 0x3FF_FFFF
    ensures en < 0x400_0000 ==> GuidEntryMasked(MakeGuid(hi, en, lo)) == en
  {
  }

  lemma TypeRoundTrip(hi: bv32, en: bv32, lo: bv32)
    requires hi <= 2
    ensures TypeFromHighGuid(GuidHigh(MakeGuid(hi, en, lo))) ==
            (if hi == 0 then TypePlayer else if hi == 1 then TypeCreature else TypeGameobject)
  {
    HighRoundTrip(hi, en, lo);
  }
}
