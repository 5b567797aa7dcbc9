/**
 * The wire codec: a packet is an opcode, a declared payload size, a growable
 * byte buffer and two cursors. Integers travel in network byte order,
 * strings are NUL-terminated, and every read is bounds-checked against the
 * declared size and fails with (cursor, size).
 */
module SmartPacket {
  import opened Wrappers
  import opened Bytes

  /** Bytes of the header that precedes every payload on the wire: opcode and size, 16 bits each. */
  const HeaderSize: nat := 4

  /** What a failed read throws: the cursor before the read, and a size whose meaning depends on the reader. */
  datatype ReadError = PacketReadException(position: int, attemptSize: int)

  /** The packet as its readers see it: contents, declared payload size and read cursor. */
  datatype Cursor = Cursor(data: seq<Byte>, size: U16, pos: U16)
  {
    /** The contents cover the declared size, so a read admitted by the size check stays inside the buffer. */
    predicate Wf() { size <= |data| }
  }

  /** A value that was read, and the cursor after it. */
  datatype Got<T> = Got(value: T, rest: Cursor)

  type Read<T> = Result<Got<T>, ReadError>

  /** The reads a packet offers, one per reader of the class. */
  datatype Kind = KUInt8 | KInt8 | KUInt16 | KInt16 | KUInt32 | KInt32 | KUInt64 | KInt64 | KFloat | KString

  /** A typed value as written into or read from a packet; a float travels as its 32-bit pattern. */
  datatype Value =
    | UInt8(u8: Byte) | Int8(i8: I8)
    | UInt16(u16: U16) | Int16(i16: I16)
    | UInt32(u32: U32) | Int32(i32: I32)
    | UInt64(u64: U64) | Int64(i64: I64)
    | Float(bits: U32)
    | Str(chars: seq<Byte>)

  /** An outgoing packet before serialisation: its opcode and the values written into it in order. */
  datatype Message = Message(opcode: U16, fields: seq<Value>)

  // ---------------------------------------------------------------------
  // Byte-sequence helpers for the buffer updates of the write path
  // ---------------------------------------------------------------------

  function Zeros(n: nat): (r: seq<Byte>)
    ensures |r| == n && forall k :: 0 <= k < n ==> r[k] == 0
  {
    seq(n, _ => 0)
  }

  /** std::vector::resize: truncate, or pad with zero bytes. */
  function Resize(s: seq<Byte>, n: nat): (r: seq<Byte>)
    ensures |r| == n
    ensures forall k :: 0 <= k < n ==> r[k] == (if k < |s| then s[k] else 0)
  {
    if n <= |s| then s[..n] else s + Zeros(n - |s|)
  }

  /** memcpy of b into s at pos. */
  function Overwrite(s: seq<Byte>, pos: nat, b: seq<Byte>): (r: seq<Byte>)
    requires pos + |b| <= |s|
    ensures |r| == |s|
    ensures r[pos..pos + |b|] == b
    ensures forall k :: 0 <= k < |s| && !(pos <= k < pos + |b|) ==> r[k] == s[k]
  {
    s[..pos] + b + s[pos + |b|..]
  }

  /** Writing b at pos of a buffer grown past it leaves the first pos bytes followed by b. */
  lemma OverwriteExtends(s: seq<Byte>, pos: nat, b: seq<Byte>)
    requires pos <= |s|
    ensures Overwrite(Resize(s, pos + 1 + |b|), pos, b)[..pos + |b|] == s[..pos] + b
  {
    var r := Overwrite(Resize(s, pos + 1 + |b|), pos, b);
    assert r[..pos + |b|] == r[..pos] + r[pos..pos + |b|];
  }

  // ---------------------------------------------------------------------
  // Readers, as functions of the cursor
  // ---------------------------------------------------------------------

  /** _Read: the w bytes at the cursor, or (cursor, size) when they reach past the declared size. */
  function TakeBytes(c: Cursor, w: nat): (r: Read<seq<Byte>>)
    requires c.Wf()
    ensures r.Ok? <==> c.pos + w <= c.size
    ensures r.Err? ==> r.error == PacketReadException(c.pos, c.size)
    ensures r.Ok? ==> r.value.value == c.data[c.pos..c.pos + w] && r.value.rest.data == c.data
    ensures r.Ok? ==> r.value.rest.size == c.size && r.value.rest.pos == c.pos + w
  {
    if c.pos + w > c.size then Err(PacketReadException(c.pos, c.size))
    else Ok(Got(c.data[c.pos..c.pos + w], c.(pos := c.pos + w)))
  }

  /** A fixed-width read of w bytes: it succeeds iff the bytes lie inside the
      declared size, then moves the cursor by w; otherwise it reports
      (cursor, size). */
  predicate Consumed<T>(c: Cursor, r: Read<T>, w: nat)
  {
    && (r.Ok? <==> c.pos + w <= c.size)
    && (r.Err? ==> r.error == PacketReadException(c.pos, c.size))
    && (r.Ok? ==> c.pos + w <= c.size && r.value.rest == c.(pos := c.pos + w))
  }

  /** The number whose big-endian bytes are the w bytes of data at pos. */
  function UnsignedAt(data: seq<Byte>, pos: nat, w: nat): (v: nat)
    requires pos + w <= |data|
    ensures v < Pow256(w)
  {
    if w == 0 then 0
    else
      var high := UnsignedAt(data, pos, w - 1);
      assert high * 256 <= (Pow256(w - 1) - 1) * 256;
      high * 256 + data[pos + w - 1]
  }

  /** UnsignedAt is DecodeBE applied to the slice. */
  lemma {:induction false} UnsignedAtSlice(data: seq<Byte>, pos: nat, w: nat)
    requires pos + w <= |data|
    ensures UnsignedAt(data, pos, w) == DecodeBE(data[pos..pos + w])
  {
    if w > 0 {
      UnsignedAtSlice(data, pos, w - 1);
      var s := data[pos..pos + w];
      assert s[..|s| - 1] == data[pos..pos + w - 1];
    }
  }

  /** An unsigned reader of width w: ntoh applied to the bytes at the cursor. */
  function DecodeUnsigned(c: Cursor, w: nat): (r: Read<nat>)
    requires c.Wf()
    ensures Consumed(c, r, w)
    ensures r.Ok? ==> r.value.value == UnsignedAt(c.data, c.pos, w)
  {
    if c.pos + w > c.size then Err(PacketReadException(c.pos, c.size))
    else Ok(Got(UnsignedAt(c.data, c.pos, w), c.(pos := c.pos + w)))
  }

  function DecodeUInt8(c: Cursor): (r: Read<Byte>)
    requires c.Wf()
    ensures Consumed(c, r, 1)
    ensures r.Ok? ==> r.value.value == c.data[c.pos]
  {
    Pow256Widths();
    var g :- DecodeUnsigned(c, 1);
    Ok(Got(g.value, g.rest))
  }

  function DecodeInt8(c: Cursor): (r: Read<I8>)
    requires c.Wf()
    ensures Consumed(c, r, 1)
    ensures r.Ok? ==> r.value.value == ToSigned(UnsignedAt(c.data, c.pos, 1), 1)
  {
    Pow256Widths();
    var g :- DecodeUnsigned(c, 1);
    Ok(Got(ToSigned(g.value, 1), g.rest))
  }

  function DecodeUInt16(c: Cursor): (r: Read<U16>)
    requires c.Wf()
    ensures Consumed(c, r, 2)
    ensures r.Ok? ==> r.value.value == UnsignedAt(c.data, c.pos, 2)
  {
    Pow256Widths();
    var g :- DecodeUnsigned(c, 2);
    Ok(Got(g.value, g.rest))
  }

  function DecodeInt16(c: Cursor): (r: Read<I16>)
    requires c.Wf()
    ensures Consumed(c, r, 2)
    ensures r.Ok? ==> r.value.value == ToSigned(UnsignedAt(c.data, c.pos, 2), 2)
  {
    Pow256Widths();
    var g :- DecodeUnsigned(c, 2);
    Ok(Got(ToSigned(g.value, 2), g.rest))
  }

  function DecodeUInt32(c: Cursor): (r: Read<U32>)
    requires c.Wf()
    ensures Consumed(c, r, 4)
    ensures r.Ok? ==> r.value.value == UnsignedAt(c.data, c.pos, 4)
  {
    Pow256Widths();
    var g :- DecodeUnsigned(c, 4);
    Ok(Got(g.value, g.rest))
  }

  function DecodeInt32(c: Cursor): (r: Read<I32>)
    requires c.Wf()
    ensures Consumed(c, r, 4)
    ensures r.Ok? ==> r.value.value == ToSigned(UnsignedAt(c.data, c.pos, 4), 4)
  {
    Pow256Widths();
    var g :- DecodeUnsigned(c, 4);
    Ok(Got(ToSigned(g.value, 4), g.rest))
  }

  function DecodeUInt64(c: Cursor): (r: Read<U64>)
    requires c.Wf()
    ensures Consumed(c, r, 8)
    ensures r.Ok? ==> r.value.value == UnsignedAt(c.data, c.pos, 8)
  {
    Pow256Widths();
    var g :- DecodeUnsigned(c, 8);
    Ok(Got(g.value, g.rest))
  }

  function DecodeInt64(c: Cursor): (r: Read<I64>)
    requires c.Wf()
    ensures Consumed(c, r, 8)
    ensures r.Ok? ==> r.value.value == ToSigned(UnsignedAt(c.data, c.pos, 8), 8)
  {
    Pow256Widths();
    var g :- DecodeUnsigned(c, 8);
    Ok(Got(ToSigned(g.value, 8), g.rest))
  }

  /** ReadFloat: the 32-bit pattern of the float. */
  function DecodeFloat(c: Cursor): (r: Read<U32>)
    requires c.Wf()
    ensures Consumed(c, r, 4)
    ensures r.Ok? ==> r.value.value == UnsignedAt(c.data, c.pos, 4)
  {
    DecodeUInt32(c)
  }

  /** The index the string scan stops at: the first NUL in [from, size), or size when there is none. */
  function FirstNul(data: seq<Byte>, from: nat, size: nat): (i: nat)
    requires from <= size <= |data|
    ensures from <= i <= size
    ensures i < size ==> data[i] == 0
    decreases size - from
  {
    if from == size then size
    else if data[from] == 0 then from
    else FirstNul(data, from + 1, size)
  }

  /** The scan passes over non-NUL bytes only. */
  lemma {:induction false} FirstNulSkips(data: seq<Byte>, from: nat, size: nat)
    requires from <= size <= |data|
    ensures forall k :: from <= k < FirstNul(data, from, size) ==> data[k] != 0
    decreases size - from
  {
    if from < size && data[from] != 0 {
      FirstNulSkips(data, from + 1, size);
    }
  }

  /**
   * ReadString as written: after a scan that finds no NUL it inspects the byte
   * at index size itself. On a packet built by the writers that byte is the
   * zero padding every write leaves, so the read succeeds; on a received
   * packet the buffer ends at size, which this model reads as "not NUL".
   */
  function ReadStringAsWritten(c: Cursor): (r: Read<seq<Byte>>)
    requires c.Wf()
    ensures c.pos >= c.size ==> r == Err(PacketReadException(c.pos, 1))
    ensures r.Ok? ==> r.value.rest.data == c.data && r.value.rest.size == c.size
    ensures r.Ok? ==> forall k :: 0 <= k < |r.value.value| ==> r.value.value[k] != 0
    ensures r.Ok? ==> c.pos + |r.value.value| < |c.data| && c.data[c.pos + |r.value.value|] == 0 &&
                      r.value.value == c.data[c.pos..c.pos + |r.value.value|] &&
                      r.value.rest.pos == (c.pos + |r.value.value| + 1) % 0x1_0000
    ensures c.pos < c.size && r.Err? ==> r.error == PacketReadException(c.pos, c.size - c.pos + 1)
  {
    if c.pos >= c.size then Err(PacketReadException(c.pos, 1))
    else
      var i := FirstNul(c.data, c.pos, c.size);
      FirstNulSkips(c.data, c.pos, c.size);
      if i < |c.data| && c.data[i] == 0 then
        Ok(Got(c.data[c.pos..i], c.(pos := (i + 1) % 0x1_0000)))
      else
        Err(PacketReadException(c.pos, c.size - c.pos + 1))
  }

  /**
   * ReadString as intended: the bytes up to the first NUL inside the declared
   * size, with the cursor just past the NUL; (cursor, 1) when the cursor is at
   * or past the end, and (cursor, size - cursor + 1) when no NUL is found.
   */
  function DecodeString(c: Cursor): (r: Read<seq<Byte>>)
    requires c.Wf()
    ensures c.pos >= c.size ==> r == Err(PacketReadException(c.pos, 1))
    ensures c.pos < c.size && r.Err? ==> r.error == PacketReadException(c.pos, c.size - c.pos + 1)
    ensures r.Ok? ==> c.pos + |r.value.value| < c.size && r.value.rest == c.(pos := c.pos + |r.value.value| + 1)
    ensures r.Ok? ==> c.pos + |r.value.value| < c.size && r.value.value == c.data[c.pos..c.pos + |r.value.value|]
    ensures r.Ok? ==> c.pos + |r.value.value| < c.size && c.data[c.pos + |r.value.value|] == 0
  {
    if c.pos >= c.size then Err(PacketReadException(c.pos, 1))
    else
      var i := FirstNul(c.data, c.pos, c.size);
      if i < c.size then Ok(Got(c.data[c.pos..i], c.(pos := i + 1)))
      else Err(PacketReadException(c.pos, c.size - c.pos + 1))
  }

  /** The string read stops at the first NUL: it contains none, and the read
      succeeds exactly when a NUL lies between the cursor and the size. */
  lemma DecodeStringStopsAtNul(c: Cursor)
    requires c.Wf()
    ensures var r := DecodeString(c);
      r.Ok? ==> forall k :: 0 <= k < |r.value.value| ==> r.value.value[k] != 0
    ensures c.pos < c.size ==> (DecodeString(c).Ok? <==> exists k :: c.pos <= k < c.size && c.data[k] == 0)
  {
    if c.pos < c.size {
      FirstNulSkips(c.data, c.pos, c.size);
    }
  }

  /** On a received packet, whose buffer is exactly its declared size, the two string readers agree. */
  lemma ReceivedStringReadsAgree(c: Cursor)
    requires c.Wf() && |c.data| == c.size
    ensures ReadStringAsWritten(c) == DecodeString(c)
  {
  }

  /**
   * Whenever a NUL lies between the cursor and the size, on a received or a
   * locally built packet alike, the string read as written is the intended
   * one: the scan stops there, and the cursor past the NUL stays below 2^16.
   */
  lemma NulInsideReadsAgree(c: Cursor)
    requires c.Wf() && (c.pos < c.size ==> FirstNul(c.data, c.pos, c.size) < c.size)
    ensures ReadStringAsWritten(c) == DecodeString(c)
  {
    if c.pos < c.size {
      var i := FirstNul(c.data, c.pos, c.size);
      assert i + 1 < 0x1_0000;
      assert (i + 1) % 0x1_0000 == i + 1;
    }
  }

  /**
   * As written, an unterminated string at the end of a locally built packet is
   * accepted, and the cursor is left one past the declared size.
   */
  lemma UnterminatedStringAccepted(c: Cursor)
    requires c.Wf() && c.pos < c.size < |c.data| && c.data[c.size] == 0 && c.size < 0xFFFF
    requires forall k :: c.pos <= k < c.size ==> c.data[k] != 0
    ensures DecodeString(c).Err?
    ensures ReadStringAsWritten(c).Ok?
    ensures ReadStringAsWritten(c).value.value == c.data[c.pos..c.size]
    ensures ReadStringAsWritten(c).value.rest.pos == c.size + 1
  {
    FirstNulAbsent(c.data, c.pos, c.size);
  }

  lemma {:induction false} FirstNulAbsent(data: seq<Byte>, from: nat, size: nat)
    requires from <= size <= |data|
    requires forall k :: from <= k < size ==> data[k] != 0
    ensures FirstNul(data, from, size) == size
    decreases size - from
  {
    if from < size {
      FirstNulAbsent(data, from + 1, size);
    }
  }

  lemma {:induction false} FirstNulAt(data: seq<Byte>, from: nat, j: nat, size: nat)
    requires from <= j < size <= |data|
    requires data[j] == 0 && forall k :: from <= k < j ==> data[k] != 0
    ensures FirstNul(data, from, size) == j
    decreases j - from
  {
    if from < j {
      FirstNulAt(data, from + 1, j, size);
    }
  }

  /** Bytes a value of kind k occupies; strings have no fixed width. */
  function Width(k: Kind): nat
  {
    match k
    case KUInt8 | KInt8 => 1
    case KUInt16 | KInt16 => 2
    case KUInt32 | KInt32 | KFloat => 4
    case KUInt64 | KInt64 => 8
    case KString => 0
  }

  /** The value of kind k whose unsigned bit pattern is u: signed kinds read it in two's complement. */
  function FromPattern(k: Kind, u: nat): Value
    requires k != KString && u < Pow256(Width(k))
  {
    Pow256Widths();
    match k
    case KUInt8 => UInt8(u)
    case KInt8 => Int8(ToSigned(u, 1))
    case KUInt16 => UInt16(u)
    case KInt16 => Int16(ToSigned(u, 2))
    case KUInt32 => UInt32(u)
    case KInt32 => Int32(ToSigned(u, 4))
    case KUInt64 => UInt64(u)
    case KInt64 => Int64(ToSigned(u, 8))
    case KFloat => Float(u)
  }

  /** The unsigned bit pattern of a fixed-width value, as the hton conversions see it. */
  function Pattern(v: Value): (u: nat)
    requires !v.Str?
    ensures u < Pow256(Width(KindOf(v)))
    ensures FromPattern(KindOf(v), u) == v
  {
    Pow256Widths();
    match v
    case UInt8(x) => x
    case Int8(x) => FromSigned(x, 1)
    case UInt16(x) => x
    case Int16(x) => FromSigned(x, 2)
    case UInt32(x) => x
    case Int32(x) => FromSigned(x, 4)
    case UInt64(x) => x
    case Int64(x) => FromSigned(x, 8)
    case Float(x) => x
  }

  /** The reader for one kind of value. */
  function DecodeValue(c: Cursor, k: Kind): (r: Read<Value>)
    requires c.Wf()
    ensures r.Ok? ==> KindOf(r.value.value) == k && r.value.rest.data == c.data && r.value.rest.size == c.size
  {
    if k == KString then
      var g :- DecodeString(c);
      Ok(Got(Str(g.value), g.rest))
    else
      var g :- DecodeUnsigned(c, Width(k));
      Ok(Got(FromPattern(k, g.value), g.rest))
  }

  /** Reading a sequence of kinds in order; the cursor keeps the declared size and contents. */
  function DecodeValues(c: Cursor, ks: seq<Kind>): (r: Read<seq<Value>>)
    requires c.Wf()
    ensures r.Ok? ==> |r.value.value| == |ks| && r.value.rest.Wf()
    decreases |ks|
  {
    if ks == [] then Ok(Got([], c))
    else
      var g :- DecodeValue(c, ks[0]);
      var gs :- DecodeValues(g.rest, ks[1..]);
      Ok(Got([g.value] + gs.value, gs.rest))
  }

  // ---------------------------------------------------------------------
  // Writers, as the bytes each one appends
  // ---------------------------------------------------------------------

  function KindOf(v: Value): Kind
  {
    match v
    case UInt8(_) => KUInt8
    case Int8(_) => KInt8
    case UInt16(_) => KUInt16
    case Int16(_) => KInt16
    case UInt32(_) => KUInt32
    case Int32(_) => KInt32
    case UInt64(_) => KUInt64
    case Int64(_) => KInt64
    case Float(_) => KFloat
    case Str(_) => KString
  }

  function KindsOf(vs: seq<Value>): (ks: seq<Kind>)
    ensures |ks| == |vs| && forall i :: 0 <= i < |vs| ==> ks[i] == KindOf(vs[i])
  {
    seq(|vs|, i requires 0 <= i < |vs| => KindOf(vs[i]))
  }

  /** A string a C caller can pass: strlen stops at the first NUL, so the bytes contain none. */
  predicate NulFree(s: seq<Byte>)
  {
    forall k :: 0 <= k < |s| ==> s[k] != 0
  }

  predicate Writable(v: Value)
  {
    v.Str? ==> NulFree(v.chars)
  }

  /** The number of bytes a value takes on the wire. */
  function Size(v: Value): nat
  {
    if v.Str? then |v.chars| + 1 else Width(KindOf(v))
  }

  /** The bytes the matching Write* call appends: the bit pattern in network byte order, or the string and its NUL. */
  function Encode(v: Value): (r: seq<Byte>)
    ensures |r| == Size(v)
    ensures !v.Str? ==> |r| == Width(KindOf(v))
    ensures v.Str? ==> r == v.chars + [0]
  {
    if v.Str? then v.chars + [0] else EncodeBE(Pattern(v), Width(KindOf(v)))
  }

  /** The payload a sequence of writes produces. */
  function EncodeAll(vs: seq<Value>): seq<Byte>
  {
    if vs == [] then [] else Encode(vs[0]) + EncodeAll(vs[1..])
  }

  lemma {:induction false} EncodeAllAppend(vs: seq<Value>, v: Value)
    ensures EncodeAll(vs + [v]) == EncodeAll(vs) + Encode(v)
  {
    if vs == [] {
      assert [v][1..] == [];
    } else {
      assert (vs + [v])[1..] == vs[1..] + [v];
      EncodeAllAppend(vs[1..], v);
    }
  }

  lemma DecodeUnsignedEncode(c: Cursor, x: nat, w: nat)
    requires c.Wf() && x < Pow256(w) && c.pos + w <= c.size
    requires c.data[c.pos..c.pos + w] == EncodeBE(x, w)
    ensures DecodeUnsigned(c, w) == Ok(Got(x, c.(pos := c.pos + w)))
  {
    DecodeEncode(x, w);
    UnsignedAtSlice(c.data, c.pos, w);
  }

  lemma DecodeStringEncode(c: Cursor, s: seq<Byte>)
    requires c.Wf() && NulFree(s) && c.pos + |s| + 1 <= c.size
    requires c.data[c.pos..c.pos + |s| + 1] == s + [0]
    ensures DecodeString(c) == Ok(Got(s, c.(pos := c.pos + |s| + 1)))
  {
    var b := c.data[c.pos..c.pos + |s| + 1];
    assert forall k :: c.pos <= k < c.pos + |s| ==> c.data[k] == b[k - c.pos];
    assert c.data[c.pos + |s|] == b[|s|] == 0;
    FirstNulAt(c.data, c.pos, c.pos + |s|, c.size);
    assert c.data[c.pos..c.pos + |s|] == s;
  }

  /** Reading one value back from where it was written gives the value, and the cursor ends just past it. */
  lemma DecodeEncodeValue(c: Cursor, v: Value)
    requires c.Wf() && Writable(v)
    requires c.pos + |Encode(v)| <= c.size
    requires c.data[c.pos..c.pos + |Encode(v)|] == Encode(v)
    ensures DecodeValue(c, KindOf(v)) == Ok(Got(v, Skip(c, |Encode(v)|)))
  {
    if v.Str? {
      DecodeStringEncode(c, v.chars);
    } else {
      DecodeUnsignedEncode(c, Pattern(v), Width(KindOf(v)));
    }
  }

  /**
   * The typed reader of v's kind, run where v was written, returns v's
   * number (signed kinds through their two's-complement pattern, floats as
   * their bit pattern, strings without their NUL) and leaves the cursor
   * just past the bytes written.
   */
  predicate ReadsBack(c: Cursor, v: Value)
  {
    c.Wf() && c.pos + Size(v) <= c.size &&
    var next := Skip(c, Size(v));
    match v
    case UInt8(x) => DecodeUInt8(c) == Ok(Got(x, next))
    case Int8(x) => DecodeInt8(c) == Ok(Got(x, next))
    case UInt16(x) => DecodeUInt16(c) == Ok(Got(x, next))
    case Int16(x) => DecodeInt16(c) == Ok(Got(x, next))
    case UInt32(x) => DecodeUInt32(c) == Ok(Got(x, next))
    case Int32(x) => DecodeInt32(c) == Ok(Got(x, next))
    case UInt64(x) => DecodeUInt64(c) == Ok(Got(x, next))
    case Int64(x) => DecodeInt64(c) == Ok(Got(x, next))
    case Float(x) => DecodeFloat(c) == Ok(Got(x, next))
    case Str(x) => DecodeString(c) == Ok(Got(x, next))
  }

  /** Each reader reads back what the matching writer wrote. */
  lemma ReadBack(c: Cursor, v: Value)
    requires Writable(v) && WrittenAt(c, Encode(v))
    ensures ReadsBack(c, v)
  {
    Pow256Widths();
    if v.Str? {
      DecodeStringEncode(c, v.chars);
    } else {
      DecodeUnsignedEncode(c, Pattern(v), Width(KindOf(v)));
    }
  }

  /** The values vs, all writable, were written in order at the cursor. */
  predicate Carries(c: Cursor, vs: seq<Value>)
  {
    AllWritable(vs) && WrittenAt(c, EncodeAll(vs))
  }

  /** The cursor just past the values carried at c. */
  function After(c: Cursor, vs: seq<Value>): (r: Cursor)
    requires Carries(c, vs)
    ensures r.data == c.data && r.size == c.size && r.pos == c.pos + |EncodeAll(vs)|
  {
    Skip(c, |EncodeAll(vs)|)
  }

  /**
   * The first of the values carried reads back with its typed reader, and
   * the others are carried right after it, ending where all of them end.
   */
  lemma Peel(c: Cursor, vs: seq<Value>)
    requires vs != [] && Carries(c, vs)
    ensures ReadsBack(c, vs[0])
    ensures Carries(Skip(c, Size(vs[0])), vs[1..])
    ensures After(Skip(c, Size(vs[0])), vs[1..]) == After(c, vs)
  {
    WrittenAtSplit(c, vs);
    assert Writable(vs[0]);
    ReadBack(c, vs[0]);
    assert forall i :: 0 <= i < |vs| - 1 ==> vs[1..][i] == vs[i + 1];
  }

  /** Peel, for a run written as its first value and the rest. */
  lemma Lead(c: Cursor, v: Value, rest: seq<Value>)
    requires Carries(c, [v] + rest)
    ensures ReadsBack(c, v) && Carries(Skip(c, Size(v)), rest)
    ensures After(Skip(c, Size(v)), rest) == After(c, [v] + rest)
  {
    Peel(c, [v] + rest);
    assert ([v] + rest)[1..] == rest;
  }

  /** Two values carried in a row read back one after the other. */
  lemma Reads2(c: Cursor, a: Value, b: Value)
    requires Carries(c, [a, b])
    ensures ReadsBack(c, a) && ReadsBack(Skip(c, Size(a)), b)
    ensures After(c, [a, b]) == Skip(Skip(c, Size(a)), Size(b))
  {
    var vs := [a, b];
    Peel(c, vs);
    Peel(Skip(c, Size(a)), vs[1..]);
  }

  lemma Reads3(c: Cursor, a: Value, b: Value, d: Value)
    requires Carries(c, [a, b, d])
    ensures ReadsBack(c, a) && ReadsBack(Skip(c, Size(a)), b) && ReadsBack(Skip(Skip(c, Size(a)), Size(b)), d)
    ensures After(c, [a, b, d]) == Skip(Skip(Skip(c, Size(a)), Size(b)), Size(d))
  {
    var vs := [a, b, d];
    Peel(c, vs);
    assert vs[1..] == [b, d];
    Reads2(Skip(c, Size(a)), b, d);
  }

  lemma Reads4(c: Cursor, a: Value, b: Value, d: Value, e: Value)
    requires Carries(c, [a, b, d, e])
    ensures ReadsBack(c, a) && ReadsBack(Skip(c, Size(a)), b) && ReadsBack(Skip(Skip(c, Size(a)), Size(b)), d)
    ensures ReadsBack(Skip(Skip(Skip(c, Size(a)), Size(b)), Size(d)), e)
    ensures After(c, [a, b, d, e]) == Skip(Skip(Skip(Skip(c, Size(a)), Size(b)), Size(d)), Size(e))
  {
    var vs := [a, b, d, e];
    Peel(c, vs);
    assert vs[1..] == [b, d, e];
    Reads3(Skip(c, Size(a)), b, d, e);
  }

  lemma Reads5(c: Cursor, a: Value, b: Value, d: Value, e: Value, f: Value)
    requires Carries(c, [a, b, d, e, f])
    ensures ReadsBack(c, a) && ReadsBack(Skip(c, Size(a)), b) && ReadsBack(Skip(Skip(c, Size(a)), Size(b)), d)
    ensures ReadsBack(Skip(Skip(Skip(c, Size(a)), Size(b)), Size(d)), e)
    ensures ReadsBack(Skip(Skip(Skip(Skip(c, Size(a)), Size(b)), Size(d)), Size(e)), f)
    ensures After(c, [a, b, d, e, f]) == Skip(Skip(Skip(Skip(Skip(c, Size(a)), Size(b)), Size(d)), Size(e)), Size(f))
  {
    var vs := [a, b, d, e, f];
    Peel(c, vs);
    assert vs[1..] == [b, d, e, f];
    Reads4(Skip(c, Size(a)), b, d, e, f);
  }

  lemma {:induction false} EncodeAllConcat(a: seq<Value>, b: seq<Value>)
    ensures EncodeAll(a + b) == EncodeAll(a) + EncodeAll(b)
    decreases |a|
  {
    if a == [] {
      assert a + b == b;
    } else {
      assert (a + b)[0] == a[0] && (a + b)[1..] == a[1..] + b;
      EncodeAllConcat(a[1..], b);
    }
  }

  /** Values carried back to back split into the two runs. */
  lemma CarriesConcat(c: Cursor, a: seq<Value>, b: seq<Value>)
    requires Carries(c, a + b)
    ensures Carries(c, a) && Carries(After(c, a), b)
    ensures After(After(c, a), b) == After(c, a + b)
  {
    EncodeAllConcat(a, b);
    WrittenAtConcat(c, EncodeAll(a), EncodeAll(b));
    assert forall i :: 0 <= i < |a| ==> (a + b)[i] == a[i];
    assert forall i :: 0 <= i < |b| ==> (a + b)[|a| + i] == b[i];
  }

  lemma SplitWindow(d: seq<Byte>, p: nat, a: seq<Byte>, b: seq<Byte>)
    requires p + |a| + |b| <= |d| && d[p..p + |a| + |b|] == a + b
    ensures d[p..p + |a|] == a && d[p + |a|..p + |a| + |b|] == b
  {
    var w := d[p..p + |a| + |b|];
    assert forall k :: 0 <= k < |a| ==> d[p + k] == w[k] == a[k];
    assert forall k :: 0 <= k < |b| ==> d[p + |a| + k] == w[|a| + k] == b[k];
  }

  lemma DecodeValuesCons(c: Cursor, k: Kind, ks: seq<Kind>, v: Value, c1: Cursor, vs: seq<Value>, c2: Cursor)
    requires c.Wf() && c1.Wf()
    requires DecodeValue(c, k) == Ok(Got(v, c1))
    requires DecodeValues(c1, ks) == Ok(Got(vs, c2))
    ensures DecodeValues(c, [k] + ks) == Ok(Got([v] + vs, c2))
  {
    assert ([k] + ks)[0] == k && ([k] + ks)[1..] == ks;
  }

  lemma KindsOfCons(vs: seq<Value>)
    requires vs != []
    ensures KindsOf(vs) == [KindOf(vs[0])] + KindsOf(vs[1..])
  {
  }

  predicate AllWritable(vs: seq<Value>)
  {
    forall i :: 0 <= i < |vs| ==> Writable(vs[i])
  }

  /** The bytes b sit at the cursor, inside the declared size. */
  predicate WrittenAt(c: Cursor, b: seq<Byte>)
  {
    c.Wf() && c.pos + |b| <= c.size && c.data[c.pos..c.pos + |b|] == b
  }

  function Skip(c: Cursor, n: nat): (r: Cursor)
    requires c.pos + n <= c.size
    ensures r.data == c.data && r.size == c.size && r.pos == c.pos + n
  {
    c.(pos := c.pos + n)
  }

  lemma DecodeEncodeAllCons(c: Cursor, vs: seq<Value>, c2: Cursor)
    requires vs != [] && Writable(vs[0]) && WrittenAt(c, Encode(vs[0]))
    requires DecodeValues(Skip(c, |Encode(vs[0])|), KindsOf(vs[1..])) == Ok(Got(vs[1..], c2))
    ensures DecodeValues(c, KindsOf(vs)) == Ok(Got(vs, c2))
  {
    var c1 := Skip(c, |Encode(vs[0])|);
    DecodeEncodeValue(c, vs[0]);
    KindsOfCons(vs);
    DecodeValuesCons(c, KindOf(vs[0]), KindsOf(vs[1..]), vs[0], c1, vs[1..], c2);
    assert [vs[0]] + vs[1..] == vs;
  }

  lemma WrittenAtConcat(c: Cursor, a: seq<Byte>, b: seq<Byte>)
    requires WrittenAt(c, a + b)
    ensures WrittenAt(c, a) && WrittenAt(Skip(c, |a|), b)
    ensures Skip(Skip(c, |a|), |b|) == Skip(c, |a + b|)
  {
    SplitWindow(c.data, c.pos, a, b);
  }

  lemma WrittenAtSplit(c: Cursor, vs: seq<Value>)
    requires vs != [] && WrittenAt(c, EncodeAll(vs))
    ensures WrittenAt(c, Encode(vs[0]))
    ensures WrittenAt(Skip(c, |Encode(vs[0])|), EncodeAll(vs[1..]))
    ensures Skip(Skip(c, |Encode(vs[0])|), |EncodeAll(vs[1..])|) == Skip(c, |EncodeAll(vs)|)
  {
    WrittenAtConcat(c, Encode(vs[0]), EncodeAll(vs[1..]));
  }

  /**
   * Round trip: reading, in write order, the kinds of values that were written
   * gives the same values back, whatever follows them in the buffer.
   */
  lemma {:induction false} DecodeEncodeAll(c: Cursor, vs: seq<Value>)
    requires AllWritable(vs) && WrittenAt(c, EncodeAll(vs))
    ensures DecodeValues(c, KindsOf(vs)) == Ok(Got(vs, Skip(c, |EncodeAll(vs)|)))
    decreases |vs|
  {
    if vs == [] {
      assert KindsOf(vs) == [];
      assert Skip(c, |EncodeAll(vs)|) == c;
    } else {
      WrittenAtSplit(c, vs);
      var c1 := Skip(c, |Encode(vs[0])|);
      assert AllWritable(vs[1..]) by {
        assert forall i :: 0 <= i < |vs| - 1 ==> vs[1..][i] == vs[i + 1];
      }
      DecodeEncodeAll(c1, vs[1..]);
      DecodeEncodeAllCons(c, vs, Skip(c, |EncodeAll(vs)|));
    }
  }

  // ---------------------------------------------------------------------
  // The packet object
  // ---------------------------------------------------------------------

  /** How a reader's result and cursor follow from its specification: advance on success, keep the cursor on failure. */
  predicate Advanced<T(==)>(spec: Read<T>, r: Result<T, ReadError>, oldPos: U16, newPos: U16)
  {
    match spec
    case Ok(g) => r == Ok(g.value) && newPos == g.rest.pos
    case Err(e) => r == Err(e) && newPos == oldPos
  }

  class SmartPacket {
    var opcode: U16
    var size: U16
    var data: seq<Byte>
    var readPos: U16
    var writePos: U16

    /** The packet as its readers see it. */
    function View(): Cursor
      reads this
    {
      Cursor(data, size, readPos)
    }

    /**
     * The packet holds exactly the payload written by vs: size and write
     * cursor both equal its length, and the buffer starts with it.
     */
    ghost predicate Holds(vs: seq<Value>)
      reads this
    {
      size == writePos == |EncodeAll(vs)| <= |data| && data[..size] == EncodeAll(vs)
    }

    /** A packet with a known opcode and declared size, no contents and both cursors at 0; the default constructor is the case (0, 0). */
    constructor (opcode: U16, size: U16)
      ensures this.opcode == opcode && this.size == size && data == []
      ensures readPos == 0 && writePos == 0
      ensures size == 0 ==> Holds([])
    {
      this.opcode := opcode;
      this.size := size;
      data := [];
      readPos := 0;
      writePos := 0;
    }

    /** ResetData: the buffer is emptied and size and both cursors go back to 0. */
    method ResetData()
      modifies this
      ensures data == [] && size == 0 && readPos == 0 && writePos == 0 && opcode == old(opcode)
      ensures Holds([])
    {
      data := [];
      size := 0;
      readPos := 0;
      writePos := 0;
    }

    /** SetReadPos: a position past the declared size is refused and the cursor stays. */
    method SetReadPos(pos: U16)
      modifies this`readPos
      ensures readPos == if pos > size then old(readPos) else pos
    {
      if pos > size {
        return;
      }
      readPos := pos;
    }

    /** SetData: the buffer becomes the received bytes; the declared size is left as the constructor set it. */
    method SetData(bytes: seq<Byte>)
      requires |bytes| < 0x1_0000
      modifies this`data
      ensures data == bytes
    {
      data := bytes;
    }

    /** _Read: take w bytes at the cursor and advance, or fail with (cursor, size) and keep the cursor. */
    method ReadRaw(w: nat) returns (r: Result<seq<Byte>, ReadError>)
      requires View().Wf()
      modifies this`readPos
      ensures Advanced(TakeBytes(old(View()), w), r, old(readPos), readPos)
    {
      if readPos + w > size {
        return Err(PacketReadException(readPos, size));
      }
      r := Ok(data[readPos..readPos + w]);
      readPos := readPos + w;
    }

    method ReadUInt8() returns (r: Result<Byte, ReadError>)
      requires View().Wf()
      modifies this`readPos
      ensures Advanced(DecodeUInt8(old(View())), r, old(readPos), readPos)
    {
      var start := readPos;
      var b := ReadRaw(1);
      if b.Err? { return Err(b.error); }
      UnsignedAtSlice(data, start as nat, 1);
      r := Ok(b.value[0]);
    }

    method ReadInt8() returns (r: Result<I8, ReadError>)
      requires View().Wf()
      modifies this`readPos
      ensures Advanced(DecodeInt8(old(View())), r, old(readPos), readPos)
    {
      Pow256Widths();
      var start := readPos;
      var b := ReadRaw(1);
      if b.Err? { return Err(b.error); }
      UnsignedAtSlice(data, start as nat, 1);
      r := Ok(ToSigned(DecodeBE(b.value), 1));
    }

    method ReadUInt16() returns (r: Result<U16, ReadError>)
      requires View().Wf()
      modifies this`readPos
      ensures Advanced(DecodeUInt16(old(View())), r, old(readPos), readPos)
    {
      Pow256Widths();
      var start := readPos;
      var b := ReadRaw(2);
      if b.Err? { return Err(b.error); }
      UnsignedAtSlice(data, start as nat, 2);
      r := Ok(DecodeBE(b.value));
    }

    method ReadInt16() returns (r: Result<I16, ReadError>)
      requires View().Wf()
      modifies this`readPos
      ensures Advanced(DecodeInt16(old(View())), r, old(readPos), readPos)
    {
      Pow256Widths();
      var start := readPos;
      var b := ReadRaw(2);
      if b.Err? { return Err(b.error); }
      UnsignedAtSlice(data, start as nat, 2);
      r := Ok(ToSigned(DecodeBE(b.value), 2));
    }

    method ReadUInt32() returns (r: Result<U32, ReadError>)
      requires View().Wf()
      modifies this`readPos
      ensures Advanced(DecodeUInt32(old(View())), r, old(readPos), readPos)
    {
      Pow256Widths();
      var start := readPos;
      var b := ReadRaw(4);
      if b.Err? { return Err(b.error); }
      UnsignedAtSlice(data, start as nat, 4);
      r := Ok(DecodeBE(b.value));
    }

    method ReadInt32() returns (r: Result<I32, ReadError>)
      requires View().Wf()
      modifies this`readPos
      ensures Advanced(DecodeInt32(old(View())), r, old(readPos), readPos)
    {
      Pow256Widths();
      var start := readPos;
      var b := ReadRaw(4);
      if b.Err? { return Err(b.error); }
      UnsignedAtSlice(data, start as nat, 4);
      r := Ok(ToSigned(DecodeBE(b.value), 4));
    }

    method ReadUInt64() returns (r: Result<U64, ReadError>)
      requires View().Wf()
      modifies this`readPos
      ensures Advanced(DecodeUInt64(old(View())), r, old(readPos), readPos)
    {
      Pow256Widths();
      var start := readPos;
      var b := ReadRaw(8);
      if b.Err? { return Err(b.error); }
      UnsignedAtSlice(data, start as nat, 8);
      r := Ok(DecodeBE(b.value));
    }

    method ReadInt64() returns (r: Result<I64, ReadError>)
      requires View().Wf()
      modifies this`readPos
      ensures Advanced(DecodeInt64(old(View())), r, old(readPos), readPos)
    {
      Pow256Widths();
      var start := readPos;
      var b := ReadRaw(8);
      if b.Err? { return Err(b.error); }
      UnsignedAtSlice(data, start as nat, 8);
      r := Ok(ToSigned(DecodeBE(b.value), 8));
    }

    /** ReadFloat: the 32-bit pattern, in host order. */
    method ReadFloat() returns (r: Result<U32, ReadError>)
      requires View().Wf()
      modifies this`readPos
      ensures Advanced(DecodeFloat(old(View())), r, old(readPos), readPos)
    {
      r := ReadUInt32();
    }

    /** ReadString: scan for the NUL from the cursor, then inspect the byte the scan stopped at. */
    method ReadString() returns (r: Result<seq<Byte>, ReadError>)
      requires View().Wf()
      modifies this`readPos
      ensures Advanced(ReadStringAsWritten(old(View())), r, old(readPos), readPos)
    {
      if readPos >= size {
        return Err(PacketReadException(readPos, 1));
      }
      var i := readPos as nat;
      while i < size && data[i] != 0
        invariant readPos <= i <= size
        invariant FirstNul(data, readPos, size) == FirstNul(data, i, size)
        decreases size - i
      {
        i := i + 1;
      }
      if !(i < |data| && data[i] == 0) {
        return Err(PacketReadException(readPos, size - readPos + 1));
      }
      var start := readPos;
      readPos := (i + 1) % 0x1_0000;
      r := Ok(data[start..i]);
    }

    /**
     * _Write: grow the buffer to writePos + 1 + |bytes| (zero-filled), copy the
     * bytes at the write cursor, and advance the write cursor and the size by
     * the width, both as 16-bit counters.
     */
    method WriteRaw(bytes: seq<Byte>)
      modifies this`data, this`writePos, this`size
      ensures data == Overwrite(Resize(old(data), old(writePos) + 1 + |bytes|), old(writePos), bytes)
      ensures writePos == (old(writePos) + |bytes|) % 0x1_0000
      ensures size == (old(size) + |bytes|) % 0x1_0000
    {
      data := Overwrite(Resize(data, writePos + 1 + |bytes|), writePos, bytes);
      writePos := (writePos + |bytes|) % 0x1_0000;
      size := (size + |bytes|) % 0x1_0000;
    }

    /**
     * Every Write* call: appends Encode(v). On a packet holding the payload of
     * vs, and when the 16-bit counters do not wrap, it then holds vs + [v].
     */
    method Write(v: Value, ghost vs: seq<Value>)
      requires Writable(v)
      modifies this`data, this`writePos, this`size
      ensures data == Overwrite(Resize(old(data), old(writePos) + 1 + |Encode(v)|), old(writePos), Encode(v))
      ensures writePos == (old(writePos) + |Encode(v)|) % 0x1_0000
      ensures size == (old(size) + |Encode(v)|) % 0x1_0000
      ensures old(Holds(vs)) && old(writePos) + |Encode(v)| < 0x1_0000 ==> Holds(vs + [v])
    {
      ghost var before := data;
      WriteRaw(Encode(v));
      if old(Holds(vs)) && old(writePos) + |Encode(v)| < 0x1_0000 {
        EncodeAllAppend(vs, v);
        OverwriteExtends(before, old(writePos), Encode(v));
      }
    }

    method WriteUInt8(x: Byte)
      modifies this`data, this`writePos, this`size
      ensures data == Overwrite(Resize(old(data), old(writePos) + 2), old(writePos), [x])
      ensures writePos == (old(writePos) + 1) % 0x1_0000 && size == (old(size) + 1) % 0x1_0000
    {
      Write(UInt8(x), []);
    }

    method WriteUInt16(x: U16)
      modifies this`data, this`writePos, this`size
      ensures data == Overwrite(Resize(old(data), old(writePos) + 3), old(writePos), EncodeBE(x, 2))
      ensures writePos == (old(writePos) + 2) % 0x1_0000 && size == (old(size) + 2) % 0x1_0000
    {
      Write(UInt16(x), []);
    }

    method WriteUInt32(x: U32)
      modifies this`data, this`writePos, this`size
      ensures data == Overwrite(Resize(old(data), old(writePos) + 5), old(writePos), EncodeBE(x, 4))
      ensures writePos == (old(writePos) + 4) % 0x1_0000 && size == (old(size) + 4) % 0x1_0000
    {
      Write(UInt32(x), []);
    }

    method WriteUInt64(x: U64)
      modifies this`data, this`writePos, this`size
      ensures data == Overwrite(Resize(old(data), old(writePos) + 9), old(writePos), EncodeBE(x, 8))
      ensures writePos == (old(writePos) + 8) % 0x1_0000 && size == (old(size) + 8) % 0x1_0000
    {
      Write(UInt64(x), []);
    }

    method WriteInt8(x: I8)
      modifies this`data, this`writePos, this`size
      ensures data == Overwrite(Resize(old(data), old(writePos) + 2), old(writePos), EncodeBE(FromSigned(x, 1), 1))
      ensures writePos == (old(writePos) + 1) % 0x1_0000 && size == (old(size) + 1) % 0x1_0000
    {
      Write(Int8(x), []);
    }

    method WriteInt16(x: I16)
      modifies this`data, this`writePos, this`size
      ensures data == Overwrite(Resize(old(data), old(writePos) + 3), old(writePos), EncodeBE(FromSigned(x, 2), 2))
      ensures writePos == (old(writePos) + 2) % 0x1_0000 && size == (old(size) + 2) % 0x1_0000
    {
      Write(Int16(x), []);
    }

    method WriteInt32(x: I32)
      modifies this`data, this`writePos, this`size
      ensures data == Overwrite(Resize(old(data), old(writePos) + 5), old(writePos), EncodeBE(FromSigned(x, 4), 4))
      ensures writePos == (old(writePos) + 4) % 0x1_0000 && size == (old(size) + 4) % 0x1_0000
    {
      Write(Int32(x), []);
    }

    method WriteInt64(x: I64)
      modifies this`data, this`writePos, this`size
      ensures data == Overwrite(Resize(old(data), old(writePos) + 9), old(writePos), EncodeBE(FromSigned(x, 8), 8))
      ensures writePos == (old(writePos) + 8) % 0x1_0000 && size == (old(size) + 8) % 0x1_0000
    {
      Write(Int64(x), []);
    }

    /** WriteFloat: the 32-bit pattern in network byte order. */
    method WriteFloat(bits: U32)
      modifies this`data, this`writePos, this`size
      ensures data == Overwrite(Resize(old(data), old(writePos) + 5), old(writePos), EncodeBE(bits, 4))
      ensures writePos == (old(writePos) + 4) % 0x1_0000 && size == (old(size) + 4) % 0x1_0000
    {
      Write(Float(bits), []);
    }

    /** WriteString: the bytes up to the terminator and the terminator itself. */
    method WriteString(s: seq<Byte>)
      requires NulFree(s)
      modifies this`data, this`writePos, this`size
      ensures data == Overwrite(Resize(old(data), old(writePos) + 2 + |s|), old(writePos), s + [0])
      ensures writePos == (old(writePos) + |s| + 1) % 0x1_0000 && size == (old(size) + |s| + 1) % 0x1_0000
    {
      Write(Str(s), []);
    }

    /** _WriteAt: copy bytes at a position inside the buffer; size and write cursor stay. */
    method WriteRawAt(bytes: seq<Byte>, position: U16)
      requires position + |bytes| <= |data|
      modifies this`data
      ensures data == Overwrite(old(data), position, bytes)
    {
      data := Overwrite(data, position, bytes);
    }

    method WriteUInt8At(x: Byte, position: U16)
      requires position + 1 <= |data|
      modifies this`data
      ensures data == Overwrite(old(data), position, [x])
    {
      WriteRawAt([x], position);
    }

    method WriteUInt16At(x: U16, position: U16)
      requires position + 2 <= |data|
      modifies this`data
      ensures data == Overwrite(old(data), position, EncodeBE(x, 2))
    {
      Pow256Widths();
      WriteRawAt(EncodeBE(x, 2), position);
    }

    method WriteUInt32At(x: U32, position: U16)
      requires position + 4 <= |data|
      modifies this`data
      ensures data == Overwrite(old(data), position, EncodeBE(x, 4))
    {
      Pow256Widths();
      WriteRawAt(EncodeBE(x, 4), position);
    }
  }

  /** A packet built by writing vs reads vs back from cursor 0. */
  lemma BuiltPacketReadsBack(p: SmartPacket, vs: seq<Value>)
    requires p.Holds(vs) && AllWritable(vs)
    ensures DecodeValues(Cursor(p.data, p.size, 0), KindsOf(vs)) == Ok(Got(vs, Cursor(p.data, p.size, p.size)))
  {
    var c := Cursor(p.data, p.size, 0);
    assert WrittenAt(c, EncodeAll(vs)) by {
      assert c.data[c.pos..c.pos + |EncodeAll(vs)|] == p.data[..p.size];
    }
    DecodeEncodeAll(c, vs);
    assert Skip(c, |EncodeAll(vs)|) == Cursor(p.data, p.size, p.size);
  }
}
