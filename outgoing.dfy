/**
 * Outgoing packets. The session components (resource streams, resource
 * manager, gameplay) build a packet, write its fields in order and hand it
 * to the network manager. The model records each such packet as a Message
 * (opcode and written values) in an Outbox; Transmit shows that building a
 * SmartPacket from a message and sending it puts exactly Wire(m) on the
 * socket, and WireReadsBack that the peer reads the message back from it.
 */
module Outgoing {
  import opened Wrappers
  import opened Bytes
  import opened SmartPacket
  import opened Network

  /** The payloads SendPacket can carry: the size field is 16 bits wide. */
  predicate Sendable(m: Message)
  {
    AllWritable(m.fields) && |EncodeAll(m.fields)| < 0x1_0000
  }

  /** The frame of a message: header with its opcode and payload size, then the encoded fields. */
  function Wire(m: Message): (w: seq<Byte>)
    requires Sendable(m)
    ensures |w| == HeaderSize + |EncodeAll(m.fields)|
    ensures w[HeaderSize..] == EncodeAll(m.fields)
  {
    Frame(m.opcode, |EncodeAll(m.fields)|, EncodeAll(m.fields))
  }

  /** The receiving side recovers the opcode, the size and, reading the payload with the kinds written, the fields themselves. */
  lemma WireReadsBack(m: Message)
    requires Sendable(m)
    ensures HeaderOpcode(Wire(m)) == m.opcode
    ensures HeaderSizeField(Wire(m)) == |EncodeAll(m.fields)|
    ensures var p := Wire(m)[HeaderSize..];
            DecodeValues(Cursor(p, |p|, 0), KindsOf(m.fields)) == Ok(Got(m.fields, Cursor(p, |p|, |p|)))
  {
    var p := EncodeAll(m.fields);
    FrameHeaderRoundTrip(m.opcode, |p|, p);
    var c := Cursor(p, |p|, 0);
    assert WrittenAt(c, p) by {
      assert c.data[c.pos..c.pos + |p|] == p;
    }
    DecodeEncodeAll(c, m.fields);
    assert Skip(c, |p|) == Cursor(p, |p|, |p|);
  }

  /**
   * Building the packet of m, as the senders do (constructor with the
   * opcode, one Write* per field), and passing it to SendPacket sends
   * exactly its frame.
   */
  method Transmit(net: NetworkManager, m: Message)
    requires Sendable(m)
    modifies net`sent
    ensures net.sent == old(net.sent) + [Wire(m)]
  {
    var pkt := new SmartPacket(m.opcode, 0);
    var i := 0;
    while i < |m.fields|
      invariant 0 <= i <= |m.fields|
      invariant pkt.opcode == m.opcode && pkt.Holds(m.fields[..i])
      invariant fresh(pkt) && net.sent == old(net.sent)
    {
      WriteNext(pkt, m.fields, i);
      i := i + 1;
    }
    assert m.fields[..i] == m.fields;
    net.SendPacket(pkt);
    assert pkt.data[..pkt.size] == EncodeAll(m.fields);
  }

  /** One turn of the building loop: the packet holding fs[..i] is extended by fs[i]. */
  method WriteNext(pkt: SmartPacket, fs: seq<Value>, i: nat)
    requires i < |fs| && AllWritable(fs) && |EncodeAll(fs)| < 0x1_0000 && pkt.Holds(fs[..i])
    modifies pkt`data, pkt`writePos, pkt`size
    ensures pkt.Holds(fs[..i + 1])
  {
    var pre := fs[..i];
    assert fs[..i + 1] == pre + [fs[i]];
    assert |EncodeAll(pre)| + |Encode(fs[i])| < 0x1_0000 by {
      assert fs[..i + 1] + fs[i + 1..] == fs;
      EncodeAllConcat(fs[..i + 1], fs[i + 1..]);
      EncodeAllAppend(pre, fs[i]);
    }
    pkt.Write(fs[i], pre);
  }

  /** The packets a component has handed to the network manager, oldest first. */
  class Outbox {
    var messages: seq<Message>

    constructor ()
      ensures messages == []
    {
      messages := [];
    }

    /** sNetwork->SendPacket of a packet built with opcode and fields. */
    method Send(opcode: U16, fields: seq<Value>)
      modifies this
      ensures messages == old(messages) + [Message(opcode, fields)]
    {
      messages := messages + [Message(opcode, fields)];
    }
  }
}
