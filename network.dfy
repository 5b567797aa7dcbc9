// The network manager: the frame layout on the wire, the receive-side
// framing decisions, the queue of received packets, the state gate in front
// of the handler table and the connection state changes. Sockets, the
// network thread and its locks are replaced by the outcomes their calls
// return, given as arguments.
module Network {
  import opened Wrappers
  import opened Bytes
  import opened SmartPacket
  import opened Enums
  import opened HandlerTable
  import opened PacketHandlers

  /** Size of the receive buffer a payload is read into (64 kB). */
  const RecvBufferSize: nat := 64 * 1024

  // ---------------------------------------------------------------- frames

  /** The bytes SendPacket writes: opcode and payload size, both 16-bit
      big-endian, then the first size bytes of the packet's data. */
  function Frame(opcode: U16, size: U16, data: seq<Byte>): (f: seq<Byte>)
    requires size <= |data|
    ensures |f| == HeaderSize + size
    ensures f[HeaderSize..] == data[..size]
  {
    EncodeBE(opcode, 2) + EncodeBE(size, 2) + data[..size]
  }

  /** The opcode a received header carries. */
  function HeaderOpcode(h: seq<Byte>): (op: U16)
    requires |h| >= HeaderSize
  {
    DecodeBE(h[..2])
  }

  /** The payload size a received header declares. */
  function HeaderSizeField(h: seq<Byte>): (n: U16)
    requires |h| >= HeaderSize
  {
    DecodeBE(h[2..4])
  }

  /** The header of a frame reads back as the frame's opcode and size. */
  lemma FrameHeaderRoundTrip(opcode: U16, size: U16, data: seq<Byte>)
    requires size <= |data|
    ensures HeaderOpcode(Frame(opcode, size, data)) == opcode
    ensures HeaderSizeField(Frame(opcode, size, data)) == size
  {
    var f := Frame(opcode, size, data);
    assert f[..2] == EncodeBE(opcode, 2);
    assert f[2..4] == EncodeBE(size, 2);
    DecodeEncode(opcode, 2);
    DecodeEncode(size, 2);
  }

  // ---------------------------------------------------------------- receiving

  /** A received packet waiting in the queue: its opcode, its payload (exactly
      the declared number of bytes) and the time it arrived. */
  type Payload = s: seq<Byte> | |s| < 0x1_0000

  datatype Pending = Pending(opcode: U16, payload: Payload, arrived: U32)

  /** The packet a handler reads: the payload with the read cursor at 0. */
  function Open(p: Pending): (c: Cursor)
    ensures c.Wf() && c.pos == 0 && c.size == |p.payload|
  {
    Cursor(p.payload, |p.payload|, 0)
  }

  /** What one recv call for payload bytes returns: some bytes (recv copies
      at most the number asked for; a longer delivery is cut to that), a
      would-block error, or any other error. A zero return counts as an
      error. */
  datatype Recv = Data(bytes: seq<Byte>) | WouldBlock | RecvError

  /** How the payload loop ends: all bytes arrived, an error dropped the
      packet, or the given outcomes ran out first (the loop keeps waiting). */
  datatype Assembled = Complete(bytes: seq<Byte>) | Broken | Stalled

  function Min(a: nat, b: nat): (m: nat)
    ensures m <= a && m <= b && (m == a || m == b)
  {
    if a <= b then a else b
  }

  /** The payload loop: recv is repeated until got holds need bytes; a
      would-block result is retried, any other failure abandons the packet. */
  function Assemble(need: nat, rs: seq<Recv>, got: seq<Byte>): (a: Assembled)
    requires |got| <= need
    ensures a.Complete? ==> |a.bytes| == need && a.bytes[..|got|] == got
    ensures |got| == need ==> a == Complete(got)
    decreases |rs|
  {
    if |got| == need then Complete(got)
    else if rs == [] then Stalled
    else
      match rs[0]
      case WouldBlock => Assemble(need, rs[1..], got)
      case RecvError => Broken
      case Data(b) =>
        if b == [] then Broken
        else
          var more := b[..Min(|b|, need - |got|)];
          var a := Assemble(need, rs[1..], got + more);
          if a.Complete? then
            assert a.bytes[..|got|] == a.bytes[..|got + more|][..|got|];
            a
          else a
  }

  /** One payload delivered in a single recv completes the packet. */
  lemma OneRecvCompletes(need: nat, bytes: seq<Byte>, rest: seq<Recv>)
    requires 0 < need == |bytes|
    ensures Assemble(need, [Data(bytes)] + rest, []) == Complete(bytes)
  {
    var rs := [Data(bytes)] + rest;
    assert rs[0] == Data(bytes) && rs[1..] == rest;
    assert bytes[..Min(|bytes|, need)] == bytes;
    assert [] + bytes == bytes;
  }

  /** What the network thread does with one readable socket: either a packet
      is queued, the payload is dropped, the connection is marked for
      disconnection, or the payload loop is still waiting. */
  datatype Arrival = Queued(packet: Pending) | DroppedPayload | Disconnecting | Waiting

  /** A header recv shorter than the header marks the connection for
      disconnection; a declared size of 0 queues an empty packet; otherwise
      the payload loop runs and a completed payload is queued. The branch for
      sizes beyond the buffer is kept although a 16-bit size never reaches
      it. */
  function Receive(header: seq<Byte>, rs: seq<Recv>, now: U32): (r: Arrival)
    requires |header| <= HeaderSize
    ensures r.Disconnecting? <==> |header| < HeaderSize
    ensures r.Queued? ==> (|header| == HeaderSize &&
      r.packet.opcode == HeaderOpcode(header) && |r.packet.payload| == HeaderSizeField(header) && r.packet.arrived == now)
    ensures |header| == HeaderSize && HeaderSizeField(header) == 0 ==> r == Queued(Pending(HeaderOpcode(header), [], now))
    ensures r.DroppedPayload? ==> exists i :: 0 <= i < |rs| && (rs[i].RecvError? || rs[i] == Data([]))
  {
    if |header| < HeaderSize then Disconnecting
    else
      var op := HeaderOpcode(header);
      var size := HeaderSizeField(header);
      if 0 < size < RecvBufferSize then
        var a := Assemble(size, rs, []);
        match a
        case Complete(bytes) => Queued(Pending(op, bytes, now))
        case Broken => BrokenHasCause(size, rs, []); DroppedPayload
        case Stalled => Waiting
      else if size >= RecvBufferSize then Disconnecting
      else Queued(Pending(op, [], now))
  }

  lemma {:induction false} BrokenHasCause(need: nat, rs: seq<Recv>, got: seq<Byte>)
    requires |got| <= need && Assemble(need, rs, got).Broken?
    ensures exists i :: 0 <= i < |rs| && (rs[i].RecvError? || rs[i] == Data([]))
    decreases |rs|
  {
    if rs[0].WouldBlock? {
      BrokenHasCause(need, rs[1..], got);
      var i :| 0 <= i < |rs[1..]| && (rs[1..][i].RecvError? || rs[1..][i] == Data([]));
      assert rs[i + 1] == rs[1..][i];
    } else if rs[0].Data? && rs[0].bytes != [] {
      var b := rs[0].bytes;
      BrokenHasCause(need, rs[1..], got + b[..Min(|b|, need - |got|)]);
      var i :| 0 <= i < |rs[1..]| && (rs[1..][i].RecvError? || rs[1..][i] == Data([]));
      assert rs[i + 1] == rs[1..][i];
    }
  }

  /** A frame the client's SendPacket would write, received whole, is queued
      as the same opcode and payload. */
  lemma FrameReceivedWhole(opcode: U16, size: U16, data: seq<Byte>, now: U32)
    requires size <= |data|
    ensures var f := Frame(opcode, size, data);
      Receive(f[..HeaderSize], [Data(f[HeaderSize..])], now) == Queued(Pending(opcode, data[..size], now))
  {
    var f := Frame(opcode, size, data);
    FrameHeaderRoundTrip(opcode, size, data);
    assert f[..HeaderSize][..2] == f[..2] && f[..HeaderSize][2..4] == f[2..4];
    if size > 0 {
      OneRecvCompletes(size, data[..size], []);
      assert [Data(f[HeaderSize..])] + [] == [Data(f[HeaderSize..])];
    }
  }

  // ---------------------------------------------------------------- the gate

  /** What HandlePacket decides for an opcode in a connection state: an
      opcode at or past MAX_OPCODES is dropped; one inside the guard but past
      the table would index beyond the table's end; a row whose mask lacks
      the state's bit drops the packet; otherwise the row's handler runs. */
  datatype Verdict = InvalidOpcode | PastTable | WrongState | Runs(handler: Handler)

  function Gate(op: U16, st: ConnectionState): (v: Verdict)
    ensures v.InvalidOpcode? <==> op >= MaxOpcodes
    ensures v.PastTable? <==> |Table| <= op < MaxOpcodes
    ensures v.Runs? <==> Accepts(op, st)
    ensures v.Runs? ==> v.handler == Table[op].handler
  {
    if op >= MaxOpcodes then InvalidOpcode
    else if op >= |Table| then PastTable
    else if !Admits(Table[op].mask, st) then WrongState
    else Runs(Table[op].handler)
  }

  /** No state lets a client-to-server opcode or MSG_NONE reach a handler. */
  lemma GateNeverRunsOutbound(op: U16, st: ConnectionState)
    requires op == MsgNone || IsClientOpcode(op)
    ensures !Gate(op, st).Runs?
  {
    if op < |Table| {
      NeverMaskedRows(op);
      MaskStates(st);
    }
  }

  /** Each server reply that reaches the gate inside the table runs its own
      row's handler, never the null or server-side placeholder. */
  lemma GateRunsReplyHandler(op: U16, st: ConnectionState)
    requires Gate(op, st).Runs?
    ensures op != MsgNone && !IsClientOpcode(op)
    ensures Gate(op, st).handler != HandleNull && Gate(op, st).handler != HandleServerSide
  {
    NeverMaskedRows(op);
    MaskStates(st);
  }

  /** The login response runs only while authenticating, the character list
      and enter-world result only in the lobby, the resource stream replies
      in every state. */
  lemma GateByState(st: ConnectionState)
    ensures Gate(SpLoginResponse, st).Runs? <==> st == StateAuth
    ensures Gate(SpCharacterList, st).Runs? <==> st == StateLobby
    ensures Gate(SpEnterWorldResult, st).Runs? <==> st == StateLobby
    ensures Gate(SpResourceData, st) == Runs(HandleResourceData)
    ensures Gate(SpMoveHeartbeat, st).Runs? <==> st == StateInGame
  {
    LoginAndLobbyRows(st);
    ResourceRowsAnyState(st);
    GameRows(SpMoveHeartbeat as nat, st);
    assert Table[SpResourceData].handler == HandleResourceData;
  }

  /** The dialogue, inventory and item replies pass the opcode guard but
      have no table row. */
  lemma DialogueAndInventoryPastTable(op: U16, st: ConnectionState)
    requires op in {SpDialogueData, SpDialogueClose, SpInventory, SpItemQueryResponse,
                    SpItemOperationInfo, SpUpdateInventorySlot}
    ensures Gate(op, st) == PastTable
  {
  }

  // ---------------------------------------------------------------- handling

  /** What escapes ProcessPending: a handler's exception or crash (the read
      exception is thrown with throw new and HandlePacket catches references,
      so it is not absorbed), or a row looked up past the end of the table. */
  datatype Escape = HandlerFault(opcode: U16, fault: Fault) | TableOverrun(opcode: U16)

  /** The connection state and the disconnect flag, the two fields of the
      network manager that handlers change. */
  datatype Link = Link(state: ConnectionState, disconnect: bool)

  /** The handlers' calls into the network manager among es, in order:
      SetConnectionState sets the state, Disconnect raises the flag. */
  function AfterEffects(l: Link, es: seq<Effect>): (r: Link)
    ensures (forall k :: 0 <= k < |es| ==> !es[k].SetConnectionState?) ==> r.state == l.state
    ensures l.disconnect ==> r.disconnect
    decreases |es|
  {
    if es == [] then l
    else
      var l1 :=
        match es[0]
        case SetConnectionState(st) => l.(state := st)
        case Disconnect => l.(disconnect := true)
        case _ => l;
      var r := AfterEffects(l1, es[1..]);
      assert forall k :: 0 <= k < |es[1..]| ==> es[1..][k] == es[k + 1];
      r
  }

  /** A packet whose handler sets the connection state leaves it in the last
      state set. */
  lemma {:induction false} AfterEffectsLast(l: Link, es: seq<Effect>, st: ConnectionState)
    ensures AfterEffects(l, es + [SetConnectionState(st)]).state == st
    decreases |es|
  {
    var es1 := es + [SetConnectionState(st)];
    if es != [] {
      assert es1[1..] == es[1..] + [SetConnectionState(st)];
      var l1 :=
        match es[0]
        case SetConnectionState(s) => l.(state := s)
        case Disconnect => l.(disconnect := true)
        case _ => l;
      AfterEffectsLast(l1, es[1..], st);
    } else {
      assert es1[1..] == [];
    }
  }

  /** What handling one packet amounts to: the handler's effects, the link
      after its calls into the manager, and what escaped, if anything. */
  datatype Handled = Handled(effects: seq<Effect>, link: Link, escape: Option<Escape>)

  /** HandlePacket on the link l: a packet the gate drops makes no effect;
      a packet inside the guard but past the table escapes; an admitted
      packet runs its row's handler on the payload. */
  function HandleOne(p: Pending, l: Link, s: Session, ctx: Context): (h: Handled)
    ensures !Gate(p.opcode, l.state).Runs? ==> h.effects == [] && h.link == l
    ensures h.escape.Some? ==> !Gate(p.opcode, l.state).InvalidOpcode? && !Gate(p.opcode, l.state).WrongState?
  {
    match Gate(p.opcode, l.state)
    case Runs(handler) =>
      var step := Run(handler, Open(p), s, ctx);
      Handled(step.effects, AfterEffects(l, step.effects),
              if step.fault.Some? then Some(HandlerFault(p.opcode, step.fault.value)) else None)
    case PastTable => Handled([], l, Some(TableOverrun(p.opcode)))
    case _ => Handled([], l, None)
  }

  /** The session after the effects es; no effect, no change. */
  function Evolved(s: Session, es: seq<Effect>, evolve: (Session, seq<Effect>) -> Session): Session
  {
    if es == [] then s else evolve(s, es)
  }

  /** The result of draining the queue: every effect made, the packets popped,
      the packets left queued, the link after the handlers, and what escaped. */
  datatype Drained = Drained(effects: seq<Effect>, popped: seq<Pending>, remaining: seq<Pending>,
                             link: Link, escape: Option<Escape>)

  /** ProcessPending: pop each packet in arrival order and handle it; a packet
      that escapes ends the drain and the rest stay queued. The gameplay
      layer's reaction to the effects is the function evolve. */
  function Drain(q: seq<Pending>, l: Link, s: Session, ctx: Context, evolve: (Session, seq<Effect>) -> Session,
                 effects: seq<Effect>, popped: seq<Pending>): (d: Drained)
    ensures d.popped + d.remaining == popped + q
    ensures |popped| <= |d.popped| && d.popped[..|popped|] == popped
    ensures d.escape.None? ==> d.remaining == [] && d.popped == popped + q
    ensures d.escape.Some? ==> |d.popped| > |popped|
    ensures |effects| <= |d.effects| && d.effects[..|effects|] == effects
    decreases |q|
  {
    if q == [] then Drained(effects, popped, [], l, None)
    else
      var p := q[0];
      assert (popped + [p]) + q[1..] == popped + q;
      var h := HandleOne(p, l, s, ctx);
      if h.escape.Some? then Drained(effects + h.effects, popped + [p], q[1..], h.link, h.escape)
      else
        var d := Drain(q[1..], h.link, Evolved(s, h.effects, evolve), ctx, evolve, effects + h.effects, popped + [p]);
        PrefixOfPrefix(d.popped, popped, [p]);
        PrefixOfPrefix(d.effects, effects, h.effects);
        d
  }

  lemma PrefixOfPrefix<T>(s: seq<T>, a: seq<T>, b: seq<T>)
    requires |a + b| <= |s| && s[..|a + b|] == a + b
    ensures |a| <= |s| && s[..|a|] == a
  {
    assert s[..|a|] == s[..|a + b|][..|a|];
  }

  /** A packet that the gate drops makes no effect and changes no state: the
      drain goes on with the next packet as if it had not been queued. */
  lemma DroppedPacketIsInvisible(p: Pending, q: seq<Pending>, l: Link, s: Session, ctx: Context,
                                 evolve: (Session, seq<Effect>) -> Session, effects: seq<Effect>, popped: seq<Pending>)
    requires Gate(p.opcode, l.state).InvalidOpcode? || Gate(p.opcode, l.state).WrongState?
    ensures Drain([p] + q, l, s, ctx, evolve, effects, popped) == Drain(q, l, s, ctx, evolve, effects, popped + [p])
  {
    assert ([p] + q)[0] == p && ([p] + q)[1..] == q;
    assert effects + [] == effects;
  }

  // ---------------------------------------------------------------- the manager

  class NetworkManager {
    var connected: bool
    var running: bool
    var disconnectFlag: bool
    var state: ConnectionState
    var host: seq<char>
    var port: U16
    /** Packets received and not yet handled, oldest first. */
    var queue: seq<Pending>
    /** Every frame written to the socket, in order. */
    var sent: seq<seq<Byte>>
    /** Every event signalled to the application, in order. */
    var events: seq<GlobalAction>

    /** The constructor clears the three flags; the connection state is
        left uninitialised. */
    constructor ()
      ensures !connected && !disconnectFlag && !running
      ensures queue == [] && sent == [] && events == []
    {
      connected := false;
      disconnectFlag := false;
      running := false;
      queue := [];
      sent := [];
      events := [];
    }

    /** Init: clear the flags and mark the manager running (the network
        thread it spawns is the sequence of calls below). */
    method Init()
      modifies this`connected, this`running, this`disconnectFlag
      ensures !connected && running && !disconnectFlag
    {
      connected := false;
      running := true;
      disconnectFlag := false;
    }

    /** Connect: clear the disconnect flag and store the address the
        connection routine will use. */
    method Connect(h: seq<char>, p: U16)
      modifies this`disconnectFlag, this`host, this`port
      ensures !disconnectFlag && host == h && port == p
    {
      disconnectFlag := false;
      host := h;
      port := p;
    }

    /** One pass of the connection routine: START is signalled; an address
        that does not resolve or a failed connect signals UNABLE_TO_CONNECT
        and stays disconnected; a connect sets state AUTH and signals
        CONNECTED. */
    method ConnectAttempt(resolved: bool, accepted: bool)
      modifies this`connected, this`state, this`events
      ensures connected == (resolved && accepted)
      ensures connected ==> state == StateAuth && events == old(events) + [ConnectionStart, ConnectionConnected]
      ensures !connected ==> state == old(state) && events == old(events) + [ConnectionStart, ConnectionUnableToConnect]
    {
      events := events + [ConnectionStart];
      if !resolved || !accepted {
        events := events + [ConnectionUnableToConnect];
        connected := false;
        return;
      }
      connected := true;
      state := StateAuth;
      events := events + [ConnectionConnected];
    }

    /** Disconnect: raise the flag (closing the socket is not modelled). */
    method Disconnect()
      modifies this`disconnectFlag
      ensures disconnectFlag
    {
      disconnectFlag := true;
    }

    method SetConnectionState(st: ConnectionState)
      modifies this`state
      ensures state == st
    {
      state := st;
    }

    /** The end of the connected loop: when still running and disconnection
        was requested, the state goes back to NONE, the manager is no longer
        connected and DISCONNECTED is signalled. The flag stays raised until
        the next Connect. */
    method EndConnection()
      modifies this`state, this`connected, this`events
      ensures running && disconnectFlag ==>
        state == StateNone && !connected && events == old(events) + [ConnectionDisconnected]
      ensures !(running && disconnectFlag) ==>
        state == old(state) && connected == old(connected) && events == old(events)
    {
      if running && disconnectFlag {
        state := StateNone;
        connected := false;
        events := events + [ConnectionDisconnected];
      }
    }

    /** SendPacket: write the frame of the packet (header and its first size
        bytes of data) to the socket. */
    method SendPacket(pkt: SmartPacket)
      requires pkt.size <= |pkt.data|
      modifies this`sent
      ensures sent == old(sent) + [Frame(pkt.opcode, pkt.size, pkt.data)]
    {
      var op := EncodeBE(pkt.opcode, 2);
      var sz := EncodeBE(pkt.size, 2);
      sent := sent + [op + sz + pkt.data[..pkt.size]];
    }

    /** The payload loop of the network thread over the recv outcomes rs. */
    static method ReadPayload(need: nat, rs: seq<Recv>) returns (a: Assembled)
      ensures a == Assemble(need, rs, [])
    {
      var got: seq<Byte> := [];
      var i := 0;
      while |got| != need
        invariant 0 <= i <= |rs| && |got| <= need
        invariant Assemble(need, rs, []) == Assemble(need, rs[i..], got)
        decreases |rs| - i
      {
        if i == |rs| {
          return Stalled;
        }
        assert rs[i..][1..] == rs[i + 1..];
        match rs[i] {
          case WouldBlock =>
          case RecvError =>
            return Broken;
          case Data(b) =>
            if b == [] {
              return Broken;
            }
            got := got + b[..Min(|b|, need - |got|)];
        }
        i := i + 1;
      }
      return Complete(got);
    }

    /** One readable socket in the connected loop: the header recv returned
        header, the payload recvs return rs. */
    method ReceivePacket(header: seq<Byte>, rs: seq<Recv>, now: U32) returns (r: Arrival)
      requires |header| <= HeaderSize
      modifies this`queue, this`disconnectFlag
      ensures r == Receive(header, rs, now)
      ensures queue == old(queue) + (if r.Queued? then [r.packet] else [])
      ensures disconnectFlag == (old(disconnectFlag) || r.Disconnecting?)
    {
      if |header| < HeaderSize {
        disconnectFlag := true;
        return Disconnecting;
      }
      var op := HeaderOpcode(header);
      var size := HeaderSizeField(header);
      var bytes: seq<Byte> := [];
      if 0 < size < RecvBufferSize {
        var a := ReadPayload(size, rs);
        if a.Broken? {
          BrokenHasCause(size, rs, []);
          return DroppedPayload;
        }
        if a.Stalled? {
          return Waiting;
        }
        bytes := a.bytes;
      }
      r := Queued(Pending(op, bytes, now));
      queue := queue + [r.packet];
    }

    /** HandlePacket: the gate decides, an admitted packet runs its row's
        handler on the payload, and the handler's calls into the manager
        change the state and the disconnect flag. */
    method HandlePacket(p: Pending, s: Session, ctx: Context) returns (h: Handled)
      modifies this`state, this`disconnectFlag
      ensures h == HandleOne(p, Link(old(state), old(disconnectFlag)), s, ctx)
      ensures state == h.link.state && disconnectFlag == h.link.disconnect
    {
      var v := Gate(p.opcode, state);
      match v {
        case Runs(handler) =>
          var step := Dispatch(handler, Open(p), s, ctx);
          var l := AfterEffects(Link(state, disconnectFlag), step.effects);
          state := l.state;
          disconnectFlag := l.disconnect;
          h := Handled(step.effects, l, if step.fault.Some? then Some(HandlerFault(p.opcode, step.fault.value)) else None);
        case PastTable =>
          h := Handled([], Link(state, disconnectFlag), Some(TableOverrun(p.opcode)));
        case _ =>
          h := Handled([], Link(state, disconnectFlag), None);
      }
    }

    /** ProcessPending: drain the queue in order. A packet whose handling
        escapes ends the call with the rest still queued. */
    method ProcessPending(s: Session, ctx: Context, evolve: (Session, seq<Effect>) -> Session)
      returns (effects: seq<Effect>, escape: Option<Escape>)
      modifies this`queue, this`state, this`disconnectFlag
      ensures var d := Drain(old(queue), Link(old(state), old(disconnectFlag)), s, ctx, evolve, [], []);
        effects == d.effects && escape == d.escape && queue == d.remaining &&
        state == d.link.state && disconnectFlag == d.link.disconnect
    {
      effects := [];
      ghost var popped: seq<Pending> := [];
      var session := s;
      ghost var goal := Drain(queue, Link(state, disconnectFlag), s, ctx, evolve, [], []);
      while queue != []
        invariant goal == Drain(queue, Link(state, disconnectFlag), session, ctx, evolve, effects, popped)
        decreases |queue|
      {
        var p := queue[0];
        queue := queue[1..];
        var h := HandlePacket(p, session, ctx);
        if h.escape.Some? {
          return effects + h.effects, h.escape;
        }
        effects := effects + h.effects;
        popped := popped + [p];
        session := Evolved(session, h.effects, evolve);
      }
      return effects, None;
    }
  }
}
