// The constant table that maps each opcode to its handler and to the set of
// connection states in which the handler may run.
module HandlerTable {
  import opened Enums

  /** The state restriction masks: bit i admits the connection state whose
      numeric value is i. */
  const Never: bv32 := 0
  const Any: bv32 := 0xFFFF_FFFF
  const AuthOnly: bv32 := 1 << 1
  const LobbyOnly: bv32 := 1 << 2
  const GameOnly: bv32 := 1 << 3
  const Verified: bv32 := (1 << 2) | (1 << 3)

  /** The handler functions named in the table. */
  datatype Handler =
    | HandleNull
    | HandleServerSide
    | HandleLoginResponse
    | HandleCharacterList
    | HandleResourceSendStart
    | HandleResourceSendFinished
    | HandleResourceData
    | HandleResourceChecksumVerify
    | HandleEnterWorldResult
    | HandleCreateObject
    | HandleUpdateObject
    | HandleDestroyObject
    | HandleMapMetadata
    | HandleMapChunk
    | HandleMapMetaChecksumVerify
    | HandleMapChunkChecksumVerify
    | HandleImageMetadata
    | HandleImageMetaChecksumVerify
    | HandleNameQueryResponse
    | HandleMoveStartDir
    | HandleMoveStopDir
    | HandleMoveHeartbeat
    | HandleChatMessage

  datatype Entry = Entry(handler: Handler, mask: bv32)

  /** The table; the opcode is the index. It stops after SP_CHAT_MESSAGE. */
  const Table: seq<Entry> := RowsFrom0 + RowsFrom10 + RowsFrom20 + RowsFrom30

  const RowsFrom0: seq<Entry> := [
    Entry(HandleNull, Never),                     // MSG_NONE
    Entry(HandleServerSide, Never),               // CP_LOGIN_REQUEST
    Entry(HandleLoginResponse, AuthOnly),         // SP_LOGIN_RESPONSE
    Entry(HandleServerSide, Never),               // CP_CHARACTER_LIST_REQUEST
    Entry(HandleCharacterList, LobbyOnly),        // SP_CHARACTER_LIST
    Entry(HandleServerSide, Never),               // CP_REQUEST_RESOURCE
    Entry(HandleResourceSendStart, Any),          // SP_RESOURCE_SEND_START
    Entry(HandleResourceSendFinished, Any),       // SP_RESOURCE_SEND_FINISHED
    Entry(HandleResourceData, Any),               // SP_RESOURCE_DATA
    Entry(HandleServerSide, Never)                // CP_RESOURCE_VERIFY_CHECKSUM
  ]

  const RowsFrom10: seq<Entry> := [
    Entry(HandleResourceChecksumVerify, Any),     // SP_RESOURCE_VERIFY_CHECKSUM
    Entry(HandleServerSide, Never),               // CP_ENTER_WORLD
    Entry(HandleEnterWorldResult, LobbyOnly),     // SP_ENTER_WORLD_RESULT
    Entry(HandleServerSide, Never),               // CP_WORLD_ENTER_COMPLETE
    Entry(HandleCreateObject, Verified),          // SP_CREATE_OBJECT
    Entry(HandleUpdateObject, Verified),          // SP_UPDATE_OBJECT
    Entry(HandleDestroyObject, Verified),         // SP_DESTROY_OBJECT
    Entry(HandleServerSide, Never),               // CP_GET_MAP_METADATA
    Entry(HandleMapMetadata, Verified),           // SP_MAP_METADATA
    Entry(HandleServerSide, Never)                // CP_GET_MAP_CHUNK
  ]

  const RowsFrom20: seq<Entry> := [
    Entry(HandleMapChunk, Verified),              // SP_MAP_CHUNK
    Entry(HandleServerSide, Never),               // CP_MAP_METADATA_VERIFY_CHECKSUM
    Entry(HandleServerSide, Never),               // CP_MAP_CHUNK_VERIFY_CHECKSUM
    Entry(HandleMapMetaChecksumVerify, Verified), // SP_MAP_METADATA_VERIFY_CHECKSUM
    Entry(HandleMapChunkChecksumVerify, Verified), // SP_MAP_CHUNK_VERIFY_CHECKSUM
    Entry(HandleServerSide, Never),               // CP_GET_IMAGE_METADATA
    Entry(HandleImageMetadata, Verified),         // SP_IMAGE_METADATA
    Entry(HandleServerSide, Never),               // CP_VERIFY_IMAGE_METADATA_CHECKSUM
    Entry(HandleImageMetaChecksumVerify, Verified), // SP_VERIFY_IMAGE_METADATA_CHECKSUM
    Entry(HandleServerSide, Never)                // CP_NAME_QUERY
  ]

  const RowsFrom30: seq<Entry> := [
    Entry(HandleNameQueryResponse, Verified),     // SP_NAME_QUERY_RESPONSE
    Entry(HandleServerSide, Never),               // CP_MOVE_START_DIRECTION
    Entry(HandleServerSide, Never),               // CP_MOVE_STOP_DIRECTION
    Entry(HandleServerSide, Never),               // CP_MOVE_HEARTBEAT
    Entry(HandleMoveStartDir, GameOnly),          // SP_MOVE_START_DIRECTION
    Entry(HandleMoveStopDir, GameOnly),           // SP_MOVE_STOP_DIRECTION
    Entry(HandleMoveHeartbeat, GameOnly),         // SP_MOVE_HEARTBEAT
    Entry(HandleServerSide, Never),               // CP_CHAT_MESSAGE
    Entry(HandleChatMessage, GameOnly)            // SP_CHAT_MESSAGE
  ]

  /** A mask admits a state when the state's bit is set. */
  predicate Admits(mask: bv32, s: ConnectionState)
  {
    mask & (1 << s.Index()) != 0
  }

  /** The table rows in which a state is admitted. */
  predicate Accepts(op: nat, s: ConnectionState)
  {
    op < |Table| && Admits(Table[op].mask, s)
  }

  lemma TableLength()
    ensures |Table| == 39 == SpChatMessage as int + 1
    ensures |Table| < MaxOpcodes as int
  {
  }

  /** The null handler sits at MSG_NONE and the server-side placeholder at
      exactly the client-to-server opcodes; only those two carry the NEVER
      mask. */
  predicate RowKind(op: nat)
    requires op < |Table|
  {
    && (Table[op].handler == HandleNull <==> op == MsgNone as int)
    && (Table[op].handler == HandleServerSide <==> IsClientOpcode(op))
    && (Table[op].mask == Never <==> op == MsgNone as int || IsClientOpcode(op))
  }

  lemma NeverMaskedRows(op: nat)
    requires op < |Table|
    ensures Table[op].handler == HandleNull <==> op == MsgNone as int
    ensures Table[op].handler == HandleServerSide <==> IsClientOpcode(op)
    ensures Table[op].mask == Never <==> op == MsgNone as int || IsClientOpcode(op)
  {
    if op < 10 {
      RowKindLow(op);
    } else if op < 20 {
      RowKindMid(op);
    } else if op < 30 {
      RowKindHigh(op);
    } else {
      RowKindTop(op);
    }
  }

  lemma RowKindLow(op: nat)
    requires 0 <= op < 10
    ensures RowKind(op)
  {
    if op == 0 {
    } else if op == 1 {
    } else if op == 2 {
    } else if op == 3 {
    } else if op == 4 {
    } else if op == 5 {
    } else if op == 6 {
    } else if op == 7 {
    } else if op == 8 {
    } else {
      assert op == 9;
    }
  }

  lemma RowKindMid(op: nat)
    requires 10 <= op < 20
    ensures RowKind(op)
  {
    if op == 10 {
    } else if op == 11 {
    } else if op == 12 {
    } else if op == 13 {
    } else if op == 14 {
    } else if op == 15 {
    } else if op == 16 {
    } else if op == 17 {
    } else if op == 18 {
    } else {
      assert op == 19;
    }
  }

  lemma RowKindHigh(op: nat)
    requires 20 <= op < 30
    ensures RowKind(op)
  {
    if op == 20 {
    } else if op == 21 {
    } else if op == 22 {
    } else if op == 23 {
    } else if op == 24 {
    } else if op == 25 {
    } else if op == 26 {
    } else if op == 27 {
    } else if op == 28 {
    } else {
      assert op == 29;
    }
  }

  lemma RowKindTop(op: nat)
    requires 30 <= op < 39
    ensures RowKind(op)
  {
    if op == 30 {
    } else if op == 31 {
    } else if op == 32 {
    } else if op == 33 {
    } else if op == 34 {
    } else if op == 35 {
    } else if op == 36 {
    } else if op == 37 {
    } else {
      assert op == 38;
    }
  }

  /** Which states each mask admits. */
  lemma MaskStates(s: ConnectionState)
    ensures Admits(AuthOnly, s) <==> s == StateAuth
    ensures Admits(LobbyOnly, s) <==> s == StateLobby
    ensures Admits(GameOnly, s) <==> s == StateInGame
    ensures Admits(Verified, s) <==> s == StateLobby || s == StateInGame
    ensures Admits(Any, s)
    ensures !Admits(Never, s)
  {
  }

  /** The login response runs only while authenticating; the character list
      and the enter-world result only in the lobby. */
  lemma LoginAndLobbyRows(s: ConnectionState)
    ensures Accepts(SpLoginResponse as nat, s) <==> s == StateAuth
    ensures Accepts(SpCharacterList as nat, s) <==> s == StateLobby
    ensures Accepts(SpEnterWorldResult as nat, s) <==> s == StateLobby
  {
    MaskStates(s);
  }

  /** The resource stream replies run in every state, NONE included. */
  lemma ResourceRowsAnyState(s: ConnectionState)
    ensures Accepts(SpResourceSendStart as nat, s)
    ensures Accepts(SpResourceSendFinished as nat, s)
    ensures Accepts(SpResourceData as nat, s)
    ensures Accepts(SpResourceVerifyChecksum as nat, s)
  {
    MaskStates(s);
  }

  /** Object, map, chunk, image metadata, checksum verify and name query
      replies run in the lobby and in game. */
  lemma VerifiedRows(op: nat, s: ConnectionState)
    requires op in {SpCreateObject as nat, SpUpdateObject as nat, SpDestroyObject as nat,
                    SpMapMetadata as nat, SpMapChunk as nat, SpMapMetadataVerifyChecksum as nat,
                    SpMapChunkVerifyChecksum as nat, SpImageMetadata as nat,
                    SpVerifyImageMetadataChecksum as nat, SpNameQueryResponse as nat}
    ensures Accepts(op, s) <==> s == StateLobby || s == StateInGame
  {
    MaskStates(s);
  }

  /** Movement and chat replies run only in game. */
  lemma GameRows(op: nat, s: ConnectionState)
    requires op in {SpMoveStartDirection as nat, SpMoveStopDirection as nat,
                    SpMoveHeartbeat as nat, SpChatMessage as nat}
    ensures Accepts(op, s) <==> s == StateInGame
  {
    MaskStates(s);
  }

  /** No table row names a dialogue, inventory or item handler: those opcodes
      lie past the end of the table. */
  lemma DialogueAndInventoryHaveNoRow(op: nat, s: ConnectionState)
    requires op in {SpDialogueData as nat, SpDialogueClose as nat, SpInventory as nat,
                    SpItemQueryResponse as nat, SpItemOperationInfo as nat,
                    SpUpdateInventorySlot as nat}
    ensures op >= |Table| && !Accepts(op, s)
  {
  }
}
