// Constants shared by the client and the server: connection states, opcodes,
// status codes, resource types, movement directions, talk types, global
// application events and stage types.
module Enums {
  import opened Bytes

  /** The connection state the dispatcher gates packets on. */
  datatype ConnectionState = StateNone | StateAuth | StateLobby | StateInGame
  {
    /** The numeric value of the enumerator, used as a bit position in the
        state restriction masks. */
    function Index(): (i: nat)
      ensures i < 4
    {
      match this
      case StateNone => 0
      case StateAuth => 1
      case StateLobby => 2
      case StateInGame => 3
    }
  }

  const MsgNone: U16 := 0
  const CpLoginRequest: U16 := 1
  const SpLoginResponse: U16 := 2
  const CpCharacterListRequest: U16 := 3
  const SpCharacterList: U16 := 4
  const CpRequestResource: U16 := 5
  const SpResourceSendStart: U16 := 6
  const SpResourceSendFinished: U16 := 7
  const SpResourceData: U16 := 8
  const CpResourceVerifyChecksum: U16 := 9
  const SpResourceVerifyChecksum: U16 := 10
  const CpEnterWorld: U16 := 11
  const SpEnterWorldResult: U16 := 12
  const CpWorldEnterComplete: U16 := 13
  const SpCreateObject: U16 := 14
  const SpUpdateObject: U16 := 15
  const SpDestroyObject: U16 := 16
  const CpGetMapMetadata: U16 := 17
  const SpMapMetadata: U16 := 18
  const CpGetMapChunk: U16 := 19
  const SpMapChunk: U16 := 20
  const CpMapMetadataVerifyChecksum: U16 := 21
  const CpMapChunkVerifyChecksum: U16 := 22
  const SpMapMetadataVerifyChecksum: U16 := 23
  const SpMapChunkVerifyChecksum: U16 := 24
  const CpGetImageMetadata: U16 := 25
  const SpImageMetadata: U16 := 26
  const CpVerifyImageMetadataChecksum: U16 := 27
  const SpVerifyImageMetadataChecksum: U16 := 28
  const CpNameQuery: U16 := 29
  const SpNameQueryResponse: U16 := 30
  const CpMoveStartDirection: U16 := 31
  const CpMoveStopDirection: U16 := 32
  const CpMoveHeartbeat: U16 := 33
  const SpMoveStartDirection: U16 := 34
  const SpMoveStopDirection: U16 := 35
  const SpMoveHeartbeat: U16 := 36
  const CpChatMessage: U16 := 37
  const SpChatMessage: U16 := 38
  const CpInteractionRequest: U16 := 39
  const SpDialogueData: U16 := 40
  const CpDialogueDecision: U16 := 41
  const SpDialogueClose: U16 := 42
  const CpInventoryQuery: U16 := 43
  const SpInventory: U16 := 44
  const CpItemQuery: U16 := 45
  const SpItemQueryResponse: U16 := 46
  const CpInventoryMoveItem: U16 := 47
  const CpInventoryRemoveItem: U16 := 48
  const SpItemOperationInfo: U16 := 49
  const SpUpdateInventorySlot: U16 := 50
  /** One past the last opcode. */
  const MaxOpcodes: U16 := 51

  /** The client-to-server opcodes (the CP_ prefix in the opcode enumeration). */
  predicate IsClientOpcode(op: int)
  {
    op in {CpLoginRequest, CpCharacterListRequest, CpRequestResource, CpResourceVerifyChecksum,
           CpEnterWorld, CpWorldEnterComplete, CpGetMapMetadata, CpGetMapChunk,
           CpMapMetadataVerifyChecksum, CpMapChunkVerifyChecksum, CpGetImageMetadata,
           CpVerifyImageMetadataChecksum, CpNameQuery, CpMoveStartDirection, CpMoveStopDirection,
           CpMoveHeartbeat, CpChatMessage, CpInteractionRequest, CpDialogueDecision,
           CpInventoryQuery, CpItemQuery, CpInventoryMoveItem, CpInventoryRemoveItem}
  }

  const GenericStatusOk: Byte := 0

  const AuthStatusOk: Byte := 0
  const AuthStatusUnknownUser: Byte := 1
  const AuthStatusInvalidPassword: Byte := 2
  const AuthStatusBanned: Byte := 3
  const AuthStatusIncompatibleVersion: Byte := 4

  const EnterWorldOk: Byte := 0

  const ResourceGeneric: Byte := 0
  const ResourceImage: Byte := 1

  const MoveUp: Byte := 1
  const MoveRight: Byte := 2
  const MoveDown: Byte := 4
  const MoveLeft: Byte := 8

  const TalkSay: Byte := 0
  const TalkYell: Byte := 1
  const TalkServerMessage: Byte := 2

  /** Events broadcast to the current stage. */
  datatype GlobalAction =
    | ConnectionStart
    | ConnectionConnected
    | ConnectionDisconnected
    | ConnectionFetching
    | ConnectionSuccess
    | ConnectionUnableToConnect
    | ConnectionInvalidUser
    | ConnectionInvalidPassword
    | ConnectionIncompatibleVersion
    | ConnectionBanned
    | CharacterListAcquired

  /** Stage type codes; any other value is not a stage. */
  type StageType = U32
  const StageNone: StageType := 0
  const StageMenu: StageType := 1
  const StageLobby: StageType := 2
  const StageConnecting: StageType := 3
  const StageGame: StageType := 4
}
