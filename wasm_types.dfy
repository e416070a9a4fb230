/**
 * The records the legacy querier reads from the keeper and returns to its
 * callers, and the part of the SDK context it touches: the gas meter.
 */
module WasmTypes {
  import opened GoTypes

  /** `sdk.AccAddress`: the raw bytes of an account address. */
  type Address = Bytes

  datatype AccessType = AccessTypeUnspecified | AccessTypeNobody | AccessTypeOnlyAddress | AccessTypeEverybody

  /** Who may instantiate a code. */
  datatype AccessConfig = AccessConfig(permission: AccessType, address: string)

  /** A stored code as the keeper keeps it. */
  datatype CodeInfo = CodeInfo(codeHash: Bytes, creator: string, instantiateConfig: AccessConfig)

  /** A stored code as `list-code` reports it. */
  datatype CodeInfoResponse = CodeInfoResponse(codeId: uint64, creator: string, dataHash: Bytes, instantiatePermission: AccessConfig)

  /** The answer of `code`: the code's metadata and its bytecode. */
  datatype CodeResponse = CodeResponse(info: CodeInfoResponse, data: Bytes)

  /** The answer of `contract-info`. */
  datatype ContractInfoResponse = ContractInfoResponse(address: string, codeId: uint64, creator: string, admin: string, contractLabel: string)

  datatype ContractCodeHistoryOperationType = OperationUnspecified | OperationInit | OperationMigrate | OperationGenesis

  /** The block height and transaction index at which a history entry was written. */
  datatype AbsoluteTxPosition = AbsoluteTxPosition(blockHeight: uint64, txIndex: uint64)

  /** One code change of a contract; `updated` is the internal marker the query path must not expose. */
  datatype ContractCodeHistoryEntry = ContractCodeHistoryEntry(
    operation: ContractCodeHistoryOperationType,
    codeId: uint64,
    updated: Option<AbsoluteTxPosition>,
    msg: Bytes)

  /** One cell of a contract's storage. */
  datatype Model = Model(key: Bytes, value: Bytes)

  datatype GasMeter =
    | InfiniteGasMeter(consumed: uint64)
    | BasicGasMeter(limit: uint64, consumed: uint64)

  /** `sdk.NewGasMeter(limit)`: a fresh meter bounded by `limit` that has consumed nothing. */
  function NewGasMeter(limit: uint64): GasMeter
  {
    BasicGasMeter(limit, 0)
  }

  /** `sdk.Context`, reduced to what distinguishes one query's context from another's. */
  datatype Context = Context(chainId: string, blockHeight: int, gasMeter: GasMeter)

  /** `ctx.WithGasMeter(m)`: the same context with its meter replaced. */
  function WithGasMeter(ctx: Context, m: GasMeter): Context
  {
    ctx.(gasMeter := m)
  }
}
