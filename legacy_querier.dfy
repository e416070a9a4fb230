/**
 * The legacy contract query router of the wasm module. A query is a path
 * (the query kind, then positional arguments) and a request body; the
 * router parses the arguments, reads a keeper, and either returns nothing,
 * returns the handler's error, or returns the response as indented JSON.
 * `contract-state` answers are returned as the executors produce them.
 *
 * The keeper is a fixed snapshot (sequences in iteration order and lookup
 * functions) and every other collaborator is a parameter. Each query also
 * yields the list of keeper calls it made, so "no keeper call on this path"
 * is a statement about that list.
 */
module LegacyQuerier {
  import opened GoTypes
  import opened SdkErrors
  import opened WasmTypes
  import Strconv

  // The query kinds, matched against the first path segment.
  const QueryListContractByCode := "list-contracts-by-code"
  const QueryGetContract := "contract-info"
  const QueryGetContractState := "contract-state"
  const QueryGetCode := "code"
  const QueryListCode := "list-code"
  const QueryContractHistory := "contract-history"
  const QueryInactiveContracts := "inactive-contracts"
  const QueryIsInactiveContract := "inactive-contract"

  // The sub-methods of `contract-state`, matched against the third path segment.
  const QueryMethodContractStateSmart := "smart"
  const QueryMethodContractStateAll := "all"
  const QueryMethodContractStateRaw := "raw"

  predicate IsQueryKind(k: string)
  {
    || k == QueryListContractByCode || k == QueryGetContract || k == QueryGetContractState
    || k == QueryGetCode || k == QueryListCode || k == QueryContractHistory
    || k == QueryInactiveContracts || k == QueryIsInactiveContract
  }

  /** The kinds whose handler reads `path[1]` without first checking the path's length. */
  predicate ReadsArgument(k: string)
  {
    || k == QueryGetContract || k == QueryListContractByCode || k == QueryGetCode
    || k == QueryContractHistory || k == QueryIsInactiveContract
  }

  /** The `([]byte, error)` pair the querier returns. */
  datatype Reply = Reply(body: GoBytes, err: Option<Error>)

  datatype PanicCause =
    /** `path[index]` on a path of `length` segments. */
    | IndexOutOfRange(index: nat, length: nat)
    /** `reflect.ValueOf(rsp).IsNil()` on a value of a kind that cannot be nil (a bool). */
    | IsNilOnBool
    /** The out-of-gas panic of the meter `QuerySmart` runs under, which the querier does not recover. */
    | OutOfGas

  datatype Outcome = Returned(reply: Reply) | Panicked(cause: PanicCause)

  /** How a `QuerySmart` call ends: with its `([]byte, error)` pair, or aborted by running out of gas. */
  datatype SmartRun = Answered(reply: Reply) | GasExhausted

  /** A smart query's reply passes through as it is; its out-of-gas abort becomes the querier's panic. */
  function SmartOutcome(v: SmartRun): Outcome
  {
    match v
    case Answered(reply) => Returned(reply)
    case GasExhausted => Panicked(OutOfGas)
  }

  /** A (pointer, error) pair from a lookup helper; a nil pointer with no error means "not found". */
  datatype Fetched<+T> = Fetched(ptr: Option<T>, err: Option<Error>)

  /** The value held by the handler's `rsp interface{}`, tagged by its dynamic type. */
  datatype Response =
    | ContractInfoRsp(info: Option<ContractInfoResponse>)      // *ContractInfoResponse
    | ContractListRsp(contracts: Slice<string>)                // []string
    | CodeRsp(code: Option<CodeResponse>)                      // *QueryCodeResponse
    | CodeListRsp(infos: Slice<CodeInfoResponse>)              // []CodeInfoResponse
    | HistoryRsp(entries: Slice<ContractCodeHistoryEntry>)     // []ContractCodeHistoryEntry
    | InactiveListRsp(contracts: Slice<string>)                // []string
    | IsInactiveRsp(inactive: bool)                            // bool

  /** A call into the keeper, recorded with its arguments. */
  datatype KeeperCall =
    | CallContractInfo(addr: Address)
    | CallContractsByCode(codeId: uint64)
    | CallContractState(addr: Address)
    | CallQueryRaw(addr: Address, key: GoBytes)
    | CallQuerySmart(ctx: Context, addr: Address, msg: GoBytes)
    | CallCode(codeId: uint64)
    | CallCodeInfos
    | CallContractHistory(addr: Address)
    | CallInactiveContracts
    | CallIsInactive(addr: Address)

  /** What one query returns and which keeper calls it made, in order. */
  datatype Run = Run(outcome: Outcome, calls: seq<KeeperCall>)

  /** The collaborators that are not part of the model. */
  datatype Env = Env(
    accAddressFromBech32: string -> Result<Address>,   // sdk.AccAddressFromBech32
    addressString: Address -> string,                  // AccAddress.String
    validateBasic: GoBytes -> Option<Error>,           // RawContractMessage.ValidateBasic
    marshal: Slice<Model> -> Result<Bytes>,            // json.Marshal of the state cells
    marshalIndent: Response -> Result<Bytes>)          // json.MarshalIndent(rsp, "", "  ")

  /** A read-only snapshot of what `types.ViewKeeper` answers. */
  datatype ViewKeeper = ViewKeeper(
    contractInfo: Address -> Fetched<ContractInfoResponse>,   // what queryContractInfo returns
    code: uint64 -> Fetched<CodeResponse>,                    // what queryCode returns
    codeInfos: seq<(uint64, CodeInfo)>,                       // IterateCodeInfos, in iteration order
    contractsByCode: uint64 -> seq<Address>,                  // IterateContractsByCode, in iteration order
    contractHistory: Address -> Slice<ContractCodeHistoryEntry>,  // GetContractHistory
    inactiveContracts: seq<Address>,                          // IterateInactiveContracts, in iteration order
    isInactive: Address -> bool,                              // IsInactiveContract
    contractState: Address -> seq<(Bytes, Bytes)>,            // IterateContractState, in iteration order
    queryRaw: (Address, GoBytes) -> GoBytes,                  // QueryRaw
    querySmart: (Context, Address, GoBytes) -> SmartRun)      // QuerySmart, which runs the contract in the VM

  function Fail(e: Error): Outcome
  {
    Returned(Reply(Nil, Some(e)))
  }

  function UnknownEndpoint(): Error
  {
    Wrapped(Registered(ErrUnknownRequest), "unknown data query endpoint")
  }

  function CodeIdError(e: Strconv.NumError): Error
  {
    Wrapped(Registered(ErrInvalid), "code id: " + Strconv.NumErrorText(e))
  }

  /** One `list-code` entry: the iterated id, and the stored code with two fields renamed. */
  function ToCodeInfoResponse(item: (uint64, CodeInfo)): CodeInfoResponse
  {
    CodeInfoResponse(item.0, item.1.creator, item.1.codeHash, item.1.instantiateConfig)
  }

  function ToModel(cell: (Bytes, Bytes)): Model
  {
    Model(cell.0, cell.1)
  }

  /** The history with every `Updated` marker cleared; a nil history stays nil. */
  function Redacted(history: Slice<ContractCodeHistoryEntry>): Slice<ContractCodeHistoryEntry>
  {
    match history
    case Nil => Nil
    case Items(s) => Items(seq(|s|, i requires 0 <= i < |s| => s[i].(updated := None)))
  }

  // ---------------------------------------------------------------------
  // The router as functions

  /** How the switch ends: with a result, or with a handler's `rsp` and `err` still to be finished. */
  datatype Step =
    | Finished(run: Run)
    | Handled(rsp: Response, err: Option<Error>, calls: seq<KeeperCall>)

  /** The `switch path[0]` of the querier closure. */
  function Dispatch(env: Env, keeper: ViewKeeper, gasLimit: uint64, ctx: Context, path: seq<string>, data: GoBytes): Step
  {
    if |path| == 0 then Finished(Run(Panicked(IndexOutOfRange(0, 0)), []))
    else if path[0] == QueryGetContractState then
      if |path| < 3 then Finished(Run(Fail(UnknownEndpoint()), []))
      else Finished(ContractState(env, keeper, gasLimit, ctx, path[1], path[2], data))
    else if path[0] == QueryListCode then
      Handled(CodeListRsp(Appended(Nil, ToCodeInfoResponse, keeper.codeInfos)), None, [CallCodeInfos])
    else if path[0] == QueryInactiveContracts then
      Handled(InactiveListRsp(Appended(Nil, env.addressString, keeper.inactiveContracts)), None, [CallInactiveContracts])
    else if !ReadsArgument(path[0]) then Finished(Run(Fail(UnknownEndpoint()), []))
    else if |path| < 2 then Finished(Run(Panicked(IndexOutOfRange(1, |path|)), []))
    else if path[0] == QueryListContractByCode || path[0] == QueryGetCode then
      match Strconv.ParsedUint(path[1])
      case Failed(e) => Finished(Run(Fail(CodeIdError(e)), []))
      case Num(codeId) =>
        if path[0] == QueryListContractByCode then
          Handled(ContractListRsp(Appended(Nil, env.addressString, keeper.contractsByCode(codeId))), None, [CallContractsByCode(codeId)])
        else
          var f := keeper.code(codeId);
          Handled(CodeRsp(f.ptr), f.err, [CallCode(codeId)])
    else
      match env.accAddressFromBech32(path[1])
      case Err(text) => Finished(Run(Fail(Wrapped(Registered(ErrInvalidAddress), text)), []))
      case Ok(addr) =>
        if path[0] == QueryGetContract then
          var f := keeper.contractInfo(addr);
          Handled(ContractInfoRsp(f.ptr), f.err, [CallContractInfo(addr)])
        else if path[0] == QueryContractHistory then
          Handled(HistoryRsp(Redacted(keeper.contractHistory(addr))), None, [CallContractHistory(addr)])
        else
          Handled(IsInactiveRsp(keeper.isInactive(addr)), None, [CallIsInactive(addr)])
  }

  /** `queryContractState`: the address first, then the sub-method. */
  function ContractState(env: Env, keeper: ViewKeeper, gasLimit: uint64, ctx: Context, bech: string, queryMethod: string, data: GoBytes): Run
  {
    match env.accAddressFromBech32(bech)
    case Err(_) => Run(Fail(Wrapped(Registered(ErrInvalidAddress), bech)), [])
    case Ok(addr) =>
      if queryMethod == QueryMethodContractStateAll then
        var calls := [CallContractState(addr)];
        match env.marshal(Appended(Items([]), ToModel, keeper.contractState(addr)))
        case Err(text) => Run(Fail(Wrapped(Registered(ErrJSONMarshal), text)), calls)
        case Ok(bz) => Run(Returned(Reply(Items(bz), None)), calls)
      else if queryMethod == QueryMethodContractStateRaw then
        Run(Returned(Reply(keeper.queryRaw(addr, data), None)), [CallQueryRaw(addr, data)])
      else if queryMethod == QueryMethodContractStateSmart then
        var queryCtx := WithGasMeter(ctx, NewGasMeter(gasLimit));
        match env.validateBasic(data)
        case Some(e) => Run(Fail(Wrapped(e, "json msg")), [])
        case None => Run(SmartOutcome(keeper.querySmart(queryCtx, addr, data)), [CallQuerySmart(queryCtx, addr, data)])
      else Run(Fail(Wrapped(Registered(ErrUnknownRequest), queryMethod)), [])
  }

  datatype NilCheck = IsNil | NotNil | IsNilPanics

  /**
   * `rsp == nil || reflect.ValueOf(rsp).IsNil()`. The first test never holds,
   * since every branch stores a typed value; `IsNil` panics on a bool.
   */
  function ReflectIsNil(rsp: Response): NilCheck
  {
    match rsp
    case ContractInfoRsp(p) => if p.None? then IsNil else NotNil
    case ContractListRsp(s) => if s.Nil? then IsNil else NotNil
    case CodeRsp(p) => if p.None? then IsNil else NotNil
    case CodeListRsp(s) => if s.Nil? then IsNil else NotNil
    case HistoryRsp(s) => if s.Nil? then IsNil else NotNil
    case InactiveListRsp(s) => if s.Nil? then IsNil else NotNil
    case IsInactiveRsp(_) => IsNilPanics
  }

  /** The indented-JSON step. */
  function Serialize(env: Env, rsp: Response, calls: seq<KeeperCall>): Run
  {
    match env.marshalIndent(rsp)
    case Err(text) => Run(Fail(Wrapped(Registered(ErrJSONMarshal), text)), calls)
    case Ok(bz) => Run(Returned(Reply(Items(bz), None)), calls)
  }

  /** After the switch: the handler's error, then the nil check, then serialisation. */
  function Finish(env: Env, rsp: Response, err: Option<Error>, calls: seq<KeeperCall>): Run
  {
    if err.Some? then Run(Fail(err.value), calls)
    else match ReflectIsNil(rsp)
      case IsNilPanics => Run(Panicked(IsNilOnBool), calls)
      case IsNil => Run(Returned(Reply(Nil, None)), calls)
      case NotNil => Serialize(env, rsp, calls)
  }

  /** The querier closure returned by `NewLegacyQuerier(keeper, gasLimit)`, applied to one query. */
  function Query(env: Env, keeper: ViewKeeper, gasLimit: uint64, ctx: Context, path: seq<string>, data: GoBytes): Run
  {
    match Dispatch(env, keeper, gasLimit, ctx, path, data)
    case Finished(run) => run
    case Handled(rsp, err, calls) => Finish(env, rsp, err, calls)
  }

  // ---------------------------------------------------------------------
  // The nil check restricted to kinds that can be nil

  /** Only a response of a nil-able kind can be nil; a bool is never nil and is serialised. */
  function FinishFixed(env: Env, rsp: Response, err: Option<Error>, calls: seq<KeeperCall>): Run
  {
    if err.Some? then Run(Fail(err.value), calls)
    else if !rsp.IsInactiveRsp? && ReflectIsNil(rsp) == IsNil then Run(Returned(Reply(Nil, None)), calls)
    else Serialize(env, rsp, calls)
  }

  /** The querier with the nil check applied only to nil-able kinds. */
  function QueryFixed(env: Env, keeper: ViewKeeper, gasLimit: uint64, ctx: Context, path: seq<string>, data: GoBytes): Run
  {
    match Dispatch(env, keeper, gasLimit, ctx, path, data)
    case Finished(run) => run
    case Handled(rsp, err, calls) => FinishFixed(env, rsp, err, calls)
  }

  // ---------------------------------------------------------------------
  // The router as it runs: loops that append, in-place redaction

  /** `queryCodeList`: one entry per iterated code, in iteration order; nil when there is none. */
  method HandleCodeList(keeper: ViewKeeper) returns (info: Slice<CodeInfoResponse>)
    ensures info == Appended(Nil, ToCodeInfoResponse, keeper.codeInfos)
    ensures info.Nil? <==> |keeper.codeInfos| == 0
    ensures |Elems(info)| == |keeper.codeInfos|
    ensures forall i :: 0 <= i < |keeper.codeInfos| ==>
      var (id, res) := keeper.codeInfos[i];
      Elems(info)[i] == CodeInfoResponse(id, res.creator, res.codeHash, res.instantiateConfig)
  {
    var items := keeper.codeInfos;
    info := Nil;
    for i := 0 to |items|
      invariant info == Appended(Nil, ToCodeInfoResponse, items[..i])
    {
      AppendedStep(Nil, ToCodeInfoResponse, items, i);
      var (id, res) := items[i];
      info := Append(info, CodeInfoResponse(id, res.creator, res.codeHash, res.instantiateConfig));
    }
    assert items[..|items|] == items;
    AppendedToNil(ToCodeInfoResponse, items);
  }

  /** `queryContractListByCode`: the address string of each contract of the code, in iteration order. */
  method HandleContractListByCode(env: Env, keeper: ViewKeeper, codeId: uint64) returns (contracts: Slice<string>)
    ensures contracts == Appended(Nil, env.addressString, keeper.contractsByCode(codeId))
    ensures contracts.Nil? <==> |keeper.contractsByCode(codeId)| == 0
    ensures |Elems(contracts)| == |keeper.contractsByCode(codeId)|
    ensures forall i :: 0 <= i < |keeper.contractsByCode(codeId)| ==>
      Elems(contracts)[i] == env.addressString(keeper.contractsByCode(codeId)[i])
  {
    var addrs := keeper.contractsByCode(codeId);
    contracts := Nil;
    for i := 0 to |addrs|
      invariant contracts == Appended(Nil, env.addressString, addrs[..i])
    {
      AppendedStep(Nil, env.addressString, addrs, i);
      contracts := Append(contracts, env.addressString(addrs[i]));
    }
    assert addrs[..|addrs|] == addrs;
    AppendedToNil(env.addressString, addrs);
  }

  /** `queryInactiveContracts`: the address string of each inactive contract, in iteration order. */
  method HandleInactiveContracts(env: Env, keeper: ViewKeeper) returns (contracts: Slice<string>)
    ensures contracts == Appended(Nil, env.addressString, keeper.inactiveContracts)
    ensures contracts.Nil? <==> |keeper.inactiveContracts| == 0
    ensures |Elems(contracts)| == |keeper.inactiveContracts|
    ensures forall i :: 0 <= i < |keeper.inactiveContracts| ==>
      Elems(contracts)[i] == env.addressString(keeper.inactiveContracts[i])
  {
    var addrs := keeper.inactiveContracts;
    contracts := Nil;
    for i := 0 to |addrs|
      invariant contracts == Appended(Nil, env.addressString, addrs[..i])
    {
      AppendedStep(Nil, env.addressString, addrs, i);
      contracts := Append(contracts, env.addressString(addrs[i]));
    }
    assert addrs[..|addrs|] == addrs;
    AppendedToNil(env.addressString, addrs);
  }

  /**
   * `queryContractHistory`: the stored entries, same number and order, each
   * with `Updated` cleared in place and every other field as stored.
   */
  method HandleContractHistory(keeper: ViewKeeper, contractAddr: Address) returns (history: Slice<ContractCodeHistoryEntry>)
    ensures history == Redacted(keeper.contractHistory(contractAddr))
    ensures history.Nil? <==> keeper.contractHistory(contractAddr).Nil?
    ensures |Elems(history)| == |Elems(keeper.contractHistory(contractAddr))|
    ensures forall i :: 0 <= i < |Elems(history)| ==>
      var stored := Elems(keeper.contractHistory(contractAddr))[i];
      && Elems(history)[i].updated.None?
      && Elems(history)[i].operation == stored.operation
      && Elems(history)[i].codeId == stored.codeId
      && Elems(history)[i].msg == stored.msg
  {
    match keeper.contractHistory(contractAddr)
    case Nil =>
      history := Nil;
    case Items(s) =>
      var a := new ContractCodeHistoryEntry[|s|](i requires 0 <= i < |s| => s[i]);
      for i := 0 to a.Length
        invariant forall k :: 0 <= k < i ==> a[k] == s[k].(updated := None)
        invariant forall k :: i <= k < a.Length ==> a[k] == s[k]
      {
        a[i] := a[i].(updated := None);
      }
      history := Items(a[..]);
  }

  /** `queryContractState`, with the `all` branch's loop over the iterated cells. */
  method HandleContractState(env: Env, keeper: ViewKeeper, gasLimit: uint64, ctx: Context, bech: string, queryMethod: string, data: GoBytes)
    returns (run: Run)
    ensures run == ContractState(env, keeper, gasLimit, ctx, bech, queryMethod, data)
  {
    var parsed := env.accAddressFromBech32(bech);
    if parsed.Err? {
      return Run(Fail(Wrapped(Registered(ErrInvalidAddress), bech)), []);
    }
    var contractAddr := parsed.value;
    if queryMethod == QueryMethodContractStateAll {
      var cells := keeper.contractState(contractAddr);
      var resultData: Slice<Model> := Items([]);
      for i := 0 to |cells|
        invariant resultData == Appended(Items([]), ToModel, cells[..i])
      {
        AppendedStep(Items([]), ToModel, cells, i);
        resultData := Append(resultData, Model(cells[i].0, cells[i].1));
      }
      assert cells[..|cells|] == cells;
      var calls := [CallContractState(contractAddr)];
      var bz := env.marshal(resultData);
      if bz.Err? {
        return Run(Fail(Wrapped(Registered(ErrJSONMarshal), bz.text)), calls);
      }
      return Run(Returned(Reply(Items(bz.value), None)), calls);
    } else if queryMethod == QueryMethodContractStateRaw {
      return Run(Returned(Reply(keeper.queryRaw(contractAddr, data), None)), [CallQueryRaw(contractAddr, data)]);
    } else if queryMethod == QueryMethodContractStateSmart {
      var queryCtx := WithGasMeter(ctx, NewGasMeter(gasLimit));
      var invalid := env.validateBasic(data);
      if invalid.Some? {
        return Run(Fail(Wrapped(invalid.value, "json msg")), []);
      }
      var result := keeper.querySmart(queryCtx, contractAddr, data);
      return Run(SmartOutcome(result), [CallQuerySmart(queryCtx, contractAddr, data)]);
    } else {
      return Run(Fail(Wrapped(Registered(ErrUnknownRequest), queryMethod)), []);
    }
  }

  /**
   * The querier closure as it runs. It follows the switch of `Dispatch`
   * branch by branch; what it adds is that the list, history and
   * contract-state branches run the loop handlers above instead of their
   * fold functions.
   */
  method HandleQuery(env: Env, keeper: ViewKeeper, gasLimit: uint64, ctx: Context, path: seq<string>, data: GoBytes)
    returns (run: Run)
    ensures run == Query(env, keeper, gasLimit, ctx, path, data)
  {
    if |path| == 0 {
      return Run(Panicked(IndexOutOfRange(0, 0)), []);
    }
    var rsp: Response;
    var err: Option<Error> := None;
    var calls: seq<KeeperCall>;
    if path[0] == QueryGetContract {
      if |path| < 2 {
        return Run(Panicked(IndexOutOfRange(1, |path|)), []);
      }
      var addr := env.accAddressFromBech32(path[1]);
      if addr.Err? {
        return Run(Fail(Wrapped(Registered(ErrInvalidAddress), addr.text)), []);
      }
      var info := keeper.contractInfo(addr.value);
      rsp, err, calls := ContractInfoRsp(info.ptr), info.err, [CallContractInfo(addr.value)];
    } else if path[0] == QueryListContractByCode {
      if |path| < 2 {
        return Run(Panicked(IndexOutOfRange(1, |path|)), []);
      }
      var codeId := Strconv.ParseUint(path[1]);
      if codeId.Failed? {
        return Run(Fail(CodeIdError(codeId.err)), []);
      }
      var contracts := HandleContractListByCode(env, keeper, codeId.value);
      rsp, calls := ContractListRsp(contracts), [CallContractsByCode(codeId.value)];
    } else if path[0] == QueryGetContractState {
      if |path| < 3 {
        return Run(Fail(UnknownEndpoint()), []);
      }
      run := HandleContractState(env, keeper, gasLimit, ctx, path[1], path[2], data);
      return;
    } else if path[0] == QueryGetCode {
      if |path| < 2 {
        return Run(Panicked(IndexOutOfRange(1, |path|)), []);
      }
      var codeId := Strconv.ParseUint(path[1]);
      if codeId.Failed? {
        return Run(Fail(CodeIdError(codeId.err)), []);
      }
      var code := keeper.code(codeId.value);
      rsp, err, calls := CodeRsp(code.ptr), code.err, [CallCode(codeId.value)];
    } else if path[0] == QueryListCode {
      var info := HandleCodeList(keeper);
      rsp, calls := CodeListRsp(info), [CallCodeInfos];
    } else if path[0] == QueryContractHistory {
      if |path| < 2 {
        return Run(Panicked(IndexOutOfRange(1, |path|)), []);
      }
      var addr := env.accAddressFromBech32(path[1]);
      if addr.Err? {
        return Run(Fail(Wrapped(Registered(ErrInvalidAddress), addr.text)), []);
      }
      var history := HandleContractHistory(keeper, addr.value);
      rsp, calls := HistoryRsp(history), [CallContractHistory(addr.value)];
    } else if path[0] == QueryInactiveContracts {
      var contracts := HandleInactiveContracts(env, keeper);
      rsp, calls := InactiveListRsp(contracts), [CallInactiveContracts];
    } else if path[0] == QueryIsInactiveContract {
      if |path| < 2 {
        return Run(Panicked(IndexOutOfRange(1, |path|)), []);
      }
      var addr := env.accAddressFromBech32(path[1]);
      if addr.Err? {
        return Run(Fail(Wrapped(Registered(ErrInvalidAddress), addr.text)), []);
      }
      rsp, calls := IsInactiveRsp(keeper.isInactive(addr.value)), [CallIsInactive(addr.value)];
    } else {
      return Run(Fail(UnknownEndpoint()), []);
    }
    run := Finish(env, rsp, err, calls);
  }
}
