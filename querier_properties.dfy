/**
 * What the legacy querier promises its callers: which errors come first,
 * which paths touch no keeper, that smart queries run once under a fresh
 * bounded meter, that lists keep the keeper's order and that history is
 * always redacted.
 */
module QuerierProperties {
  import opened GoTypes
  import opened SdkErrors
  import opened WasmTypes
  import Strconv
  import opened LegacyQuerier

  // ---------------------------------------------------------------------
  // Routing and short paths

  /** A kind outside the eight fails with `ErrUnknownRequest` and calls no keeper. */
  lemma UnknownKindRejected(env: Env, keeper: ViewKeeper, gasLimit: uint64, ctx: Context, path: seq<string>, data: GoBytes)
    requires |path| > 0 && !IsQueryKind(path[0])
    ensures Query(env, keeper, gasLimit, ctx, path, data) == Run(Fail(UnknownEndpoint()), [])
    ensures Is(UnknownEndpoint(), ErrUnknownRequest)
  {
  }

  /**
   * An empty path, or a kind that reads `path[1]` given no argument, is an
   * index-out-of-range panic before any keeper call: never `ErrUnknownRequest`.
   */
  lemma ShortPathPanics(env: Env, keeper: ViewKeeper, gasLimit: uint64, ctx: Context, path: seq<string>, data: GoBytes)
    requires |path| == 0 || (|path| == 1 && ReadsArgument(path[0]))
    ensures Query(env, keeper, gasLimit, ctx, path, data) == Run(Panicked(IndexOutOfRange(|path|, |path|)), [])
  {
  }

  /** `list-code` and `inactive-contracts` read no argument: extra segments do not change the answer. */
  lemma ArgumentFreeKindsIgnoreRest(env: Env, keeper: ViewKeeper, gasLimit: uint64, ctx: Context, path: seq<string>, data: GoBytes)
    requires |path| > 0 && (path[0] == QueryListCode || path[0] == QueryInactiveContracts)
    ensures Query(env, keeper, gasLimit, ctx, path, data) == Query(env, keeper, gasLimit, ctx, [path[0]], data)
  {
  }

  /** `contract-state` with fewer than three segments fails with `ErrUnknownRequest` before the address is parsed. */
  lemma ShortContractStateRejected(env: Env, keeper: ViewKeeper, gasLimit: uint64, ctx: Context, path: seq<string>, data: GoBytes)
    requires 0 < |path| < 3 && path[0] == QueryGetContractState
    ensures Query(env, keeper, gasLimit, ctx, path, data) == Run(Fail(UnknownEndpoint()), [])
  {
  }

  // ---------------------------------------------------------------------
  // Code ids

  /** A code id that is not a base-10 `uint64` fails with `ErrInvalid` and calls no keeper. */
  lemma BadCodeIdRejected(env: Env, keeper: ViewKeeper, gasLimit: uint64, ctx: Context, path: seq<string>, data: GoBytes)
    requires |path| >= 2 && (path[0] == QueryListContractByCode || path[0] == QueryGetCode)
    requires !(|path[1]| > 0 && Strconv.AllDigits(path[1]) && Strconv.DecimalValue(path[1]) <= MaxUint64)
    ensures Query(env, keeper, gasLimit, ctx, path, data).calls == []
    ensures var o := Query(env, keeper, gasLimit, ctx, path, data).outcome;
      o.Returned? && o.reply.body.Nil? && o.reply.err.Some? && Is(o.reply.err.value, ErrInvalid)
  {
    Strconv.ParsedUintAccepts(path[1]);
  }

  /** Every decimal string up to 2^64 - 1 is accepted as a code id, and the keeper is asked about that id. */
  lemma GoodCodeIdAccepted(env: Env, keeper: ViewKeeper, gasLimit: uint64, ctx: Context, path: seq<string>, data: GoBytes)
    requires |path| >= 2 && (path[0] == QueryListContractByCode || path[0] == QueryGetCode)
    requires |path[1]| > 0 && Strconv.AllDigits(path[1]) && Strconv.DecimalValue(path[1]) <= MaxUint64
    ensures var id := Strconv.DecimalValue(path[1]);
      Query(env, keeper, gasLimit, ctx, path, data).calls
        == if path[0] == QueryGetCode then [CallCode(id)] else [CallContractsByCode(id)]
  {
    Strconv.ParsedUintAccepts(path[1]);
  }

  // ---------------------------------------------------------------------
  // Addresses

  /** A malformed address fails with `ErrInvalidAddress`, carrying the parser's message, and calls no keeper. */
  lemma BadAddressRejected(env: Env, keeper: ViewKeeper, gasLimit: uint64, ctx: Context, path: seq<string>, data: GoBytes)
    requires |path| >= 2
    requires path[0] == QueryGetContract || path[0] == QueryContractHistory || path[0] == QueryIsInactiveContract
    requires env.accAddressFromBech32(path[1]).Err?
    ensures Query(env, keeper, gasLimit, ctx, path, data)
      == Run(Fail(Wrapped(Registered(ErrInvalidAddress), env.accAddressFromBech32(path[1]).text)), [])
  {
  }

  /**
   * In `contract-state` the address is checked before the sub-method: a bad
   * address fails with `ErrInvalidAddress` carrying the address string,
   * whatever the sub-method, and calls no keeper.
   */
  lemma ContractStateBadAddressFirst(env: Env, keeper: ViewKeeper, gasLimit: uint64, ctx: Context, path: seq<string>, data: GoBytes)
    requires |path| >= 3 && path[0] == QueryGetContractState
    requires env.accAddressFromBech32(path[1]).Err?
    ensures Query(env, keeper, gasLimit, ctx, path, data) == Run(Fail(Wrapped(Registered(ErrInvalidAddress), path[1])), [])
  {
  }

  /** A good address with a sub-method other than smart, raw or all fails with `ErrUnknownRequest` naming it. */
  lemma UnknownStateMethodRejected(env: Env, keeper: ViewKeeper, gasLimit: uint64, ctx: Context, path: seq<string>, data: GoBytes)
    requires |path| >= 3 && path[0] == QueryGetContractState
    requires env.accAddressFromBech32(path[1]).Ok?
    requires path[2] != QueryMethodContractStateSmart && path[2] != QueryMethodContractStateRaw && path[2] != QueryMethodContractStateAll
    ensures Query(env, keeper, gasLimit, ctx, path, data) == Run(Fail(Wrapped(Registered(ErrUnknownRequest), path[2])), [])
  {
  }

  // ---------------------------------------------------------------------
  // Contract-state executors

  /** A smart query whose body fails validation returns the wrapped validation error; the VM is never called. */
  lemma SmartQueryValidatesFirst(env: Env, keeper: ViewKeeper, gasLimit: uint64, ctx: Context, path: seq<string>, data: GoBytes)
    requires |path| >= 3 && path[0] == QueryGetContractState && path[2] == QueryMethodContractStateSmart
    requires env.accAddressFromBech32(path[1]).Ok? && env.validateBasic(data).Some?
    ensures Query(env, keeper, gasLimit, ctx, path, data) == Run(Fail(Wrapped(env.validateBasic(data).value, "json msg")), [])
  {
  }

  /**
   * A smart query with a valid body calls `QuerySmart` exactly once, under a
   * fresh meter bounded by `gasLimit` and otherwise the caller's context. It
   * returns the call's bytes and error unchanged, or panics when the call runs
   * out of gas.
   */
  lemma SmartQueryCallsVmOnce(env: Env, keeper: ViewKeeper, gasLimit: uint64, ctx: Context, path: seq<string>, data: GoBytes)
    requires |path| >= 3 && path[0] == QueryGetContractState && path[2] == QueryMethodContractStateSmart
    requires env.accAddressFromBech32(path[1]).Ok? && env.validateBasic(data).None?
    ensures var run := Query(env, keeper, gasLimit, ctx, path, data);
      var addr := env.accAddressFromBech32(path[1]).value;
      && |run.calls| == 1
      && run.calls[0].CallQuerySmart?
      && run.calls[0].ctx.gasMeter == BasicGasMeter(gasLimit, 0)
      && run.calls[0].ctx.chainId == ctx.chainId && run.calls[0].ctx.blockHeight == ctx.blockHeight
      && run.calls[0].addr == addr && run.calls[0].msg == data
      && (match keeper.querySmart(run.calls[0].ctx, addr, data)
          case Answered(reply) => run.outcome == Returned(reply)
          case GasExhausted => run.outcome == Panicked(OutOfGas))
  {
  }

  /** The caller's own gas meter never changes what any query returns or which calls it makes. */
  lemma AmbientMeterIrrelevant(env: Env, keeper: ViewKeeper, gasLimit: uint64, ctx: Context, meter: GasMeter, path: seq<string>, data: GoBytes)
    ensures Query(env, keeper, gasLimit, ctx, path, data) == Query(env, keeper, gasLimit, ctx.(gasMeter := meter), path, data)
  {
  }

  /** `raw` returns what `QueryRaw` returns for the request body, after one call and no VM call. */
  lemma RawQueryVerbatim(env: Env, keeper: ViewKeeper, gasLimit: uint64, ctx: Context, path: seq<string>, data: GoBytes)
    requires |path| >= 3 && path[0] == QueryGetContractState && path[2] == QueryMethodContractStateRaw
    requires env.accAddressFromBech32(path[1]).Ok?
    ensures var addr := env.accAddressFromBech32(path[1]).value;
      Query(env, keeper, gasLimit, ctx, path, data) == Run(Returned(Reply(keeper.queryRaw(addr, data), None)), [CallQueryRaw(addr, data)])
  {
  }

  /**
   * `all` serialises every cell the iteration visits, one model per cell, in
   * iteration order, into a slice that is never nil, even when it is empty.
   */
  lemma AllStateKeepsEveryCell(env: Env, keeper: ViewKeeper, gasLimit: uint64, ctx: Context, path: seq<string>, data: GoBytes)
    requires |path| >= 3 && path[0] == QueryGetContractState && path[2] == QueryMethodContractStateAll
    requires env.accAddressFromBech32(path[1]).Ok?
    ensures var addr := env.accAddressFromBech32(path[1]).value;
      var cells := keeper.contractState(addr);
      var models := Appended(Items([]), ToModel, cells);
      && models.Items?
      && |models.elems| == |cells|
      && (forall i :: 0 <= i < |cells| ==> models.elems[i] == Model(cells[i].0, cells[i].1))
      && Query(env, keeper, gasLimit, ctx, path, data).calls == [CallContractState(addr)]
      && Query(env, keeper, gasLimit, ctx, path, data).outcome
         == match env.marshal(models)
            case Err(text) => Fail(Wrapped(Registered(ErrJSONMarshal), text))
            case Ok(bz) => Returned(Reply(Items(bz), None))
  {
    var addr := env.accAddressFromBech32(path[1]).value;
    AppendedElems(Items([]), ToModel, keeper.contractState(addr));
  }

  /**
   * No `contract-state` answer goes through the nil check or the
   * indented-JSON step. The only panic is a smart query whose one
   * `QuerySmart` call runs out of gas.
   */
  lemma ContractStateBypassesFinish(env: Env, keeper: ViewKeeper, gasLimit: uint64, ctx: Context, path: seq<string>, data: GoBytes,
                                    indent: Response -> Result<Bytes>)
    requires |path| > 0 && path[0] == QueryGetContractState
    ensures Query(env, keeper, gasLimit, ctx, path, data) == Query(env.(marshalIndent := indent), keeper, gasLimit, ctx, path, data)
    ensures var run := Query(env, keeper, gasLimit, ctx, path, data);
      run.outcome.Panicked? ==>
        && |path| >= 3 && path[2] == QueryMethodContractStateSmart
        && run.outcome == Panicked(OutOfGas)
        && |run.calls| == 1 && run.calls[0].CallQuerySmart?
        && keeper.querySmart(run.calls[0].ctx, run.calls[0].addr, run.calls[0].msg).GasExhausted?
  {
  }

  // ---------------------------------------------------------------------
  // History and lists

  /**
   * `contract-history` answers nothing for a nil history, and otherwise
   * serialises the stored entries, same number and order, with every
   * `Updated` marker cleared and all other fields as stored.
   */
  lemma HistoryAlwaysRedacted(env: Env, keeper: ViewKeeper, gasLimit: uint64, ctx: Context, path: seq<string>, data: GoBytes)
    requires |path| >= 2 && path[0] == QueryContractHistory && env.accAddressFromBech32(path[1]).Ok?
    ensures var addr := env.accAddressFromBech32(path[1]).value;
      var stored := keeper.contractHistory(addr);
      var run := Query(env, keeper, gasLimit, ctx, path, data);
      && run.calls == [CallContractHistory(addr)]
      && (stored.Nil? ==> run.outcome == Returned(Reply(Nil, None)))
      && (stored.Items? ==>
            exists entries: seq<ContractCodeHistoryEntry> ::
              && run == Serialize(env, HistoryRsp(Items(entries)), run.calls)
              && |entries| == |stored.elems|
              && forall i :: 0 <= i < |entries| ==>
                   entries[i] == stored.elems[i].(updated := None))
  {
    var addr := env.accAddressFromBech32(path[1]).value;
    var stored := keeper.contractHistory(addr);
    var calls := [CallContractHistory(addr)];
    assert Dispatch(env, keeper, gasLimit, ctx, path, data) == Handled(HistoryRsp(Redacted(stored)), None, calls);
    var run := Finish(env, HistoryRsp(Redacted(stored)), None, calls);
    if stored.Items? {
      var entries := Redacted(stored).elems;
      assert run == Serialize(env, HistoryRsp(Items(entries)), calls);
      assert |entries| == |stored.elems|;
      assert forall i :: 0 <= i < |entries| ==> entries[i] == stored.elems[i].(updated := None);
    }
  }

  /** Redacting twice is redacting once: the answer does not depend on what markers were stored. */
  lemma RedactionIdempotent(history: Slice<ContractCodeHistoryEntry>)
    ensures Redacted(Redacted(history)) == Redacted(history)
    ensures forall e :: e in Elems(Redacted(history)) ==> e.updated.None?
  {
  }

  /**
   * `list-code` answers nothing when no code is stored, and otherwise
   * serialises one response per code, in iteration order, with the iterated
   * id as `CodeID`, `CodeHash` as `DataHash` and `InstantiateConfig` as
   * `InstantiatePermission`.
   */
  lemma CodeListInOrder(env: Env, keeper: ViewKeeper, gasLimit: uint64, ctx: Context, path: seq<string>, data: GoBytes)
    requires |path| > 0 && path[0] == QueryListCode
    ensures var run := Query(env, keeper, gasLimit, ctx, path, data);
      var infos := keeper.codeInfos;
      && run.calls == [CallCodeInfos]
      && (|infos| == 0 ==> run.outcome == Returned(Reply(Nil, None)))
      && (|infos| > 0 ==>
            exists rs: seq<CodeInfoResponse> ::
              && run == Serialize(env, CodeListRsp(Items(rs)), [CallCodeInfos])
              && |rs| == |infos|
              && forall i :: 0 <= i < |infos| ==>
                   rs[i] == CodeInfoResponse(infos[i].0, infos[i].1.creator, infos[i].1.codeHash, infos[i].1.instantiateConfig))
  {
    var infos := keeper.codeInfos;
    AppendedToNil(ToCodeInfoResponse, infos);
    if |infos| > 0 {
      var rs := Appended(Nil, ToCodeInfoResponse, infos).elems;
      assert forall i :: 0 <= i < |infos| ==>
        rs[i] == CodeInfoResponse(infos[i].0, infos[i].1.creator, infos[i].1.codeHash, infos[i].1.instantiateConfig);
    }
  }

  /**
   * `list-contracts-by-code` with a valid id answers nothing when the code has
   * no contract, and otherwise serialises the address strings of its
   * contracts, one per contract, in iteration order.
   */
  lemma ContractsByCodeInOrder(env: Env, keeper: ViewKeeper, gasLimit: uint64, ctx: Context, path: seq<string>, data: GoBytes)
    requires |path| >= 2 && path[0] == QueryListContractByCode
    requires |path[1]| > 0 && Strconv.AllDigits(path[1]) && Strconv.DecimalValue(path[1]) <= MaxUint64
    ensures var id := Strconv.DecimalValue(path[1]);
      var addrs := keeper.contractsByCode(id);
      var run := Query(env, keeper, gasLimit, ctx, path, data);
      && (|addrs| == 0 ==> run == Run(Returned(Reply(Nil, None)), [CallContractsByCode(id)]))
      && (|addrs| > 0 ==>
            exists ss: seq<string> ::
              && run == Serialize(env, ContractListRsp(Items(ss)), [CallContractsByCode(id)])
              && |ss| == |addrs|
              && forall i :: 0 <= i < |addrs| ==> ss[i] == env.addressString(addrs[i]))
  {
    Strconv.ParsedUintAccepts(path[1]);
    var addrs := keeper.contractsByCode(Strconv.DecimalValue(path[1]));
    AppendedToNil(env.addressString, addrs);
    if |addrs| > 0 {
      var ss := Appended(Nil, env.addressString, addrs).elems;
      assert forall i :: 0 <= i < |addrs| ==> ss[i] == env.addressString(addrs[i]);
    }
  }

  /**
   * `inactive-contracts` answers nothing when no contract is inactive, and
   * otherwise serialises their address strings, one each, in iteration order.
   */
  lemma InactiveContractsInOrder(env: Env, keeper: ViewKeeper, gasLimit: uint64, ctx: Context, path: seq<string>, data: GoBytes)
    requires |path| > 0 && path[0] == QueryInactiveContracts
    ensures var addrs := keeper.inactiveContracts;
      var run := Query(env, keeper, gasLimit, ctx, path, data);
      && (|addrs| == 0 ==> run == Run(Returned(Reply(Nil, None)), [CallInactiveContracts]))
      && (|addrs| > 0 ==>
            exists ss: seq<string> ::
              && run == Serialize(env, InactiveListRsp(Items(ss)), [CallInactiveContracts])
              && |ss| == |addrs|
              && forall i :: 0 <= i < |addrs| ==> ss[i] == env.addressString(addrs[i]))
  {
    var addrs := keeper.inactiveContracts;
    AppendedToNil(env.addressString, addrs);
    if |addrs| > 0 {
      var ss := Appended(Nil, env.addressString, addrs).elems;
      assert forall i :: 0 <= i < |addrs| ==> ss[i] == env.addressString(addrs[i]);
    }
  }

  // ---------------------------------------------------------------------
  // Errors and nil results

  // `contract-info` and `code` both end with a lookup helper's (pointer,
  // error) pair; the three lemmas below state how that pair is finished, for
  // each of the two kinds.

  /** A lookup helper's error is returned as it is, before the nil check and before any serialisation. */
  lemma HandlerErrorFirst(env: Env, keeper: ViewKeeper, gasLimit: uint64, ctx: Context, path: seq<string>, data: GoBytes)
    requires |path| >= 2 && (path[0] == QueryGetContract || path[0] == QueryGetCode)
    requires path[0] == QueryGetContract ==>
      env.accAddressFromBech32(path[1]).Ok? && keeper.contractInfo(env.accAddressFromBech32(path[1]).value).err.Some?
    requires path[0] == QueryGetCode ==>
      |path[1]| > 0 && Strconv.AllDigits(path[1]) && Strconv.DecimalValue(path[1]) <= MaxUint64
      && keeper.code(Strconv.DecimalValue(path[1])).err.Some?
    ensures path[0] == QueryGetContract ==>
      var addr := env.accAddressFromBech32(path[1]).value;
      Query(env, keeper, gasLimit, ctx, path, data) == Run(Fail(keeper.contractInfo(addr).err.value), [CallContractInfo(addr)])
    ensures path[0] == QueryGetCode ==>
      var id := Strconv.DecimalValue(path[1]);
      Query(env, keeper, gasLimit, ctx, path, data) == Run(Fail(keeper.code(id).err.value), [CallCode(id)])
  {
    if path[0] == QueryGetCode {
      Strconv.ParsedUintAccepts(path[1]);
    }
  }

  /** A contract or a code that is not found is a success with a nil body, not an error. */
  lemma MissingContractIsEmptySuccess(env: Env, keeper: ViewKeeper, gasLimit: uint64, ctx: Context, path: seq<string>, data: GoBytes)
    requires |path| >= 2 && (path[0] == QueryGetContract || path[0] == QueryGetCode)
    requires path[0] == QueryGetContract ==>
      env.accAddressFromBech32(path[1]).Ok?
      && var f := keeper.contractInfo(env.accAddressFromBech32(path[1]).value); f.ptr.None? && f.err.None?
    requires path[0] == QueryGetCode ==>
      |path[1]| > 0 && Strconv.AllDigits(path[1]) && Strconv.DecimalValue(path[1]) <= MaxUint64
      && var f := keeper.code(Strconv.DecimalValue(path[1])); f.ptr.None? && f.err.None?
    ensures path[0] == QueryGetContract ==>
      var addr := env.accAddressFromBech32(path[1]).value;
      Query(env, keeper, gasLimit, ctx, path, data) == Run(Returned(Reply(Nil, None)), [CallContractInfo(addr)])
    ensures path[0] == QueryGetCode ==>
      var id := Strconv.DecimalValue(path[1]);
      Query(env, keeper, gasLimit, ctx, path, data) == Run(Returned(Reply(Nil, None)), [CallCode(id)])
  {
    if path[0] == QueryGetCode {
      Strconv.ParsedUintAccepts(path[1]);
    }
  }

  /**
   * A found contract or code is answered with the indented JSON of its
   * response, or with `ErrJSONMarshal` if that fails, after one keeper call.
   */
  lemma FoundContractSerialized(env: Env, keeper: ViewKeeper, gasLimit: uint64, ctx: Context, path: seq<string>, data: GoBytes)
    requires |path| >= 2 && (path[0] == QueryGetContract || path[0] == QueryGetCode)
    requires path[0] == QueryGetContract ==>
      env.accAddressFromBech32(path[1]).Ok?
      && var f := keeper.contractInfo(env.accAddressFromBech32(path[1]).value); f.ptr.Some? && f.err.None?
    requires path[0] == QueryGetCode ==>
      |path[1]| > 0 && Strconv.AllDigits(path[1]) && Strconv.DecimalValue(path[1]) <= MaxUint64
      && var f := keeper.code(Strconv.DecimalValue(path[1])); f.ptr.Some? && f.err.None?
    ensures path[0] == QueryGetContract ==>
      var addr := env.accAddressFromBech32(path[1]).value;
      var rsp := ContractInfoRsp(keeper.contractInfo(addr).ptr);
      var run := Query(env, keeper, gasLimit, ctx, path, data);
      && run.calls == [CallContractInfo(addr)]
      && run.outcome == match env.marshalIndent(rsp)
           case Err(text) => Fail(Wrapped(Registered(ErrJSONMarshal), text))
           case Ok(bz) => Returned(Reply(Items(bz), None))
    ensures path[0] == QueryGetCode ==>
      var id := Strconv.DecimalValue(path[1]);
      var rsp := CodeRsp(keeper.code(id).ptr);
      var run := Query(env, keeper, gasLimit, ctx, path, data);
      && run.calls == [CallCode(id)]
      && run.outcome == match env.marshalIndent(rsp)
           case Err(text) => Fail(Wrapped(Registered(ErrJSONMarshal), text))
           case Ok(bz) => Returned(Reply(Items(bz), None))
  {
    if path[0] == QueryGetCode {
      Strconv.ParsedUintAccepts(path[1]);
    }
  }

  // ---------------------------------------------------------------------
  // The bool answer of inactive-contract

  /** As written, every `inactive-contract` query with a valid address panics in the nil check, after the keeper call. */
  lemma InactiveContractPanics(env: Env, keeper: ViewKeeper, gasLimit: uint64, ctx: Context, path: seq<string>, data: GoBytes)
    requires |path| >= 2 && path[0] == QueryIsInactiveContract && env.accAddressFromBech32(path[1]).Ok?
    ensures var addr := env.accAddressFromBech32(path[1]).value;
      Query(env, keeper, gasLimit, ctx, path, data) == Run(Panicked(IsNilOnBool), [CallIsInactive(addr)])
  {
  }

  /** With the nil check restricted to nil-able kinds, `inactive-contract` answers the JSON of the keeper's bool. */
  lemma InactiveContractAnswered(env: Env, keeper: ViewKeeper, gasLimit: uint64, ctx: Context, path: seq<string>, data: GoBytes)
    requires |path| >= 2 && path[0] == QueryIsInactiveContract && env.accAddressFromBech32(path[1]).Ok?
    ensures var addr := env.accAddressFromBech32(path[1]).value;
      QueryFixed(env, keeper, gasLimit, ctx, path, data)
        == Serialize(env, IsInactiveRsp(keeper.isInactive(addr)), [CallIsInactive(addr)])
  {
  }

  /**
   * The corrected querier never panics in the nil check, and wherever the
   * querier as written does not panic there, the two give the same answer.
   */
  lemma FixedQueryAgrees(env: Env, keeper: ViewKeeper, gasLimit: uint64, ctx: Context, path: seq<string>, data: GoBytes)
    ensures QueryFixed(env, keeper, gasLimit, ctx, path, data).outcome != Panicked(IsNilOnBool)
    ensures Query(env, keeper, gasLimit, ctx, path, data).outcome != Panicked(IsNilOnBool)
      ==> QueryFixed(env, keeper, gasLimit, ctx, path, data) == Query(env, keeper, gasLimit, ctx, path, data)
  {
    match Dispatch(env, keeper, gasLimit, ctx, path, data)
    case Finished(run) =>
      assert run.outcome != Panicked(IsNilOnBool) by {
        if |path| > 0 && path[0] == QueryGetContractState && |path| >= 3 {
          assert run == ContractState(env, keeper, gasLimit, ctx, path[1], path[2], data);
        }
      }
    case Handled(rsp, err, calls) =>
  }
}
