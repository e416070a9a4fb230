# Legacy contract queries and the IBC packet bridge of the wasm module

This project models two pieces of the wasm module of a Cosmos-SDK chain.

**The legacy querier.** `NewLegacyQuerier(keeper, gasLimit)` returns a closure. The closure answers a query path such as
`["contract-state", <bech32 address>, "smart"]` together with a request body. It works in four steps:

1. It switches on the first segment, over eight query kinds.
2. It parses the positional argument: a bech32 address, or a base-10 `uint64` code id.
3. It reads the read-only `ViewKeeper`.
4. It returns the handler's error, or nothing for a nil result, or the result as indented JSON.

`contract-state` has its own sub-method (`smart`, `raw` or `all`). Its answer skips step 4.
- `smart` runs the contract's query in the VM under a fresh gas meter bounded by `gasLimit`.
- `raw` reads one key.
- `all` lists every stored cell.

**The packet bridge.** `newIBCPacket` turns a channel packet (the `Packet` of ICS 4, Channel & Packet Semantics) into the
packet the VM receives:
- The endpoints, sequence and data are copied.
- A height timeout `Block` is present exactly when the timeout height is not zero.
- The timeout timestamp is copied, and 0 means absent.

The Go body of `newIBCPacket` is not among the source files this model follows, so the function is modelled from the
three cases of `TestMapToWasmVMIBCPacket`. The test's `IBCPacketFixture` is modelled too.

Modules:
- `GoTypes` (`go_types.dfy`): Go value shapes.
  - `uint64` and `byte`.
  - `Slice<T>`, which keeps a nil slice and an allocated empty slice apart.
  - `Option`, used as a nil-able pointer.
  - `Result`, a collaborator's (value, error) pair.
  - `Appended`, which folds `append` over a sequence.
- `SdkErrors`: registered errors, `Wrap`, and `errors.Is`.
- `WasmTypes`: the keeper's records, the response records, and the context with its gas meter.
- `Strconv`: `strconv.ParseUint(s, 10, 64)`, as a loop and as a declarative function.
- `LegacyQuerier`, in two forms:
  - The router as functions (`Dispatch`, `ContractState`, `Finish`, `Query`).
  - The router as it runs (`HandleQuery` and the handler methods), with loops that append and an in-place redaction
    loop. Each method is proved equal to the matching function.
- `QuerierProperties`: lemmas about `Query`.
- `IbcPacket`: the translation, its inverse, the fixture and the three table-test cases.

Collaborators outside the model are parameters.
- The keeper is a `ViewKeeper` snapshot. It has sequences in iteration order, lookup functions, `QueryRaw`, and
  `QuerySmart`. `QuerySmart` receives the context, so the meter it runs under is visible.
- `Env` holds the bech32 parser and formatter, `RawContractMessage.ValidateBasic`, `json.Marshal` and `json.MarshalIndent`.

Every query returns a `Run`. A `Run` holds the outcome and the list of keeper calls the query made. So "no keeper or VM call
on this path" means `calls == []`.

An outcome is one of two things:
- Go's returned `([]byte, error)` pair.
- A `Panicked` cause for the places where the Go code panics.

The model follows the code where its behaviour is easy to misread:
- A kind that reads `path[1]` without an argument panics with index out of range (`ShortPathPanics`). It does not fail with
  `ErrUnknownRequest`. So does an empty path. Only `contract-state` checks the path's length.
- `inactive-contract` does not answer a boolean. It panics (see Findings).
- A smart query runs under a fresh meter bounded by the querier's gas limit. When `QuerySmart` runs out of gas, the meter's
  panic is not recovered, so the query panics instead of answering an error. Any other `QuerySmart` result is returned
  unchanged (`SmartQueryCallsVmOnce`).
- Whether a body such as `{}` passes smart-query validation depends on `ValidateBasic`. That function is a parameter here.

## Model

| member | source | states |
|---|---|---|
| LegacyQuerier.Query | x/wasm/keeper/legacy_querier.go:34-100 | Definition, no contract of its own: the closure applied to one query, the switch followed by the finishing tail. The QuerierProperties lemmas and HandleQuery are about it. |
| LegacyQuerier.Dispatch | x/wasm/keeper/legacy_querier.go:39-88 | Definition, no contract of its own: the `switch path[0]`, ending either with an answer or with the handler's `rsp` and `err`. The kind, path, code-id and address lemmas are about it. |
| LegacyQuerier.ContractState | x/wasm/keeper/legacy_querier.go:103-138 | Definition, no contract of its own: `queryContractState`. HandleContractState and the contract-state lemmas are about it. |
| LegacyQuerier.ReflectIsNil | x/wasm/keeper/legacy_querier.go:92 | Definition, no contract of its own: the nil check. A nil pointer or nil slice is nil, anything else is not, and a bool panics. InactiveContractPanics and MissingContractIsEmptySuccess are about it. |
| LegacyQuerier.Finish | x/wasm/keeper/legacy_querier.go:89-99 | Definition, no contract of its own: the handler's error first, then the nil check, then the indented JSON. HandlerErrorFirst, MissingContractIsEmptySuccess and FoundContractSerialized are about it. |
| LegacyQuerier.QueryFixed | x/wasm/keeper/legacy_querier.go:92-94 | Definition, no contract of its own: the querier with the nil check applied only to kinds that can be nil. InactiveContractAnswered and FixedQueryAgrees are about it. |
| Strconv.ParsedUint | x/wasm/keeper/legacy_querier.go:48-51 | Definition, no contract of its own: the declarative result of `strconv.ParseUint(s, 10, 64)`. ParseUint is proved equal to it, and ParsedUintAccepts is about it. |
| IbcPacket.ChannelPacket | x/wasm/ibc_test.go:19-55 | Definition, no contract of its own: the channel packet a VM packet stands for, the inverse of NewIBCPacket. TranslationDropsNothing, TranslationInjective and TranslationInventsNothing are about it. |
| IbcPacket.ApplyMutators | x/wasm/ibc_test.go:79-81 | Definition, no contract of its own: the mutators applied in order, each to the previous result. IBCPacketFixture is proved equal to it, and ApplyMutatorsSnoc and ApplyMutatorsConcat are about it. |
| LegacyQuerier.HandleQuery | x/wasm/keeper/legacy_querier.go:34-100 | The closure as it runs returns the same outcome and makes the same keeper calls, in the same order, as the router function `Query`. |
| LegacyQuerier.HandleContractState | x/wasm/keeper/legacy_querier.go:103-138 | The contract-state handler as it runs, including the `all` loop, returns exactly what `ContractState` states: address first, then the sub-method. |
| LegacyQuerier.HandleCodeList | x/wasm/keeper/legacy_querier.go:141-153 | One response per iterated code, in iteration order. Each has the iterated id as CodeID, the creator, CodeHash as DataHash and InstantiateConfig as InstantiatePermission. The result is nil exactly when nothing was iterated. |
| LegacyQuerier.HandleContractListByCode | x/wasm/keeper/legacy_querier.go:166-173 | One address string per contract of the code, in iteration order. The result is nil exactly when the code has no contract. |
| LegacyQuerier.HandleInactiveContracts | x/wasm/keeper/legacy_querier.go:175-182 | One address string per inactive contract, in iteration order. The result is nil exactly when there is none. |
| LegacyQuerier.HandleContractHistory | x/wasm/keeper/legacy_querier.go:156-163 | The stored entries, same number and same order, each with `Updated` cleared. Operation, code id and message are as stored. A nil history stays nil. |
| Strconv.ParseUint | x/wasm/keeper/legacy_querier.go:48-51 | The digit-by-digit parse, with its multiplication and addition overflow checks, returns exactly the declarative result `ParsedUint`. |
| Strconv.ParsedUintAccepts | x/wasm/keeper/legacy_querier.go:60-63 | A code id is accepted exactly when it is a non-empty string of decimal digits whose value is at most 2^64-1. Leading zeros are allowed. The accepted value is the decimal value, and every failure names the input. |
| Strconv.PrefixValueAtMost | x/wasm/keeper/legacy_querier.go:48 | Every prefix of a digit string has at most the value of the whole string, so a string that fits in 64 bits never overflows partway through. |
| GoTypes.AppendedElems | x/wasm/keeper/legacy_querier.go:142-151 | Appending item by item keeps the initial elements and adds exactly one element per item, in order. The slice is nil only if it started nil and nothing was appended. |
| QuerierProperties.UnknownKindRejected | x/wasm/keeper/legacy_querier.go:86-87 | A first segment outside the eight kinds fails with ErrUnknownRequest and makes no keeper call. |
| QuerierProperties.ShortPathPanics | x/wasm/keeper/legacy_querier.go:39-41 | An empty path, or an argument-reading kind with no argument, panics with index out of range before any keeper call. It never fails with ErrUnknownRequest. |
| QuerierProperties.ArgumentFreeKindsIgnoreRest | x/wasm/keeper/legacy_querier.go:66-78 | `list-code` and `inactive-contracts` read no argument, so extra path segments do not change their answer. |
| QuerierProperties.ShortContractStateRejected | x/wasm/keeper/legacy_querier.go:54-57 | `contract-state` with fewer than three segments fails with ErrUnknownRequest. No address is parsed and no keeper is called. |
| QuerierProperties.BadCodeIdRejected | x/wasm/keeper/legacy_querier.go:47-51 | For `list-contracts-by-code` and `code`, a code id that is not a base-10 uint64 fails with an error that is ErrInvalid. No keeper call is made. |
| QuerierProperties.GoodCodeIdAccepted | x/wasm/keeper/legacy_querier.go:59-65 | Every decimal string up to 2^64-1 is accepted as a code id. The keeper is then asked about exactly that id, once. |
| QuerierProperties.BadAddressRejected | x/wasm/keeper/legacy_querier.go:40-44 | A malformed address for `contract-info`, `contract-history` or `inactive-contract` fails with ErrInvalidAddress wrapping the parser's message. No keeper call is made. |
| QuerierProperties.ContractStateBadAddressFirst | x/wasm/keeper/legacy_querier.go:103-107 | In `contract-state` a malformed address fails with ErrInvalidAddress carrying the address string, whatever the sub-method. No keeper call is made. |
| QuerierProperties.UnknownStateMethodRejected | x/wasm/keeper/legacy_querier.go:135-136 | A good address with a sub-method other than smart, raw or all fails with ErrUnknownRequest naming the sub-method. No keeper call is made. |
| QuerierProperties.SmartQueryValidatesFirst | x/wasm/keeper/legacy_querier.go:128-131 | A smart query whose body fails ValidateBasic returns that error wrapped with "json msg". The VM is never called. |
| QuerierProperties.SmartQueryCallsVmOnce | x/wasm/keeper/legacy_querier.go:125-134 | A smart query with a valid body calls QuerySmart exactly once. The call runs under a fresh meter bounded by gasLimit, with nothing consumed and the rest of the caller's context unchanged. Its bytes and error are returned unchanged. If the call runs out of gas, the query panics with OutOfGas. |
| QuerierProperties.AmbientMeterIrrelevant | x/wasm/keeper/legacy_querier.go:126-127 | The querier passes the caller's own gas meter to no call: QuerySmart receives `NewGasMeter(gasLimit)` in its place, and the other keeper views are modelled without a context. So replacing the caller's meter changes no answer and no call of the model. |
| QuerierProperties.RawQueryVerbatim | x/wasm/keeper/legacy_querier.go:122-124 | `raw` makes exactly one QueryRaw call, with the request body as the key, and returns its bytes with no error. |
| QuerierProperties.AllStateKeepsEveryCell | x/wasm/keeper/legacy_querier.go:110-121 | `all` makes one iteration call and marshals one Model per visited cell, in iteration order, none skipped, into a slice that is never nil. A marshal failure is ErrJSONMarshal. |
| QuerierProperties.ContractStateBypassesFinish | x/wasm/keeper/legacy_querier.go:54-58 | No `contract-state` answer depends on the indented-JSON encoder. The querier's own code adds no panic on these paths: the only one is a smart query whose single QuerySmart call runs out of gas. |
| QuerierProperties.HistoryAlwaysRedacted | x/wasm/keeper/legacy_querier.go:69-75 | `contract-history` returns a nil body for a nil history. Otherwise it serialises the stored entries, same number and order, each with `Updated` cleared and the other fields unchanged. |
| QuerierProperties.RedactionIdempotent | x/wasm/keeper/legacy_querier.go:158-161 | Redacting a history twice gives the same result as redacting it once, and no redacted entry carries an `Updated` marker. |
| QuerierProperties.CodeListInOrder | x/wasm/keeper/legacy_querier.go:66-68 | `list-code` returns a nil body when no code is stored, since the slice starts nil. Otherwise it serialises one renamed response per code, in iteration order. |
| QuerierProperties.ContractsByCodeInOrder | x/wasm/keeper/legacy_querier.go:47-53 | `list-contracts-by-code` returns a nil body when the code has no contract. Otherwise it serialises the address strings, one per contract, in iteration order. |
| QuerierProperties.InactiveContractsInOrder | x/wasm/keeper/legacy_querier.go:76-78 | `inactive-contracts` returns a nil body when there is none. Otherwise it serialises the address strings, one per contract, in iteration order. |
| QuerierProperties.HandlerErrorFirst | x/wasm/keeper/legacy_querier.go:89-91 | For `contract-info` and for `code` (with a valid id), a lookup helper's error is returned as it is, with a nil body, after the one keeper call and before the nil check and any serialisation. |
| QuerierProperties.MissingContractIsEmptySuccess | x/wasm/keeper/legacy_querier.go:92-94 | For `contract-info` and for `code` (with a valid id), a nil result without an error is a success with a nil body, not an error, after the one keeper call. |
| QuerierProperties.FoundContractSerialized | x/wasm/keeper/legacy_querier.go:95-99 | For `contract-info` and for `code` (with a valid id), a non-nil result is answered with the indented JSON of its response after the one keeper call. If marshalling fails, the answer is ErrJSONMarshal. |
| QuerierProperties.InactiveContractPanics | x/wasm/keeper/legacy_querier.go:79-94 | As written, every `inactive-contract` query with a valid address reaches `IsNil` on a bool and panics, after its one keeper call. |
| QuerierProperties.InactiveContractAnswered | x/wasm/keeper/legacy_querier.go:85 | With the nil check applied only to nil-able kinds, `inactive-contract` answers the indented JSON of the keeper's bool. |
| QuerierProperties.FixedQueryAgrees | x/wasm/keeper/legacy_querier.go:92-94 | The corrected querier never panics in the nil check. Wherever the querier as written does not panic there, both give the same answer. |
| IbcPacket.NewIBCPacket | x/wasm/ibc_test.go:19-55 | Endpoints, sequence and data are copied. `Block` is present exactly when the timeout height is not zero, with RevisionHeight as Height and RevisionNumber as Revision. The timestamp is copied, with 0 meaning absent. The function is total. |
| IbcPacket.TranslationDropsNothing | x/wasm/ibc_test.go:59-60 | The channel packet can always be read back from its VM packet, so no field and no timeout variant is lost. |
| IbcPacket.TranslationInjective | x/wasm/ibc_test.go:59-60 | Two channel packets that translate to the same VM packet are the same packet. |
| IbcPacket.TranslationInventsNothing | x/wasm/ibc_test.go:19-55 | A VM packet is the translation of some channel packet exactly when it has no `Block` at height zero. So no timeout variant is invented. |
| IbcPacket.IBCPacketFixture | x/wasm/ibc_test.go:65-83 | The fixture is the default packet with the mutators applied in order. With no mutators it is the default packet. |
| IbcPacket.ApplyMutatorsSnoc | x/wasm/ibc_test.go:79-81 | Applying one more mutator after a list is the same as applying it to the list's result. |
| IbcPacket.ApplyMutatorsConcat | x/wasm/ibc_test.go:79-81 | Mutators compose left to right: applying two lists in a row equals applying their concatenation. |
| IbcPacket.LaterMutatorOverrides | x/wasm/ibc_test.go:79-81 | A later mutator overrides an earlier one: a final timestamp setter decides the timestamp, whatever came before. |
| IbcPacket.WithHeightTimeout | x/wasm/ibc_test.go:19-28 | The default fixture translates to Block {Height: 1, Revision: 2} with timestamp 0. |
| IbcPacket.WithTimeTimeout | x/wasm/ibc_test.go:29-40 | With timestamp 1 and a zero height, the result has no Block and timestamp 1. |
| IbcPacket.WithTimeAndHeightTimeout | x/wasm/ibc_test.go:41-55 | With timestamp 1 and the default height, the result has both Block {1, 2} and timestamp 1. |

## Findings

| source | as written | input that shows it | evidently intended | confidence | as-written member | corrected member |
|---|---|---|---|---|---|---|
| x/wasm/keeper/legacy_querier.go:85-94 | `inactive-contract` stores a `bool` in `rsp`, then calls `reflect.ValueOf(rsp).IsNil()`. That call panics for a bool. | path `["inactive-contract", <any valid bech32 address>]` | answer the indented JSON `true` or `false` | high: Go's reflect package documents the panic; not executed | QuerierProperties.InactiveContractPanics | QuerierProperties.InactiveContractAnswered (on LegacyQuerier.QueryFixed) |

`LegacyQuerier.QueryFixed` shares `Dispatch` with `Query`. The two differ only in the nil check. `FixedQueryAgrees` shows
that the corrected querier gives the same answer as the querier as written on every query where the latter does not
panic in the nil check. So each property above carries over to `QueryFixed` on those queries. On an `inactive-contract` query
with a valid address only `InactiveContractAnswered` speaks about the corrected querier.

## Left out

- `NewLegacyQuerier`: the closure's captured keeper and gas limit are parameters of `Query` and `HandleQuery`.
- `queryContractInfo` and `queryCode` are not part of this model. Their (pointer, error) results are fields of the keeper
  snapshot.
- Keeper storage is a fixed snapshot. The keeper's own correctness is not modelled. One example: that the contracts-by-code
  index lists exactly the contracts whose code id matches.
- Bech32 address decoding and encoding, `RawContractMessage.ValidateBasic`, and JSON encoding are foreign calls. They are
  parameters with no stated properties.
- The contract VM and its gas accounting are opaque. Only the context that `QuerySmart` receives is recorded, and whether
  that call answers or runs out of gas is a field of the keeper, not computed from the meter's limit.
- `Context` keeps only the chain id, the block height and the gas meter. The keeper views do not depend on the context.
- A panic is recorded as an outcome. Whatever the caller does with it, such as a recovery in the ABCI layer, is not modelled.
- Strconv.NumErrorText: `strconv.Quote`'s escaping of unusual characters in the offending input is not modelled. The input is
  only put between double quotes.
- Strconv.ParseUint: only base 10 and bit size 64, the only arguments the querier passes.
- LegacyQuerier.HandleContractHistory: the history slice is a fresh array, because `GetContractHistory` returns a new slice
  on each call. Aliasing with the keeper's storage is not modelled.
- IbcPacket.NewIBCPacket: the table test pins only the heights {0,0} (no Block) and {2,1} (Block). Heights with exactly one
  zero component follow the height rule "both components 0 means zero", which the test itself does not pin.
- IbcPacket.IBCPacketFixture: mutators are functions from packet to packet, applied left to right. They do not write through
  a pointer.
- app/app.go (application wiring), x/wasm/lbmtypes/codec.go (codec registration) and
  x/wasm/keeper/wasmtesting/query_handler.go (a test double) hold no behaviour of the core and are not modelled.
