/**
 * The error values the legacy querier returns: registered errors of the
 * SDK's error registry and of the wasm module, and wrappers that add a
 * message while keeping the registered cause (`sdkerrors.Wrap`).
 */
module SdkErrors {

  /** `sdkerrors.ErrInvalidAddress`, `sdkerrors.ErrUnknownRequest`, `sdkerrors.ErrJSONMarshal` and the wasm `types.ErrInvalid`. */
  datatype Kind = ErrInvalidAddress | ErrUnknownRequest | ErrJSONMarshal | ErrInvalid

  datatype Error =
    | Registered(kind: Kind)
    | Wrapped(parent: Error, msg: string)
    /** An error made by a collaborator outside the model (the VM, a keeper lookup, message validation). */
    | Foreign(text: string)

  /** `errors.Is(e, kind)`: wrapping keeps the registered cause. */
  predicate Is(e: Error, k: Kind)
  {
    match e
    case Registered(k') => k' == k
    case Wrapped(p, _) => Is(p, k)
    case Foreign(_) => false
  }
}
