/**
 * Types shared by every pallet of the state machine: the runtime's concrete
 * integer widths, the closed set of static dispatch errors, the result of a
 * dispatched call, and the block envelope (header, extrinsics).
 */
module Support {

  /** Largest value of an unsigned 32-bit integer (block numbers and nonces). */
  const MaxU32: nat := 0xFFFF_FFFF

  /** Largest value of an unsigned 128-bit integer (balances). */
  const MaxU128: nat := 0xFFFF_FFFF_FFFF_FFFF_FFFF_FFFF_FFFF_FFFF

  /** The runtime's `BlockNumber` and `Nonce` type. */
  type U32 = n: nat | n <= MaxU32

  /** The runtime's `Balance` type. */
  type U128 = n: nat | n <= MaxU128

  datatype Option<T> = None | Some(value: T)

  /** `checked_sub` on u128: absent exactly when the difference would be negative. */
  function CheckedSub(a: U128, b: U128): (r: Option<U128>)
    ensures r.Some? <==> b <= a
    ensures r.Some? ==> r.value + b == a
  {
    if b <= a then Some(a - b) else None
  }

  /** `checked_add` on u128: absent exactly when the sum leaves the 128-bit range. */
  function CheckedAdd(a: U128, b: U128): (r: Option<U128>)
    ensures r.Some? <==> a + b <= MaxU128
    ensures r.Some? ==> r.value - b == a
  {
    if a + b <= MaxU128 then Some(a + b) else None
  }

  /** The static error strings the pallets and the runtime return, as a closed enumeration. */
  datatype Error =
    | InsufficientBalance
    | BalanceOverflow
    | AlreadyClaimed
    | ClaimNotFound
    | NotClaimOwner
    | BlockNumberMismatch

  /** The exact static string the source returns for each error; none is empty. */
  function Message(e: Error): (r: string)
    ensures |r| > 0
  {
    match e
    case InsufficientBalance => "error subtracting balance"
    case BalanceOverflow => "error adding balance"
    case AlreadyClaimed => "this content is already claimed"
    case ClaimNotFound => "revoking claim but it does not exist"
    case NotClaimOwner => "revoking claim but caller does not match owner"
    case BlockNumberMismatch => "Block numbers do not match."
  }

  /** Distinct errors carry distinct strings, so the enumeration loses nothing. */
  lemma MessageInjective(e1: Error, e2: Error)
    requires e1 != e2
    ensures Message(e1) != Message(e2)
  {
    // the six strings have six different lengths
  }

  /** `DispatchResult`: `Ok(())` or a static error. */
  datatype DispatchResult = Ok | Err(error: Error)

  /** What a state transition returns together with the state it leaves behind. */
  datatype Outcome<S> = Outcome(result: DispatchResult, state: S)

  /** The simplified block header: only the block number. */
  datatype Header<BlockNumber> = Header(blockNumber: BlockNumber)

  /** One external call: who makes it and which call it is. */
  datatype Extrinsic<Caller, Call> = Extrinsic(caller: Caller, call: Call)

  /** A block: a header and the extrinsics to execute, in order. */
  datatype Block<H, X> = Block(header: H, extrinsics: seq<X>)
}
