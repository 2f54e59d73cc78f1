# A verified model of a minimal blockchain runtime

This project models a small deterministic state machine built like a
blockchain runtime. Three pallets (modules that own storage) are composed
into one runtime, which executes blocks of extrinsics (calls signed by an
account):

- **System** (`system.dfy`) holds the current block number and a nonce per
  account. The nonce counts the extrinsics an account has submitted.
- **Balances** (`balances.dfy`) holds a ledger from account to a `u128`
  balance. An account with no entry holds zero. `transfer` evaluates the
  checked subtraction and the checked addition before it writes anything.
- **ProofOfExistence** (`proof_of_existence.dfy`) holds a map from content to
  the account that claimed it. Only the owner can revoke a claim.
- **Runtime** (`runtime.dfy`) owns one instance of each pallet. It routes a
  `RuntimeCall` to the pallet named by its variant, and each pallet routes its
  own `Call` to one of its methods. `ExecuteBlock` first advances the block
  number, then refuses the block if the header disagrees. Otherwise it runs
  every extrinsic in order: it charges the caller's nonce, then dispatches the
  call and discards any error.
- **Scenario** (`scenario.dfy`) is the program's entry point: two blocks run
  on a fresh runtime, with the state they leave proved exactly.
- **Support** (`support.dfy`) holds the shared types: `U32` and `U128` as
  bounded naturals, `checked_add` and `checked_sub`, the closed error
  enumeration with its exact static strings, `DispatchResult`, and the block
  envelope.

Each pallet is a class whose fields are the storage the source mutates in
place: the maps, and System's `blockNumber` counter. Most mutating methods
ensure that their result and their new storage equal a value-level `...Spec`
function applied to the old storage. The properties are stated on those
functions and proved there, in their `ensures` clauses and in lemmas. Two
methods are too small to need a `...Spec` function and state their new value
directly: `Balances.Pallet.SetBalance` ensures the ledger is the old one with
`who` mapped to `amount`, and `System.Pallet.IncBlockNumber` ensures the block
number is the old one plus 1. The runtime has a value-level view too. `RuntimeState` holds all
storage. `ApplyExtrinsics` is what the loop in `execute_block` computes.
`FoldDispatch` is an independent reference: a left fold of dispatch alone.
The loop in `Runtime.ExecuteBlock` is proved against `ApplyExtrinsics`.

The repository holds the pallets twice: as separate files under `src/`, and
composed and macro-expanded in `out.rs`. The logic is the same in both. The
rows below cite `src/` for the pallet methods, and `out.rs` for the call
enumerations, dispatch and block execution, which exist only there.

**A quirk of the source, modelled as written.** When `caller == to`, both
reads in `transfer` return the same balance `b`. The write to `to` comes
second and overwrites the write to `caller`, so the account ends at
`b + amount`. A self-transfer therefore creates `amount` out of nothing, and
conservation holds only for distinct accounts. `Balances.TransferSpec` states
both cases, and `Balances.SelfTransferMints` spells out the consequence.

**Another one.** `execute_block` increments the block number before it
compares it with the header. A refused block still advances the chain by one,
and the model keeps that.

## Model

| member | source | states |
|---|---|---|
| `Support.CheckedSub` | out.rs:63-65 | The result is absent exactly when `amount` exceeds the balance. Otherwise it is the exact difference. |
| `Support.CheckedAdd` | out.rs:66-68 | The result is absent exactly when the sum exceeds 2^128-1. Otherwise it is the exact sum. |
| `Support.Message` | out.rs:63-68 | Each error kind maps to the non-empty static string the source returns for it: the two balance errors here, and the claim and header errors at out.rs:146, 161, 163 and 363. |
| `Support.MessageInjective` | out.rs:218-220 | Distinct error kinds carry distinct static strings, so an enumeration loses nothing. |
| `System.IncNonceSpec` | src/system.rs:35-39 | An absent account goes to 1, and any other goes to its old nonce + 1, which is strictly larger. Every other account's nonce is unchanged. Exactly the key `who` is added. |
| `System.Pallet.constructor` | src/system.rs:15-20 | A new pallet is at block 0 with an empty nonce map. |
| `System.Pallet.BlockNumber` | src/system.rs:23-25 | Returns the current block number. Reading it changes nothing. |
| `System.Pallet.IncBlockNumber` | src/system.rs:29-31 | The block number goes up by exactly 1, and the nonce map is unchanged. |
| `System.Pallet.IncNonce` | src/system.rs:35-39 | The nonce map becomes `IncNonceSpec` of the old one, and the block number is unchanged. |
| `Balances.TransferSpec` | src/balances.rs:43-57 | Ok happens exactly when the caller holds at least `amount` and the recipient + `amount` fits in u128. `InsufficientBalance` happens exactly when the caller holds less. `BalanceOverflow` happens exactly when the subtraction succeeds but the addition overflows. An error leaves the ledger unchanged. A success writes only the keys `caller` and `to`. For distinct accounts, `amount` moves from one to the other and their sum is preserved. For `caller == to`, the account ends at old + `amount`. |
| `Balances.SelfTransferMints` | src/balances.rs:43-55 | A successful self-transfer of a nonzero amount leaves the account with more than it had. |
| `Balances.DispatchSpec` | out.rs:78-92 | `Call::transfer` is routed to `transfer` with the caller injected, and the result and ledger are exactly that method's. |
| `Balances.Pallet.constructor` | src/balances.rs:15-19 | A new pallet starts with an empty ledger. |
| `Balances.Pallet.Balance` | src/balances.rs:28-32 | An account with no entry reads as zero. A stored account reads as its stored balance. |
| `Balances.Pallet.SetBalance` | src/balances.rs:22-24 | Afterwards `balance(who) == amount`, and every other account's balance is as before. |
| `Balances.Pallet.Transfer` | src/balances.rs:37-58 | The result and the new ledger are those of `TransferSpec` on the old ledger. |
| `Balances.Pallet.Dispatch` | out.rs:78-92 | The result and the new ledger are those of `DispatchSpec` on the old ledger. |
| `ProofOfExistence.CreateClaimSpec` | src/proof_of_existence.rs:38-50 | Ok happens exactly when the content is unclaimed, and afterwards the caller owns it. Otherwise the result is `AlreadyClaimed`, the map is unchanged and the original owner keeps the claim. No other content's claim changes. |
| `ProofOfExistence.RevokeClaimSpec` | src/proof_of_existence.rs:55-71 | Absent content gives `ClaimNotFound`. A different owner gives `NotClaimOwner`. Ok happens exactly when the caller owns the claim, and then the entry is removed. An error leaves the map unchanged. No other content's claim changes. |
| `ProofOfExistence.DispatchSpec` | out.rs:174-192 | `create_claim` and `revoke_claim` calls go to the matching method with the caller injected, and the outcome is exactly that method's. |
| `ProofOfExistence.ClaimLifecycle` | src/proof_of_existence.rs:89-115 | After the owner claims content: a second claim by another account fails with `AlreadyClaimed`; a revocation by that account fails with `NotClaimOwner`; a revocation by the owner restores the original map. |
| `ProofOfExistence.Pallet.constructor` | src/proof_of_existence.rs:22-26 | A new pallet holds no claims, so `get_claim` is `None` for all content. |
| `ProofOfExistence.Pallet.GetClaim` | src/proof_of_existence.rs:29-31 | The result is `Some(owner)` exactly when the content is claimed, with the stored owner. |
| `ProofOfExistence.Pallet.CreateClaim` | src/proof_of_existence.rs:38-50 | The result and the new map are those of `CreateClaimSpec` on the old map. |
| `ProofOfExistence.Pallet.RevokeClaim` | src/proof_of_existence.rs:55-71 | The result and the new map are those of `RevokeClaimSpec` on the old map. |
| `ProofOfExistence.Pallet.Dispatch` | out.rs:174-192 | The result and the new map are those of `DispatchSpec` on the old map. |
| `Runtime.DispatchSpec` | out.rs:389-406 | A `Balances` call changes only the ledger, and a `ProofOfExistence` call changes only the claims. The block number and nonces never change. The inner result is returned unchanged, and an error leaves the whole state unchanged. |
| `Runtime.ApplyExtrinsic` | out.rs:370-384 | One loop iteration: the caller's nonce goes up by one even when the call fails, and the block number is unchanged. The ledger and the claims are exactly those that dispatching the call leaves, because dispatch never reads the nonce. The call's result is discarded. |
| `Runtime.ApplyExtrinsics` | out.rs:365-385 | Running the extrinsics in order, each charged then dispatched, never changes the block number. |
| `Runtime.ExecuteBlockSpec` | out.rs:351-387 | The block number always goes up by exactly 1. The result is Ok exactly when the header equals the new block number, however many extrinsics fail. On a mismatch, the result is `BlockNumberMismatch` and the block number is the only change: no nonce, balance or claim moves. |
| `Runtime.ApplyExtrinsicsNonces` | out.rs:365-370 | Each account's nonce grows by exactly the number of extrinsics it submitted, whether or not their calls failed. |
| `Runtime.ExecuteBlockNonces` | out.rs:365-370 | After a block with a matching header, each account's nonce is its old nonce plus its number of extrinsics in the block, so no nonce decreases. |
| `Runtime.ApplyExtrinsicsIsFold` | out.rs:365-385 | The loop leaves the ledger and the claims equal to those of the reference left fold of dispatch over the extrinsics. Nonce charging has no effect on them. |
| `Runtime.ExecuteBlockIsFold` | out.rs:365-386 | After a block with a matching header, the ledger and the claims equal the left fold of dispatch over the block's extrinsics, in order. A failed call contributes nothing. |
| `Runtime.Runtime.constructor` | out.rs:344-350 | A new runtime is at block 0, with no nonces, an empty ledger and no claims, and all three pallets are fresh. |
| `Runtime.Runtime.Dispatch` | out.rs:389-406 | The result and the new state are those of `Runtime.DispatchSpec` on the old state. |
| `Runtime.Runtime.ExecuteBlock` | out.rs:351-387 | The result and the new state are those of `ExecuteBlockSpec` on the old state. |
| `Scenario.Block1Effect` | out.rs:413-438 | Block 1 on alice = 100 succeeds and leaves alice = 50, bob = 30, charlie = 20, block 1, and alice's nonce = 2. |
| `Scenario.Block2Dispatches` | out.rs:439-472 | Each extrinsic of block 2 is dispatched after its caller's nonce is charged. alice's claim returns Ok. bob's revocation of alice's content returns `NotClaimOwner` and changes only bob's nonce. alice's revocation and charlie's claim return Ok. The state after each step is given exactly. |
| `Scenario.Block2Effect` | out.rs:439-473 | Block 2 returns Ok, because the failure of bob's revocation does not stop the block. `"claim content"` ends absent, `"charlie claim content"` is owned by charlie, and the nonces are alice = 4, bob = 1, charlie = 1. |
| `Scenario.RunMain` | out.rs:408-473 | Both blocks of the entry point return Ok. The final state is block 2; nonces alice = 4, bob = 1, charlie = 1; balances alice = 50, bob = 30, charlie = 20; and a single claim, `"charlie claim content"`, owned by charlie. |

## Left out

- Integer overflow of `+= 1` on the block number and of `+ 1` on a nonce (src/system.rs:30, 37; out.rs:289, 293) would panic in the source. The model excludes it by preconditions and does not model the panic. `ExecuteBlock` requires the block number below 2^32-1. When the header matches, it also requires that no caller's nonce plus its number of extrinsics in the block exceeds 2^32-1.
- The diagnostics that `execute_block` and the entry point print (out.rs:355-361, 374-383, 474-476) are I/O. A dispatch error is discarded, and the extrinsic's index is used only for that printing.
- The derived and hand-expanded `Debug` implementations (out.rs:20-35, 111-126, 257-275, 316-331) are formatting only.
- The prelude and extern boilerplate (out.rs:1-6) are left out.
- The `num` trait bounds and the `Config` associated types (out.rs:10-16, 98-103, 236-248, 332-342) are plumbing. Pallets take the account and content types as type parameters. Balances are fixed at the runtime's `u128` and block numbers and nonces at its `u32`. The runtime fixes accounts and content to `string`.
- The `Dispatch` trait (out.rs:221-231) is not a trait here, because traits are not used. Each pallet and the runtime implement its single `dispatch` method with the same shape instead.
- The `#[macros::call]` procedural macro (src/proof_of_existence.rs:34) is not modelled. Its expansion in out.rs:169-192 is.
- src/main.rs is not part of this model. It holds a hello-world entry point and duplicates of the balances tests.
- `get_claim` returns a borrow of the owner (`Option<&AccountId>`). The model returns a copy, because values carry no aliasing here.
