/**
 * The runtime: one instance of each pallet, the global call enumeration that
 * routes a call to the pallet that owns it, and block execution. A block
 * first advances the block number, is refused as a whole when its header
 * disagrees, and otherwise runs every extrinsic in order, charging the
 * caller's nonce first and discarding the call's error, if any.
 */
module Runtime {
  import opened Support
  import System
  import Balances
  import ProofOfExistence

  /** The concrete runtime identifies accounts and claimed content by strings. */
  type AccountId = string
  type Content = string

  /** One variant per pallet, carrying that pallet's own call. */
  datatype RuntimeCall =
    | BalancesCall(balancesCall: Balances.Call<AccountId>)
    | ProofOfExistenceCall(claimCall: ProofOfExistence.Call<Content>)

  type RuntimeExtrinsic = Extrinsic<AccountId, RuntimeCall>
  type RuntimeBlock = Block<Header<U32>, RuntimeExtrinsic>

  /** Everything the three pallets store, as one value. */
  datatype RuntimeState = RuntimeState(
    blockNumber: U32,
    nonce: map<AccountId, U32>,
    balances: Balances.Ledger<AccountId>,
    claims: map<Content, AccountId>)

  /**
   * Runtime-level dispatch: the call goes to the pallet named by its variant,
   * only that pallet's storage can change, and the pallet's result is
   * returned unchanged.
   */
  function DispatchSpec(s: RuntimeState, caller: AccountId, call: RuntimeCall): (r: Outcome<RuntimeState>)
    ensures r.state.blockNumber == s.blockNumber && r.state.nonce == s.nonce
    ensures call.BalancesCall? ==>
              var o := Balances.DispatchSpec(s.balances, caller, call.balancesCall);
              r.result == o.result && r.state.balances == o.state && r.state.claims == s.claims
    ensures call.ProofOfExistenceCall? ==>
              var o := ProofOfExistence.DispatchSpec(s.claims, caller, call.claimCall);
              r.result == o.result && r.state.claims == o.state && r.state.balances == s.balances
    ensures r.result.Err? ==> r.state == s
  {
    match call
    case BalancesCall(c) =>
      var o := Balances.DispatchSpec(s.balances, caller, c);
      Outcome(o.result, s.(balances := o.state))
    case ProofOfExistenceCall(c) =>
      var o := ProofOfExistence.DispatchSpec(s.claims, caller, c);
      Outcome(o.result, s.(claims := o.state))
  }

  /** How many of `exts` are submitted by `who`. */
  function Count(exts: seq<RuntimeExtrinsic>, who: AccountId): (n: nat)
    ensures n <= |exts|
  {
    if exts == [] then 0
    else (if exts[0].caller == who then 1 else 0) + Count(exts[1..], who)
  }

  /** No caller's nonce overflows u32 while `exts` are charged to `nonce`. */
  predicate NoncesFit(nonce: map<AccountId, U32>, exts: seq<RuntimeExtrinsic>)
  {
    forall i :: 0 <= i < |exts| ==> System.NonceIn(nonce, exts[i].caller) + Count(exts, exts[i].caller) <= MaxU32
  }

  /** Charging the first extrinsic is possible and keeps the rest within bounds. */
  lemma NoncesFitStep(nonce: map<AccountId, U32>, exts: seq<RuntimeExtrinsic>)
    requires exts != [] && NoncesFit(nonce, exts)
    ensures System.NonceIn(nonce, exts[0].caller) < MaxU32
    ensures NoncesFit(System.IncNonceSpec(nonce, exts[0].caller), exts[1..])
  {
    assert System.NonceIn(nonce, exts[0].caller) + Count(exts, exts[0].caller) <= MaxU32;
    var charged := System.IncNonceSpec(nonce, exts[0].caller);
    forall i | 0 <= i < |exts[1..]|
      ensures System.NonceIn(charged, exts[1..][i].caller) + Count(exts[1..], exts[1..][i].caller) <= MaxU32
    {
      assert exts[1..][i] == exts[i + 1];
    }
  }

  /** One loop iteration of `execute_block`: charge the caller's nonce, dispatch, drop the result. */
  function ApplyExtrinsic(s: RuntimeState, x: RuntimeExtrinsic): (r: RuntimeState)
    requires System.NonceIn(s.nonce, x.caller) < MaxU32
    ensures r.blockNumber == s.blockNumber
    ensures r.nonce == System.IncNonceSpec(s.nonce, x.caller)
    // the call never sees the nonce: the pallets end as dispatch on the uncharged state leaves them
    ensures r.balances == DispatchSpec(s, x.caller, x.call).state.balances
    ensures r.claims == DispatchSpec(s, x.caller, x.call).state.claims
  {
    var charged := s.(nonce := System.IncNonceSpec(s.nonce, x.caller));
    DispatchSpec(charged, x.caller, x.call).state
  }

  /** The extrinsics of a block, applied one after another from the first. */
  function ApplyExtrinsics(s: RuntimeState, exts: seq<RuntimeExtrinsic>): (r: RuntimeState)
    requires NoncesFit(s.nonce, exts)
    ensures r.blockNumber == s.blockNumber
    decreases |exts|
  {
    if exts == [] then s
    else
      NoncesFitStep(s.nonce, exts);
      ApplyExtrinsics(ApplyExtrinsic(s, exts[0]), exts[1..])
  }

  /**
   * `execute_block` on a state value. The block number goes up by one
   * whatever happens; a header that disagrees with it refuses the block
   * before any extrinsic runs; otherwise the block succeeds however many of
   * its extrinsics fail.
   */
  function ExecuteBlockSpec(s: RuntimeState, block: RuntimeBlock): (r: Outcome<RuntimeState>)
    requires s.blockNumber < MaxU32
    requires block.header.blockNumber == s.blockNumber + 1 ==> NoncesFit(s.nonce, block.extrinsics)
    ensures r.state.blockNumber == s.blockNumber + 1
    ensures r.result.Ok? <==> block.header.blockNumber == s.blockNumber + 1
    ensures r.result.Err? ==>
              r.result.error == BlockNumberMismatch && r.state == s.(blockNumber := s.blockNumber + 1)
  {
    var advanced := s.(blockNumber := s.blockNumber + 1);
    if advanced.blockNumber != block.header.blockNumber then Outcome(Err(BlockNumberMismatch), advanced)
    else Outcome(Ok, ApplyExtrinsics(advanced, block.extrinsics))
  }

  /** Every extrinsic charges its caller's nonce exactly once, whether or not its call succeeds. */
  lemma {:induction false} ApplyExtrinsicsNonces(s: RuntimeState, exts: seq<RuntimeExtrinsic>, who: AccountId)
    requires NoncesFit(s.nonce, exts)
    ensures System.NonceIn(ApplyExtrinsics(s, exts).nonce, who) == System.NonceIn(s.nonce, who) + Count(exts, who)
    decreases |exts|
  {
    if exts != [] {
      NoncesFitStep(s.nonce, exts);
      ApplyExtrinsicsNonces(ApplyExtrinsic(s, exts[0]), exts[1..], who);
    }
  }

  /**
   * After a block whose header matches, each account's nonce has grown by the
   * number of the block's extrinsics it submitted; in particular no nonce shrinks.
   */
  lemma ExecuteBlockNonces(s: RuntimeState, block: RuntimeBlock, who: AccountId)
    requires s.blockNumber < MaxU32
    requires block.header.blockNumber == s.blockNumber + 1
    requires NoncesFit(s.nonce, block.extrinsics)
    ensures System.NonceIn(ExecuteBlockSpec(s, block).state.nonce, who)
              == System.NonceIn(s.nonce, who) + Count(block.extrinsics, who)
    ensures System.NonceIn(ExecuteBlockSpec(s, block).state.nonce, who) >= System.NonceIn(s.nonce, who)
  {
    ApplyExtrinsicsNonces(s.(blockNumber := s.blockNumber + 1), block.extrinsics, who);
  }

  /**
   * Reference definition of what a block does to the pallets' storage: a left
   * fold of runtime dispatch over the extrinsics, in order, where a call that
   * fails leaves the state as it was.
   */
  function FoldDispatch(s: RuntimeState, exts: seq<RuntimeExtrinsic>): (r: RuntimeState)
    decreases |exts|
  {
    if exts == [] then s
    else FoldDispatch(DispatchSpec(s, exts[0].caller, exts[0].call).state, exts[1..])
  }

  /** Nonce accounting does not influence the pallets: their storage after the loop is the fold of dispatch. */
  lemma {:induction false} ApplyExtrinsicsIsFold(s: RuntimeState, t: RuntimeState, exts: seq<RuntimeExtrinsic>)
    requires NoncesFit(s.nonce, exts)
    requires s.balances == t.balances && s.claims == t.claims
    ensures ApplyExtrinsics(s, exts).balances == FoldDispatch(t, exts).balances
    ensures ApplyExtrinsics(s, exts).claims == FoldDispatch(t, exts).claims
    decreases |exts|
  {
    if exts != [] {
      NoncesFitStep(s.nonce, exts);
      ApplyExtrinsicsIsFold(ApplyExtrinsic(s, exts[0]), DispatchSpec(t, exts[0].caller, exts[0].call).state, exts[1..]);
    }
  }

  /** A block with a matching header leaves balances and claims as the fold of dispatch over its extrinsics. */
  lemma ExecuteBlockIsFold(s: RuntimeState, block: RuntimeBlock)
    requires s.blockNumber < MaxU32
    requires block.header.blockNumber == s.blockNumber + 1
    requires NoncesFit(s.nonce, block.extrinsics)
    ensures ExecuteBlockSpec(s, block).state.balances == FoldDispatch(s, block.extrinsics).balances
    ensures ExecuteBlockSpec(s, block).state.claims == FoldDispatch(s, block.extrinsics).claims
  {
    ApplyExtrinsicsIsFold(s.(blockNumber := s.blockNumber + 1), s, block.extrinsics);
  }

  class Runtime {
    const system: System.Pallet<AccountId>
    const balances: Balances.Pallet<AccountId>
    const proofOfExistence: ProofOfExistence.Pallet<AccountId, Content>

    /** A new runtime: block zero, no nonces, an empty ledger and no claims. */
    constructor ()
      ensures State() == RuntimeState(0, map[], map[], map[])
      ensures fresh(system) && fresh(balances) && fresh(proofOfExistence)
    {
      system := new System.Pallet();
      balances := new Balances.Pallet();
      proofOfExistence := new ProofOfExistence.Pallet();
    }

    /** The storage of the three pallets, as one value. */
    function State(): (r: RuntimeState)
      reads system, balances, proofOfExistence
    {
      RuntimeState(system.blockNumber, system.nonce, balances.balances, proofOfExistence.claims)
    }

    /** Forward a runtime call to the pallet that owns it, returning its error unchanged. */
    method Dispatch(caller: AccountId, call: RuntimeCall) returns (r: DispatchResult)
      modifies balances, proofOfExistence
      ensures Outcome(r, State()) == DispatchSpec(old(State()), caller, call)
    {
      match call {
        case BalancesCall(c) =>
          r := balances.Dispatch(caller, c);
          if r.Err? {
            return;
          }
        case ProofOfExistenceCall(c) =>
          r := proofOfExistence.Dispatch(caller, c);
          if r.Err? {
            return;
          }
      }
      r := Ok;
    }

    /** `execute_block`: advance, check the header, then charge and dispatch each extrinsic in turn. */
    method ExecuteBlock(block: RuntimeBlock) returns (r: DispatchResult)
      requires system.blockNumber < MaxU32
      requires block.header.blockNumber == system.blockNumber + 1 ==> NoncesFit(system.nonce, block.extrinsics)
      modifies system, balances, proofOfExistence
      ensures Outcome(r, State()) == ExecuteBlockSpec(old(State()), block)
    {
      system.IncBlockNumber();
      if system.BlockNumber() != block.header.blockNumber {
        return Err(BlockNumberMismatch);
      }
      ghost var start := State();
      var extrinsics := block.extrinsics;
      var i := 0;
      while i < |extrinsics|
        invariant 0 <= i <= |extrinsics|
        invariant NoncesFit(system.nonce, extrinsics[i..])
        invariant ApplyExtrinsics(State(), extrinsics[i..]) == ApplyExtrinsics(start, extrinsics)
      {
        var extrinsic := extrinsics[i];
        NoncesFitStep(system.nonce, extrinsics[i..]);
        system.IncNonce(extrinsic.caller);
        // the dispatch error is only reported by the source; execution goes on
        var discarded := Dispatch(extrinsic.caller, extrinsic.call);
        assert extrinsics[i..][1..] == extrinsics[i + 1..];
        i := i + 1;
      }
      assert extrinsics[i..] == [];
      r := Ok;
    }
  }
}
