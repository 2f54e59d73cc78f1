/**
 * The two blocks the program's entry point builds and executes: alice starts
 * with 100, sends 30 to bob and 20 to charlie in block 1; in block 2 alice
 * claims some content, bob fails to revoke it, alice revokes it and charlie
 * claims other content.
 */
module Scenario {
  import opened Support
  import opened Runtime
  import System
  import Balances
  import ProofOfExistence

  /** The extrinsics of block 1: two transfers from alice. */
  function Block1Extrinsics(): seq<RuntimeExtrinsic>
  {
    [ Extrinsic("alice", BalancesCall(Balances.Transfer("bob", 30))),
      Extrinsic("alice", BalancesCall(Balances.Transfer("charlie", 20))) ]
  }

  /** The extrinsics of block 2: a claim, a revocation by a non-owner, one by the owner, another claim. */
  function Block2Extrinsics(): seq<RuntimeExtrinsic>
  {
    [ Extrinsic("alice", ProofOfExistenceCall(ProofOfExistence.CreateClaim("claim content"))),
      Extrinsic("bob", ProofOfExistenceCall(ProofOfExistence.RevokeClaim("claim content"))),
      Extrinsic("alice", ProofOfExistenceCall(ProofOfExistence.RevokeClaim("claim content"))),
      Extrinsic("charlie", ProofOfExistenceCall(ProofOfExistence.CreateClaim("charlie claim content"))) ]
  }

  /** Block 1 on the initial state: both transfers go through. */
  lemma Block1Effect(s: RuntimeState)
    requires s == RuntimeState(0, map[], map["alice" := 100], map[])
    ensures NoncesFit(map[], Block1Extrinsics())
    ensures ExecuteBlockSpec(s, Block(Header(1), Block1Extrinsics())) ==
      Outcome(Ok, RuntimeState(1, map["alice" := 2], map["alice" := 50, "bob" := 30, "charlie" := 20], map[]))
  {
    var exts := Block1Extrinsics();
    var s0 := s.(blockNumber := 1);
    var s1 := ApplyExtrinsic(s0, exts[0]);
    assert s1 == RuntimeState(1, map["alice" := 1], map["alice" := 70, "bob" := 30], map[]);
    var s2 := ApplyExtrinsic(s1, exts[1]);
    assert s2 == RuntimeState(1, map["alice" := 2], map["alice" := 50, "bob" := 30, "charlie" := 20], map[]);
    assert ApplyExtrinsics(s2, exts[2..]) == s2;
    assert ApplyExtrinsics(s1, exts[1..]) == s2;
  }

  /**
   * The four extrinsics of block 2, one at a time from the state after the
   * block number has advanced: each call is dispatched after its caller's
   * nonce is charged; alice's claim, her revocation and charlie's claim
   * succeed, and bob's revocation fails because alice owns the content.
   */
  lemma Block2Dispatches(s: RuntimeState)
    requires s == RuntimeState(2, map["alice" := 2], map["alice" := 50, "bob" := 30, "charlie" := 20], map[])
    ensures var exts := Block2Extrinsics();
      var s1 := ApplyExtrinsic(s, exts[0]);
      var s2 := ApplyExtrinsic(s1, exts[1]);
      var s3 := ApplyExtrinsic(s2, exts[2]);
      && DispatchSpec(s.(nonce := System.IncNonceSpec(s.nonce, "alice")), "alice", exts[0].call).result == Ok
      && DispatchSpec(s1.(nonce := System.IncNonceSpec(s1.nonce, "bob")), "bob", exts[1].call).result
           == Err(NotClaimOwner)
      && DispatchSpec(s2.(nonce := System.IncNonceSpec(s2.nonce, "alice")), "alice", exts[2].call).result == Ok
      && DispatchSpec(s3.(nonce := System.IncNonceSpec(s3.nonce, "charlie")), "charlie", exts[3].call).result == Ok
      && s1 == s.(nonce := map["alice" := 3], claims := map["claim content" := "alice"])
      && s2 == s1.(nonce := map["alice" := 3, "bob" := 1])
      && s3 == s2.(nonce := map["alice" := 4, "bob" := 1], claims := map[])
      && ApplyExtrinsic(s3, exts[3]) == s3.(nonce := map["alice" := 4, "bob" := 1, "charlie" := 1],
                                            claims := map["charlie claim content" := "charlie"])
  {
  }

  /** Block 2 after block 1: it succeeds, and only charlie's claim remains. */
  lemma Block2Effect(s: RuntimeState)
    requires s == RuntimeState(1, map["alice" := 2], map["alice" := 50, "bob" := 30, "charlie" := 20], map[])
    ensures NoncesFit(s.nonce, Block2Extrinsics())
    ensures ExecuteBlockSpec(s, Block(Header(2), Block2Extrinsics())) ==
      Outcome(Ok, RuntimeState(2, map["alice" := 4, "bob" := 1, "charlie" := 1],
                               s.balances, map["charlie claim content" := "charlie"]))
  {
    var exts := Block2Extrinsics();
    var s0 := s.(blockNumber := 2);
    Block2Dispatches(s0);
    var s1 := ApplyExtrinsic(s0, exts[0]);
    var s2 := ApplyExtrinsic(s1, exts[1]);
    var s3 := ApplyExtrinsic(s2, exts[2]);
    var s4 := ApplyExtrinsic(s3, exts[3]);
    assert ApplyExtrinsics(s4, exts[4..]) == s4;
    assert ApplyExtrinsics(s3, exts[3..]) == s4;
    assert ApplyExtrinsics(s2, exts[2..]) == s4;
    assert ApplyExtrinsics(s1, exts[1..]) == s4;
  }

  /** The program's entry point: both blocks succeed and leave the documented state. */
  method RunMain() returns (first: DispatchResult, second: DispatchResult, state: RuntimeState)
    ensures first == Ok && second == Ok
    ensures state.blockNumber == 2
    ensures state.nonce == map["alice" := 4, "bob" := 1, "charlie" := 1]
    ensures state.balances == map["alice" := 50, "bob" := 30, "charlie" := 20]
    ensures state.claims == map["charlie claim content" := "charlie"]
  {
    var runtime := new Runtime();
    runtime.balances.SetBalance("alice", 100);

    Block1Effect(runtime.State());
    var block1 := Block(Header(runtime.system.BlockNumber() + 1), Block1Extrinsics());
    first := runtime.ExecuteBlock(block1);

    Block2Effect(runtime.State());
    var block2 := Block(Header(runtime.system.BlockNumber() + 1), Block2Extrinsics());
    second := runtime.ExecuteBlock(block2);

    state := runtime.State();
  }
}
