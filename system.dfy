/**
 * The System pallet: the current block number and, per account, the number
 * of extrinsics it has submitted (its nonce).
 */
module System {
  import opened Support

  /** The nonce stored for `who`; an account never seen has nonce zero. */
  function NonceIn<AccountId>(nonce: map<AccountId, U32>, who: AccountId): (r: U32)
  {
    if who in nonce then nonce[who] else 0
  }

  /** The nonce map after `inc_nonce(who)`: only `who`'s entry moves, and it moves up by one. */
  function IncNonceSpec<AccountId(==,!new)>(nonce: map<AccountId, U32>, who: AccountId): (r: map<AccountId, U32>)
    requires NonceIn(nonce, who) < MaxU32
    ensures who in r && r[who] == NonceIn(nonce, who) + 1
    ensures who !in nonce ==> r[who] == 1
    ensures who in nonce ==> r[who] > nonce[who]
    ensures forall a :: a != who ==> NonceIn(r, a) == NonceIn(nonce, a)
    ensures r.Keys == nonce.Keys + {who}
  {
    nonce[who := NonceIn(nonce, who) + 1]
  }

  class Pallet<AccountId(==,!new)> {
    /** The current block number. */
    var blockNumber: U32
    /** A map from an account to its nonce. */
    var nonce: map<AccountId, U32>

    /** A fresh pallet is at block zero and has recorded no nonce. */
    constructor ()
      ensures blockNumber == 0 && nonce == map[]
    {
      blockNumber := 0;
      nonce := map[];
    }

    /** The current block number; reading it changes nothing. */
    function BlockNumber(): (n: U32)
      reads this
      ensures n == blockNumber
    {
      blockNumber
    }

    /** Advance the block number by exactly one; the nonces stay as they are. */
    method IncBlockNumber()
      requires blockNumber < MaxU32
      modifies this
      ensures blockNumber == old(blockNumber) + 1
      ensures nonce == old(nonce)
    {
      blockNumber := blockNumber + 1;
    }

    /** Count one more extrinsic for `who` (an absent account counts from zero). */
    method IncNonce(who: AccountId)
      requires NonceIn(nonce, who) < MaxU32
      modifies this
      ensures nonce == IncNonceSpec(old(nonce), who)
      ensures blockNumber == old(blockNumber)
    {
      var currentNonce := if who in nonce then nonce[who] else 0;
      var newNonce := currentNonce + 1;
      nonce := nonce[who := newNonce];
    }
  }
}
