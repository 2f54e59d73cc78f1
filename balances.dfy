/**
 * The Balances pallet: a ledger from account to u128 balance, where an
 * account without an entry holds zero, and an all-or-nothing transfer.
 */
module Balances {
  import opened Support

  /** The ledger as the pallet stores it. */
  type Ledger<AccountId> = map<AccountId, U128>

  /** The balance of `who` in `ledger`, zero when `who` has no entry. */
  function BalanceIn<AccountId>(ledger: Ledger<AccountId>, who: AccountId): (r: U128)
  {
    if who in ledger then ledger[who] else 0
  }

  /**
   * The outcome of `transfer(caller, to, amount)` on `ledger`. Both checked
   * operations are evaluated before anything is written, so a failure leaves
   * the ledger as it was. The two writes go to `caller` first and `to` second;
   * when `caller == to` the second write wins and the account gains `amount`.
   */
  function TransferSpec<AccountId(==,!new)>(ledger: Ledger<AccountId>, caller: AccountId, to: AccountId, amount: U128)
    : (r: Outcome<Ledger<AccountId>>)
    ensures r.result.Ok? <==>
              amount <= BalanceIn(ledger, caller) && BalanceIn(ledger, to) + amount <= MaxU128
    ensures r.result == Err(InsufficientBalance) <==> BalanceIn(ledger, caller) < amount
    ensures r.result == Err(BalanceOverflow) <==>
              amount <= BalanceIn(ledger, caller) && BalanceIn(ledger, to) + amount > MaxU128
    // atomic: an error writes nothing, a success writes exactly the two keys
    ensures r.result.Err? ==> r.state == ledger
    ensures r.result.Ok? ==> r.state.Keys == ledger.Keys + {caller, to}
    ensures forall a :: a != caller && a != to ==> BalanceIn(r.state, a) == BalanceIn(ledger, a)
    ensures forall a :: a in ledger && a != caller && a != to ==> r.state[a] == ledger[a]
    // distinct accounts: the amount moves from one to the other
    ensures r.result.Ok? && caller != to ==>
              BalanceIn(r.state, caller) == BalanceIn(ledger, caller) - amount &&
              BalanceIn(r.state, to) == BalanceIn(ledger, to) + amount
    ensures caller != to ==>
              BalanceIn(r.state, caller) + BalanceIn(r.state, to) == BalanceIn(ledger, caller) + BalanceIn(ledger, to)
    // the same account: the overwrite leaves it at its old balance plus the amount
    ensures r.result.Ok? && caller == to ==> BalanceIn(r.state, caller) == BalanceIn(ledger, caller) + amount
  {
    var callerBalance := BalanceIn(ledger, caller);
    var toBalance := BalanceIn(ledger, to);
    match CheckedSub(callerBalance, amount)
    case None => Outcome(Err(InsufficientBalance), ledger)
    case Some(newCallerBalance) =>
      match CheckedAdd(toBalance, amount)
      case None => Outcome(Err(BalanceOverflow), ledger)
      case Some(newToBalance) => Outcome(Ok, ledger[caller := newCallerBalance][to := newToBalance])
  }

  /** A transfer to oneself that succeeds adds `amount` to the account: a nonzero amount is minted. */
  lemma SelfTransferMints<AccountId(!new)>(ledger: Ledger<AccountId>, who: AccountId, amount: U128)
    requires 0 < amount <= BalanceIn(ledger, who)
    requires BalanceIn(ledger, who) + amount <= MaxU128
    ensures TransferSpec(ledger, who, who, amount).result == Ok
    ensures BalanceIn(TransferSpec(ledger, who, who, amount).state, who) > BalanceIn(ledger, who)
  {
  }

  /** The calls this pallet exposes. */
  datatype Call<AccountId> = Transfer(to: AccountId, amount: U128)

  /** Pallet-level dispatch: the call is routed to `transfer` with the caller injected. */
  function DispatchSpec<AccountId(==,!new)>(ledger: Ledger<AccountId>, caller: AccountId, call: Call<AccountId>)
    : (r: Outcome<Ledger<AccountId>>)
    ensures r == TransferSpec(ledger, caller, call.to, call.amount)
  {
    match call
    case Transfer(to, amount) =>
      var o := TransferSpec(ledger, caller, to, amount);
      if o.result.Err? then o else Outcome(Ok, o.state)
  }

  class Pallet<AccountId(==,!new)> {
    var balances: Ledger<AccountId>

    /** A new pallet has an empty ledger. */
    constructor ()
      ensures balances == map[]
    {
      balances := map[];
    }

    /** The balance of `who`: the stored one, or zero if none is stored. */
    function Balance(who: AccountId): (b: U128)
      reads this
      ensures who !in balances ==> b == 0
      ensures who in balances ==> b == balances[who]
    {
      BalanceIn(balances, who)
    }

    /** Overwrite (or insert) the balance of `who`; every other account keeps its entry. */
    method SetBalance(who: AccountId, amount: U128)
      modifies this
      ensures balances == old(balances)[who := amount]
      ensures Balance(who) == amount
      ensures forall a :: a != who ==> Balance(a) == old(Balance(a))
    {
      balances := balances[who := amount];
    }

    /** `transfer`: checked subtraction and checked addition first, then the two writes. */
    method Transfer(caller: AccountId, to: AccountId, amount: U128) returns (r: DispatchResult)
      modifies this
      ensures Outcome(r, balances) == TransferSpec(old(balances), caller, to, amount)
    {
      var callerBalance := Balance(caller);
      var toBalance := Balance(to);
      var newCallerBalance := CheckedSub(callerBalance, amount);
      if newCallerBalance.None? {
        return Err(InsufficientBalance);
      }
      var newToBalance := CheckedAdd(toBalance, amount);
      if newToBalance.None? {
        return Err(BalanceOverflow);
      }
      SetBalance(caller, newCallerBalance.value);
      SetBalance(to, newToBalance.value);
      return Ok;
    }

    /** Route a pallet call to its method, passing any error through unchanged. */
    method Dispatch(caller: AccountId, call: Call<AccountId>) returns (r: DispatchResult)
      modifies this
      ensures Outcome(r, balances) == DispatchSpec(old(balances), caller, call)
    {
      match call {
        case Transfer(to, amount) =>
          r := Transfer(caller, to, amount);
          if r.Err? {
            return;
          }
      }
      r := Ok;
    }
  }
}
