/**
 * The deployed VCoin token: one ledger object whose balance store, allowance
 * store and event log are updated in place by approve, transfer and
 * transferFrom.  Each operation is proved to perform exactly the step the
 * Ledger module specifies and to keep the ledger invariant.
 */
module Token {
  import opened Ledger
  import opened LedgerProperties

  class VCoin {
    /** The account the whole supply was minted to. */
    const deployer: Account
    var balances: map<Account, nat>
    var allowances: map<(Account, Account), nat>
    var events: seq<Event>

    /** The ledger state as a value. */
    function Snapshot(): State
      reads this
    {
      State(balances, allowances, events)
    }

    ghost predicate Valid()
      reads this
    {
      Inv(Snapshot(), deployer)
    }

    constructor (deployer: Account)
      ensures Valid()
      ensures this.deployer == deployer
      ensures Snapshot() == Genesis(deployer)
    {
      this.deployer := deployer;
      balances := map[deployer := TotalSupply];
      allowances := map[];
      events := [];
      new;
      GenesisInv(deployer);
    }

    function BalanceOf(a: Account): nat
      reads this
    {
      Ledger.BalanceOf(Snapshot(), a)
    }

    function Allowance(owner: Account, spender: Account): nat
      reads this
    {
      AllowanceOf(Snapshot(), owner, spender)
    }

    method Approve(caller: Account, spender: Account, v: nat) returns (ok: bool)
      requires Valid()
      modifies this
      ensures Valid()
      ensures ok <==> v <= old(BalanceOf(caller))
      ensures Step(Snapshot(), Returned(ok)) == ApplyApprove(old(Snapshot()), caller, spender, v)
    {
      ghost var before := Snapshot();
      ok := v <= BalanceOf(caller);
      if ok {
        allowances := allowances[(caller, spender) := v];
        events := events + [Approval(caller, spender, v)];
      }
      ApplyPreservesInv(before, deployer, ApproveCall(caller, spender, v));
    }

    /** Hard-fails (Reverted) on an insufficient balance; otherwise returns true. */
    method Transfer(caller: Account, to: Account, v: nat) returns (r: Outcome)
      requires Valid()
      modifies this
      ensures Valid()
      ensures r == (if v <= old(BalanceOf(caller)) then Returned(true) else Reverted)
      ensures Step(Snapshot(), r) == ApplyTransfer(old(Snapshot()), caller, to, v)
    {
      ghost var before := Snapshot();
      if v > BalanceOf(caller) {
        return Reverted;
      }
      balances := balances[caller := BalanceOf(caller) - v];
      balances := balances[to := BalanceOf(to) + v];
      events := events + [Event.Transfer(caller, to, v)];
      r := Returned(true);
      ApplyPreservesInv(before, deployer, TransferCall(caller, to, v));
    }

    /** Soft-fails (false, nothing changes) unless allowance(from, to) and from's balance cover v. */
    method TransferFrom(caller: Account, from: Account, to: Account, v: nat) returns (ok: bool)
      requires Valid()
      modifies this
      ensures Valid()
      ensures ok <==> v <= old(Allowance(from, to)) && v <= old(BalanceOf(from))
      ensures Step(Snapshot(), Returned(ok)) == ApplyTransferFrom(old(Snapshot()), caller, from, to, v)
    {
      ghost var before := Snapshot();
      var key := SpendingKey(from, to);
      if v > Allowance(key.0, key.1) || v > BalanceOf(from) {
        return false;
      }
      allowances := allowances[key := Allowance(key.0, key.1) - v];
      balances := balances[from := BalanceOf(from) - v];
      balances := balances[to := BalanceOf(to) + v];
      events := events + [Event.Transfer(from, to, v)];
      ok := true;
      ApplyPreservesInv(before, deployer, TransferFromCall(caller, from, to, v));
    }
  }
}
