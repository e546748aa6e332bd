/**
 * The token's test cases, each replayed on a fresh deployment by the account
 * `base` (the deployer) with a second account `other`.  Each method's
 * postcondition is what the test asserts; it follows from the contracts of
 * VCoin alone.
 */
module Scenarios {
  import opened Ledger
  import opened Token

  /** Metadata and the balances and allowances of a fresh deployment. */
  method FreshDeployment(base: Account, other: Account)
    returns (name: string, symbol: string, decimals: nat, supply: nat,
             baseBalance: nat, otherBalance: nat, allowed: nat)
    requires base != other
    ensures name == "VCoin" && symbol == "VC"
    ensures decimals == 8 && supply == 1_000_000
    ensures baseBalance == supply
    ensures otherBalance == 0 && allowed == 0
  {
    var token := new VCoin(base);
    name, symbol, decimals, supply := Name, Symbol, Decimals, TotalSupply;
    baseBalance := token.BalanceOf(base);
    otherBalance := token.BalanceOf(other);
    allowed := token.Allowance(base, other);
  }

  /** approve within the balance succeeds and logs Approval(base, other, 1). */
  method ApproveWithFunds(base: Account, other: Account) returns (ok: bool, last: Event)
    ensures ok && last == Approval(base, other, 1)
  {
    var token := new VCoin(base);
    ok := token.Approve(base, other, 1);
    last := token.events[|token.events| - 1];
  }

  /** approve beyond the balance returns false and logs nothing. */
  method ApproveWithoutFunds(base: Account, other: Account) returns (ok: bool, logged: nat)
    ensures !ok && logged == 0
  {
    var token := new VCoin(base);
    var amount := token.BalanceOf(base) + 1;
    ok := token.Approve(base, other, amount);
    logged := |token.events|;
  }

  /** approve 15 then approve 24 leaves 24, not 39. */
  method ApproveTwice(base: Account, other: Account) returns (first: bool, afterFirst: nat, second: bool, afterSecond: nat)
    ensures first && afterFirst == 15
    ensures second && afterSecond == 24
  {
    var token := new VCoin(base);
    first := token.Approve(base, other, 15);
    afterFirst := token.Allowance(base, other);
    second := token.Approve(base, other, 24);
    afterSecond := token.Allowance(base, other);
  }

  /** approve 11 and read the allowance straight back. */
  method ApproveReadBack(base: Account, other: Account) returns (ok: bool, allowed: nat)
    ensures ok && allowed == 11
  {
    var token := new VCoin(base);
    ok := token.Approve(base, other, 11);
    allowed := token.Allowance(base, other);
  }

  /**
   * transfer of more than the balance aborts without effect; a transfer of 10
   * moves 10 and logs it; a transfer of 0 is still logged.
   */
  method TransferSequence(base: Account, other: Account)
    returns (tooMuch: Outcome, ten: Outcome, baseAfter: nat, otherAfter: nat, zero: Outcome, last: Event)
    requires base != other
    ensures tooMuch == Reverted
    ensures ten == Returned(true) && baseAfter == 999_990 && otherAfter == 10
    ensures zero == Returned(true) && last == Event.Transfer(base, other, 0)
  {
    var token := new VCoin(base);
    tooMuch := token.Transfer(base, other, token.BalanceOf(base) + 1);
    ten := token.Transfer(base, other, 10);
    baseAfter := token.BalanceOf(base);
    otherAfter := token.BalanceOf(other);
    zero := token.Transfer(base, other, 0);
    last := token.events[|token.events| - 1];
  }

  /**
   * transferFrom before any approve fails softly; after approve 15 a
   * transferFrom of 10 sent by the owner itself moves 10, logs it, and
   * leaves an allowance of 5.
   */
  method TransferFromSequence(base: Account, other: Account)
    returns (early: bool, earlyLogged: nat, approved: bool, moved: bool,
             baseAfter: nat, otherAfter: nat, remaining: nat, last: Event)
    requires base != other
    ensures !early && earlyLogged == 0
    ensures approved && moved
    ensures baseAfter == 999_990 && otherAfter == 10 && remaining == 5
    ensures last == Event.Transfer(base, other, 10)
  {
    var token := new VCoin(base);
    early := token.TransferFrom(base, base, other, 10);
    earlyLogged := |token.events|;
    approved := token.Approve(base, other, 15);
    moved := token.TransferFrom(base, base, other, 10);
    baseAfter := token.BalanceOf(base);
    otherAfter := token.BalanceOf(other);
    remaining := token.Allowance(base, other);
    last := token.events[|token.events| - 1];
  }

  /**
   * The end-to-end run: G transfers 10 to X, approves X for 15, and X then
   * pulls 10 from G to itself.
   */
  method EndToEnd(g: Account, x: Account)
    returns (gAfterTransfer: nat, xAfterTransfer: nat, allowed: nat, pulled: bool,
             gFinal: nat, xFinal: nat, remaining: nat)
    requires g != x
    ensures gAfterTransfer == 999_990 && xAfterTransfer == 10 && allowed == 15
    ensures pulled && gFinal == 999_980 && xFinal == 20 && remaining == 5
  {
    var token := new VCoin(g);
    var _ := token.Transfer(g, x, 10);
    gAfterTransfer, xAfterTransfer := token.BalanceOf(g), token.BalanceOf(x);
    var _ := token.Approve(g, x, 15);
    allowed := token.Allowance(g, x);
    pulled := token.TransferFrom(x, g, x, 10);
    gFinal, xFinal := token.BalanceOf(g), token.BalanceOf(x);
    remaining := token.Allowance(g, x);
  }
}
