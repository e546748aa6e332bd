# VCoin ledger in Dafny

VCoin is an EIP-20 style fungible token. Its behaviour is pinned down by the test
file `test/VCoin.spec.js`. The token's contract source is not part of this model.
The tests drive one deployed ledger and check four things:

- the fixed metadata: name "VCoin", symbol "VC", 8 decimals, a supply of 1,000,000;
- the balance store (`balanceOf`) and the allowance store (`allowance`), both reading 0 by default;
- the three operations `approve`, `transfer` and `transferFrom`;
- the `Approval` and `Transfer` events those operations emit.

The project has four modules:

- `Ledger` (ledger.dfy): the ledger as a value.
  - A `State` holds the balances map, the allowances map keyed by (owner, spender) and the event log.
  - `Genesis` mints the whole supply to the deploying account.
  - `Debit`, `Credit`, `Move` and `Consume` are the internal primitives of the two stores.
  - `ApplyApprove`, `ApplyTransfer` and `ApplyTransferFrom` are the three operations as step functions.
  - `Run` applies a sequence of calls.
  - `Sum` is the total held over all accounts.
  - An operation's `Outcome` is either `Returned(b)`, a soft true/false answer, or `Reverted`, a hard abort.
- `LedgerProperties` (properties.dfy): what the tests assert, proved for every state and argument, plus the invariant `Inv` that every reachable ledger keeps. `Inv` says three things:
  - the balances sum to the total supply;
  - every positive balance belongs to the deployer or to an account some logged `Transfer` credited;
  - every positive allowance comes from a logged `Approval`.
- `Token` (vcoin.dfy): the deployed token as a class, `Token.VCoin`.
  - Its fields `balances`, `allowances` and `events` are updated in place by the methods `Approve`, `Transfer` and `TransferFrom`.
  - Each method is proved to perform exactly the corresponding `Ledger` step and to keep `Inv`.
- `Scenarios` (scenarios.dfy): the test cases, each replayed on a fresh deployment through the class's contracts only. Lines 143-155 are `Scenarios.ApproveReadBack`.

Every operation takes its sender as an explicit `caller` argument, standing in for `msg.sender`. The tests send every transaction from `accounts[0]`, which is also the deployer.

Three choices are fixed by the tests rather than by the EIP-20 convention:

- `approve` succeeds only when the amount is at most the caller's balance (lines 79-112). Otherwise it returns false and logs nothing.
- `transfer` with too large an amount is a hard failure (lines 168-172). The model returns `Reverted` and leaves the state unchanged. A transfer of 0 is ordinary and is still logged.
- `transferFrom(caller, from, to, v)` consults and consumes the allowance that `from` granted to `to` (`Ledger.SpendingKey`). It does not use the allowance granted to `caller`, as EIP-20 does. The tests fix this key only for the case they exercise, where the caller is `from` itself. At lines 241-293 the sender is `accounts[0]` = `from` and the recipient is the approved account, and the entry (`accounts[0]`, recipient) is seen to fall from 15 to 5. Under the conventional keying that call would have been refused. Every transaction in the test file is sent by `accounts[0]`, so the tests say nothing about any other caller. Using (from, to) for every caller is the model's own choice. Under it, any account can start a transferFrom that draws on allowance(from, to), even when allowance(from, caller) is 0 (`LedgerProperties.TransferFromIgnoresCaller`). The conventional rule, under which only the approved spender may call, would refuse such a call. For the call `transferFrom(X, G, X, 10)` of the end-to-end run (`Scenarios.EndToEnd`), the two keyings coincide.

The test file never asserts a total over balances. It asserts single balances only: the deployer's at genesis (lines 45-59) and the -v/+v pair after a move (lines 193-205). The conservation law, the first conjunct of `Inv`, is stated by the model itself. It generalises those per-account assertions. The rows for `Sum` and its lemmas cite the per-account lines they generalise.

`transferFrom` also returns false, changing nothing, when the owner's balance is below `v` even though the allowance covers it. The tests never reach that case. The model treats both shortfalls the same way, as soft rejections.

## Model

| member | source | states |
|---|---|---|
| `Ledger.SumOverRemove` | test/VCoin.spec.js:45-59 | any account can be split off the supply total, whichever one the definition picks first |
| `Ledger.SumUpdate` | test/VCoin.spec.js:193-205 | overwriting one balance changes the total by exactly the difference between new and old value |
| `Ledger.DebitSum` | test/VCoin.spec.js:196-200 | debiting v from an account that holds at least v lowers the total by exactly v |
| `Ledger.CreditSum` | test/VCoin.spec.js:201-205 | crediting v raises the total by exactly v |
| `Ledger.MoveConserves` | test/VCoin.spec.js:193-205 | a paired debit and credit leaves the total supply unchanged |
| `Ledger.MoveEffect` | test/VCoin.spec.js:193-205 | a move lowers the sender by v and raises the receiver by v; every other account is unchanged, and nothing changes when sender and receiver coincide |
| `LedgerProperties.GenesisInv` | test/VCoin.spec.js:45-69 | at genesis the deployer holds the whole supply, every other account holds 0, every allowance is 0, and the invariant holds |
| `LedgerProperties.ApproveAccepted` | test/VCoin.spec.js:79-97 | with v at most the caller's balance, approve returns true and sets allowance(caller, spender) to exactly v; other pairs and all balances are unchanged, and exactly Approval(caller, spender, v) is appended |
| `LedgerProperties.ApproveRejected` | test/VCoin.spec.js:99-112 | with v above the caller's balance, approve returns false and the state, log included, is unchanged |
| `LedgerProperties.ApproveOverwrites` | test/VCoin.spec.js:114-141 | two successful approvals of the same pair leave the second amount, not the sum, and log both events in order |
| `LedgerProperties.TransferReverted` | test/VCoin.spec.js:168-172 | with v above the caller's balance, transfer aborts hard and the state is unchanged |
| `LedgerProperties.TransferAccepted` | test/VCoin.spec.js:174-206 | with v at most the caller's balance, transfer returns true, moves v from caller to receiver, leaves all other balances and every allowance as they were, conserves the total and appends Transfer(caller, to, v) |
| `LedgerProperties.TransferZero` | test/VCoin.spec.js:208-217 | a transfer of 0 succeeds, changes no balance and still appends Transfer(caller, to, 0) |
| `LedgerProperties.TransferFromRejected` | test/VCoin.spec.js:219-239 | when allowance(from, to) or from's balance is below v, transferFrom returns false and the state is unchanged, so no Transfer is logged |
| `LedgerProperties.TransferFromAccepted` | test/VCoin.spec.js:241-322 | when both cover v, transferFrom returns true, moves v from `from` to `to`, lowers allowance(from, to) by exactly v, leaves other allowances and balances as they were, conserves the total and appends Transfer(from, to, v) |
| `LedgerProperties.TransferFromIgnoresCaller` | test/VCoin.spec.js:253-293 | the outcome and new state of transferFrom do not depend on who sends it; in particular, after approve(g, x, 15) a third account z can move 10 from g to x although allowance(g, z) is 0 |
| `LedgerProperties.ApplyAtomic` | test/VCoin.spec.js:99-112 | any call that does not return true leaves the whole state unchanged; one that does extends the log by exactly one event |
| `LedgerProperties.RunExtendsLog` | test/VCoin.spec.js:181-191 | over any sequence of calls the log only grows, by exactly one event per successful call |
| `LedgerProperties.LogExtensionKeepsHistory` | test/VCoin.spec.js:187-191 | appending an event keeps every earlier credit and approval on record and records the new one |
| `LedgerProperties.ApplyPreservesInv` | test/VCoin.spec.js:174-322 | every operation, successful or not, preserves conservation of the supply and the invariant tying positive balances and allowances to logged events |
| `LedgerProperties.RunPreservesInv` | test/VCoin.spec.js:174-322 | any sequence of calls preserves the invariant |
| `LedgerProperties.SupplyConserved` | test/VCoin.spec.js:45-59 | from genesis, after any sequence of calls, the balances sum to the total supply of 1,000,000 |
| `LedgerProperties.NeverCreditedHoldsNothing` | test/VCoin.spec.js:61-69 | in any reachable state, an account other than the deployer that no logged Transfer credited has balance 0 |
| `LedgerProperties.NeverApprovedAllowsNothing` | test/VCoin.spec.js:157-166 | in any reachable state, a pair that no logged Approval named has allowance 0 |
| `Token.VCoin.constructor` | test/VCoin.spec.js:45-59 | deployment yields the genesis state, with the whole supply on the deployer, and establishes the invariant |
| `Token.VCoin.Approve` | test/VCoin.spec.js:79-155 | returns true exactly when v is at most the caller's old balance; the new state is exactly the approve step of the old one; the invariant is kept |
| `Token.VCoin.Transfer` | test/VCoin.spec.js:168-217 | returns Reverted exactly when v exceeds the caller's old balance, and true otherwise; the new state is exactly the transfer step of the old one; the invariant is kept |
| `Token.VCoin.TransferFrom` | test/VCoin.spec.js:219-322 | returns true exactly when allowance(from, to) and from's balance both cover v; the new state is exactly the transferFrom step of the old one; the invariant is kept |
| `Scenarios.FreshDeployment` | test/VCoin.spec.js:13-69 | metadata is "VCoin", "VC", 8 and 1,000,000; the deployer holds the supply, another account holds 0, and an unapproved pair has allowance 0 |
| `Scenarios.ApproveWithFunds` | test/VCoin.spec.js:79-97 | approving 1 succeeds and the last event is Approval(base, other, 1) |
| `Scenarios.ApproveWithoutFunds` | test/VCoin.spec.js:99-112 | approving the balance plus one returns false and logs nothing |
| `Scenarios.ApproveTwice` | test/VCoin.spec.js:114-141 | approve 15 reads back 15; approve 24 afterwards reads back 24 |
| `Scenarios.ApproveReadBack` | test/VCoin.spec.js:143-155 | approving 11 succeeds and allowance(base, other) then reads exactly 11 |
| `Scenarios.TransferSequence` | test/VCoin.spec.js:168-217 | an over-balance transfer reverts; transfer 10 leaves 999,990 and 10; transfer 0 succeeds and logs Transfer(base, other, 0) |
| `Scenarios.TransferFromSequence` | test/VCoin.spec.js:219-322 | transferFrom before approve returns false with no event; after approve 15, transferFrom(base, base, other, 10) succeeds, leaves 999,990 and 10 and an allowance of 5, and logs Transfer(base, other, 10) |
| `Scenarios.EndToEnd` | test/VCoin.spec.js:174-293 | transfer 10, approve 15, then the recipient pulls 10 to itself: balances 999,980 and 20, remaining allowance 5 |

## Left out

- The Truffle, Mocha and Chai harness (`artifacts.require`, `contract`, `describe`, `beforeEach`, `truffleAssert`, async calls, `.call` versus `.sendTransaction`) is not modelled. It is test plumbing, not ledger logic.
- Shared deployment order is not modelled. The tests share one deployed instance, and replayed literally in that order they are not consistent: after lines 143-155 the allowance (`accounts[0]`, `accounts[5]`) is 11, so the transferFrom of 10 at lines 219-239 would succeed. Each scenario therefore starts from a fresh deployment.
- Big-number handling is not modelled. This covers the `.words[...]` extraction at lines 51-52 and the string concatenation that `balance + 1` performs on a big number at lines 102 and 170. Those amounts are modelled as "the balance plus one", which is an amount above the balance.
- EVM semantics are not modelled: gas, revert mechanics and uint256 overflow. Amounts are unbounded naturals, and a hard abort is the `Reverted` outcome.
- The tests make no assertion about events at deployment; the model's genesis log is empty.
- `Ledger.Name`, `Ledger.Symbol`, `Ledger.Decimals` and `Ledger.TotalSupply` are plain constants, without operations of their own.
