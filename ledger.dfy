/**
 * The VCoin ledger as a state machine over values: the balance store, the
 * allowance store and the event log, the three operations of the transfer
 * engine as step functions, and the properties the token's tests rely on.
 * The class in vcoin.dfy mutates the same state in place and is proved
 * against these functions.
 */
module Ledger {

  /** Account handles (addresses). */
  type Account = nat

  // Metadata fixed at deployment.
  const Name: string := "VCoin"
  const Symbol: string := "VC"
  const Decimals: nat := 8
  const TotalSupply: nat := 1_000_000

  datatype Event =
    | Approval(owner: Account, spender: Account, value: nat)
    | Transfer(from: Account, to: Account, value: nat)

  /** What a caller sees: a returned boolean, or a hard abort (revert). */
  datatype Outcome = Returned(success: bool) | Reverted

  datatype State = State(
    balances: map<Account, nat>,
    allowances: map<(Account, Account), nat>,
    log: seq<Event>)

  /** The state after an operation together with what the caller observed. */
  datatype Step = Step(state: State, outcome: Outcome)

  /** A missing entry reads as zero. */
  function Get<K>(m: map<K, nat>, k: K): nat {
    if k in m then m[k] else 0
  }

  function BalanceOf(s: State, a: Account): nat {
    Get(s.balances, a)
  }

  function AllowanceOf(s: State, owner: Account, spender: Account): nat {
    Get(s.allowances, (owner, spender))
  }

  // ---------------------------------------------------------------------------
  // Sum of the balance store

  ghost function SumOver(m: map<Account, nat>, keys: set<Account>): nat
    decreases keys
  {
    if keys == {} then 0 else var k :| k in keys; Get(m, k) + SumOver(m, keys - {k})
  }

  /** The total number of units held over all accounts. */
  ghost function Sum(m: map<Account, nat>): nat {
    SumOver(m, m.Keys)
  }

  /** Any key can be taken out of the sum first, whichever one the definition picks. */
  lemma {:induction false} SumOverRemove(m: map<Account, nat>, keys: set<Account>, k: Account)
    requires k in keys
    ensures SumOver(m, keys) == Get(m, k) + SumOver(m, keys - {k})
    decreases keys
  {
    var j :| j in keys && SumOver(m, keys) == Get(m, j) + SumOver(m, keys - {j});
    if j != k {
      SumOverRemove(m, keys - {j}, k);
      SumOverRemove(m, keys - {k}, j);
      assert keys - {j} - {k} == keys - {k} - {j};
    }
  }

  /** The sum over a key set depends only on the values at those keys. */
  lemma {:induction false} SumOverFrame(m1: map<Account, nat>, m2: map<Account, nat>, keys: set<Account>)
    requires forall k :: k in keys ==> Get(m1, k) == Get(m2, k)
    ensures SumOver(m1, keys) == SumOver(m2, keys)
    decreases keys
  {
    if keys != {} {
      var k :| k in keys;
      SumOverRemove(m1, keys, k);
      SumOverRemove(m2, keys, k);
      SumOverFrame(m1, m2, keys - {k});
    }
  }

  /** Overwriting one entry changes the sum by exactly the difference. */
  lemma SumUpdate(m: map<Account, nat>, k: Account, v: nat)
    ensures Sum(m[k := v]) + Get(m, k) == Sum(m) + v
  {
    var m' := m[k := v];
    SumOverRemove(m', m'.Keys, k);
    assert m'.Keys - {k} == m.Keys - {k};
    SumOverFrame(m', m, m.Keys - {k});
    if k in m {
      SumOverRemove(m, m.Keys, k);
    } else {
      assert m.Keys - {k} == m.Keys;
    }
  }

  // ---------------------------------------------------------------------------
  // Internal primitives of the balance store and the allowance store

  function Debit(b: map<Account, nat>, a: Account, v: nat): map<Account, nat>
    requires v <= Get(b, a)
  {
    b[a := Get(b, a) - v]
  }

  function Credit(b: map<Account, nat>, a: Account, v: nat): map<Account, nat> {
    b[a := Get(b, a) + v]
  }

  /** Debiting removes exactly v units from circulation. */
  lemma DebitSum(b: map<Account, nat>, a: Account, v: nat)
    requires v <= Get(b, a)
    ensures Sum(Debit(b, a, v)) + v == Sum(b)
  {
    SumUpdate(b, a, Get(b, a) - v);
  }

  /** Crediting adds exactly v units to circulation. */
  lemma CreditSum(b: map<Account, nat>, a: Account, v: nat)
    ensures Sum(Credit(b, a, v)) == Sum(b) + v
  {
    SumUpdate(b, a, Get(b, a) + v);
  }

  /** The only way units move: a debit of `from` paired with a credit of `to`. */
  function Move(b: map<Account, nat>, from: Account, to: Account, v: nat): map<Account, nat>
    requires v <= Get(b, from)
  {
    Credit(Debit(b, from, v), to, v)
  }

  lemma MoveConserves(b: map<Account, nat>, from: Account, to: Account, v: nat)
    requires v <= Get(b, from)
    ensures Sum(Move(b, from, to, v)) == Sum(b)
  {
    DebitSum(b, from, v);
    CreditSum(Debit(b, from, v), to, v);
  }

  /** Exactly the two accounts involved change, by v each (nothing, when they coincide). */
  lemma MoveEffect(b: map<Account, nat>, from: Account, to: Account, v: nat, a: Account)
    requires v <= Get(b, from)
    ensures Get(Move(b, from, to, v), a) ==
      if from == to || (a != from && a != to) then Get(b, a)
      else if a == from then Get(b, a) - v
      else Get(b, a) + v
  {
  }

  /** Consume v of the allowance stored under key. */
  function Consume(al: map<(Account, Account), nat>, key: (Account, Account), v: nat): map<(Account, Account), nat>
    requires v <= Get(al, key)
  {
    al[key := Get(al, key) - v]
  }

  // ---------------------------------------------------------------------------
  // Genesis and the three operations

  /** The whole supply is minted to the deploying account; no allowance, no event. */
  function Genesis(deployer: Account): State {
    State(map[deployer := TotalSupply], map[], [])
  }

  /** Succeeds only when the caller holds at least v; the allowance is overwritten. */
  function ApplyApprove(s: State, caller: Account, spender: Account, v: nat): Step {
    if v <= BalanceOf(s, caller) then
      Step(s.(allowances := s.allowances[(caller, spender) := v],
              log := s.log + [Approval(caller, spender, v)]),
           Returned(true))
    else
      Step(s, Returned(false))
  }

  /** Reverts when the caller holds less than v; a zero transfer is an ordinary one. */
  function ApplyTransfer(s: State, caller: Account, to: Account, v: nat): Step {
    if v <= BalanceOf(s, caller) then
      Step(s.(balances := Move(s.balances, caller, to, v),
              log := s.log + [Transfer(caller, to, v)]),
           Returned(true))
    else
      Step(s, Reverted)
  }

  /**
   * The allowance that transferFrom consults and consumes is the one the owner
   * `from` granted to the recipient `to`: the entry the token's tests approve
   * and then see drop by the amount moved.  The caller plays no part in it.
   */
  function SpendingKey(from: Account, to: Account): (Account, Account) {
    (from, to)
  }

  /** Returns false, changing nothing, unless both the allowance and the owner's balance cover v. */
  function ApplyTransferFrom(s: State, caller: Account, from: Account, to: Account, v: nat): Step {
    var key := SpendingKey(from, to);
    if v <= Get(s.allowances, key) && v <= BalanceOf(s, from) then
      Step(State(Move(s.balances, from, to, v),
                 Consume(s.allowances, key, v),
                 s.log + [Transfer(from, to, v)]),
           Returned(true))
    else
      Step(s, Returned(false))
  }

  datatype Call =
    | ApproveCall(caller: Account, spender: Account, value: nat)
    | TransferCall(caller: Account, to: Account, value: nat)
    | TransferFromCall(caller: Account, from: Account, to: Account, value: nat)

  function Apply(s: State, c: Call): Step {
    match c
    case ApproveCall(caller, spender, v) => ApplyApprove(s, caller, spender, v)
    case TransferCall(caller, to, v) => ApplyTransfer(s, caller, to, v)
    case TransferFromCall(caller, from, to, v) => ApplyTransferFrom(s, caller, from, to, v)
  }

  /** Applies calls one after another; an aborted call leaves the state as it was. */
  function Run(s: State, calls: seq<Call>): State
    decreases |calls|
  {
    if calls == [] then s else Run(Apply(s, calls[0]).state, calls[1..])
  }

  /** How many of the calls succeed when applied in order from s. */
  function Successes(s: State, calls: seq<Call>): nat
    decreases |calls|
  {
    if calls == [] then 0
    else (if Apply(s, calls[0]).outcome == Returned(true) then 1 else 0)
         + Successes(Apply(s, calls[0]).state, calls[1..])
  }
}
