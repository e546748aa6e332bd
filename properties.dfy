/**
 * What the token's tests assert about each operation, stated for all states
 * and arguments, and the invariants every reachable ledger keeps.
 */
module LedgerProperties {
  import opened Ledger

  // ---------------------------------------------------------------------------
  // approve

  lemma ApproveAccepted(s: State, caller: Account, spender: Account, v: nat)
    requires v <= BalanceOf(s, caller)
    ensures var r := ApplyApprove(s, caller, spender, v);
      && r.outcome == Returned(true)
      && AllowanceOf(r.state, caller, spender) == v
      && (forall o: Account, sp: Account :: (o, sp) != (caller, spender) ==>
            AllowanceOf(r.state, o, sp) == AllowanceOf(s, o, sp))
      && r.state.balances == s.balances
      && r.state.log == s.log + [Approval(caller, spender, v)]
  {
  }

  lemma ApproveRejected(s: State, caller: Account, spender: Account, v: nat)
    requires v > BalanceOf(s, caller)
    ensures ApplyApprove(s, caller, spender, v) == Step(s, Returned(false))
  {
  }

  /** A second approval replaces the first rather than adding to it. */
  lemma ApproveOverwrites(s: State, caller: Account, spender: Account, v1: nat, v2: nat)
    requires v1 <= BalanceOf(s, caller) && v2 <= BalanceOf(s, caller)
    ensures var r1 := ApplyApprove(s, caller, spender, v1);
            var r2 := ApplyApprove(r1.state, caller, spender, v2);
      && r1.outcome == r2.outcome == Returned(true)
      && AllowanceOf(r2.state, caller, spender) == v2
      && r2.state.log == s.log + [Approval(caller, spender, v1), Approval(caller, spender, v2)]
  {
  }

  // ---------------------------------------------------------------------------
  // transfer

  lemma TransferReverted(s: State, caller: Account, to: Account, v: nat)
    requires v > BalanceOf(s, caller)
    ensures ApplyTransfer(s, caller, to, v) == Step(s, Reverted)
  {
  }

  lemma TransferAccepted(s: State, caller: Account, to: Account, v: nat)
    requires v <= BalanceOf(s, caller)
    ensures var r := ApplyTransfer(s, caller, to, v);
      && r.outcome == Returned(true)
      && (caller != to ==> BalanceOf(r.state, caller) == BalanceOf(s, caller) - v)
      && (caller != to ==> BalanceOf(r.state, to) == BalanceOf(s, to) + v)
      && (forall a :: a != caller && a != to ==> BalanceOf(r.state, a) == BalanceOf(s, a))
      && (caller == to ==> forall a :: BalanceOf(r.state, a) == BalanceOf(s, a))
      && Sum(r.state.balances) == Sum(s.balances)
      && r.state.allowances == s.allowances
      && r.state.log == s.log + [Transfer(caller, to, v)]
  {
    MoveConserves(s.balances, caller, to, v);
    forall a ensures BalanceOf(ApplyTransfer(s, caller, to, v).state, a) ==
      if caller == to || (a != caller && a != to) then BalanceOf(s, a)
      else if a == caller then BalanceOf(s, a) - v
      else BalanceOf(s, a) + v
    {
      MoveEffect(s.balances, caller, to, v, a);
    }
  }

  /** Zero is not special-cased: nothing moves, yet the event is still logged. */
  lemma TransferZero(s: State, caller: Account, to: Account)
    ensures var r := ApplyTransfer(s, caller, to, 0);
      && r.outcome == Returned(true)
      && (forall a :: BalanceOf(r.state, a) == BalanceOf(s, a))
      && r.state.log == s.log + [Transfer(caller, to, 0)]
  {
  }

  // ---------------------------------------------------------------------------
  // transferFrom

  lemma TransferFromRejected(s: State, caller: Account, from: Account, to: Account, v: nat)
    requires v > AllowanceOf(s, from, to) || v > BalanceOf(s, from)
    ensures ApplyTransferFrom(s, caller, from, to, v) == Step(s, Returned(false))
  {
  }

  lemma TransferFromAccepted(s: State, caller: Account, from: Account, to: Account, v: nat)
    requires v <= AllowanceOf(s, from, to) && v <= BalanceOf(s, from)
    ensures var r := ApplyTransferFrom(s, caller, from, to, v);
      && r.outcome == Returned(true)
      && (from != to ==> BalanceOf(r.state, from) == BalanceOf(s, from) - v)
      && (from != to ==> BalanceOf(r.state, to) == BalanceOf(s, to) + v)
      && (forall a :: a != from && a != to ==> BalanceOf(r.state, a) == BalanceOf(s, a))
      && (from == to ==> forall a :: BalanceOf(r.state, a) == BalanceOf(s, a))
      && Sum(r.state.balances) == Sum(s.balances)
      && AllowanceOf(r.state, from, to) == AllowanceOf(s, from, to) - v
      && (forall o: Account, sp: Account :: (o, sp) != (from, to) ==>
            AllowanceOf(r.state, o, sp) == AllowanceOf(s, o, sp))
      && r.state.log == s.log + [Transfer(from, to, v)]
  {
    MoveConserves(s.balances, from, to, v);
    forall a ensures BalanceOf(ApplyTransferFrom(s, caller, from, to, v).state, a) ==
      if from == to || (a != from && a != to) then BalanceOf(s, a)
      else if a == from then BalanceOf(s, a) - v
      else BalanceOf(s, a) + v
    {
      MoveEffect(s.balances, from, to, v, a);
    }
  }

  /**
   * The caller takes no part in transferFrom: any account can draw on the
   * allowance from granted to to.  Shown concretely: after g approves x for
   * 15, a third account z moves 10 from g to x although g granted z nothing.
   */
  lemma TransferFromIgnoresCaller(s: State, c1: Account, c2: Account, from: Account, to: Account, v: nat,
                                  g: Account, x: Account, z: Account)
    requires g != x && z != g && z != x
    ensures ApplyTransferFrom(s, c1, from, to, v) == ApplyTransferFrom(s, c2, from, to, v)
    ensures var s1 := ApplyApprove(Genesis(g), g, x, 15).state;
            var r := ApplyTransferFrom(s1, z, g, x, 10);
      && AllowanceOf(s1, g, z) == 0
      && r.outcome == Returned(true)
      && BalanceOf(r.state, g) == 999_990
      && AllowanceOf(r.state, g, x) == 5
  {
    var s1 := ApplyApprove(Genesis(g), g, x, 15).state;
    TransferFromAccepted(s1, z, g, x, 10);
  }

  // ---------------------------------------------------------------------------
  // Every operation: all or nothing, and one event exactly when it succeeds

  lemma ApplyAtomic(s: State, c: Call)
    ensures var r := Apply(s, c);
      && (r.outcome != Returned(true) ==> r.state == s)
      && (r.outcome == Returned(true) ==> |r.state.log| == |s.log| + 1 && s.log <= r.state.log)
  {
  }

  lemma {:induction false} RunExtendsLog(s: State, calls: seq<Call>)
    ensures s.log <= Run(s, calls).log
    ensures |Run(s, calls).log| == |s.log| + Successes(s, calls)
    decreases |calls|
  {
    if calls != [] {
      ApplyAtomic(s, calls[0]);
      RunExtendsLog(Apply(s, calls[0]).state, calls[1..]);
    }
  }

  // ---------------------------------------------------------------------------
  // Invariants of every reachable ledger

  /** Some logged Transfer credited a. */
  ghost predicate CreditedIn(log: seq<Event>, a: Account) {
    exists i :: 0 <= i < |log| && log[i].Transfer? && log[i].to == a
  }

  /** Some logged Approval was granted by owner to spender. */
  ghost predicate ApprovedIn(log: seq<Event>, owner: Account, spender: Account) {
    exists i :: 0 <= i < |log| && log[i].Approval? && log[i].owner == owner && log[i].spender == spender
  }

  /**
   * Conservation of the supply; a positive balance belongs to the deployer or
   * to an account some Transfer credited; a positive allowance was approved.
   */
  ghost predicate Inv(s: State, deployer: Account) {
    && Sum(s.balances) == TotalSupply
    && (forall a :: BalanceOf(s, a) > 0 ==> a == deployer || CreditedIn(s.log, a))
    && (forall o, sp :: AllowanceOf(s, o, sp) > 0 ==> ApprovedIn(s.log, o, sp))
  }

  lemma GenesisInv(deployer: Account)
    ensures Inv(Genesis(deployer), deployer)
    ensures BalanceOf(Genesis(deployer), deployer) == TotalSupply
    ensures forall a :: a != deployer ==> BalanceOf(Genesis(deployer), a) == 0
    ensures forall o, sp :: AllowanceOf(Genesis(deployer), o, sp) == 0
  {
    var b := map[deployer := TotalSupply];
    SumOverRemove(b, b.Keys, deployer);
    assert b.Keys - {deployer} == {};
  }

  lemma LogExtensionKeepsHistory(log: seq<Event>, e: Event)
    ensures forall a :: CreditedIn(log, a) ==> CreditedIn(log + [e], a)
    ensures forall o, sp :: ApprovedIn(log, o, sp) ==> ApprovedIn(log + [e], o, sp)
    ensures e.Transfer? ==> CreditedIn(log + [e], e.to)
    ensures e.Approval? ==> ApprovedIn(log + [e], e.owner, e.spender)
  {
    forall a | CreditedIn(log, a) ensures CreditedIn(log + [e], a) {
      var i :| 0 <= i < |log| && log[i].Transfer? && log[i].to == a;
      assert (log + [e])[i] == log[i];
    }
    forall o, sp | ApprovedIn(log, o, sp) ensures ApprovedIn(log + [e], o, sp) {
      var i :| 0 <= i < |log| && log[i].Approval? && log[i].owner == o && log[i].spender == sp;
      assert (log + [e])[i] == log[i];
    }
    assert (log + [e])[|log|] == e;
  }

  lemma ApplyPreservesInv(s: State, deployer: Account, c: Call)
    requires Inv(s, deployer)
    ensures Inv(Apply(s, c).state, deployer)
  {
    var r := Apply(s, c);
    if r.outcome == Returned(true) {
      match c
      case ApproveCall(caller, spender, v) =>
        LogExtensionKeepsHistory(s.log, Approval(caller, spender, v));
      case TransferCall(caller, to, v) =>
        TransferAccepted(s, caller, to, v);
        LogExtensionKeepsHistory(s.log, Transfer(caller, to, v));
      case TransferFromCall(caller, from, to, v) =>
        TransferFromAccepted(s, caller, from, to, v);
        LogExtensionKeepsHistory(s.log, Transfer(from, to, v));
    }
  }

  lemma {:induction false} RunPreservesInv(s: State, deployer: Account, calls: seq<Call>)
    requires Inv(s, deployer)
    ensures Inv(Run(s, calls), deployer)
    decreases |calls|
  {
    if calls != [] {
      ApplyPreservesInv(s, deployer, calls[0]);
      RunPreservesInv(Apply(s, calls[0]).state, deployer, calls[1..]);
    }
  }

  /** From genesis, no sequence of operations creates or destroys a unit. */
  lemma SupplyConserved(deployer: Account, calls: seq<Call>)
    ensures Sum(Run(Genesis(deployer), calls).balances) == TotalSupply
  {
    GenesisInv(deployer);
    RunPreservesInv(Genesis(deployer), deployer, calls);
  }

  /** An account that is not the deployer and was never credited holds nothing. */
  lemma NeverCreditedHoldsNothing(deployer: Account, calls: seq<Call>, a: Account)
    requires a != deployer
    requires !CreditedIn(Run(Genesis(deployer), calls).log, a)
    ensures BalanceOf(Run(Genesis(deployer), calls), a) == 0
  {
    GenesisInv(deployer);
    RunPreservesInv(Genesis(deployer), deployer, calls);
  }

  /** A pair for which no approve ever succeeded has allowance zero. */
  lemma NeverApprovedAllowsNothing(deployer: Account, calls: seq<Call>, owner: Account, spender: Account)
    requires !ApprovedIn(Run(Genesis(deployer), calls).log, owner, spender)
    ensures AllowanceOf(Run(Genesis(deployer), calls), owner, spender) == 0
  {
    GenesisInv(deployer);
    RunPreservesInv(Genesis(deployer), deployer, calls);
  }
}
