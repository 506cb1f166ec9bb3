/** From a settlement instruction to the arguments of the on-chain call, and what the call moves. */
module SettlementGateway {
  import opened Wrappers
  import opened Sums
  import opened Sorting
  import opened Identity
  import opened Netting
  import opened NettingTheory
  import opened Erc20
  import opened NettingSettlement

  function Wallets(parties: seq<PartyAmount>): seq<Address> {
    seq(|parties|, i requires 0 <= i < |parties| => parties[i].wallet)
  }

  function Amounts(parties: seq<PartyAmount>): seq<nat>
    requires forall p :: p in parties ==> p.amount >= 0
  {
    seq(|parties|, i requires 0 <= i < |parties| => parties[i].amount)
  }

  /** The gateway's parallel arrays; an amount that is not positive is refused. */
  method SettlementParties(parties: seq<PartyAmount>) returns (r: Result<(seq<Address>, seq<nat>), string>)
    ensures r.Success? <==> forall p :: p in parties ==> p.amount > 0
    ensures r.Success? ==> r.value == (Wallets(parties), Amounts(parties))
  {
    var addresses: seq<Address>, amounts: seq<nat> := [], [];
    for i := 0 to |parties|
      invariant forall j :: 0 <= j < i ==> parties[j].amount > 0
      invariant |addresses| == |amounts| == i
      invariant forall j :: 0 <= j < i ==> addresses[j] == parties[j].wallet && amounts[j] == parties[j].amount
    {
      if parties[i].amount <= 0 {
        assert parties[i] in parties;
        return Failure("amount must be positive");
      }
      addresses := addresses + [parties[i].wallet];
      amounts := amounts + [parties[i].amount];
    }
    assert forall p :: p in parties ==> p.amount > 0;
    assert addresses == Wallets(parties) && amounts == Amounts(parties);
    return Success((addresses, amounts));
  }

  function Legs(parties: seq<PartyAmount>): seq<Leg>
    requires forall p :: p in parties ==> p.amount >= 0
  {
    Zip(Wallets(parties), Amounts(parties))
  }

  ghost predicate Payable(s: Settlement) {
    forall p :: p in s.debtors + s.creditors ==> p.amount > 0
  }

  function CallFor(settler: Address, hash: nat, s: Settlement): Call
    requires Payable(s)
  {
    assert forall p :: p in s.debtors || p in s.creditors ==> p in s.debtors + s.creditors;
    Call(settler, hash, Wallets(s.debtors), Amounts(s.debtors), Wallets(s.creditors), Amounts(s.creditors))
  }

  // ---- What an instruction takes from and gives to each wallet ----

  lemma {:induction false} ShareOfListed(legs: seq<Leg>, a: Address)
    requires forall i, j :: 0 <= i < j < |legs| ==> legs[i].party != legs[j].party
    ensures (forall l :: l in legs ==> l.party != a) ==> Share(legs, a) == 0
    ensures forall l :: l in legs && l.party == a ==> Share(legs, a) == l.amount
  {
    if legs != [] {
      var n := |legs| - 1;
      assert legs == legs[..n] + [legs[n]];
      assert legs[n] in legs;
      ShareOfListed(legs[..n], a);
      ShareSnoc(legs[..n], legs[n], a);
    }
  }

  /** A wallet's leg is the position of its agent, and no other wallet has a leg. */
  lemma ShareIsPosition(dir: map<AgentId, Address>, xs: seq<PaymentIntent>, parties: seq<PartyAmount>, sign: int)
    requires Directory(dir) && Consistent(dir, xs)
    requires Lists(xs, parties, sign)
    ensures forall p :: p in parties ==> p.amount > 0
    ensures forall a :: a in dir ==> Share(Legs(parties), dir[a]) == SignedPart(xs, sign)(a)
    ensures forall w :: w !in dir.Values ==> Share(Legs(parties), w) == 0
  {
    assert forall p :: p in parties ==> IsParty(xs, p, sign);
    ListsStrictly(dir, xs, parties, sign);
    var legs := Legs(parties);
    forall i, j | 0 <= i < j < |legs|
      ensures legs[i].party != legs[j].party
    {
      assert PartyWallet(parties[i]) < PartyWallet(parties[j]);
    }
    forall i | 0 <= i < |legs|
      ensures parties[i].agentId in dir && legs[i].party == dir[parties[i].agentId]
      ensures legs[i].amount == SignedPart(xs, sign)(parties[i].agentId)
    {
      assert IsParty(xs, parties[i], sign);
      WalletFromDirectory(dir, xs, parties[i].agentId);
    }
    forall a | a in dir
      ensures Share(legs, dir[a]) == SignedPart(xs, sign)(a)
    {
      ShareOfListed(legs, dir[a]);
      if sign * Net(xs, a) > 0 {
        EveryPartyListed(xs, parties, sign, a);
        var i :| 0 <= i < |parties| && AgentsListed(parties)[i] == a;
        assert legs[i] in legs;
      }
    }
    forall w | w !in dir.Values
      ensures Share(legs, w) == 0
    {
      ShareOfListed(legs, w);
    }
  }

  /** The instruction of a batch is in order, apart from the funds of the debtors. */
  lemma CallInOrder(dir: map<AgentId, Address>, batchId: nat, xs: seq<PaymentIntent>, createdAt: int, s: Summary)
    requires Directory(dir) && Consistent(dir, xs)
    requires IsSummary(batchId, xs, createdAt, s)
    ensures Payable(s.settlement)
    ensures WellFormedLegs(Legs(s.settlement.debtors)) && WellFormedLegs(Legs(s.settlement.creditors))
    ensures Total(Legs(s.settlement.debtors)) == Total(Legs(s.settlement.creditors)) == s.settlement.netAmount
    ensures s.settlement.netAmount != 0 ==> s.settlement.debtors != [] && s.settlement.creditors != []
  {
    var st := s.settlement;
    InstructionWellFormed(dir, batchId, xs, createdAt, s);
    assert forall p :: p in st.debtors || p in st.creditors ==> p in st.debtors + st.creditors;
    SettlementBalances(batchId, xs, createdAt, s);
    SumAgree(st.debtors, PartyValue, Legs(st.debtors), LegAmount);
    SumAgree(st.creditors, PartyValue, Legs(st.creditors), LegAmount);
  }

  /** A batch settles exactly when it is new and every debtor can bear its net debit; it
      then moves each agent's net position, and nobody else's tokens. */
  lemma BatchSettles(dir: map<AgentId, Address>, self: Address, settler: Address, settled: set<nat>, t: Token,
                     hash: nat, batchId: nat, xs: seq<PaymentIntent>, createdAt: int, s: Summary)
    requires Directory(dir) && Consistent(dir, xs)
    requires IsSummary(batchId, xs, createdAt, s) && s.settlement.netAmount != 0
    requires TokenSane(t, self)
    ensures Payable(s.settlement)
    ensures var r := Settle(self, settler, settled, t, CallFor(settler, hash, s.settlement));
      && (r.Success? <==> hash != 0 && hash !in settled && forall a :: CanBear(t, self, Legs(s.settlement.debtors), a))
      && (r.Success? ==> forall a :: a in dir ==> r.value.BalanceOf(dir[a]) == t.BalanceOf(dir[a]) + Net(xs, a))
      && (r.Success? ==> forall w :: w !in dir.Values ==> r.value.BalanceOf(w) == t.BalanceOf(w))
      && (r.Success? ==> TokenSane(r.value, self))
  {
    CallInOrder(dir, batchId, xs, createdAt, s);
    var c := CallFor(settler, hash, s.settlement);
    SettleIff(self, settler, settled, t, c);
    if Settle(self, settler, settled, t, c).Success? {
      BatchMoves(dir, self, settler, settled, t, hash, batchId, xs, createdAt, s);
      SettleKeepsSupply(self, settler, settled, t, c);
      assert CanBear(t, self, Legs(s.settlement.debtors), self);
      ShareNonNegative(Legs(s.settlement.debtors), self);
    }
  }

  lemma BatchMoves(dir: map<AgentId, Address>, self: Address, settler: Address, settled: set<nat>, t: Token,
                   hash: nat, batchId: nat, xs: seq<PaymentIntent>, createdAt: int, s: Summary)
    requires Directory(dir) && Consistent(dir, xs)
    requires IsSummary(batchId, xs, createdAt, s)
    requires TokenSane(t, self)
    requires Payable(s.settlement) && Settle(self, settler, settled, t, CallFor(settler, hash, s.settlement)).Success?
    ensures var t' := Settle(self, settler, settled, t, CallFor(settler, hash, s.settlement)).value;
      && (forall a :: a in dir ==> t'.BalanceOf(dir[a]) == t.BalanceOf(dir[a]) + Net(xs, a))
      && (forall w :: w !in dir.Values ==> t'.BalanceOf(w) == t.BalanceOf(w))
  {
    hide Sum;
    ShareIsPosition(dir, xs, s.settlement.debtors, -1);
    ShareIsPosition(dir, xs, s.settlement.creditors, 1);
    SettleIff(self, settler, settled, t, CallFor(settler, hash, s.settlement));
    forall a | a in dir
      ensures Share(Legs(s.settlement.creditors), dir[a]) - Share(Legs(s.settlement.debtors), dir[a]) == Net(xs, a)
    {
      assert SignedPart(xs, 1)(a) - SignedPart(xs, -1)(a) == Net(xs, a);
    }
  }
}
