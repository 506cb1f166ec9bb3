/**
 The two nettings: the engine nets the claimed intents and the chain settles its lists,
 while the settlement entry is recomputed from the stored rows. They agree.
 */
module SettlementBooks {
  import opened Wrappers
  import opened Sums
  import opened Sorting
  import opened Identity
  import opened Schema
  import opened Bookkeeping
  import opened NettingRepository
  import opened Netting
  import opened NettingTheory
  import Backend

  // ---- The intents of a batch ----

  lemma {:induction false} BatchMembers(dir: map<AgentId, Address>, rows: seq<IntentRow>, b: nat)
    ensures forall p :: p in BatchIntents(dir, rows, b) <==>
      p.id < |rows| && rows[p.id].batch == Some(b) && p == Join(dir, rows, p.id)
    ensures DistinctIds(BatchIntents(dir, rows, b)) && Distinct(BatchIntents(dir, rows, b))
  {
    if rows != [] {
      var n := |rows| - 1;
      BatchMembers(dir, rows[..n], b);
      var before := BatchIntents(dir, rows[..n], b);
      forall p
        ensures p in BatchIntents(dir, rows, b) <==> p in before || (rows[n].batch == Some(b) && p == Join(dir, rows, n))
      {
      }
      assert forall i :: 0 <= i < n ==> Join(dir, rows[..n], i) == Join(dir, rows, i);
      forall i | 0 <= i < |before|
        ensures before[i].id < n
      {
        assert before[i] in before;
      }
    }
  }

  /** The stored gross positions of a batch are those of its intents. */
  lemma {:induction false} BatchPositions(dir: map<AgentId, Address>, rows: seq<IntentRow>, b: nat, a: AgentId)
    ensures Paid(BatchIntents(dir, rows, b), a) == Payable(rows, b, a)
    ensures Received(BatchIntents(dir, rows, b), a) == Receivable(rows, b, a)
    ensures a in Agents(BatchIntents(dir, rows, b)) <==> a in BatchAgents(rows, b)
  {
    if rows != [] {
      var n := |rows| - 1;
      var r, before := rows[n], BatchIntents(dir, rows[..n], b);
      BatchPositions(dir, rows[..n], b, a);
      assert Keyed(RowPayer, AmountIn(b), a)(r) == if RowPayer(r) == a then AmountIn(b)(r) else 0;
      assert Keyed(RowPayee, AmountIn(b), a)(r) == if RowPayee(r) == a then AmountIn(b)(r) else 0;
      if r.batch == Some(b) {
        PaidSnoc(before, Join(dir, rows, n), a);
        assert (before + [Join(dir, rows, n)])[..|before|] == before;
      } else {
        assert before + [] == before;
      }
    }
  }

  lemma BatchConsistent(dir: map<AgentId, Address>, rows: seq<IntentRow>, b: nat)
    requires forall i :: 0 <= i < |rows| ==> rows[i].payer in dir && rows[i].payee in dir && rows[i].amount > 0
    ensures Consistent(dir, BatchIntents(dir, rows, b)) && Positive(BatchIntents(dir, rows, b))
  {
    BatchMembers(dir, rows, b);
  }

  /** A claim hands out the whole batch that it creates, each intent once. */
  lemma ClaimTakesBatch(dir: map<AgentId, Address>, s: Store, ids: set<nat>, windowEnd: int, at: int,
      xs: seq<PaymentIntent>)
    requires Backend.IntentsOk(dir, s)
    requires Claim(s, ids, windowEnd, at).Some?
    requires DistinctIds(xs) && forall p :: p in xs <==> p.id in ids && p.id < |s.intents| && p == Join(dir, s.intents, p.id)
    ensures multiset(xs) == multiset(BatchIntents(dir, Claim(s, ids, windowEnd, at).value.intents, |s.batches|))
    ensures xs != []
  {
    var rows := Claim(s, ids, windowEnd, at).value.intents;
    BatchMembers(dir, rows, |s.batches|);
    forall p
      ensures p in xs <==> p in BatchIntents(dir, rows, |s.batches|)
    {
      if p.id < |rows| {
        assert Join(dir, s.intents, p.id) == Join(dir, rows, p.id);
        assert rows[p.id].batch == Some(|s.batches|) <==> p.id in ids;
      }
    }
    SameElementsPermuted(xs, BatchIntents(dir, rows, |s.batches|));
    var i :| i in ids;
    assert Join(dir, s.intents, i) in xs;
  }

  // ---- The cash legs of the settlement entry ----

  function CashLegs(ps: seq<Posting>, side: Side): seq<Posting> {
    if ps == [] then []
    else
      var p := ps[|ps| - 1];
      CashLegs(ps[..|ps| - 1], side) + if p.name == Cash && p.side == side then [p] else []
  }

  /** The cash leg for a party of the instruction. */
  function CashLeg(side: Side): PartyAmount -> Posting {
    (p: PartyAmount) => Posting(p.agentId, Cash, Asset, side, p.amount)
  }

  function PartyLegs(parties: seq<PartyAmount>, side: Side): seq<Posting> {
    seq(|parties|, i requires 0 <= i < |parties| => CashLeg(side)(parties[i]))
  }

  lemma {:induction false} CashLegsConcat(ps: seq<Posting>, qs: seq<Posting>, side: Side)
    ensures CashLegs(ps + qs, side) == CashLegs(ps, side) + CashLegs(qs, side)
  {
    if qs == [] {
      assert ps + qs == ps;
    } else {
      var n := |qs| - 1;
      CashLegsConcat(ps, qs[..n], side);
      assert (ps + qs)[..|ps + qs| - 1] == ps + qs[..n];
    }
  }

  function SignOf(side: Side): int { if side.Credit? then -1 else 1 }

  lemma CashLegOfAgent(a: AgentId, p: GrossPosition, side: Side)
    ensures var amount := SignOf(side) * (p.receivable - p.payable);
      CashLegs(AgentPostings(a, p), side) == if amount > 0 then [Posting(a, Cash, Asset, side, amount)] else []
  {
    var net := p.receivable - p.payable;
    var p1 := if p.payable > 0 then [Posting(a, NettingPayable, Liability, Debit, p.payable)] else [];
    var p2 := if p.receivable > 0 then [Posting(a, NettingReceivable, Asset, Credit, p.receivable)] else [];
    var p3 := if net > 0 then [Posting(a, Cash, Asset, Debit, net)] else [];
    var p4 := if net < 0 then [Posting(a, Cash, Asset, Credit, -net)] else [];
    assert AgentPostings(a, p) == ((p1 + p2) + p3) + p4;
    CashLegsConcat((p1 + p2) + p3, p4, side);
    CashLegsConcat(p1 + p2, p3, side);
    CashLegsConcat(p1, p2, side);
  }

  /** The cash leg that an agent has on a side, if its net position is on that side. */
  predicate IsCashLeg(q: Posting, side: Side, net: int) {
    && SignOf(side) * net > 0
    && q == Posting(q.agent, Cash, Asset, side, SignOf(side) * net)
  }

  function StoredNet(rows: seq<IntentRow>, b: nat, a: AgentId): int {
    Receivable(rows, b, a) - Payable(rows, b, a)
  }

  /** Exactly the agents of one sign have a cash leg on that side, once each. */
  ghost predicate CashListed(rows: seq<IntentRow>, b: nat, order: seq<AgentId>, legs: seq<Posting>, side: Side) {
    && Distinct(legs)
    && forall q :: q in legs <==> q.agent in order && IsCashLeg(q, side, StoredNet(rows, b, q.agent))
  }

  lemma {:induction false} CashLegsListed(rows: seq<IntentRow>, b: nat, order: seq<AgentId>, side: Side)
    requires Distinct(order)
    ensures CashListed(rows, b, order, CashLegs(SettlementPostings(rows, b, order), side), side)
  {
    hide *;
    if order == [] {
      NoLegsListed(rows, b, side);
    } else {
      var n := |order| - 1;
      var a := order[n];
      var position := GrossPosition(Payable(rows, b, a), Receivable(rows, b, a));
      LastAgent(rows, b, order);
      CashLegsListed(rows, b, order[..n], side);
      CashLegsConcat(SettlementPostings(rows, b, order[..n]), AgentPostings(a, position), side);
      CashLegOfAgent(a, position, side);
      OneMoreAgent(rows, b, order[..n], a, CashLegs(SettlementPostings(rows, b, order[..n]), side), side);
    }
  }

  lemma NoLegsListed(rows: seq<IntentRow>, b: nat, side: Side)
    ensures CashListed(rows, b, [], CashLegs(SettlementPostings(rows, b, []), side), side)
  {
  }

  lemma LastAgent(rows: seq<IntentRow>, b: nat, order: seq<AgentId>)
    requires order != [] && Distinct(order)
    ensures var n := |order| - 1;
      var a := order[n];
      && order == order[..n] + [a] && Distinct(order[..n]) && a !in order[..n]
      && SettlementPostings(rows, b, order) ==
           SettlementPostings(rows, b, order[..n]) + AgentPostings(a, GrossPosition(Payable(rows, b, a), Receivable(rows, b, a)))
      && StoredNet(rows, b, a) == Receivable(rows, b, a) - Payable(rows, b, a)
  {
    hide AgentPostings, Payable, Receivable;
    assert order == order[..|order| - 1] + [order[|order| - 1]];
  }

  lemma OneMoreAgent(rows: seq<IntentRow>, b: nat, order: seq<AgentId>, a: AgentId, legs: seq<Posting>, side: Side)
    requires a !in order && CashListed(rows, b, order, legs, side)
    ensures var amount := SignOf(side) * StoredNet(rows, b, a);
      CashListed(rows, b, order + [a], legs + if amount > 0 then [Posting(a, Cash, Asset, side, amount)] else [], side)
  {
    hide StoredNet;
    var leg := Posting(a, Cash, Asset, side, SignOf(side) * StoredNet(rows, b, a));
    ElementsSnoc(legs, leg);
    assert legs + [] == legs;
  }

  lemma PartyLegsListed(dir: map<AgentId, Address>, xs: seq<PaymentIntent>, parties: seq<PartyAmount>, side: Side)
    requires Lists(xs, parties, SignOf(side))
    ensures Distinct(PartyLegs(parties, side))
    ensures forall q :: q in PartyLegs(parties, side) <==> q.agent in Agents(xs) && IsCashLeg(q, side, Net(xs, q.agent))
  {
    hide Net;
    var legs := PartyLegs(parties, side);
    forall i | 0 <= i < |parties|
      ensures IsParty(xs, parties[i], SignOf(side))
    {
      assert parties[i] in parties;
    }
    forall i, j | 0 <= i < j < |legs|
      ensures legs[i] != legs[j]
    {
      assert parties[i] != parties[j];
      assert legs[i] == CashLeg(side)(parties[i]) && legs[j] == CashLeg(side)(parties[j]);
    }
    forall q: Posting | q.agent in Agents(xs) && IsCashLeg(q, side, Net(xs, q.agent))
      ensures q in legs
    {
      var p := PartyAmount(q.agent, WalletOf(xs, q.agent), q.amount);
      assert IsParty(xs, p, SignOf(side));
      assert p in parties;
      var i :| 0 <= i < |parties| && parties[i] == p;
      assert legs[i] == CashLeg(side)(p) == q;
    }
    forall q | q in legs
      ensures q.agent in Agents(xs) && IsCashLeg(q, side, Net(xs, q.agent))
    {
      var i :| 0 <= i < |parties| && legs[i] == q;
      assert q == CashLeg(side)(parties[i]);
    }
  }

  /** However the claim and the two map iterations were ordered: the cash credits of the
      settlement entry are exactly the debtors that the engine sent to the chain, and its
      cash debits exactly the creditors. */
  lemma TwoNettingsAgree(dir: map<AgentId, Address>, rows: seq<IntentRow>, b: nat, order: seq<AgentId>,
                         xs: seq<PaymentIntent>, createdAt: int, s: Summary)
    requires Enumerates(order, BatchAgents(rows, b))
    requires multiset(xs) == multiset(BatchIntents(dir, rows, b))
    requires IsSummary(b, xs, createdAt, s)
    ensures multiset(CashLegs(SettlementPostings(rows, b, order), Credit)) == multiset(PartyLegs(s.settlement.debtors, Credit))
    ensures multiset(CashLegs(SettlementPostings(rows, b, order), Debit)) == multiset(PartyLegs(s.settlement.creditors, Debit))
  {
    OneSideAgrees(dir, rows, b, order, xs, s.settlement.debtors, Credit);
    OneSideAgrees(dir, rows, b, order, xs, s.settlement.creditors, Debit);
  }

  lemma OneSideAgrees(dir: map<AgentId, Address>, rows: seq<IntentRow>, b: nat, order: seq<AgentId>,
                      xs: seq<PaymentIntent>, parties: seq<PartyAmount>, side: Side)
    requires Enumerates(order, BatchAgents(rows, b))
    requires multiset(xs) == multiset(BatchIntents(dir, rows, b))
    requires Lists(xs, parties, SignOf(side))
    ensures multiset(CashLegs(SettlementPostings(rows, b, order), side)) == multiset(PartyLegs(parties, side))
  {
    CashLegsListed(rows, b, order, side);
    PartyLegsListed(dir, xs, parties, side);
    AgentsPermuted(xs, BatchIntents(dir, rows, b));
    forall a
      ensures a in order <==> a in Agents(xs)
      ensures StoredNet(rows, b, a) == Net(xs, a)
    {
      BatchPositions(dir, rows, b, a);
      NetPermuted(xs, BatchIntents(dir, rows, b), a);
      assert a in order <==> a in Elements(order);
    }
    SameElementsPermuted(CashLegs(SettlementPostings(rows, b, order), side), PartyLegs(parties, side));
  }

  // ---- The entry balances for each agent ----

  function PostingAgent(p: Posting): AgentId { p.agent }

  lemma {:induction false} OthersLegs(ps: seq<Posting>, a: AgentId, c: AgentId)
    requires forall q :: q in ps ==> q.agent == a
    ensures Sum(ps, Keyed(PostingAgent, PostingSigned, c)) == if c == a then Sum(ps, PostingSigned) else 0
  {
    if ps != [] {
      var n := |ps| - 1;
      assert ps[n] in ps && forall q :: q in ps[..n] ==> q in ps;
      OthersLegs(ps[..n], a, c);
      assert PostingAgent(ps[n]) == a;
    }
  }

  /** Debits equal credits within the legs of each single agent, and so overall. */
  lemma {:induction false} SettlementBalancesPerAgent(rows: seq<IntentRow>, b: nat, order: seq<AgentId>, c: AgentId)
    requires forall i :: 0 <= i < |rows| ==> rows[i].amount > 0
    ensures Sum(SettlementPostings(rows, b, order), Keyed(PostingAgent, PostingSigned, c)) == 0
    ensures Sum(SettlementPostings(rows, b, order), PostingSigned) == 0
  {
    if order != [] {
      var n := |order| - 1;
      var a := order[n];
      var position := GrossPosition(Payable(rows, b, a), Receivable(rows, b, a));
      var legs := AgentPostings(a, position);
      SettlementBalancesPerAgent(rows, b, order[..n], c);
      Backend.PositionsNonNegative(rows, b, a);
      Backend.AgentEntryEffect(a, position, AccountKey(a, Cash));
      Backend.AgentEntryTyped(a, position);
      OthersLegs(legs, a, c);
      SumConcat(SettlementPostings(rows, b, order[..n]), legs, Keyed(PostingAgent, PostingSigned, c));
      SumConcat(SettlementPostings(rows, b, order[..n]), legs, PostingSigned);
    }
  }
}
