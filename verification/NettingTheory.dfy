/**
 What a netting summary is worth: it is balanced, minimal, independent of the order of
 the claim and of every map iteration, and can be re-derived from its own manifest.
 */
module NettingTheory {
  import opened Sums
  import opened Sorting
  import opened Identity
  import opened Netting

  /** Intents joined with the agents table. */
  ghost predicate Consistent(dir: map<AgentId, Address>, xs: seq<PaymentIntent>) {
    forall i :: i in xs ==>
      && i.payerId in dir && i.payerWallet == dir[i.payerId]
      && i.payeeId in dir && i.payeeWallet == dir[i.payeeId]
  }

  ghost predicate DistinctIds(xs: seq<PaymentIntent>) {
    forall i, j :: 0 <= i < j < |xs| ==> xs[i].id != xs[j].id
  }

  ghost predicate NonNegative(xs: seq<PaymentIntent>) {
    forall i :: i in xs ==> i.amount >= 0
  }

  ghost predicate Positive(xs: seq<PaymentIntent>) {
    forall i :: i in xs ==> i.amount > 0
  }

  // ---- Agents and wallets ----

  lemma {:induction false} AgentsMember(xs: seq<PaymentIntent>, a: AgentId)
    ensures a in Agents(xs) <==> exists i :: i in xs && (i.payerId == a || i.payeeId == a)
  {
    if xs != [] {
      var n := |xs| - 1;
      AgentsMember(xs[..n], a);
      assert xs == xs[..n] + [xs[n]];
      assert xs[n] in xs;
    }
  }

  lemma AgentsPermuted(xs: seq<PaymentIntent>, ys: seq<PaymentIntent>)
    requires multiset(xs) == multiset(ys)
    ensures Agents(xs) == Agents(ys)
  {
    assert forall i :: i in xs <==> i in multiset(xs);
    assert forall i :: i in ys <==> i in multiset(ys);
    forall a
      ensures a in Agents(xs) <==> a in Agents(ys)
    {
      AgentsMember(xs, a);
      AgentsMember(ys, a);
    }
  }

  lemma {:induction false} WalletFromDirectory(dir: map<AgentId, Address>, xs: seq<PaymentIntent>, a: AgentId)
    requires Consistent(dir, xs)
    requires a in Agents(xs)
    ensures a in dir && WalletOf(xs, a) == dir[a]
  {
    var n := |xs| - 1;
    assert xs[n] in xs;
    if a in Agents(xs[..n]) {
      assert forall i :: i in xs[..n] ==> i in xs;
      WalletFromDirectory(dir, xs[..n], a);
    }
  }

  lemma NetPermuted(xs: seq<PaymentIntent>, ys: seq<PaymentIntent>, a: AgentId)
    requires multiset(xs) == multiset(ys)
    ensures Net(xs, a) == Net(ys, a)
  {
    SumPermuted(xs, ys, Keyed(Payer, Amount, a));
    SumPermuted(xs, ys, Keyed(Payee, Amount, a));
  }

  lemma NetConcat(xs: seq<PaymentIntent>, ys: seq<PaymentIntent>, a: AgentId)
    ensures Net(xs + ys, a) == Net(xs, a) + Net(ys, a)
    ensures Paid(xs + ys, a) == Paid(xs, a) + Paid(ys, a)
  {
    SumConcat(xs, ys, Keyed(Payer, Amount, a));
    SumConcat(xs, ys, Keyed(Payee, Amount, a));
  }

  // ---- Net positions cancel ----

  function NetOf(xs: seq<PaymentIntent>): AgentId -> int { (a: AgentId) => Net(xs, a) }

  /** The part of the positions that has the given sign. */
  function SignedPart(xs: seq<PaymentIntent>, sign: int): AgentId -> int {
    (a: AgentId) => if sign * Net(xs, a) > 0 then sign * Net(xs, a) else 0
  }

  function Magnitude(xs: seq<PaymentIntent>): AgentId -> int {
    (a: AgentId) => if Net(xs, a) < 0 then -Net(xs, a) else Net(xs, a)
  }

  lemma PaidByEveryone(u: set<AgentId>, xs: seq<PaymentIntent>)
    requires Agents(xs) <= u
    ensures SumSet(u, Totals(xs, Payer, Amount)) == Gross(xs)
    ensures SumSet(u, Totals(xs, Payee, Amount)) == Gross(xs)
  {
    forall i | 0 <= i < |xs|
      ensures Payer(xs[i]) in u && Payee(xs[i]) in u
    {
      assert xs[i] in xs;
      AgentsMember(xs, xs[i].payerId);
      AgentsMember(xs, xs[i].payeeId);
    }
    SumByKey(u, xs, Payer, Amount);
    SumByKey(u, xs, Payee, Amount);
  }

  lemma NetSumsToZero(u: set<AgentId>, xs: seq<PaymentIntent>)
    requires Agents(xs) <= u
    ensures SumSet(u, NetOf(xs)) == 0
  {
    PaidByEveryone(u, xs);
    SumSetSplit(u, Totals(xs, Payee, Amount), NetOf(xs), Totals(xs, Payer, Amount));
  }

  lemma SurplusEqualsDeficit(u: set<AgentId>, xs: seq<PaymentIntent>)
    requires Agents(xs) <= u
    ensures SumSet(u, SignedPart(xs, 1)) == SumSet(u, SignedPart(xs, -1))
  {
    NetSumsToZero(u, xs);
    SumSetSplit(u, SignedPart(xs, 1), NetOf(xs), SignedPart(xs, -1));
  }

  function AgentsListed(parties: seq<PartyAmount>): seq<AgentId> {
    seq(|parties|, i requires 0 <= i < |parties| => parties[i].agentId)
  }

  lemma EveryPartyListed(xs: seq<PaymentIntent>, parties: seq<PartyAmount>, sign: int, a: AgentId)
    requires Lists(xs, parties, sign)
    requires sign * Net(xs, a) > 0
    ensures a in Elements(AgentsListed(parties))
  {
    if a !in Agents(xs) {
      AbsentNet(xs, a);
    } else {
      var p := PartyAmount(a, WalletOf(xs, a), sign * Net(xs, a));
      assert IsParty(xs, p, sign);
      var i :| 0 <= i < |parties| && parties[i] == p;
      assert AgentsListed(parties)[i] == a;
    }
  }

  /** A listing adds up to the positions of its sign, over any set of agents that covers
      the batch. */
  lemma ListTotal(u: set<AgentId>, xs: seq<PaymentIntent>, parties: seq<PartyAmount>, sign: int)
    requires Agents(xs) <= u
    requires Lists(xs, parties, sign)
    ensures Sum(parties, PartyValue) == SumSet(u, SignedPart(xs, sign))
  {
    var ids := AgentsListed(parties);
    forall i | 0 <= i < |parties|
      ensures IsParty(xs, parties[i], sign)
    {
      assert parties[i] in parties;
    }
    SumAgree(parties, PartyValue, ids, SignedPart(xs, sign));
    SumDistinct(ids, SignedPart(xs, sign));
    forall a | a in u - Elements(ids)
      ensures SignedPart(xs, sign)(a) == 0
    {
      if sign * Net(xs, a) > 0 {
        EveryPartyListed(xs, parties, sign, a);
      }
    }
    SumSetWiden(Elements(ids), u, SignedPart(xs, sign));
  }

  /** A listing has as many entries as there are agents with a position of its sign. */
  lemma ListCounts(xs: seq<PaymentIntent>, parties: seq<PartyAmount>, sign: int)
    requires Lists(xs, parties, sign)
    ensures |parties| == |set a | a in Agents(xs) && sign * Net(xs, a) > 0|
  {
    var ids := AgentsListed(parties);
    forall i | 0 <= i < |parties|
      ensures IsParty(xs, parties[i], sign)
    {
      assert parties[i] in parties;
    }
    forall a | a in Agents(xs) && sign * Net(xs, a) > 0
      ensures a in Elements(ids)
    {
      EveryPartyListed(xs, parties, sign, a);
    }
    CountDistinct(ids);
    assert Elements(ids) == set a | a in Agents(xs) && sign * Net(xs, a) > 0;
  }

  /** One transfer is counted for each agent with a net position. */
  lemma TransfersCounted(batchId: nat, xs: seq<PaymentIntent>, createdAt: int, s: Summary)
    requires IsSummary(batchId, xs, createdAt, s)
    ensures s.settlement.transferCount == |set a | a in Agents(xs) && Net(xs, a) != 0|
  {
    ListCounts(xs, s.settlement.debtors, -1);
    ListCounts(xs, s.settlement.creditors, 1);
    var owing, owed := set a | a in Agents(xs) && -1 * Net(xs, a) > 0, set a | a in Agents(xs) && 1 * Net(xs, a) > 0;
    assert (set a | a in Agents(xs) && Net(xs, a) != 0) == owing + owed;
    assert owing !! owed;
  }

  /** Debits and credits of an instruction are equal, and both are the net amount. */
  lemma SettlementBalances(batchId: nat, xs: seq<PaymentIntent>, createdAt: int, s: Summary)
    requires IsSummary(batchId, xs, createdAt, s)
    ensures Sum(s.settlement.debtors, PartyValue) == Sum(s.settlement.creditors, PartyValue) == s.settlement.netAmount
  {
    ListTotal(Agents(xs), xs, s.settlement.debtors, -1);
    ListTotal(Agents(xs), xs, s.settlement.creditors, 1);
    SurplusEqualsDeficit(Agents(xs), xs);
  }

  /** An instruction passes the length and amount checks of the chain, unless the net
      amount is zero, in which case every position is zero and it is skipped. */
  lemma InstructionWellFormed(dir: map<AgentId, Address>, batchId: nat, xs: seq<PaymentIntent>, createdAt: int,
      s: Summary)
    requires Directory(dir) && Consistent(dir, xs)
    requires IsSummary(batchId, xs, createdAt, s)
    ensures forall p :: p in s.settlement.debtors + s.settlement.creditors ==> p.wallet != 0 && p.amount > 0
    ensures s.settlement.netAmount >= 0
    ensures s.settlement.netAmount != 0 <==> s.settlement.debtors != []
    ensures s.settlement.netAmount != 0 <==> s.settlement.creditors != []
    ensures s.settlement.netAmount == 0 ==> forall a :: Net(xs, a) == 0
  {
    var st := s.settlement;
    SettlementBalances(batchId, xs, createdAt, s);
    forall p | p in st.debtors + st.creditors
      ensures p.wallet != 0 && p.amount > 0
    {
      assert IsParty(xs, p, -1) || IsParty(xs, p, 1);
      WalletFromDirectory(dir, xs, p.agentId);
    }
    NonEmptyTotal(st.debtors);
    NonEmptyTotal(st.creditors);
    if st.netAmount == 0 {
      forall a
        ensures Net(xs, a) == 0
      {
        if Net(xs, a) != 0 {
          if a !in Agents(xs) {
            AbsentNet(xs, a);
          } else {
            var sign := if Net(xs, a) < 0 then -1 else 1;
            assert IsParty(xs, PartyAmount(a, WalletOf(xs, a), sign * Net(xs, a)), sign);
          }
        }
      }
    }
  }

  lemma NonEmptyTotal(parties: seq<PartyAmount>)
    requires forall p :: p in parties ==> p.amount > 0
    ensures Sum(parties, PartyValue) >= 0
    ensures Sum(parties, PartyValue) == 0 <==> parties == []
  {
    forall i | 0 <= i < |parties|
      ensures PartyValue(parties[i]) > 0
    {
      assert parties[i] in parties;
    }
    SumNonNegative(parties, PartyValue);
    if parties != [] {
      assert PartyValue(parties[0]) <= Sum(parties, PartyValue);
    }
  }

  // ---- Netting is optimal ----

  lemma {:induction false} PaidNonNegative(xs: seq<PaymentIntent>, a: AgentId)
    requires NonNegative(xs)
    ensures Paid(xs, a) >= 0 && Received(xs, a) >= 0
  {
    if xs != [] {
      var n := |xs| - 1;
      assert xs == xs[..n] + [xs[n]];
      assert xs[n] in xs && forall i :: i in xs[..n] ==> i in xs;
      PaidNonNegative(xs[..n], a);
      PaidSnoc(xs[..n], xs[n], a);
    }
  }

  /** No agent's deficit exceeds what it pays, so the deficits are within the gross. */
  lemma DeficitAtMostGross(u: set<AgentId>, xs: seq<PaymentIntent>)
    requires Agents(xs) <= u
    requires NonNegative(xs)
    ensures SumSet(u, SignedPart(xs, -1)) <= Gross(xs)
  {
    forall a | a in u
      ensures SignedPart(xs, -1)(a) <= Totals(xs, Payer, Amount)(a)
    {
      PaidNonNegative(xs, a);
    }
    SumSetAtMost(u, SignedPart(xs, -1), Totals(xs, Payer, Amount));
    PaidByEveryone(u, xs);
  }

  /** The net amount is half of all absolute positions. */
  lemma NetAmountIsHalf(batchId: nat, xs: seq<PaymentIntent>, createdAt: int, s: Summary)
    requires IsSummary(batchId, xs, createdAt, s)
    ensures 2 * s.settlement.netAmount == SumSet(Agents(xs), Magnitude(xs))
  {
    var u := Agents(xs);
    ListTotal(u, xs, s.settlement.debtors, -1);
    SurplusEqualsDeficit(u, xs);
    SumSetSplit(u, Magnitude(xs), SignedPart(xs, -1), SignedPart(xs, 1));
  }

  /** Whatever payments ys leave every agent with the same net position, they move at
      least the net amount. With ys = xs: the net amount is at most the gross amount. */
  lemma NettingIsOptimal(batchId: nat, xs: seq<PaymentIntent>, createdAt: int, s: Summary, ys: seq<PaymentIntent>)
    requires IsSummary(batchId, xs, createdAt, s)
    requires NonNegative(ys)
    requires forall a :: Net(ys, a) == Net(xs, a)
    ensures s.settlement.netAmount <= Gross(ys)
  {
    var u := Agents(xs) + Agents(ys);
    ListTotal(u, xs, s.settlement.debtors, -1);
    DeficitAtMostGross(u, ys);
    SumSetAgree(u, SignedPart(xs, -1), SignedPart(ys, -1));
  }

  /** Some agent of u is owed something whenever some agent owes. */
  lemma CreditorExists(u: set<AgentId>, xs: seq<PaymentIntent>, debtor: AgentId) returns (creditor: AgentId)
    requires Agents(xs) <= u && debtor in u
    requires Net(xs, debtor) < 0
    ensures creditor in u && Net(xs, creditor) > 0
  {
    NetSumsToZero(u, xs);
    if forall a :: a in u ==> Net(xs, a) <= 0 {
      var nothing := (a: AgentId) => 0;
      SumSetRemove(u, debtor, NetOf(xs));
      SumSetAtMost(u - {debtor}, NetOf(xs), nothing);
      SumSetZero(u - {debtor}, nothing);
      assert false;
    }
    creditor :| creditor in u && Net(xs, creditor) > 0;
  }

  function Pay(payer: AgentId, payee: AgentId, amount: int): PaymentIntent {
    PaymentIntent(0, payer, payee, 0, 0, amount, ASSET_RUSD)
  }

  function Unsettled(u: set<AgentId>, xs: seq<PaymentIntent>): set<AgentId> {
    set a | a in u && Net(xs, a) != 0
  }

  function TransferAmount(xs: seq<PaymentIntent>, d: AgentId, c: AgentId): int {
    if -Net(xs, d) <= Net(xs, c) then -Net(xs, d) else Net(xs, c)
  }

  /** Once d has paid c all it can, one of the two is settled and the deficits have
      shrunk by that payment. */
  lemma TransferSettlesOne(u: set<AgentId>, xs: seq<PaymentIntent>, d: AgentId, c: AgentId)
    requires Agents(xs) <= u && d in u && c in u
    requires Net(xs, d) < 0 < Net(xs, c)
    ensures var m := TransferAmount(xs, d, c);
      var rest := xs + [Pay(c, d, m)];
      && Agents(rest) <= u
      && |Unsettled(u, rest)| < |Unsettled(u, xs)|
      && SumSet(u, SignedPart(xs, -1)) == SumSet(u, SignedPart(rest, -1)) + m
  {
    var m := TransferAmount(xs, d, c);
    var rest := xs + [Pay(c, d, m)];
    assert rest[..|xs|] == xs;
    forall a
      ensures Net(rest, a) == Net(xs, a) + (if a == d then m else 0) - (if a == c then m else 0)
    {
      PaidSnoc(xs, Pay(c, d, m), a);
    }
    var settled := if m == -Net(xs, d) then d else c;
    assert settled in Unsettled(u, xs) && settled !in Unsettled(u, rest);
    Smaller(Unsettled(u, rest), Unsettled(u, xs));
    var paid := (a: AgentId) => if a == d then m else 0;
    SumSetSplit(u, SignedPart(xs, -1), SignedPart(rest, -1), paid);
    SumSetSingle(u, d, paid);
  }

  /** The bound of `NettingIsOptimal` is reached: some payments with the same positions
      move exactly the deficits. Each step lets one debtor pay one creditor until one of
      the two is settled. */
  lemma {:induction false} MinimumAttained(u: set<AgentId>, xs: seq<PaymentIntent>) returns (ys: seq<PaymentIntent>)
    requires Agents(xs) <= u
    ensures Positive(ys)
    ensures forall a :: Net(ys, a) == Net(xs, a)
    ensures Gross(ys) == SumSet(u, SignedPart(xs, -1))
    decreases |Unsettled(u, xs)|
  {
    if d :| d in u && Net(xs, d) < 0 {
      var c := CreditorExists(u, xs, d);
      var m := TransferAmount(xs, d, c);
      TransferSettlesOne(u, xs, d, c);
      var rest := xs + [Pay(c, d, m)];
      var ys' := MinimumAttained(u, rest);
      ys := ys' + [Pay(d, c, m)];
      forall a
        ensures Net(ys, a) == Net(xs, a)
      {
        assert Net(ys', a) == Net(rest, a);
        PaidSnoc(xs, Pay(c, d, m), a);
        PaidSnoc(ys', Pay(d, c, m), a);
      }
      SumSnoc(ys', Pay(d, c, m), Amount);
      assert Positive(ys);
    } else {
      ys := [];
      SumSetZero(u, SignedPart(xs, -1));
      NetSumsToZero(u, xs);
      forall a
        ensures Net(xs, a) == 0
      {
        if a in u {
          AllSettled(u, xs, a);
        } else {
          AbsentNet(xs, a);
        }
      }
    }
  }

  lemma Smaller<T>(s: set<T>, t: set<T>)
    requires s < t
    ensures |s| < |t|
  {
    assert t == s + (t - s);
    assert t - s != {};
  }

  lemma AllSettled(u: set<AgentId>, xs: seq<PaymentIntent>, a: AgentId)
    requires Agents(xs) <= u && a in u
    requires forall b :: b in u ==> Net(xs, b) >= 0
    ensures Net(xs, a) == 0
  {
    NetSumsToZero(u, xs);
    var nothing := (b: AgentId) => 0;
    SumSetRemove(u, a, NetOf(xs));
    SumSetAtMost(u - {a}, nothing, NetOf(xs));
    SumSetZero(u - {a}, nothing);
  }

  /** The net amount is exactly the least that payments with these positions can move. */
  lemma NetAmountIsTheMinimum(batchId: nat, xs: seq<PaymentIntent>, createdAt: int, s: Summary)
    requires IsSummary(batchId, xs, createdAt, s)
    ensures exists ys :: Positive(ys) && (forall a :: Net(ys, a) == Net(xs, a)) && Gross(ys) == s.settlement.netAmount
    ensures forall ys :: NonNegative(ys) && (forall a :: Net(ys, a) == Net(xs, a)) ==> s.settlement.netAmount <= Gross(ys)
  {
    ListTotal(Agents(xs), xs, s.settlement.debtors, -1);
    var ys := MinimumAttained(Agents(xs), xs);
    assert Gross(ys) == s.settlement.netAmount;
    forall ys | NonNegative(ys) && forall a :: Net(ys, a) == Net(xs, a)
      ensures s.settlement.netAmount <= Gross(ys)
    {
      NettingIsOptimal(batchId, xs, createdAt, s, ys);
    }
  }

  /** Merging two batches never increases what has to be moved. */
  lemma MergingNeverCosts(
    b1: nat, xs: seq<PaymentIntent>, t1: int, s1: Summary,
    b2: nat, ys: seq<PaymentIntent>, t2: int, s2: Summary,
    b: nat, t: int, s: Summary)
    requires IsSummary(b1, xs, t1, s1) && IsSummary(b2, ys, t2, s2) && IsSummary(b, xs + ys, t, s)
    ensures s.settlement.netAmount <= s1.settlement.netAmount + s2.settlement.netAmount
    ensures s.settlement.grossAmount == s1.settlement.grossAmount + s2.settlement.grossAmount
  {
    var u := Agents(xs) + Agents(ys) + Agents(xs + ys);
    ListTotal(u, xs, s1.settlement.debtors, -1);
    ListTotal(u, ys, s2.settlement.debtors, -1);
    ListTotal(u, xs + ys, s.settlement.debtors, -1);
    SumConcat(xs, ys, Amount);
    var both := (a: AgentId) => SignedPart(xs, -1)(a) + SignedPart(ys, -1)(a);
    SumSetSplit(u, both, SignedPart(xs, -1), SignedPart(ys, -1));
    forall a | a in u
      ensures SignedPart(xs + ys, -1)(a) <= both(a)
    {
      NetConcat(xs, ys, a);
    }
    SumSetAtMost(u, SignedPart(xs + ys, -1), both);
  }

  // ---- The result is determined by the set of intents ----

  lemma ListsStrictly(dir: map<AgentId, Address>, xs: seq<PaymentIntent>, parties: seq<PartyAmount>, sign: int)
    requires forall a, b :: a in dir && b in dir && dir[a] == dir[b] ==> a == b
    requires Consistent(dir, xs)
    requires Lists(xs, parties, sign)
    ensures StrictlySortedBy(parties, PartyWallet)
  {
    forall i, j | 0 <= i < j < |parties|
      ensures PartyWallet(parties[i]) < PartyWallet(parties[j])
    {
      assert IsParty(xs, parties[i], sign) && IsParty(xs, parties[j], sign);
      WalletFromDirectory(dir, xs, parties[i].agentId);
      WalletFromDirectory(dir, xs, parties[j].agentId);
    }
  }

  lemma ListsUnique(dir: map<AgentId, Address>, xs: seq<PaymentIntent>, ys: seq<PaymentIntent>,
                    ps: seq<PartyAmount>, qs: seq<PartyAmount>, sign: int)
    requires Directory(dir) && Consistent(dir, xs) && Consistent(dir, ys)
    requires multiset(xs) == multiset(ys)
    requires Lists(xs, ps, sign) && Lists(ys, qs, sign)
    ensures ps == qs
  {
    AgentsPermuted(xs, ys);
    forall p
      ensures p in ps <==> p in qs
    {
      NetPermuted(xs, ys, p.agentId);
      if p.agentId in Agents(xs) {
        WalletFromDirectory(dir, xs, p.agentId);
        WalletFromDirectory(dir, ys, p.agentId);
      }
    }
    ListsStrictly(dir, xs, ps, sign);
    ListsStrictly(dir, ys, qs, sign);
    StrictlySortedUnique(ps, qs, PartyWallet);
  }

  /** Sorted permutations of a list with distinct ids coincide. */
  lemma SortedIntentsUnique(ms: seq<ManifestIntent>, ns: seq<ManifestIntent>)
    requires SortedBy(ms, IntentId) && SortedBy(ns, IntentId)
    requires multiset(ms) == multiset(ns)
    requires forall m, n :: m in ms && n in ms && m.id == n.id ==> m == n
    requires Distinct(ms)
    ensures ms == ns
  {
    PermutationKeepsDistinct(ms, ns);
    assert forall m :: m in ms <==> m in multiset(ms);
    assert forall m :: m in ns <==> m in multiset(ns);
    StrictlySortedUnique(ms, ns, IntentId);
  }

  lemma ManifestIntentsDistinct(xs: seq<PaymentIntent>, ms: seq<ManifestIntent>)
    requires DistinctIds(xs)
    requires multiset(ms) == multiset(ManifestIntents(xs))
    ensures Distinct(ms)
    ensures forall m, n :: m in ms && n in ms && m.id == n.id ==> m == n
  {
    var ns := ManifestIntents(xs);
    PermutationKeepsDistinct(ns, ms);
    forall m, n | m in ms && n in ms && m.id == n.id
      ensures m == n
    {
      assert m in multiset(ms) && n in multiset(ms);
      assert m in ns && n in ns;
      var i :| 0 <= i < |ns| && ns[i] == m;
      var j :| 0 <= j < |ns| && ns[j] == n;
      assert xs[i].id == xs[j].id;
    }
  }

  function One(i: PaymentIntent): int { 1 }

  lemma {:induction false} CountManifestLines(xs: seq<PaymentIntent>, m: ManifestIntent)
    ensures multiset(ManifestIntents(xs))[m] == Sum(xs, Keyed(ManifestIntentOf, One, m))
  {
    if xs != [] {
      var n := |xs| - 1;
      CountManifestLines(xs[..n], m);
      ManifestIntentsSnoc(xs[..n], xs[n]);
      assert xs == xs[..n] + [xs[n]];
      assert One(xs[n]) == 1;
      assert ManifestIntentOf(xs[n]) == m <==> Keyed(ManifestIntentOf, One, m)(xs[n]) == 1;
    }
  }

  lemma ManifestLinesPermuted(xs: seq<PaymentIntent>, ys: seq<PaymentIntent>)
    requires multiset(xs) == multiset(ys)
    ensures multiset(ManifestIntents(xs)) == multiset(ManifestIntents(ys))
  {
    forall m
      ensures multiset(ManifestIntents(xs))[m] == multiset(ManifestIntents(ys))[m]
    {
      CountManifestLines(xs, m);
      CountManifestLines(ys, m);
      SumPermuted(xs, ys, Keyed(ManifestIntentOf, One, m));
    }
  }

  /** Any order of the claim, and any iteration order inside the engine, gives the same
      settlement and the same manifest. */
  lemma SummaryUnique(dir: map<AgentId, Address>, batchId: nat, createdAt: int,
                      xs: seq<PaymentIntent>, s1: Summary, ys: seq<PaymentIntent>, s2: Summary)
    requires Directory(dir) && Consistent(dir, xs) && DistinctIds(xs)
    requires multiset(xs) == multiset(ys)
    requires IsSummary(batchId, xs, createdAt, s1) && IsSummary(batchId, ys, createdAt, s2)
    ensures s1 == s2
  {
    assert forall i :: i in ys <==> i in multiset(ys);
    assert forall i :: i in xs <==> i in multiset(xs);
    ListsUnique(dir, xs, ys, s1.settlement.debtors, s2.settlement.debtors, -1);
    ListsUnique(dir, xs, ys, s1.settlement.creditors, s2.settlement.creditors, 1);
    SumPermuted(xs, ys, Amount);
    assert |multiset(xs)| == |xs| && |multiset(ys)| == |ys|;
    ManifestLinesPermuted(xs, ys);
    ManifestIntentsDistinct(xs, s1.manifest.intents);
    SortedIntentsUnique(s1.manifest.intents, s2.manifest.intents);
  }

  /** A summary of the intents is a summary of any permutation of them. */
  lemma SummaryPermuted(dir: map<AgentId, Address>, batchId: nat, createdAt: int, xs: seq<PaymentIntent>,
      ys: seq<PaymentIntent>, s: Summary)
    requires Consistent(dir, xs)
    requires multiset(xs) == multiset(ys)
    requires IsSummary(batchId, xs, createdAt, s)
    ensures IsSummary(batchId, ys, createdAt, s)
  {
    assert forall i :: i in ys <==> i in multiset(ys);
    assert forall i :: i in xs <==> i in multiset(xs);
    AgentsPermuted(xs, ys);
    forall p: PartyAmount, sign
      ensures IsParty(xs, p, sign) <==> IsParty(ys, p, sign)
    {
      NetPermuted(xs, ys, p.agentId);
      if p.agentId in Agents(xs) {
        WalletFromDirectory(dir, xs, p.agentId);
        WalletFromDirectory(dir, ys, p.agentId);
      }
    }
    SumPermuted(xs, ys, Amount);
    assert |multiset(xs)| == |xs| && |multiset(ys)| == |ys|;
    ManifestLinesPermuted(xs, ys);
  }

  // ---- The manifest re-nets to itself ----

  /** An intent read back from a manifest, where agents are known by their wallets. */
  function FromManifest(m: ManifestIntent): PaymentIntent {
    PaymentIntent(m.id, m.payer, m.payee, m.payer, m.payee, m.amount, ASSET_RUSD)
  }

  function ReadManifest(ms: seq<ManifestIntent>): seq<PaymentIntent> {
    seq(|ms|, i requires 0 <= i < |ms| => FromManifest(ms[i]))
  }

  function ManifestPayer(m: ManifestIntent): Address { m.payer }
  function ManifestPayee(m: ManifestIntent): Address { m.payee }
  function ManifestAmount(m: ManifestIntent): int { m.amount }

  lemma NetByWallet(dir: map<AgentId, Address>, xs: seq<PaymentIntent>, ms: seq<ManifestIntent>, a: AgentId)
    requires Directory(dir) && Consistent(dir, xs)
    requires multiset(ms) == multiset(ManifestIntents(xs))
    requires a in dir
    ensures Net(ReadManifest(ms), dir[a]) == Net(xs, a)
  {
    var ns := ManifestIntents(xs);
    var w := dir[a];
    forall i | 0 <= i < |xs|
      ensures Keyed(Payer, Amount, a)(xs[i]) == Keyed(ManifestPayer, ManifestAmount, w)(ns[i])
      ensures Keyed(Payee, Amount, a)(xs[i]) == Keyed(ManifestPayee, ManifestAmount, w)(ns[i])
    {
      assert xs[i] in xs;
      assert Payer(xs[i]) == a <==> ManifestPayer(ns[i]) == w;
      assert Payee(xs[i]) == a <==> ManifestPayee(ns[i]) == w;
      assert Amount(xs[i]) == ManifestAmount(ns[i]);
    }
    SumAgree(xs, Keyed(Payer, Amount, a), ns, Keyed(ManifestPayer, ManifestAmount, w));
    SumAgree(xs, Keyed(Payee, Amount, a), ns, Keyed(ManifestPayee, ManifestAmount, w));
    SumPermuted(ns, ms, Keyed(ManifestPayer, ManifestAmount, w));
    SumPermuted(ns, ms, Keyed(ManifestPayee, ManifestAmount, w));
    var ys := ReadManifest(ms);
    forall i | 0 <= i < |ms|
      ensures Keyed(ManifestPayer, ManifestAmount, w)(ms[i]) == Keyed(Payer, Amount, w)(ys[i])
      ensures Keyed(ManifestPayee, ManifestAmount, w)(ms[i]) == Keyed(Payee, Amount, w)(ys[i])
    {
      assert ManifestPayer(ms[i]) == w <==> Payer(ys[i]) == w;
      assert ManifestPayee(ms[i]) == w <==> Payee(ys[i]) == w;
      assert ManifestAmount(ms[i]) == Amount(ys[i]);
    }
    SumAgree(ms, Keyed(ManifestPayer, ManifestAmount, w), ys, Keyed(Payer, Amount, w));
    SumAgree(ms, Keyed(ManifestPayee, ManifestAmount, w), ys, Keyed(Payee, Amount, w));
  }

  lemma WalletsOfManifest(dir: map<AgentId, Address>, xs: seq<PaymentIntent>, ms: seq<ManifestIntent>)
    requires Consistent(dir, xs)
    requires multiset(ms) == multiset(ManifestIntents(xs))
    ensures forall w :: w in Agents(ReadManifest(ms)) ==> exists a :: a in Agents(xs) && a in dir && dir[a] == w
    ensures forall a :: a in Agents(xs) ==> a in dir && dir[a] in Agents(ReadManifest(ms))
  {
    var ys, ns := ReadManifest(ms), ManifestIntents(xs);
    assert forall m :: m in ms <==> m in multiset(ms);
    assert forall m :: m in ns <==> m in multiset(ns);
    forall w | w in Agents(ys)
      ensures exists a :: a in Agents(xs) && a in dir && dir[a] == w
    {
      AgentsMember(ys, w);
      var y :| y in ys && (y.payerId == w || y.payeeId == w);
      var j :| 0 <= j < |ys| && ys[j] == y;
      assert ms[j] in ns;
      var i :| 0 <= i < |ns| && ns[i] == ms[j];
      assert xs[i] in xs;
      AgentsMember(xs, xs[i].payerId);
      AgentsMember(xs, xs[i].payeeId);
    }
    forall a | a in Agents(xs)
      ensures a in dir && dir[a] in Agents(ys)
    {
      AgentsMember(xs, a);
      var x :| x in xs && (x.payerId == a || x.payeeId == a);
      var i :| 0 <= i < |xs| && xs[i] == x;
      assert ns[i] in ms;
      var j :| 0 <= j < |ms| && ms[j] == ns[i];
      assert ys[j] in ys;
      AgentsMember(ys, dir[a]);
    }
  }

  function PositionWallet(p: ManifestPosition): int { p.agent }

  function SelfDirectory(ys: seq<PaymentIntent>): map<AgentId, Address> {
    map w | w in Agents(ys) :: w
  }

  lemma ReadConsistent(ms: seq<ManifestIntent>)
    ensures Consistent(SelfDirectory(ReadManifest(ms)), ReadManifest(ms))
  {
    var ys := ReadManifest(ms);
    forall y | y in ys
      ensures y.payerId in Agents(ys) && y.payeeId in Agents(ys)
    {
      AgentsMember(ys, y.payerId);
      AgentsMember(ys, y.payeeId);
    }
  }

  lemma PartyByWallet(dir: map<AgentId, Address>, xs: seq<PaymentIntent>, ms: seq<ManifestIntent>, p: PartyAmount,
      sign: int)
    requires Directory(dir) && Consistent(dir, xs)
    requires multiset(ms) == multiset(ManifestIntents(xs))
    requires IsParty(xs, p, sign)
    ensures IsParty(ReadManifest(ms), PartyAmount(p.wallet, p.wallet, p.amount), sign)
  {
    WalletFromDirectory(dir, xs, p.agentId);
    WalletsOfManifest(dir, xs, ms);
    NetByWallet(dir, xs, ms, p.agentId);
    ReadConsistent(ms);
    WalletFromDirectory(SelfDirectory(ReadManifest(ms)), ReadManifest(ms), p.wallet);
  }

  lemma PartyByAgent(dir: map<AgentId, Address>, xs: seq<PaymentIntent>, ms: seq<ManifestIntent>, q: PartyAmount,
      sign: int)
    returns (p: PartyAmount)
    requires Directory(dir) && Consistent(dir, xs)
    requires multiset(ms) == multiset(ManifestIntents(xs))
    requires IsParty(ReadManifest(ms), q, sign)
    ensures IsParty(xs, p, sign) && p.wallet == q.wallet && p.amount == q.amount
  {
    ReadConsistent(ms);
    WalletFromDirectory(SelfDirectory(ReadManifest(ms)), ReadManifest(ms), q.agentId);
    WalletsOfManifest(dir, xs, ms);
    var a :| a in Agents(xs) && a in dir && dir[a] == q.agentId;
    NetByWallet(dir, xs, ms, a);
    WalletFromDirectory(dir, xs, a);
    p := PartyAmount(a, q.wallet, q.amount);
  }

  /** The manifest lines of one sign, listed by agent or by wallet, are the same lines. */
  lemma RenettedPositions(dir: map<AgentId, Address>, xs: seq<PaymentIntent>, ms: seq<ManifestIntent>,
                          ps: seq<PartyAmount>, qs: seq<PartyAmount>, sign: int)
    requires Directory(dir) && Consistent(dir, xs)
    requires multiset(ms) == multiset(ManifestIntents(xs))
    requires Lists(xs, ps, sign) && Lists(ReadManifest(ms), qs, sign)
    ensures ManifestPositions(ps) == ManifestPositions(qs)
  {
    var mp, mq := ManifestPositions(ps), ManifestPositions(qs);
    forall l | l in mp
      ensures l in mq
    {
      var i :| 0 <= i < |mp| && mp[i] == l;
      PartyByWallet(dir, xs, ms, ps[i], sign);
      var j :| 0 <= j < |qs| && qs[j] == PartyAmount(ps[i].wallet, ps[i].wallet, ps[i].amount);
      assert mq[j] == l;
    }
    forall l | l in mq
      ensures l in mp
    {
      var j :| 0 <= j < |mq| && mq[j] == l;
      var p := PartyByAgent(dir, xs, ms, qs[j], sign);
      var i :| 0 <= i < |ps| && ps[i] == p;
      assert mp[i] == l;
    }
    ListsStrictly(dir, xs, ps, sign);
    StrictPositions(ps);
    ReadConsistent(ms);
    ListsStrictly(SelfDirectory(ReadManifest(ms)), ReadManifest(ms), qs, sign);
    StrictPositions(qs);
    StrictlySortedUnique(mp, mq, PositionWallet);
  }

  lemma StrictPositions(ps: seq<PartyAmount>)
    requires StrictlySortedBy(ps, PartyWallet)
    ensures StrictlySortedBy(ManifestPositions(ps), PositionWallet)
  {
    forall i, j | 0 <= i < j < |ps|
      ensures PositionWallet(ManifestPositions(ps)[i]) < PositionWallet(ManifestPositions(ps)[j])
    {
      assert PartyWallet(ps[i]) < PartyWallet(ps[j]);
    }
  }

  /** Anyone who nets the intents of a published manifest, knowing wallets only, obtains
      that very manifest. */
  lemma ManifestRenets(dir: map<AgentId, Address>, batchId: nat, createdAt: int,
                       xs: seq<PaymentIntent>, s: Summary, audit: Summary)
    requires Directory(dir) && Consistent(dir, xs) && DistinctIds(xs)
    requires IsSummary(batchId, xs, createdAt, s)
    requires IsSummary(batchId, ReadManifest(s.manifest.intents), createdAt, audit)
    ensures audit.manifest == s.manifest
  {
    var ms := s.manifest.intents;
    var ys := ReadManifest(ms);
    RenettedPositions(dir, xs, ms, s.settlement.debtors, audit.settlement.debtors, -1);
    RenettedPositions(dir, xs, ms, s.settlement.creditors, audit.settlement.creditors, 1);
    assert ManifestIntents(ys) == ms;
    ManifestIntentsDistinct(xs, ms);
    SortedIntentsUnique(ms, audit.manifest.intents);
    var ns := ManifestIntents(xs);
    assert |multiset(ms)| == |ms| && |multiset(ns)| == |ns|;
    SumAgree(ys, Amount, ms, ManifestAmount);
    SumPermuted(ms, ns, ManifestAmount);
    SumAgree(ns, ManifestAmount, xs, Amount);
    PositionTotals(s.settlement.debtors);
    PositionTotals(audit.settlement.debtors);
  }

  function PositionAmount(p: ManifestPosition): int { p.amount }

  lemma PositionTotals(ps: seq<PartyAmount>)
    ensures Sum(ps, PartyValue) == Sum(ManifestPositions(ps), PositionAmount)
  {
    SumAgree(ps, PartyValue, ManifestPositions(ps), PositionAmount);
  }

  // ---- What the manifest says ----

  /** The manifest names version, batch, time and asset, and has a line for each intent, by
      the wallets of its agents, in the order of their ids, and none besides. */
  lemma ManifestTells(dir: map<AgentId, Address>, batchId: nat, xs: seq<PaymentIntent>, createdAt: int, s: Summary)
    requires Consistent(dir, xs) && IsSummary(batchId, xs, createdAt, s)
    ensures var m := s.manifest;
      && m.version == "1.0" && m.batchId == batchId && m.createdAt == createdAt && m.asset == "rUSD"
      && m.grossIntentCount == |xs| == |m.intents| && m.grossAmount == s.settlement.grossAmount && m.netAmount == s.settlement.netAmount
    ensures forall x :: x in xs ==> ManifestIntent(x.id, dir[x.payerId], dir[x.payeeId], x.amount) in s.manifest.intents
    ensures forall l :: l in s.manifest.intents ==>
      exists x :: x in xs && l == ManifestIntent(x.id, dir[x.payerId], dir[x.payeeId], x.amount)
    ensures forall i, j :: 0 <= i < j < |xs| ==> s.manifest.intents[i].id <= s.manifest.intents[j].id
  {
    ManifestLines(dir, xs, s.manifest.intents);
    var lines := s.manifest.intents;
    assert forall i, j :: 0 <= i < j < |lines| ==> IntentId(lines[i]) <= IntentId(lines[j]);
    hide Consistent, Lists;
  }

  /** It has a position for exactly the agents that owe, and for those that are owed, on
      balance, in the order of their wallets. */
  lemma ManifestNames(dir: map<AgentId, Address>, batchId: nat, xs: seq<PaymentIntent>, createdAt: int, s: Summary)
    requires Consistent(dir, xs) && IsSummary(batchId, xs, createdAt, s)
    ensures NamesSide(dir, xs, s.manifest.debtors, -1)
    ensures NamesSide(dir, xs, s.manifest.creditors, 1)
  {
    ManifestSide(dir, xs, s.settlement.debtors, -1);
    ManifestSide(dir, xs, s.settlement.creditors, 1);
    hide Consistent, Lists, ManifestIntents, NamesSide;
  }

  ghost predicate NamesSide(dir: map<AgentId, Address>, xs: seq<PaymentIntent>, positions: seq<ManifestPosition>, sign: int) {
    && (forall a :: a in Agents(xs) && sign * Net(xs, a) > 0 ==> a in dir && ManifestPosition(dir[a], sign * Net(xs, a)) in positions)
    && |positions| == |set a | a in Agents(xs) && sign * Net(xs, a) > 0|
    && (forall i, j :: 0 <= i < j < |positions| ==> positions[i].agent <= positions[j].agent)
  }

  lemma ManifestLines(dir: map<AgentId, Address>, xs: seq<PaymentIntent>, lines: seq<ManifestIntent>)
    requires Consistent(dir, xs) && multiset(lines) == multiset(ManifestIntents(xs))
    ensures |lines| == |xs|
    ensures forall x :: x in xs ==> ManifestIntent(x.id, dir[x.payerId], dir[x.payeeId], x.amount) in lines
    ensures forall l :: l in lines ==> exists x :: x in xs && l == ManifestIntent(x.id, dir[x.payerId], dir[x.payeeId], x.amount)
  {
    var all := ManifestIntents(xs);
    assert |multiset(lines)| == |lines| && |multiset(all)| == |all|;
    assert forall l :: l in lines <==> l in multiset(lines);
    assert forall l :: l in all <==> l in multiset(all);
    forall x | x in xs
      ensures ManifestIntent(x.id, dir[x.payerId], dir[x.payeeId], x.amount) in lines
    {
      var i :| 0 <= i < |xs| && xs[i] == x;
      assert all[i] == ManifestIntent(x.id, dir[x.payerId], dir[x.payeeId], x.amount);
    }
    forall l | l in lines
      ensures exists x :: x in xs && l == ManifestIntent(x.id, dir[x.payerId], dir[x.payeeId], x.amount)
    {
      var i :| 0 <= i < |all| && all[i] == l;
      assert xs[i] in xs;
    }
  }

  lemma ManifestSide(dir: map<AgentId, Address>, xs: seq<PaymentIntent>, parties: seq<PartyAmount>, sign: int)
    requires Consistent(dir, xs) && Lists(xs, parties, sign)
    ensures NamesSide(dir, xs, ManifestPositions(parties), sign)
  {
    ListCounts(xs, parties, sign);
    assert forall i, j :: 0 <= i < j < |parties| ==> PartyWallet(parties[i]) <= PartyWallet(parties[j]);
    forall a | a in Agents(xs) && sign * Net(xs, a) > 0
      ensures a in dir && ManifestPosition(dir[a], sign * Net(xs, a)) in ManifestPositions(parties)
    {
      WalletFromDirectory(dir, xs, a);
      var p := PartyAmount(a, WalletOf(xs, a), sign * Net(xs, a));
      assert IsParty(xs, p, sign);
      var i :| 0 <= i < |parties| && parties[i] == p;
      assert ManifestPositions(parties)[i] == ManifestPosition(p.wallet, p.amount);
    }
  }
}
