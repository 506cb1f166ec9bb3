/** The netting demo: its own netting of the run, and the funding it prepares. */
module Demo {
  import opened Wrappers
  import opened Sums
  import opened Sorting
  import opened Identity
  import opened Netting
  import opened NettingTheory
  import opened Erc20
  import opened NettingSettlement
  import opened SettlementGateway

  /** A configured payment between two named agents. Agents are numbered in the order of
      their names. */
  datatype DemoIntent = DemoIntent(payer: AgentId, payee: AgentId, amount: int)

  datatype NetPosition = NetPosition(name: AgentId, address: Address, amount: int)

  datatype DemoSummary = DemoSummary(grossAmount: int, netAmount: int, positions: seq<NetPosition>)

  /** The configuration after validation, where both names are known. */
  ghost predicate Known(dir: map<AgentId, Address>, run: seq<DemoIntent>) {
    forall i :: i in run ==> i.payer in dir && i.payee in dir
  }

  /** The intents as the service records them when the demo submits them in order. */
  function Submitted(dir: map<AgentId, Address>, run: seq<DemoIntent>): seq<PaymentIntent>
    requires forall i :: i in run ==> i.payer in dir && i.payee in dir
  {
    seq(|run|, k requires 0 <= k < |run| =>
      PaymentIntent(k, run[k].payer, run[k].payee, dir[run[k].payer], dir[run[k].payee], run[k].amount, ASSET_RUSD))
  }

  function PositionName(p: NetPosition): int { p.name }

  ghost predicate AllPositive(run: seq<DemoIntent>) {
    forall i :: i in run ==> i.amount > 0
  }

  ghost predicate IsDemoSummary(dir: map<AgentId, Address>, run: seq<DemoIntent>, s: DemoSummary)
    requires Known(dir, run)
  {
    var xs := Submitted(dir, run);
    && s.grossAmount == Gross(xs)
    && s.netAmount == SumSet(dir.Keys, SignedPart(xs, -1))
    && SortedBy(s.positions, PositionName)
    && Distinct(s.positions)
    && forall p :: p in s.positions <==> p.name in dir && p == NetPosition(p.name, dir[p.name], Net(xs, p.name))
  }

  lemma SubmittedSnoc(dir: map<AgentId, Address>, run: seq<DemoIntent>, k: nat)
    requires k < |run|
    requires Known(dir, run)
    ensures Known(dir, run[..k]) && Known(dir, run[..k + 1])
    ensures Submitted(dir, run[..k + 1]) == Submitted(dir, run[..k]) + [Submitted(dir, run)[k]]
    ensures run[..|run|] == run
    ensures run[k].payer in dir && run[k].payee in dir
    ensures AllPositive(run[..k + 1]) <==> AllPositive(run[..k]) && run[k].amount > 0
    ensures AllPositive(run) ==> run[k].amount > 0
  {
    assert run[k] in run;
    assert run[..k + 1] == run[..k] + [run[k]];
    assert forall i :: i in run[..k] || i in run[..k + 1] ==> i in run;
  }

  /** Moving one amount in the demo's table of positions. */
  lemma TableStep(dir: map<AgentId, Address>, xs: seq<PaymentIntent>, i: PaymentIntent)
    ensures Gross(xs + [i]) == Gross(xs) + i.amount
    ensures forall a :: (Net(xs + [i], a)
                         == Net(xs, a) - (if a == i.payerId then i.amount else 0) + (if a == i.payeeId then i.amount else 0))
    ensures forall a :: Paid(xs + [i], a) == Paid(xs, a) + if a == i.payerId then i.amount else 0
  {
    SumSnoc(xs, i, Amount);
    forall a
      ensures Net(xs + [i], a) == Net(xs, a) - (if a == i.payerId then i.amount else 0) + (if a == i.payeeId then i.amount else 0)
      ensures Paid(xs + [i], a) == Paid(xs, a) + if a == i.payerId then i.amount else 0
    {
      PaidSnoc(xs, i, a);
    }
  }

  method MoveInTable(dir: map<AgentId, Address>, ghost xs: seq<PaymentIntent>, positions: map<AgentId, int>,
      i: PaymentIntent)
    returns (moved: map<AgentId, int>)
    requires i.payerId in dir && i.payeeId in dir
    requires positions.Keys == dir.Keys && forall a :: a in dir ==> positions[a] == Net(xs, a)
    ensures moved.Keys == dir.Keys && forall a :: a in dir ==> moved[a] == Net(xs + [i], a)
  {
    moved := positions[i.payerId := positions[i.payerId] - i.amount];
    moved := moved[i.payeeId := moved[i.payeeId] + i.amount];
    TableStep(dir, xs, i);
  }

  /** The table of positions after all intents, or an error at a non-positive amount. */
  method TablePositions(dir: map<AgentId, Address>, run: seq<DemoIntent>)
    returns (valid: bool, gross: int, positions: map<AgentId, int>)
    requires Known(dir, run)
    ensures valid <==> AllPositive(run)
    ensures valid ==> gross == Gross(Submitted(dir, run))
    ensures valid ==> positions.Keys == dir.Keys && forall a :: a in dir ==> positions[a] == Net(Submitted(dir, run), a)
  {
    gross := 0;
    positions := map a | a in dir :: 0;
    ghost var xs := Submitted(dir, []);
    for k := 0 to |run|
      invariant Known(dir, run[..k]) && xs == Submitted(dir, run[..k])
      invariant AllPositive(run[..k])
      invariant gross == Gross(xs)
      invariant positions.Keys == dir.Keys && forall a :: a in dir ==> positions[a] == Net(xs, a)
    {
      SubmittedSnoc(dir, run, k);
      var amount := run[k].amount;
      if amount <= 0 {
        return false, gross, positions;
      }
      SumSnoc(xs, Submitted(dir, run)[k], Amount);
      gross := gross + amount;
      positions := MoveInTable(dir, xs, positions, Submitted(dir, run)[k]);
      xs := xs + [Submitted(dir, run)[k]];
    }
    assert run[..|run|] == run;
    return true, gross, positions;
  }

  method ComputeDemoSummary(dir: map<AgentId, Address>, run: seq<DemoIntent>) returns (r: Result<DemoSummary, string>)
    requires Known(dir, run)
    ensures r.Success? <==> AllPositive(run)
    ensures r.Success? ==> IsDemoSummary(dir, run, r.value)
  {
    var valid, gross, positions := TablePositions(dir, run);
    if !valid {
      return Failure("amount must be greater than zero");
    }

    ghost var xs := Submitted(dir, run);
    var result: seq<NetPosition> := [];
    var net := 0;
    var remaining := positions.Keys;
    while remaining != {}
      invariant remaining <= dir.Keys
      invariant net == SumSet(dir.Keys, SignedPart(xs, -1)) - SumSet(remaining, SignedPart(xs, -1))
      invariant Distinct(result)
      invariant forall p :: p in result <==>
        p.name in dir && p.name !in remaining && p == NetPosition(p.name, dir[p.name], Net(xs, p.name))
      decreases remaining
    {
      var name :| name in remaining;
      var amount := positions[name];
      if amount < 0 {
        net := net - amount;
      }
      result := result + [NetPosition(name, dir[name], amount)];
      SumSetRemove(remaining, name, SignedPart(xs, -1));
      remaining := remaining - {name};
    }
    var sorted := SortBy(result, PositionName);
    PermutationKeepsDistinct(result, sorted);
    assert forall p :: p in sorted <==> p in multiset(sorted);
    assert forall p :: p in result <==> p in multiset(result);
    return Success(DemoSummary(gross, net, sorted));
  }

  method OutgoingTotals(dir: map<AgentId, Address>, run: seq<DemoIntent>) returns (r: Result<map<AgentId, int>, string>)
    requires Known(dir, run)
    ensures r.Success? <==> AllPositive(run)
    ensures r.Success? ==> r.value.Keys == dir.Keys && forall a :: a in dir ==> r.value[a] == Paid(Submitted(dir, run), a)
  {
    var totals: map<AgentId, int> := map a | a in dir :: 0;
    ghost var xs := Submitted(dir, []);
    for k := 0 to |run|
      invariant Known(dir, run[..k]) && xs == Submitted(dir, run[..k])
      invariant AllPositive(run[..k])
      invariant totals.Keys == dir.Keys && forall a :: a in dir ==> totals[a] == Paid(xs, a)
    {
      SubmittedSnoc(dir, run, k);
      var amount := run[k].amount;
      if amount <= 0 {
        return Failure("amount must be greater than zero");
      }
      TableStep(dir, xs, Submitted(dir, run)[k]);
      totals := totals[run[k].payer := totals[run[k].payer] + amount];
      xs := xs + [Submitted(dir, run)[k]];
    }
    assert run[..|run|] == run;
    return Success(totals);
  }

  // ---- Preparing the agents ----

  function Topped(t: Token, wallet: Address, required: nat, buffer: nat): Token {
    if t.BalanceOf(wallet) < required then Minted(t, wallet, required - t.BalanceOf(wallet) + buffer) else t
  }

  /** One agent: top its balance up to what it needs, then have it approve the settlement
      contract if what it approved falls short. A transaction may fail. */
  method EnsureAgentReady(token: TokenContract, wallet: Address, settlement: Address, required: nat, buffer: nat,
      minted: bool, approved: bool) returns (ok: bool)
    modifies token
    ensures ok ==> token.state.BalanceOf(wallet) >= required && token.state.Allowance(wallet, settlement) >= required
    ensures ok <==>
      && (old(token.state).BalanceOf(wallet) >= required || minted)
      && (old(token.state).Allowance(wallet, settlement) >= required || (approved && required <= MAX_UINT256))
    ensures token.state.BalanceOf(wallet) ==
      if minted && old(token.state).BalanceOf(wallet) < required then required + buffer else old(token.state).BalanceOf(wallet)
    ensures token.state.Allowance(wallet, settlement) ==
      if ok && old(token.state).Allowance(wallet, settlement) < required then required else old(token.state).Allowance(wallet, settlement)
    ensures forall a :: a != wallet ==> token.state.BalanceOf(a) == old(token.state).BalanceOf(a)
    ensures forall a, b :: a != wallet || b != settlement ==> token.state.Allowance(a, b) == old(token.state).Allowance(a, b)
  {
    var balance := token.state.BalanceOf(wallet);
    if balance < required {
      if !minted {
        return false;
      }
      token.state := Topped(token.state, wallet, required, buffer);
    }
    if required == 0 {
      return true;
    }
    if token.state.Allowance(wallet, settlement) >= required {
      return true;
    }
    if !approved || required > MAX_UINT256 {
      return false;
    }
    token.state := Approved(token.state, wallet, settlement, required);
    return true;
  }

  /** All agents in turn; the first failure ends the demo. If there is none, every agent
      holds and has approved its outgoing total, which is what `FundingSuffices` asks for. */
  method PrepareAgents(dir: map<AgentId, Address>, token: TokenContract, settlement: Address, outgoing: map<AgentId, nat>,
      buffer: nat, failing: set<AgentId>) returns (ok: bool)
    requires Directory(dir) && outgoing.Keys == dir.Keys
    modifies token
    ensures ok ==> forall a :: a in dir ==>
      outgoing[a] <= token.state.BalanceOf(dir[a]) && outgoing[a] <= token.state.Allowance(dir[a], settlement)
    ensures forall w :: w !in dir.Values ==> token.state.BalanceOf(w) == old(token.state).BalanceOf(w)
  {
    var remaining := dir.Keys;
    while remaining != {}
      invariant remaining <= dir.Keys
      invariant forall a :: a in dir && a !in remaining ==>
        outgoing[a] <= token.state.BalanceOf(dir[a]) && outgoing[a] <= token.state.Allowance(dir[a], settlement)
      invariant forall w :: w !in dir.Values ==> token.state.BalanceOf(w) == old(token.state).BalanceOf(w)
      decreases remaining
    {
      var a :| a in remaining;
      var ready := EnsureAgentReady(token, dir[a], settlement, outgoing[a], buffer, a !in failing, a !in failing);
      if !ready {
        return false;
      }
      remaining := remaining - {a};
    }
    return true;
  }

  /** The demo's totals are those the service computes if it nets the whole run at once. */
  lemma DemoAgreesWithService(dir: map<AgentId, Address>, run: seq<DemoIntent>, demo: DemoSummary,
                              batchId: nat, createdAt: int, s: Summary)
    requires Known(dir, run)
    requires IsDemoSummary(dir, run, demo)
    requires IsSummary(batchId, Submitted(dir, run), createdAt, s)
    ensures demo.grossAmount == s.settlement.grossAmount
    ensures demo.netAmount == s.settlement.netAmount
  {
    var xs := Submitted(dir, run);
    forall a | a in Agents(xs)
      ensures a in dir
    {
      AgentsMember(xs, a);
      var i :| i in xs && (i.payerId == a || i.payeeId == a);
      var k :| 0 <= k < |xs| && xs[k] == i;
      assert run[k] in run;
    }
    ListTotal(dir.Keys, xs, s.settlement.debtors, -1);
  }

  // ---- The prepared funding suffices ----

  /** One batch of the run, as the service settles it. */
  datatype BatchRun = BatchRun(hash: nat, batchId: nat, intents: seq<PaymentIntent>, createdAt: int, summary: Summary)

  ghost predicate ValidBatch(dir: map<AgentId, Address>, b: BatchRun) {
    && b.hash != 0
    && Consistent(dir, b.intents) && Positive(b.intents)
    && IsSummary(b.batchId, b.intents, b.createdAt, b.summary)
  }

  function AllIntents(bs: seq<BatchRun>): seq<PaymentIntent> {
    if bs == [] then [] else bs[0].intents + AllIntents(bs[1..])
  }

  /** Every agent's balance and allowance cover all it pays in xs. */
  ghost predicate Funded(dir: map<AgentId, Address>, t: Token, self: Address, xs: seq<PaymentIntent>) {
    forall a :: a in dir ==>
      && Paid(xs, a) <= t.BalanceOf(dir[a])
      && (t.Allowance(dir[a], self) == MAX_UINT256 || Paid(xs, a) <= t.Allowance(dir[a], self))
  }

  /** Every batch is settled in turn, or skipped when nothing is to be moved. */
  ghost predicate AllSettle(self: Address, settler: Address, settled: set<nat>, t: Token, bs: seq<BatchRun>)
    decreases |bs|
  {
    bs == []
    || (if bs[0].summary.settlement.netAmount == 0 then AllSettle(self, settler, settled, t, bs[1..])
        else
          && Payable(bs[0].summary.settlement)
          && var r := Settle(self, settler, settled, t, CallFor(settler, bs[0].hash, bs[0].summary.settlement));
             r.Success? && AllSettle(self, settler, settled + {bs[0].hash}, r.value, bs[1..]))
  }

  /** A funded batch settles, and leaves the agents funded for the rest of the run. */
  lemma FundedBatchSettles(dir: map<AgentId, Address>, self: Address, settler: Address, settled: set<nat>, t: Token,
                           b: BatchRun, rest: seq<PaymentIntent>)
    requires Directory(dir) && ValidBatch(dir, b) && NonNegative(rest)
    requires TokenSane(t, self)
    requires Funded(dir, t, self, b.intents + rest)
    requires b.hash !in settled && b.summary.settlement.netAmount != 0
    ensures Payable(b.summary.settlement)
    ensures var r := Settle(self, settler, settled, t, CallFor(settler, b.hash, b.summary.settlement));
      r.Success? && TokenSane(r.value, self) && Funded(dir, r.value, self, rest)
  {
    var xs, st := b.intents, b.summary.settlement;
    assert NonNegative(xs);
    BatchSettles(dir, self, settler, settled, t, b.hash, b.batchId, xs, b.createdAt, b.summary);
    ShareIsPosition(dir, xs, st.debtors, -1);
    var debits := Legs(st.debtors);
    forall a
      ensures CanBear(t, self, debits, a)
    {
      if a in dir.Values {
        var agent :| agent in dir && dir[agent] == a;
        NetConcat(xs, rest, agent);
        PaidNonNegative(xs, agent);
        PaidNonNegative(rest, agent);
      }
    }
    var c := CallFor(settler, b.hash, st);
    SettleIff(self, settler, settled, t, c);
    var t' := Settle(self, settler, settled, t, c).value;
    forall a | a in dir
      ensures Paid(rest, a) <= t'.BalanceOf(dir[a])
      ensures t'.Allowance(dir[a], self) == MAX_UINT256 || Paid(rest, a) <= t'.Allowance(dir[a], self)
    {
      NetConcat(xs, rest, a);
      PaidNonNegative(xs, a);
    }
  }

  ghost predicate FreshHashes(settled: set<nat>, bs: seq<BatchRun>) {
    && (forall i :: 0 <= i < |bs| ==> bs[i].hash !in settled)
    && (forall i, j :: 0 <= i < j < |bs| ==> bs[i].hash != bs[j].hash)
  }

  lemma {:induction false} FundedRunSettles(dir: map<AgentId, Address>, self: Address, settler: Address,
      settled: set<nat>, t: Token, bs: seq<BatchRun>)
    requires Directory(dir) && TokenSane(t, self)
    requires forall b :: b in bs ==> ValidBatch(dir, b)
    requires FreshHashes(settled, bs)
    requires Funded(dir, t, self, AllIntents(bs))
    ensures AllSettle(self, settler, settled, t, bs)
    ensures NonNegative(AllIntents(bs))
    decreases |bs|
  {
    if bs != [] {
      var b := bs[0];
      assert b in bs && forall x :: x in bs[1..] ==> x in bs;
      AllNonNegative(dir, bs[1..]);
      assert NonNegative(b.intents);
      if b.summary.settlement.netAmount == 0 {
        forall a | a in dir
          ensures Paid(AllIntents(bs[1..]), a) <= Paid(AllIntents(bs), a)
        {
          NetConcat(b.intents, AllIntents(bs[1..]), a);
          PaidNonNegative(b.intents, a);
        }
        FundedRunSettles(dir, self, settler, settled, t, bs[1..]);
      } else {
        FundedBatchSettles(dir, self, settler, settled, t, b, AllIntents(bs[1..]));
        var r := Settle(self, settler, settled, t, CallFor(settler, b.hash, b.summary.settlement));
        FundedRunSettles(dir, self, settler, settled + {b.hash}, r.value, bs[1..]);
      }
    }
  }

  lemma {:induction false} AllNonNegative(dir: map<AgentId, Address>, bs: seq<BatchRun>)
    requires forall b :: b in bs ==> ValidBatch(dir, b)
    ensures NonNegative(AllIntents(bs))
  {
    if bs != [] {
      assert bs[0] in bs && forall x :: x in bs[1..] ==> x in bs;
      AllNonNegative(dir, bs[1..]);
    }
  }

  /** However the service happens to cut the run into batches, and in whatever order, if
      each agent holds and has approved its outgoing total then every settlement passes. */
  lemma FundingSuffices(dir: map<AgentId, Address>, run: seq<DemoIntent>, outgoing: map<AgentId, int>,
                        self: Address, settler: Address, settled: set<nat>, t: Token, bs: seq<BatchRun>)
    requires Directory(dir) && Known(dir, run) && TokenSane(t, self)
    requires outgoing.Keys == dir.Keys && forall a :: a in dir ==> outgoing[a] == Paid(Submitted(dir, run), a)
    requires forall a :: a in dir ==> outgoing[a] <= t.BalanceOf(dir[a]) && outgoing[a] <= t.Allowance(dir[a], self)
    requires multiset(AllIntents(bs)) == multiset(Submitted(dir, run))
    requires forall b :: b in bs ==> ValidBatch(dir, b)
    requires FreshHashes(settled, bs)
    ensures AllSettle(self, settler, settled, t, bs)
  {
    forall a | a in dir
      ensures Paid(AllIntents(bs), a) == outgoing[a]
    {
      SumPermuted(AllIntents(bs), Submitted(dir, run), Keyed(Payer, Amount, a));
    }
    FundedRunSettles(dir, self, settler, settled, t, bs);
  }
}
