/**
 The netting engine: folding payment intents into net positions, and the settlement
 instruction and manifest derived from them.
 */
module Netting {
  import opened Wrappers
  import opened Sums
  import opened Sorting
  import opened Identity

  const ASSET_RUSD := "rUSD"
  const MANIFEST_VERSION := "1.0"

  datatype PaymentIntent = PaymentIntent(
    id: nat,
    payerId: AgentId,
    payeeId: AgentId,
    payerWallet: Address,
    payeeWallet: Address,
    amount: int,
    asset: string)

  datatype PartyAmount = PartyAmount(agentId: AgentId, wallet: Address, amount: int)

  datatype ManifestPosition = ManifestPosition(agent: Address, amount: int)

  datatype ManifestIntent = ManifestIntent(id: nat, payer: Address, payee: Address, amount: int)

  datatype Manifest = Manifest(
    version: string,
    batchId: nat,
    createdAt: int,
    asset: string,
    grossIntentCount: nat,
    grossAmount: int,
    netAmount: int,
    debtors: seq<ManifestPosition>,
    creditors: seq<ManifestPosition>,
    intents: seq<ManifestIntent>)

  datatype Settlement = Settlement(
    batchId: nat,
    grossIntentCount: nat,
    transferCount: nat,
    grossAmount: int,
    netAmount: int,
    debtors: seq<PartyAmount>,
    creditors: seq<PartyAmount>,
    settledAt: int)

  datatype Summary = Summary(manifest: Manifest, settlement: Settlement)

  datatype NettingError = EmptyBatch | UnsupportedAsset(intentId: nat)

  datatype Position = Position(agentId: AgentId, wallet: Address, net: int)

  // ---- Weights and keys of intents ----

  function Payer(i: PaymentIntent): AgentId { i.payerId }
  function Payee(i: PaymentIntent): AgentId { i.payeeId }
  function Amount(i: PaymentIntent): int { i.amount }
  function IntentId(m: ManifestIntent): int { m.id }
  function PartyWallet(p: PartyAmount): int { p.wallet }
  function PartyValue(p: PartyAmount): int { p.amount }

  function Gross(xs: seq<PaymentIntent>): int { Sum(xs, Amount) }
  function Paid(xs: seq<PaymentIntent>, a: AgentId): int { Sum(xs, Keyed(Payer, Amount, a)) }
  function Received(xs: seq<PaymentIntent>, a: AgentId): int { Sum(xs, Keyed(Payee, Amount, a)) }

  /** What a is owed, less what a owes. */
  function Net(xs: seq<PaymentIntent>, a: AgentId): int { Received(xs, a) - Paid(xs, a) }

  function Agents(xs: seq<PaymentIntent>): set<AgentId> {
    if xs == [] then {} else Agents(xs[..|xs| - 1]) + {xs[|xs| - 1].payerId, xs[|xs| - 1].payeeId}
  }

  /** The wallet under which a first occurs, the payer of an intent before its payee. */
  function WalletOf(xs: seq<PaymentIntent>, a: AgentId): Address
    requires a in Agents(xs)
  {
    var n := |xs| - 1;
    if a in Agents(xs[..n]) then WalletOf(xs[..n], a)
    else if xs[n].payerId == a then xs[n].payerWallet
    else xs[n].payeeWallet
  }

  // ---- Specification of the summary ----

  /** p is the entry of an agent whose net position has the given sign. */
  predicate IsParty(xs: seq<PaymentIntent>, p: PartyAmount, sign: int) {
    && p.agentId in Agents(xs)
    && sign * Net(xs, p.agentId) > 0
    && p == PartyAmount(p.agentId, WalletOf(xs, p.agentId), sign * Net(xs, p.agentId))
  }

  /** parties lists exactly the agents of one sign, once each, by wallet. */
  ghost predicate Lists(xs: seq<PaymentIntent>, parties: seq<PartyAmount>, sign: int) {
    && SortedBy(parties, PartyWallet)
    && Distinct(parties)
    && forall p :: p in parties <==> IsParty(xs, p, sign)
  }

  function ManifestIntentOf(i: PaymentIntent): ManifestIntent {
    ManifestIntent(i.id, i.payerWallet, i.payeeWallet, i.amount)
  }

  function ManifestIntents(xs: seq<PaymentIntent>): seq<ManifestIntent> {
    seq(|xs|, i requires 0 <= i < |xs| => ManifestIntentOf(xs[i]))
  }

  function ManifestPositions(parties: seq<PartyAmount>): seq<ManifestPosition> {
    seq(|parties|, i requires 0 <= i < |parties| => ManifestPosition(parties[i].wallet, parties[i].amount))
  }

  ghost predicate IsSummary(batchId: nat, xs: seq<PaymentIntent>, createdAt: int, s: Summary) {
    var st := s.settlement;
    && Lists(xs, st.debtors, -1)
    && Lists(xs, st.creditors, 1)
    && st == Settlement(batchId, |xs|, |st.debtors| + |st.creditors|, Gross(xs), Sum(st.debtors, PartyValue),
                        st.debtors, st.creditors, createdAt)
    && SortedBy(s.manifest.intents, IntentId)
    && multiset(s.manifest.intents) == multiset(ManifestIntents(xs))
    && s.manifest == Manifest(MANIFEST_VERSION, batchId, createdAt, ASSET_RUSD, |xs|, st.grossAmount, st.netAmount,
                              ManifestPositions(st.debtors), ManifestPositions(st.creditors), s.manifest.intents)
  }

  /** `strings.EqualFold(asset, "rUSD")`: simple case folding, under which the long s
      (U+017F) also folds to s. */
  predicate IsRusd(asset: string) {
    && |asset| == 4
    && (asset[0] == 'r' || asset[0] == 'R')
    && (asset[1] == 'u' || asset[1] == 'U')
    && (asset[2] == 's' || asset[2] == 'S' || asset[2] == '\U{17F}')
    && (asset[3] == 'd' || asset[3] == 'D')
  }

  ghost predicate Supported(xs: seq<PaymentIntent>) {
    forall i :: i in xs ==> IsRusd(i.asset)
  }

  ghost predicate FirstUnsupported(xs: seq<PaymentIntent>, k: nat) {
    && k < |xs|
    && !IsRusd(xs[k].asset)
    && Supported(xs[..k])
  }

  // ---- The engine ----

  method GetNettingPosition(positions: map<AgentId, Position>, agentId: AgentId, wallet: Address)
    returns (updated: map<AgentId, Position>)
    ensures updated == if agentId in positions then positions else positions[agentId := Position(agentId, wallet, 0)]
  {
    updated := positions;
    if agentId !in positions {
      updated := updated[agentId := Position(agentId, wallet, 0)];
    }
  }

  method BuildManifestPositions(parties: seq<PartyAmount>) returns (positions: seq<ManifestPosition>)
    ensures positions == ManifestPositions(parties)
  {
    positions := [];
    for i := 0 to |parties|
      invariant positions == ManifestPositions(parties[..i])
    {
      positions := positions + [ManifestPosition(parties[i].wallet, parties[i].amount)];
    }
    assert parties[..|parties|] == parties;
  }

  /** Positions after the first intents: one entry an agent, with its wallet and net. */
  ghost predicate TracksPositions(positions: map<AgentId, Position>, xs: seq<PaymentIntent>) {
    && positions.Keys == Agents(xs)
    && forall a :: a in positions ==> positions[a] == Position(a, WalletOf(xs, a), Net(xs, a))
  }

  /** One more intent moves its amount from its payer to its payee. */
  lemma PaidSnoc(xs: seq<PaymentIntent>, i: PaymentIntent, a: AgentId)
    ensures Paid(xs + [i], a) == Paid(xs, a) + if i.payerId == a then i.amount else 0
    ensures Received(xs + [i], a) == Received(xs, a) + if i.payeeId == a then i.amount else 0
  {
    SumSnoc(xs, i, Keyed(Payer, Amount, a));
    SumSnoc(xs, i, Keyed(Payee, Amount, a));
    assert Keyed(Payer, Amount, a)(i) == if Payer(i) == a then Amount(i) else 0;
    assert Keyed(Payee, Amount, a)(i) == if Payee(i) == a then Amount(i) else 0;
  }

  lemma {:induction false} AbsentNet(xs: seq<PaymentIntent>, a: AgentId)
    requires a !in Agents(xs)
    ensures Paid(xs, a) == Received(xs, a) == 0
  {
    if xs != [] {
      var n := |xs| - 1;
      AbsentNet(xs[..n], a);
      PaidSnoc(xs[..n], xs[n], a);
      assert xs == xs[..n] + [xs[n]];
    }
  }

  /** Applying one intent to the positions of the intents before it. */
  lemma PositionsStep(before: map<AgentId, Position>, after: map<AgentId, Position>, xs: seq<PaymentIntent>,
      i: PaymentIntent)
    requires TracksPositions(before, xs)
    requires after.Keys == before.Keys + {i.payerId, i.payeeId}
    requires forall a :: a in after ==>
      after[a] == Position(a,
        if a in before then before[a].wallet else if a == i.payerId then i.payerWallet else i.payeeWallet,
        (if a in before then before[a].net else 0)
          - (if a == i.payerId then i.amount else 0) + (if a == i.payeeId then i.amount else 0))
    ensures TracksPositions(after, xs + [i])
  {
    assert (xs + [i])[..|xs|] == xs;
    forall a | a in after
      ensures after[a] == Position(a, WalletOf(xs + [i], a), Net(xs + [i], a))
    {
      PaidSnoc(xs, i, a);
      if a !in before {
        AbsentNet(xs, a);
      }
    }
  }

  /** One pass of the loop body: debit the payer's position, then credit the payee's. */
  method MoveAmount(ghost xs: seq<PaymentIntent>, positions: map<AgentId, Position>, intent: PaymentIntent)
    returns (updated: map<AgentId, Position>)
    requires TracksPositions(positions, xs)
    ensures TracksPositions(updated, xs + [intent])
  {
    updated := GetNettingPosition(positions, intent.payerId, intent.payerWallet);
    var payer := updated[intent.payerId];
    updated := updated[intent.payerId := payer.(net := payer.net - intent.amount)];
    updated := GetNettingPosition(updated, intent.payeeId, intent.payeeWallet);
    var payee := updated[intent.payeeId];
    updated := updated[intent.payeeId := payee.(net := payee.net + intent.amount)];
    PositionsStep(positions, updated, xs, intent);
  }

  lemma ManifestIntentsSnoc(xs: seq<PaymentIntent>, i: PaymentIntent)
    ensures ManifestIntents(xs + [i]) == ManifestIntents(xs) + [ManifestIntentOf(i)]
  {
  }

  /** The loop over the intents: positions, gross amount and manifest lines, or the index
      of the first intent in another asset. */
  method FoldIntents(intents: seq<PaymentIntent>)
    returns (unsupported: Option<nat>, positions: map<AgentId, Position>, grossAmount: int, manifestIntents: seq<ManifestIntent>)
    ensures unsupported.Some? ==> FirstUnsupported(intents, unsupported.value)
    ensures unsupported.None? ==> Supported(intents)
    ensures unsupported.None? ==> TracksPositions(positions, intents)
    ensures unsupported.None? ==> grossAmount == Gross(intents) && manifestIntents == ManifestIntents(intents)
  {
    positions, grossAmount, manifestIntents := map[], 0, [];
    ghost var done: seq<PaymentIntent> := [];
    for k := 0 to |intents|
      invariant done == intents[..k]
      invariant Supported(done)
      invariant TracksPositions(positions, done)
      invariant grossAmount == Gross(done)
      invariant manifestIntents == ManifestIntents(done)
    {
      var intent := intents[k];
      if !IsRusd(intent.asset) {
        return Some(k), positions, grossAmount, manifestIntents;
      }
      SumSnoc(done, intent, Amount);
      ManifestIntentsSnoc(done, intent);
      grossAmount := grossAmount + intent.amount;
      positions := MoveAmount(done, positions, intent);
      manifestIntents := manifestIntents + [ManifestIntentOf(intent)];
      done := done + [intent];
    }
    assert done == intents;
    return None, positions, grossAmount, manifestIntents;
  }

  method TotalOf(debtors: seq<PartyAmount>) returns (netAmount: int)
    ensures netAmount == Sum(debtors, PartyValue)
  {
    netAmount := 0;
    for i := 0 to |debtors|
      invariant netAmount == Sum(debtors[..i], PartyValue)
    {
      assert debtors[..i + 1][..i] == debtors[..i];
      netAmount := netAmount + debtors[i].amount;
    }
    assert debtors[..|debtors|] == debtors;
  }

  method ComputeNettingSummary(batchId: nat, intents: seq<PaymentIntent>, createdAt: int)
    returns (r: Result<Summary, NettingError>)
    ensures r == Failure(EmptyBatch) <==> intents == []
    ensures r.Failure? && intents != [] ==>
      exists k: nat :: FirstUnsupported(intents, k) && r == Failure(UnsupportedAsset(intents[k].id))
    ensures r.Success? ==> IsSummary(batchId, intents, createdAt, r.value)
    ensures r.Success? ==> Supported(intents)
  {
    if |intents| == 0 {
      return Failure(EmptyBatch);
    }

    var unsupported, positions, grossAmount, manifestIntents := FoldIntents(intents);
    if unsupported.Some? {
      return Failure(UnsupportedAsset(intents[unsupported.value].id));
    }

    var debtors, creditors := PartiesOf(intents, positions);
    debtors := SortBy(debtors, PartyWallet);
    creditors := SortBy(creditors, PartyWallet);
    var sortedIntents := SortBy(manifestIntents, IntentId);
    var netAmount := TotalOf(debtors);

    var manifestDebtors := BuildManifestPositions(debtors);
    var manifestCreditors := BuildManifestPositions(creditors);
    var manifest := Manifest(MANIFEST_VERSION, batchId, createdAt, ASSET_RUSD, |intents|, grossAmount, netAmount,
                             manifestDebtors, manifestCreditors, sortedIntents);
    var settlement := Settlement(batchId, |intents|, |debtors| + |creditors|, grossAmount, netAmount,
                                 debtors, creditors, createdAt);
    return Success(Summary(manifest, settlement));
  }

  /** The iteration over the position map, which visits the agents in any order. The
      result is stated up to the sort that follows it. */
  method PartiesOf(ghost intents: seq<PaymentIntent>, positions: map<AgentId, Position>)
    returns (debtors: seq<PartyAmount>, creditors: seq<PartyAmount>)
    requires TracksPositions(positions, intents)
    ensures Lists(intents, SortBy(debtors, PartyWallet), -1)
    ensures Lists(intents, SortBy(creditors, PartyWallet), 1)
  {
    debtors, creditors := [], [];
    var remaining := positions.Keys;
    while remaining != {}
      invariant remaining <= positions.Keys
      invariant Distinct(debtors) && Distinct(creditors)
      invariant forall p :: p in debtors <==> p.agentId !in remaining && IsParty(intents, p, -1)
      invariant forall p :: p in creditors <==> p.agentId !in remaining && IsParty(intents, p, 1)
      decreases remaining
    {
      var a :| a in remaining;
      var position := positions[a];
      if position.net < 0 {
        debtors := debtors + [PartyAmount(position.agentId, position.wallet, -position.net)];
      }
      if position.net > 0 {
        creditors := creditors + [PartyAmount(position.agentId, position.wallet, position.net)];
      }
      remaining := remaining - {a};
    }
    SortKeepsListing(debtors);
    SortKeepsListing(creditors);
  }

  lemma SortKeepsListing(parties: seq<PartyAmount>)
    requires Distinct(parties)
    ensures Distinct(SortBy(parties, PartyWallet))
    ensures forall p :: p in SortBy(parties, PartyWallet) <==> p in parties
  {
    var sorted := SortBy(parties, PartyWallet);
    PermutationKeepsDistinct(parties, sorted);
    forall p
      ensures p in sorted <==> p in parties
    {
      assert p in sorted <==> p in multiset(sorted);
      assert p in parties <==> p in multiset(parties);
    }
  }
}
