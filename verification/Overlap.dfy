/**
 A run of the protocol in which two processes overlap: one settles a batch on the chain,
 a second one reconciles the batch away while it does, and the first then journals it.
 */
module Overlap {
  import opened Wrappers
  import opened Sums
  import opened Sorting
  import opened Identity
  import opened Schema
  import opened Bookkeeping
  import NR = NettingRepository
  import opened Netting
  import opened NettingTheory
  import opened Erc20
  import opened NettingSettlement
  import opened SettlementGateway
  import Backend
  import opened Protocol
  import opened BatchStates

  // ---- Runs, one action at a time ----

  ghost function RunOf(c: Config, token: Token, acts: seq<Action>): (trace: seq<State>)
    ensures |trace| == |acts| + 1
  {
    if acts == [] then [Initial(token)]
    else
      var before := RunOf(c, token, acts[..|acts| - 1]);
      before + [After(c, before[|acts| - 1], acts[|acts| - 1])]
  }

  ghost function LastOf(c: Config, token: Token, acts: seq<Action>): State {
    RunOf(c, token, acts)[|acts|]
  }

  lemma GoesOn(c: Config, token: Token, acts: seq<Action>, act: Action)
    requires IsRun(c, RunOf(c, token, acts), acts)
    requires Enabled(c, LastOf(c, token, acts), act)
    ensures LastOf(c, token, acts + [act]) == After(c, LastOf(c, token, acts), act)
    ensures IsRun(c, RunOf(c, token, acts + [act]), acts + [act])
  {
    hide Enabled, After;
    assert (acts + [act])[..|acts|] == acts;
  }

  lemma GoesOnThrice(c: Config, token: Token, acts: seq<Action>, a1: Action, a2: Action, a3: Action)
    requires IsRun(c, RunOf(c, token, acts), acts)
    requires var s := LastOf(c, token, acts);
      Enabled(c, s, a1) && Enabled(c, After(c, s, a1), a2) && Enabled(c, After(c, After(c, s, a1), a2), a3)
    ensures LastOf(c, token, acts + [a1, a2, a3]) == After(c, After(c, After(c, LastOf(c, token, acts), a1), a2), a3)
    ensures IsRun(c, RunOf(c, token, acts + [a1, a2, a3]), acts + [a1, a2, a3])
  {
    hide *;
    GoesOn(c, token, acts, a1);
    GoesOn(c, token, acts + [a1], a2);
    GoesOn(c, token, acts + [a1] + [a2], a3);
    assert acts + [a1] + [a2] + [a3] == acts + [a1, a2, a3];
  }

  lemma Starts(c: Config, token: Token)
    requires Directory(c.dir) && TokenSane(token, c.self)
    ensures IsRun(c, RunOf(c, token, []), []) && LastOf(c, token, []) == Initial(token)
  {
    hide TokenSane;
  }

  // ---- One intent ----

  /** One intent of p to q, claimed into batch 0. */
  function TheIntent(dir: map<AgentId, Address>, p: AgentId, q: AgentId, amount: int): PaymentIntent
    requires p in dir && q in dir
  {
    PaymentIntent(0, p, q, dir[p], dir[q], amount, ASSET_RUSD)
  }

  function TheSummary(dir: map<AgentId, Address>, p: AgentId, q: AgentId, amount: int): Summary
    requires p in dir && q in dir
  {
    var debtors, creditors := [PartyAmount(p, dir[p], amount)], [PartyAmount(q, dir[q], amount)];
    Summary(
      Manifest(MANIFEST_VERSION, 0, 0, ASSET_RUSD, 1, amount, amount, ManifestPositions(debtors), ManifestPositions(creditors),
               [ManifestIntentOf(TheIntent(dir, p, q, amount))]),
      Settlement(0, 1, 2, amount, amount, debtors, creditors, 0))
  }

  lemma OneIntentNets(dir: map<AgentId, Address>, p: AgentId, q: AgentId, amount: int)
    requires p in dir && q in dir && p != q
    ensures var xs := [TheIntent(dir, p, q, amount)];
      && Agents(xs) == {p, q} && WalletOf(xs, p) == dir[p] && WalletOf(xs, q) == dir[q]
      && forall a :: Net(xs, a) == (if a == q then amount else 0) - (if a == p then amount else 0)
  {
    var x := TheIntent(dir, p, q, amount);
    assert [x][..0] == [] && [] + [x] == [x];
    forall a
      ensures Net([x], a) == (if a == q then amount else 0) - (if a == p then amount else 0)
    {
      PaidSnoc([], x, a);
    }
  }

  lemma OneIntentSummary(dir: map<AgentId, Address>, p: AgentId, q: AgentId, amount: int)
    requires p in dir && q in dir && p != q && amount > 0
    ensures IsSummary(0, [TheIntent(dir, p, q, amount)], 0, TheSummary(dir, p, q, amount))
  {
    var x, m := TheIntent(dir, p, q, amount), TheSummary(dir, p, q, amount);
    OneIntentNets(dir, p, q, amount);
    SumSnoc([], x, Amount);
    SumSnoc([], m.settlement.debtors[0], PartyValue);
    assert [] + [x] == [x] && [] + [m.settlement.debtors[0]] == m.settlement.debtors;
    assert ManifestIntents([x]) == [ManifestIntentOf(x)];
    hide Net, Agents, WalletOf, Sum;
    assert Lists([x], m.settlement.debtors, -1);
    assert Lists([x], m.settlement.creditors, 1);
  }

  /** A payer that holds and has approved the amount can bear the one debit. */
  lemma PayerCanBear(dir: map<AgentId, Address>, p: AgentId, q: AgentId, amount: nat, t: Token, self: Address)
    requires p in dir && q in dir
    requires amount <= t.BalanceOf(dir[p]) && amount <= t.Allowance(dir[p], self)
    ensures forall a :: CanBear(t, self, Legs(TheSummary(dir, p, q, amount).settlement.debtors), a)
  {
    var legs := Legs(TheSummary(dir, p, q, amount).settlement.debtors);
    assert legs == [] + [Leg(dir[p], amount)];
    forall a
      ensures Share(legs, a) == if a == dir[p] then amount else 0
    {
      ShareSnoc([], Leg(dir[p], amount), a);
    }
  }

  // ---- The run up to the confirmation ----

  /** Everything but the store and the workers, as the run leaves it. */
  ghost predicate Elsewhere(s: State, workers: map<nat, Phase>, published: map<nat, Summary>, broadcast: set<Summary>,
      settled: set<nat>, token: Token, executed: seq<Execution>)
  {
    && s.workers == workers && s.published == published && s.broadcast == broadcast
    && s.settled == settled && s.token == token && s.executed == executed
  }

  /** The one intent is stored, in batch 0 or still pending, and nothing is journaled for
      the batch. */
  ghost predicate Stored(s: State, r: IntentRow, batches: seq<BatchRow>) {
    && s.sys.store.intents == [r]
    && s.sys.store.batches == batches
    && SettlementKey(0) !in s.sys.store.books.journals
  }

  lemma Created(c: Config, t: Token, p: AgentId, q: AgentId, amount: int)
    requires p in c.dir && q in c.dir && amount > 0
    ensures var act := Other(Backend.CreateIntentStep("k", p, q, amount, 0));
      var s := After(c, Initial(t), act);
      && Enabled(c, Initial(t), act)
      && Stored(s, NR.NewIntent("k", p, q, amount, 0), [])
      && Elsewhere(s, map[], map[], {}, {}, t, [])
  {
    RecordAppends(EmptyStore().books, AccrualKey(0), JournalRow(None, Some(0), None, 0), NR.AccrualPostings(p, q, amount));
    hide Record, NR.AccrualPostings;
  }

  function TheRow(p: AgentId, q: AgentId, amount: int): IntentRow {
    NR.NewIntent("k", p, q, amount, 0).(status := IntentBatched, batch := Some(0))
  }

  lemma ClaimedNext(c: Config, s: State, t: Token, p: AgentId, q: AgentId, amount: int, v: nat)
    requires p in c.dir && q in c.dir && amount > 0
    requires Stored(s, NR.NewIntent("k", p, q, amount, 0), []) && Elsewhere(s, map[], map[], {}, {}, t, [])
    ensures var xs := [TheIntent(c.dir, p, q, amount)];
      var act := Claim(v, {0}, 0, 0, xs);
      && Enabled(c, s, act)
      && Stored(After(c, s, act), TheRow(p, q, amount), [NR.NewBatch(0)])
      && Elsewhere(After(c, s, act), map[v := Claimed(0, xs)], map[], {}, {}, t, [])
  {
    var store := s.sys.store;
    assert NR.Join(c.dir, store.intents, 0) == TheIntent(c.dir, p, q, amount);
    assert NR.Claim(store, {0}, 0, 0).Some?;
    assert NR.Assigned(store.intents, {0}, 0, 0) == [TheRow(p, q, amount)];
  }

  lemma PublishedNext(c: Config, s: State, t: Token, p: AgentId, q: AgentId, amount: int, v: nat)
    requires p in c.dir && q in c.dir && p != q && amount > 0
    requires Stored(s, TheRow(p, q, amount), [NR.NewBatch(0)])
    requires Elsewhere(s, map[v := Claimed(0, [TheIntent(c.dir, p, q, amount)])], map[], {}, {}, t, [])
    ensures var m := TheSummary(c.dir, p, q, amount);
      var act := Publish(v, m);
      && Enabled(c, s, act)
      && Stored(After(c, s, act), TheRow(p, q, amount), [NR.NewBatch(0)])
      && Elsewhere(After(c, s, act), map[v := Published(m)], map[0 := m], {}, {}, t, [])
  {
    OneIntentSummary(c.dir, p, q, amount);
    hide IsSummary;
  }

  lemma SubmittedNext(c: Config, s: State, t: Token, p: AgentId, q: AgentId, amount: int, v: nat)
    requires p in c.dir && q in c.dir && amount > 0
    requires var m := TheSummary(c.dir, p, q, amount);
      && Stored(s, TheRow(p, q, amount), [NR.NewBatch(0)])
      && Elsewhere(s, map[v := Published(m)], map[0 := m], {}, {}, t, [])
    ensures var m := TheSummary(c.dir, p, q, amount);
      && Enabled(c, s, Submit(v))
      && Stored(After(c, s, Submit(v)), TheRow(p, q, amount), [NR.NewBatch(0)])
      && Elsewhere(After(c, s, Submit(v)), map[v := Waiting(m)], map[0 := m], {m}, {}, t, [])
  {
  }

  /** The one payment of the batch passes the settlement contract. */
  lemma CallSucceeds(c: Config, t: Token, p: AgentId, q: AgentId, amount: nat)
    requires Directory(c.dir) && TokenSane(t, c.self)
    requires p in c.dir && q in c.dir && p != q && amount > 0
    requires amount <= t.BalanceOf(c.dir[p]) && amount <= t.Allowance(c.dir[p], c.self)
    requires c.digest(TheSummary(c.dir, p, q, amount).manifest) != 0
    ensures var m := TheSummary(c.dir, p, q, amount);
      && m.settlement.batchId == 0 && Payable(m.settlement)
      && var r := Settle(c.self, c.settler, {}, t, CallFor(c.settler, c.digest(m.manifest), m.settlement));
      && r.Success?
      && (forall a :: a in c.dir ==>
            r.value.BalanceOf(c.dir[a]) == t.BalanceOf(c.dir[a]) + (if a == q then amount else 0) - (if a == p then amount else 0))
  {
    var xs, m := [TheIntent(c.dir, p, q, amount)], TheSummary(c.dir, p, q, amount);
    OneIntentSummary(c.dir, p, q, amount);
    OneIntentNets(c.dir, p, q, amount);
    PayerCanBear(c.dir, p, q, amount, t, c.self);
    BatchSettles(c.dir, c.self, c.settler, {}, t, c.digest(m.manifest), 0, xs, 0, m);
    hide IsSummary, Settle, CallFor, Net, CanBear, TokenSane, Legs;
  }

  /** The batch settles on the chain. */
  lemma MinedNext(c: Config, s: State, t: Token, p: AgentId, q: AgentId, amount: nat, v: nat)
    requires Directory(c.dir) && TokenSane(t, c.self)
    requires p in c.dir && q in c.dir && p != q && amount > 0
    requires amount <= t.BalanceOf(c.dir[p]) && amount <= t.Allowance(c.dir[p], c.self)
    requires var m := TheSummary(c.dir, p, q, amount);
      && c.digest(m.manifest) != 0
      && Stored(s, TheRow(p, q, amount), [NR.NewBatch(0)])
      && Elsewhere(s, map[v := Waiting(m)], map[0 := m], {m}, {}, t, [])
    ensures var m := TheSummary(c.dir, p, q, amount);
      var s' := After(c, s, Mine(m));
      && Enabled(c, s, Mine(m))
      && Stored(s', TheRow(p, q, amount), [NR.NewBatch(0)])
      && s'.workers == s.workers && s'.executed == [Execution(m, t, s'.token)]
      && (forall a :: a in c.dir ==>
            s'.token.BalanceOf(c.dir[a]) == t.BalanceOf(c.dir[a]) + (if a == q then amount else 0) - (if a == p then amount else 0))
  {
    CallSucceeds(c, t, p, q, amount);
    hide Settle, CallFor, TheSummary, TokenSane;
  }

  lemma ConfirmedNext(c: Config, s: State, m: Summary, v: nat, r: IntentRow, batches: seq<BatchRow>)
    requires Stored(s, r, batches)
    requires s.workers == map[v := Waiting(m)] && |s.executed| == 1 && s.executed[0].summary == m
    ensures Enabled(c, s, Confirm(v))
    ensures var s' := After(c, s, Confirm(v));
      Stored(s', r, batches) && s'.workers == map[v := Confirmed(m)] && s'.executed == s.executed && s'.token == s.token
  {
  }

  // ---- The whole run ----

  /** The payer holds and has approved the amount, and the manifest has a root hash. */
  ghost predicate Ready(c: Config, t: Token, p: AgentId, q: AgentId, amount: nat) {
    && Directory(c.dir) && TokenSane(t, c.self)
    && p in c.dir && q in c.dir && p != q && amount > 0
    && amount <= t.BalanceOf(c.dir[p]) && amount <= t.Allowance(c.dir[p], c.self)
    && c.digest(TheSummary(c.dir, p, q, amount).manifest) != 0
  }

  ghost predicate PublishedAt(c: Config, t: Token, p: AgentId, q: AgentId, amount: nat, v: nat, s: State)
    requires p in c.dir && q in c.dir
  {
    var m := TheSummary(c.dir, p, q, amount);
    && Stored(s, TheRow(p, q, amount), [NR.NewBatch(0)])
    && Elsewhere(s, map[v := Published(m)], map[0 := m], {}, {}, t, [])
  }

  /** The batch is settled on the chain, and about to be journaled. */
  ghost predicate ConfirmedAt(c: Config, t: Token, p: AgentId, q: AgentId, amount: nat, v: nat, s: State)
    requires p in c.dir && q in c.dir
  {
    var m := TheSummary(c.dir, p, q, amount);
    && Stored(s, TheRow(p, q, amount), [NR.NewBatch(0)])
    && s.workers == map[v := Confirmed(m)] && s.executed == [Execution(m, t, s.token)]
    && s.token.BalanceOf(c.dir[p]) == t.BalanceOf(c.dir[p]) - amount
  }

  lemma Publishes(c: Config, t: Token, p: AgentId, q: AgentId, amount: nat, v: nat)
    requires Ready(c, t, p, q, amount)
    ensures var a1 := Other(Backend.CreateIntentStep("k", p, q, amount, 0));
      var a2 := Claim(v, {0}, 0, 0, [TheIntent(c.dir, p, q, amount)]);
      var a3 := Publish(v, TheSummary(c.dir, p, q, amount));
      var s1 := After(c, Initial(t), a1);
      var s2 := After(c, s1, a2);
      && Enabled(c, Initial(t), a1) && Enabled(c, s1, a2) && Enabled(c, s2, a3)
      && PublishedAt(c, t, p, q, amount, v, After(c, s2, a3))
  {
    var s1 := After(c, Initial(t), Other(Backend.CreateIntentStep("k", p, q, amount, 0)));
    var s2 := After(c, s1, Claim(v, {0}, 0, 0, [TheIntent(c.dir, p, q, amount)]));
    hide Enabled, After, TheRow, TheSummary, TheIntent, TokenSane, Stored, Elsewhere, Directory;
    Created(c, t, p, q, amount);
    ClaimedNext(c, s1, t, p, q, amount, v);
    PublishedNext(c, s2, t, p, q, amount, v);
  }

  lemma Settles(c: Config, t: Token, p: AgentId, q: AgentId, amount: nat, v: nat, s: State)
    requires Ready(c, t, p, q, amount) && PublishedAt(c, t, p, q, amount, v, s)
    ensures var m := TheSummary(c.dir, p, q, amount);
      var s1 := After(c, s, Submit(v));
      var s2 := After(c, s1, Mine(m));
      && Enabled(c, s, Submit(v)) && Enabled(c, s1, Mine(m)) && Enabled(c, s2, Confirm(v))
      && ConfirmedAt(c, t, p, q, amount, v, After(c, s2, Confirm(v)))
  {
    var m := TheSummary(c.dir, p, q, amount);
    hide Enabled, After, TheRow, TheSummary, TheIntent, TokenSane, Stored, Directory;
    var s1 := After(c, s, Submit(v));
    var s2 := After(c, s1, Mine(m));
    SubmittedNext(c, s, t, p, q, amount, v);
    MinedNext(c, s1, t, p, q, amount, v);
    ConfirmedNext(c, s2, m, v, TheRow(p, q, amount), [NR.NewBatch(0)]);
  }

  lemma PreludeRuns(c: Config, t: Token, p: AgentId, q: AgentId, amount: nat, v: nat) returns (acts: seq<Action>)
    requires Ready(c, t, p, q, amount)
    ensures IsRun(c, RunOf(c, t, acts), acts) && ConfirmedAt(c, t, p, q, amount, v, LastOf(c, t, acts))
  {
    var m := TheSummary(c.dir, p, q, amount);
    var a1 := Other(Backend.CreateIntentStep("k", p, q, amount, 0));
    var a2, a3 := Claim(v, {0}, 0, 0, [TheIntent(c.dir, p, q, amount)]), Publish(v, m);
    var a4, a5, a6 := Submit(v), Mine(m), Confirm(v);
    StartsReady(c, t, p, q, amount);
    hide *;
    Publishes(c, t, p, q, amount, v);
    GoesOnThrice(c, t, [], a1, a2, a3);
    Settles(c, t, p, q, amount, v, LastOf(c, t, [] + [a1, a2, a3]));
    GoesOnThrice(c, t, [] + [a1, a2, a3], a4, a5, a6);
    acts := [] + [a1, a2, a3] + [a4, a5, a6];
  }

  lemma StartsReady(c: Config, t: Token, p: AgentId, q: AgentId, amount: nat)
    requires Ready(c, t, p, q, amount)
    ensures IsRun(c, RunOf(c, t, []), []) && LastOf(c, t, []) == Initial(t)
  {
    Starts(c, t);
    hide RunOf, IsRun, LastOf;
  }

  lemma AboutToJournal(c: Config, t: Token, p: AgentId, q: AgentId, amount: nat, v: nat, w: nat, s: State)
    requires p in c.dir && q in c.dir && v != w && ConfirmedAt(c, t, p, q, amount, v, s)
    ensures PhaseOf(s, v).Confirmed? && BatchOf(PhaseOf(s, v).summary) == 0 && PhaseOf(s, w) == Idle
    ensures |s.sys.store.batches| == 1 && SettlementKey(0) !in s.sys.store.books.journals
    ensures Enabled(c, s, StartReconcile(w, 1, [0]))
    ensures |s.executed| == 1 && s.token.BalanceOf(c.dir[p]) == t.BalanceOf(c.dir[p]) - amount
  {
  }

  /** Such a run exists for any two agents, any amount that the payer holds and has approved,
      and any two workers: the tokens have moved and the ledger says so, but the batch and
      its intent are marked failed. */
  lemma OverlapReached(c: Config, t: Token, p: AgentId, q: AgentId, amount: nat, v: nat, w: nat) returns (acts: seq<Action>)
    requires Ready(c, t, p, q, amount) && v != w
    ensures IsRun(c, RunOf(c, t, acts), acts)
    ensures var s := LastOf(c, t, acts);
      && !Coherent(s.sys.store, 0)
      && |s.sys.store.batches| == 1 && s.sys.store.batches[0].status == BatchFailed
      && SettlementKey(0) in s.sys.store.books.journals
      && |s.executed| == 1 && s.token.BalanceOf(c.dir[p]) == t.BalanceOf(c.dir[p]) - amount
  {
    var prelude := PreludeRuns(c, t, p, q, amount, v);
    var s := LastOf(c, t, prelude);
    var order := NR.SomeOrder(NR.BatchAgents(s.sys.store.intents, 0));
    var a1, a2, a3 := StartReconcile(w, 1, [0]), ReconcileNext(w, 1, true), MarkSettled(v, order);
    hide RunOf, LastOf, IsRun, Enabled, After, Coherent, ConfirmedAt, TokenSane, NR.BatchAgents;
    AboutToJournal(c, t, p, q, amount, v, w, s);
    OverlapBreaksStates(c, s, v, w, 1, [0], 1, order);
    GoesOnThrice(c, t, prelude, a1, a2, a3);
    acts := prelude + [a1, a2, a3];
    OthersStay(c, s, a1);
    OthersStay(c, After(c, s, a1), a2);
    OthersStay(c, After(c, After(c, s, a1), a2), a3);
  }

  lemma OthersStay(c: Config, s: State, act: Action)
    requires act.StartReconcile? || act.ReconcileNext? || act.MarkSettled?
    ensures After(c, s, act).executed == s.executed && After(c, s, act).token == s.token
    ensures |After(c, s, act).sys.store.batches| == |s.sys.store.batches|
  {
  }
}
