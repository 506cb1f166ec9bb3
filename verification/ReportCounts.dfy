/**
 How many transactions a report counts, and how many it lists: in every run the two differ
 exactly when, within the period, the agent was its own counterparty.
 */
module ReportCounts {
  import opened Wrappers
  import opened Sums
  import opened Identity
  import opened Schema
  import opened Bookkeeping
  import opened JournalKeys
  import opened NettingRepository
  import opened WorkOrders
  import opened Backend
  import opened Accounting
  import PL = ProfitAndLoss
  import Escrow

  // ---- Revenue and expense legs of each journal entry ----

  predicate IsIncome(name: AccountName) {
    TypeOf(name) == Revenue || TypeOf(name) == Expense
  }

  function IncomeEntry(k: JournalKey, a: AgentId): LedgerEntry -> int {
    (e: LedgerEntry) => if e.journal == k && e.account.agent == a && IsIncome(e.account.name) then 1 else 0
  }

  function IncomeLeg(a: AgentId): Posting -> int {
    (p: Posting) => if p.amount > 0 && p.agent == a && IsIncome(p.name) then 1 else 0
  }

  function Is(a: AgentId, b: AgentId): int { if a == b then 1 else 0 }

  /** How many revenue and expense legs of the agent a journal entry has. */
  function IncomeLegs(s: Store, a: AgentId, k: JournalKey): int {
    match k
    case AccrualKey(i) => if i < |s.intents| then Is(s.intents[i].payer, a) + Is(s.intents[i].payee, a) else 0
    case SettlementKey(_) => 0
    case EscrowKey(w, act, _) =>
      if w < |s.orders| && (act == RecordReleased || act == RollbackReleased)
      then Is(s.orders[w].creator, a) + Is(s.orders[w].provider, a) else 0
  }

  ghost predicate CountsOk(s: Store) {
    forall k, a :: Sum(s.books.entries, IncomeEntry(k, a)) == if k in s.books.journals then IncomeLegs(s, a, k) else 0
  }

  lemma {:induction false} LegsEntries(b: Books, journal: JournalKey, ps: seq<Posting>, at: int)
    ensures WriteLegs(b, journal, ps, at).entries == b.entries + EntriesOf(journal, ps, at)
    ensures WriteLegs(b, journal, ps, at).journals == b.journals
  {
    if ps != [] {
      LegsEntries(b, journal, ps[..|ps| - 1], at);
    }
  }

  lemma {:induction false} BlockCounts(journal: JournalKey, ps: seq<Posting>, at: int, k: JournalKey, a: AgentId)
    ensures Sum(EntriesOf(journal, ps, at), IncomeEntry(k, a)) == if k == journal then Sum(ps, IncomeLeg(a)) else 0
  {
    if ps != [] {
      var n := |ps| - 1;
      var p, block := ps[n], EntriesOf(journal, ps[..n], at);
      BlockCounts(journal, ps[..n], at, k, a);
      EntriesSnoc(journal, ps[..n], p, at);
      SumSnoc(ps[..n], p, IncomeLeg(a));
      assert ps == ps[..n] + [p];
      hide Sum, EntriesOf, TypeOf;
      if p.amount > 0 {
        SumSnoc(block, LedgerEntry(PostingKey(p), journal, p.amount, p.side, at), IncomeEntry(k, a));
      } else {
        assert block + [] == block;
      }
    }
  }

  /** A new journal entry counts its own legs, and leaves the others' counts alone. */
  lemma RecordCounts(s: Store, s': Store, key: JournalKey, row: JournalRow, ps: seq<Posting>)
    requires CountsOk(s)
    requires key !in s.books.journals && Some(s'.books) == Record(s.books, key, row, ps)
    requires forall k, a :: k in s.books.journals ==> IncomeLegs(s', a, k) == IncomeLegs(s, a, k)
    requires forall a :: Sum(ps, IncomeLeg(a)) == IncomeLegs(s', a, key)
    ensures CountsOk(s')
  {
    var b0 := s.books.(journals := s.books.journals[key := row]);
    LegsEntries(b0, key, ps, row.createdAt);
    hide WriteLegs, EntriesOf, IncomeLegs, Sum, IncomeEntry, IncomeLeg;
    forall k, a
      ensures Sum(s'.books.entries, IncomeEntry(k, a)) == if k in s'.books.journals then IncomeLegs(s', a, k) else 0
    {
      SumConcat(s.books.entries, EntriesOf(key, ps, row.createdAt), IncomeEntry(k, a));
      BlockCounts(key, ps, row.createdAt, k, a);
    }
  }

  lemma TwoLegs(p: Posting, q: Posting, a: AgentId)
    ensures Sum([p, q], IncomeLeg(a)) == IncomeLeg(a)(p) + IncomeLeg(a)(q)
  {
    SumSnoc([], p, IncomeLeg(a));
    SumSnoc([p], q, IncomeLeg(a));
    assert [] + [p] == [p] && [p] + [q] == [p, q];
  }

  lemma AccrualLegs(payer: AgentId, payee: AgentId, amount: int, a: AgentId)
    requires amount > 0
    ensures Sum(AccrualPostings(payer, payee, amount), IncomeLeg(a)) == Is(payer, a) + Is(payee, a)
  {
    var ps := AccrualPostings(payer, payee, amount);
    assert ps == [ps[0], ps[1]] + [ps[2], ps[3]];
    TwoLegs(ps[0], ps[1], a);
    TwoLegs(ps[2], ps[3], a);
    SumConcat([ps[0], ps[1]], [ps[2], ps[3]], IncomeLeg(a));
  }

  /** Only a release, and taking it back, post revenue and expense. */
  lemma EscrowLegs(act: EscrowAction, payer: AgentId, payee: AgentId, amount: int, a: AgentId)
    requires amount > 0
    ensures Sum(EscrowPostings(act, payer, payee, amount), IncomeLeg(a)) ==
      if act == RecordReleased || act == RollbackReleased then Is(payer, a) + Is(payee, a) else 0
  {
    var ps := EscrowPostings(act, payer, payee, amount);
    TwoLegs(ps[0], ps[1], a);
    if act == RecordReleased || act == RollbackReleased {
      assert ps == [ps[0], ps[1]] + [ps[2], ps[3]];
      TwoLegs(ps[2], ps[3], a);
      SumConcat([ps[0], ps[1]], [ps[2], ps[3]], IncomeLeg(a));
    } else {
      assert ps == [ps[0], ps[1]];
    }
  }

  lemma AgentLegs(agent: AgentId, position: GrossPosition, a: AgentId)
    ensures Sum(AgentPostings(agent, position), IncomeLeg(a)) == 0
  {
    SumZero(AgentPostings(agent, position), IncomeLeg(a));
  }

  lemma {:induction false} SettlementLegs(rows: seq<IntentRow>, b: nat, order: seq<AgentId>, a: AgentId)
    ensures Sum(SettlementPostings(rows, b, order), IncomeLeg(a)) == 0
  {
    if order != [] {
      var n := |order| - 1;
      var position := GrossPosition(Payable(rows, b, order[n]), Receivable(rows, b, order[n]));
      SettlementLegs(rows, b, order[..n], a);
      AgentLegs(order[n], position, a);
      hide AgentPostings;
      SumConcat(SettlementPostings(rows, b, order[..n]), AgentPostings(order[n], position), IncomeLeg(a));
    }
  }

  // ---- Every run ----

  /** Rows that journal entries refer to keep their parties. */
  lemma LegsStay(s: Store, s': Store, k: JournalKey, a: AgentId)
    requires LinksOk(s) && RowsPersist(s, s') && k in s.books.journals
    ensures IncomeLegs(s', a, k) == IncomeLegs(s, a, k)
  {
  }

  lemma NoNewEntry(s: Store, s': Store)
    requires CountsOk(s) && LinksOk(s) && RowsPersist(s, s')
    requires s'.books.entries == s.books.entries && s'.books.journals.Keys == s.books.journals.Keys
    ensures CountsOk(s')
  {
    hide LinksOk, RowsPersist, IncomeLegs, IncomeEntry;
    forall k, a
      ensures Sum(s'.books.entries, IncomeEntry(k, a)) == if k in s'.books.journals then IncomeLegs(s', a, k) else 0
    {
      if k in s.books.journals {
        LegsStay(s, s', k, a);
      }
    }
  }

  lemma CreateIntentCounts(dir: map<AgentId, Address>, s: Store, key: string, payer: AgentId, payee: AgentId, amount: int, at: int)
    requires IntentsOk(dir, s) && CountsOk(s) && LinksOk(s)
    requires RowsPersist(s, Committed(s, CreateIntent(dir, s, key, payer, payee, amount, at)))
    ensures CountsOk(Committed(s, CreateIntent(dir, s, key, payer, payee, amount, at)))
  {
    if CreateIntent(dir, s, key, payer, payee, amount, at).Some? {
      var s' := CreateIntent(dir, s, key, payer, payee, amount, at).value;
      CreateIntentTables(dir, s, key, payer, payee, amount, at);
      hide CreateIntent, Record, AccrualPostings, CountsOk, LinksOk, RowsPersist, IntentsOk;
      forall k, a | k in s.books.journals {
        LegsStay(s, s', k, a);
      }
      forall a {
        AccrualLegs(payer, payee, amount, a);
      }
      RecordCounts(s, s', AccrualKey(|s.intents|), JournalRow(None, Some(|s.intents|), None, at), AccrualPostings(payer, payee, amount));
    }
  }

  lemma MarkSettledCounts(dir: map<AgentId, Address>, s: Store, hash: nat, st: Netting.Settlement, order: seq<AgentId>)
    requires IntentsOk(dir, s) && CountsOk(s) && LinksOk(s)
    requires RowsPersist(s, Committed(s, MarkSettled(s, hash, st, order)))
    ensures CountsOk(Committed(s, MarkSettled(s, hash, st, order)))
  {
    if MarkSettled(s, hash, st, order).Some? {
      var s' := MarkSettled(s, hash, st, order).value;
      MarkSettledTables(dir, s, hash, st, order);
      hide MarkSettled, Record, SettlementPostings, CountsOk, LinksOk, RowsPersist, IntentsOk;
      forall k, a | k in s.books.journals {
        LegsStay(s, s', k, a);
      }
      forall a {
        SettlementLegs(s'.intents, st.batchId, order, a);
      }
      RecordCounts(s, s', SettlementKey(st.batchId), JournalRow(None, None, Some(st.batchId), st.settledAt),
        SettlementPostings(s'.intents, st.batchId, order));
    }
  }

  lemma ApplyCounts(dir: map<AgentId, Address>, s: Store, p: Prepared)
    requires IntentsOk(dir, s) && OrdersOk(dir, s) && CountsOk(s) && LinksOk(s) && Fits(s, p)
    requires RowsPersist(s, ApplyResult(s, p))
    ensures CountsOk(ApplyResult(s, p))
  {
    if Apply(s, p).Applied? {
      var s' := Apply(s, p).store;
      ApplyTables(dir, s, p);
      assert s'.orders[p.workOrder].creator == p.payer && s'.orders[p.workOrder].provider == p.payee;
      hide Apply, Record, EscrowPostings, CountsOk, LinksOk, RowsPersist, IntentsOk, OrdersOk;
      forall k, a | k in s.books.journals {
        LegsStay(s, s', k, a);
      }
      forall a {
        EscrowLegs(p.action, p.payer, p.payee, p.amount, a);
      }
      RecordCounts(s, s', KeyOf(p), JournalRow(Some(p.workOrder), None, None, p.at),
        EscrowPostings(p.action, p.payer, p.payee, p.amount));
    }
  }

  lemma TablesOfInv(dir: map<AgentId, Address>, s: System)
    requires Inv(dir, s)
    ensures IntentsOk(dir, s.store) && OrdersOk(dir, s.store)
  {
    hide IntentsOk, OrdersOk;
  }

  lemma StepKeepsCounts(dir: map<AgentId, Address>, s: System, step: Step)
    requires Inv(dir, s) && Enabled(s, step) && LinksOk(s.store) && CountsOk(s.store)
    ensures CountsOk(After(dir, s, step).store)
  {
    TablesOfInv(dir, s);
    StepPersists(dir, s, step);
    var t := s.store;
    match step {
      case CreateIntentStep(key, payer, payee, amount, at) =>
        hide Inv, CountsOk, LinksOk, RowsPersist, IntentsOk, OrdersOk, CreateIntent;
        CreateIntentCounts(dir, t, key, payer, payee, amount, at);
      case MarkSettledStep(hash, st, order) =>
        hide Inv, CountsOk, LinksOk, RowsPersist, IntentsOk, OrdersOk, MarkSettled;
        MarkSettledCounts(dir, t, hash, st, order);
      case ApplyStep(p) =>
        hide CountsOk, LinksOk, RowsPersist, IntentsOk, OrdersOk, StoreInv, Fits, Apply;
        ApplyCounts(dir, t, p);
      case ClaimStep(ids, windowEnd, at) =>
        hide Inv, CountsOk, LinksOk, RowsPersist, IntentsOk, OrdersOk, Assigned;
        NoNewEntry(t, After(dir, s, step).store);
      case _ =>
        hide Inv, CountsOk, LinksOk, RowsPersist, IntentsOk, OrdersOk, Closed;
        NoNewEntry(t, After(dir, s, step).store);
    }
  }

  lemma {:induction false} RunKeepsCounts(dir: map<AgentId, Address>, trace: seq<System>, steps: seq<Step>, i: nat)
    requires IsRun(dir, trace, steps) && i < |trace|
    ensures CountsOk(trace[i].store)
  {
    if i == 0 {
      hide Enabled, After;
    } else {
      hide *;
      RunKeepsCounts(dir, trace, steps, i - 1);
      RunKeepsInv(dir, trace, steps, i - 1);
      LinksInEveryRun(dir, trace, steps, i - 1);
      RunStep(dir, trace, steps, i);
      StepKeepsCounts(dir, trace[i - 1], steps[i - 1]);
    }
  }

  // ---- The report ----

  function JournalIs(k: JournalKey): PL.Transaction -> int {
    (t: PL.Transaction) => if t.journal == k then 1 else 0
  }

  ghost predicate EntriesKnown(b: Books, entries: seq<LedgerEntry>) {
    forall e :: e in entries ==>
      && e.account in b.accounts && b.accounts[e.account].atype == TypeOf(e.account.name)
      && e.journal in b.journals && e.createdAt == b.journals[e.journal].createdAt
  }

  lemma ReportedEntry(b: Books, a: AgentId, period: Period, e: LedgerEntry, k: JournalKey)
    requires EntriesKnown(b, [e])
    ensures (if PL.Reported(b, a, period, e) then JournalIs(k)(PL.TransactionOf(b, e)) else 0) ==
      if k in b.journals && period.Contains(b.journals[k].createdAt) then IncomeEntry(k, a)(e) else 0
  {
    assert e in [e];
  }

  /** A journal entry is listed with all its legs of the agent, or not at all. */
  lemma {:induction false} ListedOfJournal(b: Books, a: AgentId, period: Period, entries: seq<LedgerEntry>, k: JournalKey)
    requires EntriesKnown(b, entries)
    ensures Sum(PL.Listed(b, a, period, entries), JournalIs(k)) ==
      if k in b.journals && period.Contains(b.journals[k].createdAt) then Sum(entries, IncomeEntry(k, a)) else 0
  {
    if entries != [] {
      var n := |entries| - 1;
      var e, before := entries[n], PL.Listed(b, a, period, entries[..n]);
      assert e in entries && forall x :: x in entries[..n] ==> x in entries;
      ListedOfJournal(b, a, period, entries[..n], k);
      ReportedEntry(b, a, period, e, k);
      hide EntriesKnown, PL.Reported, IncomeEntry, JournalIs;
      if PL.Reported(b, a, period, e) {
        SumSnoc(before, PL.TransactionOf(b, e), JournalIs(k));
      } else {
        assert before + [] == before;
      }
    }
  }

  lemma {:induction false} CountsMembers(ts: seq<PL.Transaction>, k: JournalKey)
    ensures Sum(ts, JournalIs(k)) >= 0
    ensures Sum(ts, JournalIs(k)) == 0 <==> k !in PL.Journals(ts)
  {
    if ts != [] {
      var n := |ts| - 1;
      CountsMembers(ts[..n], k);
      assert PL.Journals(ts) == PL.Journals(ts[..n]) + [ts[n].journal];
    }
  }

  /** No journal is listed twice when none is counted twice. */
  lemma {:induction false} DistinctByCount(ts: seq<PL.Transaction>)
    ensures Distinct(PL.Journals(ts)) <==> forall k :: Sum(ts, JournalIs(k)) <= 1
  {
    if ts != [] {
      var n := |ts| - 1;
      var last := ts[n].journal;
      DistinctByCount(ts[..n]);
      assert PL.Journals(ts) == PL.Journals(ts[..n]) + [last];
      ElementsSnoc(PL.Journals(ts[..n]), last);
      forall k
        ensures Sum(ts, JournalIs(k)) == Sum(ts[..n], JournalIs(k)) + (if k == last then 1 else 0)
        ensures Sum(ts[..n], JournalIs(k)) >= 0
        ensures Sum(ts[..n], JournalIs(k)) == 0 <==> k !in PL.Journals(ts[..n])
      {
        CountsMembers(ts[..n], k);
      }
      assert Sum(ts, JournalIs(last)) == Sum(ts[..n], JournalIs(last)) + 1;
      if forall k :: Sum(ts, JournalIs(k)) <= 1 {
        forall k
          ensures Sum(ts[..n], JournalIs(k)) <= 1
        {
          assert Sum(ts, JournalIs(k)) <= 1;
        }
      }
    }
  }

  /** The agent was on both sides: of an accrued intent, or of an order whose release was
      recorded or taken back. */
  predicate OwnCounterparty(s: Store, a: AgentId, k: JournalKey) {
    match k
    case AccrualKey(i) => i < |s.intents| && s.intents[i].payer == a == s.intents[i].payee
    case SettlementKey(_) => false
    case EscrowKey(w, act, _) =>
      && w < |s.orders| && (act == RecordReleased || act == RollbackReleased)
      && s.orders[w].creator == a == s.orders[w].provider
  }

  lemma LegsOfCounterparty(s: Store, a: AgentId, k: JournalKey)
    ensures 0 <= IncomeLegs(s, a, k) <= 2
    ensures IncomeLegs(s, a, k) == 2 <==> OwnCounterparty(s, a, k)
  {
  }

  lemma ReportedOfJournal(s: Store, a: AgentId, period: Period, r: PL.Report, k: JournalKey)
    requires Sound(s.books) && CountsOk(s)
    requires PL.IsReport(s.books, a, period, r)
    ensures Sum(r.transactions, JournalIs(k)) ==
      if k in s.books.journals && period.Contains(s.books.journals[k].createdAt) then IncomeLegs(s, a, k) else 0
  {
    var b := s.books;
    SumPermuted(r.transactions, PL.Listed(b, a, period, b.entries), JournalIs(k));
    assert EntriesKnown(b, b.entries) by {
      hide JournalsBalance, IncomeBalances, Sum;
    }
    ListedOfJournal(b, a, period, b.entries, k);
    hide Sum, PL.Listed, Sound, IncomeLegs, IncomeEntry;
  }

  lemma BooksOfRun(dir: map<AgentId, Address>, trace: seq<System>, steps: seq<Step>, i: nat)
    requires IsRun(dir, trace, steps) && i < |trace|
    ensures Sound(trace[i].store.books) && CountsOk(trace[i].store)
  {
    RunKeepsInv(dir, trace, steps, i);
    RunKeepsCounts(dir, trace, steps, i);
    hide IsRun, Sound, CountsOk, IntentsOk, OrdersOk, BooksAgree;
  }

  /** In every run, for every agent and period: the reported number of transactions is the
      length of the list if and only if no journal entry of the period is an accrual from
      the agent to itself, or a release, or a release taken back, of an order that it both
      created and provides. Otherwise it is smaller. */
  lemma CountIsLengthIff(dir: map<AgentId, Address>, trace: seq<System>, steps: seq<Step>, i: nat, a: AgentId,
      period: Period, r: PL.Report)
    requires IsRun(dir, trace, steps) && i < |trace|
    requires PL.IsReport(trace[i].store.books, a, period, r)
    ensures r.transactionCount <= |r.transactions|
    ensures var s := trace[i].store;
      r.transactionCount == |r.transactions| <==>
        forall k :: k in s.books.journals && period.Contains(s.books.journals[k].createdAt) ==> !OwnCounterparty(s, a, k)
  {
    var s := trace[i].store;
    BooksOfRun(dir, trace, steps, i);
    CountDistinct(PL.Journals(r.transactions));
    DistinctByCount(r.transactions);
    hide IsRun, Sound, CountsOk, IncomeLegs, Sum, OwnCounterparty;
    forall k
      ensures Sum(r.transactions, JournalIs(k)) <= 1 <==>
        !(k in s.books.journals && period.Contains(s.books.journals[k].createdAt) && OwnCounterparty(s, a, k))
    {
      ReportedOfJournal(s, a, period, r, k);
      LegsOfCounterparty(s, a, k);
    }
  }

  // ---- An order from an agent to itself ----

  /** Uploaded with the same payer and payee, created and released on the chain, and both
      events resolved and applied. */
  function SelfOrder(a: AgentId, wallet: Address, amount: nat, p1: LogPosition, p2: LogPosition): seq<Step> {
    [ CreateOrderStep("k", a, a, amount, 7, 0),
      ResolveStep(SelfCreated(wallet, amount, p1)),
      ApplyStep(SelfPrepared(RecordCreated, a, amount, p1, 1)),
      ResolveStep(SelfReleased(wallet, amount, p2)),
      ApplyStep(SelfPrepared(RecordReleased, a, amount, p2, 2)) ]
  }

  function SelfCreated(wallet: Address, amount: nat, p: LogPosition): Delivery {
    Delivery(Escrow.OrderCreated(0, wallet, wallet, amount, 7), false, p, 1)
  }

  function SelfReleased(wallet: Address, amount: nat, p: LogPosition): Delivery {
    Delivery(Escrow.OrderReleased(0, wallet, amount), false, p, 2)
  }

  function SelfPrepared(act: EscrowAction, a: AgentId, amount: nat, p: LogPosition, at: int): Prepared {
    Prepared(act, 0, a, a, amount, 0, p.txHash, EventId(p, 0), at)
  }

  ghost function RunOf(dir: map<AgentId, Address>, steps: seq<Step>): (trace: seq<System>)
    ensures |trace| == |steps| + 1
  {
    if steps == [] then [System(EmptyStore(), {})]
    else
      var before := RunOf(dir, steps[..|steps| - 1]);
      before + [After(dir, before[|steps| - 1], steps[|steps| - 1])]
  }

  lemma {:induction false} RunOfGrows(dir: map<AgentId, Address>, steps: seq<Step>, step: Step)
    requires IsRun(dir, RunOf(dir, steps), steps)
    requires Enabled(RunOf(dir, steps)[|steps|], step)
    ensures RunOf(dir, steps + [step]) == RunOf(dir, steps) + [After(dir, RunOf(dir, steps)[|steps|], step)]
    ensures IsRun(dir, RunOf(dir, steps + [step]), steps + [step])
  {
    hide Enabled, After;
    assert (steps + [step])[..|steps|] == steps;
  }

  /** The order's row after its creation and release were recorded. */
  lemma SelfOrderApplied(dir: map<AgentId, Address>, s: System, p: Prepared)
    requires Inv(dir, s) && p in s.inflight
    requires |s.store.orders| == 1 && p.workOrder == 0 && s.store.orders[0].status == StatusBefore(p.action)
    requires KeyOf(p) !in s.store.books.journals && p.amount > 0
    requires p.action == RecordCreated ==> !OnchainIdTaken(s.store.orders, 0, p.onchainOrderId)
    ensures var s' := After(dir, s, ApplyStep(p)).store;
      && s'.orders == [Updated(s.store.orders[0], p)]
      && s'.books.journals == s.store.books.journals[KeyOf(p) := JournalRow(Some(0), None, None, p.at)]
  {
    TablesOfInv(dir, s);
    hide Inv, IntentsOk, OrdersOk, Record, EscrowPostings;
    assert Apply(s.store, p).Applied?;
    assert Fits(s.store, p) by {
      FitsInflight(dir, s, p);
    }
    ApplyTables(dir, s.store, p);
  }

  lemma FitsInflight(dir: map<AgentId, Address>, s: System, p: Prepared)
    requires Inv(dir, s) && p in s.inflight
    ensures Fits(s.store, p)
  {
    hide StoreInv;
  }

  ghost function LastOf(dir: map<AgentId, Address>, steps: seq<Step>): System {
    RunOf(dir, steps)[|steps|]
  }

  lemma SelfOrderDrafted(dir: map<AgentId, Address>, a: AgentId, amount: nat)
    requires a in dir && amount > 0
    ensures var steps := [CreateOrderStep("k", a, a, amount, 7, 0)];
      && IsRun(dir, RunOf(dir, steps), steps)
      && LastOf(dir, steps) == System(EmptyStore().(orders := [Draft("k", a, a, amount, 7, 0)]), {})
  {
    var step := CreateOrderStep("k", a, a, amount, 7, 0);
    assert RunOf(dir, []) == [System(EmptyStore(), {})];
    RunOfGrows(dir, [], step);
    assert [] + [step] == [step];
  }

  lemma SelfOrderResolves(dir: map<AgentId, Address>, steps: seq<Step>, d: Delivery, q: Prepared)
    requires IsRun(dir, RunOf(dir, steps), steps) && LastOf(dir, steps).inflight == {}
    requires Resolve(dir, LastOf(dir, steps).store.orders, d) == Some(q)
    ensures var steps' := steps + [ResolveStep(d)];
      IsRun(dir, RunOf(dir, steps'), steps') && LastOf(dir, steps') == System(LastOf(dir, steps).store, {q})
  {
    RunOfGrows(dir, steps, ResolveStep(d));
    hide RunOf, IsRun, Resolve;
  }

  lemma SelfOrderApplies(dir: map<AgentId, Address>, steps: seq<Step>, q: Prepared)
    requires IsRun(dir, RunOf(dir, steps), steps) && LastOf(dir, steps).inflight == {q}
    requires var s := LastOf(dir, steps).store;
      && |s.orders| == 1 && q.workOrder == 0 && s.orders[0].status == StatusBefore(q.action)
      && KeyOf(q) !in s.books.journals && q.amount > 0
      && (q.action == RecordCreated ==> !OnchainIdTaken(s.orders, 0, q.onchainOrderId))
    ensures var steps', s := steps + [ApplyStep(q)], LastOf(dir, steps).store;
      && IsRun(dir, RunOf(dir, steps'), steps')
      && LastOf(dir, steps').inflight == {}
      && LastOf(dir, steps').store.orders == [Updated(s.orders[0], q)]
      && LastOf(dir, steps').store.books.journals == s.books.journals[KeyOf(q) := JournalRow(Some(0), None, None, q.at)]
  {
    RunKeepsInv(dir, RunOf(dir, steps), steps, |steps|);
    SelfOrderApplied(dir, LastOf(dir, steps), q);
    RunOfGrows(dir, steps, ApplyStep(q));
    hide RunOf, IsRun, Inv, Updated, ApplyResult;
  }

  /** What has become of the self order when both events are recorded. */
  lemma SelfOrderRuns(dir: map<AgentId, Address>, a: AgentId, amount: nat, p1: LogPosition, p2: LogPosition)
    requires a in dir && amount > 0
    ensures var steps := SelfOrder(a, dir[a], amount, p1, p2);
      var s := LastOf(dir, steps).store;
      && IsRun(dir, RunOf(dir, steps), steps)
      && |s.orders| == 1 && s.orders[0].creator == a == s.orders[0].provider && s.orders[0].status == OrderCompleted
      && s.books.journals == map[
           EscrowKey(0, RecordCreated, EventId(p1, 0)) := JournalRow(Some(0), None, None, 1),
           EscrowKey(0, RecordReleased, EventId(p2, 0)) := JournalRow(Some(0), None, None, 2)]
  {
    var steps := SelfOrder(a, dir[a], amount, p1, p2);
    var draft := Draft("k", a, a, amount, 7, 0);
    var q1, q2 := SelfPrepared(RecordCreated, a, amount, p1, 1), SelfPrepared(RecordReleased, a, amount, p2, 2);
    SelfOrderDrafted(dir, a, amount);
    hide RunOf, IsRun, LastOf, EventId;
    FindOnly(dir, draft, SelfCreated(dir[a], amount, p1));
    SelfOrderResolves(dir, [steps[0]], SelfCreated(dir[a], amount, p1), q1);
    assert [steps[0]] + [steps[1]] == steps[..2];
    SelfOrderApplies(dir, steps[..2], q1);
    assert steps[..2] + [steps[2]] == steps[..3];
    FindOnly(dir, Updated(draft, q1), SelfReleased(dir[a], amount, p2));
    SelfOrderResolves(dir, steps[..3], SelfReleased(dir[a], amount, p2), q2);
    assert steps[..3] + [steps[3]] == steps[..4];
    SelfOrderApplies(dir, steps[..4], q2);
    assert steps[..4] + [steps[4]] == steps;
  }

  lemma FindOnly(dir: map<AgentId, Address>, o: WorkOrderRow, d: Delivery)
    requires Matches(dir, o, d)
    ensures FindTarget(dir, [o], d) == Some(0)
  {
    assert [o][..0] == [];
  }

  /** Neither the upload nor the contract asks that payer and payee differ. An agent that
      orders from itself and releases gets a report that counts one transaction and lists
      two. */
  lemma SelfOrderCountsOneListsTwo(dir: map<AgentId, Address>, a: AgentId, amount: nat, p1: LogPosition, p2: LogPosition,
      period: Period, r: PL.Report)
    requires a in dir && dir[a] != 0 && amount > 0 && period.Contains(2)
    requires var steps := SelfOrder(a, dir[a], amount, p1, p2);
      PL.IsReport(LastOf(dir, steps).store.books, a, period, r)
    ensures Escrow.ValidLog([SelfCreated(dir[a], amount, p1).event, SelfReleased(dir[a], amount, p2).event])
    ensures var steps := SelfOrder(a, dir[a], amount, p1, p2); IsRun(dir, RunOf(dir, steps), steps)
    ensures r.transactionCount == 1 && |r.transactions| == 2
  {
    var steps := SelfOrder(a, dir[a], amount, p1, p2);
    var s, ts := LastOf(dir, steps).store, r.transactions;
    var released := EscrowKey(0, RecordReleased, EventId(p2, 0));
    SelfOrderRuns(dir, a, amount, p1, p2);
    BooksOfRun(dir, RunOf(dir, steps), steps, |steps|);
    SelfOrderLog(dir[a], amount);
    hide RunOf, IsRun, Sound, CountsOk, Sum, EventId;
    forall k
      ensures Sum(ts, JournalIs(k)) == if k == released then 2 else 0
      ensures k in PL.Journals(ts) <==> k == released
    {
      ReportedOfJournal(s, a, period, r, k);
      CountsMembers(ts, k);
    }
    assert Elements(PL.Journals(ts)) == {released};
    LengthByJournal(ts, released);
  }

  lemma SelfOrderLog(wallet: Address, amount: nat)
    requires wallet != 0 && amount > 0
    ensures Escrow.ValidLog([Escrow.OrderCreated(0, wallet, wallet, amount, 7), Escrow.OrderReleased(0, wallet, amount)])
  {
    var created := Escrow.OrderCreated(0, wallet, wallet, amount, 7);
    var log := [created, Escrow.OrderReleased(0, wallet, amount)];
    assert log[..1] == [created] && [created][..0] == [];
    assert Escrow.Replay([created]) == [Escrow.ChainOrder(wallet, wallet, amount, 7, Escrow.Created)];
  }

  lemma {:induction false} LengthByJournal(ts: seq<PL.Transaction>, k: JournalKey)
    requires forall j :: j in PL.Journals(ts) ==> j == k
    ensures |ts| == Sum(ts, JournalIs(k))
  {
    if ts != [] {
      var n := |ts| - 1;
      assert PL.Journals(ts) == PL.Journals(ts[..n]) + [ts[n].journal];
      assert forall j :: j in PL.Journals(ts[..n]) ==> j in PL.Journals(ts);
      assert PL.Journals(ts)[n] in PL.Journals(ts);
      LengthByJournal(ts[..n], k);
    }
  }
}
