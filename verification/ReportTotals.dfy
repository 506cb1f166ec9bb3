/**
 What reports say in every run: all-time totals are the cached balances, and the net incomes
 of the registered agents cancel, because no one else ever has an account.
 */
module ReportTotals {
  import opened Wrappers
  import opened Sums
  import opened Identity
  import opened Schema
  import opened Bookkeeping
  import opened NettingRepository
  import opened WorkOrders
  import opened Backend
  import opened Accounting
  import Netting
  import PL = ProfitAndLoss

  // ---- Accounts belong to registered agents ----

  ghost predicate AccountsKnown(dir: map<AgentId, Address>, b: Books) {
    forall key :: key in b.accounts ==> key.agent in dir
  }

  ghost predicate LegsKnown(dir: map<AgentId, Address>, ps: seq<Posting>) {
    forall p :: p in ps ==> p.agent in dir
  }

  lemma {:induction false} LegsKeepKnown(dir: map<AgentId, Address>, b: Books, journal: JournalKey, ps: seq<Posting>, at: int)
    requires AccountsKnown(dir, b) && LegsKnown(dir, ps)
    ensures AccountsKnown(dir, WriteLegs(b, journal, ps, at))
  {
    if ps != [] {
      var n := |ps| - 1;
      assert ps[n] in ps && forall p :: p in ps[..n] ==> p in ps;
      LegsKeepKnown(dir, b, journal, ps[..n], at);
    }
  }

  lemma RecordKeepsKnown(dir: map<AgentId, Address>, b: Books, journal: JournalKey, row: JournalRow, ps: seq<Posting>)
    requires AccountsKnown(dir, b) && LegsKnown(dir, ps)
    ensures Record(b, journal, row, ps).Some? ==> AccountsKnown(dir, Record(b, journal, row, ps).value)
  {
    LegsKeepKnown(dir, b.(journals := b.journals[journal := row]), journal, ps, row.createdAt);
  }

  lemma {:induction false} BatchAgentsKnown(dir: map<AgentId, Address>, rows: seq<IntentRow>, b: nat)
    requires forall i :: 0 <= i < |rows| ==> rows[i].payer in dir && rows[i].payee in dir
    ensures forall a :: a in BatchAgents(rows, b) ==> a in dir
  {
    if rows != [] {
      BatchAgentsKnown(dir, rows[..|rows| - 1], b);
    }
  }

  lemma {:induction false} SettlementLegsKnown(dir: map<AgentId, Address>, rows: seq<IntentRow>, b: nat, order: seq<AgentId>)
    requires forall a :: a in order ==> a in dir
    ensures LegsKnown(dir, SettlementPostings(rows, b, order))
  {
    if order != [] {
      var n := |order| - 1;
      assert order[n] in order && forall a :: a in order[..n] ==> a in order;
      SettlementLegsKnown(dir, rows, b, order[..n]);
    }
  }

  lemma SettledKeepsKnown(dir: map<AgentId, Address>, s: Store, hash: nat, st: Netting.Settlement, order: seq<AgentId>)
    requires IntentsOk(dir, s) && AccountsKnown(dir, s.books)
    requires Enumerates(order, BatchAgents(s.intents, st.batchId))
    ensures AccountsKnown(dir, Committed(s, MarkSettled(s, hash, st, order)).books)
  {
    if MarkSettled(s, hash, st, order).Some? {
      var s' := MarkSettled(s, hash, st, order).value;
      MarkSettledTables(dir, s, hash, st, order);
      BatchAgentsKnown(dir, s.intents, st.batchId);
      hide MarkSettled, IntentsOk, Record, AccountsKnown, LegsKnown, SettlementPostings, BatchAgents;
      forall a | a in order
        ensures a in dir
      {
        assert a in Elements(order);
      }
      SettlementLegsKnown(dir, s'.intents, st.batchId, order);
      RecordKeepsKnown(dir, s.books, SettlementKey(st.batchId), JournalRow(None, None, Some(st.batchId), st.settledAt),
        SettlementPostings(s'.intents, st.batchId, order));
    }
  }

  lemma AppliedKeepsKnown(dir: map<AgentId, Address>, s: Store, p: Prepared)
    requires IntentsOk(dir, s) && OrdersOk(dir, s) && Fits(s, p) && AccountsKnown(dir, s.books)
    ensures AccountsKnown(dir, ApplyResult(s, p).books)
  {
    if Apply(s, p).Applied? {
      ApplyTables(dir, s, p);
      hide Apply, Record;
      RecordKeepsKnown(dir, s.books, KeyOf(p), JournalRow(Some(p.workOrder), None, None, p.at),
        EscrowPostings(p.action, p.payer, p.payee, p.amount));
    }
  }

  lemma Tables(dir: map<AgentId, Address>, s: System)
    requires Inv(dir, s)
    ensures IntentsOk(dir, s.store) && OrdersOk(dir, s.store) && Sound(s.store.books)
    ensures forall p :: p in s.inflight ==> Fits(s.store, p)
  {
    hide IntentsOk, OrdersOk, Sound, Fits;
  }

  lemma StepKeepsKnown(dir: map<AgentId, Address>, s: System, step: Step)
    requires Inv(dir, s) && Enabled(s, step) && AccountsKnown(dir, s.store.books)
    ensures AccountsKnown(dir, After(dir, s, step).store.books)
  {
    var t := s.store;
    Tables(dir, s);
    hide Inv, IntentsOk, OrdersOk, Sound, AccountsKnown;
    match step {
      case CreateIntentStep(key, payer, payee, amount, at) =>
        if CreateIntent(dir, t, key, payer, payee, amount, at).Some? {
          RecordKeepsKnown(dir, t.books, AccrualKey(|t.intents|), JournalRow(None, Some(|t.intents|), None, at),
            AccrualPostings(payer, payee, amount));
        }
      case MarkSettledStep(hash, st, order) => SettledKeepsKnown(dir, t, hash, st, order);
      case ApplyStep(p) => AppliedKeepsKnown(dir, t, p);
      case _ =>
    }
  }

  /** In every run only registered agents have accounts. */
  lemma {:induction false} AccountsInEveryRun(dir: map<AgentId, Address>, trace: seq<System>, steps: seq<Step>, i: nat)
    requires IsRun(dir, trace, steps) && i < |trace|
    ensures AccountsKnown(dir, trace[i].store.books) && Sound(trace[i].store.books)
  {
    RunKeepsInv(dir, trace, steps, i);
    Tables(dir, trace[i]);
    if i == 0 {
      hide Enabled, After, Inv, Sound;
    } else {
      hide *;
      AccountsInEveryRun(dir, trace, steps, i - 1);
      RunKeepsInv(dir, trace, steps, i - 1);
      RunStep(dir, trace, steps, i);
      StepKeepsKnown(dir, trace[i - 1], steps[i - 1]);
    }
  }

  // ---- Reports in every run ----

  /** In every run, for every agent: with no start, and an end after every entry, a report's
      totals are the cached balances of the agent's two service accounts, and these are its
      completed work orders and all its payment intents. */
  lemma AllTimeInEveryRun(dir: map<AgentId, Address>, trace: seq<System>, steps: seq<Step>, i: nat, a: AgentId, to: int,
      r: PL.Report)
    requires IsRun(dir, trace, steps) && i < |trace|
    requires PL.IsReport(trace[i].store.books, a, Period(None, to), r)
    requires forall e :: e in trace[i].store.books.entries ==> e.createdAt < to
    ensures var s := trace[i].store;
      && r.totals.totalRevenue == BalanceOf(s.books, AccountKey(a, ServiceRevenue))
        == ProvidedOrders(s, a, OrderCompleted) + AccruedReceipts(s, a)
      && r.totals.totalExpenses == BalanceOf(s.books, AccountKey(a, ServiceExpense))
        == CreatedOrders(s, a, OrderCompleted) + AccruedPayments(s, a)
  {
    AccountsInEveryRun(dir, trace, steps, i);
    EscrowInEveryRun(dir, trace, steps, i, a);
    hide IsRun, Sound;
    PL.AllTimeIsBalance(trace[i].store.books, a, to, r);
  }

  /** In every run, over any period, the net incomes of the registered agents sum to zero. */
  lemma NetIncomesCancelInEveryRun(dir: map<AgentId, Address>, trace: seq<System>, steps: seq<Step>, i: nat, period: Period)
    requires IsRun(dir, trace, steps) && i < |trace|
    ensures SumSet(dir.Keys, PL.NetIncome(trace[i].store.books, period)) == 0
  {
    AccountsInEveryRun(dir, trace, steps, i);
    hide IsRun, Sound;
    PL.NetIncomesCancel(trace[i].store.books, dir.Keys, period);
  }
}
