/**
 What a report shows, line by line, read off the ledger entries alone: the list of
 transactions and the two sections, in every run.
 */
module ReportLines {
  import opened Wrappers
  import opened Sums
  import opened Sorting
  import opened Identity
  import opened Schema
  import opened Bookkeeping
  import opened Backend
  import ReportTotals
  import PL = ProfitAndLoss

  /** The entry is the agent's, of one of its two service accounts, not before the start of
      the period and before its end. */
  predicate Theirs(a: AgentId, from: Option<int>, to: int, e: LedgerEntry) {
    && e.account.agent == a
    && (e.account.name == ServiceRevenue || e.account.name == ServiceExpense)
    && (from == None || from.value <= e.createdAt) && e.createdAt < to
  }

  /** Credits count for revenue, debits for expense; the other side counts against it. */
  function Signed(name: AccountName, side: Side, amount: int): int {
    if (name == ServiceRevenue && side == Credit) || (name == ServiceExpense && side == Debit) then amount else -amount
  }

  datatype Line = Line(journal: JournalKey, name: AccountName, side: Side, amount: int, at: int)

  function EntryLine(a: AgentId, from: Option<int>, to: int, l: Line): LedgerEntry -> int {
    (e: LedgerEntry) => if Theirs(a, from, to, e) && l == Line(e.journal, e.account.name, e.side, e.amount, e.createdAt) then 1 else 0
  }

  /** The transaction shows the line, under the type of its account and with its sign. */
  function ShownLine(l: Line): PL.Transaction -> int {
    (t: PL.Transaction) =>
      if && t.journal == l.journal && t.account == l.name && t.side == l.side && t.occurredAt == l.at
         && t.amount == Signed(l.name, l.side, l.amount)
         && t.atype == if l.name == ServiceRevenue then Revenue else Expense
      then 1 else 0
  }

  function EntryOf(a: AgentId, from: Option<int>, to: int, name: AccountName): LedgerEntry -> int {
    (e: LedgerEntry) => if Theirs(a, from, to, e) && e.account.name == name then 1 else 0
  }

  function ValueOf(a: AgentId, from: Option<int>, to: int, name: AccountName): LedgerEntry -> int {
    (e: LedgerEntry) => if Theirs(a, from, to, e) && e.account.name == name then Signed(name, e.side, e.amount) else 0
  }

  function AnyLine(t: PL.Transaction): int { 1 }

  function AnyEntry(a: AgentId, from: Option<int>, to: int): LedgerEntry -> int {
    (e: LedgerEntry) => if Theirs(a, from, to, e) then 1 else 0
  }

  ghost predicate Typed(b: Books, entries: seq<LedgerEntry>) {
    forall e :: e in entries ==> e.account in b.accounts && b.accounts[e.account].atype == TypeOf(e.account.name)
  }

  lemma TypedOfSound(b: Books)
    requires Sound(b)
    ensures Typed(b, b.entries)
  {
    hide JournalsBalance, IncomeBalances, Sum;
  }

  lemma OneLine(b: Books, a: AgentId, from: Option<int>, to: int, e: LedgerEntry, l: Line)
    requires Typed(b, [e])
    ensures PL.Reported(b, a, Period(from, to), e) <==> Theirs(a, from, to, e)
    ensures Theirs(a, from, to, e) ==> ShownLine(l)(PL.TransactionOf(b, e)) == EntryLine(a, from, to, l)(e)
  {
    assert e in [e];
  }

  lemma {:induction false} ListedLines(b: Books, a: AgentId, from: Option<int>, to: int, entries: seq<LedgerEntry>, l: Line)
    requires Typed(b, entries)
    ensures Sum(PL.Listed(b, a, Period(from, to), entries), ShownLine(l)) == Sum(entries, EntryLine(a, from, to, l))
    ensures |PL.Listed(b, a, Period(from, to), entries)| == Sum(entries, AnyEntry(a, from, to))
  {
    if entries != [] {
      var n := |entries| - 1;
      var e, before := entries[n], PL.Listed(b, a, Period(from, to), entries[..n]);
      assert e in entries && forall x :: x in entries[..n] ==> x in entries;
      ListedLines(b, a, from, to, entries[..n], l);
      OneLine(b, a, from, to, e, l);
      hide Typed, PL.Reported, ShownLine;
      if Theirs(a, from, to, e) {
        SumSnoc(before, PL.TransactionOf(b, e), ShownLine(l));
      } else {
        assert before + [] == before;
      }
    }
  }

  lemma {:induction false} ListedSigns(b: Books, a: AgentId, period: Period, entries: seq<LedgerEntry>)
    requires Typed(b, entries) && forall e :: e in entries ==> e.amount > 0
    ensures forall t :: t in PL.Listed(b, a, period, entries) ==>
      (t.amount > 0 <==> (t.account == ServiceRevenue && t.side == Credit) || (t.account == ServiceExpense && t.side == Debit))
  {
    if entries != [] {
      var n := |entries| - 1;
      assert entries[n] in entries && forall x :: x in entries[..n] ==> x in entries;
      ListedSigns(b, a, period, entries[..n]);
    }
  }

  /** In every run, for every agent and period: a line is in the list exactly as often as in
      the agent's service accounts within the period, with its journal, account, side, amount
      and time; nothing else is listed; amounts are positive exactly for revenue credits and
      expense debits; and nothing comes after something older. */
  lemma ListInEveryRun(dir: map<AgentId, Address>, trace: seq<System>, steps: seq<Step>, i: nat, a: AgentId,
      from: Option<int>, to: int, r: PL.Report, l: Line)
    requires IsRun(dir, trace, steps) && i < |trace|
    requires PL.IsReport(trace[i].store.books, a, Period(from, to), r)
    ensures Sum(r.transactions, ShownLine(l)) == Sum(trace[i].store.books.entries, EntryLine(a, from, to, l))
    ensures |r.transactions| == Sum(trace[i].store.books.entries, AnyEntry(a, from, to))
    ensures forall t :: t in r.transactions ==>
      (t.amount > 0 <==> (t.account == ServiceRevenue && t.side == Credit) || (t.account == ServiceExpense && t.side == Debit))
    ensures forall j, k :: 0 <= j < k < |r.transactions| ==> r.transactions[j].occurredAt >= r.transactions[k].occurredAt
  {
    var b := trace[i].store.books;
    var listed := PL.Listed(b, a, Period(from, to), b.entries);
    ReportTotals.AccountsInEveryRun(dir, trace, steps, i);
    TypedOfSound(b);
    ListedLines(b, a, from, to, b.entries, l);
    SumPermuted(r.transactions, listed, ShownLine(l));
    assert |multiset(r.transactions)| == |r.transactions| && |multiset(listed)| == |listed|;
    PositiveAmounts(b);
    ListedSigns(b, a, Period(from, to), b.entries);
    hide IsRun, Sound, Sum, PL.Listed, Typed;
    assert forall t :: t in r.transactions ==> t in multiset(r.transactions);
    assert forall t :: t in multiset(listed) ==> t in listed;
    assert forall j, k :: 0 <= j < k < |r.transactions| ==> PL.OccurredLast(r.transactions[j]) <= PL.OccurredLast(r.transactions[k]);
  }

  lemma PositiveAmounts(b: Books)
    requires Sound(b)
    ensures forall e :: e in b.entries ==> e.amount > 0
  {
    hide JournalsBalance, IncomeBalances, Sum;
  }

  // ---- The two sections ----

  lemma {:induction false} OneGroup(b: Books, a: AgentId, period: Period, atype: AccountType, names: seq<AccountName>, name: AccountName)
    requires Distinct(names)
    requires forall other :: other in names && other != name ==> PL.GroupCount(b, a, period, atype, other) == 0
    ensures PL.RowsOfType(b, a, period, atype, names) ==
      if name in names && PL.GroupCount(b, a, period, atype, name) > 0
      then [PL.SummaryRow(atype, name, PL.GroupAmount(b, a, period, atype, name), PL.GroupCount(b, a, period, atype, name))] else []
  {
    hide PL.GroupCount, PL.GroupAmount;
    if names != [] {
      var n := |names| - 1;
      assert names[n] in names && forall x :: x in names[..n] ==> x in names;
      assert forall x :: x in names ==> x in names[..n] || x == names[n];
      OneGroup(b, a, period, atype, names[..n], name);
    }
  }

  lemma GroupOfSound(b: Books, a: AgentId, from: Option<int>, to: int, atype: AccountType, name: AccountName)
    requires Typed(b, b.entries) && (atype == Revenue || atype == Expense)
    ensures var home := if atype == Revenue then ServiceRevenue else ServiceExpense;
      && PL.GroupCount(b, a, Period(from, to), atype, name) == (if name == home then Sum(b.entries, EntryOf(a, from, to, home)) else 0)
      && PL.GroupAmount(b, a, Period(from, to), atype, name) == (if name == home then Sum(b.entries, ValueOf(a, from, to, home)) else 0)
  {
    var home := if atype == Revenue then ServiceRevenue else ServiceExpense;
    var period := Period(from, to);
    forall k | 0 <= k < |b.entries|
      ensures Keyed(PL.NameOf, PL.InGroupCount(b, a, period, atype), name)(b.entries[k]) ==
        if name == home then EntryOf(a, from, to, home)(b.entries[k]) else 0
      ensures Keyed(PL.NameOf, PL.InGroup(b, a, period, atype), name)(b.entries[k]) ==
        if name == home then ValueOf(a, from, to, home)(b.entries[k]) else 0
    {
      OneEntry(b, a, from, to, b.entries[k], atype, name);
    }
    if name == home {
      SumAgree(b.entries, Keyed(PL.NameOf, PL.InGroupCount(b, a, period, atype), name), b.entries, EntryOf(a, from, to, home));
      SumAgree(b.entries, Keyed(PL.NameOf, PL.InGroup(b, a, period, atype), name), b.entries, ValueOf(a, from, to, home));
    } else {
      SumZero(b.entries, Keyed(PL.NameOf, PL.InGroupCount(b, a, period, atype), name));
      SumZero(b.entries, Keyed(PL.NameOf, PL.InGroup(b, a, period, atype), name));
    }
  }

  lemma OneEntry(b: Books, a: AgentId, from: Option<int>, to: int, e: LedgerEntry, atype: AccountType, name: AccountName)
    requires Typed(b, b.entries) && e in b.entries && (atype == Revenue || atype == Expense)
    ensures var home := if atype == Revenue then ServiceRevenue else ServiceExpense;
      && Keyed(PL.NameOf, PL.InGroupCount(b, a, Period(from, to), atype), name)(e) == (if name == home then EntryOf(a, from, to, home)(e) else 0)
      && Keyed(PL.NameOf, PL.InGroup(b, a, Period(from, to), atype), name)(e) == (if name == home then ValueOf(a, from, to, home)(e) else 0)
  {
    assert PL.NameOf(e) == e.account.name;
  }

  lemma RowsOfSound(b: Books, a: AgentId, from: Option<int>, to: int, atype: AccountType)
    requires Typed(b, b.entries) && (atype == Revenue || atype == Expense)
    ensures var home := if atype == Revenue then ServiceRevenue else ServiceExpense;
      var count := PL.GroupCount(b, a, Period(from, to), atype, home);
      PL.RowsOfType(b, a, Period(from, to), atype, PL.NAMES) ==
        if count > 0 then [PL.SummaryRow(atype, home, PL.GroupAmount(b, a, Period(from, to), atype, home), count)] else []
  {
    var home := if atype == Revenue then ServiceRevenue else ServiceExpense;
    PL.AllNames(home);
    hide PL.GroupCount, PL.GroupAmount, PL.RowsOfType;
    forall name | name in PL.NAMES && name != home
      ensures PL.GroupCount(b, a, Period(from, to), atype, name) == 0
    {
      GroupOfSound(b, a, from, to, atype, name);
    }
    OneGroup(b, a, Period(from, to), atype, PL.NAMES, home);
  }

  /** One line for the account if it has entries in the period, with what they add up to and
      their number; no line otherwise. */
  function Section(entries: seq<LedgerEntry>, a: AgentId, from: Option<int>, to: int, name: AccountName): seq<PL.AccountSummary> {
    var count := Sum(entries, EntryOf(a, from, to, name));
    if count > 0 then [PL.AccountSummary(name, Sum(entries, ValueOf(a, from, to, name)), count)] else []
  }

  lemma OneSection(b: Books, a: AgentId, from: Option<int>, to: int)
    requires Typed(b, b.entries)
    ensures var rows := PL.SummaryRows(b, a, Period(from, to));
      && PL.Summaries(rows, Revenue) == Section(b.entries, a, from, to, ServiceRevenue)
      && PL.Summaries(rows, Expense) == Section(b.entries, a, from, to, ServiceExpense)
  {
    var expenses := PL.RowsOfType(b, a, Period(from, to), Expense, PL.NAMES);
    var revenue := PL.RowsOfType(b, a, Period(from, to), Revenue, PL.NAMES);
    RowsOfSound(b, a, from, to, Expense);
    RowsOfSound(b, a, from, to, Revenue);
    GroupOfSound(b, a, from, to, Revenue, ServiceRevenue);
    GroupOfSound(b, a, from, to, Expense, ServiceExpense);
    PL.SummariesConcat(expenses, revenue, Revenue);
    PL.SummariesConcat(expenses, revenue, Expense);
    hide PL.GroupCount, PL.GroupAmount, PL.RowsOfType, Sum;
  }

  lemma TotalsOfEntries(b: Books, a: AgentId, from: Option<int>, to: int, r: PL.Report)
    requires Typed(b, b.entries) && PL.IsReport(b, a, Period(from, to), r)
    ensures r.totals.totalRevenue == Sum(b.entries, ValueOf(a, from, to, ServiceRevenue))
    ensures r.totals.totalExpenses == Sum(b.entries, ValueOf(a, from, to, ServiceExpense))
  {
    hide PL.IsReport;
    PL.ReportTotals(b, a, Period(from, to), r);
    forall k | 0 <= k < |b.entries|
      ensures PL.InGroup(b, a, Period(from, to), Revenue)(b.entries[k]) == ValueOf(a, from, to, ServiceRevenue)(b.entries[k])
      ensures PL.InGroup(b, a, Period(from, to), Expense)(b.entries[k]) == ValueOf(a, from, to, ServiceExpense)(b.entries[k])
    {
      assert b.entries[k] in b.entries;
    }
    SumAgree(b.entries, PL.InGroup(b, a, Period(from, to), Revenue), b.entries, ValueOf(a, from, to, ServiceRevenue));
    SumAgree(b.entries, PL.InGroup(b, a, Period(from, to), Expense), b.entries, ValueOf(a, from, to, ServiceExpense));
  }

  /** In every run a section of a report has at most one line: the agent's service account,
      if it has entries in the period, with their number and what they add up to. */
  lemma SectionsInEveryRun(dir: map<AgentId, Address>, trace: seq<System>, steps: seq<Step>, i: nat, a: AgentId,
      from: Option<int>, to: int, r: PL.Report)
    requires IsRun(dir, trace, steps) && i < |trace|
    requires PL.IsReport(trace[i].store.books, a, Period(from, to), r)
    ensures var es := trace[i].store.books.entries;
      && r.totals.revenue == Section(es, a, from, to, ServiceRevenue)
      && r.totals.expenses == Section(es, a, from, to, ServiceExpense)
      && r.totals.totalRevenue == Sum(es, ValueOf(a, from, to, ServiceRevenue))
      && r.totals.totalExpenses == Sum(es, ValueOf(a, from, to, ServiceExpense))
      && r.netIncome == r.totals.totalRevenue - r.totals.totalExpenses
  {
    var b := trace[i].store.books;
    ReportTotals.AccountsInEveryRun(dir, trace, steps, i);
    TypedOfSound(b);
    hide IsRun, Sound, Sum, Typed;
    OneSection(b, a, from, to);
    TotalsOfEntries(b, a, from, to, r);
    hide Section, PL.Listed, PL.SummaryRows, PL.Summaries;
  }
}
