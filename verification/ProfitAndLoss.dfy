/**
 The profit and loss report: grouped totals and a list of transactions, read from one
 snapshot of the ledger, for one agent and one period.
 */
module ProfitAndLoss {
  import opened Wrappers
  import opened Sums
  import opened Sorting
  import opened Identity
  import opened Schema
  import opened Bookkeeping

  datatype SummaryRow = SummaryRow(atype: AccountType, account: AccountName, amount: int, entryCount: nat)

  datatype AccountSummary = AccountSummary(account: AccountName, amount: int, entryCount: nat)

  datatype Transaction = Transaction(journal: JournalKey, account: AccountName, atype: AccountType, side: Side, amount: int, occurredAt: int)

  datatype AccountTotals = AccountTotals(revenue: seq<AccountSummary>, expenses: seq<AccountSummary>, totalRevenue: int, totalExpenses: int)

  datatype Report = Report(totals: AccountTotals, netIncome: int, transactionCount: nat, transactions: seq<Transaction>)

  // ---- The queries ----

  /** The filter shared by all queries: the agent's revenue and expense, within the period. */
  predicate Reported(b: Books, a: AgentId, period: Period, e: LedgerEntry) {
    && e.account in b.accounts
    && e.account.agent == a
    && (b.accounts[e.account].atype == Revenue || b.accounts[e.account].atype == Expense)
    && period.Contains(e.createdAt)
  }

  /** Revenue counts credits less debits, expense debits less credits. */
  function SignedAmount(atype: AccountType, side: Side, amount: int): int {
    match atype
    case Revenue => if side.Credit? then amount else -amount
    case Expense => if side.Debit? then amount else -amount
    case _ => 0
  }

  function InGroup(b: Books, a: AgentId, period: Period, atype: AccountType): LedgerEntry -> int {
    (e: LedgerEntry) =>
      if Reported(b, a, period, e) && b.accounts[e.account].atype == atype then SignedAmount(atype, e.side, e.amount) else 0
  }

  function InGroupCount(b: Books, a: AgentId, period: Period, atype: AccountType): LedgerEntry -> int {
    (e: LedgerEntry) => if Reported(b, a, period, e) && b.accounts[e.account].atype == atype then 1 else 0
  }

  function NameOf(e: LedgerEntry): AccountName { e.account.name }

  function GroupAmount(b: Books, a: AgentId, period: Period, atype: AccountType, name: AccountName): int {
    Sum(b.entries, Keyed(NameOf, InGroup(b, a, period, atype), name))
  }

  function GroupCount(b: Books, a: AgentId, period: Period, atype: AccountType, name: AccountName): int {
    Sum(b.entries, Keyed(NameOf, InGroupCount(b, a, period, atype), name))
  }

  const NAMES: seq<AccountName> := [Cash, EscrowLocked, EscrowPending, NettingPayable, NettingReceivable, ServiceExpense, ServiceRevenue]

  /** `GROUP BY type, name`: a row for each group that has an entry. */
  function RowsOfType(b: Books, a: AgentId, period: Period, atype: AccountType,
      names: seq<AccountName>): seq<SummaryRow> {
    if names == [] then []
    else
      var name := names[|names| - 1];
      var count := GroupCount(b, a, period, atype, name);
      RowsOfType(b, a, period, atype, names[..|names| - 1])
        + if count > 0 then [SummaryRow(atype, name, GroupAmount(b, a, period, atype, name), count)] else []
  }

  function SummaryRows(b: Books, a: AgentId, period: Period): seq<SummaryRow> {
    RowsOfType(b, a, period, Expense, NAMES) + RowsOfType(b, a, period, Revenue, NAMES)
  }

  function TransactionOf(b: Books, e: LedgerEntry): Transaction
    requires e.account in b.accounts
  {
    var atype := b.accounts[e.account].atype;
    Transaction(e.journal, e.account.name, atype, e.side, SignedAmount(atype, e.side, e.amount), e.createdAt)
  }

  /** The listed entries, before they are put in order. */
  function Listed(b: Books, a: AgentId, period: Period, entries: seq<LedgerEntry>): seq<Transaction> {
    if entries == [] then []
    else
      var e := entries[|entries| - 1];
      Listed(b, a, period, entries[..|entries| - 1]) + if Reported(b, a, period, e) then [TransactionOf(b, e)] else []
  }

  function Journals(ts: seq<Transaction>): seq<JournalKey> {
    seq(|ts|, i requires 0 <= i < |ts| => ts[i].journal)
  }

  /** `COUNT(DISTINCT journal_entry_id)` over the same filter. */
  function CountedJournals(b: Books, a: AgentId, period: Period): set<JournalKey> {
    Elements(Journals(Listed(b, a, period, b.entries)))
  }

  function RowAmount(r: SummaryRow): int { r.amount }
  function RowCount(r: SummaryRow): int { r.entryCount }
  function SummaryAmount(s: AccountSummary): int { s.amount }
  function SummaryCount(s: AccountSummary): int { s.entryCount }

  function AmountOfType(atype: AccountType): Transaction -> int {
    (t: Transaction) => if t.atype == atype then t.amount else 0
  }

  function CountOfType(atype: AccountType): Transaction -> int {
    (t: Transaction) => if t.atype == atype then 1 else 0
  }

  function OccurredLast(t: Transaction): int { -t.occurredAt }

  // ---- The three readings agree ----

  lemma ListedSnoc(b: Books, a: AgentId, period: Period, entries: seq<LedgerEntry>, e: LedgerEntry)
    ensures Listed(b, a, period, entries + [e]) ==
      Listed(b, a, period, entries) + if Reported(b, a, period, e) then [TransactionOf(b, e)] else []
  {
    assert (entries + [e])[..|entries|] == entries;
  }

  /** The listed transactions of one type add up to the entries that the filter selects. */
  lemma {:induction false} ListedTotals(b: Books, a: AgentId, period: Period, entries: seq<LedgerEntry>,
      atype: AccountType)
    requires atype == Revenue || atype == Expense
    ensures Sum(Listed(b, a, period, entries), AmountOfType(atype)) == Sum(entries, InGroup(b, a, period, atype))
    ensures Sum(Listed(b, a, period, entries), CountOfType(atype)) == Sum(entries, InGroupCount(b, a, period, atype))
  {
    if entries != [] {
      var n := |entries| - 1;
      ListedTotals(b, a, period, entries[..n], atype);
      var before := Listed(b, a, period, entries[..n]);
      if Reported(b, a, period, entries[n]) {
        SumSnoc(before, TransactionOf(b, entries[n]), AmountOfType(atype));
        SumSnoc(before, TransactionOf(b, entries[n]), CountOfType(atype));
      } else {
        assert before + [] == before;
      }
    }
  }

  lemma {:induction false} ListedTypes(b: Books, a: AgentId, period: Period, entries: seq<LedgerEntry>)
    ensures var ts := Listed(b, a, period, entries);
      |ts| == Sum(ts, CountOfType(Revenue)) + Sum(ts, CountOfType(Expense))
  {
    if entries != [] {
      var n := |entries| - 1;
      ListedTypes(b, a, period, entries[..n]);
      var before := Listed(b, a, period, entries[..n]);
      if Reported(b, a, period, entries[n]) {
        SumSnoc(before, TransactionOf(b, entries[n]), CountOfType(Revenue));
        SumSnoc(before, TransactionOf(b, entries[n]), CountOfType(Expense));
      } else {
        assert before + [] == before;
      }
    }
  }

  /** A group without entries has no amount either. */
  lemma {:induction false} EmptyGroup(b: Books, a: AgentId, period: Period, atype: AccountType, name: AccountName,
      entries: seq<LedgerEntry>)
    ensures var count := Sum(entries, Keyed(NameOf, InGroupCount(b, a, period, atype), name));
      count >= 0 && (count == 0 ==> Sum(entries, Keyed(NameOf, InGroup(b, a, period, atype), name)) == 0)
  {
    if entries != [] {
      var e := entries[|entries| - 1];
      EmptyGroup(b, a, period, atype, name, entries[..|entries| - 1]);
      assert Keyed(NameOf, InGroup(b, a, period, atype), name)(e) == if NameOf(e) == name then InGroup(b, a, period, atype)(e) else 0;
      assert Keyed(NameOf, InGroupCount(b, a, period, atype), name)(e) == if NameOf(e) == name then InGroupCount(b, a, period, atype)(e) else 0;
    }
  }

  lemma {:induction false} RowsTotals(b: Books, a: AgentId, period: Period, atype: AccountType, names: seq<AccountName>)
    ensures var rows := RowsOfType(b, a, period, atype, names);
      && Sum(rows, RowAmount) == Sum(names, (name: AccountName) => GroupAmount(b, a, period, atype, name))
      && Sum(rows, RowCount) == Sum(names, (name: AccountName) => GroupCount(b, a, period, atype, name))
      && forall r :: r in rows ==> r.atype == atype && r.entryCount > 0
  {
    if names != [] {
      var n := |names| - 1;
      var name := names[n];
      RowsTotals(b, a, period, atype, names[..n]);
      EmptyGroup(b, a, period, atype, name, b.entries);
      var before := RowsOfType(b, a, period, atype, names[..n]);
      if GroupCount(b, a, period, atype, name) > 0 {
        SumSnoc(before, SummaryRow(atype, name, GroupAmount(b, a, period, atype, name), GroupCount(b, a, period,
            atype, name)), RowAmount);
        SumSnoc(before, SummaryRow(atype, name, GroupAmount(b, a, period, atype, name), GroupCount(b, a, period,
            atype, name)), RowCount);
      } else {
        assert before + [] == before;
      }
    }
  }

  lemma AllNames(name: AccountName)
    ensures name in Elements(NAMES) && Distinct(NAMES)
  {
    assert NAMES[0] == Cash && NAMES[1] == EscrowLocked && NAMES[2] == EscrowPending && NAMES[3] == NettingPayable
        && NAMES[4] == NettingReceivable && NAMES[5] == ServiceExpense && NAMES[6] == ServiceRevenue;
  }

  /** The groups of a type partition its entries. */
  lemma GroupsTotal(b: Books, a: AgentId, period: Period, atype: AccountType)
    ensures Sum(RowsOfType(b, a, period, atype, NAMES), RowAmount) == Sum(b.entries, InGroup(b, a, period, atype))
    ensures Sum(RowsOfType(b, a, period, atype, NAMES), RowCount) == Sum(b.entries, InGroupCount(b, a, period, atype))
  {
    var amounts := (name: AccountName) => GroupAmount(b, a, period, atype, name);
    var counts := (name: AccountName) => GroupCount(b, a, period, atype, name);
    RowsTotals(b, a, period, atype, NAMES);
    forall name
      ensures name in Elements(NAMES) && Distinct(NAMES)
    {
      AllNames(name);
    }
    AllNames(Cash);
    SumDistinct(NAMES, amounts);
    SumDistinct(NAMES, counts);
    SumByKey(Elements(NAMES), b.entries, NameOf, InGroup(b, a, period, atype));
    SumByKey(Elements(NAMES), b.entries, NameOf, InGroupCount(b, a, period, atype));
    SumSetAgree(Elements(NAMES), amounts, Totals(b.entries, NameOf, InGroup(b, a, period, atype)));
    SumSetAgree(Elements(NAMES), counts, Totals(b.entries, NameOf, InGroupCount(b, a, period, atype)));
  }

  /** The rows of one type, as the report lists them. */
  function Summaries(rows: seq<SummaryRow>, atype: AccountType): seq<AccountSummary> {
    if rows == [] then []
    else
      var row := rows[|rows| - 1];
      Summaries(rows[..|rows| - 1], atype)
        + if row.atype == atype then [AccountSummary(row.account, row.amount, row.entryCount)] else []
  }

  lemma {:induction false} SummariesSums(rows: seq<SummaryRow>, rowType: AccountType, atype: AccountType)
    requires forall r :: r in rows ==> r.atype == rowType
    ensures Sum(Summaries(rows, atype), SummaryAmount) == if rowType == atype then Sum(rows, RowAmount) else 0
    ensures Sum(Summaries(rows, atype), SummaryCount) == if rowType == atype then Sum(rows, RowCount) else 0
  {
    if rows != [] {
      var n := |rows| - 1;
      assert rows[n] in rows && forall r :: r in rows[..n] ==> r in rows;
      SummariesSums(rows[..n], rowType, atype);
      var before, summary := Summaries(rows[..n], atype), AccountSummary(rows[n].account, rows[n].amount, rows[n].entryCount);
      if rowType == atype {
        SumSnoc(before, summary, SummaryAmount);
        SumSnoc(before, summary, SummaryCount);
      } else {
        assert before + [] == before;
      }
    }
  }

  lemma {:induction false} SummariesConcat(xs: seq<SummaryRow>, ys: seq<SummaryRow>, atype: AccountType)
    ensures Summaries(xs + ys, atype) == Summaries(xs, atype) + Summaries(ys, atype)
  {
    if ys == [] {
      assert xs + ys == xs;
    } else {
      SummariesConcat(xs, ys[..|ys| - 1], atype);
      assert (xs + ys)[..|xs + ys| - 1] == xs + ys[..|ys| - 1];
    }
  }

  lemma SummariesTotal(b: Books, a: AgentId, period: Period)
    ensures var rows := SummaryRows(b, a, period);
      && (forall r :: r in rows ==> r.atype == Revenue || r.atype == Expense)
      && forall atype :: atype == Revenue || atype == Expense ==>
           && Sum(Summaries(rows, atype), SummaryAmount) == Sum(b.entries, InGroup(b, a, period, atype))
           && Sum(Summaries(rows, atype), SummaryCount) == Sum(b.entries, InGroupCount(b, a, period, atype))
  {
    var expenses, revenue := RowsOfType(b, a, period, Expense, NAMES), RowsOfType(b, a, period, Revenue, NAMES);
    RowsTotals(b, a, period, Expense, NAMES);
    RowsTotals(b, a, period, Revenue, NAMES);
    forall atype | atype == Revenue || atype == Expense
      ensures Sum(Summaries(expenses + revenue, atype), SummaryAmount) == Sum(b.entries, InGroup(b, a, period, atype))
      ensures Sum(Summaries(expenses + revenue, atype), SummaryCount) == Sum(b.entries, InGroupCount(b, a, period, atype))
    {
      GroupsTotal(b, a, period, atype);
      SummariesSums(expenses, Expense, atype);
      SummariesSums(revenue, Revenue, atype);
      SummariesConcat(expenses, revenue, atype);
      SumConcat(Summaries(expenses, atype), Summaries(revenue, atype), SummaryAmount);
      SumConcat(Summaries(expenses, atype), Summaries(revenue, atype), SummaryCount);
    }
  }

  // ---- What a report says ----

  /** A report of the snapshot: its sections are the grouped rows, its totals are those of its
      own transaction list, and its entry counts add up to the list's length. */
  ghost predicate IsReport(b: Books, a: AgentId, period: Period, r: Report) {
    && multiset(r.transactions) == multiset(Listed(b, a, period, b.entries))
    && SortedBy(r.transactions, OccurredLast)
    && r.totals.revenue == Summaries(SummaryRows(b, a, period), Revenue)
    && r.totals.expenses == Summaries(SummaryRows(b, a, period), Expense)
    && r.totals.totalRevenue == Sum(r.transactions, AmountOfType(Revenue)) == Sum(r.totals.revenue, SummaryAmount)
    && r.totals.totalExpenses == Sum(r.transactions, AmountOfType(Expense)) == Sum(r.totals.expenses, SummaryAmount)
    && r.netIncome == r.totals.totalRevenue - r.totals.totalExpenses
    && Sum(r.totals.revenue, SummaryCount) + Sum(r.totals.expenses, SummaryCount) == |r.transactions|
    && r.transactionCount == |Elements(Journals(r.transactions))|
  }

  lemma ReportTotals(b: Books, a: AgentId, period: Period, r: Report)
    requires IsReport(b, a, period, r)
    ensures r.totals.totalRevenue == Sum(b.entries, InGroup(b, a, period, Revenue))
    ensures r.totals.totalExpenses == Sum(b.entries, InGroup(b, a, period, Expense))
    ensures r.netIncome == r.totals.totalRevenue - r.totals.totalExpenses
  {
    ListedTotals(b, a, period, b.entries, Revenue);
    ListedTotals(b, a, period, b.entries, Expense);
    SumPermuted(r.transactions, Listed(b, a, period, b.entries), AmountOfType(Revenue));
    SumPermuted(r.transactions, Listed(b, a, period, b.entries), AmountOfType(Expense));
  }

  /** With no start and an end after every entry, the totals are the cached balances of the
      two service accounts. */
  lemma AllTimeIsBalance(b: Books, a: AgentId, to: int, r: Report)
    requires Sound(b) && IsReport(b, a, Period(None, to), r)
    requires forall e :: e in b.entries ==> e.createdAt < to
    ensures r.totals.totalRevenue == BalanceOf(b, AccountKey(a, ServiceRevenue))
    ensures r.totals.totalExpenses == BalanceOf(b, AccountKey(a, ServiceExpense))
  {
    var period := Period(None, to);
    ReportTotals(b, a, period, r);
    forall i | 0 <= i < |b.entries|
      ensures InGroup(b, a, period, Revenue)(b.entries[i]) == Keyed(EntryAccount, EntryDelta, AccountKey(a, ServiceRevenue))(b.entries[i])
      ensures InGroup(b, a, period, Expense)(b.entries[i]) == Keyed(EntryAccount, EntryDelta, AccountKey(a, ServiceExpense))(b.entries[i])
    {
      var e := b.entries[i];
      assert e in b.entries && b.accounts[e.account].atype == TypeOf(e.account.name);
      assert EntryAccount(e) == e.account && EntryDelta(e) == AccountBalanceDelta(TypeOf(e.account.name), e.side, e.amount);
    }
    SumAgree(b.entries, InGroup(b, a, period, Revenue), b.entries, Keyed(EntryAccount, EntryDelta, AccountKey(a,
        ServiceRevenue)));
    SumAgree(b.entries, InGroup(b, a, period, Expense), b.entries, Keyed(EntryAccount, EntryDelta, AccountKey(a,
        ServiceExpense)));
  }

  /** Adjacent periods add up to the whole. */
  lemma PeriodsAdd(b: Books, a: AgentId, from: Option<int>, mid: int, to: int, first: Report, second: Report,
      whole: Report)
    requires (from.Some? ==> from.value <= mid) && mid <= to
    requires IsReport(b, a, Period(from, mid), first)
    requires IsReport(b, a, Period(Some(mid), to), second)
    requires IsReport(b, a, Period(from, to), whole)
    ensures whole.totals.totalRevenue == first.totals.totalRevenue + second.totals.totalRevenue
    ensures whole.totals.totalExpenses == first.totals.totalExpenses + second.totals.totalExpenses
    ensures whole.netIncome == first.netIncome + second.netIncome
  {
    hide IsReport;
    ReportTotals(b, a, Period(from, mid), first);
    ReportTotals(b, a, Period(Some(mid), to), second);
    ReportTotals(b, a, Period(from, to), whole);
    SumSplit(b.entries, InGroup(b, a, Period(from, to), Revenue), b.entries, InGroup(b, a, Period(from, mid), Revenue),
             b.entries, InGroup(b, a, Period(Some(mid), to), Revenue));
    SumSplit(b.entries, InGroup(b, a, Period(from, to), Expense), b.entries, InGroup(b, a, Period(from, mid), Expense),
             b.entries, InGroup(b, a, Period(Some(mid), to), Expense));
  }

  // ---- Over all agents ----

  function EntryAgent(e: LedgerEntry): AgentId { e.account.agent }

  function NetIncome(b: Books, period: Period): AgentId -> int {
    (a: AgentId) => Sum(b.entries, InGroup(b, a, period, Revenue)) - Sum(b.entries, InGroup(b, a, period, Expense))
  }

  lemma NetIncomeOfAgent(b: Books, a: AgentId, period: Period)
    requires Sound(b)
    ensures NetIncome(b, period)(a) == Totals(b.entries, EntryAgent, EntryIncomeIn(period))(a)
  {
    forall i | 0 <= i < |b.entries|
      ensures InGroup(b, a, period, Revenue)(b.entries[i]) ==
        Keyed(EntryAgent, EntryIncomeIn(period), a)(b.entries[i]) + InGroup(b, a, period, Expense)(b.entries[i])
    {
      var e := b.entries[i];
      assert e in b.entries && b.accounts[e.account].atype == TypeOf(e.account.name);
      assert EntryAgent(e) == e.account.agent && EntryDelta(e) == AccountBalanceDelta(TypeOf(e.account.name), e.side, e.amount);
    }
    SumSplit(b.entries, InGroup(b, a, period, Revenue), b.entries, Keyed(EntryAgent, EntryIncomeIn(period), a),
             b.entries, InGroup(b, a, period, Expense));
  }

  /** Over any period, the net incomes of all agents sum to zero; agents without an account
      can be left out. */
  lemma NetIncomesCancel(b: Books, agents: set<AgentId>, period: Period)
    requires Sound(b)
    requires forall key :: key in b.accounts ==> key.agent in agents
    ensures SumSet(agents, NetIncome(b, period)) == 0
  {
    forall a | a in agents
      ensures NetIncome(b, period)(a) == Totals(b.entries, EntryAgent, EntryIncomeIn(period))(a)
    {
      NetIncomeOfAgent(b, a, period);
    }
    SumSetAgree(agents, NetIncome(b, period), Totals(b.entries, EntryAgent, EntryIncomeIn(period)));
    forall i | 0 <= i < |b.entries|
      ensures EntryAgent(b.entries[i]) in agents
    {
      assert b.entries[i] in b.entries;
    }
    SumByKey(agents, b.entries, EntryAgent, EntryIncomeIn(period));
  }

  lemma NetIncomeIsReported(b: Books, a: AgentId, period: Period, r: Report)
    requires IsReport(b, a, period, r)
    ensures r.netIncome == NetIncome(b, period)(a)
  {
    ReportTotals(b, a, period, r);
  }

  // ---- The repository ----

  class PnLRepository {
    const db: Database

    constructor (db: Database)
      ensures this.db == db
    {
      this.db := db;
    }

    /** The loop over the grouped rows, which refuses any other type. */
    method TallyRows(rows: seq<SummaryRow>) returns (r: Result<AccountTotals, string>)
      ensures r.Success? <==> forall row :: row in rows ==> row.atype == Revenue || row.atype == Expense
      ensures r.Success? ==>
        && r.value.revenue == Summaries(rows, Revenue) && r.value.totalRevenue == Sum(r.value.revenue, SummaryAmount)
        && r.value.expenses == Summaries(rows, Expense) && r.value.totalExpenses == Sum(r.value.expenses, SummaryAmount)
    {
      var revenue: seq<AccountSummary>, expenses: seq<AccountSummary> := [], [];
      var totalRevenue, totalExpenses := 0, 0;
      for i := 0 to |rows|
        invariant forall k :: 0 <= k < i ==> rows[k].atype == Revenue || rows[k].atype == Expense
        invariant revenue == Summaries(rows[..i], Revenue) && totalRevenue == Sum(revenue, SummaryAmount)
        invariant expenses == Summaries(rows[..i], Expense) && totalExpenses == Sum(expenses, SummaryAmount)
      {
        var row := rows[i];
        assert rows[..i + 1][..i] == rows[..i];
        var summary := AccountSummary(row.account, row.amount, row.entryCount);
        if row.atype == Revenue {
          SumSnoc(revenue, summary, SummaryAmount);
          revenue := revenue + [summary];
          totalRevenue := totalRevenue + row.amount;
        } else if row.atype == Expense {
          SumSnoc(expenses, summary, SummaryAmount);
          expenses := expenses + [summary];
          totalExpenses := totalExpenses + row.amount;
        } else {
          assert row in rows;
          return Failure("unexpected pnl account type");
        }
      }
      assert rows[..|rows|] == rows;
      return Success(AccountTotals(revenue, expenses, totalRevenue, totalExpenses));
    }

    method FetchAccountSummaries(a: AgentId, period: Period) returns (r: Result<AccountTotals, string>)
      ensures r.Success?
      ensures r.value.revenue == Summaries(SummaryRows(db.Ledger(), a, period), Revenue)
      ensures r.value.expenses == Summaries(SummaryRows(db.Ledger(), a, period), Expense)
      ensures r.value.totalRevenue == Sum(r.value.revenue, SummaryAmount) == Sum(db.entries, InGroup(db.Ledger(), a, period, Revenue))
      ensures r.value.totalExpenses == Sum(r.value.expenses, SummaryAmount) == Sum(db.entries, InGroup(db.Ledger(), a, period, Expense))
      ensures Sum(r.value.revenue, SummaryCount) == Sum(db.entries, InGroupCount(db.Ledger(), a, period, Revenue))
      ensures Sum(r.value.expenses, SummaryCount) == Sum(db.entries, InGroupCount(db.Ledger(), a, period, Expense))
    {
      var b := Books(db.accounts, db.journals, db.entries);
      SummariesTotal(b, a, period);
      var rows := SummaryRows(b, a, period);
      r := TallyRows(rows);
    }

    /** The list, newest first. */
    method FetchTransactions(a: AgentId, period: Period) returns (transactions: seq<Transaction>)
      ensures multiset(transactions) == multiset(Listed(db.Ledger(), a, period, db.entries))
      ensures SortedBy(transactions, OccurredLast)
    {
      var b := Books(db.accounts, db.journals, db.entries);
      var found: seq<Transaction> := [];
      for i := 0 to |db.entries|
        invariant found == Listed(b, a, period, db.entries[..i])
      {
        assert db.entries[..i + 1] == db.entries[..i] + [db.entries[i]];
        ListedSnoc(b, a, period, db.entries[..i], db.entries[i]);
        if Reported(b, a, period, db.entries[i]) {
          found := found + [TransactionOf(b, db.entries[i])];
        }
      }
      assert db.entries[..|db.entries|] == db.entries;
      transactions := SortBy(found, OccurredLast);
    }

    method GetPnL(a: AgentId, period: Period) returns (r: Result<Report, string>)
      ensures r.Success? && IsReport(db.Ledger(), a, period, r.value)
    {
      var totals := FetchAccountSummaries(a, period);
      var b := Books(db.accounts, db.journals, db.entries);
      var transactionCount := |CountedJournals(b, a, period)|;
      var transactions := FetchTransactions(a, period);
      ghost var listed := Listed(b, a, period, b.entries);
      ListedTotals(b, a, period, b.entries, Revenue);
      ListedTotals(b, a, period, b.entries, Expense);
      ListedTypes(b, a, period, b.entries);
      SumPermuted(transactions, listed, AmountOfType(Revenue));
      SumPermuted(transactions, listed, AmountOfType(Expense));
      SameJournals(transactions, listed);
      assert |multiset(transactions)| == |transactions| && |multiset(listed)| == |listed|;
      r := Success(Report(totals.value, totals.value.totalRevenue - totals.value.totalExpenses, transactionCount, transactions));
    }
  }

  lemma SameJournals(ts: seq<Transaction>, us: seq<Transaction>)
    requires multiset(ts) == multiset(us)
    ensures Elements(Journals(ts)) == Elements(Journals(us))
  {
    assert forall t :: t in ts <==> t in multiset(ts);
    assert forall t :: t in us <==> t in multiset(us);
    forall j
      ensures j in Journals(ts) <==> j in Journals(us)
    {
      if j in Journals(ts) {
        var i :| 0 <= i < |ts| && Journals(ts)[i] == j;
        assert ts[i] in us;
        var k :| 0 <= k < |us| && us[k] == ts[i];
        assert Journals(us)[k] == j;
      }
      if j in Journals(us) {
        var k :| 0 <= k < |us| && Journals(us)[k] == j;
        assert us[k] in ts;
        var i :| 0 <= i < |ts| && ts[i] == us[k];
        assert Journals(ts)[i] == j;
      }
    }
  }
}
