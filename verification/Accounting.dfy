/** What the invariant of every run says about each agent's accounts. */
module Accounting {
  import opened Wrappers
  import opened Sums
  import opened Identity
  import opened Schema
  import opened Bookkeeping
  import opened NettingRepository
  import opened WorkOrders
  import opened Backend

  // ---- Each account, by what it stands for ----

  function OpenPaid(journals: map<JournalKey, JournalRow>, a: AgentId): IntentRow -> int {
    (r: IntentRow) => if r.payer == a && !Journaled(journals, r) then r.amount else 0
  }

  function OpenReceived(journals: map<JournalKey, JournalRow>, a: AgentId): IntentRow -> int {
    (r: IntentRow) => if r.payee == a && !Journaled(journals, r) then r.amount else 0
  }

  function InStatus(status: OrderStatus): WorkOrderRow -> int {
    (o: WorkOrderRow) => if o.status == status then o.amount else 0
  }

  function Creator(o: WorkOrderRow): AgentId { o.creator }
  function Provider(o: WorkOrderRow): AgentId { o.provider }
  function RowAmount(r: IntentRow): int { r.amount }

  function CreatedOrders(s: Store, a: AgentId, status: OrderStatus): int { Sum(s.orders, Keyed(Creator,
      InStatus(status), a)) }
  function ProvidedOrders(s: Store, a: AgentId, status: OrderStatus): int { Sum(s.orders, Keyed(Provider,
      InStatus(status), a)) }
  function AccruedPayments(s: Store, a: AgentId): int { Sum(s.intents, Keyed(RowPayer, RowAmount, a)) }
  function AccruedReceipts(s: Store, a: AgentId): int { Sum(s.intents, Keyed(RowPayee, RowAmount, a)) }

  /** In every run, whatever the interleaving, crashes and reconciles: an agent's netting
      payable and receivable are the intents it pays and is paid by whose batch has no
      settlement journal. */
  lemma NettingAccounts(dir: map<AgentId, Address>, trace: seq<System>, steps: seq<Step>, i: nat, a: AgentId)
    requires IsRun(dir, trace, steps) && i < |trace|
    ensures var s := trace[i].store;
      && BalanceOf(s.books, AccountKey(a, NettingPayable)) == Sum(s.intents, OpenPaid(s.books.journals, a))
      && BalanceOf(s.books, AccountKey(a, NettingReceivable)) == Sum(s.intents, OpenReceived(s.books.journals, a))
  {
    RunKeepsInv(dir, trace, steps, i);
    var s := trace[i].store;
    var payable, receivable := AccountKey(a, NettingPayable), AccountKey(a, NettingReceivable);
    assert BalanceOf(s.books, payable) == Expected(s, payable);
    assert BalanceOf(s.books, receivable) == Expected(s, receivable);
    SumAgree(s.intents, OpenPaid(s.books.journals, a), s.intents, IntentWeight(s.books.journals, payable));
    SumAgree(s.intents, OpenReceived(s.books.journals, a), s.intents, IntentWeight(s.books.journals, receivable));
    SumZero(s.orders, OrderWeight(payable));
    SumZero(s.orders, OrderWeight(receivable));
  }

  /** Locked and pending funds are the funded orders; service expense and revenue are the
      completed orders together with all accrued intents. */
  lemma EscrowAndServiceAccounts(s: Store, a: AgentId)
    requires BooksAgree(s)
    ensures BalanceOf(s.books, AccountKey(a, EscrowLocked)) == CreatedOrders(s, a, OrderFunded)
    ensures BalanceOf(s.books, AccountKey(a, EscrowPending)) == ProvidedOrders(s, a, OrderFunded)
    ensures BalanceOf(s.books, AccountKey(a, ServiceExpense)) == CreatedOrders(s, a, OrderCompleted) + AccruedPayments(s, a)
    ensures BalanceOf(s.books, AccountKey(a, ServiceRevenue)) == ProvidedOrders(s, a, OrderCompleted) + AccruedReceipts(s, a)
  {
    hide Sum;
    var js := s.books.journals;
    var locked, pending := AccountKey(a, EscrowLocked), AccountKey(a, EscrowPending);
    var expense, revenue := AccountKey(a, ServiceExpense), AccountKey(a, ServiceRevenue);
    assert BalanceOf(s.books, locked) == Expected(s, locked) && BalanceOf(s.books, pending) == Expected(s, pending);
    assert BalanceOf(s.books, expense) == Expected(s, expense) && BalanceOf(s.books, revenue) == Expected(s, revenue);
    SumZero(s.intents, IntentWeight(js, locked));
    SumZero(s.intents, IntentWeight(js, pending));
    OrderColumns(s.orders, a);
    forall i | 0 <= i < |s.intents|
      ensures IntentWeight(js, expense)(s.intents[i]) == Keyed(RowPayer, RowAmount, a)(s.intents[i])
      ensures IntentWeight(js, revenue)(s.intents[i]) == Keyed(RowPayee, RowAmount, a)(s.intents[i])
    {
      assert RowPayer(s.intents[i]) == s.intents[i].payer && RowPayee(s.intents[i]) == s.intents[i].payee;
      assert RowAmount(s.intents[i]) == s.intents[i].amount;
    }
    SumAgree(s.intents, IntentWeight(js, expense), s.intents, Keyed(RowPayer, RowAmount, a));
    SumAgree(s.intents, IntentWeight(js, revenue), s.intents, Keyed(RowPayee, RowAmount, a));
  }

  lemma OrderColumns(orders: seq<WorkOrderRow>, a: AgentId)
    ensures Sum(orders, OrderWeight(AccountKey(a, EscrowLocked))) == Sum(orders, Keyed(Creator, InStatus(OrderFunded), a))
    ensures Sum(orders, OrderWeight(AccountKey(a, EscrowPending))) == Sum(orders, Keyed(Provider, InStatus(OrderFunded), a))
    ensures Sum(orders, OrderWeight(AccountKey(a, ServiceExpense))) == Sum(orders, Keyed(Creator, InStatus(OrderCompleted), a))
    ensures Sum(orders, OrderWeight(AccountKey(a, ServiceRevenue))) == Sum(orders, Keyed(Provider, InStatus(OrderCompleted), a))
  {
    forall i | 0 <= i < |orders|
      ensures forall status ::
        Keyed(Creator, InStatus(status), a)(orders[i]) == if orders[i].creator == a then InStatus(status)(orders[i]) else 0
      ensures forall status ::
        Keyed(Provider, InStatus(status), a)(orders[i]) == if orders[i].provider == a then InStatus(status)(orders[i]) else 0
    {
      assert Creator(orders[i]) == orders[i].creator && Provider(orders[i]) == orders[i].provider;
    }
    SumAgree(orders, OrderWeight(AccountKey(a, EscrowLocked)), orders, Keyed(Creator, InStatus(OrderFunded), a));
    SumAgree(orders, OrderWeight(AccountKey(a, EscrowPending)), orders, Keyed(Provider, InStatus(OrderFunded), a));
    SumAgree(orders, OrderWeight(AccountKey(a, ServiceExpense)), orders, Keyed(Creator, InStatus(OrderCompleted), a));
    SumAgree(orders, OrderWeight(AccountKey(a, ServiceRevenue)), orders, Keyed(Provider, InStatus(OrderCompleted), a));
  }

  // ---- The accounting equation ----

  /** Assets and expenses, less liabilities and revenue. */
  function NetDebit(b: Books, a: AgentId): int {
    BalanceOf(b, AccountKey(a, Cash)) + BalanceOf(b, AccountKey(a, NettingReceivable)) + BalanceOf(b, AccountKey(a, EscrowLocked))
    + BalanceOf(b, AccountKey(a, ServiceExpense))
    - BalanceOf(b, AccountKey(a, NettingPayable)) - BalanceOf(b, AccountKey(a, EscrowPending)) - BalanceOf(b, AccountKey(a, ServiceRevenue))
  }

  function Binding(o: WorkOrderRow): int {
    if o.status == OrderFunded || o.status == OrderCompleted then o.amount else 0
  }

  function NetCreated(s: Store): AgentId -> int {
    (a: AgentId) => Sum(s.orders, Keyed(Creator, Binding, a)) - Sum(s.orders, Keyed(Provider, Binding, a))
  }

  /** Netting contributes nothing to the equation of any agent. */
  lemma NettingNeutral(js: map<JournalKey, JournalRow>, rows: seq<IntentRow>, a: AgentId)
    ensures
      Sum(rows, IntentWeight(js, AccountKey(a, Cash))) + Sum(rows, IntentWeight(js, AccountKey(a, NettingReceivable)))
      + Sum(rows, IntentWeight(js, AccountKey(a, ServiceExpense)))
      == Sum(rows, IntentWeight(js, AccountKey(a, NettingPayable))) + Sum(rows, IntentWeight(js, AccountKey(a, ServiceRevenue)))
  {
    var left := (r: IntentRow) => IntentWeight(js, AccountKey(a, Cash))(r) + IntentWeight(js, AccountKey(a, NettingReceivable))(r);
    var right := (r: IntentRow) => IntentWeight(js, AccountKey(a, NettingPayable))(r) + IntentWeight(js, AccountKey(a, ServiceRevenue))(r);
    SumSplit(rows, left, rows, IntentWeight(js, AccountKey(a, Cash)), rows, IntentWeight(js, AccountKey(a,
        NettingReceivable)));
    SumSplit(rows, right, rows, IntentWeight(js, AccountKey(a, NettingPayable)), rows, IntentWeight(js, AccountKey(a,
        ServiceRevenue)));
    SumSplit(rows, right, rows, left, rows, IntentWeight(js, AccountKey(a, ServiceExpense)));
  }

  lemma BindingSplits(orders: seq<WorkOrderRow>, a: AgentId)
    ensures Sum(orders, Keyed(Creator, Binding, a)) ==
      Sum(orders, OrderWeight(AccountKey(a, EscrowLocked))) + Sum(orders, OrderWeight(AccountKey(a, ServiceExpense)))
    ensures Sum(orders, Keyed(Provider, Binding, a)) ==
      Sum(orders, OrderWeight(AccountKey(a, EscrowPending))) + Sum(orders, OrderWeight(AccountKey(a, ServiceRevenue)))
  {
    forall i | 0 <= i < |orders|
      ensures Keyed(Creator, Binding, a)(orders[i]) ==
        OrderWeight(AccountKey(a, EscrowLocked))(orders[i]) + OrderWeight(AccountKey(a, ServiceExpense))(orders[i])
      ensures Keyed(Provider, Binding, a)(orders[i]) ==
        OrderWeight(AccountKey(a, EscrowPending))(orders[i]) + OrderWeight(AccountKey(a, ServiceRevenue))(orders[i])
    {
      assert Creator(orders[i]) == orders[i].creator && Provider(orders[i]) == orders[i].provider;
      assert Binding(orders[i]) == if orders[i].status == OrderFunded || orders[i].status == OrderCompleted then orders[i].amount else 0;
    }
    SumSplit(orders, Keyed(Creator, Binding, a), orders, OrderWeight(AccountKey(a, EscrowLocked)), orders,
        OrderWeight(AccountKey(a, ServiceExpense)));
    SumSplit(orders, Keyed(Provider, Binding, a), orders, OrderWeight(AccountKey(a, EscrowPending)), orders,
        OrderWeight(AccountKey(a, ServiceRevenue)));
  }

  /** Each agent's books are out of balance by exactly the orders it created, less those it
      provides, that are funded or completed. */
  lemma AccountingEquation(s: Store, a: AgentId)
    requires BooksAgree(s)
    ensures NetDebit(s.books, a) == NetCreated(s)(a)
  {
    forall name
      ensures BalanceOf(s.books, AccountKey(a, name)) ==
        Sum(s.intents, IntentWeight(s.books.journals, AccountKey(a, name))) + Sum(s.orders, OrderWeight(AccountKey(a, name)))
    {
      assert BalanceOf(s.books, AccountKey(a, name)) == Expected(s, AccountKey(a, name));
    }
    NettingNeutral(s.books.journals, s.intents, a);
    BindingSplits(s.orders, a);
    SumZero(s.orders, OrderWeight(AccountKey(a, Cash)));
    SumZero(s.orders, OrderWeight(AccountKey(a, NettingReceivable)));
    SumZero(s.orders, OrderWeight(AccountKey(a, NettingPayable)));
    SumZero(s.intents, IntentWeight(s.books.journals, AccountKey(a, EscrowLocked)));
    SumZero(s.intents, IntentWeight(s.books.journals, AccountKey(a, EscrowPending)));
  }

  function NetDebits(b: Books): AgentId -> int { (a: AgentId) => NetDebit(b, a) }

  lemma EveryOrderCancels(u: set<AgentId>, s: Store)
    requires forall w :: 0 <= w < |s.orders| ==> s.orders[w].creator in u && s.orders[w].provider in u
    ensures SumSet(u, NetCreated(s)) == 0
  {
    forall w | 0 <= w < |s.orders|
      ensures Creator(s.orders[w]) in u && Provider(s.orders[w]) in u
    {
    }
    SumByKey(u, s.orders, Creator, Binding);
    SumByKey(u, s.orders, Provider, Binding);
    SumSetSplit(u, Totals(s.orders, Creator, Binding), NetCreated(s), Totals(s.orders, Provider, Binding));
  }

  /** Over all agents the books balance. */
  lemma SystemBalances(dir: map<AgentId, Address>, trace: seq<System>, steps: seq<Step>, i: nat)
    requires IsRun(dir, trace, steps) && i < |trace|
    ensures SumSet(dir.Keys, NetDebits(trace[i].store.books)) == 0
  {
    RunKeepsInv(dir, trace, steps, i);
    var s := trace[i].store;
    hide Sound, IntentsOk;
    EveryOrderCancels(dir.Keys, s);
    forall a | a in dir.Keys
      ensures NetDebits(s.books)(a) == NetCreated(s)(a)
    {
      AccountingEquation(s, a);
    }
    SumSetAgree(dir.Keys, NetDebits(s.books), NetCreated(s));
  }

  // ---- In every run ----

  /** In every run each cached balance is the fold of the account's ledger entries, its type
      is fixed by its name in both flows, its version counts its entries, and every journal
      entry has equal debits and credits. */
  lemma CacheInEveryRun(dir: map<AgentId, Address>, trace: seq<System>, steps: seq<Step>, i: nat, key: AccountKey,
      journal: JournalKey)
    requires IsRun(dir, trace, steps) && i < |trace|
    ensures var b := trace[i].store.books;
      && BalanceOf(b, key) == Sum(b.entries, Keyed(EntryAccount, EntryDelta, key))
      && (key in b.accounts ==>
            b.accounts[key].atype == TypeOf(key.name) && b.accounts[key].version == 1 + Sum(b.entries, Keyed(EntryAccount, EntryCount, key)))
      && Sum(b.entries, Keyed(EntryJournal, EntrySigned, journal)) == 0
  {
    RunKeepsInv(dir, trace, steps, i);
    hide IntentsOk, OrdersOk, BooksAgree, EntriesInOrder, IncomeBalances;
  }

  /** Whatever the interleaving of resolves and applies: what is locked and pending are the
      funded orders, and the service accounts are the completed orders and all accruals. */
  lemma EscrowInEveryRun(dir: map<AgentId, Address>, trace: seq<System>, steps: seq<Step>, i: nat, a: AgentId)
    requires IsRun(dir, trace, steps) && i < |trace|
    ensures var s := trace[i].store;
      && BalanceOf(s.books, AccountKey(a, EscrowLocked)) == CreatedOrders(s, a, OrderFunded)
      && BalanceOf(s.books, AccountKey(a, EscrowPending)) == ProvidedOrders(s, a, OrderFunded)
      && BalanceOf(s.books, AccountKey(a, ServiceExpense)) == CreatedOrders(s, a, OrderCompleted) + AccruedPayments(s, a)
      && BalanceOf(s.books, AccountKey(a, ServiceRevenue)) == ProvidedOrders(s, a, OrderCompleted) + AccruedReceipts(s, a)
      && NetDebit(s.books, a) == NetCreated(s)(a)
  {
    RunKeepsInv(dir, trace, steps, i);
    hide IntentsOk, OrdersOk, Sound, BooksAgree;
    EscrowAndServiceAccounts(trace[i].store, a);
    AccountingEquation(trace[i].store, a);
  }

  /** Every column is set exactly in the statuses that own it. */
  lemma ColumnsFollowStatus(dir: map<AgentId, Address>, trace: seq<System>, steps: seq<Step>, i: nat, w: nat)
    requires IsRun(dir, trace, steps) && i < |trace| && w < |trace[i].store.orders|
    ensures var o := trace[i].store.orders[w];
      && (o.onchainOrderId.Some? <==> o.status != OrderDraft) && (o.orderTx.Some? <==> o.status != OrderDraft)
      && (o.completedAt.Some? <==> o.status == OrderCompleted) && (o.releaseTx.Some? <==> o.status == OrderCompleted)
      && (o.refundedAt.Some? <==> o.status == OrderRefunded) && (o.refundTx.Some? <==> o.status == OrderRefunded)
      && (o.deliveredAt.Some? <==> o.deliverableCid.Some?)
  {
    RunKeepsInv(dir, trace, steps, i);
    hide IntentsOk, Sound, BooksAgree;
  }

  /** Every journal entry is linked to what it records: an accrual to its intent and to the
      intent's batch, a settlement to its batch, an escrow entry to its work order. */
  ghost predicate LinksOk(s: Store) {
    forall k :: k in s.books.journals ==>
      var row := s.books.journals[k];
      match k
      case AccrualKey(i) => i < |s.intents| && row.intent == Some(i) && row.batch == s.intents[i].batch && row.workOrder == None
      case SettlementKey(b) => row.batch == Some(b) && row.intent == None && row.workOrder == None
      case EscrowKey(w, _, _) => w < |s.orders| && row.workOrder == Some(w) && row.intent == None && row.batch == None
  }

  lemma StepKeepsLinks(dir: map<AgentId, Address>, s: System, step: Step)
    requires IntentsOk(dir, s.store) && LinksOk(s.store)
    ensures LinksOk(After(dir, s, step).store)
  {
    var t := s.store;
    hide Record, AccrualPostings, SettlementPostings, EscrowPostings;
    match step {
      case CreateIntentStep(key, payer, payee, amount, at) =>
        RecordAppends(t.books, AccrualKey(|t.intents|), JournalRow(None, Some(|t.intents|), None, at),
          AccrualPostings(payer, payee, amount));
      case MarkSettledStep(hash, st, order) =>
        if MarkSettled(t, hash, st, order).Some? {
          MarkSettledTables(dir, t, hash, st, order);
          hide MarkSettled, IntentsOk;
        }
      case ApplyStep(p) =>
        RecordAppends(t.books, KeyOf(p), JournalRow(Some(p.workOrder), None, None, p.at),
          EscrowPostings(p.action, p.payer, p.payee, p.amount));
      case _ =>
    }
  }

  /** An intent has a batch unless it is pending, and a settlement time only if settled. */
  ghost predicate IntentColumnsOk(s: Store) {
    forall i :: 0 <= i < |s.intents| ==>
      && (s.intents[i].batch.Some? <==> s.intents[i].status != IntentPending)
      && (s.intents[i].settledAt.Some? <==> s.intents[i].status == IntentSettled)
  }

  lemma StepKeepsIntentColumns(dir: map<AgentId, Address>, s: System, step: Step)
    requires IntentColumnsOk(s.store)
    ensures IntentColumnsOk(After(dir, s, step).store)
  {
    hide Record, AccrualPostings, SettlementPostings, EscrowPostings;
  }

  /** In every run journal entries are linked as they should be, and the columns of each
      intent follow its status. */
  lemma {:induction false} LinksInEveryRun(dir: map<AgentId, Address>, trace: seq<System>, steps: seq<Step>, i: nat)
    requires IsRun(dir, trace, steps) && i < |trace|
    ensures LinksOk(trace[i].store) && IntentColumnsOk(trace[i].store)
  {
    if i == 0 {
      hide Enabled, After;
    } else {
      hide *;
      LinksInEveryRun(dir, trace, steps, i - 1);
      RunKeepsInv(dir, trace, steps, i - 1);
      RunStep(dir, trace, steps, i);
      StoreOfInv(dir, trace[i - 1]);
      InvIntents(dir, trace[i - 1].store);
      StepKeepsLinks(dir, trace[i - 1], steps[i - 1]);
      StepKeepsIntentColumns(dir, trace[i - 1], steps[i - 1]);
    }
  }

  // ---- Idempotency keys ----

  /** No two intents, and no two work orders, have the same idempotency key. */
  ghost predicate KeysUnique(s: Store) {
    && (forall i, j :: 0 <= i < j < |s.intents| ==> s.intents[i].idempotencyKey != s.intents[j].idempotencyKey)
    && (forall v, w :: 0 <= v < w < |s.orders| ==> s.orders[v].idempotencyKey != s.orders[w].idempotencyKey)
  }

  lemma StepKeepsKeys(dir: map<AgentId, Address>, s: System, step: Step)
    requires KeysUnique(s.store)
    ensures KeysUnique(After(dir, s, step).store)
  {
    hide Record, AccrualPostings, SettlementPostings, EscrowPostings;
  }

  lemma {:induction false} KeysInEveryRun(dir: map<AgentId, Address>, trace: seq<System>, steps: seq<Step>, i: nat)
    requires IsRun(dir, trace, steps) && i < |trace|
    ensures KeysUnique(trace[i].store)
  {
    if i == 0 {
      hide Enabled, After;
    } else {
      hide *;
      KeysInEveryRun(dir, trace, steps, i - 1);
      RunStep(dir, trace, steps, i);
      StepKeepsKeys(dir, trace[i - 1], steps[i - 1]);
    }
  }

  // ---- Times ----

  /** A journal entry has the time of what it records: an accrual that of its intent, a
      settlement that of its intents' settling, an escrow entry that of the close. */
  ghost predicate TimesOk(s: Store) {
    && (forall i: nat :: AccrualKey(i) in s.books.journals ==>
          i < |s.intents| && s.books.journals[AccrualKey(i)].createdAt == s.intents[i].createdAt)
    && (forall i :: 0 <= i < |s.intents| && s.intents[i].settledAt.Some? ==>
          && s.intents[i].batch.Some? && SettlementKey(s.intents[i].batch.value) in s.books.journals
          && s.books.journals[SettlementKey(s.intents[i].batch.value)].createdAt == s.intents[i].settledAt.value)
    && (forall w :: 0 <= w < |s.orders| && s.orders[w].completedAt.Some? ==>
          exists id :: JournaledAt(s, w, RecordReleased, id, s.orders[w].completedAt.value))
    && (forall w :: 0 <= w < |s.orders| && s.orders[w].refundedAt.Some? ==>
          exists id :: JournaledAt(s, w, RecordRefunded, id, s.orders[w].refundedAt.value))
  }

  predicate JournaledAt(s: Store, w: nat, a: EscrowAction, id: string, at: int) {
    EscrowKey(w, a, id) in s.books.journals && s.books.journals[EscrowKey(w, a, id)].createdAt == at
  }

  /** Journal entries stay, with their times. */
  ghost predicate JournalsStay(s: Store, s': Store) {
    forall k :: k in s.books.journals ==> k in s'.books.journals && s'.books.journals[k].createdAt == s.books.journals[k].createdAt
  }

  lemma ApplyKeepsTimes(dir: map<AgentId, Address>, s: Store, p: Prepared)
    requires IntentsOk(dir, s) && OrdersOk(dir, s) && Fits(s, p) && TimesOk(s)
    ensures TimesOk(ApplyResult(s, p))
  {
    if Apply(s, p).Applied? {
      var s' := ApplyResult(s, p);
      ApplyTables(dir, s, p);
      hide Apply, Record, IntentsOk;
      assert ColumnsOwned(s.orders[p.workOrder]);
      assert JournalsStay(s, s');
      hide OrdersOk;
      assert JournaledAt(s', p.workOrder, p.action, p.eventId, p.at);
      forall w | 0 <= w < |s'.orders| && s'.orders[w].completedAt.Some?
        ensures exists id :: JournaledAt(s', w, RecordReleased, id, s'.orders[w].completedAt.value)
      {
        if w != p.workOrder || p.action != RecordReleased {
          var id :| JournaledAt(s, w, RecordReleased, id, s.orders[w].completedAt.value);
          assert JournaledAt(s', w, RecordReleased, id, s.orders[w].completedAt.value);
        }
      }
      forall w | 0 <= w < |s'.orders| && s'.orders[w].refundedAt.Some?
        ensures exists id :: JournaledAt(s', w, RecordRefunded, id, s'.orders[w].refundedAt.value)
      {
        if w != p.workOrder || p.action != RecordRefunded {
          var id :| JournaledAt(s, w, RecordRefunded, id, s.orders[w].refundedAt.value);
          assert JournaledAt(s', w, RecordRefunded, id, s.orders[w].refundedAt.value);
        }
      }
    }
  }

  /** Orders keep their close times, and journal entries stay: so do the escrow times. */
  lemma EscrowTimesStay(s: Store, s': Store)
    requires TimesOk(s) && JournalsStay(s, s') && |s.orders| <= |s'.orders|
    requires forall w :: 0 <= w < |s.orders| ==>
      s'.orders[w].completedAt == s.orders[w].completedAt && s'.orders[w].refundedAt == s.orders[w].refundedAt
    requires forall w :: |s.orders| <= w < |s'.orders| ==> s'.orders[w].completedAt == None == s'.orders[w].refundedAt
    ensures forall w :: 0 <= w < |s'.orders| && s'.orders[w].completedAt.Some? ==>
      exists id :: JournaledAt(s', w, RecordReleased, id, s'.orders[w].completedAt.value)
    ensures forall w :: 0 <= w < |s'.orders| && s'.orders[w].refundedAt.Some? ==>
      exists id :: JournaledAt(s', w, RecordRefunded, id, s'.orders[w].refundedAt.value)
  {
    forall w | 0 <= w < |s'.orders| && s'.orders[w].completedAt.Some?
      ensures exists id :: JournaledAt(s', w, RecordReleased, id, s'.orders[w].completedAt.value)
    {
      var id :| JournaledAt(s, w, RecordReleased, id, s.orders[w].completedAt.value);
      assert JournaledAt(s', w, RecordReleased, id, s.orders[w].completedAt.value);
    }
    forall w | 0 <= w < |s'.orders| && s'.orders[w].refundedAt.Some?
      ensures exists id :: JournaledAt(s', w, RecordRefunded, id, s'.orders[w].refundedAt.value)
    {
      var id :| JournaledAt(s, w, RecordRefunded, id, s.orders[w].refundedAt.value);
      assert JournaledAt(s', w, RecordRefunded, id, s.orders[w].refundedAt.value);
    }
  }

  lemma SettledKeepsTimes(dir: map<AgentId, Address>, s: Store, hash: nat, st: Netting.Settlement, order: seq<AgentId>)
    requires IntentsOk(dir, s) && TimesOk(s)
    ensures TimesOk(Committed(s, MarkSettled(s, hash, st, order)))
  {
    if MarkSettled(s, hash, st, order).Some? {
      var s' := MarkSettled(s, hash, st, order).value;
      MarkSettledTables(dir, s, hash, st, order);
      hide MarkSettled, IntentsOk;
      EscrowTimesStay(s, s');
    }
  }

  lemma CreatedKeepsTimes(dir: map<AgentId, Address>, s: Store, key: string, payer: AgentId, payee: AgentId, amount: int, at: int)
    requires IntentsOk(dir, s) && TimesOk(s)
    ensures TimesOk(Committed(s, CreateIntent(dir, s, key, payer, payee, amount, at)))
  {
    if CreateIntent(dir, s, key, payer, payee, amount, at).Some? {
      var s' := CreateIntent(dir, s, key, payer, payee, amount, at).value;
      RecordAppends(s.books, AccrualKey(|s.intents|), JournalRow(None, Some(|s.intents|), None, at),
        AccrualPostings(payer, payee, amount));
      hide Record, AccrualPostings;
      EscrowTimesStay(s, s');
    }
  }

  lemma ClaimKeepsTimes(dir: map<AgentId, Address>, s: Store, ids: set<nat>, windowEnd: int, at: int)
    requires IntentsOk(dir, s) && TimesOk(s)
    ensures TimesOk(Committed(s, Claim(s, ids, windowEnd, at)))
  {
    if Claim(s, ids, windowEnd, at).Some? {
      var s' := Claim(s, ids, windowEnd, at).value;
      assert forall i :: i in ids && i < |s.intents| ==> s.intents[i].status == IntentPending && s.intents[i].batch == None;
      hide IntentsOk;
      assert s'.books.journals.Keys == s.books.journals.Keys;
      EscrowTimesStay(s, s');
    }
  }

  lemma QuietKeepsTimes(dir: map<AgentId, Address>, s: System, step: Step)
    requires !step.CreateIntentStep? && !step.MarkSettledStep? && !step.ApplyStep? && !step.ClaimStep?
    requires TimesOk(s.store)
    ensures TimesOk(After(dir, s, step).store)
  {
    EscrowTimesStay(s.store, After(dir, s, step).store);
  }

  lemma StepKeepsTimes(dir: map<AgentId, Address>, s: System, step: Step)
    requires Inv(dir, s) && Enabled(s, step) && TimesOk(s.store)
    ensures TimesOk(After(dir, s, step).store)
  {
    var t := s.store;
    hide TimesOk, IntentsOk, OrdersOk, Sound, BooksAgree, CreateIntent, MarkSettled, Apply;
    match step
    case CreateIntentStep(key, payer, payee, amount, at) => CreatedKeepsTimes(dir, t, key, payer, payee, amount, at);
    case MarkSettledStep(hash, st, order) => SettledKeepsTimes(dir, t, hash, st, order);
    case ApplyStep(p) => ApplyKeepsTimes(dir, t, p);
    case ClaimStep(ids, windowEnd, at) => ClaimKeepsTimes(dir, t, ids, windowEnd, at);
    case _ => QuietKeepsTimes(dir, s, step);
  }

  /** In every run the times agree across the tables. */
  lemma {:induction false} TimesInEveryRun(dir: map<AgentId, Address>, trace: seq<System>, steps: seq<Step>, i: nat)
    requires IsRun(dir, trace, steps) && i < |trace|
    ensures TimesOk(trace[i].store)
  {
    if i == 0 {
      hide Enabled, After;
    } else {
      hide *;
      TimesInEveryRun(dir, trace, steps, i - 1);
      RunKeepsInv(dir, trace, steps, i - 1);
      RunStep(dir, trace, steps, i);
      StepKeepsTimes(dir, trace[i - 1], steps[i - 1]);
    }
  }

  // ---- Once only ----

  lemma {:induction false} RunPersists(dir: map<AgentId, Address>, trace: seq<System>, steps: seq<Step>, i: nat, j: nat)
    requires IsRun(dir, trace, steps) && i <= j < |trace|
    ensures RowsPersist(trace[i].store, trace[j].store)
  {
    hide *;
    if i < j {
      RunPersists(dir, trace, steps, i, j - 1);
      RunKeepsInv(dir, trace, steps, j - 1);
      RunStep(dir, trace, steps, j);
      StoreOfInv(dir, trace[j - 1]);
      InvIntents(dir, trace[j - 1].store);
      StepPersists(dir, trace[j - 1], steps[j - 1]);
      PersistsOn(trace[i].store, trace[j - 1].store, trace[j].store);
    } else {
      PersistsOn(trace[i].store, trace[i].store, trace[i].store);
    }
  }

  lemma PersistsOn(s: Store, t: Store, u: Store)
    ensures RowsPersist(s, s)
    ensures RowsPersist(s, t) && RowsPersist(t, u) ==> RowsPersist(s, u)
  {
  }

  /** No two applied events of a run share work order, action and event id, and an apply
      that is rejected leaves the whole store as it was. */
  lemma AppliedOnce(dir: map<AgentId, Address>, trace: seq<System>, steps: seq<Step>, i: nat, j: nat)
    requires IsRun(dir, trace, steps) && i < j < |steps|
    requires steps[i].ApplyStep? && Apply(trace[i].store, steps[i].prepared).Applied?
    requires steps[j].ApplyStep?
    ensures Apply(trace[j].store, steps[j].prepared).Applied? ==> KeyOf(steps[j].prepared) != KeyOf(steps[i].prepared)
    ensures !Apply(trace[j].store, steps[j].prepared).Applied? ==> trace[j + 1].store == trace[j].store
  {
    var p := steps[i].prepared;
    RecordAppends(trace[i].store.books, KeyOf(p), JournalRow(Some(p.workOrder), None, None, p.at),
                  EscrowPostings(p.action, p.payer, p.payee, p.amount));
    assert trace[i + 1] == After(dir, trace[i], steps[i]);
    assert KeyOf(p) in trace[i + 1].store.books.journals;
    RunPersists(dir, trace, steps, i + 1, j);
    assert KeyOf(p) in trace[j].store.books.journals;
    assert trace[j + 1] == After(dir, trace[j], steps[j]);
  }

  /** An intent's batch, once set, is its batch for ever. */
  lemma BatchNeverChanges(dir: map<AgentId, Address>, trace: seq<System>, steps: seq<Step>, i: nat, j: nat, intent: nat)
    requires IsRun(dir, trace, steps) && i <= j < |trace|
    requires intent < |trace[i].store.intents| && trace[i].store.intents[intent].batch.Some?
    ensures intent < |trace[j].store.intents| && trace[j].store.intents[intent].batch == trace[i].store.intents[intent].batch
  {
    RunPersists(dir, trace, steps, i, j);
  }

  // ---- Streams without removals ----

  ghost predicate RemovalFree(steps: seq<Step>) {
    forall i :: 0 <= i < |steps| && steps[i].ResolveStep? ==> !steps[i].delivery.removed
  }

  predicate Forward(a: EscrowAction) {
    a == RecordCreated || a == RecordReleased || a == RecordRefunded
  }

  /** Without removals a status only moves forward, and the on-chain id stays. */
  predicate Ahead(o: WorkOrderRow, o': WorkOrderRow) {
    && (o.status != OrderDraft ==> o'.status != OrderDraft && o'.onchainOrderId == o.onchainOrderId)
    && (o.status == OrderCompleted || o.status == OrderRefunded ==> o'.status == o.status)
    && o'.specHash == o.specHash
  }

  ghost predicate AllAhead(s: Store, s': Store) {
    |s.orders| <= |s'.orders| && forall w :: 0 <= w < |s.orders| ==> Ahead(s.orders[w], s'.orders[w])
  }

  lemma {:induction false} OnlyForward(dir: map<AgentId, Address>, trace: seq<System>, steps: seq<Step>, i: nat)
    requires IsRun(dir, trace, steps) && RemovalFree(steps) && i < |trace|
    ensures forall p :: p in trace[i].inflight ==> Forward(p.action)
  {
    if i > 0 {
      OnlyForward(dir, trace, steps, i - 1);
      assert trace[i] == After(dir, trace[i - 1], steps[i - 1]);
    }
  }

  lemma {:induction false} RunMovesAhead(dir: map<AgentId, Address>, trace: seq<System>, steps: seq<Step>, i: nat,
      j: nat)
    requires IsRun(dir, trace, steps) && RemovalFree(steps) && i <= j < |trace|
    ensures AllAhead(trace[i].store, trace[j].store)
  {
    hide *;
    if i < j {
      RunMovesAhead(dir, trace, steps, i, j - 1);
      OnlyForward(dir, trace, steps, j - 1);
      RunStep(dir, trace, steps, j);
      StepMovesAhead(dir, trace[j - 1], steps[j - 1]);
      AheadOn(trace[i].store, trace[j - 1].store, trace[j].store);
    } else {
      AheadOn(trace[i].store, trace[i].store, trace[i].store);
    }
  }

  lemma AheadOn(s: Store, t: Store, u: Store)
    ensures AllAhead(s, s)
    ensures AllAhead(s, t) && AllAhead(t, u) ==> AllAhead(s, u)
  {
  }

  lemma StepMovesAhead(dir: map<AgentId, Address>, s: System, step: Step)
    requires Enabled(s, step)
    requires forall p :: p in s.inflight ==> Forward(p.action)
    ensures AllAhead(s.store, After(dir, s, step).store)
  {
  }

  /** With no removals in the stream, delivering again an event that has been applied, at
      whatever time, finds no target, so nothing changes. */
  lemma RedeliveryIsNoOp(dir: map<AgentId, Address>, trace: seq<System>, steps: seq<Step>, i: nat, j: nat, k: nat,
      d: Delivery, again: int)
    requires IsRun(dir, trace, steps) && RemovalFree(steps) && !d.removed
    requires i < j < k < |trace|
    requires steps[i] == ResolveStep(d) && Resolve(dir, trace[i].store.orders, d).Some?
    requires steps[j] == ApplyStep(Resolve(dir, trace[i].store.orders, d).value)
    requires Apply(trace[j].store, steps[j].prepared).Applied?
    ensures Resolve(dir, trace[k].store.orders, d.(at := again)) == None
    ensures Process(dir, trace[k].store, d.(at := again)) == trace[k].store
  {
    var p := steps[j].prepared;
    var w := p.workOrder;
    var d' := d.(at := again);
    RunMovesAhead(dir, trace, steps, i, k);
    RunMovesAhead(dir, trace, steps, j + 1, k);
    RunKeepsInv(dir, trace, steps, i);
    RunKeepsInv(dir, trace, steps, k);
    var first, now := trace[i].store.orders, trace[k].store.orders;
    assert trace[j + 1] == After(dir, trace[j], steps[j]);
    assert trace[j + 1].store.orders[w].status == StatusAfter(p.action);
    assert Ahead(trace[j + 1].store.orders[w], now[w]) && Ahead(first[w], now[w]);
    assert Matches(dir, first[w], d);
    forall v | 0 <= v < |now|
      ensures !Matches(dir, now[v], d')
    {
      if Carries(now[v], d') {
        OneTarget(dir, trace[k].store, d', v, w);
      }
    }
  }

  /** The row carries what the event refers to: its spec hash, or its order id. */
  predicate Carries(o: WorkOrderRow, d: Delivery) {
    if d.event.OrderCreated? then o.specHash == d.event.specHash else o.onchainOrderId == Some(d.event.orderId)
  }

  lemma OneTarget(dir: map<AgentId, Address>, s: Store, d: Delivery, v: nat, w: nat)
    requires OrdersOk(dir, s)
    requires v < |s.orders| && w < |s.orders|
    requires Carries(s.orders[v], d) && Carries(s.orders[w], d)
    ensures v == w
  {
  }
}
