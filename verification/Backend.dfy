/**
 All transactions of the backend over one store, in any interleaving, and what every run
 keeps: each account balance is determined by the intents and work orders, the ledger is
 sound, and every column is set exactly in the statuses that own it.
 */
module Backend {
  import opened Wrappers
  import opened Sums
  import opened Identity
  import opened Schema
  import opened Bookkeeping
  import opened NettingRepository
  import opened WorkOrders
  import Netting

  // ---- What each balance must be ----

  /** The intent's batch has a settlement journal. */
  predicate Journaled(journals: map<JournalKey, JournalRow>, r: IntentRow) {
    r.batch.Some? && SettlementKey(r.batch.value) in journals
  }

  /** What an intent contributes to an account: an accrual until its batch is journaled,
      cash from then on, and service expense and revenue throughout. */
  function IntentWeight(journals: map<JournalKey, JournalRow>, key: AccountKey): IntentRow -> int {
    (r: IntentRow) =>
      var paid := if r.payer == key.agent then r.amount else 0;
      var received := if r.payee == key.agent then r.amount else 0;
      match key.name
      case NettingPayable => if Journaled(journals, r) then 0 else paid
      case NettingReceivable => if Journaled(journals, r) then 0 else received
      case Cash => if Journaled(journals, r) then received - paid else 0
      case ServiceExpense => paid
      case ServiceRevenue => received
      case EscrowLocked => 0
      case EscrowPending => 0
  }

  /** What a work order contributes: locked funds while funded, service expense and revenue
      once completed. */
  function OrderWeight(key: AccountKey): WorkOrderRow -> int {
    (o: WorkOrderRow) =>
      match key.name
      case EscrowLocked => if o.creator == key.agent && o.status == OrderFunded then o.amount else 0
      case EscrowPending => if o.provider == key.agent && o.status == OrderFunded then o.amount else 0
      case ServiceExpense => if o.creator == key.agent && o.status == OrderCompleted then o.amount else 0
      case ServiceRevenue => if o.provider == key.agent && o.status == OrderCompleted then o.amount else 0
      case _ => 0
  }

  function Expected(s: Store, key: AccountKey): int {
    Sum(s.intents, IntentWeight(s.books.journals, key)) + Sum(s.orders, OrderWeight(key))
  }

  ghost predicate BooksAgree(s: Store) {
    forall key :: BalanceOf(s.books, key) == Expected(s, key)
  }

  // ---- The invariant ----

  ghost predicate IntentsOk(dir: map<AgentId, Address>, s: Store) {
    && (forall i :: 0 <= i < |s.intents| ==>
          && s.intents[i].amount > 0 && s.intents[i].payer in dir && s.intents[i].payee in dir
          && (s.intents[i].status == IntentPending <==> s.intents[i].batch == None)
          && (s.intents[i].batch.Some? ==> s.intents[i].batch.value < |s.batches|))
    && (forall i: nat :: AccrualKey(i) in s.books.journals <==> i < |s.intents|)
    && (forall b: nat :: SettlementKey(b) in s.books.journals ==> b < |s.batches|)
  }

  /** The columns owned by the status, and no others, are set. */
  predicate ColumnsOwned(o: WorkOrderRow) {
    && (o.onchainOrderId.Some? <==> o.status != OrderDraft)
    && (o.orderTx.Some? <==> o.status != OrderDraft)
    && (o.completedAt.Some? <==> o.status == OrderCompleted)
    && (o.releaseTx.Some? <==> o.status == OrderCompleted)
    && (o.refundedAt.Some? <==> o.status == OrderRefunded)
    && (o.refundTx.Some? <==> o.status == OrderRefunded)
    && (o.deliveredAt.Some? <==> o.deliverableCid.Some?)
  }

  ghost predicate OrdersOk(dir: map<AgentId, Address>, s: Store) {
    && (forall w :: 0 <= w < |s.orders| ==>
          s.orders[w].amount > 0 && s.orders[w].creator in dir && s.orders[w].provider in dir && ColumnsOwned(s.orders[w]))
    && (forall v, w :: 0 <= v < w < |s.orders| ==> s.orders[v].specHash != s.orders[w].specHash)
    && (forall v, w :: 0 <= v < w < |s.orders| && s.orders[v].onchainOrderId.Some? ==>
          s.orders[v].onchainOrderId != s.orders[w].onchainOrderId)
  }

  ghost predicate StoreInv(dir: map<AgentId, Address>, s: Store) {
    IntentsOk(dir, s) && OrdersOk(dir, s) && Sound(s.books) && BooksAgree(s)
  }

  /** A resolved event still fits its target: the row's parties and amount never change. */
  predicate Fits(s: Store, p: Prepared) {
    && p.workOrder < |s.orders|
    && s.orders[p.workOrder].amount == p.amount
    && s.orders[p.workOrder].creator == p.payer
    && s.orders[p.workOrder].provider == p.payee
  }

  // ---- The system ----

  datatype System = System(store: Store, inflight: set<Prepared>)

  datatype Step =
    | CreateIntentStep(key: string, payer: AgentId, payee: AgentId, amount: int, at: int)
    | ClaimStep(ids: set<nat>, windowEnd: int, at: int)
    | MarkSettledStep(hash: nat, settlement: Netting.Settlement, order: seq<AgentId>)
    | MarkFailedStep(batch: nat, at: int)
    | CreateOrderStep(key: string, creator: AgentId, provider: AgentId, amount: int, specHash: nat, at: int)
    | SubmitDeliveryStep(onchainOrderId: nat, cid: nat, at: int)
    | ResolveStep(delivery: Delivery)
    | ApplyStep(prepared: Prepared)
    | DropStep(prepared: Prepared)

  /** Workers apply what they resolved, and a settlement visits its agents in some order. */
  ghost predicate Enabled(s: System, step: Step) {
    match step
    case MarkSettledStep(_, st, order) => Enumerates(order, BatchAgents(s.store.intents, st.batchId))
    case ApplyStep(p) => p in s.inflight
    case _ => true
  }

  function Committed(s: Store, r: Option<Store>): Store {
    if r.Some? then r.value else s
  }

  /** One atomic step of some worker; a transaction that fails changes nothing. */
  function After(dir: map<AgentId, Address>, s: System, step: Step): System {
    var t := s.store;
    match step
    case CreateIntentStep(key, payer, payee, amount, at) => s.(store := Committed(t, CreateIntent(dir, t, key, payer, payee, amount, at)))
    case ClaimStep(ids, windowEnd, at) => s.(store := Committed(t, Claim(t, ids, windowEnd, at)))
    case MarkSettledStep(hash, st, order) => s.(store := Committed(t, MarkSettled(t, hash, st, order)))
    case MarkFailedStep(b, at) => s.(store := MarkFailed(t, b, at))
    case CreateOrderStep(key, creator, provider, amount, specHash, at) =>
      s.(store := Committed(t, CreateWorkOrder(dir, t, key, creator, provider, amount, specHash, at)))
    case SubmitDeliveryStep(id, cid, at) => s.(store := SubmitDelivery(t, id, cid, at))
    case ResolveStep(d) =>
      (match Resolve(dir, t.orders, d)
       case None => s
       case Some(p) => s.(inflight := s.inflight + {p}))
    case ApplyStep(p) => System(ApplyResult(t, p), s.inflight - {p})
    case DropStep(p) => s.(inflight := s.inflight - {p})
  }

  function ApplyResult(s: Store, p: Prepared): Store {
    match Apply(s, p)
    case Applied(s') => s'
    case NotMatched => s
    case Aborted => s
  }

  ghost predicate Inv(dir: map<AgentId, Address>, s: System) {
    && StoreInv(dir, s.store)
    && forall p :: p in s.inflight ==> Fits(s.store, p)
  }

  // ---- Effects of the entry templates ----

  lemma EffectOfTwo(p: Posting, q: Posting, key: AccountKey)
    ensures Effect([p, q], key) ==
      (if PostingKey(p) == key then PostingDelta(p) else 0) + (if PostingKey(q) == key then PostingDelta(q) else 0)
    ensures Sum([p, q], PostingSigned) == PostingSigned(p) + PostingSigned(q)
    ensures Sum([p, q], PostingIncome) == PostingIncome(p) + PostingIncome(q)
  {
    EffectSnoc([], p, key);
    EffectSnoc([p], q, key);
    assert [] + [p] == [p] && [p] + [q] == [p, q];
    SumSnoc([], p, PostingSigned);
    SumSnoc([p], q, PostingSigned);
    SumSnoc([], p, PostingIncome);
    SumSnoc([p], q, PostingIncome);
  }

  lemma WellFormedConcat(ps: seq<Posting>, qs: seq<Posting>)
    requires forall p :: p in ps || p in qs ==> p.atype == TypeOf(p.name)
    requires Sum(ps, PostingSigned) + Sum(qs, PostingSigned) == 0
    requires Sum(ps, PostingIncome) + Sum(qs, PostingIncome) == 0
    ensures WellFormed(ps + qs)
  {
    SumConcat(ps, qs, PostingSigned);
    SumConcat(ps, qs, PostingIncome);
  }

  lemma AccrualEffect(payer: AgentId, payee: AgentId, amount: int, key: AccountKey)
    requires amount > 0
    ensures WellFormed(AccrualPostings(payer, payee, amount))
    ensures Effect(AccrualPostings(payer, payee, amount), key) ==
      if (key.name == ServiceExpense || key.name == NettingPayable) && key.agent == payer then amount
      else if (key.name == ServiceRevenue || key.name == NettingReceivable) && key.agent == payee then amount
      else 0
  {
    var ps := AccrualPostings(payer, payee, amount);
    assert ps == [ps[0], ps[1]] + [ps[2], ps[3]];
    EffectOfTwo(ps[0], ps[1], key);
    EffectOfTwo(ps[2], ps[3], key);
    EffectConcat([ps[0], ps[1]], [ps[2], ps[3]], key);
    WellFormedConcat([ps[0], ps[1]], [ps[2], ps[3]]);
  }

  lemma LockEffect(payer: AgentId, payee: AgentId, amount: int, key: AccountKey)
    requires amount > 0
    ensures WellFormed(LockPostings(payer, payee, amount)) && WellFormed(UnlockPostings(payer, payee, amount))
    ensures Effect(LockPostings(payer, payee, amount), key) ==
      if key == AccountKey(payer, EscrowLocked) || key == AccountKey(payee, EscrowPending) then amount else 0
    ensures Effect(UnlockPostings(payer, payee, amount), key) == -Effect(LockPostings(payer, payee, amount), key)
  {
    var ps, qs := LockPostings(payer, payee, amount), UnlockPostings(payer, payee, amount);
    EffectOfTwo(ps[0], ps[1], key);
    EffectOfTwo(qs[0], qs[1], key);
    assert ps == [ps[0], ps[1]] && qs == [qs[0], qs[1]];
  }

  lemma ServiceEffect(payer: AgentId, payee: AgentId, amount: int, key: AccountKey)
    requires amount > 0
    ensures var ps := [ Posting(payer, ServiceExpense, Expense, Debit, amount), Posting(payee, ServiceRevenue, Revenue, Credit, amount) ];
      var qs := [ Posting(payee, ServiceRevenue, Revenue, Debit, amount), Posting(payer, ServiceExpense, Expense, Credit, amount) ];
      && WellFormed(ps) && WellFormed(qs)
      && Effect(ps, key) == (if key == AccountKey(payer, ServiceExpense) || key == AccountKey(payee, ServiceRevenue) then amount else 0)
      && Effect(qs, key) == -Effect(ps, key)
  {
    EffectOfTwo(Posting(payer, ServiceExpense, Expense, Debit, amount), Posting(payee, ServiceRevenue, Revenue,
        Credit, amount), key);
    EffectOfTwo(Posting(payee, ServiceRevenue, Revenue, Debit, amount), Posting(payer, ServiceExpense, Expense,
        Credit, amount), key);
  }

  /** An escrow action moves each balance exactly as the order's change of status demands. */
  lemma EscrowEffect(o: WorkOrderRow, p: Prepared, key: AccountKey)
    requires o.amount == p.amount > 0 && o.creator == p.payer && o.provider == p.payee
    requires o.status == StatusBefore(p.action)
    ensures WellFormed(EscrowPostings(p.action, p.payer, p.payee, p.amount))
    ensures Effect(EscrowPostings(p.action, p.payer, p.payee, p.amount), key) == OrderWeight(key)(Updated(o, p)) - OrderWeight(key)(o)
  {
    LockEffect(p.payer, p.payee, p.amount, key);
    ServiceEffect(p.payer, p.payee, p.amount, key);
    if p.action == RecordReleased {
      var tail := [ Posting(p.payer, ServiceExpense, Expense, Debit, p.amount), Posting(p.payee, ServiceRevenue, Revenue, Credit, p.amount) ];
      EffectConcat(UnlockPostings(p.payer, p.payee, p.amount), tail, key);
      WellFormedConcat(UnlockPostings(p.payer, p.payee, p.amount), tail);
    } else if p.action == RollbackReleased {
      var tail := [ Posting(p.payee, ServiceRevenue, Revenue, Debit, p.amount), Posting(p.payer, ServiceExpense, Expense, Credit, p.amount) ];
      EffectConcat(LockPostings(p.payer, p.payee, p.amount), tail, key);
      WellFormedConcat(LockPostings(p.payer, p.payee, p.amount), tail);
    }
  }

  // ---- The settlement entry ----

  /** What settling a batch does to an account, from the stored gross positions. */
  function SettlementChange(rows: seq<IntentRow>, b: nat, key: AccountKey): int {
    match key.name
    case NettingPayable => -Payable(rows, b, key.agent)
    case NettingReceivable => -Receivable(rows, b, key.agent)
    case Cash => Receivable(rows, b, key.agent) - Payable(rows, b, key.agent)
    case _ => 0
  }

  lemma AgentEntryEffect(a: AgentId, p: GrossPosition, key: AccountKey)
    requires p.payable >= 0 && p.receivable >= 0
    ensures Sum(AgentPostings(a, p), PostingSigned) == 0 && Sum(AgentPostings(a, p), PostingIncome) == 0
    ensures Effect(AgentPostings(a, p), key) ==
      if key.agent != a then 0
      else match key.name
        case NettingPayable => -p.payable
        case NettingReceivable => -p.receivable
        case Cash => p.receivable - p.payable
        case _ => 0
  {
    hide Sum;
    var net := p.receivable - p.payable;
    var p1 := if p.payable > 0 then [Posting(a, NettingPayable, Liability, Debit, p.payable)] else [];
    var p2 := if p.receivable > 0 then [Posting(a, NettingReceivable, Asset, Credit, p.receivable)] else [];
    var p3 := if net > 0 then [Posting(a, Cash, Asset, Debit, net)] else [];
    var p4 := if net < 0 then [Posting(a, Cash, Asset, Credit, -net)] else [];
    SingleEffect(p1, key);
    SingleEffect(p2, key);
    SingleEffect(p3, key);
    SingleEffect(p4, key);
    JoinedEffect(p1, p2, key);
    JoinedEffect(p1 + p2, p3, key);
    JoinedEffect(p1 + p2 + p3, p4, key);
    assert AgentPostings(a, p) == p1 + p2 + p3 + p4;
  }

  lemma AgentEntryTyped(a: AgentId, p: GrossPosition)
    ensures forall q :: q in AgentPostings(a, p) ==> q.atype == TypeOf(q.name) && q.agent == a && q.amount > 0
  {
  }

  lemma JoinedEffect(ps: seq<Posting>, qs: seq<Posting>, key: AccountKey)
    ensures Effect(ps + qs, key) == Effect(ps, key) + Effect(qs, key)
    ensures Sum(ps + qs, PostingSigned) == Sum(ps, PostingSigned) + Sum(qs, PostingSigned)
    ensures Sum(ps + qs, PostingIncome) == Sum(ps, PostingIncome) + Sum(qs, PostingIncome)
  {
    EffectConcat(ps, qs, key);
    SumConcat(ps, qs, PostingSigned);
    SumConcat(ps, qs, PostingIncome);
  }

  lemma SingleEffect(ps: seq<Posting>, key: AccountKey)
    requires |ps| <= 1
    ensures Effect(ps, key) == if |ps| == 1 && PostingKey(ps[0]) == key then PostingDelta(ps[0]) else 0
    ensures Sum(ps, PostingSigned) == if |ps| == 1 then PostingSigned(ps[0]) else 0
    ensures Sum(ps, PostingIncome) == if |ps| == 1 then PostingIncome(ps[0]) else 0
  {
    if |ps| == 1 {
      assert ps == [] + [ps[0]];
      EffectSnoc([], ps[0], key);
      SumSnoc([], ps[0], PostingSigned);
      SumSnoc([], ps[0], PostingIncome);
    }
  }

  lemma PositionsNonNegative(rows: seq<IntentRow>, b: nat, a: AgentId)
    requires forall i :: 0 <= i < |rows| ==> rows[i].amount > 0
    ensures Payable(rows, b, a) >= 0 && Receivable(rows, b, a) >= 0
  {
    forall i | 0 <= i < |rows|
      ensures Keyed(RowPayer, AmountIn(b), a)(rows[i]) >= 0 && Keyed(RowPayee, AmountIn(b), a)(rows[i]) >= 0
    {
    }
    SumNonNegative(rows, Keyed(RowPayer, AmountIn(b), a));
    SumNonNegative(rows, Keyed(RowPayee, AmountIn(b), a));
  }

  lemma {:induction false} AbsentPositions(rows: seq<IntentRow>, b: nat, a: AgentId)
    requires a !in BatchAgents(rows, b)
    ensures Payable(rows, b, a) == 0 && Receivable(rows, b, a) == 0
  {
    if rows != [] {
      var n := |rows| - 1;
      AbsentPositions(rows[..n], b, a);
      assert Keyed(RowPayer, AmountIn(b), a)(rows[n]) == if RowPayer(rows[n]) == a then AmountIn(b)(rows[n]) else 0;
      assert Keyed(RowPayee, AmountIn(b), a)(rows[n]) == if RowPayee(rows[n]) == a then AmountIn(b)(rows[n]) else 0;
    }
  }

  /** The entry settles each agent of the batch once, in any order. */
  lemma {:induction false} EntryEffect(rows: seq<IntentRow>, b: nat, order: seq<AgentId>, key: AccountKey)
    requires forall i :: 0 <= i < |rows| ==> rows[i].amount > 0
    requires Distinct(order)
    ensures WellFormed(SettlementPostings(rows, b, order))
    ensures Effect(SettlementPostings(rows, b, order), key) == if key.agent in order then SettlementChange(rows, b, key) else 0
  {
    if order != [] {
      hide Sum, AgentPostings;
      var n := |order| - 1;
      var a := order[n];
      var position := GrossPosition(Payable(rows, b, a), Receivable(rows, b, a));
      EntryEffect(rows, b, order[..n], key);
      PositionsNonNegative(rows, b, a);
      AgentEntryEffect(a, position, key);
      AgentEntryTyped(a, position);
      EffectConcat(SettlementPostings(rows, b, order[..n]), AgentPostings(a, position), key);
      WellFormedConcat(SettlementPostings(rows, b, order[..n]), AgentPostings(a, position));
      assert order == order[..n] + [a];
    }
  }

  lemma SettlementEffect(rows: seq<IntentRow>, b: nat, order: seq<AgentId>, key: AccountKey)
    requires forall i :: 0 <= i < |rows| ==> rows[i].amount > 0
    requires Enumerates(order, BatchAgents(rows, b))
    ensures WellFormed(SettlementPostings(rows, b, order))
    ensures Effect(SettlementPostings(rows, b, order), key) == SettlementChange(rows, b, key)
  {
    EntryEffect(rows, b, order, key);
    assert key.agent in order <==> key.agent in Elements(order);
    if key.agent !in order {
      AbsentPositions(rows, b, key.agent);
    }
  }

  /** Journaling a batch turns the accruals of its intents into cash. */
  lemma JournalingMoves(s: Store, b: nat, row: JournalRow, intents: seq<IntentRow>, key: AccountKey)
    requires SettlementKey(b) !in s.books.journals
    requires |intents| == |s.intents|
    requires forall i :: 0 <= i < |intents| ==>
      intents[i].batch == s.intents[i].batch && intents[i].payer == s.intents[i].payer &&
      intents[i].payee == s.intents[i].payee && intents[i].amount == s.intents[i].amount
    ensures Sum(intents, IntentWeight(s.books.journals[SettlementKey(b) := row], key)) ==
      Sum(s.intents, IntentWeight(s.books.journals, key)) + SettlementChange(intents, b, key)
  {
    var js, js' := s.books.journals, s.books.journals[SettlementKey(b) := row];
    var paid, received := Keyed(RowPayer, AmountIn(b), key.agent), Keyed(RowPayee, AmountIn(b), key.agent);
    forall i | 0 <= i < |intents|
      ensures paid(intents[i]) == if intents[i].payer == key.agent && intents[i].batch == Some(b) then intents[i].amount else 0
      ensures received(intents[i]) == if intents[i].payee == key.agent && intents[i].batch == Some(b) then intents[i].amount else 0
    {
      assert RowPayer(intents[i]) == intents[i].payer && RowPayee(intents[i]) == intents[i].payee;
    }
    match key.name
    case NettingPayable => SumSplit(s.intents, IntentWeight(js, key), intents, IntentWeight(js', key), intents, paid);
    case NettingReceivable => SumSplit(s.intents, IntentWeight(js, key), intents, IntentWeight(js', key), intents, received);
    case Cash =>
      var before := (r: IntentRow) => IntentWeight(js', key)(r) + paid(r);
      SumSplit(intents, before, intents, IntentWeight(js', key), intents, paid);
      SumSplit(intents, before, s.intents, IntentWeight(js, key), intents, received);
    case _ => SumAgree(s.intents, IntentWeight(js, key), intents, IntentWeight(js', key));
  }

  // ---- Every transaction keeps the books in agreement ----

  lemma CreateIntentKeeps(dir: map<AgentId, Address>, s: Store, key: string, payer: AgentId, payee: AgentId,
      amount: int, at: int)
    requires StoreInv(dir, s)
    ensures StoreInv(dir, Committed(s, CreateIntent(dir, s, key, payer, payee, amount, at)))
  {
    hide Sound, Record;
    if CreateIntent(dir, s, key, payer, payee, amount, at).Some? {
      var s' := CreateIntent(dir, s, key, payer, payee, amount, at).value;
      CreateIntentTables(dir, s, key, payer, payee, amount, at);
      AccrualEffect(payer, payee, amount, AccountKey(0, Cash));
      RecordKeepsSound(s.books, AccrualKey(|s.intents|), JournalRow(None, Some(|s.intents|), None, at),
          AccrualPostings(payer, payee, amount));
      hide CreateIntent, IntentsOk;
      forall k: AccountKey {
        CreateIntentAgrees(s, s', NewIntent(key, payer, payee, amount, at), k);
      }
    }
  }

  lemma CreateIntentTables(dir: map<AgentId, Address>, s: Store, key: string, payer: AgentId, payee: AgentId,
      amount: int, at: int)
    requires IntentsOk(dir, s)
    requires CreateIntent(dir, s, key, payer, payee, amount, at).Some?
    ensures var s' := CreateIntent(dir, s, key, payer, payee, amount, at).value;
      var row := JournalRow(None, Some(|s.intents|), None, at);
      && IntentsOk(dir, s') && amount > 0
      && AccrualKey(|s.intents|) !in s.books.journals
      && s'.orders == s.orders && s'.intents == s.intents + [NewIntent(key, payer, payee, amount, at)]
      && Some(s'.books) == Record(s.books, AccrualKey(|s.intents|), row, AccrualPostings(payer, payee, amount))
  {
    RecordAppends(s.books, AccrualKey(|s.intents|), JournalRow(None, Some(|s.intents|), None, at),
        AccrualPostings(payer, payee, amount));
    hide Record, AccrualPostings;
  }

  lemma CreateIntentAgrees(s: Store, s': Store, r: IntentRow, k: AccountKey)
    requires BooksAgree(s)
    requires r.amount > 0 && r.batch == None
    requires AccrualKey(|s.intents|) !in s.books.journals
    requires s'.orders == s.orders && s'.intents == s.intents + [r]
    requires Some(s'.books) == Record(s.books, AccrualKey(|s.intents|), JournalRow(None, Some(|s.intents|), None, r.createdAt),
                                      AccrualPostings(r.payer, r.payee, r.amount))
    ensures BalanceOf(s'.books, k) == Expected(s', k)
  {
    RecordMovesBalances(s.books, AccrualKey(|s.intents|), JournalRow(None, Some(|s.intents|), None, r.createdAt),
                        AccrualPostings(r.payer, r.payee, r.amount));
    hide Record, AccrualPostings;
    AccrualEffect(r.payer, r.payee, r.amount, k);
    assert BalanceOf(s.books, k) == Expected(s, k);
    SumAgree(s.intents, IntentWeight(s.books.journals, k), s.intents, IntentWeight(s'.books.journals, k));
    SumSnoc(s.intents, r, IntentWeight(s'.books.journals, k));
  }

  lemma ClaimTables(dir: map<AgentId, Address>, s: Store, ids: set<nat>, windowEnd: int, at: int)
    requires IntentsOk(dir, s)
    requires Claim(s, ids, windowEnd, at).Some?
    ensures IntentsOk(dir, Claim(s, ids, windowEnd, at).value)
  {
    var s' := Claim(s, ids, windowEnd, at).value;
    assert s'.books.journals.Keys == s.books.journals.Keys;
  }

  lemma ClaimSound(s: Store, ids: set<nat>, windowEnd: int, at: int)
    requires Sound(s.books)
    requires Claim(s, ids, windowEnd, at).Some?
    ensures Sound(Claim(s, ids, windowEnd, at).value.books)
  {
    var b' := Claim(s, ids, windowEnd, at).value.books;
    assert JournalsBalance(b') && IncomeBalances(b') && CacheAgrees(b');
    assert EntriesInOrder(b');
  }

  lemma ClaimAgrees(dir: map<AgentId, Address>, s: Store, ids: set<nat>, windowEnd: int, at: int, k: AccountKey)
    requires IntentsOk(dir, s) && BooksAgree(s)
    requires Claim(s, ids, windowEnd, at).Some?
    ensures var s' := Claim(s, ids, windowEnd, at).value;
      BalanceOf(s'.books, k) == Expected(s', k)
  {
    var s' := Claim(s, ids, windowEnd, at).value;
    assert BalanceOf(s.books, k) == Expected(s, k);
    forall i | 0 <= i < |s.intents|
      ensures Journaled(s.books.journals, s.intents[i]) <==> Journaled(s'.books.journals, s'.intents[i])
    {
      if i in ids {
        assert s.intents[i].batch == None && SettlementKey(|s.batches|) !in s.books.journals;
      }
    }
    SumAgree(s.intents, IntentWeight(s.books.journals, k), s'.intents, IntentWeight(s'.books.journals, k));
  }

  lemma ClaimKeeps(dir: map<AgentId, Address>, s: Store, ids: set<nat>, windowEnd: int, at: int)
    requires StoreInv(dir, s)
    ensures StoreInv(dir, Committed(s, Claim(s, ids, windowEnd, at)))
  {
    hide Sound, IntentsOk, Expected;
    if Claim(s, ids, windowEnd, at).Some? {
      ClaimTables(dir, s, ids, windowEnd, at);
      ClaimSound(s, ids, windowEnd, at);
      forall k: AccountKey {
        ClaimAgrees(dir, s, ids, windowEnd, at, k);
      }
    }
  }

  lemma MarkSettledTables(dir: map<AgentId, Address>, s: Store, hash: nat, st: Netting.Settlement, order: seq<AgentId>)
    requires IntentsOk(dir, s)
    requires MarkSettled(s, hash, st, order).Some?
    ensures var b := st.batchId;
      var s' := MarkSettled(s, hash, st, order).value;
      var row := JournalRow(None, None, Some(b), st.settledAt);
      && IntentsOk(dir, s')
      && s'.intents == Closed(s.intents, b, IntentSettled, st.settledAt)
      && s'.orders == s.orders
      && SettlementKey(b) !in s.books.journals
      && Some(s'.books) == Record(s.books, SettlementKey(b), row, SettlementPostings(s'.intents, b, order))
      && s'.books.journals == s.books.journals[SettlementKey(b) := row]
  {
    var b := st.batchId;
    RecordAppends(s.books, SettlementKey(b), JournalRow(None, None, Some(b), st.settledAt),
                  SettlementPostings(Closed(s.intents, b, IntentSettled, st.settledAt), b, order));
  }

  lemma MarkSettledKeeps(dir: map<AgentId, Address>, s: Store, hash: nat, st: Netting.Settlement, order: seq<AgentId>)
    requires StoreInv(dir, s)
    requires Enumerates(order, BatchAgents(s.intents, st.batchId))
    ensures StoreInv(dir, Committed(s, MarkSettled(s, hash, st, order)))
  {
    hide Sound, MarkSettled;
    if MarkSettled(s, hash, st, order).Some? {
      var b := st.batchId;
      var s' := MarkSettled(s, hash, st, order).value;
      var row := JournalRow(None, None, Some(b), st.settledAt);
      var ps := SettlementPostings(s'.intents, b, order);
      MarkSettledTables(dir, s, hash, st, order);
      ClosedKeepsPositions(s.intents, b, IntentSettled, st.settledAt);
      SettlementEffect(s'.intents, b, order, AccountKey(0, Cash));
      RecordKeepsSound(s.books, SettlementKey(b), row, ps);
      forall k: AccountKey {
        MarkSettledAgrees(s, s', b, row, order, k);
      }
    }
  }

  lemma MarkSettledAgrees(s: Store, s': Store, b: nat, row: JournalRow, order: seq<AgentId>, k: AccountKey)
    requires BooksAgree(s)
    requires SettlementKey(b) !in s.books.journals
    requires Some(s'.books) == Record(s.books, SettlementKey(b), row, SettlementPostings(s'.intents, b, order))
    requires s'.orders == s.orders && |s'.intents| == |s.intents|
    requires forall i :: 0 <= i < |s.intents| ==>
      s'.intents[i].batch == s.intents[i].batch && s'.intents[i].payer == s.intents[i].payer &&
      s'.intents[i].payee == s.intents[i].payee && s'.intents[i].amount == s.intents[i].amount > 0
    requires Enumerates(order, BatchAgents(s'.intents, b))
    ensures BalanceOf(s'.books, k) == Expected(s', k)
  {
    assert BalanceOf(s.books, k) == Expected(s, k);
    RecordMovesBalances(s.books, SettlementKey(b), row, SettlementPostings(s'.intents, b, order));
    SettlementEffect(s'.intents, b, order, k);
    JournalingMoves(s, b, row, s'.intents, k);
  }

  lemma MarkFailedKeeps(dir: map<AgentId, Address>, s: Store, b: nat, at: int)
    requires StoreInv(dir, s)
    ensures StoreInv(dir, MarkFailed(s, b, at))
  {
    hide Sound;
    var s' := MarkFailed(s, b, at);
    forall k: AccountKey
      ensures BalanceOf(s'.books, k) == Expected(s', k)
    {
      assert BalanceOf(s.books, k) == Expected(s, k);
      SumAgree(s.intents, IntentWeight(s.books.journals, k), s'.intents, IntentWeight(s'.books.journals, k));
    }
  }

  lemma CreateWorkOrderKeeps(dir: map<AgentId, Address>, s: Store, key: string, creator: AgentId, provider: AgentId,
      amount: int, specHash: nat, at: int)
    requires StoreInv(dir, s)
    ensures StoreInv(dir, Committed(s, CreateWorkOrder(dir, s, key, creator, provider, amount, specHash, at)))
  {
    hide Sound;
    if CreateWorkOrder(dir, s, key, creator, provider, amount, specHash, at).Some? {
      var s' := CreateWorkOrder(dir, s, key, creator, provider, amount, specHash, at).value;
      forall k: AccountKey
        ensures BalanceOf(s'.books, k) == Expected(s', k)
      {
        assert BalanceOf(s.books, k) == Expected(s, k);
        SumSnoc(s.orders, Draft(key, creator, provider, amount, specHash, at), OrderWeight(k));
      }
    }
  }

  lemma SubmitDeliveryKeeps(dir: map<AgentId, Address>, s: Store, id: nat, cid: nat, at: int)
    requires StoreInv(dir, s)
    ensures StoreInv(dir, SubmitDelivery(s, id, cid, at))
  {
    hide Sound;
    var s' := SubmitDelivery(s, id, cid, at);
    forall k: AccountKey
      ensures BalanceOf(s'.books, k) == Expected(s', k)
    {
      assert BalanceOf(s.books, k) == Expected(s, k);
      SumAgree(s.orders, OrderWeight(k), s'.orders, OrderWeight(k));
    }
  }

  lemma ApplyTables(dir: map<AgentId, Address>, s: Store, p: Prepared)
    requires IntentsOk(dir, s) && OrdersOk(dir, s)
    requires Fits(s, p)
    requires Apply(s, p).Applied?
    ensures var s' := Apply(s, p).store;
      var row := JournalRow(Some(p.workOrder), None, None, p.at);
      var o := s.orders[p.workOrder];
      && IntentsOk(dir, s') && OrdersOk(dir, s')
      && o.status == StatusBefore(p.action) && p.amount > 0
      && s'.intents == s.intents && s'.orders == s.orders[p.workOrder := Updated(o, p)]
      && KeyOf(p) !in s.books.journals
      && Some(s'.books) == Record(s.books, KeyOf(p), row, EscrowPostings(p.action, p.payer, p.payee, p.amount))
      && s'.books.journals == s.books.journals[KeyOf(p) := row]
  {
    RecordAppends(s.books, KeyOf(p), JournalRow(Some(p.workOrder), None, None, p.at),
                  EscrowPostings(p.action, p.payer, p.payee, p.amount));
  }

  lemma ApplyKeeps(dir: map<AgentId, Address>, s: Store, p: Prepared)
    requires StoreInv(dir, s)
    requires Fits(s, p)
    ensures StoreInv(dir, ApplyResult(s, p))
  {
    hide Sound, Apply, Record;
    if Apply(s, p).Applied? {
      var s' := Apply(s, p).store;
      var o := s.orders[p.workOrder];
      var row := JournalRow(Some(p.workOrder), None, None, p.at);
      var ps := EscrowPostings(p.action, p.payer, p.payee, p.amount);
      ApplyTables(dir, s, p);
      EscrowEffect(o, p, AccountKey(0, Cash));
      RecordMovesBalances(s.books, KeyOf(p), row, ps);
      RecordKeepsSound(s.books, KeyOf(p), row, ps);
      hide IntentsOk, OrdersOk, EscrowPostings, Updated;
      forall k: AccountKey
        ensures BalanceOf(s'.books, k) == Expected(s', k)
      {
        assert BalanceOf(s.books, k) == Expected(s, k);
        EscrowEffect(o, p, k);
        SumUpdate(s.orders, p.workOrder, Updated(o, p), OrderWeight(k));
        SumAgree(s.intents, IntentWeight(s.books.journals, k), s.intents, IntentWeight(s'.books.journals, k));
      }
    }
  }

  // ---- Every run ----

  /** Rows keep their parties and amounts, and an intent that has a batch keeps it. */
  ghost predicate RowsPersist(s: Store, s': Store) {
    && |s.intents| <= |s'.intents| && |s.orders| <= |s'.orders| && |s.batches| <= |s'.batches|
    && (forall i :: 0 <= i < |s.intents| ==>
          && s'.intents[i].payer == s.intents[i].payer && s'.intents[i].payee == s.intents[i].payee
          && s'.intents[i].amount == s.intents[i].amount
          && (s.intents[i].batch.Some? ==> s'.intents[i].batch == s.intents[i].batch))
    && (forall w :: 0 <= w < |s.orders| ==>
          && s'.orders[w].creator == s.orders[w].creator && s'.orders[w].provider == s.orders[w].provider
          && s'.orders[w].amount == s.orders[w].amount && s'.orders[w].specHash == s.orders[w].specHash)
    && s.books.journals.Keys <= s'.books.journals.Keys
    && s.books.entries <= s'.books.entries
  }

  lemma StepPersists(dir: map<AgentId, Address>, s: System, step: Step)
    requires IntentsOk(dir, s.store)
    ensures RowsPersist(s.store, After(dir, s, step).store)
  {
    var t := s.store;
    hide Record, AccrualPostings, SettlementPostings, EscrowPostings, IntentsOk;
    match step {
      case CreateIntentStep(key, payer, payee, amount, at) =>
        RecordAppends(t.books, AccrualKey(|t.intents|), JournalRow(None, Some(|t.intents|), None, at),
            AccrualPostings(payer, payee, amount));
      case MarkSettledStep(_, st, order) =>
        var b := st.batchId;
        RecordAppends(t.books, SettlementKey(b), JournalRow(None, None, Some(b), st.settledAt),
                      SettlementPostings(Closed(t.intents, b, IntentSettled, st.settledAt), b, order));
      case ApplyStep(p) =>
        RecordAppends(t.books, KeyOf(p), JournalRow(Some(p.workOrder), None, None, p.at), EscrowPostings(p.action,
            p.payer, p.payee, p.amount));
      case ClaimStep(ids, windowEnd, at) => ClaimPersists(dir, t, ids, windowEnd, at);
      case _ =>
    }
  }

  lemma ClaimPersists(dir: map<AgentId, Address>, t: Store, ids: set<nat>, windowEnd: int, at: int)
    requires IntentsOk(dir, t)
    ensures RowsPersist(t, Committed(t, Claim(t, ids, windowEnd, at)))
  {
    if Claim(t, ids, windowEnd, at).Some? {
      assert Claim(t, ids, windowEnd, at).value.books.journals.Keys == t.books.journals.Keys;
    }
  }

  lemma StepKeepsInv(dir: map<AgentId, Address>, s: System, step: Step)
    requires Inv(dir, s) && Enabled(s, step)
    ensures Inv(dir, After(dir, s, step))
  {
    hide StoreInv;
    var t := s.store;
    match step {
      case CreateIntentStep(key, payer, payee, amount, at) => CreateIntentKeeps(dir, t, key, payer, payee, amount, at);
      case ClaimStep(ids, windowEnd, at) => ClaimKeeps(dir, t, ids, windowEnd, at);
      case MarkSettledStep(hash, st, order) => MarkSettledKeeps(dir, t, hash, st, order);
      case MarkFailedStep(b, at) => MarkFailedKeeps(dir, t, b, at);
      case CreateOrderStep(key, creator, provider, amount, specHash, at) =>
        CreateWorkOrderKeeps(dir, t, key, creator, provider, amount, specHash, at);
      case SubmitDeliveryStep(id, cid, at) => SubmitDeliveryKeeps(dir, t, id, cid, at);
      case ApplyStep(p) => ApplyKeeps(dir, t, p);
      case ResolveStep(_) =>
      case DropStep(_) =>
    }
    InvIntents(dir, t);
    StepPersists(dir, s, step);
  }

  lemma InvIntents(dir: map<AgentId, Address>, s: Store)
    requires StoreInv(dir, s)
    ensures IntentsOk(dir, s)
  {
  }

  ghost predicate IsRun(dir: map<AgentId, Address>, trace: seq<System>, steps: seq<Step>) {
    && |trace| == |steps| + 1
    && trace[0] == System(EmptyStore(), {})
    && forall i :: 0 <= i < |steps| ==> Enabled(trace[i], steps[i]) && trace[i + 1] == After(dir, trace[i], steps[i])
  }

  lemma EmptyInv(dir: map<AgentId, Address>)
    ensures Inv(dir, System(EmptyStore(), {}))
  {
  }

  lemma RunStep(dir: map<AgentId, Address>, trace: seq<System>, steps: seq<Step>, i: nat)
    requires IsRun(dir, trace, steps) && 0 < i < |trace|
    ensures i <= |steps| && Enabled(trace[i - 1], steps[i - 1]) && trace[i] == After(dir, trace[i - 1], steps[i - 1])
  {
    hide Enabled, After;
  }

  lemma StoreOfInv(dir: map<AgentId, Address>, s: System)
    requires Inv(dir, s)
    ensures StoreInv(dir, s.store)
  {
    hide StoreInv;
  }

  /** The invariant holds at every point of every run. */
  lemma {:induction false} RunKeepsInv(dir: map<AgentId, Address>, trace: seq<System>, steps: seq<Step>, i: nat)
    requires IsRun(dir, trace, steps) && i < |trace|
    ensures Inv(dir, trace[i])
  {
    if i == 0 {
      EmptyInv(dir);
    } else {
      RunKeepsInv(dir, trace, steps, i - 1);
      RunStep(dir, trace, steps, i);
      hide *;
      StepKeepsInv(dir, trace[i - 1], steps[i - 1]);
    }
  }
}
