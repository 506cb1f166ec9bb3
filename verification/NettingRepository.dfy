/** The netting transactions: accruals, claims, settlements and failures. */
module NettingRepository {
  import opened Wrappers
  import opened Sums
  import opened Sorting
  import opened Identity
  import opened Schema
  import opened Bookkeeping
  import Netting
  import NettingTheory

  // ---- Creating an intent ----

  predicate KeyTaken(rows: seq<IntentRow>, key: string) {
    exists i :: 0 <= i < |rows| && rows[i].idempotencyKey == key
  }

  function AccrualPostings(payer: AgentId, payee: AgentId, amount: int): seq<Posting> {
    [ Posting(payer, ServiceExpense, Expense, Debit, amount),
      Posting(payer, NettingPayable, Liability, Credit, amount),
      Posting(payee, NettingReceivable, Asset, Debit, amount),
      Posting(payee, ServiceRevenue, Revenue, Credit, amount) ]
  }

  /** The insert obeys the table's constraints: a new key, known agents, a positive amount. */
  predicate Insertable(dir: map<AgentId, Address>, rows: seq<IntentRow>, key: string, payer: AgentId, payee: AgentId,
      amount: int) {
    !KeyTaken(rows, key) && payer in dir && payee in dir && amount > 0
  }

  function NewIntent(key: string, payer: AgentId, payee: AgentId, amount: int, at: int): IntentRow {
    IntentRow(key, payer, payee, amount, IntentPending, None, at, at, None)
  }

  function CreateIntent(dir: map<AgentId, Address>, s: Store, key: string, payer: AgentId, payee: AgentId,
      amount: int, at: int): Option<Store> {
    if !Insertable(dir, s.intents, key, payer, payee, amount) then None
    else
      var id := |s.intents|;
      match Record(s.books, AccrualKey(id), JournalRow(None, Some(id), None, at), AccrualPostings(payer, payee, amount))
      case None => None
      case Some(books) => Some(s.(intents := s.intents + [NewIntent(key, payer, payee, amount, at)], books := books))
  }

  // ---- Claiming a batch ----

  predicate Claimable(r: IntentRow, windowEnd: int) {
    r.status == IntentPending && r.createdAt <= windowEnd
  }

  function Assigned(rows: seq<IntentRow>, ids: set<nat>, batch: nat, at: int): seq<IntentRow> {
    seq(|rows|, i requires 0 <= i < |rows| =>
      if i in ids then rows[i].(status := IntentBatched, batch := Some(batch), updatedAt := at) else rows[i])
  }

  function AssignedJournals(journals: map<JournalKey, JournalRow>, ids: set<nat>,
      batch: nat): map<JournalKey, JournalRow> {
    map k | k in journals ::
      if journals[k].intent.Some? && journals[k].intent.value in ids then journals[k].(batch := Some(batch)) else journals[k]
  }

  function NewBatch(at: int): BatchRow {
    BatchRow(BatchProcessing, None, 0, 0, 0, 0, at, at)
  }

  /** A claim of the given pending intents; rows locked elsewhere are simply not among them. */
  function Claim(s: Store, ids: set<nat>, windowEnd: int, at: int): Option<Store> {
    if ids == {} || exists i :: i in ids && !(i < |s.intents| && Claimable(s.intents[i], windowEnd)) then None
    else
      var b := |s.batches|;
      Some(Store(Assigned(s.intents, ids, b, at), s.batches + [NewBatch(at)], s.orders,
                 s.books.(journals := AssignedJournals(s.books.journals, ids, b))))
  }

  /** The claim of exactly the claimable rows that are not locked, and the claimed intents,
      each once. */
  ghost predicate IsClaim(dir: map<AgentId, Address>, s: Store, s': Store, windowEnd: int, at: int, locked: set<nat>,
      intents: seq<Netting.PaymentIntent>, ids: set<nat>) {
    && Claim(s, ids, windowEnd, at) == Some(s')
    && (forall i: nat :: i in ids <==>
          i < |s.intents| && i !in locked && s.intents[i].status == IntentPending && s.intents[i].createdAt <= windowEnd)
    && NettingTheory.DistinctIds(intents)
    && (forall p :: p in intents <==> p.id in ids && p.id < |s.intents| && p == Join(dir, s.intents, p.id))
  }

  /** The pending rows of the window that were not locked now have the batch and the status,
      and the others are as they were. */
  ghost predicate BatchTook(before: seq<IntentRow>, after: seq<IntentRow>, windowEnd: int, locked: set<nat>, b: nat,
      status: IntentStatus, at: int) {
    && |after| == |before|
    && (forall i :: 0 <= i < |before| && i !in locked && before[i].status == IntentPending && before[i].createdAt <= windowEnd ==>
          after[i] == before[i].(status := status, batch := Some(b), updatedAt := at,
                                 settledAt := if status == IntentSettled then Some(at) else before[i].settledAt))
    && (forall i :: 0 <= i < |before| && (i in locked || before[i].status != IntentPending || before[i].createdAt > windowEnd) ==>
          after[i] == before[i])
  }

  lemma AssignedTook(rows: seq<IntentRow>, ids: set<nat>, windowEnd: int, locked: set<nat>, b: nat, at: int)
    requires forall i: nat :: i in ids <==>
      i < |rows| && i !in locked && rows[i].status == IntentPending && rows[i].createdAt <= windowEnd
    ensures BatchTook(rows, Assigned(rows, ids, b, at), windowEnd, locked, b, IntentBatched, at)
  {
  }

  /** The intents come by creation time, and at the same time by id. */
  ghost predicate OldestFirst(rows: seq<IntentRow>, intents: seq<Netting.PaymentIntent>) {
    forall j, k :: 0 <= j < k < |intents| ==>
      var p, q := intents[j].id, intents[k].id;
      && p < |rows| && q < |rows|
      && (rows[p].createdAt < rows[q].createdAt || (rows[p].createdAt == rows[q].createdAt && p < q))
  }

  lemma JoinedInOrder(rows: seq<IntentRow>, order: seq<nat>, intents: seq<Netting.PaymentIntent>)
    requires |intents| == |order| && forall k :: 0 <= k < |order| ==> intents[k].id == order[k]
    requires forall j, k :: 0 <= j < k < |order| ==>
      var p, q := order[j], order[k];
      && p < |rows| && q < |rows|
      && (rows[p].createdAt < rows[q].createdAt || (rows[p].createdAt == rows[q].createdAt && p < q))
    ensures OldestFirst(rows, intents)
  {
  }

  /** What updating the selected rows amounts to. */
  lemma Claimed(dir: map<AgentId, Address>, s: Store, order: seq<nat>, intents: seq<Netting.PaymentIntent>, ids: set<nat>,
      windowEnd: int, at: int, locked: set<nat>)
    requires order != [] && ids == Elements(order)
    requires forall i: nat :: i in order <==>
      i < |s.intents| && i !in locked && s.intents[i].status == IntentPending && s.intents[i].createdAt <= windowEnd
    requires forall j, k :: 0 <= j < k < |order| ==>
      var p, q := order[j], order[k];
      && p < |s.intents| && q < |s.intents|
      && (s.intents[p].createdAt < s.intents[q].createdAt || (s.intents[p].createdAt == s.intents[q].createdAt && p < q))
    requires NettingTheory.DistinctIds(intents) && |intents| == |order| && forall k :: 0 <= k < |order| ==> intents[k].id == order[k]
    requires forall p :: p in intents <==> p.id in ids && p.id < |s.intents| && p == Join(dir, s.intents, p.id)
    ensures var b := |s.batches|;
      var s' := Store(Assigned(s.intents, ids, b, at), s.batches + [NewBatch(at)], s.orders,
                      s.books.(journals := AssignedJournals(s.books.journals, ids, b)));
      && IsClaim(dir, s, s', windowEnd, at, locked, intents, ids)
      && BatchTook(s.intents, s'.intents, windowEnd, locked, b, IntentBatched, at)
      && OldestFirst(s.intents, intents)
  {
    JoinedInOrder(s.intents, order, intents);
    assert forall i: nat :: i in ids <==> i in order;
    AssignedTook(s.intents, ids, windowEnd, locked, |s.batches|, at);
    hide OldestFirst, BatchTook, Assigned, AssignedJournals, Join;
    assert order[0] in ids;
  }

  /** An intent row joined with the wallets of its agents. */
  function Join(dir: map<AgentId, Address>, rows: seq<IntentRow>, i: nat): Netting.PaymentIntent
    requires i < |rows|
  {
    var r := rows[i];
    Netting.PaymentIntent(i, r.payer, r.payee, WalletOrZero(dir, r.payer), WalletOrZero(dir, r.payee), r.amount, Netting.ASSET_RUSD)
  }

  function WalletOrZero(dir: map<AgentId, Address>, a: AgentId): Address {
    if a in dir then dir[a] else 0
  }

  /** The intents of a batch, in the order of the table. */
  function BatchIntents(dir: map<AgentId, Address>, rows: seq<IntentRow>, b: nat): seq<Netting.PaymentIntent> {
    if rows == [] then []
    else
      var n := |rows| - 1;
      BatchIntents(dir, rows[..n], b) + if rows[n].batch == Some(b) then [Join(dir, rows, n)] else []
  }

  // ---- Settling and failing a batch ----

  function RowPayer(r: IntentRow): AgentId { r.payer }
  function RowPayee(r: IntentRow): AgentId { r.payee }

  function AmountIn(b: nat): IntentRow -> int {
    (r: IntentRow) => if r.batch == Some(b) then r.amount else 0
  }

  function Payable(rows: seq<IntentRow>, b: nat, a: AgentId): int { Sum(rows, Keyed(RowPayer, AmountIn(b), a)) }
  function Receivable(rows: seq<IntentRow>, b: nat, a: AgentId): int { Sum(rows, Keyed(RowPayee, AmountIn(b), a)) }

  function BatchAgents(rows: seq<IntentRow>, b: nat): set<AgentId> {
    if rows == [] then {}
    else
      var r := rows[|rows| - 1];
      BatchAgents(rows[..|rows| - 1], b) + if r.batch == Some(b) then {r.payer, r.payee} else {}
  }

  datatype GrossPosition = GrossPosition(payable: int, receivable: int)

  /** The grouped query over the stored intents of a batch, whatever their status. */
  function GrossPositions(rows: seq<IntentRow>, b: nat): map<AgentId, GrossPosition> {
    map a | a in BatchAgents(rows, b) :: GrossPosition(Payable(rows, b, a), Receivable(rows, b, a))
  }

  /** The legs that settle one agent: its gross positions are cleared against cash. */
  function AgentPostings(a: AgentId, p: GrossPosition): seq<Posting> {
    var net := p.receivable - p.payable;
    (if p.payable > 0 then [Posting(a, NettingPayable, Liability, Debit, p.payable)] else [])
    + (if p.receivable > 0 then [Posting(a, NettingReceivable, Asset, Credit, p.receivable)] else [])
    + (if net > 0 then [Posting(a, Cash, Asset, Debit, net)] else [])
    + (if net < 0 then [Posting(a, Cash, Asset, Credit, -net)] else [])
  }

  /** The settlement entry, for agents visited in the given order. */
  function SettlementPostings(rows: seq<IntentRow>, b: nat, order: seq<AgentId>): seq<Posting> {
    if order == [] then []
    else
      var a := order[|order| - 1];
      SettlementPostings(rows, b, order[..|order| - 1])
        + AgentPostings(a, GrossPosition(Payable(rows, b, a), Receivable(rows, b, a)))
  }

  ghost predicate Enumerates(order: seq<AgentId>, agents: set<AgentId>) {
    Distinct(order) && Elements(order) == agents
  }

  /** The legs of the whole batch, for its agents in some order. */
  ghost predicate IsSettlementEntry(rows: seq<IntentRow>, b: nat, postings: seq<Posting>) {
    exists order :: Enumerates(order, BatchAgents(rows, b)) && postings == SettlementPostings(rows, b, order)
  }

  predicate HashTaken(batches: seq<BatchRow>, b: nat, hash: nat) {
    exists i :: 0 <= i < |batches| && i != b && batches[i].hash == Some(hash)
  }

  function SettledRow(r: BatchRow, hash: nat, st: Netting.Settlement): BatchRow {
    if r.status != BatchProcessing then r
    else r.(status := BatchSettled, hash := Some(hash), grossIntentCount := st.grossIntentCount, transferCount := st.transferCount,
            grossAmount := st.grossAmount, netAmount := st.netAmount, updatedAt := st.settledAt)
  }

  /** `UPDATE payment_intents ... WHERE netting_batch_id = b AND status = 'batched'`. */
  function Closed(rows: seq<IntentRow>, b: nat, status: IntentStatus, at: int): seq<IntentRow> {
    seq(|rows|, i requires 0 <= i < |rows| =>
      if rows[i].batch == Some(b) && rows[i].status == IntentBatched
      then rows[i].(status := status, updatedAt := at, settledAt := if status == IntentSettled then Some(at) else rows[i].settledAt)
      else rows[i])
  }

  function MarkSettled(s: Store, hash: nat, st: Netting.Settlement, order: seq<AgentId>): Option<Store> {
    var b := st.batchId;
    if b >= |s.batches| then None
    else if s.batches[b].status == BatchProcessing && HashTaken(s.batches, b, hash) then None
    else
      var intents := Closed(s.intents, b, IntentSettled, st.settledAt);
      match Record(s.books, SettlementKey(b), JournalRow(None, None, Some(b), st.settledAt), SettlementPostings(intents, b, order))
      case None => None
      case Some(books) =>
        Some(Store(intents, s.batches[b := SettledRow(s.batches[b], hash, st)], s.orders, books))
  }

  function MarkFailed(s: Store, b: nat, at: int): Store {
    s.(batches := if b < |s.batches| then s.batches[b := s.batches[b].(status := BatchFailed, updatedAt := at)] else s.batches,
       intents := Closed(s.intents, b, IntentFailed, at))
  }

  predicate IsStuck(r: BatchRow, olderThan: int) {
    r.status == BatchProcessing && r.updatedAt < olderThan
  }

  // ---- The repository ----

  /** Sorting rising ids by creation time lists them by creation time and then by id. */
  lemma SelectionOrdered(rows: seq<IntentRow>, found: seq<nat>, createdAt: nat -> int)
    requires forall i, j :: 0 <= i < j < |found| ==> found[i] < found[j]
    requires forall i :: i in found ==> i < |rows| && createdAt(i) == rows[i].createdAt
    ensures var ids := SortBy(found, createdAt);
      && Distinct(ids) && (forall i :: i in ids <==> i in found)
      && (forall j, k :: 0 <= j < k < |ids| ==>
            var p, q := ids[j], ids[k];
            && p < |rows| && q < |rows|
            && (rows[p].createdAt < rows[q].createdAt || (rows[p].createdAt == rows[q].createdAt && p < q)))
  {
    var ids := SortBy(found, createdAt);
    PermutationKeepsDistinct(found, ids);
    SortIsStable(found, createdAt);
    forall i
      ensures i in ids <==> i in found
    {
      assert i in ids <==> i in multiset(ids);
      assert i in found <==> i in multiset(found);
    }
    forall j, k | 0 <= j < k < |ids|
      ensures var p, q := ids[j], ids[k];
        && p < |rows| && q < |rows|
        && (rows[p].createdAt < rows[q].createdAt || (rows[p].createdAt == rows[q].createdAt && p < q))
    {
      assert ids[j] in found && ids[k] in found && Precedes(ids[j], ids[k], createdAt);
    }
  }

  class Repository {
    const db: Database

    constructor (db: Database)
      ensures this.db == db
    {
      this.db := db;
    }

    method CreateIntentWithAccrual(dir: map<AgentId, Address>, key: string, payer: AgentId, payee: AgentId,
        amount: int, at: int)
      returns (ok: bool)
      modifies db
      ensures ok <==> CreateIntent(dir, old(db.View()), key, payer, payee, amount, at).Some?
      ensures db.View() == if ok then CreateIntent(dir, old(db.View()), key, payer, payee, amount, at).value else old(db.View())
    {
      if !Insertable(dir, db.intents, key, payer, payee, amount) {
        return false;
      }
      var id := |db.intents|;
      ok := RecordJournal(db, AccrualKey(id), JournalRow(None, Some(id), None, at), AccrualPostings(payer, payee, amount));
      if ok {
        db.intents := db.intents + [NewIntent(key, payer, payee, amount, at)];
      }
    }

    /** The rows of the claim query, `ORDER BY created_at, id`. */
    method SelectPending(windowEnd: int, locked: set<nat>) returns (ids: seq<nat>)
      ensures Distinct(ids)
      ensures forall i: nat :: i in ids <==>
        i < |db.intents| && i !in locked && db.intents[i].status == IntentPending && db.intents[i].createdAt <= windowEnd
      ensures forall j, k :: 0 <= j < k < |ids| ==>
        var p, q := ids[j], ids[k];
        && p in ids && q in ids
        && (db.intents[p].createdAt < db.intents[q].createdAt || (db.intents[p].createdAt == db.intents[q].createdAt && p < q))
    {
      var found: seq<nat> := [];
      for i := 0 to |db.intents|
        invariant forall j, k :: 0 <= j < k < |found| ==> found[j] < found[k]
        invariant forall j :: 0 <= j < |found| ==> found[j] < i
        invariant forall j: nat :: j in found <==> j < i && j !in locked && Claimable(db.intents[j], windowEnd)
      {
        if i !in locked && Claimable(db.intents[i], windowEnd) {
          found := found + [i];
        }
      }
      var rows := db.intents;
      var createdAt := (i: nat) => if i < |rows| then rows[i].createdAt else 0;
      ids := SortBy(found, createdAt);
      SelectionOrdered(db.intents, found, createdAt);
    }

    /** The scan of the claim query: the joined intents, and their ids. */
    method JoinSelected(dir: map<AgentId, Address>, order: seq<nat>)
      returns (intents: seq<Netting.PaymentIntent>, ids: set<nat>)
      requires Distinct(order) && forall i :: i in order ==> i < |db.intents|
      ensures ids == Elements(order) && NettingTheory.DistinctIds(intents)
      ensures |intents| == |order| && forall k :: 0 <= k < |order| ==> intents[k].id == order[k]
      ensures forall p :: p in intents <==> p.id in ids && p.id < |db.intents| && p == Join(dir, db.intents, p.id)
    {
      intents, ids := [], {};
      ghost var done: seq<nat> := [];
      for k := 0 to |order|
        invariant done == order[..k]
        invariant ids == Elements(done)
        invariant |intents| == k && forall j :: 0 <= j < k ==> intents[j].id == order[j]
        invariant forall p :: p in intents <==> p.id in ids && p.id < |db.intents| && p == Join(dir, db.intents, p.id)
      {
        assert order[k] in order && order[k] !in done;
        ElementsSnoc(done, order[k]);
        intents := intents + [Join(dir, db.intents, order[k])];
        ids := ids + {order[k]};
        done := done + [order[k]];
      }
      assert done == order;
    }

    /** Claim whatever is pending and not locked by another claim. Without such an intent no
        batch is created. The caller gets the claimed intents, each once. */
    method ClaimPendingIntents(dir: map<AgentId, Address>, windowEnd: int, at: int, locked: set<nat>)
      returns (claim: Option<seq<Netting.PaymentIntent>>)
      modifies db
      ensures claim.None? ==> db.View() == old(db.View())
      ensures claim.None? <==> forall i :: 0 <= i < |old(db.intents)| && i !in locked ==>
        old(db.intents)[i].status != IntentPending || old(db.intents)[i].createdAt > windowEnd
      ensures claim.Some? ==>
        exists ids :: IsClaim(dir, old(db.View()), db.View(), windowEnd, at, locked, claim.value, ids)
      ensures claim.Some? ==>
        && db.batches == old(db.batches) + [BatchRow(BatchProcessing, None, 0, 0, 0, 0, at, at)]
        && BatchTook(old(db.intents), db.intents, windowEnd, locked, |old(db.batches)|, IntentBatched, at)
      ensures claim.Some? ==> OldestFirst(old(db.intents), claim.value)
    {
      var order := SelectPending(windowEnd, locked);
      if |order| == 0 {
        return None;
      }
      var intents, ids := JoinSelected(dir, order);
      Claimed(dir, db.View(), order, intents, ids, windowEnd, at, locked);
      hide OldestFirst, BatchTook, IsClaim, Assigned, AssignedJournals;
      db.batches := db.batches + [NewBatch(at)];
      db.intents := Assigned(db.intents, ids, |db.batches| - 1, at);
      db.journals := AssignedJournals(db.journals, ids, |db.batches| - 1);
      assert IsClaim(dir, old(db.View()), db.View(), windowEnd, at, locked, intents, ids);
      return Some(intents);
    }

    method AgentEntry(a: AgentId, position: GrossPosition) returns (postings: seq<Posting>)
      ensures postings == AgentPostings(a, position)
    {
      postings := [];
      if position.payable > 0 {
        postings := postings + [Posting(a, NettingPayable, Liability, Debit, position.payable)];
      }
      if position.receivable > 0 {
        postings := postings + [Posting(a, NettingReceivable, Asset, Credit, position.receivable)];
      }
      var net := position.receivable - position.payable;
      if net > 0 {
        postings := postings + [Posting(a, Cash, Asset, Debit, net)];
      }
      if net < 0 {
        postings := postings + [Posting(a, Cash, Asset, Credit, -net)];
      }
    }

    /** The settlement entry: one pass over the grouped positions, in any order. */
    method SettlementEntry(b: nat) returns (postings: seq<Posting>, ghost order: seq<AgentId>)
      ensures Enumerates(order, BatchAgents(db.intents, b))
      ensures postings == SettlementPostings(db.intents, b, order)
      ensures IsSettlementEntry(db.intents, b, postings)
    {
      var gross := GrossPositions(db.intents, b);
      postings, order := [], [];
      var remaining := gross.Keys;
      while remaining != {}
        invariant remaining <= gross.Keys
        invariant Distinct(order) && Elements(order) == gross.Keys - remaining
        invariant postings == SettlementPostings(db.intents, b, order)
        decreases remaining
      {
        var a :| a in remaining;
        var legs := AgentEntry(a, gross[a]);
        postings := postings + legs;
        assert (order + [a])[..|order|] == order;
        ElementsSnoc(order, a);
        assert a !in Elements(order);
        order := order + [a];
        remaining := remaining - {a};
      }
    }

    method MarkBatchSettled(hash: nat, st: Netting.Settlement) returns (ok: bool, ghost order: seq<AgentId>)
      modifies db
      ensures Enumerates(order, BatchAgents(old(db.intents), st.batchId))
      ensures ok <==> MarkSettled(old(db.View()), hash, st, order).Some?
      ensures db.View() == if ok then MarkSettled(old(db.View()), hash, st, order).value else old(db.View())
    {
      var b := st.batchId;
      var intentsBefore, batchesBefore := db.intents, db.batches;
      if b >= |db.batches| || (db.batches[b].status == BatchProcessing && HashTaken(db.batches, b, hash)) {
        order := SomeOrder(BatchAgents(db.intents, b));
        return false, order;
      }
      db.batches := db.batches[b := SettledRow(db.batches[b], hash, st)];
      db.intents := Closed(db.intents, b, IntentSettled, st.settledAt);
      ClosedKeepsPositions(intentsBefore, b, IntentSettled, st.settledAt);
      var postings;
      postings, order := SettlementEntry(b);
      ok := RecordJournal(db, SettlementKey(b), JournalRow(None, None, Some(b), st.settledAt), postings);
      if !ok {
        db.intents, db.batches := intentsBefore, batchesBefore;
      }
    }

    method MarkBatchFailed(b: nat, at: int)
      modifies db`batches, db`intents
      ensures db.View() == MarkFailed(old(db.View()), b, at)
    {
      if b < |db.batches| {
        db.batches := db.batches[b := db.batches[b].(status := BatchFailed, updatedAt := at)];
      }
      db.intents := Closed(db.intents, b, IntentFailed, at);
    }

    method FindStuckProcessingBatches(olderThan: int) returns (ids: seq<nat>)
      ensures Distinct(ids)
      ensures forall b: nat :: b in ids <==>
        b < |db.batches| && db.batches[b].status == BatchProcessing && db.batches[b].updatedAt < olderThan
      ensures forall j, k :: 0 <= j < k < |ids| && ids[j] in ids && ids[k] in ids ==>
        db.batches[ids[j]].createdAt <= db.batches[ids[k]].createdAt
    {
      var found: seq<nat> := [];
      for b := 0 to |db.batches|
        invariant forall j, k :: 0 <= j < k < |found| ==> found[j] < found[k]
        invariant forall j :: 0 <= j < |found| ==> found[j] < b
        invariant forall c: nat :: c in found <==> c < b && IsStuck(db.batches[c], olderThan)
      {
        if IsStuck(db.batches[b], olderThan) {
          found := found + [b];
        }
      }
      var rows := db.batches;
      var createdAt := (b: nat) => if b < |rows| then rows[b].createdAt else 0;
      ids := SortBy(found, createdAt);
      PermutationKeepsDistinct(found, ids);
      assert forall j, k :: 0 <= j < k < |ids| ==> createdAt(ids[j]) <= createdAt(ids[k]);
      assert forall b :: b in ids <==> b in multiset(ids);
      assert forall b :: b in found <==> b in multiset(found);
    }
  }

  ghost function SomeOrder(agents: set<AgentId>): (order: seq<AgentId>)
    ensures Enumerates(order, agents)
  {
    if agents == {} then []
    else
      var a :| a in agents;
      var rest := SomeOrder(agents - {a});
      ElementsSnoc(rest, a);
      assert a !in Elements(rest);
      rest + [a]
  }

  /** Closing intents changes neither their batch nor what they move. */
  lemma {:induction false} ClosedKeepsPositions(rows: seq<IntentRow>, b: nat, status: IntentStatus, at: int)
    ensures BatchAgents(Closed(rows, b, status, at), b) == BatchAgents(rows, b)
  {
    if rows != [] {
      var n := |rows| - 1;
      ClosedKeepsPositions(rows[..n], b, status, at);
      assert Closed(rows, b, status, at)[..n] == Closed(rows[..n], b, status, at);
    }
  }
}
