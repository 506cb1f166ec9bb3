/**
 The escrow mirror: each on-chain event is resolved against the work orders without a
 transaction, and then applied in one, together with its journal entry.
 */
module WorkOrders {
  import opened Wrappers
  import opened Identity
  import opened Schema
  import opened Bookkeeping
  import opened JournalKeys
  import Escrow

  /** A webhook delivery: an event, or its removal by a chain reorganisation. */
  datatype Delivery = Delivery(event: Escrow.Event, removed: bool, position: LogPosition, at: int)

  /** A resolved event on its way to being applied: the target and the journal entry. */
  datatype Prepared = Prepared(
    action: EscrowAction,
    workOrder: nat,
    payer: AgentId,
    payee: AgentId,
    amount: int,
    onchainOrderId: nat,
    txHash: string,
    eventId: string,
    at: int)

  function ActionOf(d: Delivery): EscrowAction {
    match d.event
    case OrderCreated(_, _, _, _, _) => if d.removed then RollbackCreated else RecordCreated
    case OrderReleased(_, _, _) => if d.removed then RollbackReleased else RecordReleased
    case OrderRefunded(_, _, _) => if d.removed then RollbackRefunded else RecordRefunded
  }

  /** The status a work order must have for the action, and the one it gets. */
  function StatusBefore(a: EscrowAction): OrderStatus {
    match a
    case RecordCreated => OrderDraft
    case RollbackCreated => OrderFunded
    case RecordReleased => OrderFunded
    case RollbackReleased => OrderCompleted
    case RecordRefunded => OrderFunded
    case RollbackRefunded => OrderRefunded
  }

  function StatusAfter(a: EscrowAction): OrderStatus {
    match a
    case RecordCreated => OrderFunded
    case RollbackCreated => OrderDraft
    case RecordReleased => OrderCompleted
    case RollbackReleased => OrderFunded
    case RecordRefunded => OrderRefunded
    case RollbackRefunded => OrderFunded
  }

  // ---- Resolve ----

  predicate HasWallet(dir: map<AgentId, Address>, a: AgentId, wallet: Address) {
    a in dir && dir[a] == wallet
  }

  predicate Matches(dir: map<AgentId, Address>, o: WorkOrderRow, d: Delivery) {
    && o.status == StatusBefore(ActionOf(d))
    && o.amount == d.event.amount
    && match d.event {
         case OrderCreated(id, payer, payee, _, specHash) =>
           && o.specHash == specHash
           && HasWallet(dir, o.creator, payer) && HasWallet(dir, o.provider, payee)
           && (d.removed ==> o.onchainOrderId == Some(id) && o.orderTx == Some(d.position.txHash))
         case OrderReleased(id, payee, _) => o.onchainOrderId == Some(id) && HasWallet(dir, o.provider, payee)
         case OrderRefunded(id, payer, _) => o.onchainOrderId == Some(id) && HasWallet(dir, o.creator, payer)
       }
  }

  /** The first row that the event's query returns. */
  function FindTarget(dir: map<AgentId, Address>, orders: seq<WorkOrderRow>, d: Delivery): (r: Option<nat>)
    ensures r.Some? ==> r.value < |orders| && Matches(dir, orders[r.value], d)
    ensures r.None? ==> forall w :: 0 <= w < |orders| ==> !Matches(dir, orders[w], d)
  {
    if orders == [] then None
    else
      var n := |orders| - 1;
      match FindTarget(dir, orders[..n], d)
      case Some(w) => Some(w)
      case None => if Matches(dir, orders[n], d) then Some(n) else None
  }

  function Resolve(dir: map<AgentId, Address>, orders: seq<WorkOrderRow>, d: Delivery): Option<Prepared> {
    match FindTarget(dir, orders, d)
    case None => None
    case Some(w) => Some(Prepare(orders, w, d))
  }

  /** The journal entry that the event leads to for its target. */
  function Prepare(orders: seq<WorkOrderRow>, w: nat, d: Delivery): Prepared
    requires w < |orders|
  {
    Prepared(ActionOf(d), w, orders[w].creator, orders[w].provider, d.event.amount, d.event.orderId,
             d.position.txHash, EventId(d.position, d.event.orderId), d.at)
  }

  /** What the six queries ask of a row: an event finds a draft by its spec hash, amount and
      both parties, or a bound row by the on-chain id, the amount and the party that is paid;
      a removal finds the row as the event left it, a creation's by its transaction too. */
  lemma TargetOfEvent(dir: map<AgentId, Address>, orders: seq<WorkOrderRow>, d: Delivery)
    requires FindTarget(dir, orders, d).Some?
    ensures var o, e := orders[FindTarget(dir, orders, d).value], d.event;
      && o.amount == e.amount
      && (e.OrderCreated? ==>
            && o.specHash == e.specHash && o.creator in dir && dir[o.creator] == e.payer && o.provider in dir && dir[o.provider] == e.payee
            && (!d.removed ==> o.status == OrderDraft)
            && (d.removed ==> o.status == OrderFunded && o.onchainOrderId == Some(e.orderId) && o.orderTx == Some(d.position.txHash)))
      && (e.OrderReleased? ==>
            && o.onchainOrderId == Some(e.orderId) && o.provider in dir && dir[o.provider] == e.payee
            && o.status == if d.removed then OrderCompleted else OrderFunded)
      && (e.OrderRefunded? ==>
            && o.onchainOrderId == Some(e.orderId) && o.creator in dir && dir[o.creator] == e.payer
            && o.status == if d.removed then OrderRefunded else OrderFunded)
  {
  }

  // ---- Apply ----

  function LockPostings(payer: AgentId, payee: AgentId, amount: int): seq<Posting> {
    [ Posting(payer, EscrowLocked, Asset, Debit, amount),
      Posting(payee, EscrowPending, Liability, Credit, amount) ]
  }

  function UnlockPostings(payer: AgentId, payee: AgentId, amount: int): seq<Posting> {
    [ Posting(payee, EscrowPending, Liability, Debit, amount),
      Posting(payer, EscrowLocked, Asset, Credit, amount) ]
  }

  function EscrowPostings(a: EscrowAction, payer: AgentId, payee: AgentId, amount: int): seq<Posting> {
    match a
    case RecordCreated => LockPostings(payer, payee, amount)
    case RollbackCreated => UnlockPostings(payer, payee, amount)
    case RecordReleased =>
      UnlockPostings(payer, payee, amount)
        + [ Posting(payer, ServiceExpense, Expense, Debit, amount), Posting(payee, ServiceRevenue, Revenue, Credit, amount) ]
    case RollbackReleased =>
      LockPostings(payer, payee, amount)
        + [ Posting(payee, ServiceRevenue, Revenue, Debit, amount), Posting(payer, ServiceExpense, Expense, Credit, amount) ]
    case RecordRefunded => UnlockPostings(payer, payee, amount)
    case RollbackRefunded => LockPostings(payer, payee, amount)
  }

  /** The columns that the action's UPDATE sets. */
  function Updated(o: WorkOrderRow, p: Prepared): WorkOrderRow {
    var o' := o.(status := StatusAfter(p.action), updatedAt := p.at);
    match p.action
    case RecordCreated => o'.(onchainOrderId := Some(p.onchainOrderId), orderTx := Some(p.txHash))
    case RollbackCreated => o'.(onchainOrderId := None, orderTx := None)
    case RecordReleased => o'.(completedAt := Some(p.at), releaseTx := Some(p.txHash))
    case RollbackReleased => o'.(completedAt := None, releaseTx := None)
    case RecordRefunded => o'.(refundedAt := Some(p.at), refundTx := Some(p.txHash))
    case RollbackRefunded => o'.(refundedAt := None, refundTx := None)
  }

  /** Applied; or no row still in the required status; or a violated constraint. */
  datatype Outcome = Applied(store: Store) | NotMatched | Aborted

  predicate OnchainIdTaken(orders: seq<WorkOrderRow>, w: nat, id: nat) {
    exists i :: 0 <= i < |orders| && i != w && orders[i].onchainOrderId == Some(id)
  }

  function KeyOf(p: Prepared): JournalKey {
    EscrowKey(p.workOrder, p.action, p.eventId)
  }

  function Apply(s: Store, p: Prepared): Outcome {
    if p.workOrder >= |s.orders| || s.orders[p.workOrder].status != StatusBefore(p.action) then NotMatched
    else if p.action == RecordCreated && OnchainIdTaken(s.orders, p.workOrder, p.onchainOrderId) then Aborted
    else if p.amount <= 0 then Aborted
    else
      match Record(s.books, KeyOf(p), JournalRow(Some(p.workOrder), None, None, p.at), EscrowPostings(p.action, p.payer, p.payee, p.amount))
      case None => Aborted
      case Some(books) =>
        Applied(s.(orders := s.orders[p.workOrder := Updated(s.orders[p.workOrder], p)], books := books))
  }

  /** An event changes its own columns of its row, and no other column or row: the status
      and what comes with it, from the event and the time of its delivery. */
  lemma AppliedColumns(s: Store, p: Prepared)
    requires Apply(s, p).Applied?
    ensures var s', o := Apply(s, p).store, s.orders[p.workOrder];
      && s'.intents == s.intents && s'.batches == s.batches
      && s'.orders == s.orders[p.workOrder := s'.orders[p.workOrder]]
      && var o' := s'.orders[p.workOrder].(updatedAt := o.updatedAt);
      && s'.orders[p.workOrder].updatedAt == p.at
      && (p.action == RecordCreated ==>
            o.status == OrderDraft && o' == o.(status := OrderFunded, onchainOrderId := Some(p.onchainOrderId), orderTx := Some(p.txHash)))
      && (p.action == RollbackCreated ==>
            o.status == OrderFunded && o' == o.(status := OrderDraft, onchainOrderId := None, orderTx := None))
      && (p.action == RecordReleased ==>
            o.status == OrderFunded && o' == o.(status := OrderCompleted, completedAt := Some(p.at), releaseTx := Some(p.txHash)))
      && (p.action == RollbackReleased ==>
            o.status == OrderCompleted && o' == o.(status := OrderFunded, completedAt := None, releaseTx := None))
      && (p.action == RecordRefunded ==>
            o.status == OrderFunded && o' == o.(status := OrderRefunded, refundedAt := Some(p.at), refundTx := Some(p.txHash)))
      && (p.action == RollbackRefunded ==>
            o.status == OrderRefunded && o' == o.(status := OrderFunded, refundedAt := None, refundTx := None))
  {
    hide Record, EscrowPostings;
  }

  /** One delivery with nothing in between: resolve, then apply. */
  function Process(dir: map<AgentId, Address>, s: Store, d: Delivery): Store {
    match Resolve(dir, s.orders, d)
    case None => s
    case Some(p) =>
      match Apply(s, p)
      case Applied(s') => s'
      case _ => s
  }

  // ---- Work orders themselves ----

  predicate OrderInsertable(dir: map<AgentId, Address>, orders: seq<WorkOrderRow>, key: string, creator: AgentId,
      provider: AgentId, amount: int, specHash: nat) {
    && !(exists i :: 0 <= i < |orders| && (orders[i].idempotencyKey == key || orders[i].specHash == specHash))
    && creator in dir && provider in dir && amount > 0
  }

  function Draft(key: string, creator: AgentId, provider: AgentId, amount: int, specHash: nat, at: int): WorkOrderRow {
    WorkOrderRow(key, creator, provider, amount, OrderDraft, specHash, None, None, None, None, None, None, None, None, at)
  }

  function CreateWorkOrder(dir: map<AgentId, Address>, s: Store, key: string, creator: AgentId, provider: AgentId,
      amount: int, specHash: nat, at: int): Option<Store> {
    if !OrderInsertable(dir, s.orders, key, creator, provider, amount, specHash) then None
    else Some(s.(orders := s.orders + [Draft(key, creator, provider, amount, specHash, at)]))
  }

  predicate Deliverable(o: WorkOrderRow, id: nat) {
    o.onchainOrderId == Some(id) && o.status == OrderFunded && o.deliverableCid.None?
  }

  function Delivered(o: WorkOrderRow, cid: nat, at: int): WorkOrderRow {
    o.(deliverableCid := Some(cid), deliveredAt := Some(at), updatedAt := at)
  }

  function SubmitDelivery(s: Store, id: nat, cid: nat, at: int): Store {
    s.(orders := seq(|s.orders|, i requires 0 <= i < |s.orders| =>
      if Deliverable(s.orders[i], id) then Delivered(s.orders[i], cid, at) else s.orders[i]))
  }

  // ---- The use case over the live database ----

  class WorkOrderUsecase {
    const db: Database

    constructor (db: Database)
      ensures this.db == db
    {
      this.db := db;
    }

    /** The read-only query of an event. */
    method ResolveTarget(dir: map<AgentId, Address>, d: Delivery) returns (target: Option<nat>)
      ensures target == FindTarget(dir, db.orders, d)
    {
      target := None;
      for i := 0 to |db.orders|
        invariant target == FindTarget(dir, db.orders[..i], d)
      {
        assert db.orders[..i + 1][..i] == db.orders[..i];
        if target.None? && Matches(dir, db.orders[i], d) {
          target := Some(i);
        }
      }
      assert db.orders[..|db.orders|] == db.orders;
    }

    /** The guarded update and the journal entry, in one transaction. */
    method ApplyTransition(p: Prepared) returns (r: Result<bool, string>)
      modifies db
      ensures r == Success(true) <==> Apply(old(db.View()), p).Applied?
      ensures r == Success(false) <==> Apply(old(db.View()), p).NotMatched?
      ensures r == Success(true) ==> Apply(old(db.View()), p) == Applied(db.View())
      ensures r != Success(true) ==> db.View() == old(db.View())
    {
      if p.workOrder >= |db.orders| || db.orders[p.workOrder].status != StatusBefore(p.action) {
        return Success(false);
      }
      if p.action == RecordCreated && OnchainIdTaken(db.orders, p.workOrder, p.onchainOrderId) {
        return Failure("onchain_order_id is taken");
      }
      if p.amount <= 0 {
        return Failure("ledger amount must be positive");
      }
      var ok := RecordJournal(db, KeyOf(p), JournalRow(Some(p.workOrder), None, None, p.at),
                              EscrowPostings(p.action, p.payer, p.payee, p.amount));
      if !ok {
        return Failure("journal entry exists");
      }
      db.orders := db.orders[p.workOrder := Updated(db.orders[p.workOrder], p)];
      return Success(true);
    }

    /** Resolve, upload the journal anchor, apply. Without a match nothing is uploaded and
        nothing changes; a failed upload changes nothing either. */
    method RecordEscrowEvent(dir: map<AgentId, Address>, d: Delivery, uploaded: bool) returns (r: Result<bool, string>)
      modifies db
      ensures uploaded ==> db.View() == Process(dir, old(db.View()), d)
      ensures r != Success(true) ==> db.View() == old(db.View())
      ensures Resolve(dir, old(db.orders), d).None? ==> r == Success(false)
      ensures Resolve(dir, old(db.orders), d).Some? && !uploaded ==> r.Failure?
    {
      var target := ResolveTarget(dir, d);
      if target.None? {
        return Success(false);
      }
      if !uploaded {
        return Failure("upload escrow journal entry");
      }
      r := ApplyTransition(Prepare(db.orders, target.value, d));
    }
  }
}
