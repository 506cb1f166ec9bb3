/**
 What a closed or funded work order says about its transactions: in every run they are
 those of the events on the chain, and the times those of their deliveries.
 */
module CloseRecords {
  import opened Wrappers
  import opened Identity
  import opened Schema
  import opened JournalKeys
  import opened WorkOrders
  import opened Backend
  import opened Accounting
  import opened Escrow
  import opened Mirror

  /** The operation that first delivered what was logged at each position. */
  function FirstDelivered(ops: seq<Op>): map<LogPosition, Op> {
    if ops == [] then map[]
    else
      var before, op := FirstDelivered(ops[..|ops| - 1]), ops[|ops| - 1];
      if op.Emit? then before[op.position := op] else before
  }

  /** The row has the transaction of the event, and the time of its delivery. */
  predicate Recorded(o: WorkOrderRow, l: Logged, at: int) {
    match l.event
    case OrderCreated(_, _, _, _, _) => true
    case OrderReleased(_, _, _) => o.releaseTx == Some(l.position.txHash) && o.completedAt == Some(at)
    case OrderRefunded(_, _, _) => o.refundTx == Some(l.position.txHash) && o.refundedAt == Some(at)
  }

  /** Every close on the chain is recorded on the row bound to its order. */
  ghost predicate ClosesRecorded(m: State, first: map<LogPosition, Op>) {
    forall i, w :: 0 <= i < |m.chain| && 0 <= w < |m.store.orders| && !m.chain[i].event.OrderCreated? ==>
      m.store.orders[w].onchainOrderId == Some(m.chain[i].event.orderId) ==>
      m.chain[i].position in first && first[m.chain[i].position].Emit?
        && Recorded(m.store.orders[w], m.chain[i], first[m.chain[i].position].at)
  }

  ghost predicate DeliveriesKnown(m: State, first: map<LogPosition, Op>) {
    && first.Keys == m.positions
    && (forall p :: p in first ==> first[p].Emit? && first[p].position == p)
    && (forall i :: 0 <= i < |m.chain| ==> m.chain[i].position in first && first[m.chain[i].position].event == m.chain[i].event)
    && (m.pending.Some? && m.pending.value.kind.Fresh? ==>
          m.pending.value.logged.position in first
          && first[m.pending.value.logged.position] == Emit(m.pending.value.logged.event, m.pending.value.logged.position, m.pending.value.at))
  }

  ghost predicate RecordsOk(m: State, first: map<LogPosition, Op>) {
    ClosesRecorded(m, first) && DeliveriesKnown(m, first)
  }

  function Extended(first: map<LogPosition, Op>, op: Op): map<LogPosition, Op> {
    if op.Emit? then first[op.position := op] else first
  }

  // ---- One order is closed once ----

  lemma {:induction false} ClosedOnce(log: seq<Event>, i: nat, j: nat)
    requires ValidLog(log) && i < j < |log| && !log[i].OrderCreated? && !log[j].OrderCreated?
    ensures log[i].orderId != log[j].orderId
  {
    var n := |log| - 1;
    assert log[..n][i] == log[i];
    if j < n {
      assert log[..n][j] == log[j];
      ClosedOnce(log[..n], i, j);
    } else {
      ClosedInBook(log[..n], i);
    }
  }

  /** An order that a log releases is released, one that it refunds is refunded. */
  lemma {:induction false} ClosedAs(log: seq<Event>, i: nat)
    requires ValidLog(log) && i < |log| && !log[i].OrderCreated?
    ensures log[i].orderId < |Replay(log)|
    ensures Replay(log)[log[i].orderId].state == if log[i].OrderReleased? then Released else Refunded
  {
    var n := |log| - 1;
    if i < n {
      assert log[..n][i] == log[i];
      ClosedAs(log[..n], i);
    }
  }

  lemma ClosedStatus(dir: map<AgentId, Address>, m: State, i: nat, w: nat)
    requires MirrorInv(dir, m)
    requires i < |m.chain| && !m.chain[i].event.OrderCreated?
    requires w < |m.store.orders| && m.store.orders[w].onchainOrderId == Some(m.chain[i].event.orderId)
    ensures m.store.orders[w].status == if m.chain[i].event.OrderReleased? then OrderCompleted else OrderStatus.OrderRefunded
  {
    assert Events(m.chain)[i] == m.chain[i].event;
    hide StoreInv, TransactionsKept, PositionsOk, KeysOk, PendingOk;
    ClosedAs(Events(m.chain), i);
    assert Agrees(dir, m.store.orders[w], Book(m.chain)[m.chain[i].event.orderId]);
  }

  // ---- Finishing a delivery ----

  /** A close that stays on the chain is of another order than the event at hand, unless that
      comes again and binds nothing. */
  lemma CloseOfAnother(dir: map<AgentId, Address>, m: State, i: nat)
    requires MirrorInv(dir, m) && m.pending.Some? && i < |m.chain| && !m.chain[i].event.OrderCreated?
    requires m.pending.value.kind.Removal? ==> i < |m.chain| - 1
    requires m.pending.value.kind.Again? ==> StillOpen(m.chain, m.pending.value.logged.event)
    ensures m.chain[i].event.orderId != m.pending.value.logged.event.orderId
  {
    var p := m.pending.value;
    var n := |m.chain| - 1;
    assert Events(m.chain)[i] == m.chain[i].event && Events(m.chain)[n] == m.chain[n].event;
    hide StoreInv, Mirrored, TransactionsKept, KeysOk, PositionsOk, PreparedOk;
    if !p.kind.Removal? {
      ClosedInBook(Events(m.chain), i);
    } else if p.logged.event.OrderCreated? {
      assert Events(m.chain)[..n][i] == m.chain[i].event;
      ClosedInBook(Events(m.chain)[..n], i);
    } else {
      ClosedOnce(Events(m.chain), i, n);
    }
  }

  /** The row that a delivery changes is bound, before or after, to the order of the event. */
  lemma ChangedRow(dir: map<AgentId, Address>, m: State)
    requires MirrorInv(dir, m) && m.pending.Some?
    requires Finished(m.store, m.pending.value.prepared) != m.store
    ensures m.pending.value.prepared.Some?
    ensures var p, q := m.pending.value, m.pending.value.prepared.value;
      var s' := Finished(m.store, p.prepared);
      && q.workOrder < |m.store.orders| && s'.orders == m.store.orders[q.workOrder := Updated(m.store.orders[q.workOrder], q)]
      && (s'.orders[q.workOrder].onchainOrderId.Some? ==> s'.orders[q.workOrder].onchainOrderId.value == p.logged.event.orderId)
      && (p.kind.Again? ==> StillOpen(m.chain, p.logged.event))
  {
    var p := m.pending.value;
    FinishChanges(dir, m.store, DeliveryOf(p), p.prepared);
    if p.kind.Again? {
      ChangedAgain(dir, m);
    }
    hide StoreInv, Finished, Mirrored, TransactionsKept, KeysOk, PositionsOk, ValidLog, KindOk;
  }

  lemma ChangedAgain(dir: map<AgentId, Address>, m: State)
    requires MirrorInv(dir, m) && m.pending.Some? && m.pending.value.kind.Again?
    requires Finished(m.store, m.pending.value.prepared) != m.store
    ensures StillOpen(m.chain, m.pending.value.logged.event)
  {
    hide StoreInv, Finished, Mirrored, TransactionsKept, KeysOk, PositionsOk, ValidLog;
    AgainAgrees(dir, m);
    BoundWasBindable(dir, m.store, m.pending.value);
    hide Bindable;
  }

  /** A new close is recorded on the row bound to its order. */
  lemma NewCloseRecorded(dir: map<AgentId, Address>, m: State, w: nat)
    requires MirrorInv(dir, m) && m.pending.Some? && m.pending.value.kind.Fresh?
    requires !m.pending.value.logged.event.OrderCreated?
    requires w < |m.store.orders| && m.store.orders[w].onchainOrderId == Some(m.pending.value.logged.event.orderId)
    ensures var p := m.pending.value;
      var s' := Finished(m.store, p.prepared);
      |s'.orders| == |m.store.orders| && Recorded(s'.orders[w], p.logged, p.at)
  {
    var p := m.pending.value;
    var l := p.logged;
    var d := DeliveryOf(p);
    EventIdIgnoresOrder(l.position, l.event.orderId);
    assert EscrowKey(w, ActionOf(d), EventId(l.position, 0)) !in m.store.books.journals;
    assert Agrees(dir, m.store.orders[w], Book(m.chain)[l.event.orderId]);
    assert Matches(dir, m.store.orders[w], d);
    hide StoreInv, Finished, Mirrored, TransactionsKept, PositionsOk, KeysOk, ValidLog, Book, EventId, Matches, Agrees;
    FinishHits(dir, m.store, d, p.prepared, w);
  }

  lemma FinishKeepsRecorded(dir: map<AgentId, Address>, m: State, first: map<LogPosition, Op>, i: nat, w: nat)
    requires MirrorInv(dir, m) && RecordsOk(m, first) && m.pending.Some?
    requires var m' := Next(dir, m, Finish);
      && i < |m'.chain| && !m'.chain[i].event.OrderCreated?
      && w < |m'.store.orders| && m'.store.orders[w].onchainOrderId == Some(m'.chain[i].event.orderId)
    ensures var m' := Next(dir, m, Finish);
      && m'.chain[i].position in first && first[m'.chain[i].position].Emit?
      && Recorded(m'.store.orders[w], m'.chain[i], first[m'.chain[i].position].at)
  {
    var p := m.pending.value;
    var m' := Next(dir, m, Finish);
    if Finished(m.store, p.prepared) != m.store {
      ChangedRow(dir, m);
    }
    hide MirrorInv, Finished;
    if i == |m.chain| {
      NewBoundBefore(dir, m, w);
      NewCloseRecorded(dir, m, w);
    } else {
      assert m'.chain[i] == m.chain[i];
      if Finished(m.store, p.prepared) != m.store && w == p.prepared.value.workOrder {
        CloseOfAnother(dir, m, i);
      }
    }
  }

  lemma NewBoundBefore(dir: map<AgentId, Address>, m: State, w: nat)
    requires MirrorInv(dir, m) && m.pending.Some? && m.pending.value.kind.Fresh?
    requires !m.pending.value.logged.event.OrderCreated?
    requires var orders := Finished(m.store, m.pending.value.prepared).orders;
      w < |orders| && orders[w].onchainOrderId == Some(m.pending.value.logged.event.orderId)
    ensures w < |m.store.orders| && m.store.orders[w].onchainOrderId == Some(m.pending.value.logged.event.orderId)
  {
    var p := m.pending.value;
    FinishChanges(dir, m.store, DeliveryOf(p), p.prepared);
    hide StoreInv, Finished, Mirrored, TransactionsKept, KeysOk, PositionsOk, ValidLog, KindOk;
  }

  // ---- Every operation ----

  lemma FinishKeepsRecords(dir: map<AgentId, Address>, m: State, first: map<LogPosition, Op>)
    requires MirrorInv(dir, m) && RecordsOk(m, first) && m.pending.Some?
    ensures RecordsOk(Next(dir, m, Finish), first)
  {
    var m' := Next(dir, m, Finish);
    assert DeliveriesKnown(m', first) by {
      hide MirrorInv, Finished, ClosesRecorded;
      assert forall i :: 0 <= i < |m'.chain| && i < |m.chain| ==> m'.chain[i] == m.chain[i];
    }
    hide MirrorInv, Next;
    forall i, w | 0 <= i < |m'.chain| && 0 <= w < |m'.store.orders| && !m'.chain[i].event.OrderCreated?
        && m'.store.orders[w].onchainOrderId == Some(m'.chain[i].event.orderId)
      ensures m'.chain[i].position in first && first[m'.chain[i].position].Emit?
      ensures Recorded(m'.store.orders[w], m'.chain[i], first[m'.chain[i].position].at)
    {
      FinishKeepsRecorded(dir, m, first, i, w);
    }
  }

  lemma OtherKeepsRecords(dir: map<AgentId, Address>, m: State, first: map<LogPosition, Op>, step: Backend.Step)
    requires RecordsOk(m, first) && Possible(dir, m, Op.Other(step))
    ensures RecordsOk(Next(dir, m, Op.Other(step)), first)
  {
    OtherUntouched(dir, m, step);
    hide Backend.After, Possible;
  }

  lemma ReceiveKeepsRecords(dir: map<AgentId, Address>, m: State, first: map<LogPosition, Op>, op: Op)
    requires MirrorInv(dir, m) && RecordsOk(m, first) && Possible(dir, m, op) && (op.Emit? || op.Reorg? || op.Redeliver?)
    ensures RecordsOk(Next(dir, m, op), Extended(first, op))
  {
    hide StoreInv, Mirrored, TransactionsKept, KeysOk, ValidLog, PendingOk, Resolve;
  }

  lemma OpKeepsRecords(dir: map<AgentId, Address>, m: State, first: map<LogPosition, Op>, op: Op)
    requires MirrorInv(dir, m) && RecordsOk(m, first) && Possible(dir, m, op)
    ensures RecordsOk(Next(dir, m, op), Extended(first, op))
  {
    hide MirrorInv, RecordsOk, Next;
    if op.Finish? {
      FinishKeepsRecords(dir, m, first);
    } else if op.Other? {
      OtherKeepsRecords(dir, m, first, op.step);
    } else {
      hide Possible;
      ReceiveKeepsRecords(dir, m, first, op);
    }
  }

  // ---- Every run ----

  lemma MirrorStep(dir: map<AgentId, Address>, trace: seq<State>, ops: seq<Op>, i: nat)
    requires IsMirrorRun(dir, trace, ops) && i < |ops|
    ensures Possible(dir, trace[i], ops[i]) && trace[i + 1] == Next(dir, trace[i], ops[i])
  {
    hide Possible, Next;
  }

  lemma {:induction false} RunKeepsRecords(dir: map<AgentId, Address>, trace: seq<State>, ops: seq<Op>, k: nat)
    requires IsMirrorRun(dir, trace, ops) && k < |trace|
    ensures RecordsOk(trace[k], FirstDelivered(ops[..k]))
  {
    hide Next, Possible;
    if k > 0 {
      RunKeepsRecords(dir, trace, ops, k - 1);
      RunKeepsMirror(dir, trace, ops, k - 1);
      MirrorStep(dir, trace, ops, k - 1);
      assert ops[..k][..k - 1] == ops[..k - 1];
      hide MirrorInv, RecordsOk;
      OpKeepsRecords(dir, trace[k - 1], FirstDelivered(ops[..k - 1]), ops[k - 1]);
    }
  }

  lemma {:induction false} FirstIsOp(ops: seq<Op>, p: LogPosition)
    requires p in FirstDelivered(ops)
    ensures exists j :: 0 <= j < |ops| && ops[j] == FirstDelivered(ops)[p]
  {
    var n := |ops| - 1;
    if !(ops[n].Emit? && ops[n].position == p) {
      FirstIsOp(ops[..n], p);
      var j :| 0 <= j < n && ops[..n][j] == FirstDelivered(ops[..n])[p];
      assert ops[j] == FirstDelivered(ops)[p];
    }
  }

  /** The operation is the first delivery of the event. */
  predicate DeliveredBy(op: Op, l: Logged) {
    op.Emit? && op.event == l.event && op.position == l.position
  }

  /** In every run, with an event on the chain and a work order bound to its order: for a
      creation the row has its transaction; for a release or a refund it is completed or
      refunded, and has the transaction of the event on the chain and the time of the
      delivery that brought it. */
  lemma RowTellsTransactions(dir: map<AgentId, Address>, trace: seq<State>, ops: seq<Op>, k: nat, i: nat, w: nat)
    requires IsMirrorRun(dir, trace, ops) && k < |trace|
    requires i < |trace[k].chain| && w < |trace[k].store.orders|
    requires trace[k].store.orders[w].onchainOrderId == Some(trace[k].chain[i].event.orderId)
    ensures var o, l := trace[k].store.orders[w], trace[k].chain[i];
      && (l.event.OrderCreated? ==> o.orderTx == Some(l.position.txHash))
      && (l.event.OrderReleased? ==>
            && o.status == OrderCompleted && o.releaseTx == Some(l.position.txHash)
            && exists j :: 0 <= j < k && DeliveredBy(ops[j], l) && o.completedAt == Some(ops[j].at))
      && (l.event.OrderRefunded? ==>
            && o.status == OrderStatus.OrderRefunded && o.refundTx == Some(l.position.txHash)
            && exists j :: 0 <= j < k && DeliveredBy(ops[j], l) && o.refundedAt == Some(ops[j].at))
  {
    var m := trace[k];
    RunKeepsMirror(dir, trace, ops, k);
    RunKeepsRecords(dir, trace, ops, k);
    hide IsMirrorRun;
    if m.chain[i].event.OrderCreated? {
      hide StoreInv, Mirrored, PositionsOk, KeysOk, PendingOk, ValidLog, RecordsOk;
    } else {
      ClosedStatus(dir, m, i, w);
      hide MirrorInv;
      FirstIsOp(ops[..k], m.chain[i].position);
      var j :| 0 <= j < k && ops[..k][j] == FirstDelivered(ops[..k])[m.chain[i].position];
      assert ops[j] == FirstDelivered(ops[..k])[m.chain[i].position];
    }
  }
}
