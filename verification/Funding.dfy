/**
 What is on the chain reaches the backend: a creation that finds its draft binds it, and the
 row stays bound for as long as the creation is on the chain.
 */
module Funding {
  import opened Wrappers
  import opened Identity
  import opened Schema
  import opened JournalKeys
  import opened WorkOrders
  import opened Backend
  import opened Escrow
  import opened Mirror

  /** Work order w is bound to the order that the chain's event at place n creates. */
  ghost predicate BoundAt(m: State, n: nat, w: nat) {
    && n < |m.chain| && m.chain[n].event.OrderCreated?
    && w < |m.store.orders| && m.store.orders[w].onchainOrderId == Some(m.chain[n].event.orderId)
  }

  /** A new creation is at hand, and was resolved to w. */
  ghost predicate AtHand(m: State, n: nat, l: Logged, w: nat) {
    && |m.chain| == n && m.pending.Some? && m.pending.value.kind.Fresh? && m.pending.value.logged == l
    && l.event.OrderCreated? && m.pending.value.prepared.Some? && m.pending.value.prepared.value.workOrder == w
  }

  /** Recording a new creation cannot fail: its key is new, and so is its on-chain id. */
  lemma FinishBinds(dir: map<AgentId, Address>, m: State, n: nat, l: Logged, w: nat)
    requires MirrorInv(dir, m) && AtHand(m, n, l, w)
    ensures var m' := Next(dir, m, Finish);
      BoundAt(m', n, w) && m'.chain[n] == l && m'.store.orders[w].status == OrderFunded
  {
    var p := m.pending.value;
    EventIdIgnoresOrder(l.position, l.event.orderId);
    assert EscrowKey(w, RecordCreated, EventId(l.position, 0)) !in m.store.books.journals;
    assert !OnchainIdTaken(m.store.orders, w, l.event.orderId);
    hide StoreInv, Finished, Mirrored, TransactionsKept, PositionsOk, KeysOk, ValidLog, Book, EventId, OnchainIdTaken;
    FinishHits(dir, m.store, DeliveryOf(p), p.prepared, w);
  }

  /** What takes the binding of a row back is the removal of the creation that bound it. */
  lemma UnbindingRemovesLast(dir: map<AgentId, Address>, m: State, n: nat, w: nat)
    requires ValidLog(Events(m.chain)) && m.pending.Some? && PendingOk(dir, m) && BoundAt(m, n, w)
    requires var r := m.pending.value.prepared;
      r.Some? && r.value.workOrder == w && r.value.action == RollbackCreated
    ensures m.pending.value.kind.Removal? && n == |m.chain| - 1
  {
    var last := |m.chain| - 1;
    var d := DeliveryOf(m.pending.value);
    assert Matches(dir, m.store.orders[w], d) && ActionOf(d) == RollbackCreated;
    assert m.chain[last].event.OrderCreated? && m.chain[last].event.orderId == m.chain[n].event.orderId;
    assert Events(m.chain)[last] == m.chain[last].event && Events(m.chain)[n] == m.chain[n].event;
    hide ValidLog;
    if n < last {
      CreatedOnce(Events(m.chain), n, last);
    }
  }

  /** No delivery unbinds the row but the removal of the creation itself. */
  lemma FinishKeepsBound(dir: map<AgentId, Address>, m: State, n: nat, w: nat)
    requires MirrorInv(dir, m) && m.pending.Some? && BoundAt(m, n, w)
    requires n < |Next(dir, m, Finish).chain|
    ensures BoundAt(Next(dir, m, Finish), n, w) && Next(dir, m, Finish).chain[n] == m.chain[n]
  {
    var p := m.pending.value;
    FinishChanges(dir, m.store, DeliveryOf(p), p.prepared);
    InvOrders(dir, m.store);
    if p.prepared.Some? && p.prepared.value.workOrder == w && p.prepared.value.action == RollbackCreated {
      UnbindingRemovesLast(dir, m, n, w);
    }
    hide StoreInv, Finished, MirrorInv;
    if Finished(m.store, p.prepared) != m.store {
      RowStaysBound(dir, m.store, Finished(m.store, p.prepared), p.prepared.value, w);
    }
  }

  lemma RowStaysBound(dir: map<AgentId, Address>, s: Store, s': Store, p: Prepared, w: nat)
    requires OrdersOk(dir, s) && Changed(s, s', p)
    requires w < |s.orders| && s.orders[w].onchainOrderId.Some?
    requires p.workOrder == w ==> p.action != RollbackCreated
    ensures s'.orders[w].onchainOrderId == s.orders[w].onchainOrderId
  {
    assert ColumnsOwned(s.orders[w]);
  }

  /** Other transactions leave a bound row bound, and a delivery at hand as it is. */
  lemma OpKeepsBound(dir: map<AgentId, Address>, m: State, op: Op, n: nat, w: nat)
    requires MirrorInv(dir, m) && Possible(dir, m, op) && BoundAt(m, n, w)
    requires n < |Next(dir, m, op).chain|
    ensures BoundAt(Next(dir, m, op), n, w) && Next(dir, m, op).chain[n] == m.chain[n]
  {
    if op.Finish? {
      FinishKeepsBound(dir, m, n, w);
    } else if op.Other? {
      OtherUntouched(dir, m, op.step);
    }
  }

  lemma OpKeepsAtHand(dir: map<AgentId, Address>, m: State, op: Op, n: nat, l: Logged, w: nat)
    requires MirrorInv(dir, m) && Possible(dir, m, op) && AtHand(m, n, l, w)
    ensures AtHand(Next(dir, m, op), n, l, w) || (BoundAt(Next(dir, m, op), n, w) && Next(dir, m, op).chain[n] == l)
  {
    if op.Finish? {
      FinishBinds(dir, m, n, l, w);
    }
  }

  /** The creation is at hand, or on the chain with its order bound to w. */
  ghost predicate Arrived(m: State, n: nat, l: Logged, w: nat) {
    AtHand(m, n, l, w) || (BoundAt(m, n, w) && m.chain[n] == l)
  }

  lemma OpKeepsArrived(dir: map<AgentId, Address>, m: State, op: Op, n: nat, l: Logged, w: nat)
    requires MirrorInv(dir, m) && Possible(dir, m, op) && Arrived(m, n, l, w)
    requires |Next(dir, m, op).chain| > n || Next(dir, m, op).pending.Some?
    ensures Arrived(Next(dir, m, op), n, l, w)
  {
    hide MirrorInv;
    if AtHand(m, n, l, w) {
      OpKeepsAtHand(dir, m, op, n, l, w);
    } else {
      ChainGoesOn(dir, m, op, n);
      OpKeepsBound(dir, m, op, n, w);
    }
  }

  /** A draft that matches a creation when it is delivered is bound to the order once the
      creation is on the chain, and stays so until the creation is removed. */
  lemma {:induction false} CreationStaysBound(dir: map<AgentId, Address>, trace: seq<State>, ops: seq<Op>, i: nat, k: nat,
      w: nat)
    requires IsMirrorRun(dir, trace, ops) && i < k < |trace|
    requires ops[i].Emit? && ops[i].event.OrderCreated?
    requires w < |trace[i].store.orders|
    requires Matches(dir, trace[i].store.orders[w], Delivery(ops[i].event, false, ops[i].position, ops[i].at))
    requires forall j :: i < j <= k ==> |trace[j].chain| > |trace[i].chain| || trace[j].pending == trace[i + 1].pending
    ensures trace[i + 1].pending.Some? && trace[i + 1].pending.value.logged == Logged(ops[i].event, ops[i].position)
    ensures Arrived(trace[k], |trace[i].chain|, Logged(ops[i].event, ops[i].position), w)
  {
    hide MirrorInv, Possible, Next, Matches;
    RunKeepsMirror(dir, trace, ops, i);
    MirrorStep(dir, trace, ops, i);
    ReceivedAtHand(dir, trace[i], ops[i], w);
    hide BoundAt;
    if i + 1 < k {
      RunKeepsMirror(dir, trace, ops, k - 1);
      MirrorStep(dir, trace, ops, k - 1);
      hide AtHand;
      CreationStaysBound(dir, trace, ops, i, k - 1, w);
      OpKeepsArrived(dir, trace[k - 1], ops[k - 1], |trace[i].chain|, Logged(ops[i].event, ops[i].position), w);
    }
  }

  /** So for as long as the creation is on the chain, whatever else is delivered, removed or
      done by others, that work order has the order's state: funded, completed or refunded. */
  lemma MirroredFromCreation(dir: map<AgentId, Address>, trace: seq<State>, ops: seq<Op>, i: nat, k: nat, w: nat)
    requires IsMirrorRun(dir, trace, ops) && i < k < |trace|
    requires ops[i].Emit? && ops[i].event.OrderCreated?
    requires w < |trace[i].store.orders|
    requires Matches(dir, trace[i].store.orders[w], Delivery(ops[i].event, false, ops[i].position, ops[i].at))
    requires forall j :: i < j <= k ==> |trace[j].chain| > |trace[i].chain| || trace[j].pending == trace[i + 1].pending
    requires |trace[k].chain| > |trace[i].chain|
    ensures var id, orders, book := ops[i].event.orderId, trace[k].store.orders, Book(trace[k].chain);
      && w < |orders| && orders[w].onchainOrderId == Some(id)
      && id < |book| && Agrees(dir, orders[w], book[id])
  {
    CreationStaysBound(dir, trace, ops, i, k, w);
    hide IsMirrorRun, Matches, Agrees, Book;
    BackendRefinesChain(dir, trace, ops, k, w, ops[i].event.orderId);
  }

  lemma MirrorStep(dir: map<AgentId, Address>, trace: seq<State>, ops: seq<Op>, i: nat)
    requires IsMirrorRun(dir, trace, ops) && i < |ops|
    ensures Possible(dir, trace[i], ops[i]) && trace[i + 1] == Next(dir, trace[i], ops[i])
  {
    hide Possible, Next;
  }

  lemma ReceivedAtHand(dir: map<AgentId, Address>, m: State, op: Op, w: nat)
    requires MirrorInv(dir, m) && Possible(dir, m, op)
    requires op.Emit? && op.event.OrderCreated? && w < |m.store.orders|
    requires Matches(dir, m.store.orders[w], Delivery(op.event, false, op.position, op.at))
    ensures AtHand(Next(dir, m, op), |m.chain|, Logged(op.event, op.position), w)
  {
    var d := Delivery(op.event, false, op.position, op.at);
    InvOrders(dir, m.store);
    ResolveFinds(dir, m.store, d, w);
    assert DeliveryOf(Pending(Fresh, Logged(op.event, op.position), op.at, None)) == d;
    hide StoreInv, Resolve, Matches, Mirrored, OrdersOk;
  }

  /** Only the end of a delivery makes the chain shorter, and then none is at hand. */
  lemma ChainGoesOn(dir: map<AgentId, Address>, m: State, op: Op, n: nat)
    requires Possible(dir, m, op) && n < |m.chain|
    ensures n < |Next(dir, m, op).chain| || Next(dir, m, op).pending.None?
  {
  }
}
