/**
 A spec that is uploaded after its order was closed on the chain: the creation, delivered
 once more, funds a work order whose order is closed.
 */
module LateUpload {
  import opened Wrappers
  import opened Identity
  import opened Schema
  import opened JournalKeys
  import opened WorkOrders
  import opened Backend
  import opened Escrow
  import opened Mirror

  /** An agent uploads the spec of an order that is on the chain and bound to nothing. */
  ghost predicate UploadsFor(dir: map<AgentId, Address>, m: State, e: Event, step: Backend.Step) {
    && e.OrderCreated? && step.CreateOrderStep?
    && OrderInsertable(dir, m.store.orders, step.key, step.creator, step.provider, step.amount, step.specHash)
    && HasWallet(dir, step.creator, e.payer) && HasWallet(dir, step.provider, e.payee)
    && step.amount == e.amount && step.specHash == e.specHash
    && forall w :: 0 <= w < |m.store.orders| ==> m.store.orders[w].onchainOrderId != Some(e.orderId)
  }

  /** Whenever the spec of a closed and unbound order is uploaded, its creation can bind the
      draft, and delivering it again breaks the agreement with the chain. */
  lemma LateUploadBreaks(dir: map<AgentId, Address>, m: State, i: nat, step: Backend.Step, at: int)
    requires MirrorInv(dir, m) && m.pending.None? && i < |m.chain|
    requires UploadsFor(dir, m, m.chain[i].event, step) && !StillOpen(m.chain, m.chain[i].event)
    ensures Possible(dir, m, Op.Other(step))
    ensures var m' := Next(dir, m, Op.Other(step));
      && MirrorInv(dir, m') && m'.chain == m.chain && m'.pending == None
      && Bindable(dir, m'.store, m.chain[i], |m.store.orders|)
      && !Mirrored(dir, Finished(m'.store, Resolved(dir, m'.store, Again, m.chain[i], at).prepared).orders, Book(m.chain))
  {
    OpKeepsMirror(dir, m, Op.Other(step));
    UploadIsBindable(dir, m, i, step);
    hide Bindable, MirrorInv, UploadsFor;
    RedeliveryMirroredIff(dir, Next(dir, m, Op.Other(step)), i, at);
  }

  lemma UploadIsBindable(dir: map<AgentId, Address>, m: State, i: nat, step: Backend.Step)
    requires MirrorInv(dir, m) && i < |m.chain| && UploadsFor(dir, m, m.chain[i].event, step)
    ensures Bindable(dir, Next(dir, m, Op.Other(step)).store, m.chain[i], |m.store.orders|)
  {
    var draft := Draft(step.key, step.creator, step.provider, step.amount, step.specHash, step.at);
    assert Next(dir, m, Op.Other(step)).store.orders == m.store.orders + [draft];
    hide StoreInv, Mirrored, TransactionsKept, ValidLog, Book, EventId, PendingOk, PositionsOk;
  }

  // ---- A run that comes to this ----

  function TheCreation(payer: Address, payee: Address, amount: nat, specHash: nat, p1: LogPosition): Logged {
    Logged(OrderCreated(0, payer, payee, amount, specHash), p1)
  }

  function TheClose(payer: Address, payee: Address, amount: nat, released: bool, p2: LogPosition): Logged {
    Logged(if released then OrderReleased(0, payee, amount) else Event.OrderRefunded(0, payer, amount), p2)
  }

  function Empty(): State { State(EmptyStore(), [], {}, None) }

  /** A delivery that no row matches leaves the store alone. */
  lemma Unmatched(dir: map<AgentId, Address>, chain: seq<Logged>, seen: set<LogPosition>, l: Logged, at: int)
    requires CanEmit(Book(chain), l.event)
    requires WellFormedPosition(l.position) && l.position.txHash != "" && l.position !in seen
    ensures var m := State(EmptyStore(), chain, seen, None);
      var op := Emit(l.event, l.position, at);
      && Possible(dir, m, op)
      && Next(dir, m, op).pending.Some?
      && Next(dir, Next(dir, m, op), Finish) == State(EmptyStore(), chain + [l], seen + {l.position}, None)
  {
  }

  lemma BookSnoc(chain: seq<Logged>, l: Logged)
    ensures Book(chain + [l]) == Entered(Book(chain), l.event)
  {
    EventsSnoc(chain, l);
  }

  lemma ClosedBook(l1: Logged, l2: Logged)
    requires l1.event.OrderCreated? && l1.event.orderId == 0 && CanEmit([], l1.event)
    requires !l2.event.OrderCreated? && CanEmit(Entered([], l1.event), l2.event)
    ensures Book([]) == [] && Book([] + [l1]) == Entered([], l1.event)
    ensures [] + [l1] + [l2] == [l1, l2] && !StillOpen([l1, l2], l1.event)
  {
    assert Book([]) == [] by {
      assert Events([]) == [];
    }
    assert [] + [l1] + [l2] == [l1, l2];
    BookSnoc([], l1);
    BookSnoc([] + [l1], l2);
    hide Book;
  }

  /** The order is created and closed, and the backend finds nothing to record. */
  lemma ClosedUnseen(dir: map<AgentId, Address>, l1: Logged, l2: Logged) returns (trace: seq<State>, ops: seq<Op>)
    requires l1.event.OrderCreated? && l1.event.orderId == 0 && CanEmit([], l1.event)
    requires !l2.event.OrderCreated? && CanEmit(Entered([], l1.event), l2.event)
    requires WellFormedPosition(l1.position) && l1.position.txHash != ""
    requires WellFormedPosition(l2.position) && l2.position.txHash != "" && l1.position != l2.position
    ensures IsMirrorRun(dir, trace, ops) && |ops| == 4
    ensures trace[4] == State(EmptyStore(), [l1, l2], {l1.position, l2.position}, None)
  {
    ClosedBook(l1, l2);
    Unmatched(dir, [], {}, l1, 0);
    Unmatched(dir, [] + [l1], {} + {l1.position}, l2, 0);
    var m := State(EmptyStore(), [] + [l1], {} + {l1.position}, None);
    var o1, o2 := Emit(l1.event, l1.position, 0), Emit(l2.event, l2.position, 0);
    hide Possible, Next, Book, CanEmit, EmptyStore;
    trace := [Empty(), Next(dir, Empty(), o1), m, Next(dir, m, o2), Next(dir, Next(dir, m, o2), Finish)];
    ops := [o1, Finish, o2, Finish];
    FinishPossible(dir, trace[1]);
    FinishPossible(dir, trace[3]);
    assert {} + {l1.position} + {l2.position} == {l1.position, l2.position};
  }

  lemma RunGrows(dir: map<AgentId, Address>, trace: seq<State>, ops: seq<Op>, op: Op)
    requires IsMirrorRun(dir, trace, ops) && Possible(dir, trace[|ops|], op)
    ensures IsMirrorRun(dir, trace + [Next(dir, trace[|ops|], op)], ops + [op])
  {
    hide Possible, Next;
  }

  /** For any two agents, amount and spec: an order is created and closed before its spec is
      uploaded. The run is in agreement to the end, and delivering the creation once more
      funds the work order although its order is closed. */
  lemma LateUploadReached(dir: map<AgentId, Address>, a: AgentId, b: AgentId, amount: nat, specHash: nat, released: bool,
      p1: LogPosition, p2: LogPosition, at: int)
    returns (trace: seq<State>, ops: seq<Op>)
    requires a in dir && b in dir && dir[b] != 0 && amount > 0 && p1 != p2
    requires WellFormedPosition(p1) && p1.txHash != "" && WellFormedPosition(p2) && p2.txHash != ""
    ensures IsMirrorRun(dir, trace, ops)
    ensures var m := trace[|trace| - 1];
      var creation := TheCreation(dir[a], dir[b], amount, specHash, p1);
      var s' := Finished(m.store, Resolved(dir, m.store, Again, creation, at).prepared);
      && m.chain == [creation, TheClose(dir[a], dir[b], amount, released, p2)] && m.pending == None
      && Mirrored(dir, m.store.orders, Book(m.chain))
      && Bindable(dir, m.store, creation, 0) && !StillOpen(m.chain, creation.event)
      && s'.orders != [] && s'.orders[0].status == OrderFunded && !Mirrored(dir, s'.orders, Book(m.chain))
  {
    var l1, l2 := TheCreation(dir[a], dir[b], amount, specHash, p1), TheClose(dir[a], dir[b], amount, released, p2);
    var step := CreateOrderStep("k", a, b, amount, specHash, 0);
    ClosedBook(l1, l2);
    trace, ops := ClosedUnseen(dir, l1, l2);
    var m := trace[4];
    RunKeepsMirror(dir, trace, ops, 4);
    hide IsMirrorRun, Possible, Next, Book, StillOpen, MirrorInv, Bindable, Mirrored, Finished, Resolved, CanEmit;
    LateUploadBreaks(dir, m, 0, step, at);
    RunGrows(dir, trace, ops, Op.Other(step));
    trace, ops := trace + [Next(dir, m, Op.Other(step))], ops + [Op.Other(step)];
    LateUploadAgrees(dir, trace[5], l1, at);
  }

  lemma LateUploadAgrees(dir: map<AgentId, Address>, m: State, l: Logged, at: int)
    requires MirrorInv(dir, m) && Bindable(dir, m.store, l, 0)
    ensures Mirrored(dir, m.store.orders, Book(m.chain))
    ensures var s' := Finished(m.store, Resolved(dir, m.store, Again, l, at).prepared);
      s'.orders != [] && s'.orders[0].status == OrderFunded
  {
    BindableIsBound(dir, m.store, l, at, 0);
    hide StoreInv, Mirrored, Finished, Resolved;
  }

  lemma FinishPossible(dir: map<AgentId, Address>, m: State)
    requires m.pending.Some?
    ensures Possible(dir, m, Finish)
  {
  }
}
