/**
 The backend follows the chain: Escrow events arrive in order, a reorganisation removes
 them last in first out, and at every point each bound work order agrees with its order
 on the chain. Other workers' transactions come in anywhere, also between the resolve and
 the apply of one delivery, and events still on the chain may be delivered again.
 */
module Mirror {
  import opened Wrappers
  import opened Identity
  import opened Schema
  import opened Bookkeeping
  import opened JournalKeys
  import opened WorkOrders
  import opened Backend
  import NR = NettingRepository
  import opened Accounting
  import opened Escrow

  datatype Logged = Logged(event: Event, position: LogPosition)

  /** A new event, the removal of the newest one, or one that was delivered before. */
  datatype Kind = Fresh | Removal | Again

  /** A delivery that is resolved but not yet applied. */
  datatype Pending = Pending(kind: Kind, logged: Logged, at: int, prepared: Option<Prepared>)

  /** The store, the chain as delivered, every log position ever seen, and the delivery at
      hand. */
  datatype State = State(store: Store, chain: seq<Logged>, positions: set<LogPosition>, pending: Option<Pending>)

  function Events(chain: seq<Logged>): seq<Event> {
    seq(|chain|, i requires 0 <= i < |chain| => chain[i].event)
  }

  function Book(chain: seq<Logged>): seq<ChainOrder> {
    Replay(Events(chain))
  }

  datatype Op =
    | Emit(event: Event, position: LogPosition, at: int)
    | Reorg(at: int)
    | Redeliver(index: nat, at: int)
    | Finish
    | Other(step: Backend.Step)

  function DeliveryOf(p: Pending): Delivery {
    Delivery(p.logged.event, p.kind.Removal?, p.logged.position, p.at)
  }

  function Resolved(dir: map<AgentId, Address>, s: Store, kind: Kind, logged: Logged, at: int): Pending {
    Pending(kind, logged, at, Resolve(dir, s.orders, DeliveryOf(Pending(kind, logged, at, None))))
  }

  /** The event can bind work order w: it creates an order, w is a draft with its parties,
      amount and spec hash, was not bound by this event before, and no other work order is
      bound to the on-chain id. */
  predicate Bindable(dir: map<AgentId, Address>, s: Store, l: Logged, w: nat) {
    && l.event.OrderCreated?
    && w < |s.orders|
    && Matches(dir, s.orders[w], Delivery(l.event, false, l.position, 0))
    && EscrowKey(w, RecordCreated, EventId(l.position, l.event.orderId)) !in s.books.journals
    && !OnchainIdTaken(s.orders, w, l.event.orderId)
  }

  /** The on-chain order of the event is still open. */
  predicate StillOpen(chain: seq<Logged>, e: Event) {
    e.orderId < |Book(chain)| && Book(chain)[e.orderId].state == Created
  }

  /** The contract can emit a new event, at a position not seen before; deliveries come one
      after the other; and an event whose order is closed by now comes again only if there
      is nothing it can bind. */
  ghost predicate Possible(dir: map<AgentId, Address>, m: State, op: Op) {
    match op
    case Emit(event, position, _) =>
      && m.pending.None?
      && CanEmit(Book(m.chain), event)
      && WellFormedPosition(position) && position.txHash != "" && position !in m.positions
    case Reorg(_) => m.pending.None? && m.chain != []
    case Redeliver(i, _) =>
      && m.pending.None? && i < |m.chain|
      && forall w :: Bindable(dir, m.store, m.chain[i], w) ==> StillOpen(m.chain, m.chain[i].event)
    case Finish => m.pending.Some?
    case Other(step) =>
      !step.ApplyStep? && !step.ResolveStep? && !step.DropStep? && Enabled(System(m.store, {}), step)
  }

  function Finished(s: Store, prepared: Option<Prepared>): Store {
    if prepared.Some? then ApplyResult(s, prepared.value) else s
  }

  function ChainAfter(chain: seq<Logged>, p: Pending): seq<Logged> {
    match p.kind
    case Fresh => chain + [p.logged]
    case Removal => if chain == [] then chain else chain[..|chain| - 1]
    case Again => chain
  }

  ghost function Next(dir: map<AgentId, Address>, m: State, op: Op): State
    requires Possible(dir, m, op)
  {
    match op
    case Emit(event, position, at) =>
      m.(positions := m.positions + {position}, pending := Some(Resolved(dir, m.store, Fresh, Logged(event, position), at)))
    case Reorg(at) => m.(pending := Some(Resolved(dir, m.store, Removal, m.chain[|m.chain| - 1], at)))
    case Redeliver(i, at) => m.(pending := Some(Resolved(dir, m.store, Again, m.chain[i], at)))
    case Finish =>
      var p := m.pending.value;
      State(Finished(m.store, p.prepared), ChainAfter(m.chain, p), m.positions, None)
    case Other(step) => m.(store := Backend.After(dir, System(m.store, {}), step).store)
  }

  // ---- Agreement ----

  predicate SameState(status: OrderStatus, state: OrderState) {
    match status
    case OrderDraft => false
    case OrderFunded => state == Created
    case OrderCompleted => state == Released
    case OrderRefunded => state == Refunded
  }

  predicate Agrees(dir: map<AgentId, Address>, o: WorkOrderRow, c: ChainOrder) {
    && o.amount == c.amount && o.specHash == c.specHash
    && HasWallet(dir, o.creator, c.payer) && HasWallet(dir, o.provider, c.payee)
    && SameState(o.status, c.state)
  }

  /** Every bound work order agrees with the chain order it is bound to. */
  ghost predicate Mirrored(dir: map<AgentId, Address>, orders: seq<WorkOrderRow>, book: seq<ChainOrder>) {
    forall w :: 0 <= w < |orders| && orders[w].onchainOrderId.Some? ==>
      orders[w].onchainOrderId.value < |book| && Agrees(dir, orders[w], book[orders[w].onchainOrderId.value])
  }

  /** A bound work order remembers the transaction that created its order. */
  ghost predicate TransactionsKept(orders: seq<WorkOrderRow>, chain: seq<Logged>) {
    forall i, w :: 0 <= i < |chain| && 0 <= w < |orders| && chain[i].event.OrderCreated? ==>
      orders[w].onchainOrderId == Some(chain[i].event.orderId) ==> orders[w].orderTx == Some(chain[i].position.txHash)
  }

  ghost predicate PositionsOk(m: State) {
    && (forall p :: p in m.positions ==> WellFormedPosition(p) && p.txHash != "")
    && (forall i :: 0 <= i < |m.chain| ==> m.chain[i].position in m.positions)
    && (forall i, j :: 0 <= i < j < |m.chain| ==> m.chain[i].position != m.chain[j].position)
  }

  /** Journaled events were delivered, and a rollback is journaled only for removed events. */
  ghost predicate KeysOk(m: State) {
    && (forall w: nat, a, id :: EscrowKey(w, a, id) in m.store.books.journals ==>
          w < |m.store.orders| && exists p :: p in m.positions && EventId(p, 0) == id)
    && (forall i, w, a :: 0 <= i < |m.chain| && EscrowKey(w, a, EventId(m.chain[i].position, 0)) in m.store.books.journals ==> Forward(a))
  }

  /** A resolve still holds: its target matches as it did, or no bound row matches. */
  ghost predicate PreparedOk(dir: map<AgentId, Address>, s: Store, d: Delivery, r: Option<Prepared>) {
    match r
    case Some(p) =>
      p.workOrder < |s.orders| && Matches(dir, s.orders[p.workOrder], d) && p == Prepare(s.orders, p.workOrder, d)
    case None => forall w :: 0 <= w < |s.orders| && s.orders[w].onchainOrderId.Some? ==> !Matches(dir, s.orders[w], d)
  }

  ghost predicate KindOk(dir: map<AgentId, Address>, m: State, p: Pending) {
    match p.kind
    case Fresh =>
      && CanEmit(Book(m.chain), p.logged.event)
      && (forall i :: 0 <= i < |m.chain| ==> m.chain[i].position != p.logged.position)
      && (forall w, a :: EscrowKey(w, a, EventId(p.logged.position, 0)) !in m.store.books.journals)
    case Removal => m.chain != [] && p.logged == m.chain[|m.chain| - 1]
    case Again =>
      && p.logged in m.chain
      && (p.prepared.Some? && Bindable(dir, m.store, p.logged, p.prepared.value.workOrder) ==> StillOpen(m.chain, p.logged.event))
  }

  ghost predicate PendingOk(dir: map<AgentId, Address>, m: State) {
    m.pending.Some? ==>
      var p := m.pending.value;
      && PreparedOk(dir, m.store, DeliveryOf(p), p.prepared)
      && p.logged.position in m.positions
      && KindOk(dir, m, p)
  }

  ghost predicate MirrorInv(dir: map<AgentId, Address>, m: State) {
    && StoreInv(dir, m.store)
    && ValidLog(Events(m.chain))
    && Mirrored(dir, m.store.orders, Book(m.chain))
    && TransactionsKept(m.store.orders, m.chain)
    && PositionsOk(m)
    && KeysOk(m)
    && PendingOk(dir, m)
  }

  // ---- One delivery ----

  lemma EventIdIgnoresOrder(p: LogPosition, k: nat)
    requires WellFormedPosition(p) && p.txHash != ""
    ensures EventId(p, k) == EventId(p, 0)
  {
    TrimPlain(p.txHash);
  }

  /** What processing did: nothing, or one row updated and its key journaled. */
  ghost predicate Changed(s: Store, s': Store, p: Prepared) {
    && p.workOrder < |s.orders|
    && s'.orders == s.orders[p.workOrder := Updated(s.orders[p.workOrder], p)]
    && s'.books.journals.Keys == s.books.journals.Keys + {KeyOf(p)}
    && KeyOf(p) !in s.books.journals
    && s.orders[p.workOrder].status == StatusBefore(p.action)
  }

  lemma PreparedFits(dir: map<AgentId, Address>, s: Store, d: Delivery, r: Option<Prepared>)
    requires PreparedOk(dir, s, d, r) && r.Some?
    ensures Fits(s, r.value)
  {
  }

  /** Applying a resolve that still holds changes one row and journals its key, or nothing. */
  lemma FinishChanges(dir: map<AgentId, Address>, s: Store, d: Delivery, r: Option<Prepared>)
    requires StoreInv(dir, s) && PreparedOk(dir, s, d, r)
    ensures StoreInv(dir, Finished(s, r))
    ensures Finished(s, r) == s || (r.Some? && Changed(s, Finished(s, r), r.value))
  {
    if r.Some? {
      var p := r.value;
      PreparedFits(dir, s, d, r);
      ApplyKeeps(dir, s, p);
      if Apply(s, p).Applied? {
        ApplyTables(dir, s, p);
      }
    }
  }

  /** The one row that a delivery can match is updated, unless its key is already taken or
      the on-chain id is bound elsewhere. */
  lemma FinishHits(dir: map<AgentId, Address>, s: Store, d: Delivery, r: Option<Prepared>, w: nat)
    requires StoreInv(dir, s) && PreparedOk(dir, s, d, r)
    requires w < |s.orders| && Matches(dir, s.orders[w], d) && (s.orders[w].onchainOrderId.Some? || r.Some?)
    requires EscrowKey(w, ActionOf(d), EventId(d.position, d.event.orderId)) !in s.books.journals
    requires ActionOf(d) == RecordCreated ==> !OnchainIdTaken(s.orders, w, d.event.orderId)
    ensures r.Some? && r.value.workOrder == w && Changed(s, Finished(s, r), r.value)
  {
    var p := r.value;
    OneTarget(dir, s, d, p.workOrder, w);
    PreparedFits(dir, s, d, r);
    ApplyTables(dir, s, p);
  }

  lemma FinishMisses(dir: map<AgentId, Address>, s: Store, d: Delivery, r: Option<Prepared>)
    requires PreparedOk(dir, s, d, r)
    requires forall w :: 0 <= w < |s.orders| ==> !Matches(dir, s.orders[w], d)
    ensures Finished(s, r) == s
  {
  }

  lemma ResolvePrepared(dir: map<AgentId, Address>, s: Store, d: Delivery)
    ensures PreparedOk(dir, s, d, Resolve(dir, s.orders, d))
    ensures Process(dir, s, d) == Finished(s, Resolve(dir, s.orders, d))
  {
  }

  // ---- Agreement is kept ----

  lemma CreatedAgrees(dir: map<AgentId, Address>, s: Store, book: seq<ChainOrder>, d: Delivery, r: Option<Prepared>)
    requires StoreInv(dir, s) && Mirrored(dir, s.orders, book) && PreparedOk(dir, s, d, r)
    requires !d.removed && d.event.OrderCreated? && CanEmit(book, d.event)
    ensures Mirrored(dir, Finished(s, r).orders, Entered(book, d.event))
  {
    FinishChanges(dir, s, d, r);
    hide StoreInv, Finished;
  }

  /** An open order can be bound by a creation that comes again. */
  lemma BoundAgainAgrees(dir: map<AgentId, Address>, s: Store, book: seq<ChainOrder>, d: Delivery, r: Option<Prepared>)
    requires StoreInv(dir, s) && Mirrored(dir, s.orders, book) && PreparedOk(dir, s, d, r)
    requires !d.removed && d.event.OrderCreated?
    requires var e := d.event;
      e.orderId < |book| && book[e.orderId] == ChainOrder(e.payer, e.payee, e.amount, e.specHash, book[e.orderId].state)
    requires Finished(s, r) != s ==> book[d.event.orderId].state == Created
    ensures Mirrored(dir, Finished(s, r).orders, book)
  {
    FinishChanges(dir, s, d, r);
    hide StoreInv, Finished;
  }

  /** A creation that changes anything could bind its target. */
  lemma BoundWasBindable(dir: map<AgentId, Address>, s: Store, p: Pending)
    requires PreparedOk(dir, s, DeliveryOf(p), p.prepared)
    requires p.logged.event.OrderCreated? && !p.kind.Removal?
    requires Finished(s, p.prepared) != s
    ensures p.prepared.Some? && Bindable(dir, s, p.logged, p.prepared.value.workOrder)
  {
    hide WriteLegs, EscrowPostings;
  }

  /** What the delivery of a close, or of its removal, asks of the order book. */
  predicate Closes(book: seq<ChainOrder>, d: Delivery, after: OrderState) {
    var k := d.event.orderId;
    && !d.event.OrderCreated?
    && k < |book|
    && SameState(StatusBefore(ActionOf(d)), book[k].state)
    && SameState(StatusAfter(ActionOf(d)), after)
    && d.event.amount == book[k].amount
    && (if d.event.OrderReleased? then d.event.payee == book[k].payee else d.event.payer == book[k].payer)
  }

  /** Releasing or refunding an order, and taking that back, move the bound row along. */
  lemma CloseAgrees(dir: map<AgentId, Address>, s: Store, book: seq<ChainOrder>, d: Delivery, r: Option<Prepared>, after: OrderState)
    requires StoreInv(dir, s) && Mirrored(dir, s.orders, book) && PreparedOk(dir, s, d, r)
    requires Closes(book, d, after)
    requires forall w :: EscrowKey(w, ActionOf(d), EventId(d.position, d.event.orderId)) !in s.books.journals
    ensures Mirrored(dir, Finished(s, r).orders, book[d.event.orderId := book[d.event.orderId].(state := after)])
  {
    var k := d.event.orderId;
    if w :| 0 <= w < |s.orders| && s.orders[w].onchainOrderId == Some(k) {
      assert Agrees(dir, s.orders[w], book[k]);
      assert Matches(dir, s.orders[w], d);
      FinishHits(dir, s, d, r, w);
      OnlyOneBound(dir, s, w, k);
    } else {
      FinishMisses(dir, s, d, r);
    }
  }

  lemma OnlyOneBound(dir: map<AgentId, Address>, s: Store, w: nat, k: nat)
    requires OrdersOk(dir, s)
    requires w < |s.orders| && s.orders[w].onchainOrderId == Some(k)
    ensures forall v :: 0 <= v < |s.orders| && s.orders[v].onchainOrderId == Some(k) ==> v == w
  {
  }

  /** Removing the creation of the newest order unbinds its row. */
  lemma UncreateAgrees(dir: map<AgentId, Address>, s: Store, book: seq<ChainOrder>, d: Delivery, r: Option<Prepared>)
    requires StoreInv(dir, s) && PreparedOk(dir, s, d, r)
    requires d.removed && d.event.OrderCreated? && d.event.orderId == |book|
    requires Mirrored(dir, s.orders, Entered(book, d.event))
    requires forall w :: 0 <= w < |s.orders| && s.orders[w].onchainOrderId == Some(|book|) ==> s.orders[w].orderTx == Some(d.position.txHash)
    requires forall w :: EscrowKey(w, RollbackCreated, EventId(d.position, |book|)) !in s.books.journals
    ensures Mirrored(dir, Finished(s, r).orders, book)
  {
    var k := |book|;
    if w :| 0 <= w < |s.orders| && s.orders[w].onchainOrderId == Some(k) {
      assert Agrees(dir, s.orders[w], ChainOrder(d.event.payer, d.event.payee, d.event.amount, d.event.specHash, Created));
      assert Matches(dir, s.orders[w], d);
      FinishHits(dir, s, d, r, w);
      OnlyOneBound(dir, s, w, k);
    } else {
      FinishMisses(dir, s, d, r);
    }
  }

  lemma ReopenAgrees(dir: map<AgentId, Address>, s: Store, book: seq<ChainOrder>, d: Delivery, r: Option<Prepared>)
    requires StoreInv(dir, s) && PreparedOk(dir, s, d, r)
    requires d.removed && !d.event.OrderCreated? && CanEmit(book, d.event)
    requires Mirrored(dir, s.orders, Entered(book, d.event))
    requires forall w :: EscrowKey(w, ActionOf(d), EventId(d.position, d.event.orderId)) !in s.books.journals
    ensures Mirrored(dir, Finished(s, r).orders, book)
  {
    var k := d.event.orderId;
    var now := Entered(book, d.event);
    CloseAgrees(dir, s, now, d, r, Created);
    assert now[k := now[k].(state := Created)] == book;
  }

  /** Removing the newest event takes the row back to what the order was before it. */
  lemma RemovalAgrees(dir: map<AgentId, Address>, s: Store, book: seq<ChainOrder>, d: Delivery, r: Option<Prepared>)
    requires StoreInv(dir, s) && PreparedOk(dir, s, d, r)
    requires d.removed && CanEmit(book, d.event)
    requires Mirrored(dir, s.orders, Entered(book, d.event))
    requires forall w :: 0 <= w < |s.orders| && d.event.OrderCreated? && s.orders[w].onchainOrderId == Some(d.event.orderId) ==>
      s.orders[w].orderTx == Some(d.position.txHash)
    requires forall w :: EscrowKey(w, ActionOf(d), EventId(d.position, d.event.orderId)) !in s.books.journals
    ensures Mirrored(dir, Finished(s, r).orders, book)
  {
    hide StoreInv, Finished, Mirrored, PreparedOk;
    if d.event.OrderCreated? {
      assert d.event.orderId == |book| && ActionOf(d) == RollbackCreated;
      forall w: nat
        ensures EscrowKey(w, RollbackCreated, EventId(d.position, |book|)) !in s.books.journals
      {
        assert EscrowKey(w, ActionOf(d), EventId(d.position, d.event.orderId)) !in s.books.journals;
      }
      UncreateAgrees(dir, s, book, d, r);
    } else {
      ReopenAgrees(dir, s, book, d, r);
    }
  }

  // ---- What a log says about its orders ----

  lemma EventsSnoc(chain: seq<Logged>, l: Logged)
    ensures Events(chain + [l]) == Events(chain) + [l.event]
    ensures (Events(chain) + [l.event])[..|chain|] == Events(chain)
  {
  }

  /** The chain before its last event, which the contract could emit then. */
  lemma LastEvent(chain: seq<Logged>)
    requires chain != [] && ValidLog(Events(chain))
    ensures var n := |chain| - 1;
      && ValidLog(Events(chain[..n])) && CanEmit(Book(chain[..n]), chain[n].event)
      && Book(chain) == Entered(Book(chain[..n]), chain[n].event)
  {
    var n := |chain| - 1;
    EventsSnoc(chain[..n], chain[n]);
    assert chain == chain[..n] + [chain[n]];
  }

  /** An order created in a log is in its book as created, whatever has become of it. */
  lemma {:induction false} CreatedInBook(log: seq<Event>, i: nat)
    requires ValidLog(log) && i < |log| && log[i].OrderCreated?
    ensures var e, book := log[i], Replay(log);
      e.orderId < |book| && book[e.orderId] == ChainOrder(e.payer, e.payee, e.amount, e.specHash, book[e.orderId].state)
  {
    var n := |log| - 1;
    if i < n {
      assert log[..n][i] == log[i];
      CreatedInBook(log[..n], i);
    }
  }

  /** A closed order stays closed. */
  lemma {:induction false} ClosedInBook(log: seq<Event>, i: nat)
    requires ValidLog(log) && i < |log| && !log[i].OrderCreated?
    ensures log[i].orderId < |Replay(log)| && Replay(log)[log[i].orderId].state != Created
  {
    var n := |log| - 1;
    if i < n {
      assert log[..n][i] == log[i];
      ClosedInBook(log[..n], i);
    }
  }

  /** No two events of a log create the same order. */
  lemma {:induction false} CreatedOnce(log: seq<Event>, i: nat, j: nat)
    requires ValidLog(log) && i < j < |log| && log[i].OrderCreated? && log[j].OrderCreated?
    ensures log[i].orderId != log[j].orderId
  {
    var n := |log| - 1;
    assert log[..n][i] == log[i];
    if j < n {
      assert log[..n][j] == log[j];
      CreatedOnce(log[..n], i, j);
    } else {
      CreatedInBook(log[..n], i);
    }
  }

  // ---- The other parts of the invariant ----

  /** No key of an event that was never delivered is taken. */
  lemma KeyUnseen(m: State, position: LogPosition, k: nat, w: nat, a: EscrowAction)
    requires PositionsOk(m) && KeysOk(m)
    requires WellFormedPosition(position) && position.txHash != "" && position !in m.positions
    ensures EscrowKey(w, a, EventId(position, k)) !in m.store.books.journals
  {
    EventIdIgnoresOrder(position, k);
    if EscrowKey(w, a, EventId(position, 0)) in m.store.books.journals {
      var q :| q in m.positions && EventId(q, 0) == EventId(position, 0);
      EventIdsInjective(q, 0, position, 0);
    }
  }

  /** No rollback of an event that is still on the chain is journaled. */
  lemma RollbackUnused(m: State, i: nat, k: nat, w: nat, a: EscrowAction)
    requires PositionsOk(m) && KeysOk(m)
    requires i < |m.chain| && !Forward(a)
    ensures EscrowKey(w, a, EventId(m.chain[i].position, k)) !in m.store.books.journals
  {
    EventIdIgnoresOrder(m.chain[i].position, k);
  }

  // ---- Finishing a delivery ----

  lemma FreshAgrees(dir: map<AgentId, Address>, m: State)
    requires MirrorInv(dir, m) && m.pending.Some? && m.pending.value.kind.Fresh?
    ensures var m' := Next(dir, m, Finish);
      ValidLog(Events(m'.chain)) && Mirrored(dir, m'.store.orders, Book(m'.chain))
  {
    var p := m.pending.value;
    var d := DeliveryOf(p);
    EventsSnoc(m.chain, p.logged);
    EventIdIgnoresOrder(p.logged.position, p.logged.event.orderId);
    hide StoreInv, Finished, Mirrored, PreparedOk, PositionsOk, KeysOk, TransactionsKept, EventId;
    forall w: nat
      ensures EscrowKey(w, ActionOf(d), EventId(d.position, d.event.orderId)) !in m.store.books.journals
    {
      assert EscrowKey(w, ActionOf(d), EventId(p.logged.position, 0)) !in m.store.books.journals;
    }
    if d.event.OrderCreated? {
      CreatedAgrees(dir, m.store, Book(m.chain), d, p.prepared);
    } else {
      CloseAgrees(dir, m.store, Book(m.chain), d, p.prepared, if d.event.OrderReleased? then Released else Refunded);
    }
  }

  lemma RemovedAgrees(dir: map<AgentId, Address>, m: State)
    requires MirrorInv(dir, m) && m.pending.Some? && m.pending.value.kind.Removal?
    ensures var m' := Next(dir, m, Finish);
      ValidLog(Events(m'.chain)) && Mirrored(dir, m'.store.orders, Book(m'.chain))
  {
    hide StoreInv, Finished, Mirrored, PreparedOk, PositionsOk, KeysOk, ValidLog, Book, Events;
    var n := |m.chain| - 1;
    var p := m.pending.value;
    var d := DeliveryOf(p);
    LastEvent(m.chain);
    forall w: nat
      ensures EscrowKey(w, ActionOf(d), EventId(d.position, d.event.orderId)) !in m.store.books.journals
    {
      RollbackUnused(m, n, d.event.orderId, w, ActionOf(d));
    }
    RemovalAgrees(dir, m.store, Book(m.chain[..n]), d, p.prepared);
  }

  lemma AgainAgrees(dir: map<AgentId, Address>, m: State)
    requires MirrorInv(dir, m) && m.pending.Some? && m.pending.value.kind.Again?
    ensures var m' := Next(dir, m, Finish);
      ValidLog(Events(m'.chain)) && Mirrored(dir, m'.store.orders, Book(m'.chain))
    ensures !m.pending.value.logged.event.OrderCreated? ==> Next(dir, m, Finish).store == m.store
  {
    var p := m.pending.value;
    var d := DeliveryOf(p);
    var i :| 0 <= i < |m.chain| && m.chain[i] == p.logged;
    assert Events(m.chain)[i] == p.logged.event;
    hide StoreInv, PositionsOk, KeysOk, TransactionsKept, ValidLog;
    if d.event.OrderCreated? {
      CreatedInBook(Events(m.chain), i);
      if Finished(m.store, p.prepared) != m.store {
        BoundWasBindable(dir, m.store, p);
      }
      hide Mirrored, PreparedOk, Bindable;
      BoundAgainAgrees(dir, m.store, Book(m.chain), d, p.prepared);
    } else {
      ClosedInBook(Events(m.chain), i);
      hide PreparedOk;
      FinishMisses(dir, m.store, d, p.prepared);
    }
  }

  lemma FinishKeepsAgreement(dir: map<AgentId, Address>, m: State)
    requires MirrorInv(dir, m) && m.pending.Some?
    ensures var m' := Next(dir, m, Finish);
      ValidLog(Events(m'.chain)) && Mirrored(dir, m'.store.orders, Book(m'.chain))
  {
    hide MirrorInv, Next, ValidLog, Mirrored;
    match m.pending.value.kind
    case Fresh => FreshAgrees(dir, m);
    case Removal => RemovedAgrees(dir, m);
    case Again => AgainAgrees(dir, m);
  }

  /** The only key that a delivery can add is its own. */
  lemma FinishKey(dir: map<AgentId, Address>, m: State, w: nat, a: EscrowAction, id: string)
    requires MirrorInv(dir, m) && m.pending.Some?
    requires EscrowKey(w, a, id) in Next(dir, m, Finish).store.books.journals
    ensures EscrowKey(w, a, id) in m.store.books.journals
      || (id == EventId(m.pending.value.logged.position, 0) && a == ActionOf(DeliveryOf(m.pending.value)) && w < |m.store.orders|)
    ensures |Next(dir, m, Finish).store.orders| == |m.store.orders|
  {
    var p := m.pending.value;
    FinishChanges(dir, m.store, DeliveryOf(p), p.prepared);
    EventIdIgnoresOrder(p.logged.position, p.logged.event.orderId);
    hide StoreInv, Finished, Mirrored, TransactionsKept, ValidLog, EventId;
  }

  lemma FinishKeepsSeen(dir: map<AgentId, Address>, m: State)
    requires MirrorInv(dir, m) && m.pending.Some?
    ensures var m' := Next(dir, m, Finish);
      forall w: nat, a, id :: EscrowKey(w, a, id) in m'.store.books.journals ==>
        w < |m'.store.orders| && exists p :: p in m'.positions && EventId(p, 0) == id
  {
    var m' := Next(dir, m, Finish);
    assert m.pending.value.logged.position in m'.positions;
    hide StoreInv, Finished, Mirrored, TransactionsKept, ValidLog, EventId, PreparedOk;
    forall w: nat, a, id | EscrowKey(w, a, id) in m'.store.books.journals
      ensures w < |m'.store.orders| && exists p :: p in m'.positions && EventId(p, 0) == id
    {
      FinishKey(dir, m, w, a, id);
    }
  }

  /** After the delivery, events on the chain have forward keys only. */
  lemma FinishKeepsForward(dir: map<AgentId, Address>, m: State, i: nat, w: nat, a: EscrowAction)
    requires MirrorInv(dir, m) && m.pending.Some?
    requires i < |Next(dir, m, Finish).chain|
    requires EscrowKey(w, a, EventId(Next(dir, m, Finish).chain[i].position, 0)) in Next(dir, m, Finish).store.books.journals
    ensures Forward(a)
  {
    var m' := Next(dir, m, Finish);
    var p := m.pending.value;
    var q := m'.chain[i].position;
    FinishKey(dir, m, w, a, EventId(q, 0));
    hide StoreInv, Finished, Mirrored, TransactionsKept, ValidLog, PreparedOk, EventId;
    if EscrowKey(w, a, EventId(q, 0)) in m.store.books.journals {
      if i < |m.chain| {
        assert m'.chain[i] == m.chain[i];
      }
    } else if p.kind.Removal? {
      assert m'.chain[i] == m.chain[i] && q in m.positions && q != p.logged.position;
      EventIdsInjective(q, 0, p.logged.position, 0);
    }
  }

  lemma FinishKeepsKeys(dir: map<AgentId, Address>, m: State)
    requires MirrorInv(dir, m) && m.pending.Some?
    ensures PositionsOk(Next(dir, m, Finish)) && KeysOk(Next(dir, m, Finish))
  {
    var m' := Next(dir, m, Finish);
    FinishKeepsSeen(dir, m);
    FinishKeepsPositions(dir, m);
    hide MirrorInv, Next, EventId;
    forall i, w, a | 0 <= i < |m'.chain| && EscrowKey(w, a, EventId(m'.chain[i].position, 0)) in m'.store.books.journals
      ensures Forward(a)
    {
      FinishKeepsForward(dir, m, i, w, a);
    }
  }

  lemma FinishKeepsPositions(dir: map<AgentId, Address>, m: State)
    requires MirrorInv(dir, m) && m.pending.Some?
    ensures PositionsOk(Next(dir, m, Finish))
  {
    hide StoreInv, Finished, Mirrored, TransactionsKept, KeysOk, ValidLog, PreparedOk, EventId;
    var chain := Next(dir, m, Finish).chain;
    assert forall i :: 0 <= i < |chain| && i < |m.chain| ==> chain[i] == m.chain[i];
  }

  lemma FinishKeepsTransactions(dir: map<AgentId, Address>, m: State)
    requires MirrorInv(dir, m) && m.pending.Some?
    ensures TransactionsKept(Next(dir, m, Finish).store.orders, Next(dir, m, Finish).chain)
  {
    var m', p := Next(dir, m, Finish), m.pending.value;
    FinishChanges(dir, m.store, DeliveryOf(p), p.prepared);
    hide StoreInv, Finished, PositionsOk, KeysOk;
    forall i, w | 0 <= i < |m'.chain| && 0 <= w < |m'.store.orders| && m'.chain[i].event.OrderCreated?
        && m'.store.orders[w].onchainOrderId == Some(m'.chain[i].event.orderId)
      ensures m'.store.orders[w].orderTx == Some(m'.chain[i].position.txHash)
    {
      RowKeepsTransaction(dir, m, m', i, w);
    }
  }

  lemma RowKeepsTransaction(dir: map<AgentId, Address>, m: State, m': State, i: nat, w: nat)
    requires ValidLog(Events(m.chain)) && Mirrored(dir, m.store.orders, Book(m.chain)) && TransactionsKept(m.store.orders, m.chain)
    requires m.pending.Some? && PendingOk(dir, m)
    requires m'.chain == ChainAfter(m.chain, m.pending.value)
    requires m'.store == m.store || (m.pending.value.prepared.Some? && Changed(m.store, m'.store, m.pending.value.prepared.value))
    requires i < |m'.chain| && w < |m'.store.orders| && m'.chain[i].event.OrderCreated?
    requires m'.store.orders[w].onchainOrderId == Some(m'.chain[i].event.orderId)
    ensures m'.store.orders[w].orderTx == Some(m'.chain[i].position.txHash)
  {
    var p := m.pending.value;
    hide ValidLog, Book;
    if i < |m.chain| {
      assert m'.chain[i] == m.chain[i] && Events(m.chain)[i] == m.chain[i].event;
      CreatedInBook(Events(m.chain), i);
      if p.kind.Again? {
        var j :| 0 <= j < |m.chain| && m.chain[j] == p.logged;
        assert Events(m.chain)[j] == p.logged.event;
        if p.logged.event.OrderCreated? && i != j {
          CreatedOnce(Events(m.chain), if i < j then i else j, if i < j then j else i);
        }
      }
      BookIsReplay(m.chain);
    } else {
      BookIsReplay(m.chain);
    }
  }

  lemma BookIsReplay(chain: seq<Logged>)
    ensures Book(chain) == Replay(Events(chain))
  {
  }

  lemma FinishKeeps(dir: map<AgentId, Address>, m: State)
    requires MirrorInv(dir, m) && m.pending.Some?
    ensures MirrorInv(dir, Next(dir, m, Finish))
  {
    FinishKeepsAgreement(dir, m);
    FinishKeepsTransactions(dir, m);
    FinishKeepsKeys(dir, m);
    var p := m.pending.value;
    FinishChanges(dir, m.store, DeliveryOf(p), p.prepared);
    hide StoreInv, Finished, Mirrored, TransactionsKept, PositionsOk, KeysOk, ValidLog, Book, KindOk, PreparedOk;
  }

  // ---- Receiving a delivery ----

  lemma ReceiveKeeps(dir: map<AgentId, Address>, m: State, op: Op)
    requires MirrorInv(dir, m) && Possible(dir, m, op) && (op.Emit? || op.Reorg? || op.Redeliver?)
    ensures MirrorInv(dir, Next(dir, m, op))
  {
    var m' := Next(dir, m, op);
    var p := m'.pending.value;
    ResolvePrepared(dir, m.store, DeliveryOf(p));
    ReceivedKind(dir, m, op);
    ReceivedKeys(dir, m, op);
    hide StoreInv, Mirrored, TransactionsKept, PositionsOk, KeysOk, ValidLog, Book, KindOk, PreparedOk, Resolve;
  }

  lemma ReceivedKeys(dir: map<AgentId, Address>, m: State, op: Op)
    requires MirrorInv(dir, m) && Possible(dir, m, op) && (op.Emit? || op.Reorg? || op.Redeliver?)
    ensures PositionsOk(Next(dir, m, op)) && KeysOk(Next(dir, m, op))
    ensures Next(dir, m, op).pending.value.logged.position in Next(dir, m, op).positions
  {
    var m' := Next(dir, m, op);
    hide StoreInv, Mirrored, TransactionsKept, ValidLog, PreparedOk, Resolve, EventId, Book;
    assert m.positions <= m'.positions;
    forall w, a, id | EscrowKey(w, a, id) in m'.store.books.journals
      ensures exists p :: p in m'.positions && EventId(p, 0) == id
    {
      var p :| p in m.positions && EventId(p, 0) == id;
      assert p in m'.positions;
    }
  }

  lemma ReceivedKind(dir: map<AgentId, Address>, m: State, op: Op)
    requires MirrorInv(dir, m) && Possible(dir, m, op) && (op.Emit? || op.Reorg? || op.Redeliver?)
    ensures KindOk(dir, Next(dir, m, op), Next(dir, m, op).pending.value)
  {
    hide StoreInv, Mirrored, TransactionsKept, ValidLog, PreparedOk, Resolve, EventId, Book;
    if op.Emit? {
      forall w, a
        ensures EscrowKey(w, a, EventId(op.position, 0)) !in m.store.books.journals
      {
        KeyUnseen(m, op.position, 0, w, a);
      }
    }
  }

  /** Transactions that are not escrow events leave bound rows and escrow keys alone. */
  ghost predicate Untouched(s: Store, s': Store) {
    && |s.orders| <= |s'.orders|
    && (forall w :: 0 <= w < |s.orders| ==>
          var o' := s'.orders[w];
          o' == s.orders[w].(deliverableCid := o'.deliverableCid, deliveredAt := o'.deliveredAt, updatedAt := o'.updatedAt))
    && (forall w :: |s.orders| <= w < |s'.orders| ==> s'.orders[w].onchainOrderId == None)
    && (forall w, a, id :: EscrowKey(w, a, id) in s'.books.journals <==> EscrowKey(w, a, id) in s.books.journals)
  }

  lemma OtherUntouched(dir: map<AgentId, Address>, m: State, step: Backend.Step)
    requires Possible(dir, m, Other(step))
    ensures Untouched(m.store, Next(dir, m, Other(step)).store)
  {
    var t := m.store;
    match step
    case CreateIntentStep(key, payer, payee, amount, at) =>
      RecordAppends(t.books, AccrualKey(|t.intents|), JournalRow(None, Some(|t.intents|), None, at),
                    NR.AccrualPostings(payer, payee, amount));
    case MarkSettledStep(_, st, order) =>
      SettledAppends(t, st.batchId, st.settledAt, order);
    case _ =>
  }

  lemma SettledAppends(t: Store, b: nat, at: int, order: seq<AgentId>)
    ensures var ps := NR.SettlementPostings(NR.Closed(t.intents, b, IntentSettled, at), b, order);
      var r := Record(t.books, SettlementKey(b), JournalRow(None, None, Some(b), at), ps);
      r.Some? ==> r.value.journals == t.books.journals[SettlementKey(b) := JournalRow(None, None, Some(b), at)]
  {
    RecordAppends(t.books, SettlementKey(b), JournalRow(None, None, Some(b), at),
                  NR.SettlementPostings(NR.Closed(t.intents, b, IntentSettled, at), b, order));
  }

  /** A resolve survives other workers' transactions. */
  lemma PreparedStays(dir: map<AgentId, Address>, s: Store, s': Store, d: Delivery, r: Option<Prepared>)
    requires PreparedOk(dir, s, d, r) && Untouched(s, s')
    ensures PreparedOk(dir, s', d, r)
  {
  }

  /** What could not be bound before cannot be bound after. */
  lemma BindableStays(dir: map<AgentId, Address>, s: Store, s': Store, l: Logged, w: nat)
    requires Untouched(s, s') && w < |s.orders|
    requires Bindable(dir, s', l, w)
    ensures Bindable(dir, s, l, w)
  {
    assert forall i :: 0 <= i < |s.orders| ==> s'.orders[i].onchainOrderId == s.orders[i].onchainOrderId;
  }

  lemma OtherKeepsPending(dir: map<AgentId, Address>, m: State, s': Store)
    requires PendingOk(dir, m) && Untouched(m.store, s')
    ensures PendingOk(dir, m.(store := s'))
  {
    if m.pending.Some? {
      var p := m.pending.value;
      PreparedStays(dir, m.store, s', DeliveryOf(p), p.prepared);
      if p.kind.Again? && p.prepared.Some? && Bindable(dir, s', p.logged, p.prepared.value.workOrder) {
        BindableStays(dir, m.store, s', p.logged, p.prepared.value.workOrder);
      }
      hide PreparedOk, Bindable, Book;
    }
  }

  lemma UntouchedKeeps(dir: map<AgentId, Address>, m: State, s': Store)
    requires Untouched(m.store, s')
    requires Mirrored(dir, m.store.orders, Book(m.chain)) && TransactionsKept(m.store.orders, m.chain) && KeysOk(m)
    ensures Mirrored(dir, s'.orders, Book(m.chain)) && TransactionsKept(s'.orders, m.chain) && KeysOk(m.(store := s'))
  {
    hide Book, EventId;
  }

  lemma OtherKeeps(dir: map<AgentId, Address>, m: State, step: Backend.Step)
    requires MirrorInv(dir, m) && Possible(dir, m, Other(step))
    ensures MirrorInv(dir, Next(dir, m, Other(step)))
  {
    var m' := Next(dir, m, Other(step));
    OtherUntouched(dir, m, step);
    StepKeepsInv(dir, System(m.store, {}), step);
    OtherKeepsPending(dir, m, m'.store);
    UntouchedKeeps(dir, m, m'.store);
    hide StoreInv, PendingOk, Backend.After, ValidLog, Book, Mirrored, TransactionsKept, KeysOk, Untouched;
  }

  lemma OpKeepsMirror(dir: map<AgentId, Address>, m: State, op: Op)
    requires MirrorInv(dir, m) && Possible(dir, m, op)
    ensures MirrorInv(dir, Next(dir, m, op))
  {
    if op.Finish? {
      hide MirrorInv, Next;
      FinishKeeps(dir, m);
    } else if op.Other? {
      hide MirrorInv, Next;
      OtherKeeps(dir, m, op.step);
    } else {
      hide MirrorInv, Next, Possible;
      ReceiveKeeps(dir, m, op);
    }
  }

  ghost predicate IsMirrorRun(dir: map<AgentId, Address>, trace: seq<State>, ops: seq<Op>) {
    && |trace| == |ops| + 1
    && trace[0] == State(EmptyStore(), [], {}, None)
    && forall i :: 0 <= i < |ops| ==> Possible(dir, trace[i], ops[i]) && trace[i + 1] == Next(dir, trace[i], ops[i])
  }

  lemma EmptyMirror(dir: map<AgentId, Address>)
    ensures MirrorInv(dir, State(EmptyStore(), [], {}, None))
  {
    EmptyInv(dir);
    hide StoreInv;
  }

  lemma {:induction false} RunKeepsMirror(dir: map<AgentId, Address>, trace: seq<State>, ops: seq<Op>, i: nat)
    requires IsMirrorRun(dir, trace, ops) && i < |trace|
    ensures MirrorInv(dir, trace[i])
  {
    hide MirrorInv, Next, Possible;
    if i == 0 {
      EmptyMirror(dir);
    } else {
      RunKeepsMirror(dir, trace, ops, i - 1);
      OpKeepsMirror(dir, trace[i - 1], ops[i - 1]);
    }
  }

  /** At every point of every such run, a work order bound to order k of the chain has its
      amount, payer, payee and spec hash, and is funded, completed or refunded exactly when
      the order is created, released or refunded; and no two work orders share an order. */
  lemma BackendRefinesChain(dir: map<AgentId, Address>, trace: seq<State>, ops: seq<Op>, i: nat, w: nat, k: nat)
    requires IsMirrorRun(dir, trace, ops) && i < |trace|
    requires w < |trace[i].store.orders| && trace[i].store.orders[w].onchainOrderId == Some(k)
    ensures var book := Book(trace[i].chain);
      k < |book| && Agrees(dir, trace[i].store.orders[w], book[k])
    ensures forall v :: 0 <= v < |trace[i].store.orders| && trace[i].store.orders[v].onchainOrderId == Some(k) ==> v == w
  {
    RunKeepsMirror(dir, trace, ops, i);
    hide StoreInv;
    InvOrders(dir, trace[i].store);
    OnlyOneBound(dir, trace[i].store, w, k);
  }

  /** The same against the contract's own storage, which is what its log tells: in every run
      of the contract (module Escrow) a bound work order agrees with the stored order. */
  lemma BackendRefinesContract(dir: map<AgentId, Address>, trace: seq<State>, ops: seq<Op>, i: nat, w: nat, k: nat,
      self: Address, world: World)
    requires IsMirrorRun(dir, trace, ops) && i < |trace|
    requires w < |trace[i].store.orders| && trace[i].store.orders[w].onchainOrderId == Some(k)
    requires Solvent(self, world) && world.vault.log == Events(trace[i].chain)
    ensures k in world.vault.orders
    ensures var c := world.vault.orders[k];
      Agrees(dir, trace[i].store.orders[w], ChainOrder(c.payer, c.payee, c.amount, c.specHash, c.state))
  {
    BackendRefinesChain(dir, trace, ops, i, w, k);
    hide IsMirrorRun, Locked, ValidLog, Events, Replay, Agrees;
  }

  lemma InvOrders(dir: map<AgentId, Address>, s: Store)
    requires StoreInv(dir, s)
    ensures OrdersOk(dir, s)
  {
  }

  // ---- Events that come back ----

  /** A delivery that matches a row takes effect if and only if its journal key is new and,
      for a creation, no other work order is bound to the on-chain id. */
  lemma TakesEffectIff(dir: map<AgentId, Address>, s: Store, d: Delivery, w: nat)
    requires StoreInv(dir, s)
    requires w < |s.orders| && Matches(dir, s.orders[w], d)
    ensures Process(dir, s, d) != s <==>
      && EscrowKey(w, ActionOf(d), EventId(d.position, d.event.orderId)) !in s.books.journals
      && (ActionOf(d) == RecordCreated ==> !OnchainIdTaken(s.orders, w, d.event.orderId))
  {
    var key := EscrowKey(w, ActionOf(d), EventId(d.position, d.event.orderId));
    var r := Resolve(dir, s.orders, d);
    ResolvePrepared(dir, s, d);
    OneTarget(dir, s, d, r.value.workOrder, w);
    if key !in s.books.journals && (ActionOf(d) == RecordCreated ==> !OnchainIdTaken(s.orders, w, d.event.orderId)) {
      FinishHits(dir, s, d, r, w);
      hide StoreInv, Process, Finished, OnchainIdTaken;
      assert key in Process(dir, s, d).books.journals;
    }
  }

  lemma KeyTakenIsNoOp(dir: map<AgentId, Address>, s: Store, d: Delivery, w: nat)
    requires OrdersOk(dir, s)
    requires w < |s.orders| && Carries(s.orders[w], d)
    requires EscrowKey(w, ActionOf(d), EventId(d.position, d.event.orderId)) in s.books.journals
    ensures Process(dir, s, d) == s
  {
    var r := Resolve(dir, s.orders, d);
    if r.Some? {
      OneTarget(dir, s, d, r.value.workOrder, w);
    }
  }

  /** After a close, or its removal, is delivered for a bound order, the backend agrees with
      the chain if and only if the journal key of the delivery is new for the bound row. */
  lemma CloseMirroredIff(dir: map<AgentId, Address>, s: Store, book: seq<ChainOrder>, d: Delivery, after: OrderState, w: nat)
    requires StoreInv(dir, s) && Mirrored(dir, s.orders, book) && Closes(book, d, after)
    requires w < |s.orders| && s.orders[w].onchainOrderId == Some(d.event.orderId)
    ensures Mirrored(dir, Process(dir, s, d).orders, book[d.event.orderId := book[d.event.orderId].(state := after)]) <==>
      EscrowKey(w, ActionOf(d), EventId(d.position, d.event.orderId)) !in s.books.journals
  {
    var k := d.event.orderId;
    assert Agrees(dir, s.orders[w], book[k]) && Matches(dir, s.orders[w], d);
    InvOrders(dir, s);
    if EscrowKey(w, ActionOf(d), EventId(d.position, k)) in s.books.journals {
      KeyTakenIsNoOp(dir, s, d, w);
      hide StoreInv, Process;
      assert !Agrees(dir, s.orders[w], book[k].(state := after));
    } else {
      ResolvePrepared(dir, s, d);
      FinishHits(dir, s, d, Resolve(dir, s.orders, d), w);
      OnlyOneBound(dir, s, w, k);
      hide StoreInv, Process, Finished, Resolve;
    }
  }

  /** A release or refund that a reorganisation removes, and that returns at the very same
      transaction, block and log index, is lost: the order is closed on the chain, and its
      work order stays funded. */
  lemma ReincludedCloseIsLost(dir: map<AgentId, Address>, s: Store, book: seq<ChainOrder>, d: Delivery, w: nat,
      removedAt: int, again: int)
    requires StoreInv(dir, s) && Mirrored(dir, s.orders, book)
    requires !d.removed && !d.event.OrderCreated? && CanEmit(book, d.event)
    requires w < |s.orders| && s.orders[w].onchainOrderId == Some(d.event.orderId)
    requires var id := EventId(d.position, d.event.orderId);
      && EscrowKey(w, ActionOf(d), id) !in s.books.journals
      && EscrowKey(w, ActionOf(d.(removed := true)), id) !in s.books.journals
    ensures var s1 := Process(dir, s, d);
      var s2 := Process(dir, s1, d.(removed := true, at := removedAt));
      var s3 := Process(dir, s2, d.(at := again));
      var closed := Entered(book, d.event);
      && Mirrored(dir, s1.orders, closed) && Mirrored(dir, s2.orders, book)
      && s3 == s2 && s3.orders[w].status == OrderFunded
      && !Agrees(dir, s3.orders[w], closed[d.event.orderId]) && !Mirrored(dir, s3.orders, closed)
  {
    var d3 := d.(at := again);
    var s2 := Process(dir, Process(dir, s, d), d.(removed := true, at := removedAt));
    CloseAndBack(dir, s, book, d, w, removedAt);
    EnteredCloses(book, d);
    EnteredCloses(book, d3);
    hide StoreInv, Process, Mirrored, EventId, Entered, CanEmit;
    InvOrders(dir, s2);
    CarriesBound(s2.orders[w], d3);
    KeyTakenIsNoOp(dir, s2, d3, w);
    CloseMirroredIff(dir, s2, book, d3, StateAfter(d.event), w);
  }

  function StateAfter(e: Event): OrderState {
    if e.OrderReleased? then Released else Refunded
  }

  /** A close that the contract can emit closes its order, and its removal opens it again. */
  lemma EnteredCloses(book: seq<ChainOrder>, d: Delivery)
    requires !d.removed && !d.event.OrderCreated? && CanEmit(book, d.event)
    ensures Closes(book, d, StateAfter(d.event))
    ensures Closes(Entered(book, d.event), d.(removed := true), Created)
    ensures Entered(book, d.event) == book[d.event.orderId := book[d.event.orderId].(state := StateAfter(d.event))]
    ensures Entered(book, d.event)[d.event.orderId := Entered(book, d.event)[d.event.orderId].(state := Created)] == book
  {
  }

  lemma CarriesBound(o: WorkOrderRow, d: Delivery)
    requires o.onchainOrderId == Some(d.event.orderId) && !d.event.OrderCreated?
    ensures Carries(o, d)
  {
  }

  /** A close and then its removal: the work order is closed and funded again, and both keys
      are used up. */
  lemma CloseAndBack(dir: map<AgentId, Address>, s: Store, book: seq<ChainOrder>, d: Delivery, w: nat, removedAt: int)
    requires StoreInv(dir, s) && Mirrored(dir, s.orders, book)
    requires !d.removed && !d.event.OrderCreated? && CanEmit(book, d.event)
    requires w < |s.orders| && s.orders[w].onchainOrderId == Some(d.event.orderId)
    requires var id := EventId(d.position, d.event.orderId);
      && EscrowKey(w, ActionOf(d), id) !in s.books.journals
      && EscrowKey(w, ActionOf(d.(removed := true)), id) !in s.books.journals
    ensures var s1 := Process(dir, s, d);
      var s2 := Process(dir, s1, d.(removed := true, at := removedAt));
      && Mirrored(dir, s1.orders, Entered(book, d.event)) && Mirrored(dir, s2.orders, book) && StoreInv(dir, s2)
      && |s2.orders| == |s.orders| && s2.orders[w].onchainOrderId == Some(d.event.orderId)
      && s2.orders[w].status == OrderFunded
      && EscrowKey(w, ActionOf(d), EventId(d.position, d.event.orderId)) in s2.books.journals
  {
    var d2 := d.(removed := true, at := removedAt);
    EnteredCloses(book, d);
    EnteredCloses(book, d.(at := removedAt));
    hide StoreInv, Process, Mirrored, EventId, Entered, CanEmit, Closes;
    ClosesOnce(dir, s, book, d, StateAfter(d.event), w);
    ClosesOnce(dir, Process(dir, s, d), Entered(book, d.event), d2, Created, w);
  }

  /** So at any point of any run, any close of a bound order that the contract can emit, at
      any new position, is lost once it is removed and comes back there. */
  lemma AnyCloseCanBeLost(dir: map<AgentId, Address>, trace: seq<State>, ops: seq<Op>, i: nat, d: Delivery, w: nat,
      removedAt: int, again: int)
    requires IsMirrorRun(dir, trace, ops) && i < |trace|
    requires !d.removed && !d.event.OrderCreated? && Possible(dir, trace[i], Emit(d.event, d.position, d.at))
    requires var orders := trace[i].store.orders;
      w < |orders| && orders[w].onchainOrderId == Some(d.event.orderId)
    ensures var s2 := Process(dir, Process(dir, trace[i].store, d), d.(removed := true, at := removedAt));
      && Mirrored(dir, s2.orders, Book(trace[i].chain))
      && Process(dir, s2, d.(at := again)) == s2
      && !Mirrored(dir, s2.orders, Book(trace[i].chain + [Logged(d.event, d.position)]))
  {
    var m := trace[i];
    RunKeepsMirror(dir, trace, ops, i);
    EventsSnoc(m.chain, Logged(d.event, d.position));
    KeyUnseen(m, d.position, d.event.orderId, w, ActionOf(d));
    KeyUnseen(m, d.position, d.event.orderId, w, ActionOf(d.(removed := true)));
    hide IsMirrorRun, StoreInv, Mirrored, ValidLog, TransactionsKept, PositionsOk, KeysOk, PendingOk, Process, EventId, Book;
    ReincludedCloseIsLost(dir, m.store, Book(m.chain), d, w, removedAt, again);
  }

  /** One close, or its removal, under a new key. */
  lemma ClosesOnce(dir: map<AgentId, Address>, s: Store, book: seq<ChainOrder>, d: Delivery, after: OrderState, w: nat)
    requires StoreInv(dir, s) && Mirrored(dir, s.orders, book) && Closes(book, d, after)
    requires w < |s.orders| && s.orders[w].onchainOrderId == Some(d.event.orderId)
    requires EscrowKey(w, ActionOf(d), EventId(d.position, d.event.orderId)) !in s.books.journals
    ensures var s' := Process(dir, s, d);
      var key := EscrowKey(w, ActionOf(d), EventId(d.position, d.event.orderId));
      && StoreInv(dir, s')
      && Mirrored(dir, s'.orders, book[d.event.orderId := book[d.event.orderId].(state := after)])
      && |s'.orders| == |s.orders| && s'.orders[w].onchainOrderId == s.orders[w].onchainOrderId
      && s'.orders[w].status == StatusAfter(ActionOf(d))
      && s'.books.journals.Keys == s.books.journals.Keys + {key}
  {
    CloseMirroredIff(dir, s, book, d, after, w);
    assert Agrees(dir, s.orders[w], book[d.event.orderId]) && Matches(dir, s.orders[w], d);
    ProcessHits(dir, s, d, w);
    hide StoreInv, Process, Mirrored;
  }

  /** A creation that is removed and returns at the same place leaves its work order a draft,
      bound to nothing. */
  lemma ReincludedCreationIsLost(dir: map<AgentId, Address>, s: Store, d: Delivery, w: nat, removedAt: int, again: int)
    requires StoreInv(dir, s)
    requires d.event.OrderCreated? && !d.removed
    requires w < |s.orders| && Matches(dir, s.orders[w], d) && !OnchainIdTaken(s.orders, w, d.event.orderId)
    requires var id := EventId(d.position, d.event.orderId);
      EscrowKey(w, RecordCreated, id) !in s.books.journals && EscrowKey(w, RollbackCreated, id) !in s.books.journals
    ensures var s1 := Process(dir, s, d);
      var s2 := Process(dir, s1, d.(removed := true, at := removedAt));
      && s1.orders[w].status == OrderFunded && s1.orders[w].onchainOrderId == Some(d.event.orderId)
      && Process(dir, s2, d.(at := again)) == s2
      && s2.orders[w].status == OrderDraft && s2.orders[w].onchainOrderId == None
  {
    var d2, d3 := d.(removed := true, at := removedAt), d.(at := again);
    var s1 := Process(dir, s, d);
    var s2 := Process(dir, s1, d2);
    hide StoreInv, Process, EventId;
    ProcessHits(dir, s, d, w);
    assert Matches(dir, s1.orders[w], d2);
    ProcessHits(dir, s1, d2, w);
    hide OnchainIdTaken;
    InvOrders(dir, s2);
    KeyTakenIsNoOp(dir, s2, d3, w);
  }

  /** A delivery that nothing stands in the way of updates its row and journals its key. */
  lemma ProcessHits(dir: map<AgentId, Address>, s: Store, d: Delivery, w: nat)
    requires StoreInv(dir, s)
    requires w < |s.orders| && Matches(dir, s.orders[w], d)
    requires EscrowKey(w, ActionOf(d), EventId(d.position, d.event.orderId)) !in s.books.journals
    requires ActionOf(d) == RecordCreated ==> !OnchainIdTaken(s.orders, w, d.event.orderId)
    ensures var s' := Process(dir, s, d);
      && StoreInv(dir, s')
      && s'.orders == s.orders[w := Updated(s.orders[w], Prepare(s.orders, w, d))]
      && s'.books.journals.Keys == s.books.journals.Keys + {EscrowKey(w, ActionOf(d), EventId(d.position, d.event.orderId))}
  {
    ResolvePrepared(dir, s, d);
    FinishHits(dir, s, d, Resolve(dir, s.orders, d), w);
    FinishChanges(dir, s, d, Resolve(dir, s.orders, d));
    hide StoreInv, Process, Resolve, EventId, Finished;
  }

  /** Once the key of an event is journaled for a work order, no delivery of the event, at
      any later point of any run, touches that work order; a creation, or an event of the
      order that the row is bound to by then, changes nothing at all. */
  lemma NeverRecordedAgain(dir: map<AgentId, Address>, trace: seq<System>, steps: seq<Backend.Step>, i: nat, j: nat, d: Delivery, w: nat)
    requires IsRun(dir, trace, steps) && i <= j < |trace|
    requires w < |trace[i].store.orders|
    requires EscrowKey(w, ActionOf(d), EventId(d.position, d.event.orderId)) in trace[i].store.books.journals
    ensures var s := trace[j].store;
      && w < |s.orders| && |Process(dir, s, d).orders| == |s.orders|
      && Process(dir, s, d).orders[w] == s.orders[w]
      && (Carries(s.orders[w], d) ==> Process(dir, s, d) == s)
      && (d.event.OrderCreated? && Carries(trace[i].store.orders[w], d) ==> Process(dir, s, d) == s)
  {
    var s := trace[j].store;
    RunPersists(dir, trace, steps, i, j);
    RunKeepsInv(dir, trace, steps, j);
    ResolvePrepared(dir, s, d);
    var r := Resolve(dir, s.orders, d);
    FinishChanges(dir, s, d, r);
    hide IsRun, StoreInv, Resolve, EventId;
    InvOrders(dir, s);
    if Carries(s.orders[w], d) {
      KeyTakenIsNoOp(dir, s, d, w);
    }
    hide Process, Finished;
  }

  /** A delivery that some row matches is resolved to that row. */
  lemma ResolveFinds(dir: map<AgentId, Address>, s: Store, d: Delivery, w: nat)
    requires OrdersOk(dir, s)
    requires w < |s.orders| && Matches(dir, s.orders[w], d)
    ensures Resolve(dir, s.orders, d).Some? && Resolve(dir, s.orders, d).value.workOrder == w
  {
    OneTarget(dir, s, d, Resolve(dir, s.orders, d).value.workOrder, w);
  }

  /** A creation that can bind a row is resolved to it, and funds it. */
  lemma BindableIsBound(dir: map<AgentId, Address>, s: Store, l: Logged, at: int, w: nat)
    requires StoreInv(dir, s) && Bindable(dir, s, l, w)
    ensures var p := Resolved(dir, s, Again, l, at);
      var s' := Finished(s, p.prepared);
      && p.prepared.Some? && p.prepared.value.workOrder == w
      && |s'.orders| == |s.orders| && s'.orders[w].onchainOrderId == Some(l.event.orderId)
      && s'.orders[w].status == OrderFunded
  {
    var p := Resolved(dir, s, Again, l, at);
    var d := DeliveryOf(p);
    assert Matches(dir, s.orders[w], d);
    InvOrders(dir, s);
    ResolvePrepared(dir, s, d);
    ResolveFinds(dir, s, d, w);
    hide StoreInv, Resolve, Finished, Matches, EventId, OrdersOk;
    FinishHits(dir, s, d, p.prepared, w);
  }

  /** An event of the chain that is delivered again leaves the agreement intact if and only
      if its order is still open or no draft can be bound by it. A close that comes again
      never changes anything. */
  lemma RedeliveryMirroredIff(dir: map<AgentId, Address>, m: State, i: nat, at: int)
    requires MirrorInv(dir, m) && i < |m.chain|
    ensures var p := Resolved(dir, m.store, Again, m.chain[i], at);
      && (Mirrored(dir, Finished(m.store, p.prepared).orders, Book(m.chain)) <==>
            forall w :: Bindable(dir, m.store, m.chain[i], w) ==> StillOpen(m.chain, m.chain[i].event))
      && (!m.chain[i].event.OrderCreated? ==> Finished(m.store, p.prepared) == m.store)
  {
    var p := Resolved(dir, m.store, Again, m.chain[i], at);
    var d := DeliveryOf(p);
    var book := Book(m.chain);
    ResolvePrepared(dir, m.store, d);
    assert Events(m.chain)[i] == p.logged.event;
    hide PositionsOk, KeysOk, TransactionsKept, ValidLog, PendingOk, Resolve, EventId, StoreInv;
    if !d.event.OrderCreated? {
      ClosedInBook(Events(m.chain), i);
      hide PreparedOk;
      FinishMisses(dir, m.store, d, p.prepared);
    } else {
      CreatedInBook(Events(m.chain), i);
      if w: nat :| Bindable(dir, m.store, m.chain[i], w) && !StillOpen(m.chain, d.event) {
        BindableIsBound(dir, m.store, m.chain[i], at, w);
        hide Bindable, Finished;
        assert !Agrees(dir, Finished(m.store, p.prepared).orders[w], book[d.event.orderId]);
      } else {
        if Finished(m.store, p.prepared) != m.store {
          BoundWasBindable(dir, m.store, p);
        }
        hide Mirrored, PreparedOk, Bindable;
        BoundAgainAgrees(dir, m.store, book, d, p.prepared);
      }
    }
  }
}
