/** A removal undoes its event: properly nested records and rollbacks leave no trace, also
    with deliveries and the events of other work orders in between. */
module Rollbacks {
  import opened Wrappers
  import opened Sums
  import opened Identity
  import opened Schema
  import opened Bookkeeping
  import opened NettingRepository
  import opened WorkOrders
  import opened Backend

  function Inverse(a: EscrowAction): EscrowAction {
    match a
    case RecordCreated => RollbackCreated
    case RollbackCreated => RecordCreated
    case RecordReleased => RollbackReleased
    case RollbackReleased => RecordReleased
    case RecordRefunded => RollbackRefunded
    case RollbackRefunded => RecordRefunded
  }

  /** Events and their removals, last in first out, on any work orders. Aside is an event
      that is not part of the nest, and Deliver a delivery posted by a provider. */
  datatype Nest =
    | Done
    | Frame(record: Prepared, inner: Nest, rollback: Prepared, rest: Nest)
    | Aside(event: Prepared, rest: Nest)
    | Deliver(onchainOrderId: nat, cid: nat, at: int, rest: Nest)

  ghost predicate ProperNest(n: Nest) {
    match n
    case Done => true
    case Frame(record, inner, rollback, rest) =>
      && (record.action == RecordCreated || record.action == RecordReleased || record.action == RecordRefunded)
      && rollback.action == Inverse(record.action)
      && rollback.workOrder == record.workOrder
      && ProperNest(inner) && ProperNest(rest)
    case Aside(_, rest) => ProperNest(rest)
    case Deliver(_, _, _, rest) => ProperNest(rest)
  }

  /** The work orders of the events that are not part of the nest. */
  function Asides(n: Nest): set<nat> {
    match n
    case Done => {}
    case Frame(_, inner, _, rest) => Asides(inner) + Asides(rest)
    case Aside(event, rest) => {event.workOrder} + Asides(rest)
    case Deliver(_, _, _, rest) => Asides(rest)
  }

  /** Every record and rollback of the nest takes effect, in sequence; an event aside, and a
      delivery, may also be turned down. */
  function RunNest(s: Store, n: Nest): Option<Store>
    decreases n
  {
    match n
    case Done => Some(s)
    case Aside(event, rest) => RunNest(ApplyResult(s, event), rest)
    case Deliver(id, cid, at, rest) => RunNest(SubmitDelivery(s, id, cid, at), rest)
    case Frame(record, inner, rollback, rest) =>
      match Apply(s, record)
      case NotMatched => None
      case Aborted => None
      case Applied(s1) =>
        match RunNest(s1, inner)
        case None => None
        case Some(s2) =>
          match Apply(s2, rollback)
          case NotMatched => None
          case Aborted => None
          case Applied(s3) => RunNest(s3, rest)
  }

  ghost predicate AllFit(s: Store, n: Nest) {
    match n
    case Done => true
    case Frame(record, inner, rollback, rest) => Fits(s, record) && Fits(s, rollback) && AllFit(s, inner) && AllFit(s, rest)
    case Aside(event, rest) => Fits(s, event) && AllFit(s, rest)
    case Deliver(_, _, _, rest) => AllFit(s, rest)
  }

  /** Equal in every column but those of the delivery and the time of the last update. */
  predicate SameRow(o: WorkOrderRow, o': WorkOrderRow) {
    o' == o.(updatedAt := o'.updatedAt, deliverableCid := o'.deliverableCid, deliveredAt := o'.deliveredAt)
  }

  /** All rows but those listed are the same. */
  ghost predicate SameOrders(s: Store, s': Store, asides: set<nat>) {
    && |s.orders| == |s'.orders|
    && forall w :: 0 <= w < |s.orders| && w !in asides ==> SameRow(s.orders[w], s'.orders[w])
  }

  ghost predicate SameParties(s: Store, s': Store) {
    && s'.intents == s.intents
    && |s.orders| == |s'.orders|
    && (forall w :: 0 <= w < |s.orders| ==>
          s'.orders[w].amount == s.orders[w].amount && s'.orders[w].creator == s.orders[w].creator && s'.orders[w].provider == s.orders[w].provider)
    && forall b: nat :: SettlementKey(b) in s'.books.journals <==> SettlementKey(b) in s.books.journals
  }

  lemma {:induction false} FitsPersist(s: Store, s': Store, n: Nest)
    requires SameParties(s, s') && AllFit(s, n)
    ensures AllFit(s', n)
  {
    match n
    case Done =>
    case Frame(_, inner, _, rest) =>
      FitsPersist(s, s', inner);
      FitsPersist(s, s', rest);
    case Aside(_, rest) => FitsPersist(s, s', rest);
    case Deliver(_, _, _, rest) => FitsPersist(s, s', rest);
  }

  lemma AppliedStore(dir: map<AgentId, Address>, s: Store, p: Prepared)
    requires StoreInv(dir, s) && Fits(s, p) && Apply(s, p).Applied?
    ensures var s' := Apply(s, p).store;
      && StoreInv(dir, s') && SameParties(s, s')
      && s.orders[p.workOrder].status == StatusBefore(p.action)
      && s'.orders == s.orders[p.workOrder := Updated(s.orders[p.workOrder], p)]
  {
    ApplyTables(dir, s, p);
    ApplyKeeps(dir, s, p);
    hide StoreInv;
  }

  /** A record followed, after rows were restored in between, by its rollback restores the row. */
  lemma RowRestored(o: WorkOrderRow, record: Prepared, o': WorkOrderRow, rollback: Prepared)
    requires ColumnsOwned(o) && o.status == StatusBefore(record.action)
    requires record.action == RecordCreated || record.action == RecordReleased || record.action == RecordRefunded
    requires rollback.action == Inverse(record.action)
    requires SameRow(Updated(o, record), o')
    ensures SameRow(o, Updated(o', rollback))
  {
  }

  lemma SameTransitive(s: Store, t: Store, u: Store, xs: set<nat>, ys: set<nat>)
    ensures SameParties(s, t) && SameParties(t, u) ==> SameParties(s, u)
    ensures SameOrders(s, t, xs) && SameOrders(t, u, ys) ==> SameOrders(s, u, xs + ys)
  {
  }

  /** What an event aside, or a delivery, does to the rows. */
  lemma AsideStore(dir: map<AgentId, Address>, s: Store, p: Prepared)
    requires StoreInv(dir, s) && Fits(s, p)
    ensures var s' := ApplyResult(s, p);
      StoreInv(dir, s') && SameParties(s, s') && SameOrders(s, s', {p.workOrder})
  {
    hide StoreInv, Apply;
    if Apply(s, p).Applied? {
      AppliedStore(dir, s, p);
    }
  }

  lemma DeliverStore(dir: map<AgentId, Address>, s: Store, id: nat, cid: nat, at: int)
    requires StoreInv(dir, s)
    ensures var s' := SubmitDelivery(s, id, cid, at);
      StoreInv(dir, s') && SameParties(s, s') && SameOrders(s, s', {})
  {
    SubmitDeliveryKeeps(dir, s, id, cid, at);
    hide StoreInv;
  }

  lemma {:induction false} NestRestoresRows(dir: map<AgentId, Address>, s: Store, n: Nest)
    requires StoreInv(dir, s)
    requires ProperNest(n) && AllFit(s, n)
    requires RunNest(s, n).Some?
    ensures var s' := RunNest(s, n).value;
      StoreInv(dir, s') && SameOrders(s, s', Asides(n)) && SameParties(s, s')
    decreases n, 1
  {
    hide StoreInv, Apply, ApplyResult, SubmitDelivery, Fits, SameParties, SameOrders, Updated;
    match n
    case Done => NothingChanges(s);
    case Frame(_, _, _, _) => FrameRestoresRows(dir, s, n);
    case Aside(event, rest) =>
      var s1 := ApplyResult(s, event);
      AsideStore(dir, s, event);
      FitsPersist(s, s1, rest);
      NestRestoresRows(dir, s1, rest);
      SameTransitive(s, s1, RunNest(s1, rest).value, {event.workOrder}, Asides(rest));
    case Deliver(id, cid, at, rest) =>
      var s1 := SubmitDelivery(s, id, cid, at);
      DeliverStore(dir, s, id, cid, at);
      FitsPersist(s, s1, rest);
      NestRestoresRows(dir, s1, rest);
      SameTransitive(s, s1, RunNest(s1, rest).value, {}, Asides(rest));
      assert {} + Asides(rest) == Asides(n);
  }

  lemma NothingChanges(s: Store)
    ensures SameOrders(s, s, {}) && SameParties(s, s)
  {
  }

  lemma FrameRestoresRows(dir: map<AgentId, Address>, s: Store, n: Nest)
    requires n.Frame? && StoreInv(dir, s)
    requires ProperNest(n) && AllFit(s, n)
    requires RunNest(s, n).Some?
    ensures var s' := RunNest(s, n).value;
      StoreInv(dir, s') && SameOrders(s, s', Asides(n)) && SameParties(s, s')
    decreases n, 0
  {
    hide StoreInv, Apply, Fits, SameParties, SameOrders, Updated;
    AppliedStore(dir, s, n.record);
    var s1 := Apply(s, n.record).store;
    FitsPersist(s, s1, n);
    NestRestoresRows(dir, s1, n.inner);
    var s2 := RunNest(s1, n.inner).value;
    FitsPersist(s1, s2, n);
    AppliedStore(dir, s2, n.rollback);
    var s3 := Apply(s2, n.rollback).store;
    FitsPersist(s2, s3, n);
    NestRestoresRows(dir, s3, n.rest);
    InRange(s, n.record);
    OrdersOfInv(dir, s);
    FrameRestores(dir, s, s1, s2, s3, n);
    var s4 := RunNest(s3, n.rest).value;
    SameTransitive(s, s1, s2, {}, {});
    SameTransitive(s, s2, s3, {}, {});
    SameTransitive(s, s3, s4, Asides(n.inner), Asides(n.rest));
  }

  lemma InRange(s: Store, p: Prepared)
    requires Fits(s, p)
    ensures p.workOrder < |s.orders|
  {
  }

  lemma OrdersOfInv(dir: map<AgentId, Address>, s: Store)
    requires StoreInv(dir, s)
    ensures OrdersOk(dir, s)
  {
  }

  lemma FrameRestores(dir: map<AgentId, Address>, s: Store, s1: Store, s2: Store, s3: Store, n: Nest)
    requires n.Frame? && ProperNest(n) && n.record.workOrder < |s.orders|
    requires OrdersOk(dir, s)
    requires s.orders[n.record.workOrder].status == StatusBefore(n.record.action)
    requires s1.orders == s.orders[n.record.workOrder := Updated(s.orders[n.record.workOrder], n.record)]
    requires SameOrders(s1, s2, Asides(n.inner))
    requires s3.orders == s2.orders[n.record.workOrder := Updated(s2.orders[n.record.workOrder], n.rollback)]
    ensures SameOrders(s, s3, Asides(n.inner))
  {
    var w := n.record.workOrder;
    if w !in Asides(n.inner) {
      RowRestored(s.orders[w], n.record, s2.orders[w], n.rollback);
    }
  }

  /** No event aside is about a work order of the agent. */
  ghost predicate StandsBeside(s: Store, agent: AgentId, asides: set<nat>) {
    forall w :: 0 <= w < |s.orders| && w in asides ==> s.orders[w].creator != agent && s.orders[w].provider != agent
  }

  lemma BalancesFollow(s: Store, s': Store, key: AccountKey, asides: set<nat>)
    requires BooksAgree(s) && BooksAgree(s')
    requires SameOrders(s, s', asides) && SameParties(s, s') && StandsBeside(s, key.agent, asides)
    ensures BalanceOf(s'.books, key) == BalanceOf(s.books, key)
  {
    assert BalanceOf(s.books, key) == Expected(s, key) && BalanceOf(s'.books, key) == Expected(s', key);
    SumAgree(s.intents, IntentWeight(s.books.journals, key), s'.intents, IntentWeight(s'.books.journals, key));
    SumAgree(s.orders, OrderWeight(key), s'.orders, OrderWeight(key));
  }

  /** Any properly nested sequence of records and rollbacks that all take effect, with
      deliveries and events aside anywhere in between, returns each work order that no event
      aside is about, but for its delivery and its update time, to what it was, and with it
      each account balance of an agent with no such work order. */
  lemma NestRestores(dir: map<AgentId, Address>, s: Store, n: Nest)
    requires StoreInv(dir, s)
    requires ProperNest(n) && AllFit(s, n)
    requires RunNest(s, n).Some?
    ensures SameOrders(s, RunNest(s, n).value, Asides(n))
    ensures forall key: AccountKey :: StandsBeside(s, key.agent, Asides(n)) ==>
      BalanceOf(RunNest(s, n).value.books, key) == BalanceOf(s.books, key)
  {
    hide IntentsOk, OrdersOk, Sound, SameOrders, SameParties, AllFit;
    NestRestoresRows(dir, s, n);
    forall key: AccountKey | StandsBeside(s, key.agent, Asides(n)) {
      BalancesFollow(s, RunNest(s, n).value, key, Asides(n));
    }
  }
}
