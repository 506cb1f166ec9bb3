/**
 The ledger against the escrow contract: what all agents together have locked is what the
 contract owes, but for open orders that no work order is bound to.
 */
module Custody {
  import opened Wrappers
  import opened Sums
  import opened Identity
  import opened Schema
  import opened Bookkeeping
  import opened WorkOrders
  import opened Backend
  import opened Accounting
  import opened Mirror
  import Escrow

  function InAccount(b: Books, name: AccountName): AgentId -> int {
    (a: AgentId) => BalanceOf(b, AccountKey(a, name))
  }

  function OrderIdOf(o: WorkOrderRow): nat {
    if o.onchainOrderId.Some? then o.onchainOrderId.value else 0
  }

  predicate IsBound(orders: seq<WorkOrderRow>, id: nat) {
    exists w :: 0 <= w < |orders| && orders[w].onchainOrderId == Some(id)
  }

  /** What the contract owes for an open order that no work order is bound to. */
  function Unmirrored(orders: seq<WorkOrderRow>, v: Escrow.Vault): nat -> int {
    (id: nat) => if IsBound(orders, id) then 0 else Escrow.LockedAmount(v)(id)
  }

  /** All agents' locked funds, and all agents' pending funds, are the funded work orders. */
  lemma FundsAreFundedOrders(dir: map<AgentId, Address>, s: Store)
    requires OrdersOk(dir, s) && BooksAgree(s)
    ensures SumSet(dir.Keys, InAccount(s.books, EscrowLocked)) == Sum(s.orders, InStatus(OrderFunded))
    ensures SumSet(dir.Keys, InAccount(s.books, EscrowPending)) == Sum(s.orders, InStatus(OrderFunded))
  {
    forall a | a in dir.Keys
      ensures InAccount(s.books, EscrowLocked)(a) == Totals(s.orders, Creator, InStatus(OrderFunded))(a)
      ensures InAccount(s.books, EscrowPending)(a) == Totals(s.orders, Provider, InStatus(OrderFunded))(a)
    {
      EscrowAndServiceAccounts(s, a);
    }
    SumSetAgree(dir.Keys, InAccount(s.books, EscrowLocked), Totals(s.orders, Creator, InStatus(OrderFunded)));
    SumSetAgree(dir.Keys, InAccount(s.books, EscrowPending), Totals(s.orders, Provider, InStatus(OrderFunded)));
    hide BooksAgree;
    SumByKey(dir.Keys, s.orders, Creator, InStatus(OrderFunded));
    SumByKey(dir.Keys, s.orders, Provider, InStatus(OrderFunded));
  }

  /** The rows bound to one order contribute its amount while it is open. */
  lemma FundedOfOrder(dir: map<AgentId, Address>, s: Store, v: Escrow.Vault, id: nat)
    requires OrdersOk(dir, s)
    requires forall w :: 0 <= w < |s.orders| && s.orders[w].onchainOrderId == Some(id) ==>
      InStatus(OrderFunded)(s.orders[w]) == Escrow.LockedAmount(v)(id)
    ensures Totals(s.orders, OrderIdOf, InStatus(OrderFunded))(id) + Unmirrored(s.orders, v)(id) == Escrow.LockedAmount(v)(id)
  {
    var weight := Keyed(OrderIdOf, InStatus(OrderFunded), id);
    forall i | 0 <= i < |s.orders|
      ensures weight(s.orders[i]) == if s.orders[i].onchainOrderId == Some(id) then InStatus(OrderFunded)(s.orders[i]) else 0
    {
      assert ColumnsOwned(s.orders[i]);
      RowWeight(s.orders[i], id);
    }
    if w: nat :| w < |s.orders| && s.orders[w].onchainOrderId == Some(id) {
      OnlyOneBound(dir, s, w, id);
      hide OrdersOk, Keyed;
      SumSingle(s.orders, w, weight);
    } else {
      SumZero(s.orders, weight);
    }
  }

  lemma RowWeight(o: WorkOrderRow, id: nat)
    requires o.onchainOrderId.Some? || o.status != OrderFunded
    ensures Keyed(OrderIdOf, InStatus(OrderFunded), id)(o) ==
      if o.onchainOrderId == Some(id) then InStatus(OrderFunded)(o) else 0
  {
    assert OrderIdOf(o) == if o.onchainOrderId.Some? then o.onchainOrderId.value else 0;
    assert InStatus(OrderFunded)(o) == if o.status == OrderFunded then o.amount else 0;
  }

  /** A bound work order is funded exactly while the contract owes its amount. */
  lemma OwedWhileFunded(dir: map<AgentId, Address>, trace: seq<State>, ops: seq<Op>, i: nat, self: Address,
      world: Escrow.World, w: nat)
    requires IsMirrorRun(dir, trace, ops) && i < |trace|
    requires Escrow.Solvent(self, world) && world.vault.log == Events(trace[i].chain)
    requires w < |trace[i].store.orders| && trace[i].store.orders[w].onchainOrderId.Some?
    ensures var o := trace[i].store.orders[w];
      && o.onchainOrderId.value in world.vault.orders
      && InStatus(OrderFunded)(o) == Escrow.LockedAmount(world.vault)(o.onchainOrderId.value)
  {
    BackendRefinesContract(dir, trace, ops, i, w, trace[i].store.orders[w].onchainOrderId.value, self, world);
    hide IsMirrorRun, Escrow.Solvent, Events;
  }

  lemma OkTables(dir: map<AgentId, Address>, m: State)
    requires MirrorInv(dir, m)
    ensures OrdersOk(dir, m.store) && BooksAgree(m.store)
  {
    hide OrdersOk, BooksAgree;
  }

  /** At every point of every run, also in the middle of a delivery: with the contract's log
      as the chain, all agents' locked funds, and all their pending funds, are what the
      contract owes, less its open orders that no work order is bound to. The tokens that
      the contract holds cover them. */
  lemma LedgerIsCustody(dir: map<AgentId, Address>, trace: seq<State>, ops: seq<Op>, i: nat, self: Address,
      world: Escrow.World)
    requires IsMirrorRun(dir, trace, ops) && i < |trace|
    requires Escrow.Solvent(self, world) && world.vault.log == Events(trace[i].chain)
    ensures var s, v := trace[i].store, world.vault;
      && SumSet(dir.Keys, InAccount(s.books, EscrowLocked)) == SumSet(dir.Keys, InAccount(s.books, EscrowPending))
      && SumSet(dir.Keys, InAccount(s.books, EscrowLocked)) + SumSet(v.orders.Keys, Unmirrored(s.orders, v)) == Escrow.Locked(v)
      && SumSet(dir.Keys, InAccount(s.books, EscrowLocked)) <= Escrow.Locked(v) <= world.token.BalanceOf(self)
  {
    var s, v := trace[i].store, world.vault;
    RunKeepsMirror(dir, trace, ops, i);
    OkTables(dir, trace[i]);
    FundsAreFundedOrders(dir, s);
    hide MirrorInv, Events, BooksAgree, SumSet;
    forall w: nat | w < |s.orders| && s.orders[w].onchainOrderId.Some?
      ensures s.orders[w].onchainOrderId.value in v.orders
      ensures InStatus(OrderFunded)(s.orders[w]) == Escrow.LockedAmount(v)(s.orders[w].onchainOrderId.value)
    {
      OwedWhileFunded(dir, trace, ops, i, self, world, w);
    }
    hide IsMirrorRun, Escrow.LockedAmount, Escrow.Bookkept;
    forall id | id in v.orders.Keys {
      FundedOfOrder(dir, s, v, id);
    }
    assert forall w :: 0 <= w < |s.orders| ==> ColumnsOwned(s.orders[w]);
    SumByKey(v.orders.Keys, s.orders, OrderIdOf, InStatus(OrderFunded));
    SumSetSplit(v.orders.Keys, Escrow.LockedAmount(v), Totals(s.orders, OrderIdOf, InStatus(OrderFunded)), Unmirrored(s.orders, v));
    UnmirroredNonNegative(s, v);
  }

  lemma UnmirroredNonNegative(s: Store, v: Escrow.Vault)
    ensures SumSet(v.orders.Keys, Unmirrored(s.orders, v)) >= 0
  {
    var nothing := (id: nat) => 0;
    SumSetZero(v.orders.Keys, nothing);
    forall id | id in v.orders.Keys
      ensures Unmirrored(s.orders, v)(id) >= 0
    {
      assert Escrow.LockedAmount(v)(id) >= 0;
    }
    SumSetAtMost(v.orders.Keys, nothing, Unmirrored(s.orders, v));
  }
}
