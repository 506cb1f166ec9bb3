/** The Escrow contract: an order state machine that holds the funds it is owed. */
module Escrow {
  import opened Wrappers
  import opened Sums
  import opened Identity
  import opened Erc20

  const REFUND_TIMEOUT: nat := 7 * 24 * 60 * 60
  const TWO_64: nat := 0x1_0000_0000_0000_0000

  datatype OrderState = Absent | Created | Released | Refunded

  datatype Order = Order(payer: Address, createdAt: nat, state: OrderState, payee: Address, amount: nat, specHash: nat)

  datatype Event =
    | OrderCreated(orderId: nat, payer: Address, payee: Address, amount: nat, specHash: nat)
    | OrderReleased(orderId: nat, payee: Address, amount: nat)
    | OrderRefunded(orderId: nat, payer: Address, amount: nat)

  datatype Revert =
    | ZeroAddress
    | InvalidAmount
    | InvalidState(current: OrderState)
    | NotPayer
    | TimeoutNotReached
    | TransferFailed

  /** The contract's storage and the events it has emitted. */
  datatype Vault = Vault(nextOrderId: nat, orders: map<nat, Order>, log: seq<Event>) {
    function StateOf(id: nat): OrderState {
      if id in orders then orders[id].state else Absent
    }
  }

  // ---- The three calls, as functions of storage and token ----

  function CreateOrder(self: Address, v: Vault, t: Token, sender: Address, now: nat,
                       payee: Address, amount: nat, specHash: nat): Result<(Vault, Token), Revert>
  {
    if payee == 0 then Failure(ZeroAddress)
    else if amount == 0 then Failure(InvalidAmount)
    else
      match t.TransferFrom(self, sender, self, amount)
      case None => Failure(TransferFailed)
      case Some(t') =>
        var id := v.nextOrderId;
        Success((Vault(id + 1, v.orders[id := Order(sender, now % TWO_64, Created, payee, amount, specHash)],
                       v.log + [OrderCreated(id, sender, payee, amount, specHash)]), t'))
  }

  function ReleaseOrder(self: Address, v: Vault, t: Token, sender: Address, id: nat): Result<(Vault, Token), Revert> {
    if v.StateOf(id) != Created then Failure(InvalidState(v.StateOf(id)))
    else if sender != v.orders[id].payer then Failure(NotPayer)
    else
      var o := v.orders[id];
      match t.Transfer(self, o.payee, o.amount)
      case None => Failure(TransferFailed)
      case Some(t') =>
        Success((v.(orders := v.orders[id := o.(state := Released)],
                    log := v.log + [OrderReleased(id, o.payee, o.amount)]), t'))
  }

  function RefundOrder(self: Address, v: Vault, t: Token, now: nat, id: nat): Result<(Vault, Token), Revert> {
    if v.StateOf(id) != Created then Failure(InvalidState(v.StateOf(id)))
    else if now < v.orders[id].createdAt + REFUND_TIMEOUT then Failure(TimeoutNotReached)
    else
      var o := v.orders[id];
      match t.Transfer(self, o.payer, o.amount)
      case None => Failure(TransferFailed)
      case Some(t') =>
        Success((v.(orders := v.orders[id := o.(state := Refunded)],
                    log := v.log + [OrderRefunded(id, o.payer, o.amount)]), t'))
  }

  // ---- The contract ----

  class EscrowContract {
    const self: Address
    const token: TokenContract
    var nextOrderID: nat
    var orders: map<nat, Order>
    var log: seq<Event>

    constructor (self: Address, token: TokenContract)
      requires self != 0
      ensures this.self == self && this.token == token && Storage() == Vault(0, map[], [])
    {
      this.self := self;
      this.token := token;
      nextOrderID, orders, log := 0, map[], [];
    }

    ghost function Storage(): Vault
      reads this
    {
      Vault(nextOrderID, orders, log)
    }

    /** A reverted call leaves storage and token as they were. */
    twostate predicate Outcome<R>(new r: Result<R, Revert>, spec: Result<(Vault, Token), Revert>)
      reads this, token
    {
      && (r.Success? <==> spec.Success?)
      && (r.Success? ==> Storage() == spec.value.0 && token.state == spec.value.1)
      && (r.Failure? ==> r.error == spec.error && Storage() == old(Storage()) && token.state == old(token.state))
    }

    method Create(sender: Address, now: nat, payee: Address, amount: nat,
        specHash: nat) returns (r: Result<nat, Revert>)
      modifies this, token
      ensures Outcome(r, CreateOrder(self, old(Storage()), old(token.state), sender, now, payee, amount, specHash))
      ensures r.Success? ==> r.value == old(nextOrderID)
    {
      if payee == 0 { return Failure(ZeroAddress); }
      if amount == 0 { return Failure(InvalidAmount); }

      var orderID, ordersBefore := nextOrderID, orders;
      nextOrderID := nextOrderID + 1;
      orders := orders[orderID := Order(sender, now % TWO_64, Created, payee, amount, specHash)];
      var ok := token.TransferFrom(self, sender, self, amount);
      if !ok {
        nextOrderID, orders := orderID, ordersBefore;
        return Failure(TransferFailed);
      }
      log := log + [OrderCreated(orderID, sender, payee, amount, specHash)];
      return Success(orderID);
    }

    method Release(sender: Address, orderID: nat) returns (r: Result<(), Revert>)
      modifies this, token
      ensures Outcome(r, ReleaseOrder(self, old(Storage()), old(token.state), sender, orderID))
    {
      var state := if orderID in orders then orders[orderID].state else Absent;
      if state != Created { return Failure(InvalidState(state)); }
      var order := orders[orderID];
      if sender != order.payer { return Failure(NotPayer); }

      orders := orders[orderID := order.(state := Released)];
      var ok := token.Transfer(self, order.payee, order.amount);
      if !ok {
        orders := orders[orderID := order];
        return Failure(TransferFailed);
      }
      log := log + [OrderReleased(orderID, order.payee, order.amount)];
      return Success(());
    }

    method Refund(now: nat, orderID: nat) returns (r: Result<(), Revert>)
      modifies this, token
      ensures Outcome(r, RefundOrder(self, old(Storage()), old(token.state), now, orderID))
    {
      var state := if orderID in orders then orders[orderID].state else Absent;
      if state != Created { return Failure(InvalidState(state)); }
      var order := orders[orderID];
      if now < order.createdAt + REFUND_TIMEOUT { return Failure(TimeoutNotReached); }

      orders := orders[orderID := order.(state := Refunded)];
      var ok := token.Transfer(self, order.payer, order.amount);
      if !ok {
        orders := orders[orderID := order];
        return Failure(TransferFailed);
      }
      log := log + [OrderRefunded(orderID, order.payer, order.amount)];
      return Success(());
    }
  }

  // ---- The event log, and the order book it describes ----

  datatype ChainOrder = ChainOrder(payer: Address, payee: Address, amount: nat, specHash: nat, state: OrderState)

  /** The orders that a log of events describes; an order's id is its position. */
  function Replay(log: seq<Event>): seq<ChainOrder> {
    if log == [] then [] else Entered(Replay(log[..|log| - 1]), log[|log| - 1])
  }

  function Entered(book: seq<ChainOrder>, e: Event): seq<ChainOrder> {
    match e
    case OrderCreated(_, payer, payee, amount, specHash) => book + [ChainOrder(payer, payee, amount, specHash, Created)]
    case OrderReleased(id, _, _) => if id < |book| then book[id := book[id].(state := Released)] else book
    case OrderRefunded(id, _, _) => if id < |book| then book[id := book[id].(state := Refunded)] else book
  }

  /** The contract can emit e when its orders are book. */
  predicate CanEmit(book: seq<ChainOrder>, e: Event) {
    match e
    case OrderCreated(id, _, payee, amount, _) => id == |book| && payee != 0 && amount > 0
    case OrderReleased(id, payee, amount) =>
      id < |book| && book[id].state == Created && payee == book[id].payee && amount == book[id].amount
    case OrderRefunded(id, payer, amount) =>
      id < |book| && book[id].state == Created && payer == book[id].payer && amount == book[id].amount
  }

  predicate ValidLog(log: seq<Event>) {
    log == [] || (ValidLog(log[..|log| - 1]) && CanEmit(Replay(log[..|log| - 1]), log[|log| - 1]))
  }

  // ---- Everything that can happen around the contract ----

  datatype World = World(vault: Vault, token: Token, now: nat)

  /** Calls by anyone but the contract itself, and whatever else token holders do. */
  datatype Step =
    | Create(sender: Address, payee: Address, amount: nat, specHash: nat)
    | Release(sender: Address, id: nat)
    | Refund(sender: Address, id: nat)
    | Transfer(sender: Address, to: Address, amount: nat)
    | TransferFrom(sender: Address, from: Address, to: Address, amount: nat)
    | Approve(sender: Address, spender: Address, allowance: uint256)
    | Mint(sender: Address, to: Address, amount: nat)
    | Tick(sender: Address, elapsed: nat)

  /** A step that reverts changes nothing. */
  function After(self: Address, w: World, step: Step): World {
    match step
    case Create(sender, payee, amount, specHash) =>
      AfterCall(w, CreateOrder(self, w.vault, w.token, sender, w.now, payee, amount, specHash))
    case Release(sender, id) => AfterCall(w, ReleaseOrder(self, w.vault, w.token, sender, id))
    case Refund(_, id) => AfterCall(w, RefundOrder(self, w.vault, w.token, w.now, id))
    case Transfer(sender, to, amount) => AfterToken(w, w.token.Transfer(sender, to, amount))
    case TransferFrom(sender, from, to, amount) => AfterToken(w, w.token.TransferFrom(sender, from, to, amount))
    case Approve(sender, spender, allowance) => w.(token := Approved(w.token, sender, spender, allowance))
    case Mint(_, to, amount) => w.(token := Minted(w.token, to, amount))
    case Tick(_, elapsed) => w.(now := w.now + elapsed)
  }

  function AfterCall(w: World, r: Result<(Vault, Token), Revert>): World {
    match r
    case Failure(_) => w
    case Success(p) => World(p.0, p.1, w.now)
  }

  function AfterToken(w: World, r: Option<Token>): World {
    match r
    case None => w
    case Some(t) => w.(token := t)
  }

  function Run(self: Address, w: World, steps: seq<Step>): World {
    if steps == [] then w else After(self, Run(self, w, steps[..|steps| - 1]), steps[|steps| - 1])
  }

  // ---- Solvency ----

  function LockedAmount(v: Vault): nat -> int {
    (id: nat) => if v.StateOf(id) == Created then v.orders[id].amount else 0
  }

  /** All that the contract still owes. */
  ghost function Locked(v: Vault): int {
    SumSet(v.orders.Keys, LockedAmount(v))
  }

  /** What the contract holds beyond its obligations: donations, and releases to itself. */
  ghost function Surplus(self: Address, w: World): int {
    w.token.BalanceOf(self) - Locked(w.vault)
  }

  function IsPayout(id: nat): Event -> int {
    (e: Event) => if (e.OrderReleased? || e.OrderRefunded?) && e.orderId == id then 1 else 0
  }

  ghost predicate MatchesBook(v: Vault, book: seq<ChainOrder>) {
    && v.nextOrderId == |book|
    && forall id :: id in v.orders ==>
         id < |book| && book[id] == ChainOrder(v.orders[id].payer, v.orders[id].payee, v.orders[id].amount, v.orders[id].specHash, v.orders[id].state)
  }

  /** Ids below nextOrderId are exactly the orders; the log tells their story; and an order
      has been paid out once if it is closed, and never before. */
  ghost predicate Bookkept(v: Vault) {
    && (forall id: nat :: id in v.orders <==> id < v.nextOrderId)
    && (forall id :: id in v.orders ==> v.orders[id].state != Absent && v.orders[id].payer != 0 && v.orders[id].payee != 0)
    && ValidLog(v.log) && MatchesBook(v, Replay(v.log))
    && (forall id: nat :: Sum(v.log, IsPayout(id)) == if v.StateOf(id) == Released || v.StateOf(id) == Refunded then 1 else 0)
  }

  ghost predicate Solvent(self: Address, w: World) {
    && self != 0
    && (forall spender :: w.token.Allowance(self, spender) == 0)
    && Bookkept(w.vault)
    && Locked(w.vault) <= w.token.BalanceOf(self)
  }

  lemma LockedAtLeast(v: Vault, id: nat)
    requires id in v.orders
    ensures LockedAmount(v)(id) <= Locked(v)
  {
    SumSetRemove(v.orders.Keys, id, LockedAmount(v));
    var nothing := (k: nat) => 0;
    SumSetZero(v.orders.Keys - {id}, nothing);
    SumSetAtMost(v.orders.Keys - {id}, nothing, LockedAmount(v));
  }

  lemma LockedAfterUpdate(v: Vault, v': Vault, id: nat, o: Order)
    requires v'.orders == v.orders[id := o]
    ensures Locked(v') == Locked(v) - LockedAmount(v)(id) + LockedAmount(v')(id)
  {
    hide SumSet;
    SumSetRemove(v'.orders.Keys, id, LockedAmount(v'));
    SumSetAgree(v'.orders.Keys - {id}, LockedAmount(v'), LockedAmount(v));
    if id in v.orders {
      SumSetRemove(v.orders.Keys, id, LockedAmount(v));
      assert v'.orders.Keys == v.orders.Keys;
    } else {
      assert v'.orders.Keys - {id} == v.orders.Keys;
    }
  }

  lemma PayoutsSnoc(log: seq<Event>, e: Event)
    ensures ValidLog(log) && CanEmit(Replay(log), e) ==> ValidLog(log + [e])
    ensures forall id: nat :: Sum(log + [e], IsPayout(id)) == Sum(log, IsPayout(id)) + IsPayout(id)(e)
  {
    assert (log + [e])[..|log|] == log;
    forall id: nat
      ensures Sum(log + [e], IsPayout(id)) == Sum(log, IsPayout(id)) + IsPayout(id)(e)
    {
      SumSnoc(log, e, IsPayout(id));
    }
  }

  lemma CreateBookkept(v: Vault, o: Order)
    requires Bookkept(v)
    requires o.state == Created && o.payer != 0 && o.payee != 0 && o.amount > 0
    ensures Bookkept(Vault(v.nextOrderId + 1, v.orders[v.nextOrderId := o],
                           v.log + [OrderCreated(v.nextOrderId, o.payer, o.payee, o.amount, o.specHash)]))
  {
    var e := OrderCreated(v.nextOrderId, o.payer, o.payee, o.amount, o.specHash);
    assert (v.log + [e])[..|v.log|] == v.log;
    PayoutsSnoc(v.log, e);
    assert v.StateOf(v.nextOrderId) == Absent;
  }

  lemma CloseBookkept(v: Vault, id: nat, e: Event)
    requires Bookkept(v)
    requires v.StateOf(id) == Created
    requires e == OrderReleased(id, v.orders[id].payee, v.orders[id].amount) || e == OrderRefunded(id, v.orders[id].payer, v.orders[id].amount)
    ensures Bookkept(v.(orders := v.orders[id := v.orders[id].(state := if e.OrderReleased? then Released else Refunded)], log := v.log + [e]))
  {
    assert (v.log + [e])[..|v.log|] == v.log;
    PayoutsSnoc(v.log, e);
  }

  lemma OrderParties(v: Vault, id: nat)
    requires Bookkept(v)
    ensures id in v.orders ==> v.orders[id].payer != 0 && v.orders[id].payee != 0
    ensures v.nextOrderId !in v.orders
  {
  }

  lemma CreateKeeps(self: Address, w: World, sender: Address, payee: Address, amount: nat, specHash: nat)
    requires Solvent(self, w) && sender != self
    ensures var w' := After(self, w, Create(sender, payee, amount, specHash));
      Solvent(self, w') && Surplus(self, w') == Surplus(self, w)
  {
    hide Bookkept, SumSet, Sum, Locked;
    var r := CreateOrder(self, w.vault, w.token, sender, w.now, payee, amount, specHash);
    if r.Success? {
      var o := Order(sender, w.now % TWO_64, Created, payee, amount, specHash);
      TransferFromEffect(w.token, self, sender, self, amount);
      OrderParties(w.vault, w.vault.nextOrderId);
      LockedAfterUpdate(w.vault, r.value.0, w.vault.nextOrderId, o);
      CreateBookkept(w.vault, o);
    }
  }

  /** Closing an order pays its amount out of what is locked for it, and cannot fail. */
  lemma CloseKeeps(self: Address, w: World, id: nat, e: Event)
    requires Solvent(self, w)
    requires w.vault.StateOf(id) == Created
    requires var o := w.vault.orders[id];
      e == OrderReleased(id, o.payee, o.amount) || e == OrderRefunded(id, o.payer, o.amount)
    ensures var o := w.vault.orders[id];
      var to := if e.OrderReleased? then o.payee else o.payer;
      var state := if e.OrderReleased? then Released else Refunded;
      && w.token.Transfer(self, to, o.amount).Some?
      && var w' := World(w.vault.(orders := w.vault.orders[id := o.(state := state)], log := w.vault.log + [e]),
                         w.token.Transfer(self, to, o.amount).value, w.now);
         Solvent(self, w') && Surplus(self, w') == Surplus(self, w) + if to == self then o.amount else 0
  {
    hide Bookkept, SumSet, Sum, Locked;
    var o := w.vault.orders[id];
    var to := if e.OrderReleased? then o.payee else o.payer;
    var state := if e.OrderReleased? then Released else Refunded;
    var v' := w.vault.(orders := w.vault.orders[id := o.(state := state)], log := w.vault.log + [e]);
    OrderParties(w.vault, id);
    LockedAtLeast(w.vault, id);
    TransferEffect(w.token, self, to, o.amount);
    LockedAfterUpdate(w.vault, v', id, o.(state := state));
    CloseBookkept(w.vault, id, e);
  }

  lemma ReleaseKeeps(self: Address, w: World, sender: Address, id: nat)
    requires Solvent(self, w)
    ensures var w' := After(self, w, Release(sender, id));
      Solvent(self, w') && Surplus(self, w) <= Surplus(self, w')
  {
    hide Bookkept;
    if ReleaseOrder(self, w.vault, w.token, sender, id).Success? {
      CloseKeeps(self, w, id, OrderReleased(id, w.vault.orders[id].payee, w.vault.orders[id].amount));
    }
  }

  lemma RefundKeeps(self: Address, w: World, sender: Address, id: nat)
    requires Solvent(self, w)
    ensures var w' := After(self, w, Refund(sender, id));
      Solvent(self, w') && Surplus(self, w) <= Surplus(self, w')
  {
    hide Bookkept;
    if RefundOrder(self, w.vault, w.token, w.now, id).Success? {
      CloseKeeps(self, w, id, OrderRefunded(id, w.vault.orders[id].payer, w.vault.orders[id].amount));
    }
  }

  /** Nothing that happens to the token alone takes from the contract. */
  lemma TokenKeeps(self: Address, w: World, t: Token)
    requires Solvent(self, w)
    requires forall spender :: t.Allowance(self, spender) == 0
    requires w.token.BalanceOf(self) <= t.BalanceOf(self)
    ensures Solvent(self, w.(token := t)) && Surplus(self, w) <= Surplus(self, w.(token := t))
  {
  }

  /** Every step keeps the contract solvent, and never eats into its surplus. */
  lemma StepKeepsSolvent(self: Address, w: World, step: Step)
    requires Solvent(self, w)
    requires step.sender != self
    ensures Solvent(self, After(self, w, step))
    ensures Surplus(self, w) <= Surplus(self, After(self, w, step))
  {
    hide Bookkept;
    match step
    case Create(sender, payee, amount, specHash) => CreateKeeps(self, w, sender, payee, amount, specHash);
    case Release(sender, id) => ReleaseKeeps(self, w, sender, id);
    case Refund(sender, id) => RefundKeeps(self, w, sender, id);
    case Transfer(sender, to, amount) =>
      TransferEffect(w.token, sender, to, amount);
      TokenKeeps(self, w, After(self, w, step).token);
    case TransferFrom(sender, from, to, amount) =>
      OthersCannotPull(self, w, sender, from, to, amount);
      TokenKeeps(self, w, After(self, w, step).token);
    case Approve(sender, spender, value) =>
      ApprovedEffect(w.token, sender, spender, value);
      TokenKeeps(self, w, After(self, w, step).token);
    case Mint(_, to, amount) =>
      MintedEffect(w.token, to, amount);
      TokenKeeps(self, w, After(self, w, step).token);
    case Tick(_, _) =>
  }

  lemma OthersCannotPull(self: Address, w: World, sender: Address, from: Address, to: Address, amount: nat)
    requires Solvent(self, w)
    ensures var t := AfterToken(w, w.token.TransferFrom(sender, from, to, amount)).token;
      (forall spender :: t.Allowance(self, spender) == 0) && w.token.BalanceOf(self) <= t.BalanceOf(self)
  {
    hide Bookkept;
    assert w.token.Allowance(self, sender) == 0;
    TransferFromEffect(w.token, sender, from, to, amount);
  }

  lemma DeployedSolvent(self: Address, t: Token, now: nat)
    requires self != 0 && forall spender :: t.Allowance(self, spender) == 0
    ensures Solvent(self, World(Vault(0, map[], []), t, now))
  {
  }

  /** Over every run from deployment the contract can pay all that it owes. */
  lemma {:induction false} RunStaysSolvent(self: Address, t: Token, now: nat, steps: seq<Step>)
    requires self != 0 && forall spender :: t.Allowance(self, spender) == 0
    requires forall s :: s in steps ==> s.sender != self
    ensures Solvent(self, Run(self, World(Vault(0, map[], []), t, now), steps))
  {
    if steps == [] {
      DeployedSolvent(self, t, now);
    } else {
      assert steps[|steps| - 1] in steps && forall s :: s in steps[..|steps| - 1] ==> s in steps;
      RunStaysSolvent(self, t, now, steps[..|steps| - 1]);
      StepKeepsSolvent(self, Run(self, World(Vault(0, map[], []), t, now), steps[..|steps| - 1]), steps[|steps| - 1]);
    }
  }

  /** No order is stuck: its payer can release it at any time and, once the timeout has
      passed, anyone can refund it. Neither ever fails for lack of funds. */
  lemma OrdersCanBeClosed(self: Address, w: World, id: nat, sender: Address)
    requires Solvent(self, w)
    ensures ReleaseOrder(self, w.vault, w.token, sender, id).Success? <==>
      w.vault.StateOf(id) == Created && sender == w.vault.orders[id].payer
    ensures RefundOrder(self, w.vault, w.token, w.now, id).Success? <==>
      w.vault.StateOf(id) == Created && w.now >= w.vault.orders[id].createdAt + REFUND_TIMEOUT
  {
    hide Bookkept;
    if w.vault.StateOf(id) == Created {
      var o := w.vault.orders[id];
      CloseKeeps(self, w, id, OrderReleased(id, o.payee, o.amount));
      CloseKeeps(self, w, id, OrderRefunded(id, o.payer, o.amount));
    }
  }
}
