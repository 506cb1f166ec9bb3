/**
 What an order of the escrow contract promises to its parties, from the call that creates
 it to every later point of every run: who can release it, when it can be refunded, and
 whose balance its funds go to.
 */
module EscrowTerms {
  import opened Wrappers
  import opened Identity
  import opened Erc20
  import opened Escrow

  /** The terms of a createOrder call, by its arguments and the clock at the time. */
  datatype Terms = Terms(payer: Address, payee: Address, amount: nat, specHash: nat, calledAt: nat)

  ghost predicate KeepsTerms(v: Vault, id: nat, t: Terms) {
    && id in v.orders
    && v.orders[id].payer == t.payer && v.orders[id].payee == t.payee && v.orders[id].amount == t.amount
    && v.orders[id].specHash == t.specHash && v.orders[id].createdAt == t.calledAt % 0x1_0000_0000_0000_0000
    && id < v.nextOrderId
  }

  lemma CreateGivesTerms(self: Address, w: World, sender: Address, payee: Address, amount: nat, specHash: nat)
    requires CreateOrder(self, w.vault, w.token, sender, w.now, payee, amount, specHash).Success?
    ensures var w' := After(self, w, Create(sender, payee, amount, specHash));
      && KeepsTerms(w'.vault, w.vault.nextOrderId, Terms(sender, payee, amount, specHash, w.now))
      && w'.vault.StateOf(w.vault.nextOrderId) == Created
      && w'.vault.log == w.vault.log + [OrderCreated(w.vault.nextOrderId, sender, payee, amount, specHash)]
  {
  }

  lemma StepKeepsTerms(self: Address, w: World, step: Step, id: nat, t: Terms)
    requires KeepsTerms(w.vault, id, t)
    ensures KeepsTerms(After(self, w, step).vault, id, t)
    ensures w.now <= After(self, w, step).now
    ensures w.vault.log <= After(self, w, step).vault.log
  {
  }

  /** No step ever changes the terms. */
  lemma {:induction false} RunKeepsTerms(self: Address, w: World, steps: seq<Step>, id: nat, t: Terms)
    requires KeepsTerms(w.vault, id, t)
    ensures KeepsTerms(Run(self, w, steps).vault, id, t)
    ensures w.vault.log <= Run(self, w, steps).vault.log
  {
    if steps != [] {
      var n := |steps| - 1;
      RunKeepsTerms(self, w, steps[..n], id, t);
      hide After;
      StepKeepsTerms(self, Run(self, w, steps[..n]), steps[n], id, t);
    }
  }

  lemma {:induction false} RunConcat(self: Address, w: World, first: seq<Step>, rest: seq<Step>)
    ensures Run(self, w, first + rest) == Run(self, Run(self, w, first), rest)
  {
    if rest == [] {
      assert first + rest == first;
    } else {
      var n := |rest| - 1;
      RunConcat(self, w, first, rest[..n]);
      assert (first + rest)[..|first + rest| - 1] == first + rest[..n];
    }
  }

  /** A world that anyone but the contract itself brought about since deployment. */
  function Reached(self: Address, t: Token, deployedAt: nat, steps: seq<Step>): World {
    Run(self, World(Vault(0, map[], []), t, deployedAt), steps)
  }

  /** In every run, with an order that was created by a call at time n and is still open:
      it can be refunded by anyone from 604800 seconds, seven days, after n, and by no one
      before. (The contract keeps n modulo 2 to the 64.) */
  lemma RefundTimelock(self: Address, t: Token, deployedAt: nat, before: seq<Step>, call: Step, since: seq<Step>, anyone: Address)
    requires self != 0 && forall spender :: t.Allowance(self, spender) == 0
    requires forall s :: s in before + [call] + since ==> s.sender != self
    requires call.Create?
    requires var w := Reached(self, t, deployedAt, before);
      CreateOrder(self, w.vault, w.token, call.sender, w.now, call.payee, call.amount, call.specHash).Success?
    ensures var w0, w := Reached(self, t, deployedAt, before), Reached(self, t, deployedAt, before + [call] + since);
      var id := w0.vault.nextOrderId;
      var w' := After(self, w, Refund(anyone, id));
      w.vault.StateOf(id) == Created ==>
        && (w'.vault.StateOf(id) == Refunded <==> w.now >= w0.now % 18446744073709551616 + 604800)
        && (w0.now < 18446744073709551616 && w.now < w0.now + 604800 ==> w' == w)
        && (w.now >= w0.now + 604800 ==> w'.vault.StateOf(id) == Refunded)
  {
    var w0, w := Reached(self, t, deployedAt, before), Reached(self, t, deployedAt, before + [call] + since);
    var id := w0.vault.nextOrderId;
    OrderKeepsTerms(self, t, deployedAt, before, call, since);
    RunStaysSolvent(self, t, deployedAt, before + [call] + since);
    assert Solvent(self, w);
    hide KeepsTerms, Reached, Solvent;
    if w.vault.StateOf(id) == Created {
      RefundableIff(self, w, id, Terms(call.sender, call.payee, call.amount, call.specHash, w0.now), anyone);
      StoredClock(w0.now);
    }
  }

  lemma StoredClock(n: nat)
    ensures n % 18446744073709551616 <= n
    ensures n < 18446744073709551616 ==> n % 18446744073709551616 == n
  {
  }

  lemma RefundableIff(self: Address, w: World, id: nat, t: Terms, anyone: Address)
    requires Solvent(self, w) && KeepsTerms(w.vault, id, t) && w.vault.StateOf(id) == Created
    ensures var w' := After(self, w, Refund(anyone, id));
      && (w'.vault.StateOf(id) == Refunded <==> w.now >= t.calledAt % 18446744073709551616 + 604800)
      && (w'.vault.StateOf(id) != Refunded ==> w' == w)
  {
    OrdersCanBeClosed(self, w, id, anyone);
    hide Solvent;
  }

  /** The order has the terms of its call, and its event is in the log, for ever. */
  lemma OrderKeepsTerms(self: Address, t: Token, deployedAt: nat, before: seq<Step>, call: Step, since: seq<Step>)
    requires call.Create?
    requires var w := Reached(self, t, deployedAt, before);
      CreateOrder(self, w.vault, w.token, call.sender, w.now, call.payee, call.amount, call.specHash).Success?
    ensures var w0, w := Reached(self, t, deployedAt, before), Reached(self, t, deployedAt, before + [call] + since);
      && KeepsTerms(w.vault, w0.vault.nextOrderId, Terms(call.sender, call.payee, call.amount, call.specHash, w0.now))
      && w0.vault.log + [OrderCreated(w0.vault.nextOrderId, call.sender, call.payee, call.amount, call.specHash)] <= w.vault.log
  {
    var start, w0 := World(Vault(0, map[], []), t, deployedAt), Reached(self, t, deployedAt, before);
    CreateGivesTerms(self, w0, call.sender, call.payee, call.amount, call.specHash);
    assert (before + [call])[..|before|] == before;
    RunConcat(self, start, before + [call], since);
    hide CreateOrder, After;
    RunKeepsTerms(self, After(self, w0, call), since, w0.vault.nextOrderId, Terms(call.sender, call.payee, call.amount, call.specHash, w0.now));
  }

  /** Whoever calls: an open order is released if and only if the caller created it, and then
      the amount of the call that created it goes from the contract to its payee. */
  lemma ReleasePaysPayee(self: Address, t: Token, deployedAt: nat, before: seq<Step>, call: Step, since: seq<Step>, anyone: Address)
    requires self != 0 && forall spender :: t.Allowance(self, spender) == 0
    requires forall s :: s in before + [call] + since ==> s.sender != self
    requires call.Create?
    requires var w := Reached(self, t, deployedAt, before);
      CreateOrder(self, w.vault, w.token, call.sender, w.now, call.payee, call.amount, call.specHash).Success?
    ensures var w := Reached(self, t, deployedAt, before + [call] + since);
      var id := Reached(self, t, deployedAt, before).vault.nextOrderId;
      var w' := After(self, w, Release(anyone, id));
      w.vault.StateOf(id) == Created ==>
        && (w'.vault.StateOf(id) == Released <==> anyone == call.sender)
        && (anyone != call.sender ==> w' == w)
        && (anyone == call.sender ==>
              && w'.vault.log == w.vault.log + [OrderReleased(id, call.payee, call.amount)]
              && forall a ::
                   w'.token.BalanceOf(a) == w.token.BalanceOf(a) + (if a == call.payee then call.amount else 0) - (if a == self then call.amount else 0))
  {
    var w := Reached(self, t, deployedAt, before + [call] + since);
    var id := Reached(self, t, deployedAt, before).vault.nextOrderId;
    OrderKeepsTerms(self, t, deployedAt, before, call, since);
    RunStaysSolvent(self, t, deployedAt, before + [call] + since);
    hide Run;
    assert Solvent(self, w);
    hide KeepsTerms, Reached, Solvent;
    if w.vault.StateOf(id) == Created {
      ReleaseEffect(self, w, id, Terms(call.sender, call.payee, call.amount, call.specHash, Reached(self, t, deployedAt, before).now), anyone);
    }
  }

  lemma ReleaseEffect(self: Address, w: World, id: nat, t: Terms, anyone: Address)
    requires Solvent(self, w) && KeepsTerms(w.vault, id, t) && w.vault.StateOf(id) == Created
    ensures var w' := After(self, w, Release(anyone, id));
      && (w'.vault.StateOf(id) == Released <==> anyone == t.payer)
      && (anyone != t.payer ==> w' == w)
      && (anyone == t.payer ==>
            && w'.vault.log == w.vault.log + [OrderReleased(id, t.payee, t.amount)]
            && forall a ::
                 w'.token.BalanceOf(a) == w.token.BalanceOf(a) + (if a == t.payee then t.amount else 0) - (if a == self then t.amount else 0))
  {
    OrdersCanBeClosed(self, w, id, anyone);
    hide Solvent;
    TransferEffect(w.token, self, t.payee, t.amount);
  }

  /** A refund returns that amount to the caller that created the order, whoever asks. */
  lemma RefundPaysPayer(self: Address, t: Token, deployedAt: nat, before: seq<Step>, call: Step, since: seq<Step>, anyone: Address)
    requires self != 0 && forall spender :: t.Allowance(self, spender) == 0
    requires forall s :: s in before + [call] + since ==> s.sender != self
    requires call.Create?
    requires var w := Reached(self, t, deployedAt, before);
      CreateOrder(self, w.vault, w.token, call.sender, w.now, call.payee, call.amount, call.specHash).Success?
    ensures var w := Reached(self, t, deployedAt, before + [call] + since);
      var id := Reached(self, t, deployedAt, before).vault.nextOrderId;
      var w' := After(self, w, Refund(anyone, id));
      w.vault.StateOf(id) == Created && w'.vault.StateOf(id) == Refunded ==>
        && w'.vault.log == w.vault.log + [OrderRefunded(id, call.sender, call.amount)]
        && forall a ::
             w'.token.BalanceOf(a) == w.token.BalanceOf(a) + (if a == call.sender then call.amount else 0) - (if a == self then call.amount else 0)
  {
    var w := Reached(self, t, deployedAt, before + [call] + since);
    var id := Reached(self, t, deployedAt, before).vault.nextOrderId;
    OrderKeepsTerms(self, t, deployedAt, before, call, since);
    hide Run;
    if w.vault.StateOf(id) == Created {
      TransferEffect(w.token, self, call.sender, call.amount);
    }
  }

  /** A create call goes through if and only if payee and amount are not zero and the caller
      holds the amount and has approved it; it then pays the amount in. Each reason to
      revert is reported as such. */
  lemma CreateIff(self: Address, w: World, sender: Address, payee: Address, amount: nat, specHash: nat)
    requires self != 0
    ensures var r := CreateOrder(self, w.vault, w.token, sender, w.now, payee, amount, specHash);
      && (r == Failure(ZeroAddress) <==> payee == 0)
      && (r == Failure(InvalidAmount) <==> payee != 0 && amount == 0)
      && (r.Success? <==>
            && payee != 0 && amount > 0 && sender != 0
            && amount <= w.token.BalanceOf(sender)
            && (amount <= w.token.Allowance(sender, self) || w.token.Allowance(sender, self) == MAX_UINT256))
      && (r.Failure? && payee != 0 && amount > 0 ==> r == Failure(TransferFailed))
    ensures var r := CreateOrder(self, w.vault, w.token, sender, w.now, payee, amount, specHash);
      r.Success? ==> forall a ::
        r.value.1.BalanceOf(a) == w.token.BalanceOf(a) + (if a == self then amount else 0) - (if a == sender then amount else 0)
  {
    TransferFromEffect(w.token, self, sender, self, amount);
  }

  /** Why a close is turned down: the state first, then the caller or the clock. */
  lemma CloseReasons(self: Address, w: World, sender: Address, id: nat)
    requires Solvent(self, w)
    ensures var r, state := ReleaseOrder(self, w.vault, w.token, sender, id), w.vault.StateOf(id);
      && (r == Failure(InvalidState(state)) <==> state != Created)
      && (r == Failure(NotPayer) <==> state == Created && sender != w.vault.orders[id].payer)
      && (r.Failure? ==> r == Failure(InvalidState(state)) || r == Failure(NotPayer))
    ensures var r, state := RefundOrder(self, w.vault, w.token, w.now, id), w.vault.StateOf(id);
      && (r == Failure(InvalidState(state)) <==> state != Created)
      && (r == Failure(TimeoutNotReached) <==> state == Created && w.now < w.vault.orders[id].createdAt + 604800)
      && (r.Failure? ==> r == Failure(InvalidState(state)) || r == Failure(TimeoutNotReached))
  {
    OrdersCanBeClosed(self, w, id, sender);
    hide Solvent;
  }
}
