/** The NettingSettlement contract: one all-or-nothing settlement of a batch. */
module NettingSettlement {
  import opened Wrappers
  import opened Sums
  import opened Identity
  import opened Erc20

  datatype Revert =
    | NotSettler
    | InvalidBatchHash
    | BatchAlreadySettled
    | InvalidArrayLength
    | ZeroAddress
    | InvalidAmount
    | ArithmeticOverflow
    | TotalsMismatch
    | TransferFailed

  /** One entry of a pair of parallel arrays: who, and how much. */
  datatype Leg = Leg(party: Address, amount: nat)

  function LegParty(l: Leg): Address { l.party }
  function LegAmount(l: Leg): int { l.amount }

  function Zip(parties: seq<Address>, amounts: seq<nat>): seq<Leg>
    requires |parties| == |amounts|
  {
    seq(|parties|, i requires 0 <= i < |parties| => Leg(parties[i], amounts[i]))
  }

  function Total(legs: seq<Leg>): int { Sum(legs, LegAmount) }

  /** All that the legs of one address add up to; duplicates are allowed. */
  function Share(legs: seq<Leg>, a: Address): int { Sum(legs, Keyed(LegParty, LegAmount, a)) }

  // ---- What the contract does, as functions of its storage and the token ----

  /** A validating loop: the checked total, or the first reason to revert. */
  function CheckLegs(legs: seq<Leg>): Result<nat, Revert> {
    if legs == [] then Success(0)
    else
      var last := legs[|legs| - 1];
      match CheckLegs(legs[..|legs| - 1])
      case Failure(e) => Failure(e)
      case Success(total) =>
        if last.party == 0 then Failure(ZeroAddress)
        else if last.amount == 0 then Failure(InvalidAmount)
        else if total + last.amount > MAX_UINT256 then Failure(ArithmeticOverflow)
        else Success(total + last.amount)
  }

  function DebitAll(t: Token, self: Address, legs: seq<Leg>): Option<Token> {
    if legs == [] then Some(t)
    else
      var last := legs[|legs| - 1];
      match DebitAll(t, self, legs[..|legs| - 1])
      case None => None
      case Some(t') => t'.TransferFrom(self, last.party, self, last.amount)
  }

  function CreditAll(t: Token, self: Address, legs: seq<Leg>): Option<Token> {
    if legs == [] then Some(t)
    else
      var last := legs[|legs| - 1];
      match CreditAll(t, self, legs[..|legs| - 1])
      case None => None
      case Some(t') => t'.Transfer(self, last.party, last.amount)
  }

  datatype Call = Call(
    sender: Address,
    batchHash: nat,
    debtors: seq<Address>,
    debitAmounts: seq<nat>,
    creditors: seq<Address>,
    creditAmounts: seq<nat>)

  predicate LengthsMatch(c: Call) {
    && c.debtors != [] && c.creditors != []
    && |c.debtors| == |c.debitAmounts| && |c.creditors| == |c.creditAmounts|
  }

  /** settleBatch, as a function of the settled hashes and the token. */
  function Settle(self: Address, settler: Address, settled: set<nat>, t: Token, c: Call): Result<Token, Revert> {
    if c.sender != settler then Failure(NotSettler)
    else if c.batchHash == 0 then Failure(InvalidBatchHash)
    else if c.batchHash in settled then Failure(BatchAlreadySettled)
    else if !LengthsMatch(c) then Failure(InvalidArrayLength)
    else
      var debits, credits := Zip(c.debtors, c.debitAmounts), Zip(c.creditors, c.creditAmounts);
      match CheckLegs(debits)
      case Failure(e) => Failure(e)
      case Success(debitTotal) =>
        match CheckLegs(credits)
        case Failure(e) => Failure(e)
        case Success(creditTotal) =>
          if debitTotal != creditTotal then Failure(TotalsMismatch)
          else
            match DebitAll(t, self, debits)
            case None => Failure(TransferFailed)
            case Some(t1) =>
              match CreditAll(t1, self, credits)
              case None => Failure(TransferFailed)
              case Some(t2) => Success(t2)
  }

  // ---- The contract ----

  class SettlementContract {
    const self: Address
    const settler: Address
    const token: TokenContract
    var settledBatches: set<nat>

    constructor (self: Address, token: TokenContract, settler: Address)
      requires self != 0 && settler != 0
      ensures settledBatches == {} && this.self == self && this.token == token && this.settler == settler
    {
      this.self := self;
      this.token := token;
      this.settler := settler;
      settledBatches := {};
    }

    /** A validating loop over parallel arrays. */
    method SumChecked(parties: seq<Address>, amounts: seq<nat>) returns (r: Result<nat, Revert>)
      requires |parties| == |amounts|
      ensures r == CheckLegs(Zip(parties, amounts))
    {
      var total: nat := 0;
      ghost var legs := Zip(parties, amounts);
      for i := 0 to |parties|
        invariant CheckLegs(legs[..i]) == Success(total)
      {
        var amount := amounts[i];
        assert legs[..i + 1][..i] == legs[..i];
        CheckPrefix(legs, i + 1);
        if parties[i] == 0 {
          return Failure(ZeroAddress);
        }
        if amount == 0 {
          return Failure(InvalidAmount);
        }
        if total + amount > MAX_UINT256 {
          return Failure(ArithmeticOverflow);
        }
        total := total + amount;
      }
      assert legs[..|parties|] == legs;
      return Success(total);
    }

    method PullDebits(debtors: seq<Address>, amounts: seq<nat>) returns (ok: bool)
      requires |debtors| == |amounts|
      modifies token
      ensures ok <==> DebitAll(old(token.state), self, Zip(debtors, amounts)).Some?
      ensures ok ==> token.state == DebitAll(old(token.state), self, Zip(debtors, amounts)).value
    {
      ghost var legs := Zip(debtors, amounts);
      for i := 0 to |debtors|
        invariant DebitAll(old(token.state), self, legs[..i]) == Some(token.state)
      {
        assert legs[..i + 1][..i] == legs[..i];
        DebitPrefix(old(token.state), self, legs, i + 1);
        var moved := token.TransferFrom(self, debtors[i], self, amounts[i]);
        if !moved {
          return false;
        }
      }
      assert legs[..|debtors|] == legs;
      return true;
    }

    method PayCredits(creditors: seq<Address>, amounts: seq<nat>) returns (ok: bool)
      requires |creditors| == |amounts|
      modifies token
      ensures ok <==> CreditAll(old(token.state), self, Zip(creditors, amounts)).Some?
      ensures ok ==> token.state == CreditAll(old(token.state), self, Zip(creditors, amounts)).value
    {
      ghost var legs := Zip(creditors, amounts);
      for i := 0 to |creditors|
        invariant CreditAll(old(token.state), self, legs[..i]) == Some(token.state)
      {
        assert legs[..i + 1][..i] == legs[..i];
        CreditPrefix(old(token.state), self, legs, i + 1);
        var moved := token.Transfer(self, creditors[i], amounts[i]);
        if !moved {
          return false;
        }
      }
      assert legs[..|creditors|] == legs;
      return true;
    }

    /** A revert undoes every storage write of the call. */
    method SettleBatch(c: Call) returns (r: Result<(), Revert>)
      modifies this, token
      ensures r.Success? <==> Settle(self, settler, old(settledBatches), old(token.state), c).Success?
      ensures r.Success? ==>
        && Settle(self, settler, old(settledBatches), old(token.state), c) == Success(token.state)
        && settledBatches == old(settledBatches) + {c.batchHash}
      ensures r.Failure? ==>
        && Settle(self, settler, old(settledBatches), old(token.state), c) == Failure(r.error)
        && token.state == old(token.state)
        && settledBatches == old(settledBatches)
    {
      if c.sender != settler { return Failure(NotSettler); }
      if c.batchHash == 0 { return Failure(InvalidBatchHash); }
      if c.batchHash in settledBatches { return Failure(BatchAlreadySettled); }
      if |c.debtors| == 0 || |c.creditors| == 0 || |c.debtors| != |c.debitAmounts| || |c.creditors| != |c.creditAmounts| {
        return Failure(InvalidArrayLength);
      }

      var debitTotal := SumChecked(c.debtors, c.debitAmounts);
      if debitTotal.Failure? { return Failure(debitTotal.error); }
      var creditTotal := SumChecked(c.creditors, c.creditAmounts);
      if creditTotal.Failure? { return Failure(creditTotal.error); }
      if debitTotal.value != creditTotal.value { return Failure(TotalsMismatch); }

      var settledBefore, tokenBefore := settledBatches, token.state;
      settledBatches := settledBatches + {c.batchHash};
      var ok := PullDebits(c.debtors, c.debitAmounts);
      if ok {
        ok := PayCredits(c.creditors, c.creditAmounts);
      }
      if !ok {
        settledBatches, token.state := settledBefore, tokenBefore;
        return Failure(TransferFailed);
      }
      return Success(());
    }
  }

  // ---- Prefixes of the loops ----

  lemma {:induction false} CheckPrefix(legs: seq<Leg>, n: nat)
    requires n <= |legs|
    ensures CheckLegs(legs[..n]).Failure? ==> CheckLegs(legs) == CheckLegs(legs[..n])
  {
    if n < |legs| {
      assert legs[..|legs| - 1][..n] == legs[..n];
      CheckPrefix(legs[..|legs| - 1], n);
    } else {
      assert legs[..n] == legs;
    }
  }

  lemma {:induction false} DebitPrefix(t: Token, self: Address, legs: seq<Leg>, n: nat)
    requires n <= |legs|
    ensures DebitAll(t, self, legs[..n]).None? ==> DebitAll(t, self, legs).None?
  {
    if n < |legs| {
      assert legs[..|legs| - 1][..n] == legs[..n];
      DebitPrefix(t, self, legs[..|legs| - 1], n);
    } else {
      assert legs[..n] == legs;
    }
  }

  lemma {:induction false} CreditPrefix(t: Token, self: Address, legs: seq<Leg>, n: nat)
    requires n <= |legs|
    ensures CreditAll(t, self, legs[..n]).None? ==> CreditAll(t, self, legs).None?
  {
    if n < |legs| {
      assert legs[..|legs| - 1][..n] == legs[..n];
      CreditPrefix(t, self, legs[..|legs| - 1], n);
    } else {
      assert legs[..n] == legs;
    }
  }

  // ---- When a settlement succeeds, and what it moves ----

  ghost predicate WellFormedLegs(legs: seq<Leg>) {
    forall l :: l in legs ==> l.party != 0 && l.amount > 0
  }

  /** The address can bear everything the legs take from it. */
  predicate CanBear(t: Token, self: Address, legs: seq<Leg>, a: Address) {
    && Share(legs, a) <= t.BalanceOf(a)
    && (t.Allowance(a, self) == MAX_UINT256 || Share(legs, a) <= t.Allowance(a, self))
  }

  lemma ShareSnoc(legs: seq<Leg>, l: Leg, a: Address)
    ensures Share(legs + [l], a) == Share(legs, a) + if l.party == a then l.amount else 0
    ensures Total(legs + [l]) == Total(legs) + l.amount
  {
    SumSnoc(legs, l, Keyed(LegParty, LegAmount, a));
    SumSnoc(legs, l, LegAmount);
    assert LegParty(l) == a <==> l.party == a;
    assert LegAmount(l) == l.amount;
  }

  lemma {:induction false} ShareNonNegative(legs: seq<Leg>, a: Address)
    ensures 0 <= Share(legs, a) <= Total(legs)
    ensures forall l :: l in legs ==> l.amount <= Share(legs, l.party)
  {
    if legs != [] {
      var n := |legs| - 1;
      assert legs == legs[..n] + [legs[n]];
      ShareNonNegative(legs[..n], a);
      ShareSnoc(legs[..n], legs[n], a);
      forall l | l in legs
        ensures l.amount <= Share(legs, l.party)
      {
        ShareNonNegative(legs[..n], l.party);
        ShareSnoc(legs[..n], legs[n], l.party);
      }
    }
  }

  /** The token after debits d and credits c were applied through the contract. */
  ghost predicate Moved(t: Token, t': Token, self: Address, debits: seq<Leg>, credits: seq<Leg>) {
    && (forall a :: a != self ==> t'.BalanceOf(a) == t.BalanceOf(a) - Share(debits, a) + Share(credits, a))
    && t'.BalanceOf(self) == t.BalanceOf(self) + Total(debits) - Total(credits) + Share(credits, self)
    && (forall a, b :: t'.Allowance(a, b) ==
          if b == self && t.Allowance(a, b) != MAX_UINT256 then t.Allowance(a, b) - Share(debits, a) else t.Allowance(a, b))
  }

  /** The debit loop passes exactly when every debtor can bear its summed debits. */
  lemma {:induction false} DebitLoop(t: Token, self: Address, legs: seq<Leg>)
    requires self != 0 && t.Allowance(self, self) == 0
    requires WellFormedLegs(legs)
    ensures DebitAll(t, self, legs).Some? <==> forall a :: CanBear(t, self, legs, a)
    ensures DebitAll(t, self, legs).Some? ==> Moved(t, DebitAll(t, self, legs).value, self, legs, [])
  {
    if legs != [] {
      var n := |legs| - 1;
      var last := legs[n];
      assert legs == legs[..n] + [last];
      assert last in legs;
      DebitLoop(t, self, legs[..n]);
      forall a
        ensures Share(legs, a) == Share(legs[..n], a) + if last.party == a then last.amount else 0
        ensures Total(legs) == Total(legs[..n]) + last.amount
      {
        ShareSnoc(legs[..n], last, a);
      }
      if DebitAll(t, self, legs[..n]).None? {
        var a :| !CanBear(t, self, legs[..n], a);
        assert !CanBear(t, self, legs, a);
      } else {
        DebitStep(t, DebitAll(t, self, legs[..n]).value, self, legs[..n], last);
      }
    }
  }

  lemma DebitStep(t: Token, t1: Token, self: Address, legs: seq<Leg>, last: Leg)
    requires self != 0 && t.Allowance(self, self) == 0
    requires last.party != 0 && last.amount > 0
    requires forall a :: CanBear(t, self, legs, a)
    requires Moved(t, t1, self, legs, [])
    ensures t1.TransferFrom(self, last.party, self, last.amount).Some? <==> forall a :: CanBear(t, self, legs + [last], a)
    ensures t1.TransferFrom(self, last.party, self, last.amount).Some? ==>
      Moved(t, t1.TransferFrom(self, last.party, self, last.amount).value, self, legs + [last], [])
  {
    forall a
      ensures Share(legs + [last], a) == Share(legs, a) + if last.party == a then last.amount else 0
      ensures Total(legs + [last]) == Total(legs) + last.amount
    {
      ShareSnoc(legs, last, a);
    }
    assert CanBear(t, self, legs, last.party) && CanBear(t, self, legs, self);
    ShareNonNegative(legs, self);
    ShareNonNegative(legs, last.party);
    var ok := t1.TransferFrom(self, last.party, self, last.amount).Some?;
    if last.party == self {
      assert !CanBear(t, self, legs + [last], self);
    } else {
      TransferFromEffect(t1, self, last.party, self, last.amount);
      assert ok <==> CanBear(t, self, legs + [last], last.party);
    }
    if ok {
      forall a
        ensures CanBear(t, self, legs + [last], a)
      {
        assert CanBear(t, self, legs, a);
      }
    }
  }

  /** Given the funds, the credit loop cannot fail. */
  lemma {:induction false} CreditLoop(t: Token, self: Address, legs: seq<Leg>)
    requires self != 0 && WellFormedLegs(legs)
    requires Total(legs) <= t.BalanceOf(self)
    ensures CreditAll(t, self, legs).Some?
    ensures Moved(t, CreditAll(t, self, legs).value, self, [], legs)
  {
    if legs != [] {
      var n := |legs| - 1;
      var last := legs[n];
      assert legs == legs[..n] + [last];
      assert last in legs;
      ShareSnoc(legs[..n], last, self);
      CreditLoop(t, self, legs[..n]);
      ShareNonNegative(legs[..n], self);
      forall a
        ensures Share(legs, a) == Share(legs[..n], a) + if last.party == a then last.amount else 0
      {
        ShareSnoc(legs[..n], last, a);
      }
    }
  }

  /** A validating loop reports the first leg that is wrong, and what is wrong with it. */
  lemma {:induction false} FirstBadLeg(legs: seq<Leg>) returns (k: nat)
    requires CheckLegs(legs).Failure?
    ensures k < |legs| && (forall j :: 0 <= j < k ==> legs[j].party != 0 && legs[j].amount > 0) && Total(legs[..k]) <= MAX_UINT256
    ensures CheckLegs(legs) == Failure(
      if legs[k].party == 0 then ZeroAddress else if legs[k].amount == 0 then InvalidAmount else ArithmeticOverflow)
  {
    var n := |legs| - 1;
    if CheckLegs(legs[..n]).Failure? {
      k := FirstBadLeg(legs[..n]);
      assert legs[..n][..k] == legs[..k] && forall j :: 0 <= j <= k ==> legs[..n][j] == legs[j];
    } else {
      k := n;
      CheckedTotal(legs[..n]);
      assert forall j :: 0 <= j < n ==> legs[..n][j] == legs[j] && legs[..n][j] in legs[..n];
    }
  }

  /** Each refusal of a settlement has its reason, and the first one is given. */
  lemma SettleReasons(self: Address, settler: Address, settled: set<nat>, t: Token, c: Call)
    ensures var r := Settle(self, settler, settled, t, c);
      var lengths := |c.debtors| == |c.debitAmounts| > 0 && |c.creditors| == |c.creditAmounts| > 0;
      var called := c.sender == settler && c.batchHash != 0 && c.batchHash !in settled;
      && (r == Failure(NotSettler) <==> c.sender != settler)
      && (r == Failure(InvalidBatchHash) <==> c.sender == settler && c.batchHash == 0)
      && (r == Failure(BatchAlreadySettled) <==> c.sender == settler && c.batchHash != 0 && c.batchHash in settled)
      && (r == Failure(InvalidArrayLength) <==> called && !lengths)
      && (called && lengths ==>
            var debits, credits := CheckLegs(Zip(c.debtors, c.debitAmounts)), CheckLegs(Zip(c.creditors, c.creditAmounts));
            && (debits.Failure? ==> r == Failure(debits.error))
            && (debits.Success? && credits.Failure? ==> r == Failure(credits.error))
            && (debits.Success? && credits.Success? && debits.value != credits.value ==> r == Failure(TotalsMismatch))
            && (debits.Success? && credits.Success? && debits.value == credits.value && r.Failure? ==> r == Failure(TransferFailed)))
  {
    if LengthsMatch(c) {
      CheckErrors(Zip(c.debtors, c.debitAmounts));
      CheckErrors(Zip(c.creditors, c.creditAmounts));
    }
    hide CheckLegs, DebitAll, CreditAll;
  }

  lemma {:induction false} CheckErrors(legs: seq<Leg>)
    ensures CheckLegs(legs).Failure? ==>
      CheckLegs(legs).error == ZeroAddress || CheckLegs(legs).error == InvalidAmount || CheckLegs(legs).error == ArithmeticOverflow
  {
    if legs != [] {
      CheckErrors(legs[..|legs| - 1]);
    }
  }

  lemma {:induction false} CheckedTotal(legs: seq<Leg>)
    ensures CheckLegs(legs).Success? <==> WellFormedLegs(legs) && Total(legs) <= MAX_UINT256
    ensures CheckLegs(legs).Success? ==> CheckLegs(legs).value == Total(legs)
  {
    if legs != [] {
      var n := |legs| - 1;
      var last := legs[n];
      assert legs == legs[..n] + [last];
      CheckedTotal(legs[..n]);
      ShareSnoc(legs[..n], last, 0);
      assert WellFormedLegs(legs) <==> WellFormedLegs(legs[..n]) && last.party != 0 && last.amount > 0 by {
        assert forall l :: l in legs <==> l in legs[..n] || l == last;
      }
    }
  }

  /** Debits that everyone can bear stay within the supply, so no total overflows. */
  lemma BearableTotal(t: Token, self: Address, legs: seq<Leg>)
    requires WellFormedLegs(legs)
    requires forall a :: CanBear(t, self, legs, a)
    ensures Total(legs) <= Supply(t)
  {
    var u := t.balances.Keys;
    forall i | 0 <= i < |legs|
      ensures LegParty(legs[i]) in u
    {
      assert legs[i] in legs;
      ShareNonNegative(legs, legs[i].party);
      assert CanBear(t, self, legs, legs[i].party);
    }
    SumByKey(u, legs, LegParty, LegAmount);
    forall a | a in u
      ensures Totals(legs, LegParty, LegAmount)(a) <= Balances(t)(a)
    {
      assert CanBear(t, self, legs, a);
    }
    SumSetAtMost(u, Totals(legs, LegParty, LegAmount), Balances(t));
  }

  /** The token never granted the contract an allowance over its own funds, and its
      supply is a uint256. */
  ghost predicate TokenSane(t: Token, self: Address) {
    && self != 0
    && t.Allowance(self, self) == 0
    && Supply(t) <= MAX_UINT256
  }

  ghost predicate Acceptable(self: Address, settler: Address, settled: set<nat>, t: Token, c: Call) {
    && c.sender == settler
    && c.batchHash != 0 && c.batchHash !in settled
    && LengthsMatch(c)
    && WellFormedLegs(Zip(c.debtors, c.debitAmounts))
    && WellFormedLegs(Zip(c.creditors, c.creditAmounts))
    && Total(Zip(c.debtors, c.debitAmounts)) == Total(Zip(c.creditors, c.creditAmounts))
    && forall a :: CanBear(t, self, Zip(c.debtors, c.debitAmounts), a)
  }

  /** A settlement succeeds exactly when its arguments are in order and every debtor can
      bear its summed debits; every balance then changes by exactly credits minus debits. */
  lemma SettleIff(self: Address, settler: Address, settled: set<nat>, t: Token, c: Call)
    requires TokenSane(t, self)
    ensures Settle(self, settler, settled, t, c).Success? <==> Acceptable(self, settler, settled, t, c)
    ensures Settle(self, settler, settled, t, c).Success? ==>
      var t' := Settle(self, settler, settled, t, c).value;
      var debits, credits := Zip(c.debtors, c.debitAmounts), Zip(c.creditors, c.creditAmounts);
      && LengthsMatch(c)
      && (forall a :: t'.BalanceOf(a) == t.BalanceOf(a) + Share(credits, a) - Share(debits, a))
      && (forall a :: t'.Allowance(a, self) == t.Allowance(a, self) - if t.Allowance(a, self) == MAX_UINT256 then 0 else Share(debits, a))
      && (forall a, b :: b != self ==> t'.Allowance(a, b) == t.Allowance(a, b))
  {
    if c.sender == settler && c.batchHash != 0 && c.batchHash !in settled && LengthsMatch(c) {
      var debits, credits := Zip(c.debtors, c.debitAmounts), Zip(c.creditors, c.creditAmounts);
      CheckedTotal(debits);
      CheckedTotal(credits);
      if WellFormedLegs(debits) && WellFormedLegs(credits) && Total(debits) == Total(credits) {
        DebitLoop(t, self, debits);
        if DebitAll(t, self, debits).Some? {
          BearableTotal(t, self, debits);
          var t1 := DebitAll(t, self, debits).value;
          ShareNonNegative(credits, self);
          CreditLoop(t1, self, credits);
          assert CanBear(t, self, debits, self);
          ShareNonNegative(debits, self);
        }
      }
    }
  }

  /** Settlement moves tokens, it never creates or destroys any. */
  lemma {:induction false} SettleKeepsSupply(self: Address, settler: Address, settled: set<nat>, t: Token, c: Call)
    requires Settle(self, settler, settled, t, c).Success?
    ensures Supply(Settle(self, settler, settled, t, c).value) == Supply(t)
  {
    var debits, credits := Zip(c.debtors, c.debitAmounts), Zip(c.creditors, c.creditAmounts);
    DebitsKeepSupply(t, self, debits);
    CreditsKeepSupply(DebitAll(t, self, debits).value, self, credits);
  }

  lemma {:induction false} DebitsKeepSupply(t: Token, self: Address, legs: seq<Leg>)
    requires DebitAll(t, self, legs).Some?
    ensures Supply(DebitAll(t, self, legs).value) == Supply(t)
  {
    if legs != [] {
      var last := legs[|legs| - 1];
      DebitsKeepSupply(t, self, legs[..|legs| - 1]);
      var t1 := DebitAll(t, self, legs[..|legs| - 1]).value;
      var t2 := t1.SpendAllowance(last.party, self, last.amount).value;
      SumSetAgree(t1.balances.Keys, Balances(t1), Balances(t2));
      MoveKeepsSupply(t2, last.party, self, last.amount);
    }
  }

  lemma {:induction false} CreditsKeepSupply(t: Token, self: Address, legs: seq<Leg>)
    requires CreditAll(t, self, legs).Some?
    ensures Supply(CreditAll(t, self, legs).value) == Supply(t)
  {
    if legs != [] {
      var last := legs[|legs| - 1];
      CreditsKeepSupply(t, self, legs[..|legs| - 1]);
      MoveKeepsSupply(CreditAll(t, self, legs[..|legs| - 1]).value, self, last.party, last.amount);
    }
  }
}
