/** An ERC-20 token (EIP-20, section "Methods"): balances, allowances, no fees. */
module Erc20 {
  import opened Wrappers
  import opened Sums
  import opened Identity

  const MAX_UINT256: nat := 0xffff_ffff_ffff_ffff_ffff_ffff_ffff_ffff_ffff_ffff_ffff_ffff_ffff_ffff_ffff_ffff

  type uint256 = x: int | 0 <= x <= MAX_UINT256

  datatype Token = Token(balances: map<Address, nat>, allowances: map<(Address, Address), uint256>) {

    function BalanceOf(a: Address): nat {
      if a in balances then balances[a] else 0
    }

    function Allowance(owner: Address, spender: Address): uint256 {
      if (owner, spender) in allowances then allowances[(owner, spender)] else 0
    }

    function Move(from: Address, to: Address, amount: nat): Token
      requires amount <= BalanceOf(from)
    {
      var debited := this.(balances := balances[from := BalanceOf(from) - amount]);
      debited.(balances := debited.balances[to := debited.BalanceOf(to) + amount])
    }

    function Transfer(from: Address, to: Address, amount: nat): Option<Token> {
      if from == 0 || to == 0 || BalanceOf(from) < amount then None
      else Some(Move(from, to, amount))
    }

    /** An allowance of the largest value is unlimited and is not spent. */
    function SpendAllowance(owner: Address, spender: Address, amount: nat): Option<Token> {
      var current := Allowance(owner, spender);
      if current == MAX_UINT256 then Some(this)
      else if current < amount || owner == 0 || spender == 0 then None
      else Some(this.(allowances := allowances[(owner, spender) := current - amount]))
    }

    function TransferFrom(spender: Address, from: Address, to: Address, amount: nat): Option<Token> {
      var spent := SpendAllowance(from, spender, amount);
      if spent.None? then None else spent.value.Transfer(from, to, amount)
    }
  }

  function Balances(t: Token): Address -> int {
    (a: Address) => t.BalanceOf(a)
  }

  ghost function Supply(t: Token): int {
    SumSet(t.balances.Keys, Balances(t))
  }

  lemma MoveEffect(t: Token, from: Address, to: Address, amount: nat, a: Address)
    requires amount <= t.BalanceOf(from)
    ensures t.Move(from, to, amount).BalanceOf(a) ==
      t.BalanceOf(a) + (if a == to then amount else 0) - (if a == from then amount else 0)
  {
  }

  /** A transfer neither creates nor destroys tokens. */
  lemma MoveKeepsSupply(t: Token, from: Address, to: Address, amount: nat)
    requires amount <= t.BalanceOf(from)
    ensures Supply(t.Move(from, to, amount)) == Supply(t)
  {
    hide SumSet;
    var t' := t.Move(from, to, amount);
    var u := t.balances.Keys + {from, to};
    var gained := (a: Address) => if a == to then amount else 0;
    var lost := (a: Address) => if a == from then amount else 0;
    var either := (a: Address) => t.BalanceOf(a) + gained(a);
    assert SumSet(u, either) == Supply(t) + amount by {
      SumSetWiden(t.balances.Keys, u, Balances(t));
      SumSetSplit(u, either, Balances(t), gained);
      SumSetSingle(u, to, gained);
    }
    assert SumSet(u, either) == Supply(t') + amount by {
      forall a | a in u
        ensures either(a) == Balances(t')(a) + lost(a)
      {
        MoveEffect(t, from, to, amount, a);
      }
      assert t'.balances.Keys == u;
      SumSetSplit(u, either, Balances(t'), lost);
      SumSetSingle(u, from, lost);
    }
  }

  function Approved(t: Token, owner: Address, spender: Address, value: uint256): Token {
    t.(allowances := t.allowances[(owner, spender) := value])
  }

  function Minted(t: Token, to: Address, amount: nat): Token {
    t.(balances := t.balances[to := t.BalanceOf(to) + amount])
  }

  lemma ApprovedEffect(t: Token, owner: Address, spender: Address, value: uint256)
    ensures forall a :: Approved(t, owner, spender, value).BalanceOf(a) == t.BalanceOf(a)
    ensures forall a, b :: Approved(t, owner, spender, value).Allowance(a, b) == if a == owner && b == spender then value else t.Allowance(a, b)
  {
  }

  lemma MintedEffect(t: Token, to: Address, amount: nat)
    ensures forall a :: Minted(t, to, amount).BalanceOf(a) == t.BalanceOf(a) + if a == to then amount else 0
    ensures forall a, b :: Minted(t, to, amount).Allowance(a, b) == t.Allowance(a, b)
  {
  }

  lemma TransferEffect(t: Token, from: Address, to: Address, amount: nat)
    ensures t.Transfer(from, to, amount).Some? <==> from != 0 && to != 0 && amount <= t.BalanceOf(from)
    ensures t.Transfer(from, to, amount).Some? ==>
      var t' := t.Transfer(from, to, amount).value;
      && (forall a :: t'.BalanceOf(a) ==
            t.BalanceOf(a) + (if a == to then amount else 0) - (if a == from then amount else 0))
      && (forall a, b :: t'.Allowance(a, b) == t.Allowance(a, b))
  {
  }

  /** A spender's transfer needs the owner's balance and allowance, and takes from both. */
  lemma TransferFromEffect(t: Token, spender: Address, from: Address, to: Address, amount: nat)
    ensures t.TransferFrom(spender, from, to, amount).Some? <==>
      && from != 0 && to != 0 && amount <= t.BalanceOf(from)
      && (t.Allowance(from, spender) == MAX_UINT256 || (spender != 0 && amount <= t.Allowance(from, spender)))
    ensures t.TransferFrom(spender, from, to, amount).Some? ==>
      var t' := t.TransferFrom(spender, from, to, amount).value;
      && (forall a :: t'.BalanceOf(a) ==
            t.BalanceOf(a) + (if a == to then amount else 0) - (if a == from then amount else 0))
      && (forall a, b :: t'.Allowance(a, b) ==
            if a == from && b == spender && t.Allowance(a, b) != MAX_UINT256 then t.Allowance(a, b) - amount else t.Allowance(a, b))
  {
    var spent := t.SpendAllowance(from, spender, amount);
    if spent.Some? {
      TransferEffect(spent.value, from, to, amount);
    }
  }

  /** The deployed token contract: its storage and the two calls that move funds. A call
      that fails reports so and changes nothing. */
  class TokenContract {
    var state: Token

    constructor (initial: Token)
      ensures state == initial
    {
      state := initial;
    }

    method Transfer(caller: Address, to: Address, amount: nat) returns (ok: bool)
      modifies this
      ensures ok <==> old(state).Transfer(caller, to, amount).Some?
      ensures state == if ok then old(state).Transfer(caller, to, amount).value else old(state)
    {
      ok := caller != 0 && to != 0 && amount <= state.BalanceOf(caller);
      if ok {
        state := state.Move(caller, to, amount);
      }
    }

    method TransferFrom(caller: Address, from: Address, to: Address, amount: nat) returns (ok: bool)
      modifies this
      ensures ok <==> old(state).TransferFrom(caller, from, to, amount).Some?
      ensures state == if ok then old(state).TransferFrom(caller, from, to, amount).value else old(state)
    {
      var before := state;
      var spent := state.SpendAllowance(from, caller, amount);
      if spent.None? {
        return false;
      }
      state := spent.value;
      ok := Transfer(from, to, amount);
      if !ok {
        state := before;
      }
    }
  }
}
