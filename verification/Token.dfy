/** The underlying token contract, as the vault and its strategies use it. */
module Token {
  import opened Checked
  import opened Sums

  type Address = nat

  type Balances = map<Address, int>

  /** Moves `amount` between accounts. Negative amounts, missing funds and
      overflow of the receiver's balance panic. */
  function Transfer(t: Balances, from: Address, to: Address, amount: int): Outcome<Balances> {
    if amount < 0 then Panic else
    :- Insist(Get(t, from) >= amount);
    var debited := t[from := Get(t, from) - amount];
    var received :- Add(Get(debited, to), amount);
    Done(debited[to := received])
  }

  /** A transfer between distinct accounts moves exactly the amount and touches
      nobody else; a transfer to oneself changes nothing. */
  lemma TransferMoves(t: Balances, from: Address, to: Address, amount: int, a: Address)
    requires Transfer(t, from, to, amount).Done?
    ensures Get(Transfer(t, from, to, amount).value, a)
         == Get(t, a) - (if a == from then amount else 0) + (if a == to then amount else 0)
  {
  }

  /** Transfers never create or destroy tokens. */
  lemma TransferKeepsSupply(t: Balances, from: Address, to: Address, amount: int)
    requires Transfer(t, from, to, amount).Done?
    ensures Sum(Transfer(t, from, to, amount).value) == Sum(t)
  {
    var debited := t[from := Get(t, from) - amount];
    SumUpdate(t, from, Get(t, from) - amount);
    SumUpdate(debited, to, Get(debited, to) + amount);
  }
}
