/** The balance register of one bank node: an integer balance with an
    unconditional credit and a debit that is refused when funds do not suffice.
    Balances are unbounded integers (the 32-bit wrap-around of the Java `int`
    is not modelled). */
module Items {

  /** Outcome of a guarded debit: whether it went through, and the balance after it. */
  datatype Withdrawal = Withdrawal(ok: bool, balance: int)

  /** The guarded debit on a balance value. */
  function Debit(balance: int, amount: int): (w: Withdrawal)
    ensures w.ok <==> amount <= balance
    ensures w.ok ==> w.balance + amount == balance
    ensures !w.ok ==> w.balance == balance
  {
    if balance >= amount then Withdrawal(true, balance - amount) else Withdrawal(false, balance)
  }

  /** The unconditional credit on a balance value. */
  function Credit(balance: int, amount: int): int
  {
    balance + amount
  }

  class Item {
    var balance: int

    constructor (balance: int)
      ensures this.balance == balance
    {
      this.balance := balance;
    }

    method GetBalance() returns (b: int)
      ensures b == balance
    {
      b := balance;
    }

    method IncrementBalance(amount: int)
      modifies this
      ensures balance == Credit(old(balance), amount)
      ensures balance - old(balance) == amount
    {
      balance := balance + amount;
    }

    /** Deducts `amount` when the balance covers it; otherwise leaves the balance alone. */
    method DecrementBalance(amount: int) returns (ok: bool)
      modifies this
      ensures ok <==> old(balance) >= amount
      ensures Withdrawal(ok, balance) == Debit(old(balance), amount)
      ensures old(balance) >= 0 && amount >= 0 ==> balance >= 0
    {
      if balance >= amount {
        balance := balance - amount;
        return true;
      }
      return false;
    }

    /** Two items are equal exactly when their balances are. */
    method Equals(other: Item?) returns (eq: bool)
      ensures eq <==> other != null && other.balance == balance
    {
      if other == this {
        return true;
      }
      if other == null {
        return false;
      }
      return other.balance == balance;
    }
  }

  /** A refused debit changes nothing. */
  lemma FailedDebitChangesNothing(balance: int, amount: int)
    requires balance < amount
    ensures Debit(balance, amount) == Withdrawal(false, balance)
  {
  }

  /** Crediting back what a successful debit took restores the balance: the
      compensation for a transfer the recipient refused. */
  lemma CompensationRestores(balance: int, amount: int)
    requires Debit(balance, amount).ok
    ensures Credit(Debit(balance, amount).balance, amount) == balance
  {
  }

  /** A debit of a non-negative amount never drives a non-negative balance below zero. */
  lemma DebitKeepsNonNegative(balance: int, amount: int)
    requires balance >= 0 && amount >= 0
    ensures Debit(balance, amount).balance >= 0
  {
  }

  /** A call on the register, as a value, so that sequences of calls can be reasoned about. */
  datatype BalanceOp = Increment(amount: int) | Decrement(amount: int)

  function ApplyOp(balance: int, op: BalanceOp): int
  {
    match op
    case Increment(a) => Credit(balance, a)
    case Decrement(a) => Debit(balance, a).balance
  }

  /** The balance after the calls `ops`, issued in order. */
  function Replay(balance: int, ops: seq<BalanceOp>): int
    decreases |ops|
  {
    if ops == [] then balance else ApplyOp(Replay(balance, ops[..|ops| - 1]), ops[|ops| - 1])
  }

  /** Sum of the amounts credited by `ops`. */
  function Deposited(ops: seq<BalanceOp>): int
    decreases |ops|
  {
    if ops == [] then 0
    else Deposited(ops[..|ops| - 1]) + (if ops[|ops| - 1].Increment? then ops[|ops| - 1].amount else 0)
  }

  /** With non-negative amounts, no sequence of calls takes a non-negative balance below zero. */
  lemma {:induction false} ReplayNonNegative(balance: int, ops: seq<BalanceOp>)
    requires balance >= 0
    requires forall i :: 0 <= i < |ops| ==> ops[i].amount >= 0
    ensures Replay(balance, ops) >= 0
    decreases |ops|
  {
    if ops != [] {
      ReplayNonNegative(balance, ops[..|ops| - 1]);
    }
  }

  /** The balance never exceeds the start plus what was credited: a debit
      never adds money, whatever its outcome. */
  lemma {:induction false} ReplayBoundedByDeposits(balance: int, ops: seq<BalanceOp>)
    requires forall i :: 0 <= i < |ops| ==> ops[i].amount >= 0
    ensures Replay(balance, ops) <= balance + Deposited(ops)
    decreases |ops|
  {
    if ops != [] {
      ReplayBoundedByDeposits(balance, ops[..|ops| - 1]);
    }
  }
}
