/** Card: one account's balance, guarded by amount, PIN and overdraft checks.
    Each public call is one atomic step over the card's state. */
module Cards {
  import opened Errors
  import opened TextRules

  /** What one Deposit or Withdraw call does: the value it returns (or the
      exception it throws) and the balance it leaves behind. */
  datatype Step = Step(result: Result<real>, balance: real)

  /** Deposit on a card holding `balance`. */
  function DepositStep(balance: real, amount: real): (s: Step)
    ensures amount <= 0.0 <==> s.result == Err(ArgumentException)
    ensures s.result.Ok? <==> amount > 0.0
    ensures s.result.Err? ==> s.balance == balance
    ensures s.result.Ok? ==> s.balance == balance + amount && s.result.value == s.balance
    ensures s.result.Ok? ==> s.balance > balance
    ensures balance >= 0.0 ==> s.balance >= 0.0
  {
    if amount <= 0.0 then Step(Err(ArgumentException), balance)
    else Step(Ok(balance + amount), balance + amount)
  }

  /** Withdraw on a card holding `balance` whose stored PIN is `storedPin`: the
      amount is checked first, then the PIN, then the overdraft. */
  function WithdrawStep(balance: real, storedPin: Option<string>, pin: Option<string>, amount: real): (s: Step)
    ensures amount <= 0.0 ==> s.result == Err(ArgumentException)
    ensures amount > 0.0 && !CompareIgnoreCaseIsZero(storedPin, pin) ==> s.result == Err(ArgumentException)
    ensures (s.result == Err(InvalidOperationException))
              <==> (amount > 0.0 && CompareIgnoreCaseIsZero(storedPin, pin) && amount > balance)
    ensures s.result.Ok? <==> 0.0 < amount <= balance && CompareIgnoreCaseIsZero(storedPin, pin)
    ensures s.result.Err? ==> s.balance == balance
    ensures s.result.Ok? ==> s.balance == balance - amount && s.result.value == s.balance
    ensures s.result.Ok? ==> 0.0 <= s.balance < balance
    ensures balance >= 0.0 ==> s.balance >= 0.0
  {
    if amount <= 0.0 then Step(Err(ArgumentException), balance)
    else if !CompareIgnoreCaseIsZero(storedPin, pin) then Step(Err(ArgumentException), balance)
    else
      var futureBalance := balance - amount;
      if futureBalance < 0.0 then Step(Err(InvalidOperationException), balance)
      else Step(Ok(futureBalance), futureBalance)
  }

  /** A card. The account number and PIN are fixed at construction; the
      balance is the only state that changes. */
  class Card {
    const accountNumber: Option<string>
    const pin: Option<string>
    var balance: real

    constructor (accountNumber: Option<string>, startingBalance: real, pin: Option<string>)
      ensures this.accountNumber == accountNumber && this.pin == pin
      ensures balance == startingBalance
    {
      this.accountNumber := accountNumber;
      this.pin := pin;
      balance := startingBalance;
    }

    /** The private PIN check: passes exactly when the supplied PIN equals the
        stored one ignoring case (a null PIN matches only a null stored PIN). */
    function ValidatePin(pin: Option<string>): (c: Check)
      ensures c == Pass <==> CompareIgnoreCaseIsZero(this.pin, pin)
      ensures pin == this.pin ==> c == Pass
      ensures c.Fail? ==> c.error == ArgumentException
    {
      if !CompareIgnoreCaseIsZero(this.pin, pin) then Fail(ArgumentException) else Pass
    }

    method Withdraw(pin: Option<string>, withdrawAmount: real) returns (r: Result<real>)
      modifies this
      ensures Step(r, balance) == WithdrawStep(old(balance), this.pin, pin, withdrawAmount)
      ensures old(balance) >= 0.0 ==> balance >= 0.0
    {
      if withdrawAmount <= 0.0 {
        return Err(ArgumentException);
      }
      var check := ValidatePin(pin);
      if check.Fail? {
        return Err(check.error);
      }
      var futureBalance := balance - withdrawAmount;
      if futureBalance < 0.0 {
        return Err(InvalidOperationException);
      }
      balance := futureBalance;
      r := Ok(balance);
    }

    method Deposit(depositAmount: real) returns (r: Result<real>)
      modifies this
      ensures Step(r, balance) == DepositStep(old(balance), depositAmount)
      ensures old(balance) >= 0.0 ==> balance >= 0.0
    {
      if depositAmount <= 0.0 {
        return Err(ArgumentException);
      }
      balance := balance + depositAmount;
      r := Ok(balance);
    }
  }

  // ---------------------------------------------------------------------------
  // Sequences of calls on one card

  /** One call on a card. */
  datatype Operation = DepositOp(amount: real) | WithdrawOp(pin: Option<string>, amount: real)

  function Apply(balance: real, storedPin: Option<string>, op: Operation): Step {
    match op
    case DepositOp(amount) => DepositStep(balance, amount)
    case WithdrawOp(pin, amount) => WithdrawStep(balance, storedPin, pin, amount)
  }

  /** The results of a run of calls, in order, and the balance after the last. */
  datatype Trace = Trace(results: seq<Result<real>>, balance: real)

  /** Performs the calls one after the other on a card holding `balance`. */
  function Replay(balance: real, storedPin: Option<string>, ops: seq<Operation>): (t: Trace)
    ensures |t.results| == |ops|
    decreases ops
  {
    if ops == [] then Trace([], balance)
    else
      var s := Apply(balance, storedPin, ops[0]);
      var rest := Replay(s.balance, storedPin, ops[1..]);
      Trace([s.result] + rest.results, rest.balance)
  }

  /** The change a call makes to the balance when it succeeds. */
  function Signed(op: Operation): real {
    match op
    case DepositOp(amount) => amount
    case WithdrawOp(_, amount) => -amount
  }

  /** The net change of the calls that succeeded. */
  function Net(ops: seq<Operation>, results: seq<Result<real>>): real
    requires |ops| == |results|
  {
    if ops == [] then 0.0
    else (if results[0].Ok? then Signed(ops[0]) else 0.0) + Net(ops[1..], results[1..])
  }

  /** The balance never goes negative: a card opened with a non-negative
      balance keeps one through any run of calls, successful or failed. */
  lemma {:induction false} ReplayKeepsBalanceNonNegative(balance: real, storedPin: Option<string>, ops: seq<Operation>)
    requires balance >= 0.0
    ensures Replay(balance, storedPin, ops).balance >= 0.0
    decreases ops
  {
    if ops != [] {
      var s := Apply(balance, storedPin, ops[0]);
      ReplayKeepsBalanceNonNegative(s.balance, storedPin, ops[1..]);
    }
  }

  /** No lost updates: the final balance is the opening balance plus the
      successful deposits minus the successful withdrawals; failed calls
      contribute nothing. */
  lemma {:induction false} ReplayLedger(balance: real, storedPin: Option<string>, ops: seq<Operation>)
    ensures var t := Replay(balance, storedPin, ops);
            t.balance == balance + Net(ops, t.results)
    decreases ops
  {
    if ops != [] {
      var s := Apply(balance, storedPin, ops[0]);
      ReplayLedger(s.balance, storedPin, ops[1..]);
      var t := Replay(balance, storedPin, ops);
      assert t.results[1..] == Replay(s.balance, storedPin, ops[1..]).results;
    }
  }

  /** Withdrawals of the given amounts, all with the same PIN. */
  function Withdrawals(pin: Option<string>, amounts: seq<real>): (ops: seq<Operation>)
    ensures |ops| == |amounts|
    ensures forall i :: 0 <= i < |ops| ==> ops[i] == WithdrawOp(pin, amounts[i])
  {
    if amounts == [] then [] else [WithdrawOp(pin, amounts[0])] + Withdrawals(pin, amounts[1..])
  }

  function Sum(amounts: seq<real>): real {
    if amounts == [] then 0.0 else amounts[0] + Sum(amounts[1..])
  }

  lemma {:induction false} SumOfPositives(amounts: seq<real>)
    requires forall i :: 0 <= i < |amounts| ==> amounts[i] > 0.0
    ensures Sum(amounts) >= 0.0
  {
    if amounts != [] {
      SumOfPositives(amounts[1..]);
    }
  }

  /** Withdrawals with the right PIN whose total the balance covers all
      succeed, in whatever order they are made, and leave exactly the
      opening balance minus their total. */
  lemma {:induction false} CoveredWithdrawalsAllSucceed(balance: real, pin: Option<string>, amounts: seq<real>)
    requires forall i :: 0 <= i < |amounts| ==> amounts[i] > 0.0
    requires Sum(amounts) <= balance
    ensures var t := Replay(balance, pin, Withdrawals(pin, amounts));
            t.balance == balance - Sum(amounts) && forall i :: 0 <= i < |t.results| ==> t.results[i].Ok?
    decreases amounts
  {
    if amounts != [] {
      var ops := Withdrawals(pin, amounts);
      CompareIgnoreCaseIsEquivalence(pin, pin, pin);
      SumOfPositives(amounts[1..]);
      var s := Apply(balance, pin, ops[0]);
      assert s.result.Ok? && s.balance == balance - amounts[0];
      assert ops[1..] == Withdrawals(pin, amounts[1..]);
      CoveredWithdrawalsAllSucceed(s.balance, pin, amounts[1..]);
    }
  }

  // ---------------------------------------------------------------------------
  // The card tests, as scenarios on a fresh card

  /** 1000 - 23.33 leaves 976.67, with no rounding error. */
  method WithdrawScenario() returns (returned: real, balance: real)
    ensures returned == 976.67 && balance == 976.67
  {
    var card := new Card(Some("34567890"), 1000.0, Some("1234"));
    var r := card.Withdraw(Some("1234"), 23.33);
    returned, balance := r.value, card.balance;
  }

  /** Two withdrawals, 100 then 200, from 1000 leave 900 and then 700. */
  method SecondWithdrawScenario() returns (interim: real, final: real)
    ensures interim == 900.0 && final == 700.0
  {
    var card := new Card(Some("34567890"), 1000.0, Some("1234"));
    var r := card.Withdraw(Some("1234"), 100.0);
    interim := card.balance;
    r := card.Withdraw(Some("1234"), 200.0);
    final := card.balance;
  }

  /** Deposits of 100 then 11 on 1000 give 1100 and then 1111. */
  method DepositScenario() returns (interim: real, final: real)
    ensures interim == 1100.0 && final == 1111.0
  {
    var card := new Card(Some("34567890"), 1000.0, Some("1234"));
    var r := card.Deposit(100.0);
    interim := card.balance;
    r := card.Deposit(11.0);
    final := card.balance;
  }

  /** A null, empty or wrong PIN is refused and the balance stays at 1000. */
  method WrongPinScenario() returns (nullPin: Result<real>, emptyPin: Result<real>, wrongPin: Result<real>, balance: real)
    ensures nullPin == emptyPin == wrongPin == Err(ArgumentException)
    ensures balance == 1000.0
  {
    var card := new Card(Some("34567890"), 1000.0, Some("1234"));
    nullPin := card.Withdraw(None, 1000.0);
    emptyPin := card.Withdraw(Some(""), 1000.0);
    assert !EqualsIgnoreCase("1234", "7777") by {
      assert FoldCase("1234"[0]) != FoldCase("7777"[0]);
    }
    wrongPin := card.Withdraw(Some("7777"), 1000.0);
    balance := card.balance;
  }

  /** Overdraft is refused, while withdrawing exactly the balance empties the card. */
  method OverdraftScenario() returns (over: Result<real>, exact: Result<real>, balance: real)
    ensures over == Err(InvalidOperationException)
    ensures exact == Ok(0.0) && balance == 0.0
  {
    var card := new Card(Some("34567890"), 100.0, Some("1234"));
    over := card.Withdraw(Some("1234"), 100.01);
    exact := card.Withdraw(Some("1234"), 100.0);
    balance := card.balance;
  }
}
