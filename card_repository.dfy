/** CardRepository: the registry from account numbers to cards. Each call is
    one atomic step; the concurrent dictionary's membership test and
    insert-if-absent collapse into one test and one update. */
module Repository {
  import opened Errors
  import opened TextRules
  import PinValidator
  import opened Cards

  /** The argument checks CreateCard makes, in order, before it looks at the
      registry: starting balance, account number, then the PIN (blank, not an
      Int32, negative). */
  function ValidateCreateArguments(accountNumber: Option<string>, startingBalance: real, pin: Option<string>): (c: Check)
    ensures startingBalance < 0.0 ==> c == Fail(ArgumentException)
    ensures startingBalance >= 0.0 && IsNullOrWhiteSpace(accountNumber) ==> c == Fail(ArgumentNullException)
    ensures startingBalance >= 0.0 && !IsNullOrWhiteSpace(accountNumber) && IsNullOrWhiteSpace(pin)
            ==> c == Fail(ArgumentNullException)
    ensures c.Fail? && startingBalance >= 0.0 && !IsNullOrWhiteSpace(accountNumber) && !IsNullOrWhiteSpace(pin)
            ==> c.error == ArgumentException
    ensures c == Pass <==> startingBalance >= 0.0 && !IsNullOrWhiteSpace(accountNumber) && !IsNullOrWhiteSpace(pin)
                           && TryParseInt32(pin.value).Some? && TryParseInt32(pin.value).value >= 0
  {
    if startingBalance < 0.0 then Fail(ArgumentException)
    else if IsNullOrWhiteSpace(accountNumber) then Fail(ArgumentNullException)
    else if IsNullOrWhiteSpace(pin) then Fail(ArgumentNullException)
    else match TryParseInt32(pin.value)
      case None => Fail(ArgumentException)
      case Some(result) => if result < 0 then Fail(ArgumentException) else Pass
  }

  /** Once the balance and account number are acceptable, CreateCard's PIN
      checks decide exactly as PinValidator.ValidatePin does. */
  lemma CreateCardPinChecksMatchValidator(accountNumber: Option<string>, startingBalance: real, pin: Option<string>)
    ensures ValidateCreateArguments(accountNumber, startingBalance, pin)
            == if startingBalance < 0.0 then Fail(ArgumentException)
               else if IsNullOrWhiteSpace(accountNumber) then Fail(ArgumentNullException)
               else PinValidator.ValidatePin(pin)
  {
  }

  /** The arguments the tests use pass CreateCard's checks. */
  lemma TestArgumentsAreValid(startingBalance: real)
    requires startingBalance >= 0.0
    ensures ValidateCreateArguments(Some("34567890"), startingBalance, Some("1234")) == Pass
    ensures ValidateCreateArguments(Some("34567891"), startingBalance, Some("1234")) == Pass
  {
    assert !IsWhiteSpace("34567890"[0]);
    assert !IsWhiteSpace("34567891"[0]);
    PinValidator.AcceptsTestPin();
    CreateCardPinChecksMatchValidator(Some("34567890"), startingBalance, Some("1234"));
    CreateCardPinChecksMatchValidator(Some("34567891"), startingBalance, Some("1234"));
  }

  /** Every card in the map is filed under its own account number. */
  predicate FiledUnderOwnNumber(cards: map<string, Card>) {
    forall k :: k in cards ==> cards[k].accountNumber == Some(k)
  }

  /** Cards filed under different account numbers are different instances. */
  lemma FiledCardsAreDistinct(cards: map<string, Card>, a: string, b: string)
    requires FiledUnderOwnNumber(cards)
    requires a in cards && b in cards && a != b
    ensures cards[a] != cards[b]
  {
    assert cards[a].accountNumber == Some(a);
    assert cards[b].accountNumber == Some(b);
  }

  /** The registry. */
  class CardRepository {
    var cards: map<string, Card>

    /** Every registered card is filed under its own account number and holds
        a PIN that passes PinValidator. */
    ghost predicate Valid()
      reads this
    {
      FiledUnderOwnNumber(cards)
      && forall k :: k in cards ==> PinValidator.ValidatePin(cards[k].pin) == Pass
    }

    constructor ()
      ensures Valid() && cards == map[]
    {
      cards := map[];
    }

    method CreateCard(accountNumber: Option<string>, startingBalance: real, pin: Option<string>) returns (r: Result<Card>)
      requires Valid()
      modifies this
      ensures Valid()
      ensures var c := ValidateCreateArguments(accountNumber, startingBalance, pin);
              c.Fail? ==> r == Err(c.error)
      ensures ValidateCreateArguments(accountNumber, startingBalance, pin) == Pass && accountNumber.value in old(cards)
              ==> r == Err(ArgumentException)
      ensures r.Err? ==> cards == old(cards)
      ensures r.Ok? <==> ValidateCreateArguments(accountNumber, startingBalance, pin) == Pass
                         && accountNumber.value !in old(cards)
      ensures r.Ok? ==> fresh(r.value) && cards == old(cards)[accountNumber.value := r.value]
      ensures r.Ok? ==> r.value.accountNumber == accountNumber && r.value.pin == pin
                        && r.value.balance == startingBalance
    {
      var check := ValidateCreateArguments(accountNumber, startingBalance, pin);
      if check.Fail? {
        return Err(check.error);
      }
      var key := accountNumber.value;
      if key in cards {
        return Err(ArgumentException);
      }
      CreateCardPinChecksMatchValidator(accountNumber, startingBalance, pin);
      var card := new Card(accountNumber, startingBalance, pin);
      cards := cards[key := card];
      r := Ok(card);
    }

    /** A blank account number is refused; otherwise the registered card, or
        null when there is none. The registry is only read. */
    function GetCard(accountNumber: Option<string>): (r: Result<Option<Card>>)
      reads this
      ensures IsNullOrWhiteSpace(accountNumber) <==> r == Err(ArgumentNullException)
      ensures !IsNullOrWhiteSpace(accountNumber) ==> r.Ok?
      ensures r.Ok? ==> (r.value.Some? <==> accountNumber.value in cards)
      ensures r.Ok? && r.value.Some? ==> r.value.value == cards[accountNumber.value]
      ensures Valid() && r.Ok? && r.value.Some? ==> r.value.value.accountNumber == accountNumber
    {
      if IsNullOrWhiteSpace(accountNumber) then Err(ArgumentNullException)
      else if accountNumber.value in cards then Ok(Some(cards[accountNumber.value]))
      else Ok(None)
    }
  }

  /** A registered card's PIN has no letters, so, under the ASCII case fold
      this model uses, the case-insensitive check in Withdraw accepts exactly
      that PIN and no other string. */
  lemma RegisteredPinMatchesExactly(card: Card, pin: Option<string>)
    requires PinValidator.ValidatePin(card.pin) == Pass
    ensures card.ValidatePin(pin) == Pass <==> pin == card.pin
  {
    PinValidator.AcceptedPinHasNoLetters(card.pin);
    if pin.Some? {
      NoLettersComparesExactly(card.pin.value, pin.value);
    }
  }

  /** Creating a card and then looking its account number up yields the very
      same instance. */
  method CreateThenGet(repository: CardRepository, accountNumber: Option<string>, startingBalance: real, pin: Option<string>)
    returns (created: Result<Card>, fetched: Result<Option<Card>>)
    requires repository.Valid()
    modifies repository
    ensures repository.Valid()
    ensures created.Ok? ==> fetched == Ok(Some(created.value))
  {
    created := repository.CreateCard(accountNumber, startingBalance, pin);
    fetched := repository.GetCard(accountNumber);
  }

  // ---------------------------------------------------------------------------
  // The repository tests, as scenarios on a fresh registry

  /** A created card carries the starting balance and the account number. */
  method CreateScenario() returns (balance: real, number: Option<string>)
    ensures balance == 100.0 && number == Some("34567890")
  {
    var repository := new CardRepository();
    TestArgumentsAreValid(100.0);
    var created := repository.CreateCard(Some("34567890"), 100.0, Some("1234"));
    balance, number := created.value.balance, created.value.accountNumber;
  }

  /** GetCard returns the very instance CreateCard returned. */
  method SameInstanceScenario() returns (same: bool)
    ensures same
  {
    var repository := new CardRepository();
    TestArgumentsAreValid(100.0);
    var created := repository.CreateCard(Some("34567890"), 100.0, Some("1234"));
    var fetched := repository.GetCard(Some("34567890"));
    same := fetched == Ok(Some(created.value));
  }

  /** An account number nobody registered gives null. */
  method UnknownAccountScenario() returns (unknown: Result<Option<Card>>)
    ensures unknown == Ok(None)
  {
    var repository := new CardRepository();
    assert !IsWhiteSpace("3456789220"[0]);
    unknown := repository.GetCard(Some("3456789220"));
  }

  /** Cards created under two different account numbers are two instances,
      each with its own starting balance. */
  method CreateTwo(repository: CardRepository, first: Option<string>, second: Option<string>,
                   firstBalance: real, secondBalance: real, pin: Option<string>)
    returns (r1: Result<Card>, r2: Result<Card>)
    requires repository.Valid()
    requires first != second
    modifies repository
    ensures repository.Valid()
    ensures r1.Ok? && r2.Ok? ==> r1.value != r2.value
    ensures r1.Ok? && r2.Ok? ==> r1.value.balance == firstBalance && r2.value.balance == secondBalance
  {
    r1 := repository.CreateCard(first, firstBalance, pin);
    r2 := repository.CreateCard(second, secondBalance, pin);
  }

  /** A withdrawal on one card leaves another card's balance alone. */
  method IndependentBalances(first: Card, second: Card, amount: real)
    returns (firstBalance: real, secondBalance: real)
    requires first != second
    modifies first
    ensures secondBalance == old(second.balance)
    ensures firstBalance == WithdrawStep(old(first.balance), first.pin, first.pin, amount).balance
  {
    var w := first.Withdraw(first.pin, amount);
    firstBalance, secondBalance := first.balance, second.balance;
  }

  /** A second CreateCard for the same account is refused and the first card stays. */
  method DuplicateScenario() returns (second: Result<Card>, kept: bool)
    ensures second == Err(ArgumentException)
    ensures kept
  {
    var repository := new CardRepository();
    TestArgumentsAreValid(100.0);
    var first := repository.CreateCard(Some("34567890"), 100.0, Some("1234"));
    second := repository.CreateCard(Some("34567890"), 500.0, Some("1234"));
    kept := repository.GetCard(Some("34567890")) == Ok(Some(first.value)) && first.value.balance == 100.0;
  }

  /** Each bad argument is refused with its own kind and registers nothing. */
  method BadArgumentsScenario() returns (negativeBalance: Result<Card>, missingPin: Result<Card>,
                                         letterPin: Result<Card>, negativePin: Result<Card>, empty: bool)
    ensures negativeBalance == Err(ArgumentException)
    ensures missingPin == Err(ArgumentNullException)
    ensures letterPin == Err(ArgumentException)
    ensures negativePin == Err(ArgumentException)
    ensures empty
  {
    var repository := new CardRepository();
    negativeBalance := repository.CreateCard(Some("34567890"), -100.0, Some("1234"));
    missingPin := repository.CreateCard(Some("34567890"), 100.0, None);
    assert !IsNullOrWhiteSpace(Some("34567890")) by {
      assert !IsWhiteSpace("34567890"[0]);
    }
    PinValidator.RefusesLetterPin();
    CreateCardPinChecksMatchValidator(Some("34567890"), 100.0, Some("ABCD"));
    letterPin := repository.CreateCard(Some("34567890"), 100.0, Some("ABCD"));
    PinValidator.RefusesNegativeTestPin();
    CreateCardPinChecksMatchValidator(Some("34567890"), 100.0, Some("-234"));
    negativePin := repository.CreateCard(Some("34567890"), 100.0, Some("-234"));
    empty := repository.cards == map[];
  }
}
