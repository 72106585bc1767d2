# MagicCard in Dafny

A model of the MagicCard library's core: stored-value cards and the registry that
hands them out.

- A **card** (`Cards.Card`) holds an account number and a PIN, both fixed at
  construction, and a balance that `Deposit` and `Withdraw` change in place.
  `Deposit` refuses a non-positive amount. `Withdraw` checks three things in order:
  the amount must be positive, the PIN must equal the stored one ignoring case, and
  the balance must cover the amount. Every refusal leaves the balance as it was.
  Every success returns the new balance.
- The **registry** (`Repository.CardRepository`) maps account numbers to card
  instances. `CreateCard` first runs an ordered chain of argument checks. It then
  inserts a new card only if the account number is absent; a number already present
  is an error and the existing card is kept. `GetCard` is a lookup that yields null
  for an unknown number.
- The **PIN validator** (`PinValidator.ValidatePin`) accepts a PIN that is not blank
  and parses as a non-negative Int32.

Each public call is modelled as one atomic step over explicit state. The locks and
the concurrent dictionary exist to give exactly that.

Representation choices:
- `decimal` is `real`, so 1000 − 23.33 is exactly 976.67.
- A null string or card is `Errors.Option.None`.
- Each exception type is an `Errors.ErrorKind`. A call that throws returns
  `Err(kind)`; a void check returns `Check.Fail(kind)`.
- `String.IsNullOrWhiteSpace`, the case-insensitive PIN comparison and
  `int.TryParse` are written out in `TextRules`.
  - `int.TryParse` uses the default Integer style: optional white space, an optional
    `+` or `-`, at least one ASCII digit, optional white space, and a value within
    [−2^31, 2^31−1].
  - The parser's white space is U+0009–U+000D and U+0020. `IsNullOrWhiteSpace` uses
    the wider Unicode white-space set of `Char.IsWhiteSpace`.

Behaviour of the code worth noting:
- `CreateCard` checks the starting balance before the account number.
- A blank account number or PIN throws `ArgumentNullException`, not the plain
  `ArgumentException`. The tests assert the exact type.
- `CreateCard` on an account number that is already registered throws
  `ArgumentException`. The interface's own comment
  (`MagicCard.Library/Interfaces/ICardRepository.cs:5-12`, "Create or retrieve an
  ICard") describes a get-or-add; the implemented `CreateCard` never returns the
  existing card.
- `MagicCard.Library/CardRepository.cs:44` passes the constructor arguments in the
  wrong order. The model binds them as the tests expect: the balance is the
  starting balance, and the account number is the one given.

## Model

| member | source | states |
|---|---|---|
| `Cards.DepositStep` | MagicCard.Library/Card.cs:75-85 | A non-positive amount, and only that, is refused with ArgumentException, and the balance is unchanged. Every positive amount succeeds: the balance grows by the amount and the returned value is the new balance. A non-negative balance stays non-negative. |
| `Cards.WithdrawStep` | MagicCard.Library/Card.cs:49-66 | A non-positive amount gives ArgumentException whatever the PIN. Then a PIN that does not match ignoring case gives ArgumentException. InvalidOperationException comes exactly when amount and PIN are good and the amount exceeds the balance. Success comes exactly when 0 < amount ≤ balance and the PIN matches, so withdrawing the whole balance is allowed. A refusal leaves the balance unchanged. A success subtracts the amount and returns the new balance. The balance never goes negative. |
| `Cards.Card.constructor` | MagicCard.Library/Card.cs:26-31 | The account number, the PIN and the balance are the given ones. The account number and PIN are `const` and cannot change afterwards. |
| `Cards.Card.ValidatePin` | MagicCard.Library/Card.cs:68-73 | Passes exactly when the stored and supplied PINs compare equal ignoring case. Null equals only null. The stored PIN itself always passes. A failure is ArgumentException. |
| `Cards.Card.Withdraw` | MagicCard.Library/Card.cs:49-66 | The returned result and the new balance are those of `WithdrawStep` on the old balance. A non-negative balance stays non-negative. |
| `Cards.Card.Deposit` | MagicCard.Library/Card.cs:75-85 | The returned result and the new balance are those of `DepositStep` on the old balance. A non-negative balance stays non-negative. |
| `Cards.Replay` | MagicCard.Library/Card.cs:49-85 | A run of calls on one card yields one result per call. |
| `Cards.ReplayKeepsBalanceNonNegative` | MagicCard.Library/Card.cs:56-84 | Starting from a non-negative balance, the balance stays non-negative after any run of deposits and withdrawals, successful or failed. |
| `Cards.ReplayLedger` | MagicCard.Library/Card.cs:56-84 | After any run of calls, the balance is the opening balance plus the successful deposits minus the successful withdrawals. Failed calls contribute nothing, so no update is lost. |
| `Cards.CoveredWithdrawalsAllSucceed` | MagicCard.UnitTests/MultipleCardTests.cs:72-85 | Positive withdrawals with the right PIN, whose total the balance covers, all succeed in any order. They leave exactly the opening balance minus their total. |
| `Cards.WithdrawScenario` | MagicCard.UnitTests/CardMethodTests.cs:30-43 | Withdrawing 23.33 from 1000 returns and leaves 976.67. |
| `Cards.SecondWithdrawScenario` | MagicCard.UnitTests/CardMethodTests.cs:50-69 | Withdrawing 100 and then 200 from 1000 leaves 900 and then 700. |
| `Cards.DepositScenario` | MagicCard.UnitTests/CardMethodTests.cs:94-113 | Depositing 100 and then 11 on 1000 gives 1100 and then 1111. |
| `Cards.WrongPinScenario` | MagicCard.UnitTests/CardMethodTests.cs:119-159 | A null, empty or wrong PIN is refused with ArgumentException, and the balance stays 1000. |
| `Cards.OverdraftScenario` | MagicCard.Library/Card.cs:59-64 | Withdrawing more than the balance gives InvalidOperationException. Withdrawing exactly the balance succeeds and leaves 0. |
| `TextRules.IsNullOrWhiteSpace` | MagicCard.Library/PinValidator.cs:16 | `String.IsNullOrWhiteSpace`: null and the empty string are blank. A string of the parser's white space is blank. A blank string holds no digit and no letter. |
| `TextRules.CompareIgnoreCaseIsZero` | MagicCard.Library/Card.cs:71 | `InvariantCultureIgnoreCase.Compare(a, b) == 0`, as an ASCII case fold: null matches only null, equal strings match, and matching strings have equal lengths. |
| `TextRules.CompareIgnoreCaseIsEquivalence` | MagicCard.Library/Card.cs:71 | The case-insensitive PIN comparison is reflexive, symmetric and transitive. |
| `TextRules.NoLettersComparesExactly` | MagicCard.Library/Card.cs:71 | For a string without letters, comparing ignoring case is the same as exact equality. |
| `TextRules.TryParseInt32` | MagicCard.Library/PinValidator.cs:19 | A parsed value lies within the Int32 range. |
| `TextRules.ParseRendered` | MagicCard.Library/PinValidator.cs:19 | Formatting and then parsing an integer gives it back when it is an Int32, and fails when it is outside the range. |
| `TextRules.TrimLeadingWhiteDropsOnlyWhite` | MagicCard.Library/PinValidator.cs:19 | The parser drops only white space at the front, and what it keeps does not start with white space. |
| `TextRules.TrimTrailingWhiteDropsOnlyWhite` | MagicCard.Library/PinValidator.cs:19 | The parser drops only white space at the end, and what it keeps does not end with white space. |
| `TextRules.ParseSkipsPadding` | MagicCard.Library/PinValidator.cs:19 | One white-space character on each side of an unpadded string does not change what it parses to. |
| `TextRules.ParsedStringIsNumeric` | MagicCard.Library/PinValidator.cs:19-20 | A string that parses holds only digits, signs and white space, and at least one digit. |
| `PinValidator.ValidatePin` | MagicCard.Library/PinValidator.cs:14-25 | A null or blank PIN, and only that, gives ArgumentNullException; this check comes before parsing. Any other refusal is ArgumentException. A PIN is accepted exactly when it is not blank and parses as an Int32 that is ≥ 0. |
| `PinValidator.AcceptsEveryInt32Pin` | MagicCard.Library/PinValidator.cs:14-25 | The digits of every integer in [0, 2^31−1] form an accepted PIN. |
| `PinValidator.RejectsOversizedPin` | MagicCard.Library/PinValidator.cs:19-20 | A digit string whose value exceeds 2^31−1 is refused with ArgumentException. |
| `PinValidator.RejectsNegativePin` | MagicCard.Library/PinValidator.cs:19-24 | Every negative number written with a minus sign is refused with ArgumentException. |
| `PinValidator.RejectsNonNumericPin` | MagicCard.Library/PinValidator.cs:19-20 | A non-blank PIN containing any character other than a digit, a sign or parser white space is refused with ArgumentException. |
| `PinValidator.AcceptedPinHasNoLetters` | MagicCard.Library/PinValidator.cs:14-25 | An accepted PIN contains no letters. |
| `PinValidator.AcceptsTestPin` | MagicCard.UnitTests/CardRepositoryTests.cs:33 | "1234" is accepted. |
| `PinValidator.AcceptsSignedZero` | MagicCard.Library/PinValidator.cs:19-24 | "-0" and "+0" parse to 0, which is not negative, so both are accepted. |
| `PinValidator.AcceptsPaddedPin` | MagicCard.Library/PinValidator.cs:19 | The digits of any integer in [0, 2^31−1], with a parser white-space character on each side (" 12 ", "\t7\n"), form an accepted PIN. |
| `PinValidator.RefusesMissingPins` | MagicCard.Library/PinValidator.cs:16-17 | A null, empty or all-space PIN gives ArgumentNullException. |
| `PinValidator.RefusesLetterPin` | MagicCard.UnitTests/CardRepositoryTests.cs:111-117 | "ABCD" gives ArgumentException. |
| `PinValidator.RefusesNegativeTestPin` | MagicCard.UnitTests/CardRepositoryTests.cs:123-129 | "-234" gives ArgumentException. |
| `Repository.ValidateCreateArguments` | MagicCard.Library/CardRepository.cs:21-35 | A negative starting balance gives ArgumentException before anything else is looked at. Next, a blank account number gives ArgumentNullException, and then a blank PIN gives ArgumentNullException. Any later refusal is ArgumentException. The arguments pass exactly when the balance is non-negative, the account number is not blank, and the PIN is not blank and parses as an Int32 that is ≥ 0. |
| `Repository.CreateCardPinChecksMatchValidator` | MagicCard.Library/CardRepository.cs:27-35 | Once the balance and account number are acceptable, CreateCard's PIN checks give exactly the outcome of `PinValidator.ValidatePin`. |
| `Repository.TestArgumentsAreValid` | MagicCard.UnitTests/CardRepositoryTests.cs:64-67 | The tests' arguments ("34567890" or "34567891", a non-negative balance, "1234") pass every check. |
| `Repository.FiledCardsAreDistinct` | MagicCard.Library/CardRepository.cs:44-45 | In a registry where each card is filed under its own account number, two different numbers hold two different instances. |
| `Repository.CardRepository.constructor` | MagicCard.Library/CardRepository.cs:15 | A new registry is empty and satisfies the registry invariant. |
| `Repository.CardRepository.CreateCard` | MagicCard.Library/CardRepository.cs:17-49 | A failed argument check gives its own error kind. An account number already present gives ArgumentException. Every failure leaves the map unchanged, so an existing card is never overwritten. Success comes exactly when the checks pass and the number is absent. It adds exactly that key, mapped to the returned fresh card, and leaves every other entry alone. The card carries the starting balance, the account number and the PIN. The invariant is kept: each card is filed under its own number and holds a valid PIN. |
| `Repository.CardRepository.GetCard` | MagicCard.Library/CardRepository.cs:51-58 | A null or blank account number, and only that, gives ArgumentNullException. Every other number gets a result: the registered instance, or null exactly when the number is absent. The instance carries the requested account number. The map is only read. |
| `Repository.RegisteredPinMatchesExactly` | MagicCard.Library/CardRepository.cs:27-35 | A card whose PIN passed validation has a PIN without letters. So, under the ASCII case fold of this model, `Withdraw`'s case-insensitive check accepts exactly that PIN. |
| `Repository.CreateThenGet` | MagicCard.UnitTests/CardRepositoryTests.cs:46-55 | For any arguments, when CreateCard succeeds, GetCard on the same number returns the very same instance. |
| `Repository.CreateScenario` | MagicCard.UnitTests/CardRepositoryTests.cs:30-40 | A card created with 100 and "34567890" has balance 100 and that account number. |
| `Repository.SameInstanceScenario` | MagicCard.UnitTests/CardRepositoryTests.cs:46-55 | GetCard returns the instance that CreateCard returned. |
| `Repository.UnknownAccountScenario` | MagicCard.UnitTests/CardRepositoryTests.cs:135-139 | An unregistered account number gives null. |
| `Repository.CreateTwo` | MagicCard.UnitTests/CardRepositoryTests.cs:61-79 | Two successful creations under different account numbers give different instances, each with its own starting balance. |
| `Repository.IndependentBalances` | MagicCard.UnitTests/CardRepositoryTests.cs:64-78 | A withdrawal on one card leaves another card's balance unchanged. |
| `Repository.DuplicateScenario` | MagicCard.Library/CardRepository.cs:39-40 | A second CreateCard for a registered number gives ArgumentException. The first card stays registered, with its balance. |
| `Repository.BadArgumentsScenario` | MagicCard.UnitTests/CardRepositoryTests.cs:84-129 | A negative balance, a null PIN, "ABCD" and "-234" are refused with ArgumentException, ArgumentNullException, ArgumentException and ArgumentException. Nothing is registered. |

## Left out

- Locking and thread interleaving: the per-card lock, the concurrent dictionary and
  the multithreaded withdrawal test. Each call is one atomic step. `ContainsKey`
  followed by `TryAdd` becomes one membership test, with the same error on the
  duplicate path.
- `Card.Balance` and `Card.AccountNumber`: these getters are reads of the `balance`
  field and the `accountNumber` constant. The lock around the balance read is left
  out with the rest of the locking.
- `GetOrAddCard`, declared on the repository interface: it has no implementation.
  The card tests that call it are modelled on cards built directly.
- `decimal` limits (28–29 significant digits, scale, overflow): amounts are exact
  reals and never overflow.
- Culture rules:
  - `int.TryParse` is modelled with the invariant culture's `+` and `-` signs.
    Its tolerance of trailing NUL characters is not modelled.
  - `InvariantCultureIgnoreCase` is modelled as ASCII case folding. Linguistic
    comparison is not: neither the case rules of other scripts nor the ignorable
    code points (such as U+00AD, the soft hyphen) that a linguistic comparison
    treats as absent. So the program's `Withdraw` also accepts "12\u00AD34" for a
    stored "1234", which the model refuses.
- RegisteredPinMatchesExactly: holds of the ASCII case fold only; under the
  linguistic comparison a PIN with ignorable code points inserted also matches.
- The dependency-injection module: it only wires the repository type and has no
  logic.
- Test-harness output, random amounts and xUnit plumbing.
