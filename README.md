# Account ledger — a Dafny model

A model of the account management system in `src/accounting/index.js`, a
Node.js port of a COBOL program that keeps one account balance in memory and
offers a four-item menu: view the balance, credit it, debit it, exit. Three
layers are modelled, each in the form the source gives it:

- `Store` — `DataProgram`, the data layer: a class with one mutable field,
  the stored balance, starting at 1000.00. `execute('READ')` returns it and
  `execute('WRITE', b)` replaces it with no check at all.
- `Accounts` — `Operations`, the business layer: `viewBalance`,
  `creditAccount` (refused if the sum would exceed 999999.99) and
  `debitAccount` (refused if the balance is below the amount; a debit of the
  whole balance is allowed). An amount that is not a number or is negative is
  refused before the store is touched. Each operation is a method on a class
  holding the store, proved against a pure specification function (`Credit`,
  `Debit`, `Perform`) whose contracts give the guards, the new balance and
  the invariant 0.00 <= balance <= 999999.99.
- `MainMenu` — `MainProgram`: `processChoice` maps choices 1, 2 and 3 to the
  tags `'TOTAL '`, `'CREDIT'` and `'DEBIT '`, sets `continueFlag` to `'NO'`
  on 4 and reports any other choice as invalid; `run` loops while the flag is
  `'YES'`.
- `Money` — the pure helpers: the business constants, the amount validation
  and rounding of `promptForAmount`, and `formatBalance` (`toFixed(2)`).

All money is held in integer cents (1000.00 is 100000, the maximum 999999.99
is 99999999). Every operation returns an `Outcome` (`Viewed`, `Credited`,
`Debited`, `RejectedOverflow`, `RejectedInsufficientFunds`,
`RejectedInvalidInput`) and `Message` gives the line the source logs for it.

Three details are kept exactly as the code has them: the operation tags keep
their trailing-space padding (`'TOTAL '`, `'DEBIT '`); an amount of 0.00 is
accepted although the error text asks for "a positive number"; and the sum of
a credit is not rounded again before it is stored (in whole cents there is
nothing to round).

## Model

| member | source | states |
|---|---|---|
| `Money.ValidateAmount` | src/accounting/index.js:155-165 | an amount is refused exactly when it is NaN or negative; an accepted amount becomes the nearest whole number of cents, a half cent going up (the rule of `Math.round(amount * 100)`) |
| `Money.ExactCentsKept` | src/accounting/index.js:164-165 | an amount typed with at most two decimals is kept exactly |
| `Money.HalfCentRoundsUp` | src/accounting/index.js:164-165 | an amount lying exactly on a half cent (0.125) rounds up to the next cent |
| `Money.Decimal` | src/accounting/index.js:175-177 | the whole part of a rendered balance is a non-empty string of digits with no leading zero |
| `Money.FormatCents` | src/accounting/index.js:175-177 | `toFixed(2)` of a non-negative amount is digits, a point and exactly two digits |
| `Money.DecimalRoundTrip` | src/accounting/index.js:175-177 | reading back the digits of a rendered whole part gives the number rendered |
| `Money.FormatCentsRoundTrip` | src/accounting/index.js:175-177 | the two-decimal rendering of a non-negative amount reads back as exactly that amount and has no minus sign |
| `Money.FormatBalance` | src/accounting/index.js:175-177 | `formatBalance` renders a balance with a point and exactly two decimals, with a leading minus sign exactly when the balance is negative |
| `Money.FormatBalanceRoundTrip` | src/accounting/index.js:175-177 | every balance, negative ones included, can be read back from its two-decimal rendering |
| `Money.FormatBalanceInjective` | src/accounting/index.js:175-177 | two different balances never render as the same text |
| `Money.FormatExamples` | src/accounting/__tests__/accounting.test.js:105-122 | 1050.00, 0.00 and 999999.99 render as the test fixtures expect |
| `Store.DataProgram.constructor` | src/accounting/index.js:15-18 | a fresh store holds exactly 1000.00 |
| `Store.DataProgram.ExecuteRead` | src/accounting/index.js:27-29 | a read returns the stored balance and changes nothing |
| `Store.DataProgram.ExecuteWrite` | src/accounting/index.js:30-33 | a write stores exactly the value given, with no range check, and returns it |
| `Store.DataProgram.Execute` | src/accounting/index.js:26-35 | 'READ' returns the balance unchanged, 'WRITE' replaces it and returns the value, any other operation does nothing and returns nothing |
| `Store.DataProgram.GetBalance` | src/accounting/index.js:41-43 | returns the stored balance and changes nothing |
| `Accounts.Credit` | src/accounting/index.js:89-114 | invalid input is refused; a credit succeeds exactly when the sum stays within 999999.99, and then the balance grows by exactly the amount; every refusal leaves the balance as it was; a balance within 0.00..999999.99 stays within it |
| `Accounts.Debit` | src/accounting/index.js:120-145 | invalid input is refused; a debit succeeds exactly when the balance is at least the amount (equality included), and then the balance drops by exactly the amount and is never negative; a refusal leaves the balance as it was; the range invariant is kept |
| `Accounts.Perform` | src/accounting/index.js:62-73 | `process` acts exactly on 'TOTAL ', 'CREDIT' and 'DEBIT '; a view reports the balance and keeps it; 'CREDIT' runs exactly `Credit` and 'DEBIT ' exactly `Debit` on the validated amount; only a successful credit or debit changes the balance; the range invariant is kept |
| `Accounts.Message` | src/accounting/index.js:82-159 | the line logged for an outcome (the balance line, the credit and debit confirmations, the overflow, insufficient-funds and invalid-amount errors) tells by its first characters which of the six outcomes it reports |
| `Accounts.MessageInjective` | src/accounting/index.js:82-159 | distinct outcomes log distinct lines, so the line tells which outcome occurred and the exact balance it reports |
| `Accounts.CreditThenDebitRestores` | src/accounting/index.js:101-134 | on a non-negative balance, a successful credit followed by a debit of the same amount restores the balance |
| `Accounts.DebitWholeBalance` | src/accounting/index.js:132-134 | debiting the whole balance is allowed and leaves exactly 0.00 |
| `Accounts.CreditZero` | src/accounting/__tests__/accounting.test.js:109 | a credit of 0.00 succeeds on any balance within range |
| `Accounts.Boundaries` | src/accounting/index.js:104-132 | 1000.00 + 998999.99 reaches 999999.99; 1000.00 + 999000.00 is refused; 0.01 cannot be debited from 0.00; 1000.00 can be debited from 1000.00 |
| `Accounts.ScenarioMessages` | src/accounting/__tests__/accounting.test.js:105-192 | the messages of the test scenarios: "Amount credited. New balance: 1050.00", "Insufficient funds for this debit." with 500.00 kept, "Amount debited. New balance: 0.00" |
| `Accounts.Operations.constructor` | src/accounting/index.js:52-55 | the operations layer works on the store it is given |
| `Accounts.Operations.ViewBalance` | src/accounting/index.js:79-83 | reports the stored balance; it may modify nothing, so any number of views leave the balance as it was |
| `Accounts.Operations.CreditAccount` | src/accounting/index.js:89-114 | the outcome and the new stored balance are those of `Credit` on the old balance and the validated amount |
| `Accounts.Operations.DebitAccount` | src/accounting/index.js:120-145 | the outcome and the new stored balance are those of `Debit` on the old balance and the validated amount |
| `Accounts.Operations.Process` | src/accounting/index.js:62-73 | the outcome and new balance are those of `Perform`; an unknown tag changes nothing |
| `MainMenu.ChoiceTag` | src/accounting/index.js:222-233 | only choices 1, 2 and 3 have an operation tag, and it is one of the three `process` understands |
| `MainMenu.ChoiceTagInjective` | src/accounting/index.js:222-233 | different choices never lead to the same operation |
| `MainMenu.Choose` | src/accounting/index.js:219-244 | choice 4 exactly is the exit, setting the flag to 'NO' with the balance kept; any choice other than 1 to 4 is invalid and changes nothing; 1 to 3 dispatch their tag and keep the flag; the range invariant is kept |
| `MainMenu.ChoicesDispatch` | src/accounting/index.js:222-233 | choices 1, 2 and 3 run exactly the view, the credit and the debit with the tags 'TOTAL ', 'CREDIT' and 'DEBIT ' |
| `MainMenu.Lines` | src/accounting/index.js:219-244 | a dispatched operation logs one line, the one for its outcome; an invalid choice logs exactly "Invalid choice, please select 1-4."; choosing 4 logs nothing |
| `MainMenu.RunFrom` | src/accounting/index.js:249-263 | the loop reads no more input than it is given, stops early only after a choice of 4, and keeps the range invariant |
| `MainMenu.ExitEndsRun` | src/accounting/index.js:235-263 | once 4 is chosen the loop ends: the flag is 'NO', nothing after that choice is read, and the goodbye line is the last one logged |
| `MainMenu.ViewsChangeNothing` | src/accounting/__tests__/accounting.test.js:86-100 | any number of views leave session and balance unchanged and each logs the same "Current balance" line |
| `MainMenu.MixedSession` | src/accounting/index.js:249-263 | from a fresh store, credit 100.00, debit 200.00, credit 300.00 and exit end at 1200.00 with the goodbye line |
| `MainMenu.MainProgram.constructor` | src/accounting/index.js:186-199 | a new program has its own fresh store at 1000.00, an operations layer on that store, and the flag 'YES' |
| `MainMenu.MainProgram.ProcessChoice` | src/accounting/index.js:219-244 | the effect, the new flag and the new balance are those of `Choose` on the old flag and balance |
| `MainMenu.MainProgram.Run` | src/accounting/index.js:249-267 | the lines logged, the input consumed, the final flag and the final balance are those of `RunFrom` on the starting session |

## Left out

- Console output, readline and the Promise/callback plumbing: operations return an `Outcome` and `Message` gives the line the source would log; the text the amount prompt reads is a parameter (`input`), and `run` takes its input as a finite script of requests, running out of which stands for waiting on input.
- `parseFloat` on arbitrary text: the model starts from its result, NaN or a number. A result of +Infinity is not modelled; the source accepts it as an amount and then refuses it through the overflow or insufficient-funds guard, leaving the balance unchanged.
- `parseInt` on arbitrary text: the menu choice is given as its result, an integer or NaN.
- Money.ValidateAmount: rounding is stated on the exact decimal value typed; the source computes `amount * 100` in IEEE-754 doubles, so a typed half cent can round either way ("1.005" gives 1.00, "1.015" gives 1.01, "2.675" gives 2.68), and the model does not capture which.
- Money.HalfCentRoundsUp: holds for the exact decimal value; in the source only half cents a double holds exactly (such as 0.125) are sure to round up, for the reason given above.
- IEEE-754 arithmetic: amounts and balances are exact integer cents, so the model does not capture sums such as 0.1 + 0.2 leaving sub-cent residue in the stored balance, nor comparisons with 999999.99 made in floating point.
- `toFixed` for magnitudes of 1e21 and above, where it switches to exponent notation.
- `execute('WRITE')` called without a balance, which stores `null`: the model's write always carries a number.
- `displayMenu`, which only logs fixed text; `MainProgram.start`, with its error handler and `process.exit`; closing the readline interface.
