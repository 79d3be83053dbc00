# Account manager, modelled in Dafny

The system is a console account manager with three layers:

- **The balance store** (`DataProgram`). It holds one decimal balance. A fresh
  store holds 1000.00, and `reset` puts 1000.00 back. It answers `READ` and
  `WRITE <value>`, with the operation name matched in any letter case. It
  refuses a `WRITE` without a value, a `WRITE` of a negative value, and any
  other name.
- **The operation dispatcher** (`Operations`). It maps `TOTAL`, `CREDIT` and
  `DEBIT`, in any letter case, to viewing, crediting and debiting the balance.
  Credit and debit read an amount from the console. An amount must parse and
  be positive. A debit must also be covered by the balance. Every failed guard
  prints a message and leaves the balance alone. An unknown name prints
  "Invalid operation: <name>" and raises nothing.
- **The menu loop** (`MainProgram`). While its continue flag is set, it reads
  a choice. Choices 1 to 3 dispatch `TOTAL`, `CREDIT` and `DEBIT`; 4 clears the
  flag. Anything else prints a message and asks again. A keyboard interrupt at
  any prompt ends the run with a farewell of its own.

The model has no global state. The balance is a value threaded through pure
functions. The console input is one sequence of `Line`s:

- each line is abstracted to what `int` and `Decimal` make of its stripped
  text, or is a keyboard interrupt;
- running out of lines stands for end of input.

Printed output is a sequence of `Msg` values that carry the amounts. A run is
a fold over the input. It also records a journal: the credits and debits it
committed, in order. That journal is what the balance is proved to equal the
replay of.

Modules:

- `Common` (common.dfy): the option type, input lines, messages, and the
  ASCII upper-casing the name matching uses. Upper-casing is checked against
  an independent letter-by-letter reading of "equal ignoring case".
- `Data` (data.dfy): the balance store.
- `Operations` (operations.dfy): the dispatcher.
- `Menu` (main.dfy): the menu loop, both as a recursive function and as the
  `while` loop the program runs.
- `Scenarios` (scenarios.dfy): the repository's own test flows, stated on
  concrete input and derived from the general lemmas.

Headline results:

- From a valid store, no run ever makes the store raise.
- The balance never goes negative.
- The balance always equals the starting balance with the run's credits and
  debits replayed in order, each of which passed the dispatcher's guards.
- From a valid store, the credits and debits a run commits are exactly the
  ones its input asks for (choice 2 or 3 followed by an amount line that
  parses), less those the guards reject at the balance reached so far. The
  input's requests are read off by a scan that uses no store.
- A run that ends by choice 4 or by an interrupt reads nothing past that point.

Two behaviours of the code need a word:

- **End of input at the choice prompt.** The code treats end of input like
  unparsable input: it prints "Invalid input" and asks again. It therefore
  loops forever once the input has ended. One pass of the model's loop
  (`Menu.Step`) does the same as the code. The run as a whole (`Menu.Run`)
  stops there with status `Stalled` instead of looping.
- **The store's negative-write error.** A write of a negative value raises
  `ValueError("Balance cannot be negative")` (data.py:24-25). Neither the
  dispatcher nor the menu loop catches it, so it would end the process. The
  model has a `Crashed` outcome for it, and proves that outcome unreachable
  from a valid store.

## Model

| member | source | states |
|---|---|---|
| Common.UpperMatchesIgnoringCase | data.py:9-11 | For every key without lower-case letters, upper-casing a name gives the key exactly when the name spells the key letter by letter in either case, in both directions |
| Data.Initial | data.py:5 | A fresh store holds 1000.00 and is valid |
| Data.Reset | data.py:29-31 | After reset the store is the initial store (1000.00), whatever it held, and it is valid |
| Data.Read | data.py:18-20 | A read returns the stored balance and leaves the store as it was |
| Data.Write | data.py:22-27 | A write succeeds exactly when the value is not negative; then the store holds and returns the value, and otherwise it raises the negative-balance error with the store unchanged |
| Data.Execute | data.py:7-16 | Execute keeps the store valid; an error changes nothing; any name but WRITE changes nothing; READ returns the balance; a WRITE with a value succeeds exactly when the value is not negative |
| Data.ReadIsPure | data.py:9-10 | READ in any letter case, whatever value is passed, returns the balance and changes nothing |
| Data.WriteThenRead | data.py:22-27 | Writing any b >= 0, zero included, returns b, and a following read returns b |
| Data.NegativeWriteRejected | data.py:24-25 | A write of a negative value, in any letter case, raises the negative-balance error and keeps the old balance |
| Data.MissingValueRejected | data.py:11-13 | WRITE without a value, in any letter case, raises the balance-required error and changes nothing |
| Data.UnknownOperationRejected | data.py:9-16 | The store raises "Invalid operation" quoting the name as given, and changes nothing, exactly when the name is neither READ nor WRITE in any letter case |
| Data.ExecuteIgnoresCase | data.py:9-11 | Two spellings with the same upper case leave the same store, and give the same answer for READ and WRITE |
| Data.ResetReadsDefault | data.py:29-31 | After reset from any state, a read returns 1000.00 |
| Operations.GetAmount | operations.py:52-61 | The amount prompt consumes one line. It yields the decimal when the line parses, an interrupt for a keyboard interrupt, and a malformed amount for an unparsable line or end of input |
| Operations.ViewBalance | operations.py:18-21 | Viewing reports exactly the current balance, changes nothing, commits nothing and never raises |
| Operations.CreditAccount | operations.py:23-34 | A credit changes the store only by a positive amount it adds, and the only change it commits is a credit of the amount read. It reports the new balance with any change, and can make the store raise only from a negative balance |
| Operations.DebitAccount | operations.py:36-50 | A debit changes the store only by a positive amount the balance covers, and the only change it commits is a debit of the amount read. It reports the new balance with any change, and never makes the store raise |
| Operations.CreditWithAmount | operations.py:28-34 | A positive credit whose sum is not negative is committed: the balance becomes old plus amount and the message reports it |
| Operations.DebitWithAmount | operations.py:41-50 | A positive debit is committed, leaving old minus amount, exactly when the balance covers it; otherwise insufficient funds is reported and nothing changes |
| Operations.Execute | operations.py:6-16 | A dispatcher call reads at most one line. It changes the store only by an admissible credit or debit, with a message naming the new balance; a committed change is a credit for CREDIT or a debit for DEBIT, in any letter case, of the amount on the line it read. It reports only dispatcher messages, and from a valid store it neither raises nor leaves the store invalid |
| Operations.ReplayAppend | operations.py:31-50 | Committing two runs of changes one after the other equals committing their concatenation, and both are admissible exactly when the concatenation is |
| Operations.AdmissibleKeepsNonNegative | operations.py:41-49 | Changes the guards admit, applied to a non-negative balance, never leave it negative |
| Operations.PrefixKeepsNonNegative | operations.py:41-49 | The same after every prefix of such changes |
| Operations.Admitted | operations.py:28-47 | Trying changes in order and keeping those the guards let through keeps no more than were tried, and everything kept is admissible at the balance it meets |
| Operations.AdmittedSingle | operations.py:28-47 | A single change is kept exactly when the guards admit it |
| Operations.ReplayOne | operations.py:31-50 | Committing one change applies its amount to the balance, and it is admissible exactly when the guards admit it |
| Operations.Keywords | operations.py:8-14 | TOTAL, CREDIT and DEBIT are each recognised exactly when the name spells them in any letter case |
| Operations.TotalReportsBalance | operations.py:19-21 | TOTAL reports the current balance, reads no input and changes nothing |
| Operations.NonPositiveAmountRejected | operations.py:28-43 | A credit or debit of zero or less reports the invalid-amount message and changes nothing |
| Operations.CreditAddsAmount | operations.py:31-34 | A positive credit sets the balance to old plus amount and reports that balance |
| Operations.DebitInsufficientFunds | operations.py:44-47 | A debit above the balance reports insufficient funds and changes nothing |
| Operations.DebitSubtractsAmount | operations.py:44-50 | A positive debit the balance covers sets the balance to old minus amount, which is never negative; debiting the whole balance leaves exactly zero |
| Operations.MalformedAmountRejected | operations.py:53-59 | An unparsable amount, or end of input at the amount prompt, reports the invalid-format message and changes nothing, for credit and debit alike |
| Operations.AmountInterruptPropagates | operations.py:60-61 | An interrupt at the amount prompt leaves the dispatcher as an interrupt, with no message and no change |
| Operations.UnknownNameReported | operations.py:8-16 | An unknown name is reported with the name as given, raises nothing, reads nothing and changes nothing, exactly when it is none of the three names in any letter case |
| Operations.DispatchIgnoresCase | operations.py:8-14 | Names with the same upper case dispatch identically; unknown names differ only in the spelling quoted |
| Operations.CrashOnlyFromNegativeBalance | operations.py:24-50 | The store's error escapes the dispatcher exactly when a positive credit meets a balance more negative than the amount, so from a valid store never |
| Operations.GetAmountReadsOneLine | operations.py:55-56 | Lines after the amount line do not change the amount read, and stay unread |
| Operations.ExecuteIgnoresLaterInput | operations.py:53-56 | Given more input than it reads, the dispatcher does the same and leaves the extra lines unread |
| Menu.Start | main.py:5-6 | A new menu loop starts with the continue flag set, on the store it is given |
| Menu.GetUserChoice | main.py:30-43 | The choice prompt consumes one line. It picks the number exactly when the line parses to 1 to 4, reports not-a-number exactly when the line does not parse or the input has ended, and reports an interrupt exactly for a keyboard interrupt |
| Menu.ProcessChoice | main.py:45-53 | Choice 4 and only 4 quits. Choice 1 and only 1 dispatches TOTAL, 2 and only 2 CREDIT, 3 and only 3 DEBIT, and nothing else dispatches |
| Menu.Step | main.py:10-15 | One pass of the loop consumes a line, and at end of input reports the invalid-input message and changes nothing. It never prints a farewell. With no committed change, or on exit, it leaves the store as it was. It commits at most one change, and a committed change consumes two lines (the choice and the amount). From a valid store it neither raises nor leaves the store invalid |
| Menu.Turn | main.py:12-15 | The same guarantees once the choice has been read; in addition, a committed change is admissible, moves the balance by its amount, and consumes the amount line |
| Menu.DispatchedSound | main.py:45-51 | A dispatcher call from the loop commits at most one change, admissible and replayed on the balance, and only after reading a line. A committed change is the credit (CREDIT) or debit (DEBIT) of the decimal on the next line, never anything for TOTAL. No farewell is printed, and from a valid store nothing raises |
| Menu.Run | main.py:8-19 | The exit farewell is printed exactly when the run exits by choice, and the interrupt farewell exactly when it is interrupted. Each committed change uses two lines of input, so a run commits at most half as many changes as it is given lines. The final balance is the starting balance with the committed changes replayed in order, each admissible at the balance it met. From a valid store the store stays valid and never raises |
| Menu.RunLoop | main.py:8-16 | The while loop on the continue flag computes exactly the run the recursive definition describes |
| Menu.OutOfRangeChoiceReprompts | main.py:34-38 | A number outside 1 to 4 reports the invalid-choice message, dispatches nothing, and the loop goes on Running on the same store |
| Menu.NonNumericChoiceReprompts | main.py:39-41 | A line that is not a number reports the invalid-input message, dispatches nothing, and the loop goes on Running on the same store |
| Menu.ChoicesDispatch | main.py:45-51 | Choices 1, 2 and 3 make exactly one dispatcher call, with TOTAL, CREDIT and DEBIT respectively |
| Menu.ExitChoiceEndsRun | main.py:10-16 | Choice 4 clears the flag; the run then ends with the exit farewell, the store unchanged and nothing more read |
| Menu.InterruptEndsRun | main.py:17-19 | An interrupt at the choice prompt, or at the amount prompt of a credit or debit, ends the run with the interrupt farewell and no further change |
| Menu.InterruptStep | main.py:42-43 | The loop pass that meets an interrupt at the choice prompt, or at the amount prompt after choice 2 or 3, ends in the interrupt |
| Menu.RunCommitsRequests | main.py:8-19 | From a valid store, a run's committed changes are exactly the input's requests up to the pass that ends the loop, each kept when the guards admit it at the balance reached so far |
| Menu.StepAsRequested | main.py:10-15 | One pass from a valid store ends the loop exactly when the input's next request says so (choice 4, or an interrupt at either prompt). Otherwise it stays Running, reads the same lines the scan reads, and commits the request exactly when the guards admit it |
| Menu.AmountAsRequested | main.py:45-51 | The same for choices 2 and 3 |
| Menu.CreditAsRequested | operations.py:23-34 | A credit whose amount line parses as a commits a exactly when a is positive |
| Menu.DebitAsRequested | operations.py:36-50 | From any store, a debit whose amount line parses as a commits a exactly when a is positive and the balance covers it |
| Menu.NoAmountRejected | operations.py:53-59 | A credit or debit with no amount line, or one that does not parse, commits nothing and the loop goes on Running |
| Menu.AdmittedOne | operations.py:28-47 | Trying at most one change and then the rest keeps what the first try keeps, followed by what the rest keeps from the balance it leaves |
| Menu.RunNeverNegative | main.py:8-16 | From a valid store, the balance after every committed change of a run, not only the last, is non-negative |
| Menu.StepIgnoresLaterInput | main.py:30-33 | Input after one pass of the loop does not change that pass, and stays unread, unless the pass ran into end of input at the amount prompt (choice 2 or 3 on the last line given) |
| Menu.GetUserChoiceReadsOneLine | main.py:32-33 | Lines after the choice line do not change the choice read, and stay unread |
| Menu.TurnIgnoresLaterInput | main.py:12-15 | The same, once the choice has been read: only choice 2 or 3 with no line left is excluded |
| Menu.DispatchIgnoresLaterInput | main.py:45-51 | The same for the dispatching choices: TOTAL with any input, CREDIT or DEBIT with at least one line left |
| Menu.RunIgnoresLaterInput | main.py:10-19 | A run that ends by choice 4 or by an interrupt gives the same result whatever input follows |
| Scenarios.TotalTurn | tests.py:114-120 | Choice 1 reports the balance once and changes nothing |
| Scenarios.CreditStep | tests.py:56-61 | Choice 2 with a positive amount adds it and reports the new balance |
| Scenarios.CreditCall | tests.py:56-61 | CREDIT with a positive amount on a line of its own adds the amount, reports the new balance and reads only that line |
| Scenarios.CreditTurn | tests.py:122-128 | The run after choice 2 with a positive amount continues from the credited balance |
| Scenarios.DebitTurn | tests.py:130-136 | The run after choice 3 with a covered amount continues from the debited balance |
| Scenarios.DebitStep | tests.py:77-82 | Choice 3 with a covered amount subtracts it and reports the new balance |
| Scenarios.DebitCall | tests.py:77-96 | DEBIT with a positive amount subtracts it when the balance covers it, and otherwise reports insufficient funds with the balance unchanged |
| Scenarios.OverdraftTurn | tests.py:84-89 | Choice 3 with an amount above the balance reports insufficient funds and continues from the same balance |
| Scenarios.ExitTurn | tests.py:138-143 | Choice 4 ends the run with the exit farewell |
| Scenarios.CompleteTransactionFlow | tests.py:178-191 | View, credit 500.00, debit 300.00, view and exit print 1000.00, 1500.00, 1200.00 and 1200.00, then the farewell, and leave 1200.00 |
| Scenarios.TransactionFlowAfterCredit | tests.py:178-191 | The debit, view and exit of that flow, from 1500.00, print 1200.00 twice and the farewell |
| Scenarios.InsufficientFundsFlow | tests.py:193-202 | Debit 1500.00 from 1000.00 is refused and the following view reports 1000.00 |
| Scenarios.DecimalPrecisionFlow | tests.py:204-211 | Credit 0.01, credit 0.02 and debit 0.01 from 1000.00 leave exactly 1000.02 |
| Scenarios.PrecisionAfterFirstCredit | tests.py:204-211 | The last three passes of that flow, from 1000.01 |
| Scenarios.InvalidMenuChoicesFlow | tests.py:145-152 | Choices 5, 0 and "abc" re-prompt with their messages, and 4 exits with the store untouched |
| Scenarios.KeyboardInterruptFlow | tests.py:164-172 | An interrupt at the first prompt prints only the interrupt farewell, whatever input would follow |
| Scenarios.CaseInsensitiveRead | tests.py:255-258 | "read", "READ" and "Read" each return 1000.00 from a fresh store |
| Scenarios.DirectStoreFlow | tests.py:213-220 | Read, write plus 500.00, read, write minus 300.00 leaves a store that reads 1200.00 |
| Scenarios.ResetBetweenRuns | tests.py:222-234 | A run that credits 500.00 leaves 1500.00; after a reset, the next run reports 1000.00 |
| Scenarios.CreditThenExit | tests.py:224-229 | The first run, credit 500.00 and exit, leaves 1500.00 |
| Scenarios.ViewThenExit | tests.py:230-234 | A run on a reset store reports 1000.00 and exits |

## Left out

- Console output formatting. The menu banner (main.py:21-28), the prompts'
  text, the leading newlines and the `:.2f` rendering of amounts are not
  modelled. Messages are values that carry the exact amount.
- Parser grammars. `int` and `Decimal` are not modelled on text. Each input
  line is given as what the two parsers make of it. Decimal's "NaN" and
  "Infinity" are outside the model: amounts are finite reals.
- Decimal context rounding. Python's Decimal rounds each sum and difference
  to 28 significant digits (operations.py:32 and 48); the model's arithmetic
  is exact. The two agree whenever every sum and difference is exact in 28
  significant digits and within Decimal's exponent range, which covers the
  repository's own flows. They disagree otherwise: a credit of "1E-30" to
  1000.00 leaves 1000.00 in the program, whereas `Operations.CreditAddsAmount`
  gives 1000.00 + 1E-30.
- Decimal overflow. A credit whose sum passes Decimal's largest exponent
  (999999), such as "1E+1000000", raises `decimal.Overflow` at
  operations.py:32. Nothing catches it, since main.py:17 catches only
  `KeyboardInterrupt`, so the program ends there, even from a valid store.
  The model has no such crash: its `Crashed` status stands only for the
  store's own error.
- Menu.Run: its "never `Crashed` from a valid store" holds of the store's
  error only; it does not cover the Decimal overflow above, which the model
  leaves out together with Decimal's exponent range.
- Unicode upper-casing. `str.upper` is modelled on ASCII letters only. A
  non-ASCII character that upper-cases to an ASCII keyword letter is not
  modelled.
- Endless re-prompting at end of input. At the choice prompt the program
  loops forever, printing "Invalid input" each time. `Menu.Step` models one
  such pass. `Menu.Run` instead ends the run with status `Stalled`, before
  that prompt and with nothing printed for it.
- Exceptions and process exit. The `KeyboardInterrupt` re-raise and
  `sys.exit(0)` are modelled only as the `Interrupted` status and its
  farewell. An escaping store error is modelled only as the `Crashed` status.
- Class-level state. The class-level balance and the per-instance continue
  flag are explicit state values. Sharing between runs is modelled by passing
  one run's final store to the next.
- The separate input streams of the tests. The tests mock the menu's and the
  dispatcher's `input` separately; the model reads both from one console
  stream. The tests also replace the dispatcher with a mock in the menu
  flows, whereas the model uses the real dispatcher.
- The journal of committed credits and debits. It is a record the model
  keeps to state the replay property. The program keeps no such record.
- Menu.RunCommitsRequests: stated only for runs from a valid store. From a
  negative balance a credit can make the store raise, which ends the run
  before the requests that follow. Every store the program builds is valid.
