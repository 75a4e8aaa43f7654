# mbank ledger core in Dafny

This project models the ledger core of *mbank*, a Spring Boot web bank. It covers:

- opening an account with a random six-digit number;
- deposits, withdrawals and transfers with their limits and the R10 transfer fee;
- the transaction journal: id prefixes, the unique `transaction_id` column, and records with and without a fee;
- the transaction summary;
- the account statement: date defaults, the type filter, newest-first order, the 100-row cap and the totals;
- the registration form's checks.

Each module corresponds to one source file:

| module | models |
|---|---|
| `Transactions` | `model/Transaction.java`: the record, its constructor and its `@PrePersist` hook |
| `Accounts` | `model/BankAccount.java`: a class with nullable fields and guarded `deposit`/`withdraw` |
| `Store` | the two repositories: the account table keyed by number with unique emails, the journal with unique transaction ids and IDENTITY ids, and the date-range queries ordered newest first |
| `TransactionService` | `service/TransactionService.java` |
| `BankAccountService` | `service/BankAccountService.java` |
| `TransferController` | `controller/TransferController.java` |
| `TransferFindings` | two defects of `processTransfer` and the corrected transfer |
| `StatementController` | `controller/StatementController.java` |
| `RegistrationController` | `controller/RegistrationController.java`, including Java's `String.trim` |

Modelling choices:

- **Store and transactions.** The database is the class `Store.Ledger`; its methods change its `accounts` map and `records` sequence. A `@Transactional` service method is atomic: when a later insert fails, it restores the snapshot taken on entry.
- **Failures.** Java's exceptions become a `Result` with a `Failure` reason. A null `Double` that Java would unbox becomes an explicit error: `Thrown.NullPointer`, or `None` from the summary.
- **Time and randomness.** The clock is a parameter: `now` for timestamps and `stamp` for the millisecond text in generated ids. `Math.random()` is a parameter too: `draws` for account numbers and the text `r1`/`r2` in transfer ids.
- **Money.** Amounts are `real`.

Four behaviours of the code that the model follows as written:

- the service's `transfer` writes no journal records;
- `processTransfer` makes its own checks, in its own order, against the balance cached in the session;
- the summary throws on a null fee;
- the statement's "TRANSFER" display type also covers a stored type spelled exactly `TRANSFER`.

## Model

| member | source | states |
|---|---|---|
| Transactions.OnCreate | src/main/java/com/mbank/model/Transaction.java:36-41 | the date is always set afterwards. An already-set date is kept. A null date becomes `now`. No other field changes. |
| Transactions.OnCreateIdempotent | src/main/java/com/mbank/model/Transaction.java:36-41 | running the hook a second time changes nothing, whatever the clock says |
| Transactions.NewTransaction | src/main/java/com/mbank/model/Transaction.java:46-55 | the record holds exactly the six arguments, dated now, with fee 0 and no id yet |
| Transactions.ConstructedDateSurvivesHook | src/main/java/com/mbank/model/Transaction.java:36-55 | the save hook keeps a constructed record unchanged, with its construction time, however late the save |
| Accounts.BankAccount.constructor | src/main/java/com/mbank/model/BankAccount.java:30-32 | only the creation time is set; number, holder, balance, email and password are null |
| Accounts.BankAccount.Full | src/main/java/com/mbank/model/BankAccount.java:35-43 | the five fields are its arguments and the creation time is now |
| Accounts.BankAccount.SetBalance | src/main/java/com/mbank/model/BankAccount.java:66-68 | the balance becomes the argument and nothing else changes |
| Accounts.BankAccount.Deposit | src/main/java/com/mbank/model/BankAccount.java:95-101 | a non-positive amount throws "Deposit amount must be positive.". A null balance throws a null-pointer error. Success happens exactly when neither applies and adds the amount. A throw leaves the balance unchanged. |
| Accounts.BankAccount.Withdraw | src/main/java/com/mbank/model/BankAccount.java:103-113 | the checks run in order: positive amount, null balance, then funds ("Insufficient funds."). Success happens exactly when 0 < amount <= balance. It subtracts the amount and leaves a non-negative balance. A throw changes nothing. |
| Accounts.BankAccount.OnCreate | src/main/java/com/mbank/model/BankAccount.java:115-123 | a null creation time becomes now and a null balance becomes 0. Set values are kept, and afterwards both are set. |
| Accounts.OnCreateTwice | src/main/java/com/mbank/model/BankAccount.java:115-123 | two runs of the hook leave the same state as one run with the first clock value: only createdAt and balance may change, and the number, holder, email and password stay as they were |
| Store.Ledger.constructor | src/main/java/com/mbank/repository/TransactionRepository.java:12-13 | a store holding the given table and journal, which satisfy the table invariants |
| Store.Ledger.SaveAccount | src/main/java/com/mbank/model/BankAccount.java:19-20 | saving an account whose email no other account has inserts it or replaces it under its number. The journal is unchanged and the invariants are kept. |
| Store.Ledger.SaveTransaction | src/main/java/com/mbank/model/Transaction.java:33-34 | an insert with a transaction id already stored fails with that id and changes nothing. Otherwise it appends the record with the next IDENTITY id and a date set by the `@PrePersist` hook. |
| Store.Ledger.Restore | src/main/java/com/mbank/service/BankAccountService.java:34-35 | the store is put back to a given valid snapshot (a `@Transactional` rollback) |
| Store.SelectMembers | src/main/java/com/mbank/repository/TransactionRepository.java:29-37 | a record is selected exactly when it is in the journal, is the account's, has an admitted type, and is dated within the inclusive range |
| Store.SelectCount | src/main/java/com/mbank/repository/TransactionRepository.java:29-37 | a query keeps every copy of a matching record and no copy of any other record |
| Store.SelectUnion | src/main/java/com/mbank/controller/StatementController.java:82-93 | the debit query's results plus the credit query's results equal, as a multiset, the query admitting both types |
| Store.InsertBounded | src/main/java/com/mbank/controller/StatementController.java:96 | inserting into a list bounded by a date keeps the list bounded by that date |
| Store.InsertSorted | src/main/java/com/mbank/controller/StatementController.java:96 | inserting into a newest-first list keeps it newest first |
| Store.InsertPermutes | src/main/java/com/mbank/controller/StatementController.java:96 | insertion adds exactly the one element, as a multiset |
| Store.SortDescSorted | src/main/java/com/mbank/repository/TransactionRepository.java:18-24 | the sort's result is newest first and is a permutation of its input |
| TransactionService.IdPrefix | src/main/java/com/mbank/service/TransactionService.java:33-37 | the prefix is one of DPT, WDR, TRF, TXN. It is DPT exactly for DEPOSIT, WDR exactly for WITHDRAWAL, and TRF exactly for the two transfer types. |
| TransactionService.GenerateTransactionId | src/main/java/com/mbank/service/TransactionService.java:24-26 | the id is the prefix followed by the clock-and-random part |
| TransactionService.PrefixesSeparateIds | src/main/java/com/mbank/service/TransactionService.java:24-37 | ids generated for types with different prefixes never clash, whatever the clock and random parts |
| TransactionService.RecordTransaction | src/main/java/com/mbank/service/TransactionService.java:29-44 | it fails exactly when the id (prefix + stamp) is taken, and then the journal is unchanged. Otherwise it appends one record carrying the arguments, fee 0, date now and that id. |
| TransactionService.RecordTransactionWithFee | src/main/java/com/mbank/service/TransactionService.java:51-67 | it fails exactly when the given id is taken. Otherwise it appends one record whose null description becomes "" and whose null fee becomes 0, dated now. |
| TransactionService.GetTransactionSummary | src/main/java/com/mbank/service/TransactionService.java:88-115 | it throws (`None`) exactly when a record in the range has a null fee. Otherwise it returns the fold of the records, whose count is their number. |
| TransactionService.SummaryCount | src/main/java/com/mbank/service/TransactionService.java:111 | the count equals the number of records folded |
| TransactionService.SummaryTransfersAreOutgoing | src/main/java/com/mbank/service/TransactionService.java:103-107 | `totalTransfers` always equals `totalTransfersOut` |
| TransactionService.SummaryTotalsNonNegative | src/main/java/com/mbank/service/TransactionService.java:101-108 | the withdrawal total and both transfer totals are never negative |
| TransactionService.SummaryOtherTypes | src/main/java/com/mbank/service/TransactionService.java:99-111 | over records that are neither DEPOSIT, WITHDRAWAL nor a transfer type, all five type totals stay 0 and every record is still counted |
| TransactionService.SummarizeAppend | src/main/java/com/mbank/service/TransactionService.java:94-112 | summarising a concatenation equals combining the two summaries field by field |
| TransactionService.StepCombine | src/main/java/com/mbank/service/TransactionService.java:94-112 | one loop step applied after adding a summary in front equals adding that summary after the step |
| BankAccountService.NumberFromDraw | src/main/java/com/mbank/service/BankAccountService.java:23 | every draw in [0,1) gives a six-digit number in 100000..999999 |
| BankAccountService.GenerateAccountNumber | src/main/java/com/mbank/service/BankAccountService.java:22-31 | the number is six-digit and not yet used, and comes from the first draw that misses the table. The result is `None` exactly when every draw collides. |
| BankAccountService.RegisterAccount | src/main/java/com/mbank/service/BankAccountService.java:34-60 | a registered email fails with EmailTaken. Success happens exactly when the email is free, a draw misses the table and the opening record's id is free. A new account then has balance 0, and one INITIAL_DEPOSIT record of 0 is appended. Any failure rolls everything back. |
| BankAccountService.DepositAcceptance | src/main/java/com/mbank/service/BankAccountService.java:80-90 | a deposit is accepted exactly when the account exists and 0 < amount <= 100000 |
| BankAccountService.Deposit | src/main/java/com/mbank/service/BankAccountService.java:78-107 | a rejection gives the first failing check and changes nothing. Otherwise the balance grows by the amount and one DEPOSIT record is appended. A record-id clash rolls back the balance. Non-negative balances stay non-negative. |
| BankAccountService.WithdrawAcceptance | src/main/java/com/mbank/service/BankAccountService.java:112-126 | a withdrawal is accepted exactly when the account exists and 0 < amount <= min(50000, balance). An accepted withdrawal leaves a non-negative balance. Over the balance it fails with InsufficientFunds. |
| BankAccountService.Withdraw | src/main/java/com/mbank/service/BankAccountService.java:110-143 | a rejection changes nothing. Otherwise the balance drops by the amount and a WITHDRAWAL record of -amount is appended, or everything is rolled back. |
| BankAccountService.TransferFee | src/main/java/com/mbank/service/BankAccountService.java:168-169 | the fee is 10 above 1000 and 0 otherwise |
| BankAccountService.FeeBounds | src/main/java/com/mbank/service/BankAccountService.java:169-170 | for a positive amount, the fee is between 0 and 10 and the total debit is between the amount and 1.01 times it |
| BankAccountService.TransferConservation | src/main/java/com/mbank/service/BankAccountService.java:177-182 | an accepted transfer debits amount + fee, credits amount, and touches no other account. The two balances together fall by exactly the fee, and the sender's balance stays non-negative. |
| BankAccountService.SelfTransferRefused | src/main/java/com/mbank/service/BankAccountService.java:164-166 | a transfer to the same account is always refused |
| BankAccountService.Transfer | src/main/java/com/mbank/service/BankAccountService.java:147-197 | the first failing check in the service's order (accounts, amount, cap, self, funds) is reported and nothing changes. Otherwise the accounts become the applied transfer, no record is written, and the result carries the fee, the total and id "TRF"+stamp. |
| BankAccountService.TransferWithoutDescription | src/main/java/com/mbank/service/BankAccountService.java:210-213 | behaves as the four-argument transfer with a null description |
| BankAccountService.UpdateAccount | src/main/java/com/mbank/service/BankAccountService.java:226-229 | the account is stored under its number and returned |
| BankAccountService.UpdateBalance | src/main/java/com/mbank/service/BankAccountService.java:252-258 | a missing account fails with AccountNotFound. Otherwise only that account's balance is set. |
| TransferController.DebitCreditIdsDiffer | src/main/java/com/mbank/controller/TransferController.java:116-118 | the debit and credit ids of one transfer never coincide, and both start with the TRF prefix |
| TransferController.Digits | src/main/java/com/mbank/controller/TransferController.java:125 | the decimal digits of a natural number: at least one, all '0'..'9', no leading zero |
| TransferController.IntToString | src/main/java/com/mbank/controller/TransferController.java:125 | `Integer.toString`: nonempty, with a leading '-' exactly for a negative number |
| TransferController.DigitsRoundTrip | src/main/java/com/mbank/controller/TransferController.java:125 | reading the digits back gives the number |
| TransferController.ParseRendered | src/main/java/com/mbank/controller/TransferController.java:125 | parsing the rendering of an account number gives the number back |
| TransferController.IntToStringInjective | src/main/java/com/mbank/controller/TransferController.java:125 | different account numbers never render to the same text |
| TransferController.TransferRecordsNameEachOther | src/main/java/com/mbank/controller/TransferController.java:121-139 | the debit record is the sender's and names the recipient; the credit record is the recipient's and names the sender. The amounts cancel, the debit carries the fee and the credit none. Without a caller's description they read "Transfer to account #<to>" and "Transfer from account #<from>". |
| TransferController.FreshSnapshotAgreesWithService | src/main/java/com/mbank/controller/TransferController.java:60-101 | when the session's balance is the stored one, the controller accepts exactly what the service's transfer accepts |
| TransferController.ProcessTransfer | src/main/java/com/mbank/controller/TransferController.java:40-173 | a rejection (amount, cap, self, recipient, session funds, sender) changes nothing. Otherwise the balances become the applied transfer. A debit-id clash then writes no record, and a credit-id clash leaves the debit record; both report the error. Success appends the debit record (the sender's, naming the recipient by number) and the credit record (the recipient's, naming the sender), and refreshes the session from the store. |
| TransferFindings.StaleSnapshotOverdraws | src/main/java/com/mbank/controller/TransferController.java:93-101 | on a concrete store, a transfer from a stale session succeeds and leaves the stored balance at -200 |
| TransferFindings.DuplicateCreditIdHalfApplies | src/main/java/com/mbank/controller/TransferController.java:109-139 | on a concrete store, a clashing credit id reports an error, yet both balances have moved and the debit record stays |
| TransferFindings.CheckedAgreesWithService | src/main/java/com/mbank/controller/TransferController.java:60-107 | the corrected checks accept exactly what the service's transfer accepts |
| TransferFindings.ProcessTransferChecked | src/main/java/com/mbank/controller/TransferController.java:40-173 | corrected transfer: non-negative balances stay non-negative and an error changes nothing. Success happens exactly when the stored-balance checks pass and both ids are free; it then applies the transfer, appends the same two records as the original and reports fee, total, debit id and new balance. |
| StatementController.ResolveDates | src/main/java/com/mbank/controller/StatementController.java:49-59 | the end is the parameter or today. The start is the parameter or 30 days back, replaced by end - 30 when it lies after the end, so start <= end. |
| StatementController.DayRangeInclusive | src/main/java/com/mbank/controller/StatementController.java:72-73 | on a clock of whole seconds, a time lies between start-of-day and 23:59:59 of the end day exactly when its day is in the date range |
| StatementController.FetchSpec | src/main/java/com/mbank/controller/StatementController.java:75-103 | for every filter, the fetched list is newest first. As a multiset it is exactly the account's in-range records of the admitted types: all for ALL, both transfer types for TRANSFER, the named type otherwise. |
| StatementController.FetchMembers | src/main/java/com/mbank/controller/StatementController.java:75-103 | a record is fetched exactly when it is the account's, in range, and of an admitted type |
| StatementController.Truncate | src/main/java/com/mbank/controller/StatementController.java:106-108 | the result is a prefix of at most 100 rows: the whole list if it is short, exactly 100 otherwise |
| StatementController.ShownSpec | src/main/java/com/mbank/controller/StatementController.java:71-108 | at most 100 rows are shown, newest first. Each is the account's, lies within the day range and has an admitted type. |
| StatementController.DisplayTypes | src/main/java/com/mbank/controller/StatementController.java:124-131 | a record shows as TRANSFER exactly when its type starts with "TRANSFER_" or is "TRANSFER"; both transfer sides do. Any other type shows as stored. A shown type is never a stored transfer type, and showing is idempotent. |
| StatementController.FetchForFilter | src/main/java/com/mbank/controller/StatementController.java:71-103 | the query branch computes the fetch for the filter, and its result is newest first |
| StatementController.Rows | src/main/java/com/mbank/controller/StatementController.java:121-148 | one row per record, in order, each showing its record with the display type and a null fee read as 0 |
| StatementController.BuildRows | src/main/java/com/mbank/controller/StatementController.java:113-165 | the loop builds exactly the rows of the records and the fold of their totals |
| StatementController.RowsAndTotalsSnoc | src/main/java/com/mbank/controller/StatementController.java:121-165 | one more record adds one row and one step of the totals |
| StatementController.ViewStatement | src/main/java/com/mbank/controller/StatementController.java:26-199 | the range is resolved with start <= end. A store failure shows no rows, zero totals and the error. Otherwise the rows are the shown records and the count is the number of rows. |
| StatementController.TotalsNonNegative | src/main/java/com/mbank/controller/StatementController.java:150-164 | the withdrawal and transfer totals are never negative |
| StatementController.DepositsOnlyTotals | src/main/java/com/mbank/controller/StatementController.java:150-164 | over DEPOSIT records only, the withdrawal and transfer totals stay 0 |
| StatementController.DepositStatementTotals | src/main/java/com/mbank/controller/StatementController.java:97-165 | a statement filtered by DEPOSIT shows zero withdrawal and transfer totals |
| StatementController.TotalsAgreeWithSummary | src/main/java/com/mbank/service/TransactionService.java:94-112 | with no null fee and no bare TRANSFER type, the statement's four totals equal the transaction service's summary totals |
| RegistrationController.TrimStartFacts | src/main/java/com/mbank/controller/RegistrationController.java:33 | stripping leading blanks empties the string exactly when it is all blanks, and keeps every visible character |
| RegistrationController.TrimEndFacts | src/main/java/com/mbank/controller/RegistrationController.java:33 | stripping trailing blanks empties the string exactly when it is all blanks, and keeps every visible character |
| RegistrationController.TrimSpec | src/main/java/com/mbank/controller/RegistrationController.java:56-57 | a trimmed string is empty exactly when all its characters are <= U+0020. Otherwise it starts and ends with a visible character. Every visible character (such as '@') survives. |
| RegistrationController.Utf16Length | src/main/java/com/mbank/controller/RegistrationController.java:43 | Java's `length()`: at least the number of characters and at most twice it, and exactly it when no character lies beyond U+FFFF |
| RegistrationController.CheckForm | src/main/java/com/mbank/controller/RegistrationController.java:32-51 | each rejection holds exactly when its check is the first to fail: blank name, then blank or '@'-less email, then a blank password or one shorter than 6 UTF-16 units, then a mismatched confirmation. An accepted form has a non-blank trimmed name, a trimmed email containing '@', and a password of at least 6 units that equals the confirmation. |
| RegistrationController.SurrogatePairCountsTwice | src/main/java/com/mbank/controller/RegistrationController.java:43 | the five-character password "abcd" + U+1F600 has length 6 and passes the form |
| RegistrationController.Register | src/main/java/com/mbank/controller/RegistrationController.java:26-71 | a rejected form changes nothing. An accepted form registers exactly when the email is free, a draw misses the table and the opening record's id is free. A registration stores the trimmed name, the trimmed email and the untrimmed password, with balance 0 under a fresh six-digit number, and appends one INITIAL_DEPOSIT record of 0. Any failure changes nothing. |

## Left out

- HTTP plumbing: request binding, the `Model` attributes, views and redirects, and a missing session (redirect to login) are not modelled. Message texts and display formatting are not modelled either: amounts, dates and "N/A".
- The statement's "current balance" header is left out because it only echoes the session.
- Login, `getAccount`, `getAccountByEmail`, `getAllAccounts`, `emailExists`, `accountExists`, `getAccountHolderName`, `deleteAccount`, `searchAccountsByName` and `getAccountTransactions` are left out. They are reads, deletes and a name search (lower-cased and filtered in the service), all outside the ledger's rules.
- `DepositController` and `WithdrawController` are not part of this model. The service operations they call are.
- The `getTransactionsByDateRange` wrappers are not modelled separately. The summary takes its `LocalDateTime` bounds as given and queries them directly (`FindInRange`). The statement converts its dates to start-of-day / 23:59:59 itself (`StartOfDay`, `EndOfDay`).
- StatementController.DayRangeInclusive: time is counted in whole seconds. `LocalDateTime.now()` keeps fractions of a second, so in the source a record stamped after 23:59:59 on the end day (23:59:59.4, say) falls outside the statement's range. The model, at one-second resolution, shows it.
- Money is `real`. Double rounding, and `NumberFormatException` for malformed input, are not modelled.
- NaN amounts are not modelled: `real` has no NaN. The controllers bind the amount as a `Double`, which parses "NaN". Every comparison with NaN is false, so in the source a NaN deposit, withdrawal or transfer passes the sign check, the cap check and the funds check (`amount > balance`, `balance < totalDebit`), and the balances become NaN. After that no funds check on that account fires again. Whether the database stores a NaN double is outside the source. The "rejected exactly when …" contracts of BankAccountService.DepositAcceptance, BankAccountService.WithdrawAcceptance, BankAccountService.Deposit, BankAccountService.Withdraw, BankAccountService.Transfer and TransferController.ProcessTransfer hold for ordinary numbers only.
- Concurrency, row locking and session sharing are not modelled. Two requests interleave only as sequential calls, as in `TransferFindings.StaleSnapshotOverdraws`.
- GenerateAccountNumber: `Math.random()` is a finite list of draws. When every draw collides, the model reports `AccountNumbersExhausted`, where Java would keep drawing.
- Generated ids are only prefix + a caller-supplied stamp. The model does not relate that stamp to the clock or the random suffix.
- Store.SortDescSorted: the list sort (`List.sort`, in place) and the database's `ORDER BY` are modelled as one pure stable insertion sort on sequences. The database's order among records with equal timestamps is taken to be table order.
- Store.Ledger.SaveTransaction: the IDENTITY id is the journal position + 1. Ids a rolled-back insert would consume are not modelled.
- Store.Ledger.SaveAccount: requires the email to be free. The unique constraint would reject a clash, and no modelled caller can cause one.
- Transactions: the no-argument `Transaction()` constructor and the setters are modelled as datatype values and update expressions. The transiently null non-nullable fields are not modelled.
- TransferController.ProcessTransfer: the "To account not found" failure after reloading cannot occur without a concurrent delete, so it is not modelled. The reload of the sender is checked.

## Findings

| source | as written | input that shows it | evidently intended | confidence | as-written member | corrected member |
|---|---|---|---|---|---|---|
| src/main/java/com/mbank/controller/TransferController.java:94 | the funds check reads the balance cached in the HTTP session, and the debit is then applied to the freshly loaded row | account stored with 500, logged in twice; one session withdraws 400; the other (still holding 500) transfers 300; the check passes and the stored balance becomes -200 | check the stored balance, as the service's `transfer` does, so no balance goes negative | not executed | TransferFindings.StaleSnapshotOverdraws | TransferFindings.ProcessTransferChecked |
| src/main/java/com/mbank/controller/TransferController.java:109-139 | `processTransfer` is not transactional: both balances are saved before the two records are inserted, so a failing record insert leaves them changed | sender 100, recipient 0, an existing record with id `TRF-CREDIT-7-9`, transfer 50 with stamp 7 and credit suffix 9; the error is reported, yet both balances are 50 and the debit record stays without its credit | the balance updates and both records form one unit of work, rolled back as a whole on failure | not executed | TransferFindings.DuplicateCreditIdHalfApplies | TransferFindings.ProcessTransferChecked |
