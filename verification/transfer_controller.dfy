/** TransferController.processTransfer: the transfer as the application runs
    it. It does not call the service's transfer; it repeats the validation
    and the fee rule, updates both balances through two separate saves, and
    writes the debit and credit records itself. The controller method is not
    transactional: each save commits on its own. */
module TransferController {
  import opened Wrappers
  import opened Transactions
  import opened Accounts
  import opened Store
  import opened TransactionService
  import opened BankAccountService

  datatype TransferOutcome =
    | TransferError(reason: Failure)
    | TransferSuccess(fee: real, totalDebit: real, transactionId: string, newBalance: real)

  /** The debit id: "TRF-DEBIT-" + time + "-" + random. */
  function DebitId(stamp: string, random: string): string
  {
    "TRF-DEBIT-" + stamp + "-" + random
  }

  /** The credit id: "TRF-CREDIT-" + time + "-" + random. */
  function CreditId(stamp: string, random: string): string
  {
    "TRF-CREDIT-" + stamp + "-" + random
  }

  /** The two ids of one transfer never coincide, whatever the clock and
      the random parts: they differ at the fifth character. Both start with
      the TRF prefix the recorder uses for transfer types. */
  lemma DebitCreditIdsDiffer(stamp: string, r1: string, r2: string)
    ensures DebitId(stamp, r1) != CreditId(stamp, r2)
    ensures IdPrefix(TRANSFER_DEBIT) <= DebitId(stamp, r1)
    ensures IdPrefix(TRANSFER_CREDIT) <= CreditId(stamp, r2)
  {
    assert DebitId(stamp, r1)[4] == 'D';
    assert CreditId(stamp, r2)[4] == 'C';
  }

  /** The first check processTransfer fails, in its order: the amount, the
      cap, self-transfer, then the recipient's existence. The funds check
      reads `session`, the account object cached in the HTTP session at
      login or at the last operation, not the stored row. */
  function ControllerRejection(accounts: map<int, Account>, session: Account, to: int, amount: real): Option<Failure>
  {
    if amount <= 0.0 then Some(NonPositiveAmount)
    else if amount > MAX_TRANSFER then Some(TransferLimitExceeded)
    else if to == session.accountNumber then Some(SelfTransfer)
    else if to !in accounts then Some(ToAccountNotFound)
    else if session.balance < TotalDebit(amount) then Some(InsufficientFunds(session.balance, TotalDebit(amount)))
    else if session.accountNumber !in accounts then Some(FromAccountNotFound)
    else None
  }

  /** When the session snapshot is fresh (its balance is the stored one),
      the controller accepts exactly the requests the service's transfer
      accepts; only the reason given for a rejection may differ, because the
      two make their checks in different orders. */
  lemma FreshSnapshotAgreesWithService(accounts: map<int, Account>, session: Account, to: int, amount: real)
    requires session.accountNumber in accounts
    requires accounts[session.accountNumber].balance == session.balance
    ensures ControllerRejection(accounts, session, to, amount).None? <==>
              TransferRejection(accounts, session.accountNumber, to, amount).None?
  {
  }

  // ---------------------------------------------------------------------
  // Decimal rendering of account numbers
  // ---------------------------------------------------------------------

  /** The character of a decimal digit. */
  function DigitChar(d: nat): char
    requires d < 10
  {
    ('0' as int + d) as char
  }

  /** The decimal digits of a natural number, most significant first, with
      no leading zero. */
  function Digits(n: nat): (s: string)
    ensures |s| >= 1
    ensures forall i | 0 <= i < |s| :: '0' <= s[i] <= '9'
    ensures |s| > 1 ==> s[0] != '0'
  {
    if n < 10 then [DigitChar(n)] else Digits(n / 10) + [DigitChar(n % 10)]
  }

  /** `Integer.toString` (also what `"..." + n` appends): the digits, after
      a '-' for a negative number. */
  function IntToString(n: int): (s: string)
    ensures |s| >= 1
    ensures s[0] == '-' <==> n < 0
  {
    if n < 0 then "-" + Digits(-n) else Digits(n)
  }

  /** The value of a string of decimal digits. */
  function DigitsValue(s: string): int
  {
    if s == [] then 0 else DigitsValue(s[..|s| - 1]) * 10 + (s[|s| - 1] as int - '0' as int)
  }

  /** `Integer.parseInt` on a well-formed decimal. */
  function ParseInt(s: string): int
  {
    if s != [] && s[0] == '-' then -DigitsValue(s[1..]) else DigitsValue(s)
  }

  lemma {:induction false} DigitsRoundTrip(n: nat)
    ensures DigitsValue(Digits(n)) == n
  {
    if n >= 10 {
      DigitsRoundTrip(n / 10);
      var s := Digits(n);
      assert s[..|s| - 1] == Digits(n / 10);
    }
  }

  /** Parsing the rendering of a number gives the number back. */
  lemma ParseRendered(n: int)
    ensures ParseInt(IntToString(n)) == n
  {
    if n < 0 {
      var d := Digits(-n);
      DigitsRoundTrip(-n);
      assert ("-" + d)[1..] == d;
    } else {
      DigitsRoundTrip(n);
    }
  }

  /** Different account numbers never render alike. */
  lemma IntToStringInjective(n: int, m: int)
    requires IntToString(n) == IntToString(m)
    ensures n == m
  {
    ParseRendered(n);
    ParseRendered(m);
  }

  // ---------------------------------------------------------------------
  // The two records of a transfer
  // ---------------------------------------------------------------------

  /** The description stored on each side: the caller's, or the default
      naming the other account. */
  function DebitDescription(description: Option<string>, to: int): string
  {
    GetOr(description, "Transfer to account #" + IntToString(to))
  }

  function CreditDescription(description: Option<string>, from: int): string
  {
    GetOr(description, "Transfer from account #" + IntToString(from))
  }

  /** The two records a completed transfer appends, as the store keeps them
      (the second one is numbered after the first). */
  function DebitRecord(records: seq<Transaction>, from: int, to: int, amount: real,
                       description: Option<string>, id: string, now: DateTime): Transaction
  {
    Transaction(Some(|records| + 1), from, TRANSFER_DEBIT, -amount, Some(IntToString(to)),
                Some(DebitDescription(description, to)), Some(TransferFee(amount)), Some(now), id)
  }

  function CreditRecord(records: seq<Transaction>, from: int, to: int, amount: real,
                        description: Option<string>, id: string, now: DateTime): Transaction
  {
    Transaction(Some(|records| + 2), to, TRANSFER_CREDIT, amount, Some(IntToString(from)),
                Some(CreditDescription(description, from)), Some(0.0), Some(now), id)
  }

  /** Each side of a transfer names the other account as its counterparty,
      and without a caller's description says so in words; the debit
      carries -amount and the fee, the credit +amount and no fee. */
  lemma TransferRecordsNameEachOther(records: seq<Transaction>, from: int, to: int, amount: real,
                                     description: Option<string>, debitId: string, creditId: string,
                                     now: DateTime)
    ensures var debit := DebitRecord(records, from, to, amount, description, debitId, now);
            var credit := CreditRecord(records, from, to, amount, description, creditId, now);
            && debit.accountNumber == from && ParseInt(debit.toAccount.value) == to
            && credit.accountNumber == to && ParseInt(credit.toAccount.value) == from
            && debit.amount + credit.amount == 0.0
            && FeeOf(debit) == TransferFee(amount) && FeeOf(credit) == 0.0
            && (description.None? ==>
                  && debit.description == Some("Transfer to account #" + IntToString(to))
                  && credit.description == Some("Transfer from account #" + IntToString(from)))
  {
    ParseRendered(to);
    ParseRendered(from);
  }

  /** processTransfer, as written. `session` is the sender's cached account;
      `stamp`, `r1` and `r2` are the clock and random parts of the two ids. The returned account is what the session holds
      afterwards.

      Every rejection happens before any write. After the checks the two
      accounts are reloaded, the sender is debited amount + fee and the
      recipient credited amount, each saved on its own; then the debit and
      the credit records are inserted one after the other. A record whose id
      is taken fails its insert, and nothing undoes the writes before it. */
  method ProcessTransfer(db: Ledger, session: Account, to: int, amount: real, description: Option<string>,
                         stamp: string, r1: string, r2: string, now: DateTime)
    returns (outcome: TransferOutcome, sessionAfter: Account)
    requires db.Valid()
    modifies db
    ensures db.Valid()
    ensures var from := session.accountNumber;
            var rejection := ControllerRejection(old(db.accounts), session, to, amount);
            && (rejection.Some? ==> && outcome == TransferError(rejection.value) && sessionAfter == session
                                    && db.accounts == old(db.accounts) && db.records == old(db.records))
            && (rejection.None? ==>
                  && from in old(db.accounts) && to in old(db.accounts) && from != to
                  && db.accounts == ApplyTransfer(old(db.accounts), from, to, amount))
    ensures var from := session.accountNumber;
            var debitId := DebitId(stamp, r1);
            var creditId := CreditId(stamp, r2);
            ControllerRejection(old(db.accounts), session, to, amount).None? ==>
              if IdTaken(old(db.records), debitId) then
                && outcome == TransferError(DuplicateTransactionId(debitId)) && sessionAfter == session
                && db.records == old(db.records)
              else if IdTaken(old(db.records), creditId) then
                && outcome == TransferError(DuplicateTransactionId(creditId)) && sessionAfter == session
                && db.records == old(db.records)
                     + [DebitRecord(old(db.records), from, to, amount, description, debitId, now)]
              else
                && db.records == old(db.records)
                     + [DebitRecord(old(db.records), from, to, amount, description, debitId, now),
                        CreditRecord(old(db.records), from, to, amount, description, creditId, now)]
                && sessionAfter == db.accounts[from]
                && outcome == TransferSuccess(TransferFee(amount), TotalDebit(amount), debitId, db.accounts[from].balance)
  {
    var from := session.accountNumber;
    if amount <= 0.0 {
      return TransferError(NonPositiveAmount), session;
    }
    if amount > MAX_TRANSFER {
      return TransferError(TransferLimitExceeded), session;
    }
    if to == from {
      return TransferError(SelfTransfer), session;
    }
    if to !in db.accounts {
      return TransferError(ToAccountNotFound), session;
    }
    var fee := TransferFee(amount);
    var totalDebit := amount + fee;
    // The funds check reads the session snapshot, not the stored balance.
    if session.balance < totalDebit {
      return TransferError(InsufficientFunds(session.balance, totalDebit)), session;
    }
    if from !in db.accounts {
      return TransferError(FromAccountNotFound), session;
    }
    var fromUpdated := db.accounts[from];
    var toUpdated := db.accounts[to];
    fromUpdated := fromUpdated.(balance := fromUpdated.balance - totalDebit);
    toUpdated := toUpdated.(balance := toUpdated.balance + amount);
    var _ := UpdateAccount(db, fromUpdated);
    var _ := UpdateAccount(db, toUpdated);

    var debitId := DebitId(stamp, r1);
    var creditId := CreditId(stamp, r2);
    DebitCreditIdsDiffer(stamp, r1, r2);
    var records0 := db.records;
    var debit := RecordTransactionWithFee(db, from, TRANSFER_DEBIT, -amount, Some(IntToString(to)),
                                          Some(DebitDescription(description, to)), Some(fee), debitId, now);
    if debit.Err? {
      return TransferError(debit.error), session;
    }
    var credit := RecordTransactionWithFee(db, to, TRANSFER_CREDIT, amount, Some(IntToString(from)),
                                           Some(CreditDescription(description, from)), Some(0.0), creditId, now);
    if credit.Err? {
      return TransferError(credit.error), session;
    }
    assert !IdTaken(records0 + [debit.value], creditId);
    sessionAfter := db.accounts[from];
    outcome := TransferSuccess(fee, totalDebit, debitId, sessionAfter.balance);
  }
}

/** Two defects of processTransfer shown on concrete stores, and the
    transfer as evidently intended. */
module TransferFindings {
  import opened Wrappers
  import opened Transactions
  import opened Accounts
  import opened Store
  import opened TransactionService
  import opened BankAccountService
  import opened TransferController

  /** Stale snapshot. The account (500) is logged in twice; one session
      withdraws 400, the other still holds 500 and transfers 300. The funds
      check passes on the cached 500 and the stored balance ends at -200. */
  method StaleSnapshotOverdraws() returns (outcome: TransferOutcome, storedBalance: real)
    ensures outcome.TransferSuccess?
    ensures storedBalance == -200.0
  {
    var alice := Account(1, "Alice", 500.0, "alice@bank", "secret1", 0);
    var bob := Account(2, "Bob", 0.0, "bob@bank", "secret2", 0);
    var db := new Ledger(map[1 := alice, 2 := bob], []);
    var staleSession := db.accounts[1];
    var withdrawn := Withdraw(db, 1, 400.0, "1", 10);
    assert withdrawn.Ok?;
    assert "TRF-DEBIT-2-3" != "WDR1" && "TRF-CREDIT-2-4" != "WDR1";
    var sessionAfter;
    outcome, sessionAfter := ProcessTransfer(db, staleSession, 2, 300.0, None, "2", "3", "4", 20);
    storedBalance := db.accounts[1].balance;
  }

  /** Half-applied transfer. The credit id the clock and random source
      produce is already stored. The transfer reports an error, yet both
      balances have moved and a debit record remains without its credit:
      the recipient's balance changed with no record of it. */
  method DuplicateCreditIdHalfApplies() returns (outcome: TransferOutcome, senderBalance: real,
                                                 recipientBalance: real, recordCount: nat)
    ensures outcome == TransferError(DuplicateTransactionId("TRF-CREDIT-7-9"))
    ensures senderBalance == 50.0 && recipientBalance == 50.0
    ensures recordCount == 2
  {
    var alice := Account(1, "Alice", 100.0, "alice@bank", "secret1", 0);
    var bob := Account(2, "Bob", 0.0, "bob@bank", "secret2", 0);
    var earlier := Transaction(Some(1), 3, TRANSFER_CREDIT, 5.0, Some("4"), Some(""), Some(0.0),
                               Some(5), "TRF-CREDIT-7-9");
    var db := new Ledger(map[1 := alice, 2 := bob], [earlier]);
    assert CreditId("7", "9") == "TRF-CREDIT-7-9";
    assert DebitId("7", "8") != "TRF-CREDIT-7-9" by {
      assert DebitId("7", "8")[4] == 'D';
    }
    var sessionAfter;
    outcome, sessionAfter := ProcessTransfer(db, alice, 2, 50.0, None, "7", "8", "9", 20);
    senderBalance := db.accounts[1].balance;
    recipientBalance := db.accounts[2].balance;
    recordCount := |db.records|;
  }

  /** The corrected check order: as the controller's, but the funds check
      reads the reloaded (stored) balance. */
  function CheckedRejection(accounts: map<int, Account>, from: int, to: int, amount: real): Option<Failure>
  {
    if amount <= 0.0 then Some(NonPositiveAmount)
    else if amount > MAX_TRANSFER then Some(TransferLimitExceeded)
    else if to == from then Some(SelfTransfer)
    else if to !in accounts then Some(ToAccountNotFound)
    else if from !in accounts then Some(FromAccountNotFound)
    else if accounts[from].balance < TotalDebit(amount) then Some(InsufficientFunds(accounts[from].balance, TotalDebit(amount)))
    else None
  }

  /** Whatever the session holds, the corrected controller accepts exactly
      what the service's transfer accepts. */
  lemma CheckedAgreesWithService(accounts: map<int, Account>, from: int, to: int, amount: real)
    ensures CheckedRejection(accounts, from, to, amount).None? <==> TransferRejection(accounts, from, to, amount).None?
  {
  }

  /** processTransfer as evidently intended: the funds check reads the
      stored balance, and the balance updates and both records form one
      unit of work, rolled back when either record cannot be inserted. No
      balance goes negative, and a failed transfer changes nothing. */
  method ProcessTransferChecked(db: Ledger, session: Account, to: int, amount: real,
                                description: Option<string>,
                                stamp: string, r1: string, r2: string, now: DateTime)
    returns (outcome: TransferOutcome, sessionAfter: Account)
    requires db.Valid()
    modifies db
    ensures db.Valid()
    ensures NonNegative(old(db.accounts)) ==> NonNegative(db.accounts)
    ensures outcome.TransferError? ==> && db.accounts == old(db.accounts) && db.records == old(db.records)
                                       && sessionAfter == session
    ensures var from := session.accountNumber;
            var rejection := CheckedRejection(old(db.accounts), from, to, amount);
            && (rejection.Some? ==> outcome == TransferError(rejection.value))
            && (outcome.TransferSuccess? <==>
                  rejection.None? && !IdTaken(old(db.records), DebitId(stamp, r1))
                  && !IdTaken(old(db.records), CreditId(stamp, r2)))
    ensures var from := session.accountNumber;
            outcome.TransferSuccess? ==>
              && db.accounts == ApplyTransfer(old(db.accounts), from, to, amount)
              && db.records == old(db.records)
                   + [DebitRecord(old(db.records), from, to, amount, description, DebitId(stamp, r1), now),
                      CreditRecord(old(db.records), from, to, amount, description, CreditId(stamp, r2), now)]
              && sessionAfter == db.accounts[from]
              && outcome == TransferSuccess(TransferFee(amount), TotalDebit(amount), DebitId(stamp, r1), db.accounts[from].balance)
  {
    var from := session.accountNumber;
    var rejection := CheckedRejection(db.accounts, from, to, amount);
    if rejection.Some? {
      return TransferError(rejection.value), session;
    }
    var fee := TransferFee(amount);
    var totalDebit := amount + fee;
    var accounts0, records0 := db.accounts, db.records;
    var fromUpdated := db.accounts[from].(balance := db.accounts[from].balance - totalDebit);
    var toUpdated := db.accounts[to].(balance := db.accounts[to].balance + amount);
    var _ := UpdateAccount(db, fromUpdated);
    var _ := UpdateAccount(db, toUpdated);
    var debitId := DebitId(stamp, r1);
    var creditId := CreditId(stamp, r2);
    DebitCreditIdsDiffer(stamp, r1, r2);
    var debit := RecordTransactionWithFee(db, from, TRANSFER_DEBIT, -amount, Some(IntToString(to)),
                                          Some(DebitDescription(description, to)), Some(fee), debitId, now);
    if debit.Err? {
      db.Restore(accounts0, records0);
      return TransferError(debit.error), session;
    }
    var credit := RecordTransactionWithFee(db, to, TRANSFER_CREDIT, amount, Some(IntToString(from)),
                                           Some(CreditDescription(description, from)), Some(0.0), creditId, now);
    if credit.Err? {
      db.Restore(accounts0, records0);
      return TransferError(credit.error), session;
    }
    assert !IdTaken(records0 + [debit.value], creditId);
    sessionAfter := db.accounts[from];
    outcome := TransferSuccess(fee, totalDebit, debitId, sessionAfter.balance);
  }
}
