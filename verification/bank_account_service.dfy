/** BankAccountService.java: account-number generation, registration, and
    the balance-changing operations. Each `@Transactional` method is one
    atomic method over the store: when a later step fails, the store is
    rolled back to the state the method started from. */
module BankAccountService {
  import opened Wrappers
  import opened Transactions
  import opened Accounts
  import opened Store
  import opened TransactionService

  const MAX_DEPOSIT: real := 100000.0
  const MAX_WITHDRAWAL: real := 50000.0
  const MAX_TRANSFER: real := 100000.0
  const FEE_THRESHOLD: real := 1000.0
  const TRANSFER_FEE: real := 10.0

  // ---------------------------------------------------------------------
  // Account numbers
  // ---------------------------------------------------------------------

  /** `100000 + (int)(Math.random() * 900000)` for one value of the random
      source; the cast truncates, which on non-negative values is the floor. */
  function NumberFromDraw(x: real): (n: int)
    requires 0.0 <= x < 1.0
    ensures 100000 <= n <= 999999
  {
    100000 + (x * 900000.0).Floor
  }

  /** `generateAccountNumber`: draws until the number is not a key of the
      store. The random source is the finite sequence `draws`; when every
      draw collides the model reports `None`. */
  method GenerateAccountNumber(accounts: map<int, Account>, draws: seq<real>) returns (r: Option<int>)
    requires forall i | 0 <= i < |draws| :: 0.0 <= draws[i] < 1.0
    ensures r.Some? ==> 100000 <= r.value <= 999999 && r.value !in accounts
    ensures r.Some? ==> exists k | 0 <= k < |draws| ::
                          && r.value == NumberFromDraw(draws[k])
                          && forall j | 0 <= j < k :: NumberFromDraw(draws[j]) in accounts
    ensures r.None? <==> forall i | 0 <= i < |draws| :: NumberFromDraw(draws[i]) in accounts
  {
    if |draws| == 0 {
      return None;
    }
    var i := 0;
    var n := NumberFromDraw(draws[0]);
    while n in accounts
      invariant 0 <= i < |draws|
      invariant n == NumberFromDraw(draws[i])
      invariant forall j | 0 <= j < i :: NumberFromDraw(draws[j]) in accounts
      decreases |draws| - i
    {
      if i + 1 == |draws| {
        return None;
      }
      i := i + 1;
      n := NumberFromDraw(draws[i]);
    }
    r := Some(n);
  }

  // ---------------------------------------------------------------------
  // Registration
  // ---------------------------------------------------------------------

  /** `registerAccount`: a taken email fails before anything is written;
      otherwise a fresh number is generated, the account is saved with
      balance 0, and one INITIAL_DEPOSIT record of 0 is written. A clash on
      that record's id rolls the whole registration back. */
  method RegisterAccount(db: Ledger, accountHolder: string, email: string, password: string,
                         draws: seq<real>, stamp: string, now: DateTime)
    returns (r: Result<Account, Failure>)
    requires db.Valid()
    requires forall i | 0 <= i < |draws| :: 0.0 <= draws[i] < 1.0
    modifies db
    ensures db.Valid()
    ensures NonNegative(old(db.accounts)) ==> NonNegative(db.accounts)
    ensures EmailExists(old(db.accounts), email) ==> r == Err(EmailTaken)
    ensures r.Err? ==> db.accounts == old(db.accounts) && db.records == old(db.records)
    ensures r.Ok? <==> && !EmailExists(old(db.accounts), email)
                       && (exists i | 0 <= i < |draws| :: NumberFromDraw(draws[i]) !in old(db.accounts))
                       && !IdTaken(old(db.records), "TXN" + stamp)
    ensures r.Ok? ==> var a := r.value;
                      && 100000 <= a.accountNumber <= 999999
                      && a.accountNumber !in old(db.accounts)
                      && a == Account(a.accountNumber, accountHolder, 0.0, email, password, now)
                      && db.accounts == old(db.accounts)[a.accountNumber := a]
                      && |db.records| == |old(db.records)| + 1
                      && db.records[..|old(db.records)|] == old(db.records)
                      && var t := db.records[|old(db.records)|];
                         && t.accountNumber == a.accountNumber && t.transactionType == INITIAL_DEPOSIT
                         && t.amount == 0.0 && t.toAccount == None && t.description == Some("Account opening")
                         && t.fee == Some(0.0) && t.transactionId == "TXN" + stamp
  {
    if EmailExists(db.accounts, email) {
      return Err(EmailTaken);
    }
    var number := GenerateAccountNumber(db.accounts, draws);
    if number.None? {
      return Err(AccountNumbersExhausted);
    }
    var accounts0, records0 := db.accounts, db.records;
    var account := Account(number.value, accountHolder, 0.0, email, password, now);
    db.SaveAccount(account);
    var recorded := RecordTransaction(db, number.value, INITIAL_DEPOSIT, 0.0, None, Some("Account opening"), stamp, now);
    if recorded.Err? {
      db.Restore(accounts0, records0);
      return Err(recorded.error);
    }
    assert db.records[..|records0|] == records0;
    r := Ok(account);
  }

  // ---------------------------------------------------------------------
  // Deposit and withdrawal
  // ---------------------------------------------------------------------

  /** The first check a deposit fails, in the order the source makes them. */
  function DepositRejection(accounts: map<int, Account>, accountNumber: int, amount: real): Option<Failure>
  {
    if accountNumber !in accounts then Some(AccountNotFound)
    else if amount <= 0.0 then Some(NonPositiveAmount)
    else if amount > MAX_DEPOSIT then Some(DepositLimitExceeded)
    else None
  }

  /** A deposit is accepted exactly for an existing account and an amount in
      (0, 100000]. */
  lemma DepositAcceptance(accounts: map<int, Account>, accountNumber: int, amount: real)
    ensures DepositRejection(accounts, accountNumber, amount).None? <==>
              accountNumber in accounts && 0.0 < amount <= 100000.0
  {
  }

  /** `deposit`: a rejected request changes nothing; an accepted one adds the
      amount to the balance and appends exactly one DEPOSIT record of
      +amount with fee 0. */
  method Deposit(db: Ledger, accountNumber: int, amount: real, stamp: string, now: DateTime)
    returns (r: Result<Account, Failure>)
    requires db.Valid()
    modifies db
    ensures db.Valid()
    ensures NonNegative(old(db.accounts)) ==> NonNegative(db.accounts)
    ensures r.Err? ==> db.accounts == old(db.accounts) && db.records == old(db.records)
    ensures var rejection := DepositRejection(old(db.accounts), accountNumber, amount);
            && (rejection.Some? ==> r == Err(rejection.value))
            && (r.Ok? <==> rejection.None? && !IdTaken(old(db.records), "DPT" + stamp))
    ensures r.Ok? ==> && r.value == old(db.accounts)[accountNumber].(balance := old(db.accounts)[accountNumber].balance + amount)
                      && db.accounts == old(db.accounts)[accountNumber := r.value]
                      && |db.records| == |old(db.records)| + 1
                      && db.records[..|old(db.records)|] == old(db.records)
                      && var t := db.records[|old(db.records)|];
                         && t.accountNumber == accountNumber && t.transactionType == DEPOSIT
                         && t.amount == amount && t.fee == Some(0.0) && t.toAccount == None
                         && t.description == Some("Deposit to account") && t.transactionId == "DPT" + stamp
  {
    if accountNumber !in db.accounts {
      return Err(AccountNotFound);
    }
    var account := db.accounts[accountNumber];
    if amount <= 0.0 {
      return Err(NonPositiveAmount);
    }
    if amount > MAX_DEPOSIT {
      return Err(DepositLimitExceeded);
    }
    var accounts0, records0 := db.accounts, db.records;
    var oldBalance := account.balance;
    account := account.(balance := oldBalance + amount);
    db.SaveAccount(account);
    var recorded := RecordTransaction(db, accountNumber, DEPOSIT, amount, None, Some("Deposit to account"), stamp, now);
    if recorded.Err? {
      db.Restore(accounts0, records0);
      return Err(recorded.error);
    }
    assert db.records[..|records0|] == records0;
    r := Ok(account);
  }

  /** The first check a withdrawal fails, in the order the source makes them. */
  function WithdrawRejection(accounts: map<int, Account>, accountNumber: int, amount: real): Option<Failure>
  {
    if accountNumber !in accounts then Some(AccountNotFound)
    else if amount <= 0.0 then Some(NonPositiveAmount)
    else if amount > MAX_WITHDRAWAL then Some(WithdrawalLimitExceeded)
    else if amount > accounts[accountNumber].balance then Some(InsufficientFunds(accounts[accountNumber].balance, amount))
    else None
  }

  /** An accepted withdrawal never takes a balance below zero, and more than
      the balance is always refused as insufficient funds, even below the
      cap. */
  lemma WithdrawAcceptance(accounts: map<int, Account>, accountNumber: int, amount: real)
    ensures WithdrawRejection(accounts, accountNumber, amount).None? <==>
              accountNumber in accounts && 0.0 < amount <= 50000.0 && amount <= accounts[accountNumber].balance
    ensures WithdrawRejection(accounts, accountNumber, amount).None? ==>
              accounts[accountNumber].balance - amount >= 0.0
    ensures accountNumber in accounts && 0.0 < amount <= 50000.0 && amount > accounts[accountNumber].balance ==>
              WithdrawRejection(accounts, accountNumber, amount) == Some(InsufficientFunds(accounts[accountNumber].balance, amount))
  {
  }

  /** `withdraw`: a rejected request changes nothing; an accepted one takes
      the amount off (the balance stays non-negative) and appends exactly
      one WITHDRAWAL record of -amount. */
  method Withdraw(db: Ledger, accountNumber: int, amount: real, stamp: string, now: DateTime)
    returns (r: Result<Account, Failure>)
    requires db.Valid()
    modifies db
    ensures db.Valid()
    ensures NonNegative(old(db.accounts)) ==> NonNegative(db.accounts)
    ensures r.Err? ==> db.accounts == old(db.accounts) && db.records == old(db.records)
    ensures var rejection := WithdrawRejection(old(db.accounts), accountNumber, amount);
            && (rejection.Some? ==> r == Err(rejection.value))
            && (r.Ok? <==> rejection.None? && !IdTaken(old(db.records), "WDR" + stamp))
    ensures r.Ok? ==> && r.value == old(db.accounts)[accountNumber].(balance := old(db.accounts)[accountNumber].balance - amount)
                      && r.value.balance >= 0.0
                      && db.accounts == old(db.accounts)[accountNumber := r.value]
                      && |db.records| == |old(db.records)| + 1
                      && db.records[..|old(db.records)|] == old(db.records)
                      && var t := db.records[|old(db.records)|];
                         && t.accountNumber == accountNumber && t.transactionType == WITHDRAWAL
                         && t.amount == -amount && t.fee == Some(0.0) && t.toAccount == None
                         && t.description == Some("Withdrawal from account") && t.transactionId == "WDR" + stamp
  {
    if accountNumber !in db.accounts {
      return Err(AccountNotFound);
    }
    var account := db.accounts[accountNumber];
    if amount <= 0.0 {
      return Err(NonPositiveAmount);
    }
    if amount > MAX_WITHDRAWAL {
      return Err(WithdrawalLimitExceeded);
    }
    if amount > account.balance {
      return Err(InsufficientFunds(account.balance, amount));
    }
    var accounts0, records0 := db.accounts, db.records;
    var oldBalance := account.balance;
    account := account.(balance := oldBalance - amount);
    db.SaveAccount(account);
    var recorded := RecordTransaction(db, accountNumber, WITHDRAWAL, -amount, None, Some("Withdrawal from account"), stamp, now);
    if recorded.Err? {
      db.Restore(accounts0, records0);
      return Err(recorded.error);
    }
    assert db.records[..|records0|] == records0;
    r := Ok(account);
  }

  // ---------------------------------------------------------------------
  // Transfer
  // ---------------------------------------------------------------------

  /** The fee schedule: 10 for an amount over 1000, else nothing. */
  function TransferFee(amount: real): (fee: real)
    ensures amount > FEE_THRESHOLD ==> fee == TRANSFER_FEE
    ensures amount <= FEE_THRESHOLD ==> fee == 0.0
  {
    if amount > FEE_THRESHOLD then TRANSFER_FEE else 0.0
  }

  /** What the sender pays: the amount plus the fee. */
  function TotalDebit(amount: real): real
  {
    amount + TransferFee(amount)
  }

  /** The fee is never negative and never more than 1% of an amount that
      incurs it, so the sender always pays at least what the recipient
      receives, and at most 1% more. */
  lemma FeeBounds(amount: real)
    requires amount > 0.0
    ensures 0.0 <= TransferFee(amount) <= TRANSFER_FEE
    ensures amount <= TotalDebit(amount) <= amount * 1.01
  {
  }

  datatype TransferResult = TransferResult(
    fromAccount: Account,
    toAccount: Account,
    fee: real,
    totalDebit: real,
    transactionId: string,
    description: Option<string>)

  /** The first check the service's transfer fails: both accounts are looked
      up before any amount check. */
  function TransferRejection(accounts: map<int, Account>, from: int, to: int, amount: real): Option<Failure>
  {
    if from !in accounts then Some(FromAccountNotFound)
    else if to !in accounts then Some(ToAccountNotFound)
    else if amount <= 0.0 then Some(NonPositiveAmount)
    else if amount > MAX_TRANSFER then Some(TransferLimitExceeded)
    else if from == to then Some(SelfTransfer)
    else if accounts[from].balance < TotalDebit(amount) then Some(InsufficientFunds(accounts[from].balance, TotalDebit(amount)))
    else None
  }

  /** Applying an accepted transfer to the account map. */
  function ApplyTransfer(accounts: map<int, Account>, from: int, to: int, amount: real): map<int, Account>
    requires from in accounts && to in accounts
  {
    accounts[from := accounts[from].(balance := accounts[from].balance - TotalDebit(amount))]
            [to := accounts[to].(balance := accounts[to].balance + amount)]
  }

  /** An accepted transfer debits the sender by amount + fee and credits the
      recipient by amount, so the pair's total drops by exactly the fee;
      every other account is untouched and no balance goes negative. */
  lemma TransferConservation(accounts: map<int, Account>, from: int, to: int, amount: real)
    requires TransferRejection(accounts, from, to, amount).None?
    ensures from in accounts && to in accounts && from != to
    ensures var after := ApplyTransfer(accounts, from, to, amount);
            && after.Keys == accounts.Keys
            && after[from].balance == accounts[from].balance - amount - TransferFee(amount)
            && after[to].balance == accounts[to].balance + amount
            && after[from].balance + after[to].balance == accounts[from].balance + accounts[to].balance - TransferFee(amount)
            && after[from].balance >= 0.0
            && (forall n | n in accounts && n != from && n != to :: after[n] == accounts[n])
            && (NonNegative(accounts) ==> NonNegative(after))
  {
  }

  /** A self-transfer is always refused, whatever the amount and balance. */
  lemma SelfTransferRefused(accounts: map<int, Account>, n: int, amount: real)
    ensures TransferRejection(accounts, n, n, amount).Some?
  {
  }

  /** `transfer(from, to, amount, description)`: a rejected request changes
      nothing; an accepted one updates and saves both balances and returns
      the fee, the total debited and a TRF id. It writes no transaction
      records: in the source they are left to the caller. */
  method Transfer(db: Ledger, from: int, to: int, amount: real, description: Option<string>, stamp: string)
    returns (r: Result<TransferResult, Failure>)
    requires db.Valid()
    modifies db
    ensures db.Valid() && db.records == old(db.records)
    ensures NonNegative(old(db.accounts)) ==> NonNegative(db.accounts)
    ensures var rejection := TransferRejection(old(db.accounts), from, to, amount);
            && (rejection.Some? ==> r == Err(rejection.value) && db.accounts == old(db.accounts))
            && (r.Ok? <==> rejection.None?)
    ensures r.Ok? ==> && db.accounts == ApplyTransfer(old(db.accounts), from, to, amount)
                      && r.value.fromAccount == db.accounts[from]
                      && r.value.toAccount == db.accounts[to]
                      && r.value.fee == TransferFee(amount)
                      && r.value.totalDebit == amount + r.value.fee
                      && r.value.transactionId == "TRF" + stamp
                      && r.value.description == description
  {
    if from !in db.accounts {
      return Err(FromAccountNotFound);
    }
    var fromAccount := db.accounts[from];
    if to !in db.accounts {
      return Err(ToAccountNotFound);
    }
    var toAccount := db.accounts[to];
    if amount <= 0.0 {
      return Err(NonPositiveAmount);
    }
    if amount > MAX_TRANSFER {
      return Err(TransferLimitExceeded);
    }
    if from == to {
      return Err(SelfTransfer);
    }
    var fee := TransferFee(amount);
    var totalDebit := amount + fee;
    if fromAccount.balance < totalDebit {
      return Err(InsufficientFunds(fromAccount.balance, totalDebit));
    }
    fromAccount := fromAccount.(balance := fromAccount.balance - totalDebit);
    toAccount := toAccount.(balance := toAccount.balance + amount);
    db.SaveAccount(fromAccount);
    db.SaveAccount(toAccount);
    var transactionId := "TRF" + stamp;
    r := Ok(TransferResult(fromAccount, toAccount, fee, totalDebit, transactionId, description));
  }

  /** `transfer(from, to, amount)`: the overload without a description,
      which delegates with a null description and discards the result. */
  method TransferWithoutDescription(db: Ledger, from: int, to: int, amount: real, stamp: string)
    returns (r: Result<(), Failure>)
    requires db.Valid()
    modifies db
    ensures db.Valid() && db.records == old(db.records)
    ensures var rejection := TransferRejection(old(db.accounts), from, to, amount);
            && (rejection.Some? ==> r == Err(rejection.value) && db.accounts == old(db.accounts))
            && (rejection.None? ==> r == Ok(()) && db.accounts == ApplyTransfer(old(db.accounts), from, to, amount))
  {
    var result := Transfer(db, from, to, amount, None, stamp);
    r := if result.Ok? then Ok(()) else Err(result.error);
  }

  // ---------------------------------------------------------------------
  // Direct updates
  // ---------------------------------------------------------------------

  /** `updateAccount`: saves the given account as it is. */
  method UpdateAccount(db: Ledger, account: Account) returns (saved: Account)
    requires db.Valid() && EmailFree(db.accounts, account)
    modifies db
    ensures db.Valid() && saved == account
    ensures db.accounts == old(db.accounts)[account.accountNumber := account] && db.records == old(db.records)
  {
    db.SaveAccount(account);
    saved := account;
  }

  /** `updateBalance`: sets the balance to exactly the given value, changes
      no other field or account and records no transaction. It is the one
      operation that can make a balance negative. */
  method UpdateBalance(db: Ledger, accountNumber: int, newBalance: real) returns (r: Result<(), Failure>)
    requires db.Valid()
    modifies db
    ensures db.Valid() && db.records == old(db.records)
    ensures accountNumber !in old(db.accounts) ==> r == Err(AccountNotFound) && db.accounts == old(db.accounts)
    ensures accountNumber in old(db.accounts) ==>
              && r == Ok(())
              && db.accounts == old(db.accounts)[accountNumber := old(db.accounts)[accountNumber].(balance := newBalance)]
  {
    if accountNumber !in db.accounts {
      return Err(AccountNotFound);
    }
    var account := db.accounts[accountNumber];
    account := account.(balance := newBalance);
    db.SaveAccount(account);
    r := Ok(());
  }
}
