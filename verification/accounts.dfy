/** BankAccount.java: the account row as the store keeps it, and the entity
    object with its own guarded balance methods. */
module Accounts {
  import opened Wrappers
  import opened Transactions

  /** An account as persisted: the non-nullable columns of the `accounts`
      table, keyed by `accountNumber`. */
  datatype Account = Account(
    accountNumber: int,
    accountHolder: string,
    balance: real,
    email: string,
    password: string,
    createdAt: DateTime)

  /** What the entity's guarded methods throw. An arithmetic use of a null
      `Double` balance throws a NullPointerException when it is unboxed. */
  datatype Thrown = IllegalArgument(message: string) | NullPointer

  /** The entity object of BankAccount.java, whose methods update its fields
      in place. Every reference field may be null. */
  class BankAccount {
    var accountNumber: Option<int>
    var accountHolder: Option<string>
    var balance: Option<real>
    var email: Option<string>
    var password: Option<string>
    var createdAt: Option<DateTime>

    /** The no-argument constructor: only the creation time is set. */
    constructor (now: DateTime)
      ensures accountNumber == None && accountHolder == None && balance == None
      ensures email == None && password == None
      ensures createdAt == Some(now)
    {
      accountNumber, accountHolder, balance := None, None, None;
      email, password := None, None;
      createdAt := Some(now);
    }

    /** The five-argument constructor: stores its arguments and the time. */
    constructor Full(accountNumber: Option<int>, accountHolder: Option<string>, balance: Option<real>,
                     email: Option<string>, password: Option<string>, now: DateTime)
      ensures this.accountNumber == accountNumber && this.accountHolder == accountHolder
      ensures this.balance == balance && this.email == email && this.password == password
      ensures createdAt == Some(now)
    {
      this.accountNumber := accountNumber;
      this.accountHolder := accountHolder;
      this.balance := balance;
      this.email := email;
      this.password := password;
      createdAt := Some(now);
    }

    /** `setBalance`: the frame `this`balance` says no other field changes. */
    method SetBalance(b: Option<real>)
      modifies this`balance
      ensures balance == b
    {
      balance := b;
    }

    /** `deposit`: a positive amount is added; anything else throws before
        the balance is touched. */
    method Deposit(amount: real) returns (thrown: Option<Thrown>)
      modifies this`balance
      ensures amount <= 0.0 ==> thrown == Some(IllegalArgument("Deposit amount must be positive."))
      ensures amount > 0.0 && old(balance).None? ==> thrown == Some(NullPointer)
      ensures thrown.None? <==> amount > 0.0 && old(balance).Some?
      ensures thrown.None? ==> balance == Some(old(balance).value + amount)
      ensures thrown.Some? ==> balance == old(balance)
    {
      if amount > 0.0 {
        if balance.None? {
          return Some(NullPointer);
        }
        balance := Some(balance.value + amount);
        thrown := None;
      } else {
        thrown := Some(IllegalArgument("Deposit amount must be positive."));
      }
    }

    /** `withdraw`: a positive amount no larger than the balance is taken
        off, so a non-negative balance stays non-negative; otherwise it
        throws and the balance is unchanged. */
    method Withdraw(amount: real) returns (thrown: Option<Thrown>)
      modifies this`balance
      ensures amount <= 0.0 ==> thrown == Some(IllegalArgument("Withdrawal amount must be positive."))
      ensures amount > 0.0 && old(balance).None? ==> thrown == Some(NullPointer)
      ensures amount > 0.0 && old(balance).Some? && old(balance).value < amount ==>
                thrown == Some(IllegalArgument("Insufficient funds."))
      ensures thrown.None? <==> 0.0 < amount && old(balance).Some? && amount <= old(balance).value
      ensures thrown.None? ==> balance == Some(old(balance).value - amount) && balance.value >= 0.0
      ensures thrown.Some? ==> balance == old(balance)
    {
      if amount > 0.0 {
        if balance.None? {
          return Some(NullPointer);
        }
        if balance.value >= amount {
          balance := Some(balance.value - amount);
          thrown := None;
        } else {
          thrown := Some(IllegalArgument("Insufficient funds."));
        }
      } else {
        thrown := Some(IllegalArgument("Withdrawal amount must be positive."));
      }
    }

    /** The `@PrePersist` hook: fills a null creation time and a null balance
        and never overwrites a value that is set. Afterwards both are set, so
        a second call changes nothing: the hook is idempotent. */
    method OnCreate(now: DateTime)
      modifies this`createdAt, this`balance
      ensures createdAt == (if old(createdAt).None? then Some(now) else old(createdAt))
      ensures balance == (if old(balance).None? then Some(0.0) else old(balance))
      ensures createdAt.Some? && balance.Some?
      ensures old(createdAt).Some? && old(balance).Some? ==> createdAt == old(createdAt) && balance == old(balance)
    {
      if createdAt.None? {
        createdAt := Some(now);
      }
      if balance.None? {
        balance := Some(0.0);
      }
    }
  }

  /** Running the hook twice leaves the entity as running it once. */
  method OnCreateTwice(acct: BankAccount, now1: DateTime, now2: DateTime)
    modifies acct`createdAt, acct`balance
    ensures acct.accountNumber == old(acct.accountNumber) && acct.accountHolder == old(acct.accountHolder)
    ensures acct.email == old(acct.email) && acct.password == old(acct.password)
    ensures acct.createdAt == (if old(acct.createdAt).None? then Some(now1) else old(acct.createdAt))
    ensures acct.balance == (if old(acct.balance).None? then Some(0.0) else old(acct.balance))
  {
    acct.OnCreate(now1);
    acct.OnCreate(now2);
  }
}
