/** The ledger store: the account table keyed by account number and the
    append-only transaction table, with the range and type queries the core
    uses. The source reaches them through two Spring Data repositories, which
    are interfaces without logic; their behaviour is stated here directly. */
module Store {
  import opened Wrappers
  import opened Transactions
  import opened Accounts

  /** The reasons the core's operations fail with. */
  datatype Failure =
    | AccountNotFound
    | FromAccountNotFound
    | ToAccountNotFound
    | NonPositiveAmount
    | DepositLimitExceeded
    | WithdrawalLimitExceeded
    | TransferLimitExceeded
    | SelfTransfer
    | InsufficientFunds(available: real, required: real)
    | EmailTaken
    | DuplicateTransactionId(transactionId: string)
    | AccountNumbersExhausted

  /** Every account is stored under its own number. */
  predicate KeyedByNumber(accounts: map<int, Account>)
  {
    forall n | n in accounts :: accounts[n].accountNumber == n
  }

  /** The `unique = true` constraint on the email column. */
  predicate EmailsUnique(accounts: map<int, Account>)
  {
    forall m, n | m in accounts && n in accounts && m != n :: accounts[m].email != accounts[n].email
  }

  /** Saving `a` under its number would not clash with another account's email. */
  predicate EmailFree(accounts: map<int, Account>, a: Account)
  {
    forall n | n in accounts && n != a.accountNumber :: accounts[n].email != a.email
  }

  predicate EmailExists(accounts: map<int, Account>, email: string)
  {
    exists n | n in accounts :: accounts[n].email == email
  }

  /** No balance is negative. */
  predicate NonNegative(accounts: map<int, Account>)
  {
    forall n | n in accounts :: accounts[n].balance >= 0.0
  }

  /** The `unique = true` constraint on the business transaction id. */
  predicate IdsUnique(records: seq<Transaction>)
  {
    forall i, j | 0 <= i < j < |records| :: records[i].transactionId != records[j].transactionId
  }

  predicate IdTaken(records: seq<Transaction>, transactionId: string)
  {
    exists t | t in records :: t.transactionId == transactionId
  }

  /** Every stored record carries the surrogate key the store assigned
      (identity, counting from 1) and a date (set by the persist hook). */
  predicate RecordsPersisted(records: seq<Transaction>)
  {
    forall i | 0 <= i < |records| :: records[i].id == Some(i + 1) && records[i].transactionDate.Some?
  }

  predicate ValidState(accounts: map<int, Account>, records: seq<Transaction>)
  {
    KeyedByNumber(accounts) && EmailsUnique(accounts) && RecordsPersisted(records) && IdsUnique(records)
  }

  /** A record as the store keeps it after insertion. */
  function Persisted(records: seq<Transaction>, t: Transaction, now: DateTime): Transaction
  {
    OnCreate(t.(id := Some(|records| + 1)), now)
  }

  /** The database of record. Each operation of the core is one atomic
      method over it. */
  class Ledger {
    var accounts: map<int, Account>
    var records: seq<Transaction>

    ghost predicate Valid()
      reads this
    {
      ValidState(accounts, records)
    }

    constructor (accounts: map<int, Account>, records: seq<Transaction>)
      requires ValidState(accounts, records)
      ensures Valid() && this.accounts == accounts && this.records == records
    {
      this.accounts := accounts;
      this.records := records;
    }

    /** `save` of an account: an upsert under its number. The caller must not
        break the unique email column. */
    method SaveAccount(a: Account)
      requires Valid() && EmailFree(accounts, a)
      modifies this
      ensures Valid()
      ensures accounts == old(accounts)[a.accountNumber := a] && records == old(records)
    {
      accounts := accounts[a.accountNumber := a];
    }

    /** `save` of a new record: an insert. The unique constraint on the
        business id rejects a taken id and leaves the table unchanged;
        otherwise the record is appended with its surrogate key and its date
        default. */
    method SaveTransaction(t: Transaction, now: DateTime) returns (r: Result<Transaction, Failure>)
      requires Valid()
      modifies this
      ensures Valid() && accounts == old(accounts)
      ensures IdTaken(old(records), t.transactionId) ==>
                r == Err(DuplicateTransactionId(t.transactionId)) && records == old(records)
      ensures !IdTaken(old(records), t.transactionId) ==>
                r == Ok(Persisted(old(records), t, now)) && records == old(records) + [r.value]
    {
      if IdTaken(records, t.transactionId) {
        return Err(DuplicateTransactionId(t.transactionId));
      }
      var saved := Persisted(records, t, now);
      records := records + [saved];
      r := Ok(saved);
    }

    /** Rolls the whole store back to a state captured earlier in the same
        unit of work (the transactional scope of a `@Transactional` method). */
    method Restore(accounts: map<int, Account>, records: seq<Transaction>)
      requires ValidState(accounts, records)
      modifies this
      ensures Valid() && this.accounts == accounts && this.records == records
    {
      this.accounts := accounts;
      this.records := records;
    }
  }

  // ---------------------------------------------------------------------
  // Queries of the transaction table
  // ---------------------------------------------------------------------

  /** `transactionDate BETWEEN start AND end`: inclusive at both ends, and
      false for a null date. */
  predicate InRange(t: Transaction, start: DateTime, end: DateTime)
  {
    t.transactionDate.Some? && start <= t.transactionDate.value <= end
  }

  /** The `WHERE` clause: the account, the range and, when `types` is given,
      a type among them. */
  predicate Matches(t: Transaction, accountNumber: int, types: Option<set<string>>,
                                       start: DateTime, end: DateTime)
  {
    t.accountNumber == accountNumber && InRange(t, start, end)
    && (types.Some? ==> t.transactionType in types.value)
  }

  /** The matching records in table order. */
  function Select(rs: seq<Transaction>, accountNumber: int, types: Option<set<string>>,
                  start: DateTime, end: DateTime): seq<Transaction>
  {
    if rs == [] then []
    else
      var rest := Select(rs[1..], accountNumber, types, start, end);
      if Matches(rs[0], accountNumber, types, start, end) then [rs[0]] + rest else rest
  }

  lemma {:induction false} SelectMembers(rs: seq<Transaction>, accountNumber: int, types: Option<set<string>>,
                                         start: DateTime, end: DateTime, x: Transaction)
    ensures x in Select(rs, accountNumber, types, start, end) <==>
              x in rs && Matches(x, accountNumber, types, start, end)
  {
    if rs != [] {
      SelectMembers(rs[1..], accountNumber, types, start, end, x);
      assert rs == [rs[0]] + rs[1..];
    }
  }

  /** A query keeps every copy of a matching record and no copy of any
      other. */
  lemma {:induction false} SelectCount(rs: seq<Transaction>, accountNumber: int, types: Option<set<string>>,
                                       start: DateTime, end: DateTime, x: Transaction)
    ensures multiset(Select(rs, accountNumber, types, start, end))[x]
         == if Matches(x, accountNumber, types, start, end) then multiset(rs)[x] else 0
  {
    if rs != [] {
      SelectCount(rs[1..], accountNumber, types, start, end, x);
      assert rs == [rs[0]] + rs[1..];
    }
  }

  /** Querying one type and then another yields, counted with
      multiplicity, exactly the records of either type. */
  lemma {:induction false} SelectUnion(rs: seq<Transaction>, accountNumber: int, a: string, b: string,
                                       start: DateTime, end: DateTime)
    requires a != b
    ensures multiset(Select(rs, accountNumber, Some({a}), start, end) + Select(rs, accountNumber, Some({b}), start, end))
         == multiset(Select(rs, accountNumber, Some({a, b}), start, end))
  {
    var sa := Select(rs, accountNumber, Some({a}), start, end);
    var sb := Select(rs, accountNumber, Some({b}), start, end);
    var sab := Select(rs, accountNumber, Some({a, b}), start, end);
    forall x
      ensures multiset(sa + sb)[x] == multiset(sab)[x]
    {
      SelectCount(rs, accountNumber, Some({a}), start, end, x);
      SelectCount(rs, accountNumber, Some({b}), start, end, x);
      SelectCount(rs, accountNumber, Some({a, b}), start, end, x);
    }
    assert multiset(sa + sb) == multiset(sab);
  }

  /** Newest first. */
  predicate SortedDesc(s: seq<Transaction>)
  {
    forall i, j | 0 <= i < j < |s| :: DateOf(s[i]) >= DateOf(s[j])
  }

  /** Places `x` before the first element that is not newer than it. */
  function Insert(x: Transaction, s: seq<Transaction>): seq<Transaction>
  {
    if s == [] || DateOf(s[0]) <= DateOf(x) then [x] + s
    else [s[0]] + Insert(x, s[1..])
  }

  /** A stable sort, newest first (the `ORDER BY transactionDate DESC` of the
      queries, and the list sort of the statement view). */
  function SortDesc(s: seq<Transaction>): seq<Transaction>
  {
    if s == [] then [] else Insert(s[0], SortDesc(s[1..]))
  }

  /** Inserting keeps every element at or before a given time bound. */
  lemma {:induction false} InsertBounded(x: Transaction, s: seq<Transaction>, bound: DateTime)
    requires DateOf(x) <= bound
    requires forall k | 0 <= k < |s| :: DateOf(s[k]) <= bound
    ensures forall k | 0 <= k < |Insert(x, s)| :: DateOf(Insert(x, s)[k]) <= bound
  {
    if s != [] && DateOf(s[0]) > DateOf(x) {
      InsertBounded(x, s[1..], bound);
    }
  }

  lemma {:induction false} InsertSorted(x: Transaction, s: seq<Transaction>)
    requires SortedDesc(s)
    ensures SortedDesc(Insert(x, s))
  {
    if s != [] && DateOf(s[0]) > DateOf(x) {
      InsertSorted(x, s[1..]);
      InsertBounded(x, s[1..], DateOf(s[0]));
    }
  }

  lemma {:induction false} InsertPermutes(x: Transaction, s: seq<Transaction>)
    ensures multiset(Insert(x, s)) == multiset(s) + multiset{x}
    ensures |Insert(x, s)| == |s| + 1
  {
    if s != [] && DateOf(s[0]) > DateOf(x) {
      InsertPermutes(x, s[1..]);
      assert s == [s[0]] + s[1..];
    }
  }

  lemma {:induction false} SortDescSorted(s: seq<Transaction>)
    ensures SortedDesc(SortDesc(s))
    ensures multiset(SortDesc(s)) == multiset(s)
    ensures |SortDesc(s)| == |s|
  {
    if s != [] {
      SortDescSorted(s[1..]);
      InsertSorted(s[0], SortDesc(s[1..]));
      InsertPermutes(s[0], SortDesc(s[1..]));
      assert s == [s[0]] + s[1..];
    }
  }

  /** `findByAccountNumberAndTransactionDateBetweenOrderByTransactionDateDesc`. */
  function FindInRange(rs: seq<Transaction>, accountNumber: int, start: DateTime, end: DateTime): seq<Transaction>
  {
    SortDesc(Select(rs, accountNumber, None, start, end))
  }

  /** `findByAccountNumberAndTransactionTypeAndTransactionDateBetweenOrderByTransactionDateDesc`. */
  function FindByTypeInRange(rs: seq<Transaction>, accountNumber: int, transactionType: string,
                             start: DateTime, end: DateTime): seq<Transaction>
  {
    SortDesc(Select(rs, accountNumber, Some({transactionType}), start, end))
  }
}
