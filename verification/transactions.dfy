/** The transaction record of Transaction.java: one row of the append-only
    transaction table. */
module Transactions {
  import opened Wrappers

  /** Seconds since the epoch; a `LocalDateTime` at one-second resolution. */
  type DateTime = int

  const INITIAL_DEPOSIT: string := "INITIAL_DEPOSIT"
  const DEPOSIT: string := "DEPOSIT"
  const WITHDRAWAL: string := "WITHDRAWAL"
  const TRANSFER_DEBIT: string := "TRANSFER_DEBIT"
  const TRANSFER_CREDIT: string := "TRANSFER_CREDIT"

  /** A record. The columns declared `nullable = false` (account number,
      type, amount, business id) are plain fields; the nullable ones are
      options. `id` is the store-assigned surrogate key. The type is the
      free string the source stores, not an enumeration: the statement view
      passes any filter string through to the query. */
  datatype Transaction = Transaction(
    id: Option<int>,
    accountNumber: int,
    transactionType: string,
    amount: real,
    toAccount: Option<string>,
    description: Option<string>,
    fee: Option<real>,
    transactionDate: Option<DateTime>,
    transactionId: string)

  /** The six-argument constructor: it stores exactly its arguments, stamps
      the date with the current time and leaves the fee at its field
      initialiser, 0.0. */
  function NewTransaction(accountNumber: int, transactionType: string, amount: real,
                          toAccount: Option<string>, description: Option<string>,
                          transactionId: string, now: DateTime): (r: Transaction)
    ensures r.id == None
    ensures && r.accountNumber == accountNumber && r.transactionType == transactionType
            && r.amount == amount && r.toAccount == toAccount && r.description == description
            && r.transactionId == transactionId
    ensures r.fee == Some(0.0) && r.transactionDate == Some(now)
  {
    Transaction(None, accountNumber, transactionType, amount, toAccount, description,
                Some(0.0), Some(now), transactionId)
  }

  /** The `@PrePersist` hook: sets the date only when it is still null. */
  function OnCreate(t: Transaction, now: DateTime): (r: Transaction)
    ensures r.transactionDate.Some?
    ensures t.transactionDate.Some? ==> r == t
    ensures t.transactionDate.None? ==> r.transactionDate == Some(now)
    ensures r == t.(transactionDate := r.transactionDate)
  {
    if t.transactionDate.None? then t.(transactionDate := Some(now)) else t
  }

  /** Applying the hook twice is the same as applying it once, whatever the
      clock says the second time. */
  lemma OnCreateIdempotent(t: Transaction, now1: DateTime, now2: DateTime)
    ensures OnCreate(OnCreate(t, now1), now2) == OnCreate(t, now1)
  {
  }

  /** A record built by the six-argument constructor is already dated, so
      the hook keeps the construction time however late the save is. */
  lemma ConstructedDateSurvivesHook(accountNumber: int, transactionType: string, amount: real,
                                    toAccount: Option<string>, description: Option<string>,
                                    transactionId: string, now: DateTime, later: DateTime)
    ensures var t := NewTransaction(accountNumber, transactionType, amount, toAccount, description,
                                    transactionId, now);
            OnCreate(t, later) == t && OnCreate(t, later).transactionDate == Some(now)
  {
  }

  /** The fee with null read as 0.0, as the statement view does. */
  function FeeOf(t: Transaction): real
  {
    GetOr(t.fee, 0.0)
  }

  /** The sort key of a stored record; every stored record has a date (the
      store's invariant), so the default is never used on stored data. */
  function DateOf(t: Transaction): DateTime
  {
    GetOr(t.transactionDate, 0)
  }

  /** `type.startsWith("TRANSFER_")`. */
  predicate IsTransferType(transactionType: string)
  {
    "TRANSFER_" <= transactionType
  }
}
