/** TransactionService.java: business ids, recording of records, and the
    per-range summary. */
module TransactionService {
  import opened Wrappers
  import opened Transactions
  import opened Store

  /** The id prefix `recordTransaction` chooses from the type. */
  function IdPrefix(transactionType: string): (p: string)
    ensures p in {"DPT", "WDR", "TRF", "TXN"} && |p| == 3
    ensures p == "DPT" <==> transactionType == DEPOSIT
    ensures p == "WDR" <==> transactionType == WITHDRAWAL
    ensures p == "TRF" <==> transactionType == TRANSFER_DEBIT || transactionType == TRANSFER_CREDIT
  {
    if transactionType == DEPOSIT then "DPT"
    else if transactionType == WITHDRAWAL then "WDR"
    else if transactionType == TRANSFER_DEBIT || transactionType == TRANSFER_CREDIT then "TRF"
    else "TXN"
  }

  /** `generateTransactionId`: the prefix followed by the clock-and-random
      part, which the caller supplies as `stamp`. */
  function GenerateTransactionId(prefix: string, stamp: string): (id: string)
    ensures |id| == |prefix| + |stamp|
    ensures id[..|prefix|] == prefix && id[|prefix|..] == stamp
  {
    prefix + stamp
  }

  /** Ids generated for types with different prefixes never clash, whatever
      the clock and random parts: a deposit id is never a withdrawal id. */
  lemma PrefixesSeparateIds(type1: string, type2: string, stamp1: string, stamp2: string)
    requires IdPrefix(type1) != IdPrefix(type2)
    ensures GenerateTransactionId(IdPrefix(type1), stamp1) != GenerateTransactionId(IdPrefix(type2), stamp2)
  {
  }

  /** `recordTransaction`: builds a record with the six-argument constructor
      under a generated id and inserts it. On success exactly one record is
      appended, carrying the given fields, fee 0.0 and an id that starts with
      the type's prefix; a clash on the id appends nothing. */
  method RecordTransaction(db: Ledger, accountNumber: int, transactionType: string, amount: real,
                           toAccount: Option<string>, description: Option<string>,
                           stamp: string, now: DateTime)
    returns (r: Result<Transaction, Failure>)
    requires db.Valid()
    modifies db
    ensures db.Valid() && db.accounts == old(db.accounts)
    ensures r.Err? <==> IdTaken(old(db.records), IdPrefix(transactionType) + stamp)
    ensures r.Err? ==> r == Err(DuplicateTransactionId(IdPrefix(transactionType) + stamp)) && db.records == old(db.records)
    ensures r.Ok? ==> db.records == old(db.records) + [r.value]
    ensures r.Ok? ==> && r.value.accountNumber == accountNumber
                      && r.value.transactionType == transactionType
                      && r.value.amount == amount
                      && r.value.toAccount == toAccount
                      && r.value.description == description
                      && r.value.fee == Some(0.0)
                      && r.value.transactionDate == Some(now)
                      && r.value.id == Some(|old(db.records)| + 1)
                      && r.value.transactionId == IdPrefix(transactionType) + stamp
                      && IdPrefix(transactionType) <= r.value.transactionId
  {
    var transactionId := GenerateTransactionId(IdPrefix(transactionType), stamp);
    var t := NewTransaction(accountNumber, transactionType, amount, toAccount, description, transactionId, now);
    r := db.SaveTransaction(t, now);
  }

  /** `recordTransactionWithFee`: builds a record field by field with the
      caller's id used verbatim, a null description stored as "" and a null
      fee as 0.0, and inserts it. */
  method RecordTransactionWithFee(db: Ledger, accountNumber: int, transactionType: string, amount: real,
                                  toAccount: Option<string>, description: Option<string>,
                                  fee: Option<real>, transactionId: string, now: DateTime)
    returns (r: Result<Transaction, Failure>)
    requires db.Valid()
    modifies db
    ensures db.Valid() && db.accounts == old(db.accounts)
    ensures r.Err? <==> IdTaken(old(db.records), transactionId)
    ensures r.Err? ==> r == Err(DuplicateTransactionId(transactionId)) && db.records == old(db.records)
    ensures r.Ok? ==> db.records == old(db.records) + [r.value]
    ensures r.Ok? ==> && r.value.accountNumber == accountNumber
                      && r.value.transactionType == transactionType
                      && r.value.amount == amount
                      && r.value.toAccount == toAccount
                      && r.value.description == Some(GetOr(description, ""))
                      && r.value.fee == Some(GetOr(fee, 0.0))
                      && r.value.transactionDate == Some(now)
                      && r.value.id == Some(|old(db.records)| + 1)
                      && r.value.transactionId == transactionId
  {
    var t := NewTransaction(accountNumber, transactionType, amount, toAccount, None, transactionId, now);
    t := t.(description := Some(if description.Some? then description.value else ""));
    t := t.(fee := Some(if fee.Some? then fee.value else 0.0));
    t := t.(transactionDate := Some(now));
    r := db.SaveTransaction(t, now);
  }

  // ---------------------------------------------------------------------
  // Summary over a date range
  // ---------------------------------------------------------------------

  datatype TransactionSummary = TransactionSummary(
    totalDeposits: real,
    totalWithdrawals: real,
    totalTransfers: real,
    totalTransfersOut: real,
    totalTransfersIn: real,
    totalFees: real,
    transactionCount: int)

  const EmptySummary := TransactionSummary(0.0, 0.0, 0.0, 0.0, 0.0, 0.0, 0)

  function Abs(x: real): real
  {
    if x < 0.0 then -x else x
  }

  /** One iteration of the summary loop. */
  function SummaryStep(s: TransactionSummary, t: Transaction): TransactionSummary
  {
    var fee := FeeOf(t);
    var a := t.amount;
    var s1 :=
      if t.transactionType == DEPOSIT then s.(totalDeposits := s.totalDeposits + a)
      else if t.transactionType == WITHDRAWAL then s.(totalWithdrawals := s.totalWithdrawals + Abs(a))
      else if IsTransferType(t.transactionType) then
        s.(totalTransfers := s.totalTransfers + (if a < 0.0 then Abs(a) else 0.0),
           totalTransfersOut := s.totalTransfersOut + (if a < 0.0 then Abs(a) else 0.0),
           totalTransfersIn := s.totalTransfersIn + (if a > 0.0 then a else 0.0))
      else s;
    s1.(totalFees := s1.totalFees + fee, transactionCount := s1.transactionCount + 1)
  }

  /** The summary of a list of records, folded from the first to the last. */
  function Summarize(txs: seq<Transaction>): TransactionSummary
  {
    if txs == [] then EmptySummary
    else SummaryStep(Summarize(txs[..|txs| - 1]), txs[|txs| - 1])
  }

  /** Field-wise sum of two summaries. */
  function Combine(a: TransactionSummary, b: TransactionSummary): TransactionSummary
  {
    TransactionSummary(
      a.totalDeposits + b.totalDeposits, a.totalWithdrawals + b.totalWithdrawals,
      a.totalTransfers + b.totalTransfers, a.totalTransfersOut + b.totalTransfersOut,
      a.totalTransfersIn + b.totalTransfersIn, a.totalFees + b.totalFees,
      a.transactionCount + b.transactionCount)
  }

  /** `getTransactionSummary`: queries the account's records in the range
      and folds them. Reading a null fee unboxes null and throws, which the
      `None` result stands for; otherwise the result is the fold. */
  method GetTransactionSummary(records: seq<Transaction>, accountNumber: int, start: DateTime, end: DateTime)
    returns (r: Option<TransactionSummary>)
    ensures var txs := FindInRange(records, accountNumber, start, end);
            && (r.None? <==> exists t | t in txs :: t.fee.None?)
            && (r.Some? ==> r.value == Summarize(txs) && r.value.transactionCount == |txs|)
  {
    var txs := FindInRange(records, accountNumber, start, end);
    var summary := EmptySummary;
    for i := 0 to |txs|
      invariant summary == Summarize(txs[..i])
      invariant summary.transactionCount == i
      invariant forall k | 0 <= k < i :: txs[k].fee.Some?
    {
      var t := txs[i];
      if t.fee.None? {
        return None;
      }
      assert txs[..i + 1][..i] == txs[..i];
      summary := SummaryStep(summary, t);
    }
    assert txs[..|txs|] == txs;
    r := Some(summary);
  }

  /** The count is the number of records folded. */
  lemma {:induction false} SummaryCount(txs: seq<Transaction>)
    ensures Summarize(txs).transactionCount == |txs|
  {
    if txs != [] {
      SummaryCount(txs[..|txs| - 1]);
    }
  }

  /** `totalTransfers` and `totalTransfersOut` are accumulated by the same
      rule, so they always agree. */
  lemma {:induction false} SummaryTransfersAreOutgoing(txs: seq<Transaction>)
    ensures Summarize(txs).totalTransfers == Summarize(txs).totalTransfersOut
  {
    if txs != [] {
      SummaryTransfersAreOutgoing(txs[..|txs| - 1]);
    }
  }

  /** The withdrawal and transfer totals add magnitudes, so they are never
      negative, whatever the signs of the stored amounts. */
  lemma {:induction false} SummaryTotalsNonNegative(txs: seq<Transaction>)
    ensures Summarize(txs).totalWithdrawals >= 0.0
    ensures Summarize(txs).totalTransfersOut >= 0.0
    ensures Summarize(txs).totalTransfersIn >= 0.0
  {
    if txs != [] {
      SummaryTotalsNonNegative(txs[..|txs| - 1]);
    }
  }

  /** Records of any other type (INITIAL_DEPOSIT, for one) contribute only
      to the count and the fees. */
  lemma {:induction false} SummaryOtherTypes(txs: seq<Transaction>)
    requires forall t | t in txs :: t.transactionType != DEPOSIT && t.transactionType != WITHDRAWAL
                                    && !IsTransferType(t.transactionType)
    ensures var s := Summarize(txs);
            s.totalDeposits == 0.0 && s.totalWithdrawals == 0.0 && s.totalTransfers == 0.0
            && s.totalTransfersOut == 0.0 && s.totalTransfersIn == 0.0 && s.transactionCount == |txs|
  {
    if txs != [] {
      assert txs[|txs| - 1] in txs;
      SummaryOtherTypes(txs[..|txs| - 1]);
    }
  }

  /** The fold is a sum: summarising a concatenation adds the summaries of
      its parts, so the totals do not depend on where a list is split. */
  lemma {:induction false} SummarizeAppend(a: seq<Transaction>, b: seq<Transaction>)
    ensures Summarize(a + b) == Combine(Summarize(a), Summarize(b))
  {
    if b == [] {
      assert a + b == a;
    } else {
      var b', last := b[..|b| - 1], b[|b| - 1];
      assert (a + b)[..|a + b| - 1] == a + b';
      assert (a + b)[|a + b| - 1] == last;
      SummarizeAppend(a, b');
      StepCombine(Summarize(a), Summarize(b'), last);
    }
  }

  /** One loop step commutes with adding a summary in front. */
  lemma StepCombine(s: TransactionSummary, u: TransactionSummary, t: Transaction)
    ensures SummaryStep(Combine(s, u), t) == Combine(s, SummaryStep(u, t))
  {
  }
}
