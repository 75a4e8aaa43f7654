/** StatementController.viewStatement: the date range, the type filter, the
    100-row cap, the display rows and the summary totals. */
module StatementController {
  import opened Wrappers
  import opened Transactions
  import opened Store
  import TransactionService

  /** A calendar day, counted from the epoch. */
  type Date = int

  const SECONDS_PER_DAY: int := 86400
  const DEFAULT_SPAN_DAYS: int := 30
  const MAX_ROWS: nat := 100

  datatype DateRange = DateRange(start: Date, end: Date)

  /** The dates the statement covers: the given end or today, the given
      start or today minus 30 days, and a start after the end replaced by
      the end minus 30 days. */
  function ResolveDates(startParam: Option<Date>, endParam: Option<Date>, today: Date): (r: DateRange)
    ensures r.start <= r.end
    ensures r.end == GetOr(endParam, today)
    ensures GetOr(startParam, today - DEFAULT_SPAN_DAYS) <= r.end ==> r.start == GetOr(startParam, today - DEFAULT_SPAN_DAYS)
    ensures GetOr(startParam, today - DEFAULT_SPAN_DAYS) > r.end ==> r.start == r.end - DEFAULT_SPAN_DAYS
  {
    var end := if endParam.Some? then endParam.value else today;
    var start := if startParam.Some? then startParam.value else today - DEFAULT_SPAN_DAYS;
    DateRange(if start > end then end - DEFAULT_SPAN_DAYS else start, end)
  }

  /** `atStartOfDay()`. */
  function StartOfDay(d: Date): DateTime
  {
    d * SECONDS_PER_DAY
  }

  /** `atTime(23, 59, 59)`. */
  function EndOfDay(d: Date): DateTime
  {
    d * SECONDS_PER_DAY + (SECONDS_PER_DAY - 1)
  }

  /** The day a timestamp falls on. */
  function DayOf(t: DateTime): Date
  {
    t / SECONDS_PER_DAY
  }

  /** From the first second of `start` to 23:59:59 of `end` is exactly the
      timestamps whose day lies in [start, end]: both ends are included. */
  lemma DayRangeInclusive(start: Date, end: Date, t: DateTime)
    ensures StartOfDay(start) <= t <= EndOfDay(end) <==> start <= DayOf(t) <= end
  {
    var q, r := t / SECONDS_PER_DAY, t % SECONDS_PER_DAY;
    assert t == q * SECONDS_PER_DAY + r && 0 <= r < SECONDS_PER_DAY;
    if start <= q {
      assert start * SECONDS_PER_DAY <= q * SECONDS_PER_DAY;
    } else {
      assert start * SECONDS_PER_DAY >= (q + 1) * SECONDS_PER_DAY;
    }
    if q <= end {
      assert q * SECONDS_PER_DAY <= end * SECONDS_PER_DAY;
    } else {
      assert q * SECONDS_PER_DAY >= (end + 1) * SECONDS_PER_DAY;
    }
  }

  /** The records the filter selects, newest first. TRANSFER is the debit
      query followed by the credit query, re-sorted. */
  function Fetch(records: seq<Transaction>, accountNumber: int, typeFilter: string,
                 start: DateTime, end: DateTime): seq<Transaction>
  {
    if typeFilter == "ALL" then FindInRange(records, accountNumber, start, end)
    else if typeFilter == "TRANSFER" then
      SortDesc(FindByTypeInRange(records, accountNumber, TRANSFER_DEBIT, start, end)
               + FindByTypeInRange(records, accountNumber, TRANSFER_CREDIT, start, end))
    else FindByTypeInRange(records, accountNumber, typeFilter, start, end)
  }

  /** The types a filter admits: none named for ALL, the two transfer types
      for TRANSFER, and the filter itself otherwise. */
  function FilterTypes(typeFilter: string): Option<set<string>>
  {
    if typeFilter == "ALL" then None
    else if typeFilter == "TRANSFER" then Some({TRANSFER_DEBIT, TRANSFER_CREDIT})
    else Some({typeFilter})
  }

  /** Whatever the filter, the fetched list is newest first and holds, with
      multiplicity, exactly the account's records in the range whose type the
      filter admits: ALL every one, TRANSFER the union of the debit and
      credit records, any other filter that type alone. */
  lemma {:induction false} FetchSpec(records: seq<Transaction>, accountNumber: int, typeFilter: string,
                                     start: DateTime, end: DateTime)
    ensures SortedDesc(Fetch(records, accountNumber, typeFilter, start, end))
    ensures multiset(Fetch(records, accountNumber, typeFilter, start, end))
         == multiset(Select(records, accountNumber, FilterTypes(typeFilter), start, end))
  {
    if typeFilter == "ALL" {
      SortDescSorted(Select(records, accountNumber, None, start, end));
    } else if typeFilter == "TRANSFER" {
      var debits := Select(records, accountNumber, Some({TRANSFER_DEBIT}), start, end);
      var credits := Select(records, accountNumber, Some({TRANSFER_CREDIT}), start, end);
      SortDescSorted(debits);
      SortDescSorted(credits);
      SortDescSorted(SortDesc(debits) + SortDesc(credits));
      SelectUnion(records, accountNumber, TRANSFER_DEBIT, TRANSFER_CREDIT, start, end);
    } else {
      SortDescSorted(Select(records, accountNumber, Some({typeFilter}), start, end));
    }
  }

  /** A record is fetched exactly when it is one of the account's records in
      the range and its type is admitted by the filter. */
  lemma FetchMembers(records: seq<Transaction>, accountNumber: int, typeFilter: string,
                     start: DateTime, end: DateTime, x: Transaction)
    ensures x in Fetch(records, accountNumber, typeFilter, start, end) <==>
              && x in records && x.accountNumber == accountNumber && InRange(x, start, end)
              && (typeFilter == "TRANSFER" ==> x.transactionType == TRANSFER_DEBIT || x.transactionType == TRANSFER_CREDIT)
              && (typeFilter != "ALL" && typeFilter != "TRANSFER" ==> x.transactionType == typeFilter)
  {
    FetchSpec(records, accountNumber, typeFilter, start, end);
    SelectMembers(records, accountNumber, FilterTypes(typeFilter), start, end, x);
    assert x in Fetch(records, accountNumber, typeFilter, start, end) <==>
           x in multiset(Select(records, accountNumber, FilterTypes(typeFilter), start, end));
  }

  /** `subList(0, 100)` when the list is longer than 100. */
  function Truncate(s: seq<Transaction>): (r: seq<Transaction>)
    ensures |r| <= MAX_ROWS
    ensures |s| <= MAX_ROWS ==> r == s
    ensures |s| > MAX_ROWS ==> |r| == MAX_ROWS
    ensures r == s[..|r|]
  {
    if |s| > MAX_ROWS then s[..MAX_ROWS] else s
  }

  /** The records the statement lists. */
  function Shown(records: seq<Transaction>, accountNumber: int, typeFilter: string, range: DateRange): seq<Transaction>
  {
    Truncate(Fetch(records, accountNumber, typeFilter, StartOfDay(range.start), EndOfDay(range.end)))
  }

  /** The listed records keep the fetched order and satisfy the filter. */
  lemma ShownSpec(records: seq<Transaction>, accountNumber: int, typeFilter: string, range: DateRange)
    ensures var shown := Shown(records, accountNumber, typeFilter, range);
            && |shown| <= MAX_ROWS
            && SortedDesc(shown)
            && forall t | t in shown ::
                 && t in records && t.accountNumber == accountNumber
                 && t.transactionDate.Some? && range.start <= DayOf(t.transactionDate.value) <= range.end
                 && (typeFilter == "TRANSFER" ==> t.transactionType == TRANSFER_DEBIT || t.transactionType == TRANSFER_CREDIT)
                 && (typeFilter != "ALL" && typeFilter != "TRANSFER" ==> t.transactionType == typeFilter)
  {
    var s, e := StartOfDay(range.start), EndOfDay(range.end);
    var fetched := Fetch(records, accountNumber, typeFilter, s, e);
    FetchSpec(records, accountNumber, typeFilter, s, e);
    forall t | t in Shown(records, accountNumber, typeFilter, range)
      ensures && t in records && t.accountNumber == accountNumber
              && t.transactionDate.Some? && range.start <= DayOf(t.transactionDate.value) <= range.end
              && (typeFilter == "TRANSFER" ==> t.transactionType == TRANSFER_DEBIT || t.transactionType == TRANSFER_CREDIT)
              && (typeFilter != "ALL" && typeFilter != "TRANSFER" ==> t.transactionType == typeFilter)
    {
      assert t in fetched;
      FetchMembers(records, accountNumber, typeFilter, s, e, t);
      DayRangeInclusive(range.start, range.end, t.transactionDate.value);
    }
  }

  // ---------------------------------------------------------------------
  // Rows and totals
  // ---------------------------------------------------------------------

  /** The type shown to the user: both transfer types read "TRANSFER". */
  function DisplayType(dbType: string): string
  {
    if IsTransferType(dbType) then "TRANSFER" else dbType
  }

  /** A record shows as TRANSFER exactly when its type starts with
      "TRANSFER_" or is "TRANSFER" itself; both transfer sides do. Any other
      type shows as stored, a shown type is never a stored transfer type,
      and showing is idempotent. */
  lemma DisplayTypes(dbType: string)
    ensures DisplayType(dbType) == "TRANSFER" <==> IsTransferType(dbType) || dbType == "TRANSFER"
    ensures DisplayType(TRANSFER_DEBIT) == "TRANSFER" && DisplayType(TRANSFER_CREDIT) == "TRANSFER"
    ensures DisplayType(dbType) != "TRANSFER" ==> DisplayType(dbType) == dbType
    ensures !IsTransferType(DisplayType(dbType))
    ensures DisplayType(DisplayType(dbType)) == DisplayType(dbType)
  {
    assert TRANSFER_DEBIT[..9] == "TRANSFER_";
    assert TRANSFER_CREDIT[..9] == "TRANSFER_";
    assert |"TRANSFER"| < |"TRANSFER_"|;
  }

  datatype StatementRow = StatementRow(
    displayType: string,
    amount: real,
    toAccount: Option<string>,
    description: Option<string>,
    fee: real,
    date: Option<DateTime>,
    transactionId: string)

  function RowOf(t: Transaction): StatementRow
  {
    StatementRow(DisplayType(t.transactionType), t.amount, t.toAccount, t.description, FeeOf(t),
                 t.transactionDate, t.transactionId)
  }

  datatype StatementSummary = StatementSummary(
    totalDeposits: real,
    totalWithdrawals: real,
    totalTransfers: real,
    totalFees: real,
    transactionCount: int)

  const ZeroSummary := StatementSummary(0.0, 0.0, 0.0, 0.0, 0)

  /** One iteration of the totals loop: the switch on the display type, then
      the fee with null read as 0. */
  function TotalsStep(s: StatementSummary, t: Transaction): StatementSummary
  {
    var shown := DisplayType(t.transactionType);
    var a := t.amount;
    var s1 :=
      if shown == DEPOSIT then s.(totalDeposits := s.totalDeposits + a)
      else if shown == WITHDRAWAL then s.(totalWithdrawals := s.totalWithdrawals + TransactionService.Abs(a))
      else if shown == "TRANSFER" then
        s.(totalTransfers := s.totalTransfers + (if a < 0.0 then TransactionService.Abs(a) else 0.0))
      else s;
    s1.(totalFees := s1.totalFees + FeeOf(t))
  }

  /** The four running totals over a list, folded from first to last; the
      count is not accumulated (it is the number of rows). */
  function Totals(txs: seq<Transaction>): StatementSummary
  {
    if txs == [] then ZeroSummary
    else TotalsStep(Totals(txs[..|txs| - 1]), txs[|txs| - 1])
  }

  datatype StatementView = StatementView(
    range: DateRange,
    rows: seq<StatementRow>,
    summary: StatementSummary,
    databaseError: bool)

  /** The query part of viewStatement: one repository query for ALL or for
      a single type; for TRANSFER the debit and credit queries appended to
      an empty list, which is then sorted newest first. */
  method FetchForFilter(records: seq<Transaction>, accountNumber: int, typeFilter: string,
                        startTime: DateTime, endTime: DateTime)
    returns (fetched: seq<Transaction>)
    ensures fetched == Fetch(records, accountNumber, typeFilter, startTime, endTime)
    ensures SortedDesc(fetched)
  {
    if typeFilter == "ALL" {
      fetched := FindInRange(records, accountNumber, startTime, endTime);
    } else if typeFilter == "TRANSFER" {
      var debitTransfers := FindByTypeInRange(records, accountNumber, TRANSFER_DEBIT, startTime, endTime);
      var creditTransfers := FindByTypeInRange(records, accountNumber, TRANSFER_CREDIT, startTime, endTime);
      fetched := [];
      fetched := fetched + debitTransfers;
      fetched := fetched + creditTransfers;
      assert fetched == debitTransfers + creditTransfers;
      fetched := SortDesc(fetched);
    } else {
      fetched := FindByTypeInRange(records, accountNumber, typeFilter, startTime, endTime);
    }
    FetchSpec(records, accountNumber, typeFilter, startTime, endTime);
  }

  /** The rows of a list of records, one per record, in order. */
  function Rows(txs: seq<Transaction>): (rows: seq<StatementRow>)
    ensures |rows| == |txs|
    ensures forall i | 0 <= i < |txs| :: rows[i] == RowOf(txs[i])
  {
    if txs == [] then [] else Rows(txs[..|txs| - 1]) + [RowOf(txs[|txs| - 1])]
  }

  /** The display loop of viewStatement: one row per listed record, in
      order, and the four running totals. */
  method BuildRows(shown: seq<Transaction>) returns (rows: seq<StatementRow>, totals: StatementSummary)
    ensures rows == Rows(shown)
    ensures totals == Totals(shown)
  {
    rows := [];
    totals := ZeroSummary;
    for i := 0 to |shown|
      invariant rows == Rows(shown[..i])
      invariant totals == Totals(shown[..i])
    {
      var tx := shown[i];
      rows := rows + [RowOf(tx)];
      RowsAndTotalsSnoc(shown, i);
      totals := TotalsStep(totals, tx);
    }
    assert shown[..|shown|] == shown;
  }

  /** One more record is one more row and one more step of the totals. */
  lemma RowsAndTotalsSnoc(txs: seq<Transaction>, i: nat)
    requires i < |txs|
    ensures Rows(txs[..i + 1]) == Rows(txs[..i]) + [RowOf(txs[i])]
    ensures Totals(txs[..i + 1]) == TotalsStep(Totals(txs[..i]), txs[i])
  {
    assert txs[..i + 1][..i] == txs[..i];
    assert Rows(txs[..i + 1]) == Rows(txs[..i]) + [RowOf(txs[i])];
  }

  /** viewStatement for the logged-in account. `today` is the clock;
      `storeFails` says that the store threw while the statement was being
      built, in which case no rows and zero totals are shown. */
  method ViewStatement(records: seq<Transaction>, accountNumber: int, startParam: Option<Date>,
                       endParam: Option<Date>, typeFilter: string, today: Date, storeFails: bool)
    returns (v: StatementView)
    ensures v.range == ResolveDates(startParam, endParam, today) && v.range.start <= v.range.end
    ensures v.databaseError == storeFails
    ensures storeFails ==> v.rows == [] && v.summary == ZeroSummary
    ensures !storeFails ==>
              var shown := Shown(records, accountNumber, typeFilter, v.range);
              && |v.rows| == |shown| <= MAX_ROWS
              && (forall i | 0 <= i < |shown| :: v.rows[i] == RowOf(shown[i]))
              && v.summary == Totals(shown).(transactionCount := |v.rows|)
  {
    var range := ResolveDates(startParam, endParam, today);
    if storeFails {
      return StatementView(range, [], ZeroSummary, true);
    }
    var fetched := FetchForFilter(records, accountNumber, typeFilter, StartOfDay(range.start), EndOfDay(range.end));
    if |fetched| > MAX_ROWS {
      fetched := fetched[..MAX_ROWS];
    }
    assert fetched == Shown(records, accountNumber, typeFilter, range);
    var rows, totals := BuildRows(fetched);
    v := StatementView(range, rows, totals.(transactionCount := |rows|), false);
  }

  // ---------------------------------------------------------------------
  // Properties of the totals
  // ---------------------------------------------------------------------

  /** Withdrawals and transfers add magnitudes, so those totals are never
      negative. */
  lemma {:induction false} TotalsNonNegative(txs: seq<Transaction>)
    ensures Totals(txs).totalWithdrawals >= 0.0 && Totals(txs).totalTransfers >= 0.0
  {
    if txs != [] {
      TotalsNonNegative(txs[..|txs| - 1]);
    }
  }

  /** A list of records of one type other than the transfer types moves
      only its own total: withdrawals and transfers stay 0 for a DEPOSIT
      list. */
  lemma {:induction false} DepositsOnlyTotals(txs: seq<Transaction>)
    requires forall t | t in txs :: t.transactionType == DEPOSIT
    ensures Totals(txs).totalWithdrawals == 0.0 && Totals(txs).totalTransfers == 0.0
  {
    if txs != [] {
      assert txs[|txs| - 1] in txs;
      assert forall t | t in txs[..|txs| - 1] :: t in txs;
      DepositsOnlyTotals(txs[..|txs| - 1]);
    }
  }

  /** A statement filtered by DEPOSIT shows no withdrawal or transfer total. */
  lemma DepositStatementTotals(records: seq<Transaction>, accountNumber: int, range: DateRange)
    ensures var s := Totals(Shown(records, accountNumber, DEPOSIT, range));
            s.totalWithdrawals == 0.0 && s.totalTransfers == 0.0
  {
    ShownSpec(records, accountNumber, DEPOSIT, range);
    DepositsOnlyTotals(Shown(records, accountNumber, DEPOSIT, range));
  }

  /** The statement's totals agree with the transaction service's summary
      over the same records, provided no fee is null (the service would
      throw) and no record has the bare type "TRANSFER" (which the statement
      counts as a transfer and the service does not). */
  lemma {:induction false} TotalsAgreeWithSummary(txs: seq<Transaction>)
    requires forall t | t in txs :: t.fee.Some? && t.transactionType != "TRANSFER"
    ensures var mine := Totals(txs);
            var theirs := TransactionService.Summarize(txs);
            && mine.totalDeposits == theirs.totalDeposits
            && mine.totalWithdrawals == theirs.totalWithdrawals
            && mine.totalTransfers == theirs.totalTransfers
            && mine.totalFees == theirs.totalFees
  {
    if txs != [] {
      var last := txs[|txs| - 1];
      assert last in txs;
      assert forall t | t in txs[..|txs| - 1] :: t in txs;
      TotalsAgreeWithSummary(txs[..|txs| - 1]);
      var ty := last.transactionType;
      assert "TRANSFER" != DEPOSIT && "TRANSFER" != WITHDRAWAL;
      assert DisplayType(ty) == DEPOSIT <==> ty == DEPOSIT;
      assert !IsTransferType(WITHDRAWAL) by { assert WITHDRAWAL[0] != 'T'; }
      assert DisplayType(ty) == WITHDRAWAL <==> ty == WITHDRAWAL;
      assert DisplayType(ty) == "TRANSFER" <==> IsTransferType(ty);
    }
  }
}
