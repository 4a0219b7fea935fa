/** The report page's client-side figures: the year filter over the fetched
    records, the income and expense totals over the filtered records, and the
    available balance. */
module ExpenseReport {
  import opened Transactions

  /** The selector value that keeps every record. */
  const AllYears: string := "all"
  const IncomeTag: string := "income"
  const ExpenseTag: string := "expense"

  /** The filter's test: the text of the record's year is the selector.
      No year's text is "all", so the test never meets that selector. */
  predicate InYear(t: Transaction, year: string)
    ensures InYear(t, year) ==> year != AllYears
  {
    DateYearText(t.dateYear) == year
  }

  /** `Array.filter` with the year test: the records whose year text is
      `year`, in their original order. */
  function KeepYear(records: seq<Transaction>, year: string): (r: seq<Transaction>)
    ensures |r| <= |records|
    ensures forall t :: t in r <==> t in records && InYear(t, year)
  {
    if records == [] then []
    else if InYear(records[0], year) then [records[0]] + KeepYear(records[1..], year)
    else KeepYear(records[1..], year)
  }

  /** The filtered list: every record for "all", otherwise the records of
      the selected year. */
  function FilterByYear(records: seq<Transaction>, year: string): (r: seq<Transaction>)
    ensures year == AllYears ==> r == records
    ensures year != AllYears ==> forall t :: t in r <==> t in records && InYear(t, year)
  {
    if year == AllYears then records else KeepYear(records, year)
  }

  /** `a` is `b` with some elements dropped and the rest kept in order. */
  ghost predicate IsSubsequence(a: seq<Transaction>, b: seq<Transaction>)
    decreases |b|
  {
    if a == [] then true
    else if b == [] then false
    else (a[0] == b[0] && IsSubsequence(a[1..], b[1..])) || IsSubsequence(a, b[1..])
  }

  /** The year filter keeps the input order: its result is a subsequence. */
  lemma {:induction false} KeepYearIsSubsequence(records: seq<Transaction>, year: string)
    ensures IsSubsequence(KeepYear(records, year), records)
  {
    if records != [] {
      KeepYearIsSubsequence(records[1..], year);
      var rest := KeepYear(records[1..], year);
      if InYear(records[0], year) {
        assert ([records[0]] + rest)[1..] == rest;
      }
    }
  }

  /** Each record occurs in the year filter's result as often as in the
      input when it is of the selected year, and not at all otherwise. */
  lemma {:induction false} KeepYearCount(records: seq<Transaction>, year: string, t: Transaction)
    ensures multiset(KeepYear(records, year))[t] == if InYear(t, year) then multiset(records)[t] else 0
  {
    if records != [] {
      KeepYearCount(records[1..], year, t);
      assert records == [records[0]] + records[1..];
    }
  }

  /** For any selector but "all", the filtered list holds exactly the records
      of that year, each as often as in the input, in the input order. */
  lemma FilterByYearExact(records: seq<Transaction>, year: string)
    requires year != AllYears
    ensures IsSubsequence(FilterByYear(records, year), records)
    ensures forall t :: multiset(FilterByYear(records, year))[t]
                        == if InYear(t, year) then multiset(records)[t] else 0
  {
    KeepYearIsSubsequence(records, year);
    forall t ensures multiset(FilterByYear(records, year))[t]
                     == if InYear(t, year) then multiset(records)[t] else 0 {
      KeepYearCount(records, year, t);
    }
  }

  /** Selecting the text of a calendar year keeps exactly the records dated
      in that year, each as often as in the input, in the input order. */
  lemma FilterByCalendarYear(records: seq<Transaction>, y: int)
    ensures forall t :: t in FilterByYear(records, YearString(y)) <==> t in records && t.dateYear == Some(y)
    ensures IsSubsequence(FilterByYear(records, YearString(y)), records)
    ensures forall t :: multiset(FilterByYear(records, YearString(y)))[t]
                        == if t.dateYear == Some(y) then multiset(records)[t] else 0
  {
    assert YearString(y) != AllYears by {
      assert YearString(y)[0] != 'a';
    }
    FilterByYearExact(records, YearString(y));
    forall t ensures InYear(t, YearString(y)) <==> t.dateYear == Some(y) {
      DateYearTextMatches(t.dateYear, y);
    }
  }

  /** The year filter leaves a list it produced unchanged. */
  lemma {:induction false} KeepYearIdempotent(records: seq<Transaction>, year: string)
    ensures KeepYear(KeepYear(records, year), year) == KeepYear(records, year)
  {
    if records != [] {
      KeepYearIdempotent(records[1..], year);
    }
  }

  /** Applying the same year filter to its own result changes nothing. */
  lemma FilterByYearIdempotent(records: seq<Transaction>, year: string)
    ensures FilterByYear(FilterByYear(records, year), year) == FilterByYear(records, year)
  {
    if year != AllYears {
      KeepYearIdempotent(records, year);
    }
  }

  /** A selector that no record's year matches yields the empty list. */
  lemma {:induction false} UnmatchedSelectorEmpty(records: seq<Transaction>, year: string)
    requires year != AllYears
    requires forall t :: t in records ==> !InYear(t, year)
    ensures FilterByYear(records, year) == []
  {
    if records != [] {
      assert records[0] in records;
      UnmatchedSelectorEmpty(records[1..], year);
    }
  }

  /** `Array.filter` with the type test: the records tagged `kind`. */
  function KeepKind(records: seq<Transaction>, kind: string): (r: seq<Transaction>)
    ensures forall t :: t in r <==> t in records && t.kind == kind
  {
    if records == [] then []
    else if records[0].kind == kind then [records[0]] + KeepKind(records[1..], kind)
    else KeepKind(records[1..], kind)
  }

  /** `reduce((sum, i) => sum + i.amount, 0)`: a left fold from 0. It is 0
      for the empty list and never negative when no amount is. */
  function SumAmounts(records: seq<Transaction>): (r: int)
    ensures records == [] ==> r == 0
    ensures (forall t :: t in records ==> t.amount >= 0) ==> r >= 0
  {
    if records == [] then 0
    else SumAmounts(records[..|records| - 1]) + records[|records| - 1].amount
  }

  /** `totalIncome`: the records tagged "income", reduced to the sum of
      their amounts; it is the reference total of "income", 0 when empty. */
  function TotalIncome(records: seq<Transaction>): (r: int)
    ensures r == SumOfKind(records, IncomeTag)
    ensures records == [] ==> r == 0
  {
    FilterReduceIsSumOfKind(records, IncomeTag);
    SumAmounts(KeepKind(records, IncomeTag))
  }

  /** `totalExpense`: the records tagged "expense", reduced to the sum of
      their amounts; it is the reference total of "expense", 0 when empty. */
  function TotalExpense(records: seq<Transaction>): (r: int)
    ensures r == SumOfKind(records, ExpenseTag)
    ensures records == [] ==> r == 0
  {
    FilterReduceIsSumOfKind(records, ExpenseTag);
    SumAmounts(KeepKind(records, ExpenseTag))
  }

  /** Reference definition of a total: what one record contributes to the
      total of `kind`, summed from the right. */
  function Contribution(t: Transaction, kind: string): int {
    if t.kind == kind then t.amount else 0
  }

  function SumOfKind(records: seq<Transaction>, kind: string): int {
    if records == [] then 0 else Contribution(records[0], kind) + SumOfKind(records[1..], kind)
  }

  lemma {:induction false} SumAmountsAppend(a: seq<Transaction>, b: seq<Transaction>)
    ensures SumAmounts(a + b) == SumAmounts(a) + SumAmounts(b)
    decreases |b|
  {
    if b != [] {
      var ab := a + b;
      assert ab[..|ab| - 1] == a + b[..|b| - 1];
      SumAmountsAppend(a, b[..|b| - 1]);
    } else {
      assert a + b == a;
    }
  }

  /** Filtering by type then reducing gives the reference total. */
  lemma {:induction false} FilterReduceIsSumOfKind(records: seq<Transaction>, kind: string)
    ensures SumAmounts(KeepKind(records, kind)) == SumOfKind(records, kind)
  {
    if records != [] {
      FilterReduceIsSumOfKind(records[1..], kind);
      if records[0].kind == kind {
        SumAmountsAppend([records[0]], KeepKind(records[1..], kind));
        assert SumAmounts([records[0]]) == records[0].amount by {
          assert [records[0]][..0] == [];
        }
      }
    }
  }

  /** Totals of a concatenation are the sums of the parts' totals. */
  lemma {:induction false} SumOfKindAppend(a: seq<Transaction>, b: seq<Transaction>, kind: string)
    ensures SumOfKind(a + b, kind) == SumOfKind(a, kind) + SumOfKind(b, kind)
  {
    if a != [] {
      assert (a + b)[1..] == a[1..] + b;
      SumOfKindAppend(a[1..], b, kind);
    } else {
      assert a + b == b;
    }
  }

  /** A record tagged neither "income" nor "expense" changes neither total,
      wherever it stands in the list. */
  lemma UntaggedRecordIgnored(before: seq<Transaction>, t: Transaction, after: seq<Transaction>)
    requires t.kind != IncomeTag && t.kind != ExpenseTag
    ensures TotalIncome(before + [t] + after) == TotalIncome(before + after)
    ensures TotalExpense(before + [t] + after) == TotalExpense(before + after)
  {
    SumOfKindAppend(before + [t], after, IncomeTag);
    SumOfKindAppend(before, [t], IncomeTag);
    SumOfKindAppend(before, after, IncomeTag);
    SumOfKindAppend(before + [t], after, ExpenseTag);
    SumOfKindAppend(before, [t], ExpenseTag);
    SumOfKindAppend(before, after, ExpenseTag);
  }

  /** With non-negative amounts, a total is never negative. */
  lemma {:induction false} SumOfKindNonNegative(records: seq<Transaction>, kind: string)
    requires forall t :: t in records ==> t.amount >= 0
    ensures SumOfKind(records, kind) >= 0
  {
    if records != [] {
      assert records[0] in records;
      SumOfKindNonNegative(records[1..], kind);
    }
  }

  /** The three figures the report page shows. */
  datatype Summary = Summary(totalIncome: int, totalExpense: int, balance: int)

  /** The page's figures for the fetched `records` and the selector `year`. */
  function Summarize(records: seq<Transaction>, year: string): (s: Summary)
    ensures s.balance == s.totalIncome - s.totalExpense
    ensures s.totalIncome == SumOfKind(FilterByYear(records, year), IncomeTag)
    ensures s.totalExpense == SumOfKind(FilterByYear(records, year), ExpenseTag)
    ensures FilterByYear(records, year) == [] ==> s == Summary(0, 0, 0)
  {
    var filtered := FilterByYear(records, year);
    var totalIncome := TotalIncome(filtered);
    var totalExpense := TotalExpense(filtered);
    Summary(totalIncome, totalExpense, totalIncome - totalExpense)
  }

  /** A selector matching no record's year (an unlisted or malformed year)
      raises no error: every figure is zero. */
  lemma UnmatchedSelectorZero(records: seq<Transaction>, year: string)
    requires year != AllYears
    requires forall t :: t in records ==> !InYear(t, year)
    ensures Summarize(records, year) == Summary(0, 0, 0)
  {
    UnmatchedSelectorEmpty(records, year);
  }

  /** With non-negative amounts, both totals are non-negative. */
  lemma SummaryTotalsNonNegative(records: seq<Transaction>, year: string)
    requires forall t :: t in records ==> t.amount >= 0
    ensures Summarize(records, year).totalIncome >= 0
    ensures Summarize(records, year).totalExpense >= 0
  {
    var filtered := FilterByYear(records, year);
    SumOfKindNonNegative(filtered, IncomeTag);
    SumOfKindNonNegative(filtered, ExpenseTag);
  }
}

/** A worked example of the report page's figures and the savings case
    they lead to. */
module ExpenseReportExample {
  import opened Transactions
  import opened ExpenseReport
  import SavingsCard

  function Sample(): seq<Transaction> {
    [ Transaction("t1", "income", 100, "Salary", Some(2024)),
      Transaction("t2", "expense", 40, "Rent", Some(2024)),
      Transaction("t3", "income", 60, "Bonus", Some(2024)) ]
  }

  /** Every sample record is from 2024, so "all" and "2024" give the same
      figures, and "2023" gives zeros; the balance of 120 is growing. */
  lemma SampleFigures()
    ensures Summarize(Sample(), "all") == Summary(160, 40, 120)
    ensures Summarize(Sample(), "2024") == Summary(160, 40, 120)
    ensures Summarize(Sample(), "2023") == Summary(0, 0, 0)
    ensures SavingsCard.Classify(Summarize(Sample(), "all").balance) == SavingsCard.Growing
  {
    assert YearString(2024) == "2024" by {
      assert NatString(2) == "2";
      assert NatString(20) == "20";
      assert NatString(202) == "202";
    }
    assert FilterByYear(Sample(), "2024") == Sample();
    UnmatchedSelectorZero(Sample(), "2023");
  }
}
