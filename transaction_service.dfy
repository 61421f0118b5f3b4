/**
 * The Express back end's transaction service: what it does to a request before handing it
 * to the transaction model (category normalisation, absolute amounts, the default date),
 * the pagination and averages it computes from the model's replies, the top-five category
 * ranking, the twelve-month report and the duplication of a stored transaction.
 *
 * The database is not modelled: the rows and summaries the model reads back are inputs,
 * and so is the current time.
 */
module TransactionService {
  import opened Wrappers
  import opened Text
  import opened Collections
  import opened Ledger
  import opened TransactionModel

  // ---------------------------------------------------------------- categories

  /**
   * `normalizeCategory`: trimmed, the first character upper-cased and the rest lower-cased.
   * `charAt(0)` and `slice(1)` of an empty string are empty.
   */
  function NormalizeCategory(category: string): (r: string)
    ensures |r| == |Trim(category)|
  {
    var t := Trim(category);
    if t == [] then [] else [UpperChar(t[0])] + ToLower(t[1..])
  }

  /** The normalised category has no white space at either end. */
  lemma NormalizedIsTrimmed(category: string)
    ensures var r := NormalizeCategory(category);
      r == [] || (!IsSpace(r[0]) && !IsSpace(r[|r| - 1]))
  {
    var t := Trim(category);
    if t != [] {
      var r := NormalizeCategory(category);
      CaseKeepsSpace(t[0]);
      CaseKeepsSpace(t[|t| - 1]);
      assert r[|r| - 1] == if |t| == 1 then UpperChar(t[0]) else LowerChar(t[|t| - 1]);
    }
  }

  /** Normalising twice is normalising once. */
  lemma NormalizeIdempotent(category: string)
    ensures NormalizeCategory(NormalizeCategory(category)) == NormalizeCategory(category)
  {
    var t := Trim(category);
    var r := NormalizeCategory(category);
    NormalizedIsTrimmed(category);
    TrimOfTrimmed(r);
    if r != [] {
      NormalizeUntrimmed(r);
      CapitalizedStays(t);
    }
  }

  /** On text without surrounding white space, normalising only recases it. */
  lemma NormalizeUntrimmed(r: string)
    requires r != [] && Trim(r) == r
    ensures NormalizeCategory(r) == [UpperChar(r[0])] + ToLower(r[1..])
  {
  }

  /** Recasing a capitalised text the same way changes nothing. */
  lemma CapitalizedStays(t: string)
    requires t != []
    ensures var r := [UpperChar(t[0])] + ToLower(t[1..]);
      [UpperChar(r[0])] + ToLower(r[1..]) == r
  {
    var tail := ToLower(t[1..]);
    var r := [UpperChar(t[0])] + tail;
    assert r[0] == UpperChar(t[0]) && r[1..] == tail;
    CaseKeepsSpace(t[0]);
    assert ToLower(tail) == tail by {
      forall i | 0 <= i < |tail| ensures LowerChar(tail[i]) == tail[i] {
        CaseKeepsSpace(t[1..][i]);
      }
    }
  }

  /** The normalised category is empty exactly when the category is all white space. */
  lemma NormalizeEmpty(category: string)
    ensures NormalizeCategory(category) == [] <==> forall i :: 0 <= i < |category| ==> IsSpace(category[i])
  {
    TrimEmpty(category);
  }

  /** Categories that differ only in the case of their letters normalise alike. */
  lemma NormalizeIgnoresCase(category: string)
    ensures NormalizeCategory(Recase(category, true)) == NormalizeCategory(Recase(category, false))
  {
    TrimRecase(category, true);
    TrimRecase(category, false);
    CapitalizeRecased(Trim(category));
  }

  /** Capitalising the upper-cased or the lower-cased text gives the same result. */
  lemma CapitalizeRecased(t: string)
    ensures var u, l := Recase(t, true), Recase(t, false);
      t != [] ==> [UpperChar(u[0])] + ToLower(u[1..]) == [UpperChar(l[0])] + ToLower(l[1..])
  {
    if t != [] {
      var u, l := Recase(t, true), Recase(t, false);
      CaseFold(t[0]);
      forall i | 0 <= i < |t| - 1 ensures ToLower(u[1..])[i] == ToLower(l[1..])[i] {
        CaseFold(t[i + 1]);
      }
    }
  }

  lemma TrimRecase(s: string, upper: bool)
    ensures Trim(Recase(s, upper)) == Recase(Trim(s), upper)
  {
    TrimStartCase(s, upper);
    TrimEndCase(TrimStart(s), upper);
  }

  /** `toUpperCase` or `toLowerCase`. */
  function Recase(s: string, upper: bool): (r: string)
    ensures |r| == |s|
  {
    if upper then ToUpper(s) else ToLower(s)
  }

  lemma {:induction false} TrimStartCase(s: string, upper: bool)
    ensures TrimStart(Recase(s, upper)) == Recase(TrimStart(s), upper)
    decreases |s|
  {
    if s != [] {
      var r := Recase(s, upper);
      CaseKeepsSpace(s[0]);
      assert r[0] == (if upper then UpperChar(s[0]) else LowerChar(s[0]));
      if IsSpace(s[0]) {
        assert r[1..] == Recase(s[1..], upper);
        TrimStartCase(s[1..], upper);
        assert TrimStart(r) == TrimStart(r[1..]);
      } else {
        assert TrimStart(r) == r;
      }
    }
  }

  lemma {:induction false} TrimEndCase(s: string, upper: bool)
    ensures TrimEnd(Recase(s, upper)) == Recase(TrimEnd(s), upper)
    decreases |s|
  {
    if s != [] {
      CaseKeepsSpace(s[|s| - 1]);
      if IsSpace(s[|s| - 1]) {
        assert Recase(s, upper)[..|s| - 1] == Recase(s[..|s| - 1], upper);
        TrimEndCase(s[..|s| - 1], upper);
      }
    }
  }

  /** Upper- and lower-casing a character agree after a further case change. */
  lemma CaseFold(c: char)
    ensures UpperChar(UpperChar(c)) == UpperChar(LowerChar(c))
    ensures LowerChar(UpperChar(c)) == LowerChar(LowerChar(c))
  {
  }

  // ---------------------------------------------------------------- create and update

  /** `Math.abs`. */
  function Abs(x: real): (r: real)
    ensures r >= 0.0 && (r == x || r == -x)
  {
    if x < 0.0 then -x else x
  }

  /** Why a request is refused: `parse` throws on a value the schema rejects. */
  datatype ServiceError = Invalid | EmptyUpdate

  /**
   * `createTransaction` up to the model's `create`: the data is parsed, its category
   * normalised, its amount made absolute and a falsy date replaced by `now`; type and
   * description are kept.
   */
  method PrepareCreate(data: Fields, now: string) returns (r: Result<Fields, ServiceError>)
    ensures r.Err? <==> !CreateValid(data)
    ensures r.Err? ==> r.error == Invalid
    ensures r.Ok? ==> r.value == Fields(data.kind, Some(Abs(data.amount.value)),
      Some(NormalizeCategory(data.category.value)), data.description,
      if data.date.None? || data.date.value == "" then Some(now) else data.date)
  {
    if !CreateValid(data) {
      return Err(Invalid);
    }
    var validated := data;
    validated := validated.(category := Some(NormalizeCategory(validated.category.value)));
    validated := validated.(amount := Some(Abs(validated.amount.value)));
    if validated.date.None? || validated.date.value == "" {
      validated := validated.(date := Some(now));
    }
    r := Ok(validated);
  }

  /**
   * The values `createTransaction` inserts: the user, the type as given, the amount as given
   * (the schema already made it positive, so taking its absolute value changes nothing), the
   * normalised category, the description or NULL, and the given date, or `now` when none was given.
   */
  method CreateTransaction(userId: int, data: Fields, now: string) returns (r: Result<seq<Param>, ServiceError>)
    ensures r.Err? <==> !CreateValid(data)
    ensures r.Ok? ==> var p := r.value;
      && |p| == 8 && p[0] == IntParam(userId)
      && p[1] == TextParam(data.kind.value) && p[2] == RealParam(data.amount.value)
      && p[3] == TextParam(NormalizeCategory(data.category.value))
      && p[4] == (if data.description.Some? then TextParam(data.description.value) else NullParam)
      && p[5] == TextParam(if data.date.Some? then data.date.value else now)
      && p[6] == TextParam(now) && p[7] == TextParam(now)
  {
    var prepared := PrepareCreate(data, now);
    if prepared.Err? {
      return Err(prepared.error);
    }
    r := Ok(InsertParams(userId, prepared.value, now));
  }

  /**
   * Any non-empty category of white space only, with the other fields valid, passes the
   * schema's `min(1)` and is stored as the empty category, which the schema itself would
   * have refused.
   */
  lemma BlankCategoryStoredEmpty(data: Fields)
    requires data.kind.Some? && KindOk(data.kind.value) && data.amount.Some? && data.amount.value > 0.0
    requires data.date.Some? ==> IsDateTime(data.date.value)
    requires data.category.Some? && data.category.value != ""
    requires forall i :: 0 <= i < |data.category.value| ==> IsSpace(data.category.value[i])
    ensures CreateValid(data)
    ensures NormalizeCategory(data.category.value) == ""
    ensures !CreateValid(data.(category := Some("")))
  {
    NormalizeEmpty(data.category.value);
  }

  /**
   * `updateTransaction` up to the model's `update`: the data is parsed; a truthy category is
   * normalised and a defined amount made absolute; every other field is kept as given.
   */
  method PrepareUpdate(data: Fields) returns (r: Result<Fields, ServiceError>)
    ensures r.Err? <==> !UpdateValid(data)
    ensures r.Err? ==> r.error == Invalid
    ensures r.Ok? ==> r.value == data.(
      category := if data.category.Some? && data.category.value != "" then Some(NormalizeCategory(data.category.value)) else data.category,
      amount := if data.amount.Some? then Some(Abs(data.amount.value)) else None)
  {
    if !UpdateValid(data) {
      return Err(Invalid);
    }
    var validated := data;
    if validated.category.Some? && validated.category.value != "" {
      validated := validated.(category := Some(NormalizeCategory(validated.category.value)));
    }
    if validated.amount.Some? {
      validated := validated.(amount := Some(Abs(validated.amount.value)));
    }
    r := Ok(validated);
  }

  /**
   * `updateTransaction`'s statement: a request the schema rejects or that defines no field is
   * refused; otherwise exactly the columns the request defines are assigned, the amount as
   * given and the category normalised, then `updated_at`.
   */
  method UpdateTransaction(id: int, userId: int, data: Fields, now: string) returns (r: Result<Statement, ServiceError>)
    ensures r.Err? <==> !UpdateValid(data) || data == NoFields
    ensures r.Err? ==> r.error == if UpdateValid(data) then EmptyUpdate else Invalid
    ensures r.Ok? ==> var stored := data.(
        category := if data.category.Some? then Some(NormalizeCategory(data.category.value)) else None);
      && Aligned(r.value)
      && r.value.params == Defined(Entries(stored)) + [TextParam(now), IntParam(id), IntParam(userId)]
      && r.value.query == [UpdateSet] + JoinFields(Assignments(Entries(data)) + [Assign(UpdatedAtColumn)]) + [WhereIdAndUser]
  {
    var prepared := PrepareUpdate(data);
    if prepared.Err? {
      return Err(prepared.error);
    }
    SameColumns(data, prepared.value);
    var st := Update(id, userId, prepared.value, now);
    if st.Err? {
      return Err(EmptyUpdate);
    }
    r := Ok(st.value);
  }

  /** Preparing an update keeps which fields are defined, so it assigns the same columns. */
  lemma SameColumns(data: Fields, prepared: Fields)
    requires prepared.kind == data.kind && prepared.description == data.description && prepared.date == data.date
    requires prepared.amount.Some? == data.amount.Some? && prepared.category.Some? == data.category.Some?
    ensures Assignments(Entries(prepared)) == Assignments(Entries(data))
    ensures prepared == NoFields <==> data == NoFields
  {
    AssignmentsAlike(Entries(prepared), Entries(data));
  }

  /** Entries naming the same columns, defined at the same positions, assign the same columns. */
  lemma {:induction false} AssignmentsAlike(a: seq<(Column, Option<Param>)>, b: seq<(Column, Option<Param>)>)
    requires |a| == |b| && forall i :: 0 <= i < |a| ==> a[i].0 == b[i].0 && a[i].1.Some? == b[i].1.Some?
    ensures Assignments(a) == Assignments(b)
  {
    if a != [] {
      AssignmentsAlike(a[..|a| - 1], b[..|b| - 1]);
    }
  }

  // ---------------------------------------------------------------- listing

  datatype Pagination = Pagination(limit: int, offset: int, total: nat, hasMore: bool)

  datatype Listing = Listing(transactions: seq<Row>, pagination: Pagination)

  /**
   * `getTransactions`, given the rows `findByUserId` returned for the same filters: a falsy
   * limit reads as 50 and a falsy offset as 0; the total is the number of rows returned, and
   * there is more to fetch when exactly `limit` rows came back.
   */
  function GetTransactions(filters: Filters, rows: seq<Row>): (r: Listing)
    ensures r.transactions == rows && r.pagination.total == |rows|
    ensures r.pagination.limit == if GivenNumber(filters.limit) then filters.limit.value else 50
    ensures r.pagination.offset == if GivenNumber(filters.offset) then filters.offset.value else 0
    ensures r.pagination.hasMore <==> |rows| == r.pagination.limit
  {
    var limit := if GivenNumber(filters.limit) then filters.limit.value else 50;
    var offset := if GivenNumber(filters.offset) then filters.offset.value else 0;
    Listing(rows, Pagination(limit, offset, |rows|, |rows| == limit))
  }

  /**
   * With a truthy limit, the reported limit is the value bound to the query's `LIMIT`; when
   * the database returns no more rows than that, the total never exceeds the limit and
   * there is more exactly when the page is full.
   */
  lemma LimitedPage(userId: nat, filters: Filters, rows: seq<Row>)
    requires GivenNumber(filters.limit) && |rows| <= filters.limit.value
    ensures var p := GetTransactions(filters, rows).pagination;
      && PageParams(filters)[0] == IntParam(p.limit)
      && p.total <= p.limit
      && (p.hasMore <==> p.total == p.limit)
  {
  }

  /**
   * Without a truthy limit the query binds neither `LIMIT` nor `OFFSET`, yet the reply reports
   * a limit of 50 and the given offset: every row is returned, and with more than 50 rows the
   * total exceeds the reported limit while `hasMore` is false.
   */
  lemma DefaultLimitNotApplied(filters: Filters, rows: seq<Row>)
    requires !GivenNumber(filters.limit)
    ensures PageParams(filters) == []
    ensures var p := GetTransactions(filters, rows).pagination;
      && p.limit == 50 && p.total == |rows|
      && (|rows| > 50 ==> p.total > p.limit && !p.hasMore)
  {
  }

  // ---------------------------------------------------------------- financial summary

  /** `count > 0 ? total / count : 0`. */
  function Average(total: real, count: nat): (r: real)
    ensures count > 0 ==> r * count as real == total
    ensures count == 0 ==> r == 0.0
  {
    if count > 0 then total / count as real else 0.0
  }

  /** `sortAndLimit`: the entries by descending total (a stable sort), at most the first five. */
  function SortAndLimit(categories: seq<Entry>): (r: seq<Entry>)
    ensures |r| == if |categories| < 5 then |categories| else 5
  {
    var sorted := SortDesc(categories);
    sorted[..if |sorted| < 5 then |sorted| else 5]
  }

  /**
   * `calculateTopCategories`: the two dictionaries, each sorted and cut to five.
   */
  method CalculateTopCategories(ts: seq<Txn>) returns (income: seq<Entry>, expense: seq<Entry>)
    ensures income == SortAndLimit(Tally(OfKind(ts, Income)))
    ensures expense == SortAndLimit(Tally(NotOfKind(ts, Income)))
  {
    var incomeCategories, expenseCategories := CategoryTotals(ts);
    income := SortAndLimit(incomeCategories);
    expense := SortAndLimit(expenseCategories);
  }

  /**
   * The `forEach` of `calculateTopCategories`: each income transaction's amount is added under
   * its category in one dictionary, every other transaction's (whatever its type) in the other.
   */
  method CategoryTotals(ts: seq<Txn>) returns (incomeCategories: seq<Entry>, expenseCategories: seq<Entry>)
    ensures incomeCategories == Tally(OfKind(ts, Income))
    ensures expenseCategories == Tally(NotOfKind(ts, Income))
  {
    incomeCategories, expenseCategories := [], [];
    for i := 0 to |ts|
      invariant incomeCategories == Tally(OfKind(ts[..i], Income))
      invariant expenseCategories == Tally(NotOfKind(ts[..i], Income))
    {
      var t := ts[i];
      assert ts[..i + 1] == ts[..i] + [t];
      TallyStep(ts[..i], t);
      if t.kind == Income {
        incomeCategories := Add(incomeCategories, t.category, t.amount);
      } else {
        expenseCategories := Add(expenseCategories, t.category, t.amount);
      }
    }
    assert ts[..|ts|] == ts;
  }

  /** One more transaction is added to the income dictionary or, whatever its other type, to the expense one. */
  lemma TallyStep(seen: seq<Txn>, t: Txn)
    ensures Tally(OfKind(seen + [t], Income))
      == if t.kind == Income then Add(Tally(OfKind(seen, Income)), t.category, t.amount) else Tally(OfKind(seen, Income))
    ensures Tally(NotOfKind(seen + [t], Income))
      == if t.kind != Income then Add(Tally(NotOfKind(seen, Income)), t.category, t.amount) else Tally(NotOfKind(seen, Income))
  {
    KindSnoc(seen, t, Income);
    var income, other := OfKind(seen, Income), NotOfKind(seen, Income);
    if t.kind == Income {
      assert OfKind(seen + [t], Income) == income + [t];
      assert NotOfKind(seen + [t], Income) == other + [] == other;
      TallySnoc(income, t);
    } else {
      assert OfKind(seen + [t], Income) == income + [] == income;
      assert NotOfKind(seen + [t], Income) == other + [t];
      TallySnoc(other, t);
    }
  }

  /**
   * The ranking of one dictionary: at most five entries, by descending total, with distinct
   * categories; with five categories or fewer none is left out and the entries add up to the
   * list's total.
   */
  lemma TopRanking(xs: seq<Txn>)
    ensures var r := SortAndLimit(Tally(xs));
      && |r| <= 5 && SortedDesc(r) && DistinctKeys(r)
      && (|Tally(xs)| <= 5 ==> SumTotals(r) == Total(xs))
  {
    var sorted := SortDesc(Tally(xs));
    SortedTallyShape(xs);
    if |Tally(xs)| <= 5 {
      assert SortAndLimit(Tally(xs)) == sorted;
    }
  }

  /** Every ranked category occurs in the list and holds that category's sum. */
  lemma TopEntries(xs: seq<Txn>)
    ensures var r := SortAndLimit(Tally(xs));
      forall i :: 0 <= i < |r| ==> Mentions(xs, r[i].category) && r[i].total == Total(OfCategory(xs, r[i].category))
  {
    var sorted := SortDesc(Tally(xs));
    var r := SortAndLimit(Tally(xs));
    SortedTallyEntries(xs);
    forall i | 0 <= i < |r| ensures Mentions(xs, r[i].category) && r[i].total == Total(OfCategory(xs, r[i].category)) {
      assert r[i] == sorted[i];
      assert HasKey(sorted, r[i].category);
    }
  }

  /** A category left out of the ranking sums to no more than the fifth entry. */
  lemma TopExcluded(xs: seq<Txn>, c: string)
    requires Mentions(xs, c) && !HasKey(SortAndLimit(Tally(xs)), c)
    ensures var r := SortAndLimit(Tally(xs));
      |r| == 5 && Total(OfCategory(xs, c)) <= r[4].total
  {
    var sorted := SortDesc(Tally(xs));
    var r := SortAndLimit(Tally(xs));
    var j := SortedIndexOf(xs, c);
    assert forall k :: 0 <= k < |r| ==> r[k] == sorted[k] && r[k].category != c;
    assert |r| <= j;
    SortedTallyOrder(xs, 4, j);
  }

  /** A category that occurs has an entry in the sorted dictionary, holding its sum. */
  lemma SortedIndexOf(xs: seq<Txn>, c: string) returns (j: nat)
    requires Mentions(xs, c)
    ensures j < |SortDesc(Tally(xs))| && SortDesc(Tally(xs))[j].category == c
    ensures SortDesc(Tally(xs))[j].total == Total(OfCategory(xs, c))
  {
    SortedTallyEntries(xs);
    var sorted := SortDesc(Tally(xs));
    assert HasKey(sorted, c);
    j :| 0 <= j < |sorted| && sorted[j].category == c;
  }

  lemma SortedTallyOrder(xs: seq<Txn>, i: nat, j: nat)
    requires i <= j < |SortDesc(Tally(xs))|
    ensures SortDesc(Tally(xs))[i].total >= SortDesc(Tally(xs))[j].total
  {
    SortedTallyShape(xs);
  }

  datatype FinancialSummary = FinancialSummary(
    summary: Summary,
    averageIncome: real,
    averageExpense: real,
    topIncome: seq<Entry>,
    topExpense: seq<Entry>)

  /**
   * `getFinancialSummary`, given the model's summary and the rows `findByUserId` returned:
   * the averages divide the summary's totals by the number of rows typed `income` and
   * `expense` (0 without such rows); the rankings come from `calculateTopCategories`.
   */
  method GetFinancialSummary(summary: Summary, rows: seq<Row>) returns (r: FinancialSummary)
    ensures var ts := Txns(rows);
      && r.summary == summary
      && r.averageIncome == Average(summary.totalIncome, |OfKind(ts, Income)|)
      && r.averageExpense == Average(summary.totalExpense, |OfKind(ts, Expense)|)
      && r.topIncome == SortAndLimit(Tally(OfKind(ts, Income)))
      && r.topExpense == SortAndLimit(Tally(NotOfKind(ts, Income)))
  {
    var ts := Txns(rows);
    var incomeTransactions := OfKind(ts, Income);
    var expenseTransactions := OfKind(ts, Expense);
    var averageIncome := Average(summary.totalIncome, |incomeTransactions|);
    var averageExpense := Average(summary.totalExpense, |expenseTransactions|);
    var topIncome, topExpense := CalculateTopCategories(ts);
    r := FinancialSummary(summary, averageIncome, averageExpense, topIncome, topExpense);
  }

  /**
   * When the summary's totals are those of the listed transactions (as `SummaryOfRows` shows
   * they are when both read the same rows), each average is the mean amount of its type:
   * average times count is the type's total.
   */
  lemma AverageIsMean(ts: seq<Txn>, s: Summary)
    requires s.totalIncome == Total(OfKind(ts, Income)) && s.totalExpense == Total(OfKind(ts, Expense))
    ensures |OfKind(ts, Income)| > 0 ==>
      Average(s.totalIncome, |OfKind(ts, Income)|) * |OfKind(ts, Income)| as real == Total(OfKind(ts, Income))
    ensures |OfKind(ts, Expense)| > 0 ==>
      Average(s.totalExpense, |OfKind(ts, Expense)|) * |OfKind(ts, Expense)| as real == Total(OfKind(ts, Expense))
  {
  }

  // ---------------------------------------------------------------- monthly report

  const MonthNames: seq<string> := [
    "Janeiro", "Fevereiro", "Março", "Abril", "Maio", "Junho",
    "Julho", "Agosto", "Setembro", "Outubro", "Novembro", "Dezembro"]

  datatype MonthStat = MonthStat(
    month: nat,
    monthName: string,
    income: real,
    expense: real,
    balance: real,
    transactionCount: nat)

  /** The entry of `stats` for a month and the summary `getSummary` returned for it. */
  function MonthStatOf(month: nat, summary: Summary): MonthStat
    requires 1 <= month <= 12
  {
    MonthStat(month, MonthNames[month - 1], summary.totalIncome, summary.totalExpense,
      summary.balance, summary.transactionCount)
  }

  /** A month's entry holds its rows' income and expense sums, their difference and their count. */
  lemma MonthFigures(month: nat, rows: seq<Row>)
    requires 1 <= month <= 12
    ensures var st, ts := MonthStatOf(month, SummaryOf(Aggregate(rows))), Txns(rows);
      && st.income == Total(OfKind(ts, Income))
      && st.expense == Total(OfKind(ts, Expense))
      && st.balance == st.income - st.expense
      && st.transactionCount == |rows|
  {
    SummaryOfRows(rows);
  }

  /**
   * `getMonthlyStats`: for months 1 to 12 in order, the month's name and the summary of the
   * rows its date range selects. `rowsOf(m)` stands for the rows of month `m`; computing the
   * range from the year and the clock is not modelled.
   */
  method GetMonthlyStats(rowsOf: nat -> seq<Row>) returns (stats: seq<MonthStat>)
    ensures |stats| == 12
    ensures forall i :: 0 <= i < 12 ==> stats[i].month == i + 1 && stats[i].monthName == MonthNames[i]
    ensures forall i :: 0 <= i < 12 ==> var ts := Txns(rowsOf(i + 1));
      && stats[i].income == Total(OfKind(ts, Income))
      && stats[i].expense == Total(OfKind(ts, Expense))
      && stats[i].balance == stats[i].income - stats[i].expense
      && stats[i].transactionCount == |rowsOf(i + 1)|
  {
    stats := [];
    for month := 1 to 13
      invariant |stats| == month - 1
      invariant forall i :: 0 <= i < month - 1 ==> stats[i] == MonthStatOf(i + 1, SummaryOf(Aggregate(rowsOf(i + 1))))
    {
      var summary := SummaryOf(Aggregate(rowsOf(month)));
      stats := Push(stats, MonthStatOf(month, summary));
    }
    StatsFigures(stats, rowsOf);
  }

  /** `stats.push(entry)`. */
  function Push(stats: seq<MonthStat>, entry: MonthStat): (r: seq<MonthStat>)
    ensures |r| == |stats| + 1 && r[|stats|] == entry
    ensures forall i :: 0 <= i < |stats| ==> r[i] == stats[i]
  {
    stats + [entry]
  }

  /** Entries made by `MonthStatOf` carry each month's figures. */
  lemma StatsFigures(stats: seq<MonthStat>, rowsOf: nat -> seq<Row>)
    requires |stats| == 12
    requires forall i :: 0 <= i < 12 ==> stats[i] == MonthStatOf(i + 1, SummaryOf(Aggregate(rowsOf(i + 1))))
    ensures forall i :: 0 <= i < 12 ==> stats[i].month == i + 1 && stats[i].monthName == MonthNames[i]
    ensures forall i :: 0 <= i < 12 ==> var ts := Txns(rowsOf(i + 1));
      && stats[i].income == Total(OfKind(ts, Income))
      && stats[i].expense == Total(OfKind(ts, Expense))
      && stats[i].balance == stats[i].income - stats[i].expense
      && stats[i].transactionCount == |rowsOf(i + 1)|
  {
    forall i | 0 <= i < 12
      ensures var ts := Txns(rowsOf(i + 1));
        && stats[i].income == Total(OfKind(ts, Income))
        && stats[i].expense == Total(OfKind(ts, Expense))
        && stats[i].balance == stats[i].income - stats[i].expense
        && stats[i].transactionCount == |rowsOf(i + 1)|
    {
      MonthFigures(i + 1, rowsOf(i + 1));
    }
  }

  // ---------------------------------------------------------------- duplication

  /** `${description}` of a stored row: a NULL description is written `null`. */
  function DescriptionText(d: Option<string>): (r: string)
    ensures d.Some? ==> r == d.value
  {
    if d.Some? then d.value else "null"
  }

  /** The data `duplicateTransaction` submits for a stored row. */
  function DuplicateData(original: Row, now: string): (f: Fields)
    ensures f.kind == Some(original.kind) && f.amount == Some(original.amount)
    ensures f.category == Some(original.category) && f.date == Some(now)
    ensures f.description == Some(DescriptionText(original.description) + " (cópia)")
  {
    Fields(Some(original.kind), Some(original.amount), Some(original.category),
      Some(DescriptionText(original.description) + " (cópia)"), Some(now))
  }

  /**
   * `duplicateTransaction`: nothing when the user has no such transaction; otherwise the
   * values `createTransaction` inserts for the copy, or its refusal.
   */
  method DuplicateTransaction(userId: int, original: Option<Row>, now: string)
    returns (r: Option<Result<seq<Param>, ServiceError>>)
    ensures r.None? <==> original.None?
    ensures r.Some? ==> (r.value.Ok? <==> CreateValid(DuplicateData(original.value, now)))
    ensures r.Some? && r.value.Ok? ==> var p, row := r.value.value, original.value;
      && |p| == 8 && p[0] == IntParam(userId) && p[1] == TextParam(row.kind) && p[2] == RealParam(row.amount)
      && p[3] == TextParam(NormalizeCategory(row.category))
      && p[4] == TextParam(DescriptionText(row.description) + " (cópia)")
      && p[5] == TextParam(now) && p[6] == TextParam(now) && p[7] == TextParam(now)
  {
    if original.None? {
      return None;
    }
    var created := CreateTransaction(userId, DuplicateData(original.value, now), now);
    r := Some(created);
  }

  /**
   * A stored row that the schema accepts, copied at a valid time, is accepted again; when its
   * category was stored by `createTransaction` (already normalised) the copy keeps it.
   */
  lemma DuplicateAccepted(original: Row, now: string)
    requires KindOk(original.kind) && original.amount > 0.0 && original.category != "" && IsDateTime(now)
    ensures CreateValid(DuplicateData(original, now))
    ensures NormalizeCategory(NormalizeCategory(original.category)) == NormalizeCategory(original.category)
  {
    NormalizeIdempotent(original.category);
  }
}
