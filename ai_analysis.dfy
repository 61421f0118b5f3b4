/**
 * The rule-based analysis of backend/src/routes/ai.ts: per-type totals, per-category
 * dictionaries, four insight rules applied in a fixed order, a suggestion list cut to six
 * entries, and the keyword categoriser behind `/categorize`.
 *
 * Messages are modelled by what they say (a tag and the numbers or category they format),
 * not by their wording. Amounts are not validated on this route, so the divisions may meet
 * a zero divisor; their JavaScript outcomes (an infinity or NaN) are modelled explicitly.
 */
module AiAnalysis {
  import opened Wrappers
  import opened Text
  import opened Ledger

  // ---------------------------------------------------------------- JavaScript division

  /** A JavaScript number produced by a division: finite, infinite, or NaN. */
  datatype Number = Finite(value: real) | PlusInfinity | MinusInfinity | NaN

  /** `a / b` on JavaScript numbers whose operands are finite. */
  function Divide(a: real, b: real): (r: Number)
    ensures r.Finite? <==> b != 0.0
    ensures r == NaN <==> b == 0.0 && a == 0.0
  {
    if b != 0.0 then Finite(a / b)
    else if a > 0.0 then PlusInfinity
    else if a < 0.0 then MinusInfinity
    else NaN
  }

  /** `n * k` for a positive constant `k`: infinities and NaN are kept. */
  function Scale(n: Number, k: real): Number
    requires k > 0.0
  {
    match n
    case Finite(v) => Finite(v * k)
    case _ => n
  }

  /** `n > bound`: true for +Infinity, false for -Infinity and NaN. */
  predicate Exceeds(n: Number, bound: real) {
    n.PlusInfinity? || (n.Finite? && n.value > bound)
  }

  // ---------------------------------------------------------------- results

  datatype InsightType = Warning | Positive | Suggestion

  /** What an insight reports, with the figures its message formats. */
  datatype Finding =
    | Overspent(excess: real)
    | Saved(amount: real)
    | Dominates(share: Number, amount: real)
    | Largest(amount: real)
    | HighAverage(average: Number)
    | SingleIncomeSource

  datatype Insight = Insight(kind: InsightType, finding: Finding, category: string)

  /** The kinds of finding, for saying which rules reported. */
  datatype Tag = OverspentTag | SavedTag | DominatesTag | LargestTag | HighAverageTag | SingleIncomeTag

  function TagOf(f: Finding): Tag {
    match f
    case Overspent(_) => OverspentTag
    case Saved(_) => SavedTag
    case Dominates(_, _) => DominatesTag
    case Largest(_) => LargestTag
    case HighAverage(_) => HighAverageTag
    case SingleIncomeSource => SingleIncomeTag
  }

  /** Some insight of the list reports a finding of kind `t`. */
  predicate Reports(ins: seq<Insight>, t: Tag) {
    exists i :: 0 <= i < |ins| && TagOf(ins[i].finding) == t
  }

  /** The free-text suggestions, by identity. */
  datatype Advice =
    | ReviewBudget | CutUnnecessary
    | KeepControl | InvestSavings
    | ReduceCategory(category: string) | BudgetCategory(category: string)
    | SmallerPurchases
    | DiversifyIncome | ExtraIncome
    | LogMore
    | UseAutoCategorization | MonthlyGoals | WeeklyReview

  datatype Summary = Summary(
    totalIncome: real,
    totalExpenses: real,
    balance: real,
    period: string,
    transactionCount: nat,
    averageExpense: Number,
    topExpenseCategory: string)

  datatype Analysis = Analysis(
    summary: Summary,
    insights: seq<Insight>,
    suggestions: seq<Advice>,
    expensesByCategory: seq<Entry>,
    incomeByCategory: seq<Entry>)

  const WarnShare: real := 40.0
  const NoteShare: real := 25.0
  const HighAverageAmount: real := 200.0
  const FewTransactions: nat := 5
  const MaxSuggestions: nat := 6
  const GeneralAdvice: seq<Advice> := [UseAutoCategorization, MonthlyGoals, WeeklyReview]
  const NoCategory: string := "N/A"
  const DefaultPeriod: string := "30d"

  // ---------------------------------------------------------------- specification

  /** `totalExpenses / expenseCount`, which is NaN when there are no expenses. */
  function AverageExpense(ts: seq<Txn>): Number {
    Divide(Total(OfKind(ts, Expense)), |OfKind(ts, Expense)| as real)
  }

  /** The largest expense category: the head of the sorted expense dictionary. */
  function TopExpense(ts: seq<Txn>): Option<Entry> {
    var sorted := SortDesc(Tally(OfKind(ts, Expense)));
    if sorted == [] then None else Some(sorted[0])
  }

  /** `(amount / total) * 100`. */
  function SharePercent(amount: real, total: real): Number {
    Scale(Divide(amount, total), 100.0)
  }

  /** What one rule pushes onto the two arrays. */
  datatype Findings = Findings(insights: seq<Insight>, advice: seq<Advice>)

  function BalanceRule(balance: real): Findings {
    if balance < 0.0 then
      Findings([Insight(Warning, Overspent(-balance), "Balanço")], [ReviewBudget, CutUnnecessary])
    else if balance > 0.0 then
      Findings([Insight(Positive, Saved(balance), "Economia")], [KeepControl, InvestSavings])
    else Findings([], [])
  }

  function CategoryRule(top: Option<Entry>, totalExpenses: real): Findings {
    match top
    case None => Findings([], [])
    case Some(e) =>
      var share := SharePercent(e.total, totalExpenses);
      if Exceeds(share, WarnShare) then
        Findings([Insight(Warning, Dominates(share, e.total), e.category)], [ReduceCategory(e.category)])
      else if Exceeds(share, NoteShare) then
        Findings([Insight(Suggestion, Largest(e.total), e.category)], [BudgetCategory(e.category)])
      else Findings([], [])
  }

  function AverageRule(average: Number): Findings {
    if Exceeds(average, HighAverageAmount) then
      Findings([Insight(Suggestion, HighAverage(average), "Comportamento")], [SmallerPurchases])
    else Findings([], [])
  }

  function IncomeRule(incomeCategories: nat): Findings {
    if incomeCategories == 1 then
      Findings([Insight(Suggestion, SingleIncomeSource, "Renda")], [DiversifyIncome, ExtraIncome])
    else Findings([], [])
  }

  /** The figures the rules read: the two totals, the top expense entry, the mean expense, the number of income categories and of transactions. */
  datatype Figures = Figures(
    totalIncome: real,
    totalExpenses: real,
    top: Option<Entry>,
    average: Number,
    incomeCategories: nat,
    count: nat)

  function Measure(ts: seq<Txn>): Figures {
    Figures(
      Total(OfKind(ts, Income)),
      Total(OfKind(ts, Expense)),
      TopExpense(ts),
      AverageExpense(ts),
      |Tally(OfKind(ts, Income))|,
      |ts|)
  }

  /** The four rules, in the order the source applies them. */
  function Rules(f: Figures): Findings {
    var b := BalanceRule(f.totalIncome - f.totalExpenses);
    var c := CategoryRule(f.top, f.totalExpenses);
    var a := AverageRule(f.average);
    var i := IncomeRule(f.incomeCategories);
    Findings(b.insights + c.insights + a.insights + i.insights, b.advice + c.advice + a.advice + i.advice)
  }

  /** Every suggestion the source pushes, before `slice(0, 6)`. */
  function AllAdvice(f: Figures): seq<Advice> {
    Rules(f).advice + (if f.count < FewTransactions then [LogMore] else []) + GeneralAdvice
  }

  /** `array.slice(0, n)`. */
  function Take<T>(s: seq<T>, n: nat): (r: seq<T>)
    ensures |r| == if |s| < n then |s| else n
    ensures r == s[..|r|]
  {
    if |s| <= n then s else s[..n]
  }

  /** `sortedExpenses[0]?.[0] || 'N/A'`: an empty category name is falsy too. */
  function TopCategoryName(top: Option<Entry>): string {
    if top.None? || top.value.category == "" then NoCategory else top.value.category
  }

  /** What `generateIntelligentAnalysis` returns for a list of transactions. */
  function Analyze(ts: seq<Txn>, period: string): Analysis {
    var f := Measure(ts);
    Analysis(
      Summary(f.totalIncome, f.totalExpenses, f.totalIncome - f.totalExpenses, period, f.count, f.average, TopCategoryName(f.top)),
      Rules(f).insights,
      Take(AllAdvice(f), MaxSuggestions),
      Tally(OfKind(ts, Expense)),
      Tally(OfKind(ts, Income)))
  }

  // ---------------------------------------------------------------- the source's procedure

  /** The balance block: one insight and two suggestions unless the balance is zero. */
  method PushBalanceRule(balance: real, insights: seq<Insight>, suggestions: seq<Advice>)
    returns (insights': seq<Insight>, suggestions': seq<Advice>)
    ensures insights' == insights + BalanceRule(balance).insights
    ensures suggestions' == suggestions + BalanceRule(balance).advice
  {
    insights', suggestions' := insights, suggestions;
    if balance < 0.0 {
      insights' := insights' + [Insight(Warning, Overspent(-balance), "Balanço")];
      suggestions' := suggestions' + [ReviewBudget];
      suggestions' := suggestions' + [CutUnnecessary];
    } else if balance > 0.0 {
      insights' := insights' + [Insight(Positive, Saved(balance), "Economia")];
      suggestions' := suggestions' + [KeepControl];
      suggestions' := suggestions' + [InvestSavings];
    }
  }

  /** The top-category block: the head of the sorted expense entries, judged by its share of all expenses. */
  method PushCategoryRule(sortedExpenses: seq<Entry>, totalExpenses: real, insights: seq<Insight>, suggestions: seq<Advice>)
    returns (insights': seq<Insight>, suggestions': seq<Advice>)
    ensures var top := if sortedExpenses == [] then None else Some(sortedExpenses[0]);
      && insights' == insights + CategoryRule(top, totalExpenses).insights
      && suggestions' == suggestions + CategoryRule(top, totalExpenses).advice
  {
    insights', suggestions' := insights, suggestions;
    if |sortedExpenses| > 0 {
      var top := sortedExpenses[0];
      var percentOfTotal := Scale(Divide(top.total, totalExpenses), 100.0);
      if Exceeds(percentOfTotal, WarnShare) {
        insights' := insights' + [Insight(Warning, Dominates(percentOfTotal, top.total), top.category)];
        suggestions' := suggestions' + [ReduceCategory(top.category)];
      } else if Exceeds(percentOfTotal, NoteShare) {
        insights' := insights' + [Insight(Suggestion, Largest(top.total), top.category)];
        suggestions' := suggestions' + [BudgetCategory(top.category)];
      }
    }
  }

  /** The average-expense block; a NaN average compares false and pushes nothing. */
  method PushAverageRule(avgExpenseAmount: Number, insights: seq<Insight>, suggestions: seq<Advice>)
    returns (insights': seq<Insight>, suggestions': seq<Advice>)
    ensures insights' == insights + AverageRule(avgExpenseAmount).insights
    ensures suggestions' == suggestions + AverageRule(avgExpenseAmount).advice
  {
    insights', suggestions' := insights, suggestions;
    if Exceeds(avgExpenseAmount, HighAverageAmount) {
      insights' := insights' + [Insight(Suggestion, HighAverage(avgExpenseAmount), "Comportamento")];
      suggestions' := suggestions' + [SmallerPurchases];
    }
  }

  /** The income block: a single income category asks for diversification. */
  method PushIncomeRule(incomeCategories: nat, insights: seq<Insight>, suggestions: seq<Advice>)
    returns (insights': seq<Insight>, suggestions': seq<Advice>)
    ensures insights' == insights + IncomeRule(incomeCategories).insights
    ensures suggestions' == suggestions + IncomeRule(incomeCategories).advice
  {
    insights', suggestions' := insights, suggestions;
    if incomeCategories == 1 {
      insights' := insights' + [Insight(Suggestion, SingleIncomeSource, "Renda")];
      suggestions' := suggestions' + [DiversifyIncome];
      suggestions' := suggestions' + [ExtraIncome];
    }
  }

  /** The four rule blocks, in source order, pushing onto initially empty arrays. */
  method ApplyRules(balance: real, sortedExpenses: seq<Entry>, totalExpenses: real, avgExpenseAmount: Number, incomeCategories: nat)
    returns (insights: seq<Insight>, suggestions: seq<Advice>)
    ensures var top := if sortedExpenses == [] then None else Some(sortedExpenses[0]);
      var b, c := BalanceRule(balance), CategoryRule(top, totalExpenses);
      var a, i := AverageRule(avgExpenseAmount), IncomeRule(incomeCategories);
      && insights == b.insights + c.insights + a.insights + i.insights
      && suggestions == b.advice + c.advice + a.advice + i.advice
  {
    insights, suggestions := [], [];
    insights, suggestions := PushBalanceRule(balance, insights, suggestions);
    ghost var fb := BalanceRule(balance);
    assert insights == fb.insights && suggestions == fb.advice;
    insights, suggestions := PushCategoryRule(sortedExpenses, totalExpenses, insights, suggestions);
    insights, suggestions := PushAverageRule(avgExpenseAmount, insights, suggestions);
    insights, suggestions := PushIncomeRule(incomeCategories, insights, suggestions);
  }

  /** `generateIntelligentAnalysis`: totals, dictionaries, the rules, then the general suggestions and the cut to six. */
  method GenerateIntelligentAnalysis(ts: seq<Txn>, period: string) returns (r: Analysis)
    ensures r == Analyze(ts, period)
  {
    var totalIncome := Total(OfKind(ts, Income));
    var totalExpenses := Total(OfKind(ts, Expense));
    var balance := totalIncome - totalExpenses;
    var expensesByCategory := Tally(OfKind(ts, Expense));
    var incomeByCategory := Tally(OfKind(ts, Income));

    var sortedExpenses := SortDesc(expensesByCategory);
    var transactionCount := |ts|;
    var expenseCount := |OfKind(ts, Expense)|;
    var avgExpenseAmount := Divide(totalExpenses, expenseCount as real);
    var insights, suggestions := ApplyRules(balance, sortedExpenses, totalExpenses, avgExpenseAmount, |incomeByCategory|);
    ghost var top := if sortedExpenses == [] then None else Some(sortedExpenses[0]);
    ghost var f := Figures(totalIncome, totalExpenses, top, avgExpenseAmount, |incomeByCategory|, transactionCount);
    assert Rules(f) == Findings(insights, suggestions);

    if transactionCount < FewTransactions {
      suggestions := suggestions + [LogMore];
    }
    suggestions := suggestions + [UseAutoCategorization];
    suggestions := suggestions + [MonthlyGoals];
    suggestions := suggestions + [WeeklyReview];
    assert suggestions == AllAdvice(f);

    var topName := if |sortedExpenses| == 0 || sortedExpenses[0].category == "" then NoCategory else sortedExpenses[0].category;
    r := Analysis(
      Summary(totalIncome, totalExpenses, balance, period, transactionCount, avgExpenseAmount, topName),
      insights,
      Take(suggestions, MaxSuggestions),
      expensesByCategory,
      incomeByCategory);
    assert f == Measure(ts);
  }

  /** `POST /analyze`: a missing `transactions` array is a 400; `period` defaults to "30d". */
  function AnalyzeRequest(transactions: Option<seq<Txn>>, period: Option<string>): (r: Result<Analysis, nat>)
    ensures r.Err? <==> transactions.None?
    ensures r.Err? ==> r.error == 400
    ensures r.Ok? ==> r.value.summary.period == (if period.Some? then period.value else DefaultPeriod)
    ensures r.Ok? ==> r.value.summary.transactionCount == |transactions.value|
  {
    match transactions
    case None => Err(400)
    case Some(ts) => Ok(Analyze(ts, period.GetOr(DefaultPeriod)))
  }

  // ---------------------------------------------------------------- properties

  lemma {:induction false} ReportsAppend(a: seq<Insight>, b: seq<Insight>, t: Tag)
    ensures Reports(a + b, t) <==> Reports(a, t) || Reports(b, t)
  {
    if Reports(a + b, t) {
      var i :| 0 <= i < |a + b| && TagOf((a + b)[i].finding) == t;
      if i >= |a| {
        assert b[i - |a|] == (a + b)[i];
      }
    }
    if Reports(b, t) {
      var i :| 0 <= i < |b| && TagOf(b[i].finding) == t;
      assert (a + b)[|a| + i] == b[i];
    }
    if Reports(a, t) {
      var i :| 0 <= i < |a| && TagOf(a[i].finding) == t;
      assert (a + b)[i] == a[i];
    }
  }

  lemma ReportsOne(ins: seq<Insight>, t: Tag)
    requires |ins| <= 1
    ensures Reports(ins, t) <==> |ins| == 1 && TagOf(ins[0].finding) == t
  {
  }

  /** When each kind of finding is due, read off the figures. */
  predicate Due(f: Figures, t: Tag) {
    var balance := f.totalIncome - f.totalExpenses;
    var share := if f.top.Some? then SharePercent(f.top.value.total, f.totalExpenses) else NaN;
    match t
    case OverspentTag => balance < 0.0
    case SavedTag => balance > 0.0
    case DominatesTag => Exceeds(share, WarnShare)
    case LargestTag => !Exceeds(share, WarnShare) && Exceeds(share, NoteShare)
    case HighAverageTag => Exceeds(f.average, HighAverageAmount)
    case SingleIncomeTag => f.incomeCategories == 1
  }

  lemma BalanceReports(balance: real, t: Tag)
    ensures Reports(BalanceRule(balance).insights, t)
      <==> ((t == OverspentTag && balance < 0.0) || (t == SavedTag && balance > 0.0))
  {
    ReportsOne(BalanceRule(balance).insights, t);
  }

  lemma CategoryReports(top: Option<Entry>, totalExpenses: real, t: Tag)
    ensures var share := if top.Some? then SharePercent(top.value.total, totalExpenses) else NaN;
      Reports(CategoryRule(top, totalExpenses).insights, t)
      <==> ((t == DominatesTag && Exceeds(share, WarnShare))
           || (t == LargestTag && !Exceeds(share, WarnShare) && Exceeds(share, NoteShare)))
  {
    ReportsOne(CategoryRule(top, totalExpenses).insights, t);
  }

  lemma AverageReports(average: Number, t: Tag)
    ensures Reports(AverageRule(average).insights, t) <==> t == HighAverageTag && Exceeds(average, HighAverageAmount)
  {
    ReportsOne(AverageRule(average).insights, t);
  }

  lemma IncomeReports(incomeCategories: nat, t: Tag)
    ensures Reports(IncomeRule(incomeCategories).insights, t) <==> t == SingleIncomeTag && incomeCategories == 1
  {
    ReportsOne(IncomeRule(incomeCategories).insights, t);
  }

  /** The insight list reports a kind of finding exactly when that finding is due. */
  lemma RulesReport(f: Figures, t: Tag)
    ensures Reports(Rules(f).insights, t) <==> Due(f, t)
  {
    var b := BalanceRule(f.totalIncome - f.totalExpenses);
    var c := CategoryRule(f.top, f.totalExpenses);
    var a := AverageRule(f.average);
    var i := IncomeRule(f.incomeCategories);
    ReportsAppend(b.insights + c.insights + a.insights, i.insights, t);
    ReportsAppend(b.insights + c.insights, a.insights, t);
    ReportsAppend(b.insights, c.insights, t);
    BalanceReports(f.totalIncome - f.totalExpenses, t);
    CategoryReports(f.top, f.totalExpenses, t);
    AverageReports(f.average, t);
    IncomeReports(f.incomeCategories, t);
  }

  /**
   * The rules push at most four insights and six suggestions, so `slice(0, 6)` never cuts a
   * rule suggestion: the result starts with all of them, then the short-history hint, then the
   * general suggestions, as many as fit.
   */
  lemma AssemblyBounds(f: Figures)
    ensures var rules := Rules(f).advice; var r := Take(AllAdvice(f), MaxSuggestions);
      && |Rules(f).insights| <= 4
      && |rules| <= MaxSuggestions
      && r[..|rules|] == rules
      && |r| == (if |AllAdvice(f)| < MaxSuggestions then |AllAdvice(f)| else MaxSuggestions)
      && 3 <= |r| <= MaxSuggestions
      && (f.count < FewTransactions && |rules| < MaxSuggestions ==> r[|rules|] == LogMore)
      && (|AllAdvice(f)| <= MaxSuggestions ==> r[|r| - 1] == WeeklyReview)
  {
    var rules := Rules(f).advice;
    var all := AllAdvice(f);
    assert all[..|rules|] == rules;
    assert |rules| < MaxSuggestions ==> all[|rules|] == (if f.count < FewTransactions then LogMore else UseAutoCategorization);
  }

  /** The totals are the per-type sums, and each dictionary sums to its type's total and has exactly that type's categories as keys. */
  lemma CategoryMapsMatchTotals(ts: seq<Txn>, period: string)
    ensures var r := Analyze(ts, period);
      && r.summary.totalIncome == Total(OfKind(ts, Income))
      && r.summary.totalExpenses == Total(OfKind(ts, Expense))
      && r.summary.balance == r.summary.totalIncome - r.summary.totalExpenses
      && SumTotals(r.expensesByCategory) == r.summary.totalExpenses
      && SumTotals(r.incomeByCategory) == r.summary.totalIncome
      && DistinctKeys(r.expensesByCategory) && DistinctKeys(r.incomeByCategory)
      && (forall c :: HasKey(r.expensesByCategory, c) <==> Mentions(OfKind(ts, Expense), c))
      && (forall c :: HasKey(r.incomeByCategory, c) <==> Mentions(OfKind(ts, Income), c))
      && (forall c :: TotalOf(r.expensesByCategory, c) == Total(OfCategory(OfKind(ts, Expense), c)))
      && (forall c :: TotalOf(r.incomeByCategory, c) == Total(OfCategory(OfKind(ts, Income), c)))
  {
    TallyWellFormed(OfKind(ts, Expense));
    TallyWellFormed(OfKind(ts, Income));
    TallyKeys(OfKind(ts, Expense));
    TallyKeys(OfKind(ts, Income));
    TallyTotals(OfKind(ts, Expense));
    TallyTotals(OfKind(ts, Income));
  }

  /** The suggestions of an analysis: the rule suggestions in rule order and never cut, then the general ones; six at most. */
  lemma SuggestionAssembly(ts: seq<Txn>, period: string)
    ensures var r := Analyze(ts, period); var rules := Rules(Measure(ts)).advice;
      && |r.insights| <= 4
      && r.suggestions[..|rules|] == rules
      && 3 <= |r.suggestions| <= MaxSuggestions
      && (|ts| < FewTransactions && |rules| < MaxSuggestions ==> r.suggestions[|rules|] == LogMore)
  {
    AssemblyBounds(Measure(ts));
  }

  /** A deficit or a surplus is the first insight, and its two suggestions open the rule suggestions. */
  lemma BalanceFirst(f: Figures)
    ensures var b := f.totalIncome - f.totalExpenses; var rules := Rules(f);
      && (b < 0.0 ==> rules.insights[0] == Insight(Warning, Overspent(-b), "Balanço") && rules.advice[..2] == [ReviewBudget, CutUnnecessary])
      && (b > 0.0 ==> rules.insights[0] == Insight(Positive, Saved(b), "Economia") && rules.advice[..2] == [KeepControl, InvestSavings])
  {
    var br := BalanceRule(f.totalIncome - f.totalExpenses);
    assert Rules(f).advice[..|br.advice|] == br.advice;
    assert Rules(f).insights[..|br.insights|] == br.insights;
  }

  /**
   * The balance rule: a deficit gives one warning and its two suggestions, a surplus one
   * positive insight and its two suggestions, both first in their lists; a zero balance gives neither.
   */
  lemma BalanceRuleOutcome(ts: seq<Txn>, period: string)
    ensures var r := Analyze(ts, period); var b := r.summary.balance;
      && (Reports(r.insights, OverspentTag) <==> b < 0.0)
      && (Reports(r.insights, SavedTag) <==> b > 0.0)
      && (b < 0.0 ==> r.insights[0] == Insight(Warning, Overspent(-b), "Balanço") && r.suggestions[..2] == [ReviewBudget, CutUnnecessary])
      && (b > 0.0 ==> r.insights[0] == Insight(Positive, Saved(b), "Economia") && r.suggestions[..2] == [KeepControl, InvestSavings])
  {
    var f := Measure(ts);
    RulesReport(f, OverspentTag);
    RulesReport(f, SavedTag);
    AssemblyBounds(f);
    BalanceFirst(f);
  }

  /** With positive amounts, the top expense entry is a category that occurs, holds its category's sum, and no category sums to more. */
  lemma TopExpenseIsLargest(ts: seq<Txn>)
    requires PositiveAmounts(ts)
    ensures var es := OfKind(ts, Expense);
      && (TopExpense(ts).None? <==> es == [])
      && (TopExpense(ts).Some? ==>
            var top := TopExpense(ts).value;
            && Mentions(es, top.category)
            && top.total == Total(OfCategory(es, top.category))
            && forall c :: Total(OfCategory(es, c)) <= top.total)
  {
    var es := OfKind(ts, Expense);
    var tally := Tally(es);
    TallyWellFormed(es);
    TallyKeys(es);
    TallyTotals(es);
    if es != [] {
      assert Mentions(es, es[0].category);
      assert HasKey(tally, es[0].category);
      SortedHeadIsMax(tally);
      var top := SortDesc(tally)[0];
      var k :| 0 <= k < |tally| && tally[k] == top;
      assert HasKey(tally, top.category);
      TotalOfAt(tally, k);
      OfKindPositive(ts, Expense);
      TallyPositive(es, k);
      forall c ensures Total(OfCategory(es, c)) <= top.total {
        if HasKey(tally, c) {
          var j :| 0 <= j < |tally| && tally[j].category == c;
          TotalOfAt(tally, j);
        } else {
          TotalOfMissing(tally, c);
        }
      }
    }
  }

  /**
   * The category rule, when amounts are positive: it judges the largest expense category by its
   * share of all expenses; above 40% it warns, above 25% and up to 40% it suggests a budget,
   * otherwise (and with no expense at all) it reports nothing.
   */
  lemma CategoryRuleOutcome(ts: seq<Txn>, period: string)
    requires PositiveAmounts(ts)
    ensures var r := Analyze(ts, period); var es := OfKind(ts, Expense);
      && (es == [] ==> !Reports(r.insights, DominatesTag) && !Reports(r.insights, LargestTag) && r.summary.topExpenseCategory == NoCategory)
      && (es != [] ==>
            && TopExpense(ts).Some?
            && Total(es) > 0.0
            && (var share := TopExpense(ts).value.total / Total(es) * 100.0;
                && (Reports(r.insights, DominatesTag) <==> share > WarnShare)
                && (Reports(r.insights, LargestTag) <==> NoteShare < share <= WarnShare)))
  {
    var es := OfKind(ts, Expense);
    var f := Measure(ts);
    TopExpenseIsLargest(ts);
    OfKindPositive(ts, Expense);
    TotalPositive(es);
    RulesReport(f, DominatesTag);
    RulesReport(f, LargestTag);
  }

  /** The average rule fires exactly when there is an expense and the mean expense is above 200; with no expense the mean is NaN. */
  lemma AverageRuleOutcome(ts: seq<Txn>, period: string)
    ensures var r := Analyze(ts, period); var es := OfKind(ts, Expense);
      && (es == [] ==> r.summary.averageExpense == NaN && !Reports(r.insights, HighAverageTag))
      && (es != [] ==>
            && r.summary.averageExpense == Finite(Total(es) / |es| as real)
            && (Reports(r.insights, HighAverageTag) <==> Total(es) / |es| as real > HighAverageAmount))
  {
    RulesReport(Measure(ts), HighAverageTag);
  }

  /** The single-income-source insight and its two suggestions appear exactly when all income has one category. */
  lemma IncomeRuleOutcome(ts: seq<Txn>, period: string)
    ensures var r := Analyze(ts, period);
      && (Reports(r.insights, SingleIncomeTag) <==> SingleCategory(OfKind(ts, Income)))
      && (SingleCategory(OfKind(ts, Income)) ==> DiversifyIncome in r.suggestions && ExtraIncome in r.suggestions)
  {
    var f := Measure(ts);
    RulesReport(f, SingleIncomeTag);
    TallySingleKey(OfKind(ts, Income));
    AssemblyBounds(f);
    if SingleCategory(OfKind(ts, Income)) {
      IncomeLast(f);
      var rules := Rules(f).advice;
      var r := Analyze(ts, period);
      assert r.suggestions[|rules| - 2] == DiversifyIncome;
      assert r.suggestions[|rules| - 1] == ExtraIncome;
    }
  }

  /** When the income rule fires, its two suggestions close the rule suggestions. */
  lemma IncomeLast(f: Figures)
    requires f.incomeCategories == 1
    ensures var rules := Rules(f).advice; |rules| >= 2 && rules[|rules| - 2..] == [DiversifyIncome, ExtraIncome]
  {
    var b := BalanceRule(f.totalIncome - f.totalExpenses);
    var c := CategoryRule(f.top, f.totalExpenses);
    var a := AverageRule(f.average);
    assert Rules(f).advice == (b.advice + c.advice + a.advice) + [DiversifyIncome, ExtraIncome];
  }

  /** An empty list: zero totals, NaN average, no insight, the four general suggestions and no top category. */
  lemma EmptyInput(period: string)
    ensures Analyze([], period) == Analysis(
      Summary(0.0, 0.0, 0.0, period, 0, NaN, NoCategory),
      [],
      [LogMore, UseAutoCategorization, MonthlyGoals, WeeklyReview],
      [], [])
  {
    assert OfKind([], Expense) == [] && OfKind([], Income) == [];
  }

  /** A top category holding exactly 40% of the expenses does not warn; it only suggests a budget. */
  lemma FortyPercentDoesNotWarn(e: Entry, totalExpenses: real)
    requires totalExpenses != 0.0 && e.total * 100.0 == totalExpenses * WarnShare
    ensures CategoryRule(Some(e), totalExpenses)
      == Findings([Insight(Suggestion, Largest(e.total), e.category)], [BudgetCategory(e.category)])
  {
    assert e.total / totalExpenses * 100.0 == WarnShare;
  }

  // ---------------------------------------------------------------- /categorize

  /** The keyword table, in the order `Object.entries` visits it. */
  const Keywords: seq<(string, string)> := [
    ("supermercado", "Alimentação"),
    ("restaurante", "Alimentação"),
    ("cinema", "Entretenimento"),
    ("netflix", "Entretenimento"),
    ("uber", "Transporte"),
    ("gasolina", "Transporte"),
    ("farmácia", "Saúde"),
    ("academia", "Saúde"),
    ("salário", "Trabalho"),
    ("freelance", "Trabalho")
  ]

  const DefaultCategory: string := "Outros"
  const Confidence: real := 0.85

  datatype Categorization = Categorization(suggestedCategory: string, confidence: real)

  /**
   * `POST /categorize`: a missing or empty description is a 400; otherwise the lower-cased
   * description is scanned against the keyword table and the first keyword it contains wins.
   */
  method Categorize(description: Option<string>) returns (r: Result<Categorization, nat>)
    ensures r.Err? <==> description.None? || description.value == ""
    ensures r.Err? ==> r.error == 400
    ensures r.Ok? ==> r.value.confidence == Confidence
    ensures r.Ok? ==> var lower := ToLower(description.value);
      || (exists k :: 0 <= k < |Keywords| && Contains(lower, Keywords[k].0) && r.value.suggestedCategory == Keywords[k].1
            && forall j :: 0 <= j < k ==> !Contains(lower, Keywords[j].0))
      || ((forall k :: 0 <= k < |Keywords| ==> !Contains(lower, Keywords[k].0)) && r.value.suggestedCategory == DefaultCategory)
  {
    if description.None? || description.value == "" {
      return Err(400);
    }
    var lowerDesc := ToLower(description.value);
    var suggestedCategory := DefaultCategory;
    var k := 0;
    while k < |Keywords|
      invariant 0 <= k <= |Keywords|
      invariant forall j :: 0 <= j < k ==> !Contains(lowerDesc, Keywords[j].0)
      invariant suggestedCategory == DefaultCategory
    {
      if Contains(lowerDesc, Keywords[k].0) {
        suggestedCategory := Keywords[k].1;
        break;
      }
      k := k + 1;
    }
    r := Ok(Categorization(suggestedCategory, Confidence));
  }
}
