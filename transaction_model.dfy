/**
 * The SQL-backed transaction model of the Express back end: the zod schemas a transaction
 * must satisfy, the statements and parameter lists its methods build, and how it reads the
 * database's replies. The database is not modelled: the rows and change counts it returns
 * are inputs.
 */
module TransactionModel {
  import opened Wrappers
  import opened Text
  import opened Collections
  import opened Ledger

  // ---------------------------------------------------------------- schema

  /**
   * The fields a request may carry. `None` is a field that is absent (`undefined`); zod
   * rejects the wrong JSON type before any rule below is checked, so values are already typed.
   */
  datatype Fields = Fields(
    kind: Option<string>,
    amount: Option<real>,
    category: Option<string>,
    description: Option<string>,
    date: Option<string>)

  const NoFields := Fields(None, None, None, None, None)

  predicate KindOk(kind: string) {
    kind == "income" || kind == "expense"
  }

  /**
   * `z.string().datetime()` with its default options: `YYYY-MM-DDTHH:MM:SS`, an optional
   * fraction of one or more digits, and a final `Z` (no offsets).
   */
  predicate IsDateTime(s: string) {
    && |s| >= 20
    && (forall i | i in {0, 1, 2, 3, 5, 6, 8, 9, 11, 12, 14, 15, 17, 18} :: IsDigit(s[i]))
    && s[4] == '-' && s[7] == '-' && s[10] == 'T' && s[13] == ':' && s[16] == ':'
    && s[|s| - 1] == 'Z'
    && (|s| == 20 || (|s| >= 22 && s[19] == '.' && forall i | 20 <= i < |s| - 1 :: IsDigit(s[i])))
  }

  /** A field that is present satisfies its own rule. */
  predicate FieldsOk(f: Fields) {
    && (f.kind.Some? ==> KindOk(f.kind.value))
    && (f.amount.Some? ==> f.amount.value > 0.0)
    && (f.category.Some? ==> |f.category.value| >= 1)
    && (f.date.Some? ==> IsDateTime(f.date.value))
  }

  /** `TransactionSchema` (and `CreateTransactionSchema`): type, amount and category are required. */
  predicate CreateValid(f: Fields) {
    FieldsOk(f) && f.kind.Some? && f.amount.Some? && f.category.Some?
  }

  /** `TransactionSchema.partial()`: every field is optional, but one that is given obeys its rule. */
  predicate UpdateValid(f: Fields) {
    FieldsOk(f)
  }

  /**
   * The two schemas agree on the rules: a valid new transaction is a valid update, an empty
   * update is valid, and a valid update carrying type, amount and category is a valid new
   * transaction.
   */
  lemma SchemasAgree(f: Fields)
    ensures CreateValid(f) <==> UpdateValid(f) && f.kind.Some? && f.amount.Some? && f.category.Some?
    ensures UpdateValid(NoFields) && !CreateValid(NoFields)
  {
  }

  /** A valid new transaction has a known type, a positive amount and a non-empty category. */
  lemma CreateValidMeans(f: Fields)
    requires CreateValid(f)
    ensures KindOf(f.kind.value) != Other && f.amount.value > 0.0 && f.category.value != ""
  {
  }

  // ---------------------------------------------------------------- statements

  /** A value bound to a `?` placeholder. */
  datatype Param = IntParam(i: int) | TextParam(s: string) | RealParam(r: real) | NullParam

  /** A column an `UPDATE` assigns. */
  datatype Column = TypeColumn | AmountColumn | CategoryColumn | DescriptionColumn | DateColumn | UpdatedAtColumn

  function ColumnName(c: Column): string {
    match c
    case TypeColumn => "type"
    case AmountColumn => "amount"
    case CategoryColumn => "category"
    case DescriptionColumn => "description"
    case DateColumn => "date"
    case UpdatedAtColumn => "updated_at"
  }

  /** The fragments the model's statements are assembled from, in the order the text is appended. */
  datatype Fragment =
    | SelectByUser | SelectSummary
    | AndType | AndCategory | DateFrom | DateTo
    | OrderByDate | Limit | Offset
    | UpdateSet | Assign(column: Column) | Comma | WhereIdAndUser

  /**
   * The SQL text of a fragment. Long literals are written as short pieces; the line breaks
   * and indentation of the source's multi-line literals are written as single spaces.
   */
  function Sql(f: Fragment): string {
    match f
    case SelectByUser => "SELECT * " + "FROM " + "transactions" + " WHERE " + "user_id = " + "?"
    case SelectSummary =>
      "SELECT " + SumColumn("'income' ", "total_income, ") + SumColumn("'expense' ", "total_expense, ")
      + CountFrom() + " WHERE " + "user_id = " + "?"
    case AndType => " AND type = " + "?"
    case AndCategory => " AND category = " + "?"
    case DateFrom => " AND date >= " + "?"
    case DateTo => " AND date <= " + "?"
    case OrderByDate => " ORDER BY " + "date DESC, " + "created_at " + "DESC"
    case Limit => " LIMIT " + "?"
    case Offset => " OFFSET " + "?"
    case UpdateSet => "UPDATE " + "transactions" + " SET "
    case Assign(c) => ColumnName(c) + " = " + "?"
    case Comma => ", "
    case WhereIdAndUser => " WHERE " + "id = " + "?" + " AND " + "user_id = " + "?"
  }

  /** One `SUM(CASE ...)` column of the summary statement, with the comma or space after its name. */
  function SumColumn(kind: string, name: string): string {
    "SUM(CASE " + "WHEN type = " + kind + "THEN amount " + "ELSE 0 END) " + "as " + name
  }

  /** The count column and the table of the summary statement. */
  function CountFrom(): string {
    "COUNT(*) " + "as " + "transaction_count " + "FROM " + "transactions"
  }

  /** How many `?` placeholders a fragment holds. */
  function Holes(f: Fragment): nat {
    match f
    case OrderByDate | UpdateSet | Comma => 0
    case WhereIdAndUser => 2
    case _ => 1
  }

  lemma {:induction false} NoneCounted(s: string, c: char)
    requires c !in s
    ensures CountChar(s, c) == 0
  {
    if s != [] {
      NoneCounted(s[..|s| - 1], c);
    }
  }

  /** Text without `?` followed by more text without `?`. */
  lemma Words(a: string, b: string)
    requires CountChar(a, '?') == 0 && '?' !in b
    ensures CountChar(a + b, '?') == 0
  {
    NoneCounted(b, '?');
    CountCharAppend(a, b, '?');
  }

  /** Text holding `n` placeholders followed by one more. */
  lemma Marked(text: string, n: nat)
    requires CountChar(text, '?') == n
    ensures CountChar(text + "?", '?') == n + 1
  {
    CountCharAppend(text, "?", '?');
  }

  lemma SumColumnWords(kind: string, name: string)
    requires '?' !in kind && '?' !in name
    ensures CountChar(SumColumn(kind, name), '?') == 0
  {
    var t := "SUM(CASE ";
    NoneCounted(t, '?');
    Words(t, "WHEN type = ");
    t := t + "WHEN type = ";
    Words(t, kind);
    t := t + kind;
    Words(t, "THEN amount ");
    t := t + "THEN amount ";
    Words(t, "ELSE 0 END) ");
    t := t + "ELSE 0 END) ";
    Words(t, "as ");
    t := t + "as ";
    Words(t, name);
  }

  lemma CountFromWords()
    ensures CountChar(CountFrom(), '?') == 0
  {
    var t := "COUNT(*) ";
    NoneCounted(t, '?');
    Words(t, "as ");
    t := t + "as ";
    Words(t, "transaction_count ");
    t := t + "transaction_count ";
    Words(t, "FROM ");
    t := t + "FROM ";
    Words(t, "transactions");
  }

  lemma SelectByUserHoles()
    ensures CountChar(Sql(SelectByUser), '?') == 1
  {
    var t := "SELECT * ";
    NoneCounted(t, '?');
    Words(t, "FROM ");
    t := t + "FROM ";
    Words(t, "transactions");
    t := t + "transactions";
    Words(t, " WHERE ");
    t := t + " WHERE ";
    Words(t, "user_id = ");
    t := t + "user_id = ";
    Marked(t, 0);
  }

  /** The summary statement is one `SELECT` of the two sums and the count, with the user's filter. */
  lemma SummaryText()
    ensures Sql(SelectSummary)
      == "SELECT "
      + ("SUM(CASE WHEN type = " + "'income' " + "THEN amount ELSE 0 END) as " + "total_income, ")
      + ("SUM(CASE WHEN type = " + "'expense' " + "THEN amount ELSE 0 END) as " + "total_expense, ")
      + ("COUNT(*) as " + "transaction_count " + "FROM transactions")
      + " WHERE user_id = ?"
  {
    SumColumnText("'income' ", "total_income, ");
    SumColumnText("'expense' ", "total_expense, ");
    CountFromText();
    assert " WHERE " + "user_id = " + "?" == " WHERE user_id = ?";
  }

  lemma SumColumnText(kind: string, name: string)
    ensures SumColumn(kind, name) == "SUM(CASE WHEN type = " + kind + "THEN amount ELSE 0 END) as " + name
  {
    assert "SUM(CASE " + "WHEN type = " == "SUM(CASE WHEN type = ";
    assert "THEN amount " + "ELSE 0 END) " + "as " == "THEN amount ELSE 0 END) as ";
  }

  lemma CountFromText()
    ensures CountFrom() == "COUNT(*) as " + "transaction_count " + "FROM transactions"
  {
    assert "COUNT(*) " + "as " == "COUNT(*) as ";
    assert "FROM " + "transactions" == "FROM transactions";
  }

  lemma SelectSummaryHoles()
    ensures CountChar(Sql(SelectSummary), '?') == 1
  {
    SumColumnWords("'income' ", "total_income, ");
    SumColumnWords("'expense' ", "total_expense, ");
    CountFromWords();
    var income := SumColumn("'income' ", "total_income, ");
    var expense := SumColumn("'expense' ", "total_expense, ");
    NoneCounted("SELECT ", '?');
    CountCharAppend("SELECT ", income, '?');
    CountCharAppend("SELECT " + income, expense, '?');
    CountCharAppend("SELECT " + income + expense, CountFrom(), '?');
    var t := "SELECT " + income + expense + CountFrom();
    Words(t, " WHERE ");
    t := t + " WHERE ";
    Words(t, "user_id = ");
    t := t + "user_id = ";
    Marked(t, 0);
  }

  lemma FilterHoles()
    ensures CountChar(Sql(AndType), '?') == 1 && CountChar(Sql(AndCategory), '?') == 1
    ensures CountChar(Sql(DateFrom), '?') == 1 && CountChar(Sql(DateTo), '?') == 1
  {
    NoneCounted(" AND type = ", '?');
    Marked(" AND type = ", 0);
    NoneCounted(" AND category = ", '?');
    Marked(" AND category = ", 0);
    NoneCounted(" AND date >= ", '?');
    Marked(" AND date >= ", 0);
    NoneCounted(" AND date <= ", '?');
    Marked(" AND date <= ", 0);
  }

  lemma PageHoles()
    ensures CountChar(Sql(OrderByDate), '?') == 0
    ensures CountChar(Sql(Limit), '?') == 1 && CountChar(Sql(Offset), '?') == 1
  {
    var t := " ORDER BY ";
    NoneCounted(t, '?');
    Words(t, "date DESC, ");
    t := t + "date DESC, ";
    Words(t, "created_at ");
    t := t + "created_at ";
    Words(t, "DESC");
    NoneCounted(" LIMIT ", '?');
    Marked(" LIMIT ", 0);
    NoneCounted(" OFFSET ", '?');
    Marked(" OFFSET ", 0);
  }

  lemma UpdateHoles()
    ensures CountChar(Sql(UpdateSet), '?') == 0 && CountChar(Sql(Comma), '?') == 0
  {
    var t := "UPDATE ";
    NoneCounted(t, '?');
    Words(t, "transactions");
    t := t + "transactions";
    Words(t, " SET ");
    NoneCounted(", ", '?');
  }

  lemma AssignHoles(c: Column)
    ensures CountChar(Sql(Assign(c)), '?') == 1
  {
    NoneCounted(ColumnName(c), '?');
    Words(ColumnName(c), " = ");
    Marked(ColumnName(c) + " = ", 0);
  }

  lemma WhereIdAndUserHoles()
    ensures CountChar(Sql(WhereIdAndUser), '?') == 2
  {
    var t := " WHERE ";
    NoneCounted(t, '?');
    Words(t, "id = ");
    t := t + "id = ";
    Marked(t, 0);
    t := t + "?";
    CountCharAppend(t, " AND ", '?');
    NoneCounted(" AND ", '?');
    t := t + " AND ";
    CountCharAppend(t, "user_id = ", '?');
    NoneCounted("user_id = ", '?');
    t := t + "user_id = ";
    Marked(t, 1);
  }

  /** A fragment's text holds exactly its placeholders. */
  lemma SqlHoles(f: Fragment)
    ensures CountChar(Sql(f), '?') == Holes(f)
  {
    match f
    case SelectByUser => SelectByUserHoles();
    case SelectSummary => SelectSummaryHoles();
    case AndType | AndCategory | DateFrom | DateTo => FilterHoles();
    case OrderByDate | Limit | Offset => PageHoles();
    case UpdateSet | Comma => UpdateHoles();
    case Assign(c) => AssignHoles(c);
    case WhereIdAndUser => WhereIdAndUserHoles();
  }

  /** The statement text, as sent to the database. */
  function Render(q: seq<Fragment>): string {
    if q == [] then "" else Render(q[..|q| - 1]) + Sql(q[|q| - 1])
  }

  /** How many placeholders a statement holds. */
  function Marks(q: seq<Fragment>): nat {
    if q == [] then 0 else Marks(q[..|q| - 1]) + Holes(q[|q| - 1])
  }

  lemma {:induction false} MarksAppend(a: seq<Fragment>, b: seq<Fragment>)
    ensures Marks(a + b) == Marks(a) + Marks(b)
    decreases |b|
  {
    if b == [] {
      assert a + b == a;
    } else {
      assert (a + b)[..|a + b| - 1] == a + b[..|b| - 1];
      MarksAppend(a, b[..|b| - 1]);
    }
  }

  /** In the rendered text the `?` characters are exactly the placeholders. */
  lemma {:induction false} RenderCount(q: seq<Fragment>)
    ensures CountChar(Render(q), '?') == Marks(q)
  {
    if q != [] {
      RenderCount(q[..|q| - 1]);
      CountCharAppend(Render(q[..|q| - 1]), Sql(q[|q| - 1]), '?');
      SqlHoles(q[|q| - 1]);
    }
  }

  /** A statement and the values of its placeholders, in order. */
  datatype Statement = Statement(query: seq<Fragment>, params: seq<Param>)

  /** One value per placeholder. */
  predicate Aligned(st: Statement) {
    Marks(st.query) == |st.params|
  }

  /** In an aligned statement the rendered text holds exactly as many `?` as there are values. */
  lemma AlignedText(st: Statement)
    requires Aligned(st)
    ensures CountChar(Render(st.query), '?') == |st.params|
  {
    RenderCount(st.query);
  }

  /** The filters `findByUserId` accepts; numbers are `None` when absent. */
  datatype Filters = Filters(
    kind: Option<string>,
    category: Option<string>,
    startDate: Option<string>,
    endDate: Option<string>,
    limit: Option<int>,
    offset: Option<int>)

  const NoFilters := Filters(None, None, None, None, None, None)

  /** A string filter that JavaScript treats as true: present and non-empty. */
  predicate Given(o: Option<string>) {
    o.Some? && o.value != ""
  }

  /** A number filter that JavaScript treats as true: present and not zero. */
  predicate GivenNumber(o: Option<int>) {
    o.Some? && o.value != 0
  }

  /** The value a string filter binds: one when it is truthy, none otherwise. */
  function Bind(o: Option<string>): seq<Param> {
    if Given(o) then [TextParam(o.value)] else []
  }

  /** The clause a string filter appends: its own clause when it is truthy, nothing otherwise. */
  function Clause(o: Option<string>, clause: Fragment): seq<Fragment> {
    if Given(o) then [clause] else []
  }

  /** `findByUserId`'s `WHERE` part: the user's selection, then each truthy filter's own clause, in order. */
  function WhereQuery(f: Filters): seq<Fragment> {
    [SelectByUser] + Clause(f.kind, AndType) + Clause(f.category, AndCategory)
    + Clause(f.startDate, DateFrom) + Clause(f.endDate, DateTo)
  }

  /** The paging clauses: `LIMIT` for a truthy limit, and `OFFSET` after it for a truthy offset. */
  function PageQuery(f: Filters): seq<Fragment> {
    if GivenNumber(f.limit) then [Limit] + (if GivenNumber(f.offset) then [Offset] else []) else []
  }

  /** The values `findByUserId`'s `WHERE` part binds: the user, then the truthy filters in order. */
  function WhereParams(userId: nat, f: Filters): seq<Param> {
    [IntParam(userId)] + Bind(f.kind) + Bind(f.category) + Bind(f.startDate) + Bind(f.endDate)
  }

  /** The values `LIMIT` and `OFFSET` bind: the offset only together with the limit. */
  function PageParams(f: Filters): seq<Param> {
    if GivenNumber(f.limit) then
      [IntParam(f.limit.value)] + (if GivenNumber(f.offset) then [IntParam(f.offset.value)] else [])
    else []
  }

  /** How many of the filters are truthy and bind a value. */
  function GivenCount(f: Filters): nat {
    (if Given(f.kind) then 1 else 0) + (if Given(f.category) then 1 else 0)
    + (if Given(f.startDate) then 1 else 0) + (if Given(f.endDate) then 1 else 0)
    + (if GivenNumber(f.limit) then 1 + (if GivenNumber(f.offset) then 1 else 0) else 0)
  }

  /** The fragments that open a selection or narrow it, before any ordering. */
  predicate Filtering(f: Fragment) {
    f.SelectByUser? || f.SelectSummary? || f.AndType? || f.AndCategory? || f.DateFrom? || f.DateTo?
  }

  /** A statement made only of `WHERE` fragments. */
  predicate AllFiltering(q: seq<Fragment>) {
    forall i :: 0 <= i < |q| ==> Filtering(q[i])
  }

  /** `WHERE` fragments hold one placeholder each. */
  lemma {:induction false} FilteringMarks(q: seq<Fragment>)
    requires AllFiltering(q)
    ensures Marks(q) == |q|
  {
    if q != [] {
      FilteringMarks(q[..|q| - 1]);
    }
  }

  /** Neither ordering nor paging occurs among selection fragments. */
  lemma NoPaging(q: seq<Fragment>)
    requires AllFiltering(q)
    ensures OrderByDate !in q && Limit !in q && Offset !in q
  {
  }

  /** `findByUserId` binds the user and one value per truthy filter. */
  lemma BoundCount(userId: nat, f: Filters)
    ensures |WhereParams(userId, f) + PageParams(f)| == 1 + GivenCount(f)
  {
  }

  /** `if (filter) { query += clause; params.push(filter); }` */
  method AddFilter(query: seq<Fragment>, params: seq<Param>, filter: Option<string>, clause: Fragment)
    returns (q: seq<Fragment>, p: seq<Param>)
    requires Filtering(clause)
    ensures p == params + Bind(filter)
    ensures q == query + (if Given(filter) then [clause] else [])
    ensures |q| - |p| == |query| - |params|
    ensures AllFiltering(query) ==> AllFiltering(q)
  {
    q, p := query, params;
    if Given(filter) {
      q := query + [clause];
      p := params + [TextParam(filter.value)];
    }
  }

  /** The `WHERE` part of `findByUserId`: the user, then one clause per truthy filter. */
  method WhereClauses(userId: nat, filters: Filters) returns (st: Statement)
    ensures Aligned(st)
    ensures st.query == WhereQuery(filters)
    ensures st.params == WhereParams(userId, filters)
    ensures st.query[0] == SelectByUser
    ensures AllFiltering(st.query)
  {
    var query, params := [SelectByUser], [IntParam(userId)];
    query, params := AddFilter(query, params, filters.kind, AndType);
    query, params := AddFilter(query, params, filters.category, AndCategory);
    query, params := AddFilter(query, params, filters.startDate, DateFrom);
    query, params := AddFilter(query, params, filters.endDate, DateTo);
    FilteringMarks(query);
    st := Statement(query, params);
  }

  /**
   * `findByUserId`'s statement. The user id is bound first; each truthy filter appends one
   * clause and one value, in the order type, category, start date, end date; the ordering
   * clause always follows and ends the statement unless a truthy limit appends `LIMIT`;
   * `OFFSET` is appended only after a `LIMIT`. Placeholders and values match.
   */
  method FindByUserId(userId: nat, filters: Filters) returns (st: Statement)
    ensures Aligned(st)
    ensures st.query == WhereQuery(filters) + [OrderByDate] + PageQuery(filters)
    ensures st.params == WhereParams(userId, filters) + PageParams(filters)
    ensures st.query[0] == SelectByUser && OrderByDate in st.query
    ensures st.query[|st.query| - 1] == OrderByDate <==> !GivenNumber(filters.limit)
    ensures Limit in st.query <==> GivenNumber(filters.limit)
    ensures Offset in st.query <==> GivenNumber(filters.limit) && GivenNumber(filters.offset)
  {
    var where := WhereClauses(userId, filters);
    NoPaging(where.query);
    var query := where.query + [OrderByDate];
    MarksAppend(where.query, [OrderByDate]);
    var paged, params := AddPaging(query, where.params, filters);
    assert paged[0] == query[0] == SelectByUser;
    assert paged[|query| - 1] == OrderByDate;
    st := Statement(paged, params);
  }

  /** `if (filters.limit)` and, inside it, `if (filters.offset)`: the paging clauses and their values. */
  method AddPaging(query: seq<Fragment>, params: seq<Param>, filters: Filters)
    returns (query': seq<Fragment>, params': seq<Param>)
    requires Marks(query) == |params| && query != [] && query[|query| - 1] == OrderByDate
    requires Limit !in query && Offset !in query
    ensures Marks(query') == |params'| && params' == params + PageParams(filters)
    ensures query' == query + PageQuery(filters)
    ensures query'[|query'| - 1] == OrderByDate <==> !GivenNumber(filters.limit)
    ensures Limit in query' <==> GivenNumber(filters.limit)
    ensures Offset in query' <==> GivenNumber(filters.limit) && GivenNumber(filters.offset)
  {
    query', params' := query, params;
    if GivenNumber(filters.limit) {
      MarksAppend(query', [Limit]);
      query', params' := query' + [Limit], params' + [IntParam(filters.limit.value)];
      if GivenNumber(filters.offset) {
        MarksAppend(query', [Offset]);
        query', params' := query' + [Offset], params' + [IntParam(filters.offset.value)];
      }
    }
  }

  // ---------------------------------------------------------------- update

  /**
   * `Object.entries(data)` of a parsed update: the schema's keys in declaration order, each
   * with its value, `None` where the value is `undefined`.
   */
  function Entries(f: Fields): seq<(Column, Option<Param>)> {
    [ (TypeColumn, if f.kind.Some? then Some(TextParam(f.kind.value)) else None),
      (AmountColumn, if f.amount.Some? then Some(RealParam(f.amount.value)) else None),
      (CategoryColumn, if f.category.Some? then Some(TextParam(f.category.value)) else None),
      (DescriptionColumn, if f.description.Some? then Some(TextParam(f.description.value)) else None),
      (DateColumn, if f.date.Some? then Some(TextParam(f.date.value)) else None) ]
  }

  /** The assignments of the defined entries, in order. */
  function Assignments(es: seq<(Column, Option<Param>)>): (r: seq<Fragment>)
    ensures |r| <= |es|
    ensures forall i :: 0 <= i < |r| ==> r[i].Assign?
  {
    if es == [] then []
    else Assignments(es[..|es| - 1]) + (if es[|es| - 1].1.Some? then [Assign(es[|es| - 1].0)] else [])
  }

  /** The defined values, in order. */
  function Defined(es: seq<(Column, Option<Param>)>): (r: seq<Param>)
    ensures |r| <= |es|
  {
    if es == [] then []
    else Defined(es[..|es| - 1]) + (if es[|es| - 1].1.Some? then [es[|es| - 1].1.value] else [])
  }

  /** Each defined entry gives one assignment and one value. */
  lemma {:induction false} AssignmentsMatch(es: seq<(Column, Option<Param>)>)
    ensures |Assignments(es)| == |Defined(es)|
  {
    if es != [] {
      AssignmentsMatch(es[..|es| - 1]);
    }
  }

  /** An update with no defined field binds no value. */
  lemma DefinedEmpty(f: Fields)
    ensures Defined(Entries(f)) == [] <==> f == NoFields
  {
    var es := Entries(f);
    DefinedNone(es);
    if f != NoFields {
      assert es[0].1.Some? || es[1].1.Some? || es[2].1.Some? || es[3].1.Some? || es[4].1.Some?;
    }
  }

  lemma {:induction false} DefinedNone(es: seq<(Column, Option<Param>)>)
    ensures Defined(es) == [] <==> forall i :: 0 <= i < |es| ==> es[i].1.None?
  {
    if es != [] {
      DefinedNone(es[..|es| - 1]);
    }
  }

  /** `fields.join(', ')`. */
  function JoinFields(fields: seq<Fragment>): seq<Fragment> {
    if |fields| <= 1 then fields else [fields[0], Comma] + JoinFields(fields[1..])
  }

  /** Joining one-placeholder assignments with commas keeps one placeholder per assignment. */
  lemma {:induction false} JoinMarks(fields: seq<Fragment>)
    requires forall i :: 0 <= i < |fields| ==> fields[i].Assign?
    ensures Marks(JoinFields(fields)) == |fields|
  {
    if |fields| == 1 {
      assert fields[..0] == [];
    } else if |fields| >= 2 {
      JoinMarks(fields[1..]);
      MarksAppend([fields[0], Comma], JoinFields(fields[1..]));
      assert [fields[0], Comma][..1] == [fields[0]];
      assert [fields[0]][..0] == [];
      assert Holes(fields[0]) == 1 && Marks([fields[0]]) == 1;
      assert Marks([fields[0], Comma]) == 1;
      assert JoinFields(fields) == [fields[0], Comma] + JoinFields(fields[1..]);
    }
  }

  /**
   * `update`'s `forEach` over the entries: one assignment and one value for each defined
   * entry, in order, the undefined ones skipped.
   */
  method CollectDefined(entries: seq<(Column, Option<Param>)>) returns (fields: seq<Fragment>, params: seq<Param>)
    ensures fields == Assignments(entries) && params == Defined(entries)
  {
    fields, params := [], [];
    for i := 0 to |entries|
      invariant fields == Assignments(entries[..i])
      invariant params == Defined(entries[..i])
    {
      assert entries[..i + 1][..i] == entries[..i];
      var (column, value) := entries[i];
      if value.Some? {
        fields := fields + [Assign(column)];
        params := params + [value.value];
      }
    }
    assert entries[..|entries|] == entries;
  }

  /** Why `update` throws: "Nenhum campo para atualizar". */
  datatype UpdateError = NothingToUpdate

  /**
   * `update`'s statement. Undefined fields are skipped; with none left it fails with
   * `NothingToUpdate`. Otherwise the defined fields are assigned in schema order,
   * `updated_at` is always the last assignment, bound to `now`, and the id and user id are
   * the last two values; placeholders and values match.
   */
  method Update(id: int, userId: int, data: Fields, now: string) returns (r: Result<Statement, UpdateError>)
    ensures r.Err? <==> data == NoFields
    ensures r.Ok? ==>
      && Aligned(r.value)
      && r.value.params == Defined(Entries(data)) + [TextParam(now), IntParam(id), IntParam(userId)]
      && r.value.query == [UpdateSet] + JoinFields(Assignments(Entries(data)) + [Assign(UpdatedAtColumn)]) + [WhereIdAndUser]
  {
    var entries := Entries(data);
    var fields, params := CollectDefined(entries);
    DefinedEmpty(data);
    AssignmentsMatch(entries);
    if |fields| == 0 {
      return Err(NothingToUpdate);
    }
    fields := fields + [Assign(UpdatedAtColumn)];
    params := params + [TextParam(now)];
    params := params + [IntParam(id), IntParam(userId)];
    JoinMarks(fields);
    var assignments := JoinFields(fields);
    MarksAppend([UpdateSet], assignments);
    MarksAppend([UpdateSet] + assignments, [WhereIdAndUser]);
    assert [UpdateSet][..0] == [] && [WhereIdAndUser][..0] == [];
    r := Ok(Statement([UpdateSet] + assignments + [WhereIdAndUser], params));
  }

  // ---------------------------------------------------------------- replies

  /** A stored row of the `transactions` table. */
  datatype Row = Row(
    id: int,
    userId: int,
    kind: string,
    amount: real,
    category: string,
    description: Option<string>,
    date: string,
    createdAt: string,
    updatedAt: string)

  /** The rows an `id = ? AND user_id = ?` statement touches. */
  function Matching(table: seq<Row>, id: int, userId: int): seq<Row> {
    Filter(table, (t: Row) => t.id == id && t.userId == userId)
  }

  predicate Owns(table: seq<Row>, id: int, userId: int) {
    exists i :: 0 <= i < |table| && table[i].id == id && table[i].userId == userId
  }

  /** A statement changes a row exactly when the user owns a row with that id. */
  lemma MatchingOwned(table: seq<Row>, id: int, userId: int)
    ensures |Matching(table, id, userId)| > 0 <==> Owns(table, id, userId)
  {
    var p := (t: Row) => t.id == id && t.userId == userId;
    if Owns(table, id, userId) {
      var i :| 0 <= i < |table| && table[i].id == id && table[i].userId == userId;
      FilterKeeps(table, p, i);
    }
    if |Matching(table, id, userId)| > 0 {
      var m := Matching(table, id, userId);
      FilterSubset(table, p);
      assert m[0] in multiset(table);
    }
  }

  /** `update` after its statement ran: null when no row changed, else the row read back. */
  function UpdateResult(changes: nat, readBack: Row): (r: Option<Row>)
    ensures r.None? <==> changes == 0
    ensures r.Some? ==> r.value == readBack
  {
    if changes == 0 then None else Some(readBack)
  }

  /** `delete`: true when the statement removed a row. */
  function DeleteResult(changes: nat): bool {
    changes > 0
  }

  /** `delete` answers true exactly when the user owned a transaction with that id. */
  lemma DeleteMeansOwned(table: seq<Row>, id: int, userId: int)
    ensures DeleteResult(|Matching(table, id, userId)|) <==> Owns(table, id, userId)
  {
    MatchingOwned(table, id, userId);
  }

  /** `update` gives null exactly when the user owns no transaction with that id. */
  lemma UpdateNullMeansNotOwned(table: seq<Row>, id: int, userId: int, readBack: Row)
    ensures UpdateResult(|Matching(table, id, userId)|, readBack).None? <==> !Owns(table, id, userId)
  {
    MatchingOwned(table, id, userId);
  }

  // ---------------------------------------------------------------- summary

  /** The reply of the summary query; SQL's `SUM` over no rows is NULL (`None`). */
  datatype SummaryRow = SummaryRow(totalIncome: Option<real>, totalExpense: Option<real>, transactionCount: Option<nat>)

  datatype Summary = Summary(totalIncome: real, totalExpense: real, balance: real, transactionCount: nat)

  /** The fields of stored rows the sums read. */
  function Txns(rows: seq<Row>): (r: seq<Txn>)
    ensures |r| == |rows|
    ensures forall i :: 0 <= i < |rows| ==> r[i] == Txn(KindOf(rows[i].kind), rows[i].amount, rows[i].category)
  {
    if rows == [] then []
    else Txns(rows[..|rows| - 1]) + [Txn(KindOf(rows[|rows| - 1].kind), rows[|rows| - 1].amount, rows[|rows| - 1].category)]
  }

  /**
   * What the summary query returns for the selected rows: the `SUM(CASE ...)` columns are
   * NULL when no row is selected, `COUNT(*)` is never NULL.
   */
  function Aggregate(rows: seq<Row>): SummaryRow {
    if rows == [] then SummaryRow(None, None, Some(0))
    else
      var ts := Txns(rows);
      SummaryRow(Some(Total(OfKind(ts, Income))), Some(Total(OfKind(ts, Expense))), Some(|rows|))
  }

  /** `value || 0` on a number column. */
  function OrZero(x: Option<real>): (r: real)
    ensures x.None? ==> r == 0.0
    ensures x.Some? ==> r == x.value
  {
    if x.Some? then x.value else 0.0
  }

  /** `getSummary` reading the reply: missing sums and counts become 0, balance is income minus expense. */
  function SummaryOf(row: SummaryRow): (s: Summary)
    ensures s.balance == s.totalIncome - s.totalExpense
    ensures row.totalIncome.None? ==> s.totalIncome == 0.0
    ensures row.totalExpense.None? ==> s.totalExpense == 0.0
    ensures row.transactionCount.None? ==> s.transactionCount == 0
  {
    var totalIncome := OrZero(row.totalIncome);
    var totalExpense := OrZero(row.totalExpense);
    Summary(totalIncome, totalExpense, totalIncome - totalExpense,
      if row.transactionCount.Some? then row.transactionCount.value else 0)
  }

  /** The summary of the selected rows: the income and expense sums, their difference and the count. */
  lemma SummaryOfRows(rows: seq<Row>)
    ensures var ts := Txns(rows); var s := SummaryOf(Aggregate(rows));
      && s.totalIncome == Total(OfKind(ts, Income))
      && s.totalExpense == Total(OfKind(ts, Expense))
      && s.balance == Total(OfKind(ts, Income)) - Total(OfKind(ts, Expense))
      && s.transactionCount == |rows|
  {
  }

  /** `getSummary`'s statement: the user id, then one clause and value per truthy date bound. */
  method SummaryStatement(userId: nat, startDate: Option<string>, endDate: Option<string>) returns (st: Statement)
    ensures Aligned(st)
    ensures st.query == [SelectSummary] + Clause(startDate, DateFrom) + Clause(endDate, DateTo)
    ensures st.params == [IntParam(userId)] + Bind(startDate) + Bind(endDate)
    ensures st.query[0] == SelectSummary && AllFiltering(st.query)
  {
    var query, params := [SelectSummary], [IntParam(userId)];
    query, params := AddFilter(query, params, startDate, DateFrom);
    query, params := AddFilter(query, params, endDate, DateTo);
    FilteringMarks(query);
    st := Statement(query, params);
  }

  // ---------------------------------------------------------------- create

  /**
   * `create`'s `INSERT`: eight placeholders, bound to the user id, the fields (an absent
   * description is NULL), the date or `now` when none was given, and `now` twice.
   */
  function InsertParams(userId: int, f: Fields, now: string): (r: seq<Param>)
    requires f.kind.Some? && f.amount.Some? && f.category.Some?
    ensures |r| == 8 && r[0] == IntParam(userId) && r[6] == r[7] == TextParam(now)
    ensures r[5] == TextParam(if f.date.Some? && f.date.value != "" then f.date.value else now)
  {
    [ IntParam(userId), TextParam(f.kind.value), RealParam(f.amount.value), TextParam(f.category.value),
      if f.description.Some? then TextParam(f.description.value) else NullParam,
      TextParam(if f.date.Some? && f.date.value != "" then f.date.value else now),
      TextParam(now), TextParam(now) ]
  }
}
