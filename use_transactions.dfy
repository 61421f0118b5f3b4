/**
 * The front-end transactions hook (`frontend/src/hooks/useTransactions.ts`): the query string
 * it builds from the list filters and the summary dates, the Authorization header it sends,
 * and the updates it makes to the local list after a successful create, update or delete.
 */
module UseTransactions {
  import opened Wrappers
  import opened Text
  import opened Collections
  import AuthService

  // ---------------------------------------------------------------- query string

  /** The list filters; each is absent when the caller leaves it out. */
  datatype TransactionFilters = TransactionFilters(
    kind: Option<string>,
    category: Option<string>,
    startDate: Option<string>,
    endDate: Option<string>,
    limit: Option<int>,
    offset: Option<int>)

  /** One `name=value` pair of a `URLSearchParams`. */
  datatype QueryParam = QueryParam(name: string, value: string)

  /** A text filter is truthy when present and not empty. */
  predicate Truthy(v: Option<string>) {
    v.Some? && v.value != ""
  }

  /** A number filter is truthy when present and not zero. */
  predicate TruthyNumber(v: Option<int>) {
    v.Some? && v.value != 0
  }

  /** `if (filter) params.append(name, filter)`: the pair when the filter is truthy, nothing otherwise. */
  function Given(name: string, v: Option<string>): seq<QueryParam> {
    if Truthy(v) then [QueryParam(name, v.value)] else []
  }

  /** `if (filter) params.append(name, filter.toString())`. */
  function GivenNumber(name: string, v: Option<int>): seq<QueryParam> {
    if TruthyNumber(v) then [QueryParam(name, IntToString(v.value))] else []
  }

  /** The names of the list filters, in the order `fetchTransactions` appends them. */
  const ListNames: seq<string> := ["type", "category", "startDate", "endDate", "limit", "offset"]

  /** What each list filter contributes, in that order. */
  function ListPieces(f: TransactionFilters): (p: seq<seq<QueryParam>>)
    ensures |p| == |ListNames|
  {
    [Given("type", f.kind), Given("category", f.category), Given("startDate", f.startDate),
     Given("endDate", f.endDate), GivenNumber("limit", f.limit), GivenNumber("offset", f.offset)]
  }

  /** The first `n` pieces, concatenated left to right as they are appended. */
  function Appended(pieces: seq<seq<QueryParam>>, n: nat): seq<QueryParam>
    requires n <= |pieces|
  {
    if n == 0 then [] else Appended(pieces, n - 1) + pieces[n - 1]
  }

  /** The parameters of `fetchTransactions`. */
  function ListQuery(f: TransactionFilters): seq<QueryParam> {
    Appended(ListPieces(f), |ListNames|)
  }

  /** The parameters of `fetchSummary`. */
  function SummaryQuery(startDate: Option<string>, endDate: Option<string>): seq<QueryParam> {
    Given("startDate", startDate) + Given("endDate", endDate)
  }

  /** One `if (filter) queryParams.append(name, filter)` step. */
  method AppendIfGiven(params: seq<QueryParam>, name: string, v: Option<string>) returns (r: seq<QueryParam>)
    ensures r == params + Given(name, v)
  {
    r := params;
    if v.Some? && v.value != "" {
      r := r + [QueryParam(name, v.value)];
    }
  }

  /** One `if (filter) queryParams.append(name, filter.toString())` step. */
  method AppendIfNonZero(params: seq<QueryParam>, name: string, v: Option<int>) returns (r: seq<QueryParam>)
    ensures r == params + GivenNumber(name, v)
  {
    r := params;
    if v.Some? && v.value != 0 {
      r := r + [QueryParam(name, IntToString(v.value))];
    }
  }

  /** `fetchTransactions` fills its `URLSearchParams` one filter at a time. */
  method BuildListQuery(f: TransactionFilters) returns (params: seq<QueryParam>)
    ensures params == ListQuery(f)
  {
    var pieces := ListPieces(f);
    params := [];
    params := AppendIfGiven(params, "type", f.kind);
    assert params == Appended(pieces, 1);
    params := AppendIfGiven(params, "category", f.category);
    assert params == Appended(pieces, 2);
    params := AppendIfGiven(params, "startDate", f.startDate);
    assert params == Appended(pieces, 3);
    params := AppendIfGiven(params, "endDate", f.endDate);
    assert params == Appended(pieces, 4);
    params := AppendIfNonZero(params, "limit", f.limit);
    assert params == Appended(pieces, 5);
    params := AppendIfNonZero(params, "offset", f.offset);
  }

  /** `fetchSummary` fills its `URLSearchParams` with the two dates. */
  method BuildSummaryQuery(startDate: Option<string>, endDate: Option<string>) returns (params: seq<QueryParam>)
    ensures params == SummaryQuery(startDate, endDate)
  {
    params := [];
    params := AppendIfGiven(params, "startDate", startDate);
    params := AppendIfGiven(params, "endDate", endDate);
  }

  /** `URLSearchParams.get`: the value of the first pair with that name. */
  function Get(params: seq<QueryParam>, name: string): (r: Option<string>)
    ensures r.Some? <==> exists i :: 0 <= i < |params| && params[i].name == name
  {
    if params == [] then None
    else if params[0].name == name then Some(params[0].value)
    else Get(params[1..], name)
  }

  /** No pair carries that name. */
  predicate NoName(params: seq<QueryParam>, name: string) {
    forall i :: 0 <= i < |params| ==> params[i].name != name
  }

  /** Pairs with other names before or after do not change what `get` finds. */
  lemma {:induction false} GetSkip(a: seq<QueryParam>, b: seq<QueryParam>, name: string)
    ensures NoName(a, name) ==> Get(a + b, name) == Get(b, name)
    ensures NoName(b, name) ==> Get(a + b, name) == Get(a, name)
    decreases |a|
  {
    if a == [] {
      assert a + b == b;
    } else {
      assert (a + b)[1..] == a[1..] + b;
      GetSkip(a[1..], b, name);
      if NoName(b, name) && a[0].name != name {
        assert Get(a + b, name) == Get(a[1..] + b, name);
      }
    }
  }

  lemma {:induction false} AppendedNoName(pieces: seq<seq<QueryParam>>, name: string, n: nat)
    requires n <= |pieces|
    requires forall j :: 0 <= j < n ==> NoName(pieces[j], name)
    ensures NoName(Appended(pieces, n), name)
  {
    if n > 0 {
      AppendedNoName(pieces, name, n - 1);
    }
  }

  /** When only piece `k` holds a name, `get` on the concatenation finds that piece's value. */
  lemma {:induction false} GetPiece(pieces: seq<seq<QueryParam>>, name: string, k: nat, n: nat)
    requires k < n <= |pieces|
    requires forall j :: 0 <= j < |pieces| && j != k ==> NoName(pieces[j], name)
    ensures Get(Appended(pieces, n), name) == Get(pieces[k], name)
  {
    if n == k + 1 {
      AppendedNoName(pieces, name, k);
      GetSkip(Appended(pieces, k), pieces[k], name);
    } else {
      GetPiece(pieces, name, k, n - 1);
      GetSkip(Appended(pieces, n - 1), pieces[n - 1], name);
    }
  }

  /** The position of a list filter's name in the order the hook appends them. */
  function Rank(name: string): nat {
    if name == "type" then 0
    else if name == "category" then 1
    else if name == "startDate" then 2
    else if name == "endDate" then 3
    else if name == "limit" then 4
    else 5
  }

  /** Piece `j` is empty or one pair named `ListNames[j]`. */
  lemma ListPiecesNamed(f: TransactionFilters)
    ensures forall j :: 0 <= j < |ListNames| ==> |ListPieces(f)[j]| <= 1 && Rank(ListNames[j]) == j
    ensures forall j, i :: 0 <= j < |ListNames| && 0 <= i < |ListPieces(f)[j]| ==> ListPieces(f)[j][i].name == ListNames[j]
  {
  }

  /** The value a filter contributes, as the server reads it back. */
  function Expected(v: Option<string>): Option<string> {
    if Truthy(v) then v else None
  }

  function ExpectedNumber(v: Option<int>): Option<string> {
    if TruthyNumber(v) then Some(IntToString(v.value)) else None
  }

  /**
   * Each filter can be read back from the list query under its own name: its value when it
   * is truthy, nothing when it is absent, empty or zero.
   */
  lemma ListQueryCarriesFilters(f: TransactionFilters)
    ensures Get(ListQuery(f), "type") == Expected(f.kind)
    ensures Get(ListQuery(f), "category") == Expected(f.category)
    ensures Get(ListQuery(f), "startDate") == Expected(f.startDate)
    ensures Get(ListQuery(f), "endDate") == Expected(f.endDate)
    ensures Get(ListQuery(f), "limit") == ExpectedNumber(f.limit)
    ensures Get(ListQuery(f), "offset") == ExpectedNumber(f.offset)
  {
    var pieces := ListPieces(f);
    ListPiecesNamed(f);
    forall k | 0 <= k < |ListNames| ensures Get(ListQuery(f), ListNames[k]) == Get(pieces[k], ListNames[k]) {
      forall j | 0 <= j < |pieces| && j != k ensures NoName(pieces[j], ListNames[k]) {
        assert Rank(ListNames[j]) != Rank(ListNames[k]);
      }
      GetPiece(pieces, ListNames[k], k, |ListNames|);
    }
    assert ListNames[0] == "type" && ListNames[1] == "category" && ListNames[2] == "startDate";
    assert ListNames[3] == "endDate" && ListNames[4] == "limit" && ListNames[5] == "offset";
  }

  /** The pairs follow the filter order: each name comes at most once, and earlier filters first. */
  predicate InFilterOrder(params: seq<QueryParam>) {
    forall i, j :: 0 <= i < j < |params| ==> Rank(params[i].name) < Rank(params[j].name)
  }

  lemma {:induction false} AppendedOrdered(pieces: seq<seq<QueryParam>>, n: nat)
    requires n <= |pieces|
    requires forall j :: 0 <= j < n ==> |pieces[j]| <= 1
    requires forall j, i :: 0 <= j < n && 0 <= i < |pieces[j]| ==> Rank(pieces[j][i].name) == j
    ensures InFilterOrder(Appended(pieces, n))
    ensures forall i :: 0 <= i < |Appended(pieces, n)| ==> Rank(Appended(pieces, n)[i].name) < n
  {
    if n > 0 {
      AppendedOrdered(pieces, n - 1);
    }
  }

  lemma ListQueryOrdered(f: TransactionFilters)
    ensures InFilterOrder(ListQuery(f))
  {
    ListPiecesNamed(f);
    AppendedOrdered(ListPieces(f), |ListNames|);
  }

  lemma {:induction false} AppendedEmpty(pieces: seq<seq<QueryParam>>, n: nat)
    requires n <= |pieces|
    ensures Appended(pieces, n) == [] <==> forall j :: 0 <= j < n ==> pieces[j] == []
  {
    if n > 0 {
      AppendedEmpty(pieces, n - 1);
    }
  }

  /** `URLSearchParams.toString()`: the `name=value` pairs joined by `&` (percent-encoding aside). */
  function QueryString(params: seq<QueryParam>): (s: string)
    ensures s == "" <==> params == []
  {
    if params == [] then ""
    else
      var first := params[0].name + "=" + params[0].value;
      assert first[|params[0].name|] == '=';
      if |params| == 1 then first else first + "&" + QueryString(params[1..])
  }

  /** The request path with `?` and the query string appended only when the string is not empty. */
  function Url(path: string, params: seq<QueryParam>): string {
    var qs := QueryString(params);
    if qs != "" then path + "?" + qs else path
  }

  /** The URL is the bare path exactly when no filter was appended; otherwise `?` follows the path. */
  lemma UrlShape(path: string, params: seq<QueryParam>)
    ensures Url(path, params) == path <==> params == []
    ensures params != [] ==> |Url(path, params)| > |path| && Url(path, params)[..|path|] == path
                             && Url(path, params)[|path|] == '?'
  {
    if params != [] {
      var u := Url(path, params);
      assert u == path + "?" + QueryString(params);
      assert |u| > |path|;
    }
  }

  /** With no truthy list filter the hook asks for the bare path; with any, the path, `?` and the pairs. */
  lemma ListUrlHasQueryIffFiltered(path: string, f: TransactionFilters)
    ensures Url(path, ListQuery(f)) == path
        <==> !Truthy(f.kind) && !Truthy(f.category) && !Truthy(f.startDate) && !Truthy(f.endDate)
             && !TruthyNumber(f.limit) && !TruthyNumber(f.offset)
  {
    UrlShape(path, ListQuery(f));
    AppendedEmpty(ListPieces(f), |ListNames|);
    var p := ListPieces(f);
    assert p[0] == Given("type", f.kind) && p[1] == Given("category", f.category);
    assert p[2] == Given("startDate", f.startDate) && p[3] == Given("endDate", f.endDate);
    assert p[4] == GivenNumber("limit", f.limit) && p[5] == GivenNumber("offset", f.offset);
  }

  /** The same for the summary: `?` only when a date filter is truthy. */
  lemma SummaryUrlHasQueryIffFiltered(path: string, startDate: Option<string>, endDate: Option<string>)
    ensures Url(path, SummaryQuery(startDate, endDate)) == path <==> !Truthy(startDate) && !Truthy(endDate)
  {
    UrlShape(path, SummaryQuery(startDate, endDate));
  }

  // ---------------------------------------------------------------- authorization header

  /** `token ? \`Bearer ${token}\` : ''` for the token kept in local storage. */
  function AuthorizationValue(token: Option<string>): (h: string)
    ensures h == "" <==> !Truthy(token)
  {
    if Truthy(token) then AuthService.Scheme + " " + token.value else ""
  }

  /**
   * The header the hook sends is the one the backend reads: a stored token without spaces
   * comes back out of `extractTokenFromHeader`, and without a token the backend sees none.
   */
  lemma AuthorizationRoundTrip(token: Option<string>)
    requires Truthy(token) ==> ' ' !in token.value
    ensures AuthService.ExtractTokenFromHeader(Some(AuthorizationValue(token))) == Expected(token)
  {
    if Truthy(token) {
      AuthService.ExtractBearer(token.value);
    }
  }

  // ---------------------------------------------------------------- local list

  /** A transaction as the API sends it to the page. */
  datatype Transaction = Transaction(
    id: int,
    userId: int,
    kind: string,
    amount: real,
    category: string,
    description: Option<string>,
    date: string,
    createdAt: string,
    updatedAt: string)

  /** After a create: `[created, ...prev]`. */
  function AfterCreate(prev: seq<Transaction>, created: Transaction): (r: seq<Transaction>)
    ensures |r| == |prev| + 1 && r[0] == created && r[1..] == prev
  {
    [created] + prev
  }

  /** After an update: `prev.map(t => t.id === id ? updated : t)`. */
  function AfterUpdate(prev: seq<Transaction>, id: int, updated: Transaction): (r: seq<Transaction>)
    ensures |r| == |prev|
    ensures forall i :: 0 <= i < |prev| ==> r[i] == if prev[i].id == id then updated else prev[i]
  {
    seq(|prev|, i requires 0 <= i < |prev| => if prev[i].id == id then updated else prev[i])
  }

  /** After a delete: `prev.filter(t => t.id !== id)`. */
  function AfterDelete(prev: seq<Transaction>, id: int): (r: seq<Transaction>)
    ensures forall i :: 0 <= i < |r| ==> r[i].id != id
    ensures multiset(r) <= multiset(prev)
  {
    FilterSubset(prev, (t: Transaction) => t.id != id);
    Filter(prev, (t: Transaction) => t.id != id)
  }

  /**
   * A delete keeps every entry with another id and adds none; a list without the id is left
   * as it is. The order of what is kept comes from `AfterDelete` being a `Filter`.
   */
  lemma DeleteKeepsOthers(prev: seq<Transaction>, id: int)
    ensures forall i :: 0 <= i < |prev| && prev[i].id != id ==> prev[i] in AfterDelete(prev, id)
    ensures forall t :: t in AfterDelete(prev, id) ==> t in prev
    ensures (forall i :: 0 <= i < |prev| ==> prev[i].id != id) ==> AfterDelete(prev, id) == prev
  {
    var p := (t: Transaction) => t.id != id;
    forall i | 0 <= i < |prev| && prev[i].id != id ensures prev[i] in AfterDelete(prev, id) {
      FilterKeeps(prev, p, i);
    }
    forall t | t in AfterDelete(prev, id) ensures t in prev {
      assert t in multiset(AfterDelete(prev, id));
    }
    if forall i :: 0 <= i < |prev| ==> prev[i].id != id {
      FilterAll(prev, p);
    }
  }

  /** Deleting is idempotent. */
  lemma DeleteIdempotent(prev: seq<Transaction>, id: int)
    ensures AfterDelete(AfterDelete(prev, id), id) == AfterDelete(prev, id)
  {
    FilterAll(AfterDelete(prev, id), (t: Transaction) => t.id != id);
  }

  /** Deleting what was just created restores the list, when the list held no entry with that id. */
  lemma DeleteUndoesCreate(prev: seq<Transaction>, created: Transaction)
    requires forall i :: 0 <= i < |prev| ==> prev[i].id != created.id
    ensures AfterDelete(AfterCreate(prev, created), created.id) == prev
  {
    var p := (t: Transaction) => t.id != created.id;
    FilterAppend([created], prev, p);
    FilterAll(prev, p);
    assert Filter([created], p) == [];
  }

  /** Updating an entry with its own id changes nothing a later delete of that id can see. */
  lemma DeleteAfterUpdate(prev: seq<Transaction>, id: int, updated: Transaction)
    requires updated.id == id
    ensures AfterDelete(AfterUpdate(prev, id, updated), id) == AfterDelete(prev, id)
    decreases |prev|
  {
    var p := (t: Transaction) => t.id != id;
    if prev != [] {
      var init := prev[..|prev| - 1];
      var last := prev[|prev| - 1];
      var r := AfterUpdate(prev, id, updated);
      assert r == AfterUpdate(init, id, updated) + [r[|prev| - 1]];
      assert prev == init + [last];
      DeleteAfterUpdate(init, id, updated);
      FilterAppend(AfterUpdate(init, id, updated), [r[|prev| - 1]], p);
      FilterAppend(init, [last], p);
    }
  }

  /** Applying the same update twice is the same as once. */
  lemma UpdateIdempotent(prev: seq<Transaction>, id: int, updated: Transaction)
    requires updated.id == id
    ensures AfterUpdate(AfterUpdate(prev, id, updated), id, updated) == AfterUpdate(prev, id, updated)
  {
  }
}
