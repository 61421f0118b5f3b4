/**
 * The serverless API (`netlify/functions/api.js`): an in-memory store of users and
 * transactions with two id counters, fake bearer tokens that carry the user id, the
 * per-user dashboard summary and the savings-rate analysis behind `POST /ai/analyze`.
 *
 * Request bodies arrive as JSON; a missing text field is written here as "" and a missing
 * amount as 0, which the handlers treat alike (both are falsy). Clocks are parameters:
 * `now` stands for `Date.now()` and `today` for the ISO date of the current day.
 */
module ServerlessApi {
  import opened Wrappers
  import opened Text
  import opened Collections
  import opened Ledger

  // ---------------------------------------------------------------- records

  datatype User = User(id: nat, username: string, email: string, password: string, createdAt: nat)

  /** The part of a user the API sends back. */
  datatype Profile = Profile(id: nat, username: string, email: string)

  function ProfileOf(u: User): Profile {
    Profile(u.id, u.username, u.email)
  }

  /** A stored transaction; `kind` is the request's `type`, kept as sent. */
  datatype Transaction = Transaction(
    id: nat,
    userId: nat,
    description: Option<string>,
    amount: real,
    kind: string,
    category: string,
    date: string,
    createdAt: nat)

  /** Why a request is refused; each reply carries one of these with its HTTP status. */
  datatype Reason =
    | AllFieldsRequired
    | UserExists
    | CredentialsRequired
    | InvalidCredentials
    | TokenMissing
    | TokenInvalid
    | UserNotFound
    | AmountTypeCategoryRequired

  datatype Failure = Failure(status: nat, reason: Reason)

  /** A login or registration reply: the user's profile and a fresh token. */
  datatype Session = Session(user: Profile, token: string)

  // ---------------------------------------------------------------- tokens

  const TokenPrefix := "fake_token_"

  /** `generateToken`: the prefix, the user id and the issue time, separated by underscores. */
  function GenerateToken(userId: nat, now: nat): (token: string)
    ensures StartsWith(token, TokenPrefix)
  {
    TokenPrefix + NatToString(userId) + "_" + NatToString(now)
  }

  /** `getUserIdFromToken`: `parseInt` of the third `_`-separated part; None for `null` and NaN alike. */
  function UserIdFromToken(token: string): (r: Option<int>)
    ensures !StartsWith(token, TokenPrefix) ==> r.None?
  {
    if token == "" || !StartsWith(token, TokenPrefix) then None
    else
      var parts := Split(token, '_');
      if |parts| >= 3 then ParseInt(parts[2]) else None
  }

  lemma NoUnderscoreInDigits(n: nat)
    ensures '_' !in NatToString(n)
  {
    var s := NatToString(n);
    forall i | 0 <= i < |s| ensures s[i] != '_' {
      assert IsDigit(s[i]);
    }
  }

  lemma Regroup<T>(p: seq<T>, sep: T, q: seq<T>, a: seq<T>, b: seq<T>)
    ensures p + [sep] + q + [sep] + a + [sep] + b == p + [sep] + (q + [sep] + (a + [sep] + b))
  {
  }

  lemma ConsThree<T>(a: T, b: T, c: T, rest: seq<T>)
    ensures [a] + ([b] + ([c] + rest)) == [a, b, c] + rest
  {
  }

  /** A generated token splits on `_` into "fake", "token", the user id and the time. */
  lemma TokenParts(userId: nat, now: nat)
    ensures Split(GenerateToken(userId, now), '_') == ["fake", "token", NatToString(userId)] + Split(NatToString(now), '_')
  {
    var id, time := NatToString(userId), NatToString(now);
    var tail := id + ['_'] + time;
    var middle := "token" + ['_'] + tail;
    assert TokenPrefix == "fake" + ['_'] + "token" + ['_'];
    Regroup("fake", '_', "token", id, time);
    SplitAfter("fake", '_', middle);
    SplitAfter("token", '_', tail);
    NoUnderscoreInDigits(userId);
    SplitAfter(id, '_', time);
    ConsThree("fake", "token", id, Split(time, '_'));
  }

  /** Decoding a generated token gives back the user id it was generated for. */
  lemma TokenRoundTrip(userId: nat, now: nat)
    ensures UserIdFromToken(GenerateToken(userId, now)) == Some(userId)
  {
    TokenParts(userId, now);
    ParseIntNatToString(userId);
  }

  // ---------------------------------------------------------------- authentication

  /** The two spellings of the authorization header a request may carry. */
  datatype Headers = Headers(lower: Option<string>, capitalized: Option<string>)

  /** `headers.authorization || headers.Authorization`: the lower-case header wins unless missing or empty. */
  function AuthorizationHeader(headers: Headers): Option<string> {
    if headers.lower.Some? && headers.lower.value != "" then headers.lower else headers.capitalized
  }

  const BearerPrefix := "Bearer "

  /**
   * `requireAuth`: the header must start with "Bearer ", the rest must decode to a user id
   * that is neither NaN nor 0, and a stored user must have that id.
   */
  function RequireAuth(users: seq<User>, headers: Headers): (r: Result<User, Reason>)
    ensures r.Ok? ==> r.value in users
    ensures var header := AuthorizationHeader(headers);
      r == Err(TokenMissing) <==> header.None? || !StartsWith(header.value, BearerPrefix)
  {
    var header := AuthorizationHeader(headers);
    if header.None? || header.value == "" || !StartsWith(header.value, BearerPrefix) then Err(TokenMissing)
    else
      match UserIdFromToken(header.value[|BearerPrefix|..])
      case None => Err(TokenInvalid)
      case Some(id) =>
        if id == 0 then Err(TokenInvalid)
        else match Find(users, (u: User) => u.id == id)
          case None => Err(UserNotFound)
          case Some(u) => Ok(u)
  }

  predicate UniqueIds(users: seq<User>) {
    forall i, j :: 0 <= i < j < |users| ==> users[i].id != users[j].id
  }

  /**
   * A token issued to a stored user authenticates that very user, whenever it was issued: sent
   * in the lower-case header whatever the other one holds, or in the capitalised header when
   * the lower-case one is missing or empty.
   */
  lemma IssuedTokenAuthenticates(users: seq<User>, k: nat, now: nat, other: Option<string>)
    requires k < |users| && users[k].id >= 1 && UniqueIds(users)
    ensures var bearer := Some(BearerPrefix + GenerateToken(users[k].id, now));
      && RequireAuth(users, Headers(bearer, other)) == Ok(users[k])
      && RequireAuth(users, Headers(None, bearer)) == Ok(users[k])
      && RequireAuth(users, Headers(Some(""), bearer)) == Ok(users[k])
  {
    var bearer := Some(BearerPrefix + GenerateToken(users[k].id, now));
    ChosenTokenAuthenticates(users, k, now, Headers(bearer, other));
    ChosenTokenAuthenticates(users, k, now, Headers(None, bearer));
    ChosenTokenAuthenticates(users, k, now, Headers(Some(""), bearer));
  }

  /** Whichever header is chosen, a token issued to a stored user in it authenticates that user. */
  lemma ChosenTokenAuthenticates(users: seq<User>, k: nat, now: nat, headers: Headers)
    requires k < |users| && users[k].id >= 1 && UniqueIds(users)
    requires AuthorizationHeader(headers) == Some(BearerPrefix + GenerateToken(users[k].id, now))
    ensures RequireAuth(users, headers) == Ok(users[k])
  {
    var token := GenerateToken(users[k].id, now);
    var header := BearerPrefix + token;
    assert header[|BearerPrefix|..] == token && StartsWith(header, BearerPrefix);
    TokenRoundTrip(users[k].id, now);
    FindById(users, k);
  }

  /**
   * Which header counts: a non-empty lower-case header decides alone and the capitalised one
   * is ignored; otherwise the capitalised one decides alone.
   */
  lemma HeaderPrecedence(users: seq<User>, headers: Headers)
    ensures headers.lower.Some? && headers.lower.value != "" ==>
      RequireAuth(users, headers) == RequireAuth(users, Headers(headers.lower, None))
    ensures !(headers.lower.Some? && headers.lower.value != "") ==>
      RequireAuth(users, headers) == RequireAuth(users, Headers(None, headers.capitalized))
  {
  }

  /** With distinct ids, looking a stored user's id up finds that user. */
  lemma FindById(users: seq<User>, k: nat)
    requires k < |users| && UniqueIds(users)
    ensures Find(users, (u: User) => u.id == users[k].id) == Some(users[k])
  {
    var found := Find(users, (u: User) => u.id == users[k].id);
    assert found.Some?;
    var i :| 0 <= i < |users| && users[i] == found.value && users[i].id == users[k].id;
    assert i == k;
  }

  /** `GET /auth/me`: the profile of the authenticated user, or 401. */
  function Me(users: seq<User>, headers: Headers): (r: Result<Profile, Failure>)
    ensures r.Ok? <==> RequireAuth(users, headers).Ok?
    ensures r.Ok? ==> exists i :: 0 <= i < |users| && r.value == ProfileOf(users[i])
    ensures r.Err? ==> r.error.status == 401
  {
    match RequireAuth(users, headers)
    case Err(e) => Err(Failure(401, e))
    case Ok(u) => Ok(ProfileOf(u))
  }

  // ---------------------------------------------------------------- login

  /** `users.find(u => u.email === email && u.password === password)`. */
  function MatchCredentials(users: seq<User>, email: string, password: string): Option<User> {
    Find(users, (u: User) => u.email == email && u.password == password)
  }

  /** `POST /auth/login`: both fields are required; the first user with that email and password wins. */
  function Login(users: seq<User>, email: string, password: string, now: nat): (r: Result<Session, Failure>)
    ensures r.Ok? <==> (email != "" && password != ""
      && exists i :: 0 <= i < |users| && users[i].email == email && users[i].password == password)
    ensures r.Ok? ==> exists i :: (0 <= i < |users| && users[i].email == email && users[i].password == password
      && r.value == Session(ProfileOf(users[i]), GenerateToken(users[i].id, now)))
    ensures r.Err? ==> r.error == (if email == "" || password == "" then Failure(400, CredentialsRequired) else Failure(401, InvalidCredentials))
  {
    if email == "" || password == "" then Err(Failure(400, CredentialsRequired))
    else match MatchCredentials(users, email, password)
      case None => Err(Failure(401, InvalidCredentials))
      case Some(u) => Ok(Session(ProfileOf(u), GenerateToken(u.id, now)))
  }

  /** No two users share an email or a username. */
  predicate UniqueLogins(users: seq<User>) {
    forall i, j :: 0 <= i < j < |users| ==> users[i].email != users[j].email && users[i].username != users[j].username
  }

  /** With unique emails, logging in with a stored user's credentials returns that user. */
  lemma LoginFindsOwner(users: seq<User>, k: nat, now: nat)
    requires k < |users| && UniqueLogins(users)
    requires users[k].email != "" && users[k].password != ""
    ensures Login(users, users[k].email, users[k].password, now)
      == Ok(Session(ProfileOf(users[k]), GenerateToken(users[k].id, now)))
  {
    var r := Login(users, users[k].email, users[k].password, now);
    var i :| 0 <= i < |users| && users[i].email == users[k].email && users[i].password == users[k].password
      && r.value == Session(ProfileOf(users[i]), GenerateToken(users[i].id, now));
    assert i == k;
  }

  // ---------------------------------------------------------------- dashboard

  /** `transactions.filter(t => t.userId === user.id)`. */
  function OwnedBy(ts: seq<Transaction>, userId: nat): seq<Transaction> {
    Filter(ts, (t: Transaction) => t.userId == userId)
  }

  function AsTxn(t: Transaction): Txn {
    Txn(KindOf(t.kind), t.amount, t.category)
  }

  /** The fields of stored transactions the sums read. */
  function Txns(ts: seq<Transaction>): (r: seq<Txn>)
    ensures |r| == |ts|
  {
    if ts == [] then [] else Txns(ts[..|ts| - 1]) + [AsTxn(ts[|ts| - 1])]
  }

  /**
   * Position of the first element of the list sorted by `created_at`, newest first. The sort
   * is stable, so among transactions created at the same time the earliest stored one is chosen.
   */
  function NewestIndex(ts: seq<Transaction>): (i: nat)
    requires ts != []
    ensures i < |ts|
  {
    if |ts| == 1 then 0
    else
      var k := NewestIndex(ts[..|ts| - 1]);
      if ts[k].createdAt >= ts[|ts| - 1].createdAt then k else |ts| - 1
  }

  /** `sortedTransactions[0] || null`. */
  function Latest(ts: seq<Transaction>): (r: Option<Transaction>)
    ensures r.None? <==> ts == []
  {
    if ts == [] then None else Some(ts[NewestIndex(ts)])
  }

  /** The chosen transaction is created no earlier than any other, and later than every one stored before it. */
  lemma {:induction false} NewestIsLatest(ts: seq<Transaction>)
    requires ts != []
    ensures forall j :: 0 <= j < |ts| ==> ts[j].createdAt <= ts[NewestIndex(ts)].createdAt
    ensures forall j :: 0 <= j < NewestIndex(ts) ==> ts[j].createdAt < ts[NewestIndex(ts)].createdAt
  {
    if |ts| > 1 {
      var init := ts[..|ts| - 1];
      NewestIsLatest(init);
      assert forall j :: 0 <= j < |init| ==> ts[j] == init[j];
    }
  }

  datatype LastTransaction = LastTransaction(description: Option<string>, amount: real, kind: string, date: string)

  datatype DashboardSummary = DashboardSummary(
    totalIncome: real,
    totalExpenses: real,
    balance: real,
    transactionCount: nat,
    lastTransaction: Option<LastTransaction>)

  /** `GET /dashboard/summary` once the user is known: figures over that user's transactions only. */
  function Dashboard(ts: seq<Transaction>, userId: nat): (r: DashboardSummary)
    ensures r.balance == r.totalIncome - r.totalExpenses
    ensures r.transactionCount == |OwnedBy(ts, userId)|
    ensures r.lastTransaction.None? <==> OwnedBy(ts, userId) == []
  {
    SummaryOf(OwnedBy(ts, userId))
  }

  function SummaryOf(mine: seq<Transaction>): (r: DashboardSummary)
    ensures r.balance == r.totalIncome - r.totalExpenses
    ensures r.transactionCount == |mine|
    ensures r.lastTransaction.None? <==> mine == []
  {
    var totalIncome := Total(OfKind(Txns(mine), Income));
    var totalExpenses := Total(OfKind(Txns(mine), Expense));
    DashboardSummary(
      totalIncome,
      totalExpenses,
      totalIncome - totalExpenses,
      |mine|,
      match Latest(mine)
      case None => None
      case Some(t) => Some(LastTransaction(t.description, t.amount, t.kind, t.date)))
  }

  function DashboardRoute(users: seq<User>, ts: seq<Transaction>, headers: Headers): (r: Result<DashboardSummary, Failure>)
    ensures r.Ok? <==> RequireAuth(users, headers).Ok?
    ensures r.Ok? ==> r.value == Dashboard(ts, RequireAuth(users, headers).value.id)
  {
    match RequireAuth(users, headers)
    case Err(e) => Err(Failure(401, e))
    case Ok(u) => Ok(Dashboard(ts, u.id))
  }

  lemma OwnedByAppend(ts: seq<Transaction>, t: Transaction, userId: nat)
    ensures OwnedBy(ts + [t], userId) == OwnedBy(ts, userId) + (if t.userId == userId then [t] else [])
  {
    assert (ts + [t])[..|ts|] == ts;
  }

  /** Another user's transaction changes nothing in a user's dashboard. */
  lemma DashboardIgnoresOthers(ts: seq<Transaction>, t: Transaction, userId: nat)
    requires t.userId != userId
    ensures Dashboard(ts + [t], userId) == Dashboard(ts, userId)
  {
    OwnedByAppend(ts, t, userId);
    assert OwnedBy(ts + [t], userId) == OwnedBy(ts, userId);
  }

  /** Sums over a list with one more transaction gain its amount under its own type only. */
  lemma TotalsAppend(ts: seq<Transaction>, t: Transaction, k: Kind)
    ensures Total(OfKind(Txns(ts + [t]), k)) == Total(OfKind(Txns(ts), k)) + (if KindOf(t.kind) == k then t.amount else 0.0)
  {
    var s := ts + [t];
    assert s[..|s| - 1] == ts;
    assert Txns(s) == Txns(ts) + [AsTxn(t)];
    FilterAppend(Txns(ts), [AsTxn(t)], (x: Txn) => x.kind == k);
    TotalAppend(OfKind(Txns(ts), k), OfKind([AsTxn(t)], k));
    assert [AsTxn(t)][..0] == [];
  }

  /** Appending a transaction: the newest one is the new transaction unless an earlier one is at least as new. */
  lemma LatestAppend(ts: seq<Transaction>, t: Transaction)
    ensures Latest(ts + [t]) == if ts != [] && Latest(ts).value.createdAt >= t.createdAt then Latest(ts) else Some(t)
  {
    assert (ts + [t])[..|ts|] == ts;
  }

  /**
   * A user's own new transaction is counted once, adds its amount to the income or expense
   * total its type names (to neither for any other type), and becomes the last transaction
   * unless an earlier one was created at the same time or later.
   */
  lemma DashboardAfterOwn(ts: seq<Transaction>, t: Transaction)
    ensures var before, after := Dashboard(ts, t.userId), Dashboard(ts + [t], t.userId);
      && after.transactionCount == before.transactionCount + 1
      && after.totalIncome == before.totalIncome + (if t.kind == "income" then t.amount else 0.0)
      && after.totalExpenses == before.totalExpenses + (if t.kind == "expense" then t.amount else 0.0)
      && after.lastTransaction.Some?
      && ((before.lastTransaction.None? || Latest(OwnedBy(ts, t.userId)).value.createdAt < t.createdAt)
          ==> after.lastTransaction == Some(LastTransaction(t.description, t.amount, t.kind, t.date)))
  {
    var mine := OwnedBy(ts, t.userId);
    OwnedByAppend(ts, t, t.userId);
    assert OwnedBy(ts + [t], t.userId) == mine + [t];
    TotalsAppend(mine, t, Income);
    TotalsAppend(mine, t, Expense);
    LatestAppend(mine, t);
  }

  // ---------------------------------------------------------------- the store

  /** The user and transaction arrays with their id counters, as the module-level variables of the function. */
  class Store {
    var users: seq<User>
    var transactions: seq<Transaction>
    var nextUserId: nat
    var nextTransactionId: nat

    /**
     * Ids come from the counters: user ids and transaction ids are positive, strictly
     * increasing in storage order and below their counter; every transaction belongs to an
     * id the user counter has handed out; emails and usernames are unique.
     */
    predicate Valid()
      reads this
    {
      && 1 <= nextUserId && 1 <= nextTransactionId
      && (forall i :: 0 <= i < |users| ==> 1 <= users[i].id < nextUserId)
      && (forall i, j :: 0 <= i < j < |users| ==> users[i].id < users[j].id)
      && UniqueLogins(users)
      && (forall i :: 0 <= i < |transactions| ==> 1 <= transactions[i].id < nextTransactionId)
      && (forall i, j :: 0 <= i < j < |transactions| ==> transactions[i].id < transactions[j].id)
      && (forall i :: 0 <= i < |transactions| ==> 1 <= transactions[i].userId < nextUserId)
    }

    constructor ()
      ensures Valid()
      ensures users == [] && transactions == [] && nextUserId == 1 && nextTransactionId == 1
    {
      users, transactions := [], [];
      nextUserId, nextTransactionId := 1, 1;
    }

    /**
     * `POST /auth/register`: all three fields are required and neither the email nor the
     * username may be taken; otherwise the user is stored with the next id and a token is issued.
     */
    method Register(username: string, email: string, password: string, now: nat) returns (r: Result<Session, Failure>)
      requires Valid()
      modifies this
      ensures Valid()
      ensures transactions == old(transactions) && nextTransactionId == old(nextTransactionId)
      ensures username == "" || email == "" || password == "" ==>
        r == Err(Failure(400, AllFieldsRequired)) && users == old(users) && nextUserId == old(nextUserId)
      ensures username != "" && email != "" && password != "" && Taken(old(users), username, email) ==>
        r == Err(Failure(400, UserExists)) && users == old(users) && nextUserId == old(nextUserId)
      ensures username != "" && email != "" && password != "" && !Taken(old(users), username, email) ==>
        var u := User(old(nextUserId), username, email, password, now);
        && users == old(users) + [u]
        && nextUserId == old(nextUserId) + 1
        && r == Ok(Session(ProfileOf(u), GenerateToken(u.id, now)))
    {
      if username == "" || email == "" || password == "" {
        return Err(Failure(400, AllFieldsRequired));
      }
      var existing := Find(users, (u: User) => u.email == email || u.username == username);
      if existing.Some? {
        return Err(Failure(400, UserExists));
      }
      var user := User(nextUserId, username, email, password, now);
      nextUserId := nextUserId + 1;
      users := users + [user];
      r := Ok(Session(ProfileOf(user), GenerateToken(user.id, now)));
    }

    /** `transactions.push(t)` with `t.id = nextTransactionId++`, for a transaction of a known user id. */
    method Push(t: Transaction)
      requires Valid() && t.id == nextTransactionId && 1 <= t.userId < nextUserId
      modifies this
      ensures Valid()
      ensures transactions == old(transactions) + [t] && nextTransactionId == old(nextTransactionId) + 1
      ensures users == old(users) && nextUserId == old(nextUserId)
    {
      nextTransactionId := nextTransactionId + 1;
      transactions := transactions + [t];
    }

    /**
     * `POST /transactions`: the caller must be authenticated (401), and amount, type and
     * category are required (400); otherwise the transaction is stored with the next id, the
     * caller's id, `null` for a missing description and today for a missing date.
     */
    method CreateTransaction(headers: Headers, description: string, amount: real, kind: string,
                             category: string, date: string, today: string, now: nat)
      returns (r: Result<Transaction, Failure>)
      requires Valid()
      modifies this
      ensures Valid()
      ensures users == old(users) && nextUserId == old(nextUserId)
      ensures RequireAuth(old(users), headers).Err? ==>
        && r == Err(Failure(401, RequireAuth(old(users), headers).error))
        && transactions == old(transactions) && nextTransactionId == old(nextTransactionId)
      ensures RequireAuth(old(users), headers).Ok? && (amount == 0.0 || kind == "" || category == "") ==>
        && r == Err(Failure(400, AmountTypeCategoryRequired))
        && transactions == old(transactions) && nextTransactionId == old(nextTransactionId)
      ensures RequireAuth(old(users), headers).Ok? && amount != 0.0 && kind != "" && category != "" ==>
        var t := Transaction(old(nextTransactionId), RequireAuth(old(users), headers).value.id,
          if description == "" then None else Some(description), amount, kind, category,
          if date == "" then today else date, now);
        && r == Ok(t)
        && transactions == old(transactions) + [t]
        && nextTransactionId == old(nextTransactionId) + 1
    {
      var auth := RequireAuth(users, headers);
      if auth.Err? {
        return Err(Failure(401, auth.error));
      }
      var user := auth.value;
      if amount == 0.0 || kind == "" || category == "" {
        return Err(Failure(400, AmountTypeCategoryRequired));
      }
      assert 1 <= user.id < nextUserId by {
        var k :| 0 <= k < |users| && users[k] == user;
      }
      var transaction := Transaction(
        nextTransactionId, user.id,
        if description == "" then None else Some(description),
        amount, kind, category,
        if date == "" then today else date,
        now);
      Push(transaction);
      r := Ok(transaction);
    }
  }

  /** `users.find(u => u.email === email || u.username === username)` finds someone. */
  predicate Taken(users: seq<User>, username: string, email: string) {
    exists i :: 0 <= i < |users| && (users[i].email == email || users[i].username == username)
  }

  /** `GET /transactions`: the caller's transactions, in stored order, or 401. */
  function ListTransactions(users: seq<User>, ts: seq<Transaction>, headers: Headers): (r: Result<seq<Transaction>, Failure>)
    ensures r.Ok? <==> RequireAuth(users, headers).Ok?
    ensures r.Ok? ==> r.value == OwnedBy(ts, RequireAuth(users, headers).value.id)
    ensures r.Err? ==> r.error.status == 401
  {
    match RequireAuth(users, headers)
    case Err(e) => Err(Failure(401, e))
    case Ok(u) => Ok(OwnedBy(ts, u.id))
  }

  /** The listed transactions are exactly the caller's: none of anyone else's, all of their own. */
  lemma ListingIsExact(ts: seq<Transaction>, userId: nat)
    ensures forall t :: t in OwnedBy(ts, userId) ==> t in ts && t.userId == userId
    ensures forall i :: 0 <= i < |ts| && ts[i].userId == userId ==> ts[i] in OwnedBy(ts, userId)
  {
    var p := (t: Transaction) => t.userId == userId;
    FilterSubset(ts, p);
    forall t | t in OwnedBy(ts, userId) ensures t in ts && t.userId == userId {
      assert t in multiset(OwnedBy(ts, userId));
    }
    forall i | 0 <= i < |ts| && ts[i].userId == userId ensures ts[i] in OwnedBy(ts, userId) {
      FilterKeeps(ts, p, i);
    }
  }

  // ---------------------------------------------------------------- savings analysis

  /** The savings-rate bands, tested from the top: at least 80, 50, 20, above 0, otherwise. */
  datatype Band = ExcellentSavings | GoodSavings | ModerateSavings | LowSavings | Overspending

  /** `spendingPattern`; Beginner only for a user without transactions. */
  datatype Pattern = Beginner | Conservative | Balanced | Moderate | HighRisk

  /** `riskLevel`; Neutral only for a user without transactions. */
  datatype Risk = RiskNeutral | RiskLow | RiskMedium | RiskHigh

  /**
   * The insight texts, by identity: a band's text with the rate it prints (the overspending
   * text prints none), the largest category's share, and the three texts for a newcomer.
   */
  datatype Note =
    | RateNote(band: Band, rate: real)
    | OverspendingNote
    | TopShareNote(category: string, percentage: real)
    | NoTransactionsYet
    | StartAdding
    | ControlFirstStep

  /** The suggestion texts, by identity. */
  datatype Tip = BandTip(band: Band) | FirstTransaction | DefineCategories | MonthlyTargets

  datatype RateSummary = RateSummary(totalIncome: real, totalExpenses: real, balance: real, savingsRate: int)

  datatype CategoryShare = CategoryShare(category: string, amount: real, percentage: real)

  datatype SavingsReport = SavingsReport(
    summary: RateSummary,
    categoryBreakdown: seq<CategoryShare>,
    insights: seq<Note>,
    suggestions: seq<Tip>,
    spendingPattern: Pattern,
    riskLevel: Risk)

  /** `totalIncome > 0 ? (balance / totalIncome) * 100 : 0`. */
  function SavingsRate(totalIncome: real, totalExpenses: real): real {
    if totalIncome > 0.0 then (totalIncome - totalExpenses) / totalIncome * 100.0 else 0.0
  }

  /** `Math.round`: the nearest integer, a half rounded up. */
  function Round(x: real): (n: int)
    ensures n as real - 0.5 <= x < n as real + 0.5
  {
    (x + 0.5).Floor
  }

  function BandOf(rate: real): Band {
    if rate >= 80.0 then ExcellentSavings
    else if rate >= 50.0 then GoodSavings
    else if rate >= 20.0 then ModerateSavings
    else if rate > 0.0 then LowSavings
    else Overspending
  }

  function BandNote(band: Band, rate: real): Note {
    if band == Overspending then OverspendingNote else RateNote(band, rate)
  }

  function PatternOf(rate: real): Pattern {
    if rate >= 70.0 then Conservative
    else if rate >= 40.0 then Balanced
    else if rate >= 10.0 then Moderate
    else HighRisk
  }

  function RiskOf(rate: real): Risk {
    if rate >= 70.0 then RiskLow
    else if rate >= 40.0 then RiskLow
    else if rate >= 10.0 then RiskMedium
    else RiskHigh
  }

  /** `percentage: totalExpenses > 0 ? (amount / totalExpenses) * 100 : 0`. */
  function Percentage(amount: real, totalExpenses: real): real {
    if totalExpenses > 0.0 then amount / totalExpenses * 100.0 else 0.0
  }

  /** `Object.entries(categoryBreakdown).map(...)`, one share per dictionary entry, in order. */
  function Shares(es: seq<Entry>, totalExpenses: real): (r: seq<CategoryShare>)
    ensures |r| == |es|
  {
    if es == [] then []
    else [CategoryShare(es[0].category, es[0].total, Percentage(es[0].total, totalExpenses))] + Shares(es[1..], totalExpenses)
  }

  function PercentSum(cs: seq<CategoryShare>): real {
    if cs == [] then 0.0 else cs[0].percentage + PercentSum(cs[1..])
  }

  /** The fixed reply for a user without transactions. */
  const StarterReport := SavingsReport(
    RateSummary(0.0, 0.0, 0.0, 0),
    [],
    [NoTransactionsYet, StartAdding, ControlFirstStep],
    [FirstTransaction, DefineCategories, MonthlyTargets],
    Beginner,
    RiskNeutral)

  /** The expense transactions among a user's transactions. */
  function Expenses(mine: seq<Transaction>): seq<Txn> {
    OfKind(Txns(mine), Expense)
  }

  /**
   * The analysis once the two totals and the sorted dictionary entries are known. The source
   * maps the entries to shares and then sorts by amount; the comparator reads only the amount,
   * so sorting the entries first gives the same list.
   */
  function ReportFrom(totalIncome: real, totalExpenses: real, sorted: seq<Entry>): SavingsReport {
    var rate := SavingsRate(totalIncome, totalExpenses);
    var categoryArray := Shares(sorted, totalExpenses);
    var band := BandOf(rate);
    SavingsReport(
      RateSummary(totalIncome, totalExpenses, totalIncome - totalExpenses, Round(rate)),
      categoryArray,
      [BandNote(band, rate)] + (if sorted == [] then [] else [TopShareNote(categoryArray[0].category, categoryArray[0].percentage)]),
      [BandTip(band)],
      PatternOf(rate),
      RiskOf(rate))
  }

  /** The analysis of one user's transactions. */
  function SavingsReportOf(mine: seq<Transaction>): SavingsReport {
    if mine == [] then StarterReport
    else ReportFrom(Total(OfKind(Txns(mine), Income)), Total(Expenses(mine)), SortDesc(Tally(Expenses(mine))))
  }

  /** The `forEach` that fills `categoryBreakdown` one expense at a time. */
  method BreakdownByCategory(expenses: seq<Txn>) returns (categoryBreakdown: seq<Entry>)
    ensures categoryBreakdown == Tally(expenses)
  {
    categoryBreakdown := [];
    var i := 0;
    while i < |expenses|
      invariant i <= |expenses|
      invariant categoryBreakdown == Tally(expenses[..i])
    {
      assert expenses[..i + 1][..i] == expenses[..i];
      categoryBreakdown := Add(categoryBreakdown, expenses[i].category, expenses[i].amount);
      i := i + 1;
    }
    assert expenses[..i] == expenses;
  }

  /** The band chain: exactly one insight and one suggestion, from the first threshold the rate meets. */
  method PushBand(savingsRate: real, insights: seq<Note>, suggestions: seq<Tip>) returns (insights': seq<Note>, suggestions': seq<Tip>)
    ensures insights' == insights + [BandNote(BandOf(savingsRate), savingsRate)]
    ensures suggestions' == suggestions + [BandTip(BandOf(savingsRate))]
  {
    if savingsRate >= 80.0 {
      insights' := insights + [RateNote(ExcellentSavings, savingsRate)];
      suggestions' := suggestions + [BandTip(ExcellentSavings)];
    } else if savingsRate >= 50.0 {
      insights' := insights + [RateNote(GoodSavings, savingsRate)];
      suggestions' := suggestions + [BandTip(GoodSavings)];
    } else if savingsRate >= 20.0 {
      insights' := insights + [RateNote(ModerateSavings, savingsRate)];
      suggestions' := suggestions + [BandTip(ModerateSavings)];
    } else if savingsRate > 0.0 {
      insights' := insights + [RateNote(LowSavings, savingsRate)];
      suggestions' := suggestions + [BandTip(LowSavings)];
    } else {
      insights' := insights + [OverspendingNote];
      suggestions' := suggestions + [BandTip(Overspending)];
    }
  }

  /** The top-category insight, pushed when the breakdown is not empty. */
  method PushTopShare(categoryArray: seq<CategoryShare>, insights: seq<Note>) returns (insights': seq<Note>)
    ensures insights' == insights + (if categoryArray == [] then [] else [TopShareNote(categoryArray[0].category, categoryArray[0].percentage)])
  {
    insights' := insights;
    if |categoryArray| > 0 {
      insights' := insights' + [TopShareNote(categoryArray[0].category, categoryArray[0].percentage)];
    }
  }

  /** The `spendingPattern`/`riskLevel` chain. */
  method Classify(savingsRate: real) returns (spendingPattern: Pattern, riskLevel: Risk)
    ensures spendingPattern == PatternOf(savingsRate) && riskLevel == RiskOf(savingsRate)
  {
    if savingsRate >= 70.0 {
      spendingPattern, riskLevel := Conservative, RiskLow;
    } else if savingsRate >= 40.0 {
      spendingPattern, riskLevel := Balanced, RiskLow;
    } else if savingsRate >= 10.0 {
      spendingPattern, riskLevel := Moderate, RiskMedium;
    } else {
      spendingPattern, riskLevel := HighRisk, RiskHigh;
    }
  }

  /**
   * The `POST /ai/analyze` engine: sums, the per-category dictionary, the shares, then one
   * band insight and suggestion, the top-category insight, pattern and risk.
   */
  method AnalyzeSavings(mine: seq<Transaction>) returns (r: SavingsReport)
    ensures r == SavingsReportOf(mine)
  {
    if |mine| == 0 {
      return StarterReport;
    }
    var txns := Txns(mine);
    var totalIncome := Total(OfKind(txns, Income));
    var expenses := OfKind(txns, Expense);
    var totalExpenses := Total(expenses);
    var balance := totalIncome - totalExpenses;
    var savingsRate := if totalIncome > 0.0 then balance / totalIncome * 100.0 else 0.0;

    var categoryBreakdown := BreakdownByCategory(expenses);
    var sorted := SortDesc(categoryBreakdown);
    var categoryArray := Shares(sorted, totalExpenses);

    assert savingsRate == SavingsRate(totalIncome, totalExpenses);
    var insights, suggestions := PushBand(savingsRate, [], []);
    insights := PushTopShare(categoryArray, insights);
    var spendingPattern, riskLevel := Classify(savingsRate);

    r := SavingsReport(
      RateSummary(totalIncome, totalExpenses, balance, Round(savingsRate)),
      categoryArray, insights, suggestions, spendingPattern, riskLevel);
    assert r == ReportFrom(totalIncome, totalExpenses, sorted);
  }

  /** `POST /ai/analyze`: 401 without a valid token, otherwise the analysis of the caller's transactions. */
  function AnalyzeRoute(users: seq<User>, ts: seq<Transaction>, headers: Headers): (r: Result<SavingsReport, Failure>)
    ensures r.Ok? <==> RequireAuth(users, headers).Ok?
    ensures r.Ok? ==> r.value == SavingsReportOf(OwnedBy(ts, RequireAuth(users, headers).value.id))
  {
    match RequireAuth(users, headers)
    case Err(e) => Err(Failure(401, e))
    case Ok(u) => Ok(SavingsReportOf(OwnedBy(ts, u.id)))
  }

  /**
   * A user without transactions gets the fixed reply; any other user gets exactly one band
   * insight first and exactly one band suggestion, plus a second insight exactly when some
   * expense exists, and a pattern and risk other than the newcomer's.
   */
  lemma OneBandPerReport(mine: seq<Transaction>)
    ensures var r := SavingsReportOf(mine);
      && (mine == [] ==> r == StarterReport && |r.insights| == 3 && |r.suggestions| == 3 && r.summary.savingsRate == 0)
      && (mine != [] ==>
          var rate := SavingsRate(r.summary.totalIncome, r.summary.totalExpenses);
          && r.suggestions == [BandTip(BandOf(rate))]
          && r.insights[0] == BandNote(BandOf(rate), rate)
          && (|r.insights| == 2 <==> Expenses(mine) != [])
          && |r.insights| <= 2
          && r.spendingPattern != Beginner && r.riskLevel != RiskNeutral)
  {
    if mine != [] {
      var expenses := Expenses(mine);
      if expenses != [] {
        TallyKeys(expenses);
        assert Mentions(expenses, expenses[0].category);
        assert HasKey(Tally(expenses), expenses[0].category);
      }
    }
  }

  lemma ScaleByPositive(q: real, c: real, k: real)
    requires k > 0.0
    ensures q >= c <==> q * k >= c * k
    ensures q > c <==> q * k > c * k
  {
    if q >= c {
      assert (q - c) * k >= 0.0;
    }
    if q > c {
      assert (q - c) * k > 0.0;
    }
    if q < c {
      assert (c - q) * k > 0.0;
    }
  }

  /**
   * The band read off the two totals: saving at least 80% means spending at most a fifth of the
   * income, and so on down; without income, or spending all of it or more, the band is overspending.
   */
  lemma BandByTotals(totalIncome: real, totalExpenses: real)
    ensures var band := BandOf(SavingsRate(totalIncome, totalExpenses));
      && (band == Overspending <==> totalIncome <= 0.0 || totalExpenses >= totalIncome)
      && (band == ExcellentSavings <==> totalIncome > 0.0 && 5.0 * totalExpenses <= totalIncome)
      && (band == GoodSavings <==> totalIncome > 0.0 && totalIncome < 5.0 * totalExpenses && 2.0 * totalExpenses <= totalIncome)
      && (band == ModerateSavings <==> totalIncome > 0.0 && totalIncome < 2.0 * totalExpenses && 5.0 * totalExpenses <= 4.0 * totalIncome)
      && (band == LowSavings <==> totalIncome > 0.0 && 4.0 * totalIncome < 5.0 * totalExpenses && totalExpenses < totalIncome)
  {
    if totalIncome > 0.0 {
      RateThreshold(totalIncome, totalExpenses, 80.0);
      RateThreshold(totalIncome, totalExpenses, 50.0);
      RateThreshold(totalIncome, totalExpenses, 20.0);
      RateThreshold(totalIncome, totalExpenses, 0.0);
    }
  }

  /** With income, the rate reaches a threshold exactly when the balance reaches that share of the income. */
  lemma RateThreshold(totalIncome: real, totalExpenses: real, t: real)
    requires totalIncome > 0.0
    ensures SavingsRate(totalIncome, totalExpenses) >= t <==> (totalIncome - totalExpenses) * 100.0 >= t * totalIncome
    ensures SavingsRate(totalIncome, totalExpenses) > t <==> (totalIncome - totalExpenses) * 100.0 > t * totalIncome
  {
    var rate := SavingsRate(totalIncome, totalExpenses);
    assert rate * totalIncome == (totalIncome - totalExpenses) * 100.0;
    ScaleByPositive(rate, t, totalIncome);
  }

  /**
   * The two classifications agree: a rate of 50% or more is low risk, any rate of 10% or less
   * (overspending included) is high risk, and a low-savings band is never low risk.
   */
  lemma BandsAgree(rate: real)
    ensures BandOf(rate) in {ExcellentSavings, GoodSavings} ==> RiskOf(rate) == RiskLow && PatternOf(rate) in {Conservative, Balanced}
    ensures BandOf(rate) == Overspending ==> RiskOf(rate) == RiskHigh && PatternOf(rate) == HighRisk
    ensures BandOf(rate) == LowSavings ==> RiskOf(rate) != RiskLow
    ensures RiskOf(rate) == RiskHigh <==> rate < 10.0
    ensures RiskOf(rate) == RiskLow <==> rate >= 40.0
  {
  }

  lemma {:induction false} SharesAt(es: seq<Entry>, totalExpenses: real, i: nat)
    requires i < |es|
    ensures Shares(es, totalExpenses)[i] == CategoryShare(es[i].category, es[i].total, Percentage(es[i].total, totalExpenses))
  {
    if i > 0 {
      SharesAt(es[1..], totalExpenses, i - 1);
    }
  }

  /** With a positive expense total the shares add up to the entries' sum over that total, in percent. */
  lemma {:induction false} PercentSumShares(es: seq<Entry>, totalExpenses: real)
    requires totalExpenses > 0.0
    ensures PercentSum(Shares(es, totalExpenses)) == SumTotals(es) / totalExpenses * 100.0
  {
    if es != [] {
      PercentSumShares(es[1..], totalExpenses);
      assert es[0].total / totalExpenses * 100.0 + SumTotals(es[1..]) / totalExpenses * 100.0
        == (es[0].total + SumTotals(es[1..])) / totalExpenses * 100.0;
    }
  }

  /** The shares mirror the entries one by one. */
  lemma SharesMirror(es: seq<Entry>, totalExpenses: real)
    ensures forall i :: 0 <= i < |es| ==>
      Shares(es, totalExpenses)[i] == CategoryShare(es[i].category, es[i].total, Percentage(es[i].total, totalExpenses))
  {
    forall i | 0 <= i < |es| ensures Shares(es, totalExpenses)[i]
      == CategoryShare(es[i].category, es[i].total, Percentage(es[i].total, totalExpenses)) {
      SharesAt(es, totalExpenses, i);
    }
  }

  /** For a user with transactions, the breakdown is the shares of the sorted expense dictionary. */
  lemma BreakdownIs(mine: seq<Transaction>)
    requires mine != []
    ensures SavingsReportOf(mine).categoryBreakdown == Shares(SortDesc(Tally(Expenses(mine))), Total(Expenses(mine)))
    ensures SavingsReportOf(mine).summary.totalExpenses == Total(Expenses(mine))
  {
  }

  /** The breakdown is sorted by descending amount and names each category once. */
  lemma BreakdownOrdered(mine: seq<Transaction>)
    requires mine != []
    ensures var cs := SavingsReportOf(mine).categoryBreakdown;
      && (forall i, j :: 0 <= i < j < |cs| ==> cs[i].amount >= cs[j].amount)
      && (forall i, j :: 0 <= i < j < |cs| ==> cs[i].category != cs[j].category)
  {
    var expenses := Expenses(mine);
    var sorted := SortDesc(Tally(expenses));
    BreakdownIs(mine);
    SortedTallyShape(expenses);
    SharesMirror(sorted, Total(expenses));
  }

  /** When the expense total is positive the breakdown's percentages add up to 100. */
  lemma BreakdownPercent(mine: seq<Transaction>)
    requires mine != [] && SavingsReportOf(mine).summary.totalExpenses > 0.0
    ensures PercentSum(SavingsReportOf(mine).categoryBreakdown) == 100.0
  {
    var expenses := Expenses(mine);
    var total := Total(expenses);
    var sorted := SortDesc(Tally(expenses));
    BreakdownIs(mine);
    SortedTallySum(expenses);
    PercentSumShares(sorted, total);
    WholeIsHundredPercent(total);
  }

  lemma SortedTallySum(ts: seq<Txn>)
    ensures SumTotals(SortDesc(Tally(ts))) == Total(ts)
  {
    SortedTallyShape(ts);
  }

  lemma WholeIsHundredPercent(x: real)
    requires x > 0.0
    ensures x / x * 100.0 == 100.0
  {
  }

  /** The breakdown names exactly the expense categories, each with the sum of its expenses. */
  lemma BreakdownExact(mine: seq<Transaction>)
    requires mine != []
    ensures var cs := SavingsReportOf(mine).categoryBreakdown; var expenses := Expenses(mine);
      && (forall i :: 0 <= i < |cs| ==> Mentions(expenses, cs[i].category) && cs[i].amount == Total(OfCategory(expenses, cs[i].category)))
      && (forall c :: Mentions(expenses, c) ==> exists i :: 0 <= i < |cs| && cs[i].category == c)
  {
    BreakdownIs(mine);
    TallySharesExact(Expenses(mine), Total(Expenses(mine)));
  }

  /** The shares of a sorted dictionary name exactly the list's categories, each with its sum. */
  lemma TallySharesExact(xs: seq<Txn>, total: real)
    ensures var cs := Shares(SortDesc(Tally(xs)), total);
      && (forall i :: 0 <= i < |cs| ==> Mentions(xs, cs[i].category) && cs[i].amount == Total(OfCategory(xs, cs[i].category)))
      && (forall c :: Mentions(xs, c) ==> exists i :: 0 <= i < |cs| && cs[i].category == c)
  {
    var sorted := SortDesc(Tally(xs));
    var cs := Shares(sorted, total);
    SortedTallyEntries(xs);
    SharesMirror(sorted, total);
    forall i | 0 <= i < |cs| ensures Mentions(xs, cs[i].category) {
      assert HasKey(sorted, sorted[i].category);
    }
    forall c | Mentions(xs, c) ensures exists i :: 0 <= i < |cs| && cs[i].category == c {
      assert HasKey(sorted, c);
      var i :| 0 <= i < |sorted| && sorted[i].category == c;
      assert cs[i].category == c;
    }
  }
}
