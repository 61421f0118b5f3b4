/**
 * The in-memory fallback of the serverless database layer (`netlify/functions/database.js`):
 * when Supabase is not configured, users and transactions live in two module-level arrays
 * with two id counters, and every record is a plain object built with the spread operator.
 *
 * Records are modelled as maps from field names to JSON values, so `{ ...a, ...b }` is the
 * right-biased map union `a + b`: a field of `b` replaces the same field of `a`. Reading a
 * field the record lacks gives `undefined`, which never equals a defined value.
 */
module FallbackDatabase {
  import opened Wrappers
  import opened Collections

  // ---------------------------------------------------------------- configuration

  const PlaceholderUrl := "https://" + "your-project." + "supabase.co"
  const PlaceholderKey := "your-" + "anon-key"

  /** `process.env.X || fallback`: an unset or empty variable gives the fallback. */
  function EnvOr(env: Option<string>, fallback: string): string {
    if env.Some? && env.value != "" then env.value else fallback
  }

  /**
   * `checkSupabaseConfig`: the URL and key fall back to placeholders when their variables
   * are unset, and the configuration counts only when neither is a placeholder.
   */
  function SupabaseConfigured(urlEnv: Option<string>, keyEnv: Option<string>): (r: bool)
    ensures r <==> (urlEnv.Some? && urlEnv.value != "" && urlEnv.value != PlaceholderUrl
                    && keyEnv.Some? && keyEnv.value != "" && keyEnv.value != PlaceholderKey)
  {
    var url := EnvOr(urlEnv, PlaceholderUrl);
    var key := EnvOr(keyEnv, PlaceholderKey);
    url != "" && url != PlaceholderUrl && key != "" && key != PlaceholderKey
  }

  // ---------------------------------------------------------------- records

  /** A JSON value as a field of a stored record can hold it. */
  datatype Value = Num(x: real) | Text(s: string) | Bool(b: bool) | Null

  /** A plain object: its own fields and their values. */
  type Record = map<string, Value>

  /** `rec.field === v`: the field is present and holds `v`. */
  predicate FieldIs(rec: Record, field: string, v: Value) {
    field in rec && rec[field] == v
  }

  /** `{ id, ...data, created_at: now }`: the fresh id first, so a field `id` in `data` replaces it. */
  function Created(id: nat, data: Record, now: string): (rec: Record)
    ensures FieldIs(rec, "created_at", Text(now))
    ensures "id" !in data ==> FieldIs(rec, "id", Num(id as real))
    ensures forall k :: k != "created_at" && k in data ==> FieldIs(rec, k, data[k])
    ensures forall k :: k in rec ==> k in data || k == "id" || k == "created_at"
  {
    (map["id" := Num(id as real)] + data)["created_at" := Text(now)]
  }

  /** `{ ...rec, ...updates }`: the fields of `updates` win, every other field is kept. */
  function Overlay(rec: Record, updates: Record): (r: Record)
    ensures forall k :: k in updates ==> FieldIs(r, k, updates[k])
    ensures forall k :: k !in updates ==> (k in r <==> k in rec) && (k in rec ==> r[k] == rec[k])
  {
    rec + updates
  }

  // ---------------------------------------------------------------- ids

  predicate HasNumId(rec: Record) {
    "id" in rec && rec["id"].Num?
  }

  function IdNum(rec: Record): real
    requires HasNumId(rec)
  {
    rec["id"].x
  }

  /**
   * Ids as the counter hands them out: every record has a numeric id below the counter,
   * and ids increase strictly in storage order, so no two records share one.
   */
  predicate IdsAscending(recs: seq<Record>, next: nat) {
    && (forall i :: 0 <= i < |recs| ==> HasNumId(recs[i]) && IdNum(recs[i]) < next as real)
    && (forall i, j :: 0 <= i < j < |recs| ==> IdNum(recs[i]) < IdNum(recs[j]))
  }

  /** Appending a record with the counter's id and moving the counter on keeps ids ascending. */
  lemma AppendFresh(recs: seq<Record>, next: nat, rec: Record)
    requires IdsAscending(recs, next)
    requires FieldIs(rec, "id", Num(next as real))
    ensures IdsAscending(recs + [rec], next + 1)
  {
    var rs := recs + [rec];
    forall i, j | 0 <= i < j < |rs| ensures IdNum(rs[i]) < IdNum(rs[j]) {
      if j < |recs| {
        assert rs[i] == recs[i] && rs[j] == recs[j];
      }
    }
  }

  /** Removing one record keeps the rest ascending. */
  lemma RemoveKeepsAscending(recs: seq<Record>, next: nat, k: nat)
    requires IdsAscending(recs, next) && k < |recs|
    ensures IdsAscending(recs[..k] + recs[k + 1..], next)
  {
    var rs := recs[..k] + recs[k + 1..];
    assert forall i :: 0 <= i < |rs| ==> rs[i] == recs[if i < k then i else i + 1];
  }

  /** Replacing a record by one with the same id keeps ids ascending. */
  lemma ReplaceKeepsAscending(recs: seq<Record>, next: nat, k: nat, rec: Record)
    requires IdsAscending(recs, next) && k < |recs|
    requires "id" in rec && rec["id"] == recs[k]["id"]
    ensures IdsAscending(recs[k := rec], next)
  {
  }

  /** `arr.find(r => r[field] === v)` and its `findIndex`. */
  function Matching(field: string, v: Value): Record -> bool {
    (rec: Record) => FieldIs(rec, field, v)
  }

  /** Not-found error of `updateTransaction` and `deleteTransaction`. */
  datatype Failure = TransactionNotFound

  // ---------------------------------------------------------------- the store

  /** The fallback arrays and counters; they start empty and at 1. */
  class FallbackStore {
    var users: seq<Record>
    var transactions: seq<Record>
    var nextUserId: nat
    var nextTransactionId: nat

    constructor ()
      ensures users == [] && transactions == [] && nextUserId == 1 && nextTransactionId == 1
      ensures IdsAscending(users, nextUserId) && IdsAscending(transactions, nextTransactionId)
    {
      users, transactions := [], [];
      nextUserId, nextTransactionId := 1, 1;
    }

    /**
     * `createUser`: the user gets the next id and the creation time and is appended, with no
     * check that the email is already taken.
     */
    method CreateUser(userData: Record, now: string) returns (user: Record)
      modifies this
      ensures user == Created(old(nextUserId), userData, now)
      ensures users == old(users) + [user] && nextUserId == old(nextUserId) + 1
      ensures transactions == old(transactions) && nextTransactionId == old(nextTransactionId)
      ensures "id" !in userData && old(IdsAscending(users, nextUserId)) ==> IdsAscending(users, nextUserId)
    {
      user := Created(nextUserId, userData, now);
      if "id" !in userData && IdsAscending(users, nextUserId) {
        AppendFresh(users, nextUserId, user);
      }
      nextUserId := nextUserId + 1;
      users := users + [user];
    }

    /**
     * `findUserByEmail` and `findUserById`: the first user whose field `key` holds the given
     * value, or null.
     */
    function FindUserBy(key: string, value: Value): (r: Option<Record>)
      reads this
      ensures r.Some? <==> exists i :: 0 <= i < |users| && FieldIs(users[i], key, value)
      ensures r.Some? ==>
        exists i :: 0 <= i < |users| && users[i] == r.value && FieldIs(users[i], key, value)
          && forall j :: 0 <= j < i ==> !FieldIs(users[j], key, value)
    {
      Find(users, Matching(key, value))
    }

    /** `createTransaction`: the transaction gets the next id and the creation time and is appended. */
    method CreateTransaction(transactionData: Record, now: string) returns (t: Record)
      modifies this
      ensures t == Created(old(nextTransactionId), transactionData, now)
      ensures transactions == old(transactions) + [t] && nextTransactionId == old(nextTransactionId) + 1
      ensures users == old(users) && nextUserId == old(nextUserId)
      ensures "id" !in transactionData && old(IdsAscending(transactions, nextTransactionId)) ==>
        IdsAscending(transactions, nextTransactionId)
        && forall i :: 0 <= i < |old(transactions)| ==> IdNum(old(transactions)[i]) < IdNum(t)
    {
      t := Created(nextTransactionId, transactionData, now);
      if "id" !in transactionData && IdsAscending(transactions, nextTransactionId) {
        AppendFresh(transactions, nextTransactionId, t);
      }
      nextTransactionId := nextTransactionId + 1;
      transactions := transactions + [t];
    }

    /** `getUserTransactions`: the transactions whose `userId` is the given one, in stored order. */
    function UserTransactions(userId: Value): (r: seq<Record>)
      reads this
      ensures forall i :: 0 <= i < |r| ==> FieldIs(r[i], "userId", userId)
      ensures multiset(r) <= multiset(transactions)
    {
      FilterSubset(transactions, Matching("userId", userId));
      Filter(transactions, Matching("userId", userId))
    }

    /**
     * `updateTransaction`: the updates are spread over the first transaction with that id,
     * which stays in place; without such a transaction the error comes back and nothing changes.
     */
    method UpdateTransaction(id: Value, updates: Record) returns (r: Result<Record, Failure>)
      modifies this
      ensures users == old(users) && nextUserId == old(nextUserId) && nextTransactionId == old(nextTransactionId)
      ensures |transactions| == |old(transactions)|
      ensures match FindIndex(old(transactions), Matching("id", id))
        case None => r == Err(TransactionNotFound) && transactions == old(transactions)
        case Some(k) =>
          && r == Ok(Overlay(old(transactions)[k], updates))
          && transactions == old(transactions)[k := Overlay(old(transactions)[k], updates)]
      ensures "id" !in updates && old(IdsAscending(transactions, nextTransactionId)) ==>
        IdsAscending(transactions, nextTransactionId)
    {
      var index := FindIndex(transactions, Matching("id", id));
      if index.None? {
        return Err(TransactionNotFound);
      }
      var k := index.value;
      var updated := Overlay(transactions[k], updates);
      if "id" !in updates && IdsAscending(transactions, nextTransactionId) {
        ReplaceKeepsAscending(transactions, nextTransactionId, k, updated);
      }
      transactions := transactions[k := updated];
      r := Ok(updated);
    }

    /**
     * `deleteTransaction`: the first transaction with that id is spliced out and returned;
     * without such a transaction the error comes back and nothing changes.
     */
    method DeleteTransaction(id: Value) returns (r: Result<Record, Failure>)
      modifies this
      ensures users == old(users) && nextUserId == old(nextUserId) && nextTransactionId == old(nextTransactionId)
      ensures match FindIndex(old(transactions), Matching("id", id))
        case None => r == Err(TransactionNotFound) && transactions == old(transactions)
        case Some(k) =>
          && r == Ok(old(transactions)[k])
          && transactions == old(transactions)[..k] + old(transactions)[k + 1..]
      ensures old(IdsAscending(transactions, nextTransactionId)) ==> IdsAscending(transactions, nextTransactionId)
    {
      var index := FindIndex(transactions, Matching("id", id));
      if index.None? {
        return Err(TransactionNotFound);
      }
      var k := index.value;
      var deleted := transactions[k];
      if IdsAscending(transactions, nextTransactionId) {
        RemoveKeepsAscending(transactions, nextTransactionId, k);
      }
      transactions := transactions[..k] + transactions[k + 1..];
      r := Ok(deleted);
    }
  }

  // ---------------------------------------------------------------- properties

  /** The listing is exact: it holds every transaction of the user and only those, in stored order. */
  lemma UserListingExact(ts: seq<Record>, userId: Value)
    ensures var mine := Filter(ts, Matching("userId", userId));
      && (forall i :: 0 <= i < |ts| && FieldIs(ts[i], "userId", userId) ==> ts[i] in mine)
      && (forall t :: t in mine ==> t in ts && FieldIs(t, "userId", userId))
  {
    var p := Matching("userId", userId);
    var mine := Filter(ts, p);
    forall i | 0 <= i < |ts| && FieldIs(ts[i], "userId", userId) ensures ts[i] in mine {
      FilterKeeps(ts, p, i);
    }
    FilterSubset(ts, p);
    forall t | t in mine ensures t in ts && FieldIs(t, "userId", userId) {
      assert t in multiset(mine);
    }
  }

  /** A transaction stored for another user leaves a user's listing as it was; one of theirs joins its end. */
  lemma ListingAfterCreate(ts: seq<Record>, t: Record, userId: Value)
    ensures Filter(ts + [t], Matching("userId", userId))
      == Filter(ts, Matching("userId", userId)) + (if FieldIs(t, "userId", userId) then [t] else [])
  {
    FilterAppend(ts, [t], Matching("userId", userId));
  }
}
