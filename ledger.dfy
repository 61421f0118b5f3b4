/**
 * The transaction arithmetic shared by every analysis in the core: per-type sums
 * (`filter` + `reduce`), the per-category dictionary filled with
 * `acc[c] = (acc[c] || 0) + amount`, and the stable descending sort applied to
 * `Object.entries` of that dictionary.
 *
 * A JavaScript object used as a dictionary keeps its keys in insertion order, so it is
 * modelled as a sequence of entries with distinct categories, in first-seen order.
 */
module Ledger {
  import opened Collections

  /** A transaction's `type`. Request bodies are not validated, so any other string is `Other`. */
  datatype Kind = Income | Expense | Other

  /** The `type` string of a stored transaction, read as a `Kind`. */
  function KindOf(kind: string): Kind {
    if kind == "income" then Income else if kind == "expense" then Expense else Other
  }

  /** The fields of a transaction that the analyses read. */
  datatype Txn = Txn(kind: Kind, amount: real, category: string)

  function OfKind(ts: seq<Txn>, k: Kind): seq<Txn> {
    Filter(ts, (t: Txn) => t.kind == k)
  }

  function NotOfKind(ts: seq<Txn>, k: Kind): seq<Txn> {
    Filter(ts, (t: Txn) => t.kind != k)
  }

  function OfCategory(ts: seq<Txn>, c: string): seq<Txn> {
    Filter(ts, (t: Txn) => t.category == c)
  }

  /** `ts.reduce((sum, t) => sum + t.amount, 0)`. */
  function Total(ts: seq<Txn>): real {
    if ts == [] then 0.0 else Total(ts[..|ts| - 1]) + ts[|ts| - 1].amount
  }

  /** Every amount is strictly positive, as the transaction schema demands. */
  predicate PositiveAmounts(ts: seq<Txn>) {
    forall i :: 0 <= i < |ts| ==> ts[i].amount > 0.0
  }

  lemma {:induction false} TotalAppend(a: seq<Txn>, b: seq<Txn>)
    ensures Total(a + b) == Total(a) + Total(b)
    decreases |b|
  {
    if b == [] {
      assert a + b == a;
    } else {
      assert (a + b)[..|a + b| - 1] == a + b[..|b| - 1];
      TotalAppend(a, b[..|b| - 1]);
    }
  }

  /** Filtering by type one more transaction keeps it exactly when it has (or lacks) the type. */
  lemma KindSnoc(ts: seq<Txn>, t: Txn, k: Kind)
    ensures OfKind(ts + [t], k) == OfKind(ts, k) + (if t.kind == k then [t] else [])
    ensures NotOfKind(ts + [t], k) == NotOfKind(ts, k) + (if t.kind != k then [t] else [])
  {
    assert (ts + [t])[..|ts|] == ts;
  }

  /** A non-empty list of positive amounts has a positive total. */
  lemma {:induction false} TotalPositive(ts: seq<Txn>)
    requires PositiveAmounts(ts)
    ensures ts == [] <==> Total(ts) == 0.0
    ensures ts != [] ==> Total(ts) > 0.0
  {
    if ts != [] {
      TotalPositive(ts[..|ts| - 1]);
    }
  }

  lemma OfKindPositive(ts: seq<Txn>, k: Kind)
    requires PositiveAmounts(ts)
    ensures PositiveAmounts(OfKind(ts, k))
  {
    var r := OfKind(ts, k);
    FilterSubset(ts, (t: Txn) => t.kind == k);
    forall i | 0 <= i < |r| ensures r[i].amount > 0.0 {
      assert r[i] in multiset(ts);
    }
  }

  // ---------------------------------------------------------------- category dictionary

  /** One key of a per-category dictionary and its accumulated amount. */
  datatype Entry = Entry(category: string, total: real)

  predicate HasKey(es: seq<Entry>, c: string) {
    exists i :: 0 <= i < |es| && es[i].category == c
  }

  predicate Mentions(ts: seq<Txn>, c: string) {
    exists j :: 0 <= j < |ts| && ts[j].category == c
  }

  predicate DistinctKeys(es: seq<Entry>) {
    forall i, j :: 0 <= i < j < |es| ==> es[i].category != es[j].category
  }

  /** `dict[c] || 0`: the value stored under `c`, or 0 when `c` is not a key. */
  function TotalOf(es: seq<Entry>, c: string): real {
    if es == [] then 0.0 else if es[0].category == c then es[0].total else TotalOf(es[1..], c)
  }

  /** Sum of the values of a dictionary. */
  function SumTotals(es: seq<Entry>): real {
    if es == [] then 0.0 else es[0].total + SumTotals(es[1..])
  }

  lemma HasKeyCons(e: Entry, rest: seq<Entry>, d: string)
    ensures HasKey([e] + rest, d) <==> e.category == d || HasKey(rest, d)
  {
    var s := [e] + rest;
    assert s[0] == e;
    if HasKey(rest, d) {
      var i :| 0 <= i < |rest| && rest[i].category == d;
      assert s[i + 1] == rest[i];
    }
    if HasKey(s, d) {
      var i :| 0 <= i < |s| && s[i].category == d;
      if i > 0 {
        assert rest[i - 1] == s[i];
      } else {
        assert s[0] == e;
      }
    }
  }

  lemma DistinctCons(e: Entry, rest: seq<Entry>)
    requires DistinctKeys(rest) && !HasKey(rest, e.category)
    ensures DistinctKeys([e] + rest)
  {
    var s := [e] + rest;
    forall i, j | 0 <= i < j < |s| ensures s[i].category != s[j].category {
      if i == 0 {
        assert s[j] == rest[j - 1];
      } else {
        assert s[i] == rest[i - 1] && s[j] == rest[j - 1];
      }
    }
  }

  /** `dict[c] = (dict[c] || 0) + a`: an existing key keeps its place, a new key goes last. */
  function Add(es: seq<Entry>, c: string, a: real): (r: seq<Entry>)
    ensures |es| <= |r| <= |es| + 1
  {
    if es == [] then [Entry(c, a)]
    else if es[0].category == c then [Entry(c, es[0].total + a)] + es[1..]
    else [es[0]] + Add(es[1..], c, a)
  }

  /**
   * Adding to a dictionary: `c` becomes a key and no other key appears, keys stay distinct,
   * only the value under `c` grows (by `a`), and the length grows exactly for a new key.
   */
  lemma {:induction false} AddSpec(es: seq<Entry>, c: string, a: real)
    ensures AddFacts(es, c, a)
  {
    if es == [] {
      AddToEmpty(c, a);
    } else if es[0].category == c {
      AddFront(es, c, a);
    } else {
      AddSpec(es[1..], c, a);
      AddBehind(es, c, a);
    }
  }

  /** What `AddSpec` states about one addition. */
  ghost predicate AddFacts(es: seq<Entry>, c: string, a: real) {
    var r := Add(es, c, a);
    && (forall d :: HasKey(r, d) <==> HasKey(es, d) || d == c)
    && (DistinctKeys(es) ==> DistinctKeys(r))
    && (forall d :: TotalOf(r, d) == TotalOf(es, d) + (if d == c then a else 0.0))
    && SumTotals(r) == SumTotals(es) + a
    && |r| == if HasKey(es, c) then |es| else |es| + 1
  }

  /** Adding to the empty dictionary makes a one-entry dictionary. */
  lemma AddToEmpty(c: string, a: real)
    ensures AddFacts([], c, a)
  {
    var r := [Entry(c, a)];
    assert Add([], c, a) == r;
    assert r[1..] == [];
    assert SumTotals(r) == a + SumTotals([]) == a;
    assert r[0].category == c && HasKey(r, c);
    forall d ensures HasKey(r, d) <==> d == c {
      HasKeyCons(r[0], [], d);
    }
    forall d ensures TotalOf(r, d) == if d == c then a else 0.0 {
      assert TotalOf(r, d) == if d == c then a else TotalOf([], d);
    }
    assert !HasKey([], c);
  }

  /** Adding under the first key updates that entry in place. */
  lemma AddFront(es: seq<Entry>, c: string, a: real)
    requires es != [] && es[0].category == c
    ensures AddFacts(es, c, a)
  {
    assert es == [es[0]] + es[1..];
    var r := [Entry(c, es[0].total + a)] + es[1..];
    assert Add(es, c, a) == r && r[1..] == es[1..] && r[0].category == c;
    forall d ensures HasKey(es, d) <==> es[0].category == d || HasKey(es[1..], d) {
      HasKeyCons(es[0], es[1..], d);
    }
    forall d ensures HasKey(r, d) <==> c == d || HasKey(es[1..], d) {
      HasKeyCons(Entry(c, es[0].total + a), es[1..], d);
    }
    if DistinctKeys(es) {
      assert DistinctKeys(es[1..]);
      assert !HasKey(es[1..], c) by {
        forall i | 0 <= i < |es[1..]| ensures es[1..][i].category != c {
          assert es[1..][i] == es[i + 1];
        }
      }
      DistinctCons(Entry(c, es[0].total + a), es[1..]);
    }
  }

  /** Adding under a later key keeps the first entry and adds into the rest. */
  lemma AddBehind(es: seq<Entry>, c: string, a: real)
    requires es != [] && es[0].category != c && AddFacts(es[1..], c, a)
    ensures AddFacts(es, c, a)
  {
    assert es == [es[0]] + es[1..];
    var rest := Add(es[1..], c, a);
    assert Add(es, c, a) == [es[0]] + rest && ([es[0]] + rest)[1..] == rest;
    assert SumTotals([es[0]] + rest) == es[0].total + SumTotals(rest);
    assert SumTotals(rest) == SumTotals(es[1..]) + a;
    assert SumTotals(es) == es[0].total + SumTotals(es[1..]);
    forall d ensures HasKey(es, d) <==> es[0].category == d || HasKey(es[1..], d) {
      HasKeyCons(es[0], es[1..], d);
    }
    forall d ensures HasKey([es[0]] + rest, d) <==> es[0].category == d || HasKey(rest, d) {
      HasKeyCons(es[0], rest, d);
    }
    if DistinctKeys(es) {
      assert DistinctKeys(es[1..]);
      assert !HasKey(es[1..], es[0].category) by {
        forall i | 0 <= i < |es[1..]| ensures es[1..][i].category != es[0].category {
          assert es[1..][i] == es[i + 1];
        }
      }
      DistinctCons(es[0], rest);
    }
  }

  /** A key that is not in the dictionary reads as 0. */
  lemma {:induction false} TotalOfMissing(es: seq<Entry>, c: string)
    requires !HasKey(es, c)
    ensures TotalOf(es, c) == 0.0
  {
    if es != [] {
      HasKeyCons(es[0], es[1..], c);
      assert es == [es[0]] + es[1..];
      TotalOfMissing(es[1..], c);
    }
  }

  /** In a dictionary with distinct keys, looking a key up gives its entry's value. */
  lemma {:induction false} TotalOfAt(es: seq<Entry>, i: nat)
    requires DistinctKeys(es) && i < |es|
    ensures TotalOf(es, es[i].category) == es[i].total
  {
    if i > 0 {
      TotalOfAt(es[1..], i - 1);
    }
  }

  /** The dictionary `reduce` builds from a list of transactions of one type. */
  function Tally(ts: seq<Txn>): (r: seq<Entry>)
    ensures |r| <= |ts|
  {
    if ts == [] then []
    else Add(Tally(ts[..|ts| - 1]), ts[|ts| - 1].category, ts[|ts| - 1].amount)
  }

  /** Tallying one more transaction adds its amount under its category. */
  lemma TallySnoc(ts: seq<Txn>, t: Txn)
    ensures Tally(ts + [t]) == Add(Tally(ts), t.category, t.amount)
  {
    assert (ts + [t])[..|ts|] == ts;
  }

  /** The dictionary has distinct keys and its values add up to the list's total. */
  lemma {:induction false} TallyWellFormed(ts: seq<Txn>)
    ensures DistinctKeys(Tally(ts))
    ensures SumTotals(Tally(ts)) == Total(ts)
  {
    if ts != [] {
      TallyWellFormed(ts[..|ts| - 1]);
      AddSpec(Tally(ts[..|ts| - 1]), ts[|ts| - 1].category, ts[|ts| - 1].amount);
    }
  }

  /** The dictionary's keys are exactly the categories that occur in the list. */
  lemma TallyKeys(ts: seq<Txn>)
    ensures forall c :: HasKey(Tally(ts), c) <==> Mentions(ts, c)
  {
    forall c
      ensures HasKey(Tally(ts), c) <==> Mentions(ts, c)
    {
      TallyKey(ts, c);
    }
  }

  lemma {:induction false} TallyKey(ts: seq<Txn>, c: string)
    ensures HasKey(Tally(ts), c) <==> Mentions(ts, c)
  {
    if ts != [] {
      var init, t := ts[..|ts| - 1], ts[|ts| - 1];
      TallyKey(init, c);
      AddKeys(Tally(init), t.category, t.amount, c);
      if Mentions(init, c) {
        var j :| 0 <= j < |init| && init[j].category == c;
        assert ts[j] == init[j];
      }
      if Mentions(ts, c) && t.category != c {
        var j :| 0 <= j < |ts| && ts[j].category == c;
        assert init[j] == ts[j];
      }
    }
  }

  /** Adding under `c` makes `c` a key and no other. */
  lemma AddKeys(es: seq<Entry>, c: string, a: real, d: string)
    ensures HasKey(Add(es, c, a), d) <==> HasKey(es, d) || d == c
  {
    AddSpec(es, c, a);
  }

  /** Each key holds the sum of the amounts of its category; a missing key reads as 0. */
  lemma {:induction false} TallyTotals(ts: seq<Txn>)
    ensures forall c :: TotalOf(Tally(ts), c) == Total(OfCategory(ts, c))
  {
    if ts != [] {
      var init, t := ts[..|ts| - 1], ts[|ts| - 1];
      TallyTotals(init);
      AddSpec(Tally(init), t.category, t.amount);
      assert ts == init + [t];
      forall c ensures Total(OfCategory(ts, c)) == Total(OfCategory(init, c)) + (if t.category == c then t.amount else 0.0) {
        FilterAppend(init, [t], (x: Txn) => x.category == c);
        TotalAppend(OfCategory(init, c), OfCategory([t], c));
        assert [t][..0] == [];
      }
    }
  }

  /** Every entry of the dictionary holds the sum of its category's amounts. */
  lemma TallyEntry(ts: seq<Txn>, i: nat)
    requires i < |Tally(ts)|
    ensures Tally(ts)[i].total == Total(OfCategory(ts, Tally(ts)[i].category))
  {
    TallyWellFormed(ts);
    TotalOfAt(Tally(ts), i);
    TallyTotals(ts);
  }

  /** With positive amounts every dictionary value is positive. */
  lemma TallyPositive(ts: seq<Txn>, i: nat)
    requires PositiveAmounts(ts) && i < |Tally(ts)|
    ensures Tally(ts)[i].total > 0.0
  {
    TallyEntry(ts, i);
    var c := Tally(ts)[i].category;
    TallyKeys(ts);
    assert HasKey(Tally(ts), c);
    var j :| 0 <= j < |ts| && ts[j].category == c;
    FilterKeeps(ts, (t: Txn) => t.category == c, j);
    var cs := OfCategory(ts, c);
    assert cs != [];
    assert PositiveAmounts(cs) by {
      FilterSubset(ts, (t: Txn) => t.category == c);
      forall k | 0 <= k < |cs| ensures cs[k].amount > 0.0 {
        assert cs[k] in multiset(ts);
      }
    }
    TotalPositive(cs);
  }

  /** All transactions of the list have the category of the first one. */
  predicate SingleCategory(ts: seq<Txn>) {
    ts != [] && forall j :: 0 <= j < |ts| ==> ts[j].category == ts[0].category
  }

  /** The dictionary has exactly one key when the list is non-empty and has one category. */
  lemma TallySingleKey(ts: seq<Txn>)
    ensures |Tally(ts)| == 1 <==> SingleCategory(ts)
  {
    var r := Tally(ts);
    TallyKeys(ts);
    TallyWellFormed(ts);
    if |r| == 1 {
      assert HasKey(r, r[0].category);
      forall j | 0 <= j < |ts| ensures ts[j].category == ts[0].category {
        assert Mentions(ts, ts[j].category) && Mentions(ts, ts[0].category);
      }
    }
    if SingleCategory(ts) {
      assert Mentions(ts, ts[0].category);
      assert HasKey(r, ts[0].category);
      assert |r| >= 2 ==> r[0].category != r[1].category;
      forall k | 0 <= k < |r| ensures r[k].category == ts[0].category {
        assert HasKey(r, r[k].category);
      }
    }
  }

  // ---------------------------------------------------------------- descending sort

  predicate SortedDesc(es: seq<Entry>) {
    forall i, j :: 0 <= i < j < |es| ==> es[i].total >= es[j].total
  }

  /** Places `e` before the first element it is not smaller than. */
  function Insert(e: Entry, s: seq<Entry>): (r: seq<Entry>)
    ensures |r| == |s| + 1
  {
    if s == [] || e.total >= s[0].total then [e] + s
    else [s[0]] + Insert(e, s[1..])
  }

  /** Insertion adds exactly one occurrence of `e`. */
  lemma {:induction false} InsertPerm(e: Entry, s: seq<Entry>)
    ensures multiset(Insert(e, s)) == multiset(s) + multiset{e}
  {
    if s != [] && e.total < s[0].total {
      assert s == [s[0]] + s[1..];
      InsertPerm(e, s[1..]);
    }
  }

  lemma {:induction false} InsertSum(e: Entry, s: seq<Entry>)
    ensures SumTotals(Insert(e, s)) == SumTotals(s) + e.total
  {
    if s != [] && e.total < s[0].total {
      InsertSum(e, s[1..]);
    }
  }

  lemma {:induction false} InsertSorted(e: Entry, s: seq<Entry>)
    requires SortedDesc(s)
    ensures SortedDesc(Insert(e, s))
  {
    if s != [] && e.total < s[0].total {
      var rest := Insert(e, s[1..]);
      InsertSorted(e, s[1..]);
      InsertBounded(e, s[1..], s[0].total);
      var r := [s[0]] + rest;
      forall i, j | 0 <= i < j < |r| ensures r[i].total >= r[j].total {
        assert r[j] == rest[j - 1];
        if i > 0 {
          assert r[i] == rest[i - 1];
        }
      }
    }
  }

  /** Inserting an entry no larger than a bound into entries no larger than it keeps them all under it. */
  lemma {:induction false} InsertBounded(e: Entry, s: seq<Entry>, b: real)
    requires e.total <= b && forall k :: 0 <= k < |s| ==> s[k].total <= b
    ensures forall k :: 0 <= k < |Insert(e, s)| ==> Insert(e, s)[k].total <= b
  {
    if s != [] && e.total < s[0].total {
      var rest := Insert(e, s[1..]);
      InsertBounded(e, s[1..], b);
      forall k | 0 <= k < |rest| + 1 ensures ([s[0]] + rest)[k].total <= b {
        if k > 0 {
          assert ([s[0]] + rest)[k] == rest[k - 1];
        }
      }
    } else {
      forall k | 0 <= k < |s| + 1 ensures ([e] + s)[k].total <= b {
        if k > 0 {
          assert ([e] + s)[k] == s[k - 1];
        }
      }
    }
  }

  /** Insertion adds `e`'s key to the keys, and keeps keys distinct when that key is new. */
  lemma {:induction false} InsertKeys(e: Entry, s: seq<Entry>)
    ensures forall d :: HasKey(Insert(e, s), d) <==> e.category == d || HasKey(s, d)
    ensures DistinctKeys(s) && !HasKey(s, e.category) ==> DistinctKeys(Insert(e, s))
  {
    if s == [] || e.total >= s[0].total {
      forall d ensures HasKey([e] + s, d) <==> e.category == d || HasKey(s, d) {
        HasKeyCons(e, s, d);
      }
      if DistinctKeys(s) && !HasKey(s, e.category) {
        DistinctCons(e, s);
      }
    } else {
      var rest := Insert(e, s[1..]);
      InsertKeys(e, s[1..]);
      assert s == [s[0]] + s[1..];
      forall d ensures HasKey([s[0]] + rest, d) <==> s[0].category == d || HasKey(rest, d) {
        HasKeyCons(s[0], rest, d);
      }
      forall d ensures HasKey(s, d) <==> s[0].category == d || HasKey(s[1..], d) {
        HasKeyCons(s[0], s[1..], d);
      }
      if DistinctKeys(s) && !HasKey(s, e.category) {
        assert !HasKey(s[1..], s[0].category) by {
          forall i | 0 <= i < |s[1..]| ensures s[1..][i].category != s[0].category {
            assert s[1..][i] == s[i + 1];
          }
        }
        DistinctCons(s[0], rest);
      }
    }
  }

  /**
   * `entries.sort((a, b) => b.total - a.total)`: descending by total; the sort is stable, so
   * among equal totals the earlier entry stays first.
   */
  function SortDesc(es: seq<Entry>): (r: seq<Entry>)
    ensures |r| == |es|
  {
    if es == [] then [] else Insert(es[0], SortDesc(es[1..]))
  }

  /** The sort orders by descending total, keeps exactly the same entries, and so keeps their sum. */
  lemma {:induction false} SortDescCorrect(es: seq<Entry>)
    ensures SortedDesc(SortDesc(es))
    ensures multiset(SortDesc(es)) == multiset(es)
    ensures SumTotals(SortDesc(es)) == SumTotals(es)
  {
    if es != [] {
      assert es == [es[0]] + es[1..];
      var rest := SortDesc(es[1..]);
      SortDescCorrect(es[1..]);
      InsertSorted(es[0], rest);
      InsertSum(es[0], rest);
      InsertPerm(es[0], rest);
    }
  }

  /** `x` occurs before `y` in `s`. */
  ghost predicate Precedes(s: seq<Entry>, x: Entry, y: Entry) {
    exists p, q :: 0 <= p < q < |s| && s[p] == x && s[q] == y
  }

  /** Where `Insert` places `e`: after the leading entries with a larger total. */
  function InsertAt(e: Entry, s: seq<Entry>): (m: nat)
    ensures m <= |s|
  {
    if s == [] || e.total >= s[0].total then 0 else 1 + InsertAt(e, s[1..])
  }

  /** Insertion splits the entries at `InsertAt`, every entry before it having a larger total. */
  lemma {:induction false} InsertSplit(e: Entry, s: seq<Entry>)
    ensures var m := InsertAt(e, s);
      && Insert(e, s) == s[..m] + [e] + s[m..]
      && forall k :: 0 <= k < m ==> s[k].total > e.total
  {
    if s != [] && e.total < s[0].total {
      var m := InsertAt(e, s[1..]);
      InsertSplit(e, s[1..]);
      assert s[..m + 1] == [s[0]] + s[1..][..m];
      assert s[m + 1..] == s[1..][m..];
      forall k | 0 <= k < m + 1 ensures s[k].total > e.total {
        if k > 0 {
          assert s[k] == s[1..][k - 1];
        }
      }
    }
  }

  /** An inserted entry goes before every entry of the same total. */
  lemma InsertBeforeEqual(e: Entry, s: seq<Entry>, k: nat)
    requires k < |s| && s[k].total == e.total
    ensures Precedes(Insert(e, s), e, s[k])
  {
    var m := InsertAt(e, s);
    InsertSplit(e, s);
    var r := Insert(e, s);
    assert r[m] == e && r[k + 1] == s[k];
  }

  /** Insertion keeps the relative order of the entries already there. */
  lemma InsertKeepsOrder(e: Entry, s: seq<Entry>, x: Entry, y: Entry)
    requires Precedes(s, x, y)
    ensures Precedes(Insert(e, s), x, y)
  {
    var p, q :| 0 <= p < q < |s| && s[p] == x && s[q] == y;
    var m := InsertAt(e, s);
    InsertSplit(e, s);
    var r := Insert(e, s);
    var p', q' := if p < m then p else p + 1, if q < m then q else q + 1;
    assert r[p'] == x && r[q'] == y;
  }

  /**
   * The sort is stable: of two entries with the same total, the one met first stays first.
   * With distinct keys each entry occurs once, so this fixes the order among equal totals.
   */
  lemma {:induction false} SortDescStable(es: seq<Entry>, i: nat, j: nat)
    requires i < j < |es| && es[i].total == es[j].total
    ensures Precedes(SortDesc(es), es[i], es[j])
  {
    var rest := SortDesc(es[1..]);
    assert es[1..][j - 1] == es[j];
    if i == 0 {
      SortDescCorrect(es[1..]);
      assert es[j] in multiset(rest);
      var k :| 0 <= k < |rest| && rest[k] == es[j];
      InsertBeforeEqual(es[0], rest, k);
    } else {
      assert es[1..][i - 1] == es[i];
      SortDescStable(es[1..], i - 1, j - 1);
      InsertKeepsOrder(es[0], rest, es[i], es[j]);
    }
  }

  /** Sorting keeps the dictionary's keys, and keeps them distinct. */
  lemma {:induction false} SortDescKeys(es: seq<Entry>)
    ensures forall d :: HasKey(SortDesc(es), d) <==> HasKey(es, d)
    ensures DistinctKeys(es) ==> DistinctKeys(SortDesc(es))
  {
    if es != [] {
      var rest := SortDesc(es[1..]);
      SortDescKeys(es[1..]);
      InsertKeys(es[0], rest);
      assert es == [es[0]] + es[1..];
      forall d ensures HasKey(es, d) <==> es[0].category == d || HasKey(es[1..], d) {
        HasKeyCons(es[0], es[1..], d);
      }
      if DistinctKeys(es) {
        assert !HasKey(es[1..], es[0].category) by {
          forall i | 0 <= i < |es[1..]| ensures es[1..][i].category != es[0].category {
            assert es[1..][i] == es[i + 1];
          }
        }
      }
    }
  }

  /** The head of the sorted entries is a largest entry of the original ones. */
  lemma SortedHeadIsMax(es: seq<Entry>)
    requires es != []
    ensures SortDesc(es)[0] in es
    ensures forall i :: 0 <= i < |es| ==> es[i].total <= SortDesc(es)[0].total
  {
    var r := SortDesc(es);
    SortDescCorrect(es);
    assert r[0] in multiset(r);
    forall i | 0 <= i < |es| ensures es[i].total <= r[0].total {
      assert es[i] in multiset(r);
      var j :| 0 <= j < |r| && r[j] == es[i];
    }
  }

  /** The sorted dictionary is sorted, has distinct keys and still sums to the total. */
  lemma SortedTallyShape(ts: seq<Txn>)
    ensures var sorted := SortDesc(Tally(ts));
      DistinctKeys(sorted) && SortedDesc(sorted) && SumTotals(sorted) == Total(ts)
  {
    var tally := Tally(ts);
    SortDescCorrect(tally);
    SortDescKeys(tally);
    TallyWellFormed(ts);
  }

  /** The sorted entries are the dictionary's entries, so each holds its category's sum. */
  lemma SortedTallyEntries(ts: seq<Txn>)
    ensures var sorted := SortDesc(Tally(ts));
      && (forall c :: HasKey(sorted, c) <==> Mentions(ts, c))
      && (forall i :: 0 <= i < |sorted| ==> sorted[i].total == Total(OfCategory(ts, sorted[i].category)))
  {
    var tally := Tally(ts);
    var sorted := SortDesc(tally);
    SortDescCorrect(tally);
    SortDescKeys(tally);
    TallyKeys(ts);
    forall i | 0 <= i < |sorted| ensures sorted[i].total == Total(OfCategory(ts, sorted[i].category)) {
      assert sorted[i] in multiset(tally);
      var a :| 0 <= a < |tally| && tally[a] == sorted[i];
      TallyEntry(ts, a);
    }
  }
}
