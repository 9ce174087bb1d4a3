/**
 * The aggregation engine: monthly series, total spend, per-buyer ranking,
 * the spend-share series, the brand-share series and the low-stock
 * warnings, all computed from the application state without changing it.
 */
module Aggregation {
  import opened Records
  import opened Text

  // ---------------------------------------------------------------------
  // Grouping by key: what a JavaScript Map filled in a forEach holds
  // ---------------------------------------------------------------------

  /** The keys of the entries that have one, each once, in the order of
      first appearance: the key order of a Map filled by `map.set`. */
  function Keys<T>(es: seq<T>, key: T -> Option<string>): (r: seq<string>)
    ensures Distinct(r)
    ensures forall k :: k in r <==> exists i :: 0 <= i < |es| && key(es[i]) == Some(k)
  {
    if es == [] then []
    else
      var init := es[..|es| - 1];
      var prev := Keys(init, key);
      var k := key(es[|es| - 1]);
      assert forall i :: 0 <= i < |init| ==> init[i] == es[i];
      if k.None? || k.value in prev then prev else prev + [k.value]
  }

  /** Keys come in the order of their first appearance: for an earlier
      key `r[a]` and a later key `r[b]`, some entry carries `r[a]` before
      any entry carries `r[b]`. */
  lemma {:induction false} KeysFirstSeenOrder<T>(es: seq<T>, key: T -> Option<string>, a: nat, b: nat)
    requires a < b < |Keys(es, key)|
    ensures var r := Keys(es, key);
      exists i :: 0 <= i < |es| && key(es[i]) == Some(r[a]) &&
        forall j :: 0 <= j <= i ==> key(es[j]) != Some(r[b])
  {
    var r := Keys(es, key);
    var init := es[..|es| - 1];
    var prev := Keys(init, key);
    assert forall i :: 0 <= i < |init| ==> init[i] == es[i];
    if b < |prev| {
      assert r[a] == prev[a] && r[b] == prev[b];
      KeysFirstSeenOrder(init, key, a, b);
      var i :| 0 <= i < |init| && key(init[i]) == Some(prev[a]) &&
        forall j :: 0 <= j <= i ==> key(init[j]) != Some(prev[b]);
      assert key(es[i]) == Some(r[a]);
    } else {
      assert r == prev + [r[b]] && r[b] !in prev;
      assert r[a] == prev[a] && prev[a] in prev;
      var i :| 0 <= i < |init| && key(init[i]) == Some(prev[a]);
      forall j | 0 <= j <= i ensures key(es[j]) != Some(r[b]) {
        assert key(init[j]) == key(es[j]);
      }
      assert key(es[i]) == Some(r[a]);
    }
  }

  /** The sum of `value` over the entries whose key is `k`, added up in
      list order. */
  function GroupSum<T>(es: seq<T>, key: T -> Option<string>, value: T -> real, k: string): real
  {
    if es == [] then 0.0
    else
      var e := es[|es| - 1];
      GroupSum(es[..|es| - 1], key, value, k) + (if key(e) == Some(k) then value(e) else 0.0)
  }

  /** The sum of `value` over the entries that have a key. */
  function KeyedSum<T>(es: seq<T>, key: T -> Option<string>, value: T -> real): real
  {
    if es == [] then 0.0
    else
      var e := es[|es| - 1];
      KeyedSum(es[..|es| - 1], key, value) + (if key(e).Some? then value(e) else 0.0)
  }

  /** The number of entries that have a key. */
  function KeyedCount<T>(es: seq<T>, key: T -> Option<string>): nat
  {
    if es == [] then 0
    else KeyedCount(es[..|es| - 1], key) + (if key(es[|es| - 1]).Some? then 1 else 0)
  }

  /** The sum of `value` over all entries, left to right (`reduce`). */
  function SumValues<T>(es: seq<T>, value: T -> real): real
  {
    if es == [] then 0.0 else SumValues(es[..|es| - 1], value) + value(es[|es| - 1])
  }

  /** The sum of a list of numbers. */
  function Sum(xs: seq<real>): real
  {
    if xs == [] then 0.0 else xs[0] + Sum(xs[1..])
  }

  /** The group sums of the keys `ks`, added up. */
  function SumGroups<T>(ks: seq<string>, es: seq<T>, key: T -> Option<string>, value: T -> real): real
  {
    if ks == [] then 0.0 else GroupSum(es, key, value, ks[0]) + SumGroups(ks[1..], es, key, value)
  }

  /** What one entry adds to the group sums of `ks`. */
  function Hits(ks: seq<string>, k: Option<string>, v: real): real
  {
    if ks == [] then 0.0 else (if k == Some(ks[0]) then v else 0.0) + Hits(ks[1..], k, v)
  }

  lemma {:induction false} HitsAbsent(ks: seq<string>, k: Option<string>, v: real)
    requires k.None? || k.value !in ks
    ensures Hits(ks, k, v) == 0.0
  {
    if ks != [] { HitsAbsent(ks[1..], k, v); }
  }

  lemma {:induction false} HitsOnce(ks: seq<string>, k: Option<string>, v: real)
    requires Distinct(ks)
    requires k.Some? ==> k.value in ks
    ensures Hits(ks, k, v) == if k.Some? then v else 0.0
  {
    if k.None? {
      HitsAbsent(ks, k, v);
    } else if ks[0] == k.value {
      assert k.value !in ks[1..] by {
        forall j | 0 <= j < |ks[1..]| ensures ks[1..][j] != k.value { assert ks[1..][j] == ks[j + 1]; }
      }
      HitsAbsent(ks[1..], k, v);
    } else {
      assert k.value in ks[1..] by { assert ks == [ks[0]] + ks[1..]; }
      HitsOnce(ks[1..], k, v);
    }
  }

  lemma {:induction false} SumGroupsStep<T>(ks: seq<string>, es: seq<T>, key: T -> Option<string>, value: T -> real)
    requires es != []
    ensures var e := es[|es| - 1];
      SumGroups(ks, es, key, value) == SumGroups(ks, es[..|es| - 1], key, value) + Hits(ks, key(e), value(e))
  {
    if ks != [] { SumGroupsStep(ks[1..], es, key, value); }
  }

  /** Distinct keys that cover every keyed entry split the keyed sum
      between them: no entry is counted twice or lost. */
  lemma {:induction false} GroupsPartitionSum<T>(ks: seq<string>, es: seq<T>, key: T -> Option<string>, value: T -> real)
    requires Distinct(ks)
    requires forall i :: 0 <= i < |es| && key(es[i]).Some? ==> key(es[i]).value in ks
    ensures SumGroups(ks, es, key, value) == KeyedSum(es, key, value)
  {
    if es == [] {
      SumGroupsEmpty(ks, es, key, value);
    } else {
      var init, e := es[..|es| - 1], es[|es| - 1];
      assert forall i :: 0 <= i < |init| ==> init[i] == es[i];
      GroupsPartitionSum(ks, init, key, value);
      SumGroupsStep(ks, es, key, value);
      HitsOnce(ks, key(e), value(e));
    }
  }

  lemma {:induction false} SumGroupsEmpty<T>(ks: seq<string>, es: seq<T>, key: T -> Option<string>, value: T -> real)
    requires es == []
    ensures SumGroups(ks, es, key, value) == 0.0
  {
    if ks != [] { SumGroupsEmpty(ks[1..], es, key, value); }
  }

  /** A list whose i-th number is the group sum of `ks[i]` adds up to
      the group sums of `ks`. */
  lemma {:induction false} SumOfGroupSums<T>(xs: seq<real>, ks: seq<string>, es: seq<T>, key: T -> Option<string>, value: T -> real)
    requires |xs| == |ks|
    requires forall i :: 0 <= i < |ks| ==> xs[i] == GroupSum(es, key, value, ks[i])
    ensures Sum(xs) == SumGroups(ks, es, key, value)
  {
    if ks != [] { SumOfGroupSums(xs[1..], ks[1..], es, key, value); }
  }

  /** Counting with a value of 1 per entry gives the number of keyed
      entries. */
  lemma {:induction false} KeyedSumOfOnes<T>(es: seq<T>, key: T -> Option<string>, value: T -> real)
    requires forall i :: 0 <= i < |es| ==> value(es[i]) == 1.0
    ensures KeyedSum(es, key, value) == KeyedCount(es, key) as real
  {
    if es != [] {
      var init := es[..|es| - 1];
      assert forall i :: 0 <= i < |init| ==> init[i] == es[i];
      KeyedSumOfOnes(init, key, value);
    }
  }

  /** When every entry has a key, the keyed sum is the sum of all values. */
  lemma {:induction false} KeyedSumOfAll<T>(es: seq<T>, key: T -> Option<string>, value: T -> real)
    requires forall i :: 0 <= i < |es| ==> key(es[i]).Some?
    ensures KeyedSum(es, key, value) == SumValues(es, value)
  {
    if es != [] {
      var init := es[..|es| - 1];
      assert forall i :: 0 <= i < |init| ==> init[i] == es[i];
      KeyedSumOfAll(init, key, value);
    }
  }

  /** A key no entry has collects nothing. */
  lemma {:induction false} GroupSumUnseen<T>(es: seq<T>, key: T -> Option<string>, value: T -> real, k: string)
    requires k !in Keys(es, key)
    ensures GroupSum(es, key, value, k) == 0.0
  {
    if es != [] {
      var init := es[..|es| - 1];
      assert forall i :: 0 <= i < |init| ==> init[i] == es[i];
      GroupSumUnseen(init, key, value, k);
    }
  }

  /** The `forEach` loop that fills a Map: for every entry with a key, the
      key's running sum grows by the entry's value (`(map.get(k) || 0) +
      value`), and a key seen for the first time is appended to the key
      order. */
  method Accumulate<T>(es: seq<T>, key: T -> Option<string>, value: T -> real)
    returns (keys: seq<string>, sums: map<string, real>)
    ensures keys == Keys(es, key)
    ensures forall k :: k in sums <==> k in keys
    ensures forall k :: k in sums ==> sums[k] == GroupSum(es, key, value, k)
  {
    keys, sums := [], map[];
    var i := 0;
    while i < |es|
      invariant 0 <= i <= |es|
      invariant keys == Keys(es[..i], key)
      invariant forall k :: k in sums <==> k in keys
      invariant forall k :: k in sums ==> sums[k] == GroupSum(es[..i], key, value, k)
    {
      assert es[..i + 1][..i] == es[..i] && es[..i + 1][i] == es[i];
      var k := key(es[i]);
      if k.Some? {
        if k.value !in sums {
          GroupSumUnseen(es[..i], key, value, k.value);
        }
        var prior := if k.value in sums then sums[k.value] else 0.0;
        if k.value !in sums {
          keys := keys + [k.value];
        }
        sums := sums[k.value := prior + value(es[i])];
      }
      forall k' | k' in sums ensures sums[k'] == GroupSum(es[..i + 1], key, value, k') {
        assert GroupSum(es[..i + 1], key, value, k')
          == GroupSum(es[..i], key, value, k') + (if key(es[i]) == Some(k') then value(es[i]) else 0.0);
      }
      i := i + 1;
    }
    assert es[..i] == es;
  }

  // ---------------------------------------------------------------------
  // Monthly series
  // ---------------------------------------------------------------------

  /** `s.slice(0, n)`. */
  function Prefix(s: string, n: nat): (r: string)
    ensures |r| <= n && r <= s
  {
    if |s| <= n then s else s[..n]
  }

  /** The month bucket of a purchase: the first seven characters of its
      date, or none when it has no date (`!entry.date`). */
  function MonthKey(p: Purchase): Option<string>
  {
    if p.date.None? || p.date.value == "" then None else Some(Prefix(p.date.value, 7))
  }

  function Amount(p: Purchase): real
  {
    p.amount
  }

  function One(p: Purchase): real
  {
    1.0
  }

  /** `groupByMonth`: the months that occur, ascending, each with the sum
      of `valueOf` over its purchases; purchases without a date are
      skipped, and the values add up to the sum over the dated purchases. */
  method GroupByMonth(entries: seq<Purchase>, valueOf: Purchase -> real) returns (labels: seq<string>, values: seq<real>)
    ensures |labels| == |values|
    ensures StrictlyAscending(labels)
    ensures forall m :: m in labels <==> exists i :: 0 <= i < |entries| && MonthKey(entries[i]) == Some(m)
    ensures forall i :: 0 <= i < |labels| ==> values[i] == GroupSum(entries, MonthKey, valueOf, labels[i])
    ensures Sum(values) == KeyedSum(entries, MonthKey, valueOf)
  {
    var keys, sums := Accumulate(entries, MonthKey, valueOf);
    labels := SortLabels(keys);
    assert forall m :: m in labels <==> m in keys by {
      forall m ensures m in labels <==> m in keys {
        assert m in labels <==> m in multiset(labels);
        assert m in keys <==> m in multiset(keys);
      }
    }
    values := seq(|labels|, i requires 0 <= i < |labels| => sums[labels[i]]);
    StrictlyAscendingDistinct(labels);
    SumOfGroupSums(values, labels, entries, MonthKey, valueOf);
    GroupsPartitionSum(labels, entries, MonthKey, valueOf);
  }

  /** The monthly spend adds up to the total spend when every purchase is
      dated, and the monthly counts add up to the number of dated
      purchases. */
  lemma MonthlySeriesTotals(ps: seq<Purchase>)
    ensures KeyedSum(ps, MonthKey, One) == KeyedCount(ps, MonthKey) as real
    ensures (forall i :: 0 <= i < |ps| ==> MonthKey(ps[i]).Some?) ==>
              KeyedSum(ps, MonthKey, Amount) == TotalSpend(ps)
  {
    KeyedSumOfOnes(ps, MonthKey, One);
    if forall i :: 0 <= i < |ps| ==> MonthKey(ps[i]).Some? {
      KeyedSumOfAll(ps, MonthKey, Amount);
    }
  }

  // ---------------------------------------------------------------------
  // Spend per buyer
  // ---------------------------------------------------------------------

  /** `totalSpendValue`: the sum of all amounts. When every amount is
      positive, as the purchase form ensures, the total is positive
      exactly when there is a purchase. */
  function TotalSpend(ps: seq<Purchase>): (total: real)
    ensures (forall i :: 0 <= i < |ps| ==> ps[i].amount > 0.0) ==> (total > 0.0 <==> ps != [])
  {
    PositiveSpend(ps);
    SumValues(ps, Amount)
  }

  lemma {:induction false} PositiveSpend(ps: seq<Purchase>)
    ensures (forall i :: 0 <= i < |ps| ==> ps[i].amount > 0.0) ==> (SumValues(ps, Amount) > 0.0 <==> ps != [])
  {
    if ps != [] && forall i :: 0 <= i < |ps| ==> ps[i].amount > 0.0 {
      var init := ps[..|ps| - 1];
      assert forall i :: 0 <= i < |init| ==> init[i] == ps[i];
      PositiveSpend(init);
      assert SumValues(init, Amount) >= 0.0;
    }
  }

  /** A new purchase, put in front of the list as the purchase form does,
      raises the total spend by exactly its amount. */
  lemma {:induction false} SpendGrowsByPurchase(p: Purchase, ps: seq<Purchase>)
    ensures TotalSpend([p] + ps) == p.amount + TotalSpend(ps)
  {
    PrependSumValues(p, ps);
  }

  lemma {:induction false} PrependSumValues(p: Purchase, ps: seq<Purchase>)
    ensures SumValues([p] + ps, Amount) == p.amount + SumValues(ps, Amount)
  {
    if ps != [] {
      var init := ps[..|ps| - 1];
      assert ([p] + ps)[..|[p] + ps| - 1] == [p] + init;
      assert ([p] + ps)[|[p] + ps| - 1] == ps[|ps| - 1];
      PrependSumValues(p, init);
    } else {
      assert ([p] + ps)[..0] == [];
    }
  }

  /** A buyer's running total, as `topSpenders` and `spendShare` keep it. */
  datatype Tally = Tally(name: string, total: real)

  /** Purchases without a buyer are skipped (`!entry.buyer`). */
  function BuyerKey(p: Purchase): Option<string>
  {
    if p.buyer == "" then None else Some(p.buyer)
  }

  /** The Map's entries: each buyer with its total, in first-appearance order. */
  function BuyerTotals(ps: seq<Purchase>): (r: seq<Tally>)
    ensures |r| == |Keys(ps, BuyerKey)|
  {
    var ks := Keys(ps, BuyerKey);
    seq(|ks|, i requires 0 <= i < |ks| => Tally(ks[i], GroupSum(ps, BuyerKey, Amount, ks[i])))
  }

  function Names(s: seq<Tally>): (r: seq<string>)
    ensures |r| == |s|
  {
    seq(|s|, i requires 0 <= i < |s| => s[i].name)
  }

  function Totals(s: seq<Tally>): (r: seq<real>)
    ensures |r| == |s|
  {
    seq(|s|, i requires 0 <= i < |s| => s[i].total)
  }

  predicate Descending(s: seq<Tally>)
  {
    forall i, j :: 0 <= i < j < |s| ==> s[i].total >= s[j].total
  }

  /** The tallies with total `v`, in their order in `s`. A sort is stable
      exactly when it keeps every one of these lists as it was. */
  function WithTotal(s: seq<Tally>, v: real): seq<Tally>
  {
    if s == [] then [] else (if s[0].total == v then [s[0]] else []) + WithTotal(s[1..], v)
  }

  /** Inserts `x`, which came earlier in the input than everything in `s`,
      in front of the first tally it does not rank below. */
  function InsertByTotal(x: Tally, s: seq<Tally>): (r: seq<Tally>)
    ensures multiset(r) == multiset(s) + multiset{x}
  {
    if s == [] || s[0].total <= x.total then
      [x] + s
    else
      assert s == [s[0]] + s[1..];
      [s[0]] + InsertByTotal(x, s[1..])
  }

  lemma {:induction false} InsertKeepsDescending(x: Tally, s: seq<Tally>)
    requires Descending(s)
    ensures Descending(InsertByTotal(x, s))
  {
    if s != [] && s[0].total > x.total {
      InsertKeepsDescending(x, s[1..]);
      var rest := InsertByTotal(x, s[1..]);
      forall j | 0 <= j < |rest| ensures rest[j].total <= s[0].total {
        assert rest[j] in multiset(rest);
        if rest[j] != x {
          assert rest[j] in multiset(s[1..]);
          var k :| 0 <= k < |s[1..]| && s[1..][k] == rest[j];
          assert s[k + 1] == rest[j];
        }
      }
      var r := [s[0]] + rest;
      assert forall j :: 1 <= j < |r| ==> r[j] == rest[j - 1];
    }
  }

  /** Inserting keeps every group of equal totals in order, with `x`
      first in its own group. */
  lemma {:induction false} InsertKeepsTies(x: Tally, s: seq<Tally>, v: real)
    ensures WithTotal(InsertByTotal(x, s), v) == (if x.total == v then [x] else []) + WithTotal(s, v)
  {
    if s == [] || s[0].total <= x.total {
      assert ([x] + s)[1..] == s;
    } else {
      InsertKeepsTies(x, s[1..], v);
      assert ([s[0]] + InsertByTotal(x, s[1..]))[1..] == InsertByTotal(x, s[1..]);
    }
  }

  /** The comparator sort `(a, b) => b[1] - a[1]` of a stable sort: totals
      descending, a permutation of the input. */
  function RankDescending(s: seq<Tally>): (r: seq<Tally>)
    ensures multiset(r) == multiset(s)
    ensures Descending(r)
  {
    if s == [] then []
    else
      assert s == [s[0]] + s[1..];
      InsertKeepsDescending(s[0], RankDescending(s[1..]));
      InsertByTotal(s[0], RankDescending(s[1..]))
  }

  /** The sort is stable: tallies with equal totals keep their input order. */
  lemma {:induction false} RankKeepsTies(s: seq<Tally>, v: real)
    ensures WithTotal(RankDescending(s), v) == WithTotal(s, v)
  {
    if s != [] {
      RankKeepsTies(s[1..], v);
      InsertKeepsTies(s[0], RankDescending(s[1..]), v);
    }
  }

  /** All buyers ranked by total spend, highest first; equal totals keep
      the order in which the buyers first appear in the purchase list. */
  function Ranking(ps: seq<Purchase>): seq<Tally>
  {
    RankDescending(BuyerTotals(ps))
  }

  /** The Map loop followed by the sort, as both `topSpenders` and
      `spendShare` run them. */
  method RankBuyers(ps: seq<Purchase>) returns (ranked: seq<Tally>)
    ensures ranked == Ranking(ps)
  {
    var keys, sums := Accumulate(ps, BuyerKey, Amount);
    var totals := seq(|keys|, i requires 0 <= i < |keys| => Tally(keys[i], sums[keys[i]]));
    assert totals == BuyerTotals(ps);
    ranked := RankDescending(totals);
  }

  lemma {:induction false} SumTotalsInsert(x: Tally, s: seq<Tally>)
    ensures Sum(Totals(InsertByTotal(x, s))) == x.total + Sum(Totals(s))
  {
    if s != [] && s[0].total > x.total {
      SumTotalsInsert(x, s[1..]);
      assert Totals(InsertByTotal(x, s))[1..] == Totals(InsertByTotal(x, s[1..]));
      assert Totals(s)[1..] == Totals(s[1..]);
    } else {
      assert Totals([x] + s)[1..] == Totals(s);
    }
  }

  lemma {:induction false} SumTotalsRank(s: seq<Tally>)
    ensures Sum(Totals(RankDescending(s))) == Sum(Totals(s))
  {
    if s != [] {
      SumTotalsRank(s[1..]);
      SumTotalsInsert(s[0], RankDescending(s[1..]));
      assert Totals(s)[1..] == Totals(s[1..]);
    }
  }

  lemma RankingHoldsBuyerTotals(ps: seq<Purchase>)
    ensures forall t :: t in Ranking(ps) <==> t in BuyerTotals(ps)
  {
    var r, bt := Ranking(ps), BuyerTotals(ps);
    forall t ensures t in r <==> t in bt {
      assert t in r <==> t in multiset(r);
      assert t in bt <==> t in multiset(bt);
    }
  }

  /** Every buyer named by a purchase is ranked, and nothing else is. */
  lemma RankingNamesBuyers(ps: seq<Purchase>)
    ensures forall b :: b in Names(Ranking(ps)) <==> exists i :: 0 <= i < |ps| && ps[i].buyer == b && b != ""
  {
    var ks := Keys(ps, BuyerKey);
    var bt := BuyerTotals(ps);
    var r := Ranking(ps);
    RankingHoldsBuyerTotals(ps);
    forall b ensures b in Names(r) <==> b in ks {
      if b in Names(r) {
        var i :| 0 <= i < |r| && Names(r)[i] == b;
        assert r[i] in bt;
      }
      if b in ks {
        var i :| 0 <= i < |ks| && ks[i] == b;
        assert bt[i] in r;
        var j :| 0 <= j < |r| && r[j] == bt[i];
        assert Names(r)[j] == b;
      }
    }
    forall b ensures b in ks <==> exists i :: 0 <= i < |ps| && ps[i].buyer == b && b != "" {
      if exists i :: 0 <= i < |ps| && ps[i].buyer == b && b != "" {
        var i :| 0 <= i < |ps| && ps[i].buyer == b && b != "";
        assert BuyerKey(ps[i]) == Some(b);
      }
    }
  }

  /** Each ranked total is the sum of that buyer's purchases. */
  lemma RankingTotals(ps: seq<Purchase>)
    ensures forall i :: 0 <= i < |Ranking(ps)| ==>
              Ranking(ps)[i].name != "" && Ranking(ps)[i].total == GroupSum(ps, BuyerKey, Amount, Ranking(ps)[i].name)
  {
    var r, bt := Ranking(ps), BuyerTotals(ps);
    RankingHoldsBuyerTotals(ps);
    forall i | 0 <= i < |r| ensures r[i].name != "" && r[i].total == GroupSum(ps, BuyerKey, Amount, r[i].name) {
      assert r[i] in bt;
      var a :| 0 <= a < |bt| && bt[a] == r[i];
      var ks := Keys(ps, BuyerKey);
      assert ks[a] in ks;
    }
  }

  /** No buyer is ranked twice. */
  lemma RankingNamesDistinct(ps: seq<Purchase>)
    ensures Distinct(Names(Ranking(ps)))
  {
    var r, bt := Ranking(ps), BuyerTotals(ps);
    var ks := Keys(ps, BuyerKey);
    RankingHoldsBuyerTotals(ps);
    assert Distinct(bt) by {
      forall a, b | 0 <= a < b < |bt| ensures bt[a] != bt[b] {
        assert bt[a].name == ks[a] && bt[b].name == ks[b];
      }
    }
    forall i, j | 0 <= i < j < |r| ensures Names(r)[i] != Names(r)[j] {
      assert r[i] in bt && r[j] in bt;
      var a :| 0 <= a < |bt| && bt[a] == r[i];
      var b :| 0 <= b < |bt| && bt[b] == r[j];
      assert bt[a].name == ks[a] && bt[b].name == ks[b];
      assert r[i].name == r[j].name ==> r[i] == r[j] by {
        if r[i].name == r[j].name {
          assert ks[a] == ks[b];
        }
      }
      RepeatCounted(r, i, j);
      DistinctCountsOnce(bt, r[i]);
    }
  }

  /** The ranked totals add up to the spend of all purchases that name a
      buyer. */
  lemma RankingConservesSpend(ps: seq<Purchase>)
    ensures Sum(Totals(Ranking(ps))) == KeyedSum(ps, BuyerKey, Amount)
  {
    var ks := Keys(ps, BuyerKey);
    var bt := BuyerTotals(ps);
    SumTotalsRank(bt);
    SumOfGroupSums(Totals(bt), ks, ps, BuyerKey, Amount);
    GroupsPartitionSum(ks, ps, BuyerKey, Amount);
  }

  /** Two equal entries at different places occur at least twice. */
  lemma RepeatCounted(r: seq<Tally>, i: nat, j: nat)
    requires i < j < |r|
    ensures r[i] == r[j] ==> multiset(r)[r[i]] >= 2
  {
    assert r == r[..i] + [r[i]] + r[i + 1..j] + [r[j]] + r[j + 1..];
    assert multiset(r) == multiset(r[..i]) + multiset{r[i]} + multiset(r[i + 1..j]) + multiset{r[j]} + multiset(r[j + 1..]);
  }

  lemma {:induction false} DistinctCountsOnce(s: seq<Tally>, x: Tally)
    requires Distinct(s)
    ensures multiset(s)[x] <= 1
  {
    if s != [] {
      assert s == [s[0]] + s[1..];
      assert Distinct(s[1..]) by {
        forall a, b | 0 <= a < b < |s[1..]| ensures s[1..][a] != s[1..][b] {
          assert s[1..][a] == s[a + 1] && s[1..][b] == s[b + 1];
        }
      }
      DistinctCountsOnce(s[1..], x);
      if s[0] == x {
        assert x !in s[1..] by {
          forall k | 0 <= k < |s[1..]| ensures s[1..][k] != x { assert s[1..][k] == s[k + 1]; }
        }
      }
    }
  }

  // ---------------------------------------------------------------------
  // topSpenders, spendShare, getTopSpender
  // ---------------------------------------------------------------------

  function Min(a: int, b: int): int
  {
    if a <= b then a else b
  }

  /** `.slice(0, n)` of a ranking, as labels and values. */
  function TopOf(ranked: seq<Tally>, n: nat): (r: (seq<string>, seq<real>))
  {
    var top := ranked[..Min(n, |ranked|)];
    (Names(top), Totals(top))
  }

  /** `topSpenders`: the Map loop, the sort and `.slice(0, 5)`. */
  method TopSpenders(ps: seq<Purchase>) returns (labels: seq<string>, values: seq<real>)
    ensures (labels, values) == TopOf(Ranking(ps), 5)
    ensures |labels| == |values| <= 5
  {
    var ranked := RankBuyers(ps);
    labels, values := TopOf(ranked, 5).0, TopOf(ranked, 5).1;
  }

  /** What `topSpenders` lists: at most five different buyers, highest
      total first, each with the sum of their purchases; a buyer is left
      out only when five are listed and the buyer's total does not exceed
      the fifth. */
  lemma TopSpendersFacts(ps: seq<Purchase>)
    ensures var (labels, values) := TopOf(Ranking(ps), 5);
      && |labels| == |values| <= 5
      && Distinct(labels)
      && (forall i, j :: 0 <= i < j < |values| ==> values[i] >= values[j])
      && (forall i :: 0 <= i < |labels| ==> labels[i] != "" && values[i] == GroupSum(ps, BuyerKey, Amount, labels[i]))
  {
    var r := Ranking(ps);
    var n := Min(5, |r|);
    var (labels, values) := TopOf(r, 5);
    RankingTotals(ps);
    RankingNamesDistinct(ps);
    assert forall i :: 0 <= i < n ==> labels[i] == Names(r)[i] && values[i] == r[i].total;
  }

  /** Every buyer left out of the top spenders comes after five listed
      buyers and spent no more than the fifth. */
  lemma TopSpendersCoverage(ps: seq<Purchase>)
    ensures var (labels, values) := TopOf(Ranking(ps), 5);
      forall i :: 0 <= i < |ps| && ps[i].buyer != "" && ps[i].buyer !in labels ==>
        |labels| == 5 && GroupSum(ps, BuyerKey, Amount, ps[i].buyer) <= values[4]
  {
    var r := Ranking(ps);
    var (labels, values) := TopOf(r, 5);
    TopOfCovers(r, 5);
    forall i | 0 <= i < |ps| && ps[i].buyer != "" && ps[i].buyer !in labels
      ensures |labels| == 5 && GroupSum(ps, BuyerKey, Amount, ps[i].buyer) <= values[4]
    {
      var j := BuyerRanked(ps, i);
    }
  }

  /** A buyer named by a purchase has a place in the ranking, with the
      sum of their purchases as total. */
  lemma BuyerRanked(ps: seq<Purchase>, i: nat) returns (j: nat)
    requires i < |ps| && ps[i].buyer != ""
    ensures j < |Ranking(ps)|
    ensures Ranking(ps)[j] == Tally(ps[i].buyer, GroupSum(ps, BuyerKey, Amount, ps[i].buyer))
  {
    var ks, bt := Keys(ps, BuyerKey), BuyerTotals(ps);
    assert BuyerKey(ps[i]) == Some(ps[i].buyer);
    assert ps[i].buyer in ks;
    var a :| 0 <= a < |ks| && ks[a] == ps[i].buyer;
    assert bt[a] in multiset(Ranking(ps));
    j :| 0 <= j < |Ranking(ps)| && Ranking(ps)[j] == bt[a];
  }

  /** The first `n` of a descending ranking leave out a tally only when
      `n` are listed and its total does not exceed the last one listed. */
  lemma TopOfCovers(r: seq<Tally>, n: nat)
    requires Descending(r) && n > 0
    ensures var (labels, values) := TopOf(r, n);
      forall j :: 0 <= j < |r| ==>
        r[j].name in labels || (|labels| == n && r[j].total <= values[n - 1])
  {
    var (labels, values) := TopOf(r, n);
    forall j | 0 <= j < |r| ensures r[j].name in labels || (|labels| == n && r[j].total <= values[n - 1]) {
      if j < Min(n, |r|) {
        assert labels[j] == r[j].name;
      } else {
        assert values[n - 1] == r[n - 1].total;
      }
    }
  }

  /** The spend-share series of a ranking: the top four, then one "Other"
      entry with the rest's total when that is above 0. */
  function ShareOf(ranked: seq<Tally>): (r: (seq<string>, seq<real>))
  {
    var n := Min(4, |ranked|);
    var rest := Sum(Totals(ranked[n..]));
    if rest > 0.0 then (Names(ranked[..n]) + ["Other"], Totals(ranked[..n]) + [rest])
    else (Names(ranked[..n]), Totals(ranked[..n]))
  }

  lemma {:induction false} SumAppend(a: seq<real>, b: seq<real>)
    ensures Sum(a + b) == Sum(a) + Sum(b)
  {
    if a != [] {
      assert (a + b)[1..] == a[1..] + b;
      SumAppend(a[1..], b);
    } else {
      assert a + b == b;
    }
  }

  lemma {:induction false} SumPositive(xs: seq<real>)
    requires forall i :: 0 <= i < |xs| ==> xs[i] > 0.0
    ensures xs != [] ==> Sum(xs) > 0.0
    ensures Sum(xs) >= 0.0
  {
    if xs != [] { SumPositive(xs[1..]); }
  }

  /** With positive totals, the share series keeps four buyers and puts
      every further one into "Other", so its values add up to the whole
      ranking's total and "Other" appears exactly when there are more than
      four buyers. */
  lemma ShareOfConserves(ranked: seq<Tally>)
    requires forall i :: 0 <= i < |ranked| ==> ranked[i].total > 0.0
    ensures var (labels, values) := ShareOf(ranked);
      && |labels| == |values| == Min(5, |ranked|)
      && Sum(values) == Sum(Totals(ranked))
      && (|ranked| > 4 <==> |labels| == 5 && labels[4] == "Other")
  {
    var n := Min(4, |ranked|);
    var top, tail := ranked[..n], ranked[n..];
    assert ranked == top + tail;
    assert Totals(ranked) == Totals(top) + Totals(tail);
    SumAppend(Totals(top), Totals(tail));
    assert forall i :: 0 <= i < |Totals(tail)| ==> Totals(tail)[i] == ranked[n + i].total;
    SumPositive(Totals(tail));
    var rest := Sum(Totals(tail));
    if rest > 0.0 {
      SumAppend(Totals(top), [rest]);
      assert [rest][1..] == [];
      assert Sum([rest]) == rest;
      assert (Names(top) + ["Other"])[4] == "Other" || |ranked| <= 4;
    } else {
      assert tail == [];
    }
  }

  /** Six buyers with totals 50, 40, 30, 20, 10 and 5: four named entries
      and "Other" with 15. */
  lemma ShareOfSixBuyers()
    ensures ShareOf([Tally("A", 50.0), Tally("B", 40.0), Tally("C", 30.0), Tally("D", 20.0),
                     Tally("E", 10.0), Tally("F", 5.0)])
         == (["A", "B", "C", "D", "Other"], [50.0, 40.0, 30.0, 20.0, 15.0])
  {
    var r := [Tally("A", 50.0), Tally("B", 40.0), Tally("C", 30.0), Tally("D", 20.0), Tally("E", 10.0), Tally("F", 5.0)];
    assert Totals(r[4..]) == [10.0, 5.0];
    assert [10.0, 5.0][1..] == [5.0] && [5.0][1..] == [];
    assert Sum([10.0, 5.0]) == 15.0;
    assert Names(r[..4]) == ["A", "B", "C", "D"];
    assert Totals(r[..4]) == [50.0, 40.0, 30.0, 20.0];
    assert Min(4, |r|) == 4 && Sum(Totals(r[4..])) == 15.0;
    assert ShareOf(r) == (Names(r[..4]) + ["Other"], Totals(r[..4]) + [15.0]);
    assert ["A", "B", "C", "D"] + ["Other"] == ["A", "B", "C", "D", "Other"];
    assert [50.0, 40.0, 30.0, 20.0] + [15.0] == [50.0, 40.0, 30.0, 20.0, 15.0];
  }

  /** `spendShare`. */
  method SpendShare(ps: seq<Purchase>) returns (labels: seq<string>, values: seq<real>)
    ensures (labels, values) == ShareOf(Ranking(ps))
    ensures |labels| == |values| <= 5
  {
    var ranked := RankBuyers(ps);
    labels, values := ShareOf(ranked).0, ShareOf(ranked).1;
  }

  /** With positive amounts (the only ones the purchase form accepts), the
      spend-share values add up to the spend of all purchases that name a
      buyer, and "Other" appears exactly when there are more than four
      buyers. */
  lemma SpendShareConserves(ps: seq<Purchase>)
    requires forall i :: 0 <= i < |ps| ==> ps[i].amount > 0.0
    ensures var (labels, values) := ShareOf(Ranking(ps));
      && Sum(values) == KeyedSum(ps, BuyerKey, Amount)
      && (|Ranking(ps)| > 4 <==> |labels| == 5 && labels[4] == "Other")
  {
    var ranked := Ranking(ps);
    RankingNamesBuyers(ps);
    RankingTotals(ps);
    RankingConservesSpend(ps);
    forall i | 0 <= i < |ranked| ensures ranked[i].total > 0.0 {
      assert Names(ranked)[i] == ranked[i].name && Names(ranked)[i] in Names(ranked);
      GroupSumPositive(ps, ranked[i].name);
    }
    ShareOfConserves(ranked);
  }

  /** With positive amounts, every buyer that occurs has a positive total. */
  lemma {:induction false} GroupSumPositive(ps: seq<Purchase>, b: string)
    requires forall i :: 0 <= i < |ps| ==> ps[i].amount > 0.0
    requires exists i :: 0 <= i < |ps| && ps[i].buyer == b && b != ""
    ensures GroupSum(ps, BuyerKey, Amount, b) > 0.0
  {
    var init := ps[..|ps| - 1];
    assert forall i :: 0 <= i < |init| ==> init[i] == ps[i];
    if ps[|ps| - 1].buyer != b {
      GroupSumPositive(init, b);
    } else {
      GroupSumNonNegative(init, b);
    }
  }

  lemma {:induction false} GroupSumNonNegative(ps: seq<Purchase>, b: string)
    requires forall i :: 0 <= i < |ps| ==> ps[i].amount > 0.0
    ensures GroupSum(ps, BuyerKey, Amount, b) >= 0.0
  {
    if ps != [] {
      var init := ps[..|ps| - 1];
      assert forall i :: 0 <= i < |init| ==> init[i] == ps[i];
      GroupSumNonNegative(init, b);
    }
  }

  /** `getTopSpender` without its formatting: none when no purchase names
      a buyer, otherwise the buyer with the highest total, and among
      equal highest totals the one that appears first. */
  method TopSpender(ps: seq<Purchase>) returns (top: Option<Tally>)
    ensures top.None? <==> forall i :: 0 <= i < |ps| ==> ps[i].buyer == ""
    ensures top.Some? ==> top.value.name != "" && top.value.total == GroupSum(ps, BuyerKey, Amount, top.value.name)
    ensures top.Some? ==> forall i :: 0 <= i < |ps| && ps[i].buyer != "" ==>
              GroupSum(ps, BuyerKey, Amount, ps[i].buyer) <= top.value.total
    ensures top.Some? ==> var tied := WithTotal(BuyerTotals(ps), top.value.total);
              tied != [] && top.value == tied[0]
  {
    var labels, values := TopSpenders(ps);
    RankingNamesBuyers(ps);
    if |labels| == 0 {
      assert Ranking(ps) == [];
      return None;
    }
    RankingLeader(ps);
    top := Some(Tally(labels[0], values[0]));
    assert top.value == Ranking(ps)[0];
  }

  /** The head of the ranking is a buyer with its true total, no buyer's
      total exceeds it, and it is the first buyer seen with that total. */
  lemma RankingLeader(ps: seq<Purchase>)
    requires Ranking(ps) != []
    ensures var top := Ranking(ps)[0];
      && top.name != "" && top.total == GroupSum(ps, BuyerKey, Amount, top.name)
      && (forall i :: 0 <= i < |ps| && ps[i].buyer != "" ==>
            GroupSum(ps, BuyerKey, Amount, ps[i].buyer) <= top.total)
      && var tied := WithTotal(BuyerTotals(ps), top.total); tied != [] && top == tied[0]
  {
    var r := Ranking(ps);
    RankingTotals(ps);
    forall i | 0 <= i < |ps| && ps[i].buyer != ""
      ensures GroupSum(ps, BuyerKey, Amount, ps[i].buyer) <= r[0].total
    {
      var j := BuyerRanked(ps, i);
    }
    RankKeepsTies(BuyerTotals(ps), r[0].total);
    assert WithTotal(r, r[0].total) == [r[0]] + WithTotal(r[1..], r[0].total);
  }

  /** Three purchases: A spends 10, then B 30, then A 5. */
  const ExampleOrders := [Purchase("1", None, "A", 10.0, ""), Purchase("2", None, "B", 30.0, ""),
                          Purchase("3", None, "A", 5.0, "")]

  lemma ExampleOrdersTotals()
    ensures BuyerTotals(ExampleOrders) == [Tally("A", 15.0), Tally("B", 30.0)]
  {
    var ps := ExampleOrders;
    assert ps[..2][..1] == ps[..1] && ps[..|ps| - 1] == ps[..2];
    assert Keys(ps[..1], BuyerKey) == ["A"];
    assert Keys(ps[..2], BuyerKey) == ["A", "B"];
    assert Keys(ps, BuyerKey) == ["A", "B"];
    assert GroupSum(ps[..1], BuyerKey, Amount, "A") == 10.0;
    assert GroupSum(ps[..2], BuyerKey, Amount, "A") == 10.0;
    assert GroupSum(ps, BuyerKey, Amount, "A") == 15.0;
    assert GroupSum(ps[..1], BuyerKey, Amount, "B") == 0.0;
    assert GroupSum(ps[..2], BuyerKey, Amount, "B") == 30.0;
    assert GroupSum(ps, BuyerKey, Amount, "B") == 30.0;
  }

  /** A (15 in total) is seen first but ranks after B (30). */
  lemma RankingExample()
    ensures Ranking(ExampleOrders) == [Tally("B", 30.0), Tally("A", 15.0)]
  {
    ExampleOrdersTotals();
    var bt := [Tally("A", 15.0), Tally("B", 30.0)];
    assert RankDescending(bt[1..]) == [Tally("B", 30.0)];
  }

  /** When every purchase names a buyer (as every purchase the form
      accepts does), the buyers' totals add up to the total spend. */
  lemma SpendSplitsByBuyer(ps: seq<Purchase>)
    requires forall i :: 0 <= i < |ps| ==> ps[i].buyer != ""
    ensures Sum(Totals(Ranking(ps))) == TotalSpend(ps)
  {
    RankingConservesSpend(ps);
    KeyedSumOfAll(ps, BuyerKey, Amount);
  }

  // ---------------------------------------------------------------------
  // Brand share
  // ---------------------------------------------------------------------

  function CountsList(c: BrandCounts): seq<real>
  {
    [c.lor, c.illy, c.other]
  }

  predicate NoneCounted(c: BrandCounts)
  {
    c.lor == 0.0 && c.illy == 0.0 && c.other == 0.0
  }

  /** First strategy: the snapshot's per-brand counts, unless all are 0. */
  function SnapshotShare(s: AppState): Option<seq<real>>
  {
    var c := s.inventory.brandCounts;
    if NoneCounted(c) then None else Some(CountsList(c))
  }

  /** Second strategy: the newest log entry's per-brand counts when any is
      present and non-zero, else its total attributed to its legacy brand;
      nothing when that leaves all three at 0. */
  function LatestEntryShare(s: AppState): Option<seq<real>>
  {
    if s.inventoryLog == [] then None
    else
      var e := s.inventoryLog[0];
      if IsTruthy(e.capsLor) || IsTruthy(e.capsIlly) || IsTruthy(e.capsOther) then
        Some([OrZero(e.capsLor), OrZero(e.capsIlly), OrZero(e.capsOther)])
      else if IsTruthyText(e.brand) && OrZero(e.capsules) != 0.0 then
        var total := OrZero(e.capsules);
        if e.brand.value == "LOR" then Some([total, 0.0, 0.0])
        else if e.brand.value == "Illy" then Some([0.0, total, 0.0])
        else Some([0.0, 0.0, total])
      else None
  }

  /** Third strategy: a positive capsule count, all of it as Other. */
  function CapsuleCountShare(s: AppState): Option<seq<real>>
  {
    if s.inventory.capsules > 0.0 then Some([0.0, 0.0, s.inventory.capsules]) else None
  }

  /** The first strategy that yields something, in priority order. */
  function FirstAvailable(strategies: seq<Option<seq<real>>>, otherwise: seq<real>): (r: seq<real>)
    ensures (forall i :: 0 <= i < |strategies| ==> strategies[i].None?) ==> r == otherwise
    ensures forall i :: (0 <= i < |strategies| && strategies[i].Some? &&
              (forall j :: 0 <= j < i ==> strategies[j].None?)) ==> r == strategies[i].value
  {
    if strategies == [] then otherwise
    else if strategies[0].Some? then strategies[0].value
    else FirstAvailable(strategies[1..], otherwise)
  }

  /** The brand-share fallback chain as an ordered list of strategies. */
  function BrandShareChain(s: AppState): seq<real>
  {
    FirstAvailable([SnapshotShare(s), LatestEntryShare(s), CapsuleCountShare(s)], [0.0, 0.0, 0.0])
  }

  /** `inventoryBrandShare`, with its reassigned `lor`, `illy` and `other`:
      the three brand keys with the values of the first strategy that
      yields something. */
  method InventoryBrandShare(s: AppState) returns (labels: seq<string>, values: seq<real>)
    ensures labels == ["LOR", "Illy", "Other"]
    ensures values == BrandShareChain(s)
  {
    var counts := s.inventory.brandCounts;
    var lor := counts.lor;
    var illy := counts.illy;
    var other := counts.other;

    if lor == 0.0 && illy == 0.0 && other == 0.0 && |s.inventoryLog| > 0 {
      var entry := s.inventoryLog[0];
      if IsTruthy(entry.capsLor) || IsTruthy(entry.capsIlly) || IsTruthy(entry.capsOther) {
        lor := OrZero(entry.capsLor);
        illy := OrZero(entry.capsIlly);
        other := OrZero(entry.capsOther);
      } else if IsTruthyText(entry.brand) {
        if entry.brand.value == "LOR" {
          lor := OrZero(entry.capsules);
        } else if entry.brand.value == "Illy" {
          illy := OrZero(entry.capsules);
        } else {
          other := OrZero(entry.capsules);
        }
      }
    }
    if lor == 0.0 && illy == 0.0 && other == 0.0 && s.inventory.capsules > 0.0 {
      other := s.inventory.capsules;
    }

    labels := ["LOR", "Illy", "Other"];
    values := [lor, illy, other];
    BrandShareChainOrder(s);
  }

  /** The priority order of the chain: non-zero snapshot counts win
      unchanged; a fallback is used only when every earlier one yields
      nothing; the result always has one value per brand key. */
  lemma BrandShareChainOrder(s: AppState)
    ensures |BrandShareChain(s)| == 3
    ensures !NoneCounted(s.inventory.brandCounts) ==>
              BrandShareChain(s) == CountsList(s.inventory.brandCounts)
    ensures SnapshotShare(s).None? && LatestEntryShare(s).Some? ==>
              BrandShareChain(s) == LatestEntryShare(s).value
    ensures SnapshotShare(s).None? && LatestEntryShare(s).None? && s.inventory.capsules > 0.0 ==>
              BrandShareChain(s) == [0.0, 0.0, s.inventory.capsules]
    ensures SnapshotShare(s).None? && LatestEntryShare(s).None? && s.inventory.capsules <= 0.0 ==>
              BrandShareChain(s) == [0.0, 0.0, 0.0]
  {
    var st := [SnapshotShare(s), LatestEntryShare(s), CapsuleCountShare(s)];
    assert st[0] == SnapshotShare(s) && st[1] == LatestEntryShare(s) && st[2] == CapsuleCountShare(s);
  }

  // ---------------------------------------------------------------------
  // Low-stock warnings
  // ---------------------------------------------------------------------

  datatype Warning = ReorderCapsules | RestockMilk

  /** `updateLowStock`: two independent thresholds, capsules first. */
  function LowStockWarnings(inv: Inventory): (w: seq<Warning>)
    ensures ReorderCapsules in w <==> inv.capsules < 10.0
    ensures RestockMilk in w <==> inv.milk < 2.0
    ensures |w| <= 2 && (|w| == 2 ==> w == [ReorderCapsules, RestockMilk])
  {
    (if inv.capsules < 10.0 then [ReorderCapsules] else []) + (if inv.milk < 2.0 then [RestockMilk] else [])
  }
}
