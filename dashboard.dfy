/** The dashboard's derived views of the ledger: the summary cards (`stats`),
    the per-category expense breakdown behind both charts (`categoryData`)
    and the recent-activity list. */
module Dashboard {
  import opened Types
  import Seqs

  /** The three summary cards. */
  datatype Stats = Stats(income: real, expenses: real, balance: real)

  /** One bar or pie slice: a category and the money spent in it. */
  datatype Entry = Entry(name: string, value: real)

  /** How many transactions the recent-activity list shows. */
  const RecentCount: nat := 6

  // ---------------------------------------------------------------------------
  // Summary statistics

  function TypeIs(k: TransactionType): Transaction -> bool { (t: Transaction) => t.kind == k }

  function OfType(ts: seq<Transaction>, k: TransactionType): seq<Transaction>
  {
    Seqs.Filter(ts, TypeIs(k))
  }

  /** The sum of the amounts of the transactions of one type. */
  function Total(ts: seq<Transaction>, k: TransactionType): real
  {
    Seqs.Sum(OfType(ts, k), AmountOf)
  }

  /** An amount as it moves the balance: income up, expense down. */
  function SignedAmount(t: Transaction): real
  {
    if t.kind == Income then t.amount else -t.amount
  }

  /** Every transaction is counted exactly once: either as income or as an
      expense; and the balance is the signed sum of the whole ledger. */
  lemma {:induction false} TotalsPartition(ts: seq<Transaction>)
    ensures Total(ts, Income) + Total(ts, Expense) == Seqs.Sum(ts, AmountOf)
    ensures Total(ts, Income) - Total(ts, Expense) == Seqs.Sum(ts, SignedAmount)
  {
    if ts != [] {
      assert ts == [ts[0]] + ts[1..];
      Seqs.FilterConcat([ts[0]], ts[1..], TypeIs(Income));
      Seqs.FilterConcat([ts[0]], ts[1..], TypeIs(Expense));
      Seqs.SumConcat(Seqs.Filter([ts[0]], TypeIs(Income)), OfType(ts[1..], Income), AmountOf);
      Seqs.SumConcat(Seqs.Filter([ts[0]], TypeIs(Expense)), OfType(ts[1..], Expense), AmountOf);
      TotalsPartition(ts[1..]);
    }
  }

  /** The `stats` memo: income, expenses and their difference. Income and
      expenses together account for every amount in the ledger, and the
      balance is the signed sum of the ledger. */
  function Summarize(ts: seq<Transaction>): (r: Stats)
    ensures ts == [] ==> r == Stats(0.0, 0.0, 0.0)
    ensures r.income + r.expenses == Seqs.Sum(ts, AmountOf)
    ensures r.balance == r.income - r.expenses == Seqs.Sum(ts, SignedAmount)
  {
    TotalsPartition(ts);
    var income := Total(ts, Income);
    var expenses := Total(ts, Expense);
    Stats(income, expenses, income - expenses)
  }

  /** Totals of a sequence extended by one transaction. */
  lemma TotalSnoc(s: seq<Transaction>, t: Transaction, k: TransactionType)
    ensures Total(s + [t], k) == Total(s, k) + (if t.kind == k then t.amount else 0.0)
  {
    Seqs.FilterConcat(s, [t], TypeIs(k));
    Seqs.SumConcat(OfType(s, k), Seqs.Filter([t], TypeIs(k)), AmountOf);
  }

  // ---------------------------------------------------------------------------
  // Category breakdown: specification

  function ExpenseIn(c: string): Transaction -> bool
  {
    (t: Transaction) => t.kind == Expense && t.category == c
  }

  /** The money spent in category `c`. */
  function CategoryTotal(ts: seq<Transaction>, c: string): real
  {
    Seqs.Sum(Seqs.Filter(ts, ExpenseIn(c)), AmountOf)
  }

  /** Whether some expense of the ledger is in category `c`. */
  predicate SpentOn(ts: seq<Transaction>, c: string)
  {
    Seqs.Filter(ts, ExpenseIn(c)) != []
  }

  predicate Distinct(names: seq<string>)
  {
    forall i, j :: 0 <= i < j < |names| ==> names[i] != names[j]
  }

  /** The expense categories in the order a left-to-right scan first meets
      them: the key order of the `categories` record. */
  function Categories(ts: seq<Transaction>): seq<string>
    decreases |ts|
  {
    if ts == [] then []
    else
      var p := Categories(ts[..|ts| - 1]);
      var t := ts[|ts| - 1];
      if t.kind == Expense && t.category !in p then p + [t.category] else p
  }

  /** One entry per named category, valued at that category's total. */
  function Tally(names: seq<string>, ts: seq<Transaction>): seq<Entry>
  {
    seq(|names|, k requires 0 <= k < |names| => Entry(names[k], CategoryTotal(ts, names[k])))
  }

  /** `Object.entries(categories).map(...)` before sorting. */
  function Grouped(ts: seq<Transaction>): seq<Entry>
  {
    Tally(Categories(ts), ts)
  }

  /** Places `x` before the first entry whose value does not exceed its own,
      so that it precedes entries of equal value (the stable insertion step
      for the comparator `b.value - a.value`). */
  function Insert(x: Entry, s: seq<Entry>): seq<Entry>
  {
    if s == [] || s[0].value <= x.value then [x] + s else [s[0]] + Insert(x, s[1..])
  }

  /** A stable sort by descending value, as `Array.prototype.sort` with
      comparator `(a, b) => b.value - a.value` does. */
  function SortByValueDesc(s: seq<Entry>): seq<Entry>
  {
    if s == [] then [] else Insert(s[0], SortByValueDesc(s[1..]))
  }

  /** The `categoryData` memo. */
  function Breakdown(ts: seq<Transaction>): seq<Entry>
  {
    SortByValueDesc(Grouped(ts))
  }

  function ValueOf(e: Entry): real { e.value }

  function ValueIs(v: real): Entry -> bool { (e: Entry) => e.value == v }

  predicate NonIncreasing(s: seq<Entry>)
  {
    forall i, j :: 0 <= i < j < |s| ==> s[i].value >= s[j].value
  }

  predicate DistinctNames(s: seq<Entry>)
  {
    forall i, j :: 0 <= i < j < |s| ==> s[i].name != s[j].name
  }

  // ---------------------------------------------------------------------------
  // Category breakdown: the grouping

  lemma CategoryTotalSnoc(s: seq<Transaction>, t: Transaction, c: string)
    ensures CategoryTotal(s + [t], c) == CategoryTotal(s, c) + (if ExpenseIn(c)(t) then t.amount else 0.0)
    ensures SpentOn(s + [t], c) <==> SpentOn(s, c) || ExpenseIn(c)(t)
  {
    Seqs.FilterConcat(s, [t], ExpenseIn(c));
    Seqs.SumConcat(Seqs.Filter(s, ExpenseIn(c)), Seqs.Filter([t], ExpenseIn(c)), AmountOf);
  }

  /** The scan lists every category that has an expense, each once, and no
      other. */
  lemma {:induction false} CategoriesSpec(ts: seq<Transaction>)
    ensures Distinct(Categories(ts))
    ensures forall c :: c in Categories(ts) <==> SpentOn(ts, c)
  {
    if ts != [] {
      var s, t := ts[..|ts| - 1], ts[|ts| - 1];
      assert ts == s + [t];
      CategoriesSpec(s);
      forall c ensures SpentOn(ts, c) <==> SpentOn(s, c) || ExpenseIn(c)(t) {
        CategoryTotalSnoc(s, t, c);
      }
    }
  }

  /** The transaction at index `j` is an expense in category `c`. */
  predicate ExpenseAt(ts: seq<Transaction>, j: int, c: string)
  {
    0 <= j < |ts| && ts[j].kind == Expense && ts[j].category == c
  }

  /** Some expense in category `c` comes before index `j`. */
  predicate SpentBefore(ts: seq<Transaction>, j: int, c: string)
  {
    exists i :: 0 <= i < j && ExpenseAt(ts, i, c)
  }

  /** An expense at index `j` in category `c` makes `c` a category the
      ledger spends on. */
  lemma SpentAt(ts: seq<Transaction>, j: int, c: string)
    requires ExpenseAt(ts, j, c)
    ensures SpentOn(ts, c)
  {
    Seqs.FilterMembers(ts, ExpenseIn(c));
    assert ExpenseIn(c)(ts[j]);
  }

  /** A category the ledger spends on has an expense somewhere in it. */
  lemma SpentSomewhere(ts: seq<Transaction>, c: string)
    requires SpentOn(ts, c)
    ensures SpentBefore(ts, |ts|, c)
  {
    var f := Seqs.Filter(ts, ExpenseIn(c));
    Seqs.FilterMembers(ts, ExpenseIn(c));
    assert f[0] in ts && ExpenseIn(c)(f[0]);
    var i :| 0 <= i < |ts| && ts[i] == f[0];
    assert ExpenseAt(ts, i, c);
  }

  /** The record's keys come in first-encounter order: an expense in a later
      key is always preceded by an expense in every earlier key. */
  lemma {:induction false} CategoriesFirstEncounter(ts: seq<Transaction>)
    ensures forall p, q, j :: 0 <= p < q < |Categories(ts)| && ExpenseAt(ts, j, Categories(ts)[q])
              ==> SpentBefore(ts, j, Categories(ts)[p])
  {
    if ts != [] {
      var s, t := ts[..|ts| - 1], ts[|ts| - 1];
      var cs, c := Categories(s), Categories(ts);
      assert ts == s + [t];
      CategoriesFirstEncounter(s);
      CategoriesSpec(s);
      assert c == cs || (c == cs + [t.category] && t.category !in cs);
      forall p, q, j | 0 <= p < q < |c| && ExpenseAt(ts, j, c[q])
        ensures SpentBefore(ts, j, c[p])
      {
        assert p < |cs| && c[p] == cs[p];
        var i: int;
        if j < |s| {
          assert ExpenseAt(s, j, c[q]);
          SpentAt(s, j, c[q]);
          assert c[q] in cs;
          assert q < |cs| && c[q] == cs[q];
          assert SpentBefore(s, j, cs[p]);
          i :| 0 <= i < j && ExpenseAt(s, i, cs[p]);
        } else {
          SpentSomewhere(s, cs[p]);
          i :| 0 <= i < |s| && ExpenseAt(s, i, cs[p]);
        }
        assert ExpenseAt(ts, i, c[p]);
      }
    }
  }

  function ValueSum(s: seq<Entry>): real { Seqs.Sum(s, ValueOf) }

  lemma TallyCons(names: seq<string>, ts: seq<Transaction>)
    requires names != []
    ensures Tally(names, ts) == [Entry(names[0], CategoryTotal(ts, names[0]))] + Tally(names[1..], ts)
  {
  }

  lemma TallySnoc(names: seq<string>, c: string, ts: seq<Transaction>)
    ensures Tally(names + [c], ts) == Tally(names, ts) + [Entry(c, CategoryTotal(ts, c))]
  {
  }

  /** How the tally's total moves when one transaction is appended. */
  lemma {:induction false} TallySumStep(names: seq<string>, s: seq<Transaction>, t: Transaction)
    requires Distinct(names)
    ensures ValueSum(Tally(names, s + [t])) ==
            ValueSum(Tally(names, s)) + (if t.kind == Expense && t.category in names then t.amount else 0.0)
  {
    if names != [] {
      TallyCons(names, s + [t]);
      TallyCons(names, s);
      CategoryTotalSnoc(s, t, names[0]);
      TallySumStep(names[1..], s, t);
      assert t.category in names <==> t.category == names[0] || t.category in names[1..];
      assert names[0] !in names[1..];
    }
  }

  /** The grouped values add up to the expense total. */
  lemma {:induction false} GroupedSum(ts: seq<Transaction>)
    ensures ValueSum(Grouped(ts)) == Total(ts, Expense)
  {
    if ts != [] {
      var s, t := ts[..|ts| - 1], ts[|ts| - 1];
      assert ts == s + [t];
      var p := Categories(s);
      CategoriesSpec(s);
      GroupedSum(s);
      TotalSnoc(s, t, Expense);
      TallySumStep(p, s, t);
      if t.kind == Expense && t.category !in p {
        var c := t.category;
        TallySnoc(p, c, ts);
        Seqs.SumConcat(Tally(p, ts), [Entry(c, CategoryTotal(ts, c))], ValueOf);
        CategoryTotalSnoc(s, t, c);
        assert Seqs.Filter(s, ExpenseIn(c)) == [];
      }
    }
  }

  // ---------------------------------------------------------------------------
  // Category breakdown: the sort

  lemma {:induction false} InsertPermutes(x: Entry, s: seq<Entry>)
    ensures multiset(Insert(x, s)) == multiset(s) + multiset{x}
    ensures ValueSum(Insert(x, s)) == x.value + ValueSum(s)
  {
    if s != [] && s[0].value > x.value {
      InsertPermutes(x, s[1..]);
      assert s == [s[0]] + s[1..];
      assert Insert(x, s)[1..] == Insert(x, s[1..]);
    }
  }

  lemma {:induction false} InsertSorted(x: Entry, s: seq<Entry>)
    requires NonIncreasing(s)
    ensures NonIncreasing(Insert(x, s))
  {
    if s != [] && s[0].value > x.value {
      InsertSorted(x, s[1..]);
      InsertPermutes(x, s[1..]);
      var r := Insert(x, s[1..]);
      forall j | 0 <= j < |r| ensures s[0].value >= r[j].value {
        assert r[j] in multiset(r);
        assert r[j] == x || r[j] in s[1..];
      }
    }
  }

  lemma {:induction false} InsertStable(x: Entry, s: seq<Entry>, v: real)
    ensures Seqs.Filter(Insert(x, s), ValueIs(v)) == Seqs.Filter([x] + s, ValueIs(v))
  {
    if s != [] && s[0].value > x.value {
      var p, rest := ValueIs(v), s[1..];
      var fx, fs := Seqs.Filter([x], p), Seqs.Filter([s[0]], p);
      assert fx == [] || fs == [];
      InsertStable(x, rest, v);
      calc {
        Seqs.Filter(Insert(x, s), p);
        { Seqs.FilterConcat([s[0]], Insert(x, rest), p); }
        fs + Seqs.Filter(Insert(x, rest), p);
        { Seqs.FilterConcat([x], rest, p); }
        fs + (fx + Seqs.Filter(rest, p));
        fx + (fs + Seqs.Filter(rest, p));
        { Seqs.FilterConcat([s[0]], rest, p); assert [s[0]] + rest == s; }
        fx + Seqs.Filter(s, p);
        { Seqs.FilterConcat([x], s, p); }
        Seqs.Filter([x] + s, p);
      }
    }
  }

  lemma {:induction false} InsertDistinct(x: Entry, s: seq<Entry>)
    requires DistinctNames(s)
    requires forall i :: 0 <= i < |s| ==> s[i].name != x.name
    ensures DistinctNames(Insert(x, s))
  {
    if s != [] && s[0].value > x.value {
      InsertDistinct(x, s[1..]);
      InsertPermutes(x, s[1..]);
      var r := Insert(x, s[1..]);
      forall j | 0 <= j < |r| ensures s[0].name != r[j].name {
        assert r[j] in multiset(r);
        assert r[j] == x || r[j] in s[1..];
      }
    }
  }

  /** The sort only reorders: nothing is lost, added or changed, and so the
      values still add up to the same total. */
  lemma {:induction false} SortPermutes(s: seq<Entry>)
    ensures multiset(SortByValueDesc(s)) == multiset(s)
    ensures ValueSum(SortByValueDesc(s)) == ValueSum(s)
  {
    if s != [] {
      SortPermutes(s[1..]);
      InsertPermutes(s[0], SortByValueDesc(s[1..]));
      assert s == [s[0]] + s[1..];
    }
  }

  lemma {:induction false} SortSorted(s: seq<Entry>)
    ensures NonIncreasing(SortByValueDesc(s))
  {
    if s != [] {
      SortSorted(s[1..]);
      InsertSorted(s[0], SortByValueDesc(s[1..]));
    }
  }

  /** Entries of equal value come out in the order they went in. */
  lemma {:induction false} SortStable(s: seq<Entry>, v: real)
    ensures Seqs.Filter(SortByValueDesc(s), ValueIs(v)) == Seqs.Filter(s, ValueIs(v))
  {
    if s != [] {
      var rest := SortByValueDesc(s[1..]);
      SortStable(s[1..], v);
      InsertStable(s[0], rest, v);
      Seqs.FilterConcat([s[0]], rest, ValueIs(v));
      Seqs.FilterConcat([s[0]], s[1..], ValueIs(v));
      assert s == [s[0]] + s[1..];
    }
  }

  lemma {:induction false} SortDistinct(s: seq<Entry>)
    requires DistinctNames(s)
    ensures DistinctNames(SortByValueDesc(s))
  {
    if s != [] {
      var rest := SortByValueDesc(s[1..]);
      SortDistinct(s[1..]);
      SortPermutes(s[1..]);
      forall i | 0 <= i < |rest| ensures rest[i].name != s[0].name {
        assert rest[i] in multiset(s[1..]);
      }
      InsertDistinct(s[0], rest);
    }
  }

  // ---------------------------------------------------------------------------
  // Category breakdown: what the chart data promises

  /** The chart data is sorted by descending value, is a reordering of the
      grouped entries, and keeps first-encounter order among equal values. */
  lemma BreakdownOrder(ts: seq<Transaction>)
    ensures NonIncreasing(Breakdown(ts))
    ensures multiset(Breakdown(ts)) == multiset(Grouped(ts))
    ensures forall v :: Seqs.Filter(Breakdown(ts), ValueIs(v)) == Seqs.Filter(Grouped(ts), ValueIs(v))
  {
    SortSorted(Grouped(ts));
    SortPermutes(Grouped(ts));
    forall v ensures Seqs.Filter(Breakdown(ts), ValueIs(v)) == Seqs.Filter(Grouped(ts), ValueIs(v)) {
      SortStable(Grouped(ts), v);
    }
  }

  /** Exactly one entry per category that has an expense, valued at that
      category's total; income never contributes. */
  lemma BreakdownEntries(ts: seq<Transaction>)
    ensures DistinctNames(Breakdown(ts))
    ensures forall e :: e in Breakdown(ts) <==> SpentOn(ts, e.name) && e.value == CategoryTotal(ts, e.name)
  {
    var g := Grouped(ts);
    CategoriesSpec(ts);
    SortPermutes(g);
    SortDistinct(g);
    forall e ensures e in Breakdown(ts) <==> SpentOn(ts, e.name) && e.value == CategoryTotal(ts, e.name) {
      assert e in Breakdown(ts) <==> e in multiset(g);
      if SpentOn(ts, e.name) && e.value == CategoryTotal(ts, e.name) {
        var k :| 0 <= k < |Categories(ts)| && Categories(ts)[k] == e.name;
        assert g[k] == e;
      }
    }
  }

  /** The slices add up to the expense card. */
  lemma BreakdownTotal(ts: seq<Transaction>)
    ensures ValueSum(Breakdown(ts)) == Summarize(ts).expenses
  {
    SortPermutes(Grouped(ts));
    GroupedSum(ts);
  }

  // ---------------------------------------------------------------------------
  // Category breakdown: the computation

  /** The `categoryData` memo as the component computes it: one pass over
      the expenses accumulating a record keyed by category (whose keys keep
      insertion order), then the entries sorted by descending value. */
  method CategoryData(ts: seq<Transaction>) returns (r: seq<Entry>)
    ensures r == Breakdown(ts)
  {
    var order: seq<string> := [];
    var totals: map<string, real> := map[];
    var i := 0;
    while i < |ts|
      invariant 0 <= i <= |ts|
      invariant order == Categories(ts[..i])
      invariant forall c :: c in totals <==> c in order
      invariant forall c :: CategoryTotal(ts[..i], c) == if c in totals then totals[c] else 0.0
    {
      var t := ts[i];
      assert ts[..i + 1] == ts[..i] + [t];
      assert ts[..i + 1][..i] == ts[..i];
      if t.kind == Expense {
        var prior := if t.category in totals then totals[t.category] else 0.0;
        if t.category !in totals {
          order := order + [t.category];
        }
        totals := totals[t.category := prior + t.amount];
      }
      forall c ensures CategoryTotal(ts[..i + 1], c) == if c in totals then totals[c] else 0.0 {
        CategoryTotalSnoc(ts[..i], t, c);
      }
      i := i + 1;
    }
    assert ts[..i] == ts;
    ghost var g := Grouped(ts);
    assert |g| == |order|;
    var entries := seq(|order|, k requires 0 <= k < |order| => Entry(order[k], totals[order[k]]));
    assert |entries| == |order|;
    forall k | 0 <= k < |order| ensures entries[k] == g[k] {
      assert entries[k] == Entry(order[k], totals[order[k]]);
      assert g[k] == Entry(order[k], CategoryTotal(ts, order[k]));
    }
    assert entries == g;
    r := SortByValueDesc(entries);
  }

  // ---------------------------------------------------------------------------
  // Recent activity

  /** `transactions.slice(0, 6)`: the newest entries, at most six, in ledger
      order. */
  function RecentActivity(ts: seq<Transaction>): (r: seq<Transaction>)
    ensures |r| == if |ts| <= RecentCount then |ts| else RecentCount
    ensures r == ts[..|r|]
  {
    if |ts| <= RecentCount then ts else ts[..RecentCount]
  }
}
