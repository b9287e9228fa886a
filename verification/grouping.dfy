/** Grouping of keyed amounts as the source does it with a plain object
    used as a map (`acc[key] = (acc[key] || 0) + amount`), and ranking of
    the groups with a stable descending sort on their totals
    (`Object.entries(...).sort(([,a], [,b]) => b - a)`). Object keys keep
    insertion order: the first record with a key creates its group at the
    end of the list, later ones add to it. */
module Grouping {
  import opened Sums

  datatype Entry<K> = Entry(key: K, amount: real)

  datatype Group<K> = Group(key: K, total: real, count: nat)

  /** The keys of some groups, in order. */
  function Keys<K>(gs: seq<Group<K>>): (r: seq<K>)
    ensures |r| == |gs|
    ensures forall i :: 0 <= i < |gs| ==> r[i] == gs[i].key
  {
    if |gs| == 0 then [] else Keys(gs[..|gs| - 1]) + [gs[|gs| - 1].key]
  }

  /** No key occurs twice. */
  predicate DistinctKeys<K(==)>(gs: seq<Group<K>>)
  {
    forall i, j :: 0 <= i < j < |gs| ==> gs[i].key != gs[j].key
  }

  /** The amounts of some entries, in order. */
  function EntryAmounts<K>(es: seq<Entry<K>>): (r: seq<real>)
    ensures |r| == |es|
    ensures forall i :: 0 <= i < |es| ==> r[i] == es[i].amount
  {
    if |es| == 0 then [] else EntryAmounts(es[..|es| - 1]) + [es[|es| - 1].amount]
  }

  /** The total of the entries with key `k`: the reference a group total
      must equal. */
  function SumFor<K(==)>(es: seq<Entry<K>>, k: K): real
  {
    if |es| == 0 then 0.0
    else SumFor(es[..|es| - 1], k) + (if es[|es| - 1].key == k then es[|es| - 1].amount else 0.0)
  }

  /** The number of entries with key `k`. */
  function CountFor<K(==)>(es: seq<Entry<K>>, k: K): nat
  {
    if |es| == 0 then 0
    else CountFor(es[..|es| - 1], k) + (if es[|es| - 1].key == k then 1 else 0)
  }

  /** Some entry has key `k`. */
  predicate Occurs<K(==)>(es: seq<Entry<K>>, k: K)
  {
    exists i :: 0 <= i < |es| && es[i].key == k
  }

  /** The sum of the group totals. */
  function Totals<K>(gs: seq<Group<K>>): real
  {
    if |gs| == 0 then 0.0 else Totals(gs[..|gs| - 1]) + gs[|gs| - 1].total
  }

  /** The sum of the group counts. */
  function Counts<K>(gs: seq<Group<K>>): nat
  {
    if |gs| == 0 then 0 else Counts(gs[..|gs| - 1]) + gs[|gs| - 1].count
  }

  /** The index of the group with key `k`, if there is one. */
  function Find<K(==)>(gs: seq<Group<K>>, k: K): (r: int)
    ensures -1 <= r < |gs|
    ensures r >= 0 ==> gs[r].key == k
    ensures r < 0 ==> forall i :: 0 <= i < |gs| ==> gs[i].key != k
  {
    if |gs| == 0 then -1
    else if gs[|gs| - 1].key == k then |gs| - 1
    else Find(gs[..|gs| - 1], k)
  }

  /** One step of the grouping: add `e` to the group of its key, or open a
      new group for it at the end. */
  function Add<K(==)>(gs: seq<Group<K>>, e: Entry<K>): (r: seq<Group<K>>)
    ensures |r| == |gs| || |r| == |gs| + 1
    ensures |r| == |gs| + 1 <==> forall i :: 0 <= i < |gs| ==> gs[i].key != e.key
  {
    var i := Find(gs, e.key);
    if i < 0 then gs + [Group(e.key, e.amount, 1)]
    else gs[i := Group(e.key, gs[i].total + e.amount, gs[i].count + 1)]
  }

  /** The groups of `es`, keys in order of first occurrence. */
  function GroupBy<K(==)>(es: seq<Entry<K>>): (r: seq<Group<K>>)
    ensures |r| <= |es|
    ensures |r| == 0 <==> |es| == 0
  {
    if |es| == 0 then [] else Add(GroupBy(es[..|es| - 1]), es[|es| - 1])
  }

  // ---------------------------------------------------------------------------
  // Facts about one step

  lemma {:induction false} TotalsUpdate<K>(gs: seq<Group<K>>, i: nat, g: Group<K>)
    requires i < |gs|
    ensures Totals(gs[i := g]) == Totals(gs) - gs[i].total + g.total
    ensures Counts(gs[i := g]) == Counts(gs) - gs[i].count + g.count
  {
    var n := |gs| - 1;
    if i < n {
      assert gs[i := g][..n] == gs[..n][i := g];
      TotalsUpdate(gs[..n], i, g);
    } else {
      assert gs[i := g][..n] == gs[..n];
    }
  }

  lemma TotalsAppend<K>(gs: seq<Group<K>>, g: Group<K>)
    ensures Totals(gs + [g]) == Totals(gs) + g.total
    ensures Counts(gs + [g]) == Counts(gs) + g.count
  {
    assert (gs + [g])[..|gs|] == gs;
  }

  lemma AddTotals<K>(gs: seq<Group<K>>, e: Entry<K>)
    ensures Totals(Add(gs, e)) == Totals(gs) + e.amount
    ensures Counts(Add(gs, e)) == Counts(gs) + 1
  {
    var i := Find(gs, e.key);
    if i < 0 {
      TotalsAppend(gs, Group(e.key, e.amount, 1));
    } else {
      TotalsUpdate(gs, i, Group(e.key, gs[i].total + e.amount, gs[i].count + 1));
    }
  }

  lemma AddDistinct<K>(gs: seq<Group<K>>, e: Entry<K>)
    requires DistinctKeys(gs)
    ensures DistinctKeys(Add(gs, e))
  {
  }

  /** After a step, the group of key `k` (if any) has gained `e` exactly when
      `e` has key `k`, and every other group is unchanged. */
  lemma AddGroupOf<K>(gs: seq<Group<K>>, e: Entry<K>, k: K)
    requires DistinctKeys(gs)
    ensures var j := Find(Add(gs, e), k);
      var i := Find(gs, k);
      (j >= 0 <==> i >= 0 || e.key == k) &&
      (j >= 0 ==> Add(gs, e)[j].total == (if i >= 0 then gs[i].total else 0.0) + (if e.key == k then e.amount else 0.0)) &&
      (j >= 0 ==> Add(gs, e)[j].count == (if i >= 0 then gs[i].count else 0) + (if e.key == k then 1 else 0))
  {
    var r := Add(gs, e);
    AddDistinct(gs, e);
    var j := Find(r, k);
    var i := Find(gs, k);
    var ie := Find(gs, e.key);
    if ie < 0 {
      if e.key == k {
        assert r[|gs|].key == k;
        FindDistinct(r, |gs|);
      } else if i >= 0 {
        assert r[i] == gs[i];
        FindDistinct(r, i);
      }
    } else {
      if i >= 0 {
        FindDistinct(gs, i);
        FindDistinct(r, i);
      }
    }
  }

  /** With distinct keys, `Find` locates the one group holding a key. */
  lemma FindDistinct<K>(gs: seq<Group<K>>, i: nat)
    requires DistinctKeys(gs) && i < |gs|
    ensures Find(gs, gs[i].key) == i
  {
  }

  // ---------------------------------------------------------------------------
  // Facts about the whole grouping

  /** The group totals add up to the total of all amounts, and the group
      counts to the number of entries. */
  lemma {:induction false} GroupByTotals<K>(es: seq<Entry<K>>)
    ensures Totals(GroupBy(es)) == Sum(EntryAmounts(es))
    ensures Counts(GroupBy(es)) == |es|
  {
    if |es| > 0 {
      var n := |es| - 1;
      GroupByTotals(es[..n]);
      AddTotals(GroupBy(es[..n]), es[n]);
      assert EntryAmounts(es)[..n] == EntryAmounts(es[..n]);
    }
  }

  /** Every key labels at most one group. */
  lemma {:induction false} GroupByDistinct<K>(es: seq<Entry<K>>)
    ensures DistinctKeys(GroupBy(es))
  {
    if |es| > 0 {
      GroupByDistinct(es[..|es| - 1]);
      AddDistinct(GroupBy(es[..|es| - 1]), es[|es| - 1]);
    }
  }

  /** A key has a group exactly when some entry carries it, and that group
      holds the total and the number of the entries with the key. */
  lemma {:induction false} GroupByContents<K>(es: seq<Entry<K>>, k: K)
    ensures var i := Find(GroupBy(es), k);
      (i >= 0 <==> Occurs(es, k)) &&
      (i >= 0 ==> GroupBy(es)[i].total == SumFor(es, k) && GroupBy(es)[i].count == CountFor(es, k))
  {
    if |es| > 0 {
      var n := |es| - 1;
      var g := GroupBy(es[..n]);
      assert GroupBy(es) == Add(g, es[n]);
      GroupByContents(es[..n], k);
      GroupByDistinct(es[..n]);
      AddGroupOf(g, es[n], k);
      OccursLast(es, k);
      if !Occurs(es[..n], k) {
        SumForAbsent(es[..n], k);
      }
      assert SumFor(es, k) == SumFor(es[..n], k) + (if es[n].key == k then es[n].amount else 0.0);
      assert CountFor(es, k) == CountFor(es[..n], k) + (if es[n].key == k then 1 else 0);
    }
  }

  /** The group at index `i` holds the total and number of the entries with
      its key, which occur among the entries. */
  lemma GroupByAt<K>(es: seq<Entry<K>>, i: nat)
    requires i < |GroupBy(es)|
    ensures var g := GroupBy(es)[i];
      Occurs(es, g.key) && g.total == SumFor(es, g.key) && g.count == CountFor(es, g.key)
  {
    GroupByDistinct(es);
    GroupByContents(es, GroupBy(es)[i].key);
    FindDistinct(GroupBy(es), i);
  }

  /** The key of entry `j` has a group. */
  lemma GroupByHas<K>(es: seq<Entry<K>>, j: nat)
    requires j < |es|
    ensures Find(GroupBy(es), es[j].key) >= 0
  {
    GroupByContents(es, es[j].key);
  }

  /** A key occurs in a non-empty list exactly when it occurs before the
      last entry or is the last entry's key. */
  lemma OccursLast<K>(es: seq<Entry<K>>, k: K)
    requires |es| > 0
    ensures Occurs(es, k) <==> Occurs(es[..|es| - 1], k) || es[|es| - 1].key == k
  {
    var n := |es| - 1;
    if Occurs(es, k) && es[n].key != k {
      var w :| 0 <= w < |es| && es[w].key == k;
      assert es[..n][w].key == k;
    }
    if Occurs(es[..n], k) {
      var w :| 0 <= w < n && es[..n][w].key == k;
      assert es[w].key == k;
    }
  }

  lemma {:induction false} SumForAbsent<K>(es: seq<Entry<K>>, k: K)
    requires !Occurs(es, k)
    ensures SumFor(es, k) == 0.0 && CountFor(es, k) == 0
  {
    if |es| > 0 {
      OccursLast(es, k);
      SumForAbsent(es[..|es| - 1], k);
    }
  }

  // ---------------------------------------------------------------------------
  // Ranking

  /** Totals never increase along the list. */
  predicate SortedDesc<K>(gs: seq<Group<K>>)
  {
    forall i, j :: 0 <= i < j < |gs| ==> gs[i].total >= gs[j].total
  }

  /** Inserts `g` after every group whose total is at least its own, which
      keeps equal totals in their original order. */
  function Insert<K>(g: Group<K>, s: seq<Group<K>>): (r: seq<Group<K>>)
    ensures |r| == |s| + 1
    ensures multiset(r) == multiset(s) + multiset{g}
  {
    if |s| == 0 then [g]
    else if s[0].total >= g.total then
      assert s == [s[0]] + s[1..];
      [s[0]] + Insert(g, s[1..])
    else [g] + s
  }

  lemma {:induction false} InsertSorted<K>(g: Group<K>, s: seq<Group<K>>)
    requires SortedDesc(s)
    ensures SortedDesc(Insert(g, s))
  {
    if |s| > 0 && s[0].total >= g.total {
      InsertSorted(g, s[1..]);
      var r := Insert(g, s);
      forall j | 1 <= j < |r|
        ensures r[0].total >= r[j].total
      {
        var t := Insert(g, s[1..]);
        assert r[j] == t[j - 1];
        assert r[j] in multiset(t);
        assert r[j] in multiset(s[1..]) + multiset{g};
        if r[j] != g {
          assert r[j] in s[1..];
        }
      }
    }
  }

  /** The stable sort of the groups by descending total (insertion sort). */
  function SortDesc<K>(gs: seq<Group<K>>): (r: seq<Group<K>>)
    ensures |r| == |gs|
    ensures multiset(r) == multiset(gs)
  {
    if |gs| == 0 then []
    else
      assert gs == gs[..|gs| - 1] + [gs[|gs| - 1]];
      Insert(gs[|gs| - 1], SortDesc(gs[..|gs| - 1]))
  }

  lemma {:induction false} SortDescSorted<K>(gs: seq<Group<K>>)
    ensures SortedDesc(SortDesc(gs))
  {
    if |gs| > 0 {
      SortDescSorted(gs[..|gs| - 1]);
      InsertSorted(gs[|gs| - 1], SortDesc(gs[..|gs| - 1]));
    }
  }

  /** The index of the first group with the largest total. */
  function FirstMax<K>(gs: seq<Group<K>>): (m: nat)
    requires |gs| > 0
    ensures m < |gs|
    ensures forall i :: 0 <= i < |gs| ==> gs[i].total <= gs[m].total
    ensures forall i :: 0 <= i < m ==> gs[i].total < gs[m].total
  {
    if |gs| == 1 then 0
    else
      var m := FirstMax(gs[..|gs| - 1]);
      if gs[|gs| - 1].total > gs[m].total then |gs| - 1 else m
  }

  /** The head of the stable sort is the first group with the largest total. */
  lemma {:induction false} SortDescHead<K>(gs: seq<Group<K>>)
    requires |gs| > 0
    ensures SortDesc(gs)[0] == gs[FirstMax(gs)]
  {
    if |gs| > 1 {
      var n := |gs| - 1;
      SortDescHead(gs[..n]);
    }
  }

  /** The at most `k` groups with the largest totals, ties in insertion order. */
  function Top<K>(gs: seq<Group<K>>, k: nat): (r: seq<Group<K>>)
    ensures |r| == if |gs| < k then |gs| else k
    ensures r == SortDesc(gs)[..|r|]
    ensures SortedDesc(r)
    ensures forall t :: t in r ==> t in gs
  {
    var s := SortDesc(gs);
    var n := if |s| <= k then |s| else k;
    SortDescSorted(gs);
    SortedPrefix(gs, s, n);
    s[..n]
  }

  /** A prefix of a sorted permutation of `gs` is sorted and drawn from `gs`. */
  lemma SortedPrefix<K>(gs: seq<Group<K>>, s: seq<Group<K>>, n: nat)
    requires multiset(s) == multiset(gs) && SortedDesc(s) && n <= |s|
    ensures SortedDesc(s[..n])
    ensures forall t :: t in s[..n] ==> t in gs
  {
    forall t | t in s[..n]
      ensures t in gs
    {
      assert t in multiset(s);
    }
  }

  /** Every group left out of the top `k` has a total no larger than any
      group in it. */
  lemma {:induction false} TopDominates<K>(gs: seq<Group<K>>, k: nat, g: Group<K>)
    requires g in gs
    requires g !in Top(gs, k)
    ensures forall t :: t in Top(gs, k) ==> t.total >= g.total
  {
    var s := SortDesc(gs);
    SortDescSorted(gs);
    assert g in multiset(s);
    var j :| 0 <= j < |s| && s[j] == g;
    assert j >= k;
    forall t | t in Top(gs, k)
      ensures t.total >= g.total
    {
      var i :| 0 <= i < k && s[..k][i] == t;
    }
  }
}
