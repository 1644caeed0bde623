/**
 * The dataframe operations the KPIs are built from: column sums, row
 * selection, distinct keys, group-by sums, per-group aggregates, descending
 * rankings and top-N truncation. Everything is generic in the row type `T`
 * and the key type `K`; a column is a function from a row to its value.
 *
 * A grouped aggregate (a pandas Series indexed by group key) is a sequence
 * of `Group` entries whose keys are pairwise distinct, listed in the order
 * in which the keys first occur in the table.
 */
module Aggregate {

  // ---------------------------------------------------------------------
  // Column sums and row selection
  // ---------------------------------------------------------------------

  /** `Series.sum()` of column `val`: 0 for an empty table. */
  function Total<T>(rows: seq<T>, val: T -> int): int
  {
    if rows == [] then 0 else Total(rows[..|rows| - 1], val) + val(rows[|rows| - 1])
  }

  /** Summing a column that is the difference of two columns. */
  lemma {:induction false} TotalDiff<T>(rows: seq<T>, f: T -> int, g: T -> int, h: T -> int)
    requires forall x :: f(x) == g(x) - h(x)
    ensures Total(rows, f) == Total(rows, g) - Total(rows, h)
  {
    if rows != [] {
      TotalDiff(rows[..|rows| - 1], f, g, h);
    }
  }

  /** Boolean-mask selection `df[mask]`: the rows satisfying `keep`, in table order. */
  function Filter<T>(rows: seq<T>, keep: T -> bool): (kept: seq<T>)
    ensures |kept| <= |rows|
  {
    if rows == [] then []
    else Filter(rows[..|rows| - 1], keep) + (if keep(rows[|rows| - 1]) then [rows[|rows| - 1]] else [])
  }

  /** A row is kept exactly when it is in the table and satisfies the mask. */
  lemma {:induction false} FilterMembership<T>(rows: seq<T>, keep: T -> bool, x: T)
    ensures x in Filter(rows, keep) <==> x in rows && keep(x)
  {
    if rows != [] {
      var init := rows[..|rows| - 1];
      FilterMembership(init, keep, x);
      assert rows == init + [rows[|rows| - 1]];
    }
  }

  /** A mask that holds of every row keeps the whole table. */
  lemma {:induction false} FilterKeepsAll<T>(rows: seq<T>, keep: T -> bool)
    requires forall i :: 0 <= i < |rows| ==> keep(rows[i])
    ensures Filter(rows, keep) == rows
  {
    if rows != [] {
      FilterKeepsAll(rows[..|rows| - 1], keep);
      assert rows == rows[..|rows| - 1] + [rows[|rows| - 1]];
    }
  }

  /** `ix` lists, strictly increasing, the positions in `b` of the elements of `a`. */
  ghost predicate Embeds<T>(ix: seq<int>, a: seq<T>, b: seq<T>)
  {
    && |ix| == |a|
    && (forall i :: 0 <= i < |ix| ==> 0 <= ix[i] < |b| && a[i] == b[ix[i]])
    && (forall i, j :: 0 <= i < j < |ix| ==> ix[i] < ix[j])
  }

  /** `a` is `b` with some elements removed and the others left in order. */
  ghost predicate IsSubsequence<T>(a: seq<T>, b: seq<T>)
  {
    exists ix :: Embeds(ix, a, b)
  }

  /**
   * `kept` is `rows` with exactly the positions satisfying `keep` retained:
   * a position is listed in the embedding exactly when its row passes, so a
   * repeated passing row is kept as many times as it occurs.
   */
  ghost predicate SelectsExactly<T>(kept: seq<T>, rows: seq<T>, keep: T -> bool)
  {
    exists ix :: Embeds(ix, kept, rows) && forall j :: 0 <= j < |rows| ==> (keep(rows[j]) <==> j in ix)
  }

  lemma {:induction false} FilterEmbedding<T>(rows: seq<T>, keep: T -> bool) returns (ix: seq<int>)
    ensures Embeds(ix, Filter(rows, keep), rows)
    ensures forall i :: 0 <= i < |ix| ==> ix[i] < |rows|
    ensures forall j :: 0 <= j < |rows| ==> (keep(rows[j]) <==> j in ix)
  {
    if rows == [] {
      ix := [];
    } else {
      var n := |rows| - 1;
      var init := rows[..n];
      var ix0 := FilterEmbedding(init, keep);
      assert rows == init + [rows[n]];
      EmbedsSnoc(ix0, Filter(init, keep), init, rows[n]);
      MaskSnoc(ix0, init, rows[n], keep);
      ix := if keep(rows[n]) then ix0 + [n] else ix0;
    }
  }

  /** An embedding survives appending one element to the larger sequence, or to both. */
  lemma EmbedsSnoc<T>(ix: seq<int>, a: seq<T>, b: seq<T>, y: T)
    requires Embeds(ix, a, b)
    ensures Embeds(ix, a, b + [y])
    ensures Embeds(ix + [|b|], a + [y], b + [y])
  {
    var ix', a', b' := ix + [|b|], a + [y], b + [y];
    forall i | 0 <= i < |ix'| ensures 0 <= ix'[i] < |b'| && a'[i] == b'[ix'[i]] {
      if i < |ix| {
        assert ix'[i] == ix[i] && a'[i] == a[i] && b'[ix[i]] == b[ix[i]];
      }
    }
  }

  /** The positions passing the mask, after appending one element. */
  lemma MaskSnoc<T>(ix: seq<int>, b: seq<T>, y: T, keep: T -> bool)
    requires forall i :: 0 <= i < |ix| ==> ix[i] < |b|
    requires forall j :: 0 <= j < |b| ==> (keep(b[j]) <==> j in ix)
    ensures var ix' := if keep(y) then ix + [|b|] else ix;
      forall j :: 0 <= j < |b| + 1 ==> (keep((b + [y])[j]) <==> j in ix')
  {
    var ix' := if keep(y) then ix + [|b|] else ix;
    forall j | 0 <= j < |b| + 1 ensures keep((b + [y])[j]) <==> j in ix' {
      if j < |b| {
        assert (b + [y])[j] == b[j];
        assert j != |b|;
      } else {
        assert |b| !in ix;
      }
    }
  }

  /**
   * Selection never adds, alters or reorders rows, and keeps every position
   * whose row passes the mask.
   */
  lemma FilterIsSubsequence<T>(rows: seq<T>, keep: T -> bool)
    ensures IsSubsequence(Filter(rows, keep), rows)
    ensures SelectsExactly(Filter(rows, keep), rows, keep)
  {
    var ix := FilterEmbedding(rows, keep);
  }

  // ---------------------------------------------------------------------
  // Distinct keys
  // ---------------------------------------------------------------------

  /** The values of a key column that occur in the table (`set(df[key])`). */
  function KeySet<T, K>(rows: seq<T>, key: T -> K): set<K>
  {
    if rows == [] then {} else KeySet(rows[..|rows| - 1], key) + {key(rows[|rows| - 1])}
  }

  /** Every row's key is among the table's keys. */
  lemma {:induction false} KeySetHas<T, K>(rows: seq<T>, key: T -> K, i: int)
    requires 0 <= i < |rows|
    ensures key(rows[i]) in KeySet(rows, key)
  {
    if i < |rows| - 1 {
      KeySetHas(rows[..|rows| - 1], key, i);
    }
  }

  /** `nunique` is at most the number of rows. */
  lemma {:induction false} KeySetBound<T, K>(rows: seq<T>, key: T -> K)
    ensures |KeySet(rows, key)| <= |rows|
  {
    if rows != [] {
      KeySetBound(rows[..|rows| - 1], key);
    }
  }

  /** Only the empty table has no keys. */
  lemma {:induction false} KeySetEmpty<T, K>(rows: seq<T>, key: T -> K)
    ensures KeySet(rows, key) == {} <==> rows == []
  {
    if rows != [] {
      assert key(rows[|rows| - 1]) in KeySet(rows, key);
    }
  }

  predicate Distinct<K(==, !new)>(ks: seq<K>)
  {
    forall i, j :: 0 <= i < j < |ks| ==> ks[i] != ks[j]
  }

  /** The distinct keys of the table, in order of first occurrence (`df[key].unique()`). */
  function KeysInOrder<T, K(==, !new)>(rows: seq<T>, key: T -> K): (ks: seq<K>)
    ensures Distinct(ks)
    ensures forall k :: k in ks <==> k in KeySet(rows, key)
    ensures |ks| == |KeySet(rows, key)|
  {
    if rows == [] then []
    else
      var ks := KeysInOrder(rows[..|rows| - 1], key);
      var k := key(rows[|rows| - 1]);
      assert KeySet(rows, key) == KeySet(rows[..|rows| - 1], key) + {k};
      if k in ks then
        assert KeySet(rows, key) == KeySet(rows[..|rows| - 1], key);
        ks
      else ks + [k]
  }

  /** The rows of one group: those whose key is `k`. */
  function RowsWithKey<T, K(==, !new)>(rows: seq<T>, key: T -> K, k: K): seq<T>
  {
    if rows == [] then []
    else RowsWithKey(rows[..|rows| - 1], key, k)
         + (if key(rows[|rows| - 1]) == k then [rows[|rows| - 1]] else [])
  }

  /** A group is non-empty exactly when its key occurs in the table. */
  lemma {:induction false} RowsWithKeyNonEmpty<T, K(!new)>(rows: seq<T>, key: T -> K, k: K)
    ensures RowsWithKey(rows, key, k) != [] <==> k in KeySet(rows, key)
  {
    if rows != [] {
      RowsWithKeyNonEmpty(rows[..|rows| - 1], key, k);
    }
  }

  /** The values seen in one group are among the values seen in the table. */
  lemma {:induction false} GroupKeySetSubset<T, K(!new), S>(rows: seq<T>, key: T -> K, k: K, sub: T -> S)
    ensures KeySet(RowsWithKey(rows, key, k), sub) <= KeySet(rows, sub)
  {
    if rows != [] {
      var init := rows[..|rows| - 1];
      GroupKeySetSubset(init, key, k, sub);
      var g := RowsWithKey(init, key, k);
      if key(rows[|rows| - 1]) == k {
        var g' := g + [rows[|rows| - 1]];
        assert g'[..|g'| - 1] == g;
      } else {
        assert RowsWithKey(rows, key, k) == g;
      }
    }
  }

  // ---------------------------------------------------------------------
  // Grouped aggregates
  // ---------------------------------------------------------------------

  /** One entry of a grouped aggregate: a group key and its aggregated value. */
  datatype Group<K> = Group(key: K, total: int)

  /** The index of a grouped aggregate. */
  function Keys<K>(gs: seq<Group<K>>): seq<K>
  {
    if gs == [] then [] else [gs[0].key] + Keys(gs[1..])
  }

  /** Sum of the values of a grouped aggregate (`series.sum()`). */
  function SumTotals<K>(gs: seq<Group<K>>): int
  {
    if gs == [] then 0 else gs[0].total + SumTotals(gs[1..])
  }

  /** `series.get(k, 0)`: the value at key `k`, 0 when `k` is absent. */
  function Lookup<K(==, !new)>(gs: seq<Group<K>>, k: K): int
  {
    if gs == [] then 0 else if gs[0].key == k then gs[0].total else Lookup(gs[1..], k)
  }

  lemma {:induction false} KeysAt<K>(gs: seq<Group<K>>, i: int)
    requires 0 <= i < |gs|
    ensures |Keys(gs)| == |gs| && Keys(gs)[i] == gs[i].key
  {
    if i > 0 {
      KeysAt(gs[1..], i - 1);
    } else {
      KeysLength(gs);
    }
  }

  lemma {:induction false} KeysLength<K>(gs: seq<Group<K>>)
    ensures |Keys(gs)| == |gs|
  {
    if gs != [] {
      KeysLength(gs[1..]);
    }
  }

  /** With distinct keys, the lookup of an entry's key finds that entry. */
  lemma {:induction false} LookupAt<K(!new)>(gs: seq<Group<K>>, i: int)
    requires Distinct(Keys(gs))
    requires 0 <= i < |gs|
    ensures Lookup(gs, gs[i].key) == gs[i].total
  {
    KeysAt(gs, i);
    if i > 0 {
      KeysAt(gs, 0);
      assert Keys(gs)[0] != Keys(gs)[i];
      assert Keys(gs[1..]) == Keys(gs)[1..];
      LookupAt(gs[1..], i - 1);
    }
  }

  /** Add `v` to the entry for `k`, creating it at the end if `k` is new. */
  function Accumulate<K(==, !new)>(gs: seq<Group<K>>, k: K, v: int): (r: seq<Group<K>>)
    ensures Keys(r) == if k in Keys(gs) then Keys(gs) else Keys(gs) + [k]
    ensures SumTotals(r) == SumTotals(gs) + v
    ensures forall k' :: Lookup(r, k') == Lookup(gs, k') + (if k' == k then v else 0)
  {
    if gs == [] then [Group(k, v)]
    else if gs[0].key == k then [Group(k, gs[0].total + v)] + gs[1..]
    else
      var rest := Accumulate(gs[1..], k, v);
      assert ([gs[0]] + rest)[1..] == rest;
      [gs[0]] + rest
  }

  /** Appending a row adds its value to its own group's total and to no other. */
  lemma GroupTotalSnoc<T, K(!new)>(rows: seq<T>, key: T -> K, val: T -> int)
    requires rows != []
    ensures forall k ::
      Total(RowsWithKey(rows, key, k), val)
      == Total(RowsWithKey(rows[..|rows| - 1], key, k), val) + (if key(rows[|rows| - 1]) == k then val(rows[|rows| - 1]) else 0)
  {
    var r := rows[|rows| - 1];
    forall k
      ensures Total(RowsWithKey(rows, key, k), val)
        == Total(RowsWithKey(rows[..|rows| - 1], key, k), val) + (if key(r) == k then val(r) else 0)
    {
      var g := RowsWithKey(rows[..|rows| - 1], key, k);
      if key(r) == k {
        assert (g + [r])[..|g + [r]| - 1] == g;
      } else {
        assert g + [] == g;
      }
    }
  }

  /**
   * `df.groupby(key)[val].sum()`, computed in one pass over the rows. Its index
   * is the table's distinct keys; its values add up to the column total; and
   * the value at each key is the column sum over that key's rows.
   */
  function GroupSum<T, K(==, !new)>(rows: seq<T>, key: T -> K, val: T -> int): (gs: seq<Group<K>>)
    ensures Keys(gs) == KeysInOrder(rows, key)
    ensures SumTotals(gs) == Total(rows, val)
    ensures forall k :: Lookup(gs, k) == Total(RowsWithKey(rows, key, k), val)
  {
    if rows == [] then []
    else
      var r := rows[|rows| - 1];
      var gs := Accumulate(GroupSum(rows[..|rows| - 1], key, val), key(r), val(r));
      GroupTotalSnoc(rows, key, val);
      gs
  }

  /**
   * The per-group reference definition of a group-by sum: for each distinct
   * key in order, the column sum over the rows carrying it.
   */
  function GroupTotals<T, K(==, !new)>(rows: seq<T>, key: T -> K, val: T -> int): seq<Group<K>>
  {
    var ks := KeysInOrder(rows, key);
    seq(|ks|, i requires 0 <= i < |ks| => Group(ks[i], Total(RowsWithKey(rows, key, ks[i]), val)))
  }

  /** The one-pass accumulation and the per-group definition agree entry by entry. */
  lemma GroupSumIsGroupTotals<T, K(!new)>(rows: seq<T>, key: T -> K, val: T -> int)
    ensures GroupSum(rows, key, val) == GroupTotals(rows, key, val)
  {
    var gs := GroupSum(rows, key, val);
    var ref := GroupTotals(rows, key, val);
    var ks := KeysInOrder(rows, key);
    KeysLength(gs);
    assert |gs| == |ref|;
    forall i | 0 <= i < |gs|
      ensures gs[i] == ref[i]
    {
      KeysAt(gs, i);
      LookupAt(gs, i);
    }
  }

  /** `df.groupby(key)[sub].nunique()`: for each group, how many distinct `sub` values it has. */
  function GroupNUnique<T, K(==, !new), S(==)>(rows: seq<T>, key: T -> K, sub: T -> S): (gs: seq<Group<K>>)
    ensures Keys(gs) == KeysInOrder(rows, key)
    ensures forall i :: 0 <= i < |gs| ==> gs[i].total == |KeySet(RowsWithKey(rows, key, gs[i].key), sub)|
    ensures forall i :: 0 <= i < |gs| ==> 1 <= gs[i].total <= |KeySet(rows, sub)|
  {
    var ks := KeysInOrder(rows, key);
    var gs := seq(|ks|, i requires 0 <= i < |ks| => Group(ks[i], |KeySet(RowsWithKey(rows, key, ks[i]), sub)|));
    KeysOfTable(gs, ks);
    GroupNUniqueBounds(rows, key, sub, ks);
    gs
  }

  lemma {:induction false} SubsetCard<S>(a: set<S>, b: set<S>)
    requires a <= b
    ensures |a| <= |b|
  {
    if a != {} {
      var x :| x in a;
      SubsetCard(a - {x}, b - {x});
    }
  }

  lemma KeysOfTable<K>(gs: seq<Group<K>>, ks: seq<K>)
    requires |gs| == |ks|
    requires forall i :: 0 <= i < |gs| ==> gs[i].key == ks[i]
    ensures Keys(gs) == ks
  {
    KeysLength(gs);
    forall i | 0 <= i < |gs| ensures Keys(gs)[i] == ks[i] {
      KeysAt(gs, i);
    }
  }

  lemma GroupNUniqueBounds<T, K(!new), S>(rows: seq<T>, key: T -> K, sub: T -> S, ks: seq<K>)
    requires forall k :: k in ks ==> k in KeySet(rows, key)
    ensures forall i :: 0 <= i < |ks| ==> 1 <= |KeySet(RowsWithKey(rows, key, ks[i]), sub)| <= |KeySet(rows, sub)|
  {
    forall i | 0 <= i < |ks| ensures 1 <= |KeySet(RowsWithKey(rows, key, ks[i]), sub)| <= |KeySet(rows, sub)| {
      var g := RowsWithKey(rows, key, ks[i]);
      GroupKeySetSubset(rows, key, ks[i], sub);
      SubsetCard(KeySet(g, sub), KeySet(rows, sub));
      RowsWithKeyNonEmpty(rows, key, ks[i]);
      KeySetHas(g, sub, |g| - 1);
    }
  }

  // ---------------------------------------------------------------------
  // Rankings
  // ---------------------------------------------------------------------

  predicate SortedDesc<K>(gs: seq<Group<K>>)
  {
    forall i, j :: 0 <= i < j < |gs| ==> gs[i].total >= gs[j].total
  }

  /** Insert `g` into a non-increasing sequence, ahead of the entries it ties with. */
  function InsertDesc<K>(g: Group<K>, gs: seq<Group<K>>): seq<Group<K>>
  {
    if gs == [] then [g]
    else if g.total >= gs[0].total then [g] + gs
    else [gs[0]] + InsertDesc(g, gs[1..])
  }

  /** Insertion adds exactly the one entry. */
  lemma {:induction false} InsertDescAdds<K>(g: Group<K>, gs: seq<Group<K>>)
    ensures multiset(InsertDesc(g, gs)) == multiset(gs) + multiset{g}
  {
    if gs != [] && g.total < gs[0].total {
      InsertDescAdds(g, gs[1..]);
      assert gs == [gs[0]] + gs[1..];
    }
  }

  /** Insertion keeps a ranking non-increasing. */
  lemma {:induction false} InsertDescKeepsRanking<K>(g: Group<K>, gs: seq<Group<K>>)
    requires SortedDesc(gs)
    ensures SortedDesc(InsertDesc(g, gs))
  {
    if gs == [] {
    } else if g.total >= gs[0].total {
      ConsKeepsRanking(g, gs);
    } else {
      var rest := InsertDesc(g, gs[1..]);
      InsertDescKeepsRanking(g, gs[1..]);
      InsertDescHead(g, gs[1..]);
      ConsKeepsRanking(gs[0], rest);
    }
  }

  /** An insertion starts with the inserted entry or with the old first one. */
  lemma InsertDescHead<K>(g: Group<K>, gs: seq<Group<K>>)
    ensures InsertDesc(g, gs) != []
    ensures InsertDesc(g, gs)[0] == g || (gs != [] && InsertDesc(g, gs)[0] == gs[0])
  {
  }

  /** An entry at least as large as the head of a ranking may be put in front of it. */
  lemma ConsKeepsRanking<K>(x: Group<K>, r: seq<Group<K>>)
    requires SortedDesc(r)
    requires r != [] ==> x.total >= r[0].total
    ensures SortedDesc([x] + r)
  {
    var r' := [x] + r;
    forall i, j | 0 <= i < j < |r'| ensures r'[i].total >= r'[j].total {
      assert r'[j] == r[j - 1];
      if i > 0 {
        assert r'[i] == r[i - 1];
      }
    }
  }

  /** `series.sort_values(ascending=False)`: a non-increasing permutation of the entries. */
  function SortDesc<K(==, !new)>(gs: seq<Group<K>>): (r: seq<Group<K>>)
    ensures SortedDesc(r)
    ensures multiset(r) == multiset(gs)
    ensures |r| == |gs|
  {
    if gs == [] then []
    else
      assert gs == [gs[0]] + gs[1..];
      InsertDescKeepsRanking(gs[0], SortDesc(gs[1..]));
      InsertDescAdds(gs[0], SortDesc(gs[1..]));
      InsertDesc(gs[0], SortDesc(gs[1..]))
  }

  /** `series.head(n)`: the first `n` entries, or all of them when there are fewer. */
  function Head<K>(gs: seq<Group<K>>, n: nat): (r: seq<Group<K>>)
    ensures |r| <= n && |r| <= |gs|
    ensures |r| == n || r == gs
    ensures r == gs[..|r|]
  {
    if n < |gs| then gs[..n] else gs
  }

  /**
   * Truncating a ranking keeps its largest entries: what is kept is a
   * non-increasing prefix, and nothing left out exceeds anything kept.
   */
  lemma HeadOfRanking<K>(gs: seq<Group<K>>, n: nat)
    requires SortedDesc(gs)
    ensures gs[..|Head(gs, n)|] == Head(gs, n)
    ensures SortedDesc(Head(gs, n))
    ensures forall i, j :: 0 <= i < |Head(gs, n)| <= j < |gs| ==> gs[j].total <= Head(gs, n)[i].total
  {
  }

  /**
   * The first `n` of a ranking: `min(n, |gs|)` entries taken from `gs`, in
   * non-increasing order, and none of the entries left out is larger than
   * any entry kept.
   */
  lemma TopOfRanking<K(!new)>(gs: seq<Group<K>>, n: nat)
    ensures |Head(SortDesc(gs), n)| == if |gs| < n then |gs| else n
    ensures SortedDesc(Head(SortDesc(gs), n))
    ensures multiset(Head(SortDesc(gs), n)) <= multiset(gs)
    ensures forall g, h :: g in Head(SortDesc(gs), n) && h in gs && h !in Head(SortDesc(gs), n) ==> h.total <= g.total
  {
    var ranked := SortDesc(gs);
    var top := Head(ranked, n);
    HeadOfRanking(ranked, n);
    assert ranked == top + ranked[|top|..];
    assert multiset(ranked) == multiset(top) + multiset(ranked[|top|..]);
    forall g, h | g in top && h in gs && h !in top ensures h.total <= g.total {
      assert h in multiset(ranked);
      assert h in ranked[|top|..];
      var j :| |top| <= j < |ranked| && ranked[j] == h;
      var i :| 0 <= i < |top| && top[i] == g;
    }
  }
}
