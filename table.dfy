/**
 * The columnar "symbol info" table: `asTable` gathers, for every key of every
 * item, the values in item order, then collapses a column to its one value
 * when the column holds a single distinct value.
 *
 * Item values are of an abstract type whose `==` stands for the equality a
 * JavaScript `Set` uses (reference identity for arrays and objects).
 */
module Table {

  /** One output column: the collapsed value, or the full list of values. */
  datatype Column<V> = Scalar(value: V) | Values(values: seq<V>)

  /** Every key carried by some item. */
  function KeysOf<V>(items: seq<map<string, V>>): (ks: set<string>)
    ensures forall i, k :: 0 <= i < |items| && k in items[i] ==> k in ks
    ensures forall k :: k in ks ==> exists i :: 0 <= i < |items| && k in items[i]
    decreases |items|
  {
    if items == [] then {}
    else
      var init := items[..|items| - 1];
      assert forall i :: 0 <= i < |init| ==> init[i] == items[i];
      KeysOf(init) + items[|items| - 1].Keys
  }

  /** The values under `k`, in item order, of the items that carry `k`. */
  function ColumnOf<V>(items: seq<map<string, V>>, k: string): (c: seq<V>)
    ensures forall v :: v in c ==> exists i :: 0 <= i < |items| && k in items[i] && items[i][k] == v
    decreases |items|
  {
    if items == [] then []
    else
      var init := items[..|items| - 1];
      var last := items[|items| - 1];
      assert forall i :: 0 <= i < |init| ==> init[i] == items[i];
      ColumnOf(init, k) + (if k in last then [last[k]] else [])
  }

  /** All values of `s` are the same. */
  predicate AllSame<V(==)>(s: seq<V>) {
    forall j :: 0 <= j < |s| ==> s[j] == s[0]
  }

  /** The reference meaning of a finished column. */
  function Collapse<V(==)>(col: seq<V>): (r: Column<V>)
    ensures r.Scalar? <==> |col| > 0 && AllSame(col)
    ensures r.Scalar? ==> forall j :: 0 <= j < |col| ==> col[j] == r.value
    ensures r.Values? ==> r.values == col
  {
    if |col| > 0 && AllSame(col) then Scalar(col[0]) else Values(col)
  }

  /** `[...new Set(s)]`: the distinct values of `s` in first-occurrence order. */
  function Distinct<V(==)>(s: seq<V>): (d: seq<V>)
    ensures forall i :: 0 <= i < |d| ==> d[i] in s
    ensures forall i :: 0 <= i < |s| ==> s[i] in d
    ensures forall i, j :: 0 <= i < j < |d| ==> d[i] != d[j]
    ensures |s| > 0 ==> |d| > 0 && d[0] == s[0]
    decreases |s|
  {
    if s == [] then []
    else
      var init := s[..|s| - 1];
      var last := s[|s| - 1];
      assert forall i :: 0 <= i < |init| ==> init[i] == s[i];
      assert |init| > 0 ==> init[0] == s[0];
      Distinct(init) + (if last in init then [] else [last])
  }

  /** The set has one element exactly when the column is non-empty and uniform. */
  lemma {:induction false} DistinctSingleton<V>(s: seq<V>)
    ensures |Distinct(s)| == 1 <==> |s| > 0 && AllSame(s)
    decreases |s|
  {
    if s != [] {
      var init := s[..|s| - 1];
      var last := s[|s| - 1];
      DistinctSingleton(init);
      if init == [] {
        assert s == [last];
      } else if last in init {
        assert init[0] == s[0];
        if AllSame(init) {
          assert AllSame(s);
        }
        if AllSame(s) {
          assert forall j :: 0 <= j < |init| ==> init[j] == s[j];
        }
      } else {
        assert |Distinct(init)| >= 1;
        assert !AllSame(s) by {
          assert init[0] == s[0] && s[|s| - 1] == last && last != init[0];
        }
      }
    }
  }

  lemma ColumnOfSnoc<V>(items: seq<map<string, V>>, item: map<string, V>, k: string)
    ensures ColumnOf(items + [item], k) == ColumnOf(items, k) + (if k in item then [item[k]] else [])
  {
    assert (items + [item])[..|items|] == items;
  }

  lemma KeysOfSnoc<V>(items: seq<map<string, V>>, item: map<string, V>)
    ensures KeysOf(items + [item]) == KeysOf(items) + item.Keys
  {
    assert (items + [item])[..|items|] == items;
  }

  /** A key that no item carries has an empty column. */
  lemma {:induction false} ColumnOfAbsent<V>(items: seq<map<string, V>>, k: string)
    requires k !in KeysOf(items)
    ensures ColumnOf(items, k) == []
    decreases |items|
  {
    if items != [] {
      var init := items[..|items| - 1];
      assert init + [items[|items| - 1]] == items;
      KeysOfSnoc(init, items[|items| - 1]);
      ColumnOfAbsent(init, k);
    }
  }

  /**
   * When every item carries `k`, the column has one value per item, in
   * item order.
   */
  lemma {:induction false} ColumnOfEveryItem<V>(items: seq<map<string, V>>, k: string)
    requires forall i :: 0 <= i < |items| ==> k in items[i]
    ensures |ColumnOf(items, k)| == |items|
    ensures forall i :: 0 <= i < |items| ==> ColumnOf(items, k)[i] == items[i][k]
    decreases |items|
  {
    if items != [] {
      ColumnOfEveryItem(items[..|items| - 1], k);
    }
  }

  /** The number of items that carry `k`. */
  function Carriers<V>(items: seq<map<string, V>>, k: string): (n: nat)
    ensures n <= |items|
  {
    if items == [] then 0
    else Carriers(items[..|items| - 1], k) + (if k in items[|items| - 1] then 1 else 0)
  }

  /** A column has exactly one value per item that carries its key. */
  lemma {:induction false} ColumnOfLength<V>(items: seq<map<string, V>>, k: string)
    ensures |ColumnOf(items, k)| == Carriers(items, k)
    ensures |ColumnOf(items, k)| <= |items|
    ensures k in KeysOf(items) ==> |ColumnOf(items, k)| > 0
    decreases |items|
  {
    if items != [] {
      var init := items[..|items| - 1];
      assert init + [items[|items| - 1]] == items;
      KeysOfSnoc(init, items[|items| - 1]);
      ColumnOfLength(init, k);
    }
  }

  /** The gathered columns of `items`, before collapsing. */
  ghost predicate Gathered<V>(cols: map<string, seq<V>>, items: seq<map<string, V>>) {
    && cols.Keys == KeysOf(items)
    && forall k :: k in cols ==> cols[k] == ColumnOf(items, k)
  }

  /** The column `cols` holds for `k`, empty when it has none yet. */
  function ColumnIn<V>(cols: map<string, seq<V>>, k: string): seq<V> {
    if k in cols then cols[k] else []
  }

  /**
   * Part-way through pushing `item` onto `cols`: the keys already done
   * (those not in `todo`) have its value appended, the others are as in `cols`.
   */
  ghost predicate Pushing<V>(next: map<string, seq<V>>, cols: map<string, seq<V>>, item: map<string, V>, todo: set<string>) {
    && todo <= item.Keys
    && next.Keys == cols.Keys + (item.Keys - todo)
    && forall k :: k in next ==>
         next[k] == ColumnIn(cols, k) + (if k in item && k !in todo then [item[k]] else [])
  }

  /** Pushing one more key of `item` onto the column read from `next`. */
  lemma PushingStep<V>(next: map<string, seq<V>>, cols: map<string, seq<V>>, item: map<string, V>,
                       todo: set<string>, key: string, column: seq<V>)
    requires Pushing(next, cols, item, todo) && key in todo
    requires column == if key in next then next[key] else []
    ensures Pushing(next[key := column + [item[key]]], cols, item, todo - {key})
  {
    assert column == ColumnIn(cols, key);
  }

  /** Once every key is pushed, the columns are those of `prior` with `item` appended. */
  lemma PushingEnds<V>(next: map<string, seq<V>>, cols: map<string, seq<V>>, prior: seq<map<string, V>>, item: map<string, V>)
    requires Gathered(cols, prior)
    requires Pushing(next, cols, item, {})
    ensures Gathered(next, prior + [item])
  {
    KeysOfSnoc(prior, item);
    forall k | k in next
      ensures next[k] == ColumnOf(prior + [item], k)
    {
      ColumnOfSnoc(prior, item, k);
      if k !in cols {
        ColumnOfAbsent(prior, k);
      }
    }
  }

  /** The inner loop of `asTable`: push each value of `item` onto its key's column. */
  method PushItem<V>(cols: map<string, seq<V>>, ghost prior: seq<map<string, V>>, item: map<string, V>)
    returns (next: map<string, seq<V>>)
    requires Gathered(cols, prior)
    ensures Gathered(next, prior + [item])
  {
    next := cols;
    var todo := item.Keys;
    while todo != {}
      invariant Pushing(next, cols, item, todo)
      decreases todo
    {
      var key :| key in todo;
      var column := if key in next then next[key] else [];
      PushingStep(next, cols, item, todo, key, column);
      next := next[key := column + [item[key]]];
      todo := todo - {key};
    }
    PushingEnds(next, cols, prior, item);
  }

  /**
   * `asTable(items)`: one column per key carried by some item; a column
   * whose values are all the same becomes that value.
   */
  method AsTable<V(==)>(items: seq<map<string, V>>) returns (table: map<string, Column<V>>)
    ensures table.Keys == KeysOf(items)
    ensures forall k :: k in table ==> table[k] == Collapse(ColumnOf(items, k))
  {
    var cols: map<string, seq<V>> := map[];
    var i := 0;
    while i < |items|
      invariant 0 <= i <= |items|
      invariant Gathered(cols, items[..i])
    {
      cols := PushItem(cols, items[..i], items[i]);
      assert items[..i + 1] == items[..i] + [items[i]];
      i := i + 1;
    }
    assert items[..i] == items;
    table := CollapseAll(cols);
  }

  /** The second loop of `asTable`: collapse every single-valued column. */
  method CollapseAll<V(==)>(cols: map<string, seq<V>>) returns (table: map<string, Column<V>>)
    ensures table.Keys == cols.Keys
    ensures forall k :: k in table ==> table[k] == Collapse(cols[k])
  {
    table := map[];
    var rest := cols.Keys;
    while rest != {}
      invariant rest <= cols.Keys
      invariant table.Keys == cols.Keys - rest
      invariant forall k :: k in table ==> table[k] == Collapse(cols[k])
      decreases rest
    {
      var key :| key in rest;
      var values := Distinct(cols[key]);
      DistinctSingleton(cols[key]);
      table := table[key := if |values| == 1 then Scalar(values[0]) else Values(cols[key])];
      rest := rest - {key};
    }
  }
}
