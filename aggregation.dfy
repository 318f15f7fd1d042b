/** The merge and the roll-up of the billing service: `pd.concat` of the
    per-secret series, and `_get_aggregated_data`, which groups the merged
    rows by `resource_type`, the caller's aggregation levels and `date`, and
    sums the cost of each group. The group-by is an explicit reduction into a
    map keyed by the projected index tuple. */
module Aggregation {
  import opened Types
  import opened Dicts
  import opened ResourceKey
  import opened Frames

  /** `AGGR_MAP`: aggregation symbol to index level name. */
  const AggrMap: map<string, string> := map["REGION" := "region_code", "RESOURCE_TYPE" := "service_code"]

  /** One row of the merged series, under the level names of the series it
      came from. */
  datatype Row = Row(levels: seq<string>, key: seq<string>, cost: int)

  /** The rolled-up series: its level names (the group-by list) and the
      summed cost of each group key. */
  datatype Grouped = Grouped(levels: seq<string>, sums: map<seq<string>, int>)

  /** The rows of one series. */
  function RowsOf(s: Series): (rows: seq<Row>)
    ensures |rows| == |s.entries|
  {
    seq(|s.entries|, i requires 0 <= i < |s.entries| => Row(s.levels, s.entries[i].key, s.entries[i].cost))
  }

  /** The merged series: the level names of every series that went into it
      (pandas keeps them even for a series without rows) and the rows. */
  datatype Merged = Merged(indexes: seq<seq<string>>, rows: seq<Row>)

  /** The level names of each series, in list order. */
  function IndexesOf(frames: seq<Series>): (indexes: seq<seq<string>>)
    ensures |indexes| == |frames|
    ensures forall i :: 0 <= i < |frames| ==> indexes[i] == frames[i].levels
  {
    seq(|frames|, i requires 0 <= i < |frames| => frames[i].levels)
  }

  /** `pd.concat(dataframe_list)`: the rows of every series, in list order,
      under the level names of every series; an empty list is an error. */
  function Concat(frames: seq<Series>): (r: Result<Merged>)
    ensures r.Ok? <==> |frames| > 0
    ensures r.Ok? ==> r.value.indexes == IndexesOf(frames)
  {
    if |frames| == 0 then Err(NothingToConcatenate) else Ok(Merged(IndexesOf(frames), ConcatRows(frames)))
  }

  /** Every merged row carries the level names of one of the merged series. */
  predicate Consistent(m: Merged) {
    forall i :: 0 <= i < |m.rows| ==> m.rows[i].levels in m.indexes
  }

  /** The merge of a non-empty list is consistent. */
  lemma {:induction false} ConcatConsistent(frames: seq<Series>)
    requires |frames| > 0
    ensures Consistent(Concat(frames).value)
  {
    ConcatRowsLevels(frames);
  }

  lemma {:induction false} ConcatRowsLevels(frames: seq<Series>)
    ensures forall i :: 0 <= i < |ConcatRows(frames)| ==> ConcatRows(frames)[i].levels in IndexesOf(frames)
    decreases |frames|
  {
    if |frames| > 0 {
      var last := |frames| - 1;
      ConcatRowsLevels(frames[..last]);
      var before := ConcatRows(frames[..last]);
      var rows := ConcatRows(frames);
      assert rows == before + RowsOf(frames[last]);
      forall i | 0 <= i < |rows| ensures rows[i].levels in IndexesOf(frames) {
        if i < |before| {
          assert rows[i] == before[i];
          var k :| 0 <= k < last && IndexesOf(frames[..last])[k] == before[i].levels;
          assert IndexesOf(frames)[k] == frames[k].levels == frames[..last][k].levels;
        } else {
          assert rows[i] == RowsOf(frames[last])[i - |before|];
          assert IndexesOf(frames)[last] == frames[last].levels;
        }
      }
    }
  }

  function ConcatRows(frames: seq<Series>): seq<Row>
    decreases |frames|
  {
    if |frames| == 0 then [] else ConcatRows(frames[..|frames| - 1]) + RowsOf(frames[|frames| - 1])
  }

  /** Every row is as wide as its level names. */
  predicate RowsWellFormed(rows: seq<Row>) {
    forall i :: 0 <= i < |rows| ==> |rows[i].key| == |rows[i].levels|
  }

  /** The cost of some rows. */
  function RowsTotal(rows: seq<Row>): int
    decreases |rows|
  {
    if |rows| == 0 then 0 else RowsTotal(rows[..|rows| - 1]) + rows[|rows| - 1].cost
  }

  /** The cost of some series. */
  function FramesTotal(frames: seq<Series>): int
    decreases |frames|
  {
    if |frames| == 0 then 0 else FramesTotal(frames[..|frames| - 1]) + TotalCost(frames[|frames| - 1].entries)
  }

  // ---------------------------------------------------------------- group-by list

  /** The aggregation symbols mapped through `AGGR_MAP`; the first unknown
      symbol is the error. */
  function MapSymbols(aggregation: seq<string>): (r: Result<seq<string>>)
    ensures r.Ok? ==> |r.value| == |aggregation|
    decreases |aggregation|
  {
    if |aggregation| == 0 then Ok([])
    else
      var last := |aggregation| - 1;
      var names :- MapSymbols(aggregation[..last]);
      if aggregation[last] in AggrMap then Ok(names + [AggrMap[aggregation[last]]])
      else Err(UnknownAggregation(aggregation[last]))
  }

  /** The levels `_get_aggregated_data` groups by: `resource_type`, the mapped
      aggregation levels in caller order, then `date`. */
  function GroupBy(aggregation: seq<string>): (r: Result<seq<string>>)
  {
    var names :- MapSymbols(aggregation);
    Ok([ResourceTypeColumn] + names + [DateColumn])
  }

  /** Mapping succeeds exactly when every symbol is a key of `AGGR_MAP`, and
      maps each one to its level name, position by position. */
  lemma {:induction false} MapSymbolsMeaning(aggregation: seq<string>)
    ensures MapSymbols(aggregation).Ok? <==> forall i :: 0 <= i < |aggregation| ==> aggregation[i] in AggrMap
    ensures MapSymbols(aggregation).Ok? ==>
      forall i :: 0 <= i < |aggregation| ==> MapSymbols(aggregation).value[i] == AggrMap[aggregation[i]]
    decreases |aggregation|
  {
    if |aggregation| > 0 {
      var last := |aggregation| - 1;
      assert forall i :: 0 <= i < last ==> aggregation[..last][i] == aggregation[i];
      MapSymbolsMeaning(aggregation[..last]);
    }
  }

  /** Once a symbol is unknown, mapping fails with that symbol. */
  lemma {:induction false} MapSymbolsFails(aggregation: seq<string>, n: nat)
    requires n < |aggregation|
    requires MapSymbols(aggregation[..n]).Ok? && aggregation[n] !in AggrMap
    ensures MapSymbols(aggregation) == Err(UnknownAggregation(aggregation[n]))
    decreases |aggregation|
  {
    var last := |aggregation| - 1;
    if n < last {
      assert aggregation[..last][..n] == aggregation[..n];
      assert aggregation[..last][n] == aggregation[n];
      MapSymbolsFails(aggregation[..last], n);
    } else {
      assert aggregation[..last] == aggregation[..n];
    }
  }

  /** The group-by list is `resource_type`, `AGGR_MAP` of each symbol in
      caller order, then `date`; an unknown symbol is a KeyError naming the
      first one. */
  lemma {:induction false} GroupByShape(aggregation: seq<string>)
    ensures GroupBy(aggregation).Ok? <==> forall i :: 0 <= i < |aggregation| ==> aggregation[i] in AggrMap
    ensures GroupBy(aggregation).Ok? ==>
      var g := GroupBy(aggregation).value;
      && |g| == |aggregation| + 2
      && g[0] == ResourceTypeColumn
      && g[|g| - 1] == DateColumn
      && forall i :: 0 <= i < |aggregation| ==> g[i + 1] == AggrMap[aggregation[i]]
    ensures GroupBy(aggregation).Err? ==> exists n :: (0 <= n < |aggregation| && aggregation[n] !in AggrMap
      && (forall i :: 0 <= i < n ==> aggregation[i] in AggrMap)
      && GroupBy(aggregation).error == UnknownAggregation(aggregation[n]))
  {
    MapSymbolsMeaning(aggregation);
    if GroupBy(aggregation).Err? {
      MapSymbolsFirstError(aggregation);
    }
  }

  /** A failed mapping names the first unknown symbol. */
  lemma {:induction false} MapSymbolsFirstError(aggregation: seq<string>)
    requires MapSymbols(aggregation).Err?
    ensures exists n :: (0 <= n < |aggregation| && aggregation[n] !in AggrMap
      && (forall i :: 0 <= i < n ==> aggregation[i] in AggrMap)
      && MapSymbols(aggregation).error == UnknownAggregation(aggregation[n]))
    decreases |aggregation|
  {
    var last := |aggregation| - 1;
    var prefix := aggregation[..last];
    assert forall i :: 0 <= i < last ==> prefix[i] == aggregation[i];
    if MapSymbols(prefix).Err? {
      MapSymbolsFirstError(prefix);
      var n :| 0 <= n < last && prefix[n] !in AggrMap
        && (forall i :: 0 <= i < n ==> prefix[i] in AggrMap)
        && MapSymbols(prefix).error == UnknownAggregation(prefix[n]);
      assert MapSymbols(aggregation).error == UnknownAggregation(aggregation[n]);
    } else {
      MapSymbolsMeaning(prefix);
      assert aggregation[last] !in AggrMap;
    }
  }

  // ---------------------------------------------------------------- level lookup

  /** The first position of a name among the levels. */
  function IndexOf(levels: seq<string>, name: string): (i: nat)
    requires name in levels
    ensures i < |levels| && levels[i] == name
    ensures forall j :: 0 <= j < i ==> levels[j] != name
    decreases |levels|
  {
    if levels[0] == name then 0 else 1 + IndexOf(levels[1..], name)
  }

  /** pandas' level lookup for a multi-level group-by, `index.names.index`:
      the first level with that name; a name no level carries is an error. */
  function LevelOf(levels: seq<string>, name: string): (r: Result<nat>)
    ensures r.Ok? <==> name in levels
    ensures r.Ok? ==> r.value < |levels| && levels[r.value] == name
    ensures r.Ok? ==> forall j :: 0 <= j < r.value ==> levels[j] != name
    ensures r.Err? ==> r.error == LevelNotFound(name)
  {
    if name in levels then Ok(IndexOf(levels, name)) else Err(LevelNotFound(name))
  }

  /** The first group-by name the levels lack, as pandas raises for it. */
  function MissingLevel(levels: seq<string>, groupBy: seq<string>): (r: Option<Error>)
    ensures r.None? <==> forall j :: 0 <= j < |groupBy| ==> groupBy[j] in levels
    decreases |groupBy|
  {
    if |groupBy| == 0 then None
    else if groupBy[0] !in levels then Some(LevelNotFound(groupBy[0]))
    else
      assert forall j :: 1 <= j < |groupBy| ==> groupBy[j] == groupBy[1..][j - 1];
      MissingLevel(levels, groupBy[1..])
  }

  /** A missing name is reported by the first group-by name that is missing. */
  lemma {:induction false} MissingLevelFirst(levels: seq<string>, groupBy: seq<string>)
    requires MissingLevel(levels, groupBy).Some?
    ensures exists j :: (0 <= j < |groupBy| && groupBy[j] !in levels
      && (forall k :: 0 <= k < j ==> groupBy[k] in levels)
      && MissingLevel(levels, groupBy) == Some(LevelNotFound(groupBy[j])))
    decreases |groupBy|
  {
    if groupBy[0] in levels {
      var rest := groupBy[1..];
      MissingLevelFirst(levels, rest);
      var j :| 0 <= j < |rest| && rest[j] !in levels && (forall k :: 0 <= k < j ==> rest[k] in levels)
        && MissingLevel(levels, rest) == Some(LevelNotFound(rest[j]));
      assert forall k :: 1 <= k < j + 1 ==> groupBy[k] == rest[k - 1];
      assert groupBy[j + 1] == rest[j];
    }
  }

  /** The first series, in list order, that lacks a group-by name, and the
      name; `None` when every series has every name. */
  function MissingIn(indexes: seq<seq<string>>, groupBy: seq<string>): (r: Option<Error>)
    ensures r.None? <==> forall i, j :: 0 <= i < |indexes| && 0 <= j < |groupBy| ==> groupBy[j] in indexes[i]
    ensures r.Some? ==> exists i :: 0 <= i < |indexes| && r == MissingLevel(indexes[i], groupBy)
    decreases |indexes|
  {
    if |indexes| == 0 then None
    else if MissingLevel(indexes[0], groupBy).Some? then MissingLevel(indexes[0], groupBy)
    else
      assert forall i :: 1 <= i < |indexes| ==> indexes[i] == indexes[1..][i - 1];
      MissingIn(indexes[1..], groupBy)
  }

  // ---------------------------------------------------------------- projection

  /** A row's index tuple restricted to the group-by levels, in group-by
      order; the first group-by level the row's series cannot resolve is the
      error. */
  function ProjectKey(levels: seq<string>, key: seq<string>, groupBy: seq<string>): (r: Result<seq<string>>)
    requires |key| == |levels|
    ensures r.Ok? ==> |r.value| == |groupBy|
    decreases |groupBy|
  {
    if |groupBy| == 0 then Ok([])
    else
      var last := |groupBy| - 1;
      var prefix :- ProjectKey(levels, key, groupBy[..last]);
      var i :- LevelOf(levels, groupBy[last]);
      Ok(prefix + [key[i]])
  }

  /** Position by position, the projection holds the row's value at the one
      level named by the group-by entry. */
  lemma {:induction false} ProjectKeyIndex(levels: seq<string>, key: seq<string>, groupBy: seq<string>, j: nat)
    requires |key| == |levels|
    requires ProjectKey(levels, key, groupBy).Ok? && j < |groupBy|
    ensures LevelOf(levels, groupBy[j]).Ok?
    ensures ProjectKey(levels, key, groupBy).value[j] == key[LevelOf(levels, groupBy[j]).value]
    decreases |groupBy|
  {
    var last := |groupBy| - 1;
    if j < last {
      assert groupBy[..last][j] == groupBy[j];
      ProjectKeyIndex(levels, key, groupBy[..last], j);
    }
  }

  /** Every row projected onto the group-by levels, keeping its cost. */
  function ProjectAll(rows: seq<Row>, groupBy: seq<string>): (r: Result<seq<Entry>>)
    requires RowsWellFormed(rows)
    ensures r.Ok? ==> |r.value| == |rows|
    decreases |rows|
  {
    if |rows| == 0 then Ok([])
    else
      var last := |rows| - 1;
      assert RowsWellFormed(rows[..last]) by {
        assert forall i :: 0 <= i < last ==> rows[..last][i] == rows[i];
      }
      var prefix :- ProjectAll(rows[..last], groupBy);
      var k :- ProjectKey(rows[last].levels, rows[last].key, groupBy);
      Ok(prefix + [Entry(k, rows[last].cost)])
  }

  /** Row i of the projection is row i of the input, projected, at the same cost. */
  lemma {:induction false} ProjectAllIndex(rows: seq<Row>, groupBy: seq<string>, i: nat)
    requires RowsWellFormed(rows)
    requires ProjectAll(rows, groupBy).Ok? && i < |rows|
    ensures ProjectKey(rows[i].levels, rows[i].key, groupBy).Ok?
    ensures ProjectAll(rows, groupBy).value[i] == Entry(ProjectKey(rows[i].levels, rows[i].key, groupBy).value, rows[i].cost)
    decreases |rows|
  {
    var last := |rows| - 1;
    assert forall j :: 0 <= j < last ==> rows[..last][j] == rows[j];
    if i < last {
      ProjectAllIndex(rows[..last], groupBy, i);
    }
  }

  /** Projection moves no cost. */
  lemma {:induction false} ProjectAllTotal(rows: seq<Row>, groupBy: seq<string>)
    requires RowsWellFormed(rows)
    requires ProjectAll(rows, groupBy).Ok?
    ensures TotalCost(ProjectAll(rows, groupBy).value) == RowsTotal(rows)
    decreases |rows|
  {
    if |rows| > 0 {
      var last := |rows| - 1;
      assert forall j :: 0 <= j < last ==> rows[..last][j] == rows[j];
      var es := ProjectAll(rows, groupBy).value;
      assert es[..last] == ProjectAll(rows[..last], groupBy).value;
      ProjectAllTotal(rows[..last], groupBy);
    }
  }

  // ---------------------------------------------------------------- the sum

  /** `groupby(...).sum()` on projected rows: each key's costs added up, in
      row order. */
  function GroupSum(entries: seq<Entry>): map<seq<string>, int>
    decreases |entries|
  {
    if |entries| == 0 then map[]
    else
      var m := GroupSum(entries[..|entries| - 1]);
      var e := entries[|entries| - 1];
      m[e.key := (if e.key in m then m[e.key] else 0) + e.cost]
  }

  /** The reference sum: the cost of the rows with a given key. */
  function CostWhere(entries: seq<Entry>, key: seq<string>): int
    decreases |entries|
  {
    if |entries| == 0 then 0
    else CostWhere(entries[..|entries| - 1], key) + (if entries[|entries| - 1].key == key then entries[|entries| - 1].cost else 0)
  }

  /** The groups are exactly the keys that occur, and each group's sum is the
      cost of the rows with its key. */
  lemma {:induction false} GroupSumMeaning(entries: seq<Entry>, key: seq<string>)
    ensures key in GroupSum(entries) <==> exists i :: 0 <= i < |entries| && entries[i].key == key
    ensures key in GroupSum(entries) ==> GroupSum(entries)[key] == CostWhere(entries, key)
    ensures key !in GroupSum(entries) ==> CostWhere(entries, key) == 0
    decreases |entries|
  {
    if |entries| > 0 {
      var last := |entries| - 1;
      GroupSumMeaning(entries[..last], key);
      assert forall i :: 0 <= i < last ==> entries[..last][i] == entries[i];
      if exists i :: 0 <= i < |entries| && entries[i].key == key {
        var i :| 0 <= i < |entries| && entries[i].key == key;
        if i < last {
          assert entries[..last][i].key == key;
        }
      }
    }
  }

  /** What `groupby(level=group_by).sum()` returns, or the error it raises:
      every name is resolved against the level names, rows or no rows. */
  function GroupedSum(m: Merged, groupBy: seq<string>): (r: Result<Grouped>)
    requires RowsWellFormed(m.rows)
    ensures r.Ok? ==> r.value.levels == groupBy
    ensures MissingIn(m.indexes, groupBy).Some? ==> r == Err(MissingIn(m.indexes, groupBy).value)
  {
    if MissingIn(m.indexes, groupBy).Some? then Err(MissingIn(m.indexes, groupBy).value)
    else
      var entries :- ProjectAll(m.rows, groupBy);
      Ok(Grouped(groupBy, GroupSum(entries)))
  }

  /** What `_get_aggregated_data` returns, or the error it raises. */
  function Aggregate(m: Merged, aggregation: seq<string>): (r: Result<Grouped>)
    requires RowsWellFormed(m.rows)
  {
    var groupBy :- GroupBy(aggregation);
    GroupedSum(m, groupBy)
  }

  /** Projection succeeds on a row whose levels carry every group-by name. */
  lemma {:induction false} ProjectKeyOk(levels: seq<string>, key: seq<string>, groupBy: seq<string>)
    requires |key| == |levels|
    requires forall j :: 0 <= j < |groupBy| ==> groupBy[j] in levels
    ensures ProjectKey(levels, key, groupBy).Ok?
    decreases |groupBy|
  {
    if |groupBy| > 0 {
      var last := |groupBy| - 1;
      assert forall j :: 0 <= j < last ==> groupBy[..last][j] == groupBy[j];
      ProjectKeyOk(levels, key, groupBy[..last]);
    }
  }

  /** Projection succeeds on rows whose levels all carry every group-by name. */
  lemma {:induction false} ProjectAllOk(rows: seq<Row>, groupBy: seq<string>)
    requires RowsWellFormed(rows)
    requires forall i, j :: 0 <= i < |rows| && 0 <= j < |groupBy| ==> groupBy[j] in rows[i].levels
    ensures ProjectAll(rows, groupBy).Ok?
    decreases |rows|
  {
    if |rows| > 0 {
      var last := |rows| - 1;
      assert forall i :: 0 <= i < last ==> rows[..last][i] == rows[i];
      ProjectAllOk(rows[..last], groupBy);
      ProjectKeyOk(rows[last].levels, rows[last].key, groupBy);
    }
  }

  /** The group-by sum of a consistent merge succeeds exactly when every
      merged series, including one without rows, has every group-by name. */
  lemma {:induction false} GroupedSumOk(m: Merged, groupBy: seq<string>)
    requires RowsWellFormed(m.rows) && Consistent(m)
    ensures GroupedSum(m, groupBy).Ok? <==>
      forall i, j :: 0 <= i < |m.indexes| && 0 <= j < |groupBy| ==> groupBy[j] in m.indexes[i]
  {
    if MissingIn(m.indexes, groupBy).None? {
      forall i, j | 0 <= i < |m.rows| && 0 <= j < |groupBy| ensures groupBy[j] in m.rows[i].levels {
        var k :| 0 <= k < |m.indexes| && m.indexes[k] == m.rows[i].levels;
      }
      ProjectAllOk(m.rows, groupBy);
    }
  }

  /** `_get_aggregated_data`, loop for loop; the pandas group-by sum is the
      function `GroupedSum`. */
  method GetAggregatedData(m: Merged, aggregation: seq<string>) returns (r: Result<Grouped>)
    requires RowsWellFormed(m.rows)
    ensures r == Aggregate(m, aggregation)
  {
    var groupBy := [ResourceTypeColumn];
    var n := 0;
    while n < |aggregation|
      invariant 0 <= n <= |aggregation|
      invariant MapSymbols(aggregation[..n]).Ok?
      invariant groupBy == [ResourceTypeColumn] + MapSymbols(aggregation[..n]).value
    {
      assert aggregation[..n + 1][..n] == aggregation[..n];
      if aggregation[n] !in AggrMap {
        MapSymbolsFails(aggregation, n);
        return Err(UnknownAggregation(aggregation[n]));
      }
      groupBy := groupBy + [AggrMap[aggregation[n]]];
      n := n + 1;
    }
    assert aggregation[..n] == aggregation;
    groupBy := groupBy + [DateColumn];
    r := GroupedSum(m, groupBy);
  }

  // ---------------------------------------------------------------- laws

  /** An enumeration of a map's items, as `dict.items()` yields them: every
      key once, each with its value. */
  ghost predicate Enumerates(items: seq<(seq<string>, int)>, sums: map<seq<string>, int>) {
    && DistinctKeys(items)
    && KeySet(items) == sums.Keys
    && forall i :: 0 <= i < |items| ==> items[i].0 in sums && sums[items[i].0] == items[i].1
  }

  /** The sum of the values of some items. */
  function ItemsTotal(items: seq<(seq<string>, int)>): int
    decreases |items|
  {
    if |items| == 0 then 0 else items[0].1 + ItemsTotal(items[1..])
  }

  /** The reference sums of the rows with each item's key. */
  function KeySum(entries: seq<Entry>, items: seq<(seq<string>, int)>): int
    decreases |items|
  {
    if |items| == 0 then 0 else CostWhere(entries, items[0].0) + KeySum(entries, items[1..])
  }

  /** `cost` once for each item with the given key. */
  function Hits(items: seq<(seq<string>, int)>, key: seq<string>, cost: int): int
    decreases |items|
  {
    if |items| == 0 then 0 else (if items[0].0 == key then cost else 0) + Hits(items[1..], key, cost)
  }

  lemma {:induction false} HitsDistinct(items: seq<(seq<string>, int)>, key: seq<string>, cost: int)
    requires DistinctKeys(items)
    ensures Hits(items, key, cost) == if key in KeySet(items) then cost else 0
    decreases |items|
  {
    if |items| > 0 {
      HitsDistinct(items[1..], key, cost);
    }
  }

  lemma {:induction false} KeySumSnoc(entries: seq<Entry>, e: Entry, items: seq<(seq<string>, int)>)
    ensures KeySum(entries + [e], items) == KeySum(entries, items) + Hits(items, e.key, e.cost)
    decreases |items|
  {
    if |items| > 0 {
      assert (entries + [e])[..|entries|] == entries;
      KeySumSnoc(entries, e, items[1..]);
    }
  }

  lemma {:induction false} KeySumNone(items: seq<(seq<string>, int)>)
    ensures KeySum([], items) == 0
    decreases |items|
  {
    if |items| > 0 {
      KeySumNone(items[1..]);
    }
  }

  /** Summing the reference sums over distinct keys that cover every row
      counts every row once. */
  lemma {:induction false} KeySumCovers(entries: seq<Entry>, items: seq<(seq<string>, int)>)
    requires DistinctKeys(items)
    requires forall i :: 0 <= i < |entries| ==> entries[i].key in KeySet(items)
    ensures KeySum(entries, items) == TotalCost(entries)
    decreases |entries|
  {
    if |entries| == 0 {
      KeySumNone(items);
    } else {
      var last := |entries| - 1;
      var prefix := entries[..last];
      assert forall i :: 0 <= i < last ==> prefix[i] == entries[i];
      KeySumCovers(prefix, items);
      assert prefix + [entries[last]] == entries;
      KeySumSnoc(prefix, entries[last], items);
      HitsDistinct(items, entries[last].key, entries[last].cost);
    }
  }

  lemma {:induction false} ItemsAreReferenceSums(entries: seq<Entry>, items: seq<(seq<string>, int)>)
    requires forall i :: 0 <= i < |items| ==> items[i].1 == CostWhere(entries, items[i].0)
    ensures ItemsTotal(items) == KeySum(entries, items)
    decreases |items|
  {
    if |items| > 0 {
      assert forall i :: 0 <= i < |items| - 1 ==> items[1..][i] == items[i + 1];
      ItemsAreReferenceSums(entries, items[1..]);
    }
  }

  /** Conservation of cost: however the groups are enumerated, their sums add
      up to the cost of all the rows. */
  lemma {:induction false} GroupSumTotal(entries: seq<Entry>, items: seq<(seq<string>, int)>)
    requires Enumerates(items, GroupSum(entries))
    ensures ItemsTotal(items) == TotalCost(entries)
  {
    forall i | 0 <= i < |items| ensures items[i].1 == CostWhere(entries, items[i].0) {
      GroupSumMeaning(entries, items[i].0);
    }
    ItemsAreReferenceSums(entries, items);
    forall i | 0 <= i < |entries| ensures entries[i].key in KeySet(items) {
      GroupSumMeaning(entries, entries[i].key);
    }
    KeySumCovers(entries, items);
  }

  /** The groups of an aggregation are exactly the projections of the rows
      onto the group-by levels; every other level collapses. */
  lemma {:induction false} AggregateKeys(m: Merged, aggregation: seq<string>, key: seq<string>)
    requires RowsWellFormed(m.rows)
    requires Aggregate(m, aggregation).Ok?
    ensures var g := Aggregate(m, aggregation).value;
      key in g.sums <==> exists i :: 0 <= i < |m.rows| && ProjectKey(m.rows[i].levels, m.rows[i].key, g.levels) == Ok(key)
  {
    var rows := m.rows;
    var groupBy := GroupBy(aggregation).value;
    var entries := ProjectAll(rows, groupBy).value;
    GroupSumMeaning(entries, key);
    forall i | 0 <= i < |rows|
      ensures ProjectKey(rows[i].levels, rows[i].key, groupBy) == Ok(entries[i].key)
    {
      ProjectAllIndex(rows, groupBy, i);
    }
  }

  /** Conservation of cost through the roll-up. */
  lemma {:induction false} AggregateTotal(m: Merged, aggregation: seq<string>, items: seq<(seq<string>, int)>)
    requires RowsWellFormed(m.rows)
    requires Aggregate(m, aggregation).Ok?
    requires Enumerates(items, Aggregate(m, aggregation).value.sums)
    ensures ItemsTotal(items) == RowsTotal(m.rows)
  {
    var groupBy := GroupBy(aggregation).value;
    var entries := ProjectAll(m.rows, groupBy).value;
    GroupSumTotal(entries, items);
    ProjectAllTotal(m.rows, groupBy);
  }

  /** A key with the level at position p taken out. */
  function Drop(k: seq<string>, p: nat): seq<string> {
    if p < |k| then k[..p] + k[p + 1..] else k
  }

  /** Leaving a group-by name out of the list leaves its value out of every
      projection. */
  lemma {:induction false} ProjectDrop(levels: seq<string>, key: seq<string>, coarse: seq<string>, fine: seq<string>, p: nat)
    requires |key| == |levels|
    requires p < |fine| && coarse == fine[..p] + fine[p + 1..]
    requires ProjectKey(levels, key, coarse).Ok? && ProjectKey(levels, key, fine).Ok?
    ensures Drop(ProjectKey(levels, key, fine).value, p) == ProjectKey(levels, key, coarse).value
  {
    var kc := ProjectKey(levels, key, coarse).value;
    var kf := ProjectKey(levels, key, fine).value;
    var d := Drop(kf, p);
    assert |d| == |kc|;
    forall j | 0 <= j < |kc| ensures d[j] == kc[j] {
      ProjectKeyIndex(levels, key, coarse, j);
      if j < p {
        ProjectKeyIndex(levels, key, fine, j);
        assert coarse[j] == fine[j];
      } else {
        ProjectKeyIndex(levels, key, fine, j + 1);
        assert coarse[j] == fine[j + 1];
      }
    }
  }

  /** A set each of whose elements is the image of an element of another set
      is no larger than that set. */
  lemma {:induction false} FewerImages(coarse: set<seq<string>>, fine: set<seq<string>>, p: nat)
    requires forall k :: k in coarse ==> exists f :: f in fine && Drop(f, p) == k
    ensures |coarse| <= |fine|
    decreases |fine|
  {
    if fine == {} {
      assert forall k :: k !in coarse;
      assert coarse == {};
    } else {
      var f :| f in fine;
      var rest := coarse - {Drop(f, p)};
      forall k | k in rest ensures exists g :: g in fine - {f} && Drop(g, p) == k {
        var g :| g in fine && Drop(g, p) == k;
        assert g != f;
      }
      FewerImages(rest, fine - {f}, p);
      assert coarse <= rest + {Drop(f, p)};
      assert |coarse| <= |rest + {Drop(f, p)}| <= |rest| + 1;
    }
  }

  /** Adding an aggregation symbol only splits groups: the finer roll-up has
      at least as many groups as the coarser one. */
  lemma {:induction false} RefinementSplits(m: Merged, aggregation: seq<string>, s: string)
    requires RowsWellFormed(m.rows)
    requires Aggregate(m, aggregation).Ok? && Aggregate(m, aggregation + [s]).Ok?
    ensures |Aggregate(m, aggregation).value.sums.Keys| <= |Aggregate(m, aggregation + [s]).value.sums.Keys|
  {
    var gc := Aggregate(m, aggregation).value;
    var gf := Aggregate(m, aggregation + [s]).value;
    var names := MapSymbols(aggregation).value;
    assert (aggregation + [s])[..|aggregation|] == aggregation;
    var coarse := [ResourceTypeColumn] + names + [DateColumn];
    var fine := [ResourceTypeColumn] + names + [AggrMap[s]] + [DateColumn];
    assert gc.levels == coarse && gf.levels == fine;
    var p := |names| + 1;
    assert fine[..p] == [ResourceTypeColumn] + names && fine[p + 1..] == [DateColumn];
    forall k | k in gc.sums.Keys ensures exists f :: f in gf.sums.Keys && Drop(f, p) == k {
      AggregateKeys(m, aggregation, k);
      var i :| 0 <= i < |m.rows| && ProjectKey(m.rows[i].levels, m.rows[i].key, coarse) == Ok(k);
      ProjectAllIndex(m.rows, fine, i);
      var kf := ProjectKey(m.rows[i].levels, m.rows[i].key, fine).value;
      AggregateKeys(m, aggregation + [s], kf);
      ProjectDrop(m.rows[i].levels, m.rows[i].key, coarse, fine, p);
    }
    FewerImages(gc.sums.Keys, gf.sums.Keys, p);
  }

  /** A row of a series built from a plugin response: `resource_type` first
      and `date` last. */
  predicate FrameShaped(row: Row) {
    && |row.levels| >= 2
    && |row.key| == |row.levels|
    && row.levels[0] == ResourceTypeColumn
    && row.levels[|row.levels| - 1] == DateColumn
  }

  /** The value of a row at its first `date` level: the appended date, or a
      dimension named `date` that the key itself carries. */
  function DateOf(row: Row): string
    requires FrameShaped(row)
  {
    assert row.levels[|row.levels| - 1] == DateColumn;
    row.key[IndexOf(row.levels, DateColumn)]
  }

  /** With no aggregation there is exactly one group per (resource_type,
      date) pair that occurs, whatever other dimensions the rows carry. */
  lemma {:induction false} EmptyAggregation(m: Merged, key: seq<string>)
    requires RowsWellFormed(m.rows)
    requires forall i :: 0 <= i < |m.rows| ==> FrameShaped(m.rows[i])
    requires Aggregate(m, []).Ok?
    ensures Aggregate(m, []).value.levels == [ResourceTypeColumn, DateColumn]
    ensures key in Aggregate(m, []).value.sums <==>
      exists i :: 0 <= i < |m.rows| && FrameShaped(m.rows[i]) && key == [m.rows[i].key[0], DateOf(m.rows[i])]
  {
    var rows := m.rows;
    var groupBy := [ResourceTypeColumn, DateColumn];
    assert MapSymbols([]) == Ok([]);
    assert [ResourceTypeColumn] + [] + [DateColumn] == groupBy;
    forall i | 0 <= i < |rows|
      ensures ProjectKey(rows[i].levels, rows[i].key, groupBy) == Ok([rows[i].key[0], DateOf(rows[i])])
    {
      var row := rows[i];
      ProjectAllIndex(rows, groupBy, i);
      ProjectKeyIndex(row.levels, row.key, groupBy, 0);
      ProjectKeyIndex(row.levels, row.key, groupBy, 1);
      var p := ProjectKey(row.levels, row.key, groupBy).value;
      assert p[0] == row.key[0] && p[1] == DateOf(row);
      assert p == [row.key[0], DateOf(row)];
    }
    AggregateKeys(m, [], key);
  }

  /** The merged rows are the rows of every series, well formed when the
      series are, and cost what the series cost. */
  lemma {:induction false} ConcatRowsFacts(frames: seq<Series>)
    requires forall i :: 0 <= i < |frames| ==> WellFormed(frames[i])
    ensures RowsWellFormed(ConcatRows(frames))
    ensures RowsTotal(ConcatRows(frames)) == FramesTotal(frames)
  {
    ConcatRowsWellFormed(frames);
    ConcatRowsTotal(frames);
  }

  lemma {:induction false} ConcatRowsWellFormed(frames: seq<Series>)
    requires forall i :: 0 <= i < |frames| ==> WellFormed(frames[i])
    ensures RowsWellFormed(ConcatRows(frames))
    decreases |frames|
  {
    if |frames| > 0 {
      var last := |frames| - 1;
      assert forall i :: 0 <= i < last ==> frames[..last][i] == frames[i];
      ConcatRowsWellFormed(frames[..last]);
      RowsOfWellFormed(frames[last]);
      RowsWellFormedAppend(ConcatRows(frames[..last]), RowsOf(frames[last]));
    }
  }

  lemma {:induction false} RowsOfWellFormed(s: Series)
    requires WellFormed(s)
    ensures RowsWellFormed(RowsOf(s))
  {
    var rows := RowsOf(s);
    forall i | 0 <= i < |rows| ensures |rows[i].key| == |rows[i].levels| {
      assert rows[i] == Row(s.levels, s.entries[i].key, s.entries[i].cost);
    }
  }

  lemma {:induction false} RowsWellFormedAppend(a: seq<Row>, b: seq<Row>)
    requires RowsWellFormed(a) && RowsWellFormed(b)
    ensures RowsWellFormed(a + b)
  {
    forall i | 0 <= i < |a + b| ensures |(a + b)[i].key| == |(a + b)[i].levels| {
      if i < |a| {
        assert (a + b)[i] == a[i];
      } else {
        assert (a + b)[i] == b[i - |a|];
      }
    }
  }

  lemma {:induction false} ConcatRowsTotal(frames: seq<Series>)
    ensures RowsTotal(ConcatRows(frames)) == FramesTotal(frames)
    decreases |frames|
  {
    if |frames| > 0 {
      var last := |frames| - 1;
      ConcatRowsTotal(frames[..last]);
      RowsTotalAppend(ConcatRows(frames[..last]), RowsOf(frames[last]));
      RowsOfTotal(frames[last]);
    }
  }

  lemma {:induction false} RowsTotalAppend(a: seq<Row>, b: seq<Row>)
    ensures RowsTotal(a + b) == RowsTotal(a) + RowsTotal(b)
    decreases |b|
  {
    if |b| > 0 {
      assert (a + b)[..|a + b| - 1] == a + b[..|b| - 1];
      RowsTotalAppend(a, b[..|b| - 1]);
    } else {
      assert a + b == a;
    }
  }

  lemma {:induction false} RowsOfTotal(s: Series)
    ensures RowsTotal(RowsOf(s)) == TotalCost(s.entries)
    decreases |s.entries|
  {
    if |s.entries| > 0 {
      var last := |s.entries| - 1;
      var t := Series(s.levels, s.entries[..last]);
      assert RowsOf(s)[..last] == RowsOf(t);
      RowsOfTotal(t);
    }
  }
}
