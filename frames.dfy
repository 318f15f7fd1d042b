/** The row builder of the billing service, `_make_dataframe`: one plugin
    response flattened into a series of rows
    `(base, dimension values..., date) -> cost`.

    pandas' MultiIndex Series is modelled as its level names together with
    its rows, in order. */
module Frames {
  import opened Types
  import opened ResourceKey

  /** One `billing_data` entry of a plugin response; `cost` and `currency`
      may be missing. */
  datatype BillingInfo = BillingInfo(date: string, cost: Option<int>, currency: Option<string>)

  /** One element of a plugin response's `results`. */
  datatype ResourceResult = ResourceResult(resourceType: string, billingData: seq<BillingInfo>)

  /** What the plugin returns; `results` may be missing. */
  datatype PluginResponse = PluginResponse(results: Option<seq<ResourceResult>>)

  /** One row: the index tuple and its cost. */
  datatype Entry = Entry(key: seq<string>, cost: int)

  /** A pandas Series with a MultiIndex: the level names and the rows. */
  datatype Series = Series(levels: seq<string>, entries: seq<Entry>)

  /** The index column appended after the key's own columns. */
  const DateColumn := "date"

  /** Every row is as wide as the level names. */
  predicate FitsColumns(entries: seq<Entry>, levels: seq<string>) {
    forall i :: 0 <= i < |entries| ==> |entries[i].key| == |levels|
  }

  predicate WellFormed(s: Series) {
    FitsColumns(s.entries, s.levels)
  }

  /** `billing_info.get('cost', 0)` */
  function CostOf(b: BillingInfo): int {
    b.cost.GetOr(0)
  }

  /** The rows one result contributes: its index values plus each entry's date. */
  function RowsFor(values: seq<string>, billing: seq<BillingInfo>): (rows: seq<Entry>)
    ensures |rows| == |billing|
  {
    seq(|billing|, j requires 0 <= j < |billing| => Entry(values + [billing[j].date], CostOf(billing[j])))
  }

  /** One more billing entry appends one row. */
  lemma {:induction false} RowsForSnoc(values: seq<string>, billing: seq<BillingInfo>, j: nat)
    requires j < |billing|
    ensures RowsFor(values, billing[..j + 1])
      == RowsFor(values, billing[..j]) + [Entry(values + [billing[j].date], CostOf(billing[j]))]
  {
  }

  /** The number of `billing_data` entries across the results. */
  function BillingCount(results: seq<ResourceResult>): nat
    decreases |results|
  {
    if |results| == 0 then 0
    else BillingCount(results[..|results| - 1]) + |results[|results| - 1].billingData|
  }

  /** The costs of some billing entries, a missing cost counting as 0. */
  function BillingTotal(billing: seq<BillingInfo>): int
    decreases |billing|
  {
    if |billing| == 0 then 0 else BillingTotal(billing[..|billing| - 1]) + CostOf(billing[|billing| - 1])
  }

  /** The cost of every billing entry across the results. */
  function BilledTotal(results: seq<ResourceResult>): int
    decreases |results|
  {
    if |results| == 0 then 0
    else BilledTotal(results[..|results| - 1]) + BillingTotal(results[|results| - 1].billingData)
  }

  /** The sum of the costs of some rows. */
  function TotalCost(entries: seq<Entry>): int
    decreases |entries|
  {
    if |entries| == 0 then 0 else TotalCost(entries[..|entries| - 1]) + entries[|entries| - 1].cost
  }

  /** The decoded key of one result, or why it does not decode. */
  function KeyOf(result: ResourceResult): Result<ParsedKey> {
    DecodeKey(result.resourceType)
  }

  /** Every result's key decodes. */
  predicate KeysDecode(results: seq<ResourceResult>)
    decreases |results|
  {
    |results| == 0
    || (KeysDecode(results[..|results| - 1]) && KeyOf(results[|results| - 1]).Ok?)
  }

  /** The rows of the results in order; the first key that does not decode is
      the error. */
  function BuildEntries(results: seq<ResourceResult>): (r: Result<seq<Entry>>)
    ensures r.Ok? <==> KeysDecode(results)
    ensures r.Ok? ==> |r.value| == BillingCount(results)
    decreases |results|
  {
    if |results| == 0 then Ok([])
    else
      var last := |results| - 1;
      match BuildEntries(results[..last])
      case Err(e) => Err(e)
      case Ok(es) =>
        match KeyOf(results[last])
        case Err(e) => Err(e)
        case Ok(p) => Ok(es + RowsFor(p.values, results[last].billingData))
  }

  /** What `_make_dataframe` returns, or the error it raises: no results
      leaves `columns` unbound; the level names are the columns of the LAST
      result plus `date`. */
  function MakeFrame(response: PluginResponse): (r: Result<Series>)
    ensures r.Ok? ==> WellFormed(r.value)
  {
    var results := response.results.GetOr([]);
    if |results| == 0 then Err(NoResults)
    else
      match BuildEntries(results)
      case Err(e) => Err(e)
      case Ok(es) =>
        var levels := KeyOf(results[|results| - 1]).value.columns + [DateColumn];
        if FitsColumns(es, levels) then Ok(Series(levels, es)) else Err(ColumnMismatch)
  }

  /** Rows from the parallel lists `multi_index` and `cost_list`. */
  function Zip(keys: seq<seq<string>>, costs: seq<int>): (entries: seq<Entry>)
    requires |keys| == |costs|
    ensures |entries| == |keys|
  {
    seq(|keys|, k requires 0 <= k < |keys| => Entry(keys[k], costs[k]))
  }

  /** `KeysDecode` position by position. */
  lemma {:induction false} KeysDecodeIndex(results: seq<ResourceResult>, i: nat)
    requires KeysDecode(results) && i < |results|
    ensures KeyOf(results[i]).Ok?
    decreases |results|
  {
    var last := |results| - 1;
    if i < last {
      assert results[..last][i] == results[i];
      KeysDecodeIndex(results[..last], i);
    }
  }

  /** Once a prefix of the results fails to decode, so do all the results. */
  lemma {:induction false} BuildEntriesErrorPersists(results: seq<ResourceResult>, k: nat)
    requires k <= |results|
    requires BuildEntries(results[..k]).Err?
    ensures BuildEntries(results) == BuildEntries(results[..k])
    decreases |results|
  {
    if k < |results| {
      var last := |results| - 1;
      assert results[..last][..k] == results[..k];
      BuildEntriesErrorPersists(results[..last], k);
    } else {
      assert results[..k] == results;
    }
  }

  /** One more result: its rows are appended if its key decodes, else its
      key's error is the result. */
  lemma {:induction false} BuildEntriesStep(results: seq<ResourceResult>, i: nat)
    requires i < |results|
    requires BuildEntries(results[..i]).Ok?
    ensures BuildEntries(results[..i + 1])
      == match KeyOf(results[i])
         case Err(e) => Err(e)
         case Ok(p) => Ok(BuildEntries(results[..i]).value + RowsFor(p.values, results[i].billingData))
  {
    var prefix := results[..i + 1];
    assert prefix[..i] == results[..i];
    assert prefix[i] == results[i];
  }

  /** The first result whose key does not decode decides the error. */
  lemma {:induction false} BuildEntriesFails(results: seq<ResourceResult>, i: nat)
    requires i < |results|
    requires BuildEntries(results[..i]).Ok? && KeyOf(results[i]).Err?
    ensures BuildEntries(results) == Err(KeyOf(results[i]).error)
  {
    BuildEntriesStep(results, i);
    BuildEntriesErrorPersists(results, i + 1);
  }

  /** `_make_dataframe`, loop for loop. */
  method MakeDataframe(response: PluginResponse) returns (r: Result<Series>)
    ensures r == MakeFrame(response)
  {
    var results := response.results.GetOr([]);
    var multiIndex: seq<seq<string>> := [];
    var costList: seq<int> := [];
    var columns: Option<seq<string>> := None;  // unbound until a result is read
    var i := 0;
    while i < |results|
      invariant 0 <= i <= |results|
      invariant BuildEntries(results[..i]).Ok?
      invariant |multiIndex| == |costList|
      invariant Zip(multiIndex, costList) == BuildEntries(results[..i]).value
      invariant i == 0 <==> columns.None?
      invariant i > 0 ==> columns == Some(KeyOf(results[i - 1]).value.columns + [DateColumn])
    {
      var parsed := ParseResourceType(results[i].resourceType);
      if parsed.Err? {
        BuildEntriesFails(results, i);
        return Err(parsed.error);
      }
      columns := Some(parsed.value.columns + [DateColumn]);
      var billing := results[i].billingData;
      var j := 0;
      while j < |billing|
        invariant 0 <= j <= |billing|
        invariant |multiIndex| == |costList|
        invariant Zip(multiIndex, costList) == BuildEntries(results[..i]).value + RowsFor(parsed.value.values, billing[..j])
      {
        var date := billing[j].date;
        var cost := billing[j].cost.GetOr(0);
        var index := parsed.value.values + [date];
        RowsForSnoc(parsed.value.values, billing, j);
        assert Zip(multiIndex + [index], costList + [cost]) == Zip(multiIndex, costList) + [Entry(index, cost)];
        multiIndex := multiIndex + [index];
        costList := costList + [cost];
        j := j + 1;
      }
      assert billing[..j] == billing;
      BuildEntriesStep(results, i);
      i := i + 1;
    }
    assert results[..i] == results;
    if columns.None? {
      return Err(NoResults);
    }
    var entries := Zip(multiIndex, costList);
    if !FitsColumns(entries, columns.value) {
      return Err(ColumnMismatch);
    }
    return Ok(Series(columns.value, entries));
  }

  /** Exactly one row per `billing_data` entry, in order: entry j of result i
      is row `BillingCount(results[..i]) + j`, keyed by the decoded values of
      the result's key plus the entry's date, and costing the entry's cost or 0. */
  lemma {:induction false} BuildEntriesRows(results: seq<ResourceResult>, i: nat, j: nat)
    requires BuildEntries(results).Ok?
    requires i < |results| && j < |results[i].billingData|
    ensures KeyOf(results[i]).Ok?
    ensures BillingCount(results[..i]) + j < |BuildEntries(results).value|
    ensures BuildEntries(results).value[BillingCount(results[..i]) + j]
      == Entry(KeyOf(results[i]).value.values + [results[i].billingData[j].date],
               CostOf(results[i].billingData[j]))
  {
    var upto := results[..i + 1];
    assert upto[..i] == results[..i];
    assert upto[i] == results[i];
    BuildEntriesPrefix(results, i + 1);
    BuildEntriesLastRows(upto, j);
  }

  /** The rows of the first n results are the first rows of all of them. */
  lemma {:induction false} BuildEntriesPrefix(results: seq<ResourceResult>, n: nat)
    requires n <= |results| && BuildEntries(results).Ok?
    ensures BuildEntries(results[..n]).Ok?
    ensures BuildEntries(results[..n]).value <= BuildEntries(results).value
    decreases |results|
  {
    if n == |results| {
      assert results[..n] == results;
    } else {
      var last := |results| - 1;
      var prefix := results[..last];
      assert BuildEntries(prefix).Ok?;
      assert results[..n] == prefix[..n];
      BuildEntriesPrefix(prefix, n);
      var es := BuildEntries(prefix).value;
      var rows := RowsFor(KeyOf(results[last]).value.values, results[last].billingData);
      assert BuildEntries(results).value == es + rows;
    }
  }

  /** The rows of the last result come after the rows of the others. */
  lemma {:induction false} BuildEntriesLastRows(results: seq<ResourceResult>, j: nat)
    requires |results| > 0 && BuildEntries(results).Ok?
    requires j < |results[|results| - 1].billingData|
    ensures KeyOf(results[|results| - 1]).Ok?
    ensures BillingCount(results[..|results| - 1]) + j < |BuildEntries(results).value|
    ensures BuildEntries(results).value[BillingCount(results[..|results| - 1]) + j]
      == Entry(KeyOf(results[|results| - 1]).value.values + [results[|results| - 1].billingData[j].date],
               CostOf(results[|results| - 1].billingData[j]))
  {
    var last := |results| - 1;
    var es := BuildEntries(results[..last]).value;
    var rows := RowsFor(KeyOf(results[last]).value.values, results[last].billingData);
    assert BuildEntries(results).value == es + rows;
    assert (es + rows)[|es| + j] == rows[j];
  }

  /** The total of some rows split in two. */
  lemma {:induction false} TotalCostAppend(a: seq<Entry>, b: seq<Entry>)
    ensures TotalCost(a + b) == TotalCost(a) + TotalCost(b)
    decreases |b|
  {
    if |b| > 0 {
      var last := |b| - 1;
      assert (a + b)[..|a + b| - 1] == a + b[..last];
      TotalCostAppend(a, b[..last]);
    } else {
      assert a + b == a;
    }
  }

  /** One result's rows cost what its billing entries cost. */
  lemma {:induction false} RowsForTotal(values: seq<string>, billing: seq<BillingInfo>)
    ensures TotalCost(RowsFor(values, billing)) == BillingTotal(billing)
    decreases |billing|
  {
    if |billing| > 0 {
      var last := |billing| - 1;
      assert RowsFor(values, billing)[..last] == RowsFor(values, billing[..last]);
      RowsForTotal(values, billing[..last]);
    }
  }

  /** The rows carry every billing entry's cost: nothing is lost or added. */
  lemma {:induction false} BuildEntriesTotal(results: seq<ResourceResult>)
    requires BuildEntries(results).Ok?
    ensures TotalCost(BuildEntries(results).value) == BilledTotal(results)
    decreases |results|
  {
    if |results| > 0 {
      var last := |results| - 1;
      assert results[..last][..last] == results[..last];
      BuildEntriesTotal(results[..last]);
      var p := KeyOf(results[last]).value;
      TotalCostAppend(BuildEntries(results[..last]).value, RowsFor(p.values, results[last].billingData));
      RowsForTotal(p.values, results[last].billingData);
    }
  }

  /** A frame's level names start with `resource_type` and end with `date`,
      and its rows cost what the response's billing entries cost. */
  lemma {:induction false} MakeFrameShape(response: PluginResponse)
    requires MakeFrame(response).Ok?
    ensures var s := MakeFrame(response).value;
      && |s.levels| >= 2
      && s.levels[0] == ResourceTypeColumn
      && s.levels[|s.levels| - 1] == DateColumn
      && |s.entries| == BillingCount(response.results.value)
      && TotalCost(s.entries) == BilledTotal(response.results.value)
  {
    var results := response.results.GetOr([]);
    DecodeParallel(results[|results| - 1].resourceType);
    BuildEntriesTotal(results);
  }
}
