/** `BillingService.get_data`: resolve the service accounts in scope, fetch
    one series per secret of each account from the account's data-source
    plugin, merge the series, roll them up and shape the output. The
    identity, secret and plugin services are inputs, answering for the
    caller's domain. */
module BillingService {
  import opened Types
  import opened Dicts
  import opened Entities
  import opened Frames
  import opened Aggregation
  import opened Assembler
  import opened Scope

  /** The request; a missing optional key is `None` (or `[]` for the lists).
      The window is passed to the plugin as it is. */
  datatype GetDataParams = GetDataParams(
    projectId: Option<string>,
    projectGroupId: Option<string>,
    serviceAccounts: seq<string>,
    aggregation: seq<string>,
    start: string,
    end: string,
    granularity: string,
    domainId: string)

  /** What every plugin call carries besides the secret data. */
  datatype PluginQuery = PluginQuery(aggregation: seq<string>, start: string, end: string, granularity: string)

  type SecretData = map<string, string>

  /** The services `get_data` calls; `None` is a call that raises. */
  datatype Backends = Backends(
    identity: Identity,
    dataSources: seq<DataSourceRecord>,
    listSecrets: string -> Option<seq<string>>,         // secret ids of a service account
    secretData: string -> Option<SecretData>,           // get_secret_data
    fetch: (Option<string>, Option<string>, SecretData, PluginQuery) -> Option<PluginResponse>)  // init_plugin + get_data

  /** `param_for_plugin` without the secret data. */
  function QueryOf(p: GetDataParams): PluginQuery {
    PluginQuery(p.aggregation, p.start, p.end, p.granularity)
  }

  /** `plugin_info[key]`: a missing key is a KeyError, a `None` value passes. */
  function Subscript(f: Field, key: string): (r: Result<Option<string>>)
    ensures r.Err? <==> f.Absent?
    ensures r.Err? ==> r.error == MissingKey(key)
    ensures r.Ok? ==> r.value == f.AsOption()
  {
    if f.Absent? then Err(MissingKey(key)) else Ok(f.AsOption())
  }

  /** The series of one secret: secret data, then the plugin call, then
      `_make_dataframe` of the response. */
  function SecretFrame(b: Backends, q: PluginQuery, info: PluginInfo, secretId: string): Result<Series> {
    match b.secretData(secretId)
    case None => Err(SecretCallFailed)
    case Some(data) =>
      var pluginId :- Subscript(info.pluginId, "plugin_id");
      var version :- Subscript(info.version, "version");
      match b.fetch(pluginId, version, data, q)
      case None => Err(PluginCallFailed)
      case Some(response) => MakeFrame(response)
  }

  /** The series of some secrets, in order; the first failure aborts. */
  function SecretFrames(b: Backends, q: PluginQuery, info: PluginInfo, secrets: seq<string>): (r: Result<seq<Series>>)
    ensures r.Ok? ==> |r.value| == |secrets|
    decreases |secrets|
  {
    if |secrets| == 0 then Ok([])
    else
      var last := |secrets| - 1;
      var frames :- SecretFrames(b, q, info, secrets[..last]);
      var s :- SecretFrame(b, q, info, secrets[last]);
      Ok(frames + [s])
  }

  /** The series of one resolved service account. */
  function AccountFrames(b: Backends, q: PluginQuery, account: (string, PluginInfo)): Result<seq<Series>> {
    match b.listSecrets(account.0)
    case None => Err(SecretCallFailed)
    case Some(secrets) => SecretFrames(b, q, account.1, secrets)
  }

  /** The series of all resolved accounts, in dict order; the first failure aborts. */
  function AllFrames(b: Backends, q: PluginQuery, bindings: seq<(string, PluginInfo)>): Result<seq<Series>>
    decreases |bindings|
  {
    if |bindings| == 0 then Ok([])
    else
      var last := |bindings| - 1;
      var frames :- AllFrames(b, q, bindings[..last]);
      var more :- AccountFrames(b, q, bindings[last]);
      Ok(frames + more)
  }

  /** `dataframe_list` once the loops are done, or the error that ended them.
      A non-empty `service_accounts` list comes back from scope resolution
      as a list, which has no `.items()`. */
  function Merged(p: GetDataParams, b: Backends): (r: Result<seq<Series>>)
    ensures |p.serviceAccounts| > 0 ==> r == Err(NotAMapping)
  {
    match GetPossible(p, b)
    case ExplicitList(_) => Err(NotAMapping)
    case Bindings(bindings) => AllFrames(b, QueryOf(p), bindings)
  }

  function GetPossible(p: GetDataParams, b: Backends): PossibleAccounts {
    Possible(b.identity, b.dataSources, p.projectId, p.projectGroupId, p.serviceAccounts)
  }

  /** The rolled-up series `get_data` shapes into its output, or the error it raises. */
  function Rollup(p: GetDataParams, b: Backends): (r: Result<Grouped>)
    ensures r.Ok? ==> Merged(p, b).Ok?
  {
    var frames :- Merged(p, b);
    var merged :- Concat(frames);
    AllFramesWellFormed(b, QueryOf(p), GetPossible(p, b).items);
    ConcatRowsFacts(frames);
    Aggregate(merged, p.aggregation)
  }

  /** Every item holds a key of the map with its value. */
  ghost predicate ItemsIn(items: seq<(seq<string>, int)>, m: map<seq<string>, int>) {
    forall i :: 0 <= i < |items| ==> items[i].0 in m && m[items[i].0] == items[i].1
  }

  /** `df.to_dict().items()`: the groups in some order the model leaves open. */
  method ItemsOf(m: map<seq<string>, int>) returns (items: seq<(seq<string>, int)>)
    ensures Enumerates(items, m)
  {
    items := [];
    var keys := m.Keys;
    while keys != {}
      invariant Remaining(keys, KeySet(items), m.Keys)
      invariant DistinctKeys(items) && ItemsIn(items, m)
      decreases |keys|
    {
      var k :| k in keys;
      RemainingStep(keys, KeySet(items), m.Keys, k);
      ItemsAppend(items, m, k);
      items := items + [(k, m[k])];
      keys := keys - {k};
    }
  }

  /** The keys still to visit and the keys visited partition all keys. */
  ghost predicate Remaining<K>(keys: set<K>, done: set<K>, all: set<K>) {
    keys !! done && keys + done == all
  }

  lemma {:induction false} RemainingStep<K>(keys: set<K>, done: set<K>, all: set<K>, k: K)
    requires Remaining(keys, done, all) && k in keys
    ensures Remaining(keys - {k}, done + {k}, all) && k in all && k !in done
  {
  }

  /** Appending a new key of the map, with its value, keeps the items
      distinct and in the map, and adds the key to the key set. */
  lemma {:induction false} ItemsAppend(items: seq<(seq<string>, int)>, m: map<seq<string>, int>, k: seq<string>)
    requires DistinctKeys(items) && ItemsIn(items, m)
    requires k in m && k !in KeySet(items)
    ensures DistinctKeys(items + [(k, m[k])]) && ItemsIn(items + [(k, m[k])], m)
    ensures KeySet(items + [(k, m[k])]) == KeySet(items) + {k}
  {
    PutShape(items, k, m[k]);
    PutDistinct(items, k, m[k]);
    var next := items + [(k, m[k])];
    forall i | 0 <= i < |next| ensures next[i].0 in m && m[next[i].0] == next[i].1 {
      if i < |items| {
        assert next[i] == items[i];
      }
    }
  }
  /** The body of the inner loop of `get_data`: the secret data, the plugin
      call and `_make_dataframe` of its response. */
  method FetchFrame(b: Backends, q: PluginQuery, info: PluginInfo, secretId: string) returns (r: Result<Series>)
    ensures r == SecretFrame(b, q, info, secretId)
  {
    var data := b.secretData(secretId);
    if data.None? {
      return Err(SecretCallFailed);
    }
    if info.pluginId.Absent? {
      return Err(MissingKey("plugin_id"));
    }
    if info.version.Absent? {
      return Err(MissingKey("version"));
    }
    var response := b.fetch(info.pluginId.AsOption(), info.version.AsOption(), data.value, q);
    if response.None? {
      return Err(PluginCallFailed);
    }
    r := MakeDataframe(response.value);
  }

  /** The nested loops of `get_data`: for each resolved account, in dict
      order, for each of its secrets, one series appended to
      `dataframe_list`; the first failure aborts. */
  method CollectFrames(b: Backends, q: PluginQuery, bindings: seq<(string, PluginInfo)>) returns (r: Result<seq<Series>>)
    ensures r == AllFrames(b, q, bindings)
  {
    var frames: seq<Series> := [];
    for i := 0 to |bindings|
      invariant AllFrames(b, q, bindings[..i]) == Ok(frames)
    {
      assert bindings[..i + 1][..i] == bindings[..i];
      var accountId := bindings[i].0;
      var info := bindings[i].1;
      var secrets := b.listSecrets(accountId);
      if secrets.None? {
        AllFramesFails(b, q, bindings, i + 1);
        return Err(SecretCallFailed);
      }
      var ids := secrets.value;
      ghost var before := frames;
      for j := 0 to |ids|
        invariant SecretFrames(b, q, info, ids[..j]).Ok?
        invariant frames == before + SecretFrames(b, q, info, ids[..j]).value
      {
        assert ids[..j + 1][..j] == ids[..j];
        var df := FetchFrame(b, q, info, ids[j]);
        if df.Err? {
          SecretFramesFails(b, q, bindings, i, j);
          return Err(df.error);
        }
        frames := frames + [df.value];
      }
      assert ids[..|ids|] == ids;
    }
    assert bindings[..|bindings|] == bindings;
    return Ok(frames);
  }

  /** `get_data`, with `_get_possible_service_accounts`, `_make_dataframe`,
      `_get_aggregated_data` and `_create_result` as the methods that model
      them. Whatever order the groups come in, the output is the assembly of
      that order and carries the cost of every series. */
  method GetData(p: GetDataParams, b: Backends) returns (r: Result<seq<OutputRecord>>)
    ensures r.Err? <==> Rollup(p, b).Err?
    ensures r.Err? ==> r.error == Rollup(p, b).error
    ensures r.Ok? ==> exists items :: (Enumerates(items, Rollup(p, b).value.sums)
      && KeysFit(Rollup(p, b).value.levels, items)
      && r.value == Assemble(Rollup(p, b).value.levels, items, p.domainId))
    ensures r.Ok? ==> OutputTotal(r.value) == FramesTotal(Merged(p, b).value)
  {
    var possible := GetPossibleServiceAccounts(b.identity, b.dataSources, p.projectId, p.projectGroupId, p.serviceAccounts);
    if possible.ExplicitList? {
      return Err(NotAMapping);
    }
    var frames :- CollectFrames(b, QueryOf(p), possible.items);
    AllFramesWellFormed(b, QueryOf(p), possible.items);
    var merged :- Concat(frames);
    ConcatRowsFacts(frames);
    var grouped :- GetAggregatedData(merged, p.aggregation);
    var items := ItemsOf(grouped.sums);
    AggregateFits(merged, p.aggregation, items);
    var output := CreateResult(grouped.levels, items, p.domainId);
    AssembleTotal(grouped.levels, items, p.domainId);
    AggregateTotal(merged, p.aggregation, items);
    return Ok(output);
  }

  // ---------------------------------------------------------------- laws

  /** Every fetched series is one `_make_dataframe` built. */
  lemma {:induction false} SecretFramesWellFormed(b: Backends, q: PluginQuery, info: PluginInfo, secrets: seq<string>)
    requires SecretFrames(b, q, info, secrets).Ok?
    ensures forall i :: 0 <= i < |secrets| ==> WellFormed(SecretFrames(b, q, info, secrets).value[i])
    decreases |secrets|
  {
    if |secrets| > 0 {
      SecretFramesWellFormed(b, q, info, secrets[..|secrets| - 1]);
    }
  }

  lemma {:induction false} AllFramesWellFormed(b: Backends, q: PluginQuery, bindings: seq<(string, PluginInfo)>)
    requires AllFrames(b, q, bindings).Ok?
    ensures forall i :: 0 <= i < |AllFrames(b, q, bindings).value| ==> WellFormed(AllFrames(b, q, bindings).value[i])
    decreases |bindings|
  {
    if |bindings| > 0 {
      var last := |bindings| - 1;
      AllFramesWellFormed(b, q, bindings[..last]);
      var secrets := b.listSecrets(bindings[last].0).value;
      SecretFramesWellFormed(b, q, bindings[last].1, secrets);
    }
  }

  /** Once the accounts before position k fail, the whole loop fails the same way. */
  lemma {:induction false} AllFramesFails(b: Backends, q: PluginQuery, bindings: seq<(string, PluginInfo)>, k: nat)
    requires k <= |bindings|
    requires AllFrames(b, q, bindings[..k]).Err?
    ensures AllFrames(b, q, bindings) == AllFrames(b, q, bindings[..k])
    decreases |bindings| - k
  {
    if k < |bindings| {
      assert bindings[..k + 1][..k] == bindings[..k];
      AllFramesFails(b, q, bindings, k + 1);
    } else {
      assert bindings[..k] == bindings;
    }
  }

  lemma {:induction false} SecretFramesPersists(b: Backends, q: PluginQuery, info: PluginInfo, secrets: seq<string>, k: nat)
    requires k <= |secrets|
    requires SecretFrames(b, q, info, secrets[..k]).Err?
    ensures SecretFrames(b, q, info, secrets) == SecretFrames(b, q, info, secrets[..k])
    decreases |secrets| - k
  {
    if k < |secrets| {
      assert secrets[..k + 1][..k] == secrets[..k];
      SecretFramesPersists(b, q, info, secrets, k + 1);
    } else {
      assert secrets[..k] == secrets;
    }
  }

  /** A failure at secret j of account i is the result of the whole loop. */
  lemma {:induction false} SecretFramesFails(b: Backends, q: PluginQuery, bindings: seq<(string, PluginInfo)>, i: nat, j: nat)
    requires i < |bindings|
    requires AllFrames(b, q, bindings[..i]).Ok?
    requires b.listSecrets(bindings[i].0).Some? && j < |b.listSecrets(bindings[i].0).value|
    requires SecretFrames(b, q, bindings[i].1, b.listSecrets(bindings[i].0).value[..j]).Ok?
    requires SecretFrame(b, q, bindings[i].1, b.listSecrets(bindings[i].0).value[j]).Err?
    ensures AllFrames(b, q, bindings).Err?
    ensures AllFrames(b, q, bindings).error == SecretFrame(b, q, bindings[i].1, b.listSecrets(bindings[i].0).value[j]).error
  {
    var ids := b.listSecrets(bindings[i].0).value;
    assert ids[..j + 1][..j] == ids[..j];
    SecretFramesPersists(b, q, bindings[i].1, ids, j + 1);
    assert bindings[..i + 1][..i] == bindings[..i];
    AllFramesFails(b, q, bindings, i + 1);
  }

  /** The groups of a roll-up are as wide as its level names, so the
      output can be shaped from any enumeration of them. */
  lemma {:induction false} AggregateFits(m: Merged, aggregation: seq<string>, items: seq<(seq<string>, int)>)
    requires RowsWellFormed(m.rows)
    requires Aggregate(m, aggregation).Ok?
    requires Enumerates(items, Aggregate(m, aggregation).value.sums)
    ensures KeysFit(Aggregate(m, aggregation).value.levels, items)
  {
    var g := Aggregate(m, aggregation).value;
    GroupByShape(aggregation);
    forall i | 0 <= i < |items|
      ensures |items[i].0| == |g.levels|
    {
      AggregateKeys(m, aggregation, items[i].0);
      var j :| 0 <= j < |m.rows| && ProjectKey(m.rows[j].levels, m.rows[j].key, g.levels) == Ok(items[i].0);
    }
  }

  /** Conservation end to end: whatever order the groups are enumerated in,
      the output carries exactly the cost of the fetched series. */
  lemma {:induction false} RollupTotal(p: GetDataParams, b: Backends, items: seq<(seq<string>, int)>)
    requires Rollup(p, b).Ok?
    requires Enumerates(items, Rollup(p, b).value.sums)
    ensures KeysFit(Rollup(p, b).value.levels, items)
    ensures OutputTotal(Assemble(Rollup(p, b).value.levels, items, p.domainId)) == FramesTotal(Merged(p, b).value)
  {
    var frames := Merged(p, b).value;
    AllFramesWellFormed(b, QueryOf(p), GetPossible(p, b).items);
    ConcatRowsFacts(frames);
    var merged := Concat(frames).value;
    AggregateFits(merged, p.aggregation, items);
    AssembleTotal(Rollup(p, b).value.levels, items, p.domainId);
    AggregateTotal(merged, p.aggregation, items);
  }

  /** Once the window's series are fetched and the aggregation symbols are
      known, the roll-up succeeds exactly when every fetched series, even one
      without rows, carries every group-by level name. */
  lemma {:induction false} RollupResolvesLevels(p: GetDataParams, b: Backends)
    requires Merged(p, b).Ok? && |Merged(p, b).value| > 0
    requires GroupBy(p.aggregation).Ok?
    ensures Rollup(p, b).Ok? <==> forall i, j :: (0 <= i < |Merged(p, b).value| && 0 <= j < |GroupBy(p.aggregation).value|
      ==> GroupBy(p.aggregation).value[j] in Merged(p, b).value[i].levels)
  {
    var frames := Merged(p, b).value;
    var merged := Concat(frames).value;
    AllFramesWellFormed(b, QueryOf(p), GetPossible(p, b).items);
    ConcatRowsFacts(frames);
    ConcatConsistent(frames);
    GroupedSumOk(merged, GroupBy(p.aggregation).value);
  }

  /** With no series to merge, `get_data` fails in `pd.concat`: no account
      is in scope, or none of the accounts in scope has a secret. */
  lemma {:induction false} NoAccountsFails(p: GetDataParams, b: Backends)
    requires GetPossible(p, b).Bindings?
    requires AllFrames(b, QueryOf(p), GetPossible(p, b).items) == Ok([])
    ensures Rollup(p, b) == Err(NothingToConcatenate)
  {
  }

  /** Accounts without secrets contribute no series. */
  lemma {:induction false} NoSecretsNoFrames(b: Backends, q: PluginQuery, bindings: seq<(string, PluginInfo)>)
    requires forall i :: 0 <= i < |bindings| ==> b.listSecrets(bindings[i].0) == Some([])
    ensures AllFrames(b, q, bindings) == Ok([])
    decreases |bindings|
  {
    if |bindings| > 0 {
      var last := |bindings| - 1;
      assert forall i :: 0 <= i < last ==> bindings[..last][i] == bindings[i];
      NoSecretsNoFrames(b, q, bindings[..last]);
      assert AccountFrames(b, q, bindings[last]) == SecretFrames(b, q, bindings[last].1, []) == Ok([]);
      var prefix: seq<Series> := [];
      assert AllFrames(b, q, bindings) == Ok(prefix + []);
      assert prefix + [] == [];
    }
  }
}
