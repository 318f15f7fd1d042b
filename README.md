# SpaceONE billing: a verified model of the cost roll-up and the data-source rules

SpaceONE's billing service answers `get_data` requests. It runs in four steps:

1. **Scope.** It resolves the service accounts in scope: the one project, a project group or the whole domain. Each account is bound to the plugin of a data source that is not disabled.
2. **Fetch.** For every secret of every account, it asks that data-source plugin for billing data. Each plugin answers with a list of results. A result carries an encoded resource-type key (`base?name=value&name=value`) and a list of dated costs.
3. **Frame.** It turns each answer into a pandas series indexed by the decoded key plus the date, and concatenates the series.
4. **Roll-up.** It groups by `resource_type`, the caller's aggregation levels (`REGION` → `region_code`, `RESOURCE_TYPE` → `service_code`) and `date`, and sums the costs. Each group key is re-encoded into a resource-type string. Groups with equal strings are collected into one output record with one `{date, cost, 'USD'}` point per group.

The data-source service has four modelled parts:

- it validates a data source's plugin info;
- `register` fills in its request (converted tags, the repository's `provider`, the plugin's `metadata`) before the request is stored;
- `enable` and `disable` change a stored data source's state;
- `_initialize_data_sources` seeds a domain with the configured default plugins it does not yet have.

The model is Dafny, one module per concern:

| module | file | models |
|---|---|---|
| `Types`, `Entities` | types.dfy, entities.dfy | options, dict fields (missing / `None` / set), the errors the code raises, shared records |
| `Strings`, `Dicts` | strings.dfy, dicts.dfy | Python `str.split` / `str.join` on one character; a dict as an insertion-ordered item list |
| `ResourceKey` | resource_key.dfy | `_parse_resource_type` and the key encoding `_create_result` uses |
| `Frames` | frames.dfy | `_make_dataframe` |
| `Aggregation` | aggregation.dfy | `pd.concat`, `AGGR_MAP`, `_get_aggregated_data` with the group-by sum as a map reduction |
| `Assembler` | assembler.dfy | `_create_result` |
| `Scope` | scope.dfy | `_get_possible_service_accounts`, `_check_data_source_state` |
| `BillingService` | billing.dfy | `get_data` |
| `DataSources` | data_source.dfy | `_check_plugin_info`, `register`, `enable`, `disable`, `_initialize_data_sources` |

Every loop of the source is a `method` with a `while` or `for` loop. Each such method is proved equal to a specification function, and the properties are lemmas about those functions.

The source functions with several sequential steps are modelled as methods that call the methods modelling their helpers, in the source's order: `get_data`, `_make_dataframe`, `_parse_resource_type`, `_create_result`, `_get_possible_service_accounts`, `register` and `_initialize_data_sources`.

`register`'s request dict is a class whose fields the method updates in place. The data-source store is a class holding a sequence of records.

The external services become inputs, as total functions whose `None` (or `false`) answer stands for a call that raises:

- the identity service;
- the data-source listing;
- the secret service;
- the plugin runtime;
- the plugin repository;
- the data-source manager's storage.

### Behaviour as the code has it

- **Key decoding:**
  - only the text between the first and a second `?` is read; anything after a second `?` is dropped;
  - a segment must split on `=` into exactly two pieces, or the tuple unpacking fails. So `base?` (one empty segment) and `a=b=c` are errors.
- **`_make_dataframe`:**
  - a response without results leaves `columns` unbound, which is an error;
  - the level names are the columns of the *last* result plus `date`;
  - a missing cost counts as 0;
  - the currency is read and ignored.
- **`pd.concat`** of no series raises, so a request with no account in scope fails.
- **Level lookup:**
  - pandas resolves every group-by name against the merged index's level names, so a name that a series lacks is an error even when that series has no rows;
  - a name that two levels share (a key dimension named `date`, say) resolves to the first level with that name.
- **Scope:**
  - a non-empty `service_accounts` list is returned as it is (the source marks this with TODO), and `get_data` then fails because a list has no `.items()`;
  - a later data source overwrites an earlier one for the same account.
- **Output:** the output hard-codes `'USD'`.
- **`get_data` failures:** any failing secret or plugin call aborts the whole request.
- **Plugin calls:** line 88 of billing_service.py calls `init_plugin` with three arguments. `PluginManager.init_plugin` (src/spaceone/billing/manager/plugin_manager.py:37) takes only `options`, and its `get_data` (line 57) also needs a `cache_key` that `get_data` never passes. As written, every fetch therefore raises. The model's `fetch` input is unconstrained, so it includes that answer.
- **`register`:**
  - the version is checked against the repository's plugin record, not against the caller's plugin info;
  - an `updated_version` from the plugin runtime is written into the repository's copy, so it never reaches what is stored.
- **Seeding:**
  - the installed plugin ids are read once, before the loop;
  - a registration that fails is swallowed;
  - a configured entry without `plugin_info.plugin_id` raises out of the loop, because the subscript sits outside the `try`.

## Model

| member | source | states |
|---|---|---|
| ResourceKey.ParseResourceType | src/spaceone/billing/service/billing_service.py:130-147 | the loop computes exactly `DecodeKey`: the parsed values and columns, or the first malformed segment |
| ResourceKey.DecodeQuery | src/spaceone/billing/service/billing_service.py:139-145 | a decoded query yields one name and one value per segment |
| ResourceKey.DecodeQueryOk | src/spaceone/billing/service/billing_service.py:142-145 | a query decodes if and only if every segment splits on `=` into exactly two pieces |
| ResourceKey.DecodeQuerySplit | src/spaceone/billing/service/billing_service.py:143-145 | position i of the decoded names and values is segment i split at its `=` |
| ResourceKey.DecodeQueryFails | src/spaceone/billing/service/billing_service.py:142-143 | a malformed segment after well-formed ones makes the whole decoding fail with that segment |
| ResourceKey.DecodeQueryFirstError | src/spaceone/billing/service/billing_service.py:142-143 | a failed decoding names the first malformed segment |
| ResourceKey.DecodeWithoutQuery | src/spaceone/billing/service/billing_service.py:135-141 | a key without `?` decodes to values `[key]` and columns `['resource_type']` |
| ResourceKey.DecodeParallel | src/spaceone/billing/service/billing_service.py:135-147 | values and columns are parallel: position 0 is the base under `resource_type`, position i+1 is segment i as `name=value`, in string order |
| ResourceKey.DecodeError | src/spaceone/billing/service/billing_service.py:143 | decoding fails if and only if some segment is not `name=value`, and the error names the first such segment |
| ResourceKey.DecodeIgnoresSecondQuery | src/spaceone/billing/service/billing_service.py:135-139 | text after a second `?` does not change the decoding |
| ResourceKey.Segments | src/spaceone/billing/service/billing_service.py:159-160 | one `name=value` segment per dimension |
| ResourceKey.DecodeEncode | src/spaceone/billing/service/billing_service.py:135-147 | decoding the key the assembler writes gives back the base and the dimensions, when no name or value holds a separator |
| ResourceKey.DecodeSegments | src/spaceone/billing/service/billing_service.py:142-145 | segments that each split into their name and value decode to those names and values |
| ResourceKey.SegmentsOfQuery | src/spaceone/billing/service/billing_service.py:139-145 | the segments of a decoded query are rebuilt from its names and values |
| ResourceKey.EncodeDecode | src/spaceone/billing/service/billing_service.py:135-147 | a key with at most one `?` that decodes is exactly the encoding of what it decodes to |
| Dicts.Get | src/spaceone/billing/service/billing_service.py:163 | a lookup finds a value if and only if the key is present |
| Dicts.Put | src/spaceone/billing/service/billing_service.py:165 | dict assignment: the key maps to the new value, every other key keeps its value, and the key set gains the key |
| Frames.RowsFor | src/spaceone/billing/service/billing_service.py:114-121 | one row per `billing_data` entry of a result |
| Frames.RowsForSnoc | src/spaceone/billing/service/billing_service.py:118-121 | each entry appends the row `values + [date]` with its cost, or 0 |
| Frames.BuildEntries | src/spaceone/billing/service/billing_service.py:109-121 | building the rows succeeds if and only if every result key decodes, with one row per billing entry |
| Frames.MakeFrame | src/spaceone/billing/service/billing_service.py:105-128 | a built series has every row as wide as its level names |
| Frames.Zip | src/spaceone/billing/service/billing_service.py:125-127 | pairing index tuples with costs keeps both, position by position |
| Frames.KeysDecodeIndex | src/spaceone/billing/service/billing_service.py:109-111 | when all keys decode, the key of each result decodes |
| Frames.BuildEntriesErrorPersists | src/spaceone/billing/service/billing_service.py:109-111 | once a result's key fails to decode, building fails with that error |
| Frames.BuildEntriesStep | src/spaceone/billing/service/billing_service.py:109-121 | one more result appends its rows or fails with its key's error |
| Frames.BuildEntriesFails | src/spaceone/billing/service/billing_service.py:109-111 | a result whose key does not decode, after ones that do, is the error of the whole build |
| Frames.MakeDataframe | src/spaceone/billing/service/billing_service.py:105-128 | the nested loops compute exactly `MakeFrame`, including the no-results and column-mismatch errors |
| Frames.BuildEntriesRows | src/spaceone/billing/service/billing_service.py:109-121 | entry j of result i is row `count(earlier entries) + j`, keyed by that result's decoded values plus the entry's date, costing its cost or 0 |
| Frames.BuildEntriesPrefix | src/spaceone/billing/service/billing_service.py:109-121 | the rows of the first n results are the first rows of all of them |
| Frames.BuildEntriesLastRows | src/spaceone/billing/service/billing_service.py:109-121 | the last result's rows follow the rows of the results before it |
| Frames.RowsForTotal | src/spaceone/billing/service/billing_service.py:114-121 | a result's rows cost what its billing entries cost |
| Frames.BuildEntriesTotal | src/spaceone/billing/service/billing_service.py:109-121 | all rows together cost what all billing entries cost |
| Frames.MakeFrameShape | src/spaceone/billing/service/billing_service.py:105-128 | a series starts with `resource_type`, ends with `date`, has one row per billing entry and carries their total cost |
| Aggregation.RowsOf | src/spaceone/billing/service/billing_service.py:97 | a series contributes one merged row per entry |
| Aggregation.Concat | src/spaceone/billing/service/billing_service.py:97 | concatenation fails if and only if there is no series; the merge keeps the level names of every series, in list order |
| Aggregation.IndexesOf | src/spaceone/billing/service/billing_service.py:97 | the level names of each series, position by position |
| Aggregation.ConcatConsistent | src/spaceone/billing/service/billing_service.py:97 | every merged row carries the level names of one of the merged series |
| Aggregation.ConcatRowsFacts | src/spaceone/billing/service/billing_service.py:97 | merged rows are well formed and cost what the series cost |
| Aggregation.ConcatRowsWellFormed | src/spaceone/billing/service/billing_service.py:97 | merging well-formed series gives well-formed rows |
| Aggregation.ConcatRowsTotal | src/spaceone/billing/service/billing_service.py:97 | merging moves no cost |
| Aggregation.MapSymbols | src/spaceone/billing/service/billing_service.py:199-200 | a mapped aggregation list is as long as the input |
| Aggregation.MapSymbolsMeaning | src/spaceone/billing/service/billing_service.py:199-200 | mapping succeeds if and only if every symbol is a key of `AGGR_MAP`, and then maps each symbol, position by position |
| Aggregation.MapSymbolsFails | src/spaceone/billing/service/billing_service.py:199-200 | an unknown symbol after known ones is the KeyError of the whole mapping |
| Aggregation.MapSymbolsFirstError | src/spaceone/billing/service/billing_service.py:199-200 | a failed mapping names the first unknown symbol |
| Aggregation.GroupByShape | src/spaceone/billing/service/billing_service.py:198-202 | the group-by list is `resource_type`, the mapped symbols in caller order, then `date`; an unknown symbol (only `REGION` and `RESOURCE_TYPE` are known) is an error naming the first one |
| Aggregation.IndexOf | src/spaceone/billing/service/billing_service.py:205 | the first level carrying a name |
| Aggregation.LevelOf | src/spaceone/billing/service/billing_service.py:205 | group-by level lookup succeeds if and only if some level has the name, and then gives the first such level; otherwise it is LevelNotFound |
| Aggregation.MissingLevel | src/spaceone/billing/service/billing_service.py:205 | no error if and only if the levels carry every group-by name |
| Aggregation.MissingLevelFirst | src/spaceone/billing/service/billing_service.py:205 | the error names the first group-by name the levels lack |
| Aggregation.MissingIn | src/spaceone/billing/service/billing_service.py:205 | no error if and only if every merged series carries every group-by name; otherwise the error of some series that lacks one |
| Aggregation.ProjectKey | src/spaceone/billing/service/billing_service.py:205 | a projected key has one value per group-by level |
| Aggregation.ProjectKeyIndex | src/spaceone/billing/service/billing_service.py:205 | position j of a projected key is the row's value at the level named by group-by entry j |
| Aggregation.ProjectAll | src/spaceone/billing/service/billing_service.py:205 | projecting keeps one entry per row |
| Aggregation.ProjectAllIndex | src/spaceone/billing/service/billing_service.py:205 | entry i is row i projected, at row i's cost |
| Aggregation.ProjectAllTotal | src/spaceone/billing/service/billing_service.py:205 | projection moves no cost |
| Aggregation.GroupSumMeaning | src/spaceone/billing/service/billing_service.py:205 | the groups are exactly the projected keys that occur, and each sum is the cost of the rows with that key |
| Aggregation.GroupedSum | src/spaceone/billing/service/billing_service.py:205 | the rolled-up series is indexed by the group-by levels; a group-by name missing from any merged series, with or without rows, is that LevelNotFound |
| Aggregation.ProjectKeyOk | src/spaceone/billing/service/billing_service.py:205 | a row whose levels carry every group-by name projects |
| Aggregation.ProjectAllOk | src/spaceone/billing/service/billing_service.py:205 | rows whose levels all carry every group-by name project |
| Aggregation.GroupedSumOk | src/spaceone/billing/service/billing_service.py:205 | the group-by sum of a merge succeeds if and only if every merged series carries every group-by name |
| Aggregation.GetAggregatedData | src/spaceone/billing/service/billing_service.py:174-206 | the loop builds the group-by list and the result is exactly `Aggregate`, including the unknown-symbol error and the missing-level error of a series without rows |
| Aggregation.GroupSumTotal | src/spaceone/billing/service/billing_service.py:205 | whatever order the groups are enumerated in, their sums add up to the cost of all rows |
| Aggregation.ItemsAreReferenceSums | src/spaceone/billing/service/billing_service.py:205 | items whose values are the reference sums total the reference sum over their keys |
| Aggregation.KeySumCovers | src/spaceone/billing/service/billing_service.py:205 | summing the reference sums over an enumeration of all keys gives the total cost |
| Aggregation.AggregateKeys | src/spaceone/billing/service/billing_service.py:198-205 | the groups are exactly the projections of the rows onto the group-by levels |
| Aggregation.AggregateTotal | src/spaceone/billing/service/billing_service.py:198-205 | the roll-up conserves cost under any enumeration of its groups |
| Aggregation.EmptyAggregation | src/spaceone/billing/service/billing_service.py:198-205 | with no aggregation the levels are `[resource_type, date]` and there is exactly one group per (resource type, first `date` level) pair that occurs |
| Aggregation.ProjectDrop | src/spaceone/billing/service/billing_service.py:198-205 | leaving a group-by name out of the list leaves its value out of every row's projection |
| Aggregation.RefinementSplits | src/spaceone/billing/service/billing_service.py:198-205 | adding an aggregation symbol never decreases the number of groups |
| Assembler.TerminatedJoin | src/spaceone/billing/service/billing_service.py:159-163 | appending `name=value&` per dimension and cutting the last character is the `&`-join of the segments |
| Assembler.EncodeGroupKey | src/spaceone/billing/service/billing_service.py:157-163 | a key with no dimensions yields exactly the base; otherwise `base?n1=v1&...&nk=vk` with no trailing `&` |
| Assembler.Keyed | src/spaceone/billing/service/billing_service.py:155-164 | each group becomes one (string, {date, cost, 'USD'}) pair |
| Assembler.CollatePairsMeaning | src/spaceone/billing/service/billing_service.py:155-165 | the collected dict holds exactly the strings that occur, each with its points in order and none repeated |
| Assembler.CollateMeaning | src/spaceone/billing/service/billing_service.py:155-165 | for the groups of a roll-up: the dict's strings are exactly the group strings, each holding the points of the groups with that string |
| Assembler.Records | src/spaceone/billing/service/billing_service.py:167-171 | one output record per dict item |
| Assembler.CreateResult | src/spaceone/billing/service/billing_service.py:149-172 | both loops compute exactly `Assemble` over the given group order |
| Assembler.RecordsDistinct | src/spaceone/billing/service/billing_service.py:169-171 | no two output records share a resource-type string |
| Assembler.RecordsContents | src/spaceone/billing/service/billing_service.py:169-171 | each record holds its string's points in order and the caller's domain |
| Assembler.RecordsCover | src/spaceone/billing/service/billing_service.py:169-171 | every string that occurs has a record |
| Assembler.AssembleMeaning | src/spaceone/billing/service/billing_service.py:149-172 | one record per distinct string; the strings are exactly those the groups encode to; each record's points are those of its groups; the domain is the caller's |
| Assembler.PutTotal | src/spaceone/billing/service/billing_service.py:163-165 | adding a point to a dict entry adds its cost to the dict |
| Assembler.CollatePairsTotal | src/spaceone/billing/service/billing_service.py:155-165 | collecting keeps every point's cost |
| Assembler.KeyedTotal | src/spaceone/billing/service/billing_service.py:155-164 | the pairs carry the groups' sums |
| Assembler.RecordsTotal | src/spaceone/billing/service/billing_service.py:169-171 | the records carry the dict's costs |
| Assembler.AssembleTotal | src/spaceone/billing/service/billing_service.py:149-172 | the output carries exactly the groups' total cost |
| Assembler.KeyStringDecodes | src/spaceone/billing/service/billing_service.py:157-165 | decoding an output string gives back the group key without its date, under the levels without `date` |
| Scope.Possible | src/spaceone/billing/service/billing_service.py:217-245 | a non-empty explicit list is returned unchanged, and only then; otherwise the resolved dict never repeats an account |
| Scope.GetPossibleServiceAccounts | src/spaceone/billing/service/billing_service.py:208-245 | the nested loops compute exactly `Possible` |
| Scope.BindAccountsMeaning | src/spaceone/billing/service/billing_service.py:240-244 | after one data source's accounts, an account maps to its plugin info if and only if it is listed in an eligible project; otherwise it keeps its old binding |
| Scope.BindSourcesDistinct | src/spaceone/billing/service/billing_service.py:230-245 | the resolved dict never holds an account twice |
| Scope.BindSourcesMeaning | src/spaceone/billing/service/billing_service.py:233-244 | an account is resolved if and only if a data source that is not disabled lists it in an eligible project, and it is bound to the last such data source's plugin info |
| Scope.DisabledIgnored | src/spaceone/billing/service/billing_service.py:233-236 | resolving over all data sources equals resolving over those that are not disabled |
| BillingService.Subscript | src/spaceone/billing/service/billing_service.py:88 | `plugin_info[key]` raises KeyError if and only if the key is missing, and otherwise yields its value or `None` |
| BillingService.SecretFrames | src/spaceone/billing/service/billing_service.py:73-92 | one series per secret when none fails |
| BillingService.Merged | src/spaceone/billing/service/billing_service.py:59-67 | a non-empty `service_accounts` list makes the merge fail, because a list has no `.items()` |
| BillingService.ItemsOf | src/spaceone/billing/service/billing_service.py:153-155 | the items of the rolled-up series: every group once, with its sum |
| BillingService.FetchFrame | src/spaceone/billing/service/billing_service.py:74-92 | one secret's series is exactly `SecretFrame`: secret data, then `plugin_id` and `version`, then the plugin call, then the frame |
| BillingService.CollectFrames | src/spaceone/billing/service/billing_service.py:68-92 | the nested loops compute exactly `AllFrames`, in dict order, with the first failure as the result |
| BillingService.GetData | src/spaceone/billing/service/billing_service.py:55-102 | fails exactly as the roll-up fails; on success the output is the assembly of some enumeration of the groups, and it carries the total cost of all fetched series |
| BillingService.SecretFramesWellFormed | src/spaceone/billing/service/billing_service.py:73-92 | every fetched series is well formed |
| BillingService.AllFramesWellFormed | src/spaceone/billing/service/billing_service.py:68-92 | every series in `dataframe_list` is well formed |
| BillingService.AllFramesFails | src/spaceone/billing/service/billing_service.py:68-92 | a failure for one account ends the whole loop with that failure |
| BillingService.SecretFramesPersists | src/spaceone/billing/service/billing_service.py:73-92 | a failure at one secret ends that account's series with that failure |
| BillingService.SecretFramesFails | src/spaceone/billing/service/billing_service.py:68-92 | a failure at secret j of account i is the result of the whole loop |
| BillingService.AggregateFits | src/spaceone/billing/service/billing_service.py:97-102 | every group key of the roll-up is as wide as its level names |
| BillingService.RollupTotal | src/spaceone/billing/service/billing_service.py:55-102 | end to end, under any group order, the output carries exactly the cost of the fetched series |
| BillingService.NoAccountsFails | src/spaceone/billing/service/billing_service.py:97 | when the loops collect no series (no account in scope, or no secrets), `get_data` fails in `pd.concat` |
| BillingService.NoSecretsNoFrames | src/spaceone/billing/service/billing_service.py:70-73 | accounts whose secret lists are empty contribute no series |
| BillingService.RollupResolvesLevels | src/spaceone/billing/service/billing_service.py:97-99 | with series fetched and known aggregation symbols, the roll-up succeeds if and only if every fetched series, even one without rows, carries every group-by name |
| DataSources.CheckPluginInfo | src/spaceone/billing/service/data_source_service.py:243-256 | validation passes if and only if `plugin_id` is present, `MANUAL` mode has a `version`, and `secret_id` or `provider` is set; each of the three errors is reported exactly when its check is the first to fail; any other upgrade mode never requires `version` |
| DataSources.DictToTags | src/spaceone/billing/service/data_source_service.py:44-45 | a tag dict becomes one key/value tag per item, in order |
| DataSources.FieldOf | src/spaceone/billing/service/data_source_service.py:49 | `params['provider']` is set, and holds the repository plugin's provider or `None` |
| DataSources.RegisterUpdates | src/spaceone/billing/service/data_source_service.py:42-61 | register converts tags only when present, sets `provider` from the repository and `metadata` from plugin init, and changes nothing else (not the version); an invalid plugin info fails before any call |
| DataSources.RegisterParams.constructor | src/spaceone/billing/service/data_source_service.py:27-42 | a request dict stamped with the domain and no `provider` yet |
| DataSources.Find | src/spaceone/billing/service/data_source_service.py:106 | the record found has the id and domain asked for; nothing is found if and only if no record has both |
| DataSources.InstalledIds | src/spaceone/billing/service/data_source_service.py:280-283 | the installed ids are exactly the plugin ids of the domain's data sources |
| DataSources.DataSourceService.Register | src/spaceone/billing/service/data_source_service.py:42-61 | the request ends as `RegisterSpec` says, and the store gains exactly the persisted record on success and nothing on failure |
| DataSources.DataSourceService.Enable | src/spaceone/billing/service/data_source_service.py:104-109 | only the found record's state changes, to `ENABLED`; an unknown id is NotFound and changes nothing |
| DataSources.DataSourceService.Disable | src/spaceone/billing/service/data_source_service.py:126-131 | only the found record's state changes, to `DISABLED`; an unknown id is NotFound and changes nothing |
| DataSources.DataSourceService.SetState | src/spaceone/billing/service/data_source_service.py:106-109 | lookup by id within the domain, then an update of the state alone |
| DataSources.DataSourceService.InitializeDataSources | src/spaceone/billing/service/data_source_service.py:276-297 | the store gains exactly what `Seed` adds; the result is `True` unless an entry lacks `plugin_id` |
| DataSources.SeedStopPersists | src/spaceone/billing/service/data_source_service.py:287-288 | an entry without `plugin_id` ends the loop |
| DataSources.SeedStopsOnlyOnMissingId | src/spaceone/billing/service/data_source_service.py:287-297 | seeding stops if and only if some entry lacks `plugin_id`; a failed registration never stops it |
| DataSources.SeedSelects | src/spaceone/billing/service/data_source_service.py:283-293 | every added record is the registration, stamped with the domain, of an entry whose plugin was not installed; with no stop, every such entry that registers adds its record |
| DataSources.SeedSound | src/spaceone/billing/service/data_source_service.py:283-293 | every added record is the stamped registration of an entry whose plugin was not installed |
| DataSources.SeedComplete | src/spaceone/billing/service/data_source_service.py:283-293 | with no stop, every uninstalled entry that registers adds its record |
| DataSources.StateGovernsScope | src/spaceone/billing/service/data_source_service.py:108-109 | an enabled data source passes the state check of scope resolution; a disabled one fails it |

## Left out

- **pandas ordering:** pandas sorts group keys, and its `to_dict()` has its own iteration order. The model does not fix either: `CreateResult` takes the groups in any enumeration, and every property holds for all of them.
- **pandas `concat` of mismatched index levels:** the merge keeps each series' level names, and every one is checked against the group-by list. pandas' alignment and missing-value filling across series with different levels is not modelled.
- Frames.MakeFrame: every row whose width differs from the last result's columns is `ColumnMismatch`. pandas pads shorter rows with missing values, which the model does not represent.
- **Costs** are integers: floating point and NaN are not modelled.
- **Missing keys in plugin responses** (`resource_type`, `billing_data`, `date`, `secret_id`): the model's records always carry them, so those KeyErrors are not modelled. The missing `results` key (treated as empty) is modelled.
- **The identity service and the data-source listing** are total inputs. Their failures, and the domain filter of the listing, are not modelled.
- **Framework decorators:**
  - `check_required`, `transaction` and `change_timestamp_value`: required parameters are assumed present, and timestamps are passed through as strings;
  - `cache.cacheable` on `_initialize_data_sources`: the model seeds on every call;
  - `authentication_handler`;
  - the query-filter decorators.
- **Logging, `print`, `self.merged_data` and the unused `endpoint_dic`** are not modelled.
- **Outside calls in `register`:**
  - `utils.dict_to_tags` is not part of this model; it is modelled as turning a dict's items into key/value tags, and `Register` requires tags in dict form;
  - the data-source manager's `register_data_source` is the input `persist`, so the stored record is whatever it returns;
  - so are the repository's `get_plugin`/`check_plugin_version` and the plugin runtime's `initialize`/`init_plugin`.
- DataSources.DataSourceService.InitializeDataSources: the source mutates the configured entries of the global configuration in place, and those changes outlive the call. The model gives each attempt a fresh request and leaves the configuration unchanged. A configured entry without a `plugin_info` key is not modelled.
- DataSources.Find: the manager's `get_data_source` is modelled as the first record with that id in that domain.
- **Other `DataSourceService` operations** are outside the modelled core: `update`, `deregister`, `verify_plugin`, `get`, `list` and `stat`.
- **Not part of this model:**
  - src/spaceone/billing/connector/identity_connector.py and src/spaceone/billing/connector/secret_connector.py;
  - src/spaceone/billing/manager/plugin_manager.py;
  - src/spaceone/billing/info/billing_info.py.

  They are client plumbing, a cached wrapper and protobuf marshalling.
- **test/grpc/test_get_data.py** drives a live server and asserts nothing. It is not modelled.
