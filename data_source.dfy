/** The data-source service: the plugin-info validator, `register`'s updates
    to its request, the enable and disable state setters, and the seeding of
    a domain's default data sources from the configured plugins. The plugin
    repository, the plugin runtime and the data-source manager's storage are
    inputs. */
module DataSources {
  import opened Types
  import opened Entities
  import Scope

  // ---------------------------------------------------------------- validation

  const Manual := "MANUAL"

  /** `_check_plugin_info`: `None` when the plugin info passes, else the
      first failing check. */
  function CheckPluginInfo(info: PluginInfo): (r: Option<Error>)
    ensures r.None? <==>
      && info.pluginId.KeyPresent()
      && (info.upgradeMode == Present(Manual) ==> info.version.KeyPresent())
      && !(info.secretId.ValueIsNone() && info.provider.ValueIsNone())
    ensures r == Some(RequiredParameter("plugin_info.plugin_id")) <==> !info.pluginId.KeyPresent()
    ensures info.upgradeMode != Present(Manual) ==> r != Some(RequiredParameter("plugin_info.version"))
    ensures r == Some(RequiredParameter("plugin_info.version")) <==>
      info.pluginId.KeyPresent() && info.upgradeMode == Present(Manual) && !info.version.KeyPresent()
    ensures r == Some(RequiredParameter("plugin_info.[secret_id | provider]")) <==>
      && info.pluginId.KeyPresent()
      && !(info.upgradeMode == Present(Manual) && !info.version.KeyPresent())
      && info.secretId.ValueIsNone() && info.provider.ValueIsNone()
    ensures r.Some? ==> r.value in {RequiredParameter("plugin_info.plugin_id"), RequiredParameter("plugin_info.version"),
                                    RequiredParameter("plugin_info.[secret_id | provider]")}
  {
    if !info.pluginId.KeyPresent() then Some(RequiredParameter("plugin_info.plugin_id"))
    else if info.upgradeMode == Present(Manual) && !info.version.KeyPresent() then Some(RequiredParameter("plugin_info.version"))
    else if info.secretId.ValueIsNone() && info.provider.ValueIsNone() then Some(RequiredParameter("plugin_info.[secret_id | provider]"))
    else None
  }

  // ---------------------------------------------------------------- register

  /** The keys of `register`'s request dict that the model follows; a
      `provider` not yet set is `Absent`. */
  datatype RegisterRequest = RegisterRequest(
    name: string,
    pluginInfo: PluginInfo,
    tags: Option<Tags>,
    provider: Field,
    domainId: string)

  /** A plugin as the repository describes it. */
  datatype RepositoryPlugin = RepositoryPlugin(version: Option<string>, provider: Option<string>)

  /** What the plugin runtime's `initialize` returns. */
  datatype EndpointInfo = EndpointInfo(updatedVersion: Option<string>)

  /** What the plugin's `init` returns: its `metadata` key, if any. */
  datatype InitResponse = InitResponse(metadata: Option<Metadata>)

  /** The services `register` calls; `None` (or `false`) is a call that raises. */
  datatype Registry = Registry(
    getPlugin: (Option<string>, string) -> Option<RepositoryPlugin>,     // repository get_plugin
    checkVersion: (Option<string>, string, string) -> bool,              // repository check_plugin_version
    initialize: (PluginInfo, string) -> Option<EndpointInfo>,            // plugin runtime initialize
    initPlugin: Metadata -> Option<InitResponse>,                        // plugin init with the options
    persist: RegisterRequest -> Option<DataSourceRecord>)                // register_data_source

  /** `utils.dict_to_tags`: a dict becomes the list of its key/value tags. */
  function DictToTags(pairs: seq<(string, string)>): (tags: seq<Tag>)
    ensures |tags| == |pairs|
    ensures forall i :: 0 <= i < |pairs| ==> tags[i] == Tag(pairs[i].0, pairs[i].1)
  {
    seq(|pairs|, i requires 0 <= i < |pairs| => Tag(pairs[i].0, pairs[i].1))
  }

  /** Tags that are absent or still in the caller's dict form. */
  predicate DictTags(tags: Option<Tags>) {
    tags.None? || tags.value.TagDict?
  }

  /** A caller's tags as register stores them; absent tags stay absent. */
  function ConvertTags(tags: Option<Tags>): Option<Tags>
    requires DictTags(tags)
  {
    if tags.None? then None else Some(TagList(DictToTags(tags.value.pairs)))
  }

  /** A provider value written into the request dict. */
  function FieldOf(x: Option<string>): (f: Field)
    ensures f.KeyPresent() && f.AsOption() == x
  {
    if x.Some? then Present(x.value) else Null
  }

  /** What `register` leaves in its request dict, and what it returns or raises. */
  function RegisterSpec(req: RegisterRequest, reg: Registry): (RegisterRequest, Result<DataSourceRecord>)
    requires DictTags(req.tags)
  {
    var tagged := req.(tags := ConvertTags(req.tags));
    match CheckPluginInfo(tagged.pluginInfo)
    case Some(e) => (tagged, Err(e))
    case None =>
      var pluginId := tagged.pluginInfo.pluginId.AsOption();
      match reg.getPlugin(pluginId, req.domainId)
      case None => (tagged, Err(RepositoryCallFailed))
      case Some(repo) =>
        if Truthy(repo.version) && !reg.checkVersion(pluginId, repo.version.value, req.domainId) then
          (tagged, Err(RepositoryCallFailed))
        else
          var resolved := tagged.(provider := FieldOf(repo.provider));
          match reg.initialize(resolved.pluginInfo, req.domainId)
          case None => (resolved, Err(PluginCallFailed))
          case Some(_) =>
            // an `updated_version` lands in the repository's copy, never in the request
            match reg.initPlugin(resolved.pluginInfo.options.GetOr(map[]))
            case None => (resolved, Err(PluginCallFailed))
            case Some(init) =>
              if init.metadata.None? then (resolved, Err(MissingKey("metadata")))
              else
                var complete := resolved.(pluginInfo := resolved.pluginInfo.(metadata := init.metadata));
                match reg.persist(complete)
                case None => (complete, Err(StoreCallFailed))
                case Some(record) => (complete, Ok(record))
  }

  /** The updates `register` makes to its request: tags converted only when
      present, `provider` from the repository's plugin, `metadata` from the
      plugin's init, and nothing else; the version the plugin runtime reports
      never reaches the request. A request that fails validation keeps all
      but its converted tags, and nothing is called. */
  lemma {:induction false} RegisterUpdates(req: RegisterRequest, reg: Registry)
    requires DictTags(req.tags)
    ensures var out := RegisterSpec(req, reg);
      var after := out.0;
      && after.name == req.name && after.domainId == req.domainId
      && after.tags == ConvertTags(req.tags)
      && after.pluginInfo == req.pluginInfo.(metadata := after.pluginInfo.metadata)
      && (CheckPluginInfo(req.pluginInfo).Some? ==>
            out.1 == Err(CheckPluginInfo(req.pluginInfo).value) && after == req.(tags := ConvertTags(req.tags)))
      && (out.1.Ok? ==>
            && after.provider == FieldOf(reg.getPlugin(req.pluginInfo.pluginId.AsOption(), req.domainId).value.provider)
            && after.pluginInfo.metadata.Some?
            && after.pluginInfo.metadata == reg.initPlugin(req.pluginInfo.options.GetOr(map[])).value.metadata
            && reg.persist(after) == Some(out.1.value))
  {
  }

  /** `register`'s request dict, which it updates in place. */
  class RegisterParams {
    var name: string
    var pluginInfo: PluginInfo
    var tags: Option<Tags>
    var provider: Field
    var domainId: string

    constructor (name: string, pluginInfo: PluginInfo, tags: Option<Tags>, domainId: string)
      ensures Value() == RegisterRequest(name, pluginInfo, tags, Absent, domainId)
    {
      this.name := name;
      this.pluginInfo := pluginInfo;
      this.tags := tags;
      this.provider := Absent;
      this.domainId := domainId;
    }

    /** The dict as a value. */
    function Value(): RegisterRequest
      reads this
    {
      RegisterRequest(name, pluginInfo, tags, provider, domainId)
    }
  }

  // ---------------------------------------------------------------- the service

  /** A record's position in the store, looked up by id within a domain. */
  function Find(records: seq<DataSourceRecord>, dataSourceId: string, domainId: string): (r: Option<nat>)
    ensures r.Some? ==> (r.value < |records| && records[r.value].dataSourceId == dataSourceId
      && records[r.value].domainId == domainId)
    ensures r.None? <==> forall i :: 0 <= i < |records| ==>
      !(records[i].dataSourceId == dataSourceId && records[i].domainId == domainId)
    decreases |records|
  {
    if |records| == 0 then None
    else if records[0].dataSourceId == dataSourceId && records[0].domainId == domainId then Some(0)
    else
      var rest := Find(records[1..], dataSourceId, domainId);
      assert forall i :: 1 <= i < |records| ==> records[i] == records[1..][i - 1];
      if rest.None? then None else Some(rest.value + 1)
  }

  /** The plugin ids of a domain's data sources, in store order. */
  function InstalledIds(records: seq<DataSourceRecord>, domainId: string): (ids: seq<Option<string>>)
    ensures forall i :: 0 <= i < |records| && records[i].domainId == domainId ==>
      records[i].pluginInfo.pluginId.AsOption() in ids
    ensures forall x :: x in ids ==> exists i :: (0 <= i < |records| && records[i].domainId == domainId
      && records[i].pluginInfo.pluginId.AsOption() == x)
    decreases |records|
  {
    if |records| == 0 then []
    else
      var last := |records| - 1;
      var ids := InstalledIds(records[..last], domainId);
      assert forall i :: 0 <= i < last ==> records[..last][i] == records[i];
      if records[last].domainId == domainId then ids + [records[last].pluginInfo.pluginId.AsOption()] else ids
  }

  /** A data-source plugin listed in the global configuration. */
  datatype ConfiguredSource = ConfiguredSource(name: string, pluginInfo: PluginInfo, tags: Option<Tags>)

  /** A configured entry stamped with the domain, as register receives it. */
  function Stamp(entry: ConfiguredSource, domainId: string): RegisterRequest {
    RegisterRequest(entry.name, entry.pluginInfo, entry.tags, Absent, domainId)
  }

  /** What seeding one configured entry adds to the store: nothing when its
      plugin is installed or its registration fails. */
  function Attempt(entry: ConfiguredSource, installed: seq<Option<string>>, domainId: string, reg: Registry)
    : seq<DataSourceRecord>
    requires DictTags(entry.tags)
  {
    if entry.pluginInfo.pluginId.AsOption() in installed then []
    else
      var outcome := RegisterSpec(Stamp(entry, domainId), reg).1;
      if outcome.Ok? then [outcome.value] else []
  }

  /** The progress of the seeding loop: what it added, and whether an entry
      without a `plugin_id` key ended it. */
  datatype SeedState = SeedState(added: seq<DataSourceRecord>, stopped: bool)

  function Seed(entries: seq<ConfiguredSource>, installed: seq<Option<string>>, domainId: string, reg: Registry)
    : SeedState
    requires forall i :: 0 <= i < |entries| ==> DictTags(entries[i].tags)
    decreases |entries|
  {
    if |entries| == 0 then SeedState([], false)
    else
      var last := |entries| - 1;
      var before := Seed(entries[..last], installed, domainId, reg);
      if before.stopped then before
      else if !entries[last].pluginInfo.pluginId.KeyPresent() then before.(stopped := true)
      else SeedState(before.added + Attempt(entries[last], installed, domainId, reg), false)
  }

  /** The data-source service over the data-source manager's store. */
  class DataSourceService {
    var records: seq<DataSourceRecord>

    constructor (records: seq<DataSourceRecord>)
      ensures this.records == records
    {
      this.records := records;
    }

    /** `register`: updates the request dict step by step, then persists it. */
    method Register(params: RegisterParams, reg: Registry) returns (r: Result<DataSourceRecord>)
      requires DictTags(params.tags)
      modifies params, this
      ensures (params.Value(), r) == RegisterSpec(old(params.Value()), reg)
      ensures records == old(records) + (if r.Ok? then [r.value] else [])
    {
      var domainId := params.domainId;
      if params.tags.Some? {
        params.tags := Some(TagList(DictToTags(params.tags.value.pairs)));
      }
      var invalid := CheckPluginInfo(params.pluginInfo);
      if invalid.Some? {
        return Err(invalid.value);
      }
      var pluginId := params.pluginInfo.pluginId.AsOption();
      var repo := reg.getPlugin(pluginId, domainId);
      if repo.None? {
        return Err(RepositoryCallFailed);
      }
      if Truthy(repo.value.version) && !reg.checkVersion(pluginId, repo.value.version.value, domainId) {
        return Err(RepositoryCallFailed);
      }
      params.provider := FieldOf(repo.value.provider);
      var endpoint := reg.initialize(params.pluginInfo, domainId);
      if endpoint.None? {
        return Err(PluginCallFailed);
      }
      var init := reg.initPlugin(params.pluginInfo.options.GetOr(map[]));
      if init.None? {
        return Err(PluginCallFailed);
      }
      if init.value.metadata.None? {
        return Err(MissingKey("metadata"));
      }
      params.pluginInfo := params.pluginInfo.(metadata := init.value.metadata);
      var record := reg.persist(params.Value());
      if record.None? {
        return Err(StoreCallFailed);
      }
      records := records + [record.value];
      return Ok(record.value);
    }

    /** `enable`: only the record's state changes, to ENABLED. */
    method Enable(dataSourceId: string, domainId: string) returns (r: Result<DataSourceRecord>)
      modifies this
      ensures var i := Find(old(records), dataSourceId, domainId);
        if i.None? then r == Err(NotFound(dataSourceId)) && records == old(records)
        else records == old(records)[i.value := old(records)[i.value].(state := Enabled)] && r == Ok(records[i.value])
    {
      r := SetState(dataSourceId, domainId, Enabled);
    }

    /** `disable`: only the record's state changes, to DISABLED. */
    method Disable(dataSourceId: string, domainId: string) returns (r: Result<DataSourceRecord>)
      modifies this
      ensures var i := Find(old(records), dataSourceId, domainId);
        if i.None? then r == Err(NotFound(dataSourceId)) && records == old(records)
        else records == old(records)[i.value := old(records)[i.value].(state := Disabled)] && r == Ok(records[i.value])
    {
      r := SetState(dataSourceId, domainId, Disabled);
    }

    /** `get_data_source` then `update_data_source_by_vo({'state': state}, vo)`. */
    method SetState(dataSourceId: string, domainId: string, state: string) returns (r: Result<DataSourceRecord>)
      modifies this
      ensures var i := Find(old(records), dataSourceId, domainId);
        if i.None? then r == Err(NotFound(dataSourceId)) && records == old(records)
        else records == old(records)[i.value := old(records)[i.value].(state := state)] && r == Ok(records[i.value])
    {
      var i := Find(records, dataSourceId, domainId);
      if i.None? {
        return Err(NotFound(dataSourceId));
      }
      records := records[i.value := records[i.value].(state := state)];
      return Ok(records[i.value]);
    }

    /** `_initialize_data_sources`: registers every configured plugin whose id
        is not among the domain's installed ids (read once, before the loop),
        swallowing each registration's failure; an entry without a
        `plugin_id` key raises out of the loop. */
    method InitializeDataSources(domainId: string, configured: seq<ConfiguredSource>, reg: Registry)
      returns (r: Result<bool>)
      requires forall i :: 0 <= i < |configured| ==> DictTags(configured[i].tags)
      modifies this
      ensures var s := Seed(configured, InstalledIds(old(records), domainId), domainId, reg);
        && records == old(records) + s.added
        && r == (if s.stopped then Err(MissingKey("plugin_id")) else Ok(true))
    {
      var installed := InstalledIds(records, domainId);
      for i := 0 to |configured|
        invariant !Seed(configured[..i], installed, domainId, reg).stopped
        invariant records == old(records) + Seed(configured[..i], installed, domainId, reg).added
      {
        assert configured[..i + 1][..i] == configured[..i];
        var entry := configured[i];
        if !entry.pluginInfo.pluginId.KeyPresent() {
          SeedStopPersists(configured, installed, domainId, reg, i + 1);
          return Err(MissingKey("plugin_id"));
        }
        if entry.pluginInfo.pluginId.AsOption() !in installed {
          var params := new RegisterParams(entry.name, entry.pluginInfo, entry.tags, domainId);
          var _ := Register(params, reg);
        }
      }
      assert configured[..|configured|] == configured;
      return Ok(true);
    }
  }

  // ---------------------------------------------------------------- laws

  /** Once an entry without a `plugin_id` stops the loop, nothing after it runs. */
  lemma {:induction false} SeedStopPersists(entries: seq<ConfiguredSource>, installed: seq<Option<string>>,
                                            domainId: string, reg: Registry, k: nat)
    requires forall i :: 0 <= i < |entries| ==> DictTags(entries[i].tags)
    requires k <= |entries|
    requires Seed(entries[..k], installed, domainId, reg).stopped
    ensures Seed(entries, installed, domainId, reg) == Seed(entries[..k], installed, domainId, reg)
    decreases |entries| - k
  {
    if k < |entries| {
      assert entries[..k + 1][..k] == entries[..k];
      SeedStopPersists(entries, installed, domainId, reg, k + 1);
    } else {
      assert entries[..k] == entries;
    }
  }

  /** Seeding stops only at an entry without a `plugin_id` key: a failing
      registration never stops it. */
  lemma {:induction false} SeedStopsOnlyOnMissingId(entries: seq<ConfiguredSource>, installed: seq<Option<string>>,
                                                    domainId: string, reg: Registry)
    requires forall i :: 0 <= i < |entries| ==> DictTags(entries[i].tags)
    ensures Seed(entries, installed, domainId, reg).stopped <==>
      exists i :: 0 <= i < |entries| && !entries[i].pluginInfo.pluginId.KeyPresent()
    decreases |entries|
  {
    if |entries| > 0 {
      var last := |entries| - 1;
      assert forall i :: 0 <= i < last ==> entries[..last][i] == entries[i];
      SeedStopsOnlyOnMissingId(entries[..last], installed, domainId, reg);
    }
  }

  /** The stamped entry's registration succeeds with `record`. */
  predicate Registers(entry: ConfiguredSource, domainId: string, reg: Registry, record: DataSourceRecord)
    requires DictTags(entry.tags)
  {
    RegisterSpec(Stamp(entry, domainId), reg).1 == Ok(record)
  }

  /** Every record seeding adds is the registration, stamped with the domain,
      of a configured entry whose plugin was not installed; and when nothing
      stops the loop, every such entry whose registration succeeds adds its
      record. */
  lemma {:induction false} SeedSelects(entries: seq<ConfiguredSource>, installed: seq<Option<string>>,
                                       domainId: string, reg: Registry)
    requires forall i :: 0 <= i < |entries| ==> DictTags(entries[i].tags)
    ensures var s := Seed(entries, installed, domainId, reg);
      && |s.added| <= |entries|
      && (forall j :: 0 <= j < |s.added| ==> exists i :: (0 <= i < |entries|
            && entries[i].pluginInfo.pluginId.AsOption() !in installed
            && Registers(entries[i], domainId, reg, s.added[j])))
      && (!s.stopped ==> forall i, record :: (0 <= i < |entries|
            && entries[i].pluginInfo.pluginId.AsOption() !in installed
            && Registers(entries[i], domainId, reg, record)) ==> record in s.added)
  {
    SeedSound(entries, installed, domainId, reg);
    SeedComplete(entries, installed, domainId, reg);
  }

  /** What seeding adds comes from uninstalled entries that register. */
  lemma {:induction false} SeedSound(entries: seq<ConfiguredSource>, installed: seq<Option<string>>,
                                     domainId: string, reg: Registry)
    requires forall i :: 0 <= i < |entries| ==> DictTags(entries[i].tags)
    ensures var s := Seed(entries, installed, domainId, reg);
      && |s.added| <= |entries|
      && (forall j :: 0 <= j < |s.added| ==> exists i :: (0 <= i < |entries|
            && entries[i].pluginInfo.pluginId.AsOption() !in installed
            && Registers(entries[i], domainId, reg, s.added[j])))
    decreases |entries|
  {
    if |entries| > 0 {
      var last := |entries| - 1;
      var prefix := entries[..last];
      assert forall i :: 0 <= i < last ==> prefix[i] == entries[i];
      SeedSound(prefix, installed, domainId, reg);
      var before := Seed(prefix, installed, domainId, reg);
      var s := Seed(entries, installed, domainId, reg);
      var more := if !before.stopped && entries[last].pluginInfo.pluginId.KeyPresent()
        then Attempt(entries[last], installed, domainId, reg) else [];
      assert s.added == before.added + more;
      forall j | 0 <= j < |s.added|
        ensures exists i :: (0 <= i < |entries|
          && entries[i].pluginInfo.pluginId.AsOption() !in installed
          && Registers(entries[i], domainId, reg, s.added[j]))
      {
        if j >= |before.added| {
          assert Registers(entries[last], domainId, reg, s.added[j]);
        } else {
          assert s.added[j] == before.added[j];
          var i :| 0 <= i < last && prefix[i].pluginInfo.pluginId.AsOption() !in installed
            && Registers(prefix[i], domainId, reg, before.added[j]);
        }
      }
    }
  }

  /** With no stop, every uninstalled entry that registers adds its record. */
  lemma {:induction false} SeedComplete(entries: seq<ConfiguredSource>, installed: seq<Option<string>>,
                                        domainId: string, reg: Registry)
    requires forall i :: 0 <= i < |entries| ==> DictTags(entries[i].tags)
    ensures var s := Seed(entries, installed, domainId, reg);
      !s.stopped ==> forall i, record :: (0 <= i < |entries|
            && entries[i].pluginInfo.pluginId.AsOption() !in installed
            && Registers(entries[i], domainId, reg, record)) ==> record in s.added
    decreases |entries|
  {
    if |entries| > 0 {
      var last := |entries| - 1;
      var prefix := entries[..last];
      assert forall i :: 0 <= i < last ==> prefix[i] == entries[i];
      SeedComplete(prefix, installed, domainId, reg);
      var before := Seed(prefix, installed, domainId, reg);
      var s := Seed(entries, installed, domainId, reg);
      if !before.stopped && entries[last].pluginInfo.pluginId.KeyPresent() {
        assert s.added == before.added + Attempt(entries[last], installed, domainId, reg);
        forall i, record | 0 <= i < |entries| && entries[i].pluginInfo.pluginId.AsOption() !in installed
            && Registers(entries[i], domainId, reg, record)
          ensures record in s.added
        {
          if i < last {
            assert record in before.added;
          }
        }
      }
    }
  }

  /** Enabling makes a data source count for scope resolution again;
      disabling makes scope resolution skip it. */
  lemma {:induction false} StateGovernsScope(record: DataSourceRecord)
    ensures Scope.CheckDataSourceState(record.(state := Enabled))
    ensures !Scope.CheckDataSourceState(record.(state := Disabled))
  {
  }
}
