/** Scope resolution of the billing service, `_get_possible_service_accounts`
    and `_check_data_source_state`: which service accounts a query covers and
    which data source's plugin serves each of them. The identity service and
    the data-source listing are inputs. */
module Scope {
  import opened Types
  import opened Dicts
  import opened Entities

  /** What the identity service answers within the caller's domain. */
  datatype Identity = Identity(
    projectsInGroup: string -> seq<string>,            // list_projects_by_project_group_id
    allProjects: seq<string>,                          // list_all_projects
    accountsByProvider: Option<string> -> seq<ServiceAccount>)  // list_service_accounts_by_provider

  /** What `_get_possible_service_accounts` returns: the caller's own
      non-empty list unchanged, or the dict from account id to plugin info. */
  datatype PossibleAccounts =
    | ExplicitList(accounts: seq<string>)
    | Bindings(items: seq<(string, PluginInfo)>)

  /** `_check_data_source_state` */
  predicate CheckDataSourceState(dataSource: DataSourceRecord) {
    dataSource.state != Disabled
  }

  /** The eligible projects: the one project, else the group's projects,
      else every project of the domain. */
  function ProjectList(identity: Identity, projectId: Option<string>, projectGroupId: Option<string>): seq<string> {
    if Truthy(projectId) then [projectId.value]
    else if Truthy(projectGroupId) then identity.projectsInGroup(projectGroupId.value)
    else identity.allProjects
  }

  /** The inner loop: every listed account in an eligible project is bound
      to the data source's plugin info, in list order. */
  function BindAccounts(results: seq<(string, PluginInfo)>, accounts: seq<ServiceAccount>,
                        projects: seq<string>, info: PluginInfo): seq<(string, PluginInfo)>
    decreases |accounts|
  {
    if |accounts| == 0 then results
    else
      var last := |accounts| - 1;
      var bound := BindAccounts(results, accounts[..last], projects, info);
      if accounts[last].projectId in projects then Put(bound, accounts[last].serviceAccountId, info) else bound
  }

  /** The outer loop: every data source that is not disabled binds its
      provider's accounts, in listing order. */
  function BindSources(identity: Identity, dataSources: seq<DataSourceRecord>, projects: seq<string>)
    : seq<(string, PluginInfo)>
    decreases |dataSources|
  {
    if |dataSources| == 0 then []
    else
      var last := |dataSources| - 1;
      var results := BindSources(identity, dataSources[..last], projects);
      var ds := dataSources[last];
      if !CheckDataSourceState(ds) then results
      else BindAccounts(results, identity.accountsByProvider(ds.provider), projects, ds.pluginInfo)
  }

  /** What `_get_possible_service_accounts` returns. */
  function Possible(identity: Identity, dataSources: seq<DataSourceRecord>, projectId: Option<string>,
                    projectGroupId: Option<string>, serviceAccounts: seq<string>): (r: PossibleAccounts)
    ensures r.ExplicitList? <==> |serviceAccounts| > 0
    ensures r.ExplicitList? ==> r.accounts == serviceAccounts
    ensures r.Bindings? ==> DistinctKeys(r.items)
  {
    if |serviceAccounts| > 0 then ExplicitList(serviceAccounts)
    else
      var projects := ProjectList(identity, projectId, projectGroupId);
      BindSourcesDistinct(identity, dataSources, projects);
      Bindings(BindSources(identity, dataSources, projects))
  }

  /** `_get_possible_service_accounts`, loop for loop. */
  method GetPossibleServiceAccounts(identity: Identity, dataSources: seq<DataSourceRecord>,
                                    projectId: Option<string>, projectGroupId: Option<string>,
                                    serviceAccounts: seq<string>) returns (r: PossibleAccounts)
    ensures r == Possible(identity, dataSources, projectId, projectGroupId, serviceAccounts)
  {
    if |serviceAccounts| > 0 {
      return ExplicitList(serviceAccounts);
    }
    var projectList: seq<string>;
    if Truthy(projectId) {
      projectList := [projectId.value];
    } else if Truthy(projectGroupId) {
      projectList := identity.projectsInGroup(projectGroupId.value);
    } else {
      projectList := identity.allProjects;
    }
    var results: seq<(string, PluginInfo)> := [];
    for i := 0 to |dataSources|
      invariant results == BindSources(identity, dataSources[..i], projectList)
    {
      assert dataSources[..i + 1][..i] == dataSources[..i];
      var ds := dataSources[i];
      if !CheckDataSourceState(ds) {
        continue;
      }
      var accounts := identity.accountsByProvider(ds.provider);
      ghost var before := results;
      for j := 0 to |accounts|
        invariant results == BindAccounts(before, accounts[..j], projectList, ds.pluginInfo)
      {
        assert accounts[..j + 1][..j] == accounts[..j];
        if accounts[j].projectId in projectList {
          results := Put(results, accounts[j].serviceAccountId, ds.pluginInfo);
        }
      }
      assert accounts[..|accounts|] == accounts;
    }
    assert dataSources[..|dataSources|] == dataSources;
    return Bindings(results);
  }

  // ---------------------------------------------------------------- laws

  /** Account `id` is listed for the data source's provider in an eligible project. */
  predicate Lists(accounts: seq<ServiceAccount>, projects: seq<string>, id: string) {
    exists j :: 0 <= j < |accounts| && accounts[j].serviceAccountId == id && accounts[j].projectId in projects
  }

  /** A data source that is not disabled and binds account `id`. */
  predicate Contributes(identity: Identity, dataSource: DataSourceRecord, projects: seq<string>, id: string) {
    CheckDataSourceState(dataSource) && Lists(identity.accountsByProvider(dataSource.provider), projects, id)
  }

  lemma {:induction false} BindAccountsMeaning(results: seq<(string, PluginInfo)>, accounts: seq<ServiceAccount>,
                                               projects: seq<string>, info: PluginInfo, id: string)
    ensures Get(BindAccounts(results, accounts, projects, info), id)
      == if Lists(accounts, projects, id) then Some(info) else Get(results, id)
    ensures DistinctKeys(results) ==> DistinctKeys(BindAccounts(results, accounts, projects, info))
    decreases |accounts|
  {
    if |accounts| > 0 {
      var last := |accounts| - 1;
      var prefix := accounts[..last];
      assert forall j :: 0 <= j < last ==> prefix[j] == accounts[j];
      BindAccountsMeaning(results, prefix, projects, info, id);
      var bound := BindAccounts(results, prefix, projects, info);
      if DistinctKeys(results) && accounts[last].projectId in projects {
        PutDistinct(bound, accounts[last].serviceAccountId, info);
      }
      if Lists(accounts, projects, id) && !Lists(prefix, projects, id) {
        assert accounts[last].serviceAccountId == id && accounts[last].projectId in projects;
      }
    }
  }

  /** The resolved dict never holds an account id twice. */
  lemma {:induction false} BindSourcesDistinct(identity: Identity, dataSources: seq<DataSourceRecord>, projects: seq<string>)
    ensures DistinctKeys(BindSources(identity, dataSources, projects))
    decreases |dataSources|
  {
    if |dataSources| > 0 {
      var last := |dataSources| - 1;
      BindSourcesDistinct(identity, dataSources[..last], projects);
      var ds := dataSources[last];
      BindAccountsMeaning(BindSources(identity, dataSources[..last], projects),
                          identity.accountsByProvider(ds.provider), projects, ds.pluginInfo, "");
    }
  }

  /** An account id is resolved exactly when some data source that is not
      disabled lists it in an eligible project, and it is bound to the plugin
      info of the LAST such data source. */
  lemma {:induction false} BindSourcesMeaning(identity: Identity, dataSources: seq<DataSourceRecord>,
                                              projects: seq<string>, id: string)
    ensures var r := Get(BindSources(identity, dataSources, projects), id);
      && (r.Some? <==> exists i :: 0 <= i < |dataSources| && Contributes(identity, dataSources[i], projects, id))
      && (r.Some? ==> exists i :: (0 <= i < |dataSources| && Contributes(identity, dataSources[i], projects, id)
            && r.value == dataSources[i].pluginInfo
            && forall k :: i < k < |dataSources| ==> !Contributes(identity, dataSources[k], projects, id)))
    decreases |dataSources|
  {
    if |dataSources| > 0 {
      var last := |dataSources| - 1;
      var prefix := dataSources[..last];
      assert forall i :: 0 <= i < last ==> prefix[i] == dataSources[i];
      BindSourcesMeaning(identity, prefix, projects, id);
      var ds := dataSources[last];
      if CheckDataSourceState(ds) {
        BindAccountsMeaning(BindSources(identity, prefix, projects),
                            identity.accountsByProvider(ds.provider), projects, ds.pluginInfo, id);
      }
    }
  }

  /** Only the data sources that are not disabled. */
  function EnabledOnly(dataSources: seq<DataSourceRecord>): seq<DataSourceRecord>
    decreases |dataSources|
  {
    if |dataSources| == 0 then []
    else
      var last := |dataSources| - 1;
      EnabledOnly(dataSources[..last]) + (if CheckDataSourceState(dataSources[last]) then [dataSources[last]] else [])
  }

  /** Disabled data sources are skipped: resolving over the listing is
      resolving over its data sources that are not disabled. */
  lemma {:induction false} DisabledIgnored(identity: Identity, dataSources: seq<DataSourceRecord>, projects: seq<string>)
    ensures BindSources(identity, dataSources, projects) == BindSources(identity, EnabledOnly(dataSources), projects)
    decreases |dataSources|
  {
    if |dataSources| > 0 {
      var last := |dataSources| - 1;
      DisabledIgnored(identity, dataSources[..last], projects);
      var kept := EnabledOnly(dataSources[..last]);
      if CheckDataSourceState(dataSources[last]) {
        assert (kept + [dataSources[last]])[..|kept|] == kept;
      } else {
        assert kept + [] == kept;
      }
    }
  }
}
