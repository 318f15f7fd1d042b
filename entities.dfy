/** The records that the billing service and the data-source service share. */
module Entities {
  import opened Types

  /** Plugin metadata as the plugin runtime reports it. */
  type Metadata = map<string, string>

  /** A data source's `plugin_info` dict: the keys the services read. */
  datatype PluginInfo = PluginInfo(
    pluginId: Field,
    version: Field,
    upgradeMode: Field,
    secretId: Field,
    provider: Field,
    options: Option<Metadata>,
    metadata: Option<Metadata>)

  /** A service account as the identity service lists it (with its `project_info.project_id`). */
  datatype ServiceAccount = ServiceAccount(serviceAccountId: string, projectId: string)

  /** One tag in the stored form. */
  datatype Tag = Tag(key: string, value: string)

  /** Tags as a caller's dict, or in the stored list form `dict_to_tags` makes. */
  datatype Tags = TagDict(pairs: seq<(string, string)>) | TagList(tags: seq<Tag>)

  /** A persisted data source, as the data-source manager stores and lists it. */
  datatype DataSourceRecord = DataSourceRecord(
    dataSourceId: string,
    name: string,
    state: string,
    provider: Option<string>,
    pluginInfo: PluginInfo,
    tags: Option<Tags>,
    domainId: string)

  const Enabled := "ENABLED"
  const Disabled := "DISABLED"
}
