/** The parts of a shard's configuration that groups, subnet pools and NAT share. */
module ShardConfig {
  import opened Common

  /** A group; empty text, no size and empty maps stand for fields that are not set. */
  datatype GroupConfig = GroupConfig(
    template: string,
    size: Option<int>,
    instanceType: string,
    subnetPool: string,
    vars: map<string, string>,
    args: map<string, string>,
    drainTimeout: Option<int>,
    loadBalancers: seq<string>)

  const NO_GROUP := GroupConfig("", None, "", "", map[], map[], None, [])

  /** Groups by tenant and key. */
  type TenantGroups = map<string, map<string, GroupConfig>>

  datatype Config = Config(
    subnetPools: map<string, seq<string>>,    // provider subnet IDs by pool
    dynamicSubnetPools: seq<string>,          // pools allowed to outside requests; none listed means all
    templates: map<string, string>,           // subnet pool by template
    groups: TenantGroups,
    natGroups: map<string, string>)           // NAT group by tenant

  function GroupsOf(groups: TenantGroups, tenant: string): map<string, GroupConfig> {
    if tenant in groups then groups[tenant] else map[]
  }

  /** The subnet pool of a template; a template that is missing has none. */
  function TemplatePool(cfg: Config, template: string): string {
    if template in cfg.templates then cfg.templates[template] else ""
  }
}
