/**
 Validation of subnet pools and of the pools NAT tenants own. The passes walk maps
 in arbitrary order and stop at the first fault; together they decide an order-free
 condition.
 */
module Subnets {
  import opened Common
  import opened Identifiers
  import opened ShardConfig

  // ----- the condition -----

  ghost predicate PoolOk(cfg: Config, key: string)
    requires key in cfg.subnetPools
  {
    Valid(key) && cfg.subnetPools[key] != [] && NoDup(cfg.subnetPools[key])
  }

  predicate Lists(cfg: Config, key: string, id: string) {
    key in cfg.subnetPools && id in cfg.subnetPools[key]
  }

  /** Pools have names and subnets, and no subnet is listed twice, in one pool or in two. */
  ghost predicate PoolsOk(cfg: Config) {
    && (forall k :: k in cfg.subnetPools ==> PoolOk(cfg, k))
    && (forall k, k', id :: Lists(cfg, k, id) && Lists(cfg, k', id) ==> k == k')
  }

  predicate Known(cfg: Config, pool: string) {
    pool == "" || pool in cfg.subnetPools
  }

  predicate IsGroup(cfg: Config, tenant: string, name: string) {
    tenant in cfg.groups && name in cfg.groups[tenant]
  }

  ghost predicate ReferencesOk(cfg: Config) {
    && (forall i :: 0 <= i < |cfg.dynamicSubnetPools| ==> cfg.dynamicSubnetPools[i] in cfg.subnetPools)
    && (forall t :: t in cfg.templates ==> Known(cfg, cfg.templates[t]))
    && (forall tenant, name :: IsGroup(cfg, tenant, name) ==> Known(cfg, cfg.groups[tenant][name].subnetPool))
  }

  /** The pool a group is placed in, its own or its template's. */
  function PoolOf(cfg: Config, g: GroupConfig): string {
    if g.subnetPool != "" then g.subnetPool else TemplatePool(cfg, g.template)
  }

  /** A group, not the tenant's NAT group, places instances in the pool. */
  predicate Places(cfg: Config, tenant: string, name: string, key: string) {
    && IsGroup(cfg, tenant, name) && !(tenant in cfg.natGroups && name == cfg.natGroups[tenant])
    && key != "" && PoolOf(cfg, cfg.groups[tenant][name]) == key
  }

  ghost predicate Uses(cfg: Config, tenant: string, key: string) {
    exists name :: Places(cfg, tenant, name, key)
  }

  /** ValidateDynamicSubnetKey: whether an outside request may name the pool. */
  predicate DynamicPoolAllowed(cfg: Config, key: string) {
    key == "" ||
    (Valid(key) && key in cfg.subnetPools && (cfg.dynamicSubnetPools == [] || key in cfg.dynamicSubnetPools))
  }

  /** What exclusive routing needs: a pool a NAT tenant uses is used by no other tenant. */
  ghost predicate Exclusive(cfg: Config) {
    forall t, t', key :: t in cfg.natGroups && Uses(cfg, t, key) && Uses(cfg, t', key) ==> t == t'
  }

  /** What the passes decide: the tenant with the empty name is only compared with other NAT tenants. */
  ghost predicate Checked(cfg: Config) {
    forall t, t', key :: t in cfg.natGroups && Uses(cfg, t, key) && Uses(cfg, t', key) && t != t' ==>
      t == "" && t' !in cfg.natGroups
  }

  ghost predicate Accepted(cfg: Config) {
    cfg.subnetPools != map[] && PoolsOk(cfg) && ReferencesOk(cfg) && Checked(cfg)
  }

  /** A tenant uses a pool through a group that names it, or names none and has a template that does. */
  lemma UsesMeans(cfg: Config, tenant: string, key: string)
    ensures Uses(cfg, tenant, key) <==>
      && key != "" && tenant in cfg.groups
      && exists name :: name in cfg.groups[tenant] && !(tenant in cfg.natGroups && cfg.natGroups[tenant] == name)
           && (|| cfg.groups[tenant][name].subnetPool == key
               || (&& cfg.groups[tenant][name].subnetPool == "" && cfg.groups[tenant][name].template in cfg.templates
                   && cfg.templates[cfg.groups[tenant][name].template] == key))
  {
    if Uses(cfg, tenant, key) {
      var name :| Places(cfg, tenant, name, key);
      assert name in cfg.groups[tenant];
    }
    if key != "" && tenant in cfg.groups {
      assert forall name :: name in cfg.groups[tenant] ==>
        (Places(cfg, tenant, name, key) <==>
         && PoolOf(cfg, cfg.groups[tenant][name]) == key
         && !(tenant in cfg.natGroups && cfg.natGroups[tenant] == name));
    }
  }

  /** In an accepted configuration the pools open to outside requests are those listed, or all if none is. */
  lemma AllowedPools(cfg: Config, key: string)
    requires Accepted(cfg)
    ensures DynamicPoolAllowed(cfg, key) <==>
      key == "" || (if cfg.dynamicSubnetPools == [] then key in cfg.subnetPools else key in cfg.dynamicSubnetPools)
  {
    assert key in cfg.subnetPools ==> PoolOk(cfg, key);
  }

  // ----- pools -----

  /** Records the subnets of one pool; None if one is already recorded. */
  method RecordPool(key: string, ids: seq<string>, owners: map<string, string>) returns (r: Option<map<string, string>>)
    ensures r.Some? <==> NoDup(ids) && forall i :: 0 <= i < |ids| ==> ids[i] !in owners
    ensures r.Some? ==> forall id :: id in r.value <==> id in owners || id in ids
  {
    var owners' := owners;
    for i := 0 to |ids|
      invariant NoDup(ids[..i]) && forall j :: 0 <= j < i ==> ids[j] !in owners
      invariant forall id :: id in owners' <==> id in owners || id in ids[..i]
    {
      if ids[i] in owners' {
        assert ids[i] in owners || exists j :: 0 <= j < i && ids[j] == ids[i];
        return None;
      }
      owners' := owners'[ids[i] := key];
    }
    assert ids[..|ids|] == ids;
    return Some(owners');
  }

  ghost predicate PoolsDone(cfg: Config, owners: map<string, string>, rest: set<string>) {
    && (forall k :: k in cfg.subnetPools && k !in rest ==> PoolOk(cfg, k))
    && (forall k, i :: k in cfg.subnetPools && k !in rest && 0 <= i < |cfg.subnetPools[k]| ==>
          cfg.subnetPools[k][i] in owners)
    && (forall id :: id in owners ==> exists k :: k !in rest && Lists(cfg, k, id))
    && (forall k, k', id :: k !in rest && k' !in rest && Lists(cfg, k, id) && Lists(cfg, k', id) ==> k == k')
  }

  lemma PoolAdded(cfg: Config, owners: map<string, string>, rest: set<string>, key: string,
                  owners': map<string, string>)
    requires PoolsDone(cfg, owners, rest) && key in rest && key in cfg.subnetPools && PoolOk(cfg, key)
    requires forall i :: 0 <= i < |cfg.subnetPools[key]| ==> cfg.subnetPools[key][i] !in owners
    requires forall id :: id in owners' <==> id in owners || id in cfg.subnetPools[key]
    ensures PoolsDone(cfg, owners', rest - {key})
  {
  }

  /** A subnet met again lies in two pools. */
  lemma PoolClashes(cfg: Config, owners: map<string, string>, rest: set<string>, key: string, i: nat)
    requires PoolsDone(cfg, owners, rest) && key in rest && key in cfg.subnetPools
    requires i < |cfg.subnetPools[key]| && cfg.subnetPools[key][i] in owners
    ensures !PoolsOk(cfg)
  {
    var id := cfg.subnetPools[key][i];
    var k :| k !in rest && Lists(cfg, k, id);
    assert Lists(cfg, key, id) && k != key;
  }

  method CheckPools(cfg: Config) returns (ok: bool)
    ensures ok <==> PoolsOk(cfg)
  {
    var owners: map<string, string>, rest := map[], cfg.subnetPools.Keys;
    assert PoolsDone(cfg, owners, rest);
    while rest != {}
      invariant rest <= cfg.subnetPools.Keys && PoolsDone(cfg, owners, rest)
      decreases |rest|
    {
      var key :| key in rest;
      var ids := cfg.subnetPools[key];
      if !Valid(key) || ids == [] {
        assert !PoolOk(cfg, key);
        return false;
      }
      hide PoolsDone, Valid;
      var next := RecordPool(key, ids, owners);
      if next.None? {
        if NoDup(ids) {
          var i :| 0 <= i < |ids| && ids[i] in owners;
          PoolClashes(cfg, owners, rest, key, i);
        } else {
          assert !PoolOk(cfg, key);
        }
        return false;
      }
      PoolAdded(cfg, owners, rest, key, next.value);
      owners, rest := next.value, rest - {key};
    }
    return true;
  }

  // ----- references -----

  /** Every pool named by the dynamic list, a template or a group exists. */
  method CheckReferences(cfg: Config) returns (ok: bool)
    requires PoolsOk(cfg)
    ensures ok <==> ReferencesOk(cfg)
  {
    hide PoolsOk;
    ok := CheckDynamicPools(cfg);
    if ok {
      ok := CheckTemplates(cfg);
    }
    if ok {
      ok := CheckGroupPools(cfg);
    }
  }

  method CheckDynamicPools(cfg: Config) returns (ok: bool)
    requires PoolsOk(cfg)
    ensures ok <==> forall i :: 0 <= i < |cfg.dynamicSubnetPools| ==> cfg.dynamicSubnetPools[i] in cfg.subnetPools
  {
    for i := 0 to |cfg.dynamicSubnetPools|
      invariant forall j :: 0 <= j < i ==> cfg.dynamicSubnetPools[j] in cfg.subnetPools
    {
      var key := cfg.dynamicSubnetPools[i];
      assert key in cfg.subnetPools ==> PoolOk(cfg, key);
      if !Valid(key) || key !in cfg.subnetPools {
        return false;
      }
    }
    return true;
  }

  method CheckTemplates(cfg: Config) returns (ok: bool)
    ensures ok <==> forall t :: t in cfg.templates ==> Known(cfg, cfg.templates[t])
  {
    var rest := cfg.templates.Keys;
    while rest != {}
      invariant rest <= cfg.templates.Keys
      invariant forall t :: t in cfg.templates && t !in rest ==> Known(cfg, cfg.templates[t])
      decreases |rest|
    {
      var t :| t in rest;
      if cfg.templates[t] != "" && cfg.templates[t] !in cfg.subnetPools {
        return false;
      }
      rest := rest - {t};
    }
    return true;
  }

  method CheckGroupPools(cfg: Config) returns (ok: bool)
    ensures ok <==> forall tenant, name :: IsGroup(cfg, tenant, name) ==>
      Known(cfg, cfg.groups[tenant][name].subnetPool)
  {
    var tenants := cfg.groups.Keys;
    while tenants != {}
      invariant tenants <= cfg.groups.Keys
      invariant forall tenant, name :: IsGroup(cfg, tenant, name) && tenant !in tenants ==>
        Known(cfg, cfg.groups[tenant][name].subnetPool)
      decreases |tenants|
    {
      var tenant :| tenant in tenants;
      var names := cfg.groups[tenant].Keys;
      while names != {}
        invariant names <= cfg.groups[tenant].Keys
        invariant forall name :: name in cfg.groups[tenant] && name !in names ==>
          Known(cfg, cfg.groups[tenant][name].subnetPool)
        decreases |names|
      {
        var name :| name in names;
        var pool := cfg.groups[tenant][name].subnetPool;
        if pool != "" && pool !in cfg.subnetPools {
          assert IsGroup(cfg, tenant, name);
          return false;
        }
        names := names - {name};
      }
      tenants := tenants - {tenant};
    }
    return true;
  }

  // ----- NAT ownership -----

  /** Claims the pools of one NAT tenant; None if another tenant owns one. */
  method ClaimTenant(cfg: Config, tenant: string, owned: map<string, string>) returns (r: Option<map<string, string>>)
    requires tenant in cfg.natGroups
    requires forall key :: key in owned ==> owned[key] != tenant
    ensures r.Some? <==> forall key :: key in owned ==> !Uses(cfg, tenant, key)
    ensures r.Some? ==> forall key :: key in r.value <==> key in owned || Uses(cfg, tenant, key)
    ensures r.Some? ==> forall key :: key in r.value ==> r.value[key] == if key in owned then owned[key] else tenant
  {
    var groups := GroupsOf(cfg.groups, tenant);
    var rest, owned' := groups.Keys, owned;
    while rest != {}
      invariant rest <= groups.Keys
      invariant forall name, key :: Places(cfg, tenant, name, key) && name !in rest ==> key in owned' && key !in owned
      invariant forall key :: key in owned' && key !in owned ==> Uses(cfg, tenant, key) && owned'[key] == tenant
      invariant forall key :: key in owned ==> key in owned' && owned'[key] == owned[key]
      decreases |rest|
    {
      var name :| name in rest;
      rest := rest - {name};
      if name != cfg.natGroups[tenant] {
        var key := groups[name].subnetPool;
        if key == "" {
          key := TemplatePool(cfg, groups[name].template);
        }
        if key != "" {
          assert Places(cfg, tenant, name, key);
          if key in owned' && owned'[key] != tenant {
            return None;
          }
          owned' := owned'[key := tenant];
        }
      }
    }
    return Some(owned');
  }

  /** `owned` tells which of the NAT tenants walked so far uses each pool. */
  ghost predicate Owned(cfg: Config, owned: map<string, string>, rest: set<string>) {
    && (forall key :: key in owned ==> owned[key] in cfg.natGroups && owned[key] !in rest && Uses(cfg, owned[key], key))
    && (forall t, key :: t in cfg.natGroups && t !in rest && Uses(cfg, t, key) ==> key in owned && owned[key] == t)
  }

  ghost predicate NatApart(cfg: Config) {
    forall t, t', key :: t in cfg.natGroups && t' in cfg.natGroups && Uses(cfg, t, key) && Uses(cfg, t', key) ==>
      t == t'
  }

  /** First pass: no two NAT tenants use one pool. */
  method ClaimPools(cfg: Config) returns (r: Option<map<string, string>>)
    ensures r.Some? <==> NatApart(cfg)
    ensures r.Some? ==> Owned(cfg, r.value, {})
  {
    hide Uses;
    var owned: map<string, string>, rest := map[], cfg.natGroups.Keys;
    while rest != {}
      invariant rest <= cfg.natGroups.Keys && Owned(cfg, owned, rest)
      decreases |rest|
    {
      var tenant :| tenant in rest;
      var next := ClaimTenant(cfg, tenant, owned);
      if next.None? {
        return None;
      }
      owned, rest := next.value, rest - {tenant};
    }
    return Some(owned);
  }

  /** Second pass over one tenant: none of its pools belongs to another, named, NAT tenant. */
  method CheckTenant(cfg: Config, tenant: string, owned: map<string, string>) returns (ok: bool)
    requires tenant in cfg.groups
    ensures ok <==> forall key :: Uses(cfg, tenant, key) && key in owned ==> owned[key] == "" || owned[key] == tenant
  {
    var groups := cfg.groups[tenant];
    var rest := groups.Keys;
    while rest != {}
      invariant rest <= groups.Keys
      invariant forall name, key :: Places(cfg, tenant, name, key) && name !in rest && key in owned ==>
        owned[key] == "" || owned[key] == tenant
      decreases |rest|
    {
      var name :| name in rest;
      rest := rest - {name};
      if !(tenant in cfg.natGroups && name == cfg.natGroups[tenant]) {
        var key := PoolOf(cfg, groups[name]);
        var owner := if key in owned then owned[key] else "";
        assert key != "" ==> Places(cfg, tenant, name, key);
        if key != "" && owner != "" && owner != tenant {
          return false;
        }
      }
    }
    return true;
  }

  ghost predicate OthersApart(cfg: Config, owned: map<string, string>, rest: set<string>) {
    forall t, key :: t in cfg.groups && t !in rest && Uses(cfg, t, key) && key in owned ==>
      owned[key] == "" || owned[key] == t
  }

  method CheckOthers(cfg: Config, owned: map<string, string>) returns (ok: bool)
    ensures ok <==> OthersApart(cfg, owned, {})
  {
    hide Uses;
    var rest := cfg.groups.Keys;
    while rest != {}
      invariant rest <= cfg.groups.Keys && OthersApart(cfg, owned, rest)
      decreases |rest|
    {
      var tenant :| tenant in rest;
      var apart := CheckTenant(cfg, tenant, owned);
      if !apart {
        return false;
      }
      rest := rest - {tenant};
    }
    return true;
  }

  /** The two passes decide the comparison of NAT tenants with each other and, if named, with everyone else. */
  lemma PassesDecide(cfg: Config, owned: map<string, string>)
    requires NatApart(cfg) && Owned(cfg, owned, {})
    ensures OthersApart(cfg, owned, {}) <==> Checked(cfg)
  {
  }

  /** Validates the subnet configuration: succeeds, in any map order, exactly on accepted configurations. */
  method ValidateSubnetConfig(cfg: Config) returns (ok: bool)
    ensures ok <==> Accepted(cfg)
  {
    hide PoolsOk, ReferencesOk, NatApart, Owned, OthersApart;
    if |cfg.subnetPools| == 0 {
      return false;
    }
    ok := CheckPools(cfg);
    if !ok {
      return;
    }
    ok := CheckReferences(cfg);
    if !ok {
      return;
    }
    var owned := ClaimPools(cfg);
    if owned.None? {
      NatClash(cfg);
      return false;
    }
    PassesDecide(cfg, owned.value);
    ok := CheckOthers(cfg, owned.value);
  }

  lemma NatClash(cfg: Config)
    requires !NatApart(cfg)
    ensures !Checked(cfg)
  {
  }

  /**
   Exclusivity holds of what is accepted exactly when no NAT tenant with the empty
   name shares a pool; tenant names are validated before, so it then always holds.
   */
  lemma AcceptedIsExclusive(cfg: Config)
    requires Checked(cfg)
    ensures Exclusive(cfg) <==>
      !("" in cfg.natGroups && exists t, key :: t !in cfg.natGroups && Uses(cfg, "", key) && Uses(cfg, t, key))
    ensures (forall t :: t in cfg.natGroups ==> Valid(t)) ==> Exclusive(cfg)
  {
  }

  const NAMELESS := Config(
    map["p" := ["subnet-1"]], [], map[],
    map["" := map["g" := NO_GROUP.(subnetPool := "p")], "t" := map["h" := NO_GROUP.(subnetPool := "p")]],
    map["" := "nat"])

  /** A NAT tenant with the empty name shares its pool unnoticed. */
  lemma NamelessTenantShares()
    ensures Accepted(NAMELESS) && !Exclusive(NAMELESS)
  {
    var cfg := NAMELESS;
    ValidIsWellSpelled("p");
    assert Places(cfg, "", "g", "p") && Places(cfg, "t", "h", "p");
    assert Uses(cfg, "", "p") && Uses(cfg, "t", "p");
    assert forall t, key :: Uses(cfg, t, key) ==> t == "" || t == "t";
    assert "p" in cfg.subnetPools;
  }
}
