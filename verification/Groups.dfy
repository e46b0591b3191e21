/**
 Static groups, dynamic groups and the overlay of the two. Upserts edit stored
 overrides, readers see the overlay; the two views stay in step.
 */
module Groups {
  import opened Common
  import opened ShardConfig
  import opened Identifiers
  import opened Subnets

  // ----- overlaying -----

  function OrElse(s: string, default: string): string {
    if s != "" then s else default
  }

  /** Size, instance type and vars of `over` where set, the rest from `base`. */
  function Overlay(base: GroupConfig, over: GroupConfig): GroupConfig {
    base.(size := if over.size.Some? then over.size else base.size,
          instanceType := OrElse(over.instanceType, base.instanceType),
          vars := base.vars + over.vars)
  }

  /** Everything an update of a dynamic group may set. */
  function OverlayAll(base: GroupConfig, over: GroupConfig): GroupConfig {
    Overlay(base, over).(template := OrElse(over.template, base.template),
                         subnetPool := OrElse(over.subnetPool, base.subnetPool),
                         args := base.args + over.args)
  }

  /** What readers see of one tenant. */
  ghost function Merged(fixed: map<string, GroupConfig>, dynamic: map<string, GroupConfig>): map<string, GroupConfig> {
    map key | key in fixed.Keys + dynamic.Keys ::
      if key !in dynamic then fixed[key]
      else if key in fixed then Overlay(fixed[key], dynamic[key])
      else dynamic[key]
  }

  lemma ExtendStep(base: map<string, string>, over: map<string, string>, rest: set<string>, k: string)
    requires k in rest && k in over
    ensures base + (over - (rest - {k})) == (base + (over - rest))[k := over[k]]
  {
  }

  /** Sets the entries of `over` one by one, as the loops over vars and args do. */
  method Extend(base: map<string, string>, over: map<string, string>) returns (r: map<string, string>)
    ensures r == base + over
  {
    r := base;
    var rest := over.Keys;
    assert base + (over - over.Keys) == base && over - {} == over;
    while rest != {}
      invariant rest <= over.Keys && r == base + (over - rest)
      decreases |rest|
    {
      var k :| k in rest;
      ExtendStep(base, over, rest, k);
      r := r[k := over[k]];
      rest := rest - {k};
    }
  }

  method OverlayGroup(base: GroupConfig, over: GroupConfig) returns (r: GroupConfig)
    ensures r == Overlay(base, over)
  {
    r := base;
    if over.size.Some? {
      r := r.(size := over.size);
    }
    if over.instanceType != "" {
      r := r.(instanceType := over.instanceType);
    }
    var vars := Extend(r.vars, over.vars);
    r := r.(vars := vars);
  }

  lemma MergedStep(fixed: map<string, GroupConfig>, dynamic: map<string, GroupConfig>, rest: set<string>, key: string)
    requires key in rest && key in dynamic
    ensures Merged(fixed, dynamic - (rest - {key})) ==
      Merged(fixed, dynamic - rest)[key := if key in fixed then Overlay(fixed[key], dynamic[key]) else dynamic[key]]
  {
  }

  lemma MergedEnds(fixed: map<string, GroupConfig>, dynamic: map<string, GroupConfig>)
    ensures Merged(fixed, dynamic - dynamic.Keys) == fixed && dynamic - {} == dynamic
  {
  }

  /** mergeGroups */
  method MergeGroups(fixed: map<string, GroupConfig>, dynamic: map<string, GroupConfig>)
    returns (merged: map<string, GroupConfig>)
    ensures merged == Merged(fixed, dynamic)
  {
    merged := fixed;
    var rest := dynamic.Keys;
    hide *;
    MergedEnds(fixed, dynamic);
    while rest != {}
      invariant rest <= dynamic.Keys && merged == Merged(fixed, dynamic - rest)
      decreases |rest|
    {
      var key :| key in rest;
      var group := dynamic[key];
      if key in fixed {
        group := OverlayGroup(fixed[key], group);
      }
      MergedStep(fixed, dynamic, rest, key);
      merged := merged[key := group];
      rest := rest - {key};
    }
  }

  /** mergeGroupConfig: what is stored after an update. */
  method MergeGroupConfig(existing: GroupConfig, update: GroupConfig, isStaticGroup: bool) returns (r: GroupConfig)
    ensures r == if isStaticGroup then Overlay(existing, update) else OverlayAll(existing, update)
  {
    r := OverlayGroup(existing, update);
    if !isStaticGroup && update.template != "" {
      r := r.(template := update.template);
    }
    if !isStaticGroup && update.subnetPool != "" {
      r := r.(subnetPool := update.subnetPool);
    }
    if !isStaticGroup {
      var args := Extend(r.args, update.args);
      r := r.(args := args);
    }
  }

  // ----- operations on the store -----

  datatype Op = Upsert(tenant: string, key: string, group: GroupConfig) | Delete(tenant: string, key: string)

  predicate Static(cfg: Config, tenant: string, key: string) {
    key in GroupsOf(cfg.groups, tenant)
  }

  predicate Stored(store: TenantGroups, tenant: string, key: string) {
    key in GroupsOf(store, tenant)
  }

  /** A new dynamic group without a pool takes its template's. */
  function Filled(cfg: Config, known: bool, op: Op): GroupConfig
    requires op.Upsert?
  {
    if !Static(cfg, op.tenant, op.key) && !known && op.group.subnetPool == ""
    then op.group.(subnetPool := TemplatePool(cfg, op.group.template))
    else op.group
  }

  /** The requests that are taken, given whether the group exists already. */
  ghost predicate Taken(cfg: Config, known: bool, op: Op) {
    && op.tenant != ""
    && (op.Upsert? ==>
          if Static(cfg, op.tenant, op.key) then
            && (op.group.template == "" || op.group.template == cfg.groups[op.tenant][op.key].template)
            && op.group.subnetPool == "" && op.group.args == map[] && op.group.drainTimeout.None?
          else
            && (known || (op.group.template != "" && Filled(cfg, known, op).subnetPool != ""))
            && DynamicPoolAllowed(cfg, Filled(cfg, known, op).subnetPool))
  }

  function Put(store: TenantGroups, tenant: string, key: string, group: GroupConfig): TenantGroups {
    store[tenant := GroupsOf(store, tenant)[key := group]]
  }

  function Remove(store: TenantGroups, tenant: string, key: string): TenantGroups {
    var groups := GroupsOf(store, tenant) - {key};
    if tenant !in store then store
    else if key !in store[tenant] then store
    else if groups == map[] then store - {tenant}
    else store[tenant := groups]
  }

  /** The stored overrides after a request; a refused one changes nothing. */
  ghost function After(cfg: Config, store: TenantGroups, op: Op): TenantGroups {
    var stored := Stored(store, op.tenant, op.key);
    if !Taken(cfg, stored, op) then store
    else match op
      case Upsert(tenant, key, _) =>
        var existing := if stored then store[tenant][key] else NO_GROUP;
        var group := Filled(cfg, stored, op);
        Put(store, tenant, key,
            if Static(cfg, tenant, key) then Overlay(existing, group) else OverlayAll(existing, group))
      case Delete(tenant, key) => Remove(store, tenant, key)
  }

  /** The loader: a fixed configuration and the stored dynamic groups. */
  class Loader {
    const config: Config
    var groups: TenantGroups

    constructor (config: Config, groups: TenantGroups)
      ensures this.config == config && this.groups == groups
    {
      this.config, this.groups := config, groups;
    }

    /** Creates or updates a group; `written` says whether storage takes the write. */
    method UpsertGroup(tenant: string, key: string, group: GroupConfig, written: bool) returns (ok: bool)
      modifies this
      ensures ok <==> written && Taken(config, Stored(old(groups), tenant, key), Upsert(tenant, key, group))
      ensures groups == if written then After(config, old(groups), Upsert(tenant, key, group)) else old(groups)
    {
      if tenant == "" {
        return false;
      }
      var isStatic, isStored := Static(config, tenant, key), Stored(groups, tenant, key);
      var update := group;
      if isStatic {
        if (group.template != "" && group.template != config.groups[tenant][key].template) ||
           group.subnetPool != "" || group.args != map[] || group.drainTimeout.Some?
        {
          return false;
        }
      } else if !isStored {
        if group.template == "" {
          return false;
        }
        if group.subnetPool == "" {
          if group.template !in config.templates || config.templates[group.template] == "" {
            return false;
          }
          update := group.(subnetPool := config.templates[group.template]);
        }
      }
      if !isStatic && !DynamicPoolAllowed(config, update.subnetPool) {
        return false;
      }
      var existing := if isStored then groups[tenant][key] else NO_GROUP;
      var next := MergeGroupConfig(existing, update, isStatic);
      if !written {
        return false;
      }
      groups := Put(groups, tenant, key, next);
      return true;
    }

    /** Removes a dynamic group, or the overrides of a static one. */
    method DeleteGroup(tenant: string, key: string, written: bool) returns (ok: bool)
      modifies this
      ensures groups == if ok then After(config, old(groups), Delete(tenant, key)) else old(groups)
      ensures ok <==> tenant != "" && (written || !Stored(old(groups), tenant, key))
    {
      if tenant == "" {
        return false;
      }
      if tenant !in groups || key !in groups[tenant] {
        return true;
      }
      if !written {
        return false;
      }
      groups := Remove(groups, tenant, key);
      return true;
    }

    /** The groups of a tenant as readers see them. */
    method GetGroups(tenant: string) returns (r: Option<map<string, GroupConfig>>)
      ensures r == if tenant == "" then None else Some(View(config, groups, tenant))
    {
      if tenant == "" {
        return None;
      }
      var merged := MergeGroups(GroupsOf(config.groups, tenant), GroupsOf(groups, tenant));
      return Some(merged);
    }
  }

  // ----- the readers' view under requests -----

  ghost function View(cfg: Config, store: TenantGroups, tenant: string): map<string, GroupConfig> {
    Merged(GroupsOf(cfg.groups, tenant), GroupsOf(store, tenant))
  }

  /** A request applied to the view alone: new groups start empty, deleted ones fall back to the static group. */
  ghost function ViewAfter(cfg: Config, tenant: string, view: map<string, GroupConfig>, op: Op): map<string,
                           GroupConfig> {
    if op.tenant != tenant || !Taken(cfg, op.key in view, op) then view
    else match op
      case Upsert(_, key, _) =>
        var seen := if key in view then view[key] else NO_GROUP;
        var group := Filled(cfg, key in view, op);
        view[key := if Static(cfg, tenant, key) then Overlay(seen, group) else OverlayAll(seen, group)]
      case Delete(_, key) =>
        if Static(cfg, tenant, key) then view[key := cfg.groups[tenant][key]] else view - {key}
  }

  /** The store after a run of requests. */
  ghost function Run(cfg: Config, store: TenantGroups, ops: seq<Op>): TenantGroups
    decreases |ops|
  {
    if ops == [] then store else Run(cfg, After(cfg, store, ops[0]), ops[1..])
  }

  ghost function ViewRun(cfg: Config, tenant: string, view: map<string, GroupConfig>, ops: seq<Op>): map<string,
                         GroupConfig>
    decreases |ops|
  {
    if ops == [] then view else ViewRun(cfg, tenant, ViewAfter(cfg, tenant, view, ops[0]), ops[1..])
  }

  /** An override laid over an override is laid over the static group. */
  lemma OverlayAssociates(a: GroupConfig, b: GroupConfig, c: GroupConfig)
    ensures Overlay(a, Overlay(b, c)) == Overlay(Overlay(a, b), c)
    ensures Overlay(a, Overlay(NO_GROUP, c)) == Overlay(a, c)
  {
    assert a.vars + (b.vars + c.vars) == (a.vars + b.vars) + c.vars;
    assert a.vars + (map[] + c.vars) == a.vars + c.vars;
  }

  lemma OtherTenant(cfg: Config, store: TenantGroups, op: Op, tenant: string)
    requires op.tenant != tenant
    ensures GroupsOf(After(cfg, store, op), tenant) == GroupsOf(store, tenant)
  {
  }

  /** A group that is not static is in the view just when it is stored, so the view decides which requests are taken. */
  lemma SameTaken(cfg: Config, store: TenantGroups, op: Op)
    ensures var stored, seen := Stored(store, op.tenant, op.key), op.key in View(cfg, store, op.tenant);
      && (Taken(cfg, stored, op) <==> Taken(cfg, seen, op))
      && (op.Upsert? ==> Filled(cfg, stored, op) == Filled(cfg, seen, op))
  {
  }

  lemma PutSeen(cfg: Config, store: TenantGroups, tenant: string, key: string, group: GroupConfig)
    ensures View(cfg, Put(store, tenant, key, group), tenant) ==
      View(cfg, store, tenant)[
        key := if Static(cfg, tenant, key) then Overlay(cfg.groups[tenant][key], group) else group]
  {
  }

  lemma UpsertSeen(cfg: Config, store: TenantGroups, op: Op)
    requires op.Upsert?
    ensures View(cfg, After(cfg, store, op), op.tenant) == ViewAfter(cfg, op.tenant, View(cfg, store, op.tenant), op)
  {
    var tenant, key, stored := op.tenant, op.key, Stored(store, op.tenant, op.key);
    SameTaken(cfg, store, op);
    hide Taken, Filled;
    if Taken(cfg, stored, op) {
      var existing := if stored then store[tenant][key] else NO_GROUP;
      var group := Filled(cfg, stored, op);
      if Static(cfg, tenant, key) {
        OverlayAssociates(cfg.groups[tenant][key], existing, group);
        hide Overlay;
        PutSeen(cfg, store, tenant, key, Overlay(existing, group));
      } else {
        hide OverlayAll;
        PutSeen(cfg, store, tenant, key, OverlayAll(existing, group));
      }
    }
  }

  lemma DeleteSeen(cfg: Config, store: TenantGroups, op: Op)
    requires op.Delete?
    ensures View(cfg, After(cfg, store, op), op.tenant) == ViewAfter(cfg, op.tenant, View(cfg, store, op.tenant), op)
  {
  }

  /** Storing a request and then merging shows what applying it to the merged view shows. */
  lemma StepSeen(cfg: Config, store: TenantGroups, op: Op, tenant: string)
    ensures View(cfg, After(cfg, store, op), tenant) == ViewAfter(cfg, tenant, View(cfg, store, tenant), op)
  {
    if op.tenant != tenant {
      OtherTenant(cfg, store, op, tenant);
    } else if op.Upsert? {
      UpsertSeen(cfg, store, op);
    } else {
      DeleteSeen(cfg, store, op);
    }
  }

  /** The overlay is a homomorphism: over any run, from any store, the two views agree. */
  lemma {:induction false} RunSeen(cfg: Config, store: TenantGroups, ops: seq<Op>, tenant: string)
    ensures View(cfg, Run(cfg, store, ops), tenant) == ViewRun(cfg, tenant, View(cfg, store, tenant), ops)
    decreases |ops|
  {
    if ops != [] {
      StepSeen(cfg, store, ops[0], tenant);
      RunSeen(cfg, After(cfg, store, ops[0]), ops[1..], tenant);
    }
  }

  /** Whatever is requested, a static group stays and keeps all but its size, instance type and vars. */
  lemma StaticFieldsKept(cfg: Config, store: TenantGroups, ops: seq<Op>, tenant: string, key: string)
    requires Static(cfg, tenant, key)
    ensures var view := ViewRun(cfg, tenant, View(cfg, store, tenant), ops); var group := cfg.groups[tenant][key];
      key in view && view[key] ==
        group.(size := view[key].size, instanceType := view[key].instanceType, vars := view[key].vars)
  {
    RunSeen(cfg, store, ops, tenant);
  }

  /** Every dynamic-only group names a template and a pool outside requests may use. */
  ghost predicate DynamicSound(cfg: Config, store: TenantGroups) {
    forall tenant, key :: Stored(store, tenant, key) && !Static(cfg, tenant, key) ==>
      GroupSound(cfg, store[tenant][key])
  }

  ghost predicate GroupSound(cfg: Config, group: GroupConfig) {
    group.template != "" && group.subnetPool != "" && DynamicPoolAllowed(cfg, group.subnetPool)
  }

  lemma PutKeepsSound(cfg: Config, store: TenantGroups, tenant: string, key: string, group: GroupConfig)
    requires DynamicSound(cfg, store) && (!Static(cfg, tenant, key) ==> GroupSound(cfg, group))
    ensures DynamicSound(cfg, Put(store, tenant, key, group))
  {
    hide DynamicPoolAllowed;
  }

  lemma RemoveKeepsSound(cfg: Config, store: TenantGroups, tenant: string, key: string)
    requires DynamicSound(cfg, store)
    ensures DynamicSound(cfg, Remove(store, tenant, key))
  {
    hide DynamicPoolAllowed;
  }

  lemma StepKeepsSound(cfg: Config, store: TenantGroups, op: Op)
    requires DynamicSound(cfg, store)
    ensures DynamicSound(cfg, After(cfg, store, op))
  {
    var stored := Stored(store, op.tenant, op.key);
    if Taken(cfg, stored, op) {
      if op.Delete? {
        RemoveKeepsSound(cfg, store, op.tenant, op.key);
      } else {
        var existing, group := if stored then store[op.tenant][op.key] else NO_GROUP, Filled(cfg, stored, op);
        assert stored && !Static(cfg, op.tenant, op.key) ==> GroupSound(cfg, existing);
        hide DynamicSound, DynamicPoolAllowed, Put;
        PutKeepsSound(cfg, store, op.tenant, op.key,
                      if Static(cfg, op.tenant, op.key) then Overlay(existing, group) else OverlayAll(existing, group));
      }
    }
  }

  /** So they do after any run from a store where they did, the empty one for instance. */
  lemma {:induction false} RunKeepsSound(cfg: Config, store: TenantGroups, ops: seq<Op>)
    requires DynamicSound(cfg, store)
    ensures DynamicSound(cfg, Run(cfg, store, ops))
    decreases |ops|
  {
    if ops != [] {
      StepKeepsSound(cfg, store, ops[0]);
      RunKeepsSound(cfg, After(cfg, store, ops[0]), ops[1..]);
    }
  }

  // ----- which fields an update keeps -----

  /** Every field that `update` sets is in `group`. */
  ghost predicate HasAllSet(update: GroupConfig, group: GroupConfig) {
    && (update.template != "" ==> group.template == update.template)
    && (update.size.Some? ==> group.size == update.size)
    && (update.instanceType != "" ==> group.instanceType == update.instanceType)
    && (update.subnetPool != "" ==> group.subnetPool == update.subnetPool)
    && (forall k :: k in update.vars ==> k in group.vars && group.vars[k] == update.vars[k])
    && (forall k :: k in update.args ==> k in group.args && group.args[k] == update.args[k])
    && (update.drainTimeout.Some? ==> group.drainTimeout == update.drainTimeout)
    && (update.loadBalancers != [] ==> group.loadBalancers == update.loadBalancers)
  }

  /** The update asks for no other drain timeout and no other load balancers than the group has. */
  predicate ExtrasAgree(update: GroupConfig, group: GroupConfig) {
    && (update.drainTimeout.None? || update.drainTimeout == group.drainTimeout)
    && (update.loadBalancers == [] || update.loadBalancers == group.loadBalancers)
  }

  /** What a reader saw of the group a request is about. */
  ghost function SeenBefore(cfg: Config, store: TenantGroups, op: Op): GroupConfig {
    var view := View(cfg, store, op.tenant);
    if op.key in view then view[op.key] else NO_GROUP
  }

  /**
   A taken update shows in every field it sets if and only if the drain timeout and
   the load balancers it sets, if any, are those the group had: these two are never merged.
   */
  lemma UpdateShowsUnlessExtras(cfg: Config, store: TenantGroups, op: Op)
    requires op.Upsert? && Taken(cfg, Stored(store, op.tenant, op.key), op)
    ensures var view := View(cfg, After(cfg, store, op), op.tenant);
      && op.key in view
      && (HasAllSet(op.group, view[op.key]) <==> ExtrasAgree(op.group, SeenBefore(cfg, store, op)))
  {
    StepSeen(cfg, store, op, op.tenant);
    SameTaken(cfg, store, op);
    StaticSeen(cfg, store, op.tenant, op.key);
  }

  /** The entries set are there, those not set are as they were, and there are no others. */
  ghost predicate EntriesKept(before: map<string, string>, given: map<string, string>, after: map<string, string>) {
    && (forall k :: k in given ==> k in after && after[k] == given[k])
    && (forall k :: k in before && k !in given ==> k in after && after[k] == before[k])
    && (forall k :: k in after ==> k in before || k in given)
  }

  /** What an update does not set is as it was; drain timeout and load balancers are in any case. */
  ghost predicate RestKept(before: GroupConfig, update: GroupConfig, after: GroupConfig) {
    && (update.size.None? ==> after.size == before.size)
    && (update.instanceType == "" ==> after.instanceType == before.instanceType)
    && (update.template == "" ==> after.template == before.template)
    && EntriesKept(before.vars, update.vars, after.vars) && EntriesKept(before.args, update.args, after.args)
    && after.drainTimeout == before.drainTimeout && after.loadBalancers == before.loadBalancers
  }

  /**
   A taken update changes nothing that readers see but what it sets: no other field, no other entry
   of vars and args, and no other group. A group that is new starts out empty, in the pool the update
   names or else in its template's.
   */
  lemma UpdateKeepsRest(cfg: Config, store: TenantGroups, op: Op)
    requires op.Upsert? && Taken(cfg, Stored(store, op.tenant, op.key), op)
    ensures var before, after := View(cfg, store, op.tenant), View(cfg, After(cfg, store, op), op.tenant);
      && op.key in after && after == before[op.key := after[op.key]]
      && if op.key in before then
           && RestKept(before[op.key], op.group, after[op.key])
           && (op.group.subnetPool == "" ==> after[op.key].subnetPool == before[op.key].subnetPool)
         else
           && RestKept(GroupConfig("", None, "", "", map[], map[], None, []), op.group, after[op.key])
           && (op.group.subnetPool == "" ==>
                 op.group.template in cfg.templates && after[op.key].subnetPool == cfg.templates[op.group.template])
  {
    hide View, After, DynamicPoolAllowed, Overlay, OverlayAll, RestKept;
    StepSeen(cfg, store, op, op.tenant);
    SameTaken(cfg, store, op);
    StaticSeen(cfg, store, op.tenant, op.key);
    var before := View(cfg, store, op.tenant);
    var seen := if op.key in before then before[op.key] else NO_GROUP;
    OverlayKeeps(seen, Filled(cfg, op.key in before, op), op.group, Static(cfg, op.tenant, op.key));
  }

  lemma OverlayKeeps(base: GroupConfig, over: GroupConfig, update: GroupConfig, isStatic: bool)
    requires over == update.(subnetPool := over.subnetPool)
    requires isStatic ==> update.args == map[] && (update.template == "" || update.template == base.template)
    ensures var after := if isStatic then Overlay(base, over) else OverlayAll(base, over);
      && RestKept(base, update, after)
      && after.subnetPool == if isStatic || over.subnetPool == "" then base.subnetPool else over.subnetPool
  {
  }

  /** What readers see of groups that only one side has, and of the others after a delete. */
  lemma OneSideSeen(cfg: Config, store: TenantGroups, tenant: string, key: string)
    ensures key in View(cfg, store, tenant) <==> Static(cfg, tenant, key) || Stored(store, tenant, key)
    ensures Static(cfg, tenant, key) && !Stored(store, tenant, key) ==>
      View(cfg, store, tenant)[key] == cfg.groups[tenant][key]
    ensures !Static(cfg, tenant, key) && Stored(store, tenant, key) ==>
      View(cfg, store, tenant)[key] == store[tenant][key]
    ensures tenant != "" ==>
      var before, after := View(cfg, store, tenant), View(cfg, After(cfg, store, Delete(tenant, key)), tenant);
      after == if Static(cfg, tenant, key) then before[key := cfg.groups[tenant][key]] else before - {key}
  {
    StepSeen(cfg, store, Delete(tenant, key), tenant);
  }

  /**
   Which updates of a dynamic group are taken: those after which it would name a template and a
   pool outside requests may use, given that it did so before.
   */
  lemma TakenIfSound(cfg: Config, store: TenantGroups, op: Op)
    requires op.Upsert? && op.tenant != "" && !Static(cfg, op.tenant, op.key)
    requires Stored(store, op.tenant, op.key) ==> GroupSound(cfg, store[op.tenant][op.key])
    ensures var before := if Stored(store, op.tenant, op.key) then Some(store[op.tenant][op.key]) else None;
      Taken(cfg, Stored(store, op.tenant, op.key), op) <==>
        exists after :: GroupSound(cfg, after) && Wanted(cfg, before, op.group, after)
  {
    var stored := Stored(store, op.tenant, op.key);
    var before := if stored then Some(store[op.tenant][op.key]) else None;
    hide DynamicPoolAllowed;
    if Taken(cfg, stored, op) {
      var after := OverlayAll(if stored then store[op.tenant][op.key] else NO_GROUP, Filled(cfg, stored, op));
      assert GroupSound(cfg, after) && Wanted(cfg, before, op.group, after);
    }
  }

  /** Of a static group, those that set size, instance type, vars and load balancers only, or its own template again. */
  lemma StaticTaken(cfg: Config, op: Op, known: bool)
    requires op.Upsert? && op.tenant != "" && Static(cfg, op.tenant, op.key)
    ensures Taken(cfg, known, op) <==>
      exists template :: template in {"", cfg.groups[op.tenant][op.key].template}
        && op.group == GroupConfig(template, op.group.size, op.group.instanceType, "", op.group.vars, map[], None,
                                   op.group.loadBalancers)
  {
  }

  /** The template and the pool an update asks for, or those there are: of a new group, its template's pool. */
  predicate Wanted(cfg: Config, before: Option<GroupConfig>, update: GroupConfig, after: GroupConfig) {
    && after.template == (if update.template != "" || before.None? then update.template else before.value.template)
    && after.subnetPool ==
       (if update.subnetPool != "" then update.subnetPool
        else if before.Some? then before.value.subnetPool
        else if update.template in cfg.templates then cfg.templates[update.template] else "")
  }

  lemma StaticSeen(cfg: Config, store: TenantGroups, tenant: string, key: string)
    ensures Static(cfg, tenant, key) ==>
      key in View(cfg, store, tenant) && View(cfg, store, tenant)[key].template == cfg.groups[tenant][key].template
  {
  }

  /** For a dynamic group the two are not even stored. */
  lemma DynamicExtrasDropped(cfg: Config, store: TenantGroups, op: Op)
    requires op.Upsert? && !Static(cfg, op.tenant, op.key)
    ensures After(cfg, store, op) ==
      After(cfg, store, op.(group := op.group.(drainTimeout := None, loadBalancers := [])))
  {
  }

  const ONE_POOL := Config(map["p" := ["subnet-1"]], [], map["t" := "p"], map[], map[])

  /** A new group that asks for a drain timeout is taken and does not get one. */
  lemma DrainTimeoutLost()
    ensures var op := Upsert("tenant", "g", NO_GROUP.(template := "t", drainTimeout := Some(60)));
      && Taken(ONE_POOL, false, op)
      && var view := View(ONE_POOL, After(ONE_POOL, map[], op), "tenant");
      && "g" in view && view["g"].template == "t" && view["g"].drainTimeout.None?
  {
    var op := Upsert("tenant", "g", NO_GROUP.(template := "t", drainTimeout := Some(60)));
    ValidIsWellSpelled("p");
    assert Filled(ONE_POOL, false, op).subnetPool == "p";
    UpdateShowsUnlessExtras(ONE_POOL, map[], op);
    StepSeen(ONE_POOL, map[], op, "tenant");
  }

  /** Deleting a group takes back the upsert that first stored it. */
  lemma DeleteUndoesUpsert(cfg: Config, store: TenantGroups, op: Op, tenant: string)
    requires op.Upsert? && !Stored(store, op.tenant, op.key)
    ensures View(cfg, After(cfg, After(cfg, store, op), Delete(op.tenant, op.key)), tenant) == View(cfg, store, tenant)
  {
    StepSeen(cfg, store, op, tenant);
    StepSeen(cfg, After(cfg, store, op), Delete(op.tenant, op.key), tenant);
    hide Overlay, OverlayAll, Filled, DynamicPoolAllowed;
  }
}
