/**
 How a server works out its proxy's listeners from the balancers its groups name. Every
 map is walked in arbitrary order; which configurations are accepted, and the
 listeners they give, do not depend on it.
 */
module ProxyDerivation {
  import opened Common
  import opened Strings
  import opened HostPort
  import opened ProxyRouting

  datatype PortPair = PortPair(targetPort: int, proxyPort: int)
  datatype Address = Address(ip: string, port: int)

  datatype LoadBalancer = LoadBalancer(
    provider: string, targetGroups: seq<PortPair>, frontends: seq<Address>, listeners: seq<PortPair>)

  /** What the derivation reads: the balancers each tenant's groups name, the balancers, and the server's own ports. */
  datatype ServerConfig = ServerConfig(
    groups: map<string, map<string, seq<string>>>,
    loadBalancers: map<string, LoadBalancer>,
    serverPorts: set<int>)

  /** One entry of a load balancer that becomes a listener. */
  datatype Item = Item(lb: string, index: nat, exclusive: bool, ip: string, targetPort: int, port: int)

  function PairItems(lb: string, pairs: seq<PortPair>): seq<Item> {
    seq(|pairs|, i requires 0 <= i < |pairs| => Item(lb, i, true, "", pairs[i].targetPort, pairs[i].proxyPort))
  }

  function AddressItems(lb: string, frontends: seq<Address>): seq<Item> {
    seq(|frontends|, i requires 0 <= i < |frontends| =>
      Item(lb, i, false, frontends[i].ip, frontends[i].port, frontends[i].port))
  }

  function Items(name: string, lb: LoadBalancer): (r: seq<Item>)
    ensures forall i :: 0 <= i < |r| ==> r[i].lb == name && r[i].index == i
  {
    if lb.provider == "aws" then PairItems(name, lb.targetGroups)
    else if lb.provider == "tunnel" then PairItems(name, lb.listeners)
    else if lb.provider == "google" then AddressItems(name, lb.frontends)
    else []
  }

  ghost predicate IsItem(cfg: ServerConfig, s: Item) {
    s.lb in cfg.loadBalancers && s in Items(s.lb, cfg.loadBalancers[s.lb])
  }

  predicate Google(s: Item, port: int) {
    !s.exclusive && s.port == port
  }

  /** More than one Google frontend uses the port. */
  ghost predicate Shared(cfg: ServerConfig, port: int) {
    exists s, s' :: IsItem(cfg, s) && IsItem(cfg, s') && s != s' && Google(s, port) && Google(s', port)
  }

  function FrontendText(shared: bool, s: Item): string {
    if !s.exclusive && shared then s.ip else ""
  }

  function KeyText(shared: bool, s: Item): string {
    if !s.exclusive && shared then s.lb + "/" + JoinHostPort(s.ip, s.port) else s.lb + ":" + Itoa(s.port)
  }

  ghost function FrontendOf(cfg: ServerConfig, s: Item): string {
    FrontendText(Shared(cfg, s.port), s)
  }

  ghost function KeyOf(cfg: ServerConfig, s: Item): string {
    KeyText(Shared(cfg, s.port), s)
  }

  // ----- the order-free specification -----

  predicate IsRef(cfg: ServerConfig, tenant: string, group: string, lb: string) {
    tenant in cfg.groups && group in cfg.groups[tenant] && lb in cfg.groups[tenant][group]
  }

  ghost predicate References(cfg: ServerConfig, tenant: string, lb: string) {
    exists group :: IsRef(cfg, tenant, group, lb)
  }

  ghost predicate RefsKnown(cfg: ServerConfig) {
    forall tenant, group, lb :: IsRef(cfg, tenant, group, lb) ==> lb in cfg.loadBalancers
  }

  ghost predicate OneTenant(cfg: ServerConfig, lb: string) {
    exists tenant :: References(cfg, tenant, lb) && forall other :: References(cfg, other, lb) ==> other == tenant
  }

  /** Two items may share a port only as Google frontends of different addresses; their keys differ. */
  ghost predicate Apart(cfg: ServerConfig, s: Item, s': Item) {
    && (s.port == s'.port ==> !s.exclusive && !s'.exclusive && s.ip != s'.ip)
    && KeyOf(cfg, s) != KeyOf(cfg, s')
  }

  ghost predicate ItemsFit(cfg: ServerConfig, seen: set<Item>) {
    && (forall s :: s in seen ==> s.port !in cfg.serverPorts)
    && (forall s, s' :: s in seen && s' in seen && s != s' ==> Apart(cfg, s, s'))
  }

  ghost predicate Accepted(cfg: ServerConfig) {
    && RefsKnown(cfg)
    && (forall lb :: lb in cfg.loadBalancers ==> OneTenant(cfg, lb))
    && (forall s :: IsItem(cfg, s) ==> s.port !in cfg.serverPorts)
    && (forall s, s' :: IsItem(cfg, s) && IsItem(cfg, s') && s != s' ==> Apart(cfg, s, s'))
  }

  /** The groups of a tenant that reference a balancer, sorted. */
  ghost predicate GroupsListed(cfg: ServerConfig, tenant: string, lb: string, groups: seq<string>) {
    NoDup(groups) && Sorted(groups) && forall g :: g in groups <==> IsRef(cfg, tenant, g, lb)
  }

  ghost predicate ListenerFor(cfg: ServerConfig, s: Item, l: Listener) {
    && l.targetPort == s.targetPort && l.proxyPort == s.port && l.frontendIP == FrontendOf(cfg, s)
    && References(cfg, l.tenant, s.lb) && GroupsListed(cfg, l.tenant, s.lb, l.groups)
  }

  /** Exactly one listener for each item, under its key. */
  ghost predicate Derived(cfg: ServerConfig, listeners: Config) {
    && (forall s :: IsItem(cfg, s) ==> KeyOf(cfg, s) in listeners && ListenerFor(cfg, s, listeners[KeyOf(cfg, s)]))
    && (forall k :: k in listeners ==> exists s :: IsItem(cfg, s) && KeyOf(cfg, s) == k)
  }

  // ----- references -----

  datatype Ref = Ref(tenant: string, group: string, lb: string)

  /** Groups by balancer and tenant. */
  type Refs = map<string, map<string, seq<string>>>

  function Tenants(refs: Refs, lb: string): map<string, seq<string>> {
    if lb in refs then refs[lb] else map[]
  }

  function GroupList(refs: Refs, lb: string, tenant: string): seq<string> {
    if tenant in Tenants(refs, lb) then Tenants(refs, lb)[tenant] else []
  }

  ghost predicate RefsAre(refs: Refs, seen: set<Ref>) {
    && (forall lb, t, g :: g in GroupList(refs, lb, t) <==> Ref(t, g, lb) in seen)
    && (forall lb, t :: NoDup(GroupList(refs, lb, t)))
    && (forall lb, t :: t in Tenants(refs, lb) ==> GroupList(refs, lb, t) != [])
  }

  function AddRef(refs: Refs, r: Ref): Refs {
    var groups := GroupList(refs, r.lb, r.tenant);
    if r.group in groups then refs
    else refs[r.lb := Tenants(refs, r.lb)[r.tenant := groups + [r.group]]]
  }

  lemma AddRefAdds(refs: Refs, seen: set<Ref>, r: Ref)
    requires RefsAre(refs, seen)
    ensures RefsAre(AddRef(refs, r), seen + {r})
  {
    var refs' := AddRef(refs, r);
    assert forall lb, t :: lb != r.lb || t != r.tenant ==> GroupList(refs', lb, t) == GroupList(refs, lb, t);
  }

  ghost predicate RefsVisited(cfg: ServerConfig, seen: set<Ref>, restTenants: set<string>) {
    forall r :: r in seen <==> IsRef(cfg, r.tenant, r.group, r.lb) && r.tenant !in restTenants
  }

  ghost function NamedRefs(tenant: string, group: string, names: seq<string>): set<Ref> {
    set lb | lb in names :: Ref(tenant, group, lb)
  }

  /** What has been seen once the first `i` names are recorded. */
  ghost function RefsAfter(seen: set<Ref>, tenant: string, group: string, names: seq<string>, i: nat): set<Ref>
    requires i <= |names|
  {
    seen + NamedRefs(tenant, group, names[..i])
  }

  lemma RefsAfterStep(seen: set<Ref>, tenant: string, group: string, names: seq<string>, i: nat)
    requires i < |names|
    ensures RefsAfter(seen, tenant, group, names, i + 1) ==
      RefsAfter(seen, tenant, group, names, i) + {Ref(tenant, group, names[i])}
  {
  }

  lemma RefsAfterAll(seen: set<Ref>, tenant: string, group: string, names: seq<string>)
    ensures RefsAfter(seen, tenant, group, names, 0) == seen
    ensures RefsAfter(seen, tenant, group, names, |names|) == seen + NamedRefs(tenant, group, names)
  {
  }

  /** Records names one by one; None at the first that is unknown. */
  method RecordNames(known: set<string>, tenant: string, group: string, names: seq<string>, refs: Refs,
                     ghost seen: set<Ref>)
    returns (r: Option<Refs>)
    requires RefsAre(refs, seen)
    ensures r.Some? <==> forall i :: 0 <= i < |names| ==> names[i] in known
    ensures r.Some? ==> RefsAre(r.value, RefsAfter(seen, tenant, group, names, |names|))
  {
    var refs' := refs;
    hide *;
    RefsAfterAll(seen, tenant, group, names);
    for i := 0 to |names|
      invariant RefsAre(refs', RefsAfter(seen, tenant, group, names, i))
      invariant forall j :: 0 <= j < i ==> names[j] in known
    {
      if names[i] !in known {
        return None;
      }
      AddRefAdds(refs', RefsAfter(seen, tenant, group, names, i), Ref(tenant, group, names[i]));
      RefsAfterStep(seen, tenant, group, names, i);
      refs' := AddRef(refs', Ref(tenant, group, names[i]));
    }
    return Some(refs');
  }

  /** Records the balancers one group names; None if one is unknown. */
  method GroupRefs(cfg: ServerConfig, tenant: string, group: string, refs: Refs, ghost seen: set<Ref>)
    returns (r: Option<Refs>)
    requires tenant in cfg.groups && group in cfg.groups[tenant] && RefsAre(refs, seen)
    ensures r.Some? <==> forall i :: 0 <= i < |cfg.groups[tenant][group]| ==>
      cfg.groups[tenant][group][i] in cfg.loadBalancers
    ensures r.Some? ==> RefsAre(r.value, seen + NamedRefs(tenant, group, cfg.groups[tenant][group]))
  {
    hide RefsAre, RefsAfter, NamedRefs;
    r := RecordNames(cfg.loadBalancers.Keys, tenant, group, cfg.groups[tenant][group], refs, seen);
    RefsAfterAll(seen, tenant, group, cfg.groups[tenant][group]);
  }

  method TenantRefs(cfg: ServerConfig, tenant: string, refs: Refs, ghost seen: set<Ref>)
    returns (r: Option<Refs>, ghost seen': set<Ref>)
    requires tenant in cfg.groups && RefsAre(refs, seen)
    ensures r.Some? <==> forall group, lb :: IsRef(cfg, tenant, group, lb) ==> lb in cfg.loadBalancers
    ensures r.Some? ==> RefsAre(r.value, seen')
    ensures r.Some? ==> forall x :: x in seen' <==>
      x in seen || (x.tenant == tenant && IsRef(cfg, x.tenant, x.group, x.lb))
  {
    var rest, refs' := cfg.groups[tenant].Keys, refs;
    seen' := seen;
    hide RefsAre;
    while rest != {}
      invariant rest <= cfg.groups[tenant].Keys && RefsAre(refs', seen')
      invariant forall group, lb :: IsRef(cfg, tenant, group, lb) && group !in rest ==> lb in cfg.loadBalancers
      invariant forall x :: x in seen' <==>
        x in seen || (x.tenant == tenant && x.group !in rest && IsRef(cfg, x.tenant, x.group, x.lb))
      decreases |rest|
    {
      var group :| group in rest;
      var next := GroupRefs(cfg, tenant, group, refs', seen');
      if next.None? {
        assert !forall lb :: IsRef(cfg, tenant, group, lb) ==> lb in cfg.loadBalancers;
        return None, seen';
      }
      refs', seen' := next.value, seen' + NamedRefs(tenant, group, cfg.groups[tenant][group]);
      rest := rest - {group};
    }
    return Some(refs'), seen';
  }

  /** Which groups of which tenants reference each balancer; None if a reference is unknown. */
  method CollectRefs(cfg: ServerConfig) returns (r: Option<Refs>)
    ensures r.Some? <==> RefsKnown(cfg)
    ensures r.Some? ==> forall lb, t, g :: g in GroupList(r.value, lb, t) <==> IsRef(cfg, t, g, lb)
    ensures r.Some? ==> forall lb, t :: NoDup(GroupList(r.value, lb, t))
    ensures r.Some? ==> forall lb, t :: t in Tenants(r.value, lb) <==> References(cfg, t, lb)
  {
    var rest, refs: Refs := cfg.groups.Keys, map[];
    ghost var seen: set<Ref> := {};
    while rest != {}
      invariant rest <= cfg.groups.Keys && RefsAre(refs, seen) && RefsVisited(cfg, seen, rest)
      invariant forall tenant, group, lb :: IsRef(cfg, tenant, group, lb) && tenant !in rest ==> lb in cfg.loadBalancers
      decreases |rest|
    {
      var tenant :| tenant in rest;
      var next, more := TenantRefs(cfg, tenant, refs, seen);
      if next.None? {
        return None;
      }
      refs, seen := next.value, more;
      rest := rest - {tenant};
    }
    TenantsAreReferences(cfg, refs, seen);
    return Some(refs);
  }

  lemma TenantsAreReferences(cfg: ServerConfig, refs: Refs, seen: set<Ref>)
    requires RefsAre(refs, seen) && RefsVisited(cfg, seen, {})
    ensures forall lb, t, g :: g in GroupList(refs, lb, t) <==> IsRef(cfg, t, g, lb)
    ensures forall lb, t :: t in Tenants(refs, lb) <==> References(cfg, t, lb)
  {
    assert forall lb, t, g :: Ref(t, g, lb) in seen <==> IsRef(cfg, t, g, lb);
    forall lb, t
      ensures t in Tenants(refs, lb) <==> References(cfg, t, lb)
    {
      if t in Tenants(refs, lb) {
        assert GroupList(refs, lb, t)[0] in GroupList(refs, lb, t);
      }
    }
  }

  // ----- Google ports -----

  function CountOf(counts: map<int, nat>, port: int): nat {
    if port in counts then counts[port] else 0
  }

  /** The counts tell which ports several Google frontends share. */
  ghost predicate CountsShared(cfg: ServerConfig, counts: map<int, nat>) {
    forall port :: CountOf(counts, port) > 1 <==> Shared(cfg, port)
  }

  ghost predicate Two(seen: set<Item>, port: int) {
    exists s, s' :: s in seen && s' in seen && s != s' && Google(s, port) && Google(s', port)
  }

  ghost predicate One(seen: set<Item>, port: int) {
    exists s :: s in seen && Google(s, port)
  }

  ghost predicate Counted(counts: map<int, nat>, seen: set<Item>) {
    && (forall port :: CountOf(counts, port) > 0 <==> One(seen, port))
    && (forall port :: CountOf(counts, port) > 1 <==> Two(seen, port))
  }

  lemma CountOneMore(counts: map<int, nat>, seen: set<Item>, s: Item)
    requires Counted(counts, seen) && s !in seen && !s.exclusive
    ensures Counted(counts[s.port := CountOf(counts, s.port) + 1], seen + {s})
  {
    var counts', seen' := counts[s.port := CountOf(counts, s.port) + 1], seen + {s};
    forall port
      ensures CountOf(counts', port) > 0 <==> One(seen', port)
      ensures CountOf(counts', port) > 1 <==> Two(seen', port)
    {
      OneSnoc(seen, s, port);
      TwoSnoc(seen, s, port);
    }
  }

  lemma OneSnoc(seen: set<Item>, s: Item, port: int)
    ensures One(seen + {s}, port) <==> One(seen, port) || Google(s, port)
  {
  }

  lemma TwoSnoc(seen: set<Item>, s: Item, port: int)
    requires s !in seen
    ensures Two(seen + {s}, port) <==> Two(seen, port) || (One(seen, port) && Google(s, port))
  {
  }

  ghost predicate ItemsVisited(cfg: ServerConfig, seen: set<Item>, rest: set<string>) {
    forall s :: s in seen <==> IsItem(cfg, s) && s.lb !in rest
  }

  /** What has been seen once the first `i` items are walked. */
  ghost function ItemsAfter(seen: set<Item>, items: seq<Item>, i: nat): set<Item>
    requires i <= |items|
  {
    seen + Elems(items[..i])
  }

  lemma ItemsAfterAll(seen: set<Item>, items: seq<Item>)
    ensures ItemsAfter(seen, items, 0) == seen && ItemsAfter(seen, items, |items|) == seen + Elems(items)
  {
  }

  /** One more item of a balancer none of whose items were seen before the walk. */
  lemma ItemsAfterStep(cfg: ServerConfig, name: string, seen: set<Item>, i: nat)
    requires name in cfg.loadBalancers && (forall x :: x in seen ==> IsItem(cfg, x) && x.lb != name)
    requires i < |Items(name, cfg.loadBalancers[name])|
    ensures var items := Items(name, cfg.loadBalancers[name]);
      && IsItem(cfg, items[i]) && items[i].lb == name && items[i] !in ItemsAfter(seen, items, i)
      && (forall x :: x in ItemsAfter(seen, items, i) ==> IsItem(cfg, x))
      && ItemsAfter(seen, items, i + 1) == ItemsAfter(seen, items, i) + {items[i]}
  {
  }

  /** Counts the Google frontends on each port. */
  method CountGooglePorts(cfg: ServerConfig) returns (counts: map<int, nat>)
    ensures CountsShared(cfg, counts)
  {
    counts := map[];
    var rest := cfg.loadBalancers.Keys;
    ghost var seen: set<Item> := {};
    assert Counted(counts, seen);
    hide Counted;
    while rest != {}
      invariant rest <= cfg.loadBalancers.Keys && Counted(counts, seen)
      invariant forall s :: s in seen <==> IsItem(cfg, s) && s.lb !in rest && !s.exclusive
      decreases |rest|
    {
      var name :| name in rest;
      var lb := cfg.loadBalancers[name];
      if lb.provider == "google" {
        counts := CountFrontends(cfg, name, counts, seen);
        seen := seen + Elems(Items(name, lb));
      }
      rest := rest - {name};
    }
    SharedIsTwo(cfg, seen, counts);
  }

  lemma SharedIsTwo(cfg: ServerConfig, seen: set<Item>, counts: map<int, nat>)
    requires Counted(counts, seen) && forall s :: s in seen <==> IsItem(cfg, s) && !s.exclusive
    ensures CountsShared(cfg, counts)
  {
  }

  method CountFrontends(cfg: ServerConfig, name: string, counts: map<int, nat>, ghost seen: set<Item>)
    returns (counts': map<int, nat>)
    requires name in cfg.loadBalancers && cfg.loadBalancers[name].provider == "google"
    requires Counted(counts, seen) && forall s :: s in seen ==> IsItem(cfg, s) && s.lb != name
    ensures Counted(counts', seen + Elems(Items(name, cfg.loadBalancers[name])))
  {
    var items := Items(name, cfg.loadBalancers[name]);
    counts' := counts;
    assert forall i :: 0 <= i < |items| ==> !items[i].exclusive;
    hide *;
    ItemsAfterAll(seen, items);
    for i := 0 to |items|
      invariant Counted(counts', ItemsAfter(seen, items, i))
    {
      ItemsAfterStep(cfg, name, seen, i);
      CountOneMore(counts', ItemsAfter(seen, items, i), items[i]);
      counts' := counts'[items[i].port := CountOf(counts', items[i].port) + 1];
    }
  }

  // ----- adding listeners -----

  datatype PortUse = PortUse(exclusive: string, google: seq<string>)

  /** The tables the derivation fills. */
  datatype Build = Build(used: map<int, PortUse>, selectors: map<string, string>, listeners: Config)

  function UseOf(b: Build, port: int): PortUse {
    if port in b.used then b.used[port] else PortUse("", [])
  }

  /** Adds one listener; None if it collides with the server, with a port or selector in use, or with a key. */
  function AddListener(serverPorts: set<int>, b: Build, key: string, l: Listener, exclusive: bool): Option<Build> {
    var use := UseOf(b, l.proxyPort);
    var selector := JoinHostPort(l.frontendIP, l.proxyPort);
    if l.proxyPort in serverPorts then None
    else if exclusive then
      if use.exclusive != "" || use.google != [] || key in b.listeners then None
      else Some(Build(b.used[l.proxyPort := use.(exclusive := key)], b.selectors, b.listeners[key := l]))
    else if use.exclusive != "" || (selector in b.selectors && b.selectors[selector] != "") || key in b.listeners
      then None
    else Some(Build(b.used[l.proxyPort := use.(google := use.google + [key])],
                b.selectors[selector := key], b.listeners[key := l]))
  }

  ghost function SelectorOf(cfg: ServerConfig, s: Item): string {
    JoinHostPort(FrontendOf(cfg, s), s.port)
  }

  ghost predicate UsedBy(seen: set<Item>, port: int, exclusive: bool) {
    exists s :: s in seen && s.port == port && s.exclusive == exclusive
  }

  ghost predicate PortsTracked(seen: set<Item>, b: Build) {
    forall port :: (UseOf(b, port).exclusive != "" <==> UsedBy(seen, port, true))
                && (UseOf(b, port).google != [] <==> UsedBy(seen, port, false))
  }

  ghost predicate SelectorsTracked(cfg: ServerConfig, seen: set<Item>, b: Build) {
    && (forall s :: s in seen && !s.exclusive ==> SelectorOf(cfg, s) in b.selectors)
    && (forall t :: t in b.selectors ==>
          b.selectors[t] != "" && exists s :: s in seen && !s.exclusive && SelectorOf(cfg, s) == t)
  }

  ghost predicate ListenersTracked(cfg: ServerConfig, seen: set<Item>, b: Build) {
    && (forall s :: s in seen ==> KeyOf(cfg, s) in b.listeners && ListenerFor(cfg, s, b.listeners[KeyOf(cfg, s)]))
    && (forall k :: k in b.listeners ==> exists s :: s in seen && KeyOf(cfg, s) == k)
  }

  ghost predicate Tracked(cfg: ServerConfig, seen: set<Item>, b: Build) {
    PortsTracked(seen, b) && SelectorsTracked(cfg, seen, b) && ListenersTracked(cfg, seen, b)
  }

  /** Google items on one port are shared, so their selectors are equal just when their addresses are. */
  lemma SelectorsByAddress(cfg: ServerConfig, s: Item, s': Item)
    requires IsItem(cfg, s) && IsItem(cfg, s') && s != s' && !s.exclusive && !s'.exclusive
    ensures SelectorOf(cfg, s) == SelectorOf(cfg, s') <==> s.port == s'.port && s.ip == s'.ip
  {
    if SelectorOf(cfg, s) == SelectorOf(cfg, s') {
      JoinInjective(FrontendOf(cfg, s), s.port, FrontendOf(cfg, s'), s'.port);
    }
    if s.port == s'.port {
      assert Google(s, s.port) && Google(s', s.port);
      assert Shared(cfg, s.port);
    }
  }

  ghost predicate PortsApart(s: Item, s': Item) {
    s.port == s'.port ==> !s.exclusive && !s'.exclusive && s.ip != s'.ip
  }

  /** The checks on the port and the selector mean that no item seen clashes on the port. */
  lemma PortChecked(cfg: ServerConfig, seen: set<Item>, b: Build, s: Item)
    requires IsItem(cfg, s) && s !in seen && (forall x :: x in seen ==> IsItem(cfg, x))
    requires PortsTracked(seen, b) && SelectorsTracked(cfg, seen, b)
    ensures (forall x :: x in seen ==> PortsApart(x, s)) <==>
            UseOf(b, s.port).exclusive == "" &&
            (if s.exclusive then UseOf(b, s.port).google == [] else SelectorOf(cfg, s) !in b.selectors)
  {
    forall x | x in seen && !s.exclusive && !x.exclusive
      ensures SelectorOf(cfg, x) == SelectorOf(cfg, s) <==> x.port == s.port && x.ip == s.ip
    {
      SelectorsByAddress(cfg, x, s);
    }
    hide SelectorOf, IsItem;
    assert UseOf(b, s.port).exclusive != "" <==> UsedBy(seen, s.port, true);
    assert UseOf(b, s.port).google != [] <==> UsedBy(seen, s.port, false);
    assert !s.exclusive ==>
      (SelectorOf(cfg, s) in b.selectors <==>
        exists x :: x in seen && !x.exclusive && x.port == s.port && x.ip == s.ip);
  }

  /** The checks made when adding an item are exactly that it fits with the items added before. */
  lemma AddedFits(cfg: ServerConfig, seen: set<Item>, b: Build, s: Item, l: Listener)
    requires IsItem(cfg, s) && s !in seen && (forall x :: x in seen ==> IsItem(cfg, x))
    requires Tracked(cfg, seen, b) && ItemsFit(cfg, seen) && ListenerFor(cfg, s, l)
    ensures AddListener(cfg.serverPorts, b, KeyOf(cfg, s), l, s.exclusive).Some? <==> ItemsFit(cfg, seen + {s})
  {
    PortChecked(cfg, seen, b, s);
    FitsOneMore(cfg, seen, s);
    assert KeyOf(cfg, s) in b.listeners <==> exists x :: x in seen && KeyOf(cfg, x) == KeyOf(cfg, s);
    assert SelectorOf(cfg, s) == JoinHostPort(l.frontendIP, l.proxyPort);
    assert forall x :: Apart(cfg, x, s) <==> PortsApart(x, s) && KeyOf(cfg, x) != KeyOf(cfg, s);
    hide KeyOf, SelectorOf, JoinHostPort, ItemsFit, IsItem, PortsTracked, ListenersTracked, Apart, PortsApart;
  }

  lemma FitsOneMore(cfg: ServerConfig, seen: set<Item>, s: Item)
    requires ItemsFit(cfg, seen) && s !in seen
    ensures ItemsFit(cfg, seen + {s}) <==> s.port !in cfg.serverPorts && forall x :: x in seen ==> Apart(cfg, x, s)
  {
  }

  lemma AddedPorts(cfg: ServerConfig, seen: set<Item>, b: Build, s: Item, l: Listener)
    requires PortsTracked(seen, b) && l.proxyPort == s.port
    requires AddListener(cfg.serverPorts, b, KeyOf(cfg, s), l, s.exclusive).Some?
    ensures PortsTracked(seen + {s}, AddListener(cfg.serverPorts, b, KeyOf(cfg, s), l, s.exclusive).value)
  {
    assert s in seen + {s};
    forall port, exclusive
      ensures UsedBy(seen + {s}, port, exclusive) <==>
        UsedBy(seen, port, exclusive) || (s.port == port && s.exclusive == exclusive)
    {
      if UsedBy(seen, port, exclusive) {
        var x :| x in seen && x.port == port && x.exclusive == exclusive;
        assert x in seen + {s};
      }
    }
    KeyNotEmpty(cfg, s);
  }

  lemma KeyNotEmpty(cfg: ServerConfig, s: Item)
    ensures KeyOf(cfg, s) != ""
  {
  }

  lemma AddedSelectors(cfg: ServerConfig, seen: set<Item>, b: Build, s: Item, l: Listener)
    requires SelectorsTracked(cfg, seen, b) && l.proxyPort == s.port && l.frontendIP == FrontendOf(cfg, s)
    requires AddListener(cfg.serverPorts, b, KeyOf(cfg, s), l, s.exclusive).Some?
    ensures SelectorsTracked(cfg, seen + {s}, AddListener(cfg.serverPorts, b, KeyOf(cfg, s), l, s.exclusive).value)
  {
  }

  lemma AddedListeners(cfg: ServerConfig, seen: set<Item>, b: Build, s: Item, l: Listener)
    requires ListenersTracked(cfg, seen, b) && ListenerFor(cfg, s, l)
    requires AddListener(cfg.serverPorts, b, KeyOf(cfg, s), l, s.exclusive).Some?
    ensures ListenersTracked(cfg, seen + {s}, AddListener(cfg.serverPorts, b, KeyOf(cfg, s), l, s.exclusive).value)
  {
  }

  lemma AddedIsTracked(cfg: ServerConfig, seen: set<Item>, b: Build, s: Item, l: Listener)
    requires Tracked(cfg, seen, b) && ListenerFor(cfg, s, l)
    requires AddListener(cfg.serverPorts, b, KeyOf(cfg, s), l, s.exclusive).Some?
    ensures Tracked(cfg, seen + {s}, AddListener(cfg.serverPorts, b, KeyOf(cfg, s), l, s.exclusive).value)
  {
    AddedPorts(cfg, seen, b, s, l);
    AddedSelectors(cfg, seen, b, s, l);
    AddedListeners(cfg, seen, b, s, l);
  }

  /** Items that do not fit together do not fit with more beside them. */
  lemma MisfitStays(cfg: ServerConfig, seen: set<Item>, items: seq<Item>, i: nat)
    requires i <= |items| && !ItemsFit(cfg, ItemsAfter(seen, items, i))
    ensures !ItemsFit(cfg, seen + Elems(items))
  {
  }

  function AddItem(serverPorts: set<int>, counts: map<int, nat>, b: Build, s: Item, tenant: string,
                   groups: seq<string>): Option<Build> {
    var shared := CountOf(counts, s.port) > 1;
    var listener := Listener(tenant, groups, s.targetPort, s.port, FrontendText(shared, s));
    AddListener(serverPorts, b, KeyText(shared, s), listener, s.exclusive)
  }

  lemma AddItemStep(cfg: ServerConfig, counts: map<int, nat>, seen: set<Item>, b: Build, s: Item, tenant: string,
                    groups: seq<string>)
    requires IsItem(cfg, s) && s !in seen && (forall x :: x in seen ==> IsItem(cfg, x)) && CountsShared(cfg, counts)
    requires References(cfg, tenant, s.lb) && GroupsListed(cfg, tenant, s.lb, groups)
    requires Tracked(cfg, seen, b) && ItemsFit(cfg, seen)
    ensures AddItem(cfg.serverPorts, counts, b, s, tenant, groups).Some? <==> ItemsFit(cfg, seen + {s})
    ensures AddItem(cfg.serverPorts, counts, b, s, tenant, groups).Some? ==>
              Tracked(cfg, seen + {s}, AddItem(cfg.serverPorts, counts, b, s, tenant, groups).value)
  {
    var listener := Listener(tenant, groups, s.targetPort, s.port, FrontendOf(cfg, s));
    var added := AddListener(cfg.serverPorts, b, KeyOf(cfg, s), listener, s.exclusive);
    assert AddItem(cfg.serverPorts, counts, b, s, tenant, groups) == added;
    hide *;
    AddedFits(cfg, seen, b, s, listener) by {
      assert ListenerFor(cfg, s, listener);
    }
    if added.Some? {
      AddedIsTracked(cfg, seen, b, s, listener);
    }
  }

  /** Adds the listeners of one balancer; None if one does not fit. */
  method AddItems(cfg: ServerConfig, counts: map<int, nat>, name: string, tenant: string, groups: seq<string>, b: Build,
                  ghost seen: set<Item>)
    returns (r: Option<Build>)
    requires name in cfg.loadBalancers && References(cfg, tenant, name) && GroupsListed(cfg, tenant, name, groups)
    requires CountsShared(cfg, counts)
    requires Tracked(cfg, seen, b) && ItemsFit(cfg, seen) && (forall x :: x in seen ==> IsItem(cfg, x) && x.lb != name)
    ensures r.Some? <==> ItemsFit(cfg, seen + Elems(Items(name, cfg.loadBalancers[name])))
    ensures r.Some? ==> Tracked(cfg, seen + Elems(Items(name, cfg.loadBalancers[name])), r.value)
  {
    var items, b' := Items(name, cfg.loadBalancers[name]), b;
    hide *;
    ItemsAfterAll(seen, items);
    for i := 0 to |items|
      invariant Tracked(cfg, ItemsAfter(seen, items, i), b') && ItemsFit(cfg, ItemsAfter(seen, items, i))
    {
      ItemsAfterStep(cfg, name, seen, i);
      AddItemStep(cfg, counts, ItemsAfter(seen, items, i), b', items[i], tenant, groups);
      var next := AddItem(cfg.serverPorts, counts, b', items[i], tenant, groups);
      if next.None? {
        MisfitStays(cfg, seen, items, i + 1);
        return None;
      }
      b' := next.value;
    }
    return Some(b');
  }

  lemma OnlyMember(s: set<string>, x: string)
    requires |s| == 1 && x in s
    ensures s == {x}
  {
    assert |s - {x}| == 0;
  }

  /** One key in the tenants of a balancer is one referencing tenant. */
  lemma OneKeyIsOneTenant(cfg: ServerConfig, tenants: set<string>, lb: string)
    requires forall t :: t in tenants <==> References(cfg, t, lb)
    ensures |tenants| == 1 <==> OneTenant(cfg, lb)
  {
    if |tenants| == 1 {
      var x :| x in tenants;
      OnlyMember(tenants, x);
      assert References(cfg, x, lb) && forall other :: References(cfg, other, lb) ==> other == x;
    }
    if OneTenant(cfg, lb) {
      var x :| References(cfg, x, lb) && forall other :: References(cfg, other, lb) ==> other == x;
      assert tenants == {x};
    }
  }

  // ----- the listeners, said of the configuration itself -----

  /** The listener belongs to a tenant that names the balancer, with the groups of that tenant that do, sorted. */
  ghost predicate ServedTo(cfg: ServerConfig, lb: string, l: Listener) {
    && l.tenant in cfg.groups && l.groups != [] && Sorted(l.groups) && NoDup(l.groups)
    && forall g :: g in l.groups <==> g in cfg.groups[l.tenant] && lb in cfg.groups[l.tenant][g]
  }

  /** A target group or a tunnel listener is listened for on its proxy port, wherever traffic comes from. */
  ghost predicate PairListened(cfg: ServerConfig, listeners: Config, lb: string, pair: PortPair) {
    var key := lb + ":" + Itoa(pair.proxyPort);
    && key in listeners && ServedTo(cfg, lb, listeners[key])
    && listeners[key].proxyPort == pair.proxyPort && listeners[key].targetPort == pair.targetPort
    && listeners[key].frontendIP == ""
  }

  ghost predicate IsTarget(cfg: ServerConfig, lb: string, i: int) {
    && lb in cfg.loadBalancers && cfg.loadBalancers[lb].provider == "aws"
    && 0 <= i < |cfg.loadBalancers[lb].targetGroups|
  }

  ghost predicate IsTunnel(cfg: ServerConfig, lb: string, i: int) {
    && lb in cfg.loadBalancers && cfg.loadBalancers[lb].provider == "tunnel"
    && 0 <= i < |cfg.loadBalancers[lb].listeners|
  }

  ghost predicate IsFrontend(cfg: ServerConfig, lb: string, i: int) {
    && lb in cfg.loadBalancers && cfg.loadBalancers[lb].provider == "google"
    && 0 <= i < |cfg.loadBalancers[lb].frontends|
  }

  /** Another frontend, of this or another balancer, uses the same port. */
  ghost predicate PortReused(cfg: ServerConfig, lb: string, i: int)
    requires IsFrontend(cfg, lb, i)
  {
    exists other, j :: IsFrontend(cfg, other, j) && !(other == lb && j == i)
      && cfg.loadBalancers[other].frontends[j].port == cfg.loadBalancers[lb].frontends[i].port
  }

  function AddressKey(lb: string, a: Address): string {
    lb + "/" + (if ':' in a.ip || '%' in a.ip then "[" + a.ip + "]" else a.ip) + ":" + Itoa(a.port)
  }

  /** A frontend keeps its port, and its address too where that is what tells it from another. */
  ghost predicate FrontendListened(cfg: ServerConfig, listeners: Config, lb: string, i: int)
    requires IsFrontend(cfg, lb, i)
  {
    var a := cfg.loadBalancers[lb].frontends[i];
    var key := if PortReused(cfg, lb, i) then AddressKey(lb, a) else lb + ":" + Itoa(a.port);
    && key in listeners && ServedTo(cfg, lb, listeners[key])
    && listeners[key].proxyPort == a.port && listeners[key].targetPort == a.port
    && listeners[key].frontendIP == (if PortReused(cfg, lb, i) then a.ip else "")
  }

  /** The key stands for some entry of some balancer. */
  ghost predicate Named(cfg: ServerConfig, key: string) {
    exists lb, i {:trigger EntryKey(cfg, lb, i)} ::
      lb in cfg.loadBalancers && 0 <= i < Entries(cfg.loadBalancers[lb]) && EntryKey(cfg, lb, i) == key
  }

  function Entries(lb: LoadBalancer): nat {
    if lb.provider == "aws" then |lb.targetGroups|
    else if lb.provider == "tunnel" then |lb.listeners|
    else if lb.provider == "google" then |lb.frontends|
    else 0
  }

  ghost function EntryKey(cfg: ServerConfig, lb: string, i: int): string
    requires lb in cfg.loadBalancers && 0 <= i < Entries(cfg.loadBalancers[lb])
  {
    var b := cfg.loadBalancers[lb];
    if b.provider == "aws" then lb + ":" + Itoa(b.targetGroups[i].proxyPort)
    else if b.provider == "tunnel" then lb + ":" + Itoa(b.listeners[i].proxyPort)
    else if PortReused(cfg, lb, i) then AddressKey(lb, b.frontends[i])
    else lb + ":" + Itoa(b.frontends[i].port)
  }

  /** Every entry of every balancer has its listener, and there is no other. */
  ghost predicate Listed(cfg: ServerConfig, listeners: Config) {
    && (forall lb, i :: IsTarget(cfg, lb, i) ==>
          PairListened(cfg, listeners, lb, cfg.loadBalancers[lb].targetGroups[i]))
    && (forall lb, i :: IsTunnel(cfg, lb, i) ==>
          PairListened(cfg, listeners, lb, cfg.loadBalancers[lb].listeners[i]))
    && (forall lb, i :: IsFrontend(cfg, lb, i) ==> FrontendListened(cfg, listeners, lb, i))
    && (forall key :: key in listeners ==> Named(cfg, key))
  }

  /** The `i`-th entry of a balancer, as the derivation sees it. */
  function Entry(cfg: ServerConfig, lb: string, i: int): Item
    requires lb in cfg.loadBalancers && 0 <= i < Entries(cfg.loadBalancers[lb])
  {
    var b := cfg.loadBalancers[lb];
    if b.provider == "aws" then Item(lb, i, true, "", b.targetGroups[i].targetPort, b.targetGroups[i].proxyPort)
    else if b.provider == "tunnel" then Item(lb, i, true, "", b.listeners[i].targetPort, b.listeners[i].proxyPort)
    else Item(lb, i, false, b.frontends[i].ip, b.frontends[i].port, b.frontends[i].port)
  }

  /** The items are the entries: target groups, tunnel listeners and frontends, and nothing else. */
  lemma ItemsAreEntries(cfg: ServerConfig, s: Item)
    ensures IsItem(cfg, s) <==>
      s.lb in cfg.loadBalancers && s.index < Entries(cfg.loadBalancers[s.lb]) && s == Entry(cfg, s.lb, s.index)
  {
    if s.lb in cfg.loadBalancers && s.index < Entries(cfg.loadBalancers[s.lb]) {
      assert Items(s.lb, cfg.loadBalancers[s.lb])[s.index] == Entry(cfg, s.lb, s.index);
    }
  }

  lemma ReusedIsShared(cfg: ServerConfig, lb: string, i: int)
    requires IsFrontend(cfg, lb, i)
    ensures PortReused(cfg, lb, i) <==> Shared(cfg, cfg.loadBalancers[lb].frontends[i].port)
  {
    var s := Entry(cfg, lb, i);
    ItemsAreEntries(cfg, s);
    if PortReused(cfg, lb, i) {
      var other, j :| IsFrontend(cfg, other, j) && !(other == lb && j == i)
        && cfg.loadBalancers[other].frontends[j].port == s.port;
      ItemsAreEntries(cfg, Entry(cfg, other, j));
      assert Google(s, s.port) && Google(Entry(cfg, other, j), s.port);
    }
    if Shared(cfg, s.port) {
      var x, y :| IsItem(cfg, x) && IsItem(cfg, y) && x != y && Google(x, s.port) && Google(y, s.port);
      var z := if x == s then y else x;
      ItemsAreEntries(cfg, z);
      assert IsFrontend(cfg, z.lb, z.index);
    }
  }

  lemma EntryKeyed(cfg: ServerConfig, lb: string, i: int)
    requires lb in cfg.loadBalancers && 0 <= i < Entries(cfg.loadBalancers[lb])
    ensures IsItem(cfg, Entry(cfg, lb, i)) && EntryKey(cfg, lb, i) == KeyOf(cfg, Entry(cfg, lb, i))
  {
    hide IsItem, Shared, PortReused, Itoa;
    var s := Entry(cfg, lb, i);
    ItemsAreEntries(cfg, s);
    if IsFrontend(cfg, lb, i) {
      ReusedIsShared(cfg, lb, i);
      assert AddressKey(lb, cfg.loadBalancers[lb].frontends[i]) == lb + "/" + JoinHostPort(s.ip, s.port);
    }
  }

  lemma ListenerServed(cfg: ServerConfig, s: Item, l: Listener)
    requires ListenerFor(cfg, s, l)
    ensures ServedTo(cfg, s.lb, l)
  {
    hide FrontendOf, Sorted, NoDup;
    var g :| IsRef(cfg, l.tenant, g, s.lb);
    assert g in l.groups;
  }

  lemma EntryListened(cfg: ServerConfig, listeners: Config, lb: string, i: int)
    requires Derived(cfg, listeners) && lb in cfg.loadBalancers && 0 <= i < Entries(cfg.loadBalancers[lb])
    ensures EntryKey(cfg, lb, i) in listeners && ListenerFor(cfg, Entry(cfg, lb, i), listeners[EntryKey(cfg, lb, i)])
    ensures ServedTo(cfg, lb, listeners[EntryKey(cfg, lb, i)])
  {
    hide IsItem, KeyOf, EntryKey, ListenerFor, ServedTo;
    EntryKeyed(cfg, lb, i);
    ListenerServed(cfg, Entry(cfg, lb, i), listeners[EntryKey(cfg, lb, i)]);
  }

  lemma PairsListed(cfg: ServerConfig, listeners: Config, lb: string, i: int)
    requires Derived(cfg, listeners)
    ensures IsTarget(cfg, lb, i) ==> PairListened(cfg, listeners, lb, cfg.loadBalancers[lb].targetGroups[i])
    ensures IsTunnel(cfg, lb, i) ==> PairListened(cfg, listeners, lb, cfg.loadBalancers[lb].listeners[i])
  {
    hide Derived, ServedTo, Itoa, References, GroupsListed;
    if IsTarget(cfg, lb, i) || IsTunnel(cfg, lb, i) {
      EntryListened(cfg, listeners, lb, i);
    }
  }

  lemma FrontendsListed(cfg: ServerConfig, listeners: Config, lb: string, i: int)
    requires Derived(cfg, listeners) && IsFrontend(cfg, lb, i)
    ensures FrontendListened(cfg, listeners, lb, i)
  {
    hide Derived, ServedTo, Itoa, References, GroupsListed, Shared, PortReused, AddressKey;
    EntryListened(cfg, listeners, lb, i);
    ReusedIsShared(cfg, lb, i);
  }

  lemma KeyNamed(cfg: ServerConfig, listeners: Config, key: string)
    requires Derived(cfg, listeners) && key in listeners
    ensures Named(cfg, key)
  {
    hide KeyOf, EntryKey, ListenerFor, IsItem;
    var s :| IsItem(cfg, s) && KeyOf(cfg, s) == key;
    ItemsAreEntries(cfg, s);
    EntryKeyed(cfg, s.lb, s.index);
  }

  lemma DerivedIsListed(cfg: ServerConfig, listeners: Config)
    requires Derived(cfg, listeners)
    ensures Listed(cfg, listeners)
  {
    hide Derived, PairListened, FrontendListened, Named;
    forall lb, i | IsTarget(cfg, lb, i) || IsTunnel(cfg, lb, i) {
      PairsListed(cfg, listeners, lb, i);
    }
    forall lb, i | IsFrontend(cfg, lb, i) {
      FrontendsListed(cfg, listeners, lb, i);
    }
    forall key | key in listeners {
      KeyNamed(cfg, listeners, key);
    }
  }

  /**
   Derives the proxy's listeners. Whatever order the maps are walked in, it
   succeeds exactly on accepted configurations, with one listener per item.
   */
  method ProxyConfig(cfg: ServerConfig) returns (r: Option<Config>)
    ensures r.Some? <==> Accepted(cfg)
    ensures r.Some? ==> Derived(cfg, r.value) && Listed(cfg, r.value)
  {
    hide RefsKnown, OneTenant, Tracked, ItemsFit, References, CountsShared, IsItem, Listed;
    var refs := CollectRefs(cfg);
    if refs.None? {
      return None;
    }
    var counts := CountGooglePorts(cfg);
    var rest, b := cfg.loadBalancers.Keys, Build(map[], map[], map[]);
    ghost var seen: set<Item> := {};
    NothingTracked(cfg);
    while rest != {}
      invariant rest <= cfg.loadBalancers.Keys && Tracked(cfg, seen, b) && ItemsFit(cfg, seen)
      invariant ItemsVisited(cfg, seen, rest)
      invariant forall lb :: lb in cfg.loadBalancers && lb !in rest ==> OneTenant(cfg, lb)
      decreases |rest|
    {
      var name :| name in rest;
      var tenants := Tenants(refs.value, name);
      OneKeyIsOneTenant(cfg, tenants.Keys, name);
      if |tenants| != 1 {
        return None;
      }
      var tenant :| tenant in tenants;
      var groups := SortStrings(Elems(GroupList(refs.value, name, tenant)));
      assert forall g :: g in groups <==> g in Elems(groups);
      var next := AddItems(cfg, counts, name, tenant, groups, b, seen);
      ItemsOfVisited(cfg, seen, rest, name);
      seen := seen + Elems(Items(name, cfg.loadBalancers[name]));
      if next.None? {
        NotAccepted(cfg, seen);
        return None;
      }
      b, rest := next.value, rest - {name};
    }
    AllTracked(cfg, seen, b);
    DerivedIsListed(cfg, b.listeners);
    return Some(b.listeners);
  }

  lemma NothingTracked(cfg: ServerConfig)
    ensures Tracked(cfg, {}, Build(map[], map[], map[])) && ItemsFit(cfg, {})
    ensures ItemsVisited(cfg, {}, cfg.loadBalancers.Keys)
  {
  }

  lemma ItemsOfVisited(cfg: ServerConfig, seen: set<Item>, rest: set<string>, name: string)
    requires ItemsVisited(cfg, seen, rest) && name in rest && name in cfg.loadBalancers
    ensures ItemsVisited(cfg, seen + Elems(Items(name, cfg.loadBalancers[name])), rest - {name})
  {
  }

  lemma NotAccepted(cfg: ServerConfig, seen: set<Item>)
    requires !ItemsFit(cfg, seen) && forall x :: x in seen ==> IsItem(cfg, x)
    ensures !Accepted(cfg)
  {
  }

  lemma AllTracked(cfg: ServerConfig, seen: set<Item>, b: Build)
    requires Tracked(cfg, seen, b) && ItemsFit(cfg, seen) && ItemsVisited(cfg, seen, {}) && RefsKnown(cfg)
    requires forall lb :: lb in cfg.loadBalancers ==> OneTenant(cfg, lb)
    ensures Accepted(cfg) && Derived(cfg, b.listeners)
  {
  }
}
