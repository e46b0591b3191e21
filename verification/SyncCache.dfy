/**
 The operator's cache of group statuses by shard: filled by listings and events,
 read by an aggregation that walks it in arbitrary order.
 */
module SyncCache {
  import opened Common
  import opened Replicas

  /** What a group runs. */
  datatype Settings = Settings(template: string, instanceType: string, vars: map<string, string>, subnetPool: string)

  datatype GroupStatus = GroupStatus(
    key: string, size: int, etag: string, isStatic: bool, settings: Settings, providerIds: seq<string>)

  type ShardGroups = map<string, GroupStatus>
  type Cache = map<string, ShardGroups>

  datatype Event = Upserted(group: GroupStatus) | Deleted(group: GroupStatus)

  /** What reaches the cache of a shard. */
  datatype Input = Listed(shard: string, groups: seq<GroupStatus>) | Happened(shard: string, event: Event)

  function GroupsAt(cache: Cache, shard: string): ShardGroups {
    if shard in cache then cache[shard] else map[]
  }

  /** A listing as a map; the last entry of a key counts. */
  function Listing(groups: seq<GroupStatus>): ShardGroups {
    if groups == [] then map[]
    else var last := groups[|groups| - 1]; Listing(groups[..|groups| - 1])[last.key := last]
  }

  function Applied(groups: ShardGroups, event: Event): ShardGroups {
    match event
    case Upserted(group) => groups[group.key := group]
    case Deleted(group) => groups - {group.key}
  }

  /** What one shard's groups are after one of its inputs. */
  function Received(groups: ShardGroups, input: Input): ShardGroups {
    match input
    case Listed(_, listed) => Listing(listed)
    case Happened(_, event) => Applied(groups, event)
  }

  lemma ListingStep(groups: seq<GroupStatus>, i: nat)
    requires i < |groups|
    ensures Listing(groups[..i + 1]) == Listing(groups[..i])[groups[i].key := groups[i]]
  {
    assert groups[..i + 1][..i] == groups[..i];
  }

  /** The keys are those listed, and each has its last entry. */
  lemma {:induction false} ListingMeans(groups: seq<GroupStatus>, key: string)
    ensures key in Listing(groups) <==> exists i :: 0 <= i < |groups| && groups[i].key == key
    ensures key in Listing(groups) ==>
      exists i :: 0 <= i < |groups| && groups[i].key == key && Listing(groups)[key] == groups[i]
        && forall j :: i < j < |groups| ==> groups[j].key != key
  {
    if groups != [] {
      var n := |groups| - 1;
      ListingMeans(groups[..n], key);
      if groups[n].key != key && key in Listing(groups) {
        var i :| 0 <= i < n && groups[..n][i].key == key && Listing(groups[..n])[key] == groups[..n][i]
          && forall j :: i < j < n ==> groups[..n][j].key != key;
        assert groups[i].key == key && forall j :: i < j < |groups| ==> groups[j].key != key;
      }
      if i :| 0 <= i < |groups| && groups[i].key == key && i < n {
        assert groups[..n][i].key == key;
      }
    }
  }

  // ----- sums over shards -----

  function SizeIn(cache: Cache, shard: string, key: string): int {
    if key in GroupsAt(cache, shard) then GroupsAt(cache, shard)[key].size else 0
  }

  /** The sizes of a group over a set of shards. */
  ghost function Total(cache: Cache, key: string, shards: set<string>): int {
    if shards == {} then 0
    else var s :| s in shards; SizeIn(cache, s, key) + Total(cache, key, shards - {s})
  }

  /** The order of adding does not matter. */
  lemma {:induction false} TotalSplits(cache: Cache, key: string, shards: set<string>, x: string)
    requires x in shards
    ensures Total(cache, key, shards) == SizeIn(cache, x, key) + Total(cache, key, shards - {x})
    decreases shards
  {
    var s :| s in shards && Total(cache, key, shards) == SizeIn(cache, s, key) + Total(cache, key, shards - {s});
    if s != x {
      TotalSplits(cache, key, shards - {s}, x);
      TotalSplits(cache, key, shards - {x}, s);
      assert shards - {s} - {x} == shards - {x} - {s};
    }
  }

  lemma TotalAdds(cache: Cache, key: string, shards: set<string>, x: string)
    requires x !in shards
    ensures Total(cache, key, shards + {x}) == Total(cache, key, shards) + SizeIn(cache, x, key)
  {
    TotalSplits(cache, key, shards + {x}, x);
    assert shards + {x} - {x} == shards;
  }

  function IdsIn(cache: Cache, shard: string, key: string): seq<string> {
    if key in GroupsAt(cache, shard) then GroupsAt(cache, shard)[key].providerIds else []
  }

  /** The instances of a group over a set of shards. */
  ghost function Instances(cache: Cache, key: string, shards: set<string>): multiset<string> {
    if shards == {} then multiset{}
    else var s :| s in shards; multiset(IdsIn(cache, s, key)) + Instances(cache, key, shards - {s})
  }

  lemma {:induction false} InstancesSplit(cache: Cache, key: string, shards: set<string>, x: string)
    requires x in shards
    ensures Instances(cache, key, shards) == multiset(IdsIn(cache, x, key)) + Instances(cache, key, shards - {x})
    decreases shards
  {
    var s :| s in shards &&
      Instances(cache, key, shards) == multiset(IdsIn(cache, s, key)) + Instances(cache, key, shards - {s});
    if s != x {
      InstancesSplit(cache, key, shards - {s}, x);
      InstancesSplit(cache, key, shards - {x}, s);
      assert shards - {s} - {x} == shards - {x} - {s};
    }
  }

  lemma InstancesAdd(cache: Cache, key: string, shards: set<string>, x: string)
    requires x !in shards
    ensures Instances(cache, key, shards + {x}) == Instances(cache, key, shards) + multiset(IdsIn(cache, x, key))
  {
    InstancesSplit(cache, key, shards + {x}, x);
    assert shards + {x} - {x} == shards;
  }

  // ----- the manager -----

  /**
   One group over all shards: the shards that have it in the order met, its size and
   instances over them, whether one calls it static, and the settings of the first.
   */
  datatype Aggregate = Aggregate(
    total: int, shards: seq<string>, isStatic: bool, settings: Settings, providerIds: seq<string>)

  predicate Has(cache: Cache, shard: string, key: string) {
    key in GroupsAt(cache, shard)
  }

  /** Size and instances are those over the visited shards. */
  ghost predicate SumsOver(cache: Cache, key: string, visited: set<string>, a: Aggregate) {
    a.total == Total(cache, key, visited) && multiset(a.providerIds) == Instances(cache, key, visited)
  }

  /**
   The shards are the visited ones that have the group, each once; one of them calls it
   static, the first gives its settings.
   */
  ghost predicate ShardsOver(cache: Cache, key: string, visited: set<string>, a: Aggregate) {
    && NoDup(a.shards) && (forall s :: s in a.shards <==> s in visited && Has(cache, s, key))
    && (a.isStatic <==> exists s :: s in a.shards && Has(cache, s, key) && GroupsAt(cache, s)[key].isStatic)
    && (a.shards != [] ==> Has(cache, a.shards[0], key) && a.settings == GroupsAt(cache, a.shards[0])[key].settings)
  }

  ghost predicate AggregateOf(cache: Cache, key: string, visited: set<string>, a: Aggregate) {
    SumsOver(cache, key, visited, a) && ShardsOver(cache, key, visited, a)
  }

  const NOTHING := Aggregate(0, [], false, Settings("", "", map[], ""), [])

  function Joined(a: Aggregate, shard: string, group: GroupStatus): Aggregate {
    Aggregate(a.total + group.size, a.shards + [shard], a.isStatic || group.isStatic,
              if a.shards == [] then group.settings else a.settings, a.providerIds + group.providerIds)
  }

  lemma AggregateNothing(cache: Cache, key: string)
    ensures AggregateOf(cache, key, {}, NOTHING)
  {
  }

  lemma SumsStep(cache: Cache, key: string, visited: set<string>, a: Aggregate, shard: string)
    requires SumsOver(cache, key, visited, a) && shard !in visited
    ensures Has(cache, shard, key) ==>
      SumsOver(cache, key, visited + {shard}, Joined(a, shard, GroupsAt(cache, shard)[key]))
    ensures !Has(cache, shard, key) ==> SumsOver(cache, key, visited + {shard}, a)
  {
    TotalAdds(cache, key, visited, shard);
    InstancesAdd(cache, key, visited, shard);
    hide Total, Instances;
  }

  lemma ShardsStep(cache: Cache, key: string, visited: set<string>, a: Aggregate, shard: string)
    requires ShardsOver(cache, key, visited, a) && shard !in visited
    ensures Has(cache, shard, key) ==>
      ShardsOver(cache, key, visited + {shard}, Joined(a, shard, GroupsAt(cache, shard)[key]))
    ensures !Has(cache, shard, key) ==> ShardsOver(cache, key, visited + {shard}, a)
  {
    assert forall s :: s in a.shards + [shard] <==> s in a.shards || s == shard;
  }

  /** One more shard, which has the group or does not. */
  lemma AggregateStep(cache: Cache, key: string, visited: set<string>, a: Aggregate, shard: string)
    requires AggregateOf(cache, key, visited, a) && shard !in visited
    ensures Has(cache, shard, key) ==>
      AggregateOf(cache, key, visited + {shard}, Joined(a, shard, GroupsAt(cache, shard)[key]))
    ensures !Has(cache, shard, key) ==> AggregateOf(cache, key, visited + {shard}, a)
  {
    SumsStep(cache, key, visited, a, shard);
    ShardsStep(cache, key, visited, a, shard);
    hide SumsOver, ShardsOver;
  }

  function Found(result: map<string, Aggregate>, key: string): Aggregate {
    if key in result then result[key] else NOTHING
  }

  /** Every group met on the visited shards is aggregated over them. */
  ghost predicate Aggregated(cache: Cache, visited: set<string>, result: map<string, Aggregate>) {
    && (forall key :: AggregateOf(cache, key, visited, Found(result, key)))
    && (forall key :: key in result <==> exists s :: s in visited && key in GroupsAt(cache, s))
  }

  /** Sets every listed group in a shard's cache, then removes the groups not listed. */
  method Refill(before: ShardGroups, listed: seq<GroupStatus>) returns (cached: ShardGroups)
    ensures cached == Listing(listed)
  {
    cached := before;
    var seen := {};
    for i := 0 to |listed|
      invariant forall k :: k in seen <==> k in Listing(listed[..i])
      invariant forall k :: k in Listing(listed[..i]) ==> k in cached && cached[k] == Listing(listed[..i])[k]
    {
      ListingStep(listed, i);
      seen := seen + {listed[i].key};
      cached := cached[listed[i].key := listed[i]];
    }
    assert listed[..|listed|] == listed;
    var rest := cached.Keys;
    ghost var filled := cached;
    while rest != {}
      invariant forall k :: k in cached <==> k in filled && (k in rest || k in seen)
      invariant forall k :: k in cached ==> cached[k] == filled[k]
      decreases |rest|
    {
      var key :| key in rest;
      if key !in seen {
        cached := cached - {key};
      }
      rest := rest - {key};
    }
  }

  /** Adds every group of one shard to its aggregate. */
  method JoinAll(before: map<string, Aggregate>, shard: string, groups: ShardGroups)
    returns (result: map<string, Aggregate>)
    ensures forall k :: k in result <==> k in before || k in groups
    ensures forall k :: k in groups ==> Found(result, k) == Joined(Found(before, k), shard, groups[k])
    ensures forall k :: k !in groups ==> Found(result, k) == Found(before, k)
  {
    var rest := groups.Keys;
    result := before;
    hide Joined;
    while rest != {}
      invariant forall k :: k in rest ==> k in groups
      invariant forall k :: k in result <==> k in before || (k in groups && k !in rest)
      invariant forall k :: k in rest ==> Found(result, k) == Found(before, k)
      invariant forall k :: k !in rest ==>
        Found(result, k) == if k in groups then Joined(Found(before, k), shard, groups[k]) else Found(before, k)
      decreases |rest|
    {
      var key :| key in rest;
      result := result[key := Joined(Found(result, key), shard, groups[key])];
      rest := rest - {key};
    }
  }

  /** All groups of one more shard. */
  lemma AggregatedStep(cache: Cache, visited: set<string>, shard: string, before: map<string, Aggregate>,
                       result: map<string, Aggregate>)
    requires shard !in visited && Aggregated(cache, visited, before)
    requires forall k :: k in result <==> k in before || k in GroupsAt(cache, shard)
    requires forall k :: Found(result, k) ==
               if k in GroupsAt(cache, shard) then Joined(Found(before, k), shard, GroupsAt(cache, shard)[k])
               else Found(before, k)
    ensures Aggregated(cache, visited + {shard}, result)
  {
    hide AggregateOf;
    forall key
      ensures AggregateOf(cache, key, visited + {shard}, Found(result, key))
      ensures key in result <==> exists s :: s in visited + {shard} && key in GroupsAt(cache, s)
    {
      AggregateStep(cache, key, visited, Found(before, key), shard);
      KeysStep(cache, visited, shard, key);
    }
  }

  class Manager {
    var shardGroups: Cache

    constructor ()
      ensures shardGroups == map[]
    {
      shardGroups := map[];
    }

    /** UpdateShardGroup: the controller's own write after a successful upsert. */
    method UpdateShardGroup(shard: string, key: string, status: GroupStatus)
      modifies this
      ensures GroupsAt(shardGroups, shard) == GroupsAt(old(shardGroups), shard)[key := status]
      ensures forall other :: other != shard ==> GroupsAt(shardGroups, other) == GroupsAt(old(shardGroups), other)
    {
      shardGroups := shardGroups[shard := GroupsAt(shardGroups, shard)[key := status]];
    }

    /** applyGroupEvent */
    method ApplyGroupEvent(shard: string, event: Event)
      modifies this
      ensures GroupsAt(shardGroups, shard) == Received(GroupsAt(old(shardGroups), shard), Happened(shard, event))
      ensures event.Upserted? ==>
        event.group.key in GroupsAt(shardGroups, shard)
        && GroupsAt(shardGroups, shard)[event.group.key] == event.group
      ensures event.Deleted? ==> event.group.key !in GroupsAt(shardGroups, shard)
      ensures GroupsAt(shardGroups, shard) - {event.group.key} ==
              GroupsAt(old(shardGroups), shard) - {event.group.key}
      ensures forall other :: other != shard ==> GroupsAt(shardGroups, other) == GroupsAt(old(shardGroups), other)
    {
      if shard !in shardGroups {
        shardGroups := shardGroups[shard := map[]];
      }
      match event {
        case Upserted(group) => shardGroups := shardGroups[shard := shardGroups[shard][group.key := group]];
        case Deleted(group) => shardGroups := shardGroups[shard := shardGroups[shard] - {group.key}];
      }
    }

    /** syncShard: a failed listing changes nothing; another becomes the shard's whole cache. */
    method SyncShard(shard: string, response: Option<seq<GroupStatus>>) returns (ok: bool)
      modifies this
      ensures ok == response.Some?
      ensures GroupsAt(shardGroups, shard) == if ok then Listing(response.value) else GroupsAt(old(shardGroups), shard)
      ensures forall other :: other != shard ==> GroupsAt(shardGroups, other) == GroupsAt(old(shardGroups), other)
    {
      if response.None? {
        return false;
      }
      var cached := Refill(GroupsAt(shardGroups, shard), response.value);
      shardGroups := shardGroups[shard := cached];
      return true;
    }

    /** aggregateGroups, walking shards and groups in arbitrary order. */
    method AggregateGroups() returns (result: map<string, Aggregate>)
      ensures Aggregated(shardGroups, shardGroups.Keys, result)
    {
      result := map[];
      var rest := shardGroups.Keys;
      ghost var visited := {};
      forall key ensures AggregateOf(shardGroups, key, {}, NOTHING) { AggregateNothing(shardGroups, key); }
      while rest != {}
        invariant rest <= shardGroups.Keys && visited == shardGroups.Keys - rest
        invariant Aggregated(shardGroups, visited, result)
        decreases |rest|
      {
        var shard :| shard in rest;
        result := AddShard(shard, visited, result);
        visited := visited + {shard};
        rest := rest - {shard};
      }
      assert visited == shardGroups.Keys;
    }

    method AddShard(shard: string, ghost visited: set<string>, before: map<string, Aggregate>)
      returns (result: map<string, Aggregate>)
      requires shard in shardGroups && shard !in visited && Aggregated(shardGroups, visited, before)
      ensures Aggregated(shardGroups, visited + {shard}, result)
    {
      result := JoinAll(before, shard, shardGroups[shard]);
      hide Aggregated, Joined, Found;
      AggregatedStep(shardGroups, visited, shard, before, result);
    }
  }

  lemma KeysStep(cache: Cache, visited: set<string>, shard: string, key: string)
    ensures (exists s :: s in visited + {shard} && key in GroupsAt(cache, s)) <==>
            (exists s :: s in visited && key in GroupsAt(cache, s)) || key in GroupsAt(cache, shard)
  {
  }

  // ----- from a distribution to its total -----

  /** The cache holds a group on exactly the given shards, with the given sizes. */
  ghost predicate Holds(cache: Cache, key: string, sizes: map<string, int>) {
    && (forall s :: key in GroupsAt(cache, s) <==> s in sizes)
    && (forall s :: s in sizes ==> SizeIn(cache, s, key) == sizes[s])
  }

  lemma {:induction false} TotalOfPrefix(cache: Cache, key: string, total: int, shards: seq<string>, k: nat)
    requires shards != [] && NoDup(shards) && k <= |shards|
    requires forall i :: 0 <= i < |shards| ==> SizeIn(cache, shards[i], key) == SizeAt(total, |shards|, i)
    ensures Total(cache, key, Elems(shards[..k])) == SumSizes(total, |shards|, k)
  {
    if k == 0 {
      assert Elems(shards[..0]) == {};
    } else {
      TotalOfPrefix(cache, key, total, shards, k - 1);
      assert shards[..k] == shards[..k - 1] + [shards[k - 1]];
      ElemsSnoc(shards[..k - 1], shards[k - 1]);
      TotalAdds(cache, key, Elems(shards[..k - 1]), shards[k - 1]);
    }
  }

  /** Shards without the group add nothing. */
  lemma {:induction false} TotalIgnores(cache: Cache, key: string, shards: set<string>, more: set<string>)
    requires shards <= more && forall s :: s in more && s !in shards ==> SizeIn(cache, s, key) == 0
    ensures Total(cache, key, more) == Total(cache, key, shards)
    decreases |more|
  {
    if shards != more {
      var x :| x in more && x !in shards;
      TotalSplits(cache, key, more, x);
      TotalIgnores(cache, key, shards, more - {x});
    }
  }

  /** Sizes spread over distinct shards, stored and aggregated in any order, give the total back. */
  lemma DistributionComesBack(cache: Cache, key: string, total: nat, shards: seq<string>, sizes: map<string, int>,
                              result: map<string, Aggregate>)
    requires shards != [] && NoDup(shards) && (forall s :: s in sizes <==> s in shards)
    requires forall i :: 0 <= i < |shards| ==> sizes[shards[i]] == SizeAt(total, |shards|, i)
    requires Holds(cache, key, sizes) && Aggregated(cache, cache.Keys, result)
    ensures key in result && result[key].total == total && Elems(result[key].shards) == Elems(shards)
  {
    Conservation(total, |shards|);
    TotalOfPrefix(cache, key, total, shards, |shards|);
    assert shards[..|shards|] == shards;
    assert forall s :: s in sizes ==> key in GroupsAt(cache, s) && s in cache;
    TotalIgnores(cache, key, Elems(shards), cache.Keys);
    assert shards[0] in sizes;
    assert AggregateOf(cache, key, cache.Keys, Found(result, key));
  }

  // ----- runs of inputs -----

  function Cached(cache: Cache, input: Input): Cache {
    cache[input.shard := Received(GroupsAt(cache, input.shard), input)]
  }

  function CachedAll(cache: Cache, inputs: seq<Input>): Cache {
    if inputs == [] then cache else Cached(CachedAll(cache, inputs[..|inputs| - 1]), inputs[|inputs| - 1])
  }

  /** One shard's own inputs, in order, from what it held. */
  function ReceivedAll(groups: ShardGroups, shard: string, inputs: seq<Input>): ShardGroups {
    if inputs == [] then groups
    else
      var before, last := ReceivedAll(groups, shard, inputs[..|inputs| - 1]), inputs[|inputs| - 1];
      if last.shard == shard then Received(before, last) else before
  }

  /** Over any run, a shard's cache is decided by its own listings and events alone. */
  lemma {:induction false} ShardsIndependent(cache: Cache, inputs: seq<Input>, shard: string)
    ensures GroupsAt(CachedAll(cache, inputs), shard) == ReceivedAll(GroupsAt(cache, shard), shard, inputs)
  {
    if inputs != [] {
      ShardsIndependent(cache, inputs[..|inputs| - 1], shard);
    }
  }

  /** After a listing, what was cached before no longer matters. */
  lemma {:induction false} ListingForgets(groups: ShardGroups, groups': ShardGroups, shard: string, inputs: seq<Input>,
                                          i: nat)
    requires i < |inputs| && inputs[i].Listed? && inputs[i].shard == shard
    ensures ReceivedAll(groups, shard, inputs) == ReceivedAll(groups', shard, inputs)
  {
    if i < |inputs| - 1 {
      ListingForgets(groups, groups', shard, inputs[..|inputs| - 1], i);
    }
  }

  /**
   Whatever listings and events arrive: if each shard's own leave the group with the
   size it was given, and no other shard with the group, aggregation gives the total.
   */
  lemma RunComesBack(cache: Cache, inputs: seq<Input>, key: string, total: nat, shards: seq<string>,
                     result: map<string, Aggregate>)
    requires shards != [] && NoDup(shards)
    requires forall s :: key in ReceivedAll(GroupsAt(cache, s), s, inputs) <==> s in shards
    requires forall i :: 0 <= i < |shards| ==>
      ReceivedAll(GroupsAt(cache, shards[i]), shards[i], inputs)[key].size == SizeAt(total, |shards|, i)
    requires var after := CachedAll(cache, inputs); Aggregated(after, after.Keys, result)
    ensures key in result && result[key].total == total && Elems(result[key].shards) == Elems(shards)
  {
    var after := CachedAll(cache, inputs);
    forall s
      ensures GroupsAt(after, s) == ReceivedAll(GroupsAt(cache, s), s, inputs)
    {
      ShardsIndependent(cache, inputs, s);
    }
    var sizes := map s | s in shards :: SizeIn(after, s, key);
    DistributionComesBack(after, key, total, shards, sizes, result);
  }

  /** The upserts that tell the shards their sizes. */
  function Upserts(key: string, shards: seq<string>, statuses: seq<GroupStatus>): seq<Input>
    requires |statuses| == |shards|
  {
    seq(|shards|, i requires 0 <= i < |shards| => Happened(shards[i], Upserted(statuses[i].(key := key))))
  }

  function Listings(shards: seq<string>, lists: seq<seq<GroupStatus>>): seq<Input>
    requires |lists| == |shards|
  {
    seq(|shards|, i requires 0 <= i < |shards| => Listed(shards[i], lists[i]))
  }

  /** One input for each of some distinct shards: each receives its own, and every other shard nothing. */
  lemma {:induction false} EachReceivesItsOwn(groups: ShardGroups, shard: string, shards: seq<string>,
                                              inputs: seq<Input>, n: nat)
    requires NoDup(shards) && |inputs| == |shards| && n <= |inputs|
    requires forall i :: 0 <= i < |inputs| ==> inputs[i].shard == shards[i]
    ensures forall i :: 0 <= i < n && shards[i] == shard ==>
      ReceivedAll(groups, shard, inputs[..n]) == Received(groups, inputs[i])
    ensures shard !in shards[..n] ==> ReceivedAll(groups, shard, inputs[..n]) == groups
  {
    if n > 0 {
      EachReceivesItsOwn(groups, shard, shards, inputs, n - 1);
      assert inputs[..n][..n - 1] == inputs[..n - 1];
      assert shards[..n] == shards[..n - 1] + [shards[n - 1]];
      if shards[n - 1] == shard {
        assert shard !in shards[..n - 1];
      }
    }
  }

  lemma ReceivesItsOwn(groups: ShardGroups, shard: string, shards: seq<string>, inputs: seq<Input>)
    requires NoDup(shards) && |inputs| == |shards|
    requires forall i :: 0 <= i < |inputs| ==> inputs[i].shard == shards[i]
    ensures forall i :: 0 <= i < |shards| && shards[i] == shard ==>
      ReceivedAll(groups, shard, inputs) == Received(groups, inputs[i])
    ensures shard !in shards ==> ReceivedAll(groups, shard, inputs) == groups
  {
    EachReceivesItsOwn(groups, shard, shards, inputs, |inputs|);
    assert inputs[..|inputs|] == inputs && shards[..|shards|] == shards;
  }

  /**
   Telling each shard its size by an event, in a cache that knows the group on no other
   shard, and aggregating gives the total.
   */
  lemma EventsComeBack(cache: Cache, key: string, total: nat, shards: seq<string>, statuses: seq<GroupStatus>,
                       result: map<string, Aggregate>)
    requires shards != [] && NoDup(shards) && |statuses| == |shards|
    requires forall i :: 0 <= i < |shards| ==> statuses[i].size == SizeAt(total, |shards|, i)
    requires forall s :: key in GroupsAt(cache, s) ==> s in shards
    requires var after := CachedAll(cache, Upserts(key, shards, statuses)); Aggregated(after, after.Keys, result)
    ensures key in result && result[key].total == total && Elems(result[key].shards) == Elems(shards)
  {
    var inputs := Upserts(key, shards, statuses);
    forall s
      ensures key in ReceivedAll(GroupsAt(cache, s), s, inputs) <==> s in shards
    {
      ReceivesItsOwn(GroupsAt(cache, s), s, shards, inputs);
    }
    forall i | 0 <= i < |shards|
      ensures ReceivedAll(GroupsAt(cache, shards[i]), shards[i], inputs)[key].size == SizeAt(total, |shards|, i)
    {
      ReceivesItsOwn(GroupsAt(cache, shards[i]), shards[i], shards, inputs);
    }
    RunComesBack(cache, inputs, key, total, shards, result);
  }

  /** So does listing each shard, when its listing shows the group with the size it was given. */
  lemma ListingsComeBack(cache: Cache, key: string, total: nat, shards: seq<string>, lists: seq<seq<GroupStatus>>,
                         result: map<string, Aggregate>)
    requires shards != [] && NoDup(shards) && |lists| == |shards|
    requires forall i :: 0 <= i < |shards| ==>
      key in Listing(lists[i]) && Listing(lists[i])[key].size == SizeAt(total, |shards|, i)
    requires forall s :: key in GroupsAt(cache, s) ==> s in shards
    requires var after := CachedAll(cache, Listings(shards, lists)); Aggregated(after, after.Keys, result)
    ensures key in result && result[key].total == total && Elems(result[key].shards) == Elems(shards)
  {
    var inputs := Listings(shards, lists);
    forall s
      ensures key in ReceivedAll(GroupsAt(cache, s), s, inputs) <==> s in shards
    {
      ReceivesItsOwn(GroupsAt(cache, s), s, shards, inputs);
    }
    forall i | 0 <= i < |shards|
      ensures ReceivedAll(GroupsAt(cache, shards[i]), shards[i], inputs)[key].size == SizeAt(total, |shards|, i)
    {
      ReceivesItsOwn(GroupsAt(cache, shards[i]), shards[i], shards, inputs);
    }
    RunComesBack(cache, inputs, key, total, shards, result);
  }
}
