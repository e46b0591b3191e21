/**
 The tunnel runtime: publish a static Pod, wait until it serves, watch it, and on
 the way out prove with a fresh-generation barrier Pod that the kubelet has
 revoked it. Between any two operations, and between the two listings of one
 observation, the kubelet makes any number of moves.
 */
module TunnelRuntime {
  import opened Common
  import opened TunnelNode

  datatype Observation = Observation(ready: bool, running: bool, stopped: bool)

  /**
   Classifies the sandboxes and containers of one generation: ready when a
   sandbox is, running when a ready sandbox holds a running tunnel container,
   stopped when no sandbox is ready and every container has exited.
   */
  method Classify(sandboxes: seq<Sandbox>, containers: seq<Container>) returns (o: Observation)
    ensures o.ready <==> exists s :: s in sandboxes && s.ready
    ensures o.running <==>
      exists s, c :: s in sandboxes && s.ready && c in containers && c.sandbox == s.id && c.tunnel && c.state.Running?
    ensures o.stopped <==>
      (forall s :: s in sandboxes ==> !s.ready) && (forall c :: c in containers ==> c.state.Exited?)
  {
    var ready, running, stopped := false, false, true;
    for i := 0 to |sandboxes|
      invariant ready <==> exists s :: s in sandboxes[..i] && s.ready
      invariant running <==>
        exists s, c :: s in sandboxes[..i] && s.ready && c in containers && c.sandbox == s.id &&
          c.tunnel && c.state.Running?
      invariant stopped <==> forall s :: s in sandboxes[..i] ==> !s.ready
    {
      var sandbox := sandboxes[i];
      assert sandboxes[..i + 1] == sandboxes[..i] + [sandbox];
      if !sandbox.ready {
        continue;
      }
      ready, stopped := true, false;
      var serves := Serves(sandbox, containers);
      running := running || serves;
    }
    assert sandboxes[..|sandboxes|] == sandboxes;
    ghost var none := stopped;
    for j := 0 to |containers|
      invariant stopped <==> none && forall c :: c in containers[..j] ==> c.state.Exited?
    {
      assert containers[..j + 1] == containers[..j] + [containers[j]];
      if !containers[j].state.Exited? {
        stopped := false;
      }
    }
    assert containers[..|containers|] == containers;
    o := Observation(ready, running, stopped);
  }

  method Serves(sandbox: Sandbox, containers: seq<Container>) returns (running: bool)
    ensures running <==> exists c :: c in containers && c.sandbox == sandbox.id && c.tunnel && c.state.Running?
  {
    running := false;
    for j := 0 to |containers|
      invariant running <==> exists c :: c in containers[..j] && c.sandbox == sandbox.id && c.tunnel && c.state.Running?
    {
      assert containers[..j + 1] == containers[..j] + [containers[j]];
      if containers[j].sandbox == sandbox.id && containers[j].tunnel && containers[j].state.Running? {
        running := true;
      }
    }
    assert containers[..|containers|] == containers;
  }

  /** One exchange with the host: an observation of a generation, a probe, or a change on disk, and how it went. */
  datatype Sight =
    | Looked(uid: Uid, seen: Option<Observation>)
    | Probed(ok: bool)
    | Wrote(ok: bool)
    | Removed(ok: bool)
    | Cleaned(ok: bool)

  /** At `k` this generation was seen with a running tunnel in a ready sandbox, and the probe right after succeeded. */
  ghost predicate Serving(sights: seq<Sight>, k: int, uid: Uid) {
    && 0 <= k < |sights| - 1 && sights[k].Looked? && sights[k].uid == uid && sights[k].seen.Some?
    && sights[k].seen.value.ready && sights[k].seen.value.running && sights[k + 1] == Probed(true)
  }

  /** At `k` the barrier was seen ready, and right after the generation it replaces was seen stopped. */
  ghost predicate Revoking(sights: seq<Sight>, k: int, uid: Uid, barrier: Uid) {
    && 0 <= k < |sights| - 1 && sights[k].Looked? && sights[k].uid == barrier && sights[k].seen.Some?
    && sights[k].seen.value.ready && sights[k + 1].Looked? && sights[k + 1].uid == uid && sights[k + 1].seen.Some?
    && sights[k + 1].seen.value.stopped
  }

  predicate Failing(s: Sight) {
    match s
    case Looked(_, seen) => seen.None?
    case Probed(ok) => !ok
    case Wrote(ok) => !ok
    case Removed(ok) => !ok
    case Cleaned(ok) => !ok
  }

  /** One poll of a drain that did not see the generation revoked. */
  ghost predicate Poll(sights: seq<Sight>, uid: Uid, barrier: Uid) {
    && 1 <= |sights| <= 2 && sights[0].Looked? && sights[0].uid == barrier && sights[0].seen.Some?
    && (if sights[0].seen.value.ready
        then |sights| == 2 && sights[1].Looked? && sights[1].uid == uid && sights[1].seen.Some?
             && !sights[1].seen.value.stopped
        else |sights| == 1)
  }

  /** Since `n` the barrier was looked at `polls` times, and the generation was never seen revoked. */
  ghost predicate Unconfirmed(sights: seq<Sight>, n: nat, uid: Uid, barrier: Uid, polls: nat) {
    && n <= |sights| && Looks(sights[n..], barrier) == polls
    && forall k :: n <= k < |sights| ==> !Revoking(sights, k, uid, barrier)
  }

  /** At no point was the generation seen revoked, however often the barrier was looked at. */
  ghost predicate NeverConfirmed(sights: seq<Sight>, uid: Uid, barrier: Uid, polls: nat) {
    exists n: nat :: Unconfirmed(sights, n, uid, barrier, polls)
  }

  lemma NothingConfirmed(sights: seq<Sight>, ok: bool, uid: Uid, barrier: Uid)
    ensures Unconfirmed(sights + [Wrote(ok)], |sights|, uid, barrier, 0)
  {
    assert (sights + [Wrote(ok)])[|sights|..] == [Wrote(ok)];
    LooksSnoc([], Wrote(ok), barrier);
    assert [] + [Wrote(ok)] == [Wrote(ok)];
  }

  lemma PollAdds(sights: seq<Sight>, n: nat, poll: seq<Sight>, uid: Uid, barrier: Uid, polls: nat)
    requires Unconfirmed(sights, n, uid, barrier, polls) && Poll(poll, uid, barrier) && uid != barrier
    ensures Unconfirmed(sights + poll, n, uid, barrier, polls + 1)
  {
    var after := sights + poll;
    RoundLooks(sights, n, poll[0], barrier);
    if |poll| == 2 {
      RoundLooks(sights + [poll[0]], n, poll[1], barrier);
      assert sights + [poll[0]] + [poll[1]] == after;
    } else {
      assert sights + [poll[0]] == after;
    }
    forall k | n <= k < |after|
      ensures !Revoking(after, k, uid, barrier)
    {
      if k < |sights| - 1 {
        assert after[k] == sights[k] && after[k + 1] == sights[k + 1] && !Revoking(sights, k, uid, barrier);
      }
    }
  }

  lemma RoundLooks(sights: seq<Sight>, n: nat, s: Sight, uid: Uid)
    requires n <= |sights|
    ensures Looks((sights + [s])[n..], uid) == Looks(sights[n..], uid) + if s.Looked? && s.uid == uid then 1 else 0
  {
    assert (sights + [s])[n..] == sights[n..] + [s];
    LooksSnoc(sights[n..], s, uid);
  }

  ghost predicate NoProbe(sights: seq<Sight>, n: nat) {
    forall k :: n <= k < |sights| ==> !sights[k].Probed?
  }

  /** Where nothing is probed, nothing new is found serving. */
  lemma NothingNewServes(before: seq<Sight>, after: seq<Sight>, n: nat, uid: Uid)
    requires before <= after && NoProbe(after, |before|) && n <= |before|
    ensures (exists k :: n <= k && Serving(after, k, uid)) <==> (exists k :: n <= k && Serving(before, k, uid))
  {
    forall k | n <= k && Serving(after, k, uid)
      ensures Serving(before, k, uid)
    {
    }
    forall k | n <= k && Serving(before, k, uid)
      ensures Serving(after, k, uid)
    {
    }
  }

  /** Since `n` the generation was never found serving. */
  ghost predicate NoneServing(sights: seq<Sight>, n: nat, uid: Uid) {
    forall k :: n <= k < |sights| ==> !Serving(sights, k, uid)
  }

  lemma StillNone(sights: seq<Sight>, n: nat, s: Sight, uid: Uid)
    requires NoneServing(sights, n, uid) && s != Probed(true)
    ensures NoneServing(sights + [s], n, uid)
  {
    forall k | n <= k < |sights + [s]|
      ensures !Serving(sights + [s], k, uid)
    {
      assert k < |sights| - 1 ==> !Serving(sights, k, uid);
    }
  }

  /** Every look between `n` and `m` found the generation serving. */
  ghost predicate Served(sights: seq<Sight>, n: nat, m: int, uid: Uid) {
    forall k :: n <= k < m && k < |sights| && sights[k].Looked? ==> Serving(sights, k, uid)
  }

  /** The last thing heard of the generation is that it does not serve, or nothing could be heard. */
  ghost predicate Lost(sights: seq<Sight>, uid: Uid) {
    && sights != []
    && match sights[|sights| - 1]
       case Looked(u, seen) => u == uid && (seen.None? || !seen.value.ready || !seen.value.running)
       case Probed(ok) => !ok
       case _ => false
  }

  /** How often a generation was looked at. */
  function Looks(sights: seq<Sight>, uid: Uid): nat {
    if sights == [] then 0
    else
      var last := sights[|sights| - 1];
      Looks(sights[..|sights| - 1], uid) + if last.Looked? && last.uid == uid then 1 else 0
  }

  lemma LooksSnoc(sights: seq<Sight>, s: Sight, uid: Uid)
    ensures Looks(sights + [s], uid) == Looks(sights, uid) + if s.Looked? && s.uid == uid then 1 else 0
  {
    assert (sights + [s])[..|sights|] == sights;
  }

  /**
   What an observation says of the node: sandboxes as they were at the first listing, containers as
   they were at the second.
   */
  ghost predicate Sees(first: Node, second: Node, uid: Uid, o: Observation) {
    && (o.ready <==> exists id :: Up(first, id, uid))
    && (o.running <==> exists id, c :: Up(first, id, uid) && Runs(second, c, uid, id))
    && (o.stopped <==>
          && (forall id :: !Up(first, id, uid))
          && (forall c :: c in second.containers && second.containers[c].uid == uid ==>
                second.containers[c].state.Exited?))
  }

  /** A sandbox of the generation is ready. */
  ghost predicate Up(n: Node, id: Id, uid: Uid) {
    id in n.sandboxes && n.sandboxes[id].uid == uid && n.sandboxes[id].ready
  }

  /** A tunnel container of the generation runs in the sandbox. */
  ghost predicate Runs(n: Node, c: Id, uid: Uid, sandbox: Id) {
    && c in n.containers && n.containers[c].uid == uid && n.containers[c].sandbox == sandbox
    && n.containers[c].tunnel && n.containers[c].state.Running?
  }

  lemma ClassifiedSees(first: Node, second: Node, uid: Uid, sandboxes: seq<Sandbox>, containers: seq<Container>,
                       o: Observation)
    requires forall id :: id in first.sandboxes ==> first.sandboxes[id].id == id
    requires forall s :: s in sandboxes <==> s.id in first.sandboxes && first.sandboxes[s.id] == s && s.uid == uid
    requires forall c :: c in second.containers && second.containers[c].uid == uid ==>
      second.containers[c] in containers
    requires forall c :: c in containers ==>
      exists id :: id in second.containers && second.containers[id] == c && c.uid == uid
    requires o.ready <==> exists s :: s in sandboxes && s.ready
    requires o.running <==>
      exists s, c :: s in sandboxes && s.ready && c in containers && c.sandbox == s.id && c.tunnel && c.state.Running?
    requires o.stopped <==>
      (forall s :: s in sandboxes ==> !s.ready) && (forall c :: c in containers ==> c.state.Exited?)
    ensures Sees(first, second, uid, o)
  {
    assert forall id :: Up(first, id, uid) ==> first.sandboxes[id] in sandboxes;
    assert forall s :: s in sandboxes && s.ready ==> Up(first, s.id, uid);
    if o.running {
      var s, c :| s in sandboxes && s.ready && c in containers && c.sandbox == s.id && c.tunnel && c.state.Running?;
      var id :| id in second.containers && second.containers[id] == c && c.uid == uid;
      assert Up(first, s.id, uid) && Runs(second, id, uid, s.id);
    }
    if id, c :| Up(first, id, uid) && Runs(second, c, uid, id) {
      assert first.sandboxes[id] in sandboxes && second.containers[c] in containers;
    }
  }

  /** How a run ends; `DrainFailed` is the error that makes the supervisor fence the tunnel. */
  datatype RunResult = Refused(message: string) | Ended(message: string) | DrainFailed

  class Host {
    var node: Node
    ghost var start: Node
    ghost var history: seq<Event>
    var reports: seq<bool>
    ghost var sights: seq<Sight>

    ghost predicate Valid()
      reads this
    {
      Inv(node) && Exec(start, history) == Some(node)
    }

    constructor ()
      ensures Valid() && node == Node(0, None, None, {}, {}, map[], map[]) && reports == [] && sights == []
    {
      node := Node(0, None, None, {}, {}, map[], map[]);
      start, history, reports, sights := Node(0, None, None, {}, {}, map[], map[]), [], [], [];
    }

    ghost method Log(before: Node, e: Event)
      requires Exec(start, history) == Some(before) && EventEnabled(before, e) && node == AfterEvent(before, e)
      requires Inv(node)
      modifies this`history
      ensures Valid() && history == old(history) + [e]
    {
      assert (history + [e])[..|history|] == history;
      history := history + [e];
    }

    /** The kubelet makes one of the moves open to it, or none. */
    method KubeletMove(move: Move)
      requires Valid()
      modifies this`node, this`history
      ensures Valid() && Calm(old(node), node)
    {
      if Enabled(node, move) {
        ghost var before := node;
        MoveIsCalm(node, move);
        MoveKeepsInv(node, move);
        node := Next(node, move);
        Log(before, Kubelet(move));
      }
    }

    /** The kubelet moves, any number of times. */
    method KubeletMoves()
      requires Valid()
      modifies this`node, this`history
      ensures Valid() && Calm(old(node), node)
    {
      var moves :| 0 <= moves;
      for i := 0 to moves
        invariant Valid() && Calm(old(node), node)
      {
        var move: Move := *;
        ghost var before := node;
        KubeletMove(move);
        CalmTrans(old(node), before, node);
      }
    }

    // ----- observing -----

    /** Lists the sandboxes of one generation; the call may fail. */
    method ListSandboxes(uid: Uid) returns (r: Option<seq<Sandbox>>)
      requires Valid()
      ensures r.Some? ==> forall s :: s in r.value <==>
        s.id in node.sandboxes && node.sandboxes[s.id] == s && s.uid == uid
    {
      var fails: bool := *;
      if fails {
        return None;
      }
      var found: seq<Sandbox>, rest := [], node.sandboxes.Keys;
      while rest != {}
        invariant rest <= node.sandboxes.Keys
        invariant forall s :: s in found <==>
          s.id in node.sandboxes && s.id !in rest && node.sandboxes[s.id] == s && s.uid == uid
        decreases |rest|
      {
        var id :| id in rest;
        if node.sandboxes[id].uid == uid {
          found := found + [node.sandboxes[id]];
        }
        rest := rest - {id};
      }
      return Some(found);
    }

    /** Lists the containers of one generation; the call may fail. */
    method ListContainers(uid: Uid) returns (r: Option<seq<Container>>)
      requires Valid()
      ensures r.Some? ==>
        forall id :: id in node.containers && node.containers[id].uid == uid ==> node.containers[id] in r.value
      ensures r.Some? ==>
        forall c :: c in r.value ==> exists id :: id in node.containers && node.containers[id] == c && c.uid == uid
    {
      var fails: bool := *;
      if fails {
        return None;
      }
      var found: seq<Container>, rest := [], node.containers.Keys;
      while rest != {}
        invariant rest <= node.containers.Keys
        invariant forall id :: id in node.containers && id !in rest && node.containers[id].uid == uid ==>
          node.containers[id] in found
        invariant forall c :: c in found ==>
          exists id :: id in node.containers && node.containers[id] == c && c.uid == uid
        decreases |rest|
      {
        var id :| id in rest;
        if node.containers[id].uid == uid {
          found := found + [node.containers[id]];
        }
        rest := rest - {id};
      }
      return Some(found);
    }

    /**
     Observes one generation with two listings; the kubelet moves before each.
     A ready sandbox proves every older generation superseded; a stopped answer
     about a superseded generation proves that nothing of it is alive.
     */
    method PodState(uid: Uid) returns (o: Option<Observation>)
      requires Valid()
      modifies this`node, this`history, this`sights
      ensures Valid() && Calm(old(node), node) && sights == old(sights) + [Looked(uid, o)]
      ensures o.Some? ==>
        exists first :: Calm(old(node), first) && Calm(first, node) && Sees(first, node, uid, o.value)
      ensures o.Some? && o.value.ready ==> forall older: Uid :: older < uid ==> Superseded(node, older)
      ensures o.Some? && o.value.stopped && Superseded(old(node), uid) ==> !Alive(node, uid)
    {
      o := Observe(uid);
      sights := sights + [Looked(uid, o)];
    }

    method Observe(uid: Uid) returns (o: Option<Observation>)
      requires Valid()
      modifies this`node, this`history
      ensures Valid() && Calm(old(node), node)
      ensures o.Some? ==>
        exists first :: Calm(old(node), first) && Calm(first, node) && Sees(first, node, uid, o.value)
      ensures o.Some? && o.value.ready ==> forall older: Uid :: older < uid ==> Superseded(node, older)
      ensures o.Some? && o.value.stopped && Superseded(old(node), uid) ==> !Alive(node, uid)
    {
      KubeletMoves();
      var sandboxes := ListSandboxes(uid);
      if sandboxes.None? {
        return None;
      }
      ghost var first := node;
      KubeletMoves();
      CalmTrans(old(node), first, node);
      var containers := ListContainers(uid);
      if containers.None? {
        return None;
      }
      var seen := Classify(sandboxes.value, containers.value);
      if seen.ready {
        ghost var s :| s in sandboxes.value && s.ready;
        assert forall older: Uid :: older < uid ==> Superseded(first, older);
      }
      if seen.stopped && Superseded(first, uid) {
        NothingLeft(first, node, uid, sandboxes.value);
      }
      ClassifiedSees(first, node, uid, sandboxes.value, containers.value, seen);
      return Some(seen);
    }

    static lemma NothingLeft(first: Node, second: Node, uid: Uid, sandboxes: seq<Sandbox>)
      requires Superseded(first, uid) && Settles(first, second)
      requires forall id :: id in first.sandboxes ==> first.sandboxes[id].id == id
      requires forall s :: s in sandboxes <==> s.id in first.sandboxes && first.sandboxes[s.id] == s && s.uid == uid
      requires forall s :: s in sandboxes ==> !s.ready
      requires forall id :: id in second.containers && second.containers[id].uid == uid ==>
        second.containers[id].state.Exited?
      ensures !Alive(second, uid)
    {
    }

    // ----- acting -----

    method DrawUid() returns (uid: Uid)
      requires Valid()
      modifies this`node, this`history
      ensures Valid() && uid == old(node).issued && node.issued == uid + 1 && Newest(node, uid)
      ensures Superseded(node, uid) && !Alive(node, uid)
      ensures Settles(old(node), node)
    {
      KubeletMoves();
      uid := node.issued;
      ghost var before := node;
      ManifestKeepsInv(node, Draw(node));
      node := Draw(node);
      Log(before, Drawn);
      SettlesTrans(old(node), before, node);
      assert forall w: Uid :: w in node.workers || w in node.retired ==> Started(before, w);
      assert forall id :: id in node.sandboxes ==> SandboxInv(before, node.sandboxes[id]);
      assert forall id :: id in node.containers ==> Started(before, node.containers[id].uid);
    }

    /** Replaces the manifest; the write may take effect although it reports an error. */
    method PublishPod(uid: Uid) returns (ok: bool)
      requires Valid() && Newest(node, uid)
      modifies this`node, this`history, this`sights
      ensures Valid() && node.issued == old(node).issued && Newest(node, uid) && sights == old(sights) + [Wrote(ok)]
      ensures ok ==> node.manifest == Some(uid)
      ensures !ok ==> node.manifest == old(node).manifest || node.manifest == Some(uid)
      ensures OlderGoneStay(old(node), node, uid)
    {
      KubeletMoves();
      PublishedStayGone(old(node), node, uid);
      ghost var before := node;
      var effect: bool := *;
      ok := *;
      if ok || effect {
        PublishKeepsInv(node, uid);
        node := Publish(node, uid);
        Log(before, Published(uid));
      }
      sights := sights + [Wrote(ok)];
    }

    method RemoveManifest() returns (ok: bool)
      requires Valid()
      modifies this`node, this`history, this`sights
      ensures Valid() && Settles(old(node), node) && node.issued == old(node).issued
      ensures sights == old(sights) + [Removed(ok)]
      ensures node.manifest == if ok then None else old(node).manifest
    {
      KubeletMoves();
      ok := *;
      if ok {
        ghost var before := node;
        ManifestKeepsInv(node, Unpublish(node));
        node := Unpublish(node);
        Log(before, Withdrawn);
        SettlesTrans(old(node), before, node);
      }
      sights := sights + [Removed(ok)];
    }

    /** Removes the files of the run. */
    method Clean() returns (ok: bool)
      modifies this`sights
      ensures sights == old(sights) + [Cleaned(ok)]
    {
      ok := *;
      sights := sights + [Cleaned(ok)];
    }

    /** Asks the tunnel whether it serves. */
    method IsReady() returns (ok: bool)
      modifies this`sights
      ensures sights == old(sights) + [Probed(ok)]
    {
      ok := *;
      sights := sights + [Probed(ok)];
    }

    /**
     Confirms that the kubelet has revoked generation `uid`: publishes a barrier
     Pod under the same name and polls until its sandbox is ready and nothing of
     the old generation is alive. Success means that nothing of it is alive, and
     that nothing can bring it to life. Generations revoked before stay revoked.
     It fails only when an operation does, or when none of its polls saw the
     barrier ready and the old generation stopped.
     */
    method Drain(uid: Uid, polls: nat) returns (ok: bool)
      requires Valid() && Newest(node, uid)
      modifies this`node, this`history, this`sights
      ensures Valid() && old(node).issued <= node.issued && old(sights) < sights
      ensures ok ==> Gone(node, uid) && node.manifest.None?
      ensures !ok ==> Failing(sights[|sights| - 1]) || Unconfirmed(sights, |old(sights)|, uid, old(node).issued, polls)
      ensures NoProbe(sights, |old(sights)|)
      ensures GoneStay(old(node), node)
    {
      var barrier := DrawUid();
      SettledStayGone(old(node), node);
      var published := PublishPod(barrier);
      if !published {
        return false;
      }
      NothingConfirmed(old(sights), true, uid, barrier);
      for i := 0 to polls
        invariant Valid() && uid < barrier < node.issued && old(node).issued <= node.issued && GoneStay(old(node), node)
        invariant old(sights) < sights && NoProbe(sights, |old(sights)|)
        invariant Unconfirmed(sights, |old(sights)|, uid, barrier, i)
      {
        hide Unconfirmed, Inv;
        ghost var before := sights;
        var revoked := Revoked(uid, barrier);
        if revoked.None? {
          return false;
        }
        if revoked.value {
          ok := Withdraw();
          return;
        }
        PollAdds(before, |old(sights)|, sights[|before|..], uid, barrier, i);
        assert before + sights[|before|..] == sights;
      }
      return false;
    }

    /** Takes the barrier down and cleans up. */
    method Withdraw() returns (ok: bool)
      requires Valid()
      modifies this`node, this`history, this`sights
      ensures Valid() && node.issued == old(node).issued && GoneStay(old(node), node) && old(sights) < sights
      ensures NoProbe(sights, |old(sights)|)
      ensures if ok then node.manifest.None? else Failing(sights[|sights| - 1])
    {
      ok := RemoveManifest();
      SettledStayGone(old(node), node);
      if ok {
        ok := Clean();
      }
    }

    /** One poll of a drain: the barrier's sandbox first, then the old generation; None if an observation fails. */
    method Revoked(uid: Uid, barrier: Uid) returns (r: Option<bool>)
      requires Valid() && uid < barrier < node.issued
      modifies this`node, this`history, this`sights
      ensures Valid() && node.issued == old(node).issued && GoneStay(old(node), node) && old(sights) < sights
      ensures NoProbe(sights, |old(sights)|)
      ensures r == Some(true) ==> Gone(node, uid)
      ensures r.None? ==> Failing(sights[|sights| - 1])
      ensures r == Some(false) ==> Poll(sights[|old(sights)|..], uid, barrier)
    {
      var observed := PodState(barrier);
      SettledStayGone(old(node), node);
      if observed.None? || !observed.value.ready {
        return if observed.None? then None else Some(false);
      }
      ghost var first := node;
      assert Superseded(first, uid);
      var older := PodState(uid);
      CalmTrans(old(node), first, node);
      SettledStayGone(old(node), node);
      return if older.None? then None else Some(older.value.stopped);
    }

    /**
     Waits until this generation's container runs and answers its probe, for at most
     `polls` rounds. When it does, no older generation can run any more. It gives up only
     when an observation fails, or when no poll found the tunnel serving.
     */
    method WaitReady(uid: Uid, polls: nat) returns (ready: bool)
      requires Valid()
      modifies this`node, this`history, this`sights
      ensures Valid() && Calm(old(node), node) && old(sights) <= sights
      ensures ready ==> forall older: Uid :: older < uid ==> Superseded(node, older)
      ensures ready ==> Serving(sights, |sights| - 2, uid) && |old(sights)| <= |sights| - 2
      ensures !ready ==> NoneServing(sights, |old(sights)|, uid)
      ensures !ready ==>
        || (old(sights) < sights && sights[|sights| - 1] == Looked(uid, None))
        || Looks(sights[|old(sights)|..], uid) == polls
    {
      for i := 0 to polls
        invariant Valid() && Calm(old(node), node) && old(sights) <= sights
        invariant NoneServing(sights, |old(sights)|, uid)
        invariant Looks(sights[|old(sights)|..], uid) == i
      {
        hide Inv;
        ghost var node0, before := node, sights;
        var observed := PodState(uid);
        CalmTrans(old(node), node0, node);
        RoundLooks(before, |old(sights)|, Looked(uid, observed), uid);
        StillNone(before, |old(sights)|, Looked(uid, observed), uid);
        hide NoneServing;
        if observed.None? {
          return false;
        }
        if observed.value.ready && observed.value.running {
          before := sights;
          var probe := IsReady();
          RoundLooks(before, |old(sights)|, Probed(probe), uid);
          if probe {
            return true;
          }
          StillNone(before, |old(sights)|, Probed(probe), uid);
        }
      }
      return false;
    }

    /**
     Watches a serving tunnel until it loses readiness or the run is cancelled, after
     `rounds` rounds at the latest. It is lost only to a failed observation, lost readiness
     or a failed probe, and every round before that found it serving.
     */
    method MonitorReady(uid: Uid, rounds: nat) returns (lost: bool)
      requires Valid()
      modifies this`node, this`history, this`sights
      ensures Valid() && Calm(old(node), node) && old(sights) <= sights
      ensures !lost ==> Served(sights, |old(sights)|, |sights|, uid) && Looks(sights[|old(sights)|..], uid) == rounds
      ensures lost ==>
        && old(sights) < sights && Lost(sights, uid) && Looks(sights[|old(sights)|..], uid) <= rounds
        && Served(sights, |old(sights)|, |sights| - (if sights[|sights| - 1].Probed? then 2 else 1), uid)
    {
      for i := 0 to rounds
        invariant Valid() && Calm(old(node), node) && old(sights) <= sights
        invariant Served(sights, |old(sights)|, |sights|, uid) && Looks(sights[|old(sights)|..], uid) == i
      {
        hide Inv;
        ghost var node0, before := node, sights;
        var observed := PodState(uid);
        CalmTrans(old(node), node0, node);
        RoundLooks(before, |old(sights)|, Looked(uid, observed), uid);
        if observed.None? || !observed.value.ready || !observed.value.running {
          return true;
        }
        before := sights;
        var probe := IsReady();
        RoundLooks(before, |old(sights)|, Probed(probe), uid);
        if !probe {
          return true;
        }
      }
      return false;
    }

    /**
     One run of a tunnel. Unless it ends in a drain failure, nothing of its
     generation is alive when it returns or can come to life later. Readiness is
     reported only of a generation that was seen serving, and withdrawn before the
     drain begins, whatever happened before.
     */
    method Run(known: bool, filesResolved: bool, startPolls: nat, rounds: nat, drainPolls: nat) returns (r: RunResult)
      requires Valid()
      modifies this
      ensures Valid() && old(sights) <= sights
      ensures r.Refused? <==> !known || !filesResolved
      ensures r.Refused? ==> reports == old(reports)
      ensures !r.Refused? ==> reports == old(reports) + [false] || reports == old(reports) + [true, false]
      ensures !r.Refused? ==>
        (reports == old(reports) + [true, false] <==>
         exists k :: |old(sights)| <= k && Serving(sights, k, old(node).issued))
      ensures r.DrainFailed? ==>
        && sights != []
        && (Failing(sights[|sights| - 1])
            || NeverConfirmed(sights, old(node).issued, old(node).issued + 1, drainPolls))
      ensures !r.DrainFailed? && known ==> Gone(node, old(node).issued)
      ensures GoneStay(old(node), node)
      ensures !known ==> node == old(node)
    {
      if !known {
        return Refused("unknown tunnel");
      }
      var uid := DrawUid();
      SettledStayGone(old(node), node);
      if !filesResolved {
        return Refused("files not resolved");
      }
      r := Serve(uid, startPolls, rounds);
      ghost var served := sights;
      reports := reports + [false];
      var ok := Drain(uid, drainPolls);
      NothingNewServes(served, sights, |old(sights)|, uid);
      if !ok {
        r := DrainFailed;
      }
    }

    method Serve(uid: Uid, startPolls: nat, rounds: nat) returns (r: RunResult)
      requires Valid() && Newest(node, uid)
      modifies this
      ensures Valid() && Newest(node, uid) && r.Ended? && node.issued == old(node).issued && old(sights) < sights
      ensures OlderGoneStay(old(node), node, uid)
      ensures reports == old(reports) || reports == old(reports) + [true]
      ensures reports != old(reports) ==> forall older: Uid :: older < uid ==> Superseded(node, older)
      ensures reports != old(reports) <==> exists k :: |old(sights)| <= k && Serving(sights, k, uid)
    {
      var published := PublishPod(uid);
      if !published {
        return Ended("publish failed");
      }
      ghost var before := node;
      var ready := WaitReady(uid, startPolls);
      SettledStayGone(before, node);
      if !ready {
        return Ended("not ready");
      }
      ghost var served := |sights| - 2;
      assert Serving(sights, served, uid);
      reports := reports + [true];
      before := node;
      var lost := MonitorReady(uid, rounds);
      SettledStayGone(before, node);
      assert Serving(sights, served, uid);
      return Ended(if lost then "lost readiness" else "cancelled");
    }
  }
}
