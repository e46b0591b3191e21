/**
 One host as the tunnel runtime sees it: the static-Pod manifest of one tunnel
 name, the kubelet's Pod workers for it, and the sandboxes and containers the
 container runtime holds. The kubelet moves whenever it likes. The rule the
 runtime relies on is the guard of `CreateSandbox`: a Pod's sandbox starts only
 once the workers of all older Pods of that name have retired.
 */
module TunnelNode {
  import opened Common

  /** Pod generations, in the order in which they are drawn. */
  type Uid = nat
  type Id = nat

  datatype ContainerState = Created | Running | Exited | Unknown

  datatype Sandbox = Sandbox(id: Id, uid: Uid, ready: bool)

  datatype Container = Container(uid: Uid, sandbox: Id, tunnel: bool, state: ContainerState)

  datatype Node = Node(
    issued: nat,
    manifest: Option<Uid>,
    seen: Option<Uid>,
    workers: set<Uid>,
    retired: set<Uid>,
    sandboxes: map<Id, Sandbox>,
    containers: map<Id, Container>)

  datatype Move =
    | See
    | StartWorker(uid: Uid)
    | Retire(uid: Uid)
    | CreateSandbox(id: Id, uid: Uid)
    | StopSandbox(id: Id)
    | RemoveSandbox(id: Id)
    | CreateContainer(id: Id, uid: Uid, sandbox: Id, tunnel: bool)
    | StartContainer(id: Id)
    | LoseContainer(id: Id)
    | ExitContainer(id: Id)
    | RemoveContainer(id: Id)

  /** What the kubelet and the container runtime may do next. Only a Pod's own worker brings anything to life. */
  predicate Enabled(n: Node, m: Move) {
    match m
    case See => true
    case StartWorker(uid) => n.seen == Some(uid) && uid !in n.workers && uid !in n.retired
    case Retire(uid) => uid in n.workers
    case CreateSandbox(id, uid) =>
      // the older workers of this name have retired
      id !in n.sandboxes && uid in n.workers && forall w :: w in n.workers ==> uid <= w
    case StopSandbox(id) => id in n.sandboxes
    case RemoveSandbox(id) => id in n.sandboxes
    case CreateContainer(id, uid, sandbox, _) => id !in n.containers && uid in n.workers
    case StartContainer(id) =>
      id in n.containers && n.containers[id].uid in n.workers && !n.containers[id].state.Exited?
    case LoseContainer(id) => id in n.containers && !n.containers[id].state.Exited?
    case ExitContainer(id) => id in n.containers
    case RemoveContainer(id) => id in n.containers
  }

  function SetContainer(n: Node, id: Id, state: ContainerState): Node
    requires id in n.containers
  {
    n.(containers := n.containers[id := n.containers[id].(state := state)])
  }

  function Next(n: Node, m: Move): Node
    requires Enabled(n, m)
  {
    match m
    case See => n.(seen := n.manifest)
    case StartWorker(uid) => n.(workers := n.workers + {uid})
    case Retire(uid) => n.(workers := n.workers - {uid}, retired := n.retired + {uid})
    case CreateSandbox(id, uid) => n.(sandboxes := n.sandboxes[id := Sandbox(id, uid, true)])
    case StopSandbox(id) => n.(sandboxes := n.sandboxes[id := n.sandboxes[id].(ready := false)])
    case RemoveSandbox(id) => n.(sandboxes := n.sandboxes - {id})
    case CreateContainer(id, uid, sandbox, tunnel) =>
      n.(containers := n.containers[id := Container(uid, sandbox, tunnel, Created)])
    case StartContainer(id) => SetContainer(n, id, Running)
    case LoseContainer(id) => SetContainer(n, id, Unknown)
    case ExitContainer(id) => SetContainer(n, id, Exited)
    case RemoveContainer(id) => n.(containers := n.containers - {id})
  }

  // ----- what the supervisor does to the manifest -----

  /** The kubelet has had a worker for this generation. */
  predicate Started(n: Node, uid: Uid) {
    uid in n.workers || uid in n.retired
  }

  ghost predicate Newest(n: Node, uid: Uid) {
    && uid < n.issued
    && (n.manifest.Some? ==> n.manifest.value <= uid)
    && (n.seen.Some? ==> n.seen.value <= uid)
    && (forall w :: w in n.workers ==> w <= uid) && (forall w :: w in n.retired ==> w <= uid)
  }

  function Publish(n: Node, uid: Uid): Node {
    n.(manifest := Some(uid))
  }

  function Unpublish(n: Node): Node {
    n.(manifest := None)
  }

  function Draw(n: Node): Node {
    n.(issued := n.issued + 1)
  }

  // ----- invariant -----

  /** Nothing can start this generation any more: its worker is gone and the kubelet will not see its manifest. */
  predicate Superseded(n: Node, uid: Uid) {
    uid !in n.workers && n.seen != Some(uid) && n.manifest != Some(uid)
  }

  /** A sandbox or container of this generation is alive. */
  ghost predicate Alive(n: Node, uid: Uid) {
    || (exists id :: id in n.sandboxes && n.sandboxes[id].uid == uid && n.sandboxes[id].ready)
    || (exists id :: id in n.containers && n.containers[id].uid == uid && !n.containers[id].state.Exited?)
  }

  ghost predicate Gone(n: Node, uid: Uid) {
    uid < n.issued && Superseded(n, uid) && !Alive(n, uid)
  }

  /** Generations reach manifest, kubelet and workers in the order in which they are drawn. */
  ghost predicate Ordered(n: Node) {
    && (n.manifest.Some? ==> n.manifest.value < n.issued)
    && (n.seen.Some? ==> n.seen.value < n.issued)
    && (n.manifest.Some? && n.seen.Some? ==> n.seen.value <= n.manifest.value)
    && (forall w: Uid :: Started(n, w) ==>
          && w < n.issued
          && (n.manifest.Some? ==> w <= n.manifest.value)
          && (n.seen.Some? ==> w <= n.seen.value))
  }

  /** A sandbox belongs to a started generation all of whose predecessors are superseded. */
  ghost predicate SandboxInv(n: Node, s: Sandbox) {
    Started(n, s.uid) && forall older: Uid :: older < s.uid ==> Superseded(n, older)
  }

  ghost predicate Inv(n: Node) {
    && Ordered(n)
    && (forall id :: id in n.sandboxes ==> n.sandboxes[id].id == id && SandboxInv(n, n.sandboxes[id]))
    && (forall id :: id in n.containers ==> Started(n, n.containers[id].uid))
  }

  lemma MoveKeepsOrder(n: Node, m: Move)
    requires Ordered(n) && Enabled(n, m)
    ensures Ordered(Next(n, m))
    ensures forall w: Uid :: Started(n, w) ==> Started(Next(n, m), w)
  {
    assert forall w: Uid :: Started(Next(n, m), w) ==> Started(n, w) || n.seen == Some(w);
  }

  lemma MoveKeepsSandboxes(n: Node, m: Move, s: Sandbox)
    requires SandboxInv(n, s) && Enabled(n, m)
    ensures SandboxInv(Next(n, m), s)
  {
    forall older: Uid | older < s.uid
      ensures Superseded(Next(n, m), older)
    {
      MoveKeepsSuperseded(n, m, older);
    }
  }

  /** A sandbox that may be created has only superseded predecessors: the kubelet saw its manifest after theirs. */
  lemma NewSandboxInv(n: Node, s: Sandbox)
    requires Ordered(n) && Enabled(n, CreateSandbox(s.id, s.uid))
    ensures SandboxInv(n, s)
  {
    assert Started(n, s.uid);
  }

  lemma MoveKeepsInv(n: Node, m: Move)
    requires Inv(n) && Enabled(n, m)
    ensures Inv(Next(n, m))
  {
    var n' := Next(n, m);
    MoveKeepsOrder(n, m);
    forall id | id in n'.sandboxes
      ensures n'.sandboxes[id].id == id && SandboxInv(n', n'.sandboxes[id])
    {
      var s := n'.sandboxes[id];
      if id in n.sandboxes {
        MoveKeepsSandboxes(n, m, n.sandboxes[id]);
      } else {
        NewSandboxInv(n, s);
        MoveKeepsSandboxes(n, m, s);
      }
    }
    forall id | id in n'.containers
      ensures Started(n', n'.containers[id].uid)
    {
      assert if id in n.containers then Started(n, n.containers[id].uid) else m.CreateContainer? && Started(n, m.uid);
    }
  }

  lemma MoveKeepsSuperseded(n: Node, m: Move, uid: Uid)
    requires Enabled(n, m) && Superseded(n, uid)
    ensures Superseded(Next(n, m), uid)
  {
  }

  /** Once superseded and dead, a generation stays dead whatever the kubelet does. */
  lemma MoveKeepsGone(n: Node, m: Move, uid: Uid)
    requires Enabled(n, m) && Gone(n, uid)
    ensures Gone(Next(n, m), uid)
  {
  }

  lemma PublishKeepsInv(n: Node, uid: Uid)
    requires Inv(n) && Newest(n, uid)
    ensures Inv(Publish(n, uid))
    ensures forall older: Uid :: older != uid && Superseded(n, older) ==> Superseded(Publish(n, uid), older)
  {
    var n' := Publish(n, uid);
    assert forall w: Uid :: Started(n', w) ==> Started(n, w) && w <= uid;
    forall id | id in n'.sandboxes
      ensures SandboxInv(n', n'.sandboxes[id])
    {
      assert SandboxInv(n, n.sandboxes[id]);
      forall older: Uid | older < n'.sandboxes[id].uid
        ensures Superseded(n', older)
      {
        assert Superseded(n, older) && n.sandboxes[id].uid <= uid;
      }
    }
    assert forall id :: id in n'.containers ==> Started(n, n.containers[id].uid);
  }

  /** Drawing a generation, or withdrawing the manifest, leaves everything else as it is. */
  lemma ManifestKeepsInv(n: Node, n': Node)
    requires Inv(n)
    requires n' == Draw(n) || n' == Unpublish(n)
    ensures Inv(n') && Settles(n, n')
  {
    assert forall w: Uid :: Started(n', w) ==> Started(n, w);
    forall id | id in n'.sandboxes
      ensures SandboxInv(n', n'.sandboxes[id])
    {
      assert SandboxInv(n, n.sandboxes[id]);
      assert forall older: Uid :: Superseded(n, older) ==> Superseded(n', older);
    }
    assert forall id :: id in n'.containers ==> Started(n, n.containers[id].uid);
  }

  /** Finding nothing alive is not enough: while its worker is active, a generation can come to life again. */
  lemma AbsenceIsNotRevocation(n: Node, uid: Uid, id: Id)
    requires Inv(n) && uid in n.workers && (forall w :: w in n.workers ==> uid <= w) && id !in n.sandboxes
    ensures Enabled(n, CreateSandbox(id, uid)) && Alive(Next(n, CreateSandbox(id, uid)), uid)
  {
    assert Next(n, CreateSandbox(id, uid)).sandboxes[id].ready;
  }

  // ----- what happens to superseded generations -----

  /** Whatever of this generation is alive in `n'` was alive in `n`. */
  ghost predicate NoBirths(n: Node, n': Node, uid: Uid) {
    && (forall id :: id in n'.sandboxes && n'.sandboxes[id].uid == uid && n'.sandboxes[id].ready ==>
          id in n.sandboxes && n.sandboxes[id].uid == uid && n.sandboxes[id].ready)
    && (forall id :: id in n'.containers && n'.containers[id].uid == uid && !n'.containers[id].state.Exited? ==>
          id in n.containers && n.containers[id].uid == uid && !n.containers[id].state.Exited?)
  }

  /** Superseded generations stay superseded and nothing of them comes to life. */
  ghost predicate Settles(n: Node, n': Node) {
    forall uid: Uid :: Superseded(n, uid) ==> Superseded(n', uid) && NoBirths(n, n', uid)
  }

  lemma MoveSettles(n: Node, m: Move)
    requires Enabled(n, m)
    ensures Settles(n, Next(n, m))
  {
  }

  lemma SettlesTrans(a: Node, b: Node, c: Node)
    requires Settles(a, b) && Settles(b, c)
    ensures Settles(a, c)
  {
  }

  /** What kubelet moves keep: the manifest, the generations drawn, and which of them is newest. */
  ghost predicate Calm(n: Node, n': Node) {
    && Settles(n, n') && n'.issued == n.issued && n'.manifest == n.manifest
    && forall uid: Uid :: Newest(n, uid) ==> Newest(n', uid)
  }

  lemma MoveIsCalm(n: Node, m: Move)
    requires Enabled(n, m)
    ensures Calm(n, Next(n, m))
  {
    MoveSettles(n, m);
  }

  lemma CalmTrans(a: Node, b: Node, c: Node)
    requires Calm(a, b) && Calm(b, c)
    ensures Calm(a, c)
  {
    SettlesTrans(a, b, c);
    hide Settles, Newest;
  }

  /** Every revoked generation is still revoked. */
  ghost predicate GoneStay(n: Node, n': Node) {
    forall uid: Uid :: Gone(n, uid) ==> Gone(n', uid)
  }

  lemma SettledStayGone(n: Node, n': Node)
    requires Settles(n, n') && n.issued <= n'.issued
    ensures GoneStay(n, n')
  {
  }

  /** Every revoked generation older than `uid` is still revoked. */
  ghost predicate OlderGoneStay(n: Node, n': Node, uid: Uid) {
    forall g: Uid :: g < uid && Gone(n, g) ==> Gone(n', g)
  }

  /** Publishing a generation, after moves, revives none older than it. */
  lemma PublishedStayGone(n: Node, m: Node, uid: Uid)
    requires Settles(n, m) && n.issued <= m.issued
    ensures OlderGoneStay(n, m, uid) && OlderGoneStay(n, Publish(m, uid), uid)
  {
    SettledStayGone(n, m);
  }

  // ----- later -----

  /**
   What may happen on the host: the kubelet moves, or a later generation of the Pod is
   drawn, published or withdrawn.
   */
  datatype Event = Kubelet(move: Move) | Drawn | Published(uid: Uid) | Withdrawn

  ghost predicate EventEnabled(n: Node, e: Event) {
    match e
    case Kubelet(m) => Enabled(n, m)
    case Drawn => true
    case Published(uid) => Newest(n, uid)
    case Withdrawn => true
  }

  ghost function AfterEvent(n: Node, e: Event): Node
    requires EventEnabled(n, e)
  {
    match e
    case Kubelet(m) => Next(n, m)
    case Drawn => Draw(n)
    case Published(uid) => Publish(n, uid)
    case Withdrawn => Unpublish(n)
  }

  ghost function Exec(n: Node, events: seq<Event>): Option<Node>
    decreases |events|
  {
    if events == [] then Some(n)
    else
      var k := |events| - 1;
      var before := Exec(n, events[..k]);
      if before.Some? && EventEnabled(before.value, events[k]) then Some(AfterEvent(before.value, events[k])) else None
  }

  /**
   A revoked generation never comes back, over every later history of the host in
   which its own manifest is not published again.
   */
  lemma {:induction false} GoneForever(n: Node, uid: Uid, events: seq<Event>, n': Node)
    requires Gone(n, uid) && Exec(n, events) == Some(n')
    requires forall i :: 0 <= i < |events| ==> events[i] != Published(uid)
    ensures Gone(n', uid)
    decreases |events|
  {
    if events != [] {
      var k := |events| - 1;
      var m := Exec(n, events[..k]).value;
      GoneForever(n, uid, events[..k], m);
      match events[k]
      case Kubelet(move) => MoveKeepsGone(m, move, uid);
      case _ =>
    }
  }
}
