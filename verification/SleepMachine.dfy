/**
 The all-shard sleep transaction as a machine of atomic steps. A step is one
 durable write, one remote call, or the purely local work between two of them,
 so a crash between any two steps of the controller is a step of its own.

 The Cluster object holds the request and progress annotations. Patches and
 remote calls may take effect although the controller sees them fail.
 */
module SleepMachine {
  import opened Common

  type Shard = string

  /** A sleep-request annotation: `parses` says that its time stamp is well formed. */
  datatype Request = Request(id: nat, force: bool, parses: bool)

  datatype Phase = Sleeping | Finalizing | Compensating

  datatype Progress = Progress(request: Request, phase: Phase, accepted: seq<Shard>, finalShard: Shard)

  /** The sleep-progress annotation; `Garbled` stands for text that does not decode. */
  datatype Annotation = Absent | Garbled | Stored(progress: Progress)

  /** One SleepTenant call, with the shards its reconcile saw connected and those that had affirmed before it. */
  datatype Call = Call(shard: Shard, last: bool, connected: set<Shard>, affirmedBefore: set<Shard>)

  /**
   Everything that survives a controller crash. `asleep` is the state of the
   shards. The other sets are history: `slept` are the shards asleep because of
   the current request, `orphaned` those asleep because of a request whose
   annotations are gone.
   */
  datatype World = World(
    request: Option<Request>,
    progress: Annotation,
    asleep: set<Shard>,
    slept: set<Shard>,
    orphaned: set<Shard>,
    calls: seq<Call>,
    affirmed: set<Shard>)

  /** Operator configuration; shard names pass identifier validation, so none is empty. */
  datatype Config = Config(shards: set<Shard>)

  predicate ValidConfig(cfg: Config) {
    "" !in cfg.shards
  }

  /** What the controller holds in memory while it reconciles. */
  datatype Pc =
    | Idle
    | Requesting                                            // about to patch an automatic request
    | Rejecting                                             // about to clear a request that changed nothing
    | Looping(order: seq<Shard>, i: nat, p: Progress)       // at the head of the shard loop
    | Calling(order: seq<Shard>, i: nat, p: Progress)       // checkpoint stored, about to call SleepTenant
    | Marking(order: seq<Shard>, i: nat, p: Progress)       // affirmed, about to store forward progress
    | Storing(p: Progress)                                  // about to store p and then compensate
    | Connecting(p: Progress)                               // p is stored, about to look up connections and wake
    | Waking(p: Progress, connected: set<Shard>, i: nat, remaining: seq<Shard>)
    | Saving(p: Progress)                                   // about to store the shards still to wake
    | Finishing                                             // about to clear after complete compensation

  datatype State = State(world: World, pc: Pc)

  /** A patch can succeed, take effect but look failed, or fail without effect. */
  datatype Outcome = Applied | LostReply | Failed

  datatype Reply = Affirmed | Refused | CallError

  datatype Action =
    | Begin(connected: Option<set<Shard>>, eligible: bool, coordinator: Option<Shard>,
            allAsleep: Option<bool>, order: seq<Shard>)
    | PatchRequest(outcome: Outcome, stamp: Request)
    | Advance
    | Checkpoint(outcome: Outcome)
    | SleepCall(effect: bool, reply: Reply)
    | Mark(outcome: Outcome)
    | StoreCompensating(outcome: Outcome)
    | Connect(reachable: set<Shard>)
    | WakeCall(effect: bool, confirmed: bool)
    | EndWakes
    | Save(outcome: Outcome)
    | Clear(outcome: Outcome)
    | Crash
    | ShardWakes(shard: Shard)
    | ShardSleeps(shard: Shard)
    | EditRequest(edited: Option<Request>)

  // ----- the pieces of a reconcile -----

  function Fresh(request: Request): Progress {
    Progress(request, Sleeping, [], "")
  }

  function DecodeProgress(value: Annotation, request: Request): Result<Progress, string> {
    match value
    case Absent => Ok(Fresh(request))
    case Garbled => Err("invalid character")
    case Stored(p) =>
      if p.request != request then Err("progress does not match request")
      else if p.phase == Finalizing && p.finalShard == "" then Err("finalizing progress has no final shard")
      else Ok(p)
  }

  /** `order` is a loop order over the connected shards with the coordinating shard, if connected, last. */
  ghost predicate CoordinatorLast(order: seq<Shard>, connected: set<Shard>, coordinator: Shard) {
    && Enumerates(order, connected)
    && (coordinator in connected ==> order != [] && order[|order| - 1] == coordinator)
  }

  /** The progress stored before SleepTenant is called on `order[i]`. */
  function CheckpointOf(order: seq<Shard>, i: nat, p: Progress): Progress
    requires i < |order|
  {
    if order[i] == order[|order| - 1] then p.(phase := Finalizing, finalShard := order[i])
    else p.(phase := Compensating, accepted := p.accepted + [order[i]])
  }

  function SleepEffect(w: World, s: Shard): World {
    if s in w.asleep then w else w.(asleep := w.asleep + {s}, slept := w.slept + {s})
  }

  function WakeEffect(w: World, s: Shard): World {
    w.(asleep := w.asleep - {s}, slept := w.slept - {s}, orphaned := w.orphaned - {s})
  }

  function StoreProgress(w: World, p: Progress, outcome: Outcome): World {
    if outcome.Failed? then w else w.(progress := Stored(p))
  }

  /** Removes both annotations; whatever the request put to sleep and nobody woke is orphaned. */
  function ClearRequest(w: World, outcome: Outcome): World {
    if outcome.Failed? then w
    else w.(request := None, progress := Absent, slept := {}, orphaned := w.orphaned + w.slept,
            calls := [], affirmed := {})
  }

  function Then(outcome: Outcome, next: Pc): Pc {
    if outcome.Applied? then next else Idle
  }

  /** Reads the Cluster object and decides what this reconcile does. */
  function Decide(w: World, a: Action): Pc
    requires a.Begin?
  {
    if w.request.None? then
      if a.connected.Some? && a.eligible then Requesting else Idle
    else if !w.request.value.parses then Rejecting
    else
      match DecodeProgress(w.progress, w.request.value)
      case Err(_) => Rejecting
      case Ok(p) =>
        match p.phase
        case Finalizing =>
          if a.connected.None? || a.allAsleep.None? || a.allAsleep.value then Idle
          else Storing(p.(phase := Compensating, accepted := a.order))
        case Compensating => Connecting(p)
        case Sleeping =>
          if a.connected.None? then Idle
          else if !p.request.force && !a.eligible then
            if p.accepted != [] then Storing(p.(phase := Compensating)) else Rejecting
          else if a.coordinator.None? then Idle
          else Looping(a.order, 0, p)
  }

  /** What the outside world may answer to a Begin: connections are configured shards, orders enumerate. */
  ghost predicate BeginAllowed(cfg: Config, w: World, a: Action)
    requires a.Begin?
  {
    var next := Decide(w, a);
    && (a.connected.Some? ==> a.connected.value <= cfg.shards)
    && (next.Looping? ==> CoordinatorLast(a.order, a.connected.value, a.coordinator.value))
    && (next.Storing? && w.progress.Stored? && w.progress.progress.phase.Finalizing? ==>
          Enumerates(a.order, cfg.shards))
  }

  /** Logs a SleepTenant call and its effect, if any. */
  function LogCall(w: World, shard: Shard, order: seq<Shard>, effect: bool, affirmed: bool): World
    requires order != []
  {
    var w1 := if effect then SleepEffect(w, shard) else w;
    w1.(calls := w1.calls + [Call(shard, shard == order[|order| - 1], Elems(order), w.affirmed)],
        affirmed := if affirmed then w1.affirmed + {shard} else w1.affirmed)
  }

  /** How the controller reacts to the answer of a SleepTenant call. */
  function AfterReply(order: seq<Shard>, i: nat, p: Progress, reply: Reply): Pc
    requires i < |order|
  {
    var shard := order[i];
    var last := shard == order[|order| - 1];
    if reply.Affirmed? then
      if last then Idle else Marking(order, i, p.(phase := Sleeping))
    else if last && reply.CallError? then Idle
    else
      Storing(p.(phase := Compensating,
                 accepted := if shard in p.accepted then p.accepted else p.accepted + [shard]))
  }

  function AfterWakeCall(w: World, pc: Pc, a: Action): State
    requires pc.Waking? && pc.i < |pc.p.accepted| && a.WakeCall?
  {
    var shard := pc.p.accepted[pc.i];
    State(if a.effect then WakeEffect(w, shard) else w,
          Waking(pc.p, pc.connected, pc.i + 1, if a.confirmed then pc.remaining else pc.remaining + [shard]))
  }

  /** Which actions the controller or its environment may take in a state. */
  ghost predicate Enabled(cfg: Config, s: State, a: Action) {
    match a
    case Begin(_, _, _, _, _) => s.pc.Idle? && BeginAllowed(cfg, s.world, a)
    case PatchRequest(_, stamp) => s.pc.Requesting? && stamp.parses && !stamp.force
    case Advance =>
      s.pc.Looping? && (s.pc.i >= |s.pc.order| || s.pc.order[s.pc.i] in s.pc.p.accepted)
    case Checkpoint(_) =>
      s.pc.Looping? && s.pc.i < |s.pc.order| && s.pc.order[s.pc.i] !in s.pc.p.accepted
    case SleepCall(effect, reply) =>
      // an affirmation reports a shard that is asleep
      s.pc.Calling? && s.pc.i < |s.pc.order| && (reply.Affirmed? ==> effect)
    case Mark(_) => s.pc.Marking?
    case StoreCompensating(_) => s.pc.Storing?
    case Connect(reachable) => s.pc.Connecting? && reachable <= cfg.shards
    case WakeCall(effect, confirmed) =>
      // no call without a connection; a confirmation reports a shard that is awake
      && s.pc.Waking? && s.pc.i < |s.pc.p.accepted|
      && (s.pc.p.accepted[s.pc.i] !in s.pc.connected ==> !effect && !confirmed)
      && (confirmed ==> effect)
    case EndWakes => s.pc.Waking? && s.pc.i == |s.pc.p.accepted|
    case Save(_) => s.pc.Saving?
    case Clear(_) => s.pc.Rejecting? || s.pc.Finishing?
    case Crash => true
    case ShardWakes(_) => true
    case ShardSleeps(_) => true
    case EditRequest(_) => true
  }

  ghost function Next(cfg: Config, s: State, a: Action): State
    requires Enabled(cfg, s, a)
  {
    var w := s.world;
    match a
    case Begin(_, _, _, _, _) => State(w, Decide(w, a))
    case PatchRequest(outcome, stamp) =>
      State(if outcome.Failed? then w else w.(request := Some(stamp)), Idle)
    case Advance =>
      State(w, if s.pc.i >= |s.pc.order| then Idle else Looping(s.pc.order, s.pc.i + 1, s.pc.p))
    case Checkpoint(outcome) =>
      var p := CheckpointOf(s.pc.order, s.pc.i, s.pc.p);
      State(StoreProgress(w, p, outcome), Then(outcome, Calling(s.pc.order, s.pc.i, p)))
    case SleepCall(effect, reply) =>
      State(LogCall(w, s.pc.order[s.pc.i], s.pc.order, effect, reply.Affirmed?),
            AfterReply(s.pc.order, s.pc.i, s.pc.p, reply))
    case Mark(outcome) =>
      State(StoreProgress(w, s.pc.p, outcome), Then(outcome, Looping(s.pc.order, s.pc.i + 1, s.pc.p)))
    case StoreCompensating(outcome) =>
      State(StoreProgress(w, s.pc.p, outcome), Then(outcome, Connecting(s.pc.p)))
    case Connect(reachable) => State(w, Waking(s.pc.p, reachable, 0, []))
    case WakeCall(_, _) => AfterWakeCall(w, s.pc, a)
    case EndWakes =>
      State(w, if s.pc.remaining == [] then Finishing else Saving(s.pc.p.(accepted := s.pc.remaining)))
    case Save(outcome) => State(StoreProgress(w, s.pc.p, outcome), Idle)
    case Clear(outcome) => State(ClearRequest(w, outcome), Idle)
    case Crash => State(w, Idle)
    case ShardWakes(shard) => State(WakeEffect(w, shard), s.pc)
    case ShardSleeps(shard) => State(w.(asleep := w.asleep + {shard}), s.pc)
    case EditRequest(edited) => State(w.(request := edited), s.pc)
  }

  /**
   The rule users of the annotation must keep: the request is edited only while
   no transaction is recorded and no reconcile is working on the old request.
   */
  ghost predicate Disciplined(s: State, a: Action) {
    a.EditRequest? ==> s.world.progress.Absent? && (s.pc.Idle? || s.pc.Requesting?)
  }

  // ----- runs -----

  ghost predicate Initial(s: State) {
    && s.pc == Idle
    && s.world.request.None? && s.world.progress.Absent?
    && s.world.slept == {} && s.world.orphaned == {}
    && s.world.calls == [] && s.world.affirmed == {}
  }

  /** The state after taking the actions one after the other, if each is enabled when its turn comes. */
  ghost function Exec(cfg: Config, s: State, actions: seq<Action>): Option<State>
    decreases |actions|
  {
    if actions == [] then Some(s)
    else
      var k := |actions| - 1;
      var before := Exec(cfg, s, actions[..k]);
      if before.Some? && Enabled(cfg, before.value, actions[k]) then Some(Next(cfg, before.value, actions[k]))
      else None
  }

  /** Every edit along the run keeps the rule. */
  ghost predicate DisciplinedRun(cfg: Config, s: State, actions: seq<Action>)
    decreases |actions|
  {
    actions != [] ==>
      var k := |actions| - 1;
      var before := Exec(cfg, s, actions[..k]);
      && DisciplinedRun(cfg, s, actions[..k])
      && (before.Some? ==> Disciplined(before.value, actions[k]))
  }
}
