/**
 The leased tunnel supervisor as a machine of critical sections. Control
 session, runners, lease timers, stop finishers and shutdown interleave in any
 order; each step is one section under the supervisor's mutex, or one move of a
 runner between two of them.

 A log records what happened: statuses handed to delivery, runs started and
 finished, stops begun, healthy reports that counted, drains that failed.
 */
module TunnelMachine {
  import opened Common

  type Name = string
  type RunId = nat

  datatype Status = Starting | Ready | Failed | Stopped

  datatype RunError = NoError | OtherError | DrainError

  /** Where the goroutine of a run is. `Running` is inside the runner, which reports readiness once. */
  datatype Phase =
    | Running(reported: bool)
    | DrainReturned
    | FailureReturned(error: RunError)
    | Waiting
    | Restarting
    | Exiting
    | Finished

  /** One run of a tunnel and its renewable lease. */
  datatype Tunnel = Tunnel(
    name: Name,
    revision: nat,
    generation: nat,
    status: Status,
    runErr: RunError,
    wantRun: bool,
    stopping: bool,
    expires: int,
    cancelled: bool,
    phase: Phase)

  datatype Timer = Timer(name: Name, run: RunId, generation: nat, due: int)

  datatype Event =
    | Emitted(name: Name, revision: nat, status: Status)
    | RunStarted(name: Name, run: RunId)
    | RunFinished(name: Name, run: RunId)
    | StopBegan(name: Name, run: RunId)
    | BecameHealthy(name: Name, run: RunId)
    | DrainFailed(name: Name)
    | ShutdownBegan

  /**
   `timers` are armed, `finishers` are runs whose stop finisher is waiting,
   `awaited` are the runs shutdown waits for, `leased` is the expiry of the latest
   accepted RUNNING request per tunnel.
   */
  datatype Supervisor = Supervisor(
    owned: map<Name, RunId>,
    tunnels: map<RunId, Tunnel>,
    nextRun: RunId,
    timers: set<Timer>,
    finishers: set<RunId>,
    now: int,
    shutdown: bool,
    awaited: set<RunId>,
    leased: map<Name, int>,
    log: seq<Event>)

  datatype Desired = WantRunning | WantStopped | Unspecified

  datatype Request = Request(name: Name, revision: nat, desired: Desired, lease: nat)

  datatype Action =
    | Apply(request: Request)
    | TimerFires(timer: Timer)
    | ReportHealthy(run: RunId)
    | ReportUnhealthy(run: RunId)
    | RunReturns(run: RunId, error: RunError)
    | RecordDrain(run: RunId)
    | RecordFailure(run: RunId)
    | WaitElapses(run: RunId)
    | WaitAborts(run: RunId)
    | Restart(run: RunId)
    | CloseDone(run: RunId)
    | FinishStop(run: RunId)
    | StopAll(order: seq<Name>)
    | Tick(time: int)

  function Initial(now: int): Supervisor {
    Supervisor(map[], map[], 0, {}, {}, now, false, {}, map[], [])
  }

  // ----- the sections' building blocks -----

  function Note(s: Supervisor, e: Event): Supervisor {
    s.(log := s.log + [e])
  }

  function Update(s: Supervisor, run: RunId, t: Tunnel): Supervisor {
    s.(tunnels := s.tunnels[run := t])
  }

  /** Hands the present status of a run to delivery. */
  function EmitStatus(s: Supervisor, run: RunId): Supervisor
    requires run in s.tunnels
  {
    var t := s.tunnels[run];
    Note(s, Emitted(t.name, t.revision, t.status))
  }

  function Expire(s: Supervisor, run: RunId): Supervisor
    requires run in s.tunnels
  {
    var t := s.tunnels[run];
    s.(timers := s.timers + {Timer(t.name, run, t.generation, t.expires)})
  }

  function StartLocked(s: Supervisor, name: Name, revision: nat, expires: int): Supervisor {
    var run := s.nextRun;
    var t := Tunnel(name, revision, 1, Starting, NoError, true, false, expires, false, Running(false));
    var s1 := Update(s, run, t).(owned := s.owned[name := run], nextRun := run + 1);
    Expire(EmitStatus(Note(s1, RunStarted(name, run)), run), run)
  }

  function StopLocked(s: Supervisor, run: RunId): Supervisor
    requires run in s.tunnels
  {
    var t := s.tunnels[run];
    if t.stopping || t.runErr.DrainError? then Update(s, run, t.(cancelled := true))
    else
      var t1 := t.(cancelled := true, stopping := true, status := Starting, runErr := NoError);
      var s1 := Update(s, run, t1).(finishers := s.finishers + {run});
      EmitStatus(Note(s1, StopBegan(t.name, run)), run)
  }

  predicate Current(s: Supervisor, run: RunId) {
    run in s.tunnels && s.tunnels[run].name in s.owned && s.owned[s.tunnels[run].name] == run
  }

  /** Stores a status unless the run is no longer current or is draining without a fatal error. */
  function SetStatus(s: Supervisor, run: RunId, status: Status, err: RunError): Supervisor
    requires run in s.tunnels
  {
    var t := s.tunnels[run];
    if !Current(s, run) || (t.stopping && !err.DrainError?) then s
    else
      var s1 := Update(s, run, t.(status := status, runErr := err));
      EmitStatus(if status.Ready? then Note(s1, BecameHealthy(t.name, run)) else s1, run)
  }

  function MoveTo(s: Supervisor, run: RunId, phase: Phase): Supervisor
    requires run in s.tunnels
  {
    Update(s, run, s.tunnels[run].(phase := phase))
  }

  predicate ValidRequest(allowed: set<Name>, request: Request) {
    && request.name in allowed && request.name != "" && request.revision != 0
    && !request.desired.Unspecified?
    && (request.desired.WantRunning? ==> request.lease != 0)
  }

  /** The run as the latest request wants it. */
  function Renewed(s: Supervisor, t: Tunnel, request: Request): Tunnel {
    t.(revision := request.revision, generation := t.generation + 1,
       wantRun := request.desired.WantRunning?, expires := s.now + request.lease)
  }

  /** Extends the lease of a run and arms a timer for its new generation. */
  function Lease(s: Supervisor, run: RunId, t: Tunnel): Supervisor {
    Expire(Update(s, run, t).(leased := s.leased[t.name := t.expires]), run)
  }

  /** Renews or revokes the current run of a tunnel. */
  function Renew(s: Supervisor, run: RunId, request: Request): Supervisor
    requires run in s.tunnels
  {
    var t := Renewed(s, s.tunnels[run], request);
    EmitStatus(if t.wantRun then Lease(s, run, t) else StopLocked(Update(s, run, t), run), run)
  }

  /** Starts an unowned tunnel on a first lease. */
  function Grant(s: Supervisor, name: Name, revision: nat, expires: int): Supervisor {
    StartLocked(s.(leased := s.leased[name := expires]), name, revision, expires)
  }

  function ApplyRequest(allowed: set<Name>, s: Supervisor, request: Request): Supervisor
    requires forall n :: n in s.owned ==> s.owned[n] in s.tunnels
  {
    if ValidRequest(allowed, request) then ApplyValid(s, request) else s
  }

  function ApplyValid(s: Supervisor, request: Request): Supervisor
    requires request.name in s.owned ==> s.owned[request.name] in s.tunnels
  {
    if request.name in s.owned then
      var run := s.owned[request.name];
      if s.tunnels[run].runErr.DrainError? then s else Renew(s, run, request)
    else if !request.desired.WantRunning? then Note(s, Emitted(request.name, request.revision, Stopped))
    else Grant(s, request.name, request.revision, s.now + request.lease)
  }

  function FireTimer(s: Supervisor, timer: Timer): Supervisor {
    var s1 := s.(timers := s.timers - {timer});
    if && timer.name in s.owned && s.owned[timer.name] == timer.run
       && timer.run in s.tunnels && s.tunnels[timer.run].generation == timer.generation
    then StopLocked(Update(s1, timer.run, s.tunnels[timer.run].(wantRun := false)), timer.run)
    else s1
  }

  /** A drained run gives its name back. */
  function Release(s: Supervisor, run: RunId): Supervisor
    requires run in s.tunnels
  {
    s.(finishers := s.finishers - {run}, owned := s.owned - {s.tunnels[run].name})
  }

  /** After a drain: start over if the lease asked for since still lasts, else say that the tunnel stopped. */
  function Acknowledge(s: Supervisor, t: Tunnel): Supervisor {
    if t.wantRun && s.now < t.expires then StartLocked(s, t.name, t.revision, t.expires)
    else Note(s, Emitted(t.name, t.revision, Stopped))
  }

  function FinishStopped(s: Supervisor, run: RunId): Supervisor
    requires run in s.tunnels
  {
    if Current(s, run) && !s.tunnels[run].runErr.DrainError? then Acknowledge(Release(s, run), s.tunnels[run])
    else s.(finishers := s.finishers - {run})
  }

  /** Stops the named tunnels one after the other. */
  function StopEach(s: Supervisor, order: seq<Name>): Supervisor
    requires forall n :: n in order ==> n in s.owned && s.owned[n] in s.tunnels
    ensures StopEach(s, order).owned == s.owned && StopEach(s, order).tunnels.Keys == s.tunnels.Keys
    decreases |order|
  {
    if order == [] then s
    else
      var k := |order| - 1;
      var s1 := StopEach(s, order[..k]);
      var run := s1.owned[order[k]];
      StopLocked(Update(s1, run, s1.tunnels[run].(wantRun := false)), run)
  }

  function BeginShutdown(s: Supervisor, order: seq<Name>): Supervisor
    requires forall n :: n in order ==> n in s.owned && s.owned[n] in s.tunnels
  {
    var s1 := StopEach(s, order);
    Note(s1.(shutdown := true, awaited := set n | n in s.owned :: s.owned[n]), ShutdownBegan)
  }

  // ----- steps -----

  predicate InPhase(s: Supervisor, run: RunId, phase: Phase) {
    run in s.tunnels && s.tunnels[run].phase == phase
  }

  predicate IsRunning(s: Supervisor, run: RunId) {
    run in s.tunnels && s.tunnels[run].phase.Running?
  }

  ghost predicate Enabled(s: Supervisor, a: Action) {
    match a
    case Apply(_) => !s.shutdown && (forall n :: n in s.owned ==> s.owned[n] in s.tunnels)
    case TimerFires(timer) => timer in s.timers && timer.due <= s.now
    case ReportHealthy(run) => IsRunning(s, run)
    case ReportUnhealthy(run) => IsRunning(s, run)
    case RunReturns(run, _) => IsRunning(s, run)
    case RecordDrain(run) => InPhase(s, run, DrainReturned)
    case RecordFailure(run) => run in s.tunnels && s.tunnels[run].phase.FailureReturned?
    case WaitElapses(run) => InPhase(s, run, Waiting)
    case WaitAborts(run) => InPhase(s, run, Waiting) && s.tunnels[run].cancelled
    case Restart(run) => InPhase(s, run, Restarting)
    case CloseDone(run) => InPhase(s, run, Exiting)
    case FinishStop(run) => run in s.finishers && InPhase(s, run, Finished)
    case StopAll(order) =>
      !s.shutdown && Enumerates(order, s.owned.Keys) && (forall n :: n in s.owned ==> s.owned[n] in s.tunnels)
    case Tick(time) => s.now <= time
  }

  ghost function Next(allowed: set<Name>, s: Supervisor, a: Action): Supervisor
    requires Enabled(s, a)
  {
    match a
    case Apply(request) => ApplyRequest(allowed, s, request)
    case TimerFires(timer) => FireTimer(s, timer)
    case ReportHealthy(run) =>
      if s.tunnels[run].phase.reported then s
      else MoveTo(SetStatus(s, run, Ready, NoError), run, Running(true))
    case ReportUnhealthy(run) => MoveTo(SetStatus(s, run, Starting, NoError), run, s.tunnels[run].phase)
    case RunReturns(run, error) =>
      if error.DrainError? then Note(MoveTo(s, run, DrainReturned), DrainFailed(s.tunnels[run].name))
      else MoveTo(s, run, if s.tunnels[run].cancelled then Exiting else FailureReturned(error))
    case RecordDrain(run) => MoveTo(SetStatus(s, run, Failed, DrainError), run, Exiting)
    case RecordFailure(run) => MoveTo(SetStatus(s, run, Failed, s.tunnels[run].phase.error), run, Waiting)
    case WaitElapses(run) => MoveTo(s, run, if Current(s, run) then Restarting else Exiting)
    case WaitAborts(run) => MoveTo(s, run, Exiting)
    case Restart(run) => MoveTo(SetStatus(s, run, Starting, NoError), run, Running(false))
    case CloseDone(run) => Note(MoveTo(s, run, Finished), RunFinished(s.tunnels[run].name, run))
    case FinishStop(run) => FinishStopped(s, run)
    case StopAll(order) => BeginShutdown(s, order)
    case Tick(time) => s.(now := time)
  }

  /** Timers fire when they are due: time does not pass one that is still armed. */
  ghost predicate Prompt(s: Supervisor, a: Action) {
    a.Tick? ==> forall timer :: timer in s.timers ==> a.time <= timer.due
  }

  ghost function Exec(allowed: set<Name>, s: Supervisor, actions: seq<Action>): Option<Supervisor>
    decreases |actions|
  {
    if actions == [] then Some(s)
    else
      var k := |actions| - 1;
      var before := Exec(allowed, s, actions[..k]);
      if before.Some? && Enabled(before.value, actions[k]) then Some(Next(allowed, before.value, actions[k]))
      else None
  }

  ghost predicate PromptRun(allowed: set<Name>, s: Supervisor, actions: seq<Action>)
    decreases |actions|
  {
    actions != [] ==>
      var k := |actions| - 1;
      var before := Exec(allowed, s, actions[..k]);
      PromptRun(allowed, s, actions[..k]) && (before.Some? ==> Prompt(before.value, actions[k]))
  }
}
