/**
 The records of the supervisor, and what each critical section does to them and to the
 log: which run is told to end, which one starts, and what is said under which revision.
 */
module TunnelRecords {
  import opened Common
  import opened TunnelMachine
  import opened TunnelEffects

  /** One run of a tunnel and its renewable lease; `phase` is where its goroutine is. */
  class OwnedTunnel {
    const name: Name
    const id: RunId
    var revision: nat
    var generation: nat
    var status: Status
    var runErr: RunError
    var wantRun: bool
    var stopping: bool
    var expires: int
    var cancelled: bool
    var phase: Phase

    constructor (name: Name, id: RunId, revision: nat, expires: int)
      ensures this.name == name && this.id == id
      ensures Value() == Tunnel(name, revision, 1, Starting, NoError, true, false, expires, false, Running(false))
    {
      this.name, this.id, this.revision, this.expires := name, id, revision, expires;
      generation, status, runErr, wantRun, stopping, cancelled := 1, Starting, NoError, true, false, false;
      phase := Running(false);
    }

    /** Updates the record in place; a run keeps its name and identity. */
    method Write(v: Tunnel)
      requires v.name == name
      modifies this
      ensures Value() == v
    {
      revision, generation, status, runErr := v.revision, v.generation, v.status, v.runErr;
      wantRun, stopping, expires, cancelled, phase := v.wantRun, v.stopping, v.expires, v.cancelled, v.phase;
    }

    function Value(): Tunnel
      reads this
    {
      Tunnel(name, revision, generation, status, runErr, wantRun, stopping, expires, cancelled, phase)
    }
  }

  /** The runs ever made, what is recorded of each, which of them own a name, and the log. */
  datatype Records = Records(
    runs: seq<OwnedTunnel>,
    values: seq<Tunnel>,
    owned: map<Name, OwnedTunnel>,
    timers: set<Timer>,
    finishers: set<RunId>,
    now: int,
    log: seq<Event>)

  ghost function ValuesOf(runs: seq<OwnedTunnel>): seq<Tunnel>
    reads runs
  {
    seq(|runs|, i requires 0 <= i < |runs| reads runs => runs[i].Value())
  }

  /** Runs are numbered as they are made. */
  ghost predicate Recorded(runs: seq<OwnedTunnel>, values: seq<Tunnel>, tunnels: map<RunId, Tunnel>) {
    && |runs| == |values| && (forall i :: i in tunnels <==> 0 <= i < |runs|)
    && (forall i :: 0 <= i < |runs| ==>
          runs[i].id == i && tunnels[i] == values[i] && values[i].name == runs[i].name)
  }

  /** Names lead to the same runs either way. */
  ghost predicate Index(runs: seq<OwnedTunnel>, owned: map<Name, OwnedTunnel>, ids: map<Name, RunId>) {
    && (forall n :: n in ids <==> n in owned)
    && (forall n :: n in owned ==> ids[n] < |runs| && owned[n] == runs[ids[n]] && owned[n].name == n)
  }

  /** These are the records the machine state stands for. */
  ghost predicate Stands(r: Records, s: Supervisor) {
    && Recorded(r.runs, r.values, s.tunnels) && |r.runs| == s.nextRun && Index(r.runs, r.owned, s.owned)
    && r.timers == s.timers && r.finishers == s.finishers && r.now == s.now && r.log == s.log
  }

  /** From one state to the next, runs are only added. */
  ghost predicate Steps(r: Records, s: Supervisor, r': Records, s': Supervisor) {
    Stands(r, s) && Stands(r', s') && r.runs <= r'.runs
  }

  /** `t` owns its name. */
  ghost predicate Owns(r: Records, t: OwnedTunnel) {
    t.name in r.owned && r.owned[t.name] == t
  }

  /** What is recorded of a run. */
  ghost function Of(r: Records, t: OwnedTunnel): Tunnel
    requires t.id < |r.values|
  {
    r.values[t.id]
  }

  lemma Plain(r: Records, s: Supervisor, r': Records, s': Supervisor)
    requires Steps(r, s, r', s')
    ensures r.timers == s.timers && r.finishers == s.finishers && r.now == s.now && r.log == s.log
  {
  }

  lemma OwnsMeans(r: Records, s: Supervisor, t: OwnedTunnel)
    requires Stands(r, s) && t in r.runs
    ensures t.id < |r.values| && t.id in s.tunnels && s.tunnels[t.id] == Of(r, t) && Of(r, t).name == t.name
    ensures Owns(r, t) <==> t.name in s.owned && s.owned[t.name] == t.id
  {
  }

  lemma OwnedMeans(r: Records, s: Supervisor, name: Name)
    requires Stands(r, s)
    ensures name in r.owned <==> name in s.owned
    ensures name in r.owned ==>
      var t := r.owned[name];
      && t in r.runs && t.name == name && t.id == s.owned[name] && t.id < |r.values| && t.id in s.tunnels
      && s.tunnels[t.id] == Of(r, t) && Of(r, t).name == name
  {
  }

  lemma Indexed(r: Records, s: Supervisor)
    requires Stands(r, s)
    ensures Index(r.runs, r.owned, s.owned)
  {
  }

  lemma SameRun(r: Records, s: Supervisor, name: Name, t: OwnedTunnel)
    requires Stands(r, s) && t in r.runs && name in r.owned && r.owned[name].id == t.id
    ensures r.owned[name] == t
  {
  }

  lemma SameOwners(runs: seq<OwnedTunnel>, owned: map<Name, OwnedTunnel>, owned': map<Name, OwnedTunnel>,
                   ids: map<Name, RunId>)
    requires Index(runs, owned, ids) && Index(runs, owned', ids)
    ensures owned' == owned
  {
    assert forall n :: n in owned <==> n in owned';
  }

  lemma FewerOwners(runs: seq<OwnedTunnel>, owned: map<Name, OwnedTunnel>, ids: map<Name, RunId>, name: Name)
    requires Index(runs, owned, ids)
    ensures Index(runs, owned - {name}, ids - {name})
  {
  }

  lemma NewOwner(runs: seq<OwnedTunnel>, owned: map<Name, OwnedTunnel>, ids: map<Name, RunId>, t: OwnedTunnel)
    requires Index(runs, owned, ids)
    ensures Index(runs + [t], owned[t.name := t], ids[t.name := |runs|])
  {
  }

  /** The same runs, and only the record of `t` has changed. */
  lemma OneRecord(r: Records, s: Supervisor, r': Records, s': Supervisor, t: OwnedTunnel, v: Tunnel)
    requires Steps(r, s, r', s') && t in r.runs
    requires s'.tunnels == s.tunnels[t.id := v] && s'.owned == s.owned && s'.nextRun == s.nextRun
    ensures t.id < |r.values|
    ensures r' == r.(values := r.values[t.id := v], timers := s'.timers, finishers := s'.finishers, now := s'.now,
                     log := s'.log)
  {
    assert r'.runs == r.runs;
    SameOwners(r.runs, r.owned, r'.owned, s.owned);
    assert r'.values == r.values[t.id := v];
  }

  lemma RecordAndLog(r: Records, s: Supervisor, r': Records, s': Supervisor, t: OwnedTunnel, v: Tunnel, log: seq<Event>)
    requires Steps(r, s, r', s') && t in r.runs && s' == s.(tunnels := s.tunnels[t.id := v], log := log)
    ensures t.id < |r.values| && r' == r.(values := r.values[t.id := v], log := log)
  {
    OneRecord(r, s, r', s', t, v);
    hide Recorded, Index;
  }

  lemma NoRecord(r: Records, s: Supervisor, r': Records, s': Supervisor)
    requires Steps(r, s, r', s') && s'.tunnels == s.tunnels && s'.nextRun == s.nextRun
    ensures r'.runs == r.runs && Index(r.runs, r'.owned, s'.owned)
    ensures s'.owned == s.owned ==> r'.owned == r.owned
    ensures r' == r.(owned := r'.owned, timers := s'.timers, finishers := s'.finishers, now := s'.now, log := s'.log)
  {
    assert r'.runs == r.runs;
    hide Index;
    assert r'.values == r.values;
    if s'.owned == s.owned {
      SameOwners(r.runs, r.owned, r'.owned, s.owned);
    }
  }

  // ----- starting and stopping -----

  /** A run that did not exist owns the name: it is announced, its first status is said and its lease is armed. */
  ghost predicate Begun(r: Records, r': Records, name: Name, revision: nat, expires: int) {
    && name in r'.owned
    && var t := r'.owned[name];
       && t !in r.runs && t.id == |r.runs|
       && r' == r.(
            runs := r.runs + [t],
            values := r.values +
              [Tunnel(name, revision, 1, Starting, NoError, true, false, expires, false, Running(false))],
            owned := r.owned[name := t],
            timers := r.timers + {Timer(name, t.id, 1, expires)},
            log := r.log + [RunStarted(name, t.id), Emitted(name, revision, Starting)])
  }

  lemma StartedRecords(r: Records, s: Supervisor, r': Records, s': Supervisor, name: Name, revision: nat, expires: int)
    requires Steps(r, s, r', s')
    requires Started(s.(finishers := s'.finishers, leased := s'.leased), s', name, revision, expires)
    ensures Begun(r.(finishers := s'.finishers), r', name, revision, expires)
  {
    var t := r'.runs[|r.runs|];
    assert r'.runs == r.runs + [t];
    assert r'.values == r.values + [NewTunnel(name, revision, expires)];
    assert t !in r.runs;
    hide Recorded;
    NewOwner(r.runs, r.owned, s.owned, t);
    SameOwners(r'.runs, r.owned[name := t], r'.owned, s'.owned);
  }

  /** The run, until now `v`, is told to end: the first time, that is said and a finisher waits for it. */
  ghost function Stop(r: Records, t: OwnedTunnel, v: Tunnel): Records
    requires t.id < |r.values|
  {
    if v.stopping || v.runErr.DrainError? then r.(values := r.values[t.id := v.(cancelled := true)])
    else r.(
      values := r.values[t.id := v.(cancelled := true, stopping := true, status := Starting, runErr := NoError)],
      finishers := r.finishers + {t.id},
      log := r.log + [StopBegan(v.name, t.id), Emitted(v.name, v.revision, Starting)])
  }

  lemma StoppedRecords(r: Records, s: Supervisor, r': Records, s': Supervisor, t: OwnedTunnel, v: Tunnel,
                       more: seq<Event>)
    requires Steps(r, s, r', s') && t in r.runs && v.name == t.name
    requires s' == s.(tunnels := s.tunnels[t.id := Ended(v)], timers := s'.timers,
                      finishers := s.finishers + Awaiting(v, t.id), log := s.log + Farewell(v, t.id) + more)
    ensures t.id < |r.values|
    ensures var r1 := Stop(r.(timers := s'.timers), t, v); r' == r1.(log := r1.log + more)
  {
    OneRecord(r, s, r', s', t, Ended(v));
    hide Recorded, Index;
    if Told(v) {
      assert s.log + [] == s.log && s.finishers + {} == s.finishers;
    }
  }

  // ----- requests -----

  /**
   A request that is let through. The owned run takes its revision and lease and a new generation, and
   its status is said under that revision: RUNNING arms a timer for the new generation, STOPPED tells
   the run to end. RUNNING starts an unowned tunnel, and STOPPED of one is answered at once.
   */
  ghost predicate Applied(r: Records, r': Records, request: Request)
    requires request.name in r.owned ==> r.owned[request.name].id < |r.values|
  {
    var expires := r.now + request.lease;
    if request.name in r.owned then
      var t := r.owned[request.name];
      var v := Of(r, t).(revision := request.revision, generation := Of(r, t).generation + 1,
                         wantRun := request.desired.WantRunning?, expires := expires);
      if request.desired.WantRunning? then
        r' == r.(values := r.values[t.id := v],
                 timers := r.timers + {Timer(request.name, t.id, v.generation, expires)},
                 log := r.log + [Emitted(request.name, request.revision, v.status)])
      else
        var r1 := Stop(r, t, v);
        r' == r1.(log := r1.log + [Emitted(request.name, request.revision, Of(r1, t).status)])
    else if request.desired.WantRunning? then Begun(r, r', request.name, request.revision, expires)
    else r' == r.(log := r.log + [Emitted(request.name, request.revision, Stopped)])
  }

  /** Requests for a tunnel whose drain failed, and malformed ones, are refused. */
  ghost predicate Accepts(allowed: set<Name>, r: Records, request: Request)
    requires request.name in r.owned ==> r.owned[request.name].id < |r.values|
  {
    && ValidRequest(allowed, request)
    && (request.name in r.owned ==> !Of(r, r.owned[request.name]).runErr.DrainError?)
  }

  lemma RefusedRecords(r: Records, s: Supervisor, r': Records, s': Supervisor)
    requires Steps(r, s, r', s') && s' == s
    ensures r' == r
  {
    NoRecord(r, s, r', s');
  }

  lemma UnownedRecords(r: Records, s: Supervisor, r': Records, s': Supervisor, request: Request)
    requires Steps(r, s, r', s') && request.name !in r.owned
    requires if request.desired.WantRunning?
             then Started(s.(leased := s'.leased), s', request.name, request.revision, s.now + request.lease)
             else s' == s.(log := s.log + [Emitted(request.name, request.revision, Stopped)])
    ensures Applied(r, r', request)
  {
    if request.desired.WantRunning? {
      StartedRecords(r, s, r', s', request.name, request.revision, s.now + request.lease);
    } else {
      NoRecord(r, s, r', s');
    }
    hide Begun, Recorded, Index;
  }

  lemma OwnedRecords(r: Records, s: Supervisor, r': Records, s': Supervisor, request: Request)
    requires Steps(r, s, r', s') && request.name in r.owned && r.owned[request.name].id in s.tunnels
    requires !s.tunnels[r.owned[request.name].id].runErr.DrainError?
    requires
      var run := r.owned[request.name].id;
      var t := Asked(s, s.tunnels[run], request);
      if request.desired.WantRunning? then
        s' == s.(
          tunnels := s.tunnels[run := t], leased := s'.leased,
          timers := s.timers + {Timer(request.name, run, t.generation, s.now + request.lease)},
          log := s.log + [Emitted(request.name, request.revision, t.status)])
      else
        s' == s.(
          tunnels := s.tunnels[run := Ended(t)], finishers := s.finishers + Awaiting(t, run),
          log := s.log + Farewell(t, run) + [Emitted(request.name, request.revision, Ended(t).status)])
    ensures r.owned[request.name].id < |r.values| && Applied(r, r', request)
  {
    hide Stands, Farewell, Awaiting;
    var t := r.owned[request.name];
    OwnedMeans(r, s, request.name);
    Plain(r, s, r', s');
    var v := Asked(s, s.tunnels[t.id], request);
    if request.desired.WantRunning? {
      OneRecord(r, s, r', s', t, v);
    } else {
      StoppedRecords(r, s, r', s', t, v, [Emitted(request.name, request.revision, Ended(v).status)]);
      assert s'.timers == s.timers && r.(timers := s'.timers) == r;
    }
  }

  lemma RequestRecords(allowed: set<Name>, r: Records, s: Supervisor, r': Records, s': Supervisor, request: Request)
    requires Steps(r, s, r', s') && Enabled(s, Apply(request)) && s' == Next(allowed, s, Apply(request))
    ensures request.name in r.owned ==> r.owned[request.name].id < |r.values|
    ensures if Accepts(allowed, r, request) then Applied(r, r', request) else r' == r
  {
    OwnedMeans(r, s, request.name);
    hide Steps, Stands, Applied;
    if Accepts(allowed, r, request) {
      RequestMeans(allowed, s, request);
      hide Next, Enabled;
      if request.name in r.owned {
        OwnedRecords(r, s, r', s', request);
      } else {
        UnownedRecords(r, s, r', s', request);
      }
    } else {
      RefusalMeans(allowed, s, request);
      RefusedRecords(r, s, r', s');
    }
  }

  // ----- the other sections -----

  /** A timer of the current run's present generation ends the run; any other only goes off. */
  ghost predicate TimedOut(r: Records, r': Records, timer: Timer, t: OwnedTunnel)
    requires t.id < |r.values|
  {
    var r1 := r.(timers := r.timers - {timer});
    if timer.name in r.owned && r.owned[timer.name] == t && Of(r, t).generation == timer.generation
    then r' == Stop(r1, t, Of(r, t).(wantRun := false))
    else r' == r1
  }

  lemma TimerRecords(allowed: set<Name>, r: Records, s: Supervisor, r': Records, s': Supervisor, timer: Timer,
                     t: OwnedTunnel)
    requires Steps(r, s, r', s') && t in r.runs && t.id == timer.run
    requires Enabled(s, TimerFires(timer)) && s' == Next(allowed, s, TimerFires(timer))
    ensures t.id < |r.values| && TimedOut(r, r', timer, t)
  {
    hide Stands, Next, Enabled, Farewell, Awaiting, Ended;
    OwnsMeans(r, s, t);
    OwnedMeans(r, s, timer.name);
    if timer.name in r.owned && r.owned[timer.name].id == t.id {
      SameRun(r, s, timer.name, t);
    }
    Plain(r, s, r', s');
    TimerMeans(allowed, s, timer);
    var v := Of(r, t).(wantRun := false);
    if timer.name in r.owned && r.owned[timer.name] == t && v.generation == timer.generation {
      assert s.log + Farewell(v, t.id) + [] == s.log + Farewell(v, t.id);
      StoppedRecords(r, s, r', s', t, v, []);
      var r1 := Stop(r.(timers := s'.timers), t, v);
      assert r1.log + [] == r1.log;
    } else {
      NoRecord(r, s, r', s');
    }
  }

  /**
   After the drain of the current run: if RUNNING was asked for since and that lease still lasts, a new
   run has its revision and expiry and no STOPPED is said; otherwise the name is given up and STOPPED of
   its revision is all that is said. A failed drain and the drain of a former run change nothing.
   */
  ghost predicate Drained(r: Records, r': Records, t: OwnedTunnel)
    requires t.id < |r.values|
  {
    var v, r1 := Of(r, t), r.(finishers := r.finishers - {t.id});
    if Owns(r, t) && !v.runErr.DrainError? then
      if v.wantRun && r.now < v.expires then Begun(r1, r', t.name, v.revision, v.expires)
      else r' == r1.(owned := r.owned - {t.name}, log := r.log + [Emitted(t.name, v.revision, Stopped)])
    else r' == r1
  }

  lemma DrainRecords(allowed: set<Name>, r: Records, s: Supervisor, r': Records, s': Supervisor, t: OwnedTunnel)
    requires Steps(r, s, r', s') && t in r.runs
    requires Enabled(s, FinishStop(t.id)) && s' == Next(allowed, s, FinishStop(t.id))
    ensures t.id < |r.values| && Drained(r, r', t)
  {
    hide Stands, Next, Index, Started, Begun;
    OwnsMeans(r, s, t);
    Plain(r, s, r', s');
    DrainMeans(allowed, s, t.id);
    var v := Of(r, t);
    if Owns(r, t) && !v.runErr.DrainError? {
      if v.wantRun && s.now < v.expires {
        assert s'.finishers == s.finishers - {t.id} && s'.leased == s.leased by {
          StartedKeeps(s.(finishers := s.finishers - {t.id}), s', t.name, v.revision, v.expires);
        }
        StartedRecords(r, s, r', s', t.name, v.revision, v.expires);
      } else {
        NoRecord(r, s, r', s');
        Indexed(r, s);
        FewerOwners(r.runs, r.owned, s.owned, t.name);
        SameOwners(r.runs, r.owned - {t.name}, r'.owned, s'.owned);
      }
    } else {
      NoRecord(r, s, r', s');
    }
  }

  lemma StartedKeeps(s: Supervisor, s': Supervisor, name: Name, revision: nat, expires: int)
    requires Started(s, s', name, revision, expires)
    ensures s'.finishers == s.finishers && s'.leased == s.leased
  {
  }

  /**
   A status of the current run is stored and said, with word of a run that became healthy; of a run
   whose stop has begun only a failed drain counts, of a former run nothing.
   */
  ghost function Said(r: Records, t: OwnedTunnel, status: Status, error: RunError, phase: Phase): Records
    requires t.id < |r.values|
  {
    var v := Of(r, t);
    if Owns(r, t) && (v.stopping ==> error.DrainError?) then
      r.(values := r.values[t.id := v.(status := status, runErr := error, phase := phase)],
         log := r.log + Words(v, t.id, status))
    else Moved(r, t, phase)
  }

  /** The goroutine of a run goes on to another phase. */
  ghost function Moved(r: Records, t: OwnedTunnel, phase: Phase): Records
    requires t.id < |r.values|
  {
    r.(values := r.values[t.id := Of(r, t).(phase := phase)])
  }

  lemma TakenRecords(r: Records, s: Supervisor, r': Records, s': Supervisor, t: OwnedTunnel, status: Status,
                     error: RunError, phase: Phase)
    requires Steps(r, s, r', s') && t in r.runs && t.id in s.tunnels && Taken(s, s', t.id, status, error, phase)
    ensures t.id < |r.values| && r' == Said(r, t, status, error, phase)
  {
    hide Stands, Words;
    OwnsMeans(r, s, t);
    Plain(r, s, r', s');
    RecordAndLog(r, s, r', s', t, s'.tunnels[t.id], s'.log);
  }

  /** READY counts the first time a run reports it, STARTING whenever readiness is lost. */
  ghost function Heard(r: Records, t: OwnedTunnel, healthy: bool): Records
    requires t.id < |r.values| && Of(r, t).phase.Running?
  {
    if !healthy then Said(r, t, Starting, NoError, Of(r, t).phase)
    else if Of(r, t).phase.reported then r
    else Said(r, t, Ready, NoError, Running(true))
  }

  lemma ReportRecords(allowed: set<Name>, r: Records, s: Supervisor, r': Records, s': Supervisor, t: OwnedTunnel,
                      healthy: bool)
    requires Steps(r, s, r', s') && t in r.runs && IsRunning(s, t.id)
    requires s' == Next(allowed, s, if healthy then ReportHealthy(t.id) else ReportUnhealthy(t.id))
    ensures t.id < |r.values| && Of(r, t).phase.Running? && r' == Heard(r, t, healthy)
  {
    hide Stands, Next, Taken, Said;
    OwnsMeans(r, s, t);
    Plain(r, s, r', s');
    ReportMeans(allowed, s, t.id);
    if !healthy {
      TakenRecords(r, s, r', s', t, Starting, NoError, Of(r, t).phase);
    } else if Of(r, t).phase.reported {
      NoRecord(r, s, r', s');
    } else {
      TakenRecords(r, s, r', s', t, Ready, NoError, Running(true));
    }
  }

  /** A failed drain is noted at once; any other error of a cancelled run is no failure. */
  ghost function Returned(r: Records, t: OwnedTunnel, error: RunError): Records
    requires t.id < |r.values|
  {
    if error.DrainError? then Moved(r, t, DrainReturned).(log := r.log + [DrainFailed(t.name)])
    else if Of(r, t).cancelled then Moved(r, t, Exiting)
    else Moved(r, t, FailureReturned(error))
  }

  lemma ReturnRecords(allowed: set<Name>, r: Records, s: Supervisor, r': Records, s': Supervisor, t: OwnedTunnel,
                      error: RunError)
    requires Steps(r, s, r', s') && t in r.runs && IsRunning(s, t.id)
    requires s' == Next(allowed, s, RunReturns(t.id, error))
    ensures t.id < |r.values| && r' == Returned(r, t, error)
  {
    hide Stands, Next;
    OwnsMeans(r, s, t);
    Plain(r, s, r', s');
    ReturnMeans(allowed, s, t.id, error);
    RecordAndLog(r, s, r', s', t, s'.tunnels[t.id], s'.log);
  }

  /** A failure is FAILED and, unless fatal, followed by a back-off; a restart is STARTING again. */
  ghost function Proceeded(r: Records, t: OwnedTunnel): Records
    requires t.id < |r.values|
  {
    match Of(r, t).phase
    case DrainReturned => Said(r, t, Failed, DrainError, Exiting)
    case FailureReturned(error) => Said(r, t, Failed, error, Waiting)
    case Restarting => Said(r, t, Starting, NoError, Running(false))
    case Exiting => Moved(r, t, Finished).(log := r.log + [RunFinished(t.name, t.id)])
    case _ => r
  }

  /** What the goroutine of a run does next on its own account, given where it is. */
  ghost function OwnAction(run: RunId, phase: Phase): Option<Action> {
    match phase
    case DrainReturned => Some(RecordDrain(run))
    case FailureReturned(_) => Some(RecordFailure(run))
    case Restarting => Some(TunnelMachine.Restart(run))
    case Exiting => Some(CloseDone(run))
    case _ => None
  }

  lemma ProceedRecords(allowed: set<Name>, r: Records, s: Supervisor, r': Records, s': Supervisor, t: OwnedTunnel)
    requires Steps(r, s, r', s') && t in r.runs && t.id in s.tunnels
    requires OwnAction(t.id, s.tunnels[t.id].phase).Some?
    requires Enabled(s, OwnAction(t.id, s.tunnels[t.id].phase).value)
    requires s' == Next(allowed, s, OwnAction(t.id, s.tunnels[t.id].phase).value)
    ensures t.id < |r.values| && r' == Proceeded(r, t)
  {
    hide Stands, Next, Taken, Said;
    OwnsMeans(r, s, t);
    Plain(r, s, r', s');
    FailureMeans(allowed, s, t.id);
    BackoffMeans(allowed, s, t.id);
    match Of(r, t).phase
    case DrainReturned => TakenRecords(r, s, r', s', t, Failed, DrainError, Exiting);
    case FailureReturned(error) => TakenRecords(r, s, r', s', t, Failed, error, Waiting);
    case Restarting => TakenRecords(r, s, r', s', t, Starting, NoError, Running(false));
    case Exiting => RecordAndLog(r, s, r', s', t, s'.tunnels[t.id], s'.log);
  }

  lemma WaitRecords(allowed: set<Name>, r: Records, s: Supervisor, r': Records, s': Supervisor, t: OwnedTunnel,
                    elapsed: bool)
    requires Steps(r, s, r', s') && t in r.runs && InPhase(s, t.id, Waiting)
    requires elapsed || s.tunnels[t.id].cancelled
    requires s' == Next(allowed, s, if elapsed then WaitElapses(t.id) else WaitAborts(t.id))
    ensures t.id < |r.values| && r' == Moved(r, t, if elapsed && Owns(r, t) then Restarting else Exiting)
  {
    hide Stands, Next;
    OwnsMeans(r, s, t);
    Plain(r, s, r', s');
    BackoffMeans(allowed, s, t.id);
    RecordAndLog(r, s, r', s', t, s'.tunnels[t.id], s'.log);
  }

  // ----- shutdown -----

  /** Every owned run is told to end and no longer wanted; that is said of those it is news to, and nothing else is. */
  ghost predicate AllTold(r: Records, r': Records)
    requires |r.runs| == |r.values|
  {
    && r' == r.(values := r'.values, finishers := r'.finishers, log := r'.log) && |r'.values| == |r.values|
    && (forall i {:trigger r'.values[i]} :: 0 <= i < |r.runs| ==>
          var v := r.values[i].(wantRun := false);
          r'.values[i] ==
            if !Owns(r, r.runs[i]) then r.values[i]
            else if v.stopping || v.runErr.DrainError? then v.(cancelled := true)
            else v.(cancelled := true, stopping := true, status := Starting, runErr := NoError))
    && (forall i {:trigger r.values[i]} ::
          0 <= i < |r.runs| && Owns(r, r.runs[i]) && !r.values[i].stopping && !r.values[i].runErr.DrainError? ==>
          && i in r'.finishers && StopBegan(r.values[i].name, i) in r'.log
          && Emitted(r.values[i].name, r.values[i].revision, Starting) in r'.log)
    && r.log < r'.log && r'.log[|r'.log| - 1] == ShutdownBegan
    && (forall i :: |r.log| <= i < |r'.log| - 1 ==>
          r'.log[i].StopBegan? || (r'.log[i].Emitted? && r'.log[i].status.Starting?))
  }

  lemma OwnersMeans(r: Records, s: Supervisor)
    requires Stands(r, s)
    ensures Owners(s) && |r.runs| == |r.values| == s.nextRun && (forall i :: i in s.tunnels <==> 0 <= i < |r.runs|)
    ensures forall i :: 0 <= i < |r.runs| ==>
              s.tunnels[i] == r.values[i] && (Owns(r, r.runs[i]) <==> OwnedBy(s, s.owned.Keys, i))
  {
    forall i | 0 <= i < |r.runs| {
      OwnsMeans(r, s, r.runs[i]);
    }
  }

  lemma ShutdownRecords(allowed: set<Name>, r: Records, s: Supervisor, r': Records, s': Supervisor, order: seq<Name>)
    requires Steps(r, s, r', s') && Enabled(s, StopAll(order)) && s' == Next(allowed, s, StopAll(order))
    ensures |r.runs| == |r.values| && AllTold(r, r') && s'.shutdown
    ensures forall n :: n in r.owned ==> r.owned[n].id in s'.awaited
  {
    hide Stands, Next, Enabled, Owners, Owns, OwnedBy, Index;
    OwnersMeans(r, s);
    OwnersMeans(r', s');
    ShutdownMeans(allowed, s, order);
    Plain(r, s, r', s');
    Plain(r', s', r', s');
    Indexed(r, s);
    Indexed(r', s');
    assert r'.runs == r.runs;
    SameOwners(r.runs, r.owned, r'.owned, s.owned);
    forall n | n in r.owned
      ensures r.owned[n].id in s'.awaited
    {
      OwnedMeans(r, s, n);
    }
  }
}
