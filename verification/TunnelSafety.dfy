/**
 What every interleaving of the tunnel supervisor keeps: one run per name,
 leases that are always armed, drains that fence, and statuses that never claim
 more than is true.
 */
module TunnelSafety {
  import opened Common
  import opened TunnelMachine

  // ----- what a log may contain -----

  /** What the past says about each tunnel name. */
  datatype Past = Past(
    open: set<(Name, RunId)>,      // runs started and not finished
    healthy: set<Name>,            // a run reported healthy and no stop began since
    stopped: set<RunId>,           // a stop of the run began
    fenced: set<Name>,             // a drain failed
    down: bool)                    // shutdown began

  function Observe(p: Past, e: Event): Past {
    match e
    case Emitted(_, _, _) => p
    case RunStarted(n, r) => p.(open := p.open + {(n, r)})
    case RunFinished(n, r) => p.(open := p.open - {(n, r)})
    case StopBegan(n, r) => p.(healthy := p.healthy - {n}, stopped := p.stopped + {r})
    case BecameHealthy(n, _) => p.(healthy := p.healthy + {n})
    case DrainFailed(n) => p.(fenced := p.fenced + {n})
    case ShutdownBegan => p.(down := true)
  }

  function PastOf(log: seq<Event>): Past
    decreases |log|
  {
    if log == [] then Past({}, {}, {}, {}, false)
    else Observe(PastOf(log[..|log| - 1]), log[|log| - 1])
  }

  ghost predicate NoneOpen(p: Past, n: Name) {
    forall r :: (n, r) !in p.open
  }

  /**
   What may happen next, given the past: a run starts only when no other run of
   its name is unfinished, no drain of that name failed and shutdown has not
   begun; STOPPED is said only when no run of that name is unfinished; READY only
   when a run reported healthy after the latest stop began; and a healthy report
   counts only from an unfinished run that nobody began to stop.
   */
  ghost predicate Allowed(p: Past, e: Event) {
    match e
    case RunStarted(n, _) => NoneOpen(p, n) && n !in p.fenced && !p.down
    case Emitted(n, _, Stopped) => NoneOpen(p, n)
    case Emitted(n, _, Ready) => n in p.healthy
    case BecameHealthy(n, r) => (n, r) in p.open && r !in p.stopped
    case _ => true
  }

  ghost predicate SafeLog(log: seq<Event>) {
    forall k :: 0 <= k < |log| ==> Allowed(PastOf(log[..k]), log[k])
  }

  lemma SafeLogSnoc(log: seq<Event>, e: Event)
    requires SafeLog(log) && Allowed(PastOf(log), e)
    ensures SafeLog(log + [e]) && PastOf(log + [e]) == Observe(PastOf(log), e)
  {
    var longer := log + [e];
    assert longer[..|log|] == log;
    forall k | 0 <= k < |longer|
      ensures Allowed(PastOf(longer[..k]), longer[k])
    {
      assert k < |log| ==> longer[..k] == log[..k];
    }
  }

  lemma SafeLogSnoc2(log: seq<Event>, e: Event, f: Event)
    requires SafeLog(log) && Allowed(PastOf(log), e) && Allowed(Observe(PastOf(log), e), f)
    ensures SafeLog(log + [e] + [f]) && PastOf(log + [e] + [f]) == Observe(Observe(PastOf(log), e), f)
  {
    SafeLogSnoc(log, e);
    SafeLogSnoc(log + [e], f);
  }

  // ----- the invariant -----

  ghost predicate TunnelInv(s: Supervisor, run: RunId)
    requires run in s.tunnels
  {
    var t := s.tunnels[run];
    && run < s.nextRun
    && (!t.phase.Finished? ==> Current(s, run))
    && (t.cancelled <==> t.stopping || (t.cancelled && t.runErr.DrainError?))
    && !t.status.Stopped?
    && (t.stopping ==> !t.status.Ready?)
    && (t.runErr.DrainError? ==> (t.phase.Exiting? || t.phase.Finished?) && !t.status.Ready?)
    && (t.phase.Exiting? || t.phase.Finished? ==> t.cancelled || t.runErr.DrainError?)
    && (t.phase.FailureReturned? ==> !t.phase.error.DrainError?)
  }

  /** What holds of the run a name owns. */
  ghost predicate OwnerInv(s: Supervisor, p: Past, run: RunId)
    requires run in s.tunnels
  {
    var t := s.tunnels[run];
    && (t.status.Ready? ==> t.name in p.healthy)
    && (t.stopping && !t.runErr.DrainError? ==> run in s.finishers)
    && (!t.cancelled && !t.runErr.DrainError? ==>
          Timer(t.name, run, t.generation, t.expires) in s.timers && t.wantRun)
    && (t.wantRun ==> t.name in s.leased && s.leased[t.name] == t.expires)
    && (s.shutdown ==> !t.wantRun && t.cancelled)
    && (s.shutdown ==> run in s.awaited)
  }

  ghost predicate OwnedInv(s: Supervisor) {
    forall n :: n in s.owned ==> s.owned[n] in s.tunnels && s.tunnels[s.owned[n]].name == n
  }

  predicate DrainHasFailed(t: Tunnel) {
    t.runErr.DrainError? || t.phase.DrainReturned?
  }

  /** The log tells the same story as the state. */
  ghost predicate StoryInv(s: Supervisor, p: Past) {
    && (forall n, r :: (n, r) in p.open <==> r in s.tunnels && s.tunnels[r].name == n && !s.tunnels[r].phase.Finished?)
    && (forall n :: n in p.fenced ==> n in s.owned && s.owned[n] in s.tunnels && DrainHasFailed(s.tunnels[s.owned[n]]))
    && (forall r :: r in s.tunnels && DrainHasFailed(s.tunnels[r]) ==> s.tunnels[r].name in p.fenced && Current(s, r))
    && (forall r :: r in s.tunnels ==> (r in p.stopped <==> s.tunnels[r].stopping))
    && (forall r :: r in p.stopped ==> r in s.tunnels)
    && p.down == s.shutdown
  }

  ghost predicate StateInv(s: Supervisor, p: Past) {
    && OwnedInv(s)
    && (forall r :: r in s.tunnels ==> TunnelInv(s, r))
    && (forall n :: n in s.owned ==> s.owned[n] in s.tunnels && OwnerInv(s, p, s.owned[n]))
    && s.finishers <= s.tunnels.Keys
    && StoryInv(s, p)
  }

  ghost predicate Inv(s: Supervisor) {
    SafeLog(s.log) && StateInv(s, PastOf(s.log))
  }

  /** Only what belongs to the run `run` of the name `n` differs. */
  ghost predicate OnlyRunChanged(s: Supervisor, s': Supervisor, run: RunId) {
    && run in s.tunnels
    && s'.owned == s.owned && s'.nextRun == s.nextRun && s'.shutdown == s.shutdown && s'.awaited == s.awaited
    && run in s'.tunnels && s'.tunnels == s.tunnels[run := s'.tunnels[run]]
    && s'.tunnels[run].name == s.tunnels[run].name
    && s.finishers <= s'.finishers <= s.finishers + {run}
    && (forall timer :: timer in s.timers && timer.run != run ==> timer in s'.timers)
    && (forall n :: n in s.leased && n != s.tunnels[run].name ==> n in s'.leased && s'.leased[n] == s.leased[n])
  }

  ghost predicate OnlyNameChanged(p: Past, p': Past, n: Name, run: RunId) {
    && (forall r :: r != run ==> (r in p.stopped <==> r in p'.stopped))
    && (forall m :: m != n ==> (m in p.healthy <==> m in p'.healthy))
    && (forall m :: m != n ==> (m in p.fenced <==> m in p'.fenced))
    && p.down == p'.down
  }

  lemma RunStepKeepsStory(s: Supervisor, p: Past, s': Supervisor, p': Past, run: RunId)
    requires OwnedInv(s) && StoryInv(s, p) && Current(s, run)
    requires OnlyRunChanged(s, s', run) && OnlyNameChanged(p, p', s.tunnels[run].name, run)
    requires p'.open == if s'.tunnels[run].phase.Finished? then p.open - {(s.tunnels[run].name, run)}
                        else p.open + {(s.tunnels[run].name, run)}
    requires s.tunnels[run].name in p'.fenced <==> DrainHasFailed(s'.tunnels[run])
    requires run in p'.stopped <==> s'.tunnels[run].stopping
    ensures OwnedInv(s') && StoryInv(s', p')
  {
  }

  /** A step about the current run of a name keeps the invariant if it does so for that run. */
  lemma RunStepKeepsInv(s: Supervisor, p: Past, s': Supervisor, p': Past, run: RunId)
    requires StateInv(s, p) && Current(s, run)
    requires OnlyRunChanged(s, s', run) && OnlyNameChanged(p, p', s.tunnels[run].name, run)
    requires TunnelInv(s', run) && OwnerInv(s', p', run)
    requires p'.open == if s'.tunnels[run].phase.Finished? then p.open - {(s.tunnels[run].name, run)}
                        else p.open + {(s.tunnels[run].name, run)}
    requires s.tunnels[run].name in p'.fenced <==> DrainHasFailed(s'.tunnels[run])
    requires run in p'.stopped <==> s'.tunnels[run].stopping
    ensures StateInv(s', p')
  {
    RunStepKeepsStory(s, p, s', p', run);
    forall r | r in s'.tunnels
      ensures TunnelInv(s', r)
    {
      if r != run {
        assert TunnelInv(s, r);
      }
    }
    forall n | n in s'.owned
      ensures s'.owned[n] in s'.tunnels && OwnerInv(s', p', s'.owned[n])
    {
      if s.owned[n] != run {
        assert OwnerInv(s, p, s.owned[n]);
      }
    }
  }

  /** What the invariant says about one run. */
  lemma RunFacts(s: Supervisor, p: Past, run: RunId)
    requires StateInv(s, p) && run in s.tunnels
    ensures TunnelInv(s, run)
    ensures (s.tunnels[run].name, run) in p.open <==> !s.tunnels[run].phase.Finished?
    ensures run in p.stopped <==> s.tunnels[run].stopping
    ensures Current(s, run) ==>
              OwnerInv(s, p, run) && (s.tunnels[run].name in p.fenced <==> DrainHasFailed(s.tunnels[run]))
  {
  }

  lemma InitialInv(now: int)
    ensures Inv(Initial(now))
  {
  }

  // ----- runner steps -----

  /** A runner moves on without touching its status. */
  lemma MoveKeepsInv(s: Supervisor, run: RunId, phase: Phase)
    requires Inv(s) && run in s.tunnels
    requires !s.tunnels[run].phase.DrainReturned? && !s.tunnels[run].phase.Exiting? && !s.tunnels[run].phase.Finished?
    requires !phase.DrainReturned? && !phase.Finished?
    requires phase.Exiting? ==> s.tunnels[run].cancelled
    requires phase.FailureReturned? ==> !phase.error.DrainError?
    ensures Inv(MoveTo(s, run, phase))
  {
    var p := PastOf(s.log);
    RunFacts(s, p, run);
    hide StateInv;
    RunStepKeepsInv(s, p, MoveTo(s, run, phase), p, run);
  }

  ghost predicate StatusStep(t: Tunnel, status: Status, err: RunError, phase: Phase) {
    && !status.Stopped?
    && !t.phase.Exiting? && !t.phase.Finished?
    && (phase.Running? || phase.Waiting? || phase.Exiting?)
    && (t.phase.DrainReturned? <==> err.DrainError?) && (phase.Exiting? <==> err.DrainError?)
    && (err.DrainError? ==> status.Failed?)
  }

  lemma StatusKeepsStateInv(s: Supervisor, p: Past, run: RunId, t': Tunnel, s': Supervisor, p': Past)
    requires StateInv(s, p) && run in s.tunnels && StatusStep(s.tunnels[run], t'.status, t'.runErr, t'.phase)
    requires t' == s.tunnels[run].(status := t'.status, runErr := t'.runErr, phase := t'.phase)
    requires s.tunnels[run].stopping ==> t'.runErr.DrainError?
    requires s' == Update(s, run, t').(log := s'.log)
    requires p' == if t'.status.Ready? then p.(healthy := p.healthy + {t'.name}) else p
    ensures StateInv(s', p')
  {
    RunFacts(s, p, run);
    hide StateInv;
    RunStepKeepsInv(s, p, s', p', run);
  }

  lemma StatusShape(s: Supervisor, run: RunId, status: Status, err: RunError, phase: Phase, t': Tunnel)
    requires Current(s, run) && (s.tunnels[run].stopping ==> err.DrainError?)
    requires t' == s.tunnels[run].(status := status, runErr := err, phase := phase)
    ensures var emitted := Emitted(t'.name, t'.revision, status);
            MoveTo(SetStatus(s, run, status, err), run, phase)
            == Update(s, run, t').(
              log := if status.Ready? then s.log + [BecameHealthy(t'.name, run)] + [emitted] else s.log + [emitted])
  {
  }

  /** A status that counts. */
  lemma StatusKeepsInv'(s: Supervisor, run: RunId, t': Tunnel, s': Supervisor)
    requires Inv(s) && run in s.tunnels && StatusStep(s.tunnels[run], t'.status, t'.runErr, t'.phase)
    requires t' == s.tunnels[run].(status := t'.status, runErr := t'.runErr, phase := t'.phase)
    requires s.tunnels[run].stopping ==> t'.runErr.DrainError?
    requires s' == Update(s, run, t').(log := s'.log)
    requires var emitted := Emitted(t'.name, t'.revision, t'.status);
             s'.log == if t'.status.Ready? then s.log + [BecameHealthy(t'.name, run)] + [emitted] else s.log + [emitted]
    ensures Inv(s')
  {
    RunFacts(s, PastOf(s.log), run);
    hide StateInv, SafeLog;
    if t'.status.Ready? {
      SafeLogSnoc2(s.log, BecameHealthy(t'.name, run), Emitted(t'.name, t'.revision, t'.status));
    } else {
      SafeLogSnoc(s.log, Emitted(t'.name, t'.revision, t'.status));
    }
    StatusKeepsStateInv(s, PastOf(s.log), run, t', s', PastOf(s'.log));
  }

  /** A runner stores a status and moves on. */
  lemma StatusKeepsInv(s: Supervisor, run: RunId, status: Status, err: RunError, phase: Phase)
    requires Inv(s) && run in s.tunnels && StatusStep(s.tunnels[run], status, err, phase)
    ensures Inv(MoveTo(SetStatus(s, run, status, err), run, phase))
  {
    RunFacts(s, PastOf(s.log), run);
    hide StateInv, SafeLog;
    if s.tunnels[run].stopping && !err.DrainError? {
      MoveKeepsInv(s, run, phase);
    } else {
      var t' := s.tunnels[run].(status := status, runErr := err, phase := phase);
      StatusShape(s, run, status, err, phase, t');
      StatusKeepsInv'(s, run, t', MoveTo(SetStatus(s, run, status, err), run, phase));
    }
  }

  lemma DrainReturnKeepsInv(s: Supervisor, run: RunId)
    requires Inv(s) && IsRunning(s, run)
    ensures Inv(Note(MoveTo(s, run, DrainReturned), DrainFailed(s.tunnels[run].name)))
  {
    var p := PastOf(s.log);
    var s' := Note(MoveTo(s, run, DrainReturned), DrainFailed(s.tunnels[run].name));
    RunFacts(s, p, run);
    hide StateInv, SafeLog;
    SafeLogSnoc(s.log, DrainFailed(s.tunnels[run].name));
    RunStepKeepsInv(s, p, s', PastOf(s'.log), run);
  }

  lemma CloseKeepsInv(s: Supervisor, run: RunId)
    requires Inv(s) && InPhase(s, run, Exiting)
    ensures Inv(Note(MoveTo(s, run, Finished), RunFinished(s.tunnels[run].name, run)))
  {
    var p := PastOf(s.log);
    var s' := Note(MoveTo(s, run, Finished), RunFinished(s.tunnels[run].name, run));
    RunFacts(s, p, run);
    hide StateInv, SafeLog;
    SafeLogSnoc(s.log, RunFinished(s.tunnels[run].name, run));
    RunStepKeepsInv(s, p, s', PastOf(s'.log), run);
  }

  lemma ReportKeepsInv(allowed: set<Name>, s: Supervisor, a: Action)
    requires Inv(s) && Enabled(s, a)
    requires a.ReportHealthy? || a.ReportUnhealthy? || a.RecordDrain? || a.RecordFailure? || a.Restart?
    ensures Inv(Next(allowed, s, a))
  {
    RunFacts(s, PastOf(s.log), a.run);
    hide Inv, StateInv, SafeLog, SetStatus, MoveTo, Note;
    match a
    case ReportHealthy(run) =>
      if !s.tunnels[run].phase.reported {
        StatusKeepsInv(s, run, Ready, NoError, Running(true));
      }
    case ReportUnhealthy(run) => StatusKeepsInv(s, run, Starting, NoError, s.tunnels[run].phase);
    case RecordDrain(run) => StatusKeepsInv(s, run, Failed, DrainError, Exiting);
    case RecordFailure(run) => StatusKeepsInv(s, run, Failed, s.tunnels[run].phase.error, Waiting);
    case Restart(run) => StatusKeepsInv(s, run, Starting, NoError, Running(false));
  }

  lemma MovesKeepInv(allowed: set<Name>, s: Supervisor, a: Action)
    requires Inv(s) && Enabled(s, a)
    requires a.RunReturns? || a.WaitElapses? || a.WaitAborts? || a.CloseDone?
    ensures Inv(Next(allowed, s, a))
  {
    RunFacts(s, PastOf(s.log), a.run);
    hide Inv, StateInv, SafeLog, SetStatus, MoveTo, Note;
    match a
    case RunReturns(run, error) =>
      if error.DrainError? {
        DrainReturnKeepsInv(s, run);
      } else {
        MoveKeepsInv(s, run, if s.tunnels[run].cancelled then Exiting else FailureReturned(error));
      }
    case WaitElapses(run) => MoveKeepsInv(s, run, Restarting);
    case WaitAborts(run) => MoveKeepsInv(s, run, Exiting);
    case CloseDone(run) => CloseKeepsInv(s, run);
  }

  // ----- stops -----

  /** A revoked run keeps its identity; only lease fields differ and it does not want to run. */
  ghost predicate Revokes(t: Tunnel, t1: Tunnel) {
    t1 == t.(revision := t1.revision, generation := t1.generation, expires := t1.expires, wantRun := false)
  }

  /** The state after revoking: a first stop cancels, flags and registers a finisher; a repeated one only cancels. */
  ghost function Revoked(s: Supervisor, run: RunId, t1: Tunnel, timers: set<Timer>): Supervisor {
    if t1.stopping || t1.runErr.DrainError?
    then Update(s, run, t1.(cancelled := true)).(timers := timers)
    else Update(s, run, t1.(cancelled := true, stopping := true, status := Starting, runErr := NoError))
         .(timers := timers, finishers := s.finishers + {run},
           log := s.log + [StopBegan(t1.name, run)] + [Emitted(t1.name, t1.revision, Starting)])
  }

  lemma StopLockedRevokes(s: Supervisor, run: RunId, t1: Tunnel, timers: set<Timer>)
    ensures StopLocked(Update(s.(timers := timers), run, t1), run) == Revoked(s, run, t1, timers)
  {
    var s1, s' := Update(s.(timers := timers), run, t1), Revoked(s, run, t1, timers);
    assert s1.tunnels[run := s'.tunnels[run]] == s'.tunnels;
  }

  lemma StopKeepsStateInv(s: Supervisor, p: Past, run: RunId, t1: Tunnel, s': Supervisor, p': Past)
    requires StateInv(s, p) && Current(s, run) && Revokes(s.tunnels[run], t1)
    requires forall timer :: timer in s.timers && timer.run != run ==> timer in s'.timers
    requires s' == Revoked(s, run, t1, s'.timers)
    requires p' == if t1.stopping || t1.runErr.DrainError? then p
      else p.(healthy := p.healthy - {t1.name}, stopped := p.stopped + {run})
    ensures StateInv(s', p')
  {
    RunFacts(s, p, run);
    hide StateInv;
    RunStepKeepsInv(s, p, s', p', run);
  }

  /**
   Revoking the current run: its lease fields may change and its own timers may
   go, it no longer wants to run, and a stop begins unless one is under way.
   */
  lemma StopKeepsInv(s: Supervisor, run: RunId, t1: Tunnel, timers: set<Timer>)
    requires Inv(s) && Current(s, run) && Revokes(s.tunnels[run], t1)
    requires forall timer :: timer in s.timers && timer.run != run ==> timer in timers
    ensures Inv(StopLocked(Update(s.(timers := timers), run, t1), run))
  {
    hide StateInv, SafeLog;
    StopLockedRevokes(s, run, t1, timers);
    var p, s' := PastOf(s.log), Revoked(s, run, t1, timers);
    if t1.stopping || t1.runErr.DrainError? {
      StopKeepsStateInv(s, p, run, t1, s', p);
    } else {
      SafeLogSnoc2(s.log, StopBegan(t1.name, run), Emitted(t1.name, t1.revision, Starting));
      StopKeepsStateInv(s, p, run, t1, s', p.(healthy := p.healthy - {t1.name}, stopped := p.stopped + {run}));
    }
  }

  lemma TimerKeepsInv(allowed: set<Name>, s: Supervisor, a: Action)
    requires Inv(s) && a.TimerFires? && Enabled(s, a)
    ensures Inv(Next(allowed, s, a))
  {
    var timer := a.timer;
    if && timer.name in s.owned && s.owned[timer.name] == timer.run
       && s.tunnels[timer.run].generation == timer.generation {
      StopKeepsInv(s, timer.run, s.tunnels[timer.run].(wantRun := false), s.timers - {timer});
    } else {
      var p, s' := PastOf(s.log), s.(timers := s.timers - {timer});
      forall n | n in s'.owned
        ensures OwnerInv(s', p, s'.owned[n])
      {
        assert OwnerInv(s, p, s.owned[n]);
      }
      forall r | r in s'.tunnels
        ensures TunnelInv(s', r)
      {
        assert TunnelInv(s, r);
      }
    }
  }

  // ----- requests, replacements and shutdown -----

  /** Repeating the status of a current run. */
  lemma EmitKeepsInv(s: Supervisor, run: RunId)
    requires Inv(s) && Current(s, run)
    ensures Inv(EmitStatus(s, run))
  {
    var p, t, s' := PastOf(s.log), s.tunnels[run], EmitStatus(s, run);
    RunFacts(s, p, run);
    hide StateInv, SafeLog;
    SafeLogSnoc(s.log, Emitted(t.name, t.revision, t.status));
    RunStepKeepsInv(s, p, s', p, run);
  }

  /** No run of an unowned name is unfinished, and the next run identity is unused. */
  lemma UnownedIsClosed(s: Supervisor, p: Past, name: Name)
    requires StateInv(s, p) && name !in s.owned
    ensures NoneOpen(p, name) && s.nextRun !in s.tunnels
  {
  }

  lemma StartKeepsInv(s: Supervisor, name: Name, revision: nat, expires: int)
    requires Inv(s) && name !in s.owned && !s.shutdown
    requires name in s.leased && s.leased[name] == expires
    ensures Inv(StartLocked(s, name, revision, expires))
  {
    var p, s', run := PastOf(s.log), StartLocked(s, name, revision, expires), s.nextRun;
    UnownedIsClosed(s, p, name);
    SafeLogSnoc2(s.log, RunStarted(name, run), Emitted(name, revision, Starting));
    var p' := p.(open := p.open + {(name, run)});
    StartedTunnels(s, p, name, revision, expires);
    StartedOwners(s, p, name, revision, expires);
    StartedStory(s, p, s', p', name);
    hide SafeLog, StoryInv, TunnelInv, OwnerInv;
  }

  lemma StartedTunnels(s: Supervisor, p: Past, name: Name, revision: nat, expires: int)
    requires StateInv(s, p) && name !in s.owned
    ensures forall r :: r in StartLocked(s, name, revision, expires).tunnels ==>
      TunnelInv(StartLocked(s, name, revision, expires), r)
  {
    var s' := StartLocked(s, name, revision, expires);
    forall r | r in s'.tunnels
      ensures TunnelInv(s', r)
    {
      assert r != s.nextRun ==> TunnelInv(s, r);
    }
  }

  lemma StartedOwners(s: Supervisor, p: Past, name: Name, revision: nat, expires: int)
    requires StateInv(s, p) && name !in s.owned && !s.shutdown && name in s.leased && s.leased[name] == expires
    ensures var s', p' := StartLocked(s, name, revision, expires), p.(open := p.open + {(name, s.nextRun)});
      OwnedInv(s') && forall n :: n in s'.owned ==> OwnerInv(s', p', s'.owned[n])
  {
    var s', p' := StartLocked(s, name, revision, expires), p.(open := p.open + {(name, s.nextRun)});
    assert forall r :: r in s.tunnels ==> TunnelInv(s, r);
    forall n | n in s'.owned
      ensures s'.owned[n] in s'.tunnels && s'.tunnels[s'.owned[n]].name == n && OwnerInv(s', p', s'.owned[n])
    {
      assert n != name ==> OwnerInv(s, p, s.owned[n]);
    }
  }

  lemma StartedStory(s: Supervisor, p: Past, s': Supervisor, p': Past, name: Name)
    requires StateInv(s, p) && name !in s.owned
    requires p' == p.(open := p.open + {(name, s.nextRun)}) && s'.shutdown == s.shutdown
    requires s'.owned == s.owned[name := s.nextRun]
    requires s.nextRun in s'.tunnels && s'.tunnels == s.tunnels[s.nextRun := s'.tunnels[s.nextRun]]
    requires var t := s'.tunnels[s.nextRun]; t.name == name && !t.phase.Finished? && !DrainHasFailed(t) && !t.stopping
    ensures StoryInv(s', p')
  {
  }

  /** A finished run gives its name back. */
  lemma ReleaseKeepsInv(s: Supervisor, run: RunId)
    requires Inv(s) && Current(s, run) && s.tunnels[run].phase.Finished? && !s.tunnels[run].runErr.DrainError?
    ensures Inv(Release(s, run)) && s.tunnels[run].name !in Release(s, run).owned
  {
    var p, name := PastOf(s.log), s.tunnels[run].name;
    var s' := Release(s, run);
    forall r | r in s'.tunnels
      ensures TunnelInv(s', r) && (DrainHasFailed(s'.tunnels[r]) ==> Current(s', r))
    {
      assert TunnelInv(s, r);
      if Current(s, r) && s.tunnels[r].name == name {
        assert r == run;
      }
    }
    forall n | n in s'.owned
      ensures OwnerInv(s', p, s'.owned[n])
    {
      assert OwnerInv(s, p, s.owned[n]);
      assert s.owned[n] != run;
    }
    assert name !in p.fenced;
  }

  lemma ReplaceKeepsInv(s: Supervisor, run: RunId)
    requires Inv(s) && Current(s, run) && s.tunnels[run].phase.Finished? && !s.tunnels[run].runErr.DrainError?
    requires s.tunnels[run].wantRun
    ensures var t := s.tunnels[run]; Inv(StartLocked(Release(s, run), t.name, t.revision, t.expires))
  {
    var t := s.tunnels[run];
    RunFacts(s, PastOf(s.log), run);
    ReleaseKeepsInv(s, run);
    hide StateInv, SafeLog;
    StartKeepsInv(Release(s, run), t.name, t.revision, t.expires);
  }

  lemma FinishKeepsInv(s: Supervisor, run: RunId)
    requires Inv(s) && run in s.tunnels && s.tunnels[run].phase.Finished?
    ensures Inv(FinishStopped(s, run))
  {
    assert Release(s, run).now == s.now;
    hide Inv, StateInv, SafeLog, StartLocked, Release, Note;
    var t := s.tunnels[run];
    if !Current(s, run) || t.runErr.DrainError? {
      FinisherGone(s, run);
    } else if t.wantRun && s.now < t.expires {
      ReplaceKeepsInv(s, run);
    } else {
      ReleaseKeepsInv(s, run);
      StoppedKeepsInv(Release(s, run), t.name, t.revision);
    }
  }

  lemma FinisherGone(s: Supervisor, run: RunId)
    requires Inv(s) && run in s.tunnels && (!Current(s, run) || s.tunnels[run].runErr.DrainError?)
    ensures Inv(s.(finishers := s.finishers - {run}))
  {
    var p, s' := PastOf(s.log), s.(finishers := s.finishers - {run});
    forall r | r in s'.tunnels
      ensures TunnelInv(s', r)
    {
      assert TunnelInv(s, r);
    }
    forall n | n in s'.owned
      ensures OwnerInv(s', p, s'.owned[n])
    {
      assert OwnerInv(s, p, s.owned[n]);
    }
  }

  /** STOPPED may be said of a name no run owns. */
  lemma StoppedKeepsInv(s: Supervisor, name: Name, revision: nat)
    requires Inv(s) && name !in s.owned
    ensures Inv(Note(s, Emitted(name, revision, Stopped)))
  {
    var p := PastOf(s.log);
    UnownedIsClosed(s, p, name);
    SafeLogSnoc(s.log, Emitted(name, revision, Stopped));
    SameStateInv(s, Note(s, Emitted(name, revision, Stopped)), p);
  }

  /** The state part of the invariant does not look at the log, the clock, or leases of unowned names. */
  lemma SameStateInv(s: Supervisor, s': Supervisor, p: Past)
    requires StateInv(s, p)
    requires s' == s.(log := s'.log, now := s'.now, leased := s'.leased)
    requires forall n :: n in s.owned && n in s.leased ==> n in s'.leased && s'.leased[n] == s.leased[n]
    ensures StateInv(s', p)
  {
  }

  /** A RUNNING request renews the lease of the current run, stopping or not. */
  lemma LeaseKeepsInv(s: Supervisor, run: RunId, t1: Tunnel)
    requires Inv(s) && Current(s, run) && !s.shutdown && !s.tunnels[run].runErr.DrainError?
    requires t1 ==
      s.tunnels[run].(revision := t1.revision, generation := t1.generation, expires := t1.expires, wantRun := true)
    ensures Inv(Lease(s, run, t1)) && Current(Lease(s, run, t1), run)
  {
    var p := PastOf(s.log);
    RunFacts(s, p, run);
    hide StateInv;
    RunStepKeepsInv(s, p, Lease(s, run, t1), p, run);
  }

  lemma RenewKeepsInv(s: Supervisor, run: RunId, request: Request)
    requires Inv(s) && Current(s, run) && !s.shutdown && !s.tunnels[run].runErr.DrainError?
    ensures Inv(Renew(s, run, request))
  {
    var t1 := Renewed(s, s.tunnels[run], request);
    if t1.wantRun {
      LeaseKeepsInv(s, run, t1);
      EmitKeepsInv(Lease(s, run, t1), run);
    } else {
      StopOneKeepsInv(s, run, t1);
      EmitKeepsInv(StopLocked(Update(s, run, t1), run), run);
    }
  }

  /** Revoking one current run leaves every other run alone. */
  lemma StopOneKeepsInv(s: Supervisor, run: RunId, t1: Tunnel)
    requires Inv(s) && Current(s, run) && Revokes(s.tunnels[run], t1)
    ensures var s' := StopLocked(Update(s, run, t1), run);
            && Inv(s') && Current(s', run) && s'.shutdown == s.shutdown
            && s'.tunnels == s.tunnels[run := s'.tunnels[run]]
            && s'.tunnels[run].cancelled && !s'.tunnels[run].wantRun
  {
    StopKeepsInv(s, run, t1, s.timers);
    assert s.(timers := s.timers) == s;
    StopLockedRevokes(s, run, t1, s.timers);
  }

  lemma NewLeaseKeepsInv(s: Supervisor, name: Name, expires: int)
    requires Inv(s) && name !in s.owned
    ensures Inv(s.(leased := s.leased[name := expires]))
  {
  }

  lemma GrantKeepsInv(s: Supervisor, name: Name, revision: nat, expires: int)
    requires Inv(s) && name !in s.owned && !s.shutdown
    ensures Inv(Grant(s, name, revision, expires))
  {
    hide StateInv, SafeLog, StartLocked;
    NewLeaseKeepsInv(s, name, expires);
    StartKeepsInv(s.(leased := s.leased[name := expires]), name, revision, expires);
  }

  lemma OwnedRequestKeepsInv(allowed: set<Name>, s: Supervisor, request: Request)
    requires Inv(s) && !s.shutdown && request.name in s.owned
    ensures Inv(ApplyRequest(allowed, s, request))
  {
    var run := s.owned[request.name];
    hide StateInv, SafeLog, Renew;
    if ValidRequest(allowed, request) && !s.tunnels[run].runErr.DrainError? {
      RenewKeepsInv(s, run, request);
    }
  }

  lemma UnownedRequestKeepsInv(allowed: set<Name>, s: Supervisor, request: Request)
    requires Inv(s) && !s.shutdown && request.name !in s.owned
    ensures Inv(ApplyRequest(allowed, s, request))
  {
    hide StateInv, SafeLog, Grant, Note;
    if !ValidRequest(allowed, request) {
    } else if request.desired.WantRunning? {
      GrantKeepsInv(s, request.name, request.revision, s.now + request.lease);
    } else {
      StoppedKeepsInv(s, request.name, request.revision);
    }
  }

  lemma {:induction false} StopEachKeepsInv(s: Supervisor, order: seq<Name>)
    requires Inv(s) && forall n :: n in order ==> n in s.owned
    ensures Inv(StopEach(s, order))
    ensures StopEach(s, order).shutdown == s.shutdown
    ensures forall n :: n in order ==> var t := StopEach(s, order).tunnels[s.owned[n]]; t.cancelled && !t.wantRun
    decreases |order|
  {
    if order != [] {
      var k := |order| - 1;
      var s1 := StopEach(s, order[..k]);
      StopEachKeepsInv(s, order[..k]);
      var run := s1.owned[order[k]];
      StopOneKeepsInv(s1, run, s1.tunnels[run].(wantRun := false));
      forall n | n in order
        ensures var t := StopEach(s, order).tunnels[s.owned[n]]; t.cancelled && !t.wantRun
      {
        assert n == order[k] || n in order[..k];
      }
    }
  }

  lemma ShutdownKeepsInv(s: Supervisor, order: seq<Name>)
    requires Inv(s) && !s.shutdown && Enumerates(order, s.owned.Keys)
    ensures Inv(BeginShutdown(s, order))
  {
    StopEachKeepsInv(s, order);
    var s1 := StopEach(s, order);
    assert forall n :: n in s1.owned ==> n in order;
    SafeLogSnoc(s1.log, ShutdownBegan);
    DownKeepsStateInv(s1, PastOf(s1.log), BeginShutdown(s, order));
  }

  lemma DownKeepsStateInv(s: Supervisor, p: Past, s': Supervisor)
    requires StateInv(s, p)
    requires forall n :: n in s.owned ==> s.tunnels[s.owned[n]].cancelled && !s.tunnels[s.owned[n]].wantRun
    requires s' == s.(shutdown := true, awaited := s'.awaited, log := s'.log)
    requires forall n :: n in s.owned ==> s.owned[n] in s'.awaited
    ensures StateInv(s', p.(down := true))
  {
  }

  lemma StepKeepsInv(allowed: set<Name>, s: Supervisor, a: Action)
    requires Inv(s) && Enabled(s, a)
    ensures Inv(Next(allowed, s, a))
  {
    match a
    case Apply(request) =>
      if request.name in s.owned {
        OwnedRequestKeepsInv(allowed, s, request);
      } else {
        UnownedRequestKeepsInv(allowed, s, request);
      }
    case TimerFires(_) => TimerKeepsInv(allowed, s, a);
    case ReportHealthy(_) => ReportKeepsInv(allowed, s, a);
    case ReportUnhealthy(_) => ReportKeepsInv(allowed, s, a);
    case RunReturns(_, _) => MovesKeepInv(allowed, s, a);
    case RecordDrain(_) => ReportKeepsInv(allowed, s, a);
    case RecordFailure(_) => ReportKeepsInv(allowed, s, a);
    case WaitElapses(_) => MovesKeepInv(allowed, s, a);
    case WaitAborts(_) => MovesKeepInv(allowed, s, a);
    case Restart(_) => ReportKeepsInv(allowed, s, a);
    case CloseDone(_) => MovesKeepInv(allowed, s, a);
    case FinishStop(run) => FinishKeepsInv(s, run);
    case StopAll(order) => ShutdownKeepsInv(s, order);
    case Tick(time) => SameStateInv(s, s.(now := time), PastOf(s.log));
  }
}
