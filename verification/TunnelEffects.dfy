/**
 What each critical section of the supervisor does, said of the records and the log
 alone: every step of the machine against the state it must lead to.
 */
module TunnelEffects {
  import opened Common
  import opened TunnelMachine

  /** A run whose stop has already begun, or whose drain failed. */
  predicate Told(t: Tunnel) {
    t.stopping || t.runErr.DrainError?
  }

  /** The record of a run told to end: the first time, its status falls back to STARTING. */
  function Ended(t: Tunnel): Tunnel {
    if Told(t) then t.(cancelled := true)
    else t.(cancelled := true, stopping := true, status := Starting, runErr := NoError)
  }

  /** What is said when a run is told to end: nothing the second time. */
  function Farewell(t: Tunnel, run: RunId): seq<Event> {
    if Told(t) then [] else [StopBegan(t.name, run), Emitted(t.name, t.revision, Starting)]
  }

  function Awaiting(t: Tunnel, run: RunId): set<RunId> {
    if Told(t) then {} else {run}
  }

  function NewTunnel(name: Name, revision: nat, expires: int): Tunnel {
    Tunnel(name, revision, 1, Starting, NoError, true, false, expires, false, Running(false))
  }

  /** A new run owns the name: it is announced, its first status is emitted and its lease is armed. */
  ghost predicate Started(s: Supervisor, s': Supervisor, name: Name, revision: nat, expires: int) {
    s' == s.(
      owned := s.owned[name := s.nextRun],
      tunnels := s.tunnels[s.nextRun := NewTunnel(name, revision, expires)],
      nextRun := s.nextRun + 1,
      log := s.log + [RunStarted(name, s.nextRun), Emitted(name, revision, Starting)],
      timers := s.timers + {Timer(name, s.nextRun, 1, expires)})
  }

  lemma StartMeans(s: Supervisor, name: Name, revision: nat, expires: int)
    ensures Started(s, StartLocked(s, name, revision, expires), name, revision, expires)
  {
  }

  lemma StopMeans(s: Supervisor, run: RunId, t: Tunnel)
    ensures StopLocked(Update(s, run, t), run) ==
      s.(tunnels := s.tunnels[run := Ended(t)], finishers := s.finishers + Awaiting(t, run),
         log := s.log + Farewell(t, run))
  {
    if Told(t) {
      assert s.log + [] == s.log && s.finishers + {} == s.finishers;
    }
    assert s.tunnels[run := t][run := Ended(t)] == s.tunnels[run := Ended(t)];
  }

  /** An owned run takes the revision and lease of a request, and a new generation. */
  function Asked(s: Supervisor, t: Tunnel, request: Request): Tunnel {
    t.(revision := request.revision, generation := t.generation + 1,
       wantRun := request.desired.WantRunning?, expires := s.now + request.lease)
  }

  /**
   A request that is let through. An owned run is renewed: RUNNING arms a timer for its new
   generation, STOPPED tells it to end, and its status is emitted under the request's revision.
   RUNNING starts an unowned tunnel and STOPPED of one is answered at once.
   */
  lemma RequestMeans(allowed: set<Name>, s: Supervisor, request: Request)
    requires Enabled(s, Apply(request)) && ValidRequest(allowed, request)
    requires request.name in s.owned ==>
      !s.tunnels[s.owned[request.name]].runErr.DrainError? && s.tunnels[s.owned[request.name]].name == request.name
    ensures var s' := Next(allowed, s, Apply(request));
      if request.name in s.owned then
        var run := s.owned[request.name];
        var t := Asked(s, s.tunnels[run], request);
        if request.desired.WantRunning? then
          s' == s.(
            tunnels := s.tunnels[run := t], leased := s'.leased,
            timers := s.timers + {Timer(request.name, run, t.generation, s.now + request.lease)},
            log := s.log + [Emitted(request.name, request.revision, t.status)])
        else
          s' == s.(
            tunnels := s.tunnels[run := Ended(t)], finishers := s.finishers + Awaiting(t, run),
            log := s.log + Farewell(t, run) + [Emitted(request.name, request.revision, Ended(t).status)])
      else if request.desired.WantRunning? then
        Started(s.(leased := s'.leased), s', request.name, request.revision, s.now + request.lease)
      else
        s' == s.(log := s.log + [Emitted(request.name, request.revision, Stopped)])
  {
    var expires := s.now + request.lease;
    StartMeans(s.(leased := s.leased[request.name := expires]), request.name, request.revision, expires);
    if request.name in s.owned {
      var run := s.owned[request.name];
      StopMeans(s, run, Asked(s, s.tunnels[run], request));
    }
    hide StartLocked, StopLocked;
  }

  /** A request that is malformed, or for a tunnel whose drain failed, changes nothing. */
  lemma RefusalMeans(allowed: set<Name>, s: Supervisor, request: Request)
    requires Enabled(s, Apply(request))
    requires !ValidRequest(allowed, request)
             || (request.name in s.owned && s.tunnels[s.owned[request.name]].runErr.DrainError?)
    ensures Next(allowed, s, Apply(request)) == s
  {
  }

  /** A timer ends the run it was armed for, unless the lease was renewed or the run replaced since. */
  lemma TimerMeans(allowed: set<Name>, s: Supervisor, timer: Timer)
    requires Enabled(s, TimerFires(timer)) && timer.run in s.tunnels
    ensures var s' := Next(allowed, s, TimerFires(timer));
      var t := s.tunnels[timer.run].(wantRun := false);
      if timer.name in s.owned && s.owned[timer.name] == timer.run && t.generation == timer.generation then
        s' == s.(
          timers := s.timers - {timer}, tunnels := s.tunnels[timer.run := Ended(t)],
          log := s.log + Farewell(t, timer.run), finishers := s.finishers + Awaiting(t, timer.run))
      else s' == s.(timers := s.timers - {timer})
  {
    StopMeans(s.(timers := s.timers - {timer}), timer.run, s.tunnels[timer.run].(wantRun := false));
    hide StopLocked;
  }

  /**
   After the drain of the current run: if RUNNING was asked for since and that lease still lasts, a new
   run has its revision and expiry and no STOPPED is said; otherwise the name is given up and STOPPED of
   its revision is all that is said. A failed drain and the drain of a former run change nothing.
   */
  lemma DrainMeans(allowed: set<Name>, s: Supervisor, run: RunId)
    requires Enabled(s, FinishStop(run))
    ensures var s' := Next(allowed, s, FinishStop(run));
      var t := s.tunnels[run];
      var s1 := s.(finishers := s.finishers - {run});
      if t.name in s.owned && s.owned[t.name] == run && !t.runErr.DrainError? then
        if t.wantRun && s.now < t.expires then Started(s1, s', t.name, t.revision, t.expires)
        else s' == s1.(owned := s.owned - {t.name}, log := s.log + [Emitted(t.name, t.revision, Stopped)])
      else s' == s1
  {
    var t := s.tunnels[run];
    StartMeans(Release(s, run), t.name, t.revision, t.expires);
    hide StartLocked;
  }

  /** What is said of a status that counts: READY also tells that the run became healthy. */
  function Words(t: Tunnel, run: RunId, status: Status): seq<Event> {
    if status.Ready? then [BecameHealthy(t.name, run), Emitted(t.name, t.revision, Ready)]
    else [Emitted(t.name, t.revision, status)]
  }

  /**
   A status of the current run is stored and emitted, with word of a run that became healthy; of a
   run whose stop has begun only a failed drain counts, of a former run nothing.
   */
  ghost predicate Taken(s: Supervisor, s': Supervisor, run: RunId, status: Status, error: RunError, phase: Phase)
    requires run in s.tunnels
  {
    var t := s.tunnels[run];
    if t.name in s.owned && s.owned[t.name] == run && (t.stopping ==> error.DrainError?) then
      s' == s.(tunnels := s.tunnels[run := t.(status := status, runErr := error, phase := phase)],
               log := s.log + Words(t, run, status))
    else s' == s.(tunnels := s.tunnels[run := t.(phase := phase)])
  }

  lemma TakeMeans(s: Supervisor, run: RunId, status: Status, error: RunError, phase: Phase)
    requires run in s.tunnels
    ensures var s1 := SetStatus(s, run, status, error);
      run in s1.tunnels && Taken(s, MoveTo(s1, run, phase), run, status, error, phase)
  {
    assert s.log + [] == s.log;
  }

  /** READY is taken the first time a run reports it, STARTING whenever readiness is lost. */
  lemma ReportMeans(allowed: set<Name>, s: Supervisor, run: RunId)
    requires IsRunning(s, run)
    ensures Taken(s, Next(allowed, s, ReportUnhealthy(run)), run, Starting, NoError, s.tunnels[run].phase)
    ensures if s.tunnels[run].phase.reported then Next(allowed, s, ReportHealthy(run)) == s
            else Taken(s, Next(allowed, s, ReportHealthy(run)), run, Ready, NoError, Running(true))
  {
    TakeMeans(s, run, Starting, NoError, s.tunnels[run].phase);
    TakeMeans(s, run, Ready, NoError, Running(true));
    hide SetStatus, MoveTo, Taken;
  }

  /** A failed drain is noted at once; any other error of a cancelled run is no failure. */
  lemma ReturnMeans(allowed: set<Name>, s: Supervisor, run: RunId, error: RunError)
    requires IsRunning(s, run)
    ensures var s', t := Next(allowed, s, RunReturns(run, error)), s.tunnels[run];
      if error.DrainError?
      then s' == s.(tunnels := s.tunnels[run := t.(phase := DrainReturned)], log := s.log + [DrainFailed(t.name)])
      else if t.cancelled then s' == s.(tunnels := s.tunnels[run := t.(phase := Exiting)])
      else s' == s.(tunnels := s.tunnels[run := t.(phase := FailureReturned(error))])
  {
  }

  /** A failure is FAILED and, unless fatal, is followed by a back-off. */
  lemma FailureMeans(allowed: set<Name>, s: Supervisor, run: RunId)
    requires run in s.tunnels
    ensures InPhase(s, run, DrainReturned) ==>
      Taken(s, Next(allowed, s, RecordDrain(run)), run, Failed, DrainError, Exiting)
    ensures s.tunnels[run].phase.FailureReturned? ==>
      Taken(s, Next(allowed, s, RecordFailure(run)), run, Failed, s.tunnels[run].phase.error, Waiting)
  {
    TakeMeans(s, run, Failed, DrainError, Exiting);
    if s.tunnels[run].phase.FailureReturned? {
      TakeMeans(s, run, Failed, s.tunnels[run].phase.error, Waiting);
    }
    hide SetStatus, MoveTo, Taken;
  }

  /** After the back-off a run that is still current starts over; a cancelled one ends. */
  lemma BackoffMeans(allowed: set<Name>, s: Supervisor, run: RunId)
    requires run in s.tunnels
    ensures InPhase(s, run, Waiting) ==>
      var t := s.tunnels[run];
      var phase := if t.name in s.owned && s.owned[t.name] == run then Restarting else Exiting;
      && Next(allowed, s, WaitElapses(run)) == s.(tunnels := s.tunnels[run := t.(phase := phase)])
      && (t.cancelled ==>
            Next(allowed, s, WaitAborts(run)) == s.(tunnels := s.tunnels[run := t.(phase := Exiting)]))
    ensures InPhase(s, run, Restarting) ==>
      Taken(s, Next(allowed, s, Restart(run)), run, Starting, NoError, Running(false))
    ensures InPhase(s, run, Exiting) ==>
      Next(allowed, s, CloseDone(run)) ==
      s.(tunnels := s.tunnels[run := s.tunnels[run].(phase := Finished)],
         log := s.log + [RunFinished(s.tunnels[run].name, run)])
  {
    TakeMeans(s, run, Starting, NoError, Running(false));
    hide SetStatus, Taken;
  }

  // ----- shutdown -----

  /** The owned run of a name. */
  ghost predicate OwnedBy(s: Supervisor, names: set<Name>, run: RunId) {
    run in s.tunnels && s.tunnels[run].name in names && s.tunnels[run].name in s.owned
    && s.owned[s.tunnels[run].name] == run
  }

  /** Of the owned runs, those of `names` are told to end and no longer wanted; nothing else changes. */
  ghost predicate ToldToEnd(s: Supervisor, s': Supervisor, names: set<Name>) {
    && s' == s.(tunnels := s'.tunnels, finishers := s'.finishers, log := s'.log)
    && RecordsTold(s, s'.tunnels, names) && FinishersTold(s, s'.finishers, names) && LogTold(s, s'.log, names)
  }

  ghost predicate RecordsTold(s: Supervisor, tunnels: map<RunId, Tunnel>, names: set<Name>) {
    && tunnels.Keys == s.tunnels.Keys
    && forall r :: r in s.tunnels ==>
         tunnels[r] == if OwnedBy(s, names, r) then Ended(s.tunnels[r].(wantRun := false)) else s.tunnels[r]
  }

  ghost predicate FinishersTold(s: Supervisor, finishers: set<RunId>, names: set<Name>) {
    forall r :: r in finishers <==> r in s.finishers || (OwnedBy(s, names, r) && !Told(s.tunnels[r]))
  }

  ghost predicate LogTold(s: Supervisor, log: seq<Event>, names: set<Name>) {
    && s.log <= log
    && (forall r :: OwnedBy(s, names, r) && !Told(s.tunnels[r]) ==>
          StopBegan(s.tunnels[r].name, r) in log && Emitted(s.tunnels[r].name, s.tunnels[r].revision, Starting) in log)
    && (forall i :: |s.log| <= i < |log| ==> log[i].StopBegan? || (log[i].Emitted? && log[i].status.Starting?))
  }

  /** Every owned name has a record of its own. */
  ghost predicate Owners(s: Supervisor) {
    forall n :: n in s.owned ==> s.owned[n] in s.tunnels && s.tunnels[s.owned[n]].name == n
  }

  lemma OneMoreOwned(s: Supervisor, names: set<Name>, name: Name, r: RunId)
    requires Owners(s) && name in s.owned && name !in names
    ensures OwnedBy(s, names + {name}, r) <==> OwnedBy(s, names, r) || r == s.owned[name]
    ensures !OwnedBy(s, names, s.owned[name])
  {
  }

  lemma NextRecordTold(s: Supervisor, tunnels: map<RunId, Tunnel>, names: set<Name>, name: Name)
    requires Owners(s) && name in s.owned && name !in names && RecordsTold(s, tunnels, names)
    ensures var run := s.owned[name];
      && tunnels[run] == s.tunnels[run]
      && RecordsTold(s, tunnels[run := Ended(s.tunnels[run].(wantRun := false))], names + {name})
  {
    forall r {
      OneMoreOwned(s, names, name, r);
    }
    hide OwnedBy, Ended;
  }

  lemma NextFinisherTold(s: Supervisor, finishers: set<RunId>, names: set<Name>, name: Name)
    requires Owners(s) && name in s.owned && name !in names && FinishersTold(s, finishers, names)
    ensures var run := s.owned[name];
      FinishersTold(s, finishers + Awaiting(s.tunnels[run].(wantRun := false), run), names + {name})
  {
    forall r {
      OneMoreOwned(s, names, name, r);
    }
    hide OwnedBy;
  }

  lemma NextLogTold(s: Supervisor, log: seq<Event>, names: set<Name>, name: Name)
    requires Owners(s) && name in s.owned && name !in names && LogTold(s, log, names)
    ensures var run := s.owned[name];
      LogTold(s, log + Farewell(s.tunnels[run].(wantRun := false), run), names + {name})
  {
    forall r {
      OneMoreOwned(s, names, name, r);
    }
    var run := s.owned[name];
    var more := log + Farewell(s.tunnels[run].(wantRun := false), run);
    if !Told(s.tunnels[run]) {
      assert more[|log|] == StopBegan(name, run) && more[|log| + 1] == Emitted(name, s.tunnels[run].revision, Starting);
    }
    assert forall e :: e in log ==> e in more;
    hide OwnedBy, Farewell;
  }

  lemma NextTold(s: Supervisor, s1: Supervisor, names: set<Name>, name: Name)
    requires Owners(s) && name in s.owned && name !in names && ToldToEnd(s, s1, names)
    ensures var run := s.owned[name];
      && run in s1.tunnels
      && ToldToEnd(s, StopLocked(Update(s1, run, s1.tunnels[run].(wantRun := false)), run), names + {name})
  {
    var run := s.owned[name];
    NextRecordTold(s, s1.tunnels, names, name);
    NextFinisherTold(s, s1.finishers, names, name);
    NextLogTold(s, s1.log, names, name);
    StopMeans(s1, run, s1.tunnels[run].(wantRun := false));
    hide StopLocked, RecordsTold, FinishersTold, LogTold;
  }

  lemma NoneTold(s: Supervisor)
    ensures ToldToEnd(s, s, {})
  {
  }

  lemma {:induction false} StopsMean(s: Supervisor, order: seq<Name>)
    requires NoDup(order) && Owners(s) && forall n :: n in order ==> n in s.owned
    ensures ToldToEnd(s, StopEach(s, order), Elems(order))
    decreases |order|
  {
    hide StopLocked, ToldToEnd;
    if order == [] {
      NoneTold(s);
      assert Elems(order) == {};
    } else {
      var k := |order| - 1;
      var init, name := order[..k], order[k];
      StopsMean(s, init);
      assert init + [name] == order;
      ElemsSnoc(init, name);
      NextTold(s, StopEach(s, init), Elems(init), name);
    }
  }

  /** Shutdown tells every owned run to end, waits for all of them, and is the last thing said. */
  lemma ShutdownMeans(allowed: set<Name>, s: Supervisor, order: seq<Name>)
    requires Enabled(s, StopAll(order)) && Owners(s)
    ensures var s' := Next(allowed, s, StopAll(order));
      && s' == s.(tunnels := s'.tunnels, finishers := s'.finishers, log := s'.log, shutdown := true,
                  awaited := set n | n in s.owned :: s.owned[n])
      && |s'.log| > |s.log| && s'.log[|s'.log| - 1] == ShutdownBegan
      && RecordsTold(s, s'.tunnels, s.owned.Keys) && FinishersTold(s, s'.finishers, s.owned.Keys)
      && LogTold(s, s'.log[..|s'.log| - 1], s.owned.Keys)
  {
    StopsMean(s, order);
    var s1, s' := StopEach(s, order), Next(allowed, s, StopAll(order));
    assert s'.log[..|s'.log| - 1] == s1.log;
    hide StopEach, RecordsTold, FinishersTold;
  }
}
