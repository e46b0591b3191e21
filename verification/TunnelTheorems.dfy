/**
 The tunnel supervisor's promises, for every run of the machine from start-up,
 in plain terms of its log and state.
 */
module TunnelTheorems {
  import opened Common
  import opened TunnelMachine
  import opened TunnelSafety

  ghost predicate Reachable(allowed: set<Name>, t: Supervisor) {
    exists now, actions :: Exec(allowed, Initial(now), actions) == Some(t)
  }

  lemma {:induction false} RunKeepsInv(allowed: set<Name>, s: Supervisor, actions: seq<Action>, t: Supervisor)
    requires Inv(s) && Exec(allowed, s, actions) == Some(t)
    ensures Inv(t)
    decreases |actions|
  {
    hide Inv;
    if actions != [] {
      var k := |actions| - 1;
      var m := Exec(allowed, s, actions[..k]).value;
      RunKeepsInv(allowed, s, actions[..k], m);
      StepKeepsInv(allowed, m, actions[k]);
    }
  }

  lemma ReachableInv(allowed: set<Name>, t: Supervisor)
    requires Reachable(allowed, t)
    ensures Inv(t)
  {
    var now, actions :| Exec(allowed, Initial(now), actions) == Some(t);
    InitialInv(now);
    hide Inv;
    RunKeepsInv(allowed, Initial(now), actions, t);
  }

  // ----- reading the past off a log -----

  lemma {:induction false} OpenUntilFinished(log: seq<Event>, i: nat, n: Name, r: RunId)
    requires i < |log| && log[i] == RunStarted(n, r)
    ensures (n, r) in PastOf(log).open || exists j :: i < j < |log| && log[j] == RunFinished(n, r)
    decreases |log|
  {
    var k := |log| - 1;
    if i < k {
      OpenUntilFinished(log[..k], i, n, r);
      if j :| i < j < k && log[..k][j] == RunFinished(n, r) {
        assert log[j] == RunFinished(n, r);
      } else if log[k] == RunFinished(n, r) {
        assert i < k < |log|;
      }
    }
  }

  /** A report that makes a name healthy, with no stop of that name after it. */
  ghost predicate HealthyAt(log: seq<Event>, j: nat, n: Name) {
    && j < |log| && log[j].BecameHealthy? && log[j].name == n
    && forall i :: j < i < |log| ==> !(log[i].StopBegan? && log[i].name == n)
  }

  lemma {:induction false} HealthyWitness(log: seq<Event>, n: Name) returns (j: nat)
    requires n in PastOf(log).healthy
    ensures HealthyAt(log, j, n)
    decreases |log|
  {
    var k := |log| - 1;
    if log[k].BecameHealthy? && log[k].name == n {
      j := k;
    } else {
      j := HealthyWitness(log[..k], n);
      assert log[j] == log[..k][j];
      forall i | j < i < |log|
        ensures !(log[i].StopBegan? && log[i].name == n)
      {
        assert i < k ==> log[i] == log[..k][i];
      }
    }
  }

  lemma {:induction false} FencesStay(log: seq<Event>, i: nat)
    requires i < |log|
    ensures log[i].DrainFailed? ==> log[i].name in PastOf(log).fenced
    ensures log[i].ShutdownBegan? ==> PastOf(log).down
    ensures log[i].StopBegan? ==> log[i].run in PastOf(log).stopped
    decreases |log|
  {
    var k := |log| - 1;
    if i < k {
      FencesStay(log[..k], i);
    }
  }

  // ----- what the log of any run shows -----

  /** Two runs of one name never overlap: the earlier one finishes before the later one starts. */
  lemma RunsDoNotOverlap(allowed: set<Name>, t: Supervisor, i: nat, k: nat, n: Name, r: RunId, r': RunId)
    requires Reachable(allowed, t) && i < k < |t.log|
    requires t.log[i] == RunStarted(n, r) && t.log[k] == RunStarted(n, r')
    ensures exists j :: i < j < k && t.log[j] == RunFinished(n, r)
  {
    ReachableInv(allowed, t);
    assert Allowed(PastOf(t.log[..k]), t.log[k]);
    OpenUntilFinished(t.log[..k], i, n, r);
    var j :| i < j < k && t.log[..k][j] == RunFinished(n, r);
    assert t.log[j] == RunFinished(n, r);
  }

  /** At any moment at most one run of a name is unfinished, and it is the one the supervisor owns. */
  lemma OneUnfinishedRun(allowed: set<Name>, t: Supervisor, r: RunId, r': RunId)
    requires Reachable(allowed, t) && r in t.tunnels && r' in t.tunnels
    requires t.tunnels[r].name == t.tunnels[r'].name
    requires !t.tunnels[r].phase.Finished? && !t.tunnels[r'].phase.Finished?
    ensures r == r' && t.tunnels[r].name in t.owned && t.owned[t.tunnels[r].name] == r
  {
    ReachableInv(allowed, t);
    RunFacts(t, PastOf(t.log), r);
    RunFacts(t, PastOf(t.log), r');
  }

  /** STOPPED is emitted only when every run of that name started before has finished. */
  lemma StoppedMeansDrained(allowed: set<Name>, t: Supervisor, i: nat, k: nat, n: Name, r: RunId)
    requires Reachable(allowed, t) && i < k < |t.log|
    requires t.log[i] == RunStarted(n, r)
    requires t.log[k].Emitted? && t.log[k].name == n && t.log[k].status.Stopped?
    ensures exists j :: i < j < k && t.log[j] == RunFinished(n, r)
  {
    ReachableInv(allowed, t);
    assert Allowed(PastOf(t.log[..k]), t.log[k]);
    OpenUntilFinished(t.log[..k], i, n, r);
    var j :| i < j < k && t.log[..k][j] == RunFinished(n, r);
    assert t.log[j] == RunFinished(n, r);
  }

  /**
   READY is emitted only after a run reported healthy such that no stop of that
   name began since, and no stop of that very run began before the report either.
   */
  lemma ReadyMeansHealthy(allowed: set<Name>, t: Supervisor, k: nat, n: Name)
    requires Reachable(allowed, t) && k < |t.log|
    requires t.log[k].Emitted? && t.log[k].name == n && t.log[k].status.Ready?
    ensures exists j: nat :: HealthyAt(t.log[..k], j, n) && forall i :: 0 <= i < j ==>
      t.log[i] != StopBegan(n, t.log[j].run)
  {
    ReachableInv(allowed, t);
    assert Allowed(PastOf(t.log[..k]), t.log[k]);
    var j := HealthyWitness(t.log[..k], n);
    assert t.log[..k][j] == t.log[j];
    assert Allowed(PastOf(t.log[..j]), t.log[j]);
    forall i | 0 <= i < j
      ensures t.log[i] != StopBegan(n, t.log[j].run)
    {
      FencesStay(t.log[..j], i);
      assert t.log[..j][i] == t.log[i];
    }
  }

  /** Once a drain of a name failed, or shutdown began, no run of that name, or of any, starts. */
  lemma FencedNamesStayDown(allowed: set<Name>, t: Supervisor, i: nat, k: nat)
    requires Reachable(allowed, t) && i < k < |t.log| && t.log[k].RunStarted?
    ensures t.log[i] != DrainFailed(t.log[k].name)
    ensures t.log[i] != ShutdownBegan
  {
    ReachableInv(allowed, t);
    assert Allowed(PastOf(t.log[..k]), t.log[k]);
    FencesStay(t.log[..k], i);
    assert t.log[..k][i] == t.log[i];
  }

  // ----- shutdown -----

  /** Every run shutdown waits for has finished: stopAll returns. */
  ghost predicate AllAwaitedFinished(s: Supervisor) {
    s.shutdown && forall r :: r in s.awaited && r in s.tunnels ==> s.tunnels[r].phase.Finished?
  }

  ghost predicate NothingRuns(s: Supervisor) {
    forall r :: r in s.tunnels ==> s.tunnels[r].phase.Finished?
  }

  /** When stopAll returns, no run of any tunnel is executing. */
  lemma ShutdownDrainsAll(s: Supervisor)
    requires Inv(s) && AllAwaitedFinished(s)
    ensures NothingRuns(s)
  {
    forall r | r in s.tunnels
      ensures s.tunnels[r].phase.Finished?
    {
      RunFacts(s, PastOf(s.log), r);
    }
  }

  lemma QuietStep(allowed: set<Name>, s: Supervisor, a: Action)
    requires Inv(s) && s.shutdown && NothingRuns(s) && Enabled(s, a)
    ensures Next(allowed, s, a).shutdown && NothingRuns(Next(allowed, s, a))
  {
    match a
    case FinishStop(run) => RunFacts(s, PastOf(s.log), run);
    case TimerFires(_) =>
    case Tick(_) =>
    case _ =>
  }

  /** After stopAll returns, whatever timers and finishers still do, nothing runs and nothing starts. */
  lemma {:induction false} QuietForever(allowed: set<Name>, s: Supervisor, actions: seq<Action>, t: Supervisor)
    requires Inv(s) && AllAwaitedFinished(s) && Exec(allowed, s, actions) == Some(t)
    ensures t.shutdown && NothingRuns(t)
    decreases |actions|
  {
    ShutdownDrainsAll(s);
    hide Inv, NothingRuns, AllAwaitedFinished;
    if actions != [] {
      var k := |actions| - 1;
      var m := Exec(allowed, s, actions[..k]).value;
      QuietForever(allowed, s, actions[..k], m);
      RunKeepsInv(allowed, s, actions[..k], m);
      QuietStep(allowed, m, actions[k]);
    }
  }

  // ----- leases -----

  /** A timer carries a generation of its run, and the present generation's timer the present expiry. */
  ghost predicate TimersInv(s: Supervisor) {
    forall timer :: timer in s.timers ==>
      && timer.run in s.tunnels
      && timer.generation <= s.tunnels[timer.run].generation
      && (timer.generation == s.tunnels[timer.run].generation ==> timer.due == s.tunnels[timer.run].expires)
  }

  /** Every armed timer lies in the future or is due now. */
  ghost predicate NotOverdue(s: Supervisor) {
    forall timer :: timer in s.timers ==> s.now <= timer.due
  }

  /** Every run's generation and expiry are as before, and timers, if anything, only went. */
  ghost predicate SameLeases(s: Supervisor, s': Supervisor) {
    && s'.now == s.now && s'.timers <= s.timers && s.tunnels.Keys == s'.tunnels.Keys
    && forall r :: r in s.tunnels ==>
         s'.tunnels[r].generation == s.tunnels[r].generation && s'.tunnels[r].expires == s.tunnels[r].expires
  }

  lemma StopKeepsLeases(s: Supervisor, run: RunId)
    requires run in s.tunnels
    ensures SameLeases(s, StopLocked(s, run)) && StopLocked(s, run).timers == s.timers
  {
  }

  lemma StatusKeepsLeases(s: Supervisor, run: RunId, status: Status, err: RunError)
    requires run in s.tunnels
    ensures SameLeases(s, SetStatus(s, run, status, err))
  {
  }

  lemma {:induction false} StopEachKeepsTimers(s: Supervisor, order: seq<Name>)
    requires OwnedInv(s) && forall n :: n in order ==> n in s.owned
    ensures SameLeases(s, StopEach(s, order))
    decreases |order|
  {
    if order != [] {
      var k := |order| - 1;
      StopEachKeepsTimers(s, order[..k]);
      var s1 := StopEach(s, order[..k]);
      var run := s1.owned[order[k]];
      StopKeepsLeases(Update(s1, run, s1.tunnels[run].(wantRun := false)), run);
      hide StopLocked;
    }
  }

  lemma StartKeepsTimers(s: Supervisor, name: Name, revision: nat, expires: int)
    requires TimersInv(s) && s.nextRun !in s.tunnels
    ensures TimersInv(StartLocked(s, name, revision, expires))
    ensures NotOverdue(s) && s.now <= expires ==> NotOverdue(StartLocked(s, name, revision, expires))
  {
  }

  lemma RenewKeepsTimers(s: Supervisor, run: RunId, request: Request)
    requires TimersInv(s) && run in s.tunnels
    ensures TimersInv(Renew(s, run, request)) && (NotOverdue(s) ==> NotOverdue(Renew(s, run, request)))
  {
  }

  lemma ApplyKeepsTimers(allowed: set<Name>, s: Supervisor, request: Request)
    requires OwnedInv(s) && TimersInv(s) && s.nextRun !in s.tunnels
    ensures var s' := ApplyRequest(allowed, s, request); TimersInv(s') && (NotOverdue(s) ==> NotOverdue(s'))
  {
    hide Renew, StartLocked;
    if ValidRequest(allowed, request) {
      if request.name in s.owned {
        RenewKeepsTimers(s, s.owned[request.name], request);
      } else if request.desired.WantRunning? {
        var expires := s.now + request.lease;
        StartKeepsTimers(s.(leased := s.leased[request.name := expires]), request.name, request.revision, expires);
      }
    }
  }

  lemma RunnerKeepsLeases(allowed: set<Name>, s: Supervisor, a: Action)
    requires Enabled(s, a)
    requires a.ReportHealthy? || a.ReportUnhealthy? || a.RecordDrain? || a.RecordFailure? || a.Restart?
    ensures SameLeases(s, Next(allowed, s, a))
  {
    hide SetStatus;
    match a
    case ReportHealthy(run) => StatusKeepsLeases(s, run, Ready, NoError);
    case ReportUnhealthy(run) => StatusKeepsLeases(s, run, Starting, NoError);
    case RecordDrain(run) => StatusKeepsLeases(s, run, Failed, DrainError);
    case RecordFailure(run) => StatusKeepsLeases(s, run, Failed, s.tunnels[run].phase.error);
    case Restart(run) => StatusKeepsLeases(s, run, Starting, NoError);
  }

  lemma MoveKeepsLeases(allowed: set<Name>, s: Supervisor, a: Action)
    requires Enabled(s, a)
    requires a.RunReturns? || a.WaitElapses? || a.WaitAborts? || a.CloseDone?
    ensures SameLeases(s, Next(allowed, s, a))
  {
  }

  lemma FireKeepsLeases(s: Supervisor, timer: Timer)
    ensures SameLeases(s, FireTimer(s, timer))
  {
  }

  lemma FinishKeepsTimers(s: Supervisor, run: RunId)
    requires TimersInv(s) && s.nextRun !in s.tunnels && run in s.tunnels
    ensures TimersInv(FinishStopped(s, run)) && (NotOverdue(s) ==> NotOverdue(FinishStopped(s, run)))
  {
  }

  lemma LeasesKeepTimers(s: Supervisor, s': Supervisor)
    requires TimersInv(s) && SameLeases(s, s')
    ensures TimersInv(s') && (NotOverdue(s) ==> NotOverdue(s'))
  {
  }

  lemma OtherKeepsLeases(allowed: set<Name>, s: Supervisor, a: Action)
    requires OwnedInv(s) && Enabled(s, a) && !a.Apply? && !a.FinishStop? && !a.Tick?
    ensures SameLeases(s, Next(allowed, s, a))
  {
    hide SameLeases, FireTimer, SetStatus, MoveTo, Note, StopEach;
    match a
    case ReportHealthy(_) => RunnerKeepsLeases(allowed, s, a);
    case ReportUnhealthy(_) => RunnerKeepsLeases(allowed, s, a);
    case RecordDrain(_) => RunnerKeepsLeases(allowed, s, a);
    case RecordFailure(_) => RunnerKeepsLeases(allowed, s, a);
    case Restart(_) => RunnerKeepsLeases(allowed, s, a);
    case TimerFires(timer) => FireKeepsLeases(s, timer);
    case StopAll(order) => ShutdownKeepsLeases(s, order);
    case _ => MoveKeepsLeases(allowed, s, a);
  }

  lemma ShutdownKeepsLeases(s: Supervisor, order: seq<Name>)
    requires OwnedInv(s) && forall n :: n in order ==> n in s.owned
    ensures SameLeases(s, BeginShutdown(s, order))
  {
    StopEachKeepsTimers(s, order);
  }

  lemma StepKeepsTimers(allowed: set<Name>, s: Supervisor, a: Action)
    requires Inv(s) && TimersInv(s) && Enabled(s, a)
    ensures TimersInv(Next(allowed, s, a))
    ensures NotOverdue(s) && Prompt(s, a) ==> NotOverdue(Next(allowed, s, a))
  {
    assert OwnedInv(s);
    assert s.nextRun !in s.tunnels by {
      assert forall r :: r in s.tunnels ==> TunnelInv(s, r);
    }
    hide Inv, StateInv, SafeLog, ApplyRequest, FinishStopped, FireTimer, SetStatus, MoveTo,
      BeginShutdown, Note, SameLeases;
    match a
    case Apply(request) => ApplyKeepsTimers(allowed, s, request);
    case FinishStop(run) => FinishKeepsTimers(s, run);
    case Tick(_) =>
    case _ =>
      OtherKeepsLeases(allowed, s, a);
      LeasesKeepTimers(s, Next(allowed, s, a));
  }

  lemma {:induction false} RunKeepsTimers(allowed: set<Name>, now: int, actions: seq<Action>, t: Supervisor)
    requires Exec(allowed, Initial(now), actions) == Some(t)
    ensures Inv(t) && TimersInv(t)
    ensures PromptRun(allowed, Initial(now), actions) ==> NotOverdue(t)
    decreases |actions|
  {
    InitialInv(now);
    hide Inv;
    RunKeepsInv(allowed, Initial(now), actions, t);
    if actions != [] {
      var k := |actions| - 1;
      var m := Exec(allowed, Initial(now), actions[..k]).value;
      RunKeepsTimers(allowed, now, actions[..k], m);
      StepKeepsTimers(allowed, m, actions[k]);
    }
  }

  /** A run that is neither cancelled nor drain-failed. */
  predicate Live(s: Supervisor, r: RunId) {
    r in s.tunnels && !s.tunnels[r].cancelled && !s.tunnels[r].runErr.DrainError?
  }

  /** A live run always has a timer armed for its present generation, due when the latest granted lease ends. */
  lemma LeaseIsArmed(allowed: set<Name>, t: Supervisor, r: RunId)
    requires Reachable(allowed, t) && Live(t, r)
    ensures var tunnel := t.tunnels[r];
            && tunnel.name in t.leased
            && Timer(tunnel.name, r, tunnel.generation, t.leased[tunnel.name]) in t.timers
  {
    ReachableInv(allowed, t);
    RunFacts(t, PastOf(t.log), r);
  }

  /** If timers fire when due, no live run outlasts the latest lease it was granted. */
  lemma NoRunOutlivesItsLease(allowed: set<Name>, now: int, actions: seq<Action>, t: Supervisor, r: RunId)
    requires Exec(allowed, Initial(now), actions) == Some(t) && PromptRun(allowed, Initial(now), actions)
    requires Live(t, r)
    ensures t.tunnels[r].name in t.leased && t.now <= t.leased[t.tunnels[r].name]
  {
    RunKeepsTimers(allowed, now, actions, t);
    LeaseIsArmed(allowed, t, r);
  }

  /** A timer stops a live run only once the latest lease has ended; a stale one changes no run at all. */
  lemma NoTimerStopsARenewedLease(allowed: set<Name>, t: Supervisor, timer: Timer, r: RunId)
    requires Reachable(allowed, t) && Live(t, r) && Enabled(t, TimerFires(timer))
    ensures FireTimer(t, timer).tunnels != t.tunnels && timer.run == r ==>
              t.tunnels[r].name in t.leased && t.leased[t.tunnels[r].name] <= t.now
    ensures timer.generation < t.tunnels[r].generation && timer.run == r ==> FireTimer(t, timer).tunnels == t.tunnels
    ensures timer.run != r ==> FireTimer(t, timer).tunnels[r] == t.tunnels[r]
  {
    var now, actions :| Exec(allowed, Initial(now), actions) == Some(t);
    RunKeepsTimers(allowed, now, actions, t);
    LeaseIsArmed(allowed, t, r);
    RunFacts(t, PastOf(t.log), r);
  }
}
