/**
 The supervisor as the program it is: a mutex-protected map of mutable tunnel
 records. Each method is one critical section and is proved to take the machine's
 step on the abstract state, so the machine's theorems are about this program.
 */
module TunnelService {
  import opened Common
  import opened TunnelMachine
  import opened TunnelSafety
  import opened TunnelTheorems
  import opened TunnelRecords

  class Service {
    const allowed: set<Name>
    var owned: map<Name, OwnedTunnel>
    var now: int
    var timers: set<Timer>
    var finishers: set<RunId>
    var log: seq<Event>
    var created: nat
    ghost var shutdown: bool
    ghost var awaited: set<RunId>
    ghost var leased: map<Name, int>
    ghost var runs: seq<OwnedTunnel>
    ghost var state: Supervisor
    ghost var start: int
    ghost var trace: seq<Action>

    /** `state` is the machine state these fields and records stand for. */
    ghost predicate Valid()
      reads this`owned, this`now, this`timers, this`finishers, this`log, this`created, this`shutdown, this`awaited
      reads this`leased, this`runs, this`state, runs
    {
      && state ==
        Supervisor(state.owned, state.tunnels, created, timers, finishers, now, shutdown, awaited, leased, log)
      && created == |runs| && (forall i :: 0 <= i < |runs| ==> runs[i].id == i)
      && (forall i :: i in state.tunnels <==> 0 <= i < |runs|)
      && (forall i :: 0 <= i < |runs| ==> state.tunnels[i] == runs[i].Value())
      && (forall n :: n in state.owned <==> n in owned)
      && (forall n :: n in owned ==> owned[n] in runs && owned[n].name == n && state.owned[n] == owned[n].id)
    }

    constructor (allowed: set<Name>, now: int)
      ensures Valid() && Following() && this.allowed == allowed && state == Initial(now) && trace == []
    {
      this.allowed, this.now := allowed, now;
      owned, created, runs, timers, finishers := map[], 0, [], {}, {};
      shutdown, awaited, leased, log := false, {}, map[], [];
      state, start, trace := Initial(now), now, [];
    }

    /** The state is where the sections entered so far lead from start-up. */
    ghost predicate Following()
      reads this`start, this`trace, this`state
    {
      Exec(allowed, Initial(start), trace) == Some(state)
    }

    /** What the machine state says about one record. */
    lemma Facts(t: OwnedTunnel)
      requires Valid() && t in runs
      ensures t.id in state.tunnels && state.tunnels[t.id] == t.Value()
      ensures Current(state, t.id) <==> t.name in owned && owned[t.name] == t
      ensures state.now == now && state.timers == timers && state.finishers == finishers
    {
    }

    /** Updates one record and its image in the machine state. */
    method Record(t: OwnedTunnel, v: Tunnel)
      requires Valid() && t in runs && v.name == t.name
      modifies this`state, t
      ensures Valid() && t.Value() == v && state == Update(old(state), t.id, v)
    {
      t.Write(v);
      state := Update(state, t.id, v);
    }

    method Append(e: Event)
      requires Valid()
      modifies this`log, this`state
      ensures Valid() && state == Note(old(state), e)
    {
      log := log + [e];
      state := Note(state, e);
    }

    method Emit(t: OwnedTunnel)
      requires Valid() && t in runs
      modifies this`log, this`state
      ensures Valid() && state == EmitStatus(old(state), t.id)
    {
      Facts(t);
      Append(Emitted(t.name, t.revision, t.status));
    }

    /** Arms a timer for the present generation of a run. */
    method Expire(t: OwnedTunnel)
      requires Valid() && t in runs
      modifies this`timers, this`state
      ensures Valid() && state == TunnelMachine.Expire(old(state), t.id)
    {
      timers := timers + {Timer(t.name, t.id, t.generation, t.expires)};
      state := TunnelMachine.Expire(state, t.id);
    }

    /** A new record, owned by nobody yet. */
    method NewRun(name: Name, revision: nat, expires: int) returns (t: OwnedTunnel)
      requires Valid()
      modifies this`created, this`runs, this`state
      ensures Valid() && t.id == old(state).nextRun && t.name == name && fresh(t) && runs == old(runs) + [t]
      ensures t.Value() == Tunnel(name, revision, 1, Starting, NoError, true, false, expires, false, Running(false))
      ensures state == Update(old(state), t.id, t.Value()).(nextRun := t.id + 1)
    {
      t := new OwnedTunnel(name, created, revision, expires);
      created := created + 1;
      runs := runs + [t];
      state := Update(state, t.id, t.Value()).(nextRun := t.id + 1);
    }

    method TakeName(t: OwnedTunnel)
      requires Valid() && t in runs
      modifies this`owned, this`state
      ensures Valid() && state == old(state).(owned := old(state).owned[t.name := t.id])
    {
      owned := owned[t.name := t];
      state := state.(owned := state.owned[t.name := t.id]);
    }

    /** Registers a new run as the owner of a name. */
    method Register(name: Name, revision: nat, expires: int) returns (t: OwnedTunnel)
      requires Valid()
      modifies this`owned, this`created, this`runs, this`state
      ensures Valid() && t.id == old(state).nextRun && t.name == name && fresh(t)
      ensures runs == old(runs) + [t] && log == old(log)
      ensures state == Update(old(state), t.id,
        Tunnel(name, revision, 1, Starting, NoError, true, false, expires, false, Running(false)))
                       .(owned := old(state).owned[name := t.id], nextRun := t.id + 1)
    {
      hide Valid;
      t := NewRun(name, revision, expires);
      TakeName(t);
    }

    method StartLocked(name: Name, revision: nat, expires: int)
      requires Valid()
      modifies this`owned, this`created, this`runs, this`log, this`timers, this`state
      ensures Valid() && state == TunnelMachine.StartLocked(old(state), name, revision, expires)
      ensures old(runs) <= runs
    {
      var t := Register(name, revision, expires);
      hide Valid;
      Append(RunStarted(name, t.id));
      Emit(t);
      Expire(t);
    }

    /** Registers the finisher that waits for a run to drain. */
    method AwaitDone(t: OwnedTunnel)
      requires Valid() && t in runs
      modifies this`finishers, this`state
      ensures Valid() && state == old(state).(finishers := old(state).finishers + {t.id})
    {
      finishers := finishers + {t.id};
      state := state.(finishers := finishers);
    }

    method StopLocked(t: OwnedTunnel)
      requires Valid() && t in runs
      modifies this`log, this`finishers, this`state, t
      ensures Valid() && state == TunnelMachine.StopLocked(old(state), t.id)
    {
      Facts(t);
      hide Valid;
      if t.stopping || t.runErr.DrainError? {
        Record(t, t.Value().(cancelled := true));
        return;
      }
      Record(t, t.Value().(cancelled := true, stopping := true, status := Starting, runErr := NoError));
      AwaitDone(t);
      Append(StopBegan(t.name, t.id));
      Emit(t);
    }

    /** Takes a status of the current run; once its stop began, only a failed drain counts. */
    method SetStatus(t: OwnedTunnel, status: Status, err: RunError)
      requires Valid() && t in runs
      modifies this`log, this`state, t
      ensures Valid() && state == TunnelMachine.SetStatus(old(state), t.id, status, err)
    {
      Facts(t);
      hide Valid;
      if t.name !in owned || owned[t.name] != t || (t.stopping && !err.DrainError?) {
        return;
      }
      Record(t, t.Value().(status := status, runErr := err));
      if status.Ready? {
        Append(BecameHealthy(t.name, t.id));
      }
      Emit(t);
    }

    /** Remembers the expiry of the latest accepted RUNNING request. */
    ghost method GrantLease(name: Name, expires: int)
      requires Valid()
      modifies this`leased, this`state
      ensures Valid() && state == old(state).(leased := old(state).leased[name := expires])
    {
      leased := leased[name := expires];
      state := state.(leased := leased);
    }

    /** One request of the control session. */
    method Apply(request: Request) returns (ok: bool)
      requires Valid() && !shutdown
      modifies this`owned, this`created, this`runs, this`log, this`timers, this`leased, this`finishers, this`state, runs
      ensures Valid() && (forall n :: n in old(state).owned ==> old(state).owned[n] in old(state).tunnels)
      ensures state == ApplyRequest(allowed, old(state), request)
      ensures old(runs) <= runs
      ensures ok <==> ValidRequest(allowed, request)
                      && (request.name in old(state).owned ==>
                            !old(state).tunnels[old(state).owned[request.name]].runErr.DrainError?)
    {
      OwnedNames();
      hide Valid, ApplyValid;
      if request.name == "" || request.name !in allowed || request.revision == 0 || request.desired.Unspecified?
         || (request.desired.WantRunning? && request.lease == 0) {
        return false;
      }
      ok := ApplyAccepted(request);
    }

    method ApplyAccepted(request: Request) returns (ok: bool)
      requires Valid()
      modifies this`owned, this`created, this`runs, this`log, this`timers, this`leased, this`finishers, this`state, runs
      ensures Valid() && old(runs) <= runs
      ensures request.name in old(state).owned ==> old(state).owned[request.name] in old(state).tunnels
      ensures state == ApplyValid(old(state), request)
      ensures ok <==> (request.name in old(state).owned ==>
                         !old(state).tunnels[old(state).owned[request.name]].runErr.DrainError?)
    {
      hide *;
      OwnedNames();
      if request.name in owned {
        ok := ApplyOwned(request);
      } else {
        ApplyUnowned(request);
        ok := true;
      }
    }

    method ApplyOwned(request: Request) returns (ok: bool)
      requires Valid() && request.name in owned
      modifies this`leased, this`timers, this`log, this`finishers, this`state, owned[request.name]
      ensures Valid() && request.name in old(state).owned && old(state).owned[request.name] in old(state).tunnels
      ensures ok <==> !old(state).tunnels[old(state).owned[request.name]].runErr.DrainError?
      ensures state == ApplyValid(old(state), request)
    {
      var current := owned[request.name];
      assert state.owned[request.name] == current.id;
      Facts(current);
      hide Valid, Renew;
      if current.runErr.DrainError? {
        return false;
      }
      RenewCurrent(current, request);
      return true;
    }

    method ApplyUnowned(request: Request)
      requires Valid() && request.name !in owned
      modifies this`owned, this`created, this`runs, this`log, this`timers, this`leased, this`state
      ensures Valid() && old(runs) <= runs
      ensures request.name !in old(state).owned && state == ApplyValid(old(state), request)
    {
      hide Valid, TunnelMachine.StartLocked, Note, ApplyValid;
      OwnedFacts();
      GrantSteps(state, request);
      if !request.desired.WantRunning? {
        Append(Emitted(request.name, request.revision, Stopped));
      } else {
        var expires := now + request.lease;
        GrantLease(request.name, expires);
        StartLocked(request.name, request.revision, expires);
      }
    }

    static lemma GrantSteps(s: Supervisor, request: Request)
      requires request.name !in s.owned
      ensures var expires := s.now + request.lease;
        ApplyValid(s, request) ==
          if request.desired.WantRunning?
          then TunnelMachine.StartLocked(s.(leased := s.leased[request.name := expires]),
                                         request.name, request.revision, expires)
          else Note(s, Emitted(request.name, request.revision, Stopped))
    {
      hide TunnelMachine.StartLocked;
    }

    static lemma RenewSteps(s: Supervisor, run: RunId, request: Request)
      requires run in s.tunnels
      ensures var t := Renewed(s, s.tunnels[run], request);
        Renew(s, run, request) == EmitStatus(
          if t.wantRun then TunnelMachine.Expire(Update(s, run, t).(leased := s.leased[t.name := t.expires]), run)
          else TunnelMachine.StopLocked(Update(s, run, t), run), run)
    {
      hide TunnelMachine.StopLocked, TunnelMachine.Expire;
    }

    lemma OwnedFacts()
      requires Valid()
      ensures state.now == now && state.owned.Keys == owned.Keys
      ensures forall n :: n in owned ==>
                && owned[n] in runs && state.owned[n] == owned[n].id && owned[n].name == n
                && state.owned[n] in state.tunnels && state.tunnels[state.owned[n]] == owned[n].Value()
    {
    }

    lemma OwnedNames()
      requires Valid()
      ensures state.owned.Keys == owned.Keys
      ensures forall n :: n in owned ==> owned[n] in runs
      ensures forall n :: n in state.owned ==> state.owned[n] in state.tunnels
    {
    }

    /** Renews the lease of the current run or begins to revoke it. */
    method RenewCurrent(current: OwnedTunnel, request: Request)
      requires Valid() && current in runs
      modifies this`leased, this`timers, this`log, this`finishers, this`state, current
      ensures Valid() && state == Renew(old(state), current.id, request)
    {
      hide Valid, TunnelMachine.StopLocked, EmitStatus, TunnelMachine.Expire, Renew;
      Facts(current);
      RenewSteps(state, current.id, request);
      var wantRun := request.desired.WantRunning?;
      var expires := now + request.lease;
      Record(current, current.Value().(revision := request.revision, generation := current.generation + 1,
                                       wantRun := wantRun, expires := expires));
      assert current.Value() == Renewed(old(state), old(state).tunnels[current.id], request);
      if wantRun {
        GrantLease(current.name, expires);
        Expire(current);
      } else {
        StopLocked(current);
      }
      Emit(current);
    }

    method Disarm(timer: Timer)
      requires Valid()
      modifies this`timers, this`state
      ensures Valid() && state == old(state).(timers := old(state).timers - {timer})
    {
      timers := timers - {timer};
      state := state.(timers := timers);
    }

    /** A lease timer elapses. */
    method TimerFires(timer: Timer, t: OwnedTunnel)
      requires Valid() && t in runs && timer.run == t.id
      modifies this`timers, this`log, this`finishers, this`state, t
      ensures Valid() && state == FireTimer(old(state), timer)
    {
      Facts(t);
      OwnedFacts();
      var current := timer.name in owned && owned[timer.name] == t && t.generation == timer.generation;
      assert current <==>
        timer.name in state.owned && state.owned[timer.name] == t.id && t.generation == timer.generation;
      hide Valid;
      Disarm(timer);
      if current {
        Record(t, t.Value().(wantRun := false));
        StopLocked(t);
      }
    }

    method EndFinisher(t: OwnedTunnel)
      requires Valid() && t in runs
      modifies this`finishers, this`state
      ensures Valid() && state == old(state).(finishers := old(state).finishers - {t.id})
    {
      finishers := finishers - {t.id};
      state := state.(finishers := finishers);
    }

    /** A drained current run gives its name back. */
    method DropName(t: OwnedTunnel)
      requires Valid() && t.name in owned
      modifies this`owned, this`state
      ensures Valid() && state == old(state).(owned := old(state).owned - {t.name})
    {
      owned := owned - {t.name};
      state := state.(owned := state.owned - {t.name});
    }

    /** The finisher of a stop, once the run is over. */
    method FinishStop(t: OwnedTunnel)
      requires Valid() && t in runs
      modifies this`owned, this`created, this`runs, this`log, this`timers, this`finishers, this`state
      ensures Valid() && state == FinishStopped(old(state), t.id) && old(runs) <= runs
    {
      Facts(t);
      hide Valid, TunnelMachine.Acknowledge;
      EndFinisher(t);
      if t.name in owned && owned[t.name] == t && !t.runErr.DrainError? {
        DropName(t);
        assert state == Release(old(state), t.id);
        hide Release;
        Acknowledge(t);
      }
    }

    method Acknowledge(t: OwnedTunnel)
      requires Valid() && t in runs
      modifies this`owned, this`created, this`runs, this`log, this`timers, this`state
      ensures Valid() && old(runs) <= runs
      ensures state == TunnelMachine.Acknowledge(old(state), t.Value())
    {
      Facts(t);
      hide Valid, TunnelMachine.StartLocked, Note;
      if t.wantRun && now < t.expires {
        StartLocked(t.name, t.revision, t.expires);
      } else {
        Append(Emitted(t.name, t.revision, Stopped));
      }
    }

    /** Shutdown: begins the stop of every owned tunnel, in whatever order the map gives. */
    method StopAll() returns (ghost order: seq<Name>)
      requires Valid() && !shutdown
      modifies this`log, this`finishers, this`shutdown, this`awaited, this`state, runs
      ensures Valid() && Enumerates(order, owned.Keys)
      ensures (forall n :: n in order ==> n in old(state).owned && old(state).owned[n] in old(state).tunnels)
              && state == BeginShutdown(old(state), order)
    {
      ghost var before := state;
      OwnedNames();
      hide Valid, StopEach;
      order := StopOwned();
      BeginWaiting(before.owned);
    }

    /** The tunnels in `order`, all owned but those in `rest`, have been told to stop since `before`. */
    ghost predicate Stopping(before: Supervisor, order: seq<Name>, rest: set<Name>)
      reads this, runs
    {
      && Valid() && before.owned == state.owned && (forall n :: n in before.owned ==> before.owned[n] in before.tunnels)
      && rest <= owned.Keys && Enumerates(order, owned.Keys - rest)
      && (forall n :: n in order ==> n in before.owned)
      && state == StopEach(before, order)
    }

    method StopOwned() returns (ghost order: seq<Name>)
      requires Valid()
      modifies this`log, this`finishers, this`state, runs
      ensures Valid() && Enumerates(order, owned.Keys)
      ensures (forall n :: n in order ==> n in old(state).owned && old(state).owned[n] in old(state).tunnels)
              && state == StopEach(old(state), order)
    {
      order := StopRest(state);
      assert owned.Keys - {} == owned.Keys;
    }

    lemma NoneStopped(before: Supervisor)
      requires Valid() && state == before
      ensures Stopping(before, [], owned.Keys)
    {
      StopNone(before);
      OwnedNames();
      hide Valid, StopEach;
    }

    method StopRest(ghost before: Supervisor) returns (ghost order: seq<Name>)
      requires Valid() && state == before
      modifies this`log, this`finishers, this`state, runs
      ensures Stopping(before, order, {})
    {
      hide Stopping, Valid;
      var rest := owned.Keys;
      order := [];
      NoneStopped(before);
      while rest != {}
        invariant Stopping(before, order, rest)
        decreases |rest|
      {
        var name :| name in rest;
        StopNext(name, before, order, rest);
        order := order + [name];
        rest := rest - {name};
      }
    }

    method StopNext(name: Name, ghost before: Supervisor, ghost order: seq<Name>, ghost rest: set<Name>)
      requires Stopping(before, order, rest) && name in rest
      modifies this`log, this`finishers, this`state, runs
      ensures Stopping(before, order + [name], rest - {name})
    {
      VisitedSnoc(order, owned.Keys, rest, name);
      OwnedNames();
      StopEachSnoc(before, order, name);
      hide Valid, TunnelMachine.StopLocked, StopEach, Enumerates;
      StopNamed(name);
    }

    static lemma StopNone(s: Supervisor)
      ensures StopEach(s, []) == s
    {
    }

    static lemma StopEachSnoc(s: Supervisor, order: seq<Name>, name: Name)
      requires forall n :: n in order ==> n in s.owned && s.owned[n] in s.tunnels
      requires name in s.owned && s.owned[name] in s.tunnels
      ensures var s1, run := StopEach(s, order), s.owned[name];
              StopEach(s, order + [name]) ==
                TunnelMachine.StopLocked(Update(s1, run, s1.tunnels[run].(wantRun := false)), run)
    {
    }

    method BeginWaiting(ghost tunnels: map<Name, RunId>)
      requires Valid()
      modifies this`log, this`shutdown, this`awaited, this`state
      ensures Valid()
      ensures state == Note(old(state).(shutdown := true, awaited := set n | n in tunnels :: tunnels[n]), ShutdownBegan)
    {
      shutdown := true;
      awaited := set n | n in tunnels :: tunnels[n];
      state := state.(shutdown := true, awaited := awaited);
      log := log + [ShutdownBegan];
      state := Note(state, ShutdownBegan);
    }

    method StopNamed(name: Name)
      requires Valid() && name in owned
      modifies this`log, this`finishers, this`state, owned[name]
      ensures Valid() && name in old(state).owned && old(state).owned[name] in old(state).tunnels
      ensures var s, run := old(state), old(state).owned[name];
              state == TunnelMachine.StopLocked(Update(s, run, s.tunnels[run].(wantRun := false)), run)
    {
      OwnedFacts();
      hide Valid;
      var t := owned[name];
      Record(t, t.Value().(wantRun := false));
      StopLocked(t);
    }

    // ----- the goroutine of a run -----

    /** Where the goroutine of a run goes next. */
    method Move(t: OwnedTunnel, phase: Phase)
      requires Valid() && t in runs
      modifies this`state, t
      ensures Valid() && t.Value() == old(t.Value()).(phase := phase) && state == MoveTo(old(state), t.id, phase)
    {
      Facts(t);
      hide Valid;
      Record(t, t.Value().(phase := phase));
    }

    /** The runner reports readiness, for which only the first report of a run counts, or its loss. */
    method Report(t: OwnedTunnel, healthy: bool)
      requires Valid() && t in runs && t.phase.Running?
      modifies this`log, this`state, t
      ensures Valid() && Enabled(old(state), Reported(t, healthy))
      ensures state == Next(allowed, old(state), Reported(t, healthy))
    {
      Facts(t);
      hide Valid, TunnelMachine.SetStatus;
      StatusKeepsRun(state, t.id, if healthy then Ready else Starting, NoError);
      if !healthy {
        var phase := t.phase;
        SetStatus(t, Starting, NoError);
        Move(t, phase);
      } else if !t.phase.reported {
        SetStatus(t, Ready, NoError);
        Move(t, Running(true));
      }
    }

    static ghost function Reported(t: OwnedTunnel, healthy: bool): Action {
      if healthy then ReportHealthy(t.id) else ReportUnhealthy(t.id)
    }

    static lemma StatusKeepsRun(s: Supervisor, run: RunId, status: Status, err: RunError)
      requires run in s.tunnels
      ensures run in TunnelMachine.SetStatus(s, run, status, err).tunnels
    {
    }

    static lemma ReturnSteps(allowed: set<Name>, s: Supervisor, run: RunId, error: RunError)
      requires IsRunning(s, run)
      ensures Enabled(s, RunReturns(run, error))
      ensures Next(allowed, s, RunReturns(run, error)) ==
        if error.DrainError? then Note(MoveTo(s, run, DrainReturned), DrainFailed(s.tunnels[run].name))
        else MoveTo(s, run, if s.tunnels[run].cancelled then Exiting else FailureReturned(error))
    {
    }

    static lemma OwnSteps(allowed: set<Name>, s: Supervisor, run: RunId)
      requires run in s.tunnels
      ensures s.tunnels[run].phase.DrainReturned? ==>
        && Enabled(s, RecordDrain(run))
        && Next(allowed, s, RecordDrain(run)) ==
           MoveTo(TunnelMachine.SetStatus(s, run, Failed, DrainError), run, Exiting)
      ensures s.tunnels[run].phase.FailureReturned? ==>
        && Enabled(s, RecordFailure(run))
        && Next(allowed, s, RecordFailure(run)) ==
           MoveTo(TunnelMachine.SetStatus(s, run, Failed, s.tunnels[run].phase.error), run, Waiting)
      ensures s.tunnels[run].phase.Restarting? ==>
        && Enabled(s, TunnelMachine.Restart(run))
        && Next(allowed, s, TunnelMachine.Restart(run)) ==
           MoveTo(TunnelMachine.SetStatus(s, run, Starting, NoError), run, Running(false))
      ensures s.tunnels[run].phase.Exiting? ==>
        && Enabled(s, CloseDone(run))
        && Next(allowed, s, CloseDone(run)) == Note(MoveTo(s, run, Finished), RunFinished(s.tunnels[run].name, run))
    {
      hide TunnelMachine.SetStatus;
    }

    static lemma WaitSteps(allowed: set<Name>, s: Supervisor, run: RunId)
      requires InPhase(s, run, Waiting)
      ensures Enabled(s, WaitElapses(run))
      ensures Next(allowed, s, WaitElapses(run)) == MoveTo(s, run, if Current(s, run) then Restarting else Exiting)
      ensures s.tunnels[run].cancelled ==>
        Enabled(s, WaitAborts(run)) && Next(allowed, s, WaitAborts(run)) == MoveTo(s, run, Exiting)
    {
    }

    /** The runner returns: with a failed drain, because the run was cancelled, or with some other error. */
    method Return(t: OwnedTunnel, error: RunError)
      requires Valid() && t in runs && t.phase.Running?
      modifies this`log, this`state, t
      ensures Valid() && Enabled(old(state), RunReturns(t.id, error))
      ensures state == Next(allowed, old(state), RunReturns(t.id, error))
    {
      Facts(t);
      ReturnSteps(allowed, state, t.id, error);
      hide Valid, MoveTo, Note, Next, Enabled;
      if error.DrainError? {
        Move(t, DrainReturned);
        Append(DrainFailed(t.name));
      } else {
        Move(t, if t.cancelled then Exiting else FailureReturned(error));
      }
    }

    /** Records a fatal or another failure, starts over after the back-off, or closes the run. */
    method Proceed(t: OwnedTunnel)
      requires Valid() && t in runs && OwnAction(t.id, t.phase).Some?
      modifies this`log, this`state, t
      ensures Valid() && Enabled(old(state), OwnAction(t.id, old(t.phase)).value)
      ensures state == Next(allowed, old(state), OwnAction(t.id, old(t.phase)).value)
    {
      Facts(t);
      OwnSteps(allowed, state, t.id);
      hide Valid, TunnelMachine.SetStatus, MoveTo, Note, Next, Enabled;
      match t.phase {
        case DrainReturned =>
          StatusKeepsRun(state, t.id, Failed, DrainError);
          SetStatus(t, Failed, DrainError);
          Move(t, Exiting);
        case FailureReturned(error) =>
          StatusKeepsRun(state, t.id, Failed, error);
          SetStatus(t, Failed, error);
          Move(t, Waiting);
        case Restarting =>
          StatusKeepsRun(state, t.id, Starting, NoError);
          SetStatus(t, Starting, NoError);
          Move(t, Running(false));
        case Exiting =>
          Move(t, Finished);
          Append(RunFinished(t.name, t.id));
      }
    }

    /** The back-off ends: the run starts over if it is still current, and ends if it was cancelled meanwhile. */
    method EndWait(t: OwnedTunnel, elapsed: bool)
      requires Valid() && t in runs && t.phase.Waiting? && (elapsed || t.cancelled)
      modifies this`state, t
      ensures var a := if elapsed then WaitElapses(t.id) else WaitAborts(t.id);
        Valid() && Enabled(old(state), a) && state == Next(allowed, old(state), a)
      ensures t.Value() ==
        old(t.Value()).(phase := if elapsed && t.name in owned && owned[t.name] == t then Restarting else Exiting)
    {
      Facts(t);
      WaitSteps(allowed, state, t.id);
      hide Valid, MoveTo, Next, Enabled;
      Move(t, if elapsed && t.name in owned && owned[t.name] == t then Restarting else Exiting);
    }

    // ----- the sections, entered one after the other -----

    static lemma RunGoesOn(allowed: set<Name>, s: Supervisor, actions: seq<Action>, m: Supervisor, a: Action)
      requires Exec(allowed, s, actions) == Some(m) && Enabled(m, a)
      ensures Exec(allowed, s, actions + [a]) == Some(Next(allowed, m, a))
    {
      hide Enabled, Next;
      assert (actions + [a])[..|actions|] == actions;
    }

    /** The step just taken follows the run so far. */
    ghost method Follow(before: Supervisor, a: Action)
      requires Valid() && Exec(allowed, Initial(start), trace) == Some(before)
      requires Enabled(before, a) && state == Next(allowed, before, a)
      modifies this`trace
      ensures Valid() && Following() && trace == old(trace) + [a]
    {
      RunGoesOn(allowed, Initial(start), trace, before, a);
      hide Valid, Exec, Enabled, Next;
      trace := trace + [a];
    }

    /** All the fields and records, as they are now. */
    ghost function Snapshot(): Records
      reads this`runs, this`owned, this`timers, this`finishers, this`now, this`log, runs
    {
      Records(runs, ValuesOf(runs), owned, timers, finishers, now, log)
    }

    lemma Shown()
      requires Valid()
      ensures Stands(Snapshot(), state) && Snapshot().runs == runs && Snapshot().owned == owned
    {
    }

    /** A section only adds runs. */
    twostate lemma Extended()
      requires old(runs) <= runs
      ensures old(Snapshot()).runs <= Snapshot().runs && old(Snapshot()).owned == old(owned)
    {
    }

    /** The control session delivers a request. */
    method OnRequest(request: Request) returns (ok: bool)
      requires Valid() && Following() && !shutdown
      modifies this, runs
      ensures Valid() && Following() && trace == old(trace) + [TunnelMachine.Apply(request)] && old(runs) <= runs
      ensures ok <==>
        ValidRequest(allowed, request) && !(request.name in old(owned) && old(owned[request.name].runErr.DrainError?))
      ensures request.name in old(owned) ==> old(owned)[request.name].id < |old(Snapshot()).values|
      ensures if ok then Applied(old(Snapshot()), Snapshot(), request) else Snapshot() == old(Snapshot())
    {
      hide Valid, Exec, ApplyRequest, Snapshot, Stands, Applied;
      OwnedFacts();
      Flags();
      Shown();
      OwnedMeans(Snapshot(), state, request.name);
      ghost var before := state;
      ok := Apply(request);
      Follow(before, TunnelMachine.Apply(request));
      Shown();
      Extended();
      RequestRecords(allowed, old(Snapshot()), before, Snapshot(), state, request);
    }

    lemma Flags()
      requires Valid()
      ensures state.shutdown == shutdown && state.now == now && state.timers == timers && state.finishers == finishers
      ensures state.log == log && state.awaited == awaited && state.leased == leased
      ensures forall n :: n in state.owned ==> state.owned[n] in state.tunnels
    {
    }

    /** A timer that is due goes off. */
    method OnTimer(timer: Timer, t: OwnedTunnel)
      requires Valid() && Following() && timer in timers && timer.due <= now && t in runs && t.id == timer.run
      modifies this`timers, this`log, this`finishers, this`state, this`trace, t
      ensures Valid() && Following() && trace == old(trace) + [TunnelMachine.TimerFires(timer)]
      ensures t.id < |old(Snapshot()).values| && TimedOut(old(Snapshot()), Snapshot(), timer, t)
    {
      hide Valid, Exec, FireTimer, Snapshot, Stands, TimedOut;
      Flags();
      Shown();
      ghost var before := state;
      TimerFires(timer, t);
      Follow(before, TunnelMachine.TimerFires(timer));
      Shown();
      Extended();
      TimerRecords(allowed, old(Snapshot()), before, Snapshot(), state, timer, t);
    }

    /** A finisher whose run is over. */
    method OnFinished(t: OwnedTunnel)
      requires Valid() && Following() && t in runs && t.id in finishers && t.phase.Finished?
      modifies this`owned, this`created, this`runs, this`log, this`timers, this`finishers, this`state, this`trace
      ensures Valid() && Following() && trace == old(trace) + [TunnelMachine.FinishStop(t.id)] && old(runs) <= runs
      ensures t.id < |old(Snapshot()).values| && Drained(old(Snapshot()), Snapshot(), t)
    {
      hide Valid, Exec, FinishStopped, Snapshot, Stands, Drained;
      Facts(t);
      Shown();
      ghost var before := state;
      FinishStop(t);
      Follow(before, TunnelMachine.FinishStop(t.id));
      Shown();
      Extended();
      DrainRecords(allowed, old(Snapshot()), before, Snapshot(), state, t);
    }

    method OnShutdown()
      requires Valid() && Following() && !shutdown
      modifies this`log, this`finishers, this`shutdown, this`awaited, this`state, this`trace, runs
      ensures Valid() && Following() && shutdown && |trace| == |old(trace)| + 1 && old(trace) <= trace
      ensures trace[|old(trace)|].StopAll?
      ensures |old(Snapshot()).runs| == |old(Snapshot()).values| && AllTold(old(Snapshot()), Snapshot())
      ensures forall n :: n in owned ==> owned[n].id in awaited
    {
      hide Valid, Exec, BeginShutdown, Snapshot, Stands, AllTold;
      Flags();
      OwnedNames();
      Shown();
      ghost var before := state;
      ghost var order := StopAll();
      Follow(before, TunnelMachine.StopAll(order));
      Shown();
      Extended();
      Flags();
      ShutdownRecords(allowed, old(Snapshot()), before, Snapshot(), state, order);
    }

    method OnReport(t: OwnedTunnel, healthy: bool)
      requires Valid() && Following() && t in runs && t.phase.Running?
      modifies this`log, this`state, this`trace, t
      ensures Valid() && Following() && trace == old(trace) + [Reported(t, healthy)]
      ensures t.id < |old(Snapshot()).values| && Of(old(Snapshot()), t).phase.Running?
      ensures Snapshot() == Heard(old(Snapshot()), t, healthy)
    {
      hide Valid, Exec, Next, Snapshot, Stands, Heard;
      Facts(t);
      Shown();
      ghost var before := state;
      Report(t, healthy);
      Follow(before, Reported(t, healthy));
      Shown();
      Extended();
      ReportRecords(allowed, old(Snapshot()), before, Snapshot(), state, t, healthy);
    }

    method OnReturn(t: OwnedTunnel, error: RunError)
      requires Valid() && Following() && t in runs && t.phase.Running?
      modifies this`log, this`state, this`trace, t
      ensures Valid() && Following() && trace == old(trace) + [RunReturns(t.id, error)]
      ensures t.id < |old(Snapshot()).values| && Snapshot() == Returned(old(Snapshot()), t, error)
    {
      hide Valid, Exec, Next, Snapshot, Stands, Returned;
      Facts(t);
      Shown();
      ghost var before := state;
      Return(t, error);
      Follow(before, RunReturns(t.id, error));
      Shown();
      Extended();
      ReturnRecords(allowed, old(Snapshot()), before, Snapshot(), state, t, error);
    }

    method OnProceed(t: OwnedTunnel)
      requires Valid() && Following() && t in runs && OwnAction(t.id, t.phase).Some?
      modifies this`log, this`state, this`trace, t
      ensures Valid() && Following() && trace == old(trace) + [OwnAction(t.id, old(t.phase)).value]
      ensures t.id < |old(Snapshot()).values| && Snapshot() == Proceeded(old(Snapshot()), t)
    {
      hide Valid, Exec, Next, Enabled, Snapshot, Stands, Proceeded;
      Facts(t);
      Shown();
      ghost var before, a := state, OwnAction(t.id, t.phase).value;
      Proceed(t);
      Follow(before, a);
      Shown();
      Extended();
      ProceedRecords(allowed, old(Snapshot()), before, Snapshot(), state, t);
    }

    method OnWaitEnd(t: OwnedTunnel, elapsed: bool)
      requires Valid() && Following() && t in runs && t.phase.Waiting? && (elapsed || t.cancelled)
      modifies this`state, this`trace, t
      ensures Valid() && Following() && trace == old(trace) + [if elapsed then WaitElapses(t.id) else WaitAborts(t.id)]
      ensures t.id < |old(Snapshot()).values|
      ensures Snapshot() ==
        Moved(old(Snapshot()), t, if elapsed && t.name in owned && owned[t.name] == t then Restarting else Exiting)
    {
      hide Valid, Exec, Next, Snapshot, Stands, Moved;
      Facts(t);
      Shown();
      ghost var before := state;
      EndWait(t, elapsed);
      Follow(before, if elapsed then WaitElapses(t.id) else WaitAborts(t.id));
      Shown();
      Extended();
      WaitRecords(allowed, old(Snapshot()), before, Snapshot(), state, t, elapsed);
    }

    /** Time passes. */
    method OnTick(time: int)
      requires Valid() && Following() && now <= time
      modifies this`now, this`state, this`trace
      ensures Valid() && Following() && trace == old(trace) + [Tick(time)] && now == time
    {
      ghost var before := state;
      now := time;
      state := state.(now := time);
      Follow(before, Tick(time));
    }

    // ----- what holds whenever no section is being executed -----

    /**
     Of the records: at most one run of a name is unfinished, and it is the owned one;
     every run that is neither cancelled nor drain-failed has a timer armed for its
     present generation, due when the latest lease granted to its name ends.
     */
    lemma RecordsSafe(t: OwnedTunnel, u: OwnedTunnel)
      requires Valid() && Following() && t in runs && u in runs
      ensures !t.phase.Finished? ==> t.name in owned && owned[t.name] == t
      ensures !t.phase.Finished? && !u.phase.Finished? && t.name == u.name ==> t == u
      ensures !t.cancelled && !t.runErr.DrainError? ==>
        t.name in leased && Timer(t.name, t.id, t.generation, leased[t.name]) in timers
    {
      assert Reachable(allowed, state);
      Facts(t);
      Facts(u);
      Flags();
      hide Valid, Exec, Reachable;
      if !t.phase.Finished? {
        OneUnfinishedRun(allowed, state, t.id, t.id);
      }
      if !u.phase.Finished? {
        OneUnfinishedRun(allowed, state, u.id, u.id);
      }
      if !t.cancelled && !t.runErr.DrainError? {
        LeaseIsArmed(allowed, state, t.id);
      }
    }

    /** Another run of the name starts, or STOPPED is said of it. */
    static predicate Later(e: Event, n: Name) {
      (e.RunStarted? && e.name == n) || (e.Emitted? && e.name == n && e.status.Stopped?)
    }

    /**
     Of the log: runs of a name do not overlap, STOPPED is said only once they are over,
     READY only of a run that reported healthy and whose stop has not begun, and nothing
     starts after a failed drain of its name or after shutdown.
     */
    lemma LogSafe(i: nat, k: nat, n: Name, r: RunId)
      requires Valid() && Following() && i < k < |log|
      ensures log[i] == RunStarted(n, r) && Later(log[k], n) ==> exists j :: i < j < k && log[j] == RunFinished(n, r)
      ensures log[k].Emitted? && log[k].name == n && log[k].status.Ready? ==>
        exists j: nat :: HealthyAt(log[..k], j, n) && forall h :: 0 <= h < j ==> log[h] != StopBegan(n, log[j].run)
      ensures log[k].RunStarted? ==> log[i] != DrainFailed(log[k].name) && log[i] != ShutdownBegan
    {
      assert Reachable(allowed, state);
      Flags();
      hide Valid, Exec, Reachable;
      if log[k].RunStarted? {
        FencedNamesStayDown(allowed, state, i, k);
        if log[i] == RunStarted(n, r) && log[k].name == n {
          RunsDoNotOverlap(allowed, state, i, k, n, r, log[k].run);
        }
      } else if log[k].Emitted? && log[k].name == n {
        if log[k].status.Ready? {
          ReadyMeansHealthy(allowed, state, k, n);
        } else if log[k].status.Stopped? && log[i] == RunStarted(n, r) {
          StoppedMeansDrained(allowed, state, i, k, n, r);
        }
      }
    }

    /** Once shutdown has waited for the runs it stopped, no run is executing. */
    lemma DownMeansDrained(t: OwnedTunnel)
      requires Valid() && Following() && shutdown && t in runs
      requires forall u :: u in runs && u.id in awaited ==> u.phase.Finished?
      ensures t.phase.Finished?
    {
      assert Reachable(allowed, state);
      ReachableInv(allowed, state);
      assert forall i :: i in state.tunnels ==> runs[i].id == i && state.tunnels[i] == runs[i].Value();
      ShutdownDrainsAll(state);
      Facts(t);
    }
  }
}
