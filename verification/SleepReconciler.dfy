/**
 The sleep controller as the program it is: methods that update a progress
 record in memory, patch the Cluster object and call shards. The ghost trace
 shows that whatever it does, interleaved with the other actors and cut short by
 a crash at any external operation, is a disciplined run of the machine, so the
 machine's theorems hold of `world` at every such operation.
 */
module SleepReconciler {
  import opened Common
  import opened Strings
  import opened SleepMachine
  import opened SleepSafety
  import opened SleepRetries
  import opened SleepStory

  /** What one reconcile learns from the cluster besides the annotations. */
  datatype Answers = Answers(
    connected: Option<set<Shard>>,          // None while connections are not ready
    eligible: bool,                         // normal-sleep guards hold
    coordinator: Option<Shard>,             // zone of the coordinating node; None if it cannot be read
    statuses: map<Shard, Option<bool>>)     // per connected shard: asleep, or None if the read fails

  /** Sorted shards with the coordinating shard, if connected, last. */
  method OrderedShards(connected: set<Shard>, coordinator: Shard) returns (order: seq<Shard>)
    ensures CoordinatorLast(order, connected, coordinator)
    ensures var n := if coordinator in connected then |order| - 1 else |order|; Sorted(order[..n])
  {
    var shards := SortStrings(connected - {coordinator});
    order := shards;
    if coordinator in connected {
      order := shards + [coordinator];
      ElemsSnoc(shards, coordinator);
      assert order[..|order| - 1] == shards;
    } else {
      assert order[..|order|] == shards;
    }
  }

  /** Every status read of a connected shard is answered from the given map. */
  ghost predicate Answered(cfg: Config, answers: Answers) {
    answers.connected.Some? ==>
      answers.connected.value <= cfg.shards && answers.connected.value <= answers.statuses.Keys
  }

  /** Whether all connected configured shards are asleep; None if a read fails or nothing is connected yet. */
  ghost function Observed(cfg: Config, answers: Answers): Option<bool>
    requires Answered(cfg, answers)
  {
    if || answers.connected.None?
       || (exists x :: x in cfg.shards && x in answers.connected.value && answers.statuses[x].None?)
    then None
    else Some(forall x :: x in cfg.shards && x in answers.connected.value ==> answers.statuses[x] == Some(true))
  }

  /** Reads every configured shard that is connected, giving up at the first failed read. */
  method AllAsleep(cfg: Config, order: seq<Shard>, answers: Answers) returns (allAsleep: Option<bool>)
    requires Answered(cfg, answers) && Elems(order) == cfg.shards
    ensures allAsleep == Observed(cfg, answers)
  {
    if answers.connected.None? {
      return None;
    }
    var connected, statuses := answers.connected.value, answers.statuses;
    var all := true;
    for i := 0 to |order|
      invariant forall x :: x in order[..i] && x in connected ==> statuses[x].Some?
      invariant all <==> forall x :: x in order[..i] && x in connected ==> statuses[x] == Some(true)
    {
      assert order[..i + 1] == order[..i] + [order[i]];
      if order[i] in connected {
        if statuses[order[i]].None? {
          return None;
        }
        all := all && statuses[order[i]].value;
      }
    }
    assert order[..|order|] == order;
    assert forall x :: x in cfg.shards <==> x in order;
    return Some(all);
  }

  class Reconciler {
    const cfg: Config
    const mayCrash: bool
    var world: World
    ghost var start: State
    ghost var trace: seq<Action>
    ghost var pc: Pc

    ghost predicate Valid()
      reads this
    {
      && ValidConfig(cfg)
      && Initial(start) && DisciplinedRun(cfg, start, trace)
      && Exec(cfg, start, trace) == Some(State(world, pc))
    }

    constructor (cfg: Config, mayCrash: bool, asleep: set<Shard>)
      requires ValidConfig(cfg)
      ensures Valid() && this.cfg == cfg && this.mayCrash == mayCrash && pc.Idle? && trace == []
      ensures world == World(None, Absent, asleep, {}, {}, [], {})
    {
      this.cfg, this.mayCrash := cfg, mayCrash;
      world := World(None, Absent, asleep, {}, {}, [], {});
      start, trace, pc := State(World(None, Absent, asleep, {}, {}, [], {}), Idle), [], Idle;
    }

    /** The trace gained actions and lost none; a crash only where crashes are possible. */
    twostate predicate Extended()
      reads this
    {
      && start == old(start) && old(trace) <= trace
      && (!mayCrash ==> forall k :: |old(trace)| <= k < |trace| ==> trace[k] != Crash)
    }

    /** The trace gained what happens within one reconcile. */
    twostate predicate Working()
      reads this
    {
      && Extended()
      && forall k :: |old(trace)| <= k < |trace| ==> !trace[k].Begin? && !trace[k].EditRequest?
    }

    /** The first thing this reconcile did was to read the cluster and decide on the given answers. */
    twostate predicate Began(answers: Answers)
      requires Answered(cfg, answers)
      reads this
    {
      && |old(trace)| < |trace|
      && var first := trace[|old(trace)|];
      && first.Begin?
      && first == Begin(answers.connected, answers.eligible, answers.coordinator, Observed(cfg, answers), first.order)
      && forall k :: |old(trace)| < k < |trace| ==> !trace[k].Begin? && !trace[k].EditRequest?
    }

    /** What this reconcile asked of the Cluster object and of the shards. */
    twostate function Done(): seq<Deed>
      requires old(trace) <= trace
      reads this
    {
      Deeds(cfg, State(old(world), old(pc)), trace[|old(trace)|..])
    }

    /** It is the story of what the reconcile was told, unless it crashed, and leaves the annotations as they are. */
    twostate predicate Told()
      requires old(trace) < trace && trace[|old(trace)|].Begin?
      reads this
    {
      && (!mayCrash ==> Story(old(world), trace[|old(trace)|], Done()))
      && (world.request, world.progress) == Leaves(old(world).request, old(world).progress, Done())
    }

    static lemma Retold(cfg: Config, start: State, before: seq<Action>, s: State, trace: seq<Action>, t: State)
      requires Exec(cfg, start, before) == Some(s) && Exec(cfg, start, trace) == Some(t) && t.pc.Idle?
      requires before < trace && trace[|before|].Begin?
      requires forall k :: |before| < k < |trace| ==> !trace[k].Begin? && !trace[k].EditRequest?
      ensures var deeds := Deeds(cfg, s, trace[|before|..]);
        && ((forall k :: |before| <= k < |trace| ==> trace[k] != Crash) ==> Story(s.world, trace[|before|], deeds))
        && (t.world.request, t.world.progress) == Leaves(s.world.request, s.world.progress, deeds)
    {
      hide Exec, Deeds, Story, Leaves;
      var n := |before|;
      assert trace == before + trace[n..];
      ExecSplit(cfg, start, before, trace[n..]);
      DeedsLeave(cfg, s, trace[n..], t);
      assert trace[n..] == [trace[n]] + trace[n + 1..];
      if forall k :: n <= k < |trace| ==> trace[k] != Crash {
        ReconcileTells(cfg, s, trace[n], trace[n + 1..], t);
      }
    }

    /** What shards answered to wake calls since the trace had `n` actions. */
    ghost function Heard(n: nat): seq<bool>
      requires n <= |trace|
      reads this
    {
      Confirmations(trace[n..])
    }

    /** Since the trace had `n` actions there were only wake calls and the shards' own doings. */
    ghost predicate OnlyWakes(n: nat)
      reads this
    {
      forall k :: n <= k < |trace| ==> WakesOnly(trace[k])
    }

    /** So what the controller holds now is what the answers since then leave. */
    lemma WakesSince(s: State, n: nat, p: Progress, connected: set<Shard>)
      requires Valid() && n <= |trace| && OnlyWakes(n) && Exec(cfg, start, trace[..n]) == Some(s)
      requires s.pc == Waking(p, connected, 0, []) && pc.Waking? && pc.i == |p.accepted|
      ensures |Heard(n)| == |p.accepted| && pc.remaining == Kept(p.accepted, Heard(n))
    {
      assert trace == trace[..n] + trace[n..];
      ExecSplit(cfg, start, trace[..n], trace[n..]);
      WakesLeaveUnconfirmed(cfg, s, p, connected, trace[n..], State(world, pc));
      assert p.accepted[..|p.accepted|] == p.accepted;
    }

    /** One step of the machine: the world becomes `next`, and the trace gains the action that made it so. */
    method Step(next: World, ghost a: Action)
      requires Valid() && Enabled(cfg, State(world, pc), a) && Disciplined(State(world, pc), a)
      requires next == Next(cfg, State(world, pc), a).world
      modifies this`world, this`trace, this`pc
      ensures Valid() && world == next && trace == old(trace) + [a]
      ensures pc == Next(cfg, State(old(world), old(pc)), a).pc
    {
      hide Exec, DisciplinedRun, Enabled, Next, Disciplined, Initial;
      RunGoesOn(cfg, start, trace, State(world, pc), a);
      pc := Next(cfg, State(world, pc), a).pc;
      trace := trace + [a];
      world := next;
    }

    /** Shards wake and fall asleep on their own account, any number of times. */
    method OthersAct()
      requires Valid()
      modifies this`world, this`trace, this`pc
      ensures Valid() && Working() && pc == old(pc) && OnlyWakes(|old(trace)|)
      ensures world.request == old(world.request) && world.progress == old(world.progress)
    {
      hide Valid;
      var steps :| 0 <= steps;
      for n := 0 to steps
        invariant Valid() && Working() && pc == old(pc) && OnlyWakes(|old(trace)|)
        invariant world.request == old(world.request) && world.progress == old(world.progress)
      {
        var shard: Shard, wakes: bool := *, *;
        if wakes {
          Step(WakeEffect(world, shard), ShardWakes(shard));
        } else {
          Step(world.(asleep := world.asleep + {shard}), ShardSleeps(shard));
        }
      }
    }

    /** A user sets, replaces or removes the request while no transaction is recorded. */
    method EditRequest(edited: Option<Request>)
      requires Valid() && pc.Idle? && world.progress.Absent?
      modifies this`world, this`trace, this`pc
      ensures Valid() && Extended() && pc.Idle? && world.request == edited && world.progress.Absent?
    {
      Step(world.(request := edited), SleepMachine.EditRequest(edited));
    }

    // ----- external operations; each may crash the controller before or after it takes effect -----

    /** The record the controller is about to store. */
    ghost predicate StoresNow(p: Progress)
      reads this
    {
      match pc
      case Looping(order, i, q) => i < |order| && order[i] !in q.accepted && p == CheckpointOf(order, i, q)
      case Marking(_, _, q) => p == q
      case Storing(q) => p == q
      case Saving(q) => p == q
      case _ => false
    }

    ghost function AfterStore(before: Pc, p: Progress): Pc {
      match before
      case Looping(order, i, _) => Calling(order, i, p)
      case Marking(order, i, _) => Looping(order, i + 1, p)
      case Storing(_) => Connecting(p)
      case _ => Idle
    }

    method StoreProgress(p: Progress) returns (ok: bool)
      requires Valid() && StoresNow(p)
      modifies this`world, this`trace, this`pc
      ensures Valid() && Working()
      ensures ok ==> world.progress == Stored(p) && pc == AfterStore(old(pc), p)
      ensures !ok ==> pc.Idle?
    {
      hide Valid;
      OthersAct();
      var outcome: Outcome := *;
      ghost var a := match pc
        case Looping(_, _, _) => Checkpoint(outcome)
        case Marking(_, _, _) => Mark(outcome)
        case Storing(_) => StoreCompensating(outcome)
        case _ => Save(outcome);
      Step(SleepMachine.StoreProgress(world, p, outcome), a);
      ok := outcome.Applied?;
    }

    /** Removes both annotations. */
    method Finish() returns (ok: bool)
      requires Valid() && (pc.Rejecting? || pc.Finishing?)
      modifies this`world, this`trace, this`pc
      ensures Valid() && Working() && pc.Idle?
      ensures ok ==> world.request.None? && world.progress.Absent?
    {
      hide Valid;
      OthersAct();
      var outcome: Outcome := *;
      Step(ClearRequest(world, outcome), Clear(outcome));
      ok := outcome.Applied?;
    }

    /** Calls SleepTenant on one shard of the loop order; None means that the controller crashed. */
    method SleepTenant(shard: Shard, order: seq<Shard>) returns (reply: Option<Reply>)
      requires Valid() && pc.Calling? && pc.order == order && pc.i < |order| && shard == order[pc.i]
      modifies this`world, this`trace, this`pc
      ensures Valid() && Working()
      ensures reply.None? ==> pc.Idle? && mayCrash
      ensures reply.Some? ==> pc == AfterReply(order, old(pc).i, old(pc).p, reply.value)
    {
      hide Valid;
      OthersAct();
      var effect: bool, answer: Reply, crashed: bool := *, *, *;
      effect := effect || answer.Affirmed?;
      Step(LogCall(world, shard, order, effect, answer.Affirmed?), SleepCall(effect, answer));
      if mayCrash && crashed {
        Step(world, Crash);
        return None;
      }
      return Some(answer);
    }

    /** Calls WakeTenant and reports whether the shard confirmed that it is awake; None means a crash. */
    method WakeTenant(shard: Shard) returns (confirmed: Option<bool>)
      requires Valid() && pc.Waking? && pc.i < |pc.p.accepted| && shard == pc.p.accepted[pc.i] && shard in pc.connected
      modifies this`world, this`trace, this`pc
      ensures Valid() && Working()
      ensures confirmed.None? ==> pc.Idle? && mayCrash
      ensures confirmed.Some? ==> OnlyWakes(|old(trace)|)
      ensures confirmed.Some? ==>
                pc == Waking(old(pc).p, old(pc).connected, old(pc).i + 1,
                             if confirmed.value then old(pc).remaining else old(pc).remaining + [shard])
    {
      hide Valid;
      OthersAct();
      var effect: bool, awake: bool, crashed: bool := *, *, *;
      effect := effect || awake;
      Step(if effect then WakeEffect(world, shard) else world, WakeCall(effect, awake));
      if mayCrash && crashed {
        Step(world, Crash);
        return None;
      }
      return Some(awake);
    }

    // ----- the controller -----

    /** Wakes one accepted shard if it is connected; reports whether it must be kept, None after a crash. */
    method WakeOrKeep(shard: Shard, connected: set<Shard>) returns (keep: Option<bool>)
      requires Valid() && pc.Waking? && pc.connected == connected
      requires pc.i < |pc.p.accepted| && shard == pc.p.accepted[pc.i]
      modifies this`world, this`trace, this`pc
      ensures Valid() && Working()
      ensures keep.None? ==> pc.Idle? && mayCrash
      ensures keep.Some? ==> OnlyWakes(|old(trace)|)
      ensures keep.Some? ==>
                pc == Waking(old(pc).p, connected, old(pc).i + 1,
                             if keep.value then old(pc).remaining + [shard] else old(pc).remaining)
    {
      hide Valid;
      if shard !in connected {
        Step(world, WakeCall(false, false));
        return Some(true);
      }
      var confirmed := WakeTenant(shard);
      return if confirmed.None? then None else Some(!confirmed.value);
    }

    /**
     Walks the accepted shards and collects those still to wake in the storage
     of the very list being walked, as the source does with its aliased slice.
     */
    method WakeEach(p: Progress, connected: set<Shard>) returns (remaining: Option<seq<Shard>>)
      requires Valid() && pc == Waking(p, connected, 0, [])
      modifies this`world, this`trace, this`pc
      ensures Valid() && Working()
      ensures remaining.None? ==> pc.Idle? && mayCrash
      ensures remaining.Some? ==> pc == Waking(p, connected, |p.accepted|, remaining.value) && OnlyWakes(|old(trace)|)
    {
      hide Valid;
      var accepted := new Shard[|p.accepted|](i requires 0 <= i < |p.accepted| => p.accepted[i]);
      var kept := 0;
      for i := 0 to |p.accepted|
        invariant Valid() && Working() && OnlyWakes(|old(trace)|)
        invariant 0 <= kept <= i
        invariant forall k :: i <= k < |p.accepted| ==> accepted[k] == p.accepted[k]
        invariant pc == Waking(p, connected, i, accepted[..kept])
      {
        var shard := accepted[i];
        var keep := WakeOrKeep(shard, connected);
        if keep.None? {
          return None;
        }
        if keep.value {
          accepted[kept] := shard;
          kept := kept + 1;
          assert accepted[..kept] == accepted[..kept - 1] + [shard];
        }
      }
      return Some(accepted[..kept]);
    }

    /** What is left after waking the accepted shards: exactly those whose wake was not confirmed, in their order. */
    method WakeAccepted(p: Progress, connected: set<Shard>) returns (remaining: Option<seq<Shard>>)
      requires Valid() && pc == Waking(p, connected, 0, [])
      modifies this`world, this`trace, this`pc
      ensures Valid() && Working()
      ensures remaining.None? ==> pc.Idle? && mayCrash
      ensures remaining.Some? ==> pc == Waking(p, connected, |p.accepted|, remaining.value)
      ensures remaining.Some? ==>
        |Heard(|old(trace)|)| == |p.accepted| && remaining.value == Kept(p.accepted, Heard(|old(trace)|))
    {
      ghost var s, before := State(world, pc), trace;
      assert Exec(cfg, start, before) == Some(s);
      hide Valid, Exec, Kept, Confirmations;
      remaining := WakeEach(p, connected);
      if remaining.Some? {
        assert trace[..|before|] == before;
        WakesSince(s, |before|, p, connected);
      }
    }

    /** Undoes the transaction as far as shards confirm, and keeps on record those still to wake. */
    method Compensate(p: Progress, connected: set<Shard>)
      requires Valid() && pc == Connecting(p) && connected <= cfg.shards
      modifies this`world, this`trace, this`pc
      ensures Valid() && Working() && pc.Idle?
    {
      hide Valid;
      Step(world, Connect(connected));
      var remaining := WakeAccepted(p, connected);
      if remaining.Some? {
        Settle(p, connected, remaining.value);
      }
    }

    /** Keeps on record the shards still to wake, or removes the request when there are none. */
    method Settle(p: Progress, ghost connected: set<Shard>, remaining: seq<Shard>)
      requires Valid() && pc == Waking(p, connected, |p.accepted|, remaining)
      modifies this`world, this`trace, this`pc
      ensures Valid() && Working() && pc.Idle?
    {
      hide Valid;
      Step(world, EndWakes);
      if remaining != [] {
        var ok := StoreProgress(p.(accepted := remaining));
      } else {
        var ok := Finish();
      }
    }

    /** Records what is to be undone and undoes it. */
    method Undo(p: Progress, reachable: set<Shard>)
      requires Valid() && pc == Storing(p) && reachable <= cfg.shards
      modifies this`world, this`trace, this`pc
      ensures Valid() && Working() && pc.Idle?
    {
      hide Valid;
      var ok := StoreProgress(p);
      if ok {
        Compensate(p, reachable);
      }
    }

    /** Keeps the checkpoint while every configured shard is asleep, then wakes them all. */
    method RestoreAfterWake(p: Progress, answers: Answers, reachable: set<Shard>)
      requires Valid() && pc.Idle? && world.request == Some(p.request) && p.request.parses
      requires world.progress == Stored(p) && p.phase.Finalizing? && p.finalShard != ""
      requires Answered(cfg, answers) && reachable <= cfg.shards
      modifies this`world, this`trace, this`pc
      ensures Valid() && Extended() && Began(answers) && pc.Idle? && Told()
      ensures Observed(cfg, answers) != Some(false) ==> world == old(world)
      ensures var all := trace[|old(trace)|].order;
        && Sorted(all) && Elems(all) == cfg.shards
        && (!mayCrash && Observed(cfg, answers) == Some(false) ==> RestoredAll(p, all))
    {
      hide Valid, Story, Deeds, Leaves, AllWell;
      Ran();
      ghost var before, s := trace, State(world, pc);
      var all := SortStrings(cfg.shards);
      var allAsleep := AllAsleep(cfg, all, answers);
      Step(world, Begin(answers.connected, answers.eligible, answers.coordinator, allAsleep, all));
      if answers.connected.Some? && allAsleep == Some(false) {
        Undo(p.(phase := Compensating, accepted := all), reachable);
      }
      Ran();
      Retold(cfg, start, before, s, trace, State(world, pc));
      if !mayCrash && allAsleep == Some(false) {
        RestoreWakesAll(cfg, s.world, trace[|before|], Done(), p);
      }
    }

    /**
     The record that all shards are to be woken was written first; if all went well and all were
     reachable, each of them confirmed that it is awake and the request is gone.
     */
    twostate predicate RestoredAll(p: Progress, all: seq<Shard>)
      requires old(trace) <= trace
      reads this
    {
      && Done() != [] && Done()[0].Stores?
      && Done()[0].annotation == Stored(Progress(p.request, Compensating, all, p.finalShard))
      && (AllWell(Done()) ==>
            && |Done()| >= 2 && Done()[1].Connects?
            && (cfg.shards <= Done()[1].reachable ==>
                  && world.request.None? && world.progress.Absent?
                  && forall x :: x in cfg.shards ==> Wakes(x, true) in Done()))
    }

    lemma Ran()
      requires Valid()
      ensures Exec(cfg, start, trace) == Some(State(world, pc))
    {
    }

    /** One reconcile of the Cluster: forward, back, or waiting, as the record says. */
    method Reconcile(answers: Answers, reachable: set<Shard>, stamp: Request)
      requires Valid() && pc.Idle? && reachable <= cfg.shards && stamp.parses && !stamp.force
      requires Answered(cfg, answers)
      modifies this`world, this`trace, this`pc
      ensures Valid() && Extended() && Began(answers) && pc.Idle? && Told()
      ensures WriteAhead(world) && AtMostOnce(world) && CoordinatorIsLast(world) && world.orphaned == {}
    {
      hide Valid, Story, Deeds, Leaves;
      Ran();
      ghost var before, s := trace, State(world, pc);
      var decoded := if world.request.Some? then DecodeProgress(world.progress, world.request.value) else Err("");
      if world.request.None? {
        RequestSleep(answers, stamp);
      } else if !world.request.value.parses || decoded.Err? {
        Reject(answers);
      } else if decoded.value.phase.Finalizing? {
        RestoreAfterWake(decoded.value, answers, reachable);
      } else if decoded.value.phase.Compensating? {
        Step(world, Begin(answers.connected, answers.eligible, answers.coordinator, Observed(cfg, answers), []));
        Compensate(decoded.value, reachable);
      } else {
        Sleep(decoded.value, answers, reachable);
      }
      SafeNow();
      Ran();
      Retold(cfg, start, before, s, trace, State(world, pc));
    }

    /** The machine's safety theorems hold of the world at every external operation. */
    lemma SafeNow()
      requires Valid()
      ensures WriteAhead(world) && AtMostOnce(world) && CoordinatorIsLast(world) && world.orphaned == {}
    {
      RunKeepsInv(cfg, start, trace, State(world, pc));
    }

    /** Removes a request that is malformed or whose progress record does not decode. */
    method Reject(answers: Answers)
      requires Valid() && pc.Idle? && world.request.Some? && Answered(cfg, answers)
      requires !world.request.value.parses || DecodeProgress(world.progress, world.request.value).Err?
      modifies this`world, this`trace, this`pc
      ensures Valid() && Extended() && Began(answers) && pc.Idle?
    {
      hide Valid;
      Step(world, Begin(answers.connected, answers.eligible, answers.coordinator, Observed(cfg, answers), []));
      var ok := Finish();
    }

    /** Creates an automatic request when the cluster is idle. */
    method RequestSleep(answers: Answers, stamp: Request)
      requires Valid() && pc.Idle? && world.request.None? && stamp.parses && !stamp.force
      requires Answered(cfg, answers)
      modifies this`world, this`trace, this`pc
      ensures Valid() && Extended() && Began(answers) && pc.Idle?
      ensures !(answers.connected.Some? && answers.eligible) ==> world == old(world)
    {
      hide Valid;
      Step(world, Begin(answers.connected, answers.eligible, answers.coordinator, Observed(cfg, answers), []));
      if answers.connected.Some? && answers.eligible {
        OthersAct();
        var outcome: Outcome := *;
        Step(if outcome.Failed? then world else world.(request := Some(stamp)), PatchRequest(outcome, stamp));
      }
    }

    /** The forward transaction: guards first, then one shard after the other. */
    method Sleep(p: Progress, answers: Answers, reachable: set<Shard>)
      requires Valid() && pc.Idle? && world.request == Some(p.request) && p.request.parses
      requires DecodeProgress(world.progress, p.request) == Ok(p) && p.phase.Sleeping?
      requires Answered(cfg, answers) && reachable <= cfg.shards
      modifies this`world, this`trace, this`pc
      ensures Valid() && Extended() && Began(answers) && pc.Idle?
      ensures var order := trace[|old(trace)|].order;
        answers.connected.Some? && answers.coordinator.Some? ==>
          && CoordinatorLast(order, answers.connected.value, answers.coordinator.value)
          && Sorted(order[..if answers.coordinator.value in answers.connected.value then |order| - 1 else |order|])
    {
      hide Valid;
      var connected, coordinator := answers.connected, answers.coordinator;
      var order := [];
      if connected.Some? && coordinator.Some? {
        order := OrderedShards(connected.value, coordinator.value);
      }
      Step(world, Begin(connected, answers.eligible, coordinator, Observed(cfg, answers), order));
      if connected.None? {
        return;
      }
      if !p.request.force && !answers.eligible {
        if p.accepted != [] {
          Undo(p.(phase := Compensating), reachable);
        } else {
          var ok := Finish();
        }
        return;
      }
      if coordinator.None? {
        return;
      }
      SleepShards(p, order, reachable);
    }

    method SleepShards(p: Progress, order: seq<Shard>, reachable: set<Shard>)
      requires Valid() && pc == Looping(order, 0, p)
      requires reachable <= cfg.shards
      modifies this`world, this`trace, this`pc
      ensures Valid() && Working() && pc.Idle?
    {
      hide Valid;
      var progress := p;
      var accepted := Elems(progress.accepted);
      for i := 0 to |order|
        invariant Valid() && Working() && pc == Looping(order, i, progress)
        invariant accepted == Elems(progress.accepted)
      {
        if order[i] in accepted {
          Step(world, Advance);
          continue;
        }
        var next := SleepShard(progress, order, i, reachable);
        if next.None? {
          return;
        }
        progress := next.value;
        accepted := accepted + {order[i]};
      }
      Step(world, Advance);
    }

    /** One turn of the shard loop; None means that this reconcile is over. */
    method SleepShard(p: Progress, order: seq<Shard>, i: nat, reachable: set<Shard>) returns (next: Option<Progress>)
      requires Valid() && i < |order| && pc == Looping(order, i, p) && order[i] !in p.accepted
      requires reachable <= cfg.shards
      modifies this`world, this`trace, this`pc
      ensures Valid() && Working()
      ensures next.None? ==> pc.Idle?
      ensures next.Some? ==> pc == Looping(order, i + 1, next.value) && next.value.accepted == p.accepted + [order[i]]
    {
      hide Valid;
      var progress, shard, finalShard := p, order[i], order[|order| - 1];
      if shard == finalShard {
        progress := progress.(phase := Finalizing, finalShard := shard);
      } else {
        progress := progress.(phase := Compensating, accepted := progress.accepted + [shard]);
      }
      var ok := StoreProgress(progress);
      if !ok {
        return None;
      }
      var reply := SleepTenant(shard, order);
      if reply.None? || (reply.value.CallError? && shard == finalShard) {
        return None;
      }
      if !reply.value.Affirmed? {
        progress := progress.(phase := Compensating);
        if shard !in progress.accepted {
          progress := progress.(accepted := progress.accepted + [shard]);
        }
        Undo(progress, reachable);
        return None;
      }
      if shard == finalShard {
        return None;
      }
      progress := progress.(phase := Sleeping);
      ok := StoreProgress(progress);
      return if ok then Some(progress) else None;
    }
  }
}
