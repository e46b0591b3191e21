/**
 What every disciplined run of the sleep transaction keeps, whatever crashes,
 lost replies, failed calls and connection changes it contains.
 */
module SleepSafety {
  import opened Common
  import opened SleepMachine

  // ----- the properties -----

  /** The shards a restart would wake again. */
  function Covered(p: Progress): set<Shard> {
    Elems(p.accepted) + if p.phase.Finalizing? then {p.finalShard} else {}
  }

  /** Write-ahead: whatever this request put to sleep is named by the durable progress record. */
  ghost predicate WriteAhead(w: World) {
    w.slept != {} ==> w.progress.Stored? && w.slept <= Covered(w.progress.progress)
  }

  function Called(w: World): set<Shard> {
    set c | c in w.calls :: c.shard
  }

  ghost predicate AtMostOnce(w: World) {
    forall i, j :: 0 <= i < j < |w.calls| ==> w.calls[i].shard != w.calls[j].shard
  }

  /** The coordinating shard is called only after every other connected shard has affirmed. */
  ghost predicate CoordinatorIsLast(w: World) {
    forall c :: c in w.calls && c.last ==> c.connected - {c.shard} <= c.affirmedBefore
  }

  // ----- the invariant -----

  ghost predicate RecordWellFormed(cfg: Config, p: Progress) {
    && p.request.parses
    && NoDup(p.accepted) && Elems(p.accepted) <= cfg.shards
    && (p.phase.Finalizing? ==> p.finalShard in cfg.shards && p.finalShard !in p.accepted)
  }

  /** Forward progress names exactly the shards called so far, and all of them affirmed. */
  ghost predicate Forward(w: World, p: Progress) {
    Called(w) == Elems(p.accepted) && Elems(p.accepted) <= w.affirmed
  }

  ghost predicate DurableInv(cfg: Config, w: World) {
    && w.orphaned == {}
    && WriteAhead(w) && AtMostOnce(w) && CoordinatorIsLast(w)
    && !w.progress.Garbled?
    && (w.progress.Absent? ==> w.calls == [] && w.affirmed == {})
    && (w.progress.Stored? ==>
          var p := w.progress.progress;
          && w.request == Some(p.request)
          && RecordWellFormed(cfg, p)
          && (p.phase.Sleeping? ==> Forward(w, p)))
  }

  /** Nothing is asleep because of this request beyond the given shards. */
  ghost predicate OnlyAsleep(w: World, shards: set<Shard>) {
    w.slept <= shards
  }

  ghost predicate LoopInv(cfg: Config, order: seq<Shard>, i: nat, p: Progress) {
    && i <= |order| && NoDup(order) && Elems(order) <= cfg.shards
    && RecordWellFormed(cfg, p)
    && (forall k :: 0 <= k < i ==> order[k] in p.accepted)
  }

  ghost predicate CallInv(cfg: Config, w: World, order: seq<Shard>, i: nat, p: Progress) {
    && LoopInv(cfg, order, i, p) && i < |order|
    && w.progress == Stored(p)
    && order[i] !in Called(w)
    && (if order[i] == order[|order| - 1]
        then p.phase.Finalizing? && p.finalShard == order[i] && Elems(p.accepted) <= w.affirmed
        else p.phase.Compensating? && order[i] in p.accepted
             && Called(w) == Elems(p.accepted) - {order[i]} && Elems(p.accepted) - {order[i]} <= w.affirmed)
  }

  ghost predicate PcInv(cfg: Config, w: World, pc: Pc) {
    match pc
    case Idle => true
    case Requesting => w.progress.Absent?
    case Rejecting => OnlyAsleep(w, {})
    case Looping(order, i, p) =>
      && LoopInv(cfg, order, i, p) && p.phase.Sleeping?
      && w.request == Some(p.request)
      && (w.progress == Stored(p) || (w.progress.Absent? && p.accepted == []))
      && Forward(w, p)
    case Calling(order, i, p) => CallInv(cfg, w, order, i, p)
    case Marking(order, i, p) =>
      && LoopInv(cfg, order, i, p) && i < |order| && p.phase.Sleeping? && order[i] in p.accepted
      && w.progress == Stored(p.(phase := Compensating))
      && Forward(w, p)
    case Storing(p) =>
      && w.progress.Stored? && w.progress.progress.request == p.request
      && RecordWellFormed(cfg, p) && p.phase.Compensating?
      && OnlyAsleep(w, Elems(p.accepted))
    case Connecting(p) =>
      w.progress == Stored(p) && p.phase.Compensating? && OnlyAsleep(w, Elems(p.accepted))
    case Waking(p, _, i, remaining) =>
      && w.progress == Stored(p) && p.phase.Compensating?
      && i <= |p.accepted|
      && NoDup(remaining) && Elems(remaining) <= Elems(p.accepted[..i])
      && OnlyAsleep(w, Elems(remaining) + Elems(p.accepted[i..]))
    case Saving(p) =>
      && w.progress.Stored? && w.progress.progress.request == p.request
      && RecordWellFormed(cfg, p) && p.phase.Compensating?
      && OnlyAsleep(w, Elems(p.accepted))
    case Finishing => w.progress.Stored? && OnlyAsleep(w, {})
  }

  ghost predicate Inv(cfg: Config, s: State) {
    DurableInv(cfg, s.world) && PcInv(cfg, s.world, s.pc)
  }

  // ----- each kind of step keeps it -----

  lemma BeginKeepsInv(cfg: Config, s: State, a: Action)
    requires ValidConfig(cfg) && Inv(cfg, s) && a.Begin? && Enabled(cfg, s, a)
    ensures Inv(cfg, Next(cfg, s, a))
  {
  }

  lemma LoopKeepsInv(cfg: Config, s: State, a: Action)
    requires Inv(cfg, s) && (a.Advance? || a.Checkpoint?) && Enabled(cfg, s, a)
    ensures Inv(cfg, Next(cfg, s, a))
  {
  }

  /** Logging one more call to a shard not called before. */
  lemma LoggedCall(w: World, w': World, call: Call)
    requires w'.calls == w.calls + [call]
    ensures Called(w') == Called(w) + {call.shard}
    ensures AtMostOnce(w) && call.shard !in Called(w) ==> AtMostOnce(w')
    ensures CoordinatorIsLast(w) && (call.last ==> call.connected - {call.shard} <= call.affirmedBefore)
            ==> CoordinatorIsLast(w')
  {
  }

  lemma SleepCallKeepsDurableInv(cfg: Config, s: State, a: Action)
    requires Inv(cfg, s) && a.SleepCall? && Enabled(cfg, s, a)
    ensures DurableInv(cfg, Next(cfg, s, a).world)
    ensures Called(Next(cfg, s, a).world) == Called(s.world) + {s.pc.order[s.pc.i]}
  {
    var w, w', order, i := s.world, Next(cfg, s, a).world, s.pc.order, s.pc.i;
    var call := Call(order[i], order[i] == order[|order| - 1], Elems(order), w.affirmed);
    LoggedCall(w, w', call);
    if call.last {
      assert i == |order| - 1;
      assert call.connected - {call.shard} <= call.affirmedBefore;
    }
  }

  lemma SleepCallKeepsInv(cfg: Config, s: State, a: Action)
    requires Inv(cfg, s) && a.SleepCall? && Enabled(cfg, s, a)
    ensures Inv(cfg, Next(cfg, s, a))
  {
    SleepCallKeepsDurableInv(cfg, s, a);
    var t := Next(cfg, s, a);
    if t.pc.Storing? {
      ElemsSnoc(s.pc.p.accepted, s.pc.order[s.pc.i]);
    }
  }

  lemma StoreKeepsInv(cfg: Config, s: State, a: Action)
    requires Inv(cfg, s) && (a.Mark? || a.StoreCompensating? || a.Save?) && Enabled(cfg, s, a)
    ensures Inv(cfg, Next(cfg, s, a))
  {
  }

  lemma WakeKeepsInv(cfg: Config, s: State, a: Action)
    requires Inv(cfg, s) && (a.Connect? || a.WakeCall? || a.EndWakes?) && Enabled(cfg, s, a)
    ensures Inv(cfg, Next(cfg, s, a))
  {
    if a.WakeCall? {
      var accepted, i, shard := s.pc.p.accepted, s.pc.i, s.pc.p.accepted[s.pc.i];
      assert accepted[..i + 1] == accepted[..i] + [shard];
      assert accepted[i..] == [shard] + accepted[i + 1..];
      ElemsSnoc(accepted[..i], shard);
      ElemsSnoc(s.pc.remaining, shard);
      assert shard !in accepted[..i];
    } else if a.EndWakes? {
      assert s.pc.p.accepted[..s.pc.i] == s.pc.p.accepted;
    }
  }

  lemma EnvironmentKeepsInv(cfg: Config, s: State, a: Action)
    requires Inv(cfg, s) && Enabled(cfg, s, a) && Disciplined(s, a)
    requires a.Clear? || a.PatchRequest? || a.Crash? || a.ShardWakes? || a.ShardSleeps? || a.EditRequest?
    ensures Inv(cfg, Next(cfg, s, a))
  {
  }

  lemma StepKeepsInv(cfg: Config, s: State, a: Action)
    requires ValidConfig(cfg) && Inv(cfg, s) && Enabled(cfg, s, a) && Disciplined(s, a)
    ensures Inv(cfg, Next(cfg, s, a))
  {
    match a
    case Begin(_, _, _, _, _) => BeginKeepsInv(cfg, s, a);
    case Advance => LoopKeepsInv(cfg, s, a);
    case Checkpoint(_) => LoopKeepsInv(cfg, s, a);
    case SleepCall(_, _) => SleepCallKeepsInv(cfg, s, a);
    case Mark(_) => StoreKeepsInv(cfg, s, a);
    case StoreCompensating(_) => StoreKeepsInv(cfg, s, a);
    case Connect(_) => WakeKeepsInv(cfg, s, a);
    case Save(_) => StoreKeepsInv(cfg, s, a);
    case WakeCall(_, _) => WakeKeepsInv(cfg, s, a);
    case EndWakes => WakeKeepsInv(cfg, s, a);
    case _ => EnvironmentKeepsInv(cfg, s, a);
  }

  // ----- every run -----

  /** A state some disciplined run from an idle cluster leads to. */
  ghost predicate Reachable(cfg: Config, t: State) {
    exists s, actions :: Initial(s) && DisciplinedRun(cfg, s, actions) && Exec(cfg, s, actions) == Some(t)
  }

  lemma {:induction false} RunKeepsInv(cfg: Config, s: State, actions: seq<Action>, t: State)
    requires ValidConfig(cfg) && Inv(cfg, s)
    requires DisciplinedRun(cfg, s, actions) && Exec(cfg, s, actions) == Some(t)
    ensures Inv(cfg, t)
    decreases |actions|
  {
    if actions != [] {
      var k := |actions| - 1;
      var m := Exec(cfg, s, actions[..k]).value;
      RunKeepsInv(cfg, s, actions[..k], m);
      StepKeepsInv(cfg, m, actions[k]);
    }
  }

  lemma ReachableInv(cfg: Config, t: State)
    requires ValidConfig(cfg) && Reachable(cfg, t)
    ensures Inv(cfg, t)
  {
    var s, actions :| Initial(s) && DisciplinedRun(cfg, s, actions) && Exec(cfg, s, actions) == Some(t);
    RunKeepsInv(cfg, s, actions, t);
  }

  /**
   Each shard asleep because of the request is accepted durably, or is the recorded final
   shard of a finalizing record.
   */
  lemma WriteAheadSafety(cfg: Config, t: State, shard: Shard)
    requires ValidConfig(cfg) && Reachable(cfg, t) && shard in t.world.slept
    ensures t.world.progress.Stored?
    ensures var p := t.world.progress.progress;
            shard in p.accepted || (p.phase.Finalizing? && shard == p.finalShard)
  {
    ReachableInv(cfg, t);
  }

  /** No request is ever cleared while a shard is still asleep because of it. */
  lemma NoOrphanedSleep(cfg: Config, t: State)
    requires ValidConfig(cfg) && Reachable(cfg, t)
    ensures t.world.orphaned == {}
    ensures t.world.request.None? ==> t.world.slept == {} && t.world.progress.Absent?
  {
    ReachableInv(cfg, t);
  }

  /** At most one SleepTenant call per shard, and the last one only after every other connected shard affirmed. */
  lemma OneCallEachCoordinatorLast(cfg: Config, t: State)
    requires ValidConfig(cfg) && Reachable(cfg, t)
    ensures forall i, j :: 0 <= i < j < |t.world.calls| ==> t.world.calls[i].shard != t.world.calls[j].shard
    ensures forall i :: 0 <= i < |t.world.calls| && t.world.calls[i].last ==>
              t.world.calls[i].connected - {t.world.calls[i].shard} <= t.world.calls[i].affirmedBefore
  {
    ReachableInv(cfg, t);
  }

  // ----- building runs -----

  lemma ExecStep(cfg: Config, s: State, actions: seq<Action>, m: State, a: Action)
    requires Exec(cfg, s, actions) == Some(m) && Enabled(cfg, m, a)
    ensures Exec(cfg, s, actions + [a]) == Some(Next(cfg, m, a))
  {
  }

  /** A disciplined run goes on with a disciplined step. */
  lemma RunGoesOn(cfg: Config, s: State, actions: seq<Action>, m: State, a: Action)
    requires DisciplinedRun(cfg, s, actions) && Exec(cfg, s, actions) == Some(m) && Enabled(cfg, m, a)
    requires Disciplined(m, a)
    ensures DisciplinedRun(cfg, s, actions + [a]) && Exec(cfg, s, actions + [a]) == Some(Next(cfg, m, a))
  {
    hide Enabled, Next, Disciplined;
    assert (actions + [a])[..|actions|] == actions;
  }

  lemma {:induction false} ExecAppend(cfg: Config, s: State, first: seq<Action>, m: State, second: seq<Action>)
    requires Exec(cfg, s, first) == Some(m)
    ensures Exec(cfg, s, first + second) == Exec(cfg, m, second)
    decreases |second|
  {
    if second == [] {
      assert first + second == first;
    } else {
      var k := |second| - 1;
      ExecAppend(cfg, s, first, m, second[..k]);
      assert (first + second)[..|first + second| - 1] == first + second[..k];
    }
  }

  // ----- why the rule on edits is needed -----

  /** A reconcile that finds connected nothing and decides nothing about shards. */
  const LOOK := Begin(None, false, None, None, [])

  /**
   Between reconciles, editing the request of a recorded transaction and
   letting the next reconcile run orphans exactly the shards it put to sleep;
   so such an edit is harmless if and only if none is asleep.
   */
  lemma EditOrphansWhatSlept(cfg: Config, s: State, other: Request)
    requires ValidConfig(cfg) && Inv(cfg, s) && s.pc.Idle? && s.world.progress.Stored?
    requires other != s.world.progress.progress.request
    ensures var t := Exec(cfg, s, [EditRequest(Some(other)), LOOK, Clear(Applied)]);
            t.Some? && t.value.world.request.None? && t.value.world.orphaned == s.world.slept
  {
    var edit := EditRequest(Some(other));
    ExecStep(cfg, s, [], s, edit);
    assert [] + [edit] == [edit];
    EditOrphansTail(cfg, Next(cfg, s, edit));
    ExecAppend(cfg, s, [edit], Next(cfg, s, edit), [LOOK, Clear(Applied)]);
    assert [edit] + [LOOK, Clear(Applied)] == [edit, LOOK, Clear(Applied)];
  }

  /**
   An edit is also unsafe while nothing is recorded yet but a reconcile of the
   old request is under way: the shard it calls next is orphaned.
   */
  lemma EditDuringReconcileOrphans(cfg: Config, s: State, other: Request)
    requires ValidConfig(cfg) && Inv(cfg, s) && s.world.progress.Absent?
    requires s.pc.Looping? && s.pc.i < |s.pc.order| && s.pc.order[s.pc.i] !in s.world.asleep
    requires other != s.pc.p.request
    ensures var t := Exec(cfg, s, [EditRequest(Some(other)), Checkpoint(Applied), SleepCall(true, CallError),
                                   Crash, LOOK, Clear(Applied)]);
            t.Some? && t.value.world.request.None? && t.value.world.orphaned == {s.pc.order[s.pc.i]}
  {
    var a1, a2, a3 := EditRequest(Some(other)), Checkpoint(Applied), SleepCall(true, CallError);
    var s1 := Next(cfg, s, a1);
    ExecStep(cfg, s, [], s, a1);
    assert [] + [a1] == [a1];
    var s2 := Next(cfg, s1, a2);
    ExecStep(cfg, s, [a1], s1, a2);
    assert [a1] + [a2] == [a1, a2];
    var s3 := Next(cfg, s2, a3);
    ExecStep(cfg, s, [a1, a2], s2, a3);
    assert [a1, a2] + [a3] == [a1, a2, a3];
    var s4 := Next(cfg, s3, Crash);
    ExecStep(cfg, s, [a1, a2, a3], s3, Crash);
    assert [a1, a2, a3] + [Crash] == [a1, a2, a3, Crash];
    EditOrphansTail(cfg, s4);
    ExecAppend(cfg, s, [a1, a2, a3, Crash], s4, [LOOK, Clear(Applied)]);
    assert [a1, a2, a3, Crash] + [LOOK, Clear(Applied)] == [a1, a2, a3, Crash, LOOK, Clear(Applied)];
  }

  lemma EditOrphansTail(cfg: Config, s: State)
    requires s.pc.Idle? && s.world.request.Some? && s.world.progress.Stored?
    requires s.world.progress.progress.request != s.world.request.value
    ensures Exec(cfg, s, [LOOK, Clear(Applied)]) == Some(State(ClearRequest(s.world, Applied), Idle))
  {
    var s1 := Next(cfg, s, LOOK);
    ExecStep(cfg, s, [], s, LOOK);
    assert [] + [LOOK] == [LOOK];
    ExecStep(cfg, s, [LOOK], s1, Clear(Applied));
    assert [LOOK] + [Clear(Applied)] == [LOOK, Clear(Applied)];
  }
}
