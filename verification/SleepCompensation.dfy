/**
 Compensation across reconciles and crashes: the accepted list only ever loses
 shards. Forward progress, left undisturbed, ends in the finalizing checkpoint.
 */
module SleepCompensation {
  import opened Common
  import opened SleepMachine
  import opened SleepSafety

  /** Compensation of the transaction recorded as `p0` is under way; nothing but wakes remains to be done. */
  ghost predicate Retrying(s: State, p0: Progress) {
    && s.world.progress.Stored?
    && s.world.request == Some(p0.request) && p0.request.parses && p0.phase.Compensating?
    && var p := s.world.progress.progress;
    && p == p0.(accepted := p.accepted)
    && Subsequence(p.accepted, p0.accepted)
    && (match s.pc
        case Idle => true
        case Finishing => true
        case Connecting(q) => q == p
        case Waking(q, _, i, remaining) =>
          q == p && i <= |q.accepted| && Subsequence(remaining, q.accepted[..i])
        case Saving(q) =>
          q == p.(accepted := q.accepted) && Subsequence(q.accepted, p.accepted)
        case _ => false)
  }

  predicate Cleared(w: World) {
    w.request.None? && w.progress.Absent?
  }

  lemma RetryStep(cfg: Config, s: State, p0: Progress, a: Action)
    requires Retrying(s, p0) && Enabled(cfg, s, a) && Disciplined(s, a)
    ensures Retrying(Next(cfg, s, a), p0) || Cleared(Next(cfg, s, a).world)
  {
    match a
    case WakeCall(_, confirmed) =>
      var accepted, i := s.pc.p.accepted, s.pc.i;
      assert accepted[..i + 1] == accepted[..i] + [accepted[i]];
      SubsequenceSnoc(s.pc.remaining, accepted[..i], accepted[i]);
    case EndWakes =>
      assert s.pc.p.accepted[..s.pc.i] == s.pc.p.accepted;
    case Save(_) =>
      SubsequenceTrans(s.pc.p.accepted, s.world.progress.progress.accepted, p0.accepted);
    case _ =>
  }

  /** Some prefix of the run clears both annotations. */
  ghost predicate ClearedAlong(cfg: Config, s: State, actions: seq<Action>) {
    exists k :: 0 <= k <= |actions| && Exec(cfg, s, actions[..k]).Some?
        && Cleared(Exec(cfg, s, actions[..k]).value.world)
  }

  /**
   Across any retries, crashes and lost replies, the accepted shards of a
   transaction that compensates are some of those it started with, in their
   order, until the transaction is cleared.
   */
  lemma {:induction false} RetryNeverGrows(cfg: Config, s: State, p0: Progress, actions: seq<Action>, t: State)
    requires Retrying(s, p0)
    requires DisciplinedRun(cfg, s, actions) && Exec(cfg, s, actions) == Some(t)
    ensures Retrying(t, p0) || ClearedAlong(cfg, s, actions)
    decreases |actions|
  {
    if actions != [] {
      var k := |actions| - 1;
      var m := Exec(cfg, s, actions[..k]).value;
      RetryNeverGrows(cfg, s, p0, actions[..k], m);
      if ClearedAlong(cfg, s, actions[..k]) {
        var j :| 0 <= j <= k && Exec(cfg, s, actions[..k][..j]).Some? &&
          Cleared(Exec(cfg, s, actions[..k][..j]).value.world);
        assert actions[..k][..j] == actions[..j];
      } else {
        RetryStep(cfg, m, p0, actions[k]);
        assert actions[..|actions|] == actions;
      }
    }
  }

  /**
   So compensation, once recorded, only ever shrinks: at any later time it is cleared or
   some of its shards are left, in order.
   */
  lemma CompensationOnlyShrinks(cfg: Config, s: State, actions: seq<Action>, t: State)
    requires Inv(cfg, s) && s.pc.Idle? && s.world.progress.Stored? && s.world.progress.progress.phase.Compensating?
    requires DisciplinedRun(cfg, s, actions) && Exec(cfg, s, actions) == Some(t)
    ensures || ClearedAlong(cfg, s, actions)
            || (&& t.world.request == s.world.request && t.world.progress.Stored?
                && t.world.progress.progress.phase.Compensating?
                && Subsequence(t.world.progress.progress.accepted, s.world.progress.progress.accepted))
  {
    SubsequenceSelf(s.world.progress.progress.accepted);
    RetryNeverGrows(cfg, s, s.world.progress.progress, actions, t);
  }

  // ----- undisturbed forward progress -----

  function ShardActions(last: bool): seq<Action> {
    if last then [Checkpoint(Applied), SleepCall(true, Affirmed)]
    else [Checkpoint(Applied), SleepCall(true, Affirmed), Mark(Applied)]
  }

  /** The actions of a forward pass in which every shard affirms, from loop index `i` on. */
  function ForwardActions(n: nat, i: nat): seq<Action>
    requires i < n
    decreases n - i
  {
    if i == n - 1 then ShardActions(true) else ShardActions(false) + ForwardActions(n, i + 1)
  }

  lemma OneShardForward(cfg: Config, w: World, order: seq<Shard>, i: nat, p: Progress)
    requires NoDup(order) && i < |order| && order[i] !in p.accepted
    ensures var t := Exec(cfg, State(w, Looping(order, i, p)), ShardActions(i == |order| - 1));
            && t.Some?
            && t.value.world.asleep == w.asleep + {order[i]}
            && t.value.world.request == w.request
            && if i == |order| - 1
               then t.value.pc.Idle? &&
                    t.value.world.progress == Stored(p.(phase := Finalizing, finalShard := order[i]))
               else t.value.pc == Looping(order, i + 1, p.(phase := Sleeping, accepted := p.accepted + [order[i]]))
                    && t.value.world.progress == Stored(t.value.pc.p)
  {
    var s := State(w, Looping(order, i, p));
    var a1, a2 := Checkpoint(Applied), SleepCall(true, Affirmed);
    var s1 := Next(cfg, s, a1);
    ExecStep(cfg, s, [], s, a1);
    assert [] + [a1] == [a1];
    var s2 := Next(cfg, s1, a2);
    ExecStep(cfg, s, [a1], s1, a2);
    assert [a1] + [a2] == [a1, a2];
    if i < |order| - 1 {
      ExecStep(cfg, s, [a1, a2], s2, Mark(Applied));
      assert [a1, a2] + [Mark(Applied)] == [a1, a2, Mark(Applied)];
    }
  }

  /**
   With every connected shard affirming, a fresh transaction ends with the
   finalizing checkpoint stored: the coordinating shard recorded as final, all
   others accepted in loop order, and every connected shard asleep.
   */
  lemma {:induction false} ForwardCompletes(cfg: Config, w: World, order: seq<Shard>, i: nat, p: Progress)
    requires NoDup(order) && i < |order| && p.phase.Sleeping? && p.accepted == order[..i]
    ensures var t := Exec(cfg, State(w, Looping(order, i, p)), ForwardActions(|order|, i));
            && t.Some? && t.value.pc.Idle?
            && t.value.world.request == w.request
            && t.value.world.progress ==
               Stored(p.(phase := Finalizing, accepted := order[..|order| - 1], finalShard := order[|order| - 1]))
            && t.value.world.asleep == w.asleep + Elems(order[i..])
    decreases |order| - i
  {
    var s := State(w, Looping(order, i, p));
    OneShardForward(cfg, w, order, i, p);
    var m := Exec(cfg, s, ShardActions(i == |order| - 1)).value;
    hide Exec, ShardActions;
    assert order[i..] == [order[i]] + order[i + 1..];
    if i == |order| - 1 {
      assert Elems(order[i..]) == {order[i]};
    } else {
      assert order[..i + 1] == order[..i] + [order[i]];
      ForwardCompletes(cfg, m.world, order, i + 1, m.pc.p);
      ExecAppend(cfg, s, ShardActions(false), m, ForwardActions(|order|, i + 1));
    }
  }
}
