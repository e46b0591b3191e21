/**
 What one retry of a compensation leaves for any answers of the shards, and why
 retries end: each one that is confirmed by a shard and recorded leaves fewer
 shards to wake, whatever attempts fail in between.
 */
module SleepRetries {
  import opened Common
  import opened SleepMachine
  import opened SleepSafety
  import opened SleepCompensation

  // ----- the filter -----

  /** The shards whose wake was not confirmed, in their order. */
  function Kept(accepted: seq<Shard>, confirmed: seq<bool>): seq<Shard>
    requires |accepted| == |confirmed|
  {
    if accepted == [] then []
    else
      var n := |accepted| - 1;
      var before := Kept(accepted[..n], confirmed[..n]);
      if confirmed[n] then before else before + [accepted[n]]
  }

  lemma KeptNext(accepted: seq<Shard>, confirmed: seq<bool>, yes: bool)
    requires |confirmed| < |accepted|
    ensures var n, before := |confirmed|, Kept(accepted[..|confirmed|], confirmed);
      Kept(accepted[..n + 1], confirmed + [yes]) == if yes then before else before + [accepted[n]]
  {
    var n := |confirmed|;
    assert accepted[..n + 1][..n] == accepted[..n] && (confirmed + [yes])[..n] == confirmed;
  }

  /** Exactly the unconfirmed shards are kept, in order; one fewer for each confirmation. */
  lemma {:induction false} KeptExactly(accepted: seq<Shard>, confirmed: seq<bool>)
    requires |accepted| == |confirmed|
    ensures forall x :: x in Kept(accepted, confirmed) <==>
      exists i :: 0 <= i < |accepted| && accepted[i] == x && !confirmed[i]
    ensures Subsequence(Kept(accepted, confirmed), accepted)
    ensures |Kept(accepted, confirmed)| <= |accepted|
    ensures |Kept(accepted, confirmed)| < |accepted| <==> exists i :: 0 <= i < |accepted| && confirmed[i]
    ensures Kept(accepted, confirmed) == [] <==> forall i :: 0 <= i < |accepted| ==> confirmed[i]
  {
    if accepted != [] {
      var n := |accepted| - 1;
      KeptExactly(accepted[..n], confirmed[..n]);
      SubsequenceSnoc(Kept(accepted[..n], confirmed[..n]), accepted[..n], accepted[n]);
      assert accepted == accepted[..n] + [accepted[n]] && confirmed == confirmed[..n] + [confirmed[n]];
      assert confirmed[n] ==> exists i :: 0 <= i < |accepted| && confirmed[i];
    }
  }

  // ----- the wake calls of one retry -----

  /** The answers the wake calls of a run got. */
  function Confirmations(actions: seq<Action>): seq<bool> {
    if actions == [] then []
    else
      var before, last := Confirmations(actions[..|actions| - 1]), actions[|actions| - 1];
      if last.WakeCall? then before + [last.confirmed] else before
  }

  predicate WakesOnly(a: Action) {
    a.WakeCall? || a.ShardWakes? || a.ShardSleeps?
  }

  lemma WakeStep(cfg: Config, m: State, p: Progress, connected: set<Shard>, flags: seq<bool>, a: Action)
    requires |flags| <= |p.accepted| && m.pc == Waking(p, connected, |flags|, Kept(p.accepted[..|flags|], flags))
    requires a.WakeCall? && Enabled(cfg, m, a)
    ensures |flags| < |p.accepted|
    ensures Next(cfg, m, a).pc ==
      Waking(p, connected, |flags| + 1, Kept(p.accepted[..|flags| + 1], flags + [a.confirmed]))
    ensures Next(cfg, m, a).world.request == m.world.request && Next(cfg, m, a).world.progress == m.world.progress
  {
    hide Kept;
    KeptNext(p.accepted, flags, a.confirmed);
  }

  /**
   Whatever the shards answer, connected or not, with or without effect, and
   whatever they do meanwhile: the wake calls leave exactly the unconfirmed shards.
   */
  lemma {:induction false} WakesLeaveUnconfirmed(cfg: Config, s: State, p: Progress, connected: set<Shard>,
                                                 actions: seq<Action>, t: State)
    requires s.pc == Waking(p, connected, 0, []) && Exec(cfg, s, actions) == Some(t)
    requires forall i :: 0 <= i < |actions| ==> WakesOnly(actions[i])
    ensures var n := |Confirmations(actions)|;
      && n <= |p.accepted| && t.pc == Waking(p, connected, n, Kept(p.accepted[..n], Confirmations(actions)))
      && t.world.request == s.world.request && t.world.progress == s.world.progress
    decreases |actions|
  {
    if actions == [] {
      assert p.accepted[..0] == [];
    } else {
      var k := |actions| - 1;
      var m := Exec(cfg, s, actions[..k]).value;
      WakesLeaveUnconfirmed(cfg, s, p, connected, actions[..k], m);
      hide Kept;
      if actions[k].WakeCall? {
        WakeStep(cfg, m, p, connected, Confirmations(actions[..k]), actions[k]);
      }
    }
  }

  // ----- the controller's own steps in a run -----

  /** A run without what the shards do on their own account. */
  function Own(actions: seq<Action>): seq<Action> {
    if actions == [] then []
    else
      var before, last := Own(actions[..|actions| - 1]), actions[|actions| - 1];
      if last.ShardWakes? || last.ShardSleeps? then before else before + [last]
  }

  /** The states agree on the annotations and on what the controller does next. */
  predicate SameControl(s: State, t: State) {
    s.pc == t.pc && s.world.request == t.world.request && s.world.progress == t.world.progress
  }

  lemma ControlDecides(cfg: Config, s: State, t: State, a: Action)
    requires SameControl(s, t) && Enabled(cfg, s, a)
    ensures Enabled(cfg, t, a) && SameControl(Next(cfg, s, a), Next(cfg, t, a))
  {
  }

  /** The shards' own doings change nothing about what the controller does. */
  lemma {:induction false} OwnSteps(cfg: Config, s: State, actions: seq<Action>, t: State) returns (t': State)
    requires Exec(cfg, s, actions) == Some(t)
    ensures Exec(cfg, s, Own(actions)) == Some(t') && SameControl(t, t')
    decreases |actions|
  {
    if actions == [] {
      t' := s;
    } else {
      var k := |actions| - 1;
      var m := Exec(cfg, s, actions[..k]).value;
      var m' := OwnSteps(cfg, s, actions[..k], m);
      if actions[k].ShardWakes? || actions[k].ShardSleeps? {
        t' := m';
      } else {
        ControlDecides(cfg, m, m', actions[k]);
        ExecStep(cfg, s, Own(actions[..k]), m', actions[k]);
        t' := Next(cfg, m', actions[k]);
      }
    }
  }

  lemma {:induction false} ExecSplit(cfg: Config, s: State, first: seq<Action>, second: seq<Action>)
    requires Exec(cfg, s, first + second).Some?
    ensures Exec(cfg, s, first).Some? && Exec(cfg, s, first + second) == Exec(cfg, Exec(cfg, s, first).value, second)
    decreases |second|
  {
    if second == [] {
      assert first + second == first;
    } else {
      var k := |second| - 1;
      assert (first + second)[..|first + second| - 1] == first + second[..k];
      ExecSplit(cfg, s, first, second[..k]);
    }
  }

  lemma ExecFirst(cfg: Config, s: State, a: Action, rest: seq<Action>)
    requires Exec(cfg, s, [a] + rest).Some?
    ensures Enabled(cfg, s, a) && Exec(cfg, s, [a] + rest) == Exec(cfg, Next(cfg, s, a), rest)
  {
    ExecSplit(cfg, s, [a], rest);
    assert [a][..0] == [];
  }

  // ----- one retry -----

  /** A retry: look, connect, wake every accepted shard with the given answers, and store the rest or clear. */
  datatype Retry = Retry(look: Action, connected: set<Shard>, wakes: seq<Action>, store: Action)

  function Steps(r: Retry): seq<Action> {
    [r.look] + ([Connect(r.connected)] + (r.wakes + ([EndWakes] + [r.store])))
  }

  /** Its last step takes effect, seen or not, and some shard confirmed. */
  ghost predicate Effective(r: Retry) {
    && r.look.Begin? && (forall i :: 0 <= i < |r.wakes| ==> r.wakes[i].WakeCall?)
    && (r.store.Save? || r.store.Clear?) && !r.store.outcome.Failed?
    && true in Confirmations(r.wakes)
  }

  /** Compensation is recorded. */
  predicate Recorded(s: State) {
    && s.world.progress.Stored? && s.world.progress.progress.phase.Compensating?
    && s.world.request == Some(s.world.progress.progress.request) && s.world.progress.progress.request.parses
  }

  function Left(s: State): seq<Shard>
    requires Recorded(s)
  {
    s.world.progress.progress.accepted
  }

  /** What the steps of a retry leave: the unconfirmed shards on record, or nothing at all if there are none. */
  lemma RetryLeaves(cfg: Config, s: State, r: Retry, t: State)
    requires Recorded(s) && r.look.Begin? && (forall i :: 0 <= i < |r.wakes| ==> r.wakes[i].WakeCall?)
    requires (r.store.Save? || r.store.Clear?) && !r.store.outcome.Failed?
    requires Exec(cfg, s, Steps(r)) == Some(t)
    ensures |Confirmations(r.wakes)| == |Left(s)|
    ensures var kept := Kept(Left(s), Confirmations(r.wakes));
      if kept == [] then Cleared(t.world) else Recorded(t) && Left(t) == kept
    ensures t.pc.Idle?
  {
    var p := s.world.progress.progress;
    var tail := [EndWakes] + [r.store];
    ExecFirst(cfg, s, r.look, [Connect(r.connected)] + (r.wakes + tail));
    var s1 := Next(cfg, s, r.look);
    assert s1.pc == Connecting(p);
    ExecFirst(cfg, s1, Connect(r.connected), r.wakes + tail);
    var s2 := Next(cfg, s1, Connect(r.connected));
    ExecSplit(cfg, s2, r.wakes, tail);
    var s3 := Exec(cfg, s2, r.wakes).value;
    WakesLeaveUnconfirmed(cfg, s2, p, r.connected, r.wakes, s3);
    ExecFirst(cfg, s3, EndWakes, [r.store]);
    var s4 := Next(cfg, s3, EndWakes);
    assert [r.store] + [] == [r.store];
    ExecFirst(cfg, s4, r.store, []);
    assert p.accepted[..|p.accepted|] == p.accepted;
  }

  /** A run that is, the shards' own doings aside, an effective retry. */
  ghost predicate Retries(actions: seq<Action>) {
    exists r :: Effective(r) && Own(actions) == Steps(r)
  }

  /** An effective retry clears the request or leaves strictly fewer shards. */
  lemma RetryShrinks(cfg: Config, s: State, actions: seq<Action>, t: State)
    requires Recorded(s) && Exec(cfg, s, actions) == Some(t) && Retries(actions)
    ensures Cleared(t.world) || (Recorded(t) && |Left(t)| < |Left(s)|)
  {
    var r :| Effective(r) && Own(actions) == Steps(r);
    var t' := OwnSteps(cfg, s, actions, t);
    RetryLeaves(cfg, s, r, t');
    KeptExactly(Left(s), Confirmations(r.wakes));
  }

  // ----- a retry is always possible -----

  /**
   Answers the shards can give: an unconnected one is not called, and a confirmation
   reports a shard that is awake.
   */
  ghost predicate WellAnswered(accepted: seq<Shard>, connected: set<Shard>, wakes: seq<Action>) {
    && |wakes| == |accepted| && (forall i :: 0 <= i < |wakes| ==> wakes[i].WakeCall?)
    && (forall i :: 0 <= i < |wakes| && accepted[i] !in connected ==> !wakes[i].effect && !wakes[i].confirmed)
    && (forall i :: 0 <= i < |wakes| && wakes[i].confirmed ==> wakes[i].effect)
  }

  /** The shards that the first `n` wake calls woke, confirmed or not. */
  function Woken(accepted: seq<Shard>, wakes: seq<Action>, n: nat): set<Shard>
    requires n <= |wakes| == |accepted| && forall i :: 0 <= i < |wakes| ==> wakes[i].WakeCall?
  {
    if n == 0 then {}
    else Woken(accepted, wakes, n - 1) + if wakes[n - 1].effect then {accepted[n - 1]} else {}
  }

  lemma {:induction false} AllWoken(accepted: seq<Shard>, wakes: seq<Action>, n: nat)
    requires n <= |wakes| == |accepted| && forall i :: 0 <= i < |wakes| ==> wakes[i].WakeCall? && wakes[i].effect
    ensures Woken(accepted, wakes, n) == Elems(accepted[..n])
  {
    if n > 0 {
      AllWoken(accepted, wakes, n - 1);
      assert accepted[..n] == accepted[..n - 1] + [accepted[n - 1]];
    }
  }

  function Without(w: World, shards: set<Shard>): World {
    w.(asleep := w.asleep - shards, slept := w.slept - shards, orphaned := w.orphaned - shards)
  }

  lemma WakeLeaves(cfg: Config, m: State, woken: set<Shard>, a: Action, w: World)
    requires m.world == Without(w, woken) && a.WakeCall? && Enabled(cfg, m, a)
    ensures var shard := m.pc.p.accepted[m.pc.i];
      Next(cfg, m, a).world == Without(w, woken + if a.effect then {shard} else {})
  {
  }

  lemma {:induction false} WakesPossible(cfg: Config, w: World, p: Progress, connected: set<Shard>, wakes: seq<Action>,
                                         n: nat)
    requires WellAnswered(p.accepted, connected, wakes) && n <= |wakes|
    ensures var t := Exec(cfg, State(w, Waking(p, connected, 0, [])), wakes[..n]);
      t.Some? && t.value.world == Without(w, Woken(p.accepted, wakes, n)) && t.value.pc.Waking? && t.value.pc.i == n
              && t.value.pc.p == p && t.value.pc.connected == connected
  {
    var s := State(w, Waking(p, connected, 0, []));
    if n == 0 {
      assert wakes[..0] == [];
    } else {
      WakesPossible(cfg, w, p, connected, wakes, n - 1);
      var m := Exec(cfg, s, wakes[..n - 1]).value;
      assert wakes[..n] == wakes[..n - 1] + [wakes[n - 1]];
      hide Exec, Woken;
      WakeLeaves(cfg, m, Woken(p.accepted, wakes, n - 1), wakes[n - 1], w);
      ExecStep(cfg, s, wakes[..n - 1], m, wakes[n - 1]);
    }
  }

  /** From any recorded compensation a retry can run to its end, whatever answers come, and wakes what they say. */
  lemma RetryPossible(cfg: Config, s: State, connected: set<Shard>, wakes: seq<Action>) returns (r: Retry, t: State)
    requires Recorded(s) && s.pc.Idle? && connected <= cfg.shards && WellAnswered(Left(s), connected, wakes)
    ensures r.look.Begin? && r.connected == connected && r.wakes == wakes
    ensures (r.store.Save? || r.store.Clear?) && r.store.outcome.Applied?
    ensures Exec(cfg, s, Steps(r)) == Some(t)
    ensures t.world.asleep == s.world.asleep - Woken(Left(s), wakes, |wakes|)
    ensures Cleared(t.world) ==> r.store.Clear?
    ensures Cleared(t.world) ==>
      t.world.orphaned == (s.world.orphaned + s.world.slept) - Woken(Left(s), wakes, |wakes|)
  {
    var p := s.world.progress.progress;
    var s1 := Next(cfg, s, LOOK);
    var s2 := Next(cfg, s1, Connect(connected));
    WakesPossible(cfg, s.world, p, connected, wakes, |wakes|);
    assert wakes[..|wakes|] == wakes;
    var s3 := Exec(cfg, s2, wakes).value;
    var s4 := Next(cfg, s3, EndWakes);
    r := Retry(LOOK, connected, wakes, if s4.pc.Finishing? then Clear(Applied) else Save(Applied));
    t := Next(cfg, s4, r.store);
    ExecCons(cfg, s4, r.store, [], t);
    assert [r.store] + [] == [r.store];
    ExecCons(cfg, s3, EndWakes, [r.store], t);
    ExecAppend(cfg, s2, wakes, s3, [EndWakes] + [r.store]);
    ExecCons(cfg, s1, Connect(connected), wakes + ([EndWakes] + [r.store]), t);
    ExecCons(cfg, s, LOOK, [Connect(connected)] + (wakes + ([EndWakes] + [r.store])), t);
  }

  lemma ExecCons(cfg: Config, s: State, a: Action, rest: seq<Action>, t: State)
    requires Enabled(cfg, s, a) && Exec(cfg, Next(cfg, s, a), rest) == Some(t)
    ensures Exec(cfg, s, [a] + rest) == Some(t)
  {
    ExecStep(cfg, s, [], s, a);
    assert [] + [a] == [a];
    ExecAppend(cfg, s, [a], Next(cfg, s, a), rest);
  }

  /** If every accepted shard confirms, one retry clears the request and leaves none of them asleep. */
  lemma CompensationCompletes(cfg: Config, s: State, connected: set<Shard>, wakes: seq<Action>)
    returns (r: Retry, t: State)
    requires Inv(cfg, s) && s.pc.Idle? && connected <= cfg.shards && Recorded(s)
    requires WellAnswered(Left(s), connected, wakes)
    requires forall i :: 0 <= i < |wakes| ==> wakes[i].confirmed
    ensures Exec(cfg, s, Steps(r)) == Some(t) && r == Retry(r.look, connected, wakes, Clear(Applied)) && r.look.Begin?
    ensures t.pc.Idle? && Cleared(t.world) && t.world.orphaned == {}
    ensures t.world.asleep == s.world.asleep - Elems(Left(s))
  {
    r, t := RetryPossible(cfg, s, connected, wakes);
    RetryLeaves(cfg, s, r, t);
    ConfirmationsOf(wakes, |wakes|);
    assert wakes[..|wakes|] == wakes;
    KeptExactly(Left(s), Confirmations(wakes));
    AllWoken(Left(s), wakes, |wakes|);
    assert Left(s)[..|wakes|] == Left(s);
  }

  lemma {:induction false} ConfirmationsOf(wakes: seq<Action>, n: nat)
    requires n <= |wakes| && forall i :: 0 <= i < |wakes| ==> wakes[i].WakeCall?
    ensures |Confirmations(wakes[..n])| == n && forall i :: 0 <= i < n ==>
      Confirmations(wakes[..n])[i] == wakes[i].confirmed
  {
    if n > 0 {
      ConfirmationsOf(wakes, n - 1);
      assert wakes[..n][..n - 1] == wakes[..n - 1];
    }
  }

  // ----- any number of attempts -----

  /** The runs follow one another from `s`, each keeping the rule on edits. */
  ghost predicate Follow(cfg: Config, s: State, runs: seq<seq<Action>>)
    decreases |runs|
  {
    runs != [] ==>
      && Exec(cfg, s, runs[0]).Some? && DisciplinedRun(cfg, s, runs[0])
      && Follow(cfg, Exec(cfg, s, runs[0]).value, runs[1..])
  }

  function Joined(runs: seq<seq<Action>>): seq<Action> {
    if runs == [] then [] else runs[0] + Joined(runs[1..])
  }

  /** How many of the runs are effective retries. */
  ghost function Effectives(runs: seq<seq<Action>>): nat {
    if runs == [] then 0 else (if Retries(runs[0]) then 1 else 0) + Effectives(runs[1..])
  }

  lemma ClearedInJoined(cfg: Config, s: State, first: seq<Action>, second: seq<Action>)
    requires Exec(cfg, s, first).Some?
    requires ClearedAlong(cfg, s, first) || ClearedAlong(cfg, Exec(cfg, s, first).value, second)
    ensures ClearedAlong(cfg, s, first + second)
  {
    var m := Exec(cfg, s, first).value;
    if ClearedAlong(cfg, s, first) {
      var k :| 0 <= k <= |first| && Exec(cfg, s, first[..k]).Some? && Cleared(Exec(cfg, s, first[..k]).value.world);
      assert (first + second)[..k] == first[..k];
    } else {
      var k :| 0 <= k <= |second| && Exec(cfg, m, second[..k]).Some? && Cleared(Exec(cfg, m, second[..k]).value.world);
      ExecAppend(cfg, s, first, m, second[..k]);
      assert (first + second)[..|first| + k] == first + second[..k];
    }
  }

  lemma {:induction false} SubsequenceLength<T>(small: seq<T>, big: seq<T>)
    requires Subsequence(small, big)
    ensures |small| <= |big|
    decreases |big|
  {
    if small != [] {
      if Subsequence(small, big[1..]) {
        SubsequenceLength(small, big[1..]);
      } else {
        SubsequenceLength(small[1..], big[1..]);
      }
    }
  }

  /** Between reconciles or in the middle of one, with nothing but this compensation under way. */
  ghost predicate UnderWay(s: State) {
    s.world.progress.Stored? && Retrying(s, s.world.progress.progress)
  }

  /**
   One more run of attempts: cleared along it, or still under way with no more shards
   left, fewer after an effective retry.
   */
  lemma AttemptsShrink(cfg: Config, s: State, actions: seq<Action>, t: State)
    requires UnderWay(s) && Exec(cfg, s, actions) == Some(t) && DisciplinedRun(cfg, s, actions)
    ensures || ClearedAlong(cfg, s, actions)
            || (UnderWay(t) && |Left(t)| <= |Left(s)| && (Retries(actions) ==> |Left(t)| < |Left(s)|))
  {
    var p := s.world.progress.progress;
    RetryNeverGrows(cfg, s, p, actions, t);
    if !ClearedAlong(cfg, s, actions) {
      SubsequenceLength(Left(t), Left(s));
      SubsequenceSelf(Left(t));
      assert actions[..|actions|] == actions;
      if Retries(actions) {
        RetryShrinks(cfg, s, actions, t);
      }
    }
  }

  /**
   Compensation ends: whatever attempts crash, fail to store or are answered by
   nobody in between, as many effective retries as there are shards left clear it.
   */
  lemma {:induction false} RetriesClear(cfg: Config, s: State, runs: seq<seq<Action>>)
    requires UnderWay(s) && Follow(cfg, s, runs)
    requires Effectives(runs) >= |Left(s)| && Effectives(runs) > 0
    ensures ClearedAlong(cfg, s, Joined(runs))
    decreases |runs|
  {
    var m := Exec(cfg, s, runs[0]).value;
    AttemptsShrink(cfg, s, runs[0], m);
    if !ClearedAlong(cfg, s, runs[0]) {
      if Retries(runs[0]) {
        RetryLeavesSome(cfg, s, runs[0], m);
      }
      RetriesClear(cfg, m, runs[1..]);
    }
    ClearedInJoined(cfg, s, runs[0], Joined(runs[1..]));
  }

  /** An effective retry that did not clear the request left a shard. */
  lemma RetryLeavesSome(cfg: Config, s: State, actions: seq<Action>, t: State)
    requires UnderWay(s) && Exec(cfg, s, actions) == Some(t) && UnderWay(t)
    requires Retries(actions)
    ensures Left(t) != []
  {
    var r :| Effective(r) && Own(actions) == Steps(r);
    var t' := OwnSteps(cfg, s, actions, t);
    RetryLeaves(cfg, s, r, t');
  }
}
