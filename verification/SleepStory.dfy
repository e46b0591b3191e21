/**
 What one reconcile does, told from outside: the annotations it writes, the shards
 it calls and the order it does so in, given what it was told. The story is written
 down without looking into the controller, and every run of the machine tells it.
 */
module SleepStory {
  import opened Common
  import opened SleepMachine
  import opened SleepSafety
  import opened SleepCompensation
  import opened SleepRetries

  /** One thing asked of the Cluster object or of a shard, with its answer. */
  datatype Deed =
    | Requests(stamp: Request, outcome: Outcome)
    | Stores(annotation: Annotation, outcome: Outcome)
    | Calls(shard: Shard, reply: Reply)
    | Connects(reachable: set<Shard>)
    | Wakes(shard: Shard, confirmed: bool)
    | Clears(outcome: Outcome)

  // ----- the stories -----

  /** The record is written; the rest happens only if the write is seen to succeed. */
  ghost predicate Writes(p: Progress, deeds: seq<Deed>) {
    && deeds != [] && deeds[0].Stores? && deeds[0].annotation == Stored(p)
    && (!deeds[0].outcome.Applied? ==> |deeds| == 1)
  }

  ghost predicate Removes(deeds: seq<Deed>) {
    |deeds| == 1 && deeds[0].Clears?
  }

  /**
   The accepted shards from the `i`-th on are woken in their order, those not connected are skipped;
   at last the shards that did not confirm are put on record, or the request is removed if all did.
   */
  ghost predicate WakesRest(p: Progress, reachable: set<Shard>, i: nat, remaining: seq<Shard>, deeds: seq<Deed>)
    decreases |p.accepted| - i
  {
    if i >= |p.accepted| then
      if remaining == [] then Removes(deeds)
      else |deeds| == 1 && Writes(p.(accepted := remaining), deeds)
    else if p.accepted[i] !in reachable then
      WakesRest(p, reachable, i + 1, remaining + [p.accepted[i]], deeds)
    else
      && deeds != [] && deeds[0].Wakes? && deeds[0].shard == p.accepted[i]
      && WakesRest(p, reachable, i + 1, if deeds[0].confirmed then remaining else remaining + [p.accepted[i]],
                   deeds[1..])
  }

  ghost predicate Undoes(p: Progress, deeds: seq<Deed>) {
    deeds != [] && deeds[0].Connects? && WakesRest(p, deeds[0].reachable, 0, [], deeds[1..])
  }

  /** The record of the shards to wake is written, and they are woken. */
  ghost predicate Restores(p: Progress, deeds: seq<Deed>) {
    Writes(p, deeds) && (deeds[0].outcome.Applied? ==> Undoes(p, deeds[1..]))
  }

  /**
   The shards from the `i`-th on, but for those accepted before, are put to sleep in their order. Each
   call is preceded by a record that says what to undo: this shard too, or, for the last, all of them.
   An affirmed call is followed by a record of progress, any other answer by compensation, except that
   nothing is undone when the last call fails, for then the shard may be asleep and so may be all.
   */
  ghost predicate PutsToSleep(order: seq<Shard>, i: nat, p: Progress, deeds: seq<Deed>)
    decreases |order| - i
  {
    if i >= |order| then deeds == []
    else if order[i] in p.accepted then PutsToSleep(order, i + 1, p, deeds)
    else
      var shard := order[i];
      if shard == order[|order| - 1] then
        && Writes(p.(phase := Finalizing, finalShard := shard), deeds)
        && (deeds[0].outcome.Applied? ==>
              && |deeds| >= 2 && deeds[1].Calls? && deeds[1].shard == shard
              && if deeds[1].reply.Refused?
                 then Restores(Progress(p.request, Compensating, p.accepted + [shard], shard), deeds[2..])
                 else |deeds| == 2)
      else
        var accepted := p.accepted + [shard];
        && Writes(p.(phase := Compensating, accepted := accepted), deeds)
        && (deeds[0].outcome.Applied? ==>
              && |deeds| >= 2 && deeds[1].Calls? && deeds[1].shard == shard
              && if deeds[1].reply.Affirmed? then
                   && Writes(p.(phase := Sleeping, accepted := accepted), deeds[2..])
                   && (deeds[2].outcome.Applied? ==>
                         PutsToSleep(order, i + 1, p.(phase := Sleeping, accepted := accepted), deeds[3..]))
                 else Restores(p.(phase := Compensating, accepted := accepted), deeds[2..]))
  }

  /** The record a request is at: none yet, or the one stored for it; other text is not a record of it. */
  ghost predicate At(w: World, p: Progress) {
    && w.request == Some(p.request) && p.request.parses
    && (w.progress == Stored(p) || (w.progress.Absent? && p == Progress(p.request, Sleeping, [], "")))
    && (p.phase.Finalizing? ==> p.finalShard != "")
  }

  /**
   One reconcile, told what `b` says. An idle cluster is asked to sleep; a request that is malformed or
   has no proper record is removed. After the last shard was put to sleep, all configured shards are
   woken once one of them is seen awake. A recorded compensation goes on. A request that is neither
   forced nor eligible is undone, or removed if it did nothing yet; any other goes forward.
   */
  ghost predicate Story(w: World, b: Action, deeds: seq<Deed>)
    requires b.Begin?
  {
    && (w.request.None? ==>
          if b.connected.Some? && b.eligible
          then |deeds| == 1 && deeds[0].Requests? && !deeds[0].stamp.force && deeds[0].stamp.parses
          else deeds == [])
    && (w.request.Some? && (forall p :: !At(w, p)) ==> Removes(deeds))
    && (forall p :: At(w, p) ==>
          match p.phase
          case Finalizing =>
            if b.connected.Some? && b.allAsleep == Some(false)
            then Restores(p.(phase := Compensating, accepted := b.order), deeds)
            else deeds == []
          case Compensating => Undoes(p, deeds)
          case Sleeping =>
            if b.connected.None? then deeds == []
            else if p.request.force || b.eligible then
              if b.coordinator.Some? then PutsToSleep(b.order, 0, p, deeds) else deeds == []
            else if p.accepted == [] then Removes(deeds)
            else Restores(p.(phase := Compensating), deeds))
  }

  // ----- what a run of the machine does -----

  /** The same write, seen to succeed. */
  function Succeeding(a: Action): Action {
    match a
    case Checkpoint(_) => Checkpoint(Applied)
    case Mark(_) => Mark(Applied)
    case StoreCompensating(_) => StoreCompensating(Applied)
    case Save(_) => Save(Applied)
    case _ => a
  }

  ghost function DeedsOf(cfg: Config, s: State, a: Action): seq<Deed>
    requires Enabled(cfg, s, a)
  {
    match a
    case PatchRequest(outcome, stamp) => [Requests(stamp, outcome)]
    case Checkpoint(outcome) => [Stores(Next(cfg, s, Succeeding(a)).world.progress, outcome)]
    case Mark(outcome) => [Stores(Next(cfg, s, Succeeding(a)).world.progress, outcome)]
    case StoreCompensating(outcome) => [Stores(Next(cfg, s, Succeeding(a)).world.progress, outcome)]
    case Save(outcome) => [Stores(Next(cfg, s, Succeeding(a)).world.progress, outcome)]
    case SleepCall(_, reply) => var calls := Next(cfg, s, a).world.calls; [Calls(calls[|calls| - 1].shard, reply)]
    case Connect(reachable) => [Connects(reachable)]
    case WakeCall(_, confirmed) =>
      var shard := s.pc.p.accepted[s.pc.i];
      if shard in s.pc.connected then [Wakes(shard, confirmed)] else []
    case Clear(outcome) => [Clears(outcome)]
    case _ => []
  }

  ghost function Deeds(cfg: Config, s: State, actions: seq<Action>): seq<Deed>
    decreases |actions|
  {
    if actions == [] || !Enabled(cfg, s, actions[0]) then []
    else DeedsOf(cfg, s, actions[0]) + Deeds(cfg, Next(cfg, s, actions[0]), actions[1..])
  }

  /** What is still to be told, by where the controller is. */
  ghost predicate Rest(pc: Pc, deeds: seq<Deed>) {
    match pc
    case Idle => deeds == []
    case Requesting => |deeds| == 1 && deeds[0].Requests? && !deeds[0].stamp.force && deeds[0].stamp.parses
    case Rejecting => Removes(deeds)
    case Looping(order, i, p) => PutsToSleep(order, i, p, deeds)
    case Calling(order, i, p) => i < |order| && AfterCheckpoint(order, i, p, deeds)
    case Marking(order, i, p) => AfterAffirmation(order, i, p, deeds)
    case Storing(p) => Restores(p, deeds)
    case Connecting(p) => Undoes(p, deeds)
    case Waking(p, connected, i, remaining) => WakesRest(p, connected, i, remaining, deeds)
    case Saving(p) => |deeds| == 1 && Writes(p, deeds)
    case Finishing => Removes(deeds)
  }

  ghost predicate AfterAffirmation(order: seq<Shard>, i: nat, p: Progress, deeds: seq<Deed>) {
    && Writes(p, deeds)
    && (deeds[0].outcome.Applied? ==> PutsToSleep(order, i + 1, p, deeds[1..]))
  }

  ghost predicate AfterCheckpoint(order: seq<Shard>, i: nat, p: Progress, deeds: seq<Deed>)
    requires i < |order|
  {
    var shard := order[i];
    && deeds != [] && deeds[0].Calls? && deeds[0].shard == shard
    && if shard == order[|order| - 1] then
         if deeds[0].reply.Refused?
         then Restores(p.(phase := Compensating,
                          accepted := if shard in p.accepted then p.accepted else p.accepted + [shard]), deeds[1..])
         else |deeds| == 1
       else if deeds[0].reply.Affirmed? then AfterAffirmation(order, i, p.(phase := Sleeping), deeds[1..])
       else Restores(p.(phase := Compensating,
                        accepted := if shard in p.accepted then p.accepted else p.accepted + [shard]), deeds[1..])
  }

  /** A run within one reconcile, up to its end. */
  predicate Uninterrupted(actions: seq<Action>) {
    forall k :: 0 <= k < |actions| ==> !actions[k].Begin? && !actions[k].Crash? && !actions[k].EditRequest?
  }

  lemma Onward(first: seq<Deed>, deeds: seq<Deed>)
    requires |first| <= 1
    ensures first == [] ==> first + deeds == deeds
    ensures first != [] ==> (first + deeds)[0] == first[0] && (first + deeds)[1..] == deeds
    ensures first != [] && |deeds| >= 1 ==> (first + deeds)[2..] == deeds[1..]
    ensures first != [] && |deeds| >= 2 ==> (first + deeds)[3..] == deeds[2..]
  {
  }

  /** At the head of the loop: a shard accepted before is passed over, any other has its record written. */
  lemma LoopTells(cfg: Config, s: State, a: Action, deeds: seq<Deed>)
    requires Enabled(cfg, s, a) && (a.Advance? || a.Checkpoint?) && Rest(Next(cfg, s, a).pc, deeds)
    ensures Rest(s.pc, DeedsOf(cfg, s, a) + deeds)
  {
    hide WakesRest, Undoes, Restores;
    Onward(DeedsOf(cfg, s, a), deeds);
  }

  lemma CallTells(cfg: Config, s: State, a: Action, deeds: seq<Deed>)
    requires Enabled(cfg, s, a) && (a.SleepCall? || a.Mark?) && Rest(Next(cfg, s, a).pc, deeds)
    ensures Rest(s.pc, DeedsOf(cfg, s, a) + deeds)
  {
    hide WakesRest, Undoes, Restores, PutsToSleep;
    Onward(DeedsOf(cfg, s, a), deeds);
  }

  lemma WakeTells(cfg: Config, s: State, a: Action, deeds: seq<Deed>)
    requires Enabled(cfg, s, a) && (a.StoreCompensating? || a.Connect? || a.WakeCall? || a.EndWakes? || a.Save?)
    requires Rest(Next(cfg, s, a).pc, deeds)
    ensures Rest(s.pc, DeedsOf(cfg, s, a) + deeds)
  {
    hide PutsToSleep, AfterCheckpoint;
    Onward(DeedsOf(cfg, s, a), deeds);
  }

  lemma TellsStep(cfg: Config, s: State, a: Action, deeds: seq<Deed>)
    requires Enabled(cfg, s, a) && !a.Begin? && !a.Crash? && !a.EditRequest? && Rest(Next(cfg, s, a).pc, deeds)
    ensures Rest(s.pc, DeedsOf(cfg, s, a) + deeds)
  {
    if a.Advance? || a.Checkpoint? {
      LoopTells(cfg, s, a, deeds);
    } else if a.SleepCall? || a.Mark? {
      CallTells(cfg, s, a, deeds);
    } else if a.StoreCompensating? || a.Connect? || a.WakeCall? || a.EndWakes? || a.Save? {
      WakeTells(cfg, s, a, deeds);
    } else {
      Onward(DeedsOf(cfg, s, a), deeds);
    }
    hide Restores, Undoes, WakesRest, PutsToSleep, AfterCheckpoint, AfterAffirmation;
  }

  lemma {:induction false} Tells(cfg: Config, s: State, actions: seq<Action>, t: State)
    requires Exec(cfg, s, actions) == Some(t) && t.pc.Idle? && Uninterrupted(actions)
    ensures Rest(s.pc, Deeds(cfg, s, actions))
    decreases |actions|
  {
    if actions != [] {
      assert actions == [actions[0]] + actions[1..];
      ExecFirst(cfg, s, actions[0], actions[1..]);
      Tells(cfg, Next(cfg, s, actions[0]), actions[1..], t);
      TellsStep(cfg, s, actions[0], Deeds(cfg, Next(cfg, s, actions[0]), actions[1..]));
    }
  }

  lemma StoryBegins(cfg: Config, s: State, b: Action, deeds: seq<Deed>)
    requires b.Begin? && Enabled(cfg, s, b) && Rest(Next(cfg, s, b).pc, deeds)
    ensures Story(s.world, b, deeds)
  {
    hide Restores, Undoes, WakesRest, PutsToSleep, AfterCheckpoint, AfterAffirmation, Writes;
    var w := s.world;
    if w.request.Some? && w.request.value.parses && DecodeProgress(w.progress, w.request.value).Ok? {
      assert At(w, DecodeProgress(w.progress, w.request.value).value);
    }
  }

  /** Every reconcile that is not cut short tells the story of what it was told, whatever shards do meanwhile. */
  lemma ReconcileTells(cfg: Config, s: State, b: Action, actions: seq<Action>, t: State)
    requires b.Begin? && Exec(cfg, s, [b] + actions) == Some(t) && t.pc.Idle? && Uninterrupted(actions)
    ensures Story(s.world, b, Deeds(cfg, s, [b] + actions))
  {
    ExecFirst(cfg, s, b, actions);
    assert ([b] + actions)[1..] == actions;
    var m := Next(cfg, s, b);
    Tells(cfg, m, actions, t);
    assert Deeds(cfg, s, [b] + actions) == Deeds(cfg, m, actions);
    StoryBegins(cfg, s, b, Deeds(cfg, m, actions));
  }

  // ----- what the deeds leave -----

  /** The annotations after a deed: a write that was not without effect is what they are. */
  function Leaves(request: Option<Request>, progress: Annotation, deeds: seq<Deed>): (Option<Request>, Annotation)
    decreases |deeds|
  {
    if deeds == [] then (request, progress)
    else
      match deeds[0]
      case Requests(stamp, outcome) =>
        if outcome.Failed? then Leaves(request, progress, deeds[1..]) else Leaves(Some(stamp), progress, deeds[1..])
      case Stores(annotation, outcome) =>
        if outcome.Failed? then Leaves(request, progress, deeds[1..]) else Leaves(request, annotation, deeds[1..])
      case Clears(outcome) =>
        if outcome.Failed? then Leaves(request, progress, deeds[1..]) else Leaves(None, Absent, deeds[1..])
      case _ => Leaves(request, progress, deeds[1..])
  }

  /** The annotations are what the deeds leave, and nothing else writes them. */
  lemma {:induction false} DeedsLeave(cfg: Config, s: State, actions: seq<Action>, t: State)
    requires Exec(cfg, s, actions) == Some(t)
    requires forall k :: 0 <= k < |actions| ==> !actions[k].EditRequest?
    ensures (t.world.request, t.world.progress) ==
            Leaves(s.world.request, s.world.progress, Deeds(cfg, s, actions))
    decreases |actions|
  {
    if actions != [] {
      var a, rest := actions[0], actions[1..];
      assert actions == [a] + rest;
      ExecFirst(cfg, s, a, rest);
      var m := Next(cfg, s, a);
      DeedsLeave(cfg, m, rest, t);
      DeedLeaves(cfg, s, a, Deeds(cfg, m, rest));
    }
  }

  lemma DeedLeaves(cfg: Config, s: State, a: Action, deeds: seq<Deed>)
    requires Enabled(cfg, s, a) && !a.EditRequest?
    ensures var m := Next(cfg, s, a);
      Leaves(s.world.request, s.world.progress, DeedsOf(cfg, s, a) + deeds) ==
      Leaves(m.world.request, m.world.progress, deeds)
  {
    var first := DeedsOf(cfg, s, a);
    if first == [] {
      assert first + deeds == deeds;
    } else {
      assert (first + deeds)[1..] == deeds;
    }
  }

  // ----- what the stories come to -----

  /** Every write is seen to succeed and every shard that is called says what it was asked for. */
  ghost predicate AllWell(deeds: seq<Deed>) {
    forall d :: d in deeds ==>
      match d
      case Requests(_, outcome) => outcome.Applied?
      case Stores(_, outcome) => outcome.Applied?
      case Calls(_, reply) => reply.Affirmed?
      case Connects(_) => true
      case Wakes(_, confirmed) => confirmed
      case Clears(outcome) => outcome.Applied?
  }

  lemma {:induction false} WakesRestEnds(p: Progress, reachable: set<Shard>, i: nat, deeds: seq<Deed>,
                                         request: Option<Request>, progress: Annotation)
    requires i <= |p.accepted| && WakesRest(p, reachable, i, [], deeds) && AllWell(deeds)
    requires forall k :: i <= k < |p.accepted| ==> p.accepted[k] in reachable
    ensures Leaves(request, progress, deeds) == (None, Absent)
    ensures forall k :: i <= k < |p.accepted| ==> Wakes(p.accepted[k], true) in deeds
    decreases |p.accepted| - i
  {
    if i < |p.accepted| {
      assert deeds[0] in deeds && forall d :: d in deeds[1..] ==> d in deeds;
      WakesRestEnds(p, reachable, i + 1, deeds[1..], request, progress);
      assert deeds[0] == Wakes(p.accepted[i], true);
    } else {
      assert deeds[0] in deeds;
      assert deeds[1..] == [];
    }
  }

  /** A compensation that reaches every shard and finds it awake removes the request. */
  lemma UndoesAll(p: Progress, deeds: seq<Deed>, request: Option<Request>, progress: Annotation)
    requires Undoes(p, deeds) && AllWell(deeds) && Elems(p.accepted) <= deeds[0].reachable
    ensures Leaves(request, progress, deeds) == (None, Absent)
    ensures forall x :: x in p.accepted ==> Wakes(x, true) in deeds
  {
    assert forall d :: d in deeds[1..] ==> d in deeds;
    WakesRestEnds(p, deeds[0].reachable, 0, deeds[1..], request, progress);
  }

  lemma {:induction false} WakesRestCallsNobody(p: Progress, reachable: set<Shard>, i: nat, remaining: seq<Shard>,
                                                deeds: seq<Deed>)
    requires WakesRest(p, reachable, i, remaining, deeds)
    ensures forall d :: d in deeds ==> !d.Calls?
    decreases |p.accepted| - i
  {
    if i < |p.accepted| {
      if p.accepted[i] !in reachable {
        WakesRestCallsNobody(p, reachable, i + 1, remaining + [p.accepted[i]], deeds);
      } else {
        WakesRestCallsNobody(
          p, reachable, i + 1, if deeds[0].confirmed then remaining else remaining + [p.accepted[i]], deeds[1..]);
        assert deeds == [deeds[0]] + deeds[1..];
      }
    }
  }

  lemma RestoresCallsNobody(p: Progress, deeds: seq<Deed>)
    requires Restores(p, deeds) || Undoes(p, deeds)
    ensures forall d :: d in deeds ==> !d.Calls?
  {
    assert deeds == [deeds[0]] + deeds[1..];
    if Restores(p, deeds) {
      if deeds[0].outcome.Applied? {
        assert deeds[1..] == [deeds[1]] + deeds[1..][1..];
        WakesRestCallsNobody(p, deeds[1].reachable, 0, [], deeds[1..][1..]);
      }
    } else {
      WakesRestCallsNobody(p, deeds[0].reachable, 0, [], deeds[1..]);
    }
  }

  /** No shard is put to sleep for a request that is neither forced nor eligible, or is past going forward. */
  lemma CallsNobody(w: World, b: Action, deeds: seq<Deed>, p: Progress)
    requires b.Begin? && Story(w, b, deeds) && At(w, p)
    requires !p.phase.Sleeping? || b.connected.None? || (!p.request.force && !b.eligible)
    ensures forall d :: d in deeds ==> !d.Calls?
  {
    hide WakesRest, Writes, PutsToSleep;
    if p.phase.Finalizing? && b.connected.Some? && b.allAsleep == Some(false) {
      RestoresCallsNobody(p.(phase := Compensating, accepted := b.order), deeds);
    } else if p.phase.Compensating? {
      RestoresCallsNobody(p, deeds);
    } else if p.phase.Sleeping? && b.connected.Some? && p.accepted != [] {
      RestoresCallsNobody(p.(phase := Compensating), deeds);
    }
  }

  /**
   Once the last shard was put to sleep and one is seen awake, every configured shard is woken: if all
   is well and all are reachable, each confirms that it is awake and the request is gone.
   */
  lemma RestoreWakesAll(cfg: Config, w: World, b: Action, deeds: seq<Deed>, p: Progress)
    requires b.Begin? && Story(w, b, deeds) && At(w, p) && p.phase.Finalizing?
    requires b.connected.Some? && b.allAsleep == Some(false) && Elems(b.order) == cfg.shards
    ensures deeds != [] && deeds[0].Stores?
    ensures deeds[0].annotation == Stored(Progress(p.request, Compensating, b.order, p.finalShard))
    ensures AllWell(deeds) ==> |deeds| >= 2 && deeds[1].Connects?
    ensures AllWell(deeds) && cfg.shards <= deeds[1].reachable ==>
      && Leaves(w.request, w.progress, deeds) == (None, Absent)
      && forall x :: x in cfg.shards ==> Wakes(x, true) in deeds
  {
    var q := p.(phase := Compensating, accepted := b.order);
    assert Restores(q, deeds);
    if AllWell(deeds) {
      assert deeds[0] in deeds && forall d :: d in deeds[1..] ==> d in deeds;
      if cfg.shards <= deeds[1].reachable {
        UndoesAll(q, deeds[1..], w.request, Stored(q));
      }
    }
  }

  /** A run that does this: it ends with the request gone and no configured shard asleep. */
  lemma RestoreCompletes(cfg: Config, s: State, b: Action, wakes: seq<Action>, p: Progress)
    returns (actions: seq<Action>, t: State)
    requires ValidConfig(cfg) && Inv(cfg, s) && s.pc.Idle? && At(s.world, p) && p.phase.Finalizing?
    requires b.Begin? && b.connected.Some? && b.connected.value <= cfg.shards && b.allAsleep == Some(false)
    requires Enumerates(b.order, cfg.shards)
    requires WellAnswered(b.order, cfg.shards, wakes) && forall i :: 0 <= i < |wakes| ==> wakes[i].confirmed
    ensures actions == [b] + ([StoreCompensating(Applied)] + After(cfg, wakes))
    ensures Exec(cfg, s, actions) == Some(t) && t.pc.Idle? && Cleared(t.world)
    ensures t.world.orphaned == {} && t.world.asleep == s.world.asleep - cfg.shards
  {
    hide Inv, Exec;
    var store := StoreCompensating(Applied);
    var s1 := Next(cfg, s, b);
    var s2 := Next(cfg, s1, store);
    StepKeepsInv(cfg, s, b);
    StepKeepsInv(cfg, s1, store);
    StepKeepsInv(cfg, s2, Crash);
    var twin := Next(cfg, s2, Crash);
    assert Recorded(twin) && Left(twin) == b.order;
    var r;
    r, t := CompensationCompletes(cfg, twin, cfg.shards, wakes);
    assert Steps(r) == [r.look] + After(cfg, wakes);
    ExecFirst(cfg, twin, r.look, After(cfg, wakes));
    assert Next(cfg, twin, r.look) == s2;
    ExecCons(cfg, s1, store, After(cfg, wakes), t);
    ExecCons(cfg, s, b, [store] + After(cfg, wakes), t);
    actions := [b] + ([store] + After(cfg, wakes));
  }

  /** All shards are reached and woken, and the request is removed. */
  function After(cfg: Config, wakes: seq<Action>): seq<Action> {
    [Connect(cfg.shards)] + (wakes + ([EndWakes] + [Clear(Applied)]))
  }
}
