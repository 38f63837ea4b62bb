/** When a task can move and when everything comes to a halt (src/engine/llama/mod.rs):
    in every run a task waits only for the coordinator, for the leader of its model, or
    for a notification it has missed; and somebody can always move exactly where nobody
    drops loads and waiters register before they let go of the load state. */
module ProtocolProgress {
  import opened Wrappers
  import opened MapSums
  import opened Placements
  import opened Protocol
  import opened ProtocolInvariant
  import opened ProtocolSafety
  import opened ProtocolGuards
  import opened ProtocolRuns
  import opened ProtocolDrops
  import opened ProtocolService
  import opened ProtocolWaiters

  // ---------- somebody to pick ----------

  lemma {:induction false} SameCosts(ids: seq<string>, some: map<string, nat>, all: map<string, nat>)
    requires forall i :: 0 <= i < |ids| ==> ids[i] in some
    requires forall id :: id in some ==> id in all && all[id] == some[id]
    ensures CostOfIds(ids, some) == CostOfIds(ids, all)
    decreases |ids|
  {
    if ids != [] {
      SameCosts(ids[..|ids| - 1], some, all);
    }
  }

  /** Everybody, in some order. */
  lemma {:induction false} Listed(costs: map<string, nat>) returns (ids: seq<string>)
    ensures Distinct(ids) && |ids| == |costs| && forall i :: 0 <= i < |ids| ==> ids[i] in costs
    ensures CostOfIds(ids, costs) == Sum(costs)
    decreases |costs|
  {
    if costs == map[] {
      ids := [];
    } else {
      var id :| id in costs;
      var front := Listed(costs - {id});
      ids := front + [id];
      SumRemove(costs, id);
      SameCosts(front, costs - {id}, costs);
      assert ids[..|ids| - 1] == front;
    }
  }

  /** Of a list that is enough, as many as it takes. */
  lemma {:induction false} ShortestPick(ids: seq<string>, costs: map<string, nat>, neededMb: nat)
    returns (picked: seq<string>)
    requires ids != [] && Distinct(ids) && forall i :: 0 <= i < |ids| ==> ids[i] in costs
    requires neededMb <= CostOfIds(ids, costs)
    ensures Picks(picked, costs, neededMb)
    decreases |ids|
  {
    var front := ids[..|ids| - 1];
    if front != [] && neededMb <= CostOfIds(front, costs) {
      picked := ShortestPick(front, costs, neededMb);
    } else {
      picked := ids;
    }
  }

  /** There is somebody to pick unless those who may leave are too few. */
  lemma PicksUnlessShort(costs: map<string, nat>, neededMb: nat)
    ensures (exists ids :: Picks(ids, costs, neededMb)) <==> !Short(costs, neededMb)
  {
    if !Short(costs, neededMb) {
      var ids := Listed(costs);
      var picked := ShortestPick(ids, costs, neededMb);
      assert Picks(picked, costs, neededMb);
    }
    forall ids | Picks(ids, costs, neededMb)
      ensures !Short(costs, neededMb)
    {
      PickedCost(ids, costs);
    }
  }

  /** Distinct models cost no more than everybody. */
  lemma {:induction false} PickedCost(ids: seq<string>, costs: map<string, nat>)
    requires Distinct(ids) && forall i :: 0 <= i < |ids| ==> ids[i] in costs
    ensures CostOfIds(ids, costs) <= Sum(costs)
    decreases |ids|
  {
    if ids != [] {
      var n := |ids| - 1;
      forall i | 0 <= i < n
        ensures ids[..n][i] in costs - {ids[n]}
      {
        assert ids[i] != ids[n];
      }
      PickedCost(ids[..n], costs - {ids[n]});
      SameCosts(ids[..n], costs - {ids[n]}, costs);
      SumRemove(costs, ids[n]);
    }
  }

  // ---------- every unload is of a known model ----------

  predicate TargetKnown(c: Config, pc: PC) {
    pc.Stopping? || pc.Releasing? || pc.Resetting? ==> pc.id in c.models
  }

  ghost predicate TargetsKnown(c: Config, s: State) {
    forall t :: t in s.tasks ==> TargetKnown(c, s.tasks[t].pc)
  }

  lemma NewTarget(c: Config, s: State, t: TaskId, choice: Choice, s': State)
    requires Known(c, s, t) && TaskStep(c, s, t, choice) == Some(s') && TargetKnown(c, s.tasks[t].pc)
    ensures t in s'.tasks && TargetKnown(c, s'.tasks[t].pc)
  {
    if Unloads(s.tasks[t].pc) {
      TargetStays(c, s, t, choice, s');
    } else if Looping(s.tasks[t].pc) {
      LoopHasNoTarget(c, s, t, choice, s');
    } else if Loads(s.tasks[t].pc) {
      LoadHasNoTarget(c, s, t, choice, s');
    } else {
      NoTargetElsewhere(c, s, t, choice, s');
    }
  }

  predicate Looping(pc: PC) {
    pc.Resolving? || pc.Choosing? || pc.Reserving? || pc.RollingBack? || pc.Picking? || pc.Abandoning?
  }

  predicate Loads(pc: PC) {
    || pc.Committing? || pc.ReadingPlacement? || pc.Spawning? || pc.AwaitingLoad? || pc.Failing? || pc.Failed?
    || pc.PlacementStillAuto? || pc.Finishing?
  }

  lemma LoadHasNoTarget(c: Config, s: State, t: TaskId, choice: Choice, s': State)
    requires Known(c, s, t) && TaskStep(c, s, t, choice) == Some(s') && Loads(s.tasks[t].pc)
    ensures t in s'.tasks && TargetKnown(c, s'.tasks[t].pc)
  {
  }

  lemma LoopHasNoTarget(c: Config, s: State, t: TaskId, choice: Choice, s': State)
    requires Known(c, s, t) && TaskStep(c, s, t, choice) == Some(s') && Looping(s.tasks[t].pc)
    ensures t in s'.tasks && TargetKnown(c, s'.tasks[t].pc)
  {
  }

  lemma NoTargetElsewhere(c: Config, s: State, t: TaskId, choice: Choice, s': State)
    requires Known(c, s, t) && TaskStep(c, s, t, choice) == Some(s')
    requires !Unloads(s.tasks[t].pc) && !Looping(s.tasks[t].pc) && !Loads(s.tasks[t].pc)
    ensures t in s'.tasks && TargetKnown(c, s'.tasks[t].pc)
  {
  }

  lemma TargetStays(c: Config, s: State, t: TaskId, choice: Choice, s': State)
    requires Known(c, s, t) && TaskStep(c, s, t, choice) == Some(s') && TargetKnown(c, s.tasks[t].pc)
    requires Unloads(s.tasks[t].pc)
    ensures t in s'.tasks && TargetKnown(c, s'.tasks[t].pc)
  {
  }

  lemma {:induction false} RunKeepsTargets(c: Config, steps: seq<Step>)
    requires Possible(c, steps)
    ensures TargetsKnown(c, After(c, steps))
    decreases |steps|
  {
    if steps != [] {
      var n := |steps| - 1;
      RunKeepsTargets(c, steps[..n]);
      if steps[n].Advance? {
        RunKeepsGuards(c, steps[..n]);
        OneTaskMoves(c, After(c, steps[..n]), steps[n].t, steps[n].choice, After(c, steps));
        NewTarget(c, After(c, steps[..n]), steps[n].t, steps[n].choice, After(c, steps));
      }
    }
  }

  // ---------- who waits ----------

  ghost predicate CanStep(c: Config, s: State, t: TaskId) {
    exists choice: Choice :: Apply(c, s, Advance(t, choice)).Some?
  }

  /** Through, in front of a coordinator that somebody else holds, or waiting for a
      leader: one that still has the load state, or one whose notification is missed. */
  predicate Waits(c: Config, s: State, t: TaskId)
    requires t in s.tasks && s.tasks[t].model in s.backends
  {
    var pc := s.tasks[t].pc;
    || pc.Done?
    || (pc.Parked? && (pc.late || s.backends[s.tasks[t].model].load == Loading(pc.leader)))
    || (s.coordinator.Some? && (pc.Waiting? || (pc.UnloadWaiting? && c.unloadsLocked)))
  }

  lemma PickerSteps(c: Config, s: State, t: TaskId)
    requires Known(c, s, t) && s.tasks[t].pc.Picking?
    ensures CanStep(c, s, t)
  {
    var costs, neededMb := Eligible(c, s, s.tasks[t].pc.gpu), s.tasks[t].pc.neededMb;
    PicksUnlessShort(costs, neededMb);
    if Short(costs, neededMb) {
      assert Apply(c, s, Advance(t, GiveUp)).Some?;
    } else {
      var ids :| Picks(ids, costs, neededMb);
      assert Apply(c, s, Advance(t, Victims(ids))).Some?;
    }
  }

  lemma ProceedsElsewhere(c: Config, s: State, t: TaskId)
    requires Known(c, s, t) && TargetKnown(c, s.tasks[t].pc)
    requires !s.tasks[t].pc.Picking? && !s.tasks[t].pc.Entering? && !Waits(c, s, t)
    ensures Apply(c, s, Advance(t, Proceed)).Some?
  {
  }

  lemma WaitingStaysPut(c: Config, s: State, t: TaskId, choice: Choice)
    requires t in s.tasks && s.tasks[t].model in s.backends && Waits(c, s, t)
    ensures Apply(c, s, Advance(t, choice)).None?
  {
  }

  /** In every run a task can move unless it is through or waits for one of these. */
  lemma NobodyStuck(c: Config, steps: seq<Step>, t: TaskId)
    requires Possible(c, steps) && t in After(c, steps).tasks
    ensures After(c, steps).tasks[t].model in After(c, steps).backends
    ensures CanStep(c, After(c, steps), t) <==> !Waits(c, After(c, steps), t)
  {
    RunKeepsGuards(c, steps);
    RunKeepsTargets(c, steps);
    var s := After(c, steps);
    forall choice: Choice | Waits(c, s, t)
      ensures Apply(c, s, Advance(t, choice)).None?
    {
      WaitingStaysPut(c, s, t, choice);
    }
    if !Waits(c, s, t) {
      if s.tasks[t].pc.Picking? {
        PickerSteps(c, s, t);
      } else if s.tasks[t].pc.Entering? {
        assert Apply(c, s, Advance(t, GiveUp)).Some?;
      } else {
        ProceedsElsewhere(c, s, t);
      }
    }
  }

  // ---------- everything comes to a halt ----------

  /** Somebody can move other than by being turned away at the entrance. */
  ghost predicate SomebodyMoves(c: Config, s: State) {
    exists t, choice: Choice :: t in s.tasks && !(s.tasks[t].pc.Entering? && choice.GiveUp?)
                        && Apply(c, s, Advance(t, choice)).Some?
  }

  predicate Settled(s: State) {
    forall t :: t in s.tasks ==> s.tasks[t].pc.Done?
  }

  /** In every reachable state everybody is through or somebody can move. */
  ghost predicate NeverHalts(c: Config) {
    forall steps :: Possible(c, steps) ==> Settled(After(c, steps)) || SomebodyMoves(c, After(c, steps))
  }

  lemma MovesIfNotAtEntrance(c: Config, steps: seq<Step>, t: TaskId)
    requires Possible(c, steps) && t in After(c, steps).tasks
    requires After(c, steps).tasks[t].model in After(c, steps).backends
    requires !After(c, steps).tasks[t].pc.Entering? && !Waits(c, After(c, steps), t)
    ensures SomebodyMoves(c, After(c, steps))
  {
    NobodyStuck(c, steps, t);
    var choice: Choice :| Apply(c, After(c, steps), Advance(t, choice)).Some?;
  }

  /** Whoever holds the coordinator can move. */
  lemma HolderMoves(c: Config, steps: seq<Step>)
    requires Possible(c, steps) && After(c, steps).coordinator.Some?
    ensures SomebodyMoves(c, After(c, steps))
  {
    RunKeepsGuards(c, steps);
    var s := After(c, steps);
    var u := s.coordinator.value;
    BusyDoesNotWait(c, s, u);
    MovesIfNotAtEntrance(c, steps, u);
  }

  lemma BusyDoesNotWait(c: Config, s: State, t: TaskId)
    requires t in s.tasks && s.tasks[t].model in s.backends
    requires Coordinates(c, s.tasks[t].pc) || (s.coordinator.None? && Leads(s.tasks[t].pc))
    ensures !s.tasks[t].pc.Entering? && !Waits(c, s, t)
  {
  }

  /** At the entrance somebody can move: whoever is there or the leader waited for. */
  lemma EntranceMoves(c: Config, steps: seq<Step>, t: TaskId)
    requires c.detached && c.registersFirst && Possible(c, steps) && t in After(c, steps).tasks
    requires AtEntrance(After(c, steps).tasks[t].pc) && After(c, steps).coordinator.None?
    ensures SomebodyMoves(c, After(c, steps))
  {
    RunKeepsGuards(c, steps);
    RunKeepsInTime(c, steps);
    var s := After(c, steps);
    var m := s.tasks[t].model;
    if s.tasks[t].pc.Entering? {
      EnteringProceeds(c, s, t);
    } else if s.backends[m].load == Loading(s.tasks[t].pc.leader) {
      DetachedLoadingIsLed(c, steps, m);
      BusyDoesNotWait(c, s, s.backends[m].load.leader);
      MovesIfNotAtEntrance(c, steps, s.backends[m].load.leader);
    } else {
      MovesIfNotAtEntrance(c, steps, t);
    }
  }

  lemma EnteringProceeds(c: Config, s: State, t: TaskId)
    requires Known(c, s, t) && s.tasks[t].pc.Entering?
    ensures SomebodyMoves(c, s)
  {
    assert Apply(c, s, Advance(t, Proceed)).Some?;
  }

  lemma CarefulMoves(c: Config, steps: seq<Step>)
    requires c.detached && c.registersFirst && Possible(c, steps) && !Settled(After(c, steps))
    ensures SomebodyMoves(c, After(c, steps))
  {
    RunKeepsGuards(c, steps);
    var s := After(c, steps);
    var t :| t in s.tasks && !s.tasks[t].pc.Done?;
    if s.coordinator.Some? {
      HolderMoves(c, steps);
    } else if AtEntrance(s.tasks[t].pc) {
      EntranceMoves(c, steps, t);
    } else {
      MovesIfNotAtEntrance(c, steps, t);
    }
  }

  /** A model whose leader was dropped, and a request that waits for it. */
  lemma HaltsBehindDropped(c: Config, m: string) returns (steps: seq<Step>)
    requires !c.detached && c.registersFirst && m in c.models
    ensures Possible(c, steps) && !Settled(After(c, steps)) && !SomebodyMoves(c, After(c, steps))
  {
    steps := WedgeRun(c, m);
    RunKeepsGuards(c, steps);
    var s := After(c, steps);
    steps := Then(c, steps, Start(1, m, Request), s.(tasks := s.tasks[1 := Task(m, Request, Entering)]));
    var s1 := After(c, steps);
    var n := s1.backends[m].load.leader;
    steps := Then(c, steps, Advance(1, Proceed), Move(s1, 1, Parked(n, false)));
    NobodyMoves(c, After(c, steps));
  }

  lemma NobodyMoves(c: Config, s: State)
    requires forall t :: t in s.tasks ==> s.tasks[t].model in s.backends && Waits(c, s, t)
    ensures !SomebodyMoves(c, s)
  {
    forall t, choice: Choice | t in s.tasks
      ensures Apply(c, s, Advance(t, choice)).None?
    {
      WaitingStaysPut(c, s, t, choice);
    }
  }

  /** A request that has missed its leader's notification. */
  lemma HaltsUnnotified(c: Config, m: string) returns (steps: seq<Step>)
    requires !c.registersFirst && m in c.models
    ensures Possible(c, steps) && !Settled(After(c, steps)) && !SomebodyMoves(c, After(c, steps))
  {
    steps := LostNotification(c, m);
    var s := After(c, steps);
    assert s.tasks[1].pc == Parked(0, true);
    NobodyMoves(c, s);
  }

  /** The system can come to a halt with requests waiting exactly if loads are dropped
      half way or waiters may miss their notification, and there is a model at all. */
  lemma PrecautionsDecideProgress(c: Config)
    ensures NeverHalts(c) <==> (c.detached && c.registersFirst) || c.models == map[]
  {
    if c.detached && c.registersFirst {
      forall steps | Possible(c, steps) && !Settled(After(c, steps))
        ensures SomebodyMoves(c, After(c, steps))
      {
        CarefulMoves(c, steps);
      }
    } else if c.models == map[] {
      forall steps | Possible(c, steps)
        ensures Settled(After(c, steps))
      {
        NoModelNoTask(c, steps);
      }
    } else {
      var m :| m in c.models;
      var steps;
      if c.registersFirst {
        steps := HaltsBehindDropped(c, m);
      } else {
        steps := HaltsUnnotified(c, m);
      }
    }
  }
}
