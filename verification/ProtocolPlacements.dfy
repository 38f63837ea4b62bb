/** Whether a leader can find its placement automatic again after it has reserved
    (src/engine/llama/mod.rs:217-232): dropped futures do not matter here, only
    unloads without the coordinator do. */
module ProtocolPlacements {
  import opened Wrappers
  import opened Placements
  import opened Protocol
  import opened ProtocolInvariant
  import opened ProtocolSafety
  import opened ProtocolRuns
  import opened ProtocolGuards
  import opened ProtocolAffordable
  import opened ProtocolCounterexample

  /** What a leader at this point knows of its backend's placement. */
  ghost predicate PlacedTask(b: Backend, pc: PC) {
    match pc
    case Choosing(_, _, _) => b.placement.Auto?
    case Reserving(p, _) => Candidate(b, p)
    case Committing(p) => Candidate(b, p)
    case ReadingPlacement(p) => b.placement == Resolved(p)
    case Spawning(p) => b.placement == Resolved(p)
    case AwaitingLoad(p) => b.placement == Resolved(p)
    case PlacementStillAuto => false
    case _ => true
  }

  predicate Concerned(pc: PC) {
    pc.Choosing? || pc.Reserving? || pc.Committing? || pc.ReadingPlacement? || pc.Spawning? || pc.AwaitingLoad?
    || pc.PlacementStillAuto?
  }

  ghost predicate AllPlaced(s: State) {
    forall t :: t in s.tasks && s.tasks[t].model in s.backends ==>
      PlacedTask(s.backends[s.tasks[t].model], s.tasks[t].pc)
  }

  lemma OwnPlacement(c: Config, s: State, t: TaskId, choice: Choice, s': State)
    requires Known(c, s, t) && PlacedTask(s.backends[s.tasks[t].model], s.tasks[t].pc)
    requires TaskStep(c, s, t, choice) == Some(s')
    requires s.tasks[t].pc.Resolving? || s.tasks[t].pc.Choosing? || s.tasks[t].pc.Reserving?
             || s.tasks[t].pc.Committing?
             || s.tasks[t].pc.ReadingPlacement? || s.tasks[t].pc.Spawning?
    ensures t in s'.tasks && s.tasks[t].model in s'.backends
    ensures PlacedTask(s'.backends[s.tasks[t].model], s'.tasks[t].pc)
  {
    if s.tasks[t].pc.Reserving? {
      ReserveCases(c, s, t, s');
    }
  }

  lemma Unconcerned(c: Config, s: State, t: TaskId, choice: Choice, s': State)
    requires Known(c, s, t) && TaskStep(c, s, t, choice) == Some(s')
    requires !s.tasks[t].pc.Resolving? && !s.tasks[t].pc.Choosing? && !s.tasks[t].pc.Reserving?
    requires !s.tasks[t].pc.Committing?
             && !s.tasks[t].pc.ReadingPlacement? && !s.tasks[t].pc.Spawning?
    ensures t in s'.tasks && !Concerned(s'.tasks[t].pc)
  {
    var pc := s.tasks[t].pc;
    if !MovesTables(pc) && !pc.AwaitingLoad? {
      IdleTask(c, s, t, choice, s');
    }
  }

  /** Outside the coordinator nobody changes a placement. */
  lemma OutsidePlacements(c: Config, s: State, u: TaskId, choice: Choice, s': State, m: string)
    requires Known(c, s, u) && !Inside(s.tasks[u].pc) && TaskStep(c, s, u, choice) == Some(s') && m in s.backends
    ensures m in s'.backends && s'.backends[m].placement == s.backends[m].placement
  {
  }

  lemma TaskKeepsPlaced(c: Config, s: State, u: TaskId, choice: Choice, s': State)
    requires c.unloadsLocked && GuardInv(c, s) && AllPlaced(s) && Known(c, s, u)
    requires TaskStep(c, s, u, choice) == Some(s')
    ensures AllPlaced(s')
  {
    OneTaskMoves(c, s, u, choice, s');
    forall t | t in s'.tasks && s'.tasks[t].model in s'.backends && Concerned(s'.tasks[t].pc)
      ensures PlacedTask(s'.backends[s'.tasks[t].model], s'.tasks[t].pc)
    {
      if t == u {
        OwnAfter(c, s, u, choice, s');
      } else {
        OneConcerned(c, s, t, u);
        OutsidePlacements(c, s, u, choice, s', s.tasks[t].model);
      }
    }
  }

  lemma OneConcerned(c: Config, s: State, t: TaskId, u: TaskId)
    requires c.unloadsLocked && OneCoordinates(c, s) && t in s.tasks && u in s.tasks && t != u
    requires Concerned(s.tasks[t].pc)
    ensures !Inside(s.tasks[u].pc)
  {
    assert Coordinates(c, s.tasks[t].pc);
  }

  lemma OwnAfter(c: Config, s: State, t: TaskId, choice: Choice, s': State)
    requires Known(c, s, t) && PlacedTask(s.backends[s.tasks[t].model], s.tasks[t].pc)
    requires TaskStep(c, s, t, choice) == Some(s') && t in s'.tasks && Concerned(s'.tasks[t].pc)
    ensures s.tasks[t].model in s'.backends && PlacedTask(s'.backends[s.tasks[t].model], s'.tasks[t].pc)
  {
    var pc := s.tasks[t].pc;
    if pc.Resolving? || pc.Choosing? || pc.Reserving? || pc.Committing? || pc.ReadingPlacement? || pc.Spawning? {
      OwnPlacement(c, s, t, choice, s');
    } else {
      Unconcerned(c, s, t, choice, s');
    }
  }

  lemma {:induction false} RunKeepsPlaced(c: Config, steps: seq<Step>)
    requires c.unloadsLocked && Possible(c, steps)
    ensures AllPlaced(After(c, steps))
    decreases |steps|
  {
    if steps != [] {
      var n := |steps| - 1;
      RunKeepsPlaced(c, steps[..n]);
      RunKeepsGuards(c, steps[..n]);
      StepKeepsPlaced(c, After(c, steps[..n]), steps[n], After(c, steps));
    }
  }

  lemma StepKeepsPlaced(c: Config, s: State, step: Step, s': State)
    requires c.unloadsLocked && GuardInv(c, s) && AllPlaced(s) && Apply(c, s, step) == Some(s')
    ensures AllPlaced(s')
  {
    if step.Advance? {
      TaskKeepsPlaced(c, s, step.t, step.choice, s');
    } else {
      OthersKeepPlaced(c, s, step, s');
    }
  }

  lemma OthersKeepPlaced(c: Config, s: State, step: Step, s': State)
    requires AllPlaced(s) && KindsFit(c, s) && !step.Advance? && Apply(c, s, step) == Some(s')
    ensures AllPlaced(s')
  {
  }

  /** With locked unloads no leader ever finds its placement automatic again after
      the reservation, and whoever spawns a worker works on the committed placement;
      dropped futures included. */
  lemma PlacementStaysCommitted(c: Config, steps: seq<Step>)
    requires c.unloadsLocked && Possible(c, steps)
    ensures var s := After(c, steps);
            && s.backends.Keys == c.models.Keys
            && forall t :: t in s.tasks ==>
                 && !s.tasks[t].pc.PlacementStillAuto?
                 && s.tasks[t].model in c.models
                 && (s.tasks[t].pc.Spawning? || s.tasks[t].pc.AwaitingLoad? ==>
                       s.backends[s.tasks[t].model].placement == Resolved(s.tasks[t].pc.p))
  {
    RunKeepsPlaced(c, steps);
    RunKeepsGuards(c, steps);
    var s := After(c, steps);
    forall t | t in s.tasks
      ensures !s.tasks[t].pc.PlacementStillAuto?
      ensures s.tasks[t].model in c.models
      ensures s.tasks[t].pc.Spawning? || s.tasks[t].pc.AwaitingLoad? ==>
                s.backends[s.tasks[t].model].placement == Resolved(s.tasks[t].pc.p)
    {
      CommittedTask(c, s, t);
    }
  }

  lemma CommittedTask(c: Config, s: State, t: TaskId)
    requires KindsFit(c, s) && AllPlaced(s) && t in s.tasks
    ensures s.tasks[t].model in c.models && PlacedTask(s.backends[s.tasks[t].model], s.tasks[t].pc)
  {
  }

  /** The branch for a missing placement is reached in some run. */
  ghost predicate MissesPlacement(c: Config) {
    exists steps, t :: Possible(c, steps) && MissesAfter(c, steps, t)
  }

  ghost predicate MissesAfter(c: Config, steps: seq<Step>, t: TaskId)
    requires Possible(c, steps)
  {
    t in After(c, steps).tasks && After(c, steps).tasks[t].pc.PlacementStillAuto?
  }

  /** An automatic model that fits on the device it is given when everything is free. */
  predicate FitsLargest(c: Config, m: string) {
    && m in c.models && c.models[m].gpus == []
    && c.budgets != [] && ShareFits(c, Share(S.LargestAt(c.budgets), c.models[m].estimatedMb))
  }

  /** The last device keeps accounts, or no device does; otherwise the last one is
      also given away once all the others are full. */
  predicate LastCounts(c: Config) {
    c.budgets != [] && c.budgets[|c.budgets| - 1] == 0 ==>
      forall g :: 0 <= g < |c.budgets| ==> c.budgets[g] == 0
  }

  lemma StartableFitsLargest(c: Config, m: string)
    requires LastCounts(c) && Startable(c, m)
    ensures FitsLargest(c, m)
  {
    var g :| 0 <= g < |c.budgets| && MayChoose(c, g) && ShareFits(c, Share(g, c.models[m].estimatedMb));
    assert c.budgets[g] <= c.budgets[S.LargestAt(c.budgets)];
  }

  /** It is reached if unloads do without the coordinator and some automatic model
      fits on the last device of largest budget. */
  lemma UnlockedCanMiss(c: Config, m: string)
    requires WellFormed(c) && !c.unloadsLocked && FitsLargest(c, m)
    ensures MissesPlacement(c)
  {
    var g := S.LargestAt(c.budgets);
    assert Cost(c, m, SingleDevice(g)) == [Share(g, c.models[m].estimatedMb)];
    assert MayChoose(c, g);
    var missing, leaked := ResetBetweenCommitAndRead(c, m, SingleDevice(g));
    assert MissesAfter(c, missing, 2);
  }

  /** Where the last device counts, it is reached exactly then. */
  lemma UnlockedAutomaticMisses(c: Config)
    requires WellFormed(c) && LastCounts(c)
    ensures MissesPlacement(c) <==> !c.unloadsLocked && exists m :: m in c.models && FitsLargest(c, m)
  {
    if MissesPlacement(c) {
      var steps, t :| Possible(c, steps) && MissesAfter(c, steps, t);
      MissingIsUnlocked(c, steps, t);
      var m :| m in c.models && Startable(c, m);
      StartableFitsLargest(c, m);
    }
    if !c.unloadsLocked && exists m :: m in c.models && FitsLargest(c, m) {
      var m :| m in c.models && FitsLargest(c, m);
      UnlockedCanMiss(c, m);
    }
  }

  /** For any budgets: whoever gets there is an automatic model that fits on a device
      it can be given, and some unload did without the coordinator. */
  lemma MissingIsUnlocked(c: Config, steps: seq<Step>, t: TaskId)
    requires WellFormed(c) && Possible(c, steps) && MissesAfter(c, steps, t)
    ensures !c.unloadsLocked && exists m :: m in c.models && Startable(c, m)
  {
    RunKeepsAffordable(c, steps);
    assert TaskFits(c, After(c, steps).tasks[t]);
    if c.unloadsLocked {
      PlacementStaysCommitted(c, steps);
    }
  }
}
