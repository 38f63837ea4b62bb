/** Entries that are left when everybody is through (src/engine/llama/mod.rs): exactly
    which configurations can end up with an entry of a model that is not loaded and no
    task left that would give it back. */
module ProtocolLeaks {
  import opened Wrappers
  import opened Placements
  import opened Protocol
  import opened ProtocolInvariant
  import opened ProtocolSteps
  import opened ProtocolSafety
  import opened ProtocolRuns
  import opened ProtocolGuards
  import opened ProtocolAffordable
  import opened ProtocolCounterexample
  import opened ProtocolDrops

  // ---------- who will give an entry back ----------

  /** The task has an entry of model m on device g still to release, or will keep it
      by loading the model. */
  ghost predicate Answers(c: Config, task: Task, m: string, g: GpuId)
    requires m in c.models
  {
    var mine := task.model == m;
    match task.pc
    case Reserving(p, k) => mine && g in R.Devices(Slice(Cost(c, m, p), 0, k))
    case RollingBack(p, j, k, _) => mine && g in R.Devices(Slice(Cost(c, m, p), j, k))
    case Committing(p) => mine && g in R.Devices(Cost(c, m, p))
    case ReadingPlacement(p) => mine && g in R.Devices(Cost(c, m, p))
    case Spawning(p) => mine && g in R.Devices(Cost(c, m, p))
    case AwaitingLoad(p) => mine && g in R.Devices(Cost(c, m, p))
    case Abandoning(p, j) => mine && g in R.Devices(Slice(Cost(c, m, p), j, |Cost(c, m, p)|))
    case Stopping(id, _, _) => id == m
    case Releasing(id, gpus, j, _) => id == m && j <= |gpus| && g in gpus[j..]
    case _ => false
  }

  ghost predicate Answered(c: Config, s: State, m: string, g: GpuId)
    requires m in c.models
  {
    exists t :: t in s.tasks && Answers(c, s.tasks[t], m, g)
  }

  /** An entry of an explicit model lies on one of its devices, and the model is loaded
      or somebody answers for the entry. */
  ghost predicate Covered(c: Config, s: State, m: string, g: GpuId)
    requires m in c.models && m in s.backends
  {
    g in c.models[m].gpus && (s.backends[m].load == Loaded || Answered(c, s, m, g))
  }

  ghost predicate Explicit(c: Config, m: string) {
    m in c.models && c.models[m].gpus != []
  }

  ghost predicate EntriesCovered(c: Config, s: State) {
    s.backends.Keys == c.models.Keys
    && forall g, m :: 0 <= g < |s.entries| && m in s.entries[g] && Explicit(c, m) ==> Covered(c, s, m, g)
  }

  // ---------- steps of the task that answers ----------

  /** What is known of an entry of an explicit model before a step of task t. */
  ghost predicate Entry(c: Config, s: State, t: TaskId, m: string, g: GpuId) {
    && Known(c, s, t) && WellFormed(c) && Explicit(c, m) && g in c.models[m].gpus
    && g < |s.entries| && c.budgets[g] != 0
    && TaskFits(c, s.tasks[t]) && BackendFits(c, m, s.backends[m])
  }

  lemma ConfiguredDevices(c: Config, m: string, p: Placement)
    requires WellFormed(c) && Explicit(c, m) && MayUse(c, m, p)
    ensures p == FromGpus(c.models[m].gpus).placement && R.Devices(Cost(c, m, p)) == c.models[m].gpus
  {
    UsableDistinct(c, m, p);
  }

  lemma ReservingAnswers(c: Config, s: State, t: TaskId, s': State, m: string, g: GpuId)
    requires Entry(c, s, t, m, g) && s.tasks[t].pc.Reserving? && Answers(c, s.tasks[t], m, g)
    requires Reserve(c, s, t) == Some(s')
    ensures t in s'.tasks && Answers(c, s'.tasks[t], m, g)
  {
    var p, k := s.tasks[t].pc.p, s.tasks[t].pc.k;
    ReserveCases(c, s, t, s');
    if k < |Cost(c, m, p)| {
      SliceGrows(Cost(c, m, p), k, g);
    } else {
      SliceAll(Cost(c, m, p));
    }
  }

  lemma RollingBackAnswers(c: Config, s: State, t: TaskId, s': State, m: string, g: GpuId)
    requires Entry(c, s, t, m, g) && s.tasks[t].pc.RollingBack? && Answers(c, s.tasks[t], m, g)
    requires RollBack(c, s, t) == Some(s') && g < |s'.entries| && m in s'.entries[g]
    ensures t in s'.tasks && Answers(c, s'.tasks[t], m, g)
  {
    var pc := s.tasks[t].pc;
    var shares := Cost(c, m, pc.p);
    assert pc.j < pc.k <= |shares|;
    DropShrinks(c, Move(s, t, RollingBack(pc.p, pc.j + 1, pc.k, pc.full)), m, shares[pc.j].gpu);
    SliceShrinks(shares, pc.j, pc.k, g);
  }

  lemma AbandoningAnswers(c: Config, s: State, t: TaskId, s': State, m: string, g: GpuId)
    requires Entry(c, s, t, m, g) && s.tasks[t].pc.Abandoning? && Answers(c, s.tasks[t], m, g)
    requires Abandon(c, s, t) == Some(s') && g < |s'.entries| && m in s'.entries[g]
    ensures t in s'.tasks && Answers(c, s'.tasks[t], m, g)
  {
    var p, j := s.tasks[t].pc.p, s.tasks[t].pc.j;
    var shares := Cost(c, m, p);
    assert j < |shares|;
    DropShrinks(c, Move(s, t, Abandoning(p, j + 1)), m, shares[j].gpu);
    SliceShrinks(shares, j, |shares|, g);
  }

  lemma ReleasingAnswers(c: Config, s: State, t: TaskId, s': State, m: string, g: GpuId)
    requires Entry(c, s, t, m, g) && s.tasks[t].pc.Releasing? && Answers(c, s.tasks[t], m, g)
    requires Release(c, s, t) == Some(s') && g < |s'.entries| && m in s'.entries[g]
    ensures t in s'.tasks && Answers(c, s'.tasks[t], m, g)
  {
    var pc := s.tasks[t].pc;
    assert pc.j < |pc.gpus|;
    DropShrinks(c, Move(s, t, Releasing(pc.id, pc.gpus, pc.j + 1, pc.back)), pc.id, pc.gpus[pc.j]);
    var i :| 0 <= i < |pc.gpus[pc.j..]| && pc.gpus[pc.j..][i] == g;
    assert i > 0 && pc.gpus[pc.j + 1..][i - 1] == g;
  }

  lemma StoppingAnswers(c: Config, s: State, t: TaskId, s': State, m: string, g: GpuId)
    requires Entry(c, s, t, m, g) && s.tasks[t].pc.Stopping? && s.tasks[t].pc.id == m && Stop(c, s, t) == Some(s')
    ensures t in s'.tasks && Answers(c, s'.tasks[t], m, g)
  {
    var gpus := c.models[m].gpus;
    assert gpus[0..] == gpus;
  }

  lemma CommittedAnswers(c: Config, s: State, t: TaskId, s': State, m: string, g: GpuId)
    requires Entry(c, s, t, m, g) && (s.tasks[t].pc.Committing? || s.tasks[t].pc.ReadingPlacement?)
    requires Answers(c, s.tasks[t], m, g) && TaskStep(c, s, t, Proceed) == Some(s')
    ensures t in s'.tasks && Answers(c, s'.tasks[t], m, g)
  {
    ConfiguredDevices(c, m, s.tasks[t].pc.p);
  }

  lemma StartingAnswers(c: Config, s: State, t: TaskId, choice: Choice, s': State, m: string, g: GpuId)
    requires Entry(c, s, t, m, g) && (s.tasks[t].pc.Spawning? || s.tasks[t].pc.AwaitingLoad?)
    requires Answers(c, s.tasks[t], m, g) && TaskStep(c, s, t, choice) == Some(s')
    ensures t in s'.tasks && m in s'.backends && (Answers(c, s'.tasks[t], m, g) || s'.backends[m].load == Loaded)
  {
    SliceAll(Cost(c, m, s.tasks[t].pc.p));
  }

  /** Whoever answers for an entry that is still there after its step still does, or
      has loaded the model. */
  lemma OwnAnswers(c: Config, s: State, t: TaskId, choice: Choice, s': State, m: string, g: GpuId)
    requires Entry(c, s, t, m, g) && Answers(c, s.tasks[t], m, g) && TaskStep(c, s, t, choice) == Some(s')
    requires g < |s'.entries| && m in s'.entries[g]
    ensures t in s'.tasks && (Answers(c, s'.tasks[t], m, g) || (m in s'.backends && s'.backends[m].load == Loaded))
  {
    match s.tasks[t].pc {
      case Reserving(_, _) => ReservingAnswers(c, s, t, s', m, g);
      case RollingBack(_, _, _, _) => RollingBackAnswers(c, s, t, s', m, g);
      case Abandoning(_, _) => AbandoningAnswers(c, s, t, s', m, g);
      case Releasing(_, _, _, _) => ReleasingAnswers(c, s, t, s', m, g);
      case Stopping(_, _, _) => StoppingAnswers(c, s, t, s', m, g);
      case Committing(_) => CommittedAnswers(c, s, t, s', m, g);
      case ReadingPlacement(_) => CommittedAnswers(c, s, t, s', m, g);
      case Spawning(_) => StartingAnswers(c, s, t, choice, s', m, g);
      case AwaitingLoad(_) => StartingAnswers(c, s, t, choice, s', m, g);
      case _ =>
    }
  }

  // ---------- loaded models that are taken down ----------

  predicate TakesDownOne(pc: PC) {
    pc.Evicting? || pc.Checking?
  }

  lemma TakenDownAnswers(c: Config, s: State, t: TaskId, choice: Choice, s': State, m: string, g: GpuId)
    requires Known(c, s, t) && TakesDownOne(s.tasks[t].pc) && TaskStep(c, s, t, choice) == Some(s')
    requires m in c.models && s.backends[m].load == Loaded
    ensures t in s'.tasks && m in s'.backends && (s'.backends[m].load == Loaded || Answers(c, s'.tasks[t], m, g))
  {
  }

  lemma EnteringLeavesLoaded(c: Config, s: State, t: TaskId, choice: Choice, s': State, m: string)
    requires Known(c, s, t) && TaskStep(c, s, t, choice) == Some(s') && m in c.models && s.backends[m].load == Loaded
    requires var pc := s.tasks[t].pc;
             || AtEntrance(pc) || pc.Claimed? || pc.Waiting? || pc.UnloadWaiting? || pc.Dropping? || pc.Holding?
             || pc.Sending? || pc.WorkerNotReady? || pc.Failed? || pc.Finishing? || pc.UnloadEnding?
    ensures m in s'.backends && s'.backends[m].load == Loaded
  {
  }

  lemma ReservingLeavesLoaded(c: Config, s: State, t: TaskId, choice: Choice, s': State, m: string)
    requires Known(c, s, t) && TaskStep(c, s, t, choice) == Some(s') && m in c.models && s.backends[m].load == Loaded
    requires var pc := s.tasks[t].pc;
             || pc.Resolving? || pc.Choosing? || pc.Reserving? || pc.RollingBack? || pc.Picking? || pc.Committing?
             || pc.ReadingPlacement? || pc.Spawning? || pc.AwaitingLoad? || pc.Abandoning?
    ensures m in s'.backends && s'.backends[m].load == Loaded
  {
  }

  lemma UnloadingLeavesLoaded(c: Config, s: State, t: TaskId, choice: Choice, s': State, m: string)
    requires Known(c, s, t) && TaskStep(c, s, t, choice) == Some(s') && m in c.models && s.backends[m].load == Loaded
    requires s.tasks[t].pc.Stopping? || s.tasks[t].pc.Releasing? || s.tasks[t].pc.Resetting?
    ensures m in s'.backends && s'.backends[m].load == Loaded
  {
  }

  /** Only a leader sets the load state back, and that of its own, loading model. */
  lemma FailingLeavesLoaded(c: Config, s: State, t: TaskId, choice: Choice, s': State, m: string)
    requires Knows(c, s, t) && TaskStep(c, s, t, choice) == Some(s') && m in c.models && s.backends[m].load == Loaded
    requires s.tasks[t].pc.Failing? || s.tasks[t].pc.PlacementStillAuto?
    ensures m in s'.backends && s'.backends[m].load == Loaded
  {
  }

  lemma LoadedOrAnswers(c: Config, s: State, t: TaskId, choice: Choice, s': State, m: string, g: GpuId)
    requires Knows(c, s, t) && TaskStep(c, s, t, choice) == Some(s') && m in c.models && s.backends[m].load == Loaded
    requires t in s'.tasks
    ensures m in s'.backends && (s'.backends[m].load == Loaded || Answers(c, s'.tasks[t], m, g))
  {
    var pc := s.tasks[t].pc;
    if TakesDownOne(pc) {
      TakenDownAnswers(c, s, t, choice, s', m, g);
    } else if pc.Failing? || pc.PlacementStillAuto? {
      FailingLeavesLoaded(c, s, t, choice, s', m);
    } else if pc.Stopping? || pc.Releasing? || pc.Resetting? {
      UnloadingLeavesLoaded(c, s, t, choice, s', m);
    } else if AtEntrance(pc) || pc.Claimed? || pc.Waiting? || pc.UnloadWaiting? || pc.Dropping? || pc.Holding?
              || pc.Sending? || pc.WorkerNotReady? || pc.Failed? || pc.Finishing? || pc.UnloadEnding? {
      EnteringLeavesLoaded(c, s, t, choice, s', m);
    } else {
      ReservingLeavesLoaded(c, s, t, choice, s', m);
    }
  }

  // ---------- every step ----------

  lemma OldEntryCovered(c: Config, s: State, t: TaskId, choice: Choice, s': State, m: string, g: GpuId)
    requires Entry(c, s, t, m, g) && Knows(c, s, t) && Covered(c, s, m, g) && TaskStep(c, s, t, choice) == Some(s')
    requires t in s'.tasks && s'.tasks == s.tasks[t := s'.tasks[t]] && m in s'.backends
    requires g < |s'.entries| && m in s'.entries[g]
    ensures Covered(c, s', m, g)
  {
    if s.backends[m].load == Loaded {
      LoadedOrAnswers(c, s, t, choice, s', m, g);
    } else {
      var u :| u in s.tasks && Answers(c, s.tasks[u], m, g);
      if u == t {
        OwnAnswers(c, s, t, choice, s', m, g);
      } else {
        assert s'.tasks[u] == s.tasks[u];
      }
    }
  }

  lemma NewEntryCovered(c: Config, s: State, t: TaskId, s': State, m: string, g: nat)
    requires WellFormed(c) && Known(c, s, t) && TaskFits(c, s.tasks[t]) && Explicit(c, m) && NewHere(c, s, s', t, m, g)
    requires s'.backends.Keys == c.models.Keys
    ensures Covered(c, s', m, g)
  {
    var p, k := s.tasks[t].pc.p, s.tasks[t].pc.k;
    ConfiguredDevices(c, m, p);
    assert R.Devices(Cost(c, m, p))[k] == g;
    SliceEnds(Cost(c, m, p), k);
    assert Answers(c, s'.tasks[t], m, g);
  }

  /** Entries appear only where somebody reserves them. */
  lemma NewEntriesReserved(c: Config, s: State, t: TaskId, choice: Choice, s': State)
    requires WellFormed(c) && Affordable(c, s) && Known(c, s, t) && TaskStep(c, s, t, choice) == Some(s')
    ensures |s'.entries| == |s.entries|
    ensures forall g, m :: 0 <= g < |s.entries| && m in s'.entries[g] && m !in s.entries[g] ==>
            NewHere(c, s, s', t, m, g)
  {
    var pc := s.tasks[t].pc;
    if pc.Reserving? {
      ReserveTables(c, s, t, s');
    } else if pc.RollingBack? {
      RollBackDrops(c, s, t, s');
    } else if pc.Releasing? {
      ReleaseDrops(c, s, t, s');
    } else if pc.Abandoning? {
      AbandonDrops(c, s, t, s');
    } else {
      TablesStay(c, s, t, choice, s');
    }
  }

  lemma TaskKeepsCovered(c: Config, s: State, t: TaskId, choice: Choice, s': State)
    requires WellFormed(c) && Affordable(c, s) && GuardInv(c, s) && EntriesCovered(c, s)
    requires Known(c, s, t) && TaskStep(c, s, t, choice) == Some(s')
    ensures EntriesCovered(c, s')
  {
    OneTaskMoves(c, s, t, choice, s');
    NewEntriesReserved(c, s, t, choice, s');
    forall g, m | 0 <= g < |s'.entries| && m in s'.entries[g] && Explicit(c, m)
      ensures Covered(c, s', m, g)
    {
      if m in s.entries[g] {
        assert EntryFits(c, m, g) && Covered(c, s, m, g) && BackendFits(c, m, s.backends[m]);
        OldEntryCovered(c, s, t, choice, s', m, g);
      } else {
        NewEntryCovered(c, s, t, s', m, g);
      }
    }
  }

  /** With nobody dropping loads and unloads, steps from outside leave the tables, the
      load states and whoever answers alone. */
  lemma OthersKeepCovered(c: Config, s: State, step: Step, s': State)
    requires c.detached && EntriesCovered(c, s) && !step.Advance? && Apply(c, s, step) == Some(s')
    ensures EntriesCovered(c, s')
  {
    forall g, m | 0 <= g < |s'.entries| && m in s'.entries[g] && Explicit(c, m)
      ensures Covered(c, s', m, g)
    {
      assert m in s.entries[g] && Covered(c, s, m, g);
      if s.backends[m].load != Loaded {
        var u :| u in s.tasks && Answers(c, s.tasks[u], m, g);
        assert u in s'.tasks && Answers(c, s'.tasks[u], m, g);
      }
    }
  }

  lemma {:induction false} RunKeepsCovered(c: Config, steps: seq<Step>)
    requires WellFormed(c) && c.detached && Possible(c, steps)
    ensures EntriesCovered(c, After(c, steps))
    decreases |steps|
  {
    if steps != [] {
      var n := |steps| - 1;
      RunKeepsCovered(c, steps[..n]);
      RunKeepsAffordable(c, steps[..n]);
      RunKeepsGuards(c, steps[..n]);
      var s, s' := After(c, steps[..n]), After(c, steps);
      if steps[n].Advance? {
        TaskKeepsCovered(c, s, steps[n].t, steps[n].choice, s');
      } else {
        OthersKeepCovered(c, s, steps[n], s');
      }
    }
  }

  // ---------- at rest ----------

  predicate AtRest(s: State) {
    forall t :: t in s.tasks ==> s.tasks[t].pc.Done?
  }

  /** Everybody being through, every entry is that of a loaded model. */
  ghost predicate RestsClean(c: Config, s: State) {
    AtRest(s) ==>
      forall g, m :: 0 <= g < |s.entries| && m in s.entries[g] ==> m in s.backends && s.backends[m].load == Loaded
  }

  lemma RestIsFree(c: Config, s: State)
    requires OneCoordinates(c, s) && AtRest(s)
    ensures s.coordinator.None?
  {
    forall t | t in s.tasks
      ensures s.coordinator != Some(t)
    {
      assert !Coordinates(c, s.tasks[t].pc);
    }
  }

  /** No entry of an automatic model can be there, and for the explicit ones nobody
      drops loads or unloads. */
  lemma ExplicitRestsClean(c: Config, steps: seq<Step>)
    requires WellFormed(c) && c.detached && Possible(c, steps)
    requires forall m :: m in c.models && c.models[m].gpus == [] ==> !Reservable(c, m)
    ensures RestsClean(c, After(c, steps))
  {
    var s := After(c, steps);
    RunKeepsCovered(c, steps);
    RunKeepsAffordable(c, steps);
    RunKeepsGuards(c, steps);
    if AtRest(s) {
      RestIsFree(c, s);
      forall g, m | 0 <= g < |s.entries| && m in s.entries[g]
        ensures m in s.backends && s.backends[m].load == Loaded
      {
        assert EntryFits(c, m, g);
        RestingEntry(c, steps, m, g);
      }
    }
  }

  lemma RestingEntry(c: Config, steps: seq<Step>, m: string, g: nat)
    requires WellFormed(c) && Possible(c, steps) && m in c.models && AtRest(After(c, steps))
    requires EntriesCovered(c, After(c, steps)) && After(c, steps).coordinator.None?
    requires g < |After(c, steps).entries| && m in After(c, steps).entries[g]
    requires c.models[m].gpus == [] ==> !Reservable(c, m)
    ensures After(c, steps).backends[m].load == Loaded
  {
    if c.models[m].gpus == [] {
      NoEntryWhenFree(c, steps, m, g);
    } else {
      assert Covered(c, After(c, steps), m, g);
    }
  }

  /** A placement reset under a leader leaves an entry for good: the unload of the run
      that shows it ends as well. */
  lemma ResetLeak(c: Config, m: string) returns (steps: seq<Step>)
    requires WellFormed(c) && !c.unloadsLocked && Reservable(c, m) && c.models[m].gpus == []
    ensures Possible(c, steps) && !RestsClean(c, After(c, steps))
  {
    var p := UsablePlacement(c, m);
    var missing, leaked := ResetBetweenCommitAndRead(c, m, p);
    var g := AccountedEntry(c, m, p);
    steps := EndUnloadRun(c, leaked, m);
    assert m in After(c, steps).entries[g];
  }

  lemma EndUnloadRun(c: Config, before: seq<Step>, m: string) returns (steps: seq<Step>)
    requires !c.unloadsLocked && m in c.models && Possible(c, before) && OneUnloadEnds(After(c, before), m)
    requires After(c, before).backends.Keys == c.models.Keys && |After(c, before).entries| == |c.budgets|
    ensures Possible(c, steps) && AtRest(After(c, steps))
    ensures After(c, steps).entries == After(c, before).entries && After(c, steps).backends == After(c, before).backends
  {
    steps := Then(c, before, Advance(1, Proceed), Move(After(c, before), 1, Done));
  }

  /** Nobody drops loads and unloads, or no model can be loaded with an entry; and unloads
      take the coordinator, or no automatic model can. */
  ghost predicate NoLeak(c: Config) {
    && (c.detached || forall m :: m in c.models ==> !Reservable(c, m))
    && (c.unloadsLocked || forall m :: m in c.models && c.models[m].gpus == [] ==> !Reservable(c, m))
  }

  /** Entries that nobody will ever give back are left in some run exactly if loads or
      unloads are dropped and some model can be loaded with an entry, or unloads do
      without the coordinator and some automatic model can. */
  lemma LastingLeakIff(c: Config)
    requires WellFormed(c)
    ensures (forall steps :: Possible(c, steps) ==> RestsClean(c, After(c, steps)))
       <==> NoLeak(c)
  {
    if NoLeak(c) {
      forall steps | Possible(c, steps)
        ensures RestsClean(c, After(c, steps))
      {
        CleanRest(c, steps);
      }
    } else {
      var steps := LastingLeak(c);
      assert !RestsClean(c, After(c, steps));
    }
  }

  lemma LastingLeak(c: Config) returns (steps: seq<Step>)
    requires WellFormed(c) && !NoLeak(c)
    ensures Possible(c, steps) && !RestsClean(c, After(c, steps))
  {
    if !c.detached && exists m :: m in c.models && Reservable(c, m) {
      var m :| m in c.models && Reservable(c, m);
      var g;
      steps, g := LeakRun(c, m);
    } else {
      var m :| m in c.models && c.models[m].gpus == [] && Reservable(c, m);
      steps := ResetLeak(c, m);
    }
  }

  lemma CleanRest(c: Config, steps: seq<Step>)
    requires WellFormed(c) && NoLeak(c) && Possible(c, steps)
    ensures RestsClean(c, After(c, steps))
  {
    var s := After(c, steps);
    if AtRest(s) {
      RunKeepsGuards(c, steps);
      RestIsFree(c, s);
      if Careful(c) {
        RunKeeps(c, steps);
        CarefulEntriesAreLoaded(c, s);
      } else if c.detached {
        ExplicitRestsClean(c, steps);
      } else {
        NothingReservableNoEntries(c, steps);
      }
    }
  }
}
