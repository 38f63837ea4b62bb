/** What holds of guards and leaders in every run, whether or not unloads from
    outside take the coordinator and whether or not futures are dropped half way:
    the busy check under the load-state lock is enough for these
    (src/engine/llama/mod.rs). That a loading model has somebody who loads it needs
    loads that nobody drops. */
module ProtocolGuards {
  import opened Wrappers
  import opened Protocol
  import opened ProtocolInvariant
  import opened ProtocolSteps
  import opened ProtocolSafety

  /** Holding the coordinator; an unload from outside may not. */
  predicate Coordinates(c: Config, pc: PC) {
    Inside(pc) && (c.unloadsLocked || !(pc.Checking? || pc.UnloadEnding? || ForCaller(pc)))
  }

  ghost predicate OneCoordinates(c: Config, s: State) {
    && (forall t :: t in s.tasks ==> (Coordinates(c, s.tasks[t].pc) <==> s.coordinator == Some(t)))
    && (s.coordinator.Some? ==> s.coordinator.value in s.tasks)
  }

  ghost predicate KindsFit(c: Config, s: State) {
    && s.backends.Keys == c.models.Keys && |s.entries| == |c.budgets|
    && forall t :: t in s.tasks ==> s.tasks[t].model in c.models && KindFits(s.tasks[t])
  }

  ghost predicate GuardInv(c: Config, s: State) {
    && KindsFit(c, s) && OneCoordinates(c, s) && LeadersLoading(s) && GuardsCounted(s) && GuardedIsLoaded(s)
    && (c.detached ==> LoadingLed(s))
  }

  /** What one task knows from the invariant. */
  ghost predicate Knows(c: Config, s: State, t: TaskId) {
    && Known(c, s, t)
    && var task, b := s.tasks[t], s.backends[s.tasks[t].model];
    && KindFits(task)
    && (Coordinates(c, task.pc) <==> s.coordinator == Some(t))
    && (Leads(task.pc) ==> b.load == Loading(t))
    && (Counted(task) ==> b.inFlight > 0)
    && (Relies(task) ==> b.load == Loaded)
  }

  lemma KnowsFromInv(c: Config, s: State, t: TaskId)
    requires GuardInv(c, s) && t in s.tasks
    ensures Knows(c, s, t)
  {
    if Counted(s.tasks[t]) {
      CountedIsPositive(s, t);
    }
  }

  predicate TakesOrGives(c: Config, before: Option<TaskId>, after: Option<TaskId>, t: TaskId, pc: PC, pc': PC) {
    || (Coordinates(c, pc) == Coordinates(c, pc') && after == before)
    || (!Coordinates(c, pc) && Coordinates(c, pc') && before.None? && after == Some(t))
    || (Coordinates(c, pc) && !Coordinates(c, pc') && after.None?)
  }

  /** A step of one task as far as guards and flights go; one backend may change. */
  ghost predicate GuardStep(c: Config, s: State, s': State, t: TaskId, x: string) {
    && Moves(c, s, s', t, x) && KindFits(s'.tasks[t])
    && TakesOrGives(c, s.coordinator, s'.coordinator, t, s.tasks[t].pc, s'.tasks[t].pc)
    && FlightOk(c, s, s', t, x)
  }

  lemma CoordinatorKept(c: Config, s: State, s': State, t: TaskId, x: string)
    requires OneCoordinates(c, s) && Moves(c, s, s', t, x)
    requires TakesOrGives(c, s.coordinator, s'.coordinator, t, s.tasks[t].pc, s'.tasks[t].pc)
    ensures OneCoordinates(c, s')
  {
  }

  lemma GuardStepKeeps(c: Config, s: State, s': State, t: TaskId, x: string)
    requires GuardInv(c, s) && GuardStep(c, s, s', t, x)
    ensures GuardInv(c, s')
  {
    CoordinatorKept(c, s, s', t, x);
    LeadersKept(c, s, s', t, x);
    if c.detached {
      LedKept(c, s, s', t, x);
    }
    GuardsFollow(s, s', t, s'.tasks[t]);
    GuardedKept(c, s, s', t, x);
  }

  // ---------- each region ----------

  /** The backend a step may change. */
  function Touched(task: Task): string {
    match task.pc
    case Stopping(id, _, _) => id
    case Resetting(id, _) => id
    case Evicting(victims, _) => if victims != [] then victims[0] else task.model
    case _ => task.model
  }

  ghost function TouchedHere(s: State, t: TaskId): string
    requires t in s.tasks
  {
    if Touched(s.tasks[t]) in s.backends then Touched(s.tasks[t]) else s.tasks[t].model
  }

  lemma EnterGuardStep(c: Config, s: State, t: TaskId, choice: Choice, s': State)
    requires Knows(c, s, t) && TaskStep(c, s, t, choice) == Some(s')
    requires s.tasks[t].pc.Entering?
    ensures GuardStep(c, s, s', t, s.tasks[t].model)
  {
    if ClaimsOrUses(s, t, choice) {
      UseGuardStep(c, s, t, choice, s');
    } else {
      NoUseGuardStep(c, s, t, choice, s');
    }
  }

  lemma UseGuardStep(c: Config, s: State, t: TaskId, choice: Choice, s': State)
    requires Knows(c, s, t) && Enter(c, s, t, choice) == Some(s')
    requires s.tasks[t].pc.Entering? && ClaimsOrUses(s, t, choice)
    ensures GuardStep(c, s, s', t, s.tasks[t].model)
  {
  }

  lemma NoUseGuardStep(c: Config, s: State, t: TaskId, choice: Choice, s': State)
    requires Knows(c, s, t) && Enter(c, s, t, choice) == Some(s')
    requires s.tasks[t].pc.Entering? && !ClaimsOrUses(s, t, choice)
    ensures GuardStep(c, s, s', t, s.tasks[t].model)
  {
  }

  lemma WaitGuardStep(c: Config, s: State, t: TaskId, choice: Choice, s': State)
    requires Knows(c, s, t) && TaskStep(c, s, t, choice) == Some(s')
    requires s.tasks[t].pc.Subscribing? || s.tasks[t].pc.Parked?
    ensures GuardStep(c, s, s', t, s.tasks[t].model)
  {
  }

  lemma EntranceGuardStep(c: Config, s: State, t: TaskId, choice: Choice, s': State)
    requires Knows(c, s, t) && TaskStep(c, s, t, choice) == Some(s')
    requires s.tasks[t].pc.Claimed? || s.tasks[t].pc.Waiting? || s.tasks[t].pc.UnloadWaiting?
    ensures GuardStep(c, s, s', t, s.tasks[t].model)
  {
  }

  lemma ExitGuardStep(c: Config, s: State, t: TaskId, choice: Choice, s': State)
    requires Knows(c, s, t) && TaskStep(c, s, t, choice) == Some(s')
    requires s.tasks[t].pc.Holding? || s.tasks[t].pc.Sending?
    ensures GuardStep(c, s, s', t, s.tasks[t].model)
  {
  }

  lemma DroppingGuardStep(c: Config, s: State, t: TaskId, choice: Choice, s': State)
    requires Knows(c, s, t) && TaskStep(c, s, t, choice) == Some(s') && s.tasks[t].pc.Dropping?
    ensures GuardStep(c, s, s', t, s.tasks[t].model)
  {
  }

  lemma ResolveGuardStep(c: Config, s: State, t: TaskId, choice: Choice, s': State)
    requires Knows(c, s, t) && TaskStep(c, s, t, choice) == Some(s')
    requires s.tasks[t].pc.Resolving?
    ensures GuardStep(c, s, s', t, s.tasks[t].model)
  {
  }

  lemma ChooseGuardStep(c: Config, s: State, t: TaskId, choice: Choice, s': State)
    requires Knows(c, s, t) && TaskStep(c, s, t, choice) == Some(s') && s.tasks[t].pc.Choosing?
    ensures GuardStep(c, s, s', t, s.tasks[t].model)
  {
  }

  lemma PickGuardStep(c: Config, s: State, t: TaskId, choice: Choice, s': State)
    requires Knows(c, s, t) && TaskStep(c, s, t, choice) == Some(s') && s.tasks[t].pc.Picking?
    ensures GuardStep(c, s, s', t, s.tasks[t].model)
  {
  }

  lemma ReserveGuardStep(c: Config, s: State, t: TaskId, choice: Choice, s': State)
    requires Knows(c, s, t) && TaskStep(c, s, t, choice) == Some(s')
    requires s.tasks[t].pc.Reserving?
    ensures GuardStep(c, s, s', t, s.tasks[t].model)
  {
  }

  lemma RollBackGuardStep(c: Config, s: State, t: TaskId, choice: Choice, s': State)
    requires Knows(c, s, t) && TaskStep(c, s, t, choice) == Some(s')
    requires s.tasks[t].pc.RollingBack?
    ensures GuardStep(c, s, s', t, s.tasks[t].model)
  {
  }

  lemma CommitGuardStep(c: Config, s: State, t: TaskId, choice: Choice, s': State)
    requires Knows(c, s, t) && TaskStep(c, s, t, choice) == Some(s')
    requires s.tasks[t].pc.Committing? || s.tasks[t].pc.ReadingPlacement?
    ensures GuardStep(c, s, s', t, s.tasks[t].model)
  {
  }

  lemma LoadGuardStep(c: Config, s: State, t: TaskId, choice: Choice, s': State)
    requires Knows(c, s, t) && TaskStep(c, s, t, choice) == Some(s')
    requires s.tasks[t].pc.Spawning? || s.tasks[t].pc.AwaitingLoad?
    ensures GuardStep(c, s, s', t, s.tasks[t].model)
  {
  }

  lemma AbandonGuardStep(c: Config, s: State, t: TaskId, choice: Choice, s': State)
    requires Knows(c, s, t) && TaskStep(c, s, t, choice) == Some(s')
    requires s.tasks[t].pc.Abandoning?
    ensures GuardStep(c, s, s', t, s.tasks[t].model)
  {
  }

  lemma LeaveGuardStep(c: Config, s: State, t: TaskId, choice: Choice, s': State)
    requires Knows(c, s, t) && TaskStep(c, s, t, choice) == Some(s')
    requires s.tasks[t].pc.Failed? || s.tasks[t].pc.Finishing?
    ensures GuardStep(c, s, s', t, s.tasks[t].model)
  {
  }

  lemma FailGuardStep(c: Config, s: State, t: TaskId, choice: Choice, s': State)
    requires Knows(c, s, t) && TaskStep(c, s, t, choice) == Some(s')
    requires s.tasks[t].pc.PlacementStillAuto? || s.tasks[t].pc.Failing?
    ensures GuardStep(c, s, s', t, s.tasks[t].model)
  {
  }

  lemma EvictGuardStep(c: Config, s: State, t: TaskId, choice: Choice, s': State)
    requires Knows(c, s, t) && TaskStep(c, s, t, choice) == Some(s') && s.tasks[t].pc.Evicting?
    ensures GuardStep(c, s, s', t, TouchedHere(s, t))
  {
  }

  lemma UnloadGuardStep(c: Config, s: State, t: TaskId, choice: Choice, s': State)
    requires Knows(c, s, t) && TaskStep(c, s, t, choice) == Some(s')
    requires s.tasks[t].pc.Checking? || s.tasks[t].pc.UnloadEnding?
    ensures GuardStep(c, s, s', t, s.tasks[t].model)
  {
  }

  lemma ReleaseGuardStep(c: Config, s: State, t: TaskId, choice: Choice, s': State)
    requires Knows(c, s, t) && TaskStep(c, s, t, choice) == Some(s')
    requires s.tasks[t].pc.Releasing?
    ensures GuardStep(c, s, s', t, s.tasks[t].model)
  {
  }

  lemma TakeDownGuardStep(c: Config, s: State, t: TaskId, choice: Choice, s': State)
    requires Knows(c, s, t) && TaskStep(c, s, t, choice) == Some(s')
    requires s.tasks[t].pc.Stopping? || s.tasks[t].pc.Resetting?
    ensures GuardStep(c, s, s', t, TouchedHere(s, t))
  {
  }

  /** Every step of every task is one of these; `x` is the backend it may change. */
  lemma TaskGuardStep(c: Config, s: State, t: TaskId, choice: Choice, s': State) returns (x: string)
    requires Knows(c, s, t) && TaskStep(c, s, t, choice) == Some(s')
    ensures GuardStep(c, s, s', t, x)
    ensures !s.tasks[t].pc.Evicting? && !s.tasks[t].pc.Stopping? && !s.tasks[t].pc.Resetting? ==> x == s.tasks[t].model
  {
    x := s.tasks[t].model;
    var pc := s.tasks[t].pc;
    match pc {
      case Entering => EnterGuardStep(c, s, t, choice, s');
      case Subscribing(_) => WaitGuardStep(c, s, t, choice, s');
      case Parked(_, _) => WaitGuardStep(c, s, t, choice, s');
      case Claimed => EntranceGuardStep(c, s, t, choice, s');
      case Waiting => EntranceGuardStep(c, s, t, choice, s');
      case UnloadWaiting => EntranceGuardStep(c, s, t, choice, s');
      case Dropping => DroppingGuardStep(c, s, t, choice, s');
      case Holding => ExitGuardStep(c, s, t, choice, s');
      case Sending => ExitGuardStep(c, s, t, choice, s');
      case Resolving => ResolveGuardStep(c, s, t, choice, s');
      case Choosing(_, _, _) => ChooseGuardStep(c, s, t, choice, s');
      case Picking(_, _) => PickGuardStep(c, s, t, choice, s');
      case Reserving(_, _) => ReserveGuardStep(c, s, t, choice, s');
      case RollingBack(_, _, _, _) => RollBackGuardStep(c, s, t, choice, s');
      case Committing(_) => CommitGuardStep(c, s, t, choice, s');
      case ReadingPlacement(_) => CommitGuardStep(c, s, t, choice, s');
      case Spawning(_) => LoadGuardStep(c, s, t, choice, s');
      case AwaitingLoad(_) => LoadGuardStep(c, s, t, choice, s');
      case Abandoning(_, _) => AbandonGuardStep(c, s, t, choice, s');
      case PlacementStillAuto => FailGuardStep(c, s, t, choice, s');
      case Failing => FailGuardStep(c, s, t, choice, s');
      case Failed => LeaveGuardStep(c, s, t, choice, s');
      case Finishing => LeaveGuardStep(c, s, t, choice, s');
      case Checking => UnloadGuardStep(c, s, t, choice, s');
      case UnloadEnding => UnloadGuardStep(c, s, t, choice, s');
      case Releasing(_, _, _, _) => ReleaseGuardStep(c, s, t, choice, s');
      case Evicting(_, _) =>
        EvictGuardStep(c, s, t, choice, s');
        x := TouchedHere(s, t);
      case Stopping(_, _, _) =>
        TakeDownGuardStep(c, s, t, choice, s');
        x := TouchedHere(s, t);
      case Resetting(_, _) =>
        TakeDownGuardStep(c, s, t, choice, s');
        x := TouchedHere(s, t);
      case _ =>
    }
  }

  /** A step moves one task, and only if that one may. */
  lemma OneTaskMoves(c: Config, s: State, t: TaskId, choice: Choice, s': State)
    requires GuardInv(c, s) && Known(c, s, t) && TaskStep(c, s, t, choice) == Some(s')
    ensures Knows(c, s, t) && t in s'.tasks && s'.tasks == s.tasks[t := s.tasks[t].(pc := s'.tasks[t].pc)]
    ensures s'.backends.Keys == s.backends.Keys
  {
    KnowsFromInv(c, s, t);
    var x := TaskGuardStep(c, s, t, choice, s');
  }

  lemma TaskKeepsGuards(c: Config, s: State, t: TaskId, choice: Choice, s': State)
    requires GuardInv(c, s) && Known(c, s, t) && TaskStep(c, s, t, choice) == Some(s')
    ensures GuardInv(c, s')
  {
    KnowsFromInv(c, s, t);
    var x := TaskGuardStep(c, s, t, choice, s');
    GuardStepKeeps(c, s, s', t, x);
  }

  lemma StartKeepsGuards(c: Config, s: State, t: TaskId, m: string, kind: Kind, s': State)
    requires GuardInv(c, s) && Apply(c, s, Start(t, m, kind)) == Some(s')
    ensures GuardInv(c, s')
  {
    GuardsFollow(s, s', t, s'.tasks[t]);
    SameLoadsFlight(s, s', t);
    StartGuarded(s, s', t);
    StartKinds(c, s, t, m, kind, s');
  }

  lemma StartKinds(c: Config, s: State, t: TaskId, m: string, kind: Kind, s': State)
    requires KindsFit(c, s) && OneCoordinates(c, s) && Apply(c, s, Start(t, m, kind)) == Some(s')
    ensures KindsFit(c, s') && OneCoordinates(c, s')
  {
  }

  lemma WorkerDiesKeepsGuards(c: Config, s: State, m: string, s': State)
    requires GuardInv(c, s) && Apply(c, s, WorkerDies(m)) == Some(s')
    ensures GuardInv(c, s')
  {
    WorkerDiesFlight(s, s', m);
    WorkerDiesGuards(s, s', m);
    WorkerDiesKinds(c, s, s', m);
  }

  lemma WorkerDiesKinds(c: Config, s: State, s': State, m: string)
    requires KindsFit(c, s) && OneCoordinates(c, s) && WorkerGone(s, m, s')
    ensures KindsFit(c, s') && OneCoordinates(c, s')
  {
  }

  /** A dropped future gives the coordinator back and still owes its guard. */
  lemma CancelKeepsGuards(c: Config, s: State, t: TaskId, s': State)
    requires GuardInv(c, s) && Apply(c, s, Cancel(t)) == Some(s')
    ensures GuardInv(c, s')
  {
    CancelKinds(c, s, t);
    CancelCounts(c, s, t);
    CancelCoordinator(c, s, t);
    CancelRelies(s, t);
    if c.detached {
      CancelLed(c, s, t);
    }
  }

  lemma CancelKinds(c: Config, s: State, t: TaskId)
    requires KindsFit(c, s) && t in s.tasks
    ensures KindsFit(c, Dropped(s, t))
  {
  }

  lemma CancelCounts(c: Config, s: State, t: TaskId)
    requires KindsFit(c, s) && GuardsCounted(s) && t in s.tasks && CanDrop(c, s.tasks[t].pc)
    ensures GuardsCounted(Dropped(s, t))
  {
    var s' := Dropped(s, t);
    assert Counted(s'.tasks[t]) == Counted(s.tasks[t]);
    GuardsFollow(s, s', t, s'.tasks[t]);
  }

  lemma CancelCoordinator(c: Config, s: State, t: TaskId)
    requires OneCoordinates(c, s) && t in s.tasks
    ensures OneCoordinates(c, Dropped(s, t))
  {
  }

  lemma CancelRelies(s: State, t: TaskId)
    requires GuardedIsLoaded(s) && LeadersLoading(s) && t in s.tasks
    ensures GuardedIsLoaded(Dropped(s, t)) && LeadersLoading(Dropped(s, t))
  {
  }

  lemma CancelLed(c: Config, s: State, t: TaskId)
    requires c.detached && LoadingLed(s) && t in s.tasks && CanDrop(c, s.tasks[t].pc)
    ensures LoadingLed(Dropped(s, t))
  {
    var s' := Dropped(s, t);
    forall m | m in s'.backends && s'.backends[m].load.Loading?
      ensures LeadsFor(s', s'.backends[m].load.leader, m)
    {
      assert LeadsFor(s, s.backends[m].load.leader, m);
    }
  }

  lemma InitGuards(c: Config)
    ensures GuardInv(c, Init(c))
  {
    forall m | m in c.models
      ensures CountedFor(Init(c).tasks, m) == {}
    {
    }
  }

  lemma {:induction false} RunKeepsGuards(c: Config, steps: seq<Step>)
    requires Possible(c, steps)
    ensures GuardInv(c, After(c, steps))
    decreases |steps|
  {
    if steps == [] {
      InitGuards(c);
    } else {
      var n := |steps| - 1;
      RunKeepsGuards(c, steps[..n]);
      var s, s' := After(c, steps[..n]), After(c, steps);
      match steps[n] {
        case Start(t, m, kind) => StartKeepsGuards(c, s, t, m, kind, s');
        case Advance(t, choice) => TaskKeepsGuards(c, s, t, choice, s');
        case WorkerDies(m) => WorkerDiesKeepsGuards(c, s, m, s');
        case Cancel(t) => CancelKeepsGuards(c, s, t, s');
      }
    }
  }

  // ---------- theorems ----------

  /** In every run, dropped futures included, `in_flight` is the number of live
      sentinels and guards; a model with a live guard is loaded, so nobody's unload,
      an eviction included, takes a model from under a request; and a request never
      finds its worker not ready. */
  lemma GuardsProtect(c: Config, steps: seq<Step>)
    requires Possible(c, steps)
    ensures var s := After(c, steps);
            && s.backends.Keys == c.models.Keys
            && (forall m :: m in c.models ==> s.backends[m].inFlight == |CountedFor(s.tasks, m)|)
            && (forall t :: t in s.tasks ==> s.tasks[t].model in c.models)
            && (forall t :: t in s.tasks && UsesModel(s.tasks[t].pc) ==>
                  s.backends[s.tasks[t].model].load == Loaded && t in CountedFor(s.tasks, s.tasks[t].model))
            && (forall t :: t in s.tasks ==> !s.tasks[t].pc.WorkerNotReady?)
  {
    RunKeepsGuards(c, steps);
    var s := After(c, steps);
    forall t | t in s.tasks
      ensures KindFits(s.tasks[t])
    {
    }
  }

  /** In every run, dropped futures included, no model has two leaders, a model with
      a leader is loading, and in the whole process at most one leader is between
      taking the coordinator and giving it back. */
  lemma OneLoadAtATime(c: Config, steps: seq<Step>)
    requires Possible(c, steps)
    ensures var s := After(c, steps);
            && s.backends.Keys == c.models.Keys
            && (forall t, m :: m in c.models && LeadsFor(s, t, m) ==> s.backends[m].load == Loading(t))
            && (forall t, u, m :: LeadsFor(s, t, m) && LeadsFor(s, u, m) ==> t == u)
            && (forall t, u :: t in s.tasks && u in s.tasks ==>
                  Coordinates(c, s.tasks[t].pc) && Coordinates(c, s.tasks[u].pc) ==> t == u)
  {
    RunKeepsGuards(c, steps);
    var s := After(c, steps);
    forall t, u, m | LeadsFor(s, t, m) && LeadsFor(s, u, m)
      ensures t == u
    {
      assert s.tasks[t].model in c.models;
      assert s.backends[m].load == Loading(t);
    }
  }

  /** Where nobody drops a load, a loading model is being loaded in every run. */
  lemma DetachedLoadingIsLed(c: Config, steps: seq<Step>, m: string)
    requires c.detached && Possible(c, steps) && m in c.models
    ensures var s := After(c, steps);
            m in s.backends && (s.backends[m].load.Loading? ==> LeadsFor(s, s.backends[m].load.leader, m))
  {
    RunKeepsGuards(c, steps);
  }
}
