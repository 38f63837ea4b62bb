/** What a future dropped half way leaves behind (src/routing/routed_backend.rs:90-93
    drops requests that take too long, a client that disconnects drops the handlers of
    the admin interface): a model that is loading for ever, entries nobody gives back,
    a leader that goes round in circles; and exactly when this cannot happen. */
module ProtocolDrops {
  import opened Wrappers
  import opened MapSums
  import opened Placements
  import opened Protocol
  import opened ProtocolInvariant
  import opened ProtocolSafety
  import opened ProtocolRuns
  import opened ProtocolGuards
  import opened ProtocolAffordable
  import opened ProtocolCounterexample

  // ---------- loading for ever ----------

  /** The model is loading, but the task that claimed it is through. */
  predicate Wedged(s: State, m: string) {
    && m in s.backends && s.backends[m].load.Loading?
    && var t := s.backends[m].load.leader;
    t in s.tasks && (s.tasks[t].pc.Dropping? || s.tasks[t].pc.Done?)
  }

  lemma WedgedTask(c: Config, s: State, u: TaskId, choice: Choice, s': State, m: string)
    requires GuardInv(c, s) && Wedged(s, m) && Known(c, s, u) && TaskStep(c, s, u, choice) == Some(s')
    ensures Wedged(s', m) && s'.backends[m].load == s.backends[m].load
  {
    if u == s.backends[m].load.leader {
      DroppingEnds(c, s, u, choice, s', m);
    } else {
      KnowsFromInv(c, s, u);
      var x := TaskGuardStep(c, s, u, choice, s');
      WedgedMove(c, s, s', u, x, m);
    }
  }

  lemma DroppingEnds(c: Config, s: State, u: TaskId, choice: Choice, s': State, m: string)
    requires Known(c, s, u) && TaskStep(c, s, u, choice) == Some(s') && (s.tasks[u].pc.Dropping? || s.tasks[u].pc.Done?)
    requires m in s.backends
    ensures u in s'.tasks && s'.tasks[u].pc.Done? && m in s'.backends && s'.backends[m].load == s.backends[m].load
  {
  }

  /** Only the leader of a loading model could change its load state. */
  lemma WedgedMove(c: Config, s: State, s': State, u: TaskId, x: string, m: string)
    requires Wedged(s, m) && GuardStep(c, s, s', u, x) && u != s.backends[m].load.leader
    ensures m in s'.backends && s'.backends[m].load == s.backends[m].load
    ensures var t := s.backends[m].load.leader;
            t in s'.tasks && (t != u ==> s'.tasks[t] == s.tasks[t])
  {
  }

  lemma WedgedStep(c: Config, s: State, step: Step, s': State, m: string)
    requires GuardInv(c, s) && Wedged(s, m) && Apply(c, s, step) == Some(s')
    ensures Wedged(s', m) && s'.backends[m].load == s.backends[m].load
  {
    if step.Advance? {
      WedgedTask(c, s, step.t, step.choice, s', m);
    }
  }

  /** Nothing that ever happens afterwards gets a wedged model out of its state. */
  lemma {:induction false} WedgedForever(c: Config, before: seq<Step>, after: seq<Step>, m: string)
    requires Possible(c, before) && Possible(c, before + after) && Wedged(After(c, before), m)
    ensures Wedged(After(c, before + after), m)
    ensures After(c, before + after).backends[m].load == After(c, before).backends[m].load
    decreases |after|
  {
    if after == [] {
      assert before + after == before;
    } else {
      var n := |after| - 1;
      LastStep(c, before, after);
      WedgedForever(c, before, after[..n], m);
      RunKeepsGuards(c, before + after[..n]);
      WedgedStep(c, After(c, before + after[..n]), after[n], After(c, before + after), m);
    }
  }

  /** ... so no request is ever served by it again. */
  lemma WedgedServesNobody(c: Config, before: seq<Step>, after: seq<Step>, m: string)
    requires Possible(c, before) && Possible(c, before + after) && Wedged(After(c, before), m)
    ensures forall t :: t in After(c, before + after).tasks && After(c, before + after).tasks[t].model == m ==>
              !UsesModel(After(c, before + after).tasks[t].pc)
  {
    WedgedForever(c, before, after, m);
    GuardsProtect(c, before + after);
  }

  /** A request claims an unloaded model and is dropped while it waits for the
      coordinator. */
  lemma WedgeRun(c: Config, m: string) returns (steps: seq<Step>)
    requires !c.detached && m in c.models
    ensures Possible(c, steps) && Wedged(After(c, steps), m)
    ensures After(c, steps).tasks == map[0 := Task(m, Request, Done)]
  {
    var s := Init(c);
    var b := s.backends[m];
    var b1, b2 := b.(load := Loading(0)), b.(load := Loading(0), inFlight := 1);
    var e := s.entries;
    assert s.backends[m := b] == s.backends;
    assert Exec(c, []) == Some(s);
    steps := Then(c, [], Start(0, m, Request), At(s, m, 0, Request, Entering, b, e, None));
    AtMoves(s, m, 0, Request, Entering, b, e, None, Claimed, b1);
    steps := Then(c, steps, Advance(0, Proceed), At(s, m, 0, Request, Claimed, b1, e, None));
    AtMoves(s, m, 0, Request, Claimed, b1, e, None, Waiting, b2);
    steps := Then(c, steps, Advance(0, Proceed), At(s, m, 0, Request, Waiting, b2, e, None));
    steps := DropRun(c, steps, s, m, b2, e);
  }

  lemma DropRun(c: Config, before: seq<Step>, s: State, m: string, b: Backend, e: seq<map<string, nat>>)
    returns (steps: seq<Step>)
    requires !c.detached && m in c.models && s.backends.Keys == c.models.Keys && |e| == |c.budgets| && s.tasks == map[]
    requires Possible(c, before) && After(c, before) == At(s, m, 0, Request, Waiting, b, e, None)
    requires b.load == Loading(0) && b.inFlight == 1
    ensures Possible(c, steps) && Wedged(After(c, steps), m)
    ensures After(c, steps).tasks == map[0 := Task(m, Request, Done)]
  {
    AtMoves(s, m, 0, Request, Waiting, b, e, None, Dropping, b);
    steps := Then(c, before, Cancel(0), At(s, m, 0, Request, Dropping, b, e, None));
    AtMoves(s, m, 0, Request, Dropping, b, e, None, Done, b.(inFlight := 0));
    steps := Then(c, steps, Advance(0, Proceed), At(s, m, 0, Request, Done, b.(inFlight := 0), e, None));
  }

  /** In every reachable state a loading model has its leader. */
  ghost predicate LoadingAlwaysLed(c: Config) {
    forall steps, m :: Possible(c, steps) && m in c.models ==> LedAfter(c, steps, m)
  }

  ghost predicate LedAfter(c: Config, steps: seq<Step>, m: string)
    requires Possible(c, steps)
  {
    var s := After(c, steps);
    m in s.backends && (s.backends[m].load.Loading? ==> LeadsFor(s, s.backends[m].load.leader, m))
  }

  /** Single flight in full is a matter of nobody dropping loads, and of that alone. */
  lemma DetachmentDecidesFlight(c: Config)
    ensures LoadingAlwaysLed(c) <==> c.detached || c.models == map[]
  {
    if c.detached {
      forall steps, m | Possible(c, steps) && m in c.models
        ensures LedAfter(c, steps, m)
      {
        DetachedLoadingIsLed(c, steps, m);
      }
    } else if c.models != map[] {
      var m :| m in c.models;
      var steps := WedgeRun(c, m);
      assert !LedAfter(c, steps, m);
    }
  }

  // ---------- entries nobody gives back ----------

  lemma TablesStay(c: Config, s: State, u: TaskId, choice: Choice, s': State)
    requires Known(c, s, u) && !MovesTables(s.tasks[u].pc) && TaskStep(c, s, u, choice) == Some(s')
    ensures s'.entries == s.entries
  {
    var pc := s.tasks[u].pc;
    if !pc.Resolving? && !pc.Choosing? && !pc.Committing? && !pc.ReadingPlacement? && !pc.Spawning?
       && !pc.AwaitingLoad? {
      IdleTask(c, s, u, choice, s');
    }
  }

  /** Model m has the same entries in both. */
  ghost predicate SameEntries(s: State, s': State, m: string) {
    |s'.entries| == |s.entries|
    && forall g :: 0 <= g < |s.entries| ==>
         (m in s'.entries[g] <==> m in s.entries[g]) && (m in s.entries[g] ==> s'.entries[g][m] == s.entries[g][m])
  }

  /** The task could touch the model's entries or is about to take it down. */
  predicate Touches(task: Task, m: string) {
    || (task.model == m && (task.pc.Reserving? || task.pc.RollingBack? || task.pc.Abandoning?))
    || ((task.pc.Stopping? || task.pc.Releasing? || task.pc.Resetting?) && task.pc.id == m)
  }

  lemma ReserveTouchesOwn(c: Config, s: State, u: TaskId, s': State, m: string)
    requires Known(c, s, u) && s.tasks[u].pc.Reserving? && s.tasks[u].model != m && Reserve(c, s, u) == Some(s')
    ensures SameEntries(s, s', m)
  {
    ReserveCases(c, s, u, s');
  }

  lemma DropTouchesOne(c: Config, s: State, x: string, g: GpuId, m: string)
    requires x != m
    ensures SameEntries(s, Drop(c, s, x, g), m)
  {
  }

  lemma UntouchedEntries(c: Config, s: State, u: TaskId, choice: Choice, s': State, m: string)
    requires Known(c, s, u) && !Touches(s.tasks[u], m) && TaskStep(c, s, u, choice) == Some(s')
    ensures SameEntries(s, s', m)
  {
    var task := s.tasks[u];
    match task.pc {
      case Reserving(_, _) => ReserveTouchesOwn(c, s, u, s', m);
      case RollingBack(p, j, k, full) =>
        if j < k && j < |Cost(c, task.model, p)| {
          DropTouchesOne(c, Move(s, u, RollingBack(p, j + 1, k, full)), task.model, Cost(c, task.model, p)[j].gpu, m);
        }
      case Abandoning(p, j) =>
        if j < |Cost(c, task.model, p)| {
          DropTouchesOne(c, Move(s, u, Abandoning(p, j + 1)), task.model, Cost(c, task.model, p)[j].gpu, m);
        }
      case Releasing(id, gpus, j, back) =>
        if j < |gpus| {
          DropTouchesOne(c, Move(s, u, Releasing(id, gpus, j + 1, back)), id, gpus[j], m);
        }
      case _ => TablesStay(c, s, u, choice, s');
    }
  }

  /** From these points a step may lead to one that touches a model. */
  predicate Approaches(pc: PC) {
    || pc.Resolving? || pc.Choosing? || pc.Reserving? || pc.RollingBack? || pc.Evicting? || pc.Checking? || pc.Stopping?
    || pc.Releasing? || pc.Spawning? || pc.AwaitingLoad? || pc.Abandoning?
  }

  predicate TouchPoint(pc: PC) {
    pc.Reserving? || pc.RollingBack? || pc.Abandoning? || pc.Stopping? || pc.Releasing? || pc.Resetting?
  }

  lemma NoApproachBefore(c: Config, s: State, u: TaskId, choice: Choice, s': State)
    requires Known(c, s, u) && TaskStep(c, s, u, choice) == Some(s')
    requires var pc := s.tasks[u].pc;
             || AtEntrance(pc) || pc.Claimed? || pc.Waiting? || pc.UnloadWaiting? || pc.Picking? || pc.Dropping?
             || pc.Holding? || pc.Sending? || pc.WorkerNotReady?
    ensures u in s'.tasks && !TouchPoint(s'.tasks[u].pc)
  {
  }

  lemma NoApproachAfter(c: Config, s: State, u: TaskId, choice: Choice, s': State)
    requires Known(c, s, u) && TaskStep(c, s, u, choice) == Some(s')
    requires var pc := s.tasks[u].pc;
             || pc.Committing? || pc.ReadingPlacement? || pc.PlacementStillAuto? || pc.Failing? || pc.Failed?
             || pc.Finishing? || pc.UnloadEnding? || pc.Resetting?
    ensures u in s'.tasks && !TouchPoint(s'.tasks[u].pc)
  {
  }

  lemma LeaderTouches(c: Config, s: State, u: TaskId, choice: Choice, s': State, m: string)
    requires Known(c, s, u) && TaskStep(c, s, u, choice) == Some(s') && s.tasks[u].model != m
    requires var pc := s.tasks[u].pc;
             || pc.Resolving? || pc.Choosing? || pc.Reserving? || pc.RollingBack? || pc.Spawning? || pc.AwaitingLoad?
             || pc.Abandoning?
    ensures u in s'.tasks && !Touches(s'.tasks[u], m)
  {
  }

  lemma TakerTouches(c: Config, s: State, u: TaskId, choice: Choice, s': State, m: string)
    requires Known(c, s, u) && TaskStep(c, s, u, choice) == Some(s') && !Touches(s.tasks[u], m)
    requires m in s.backends && s.backends[m].load != Loaded
    requires s.tasks[u].pc.Evicting? || s.tasks[u].pc.Checking? || s.tasks[u].pc.Stopping? || s.tasks[u].pc.Releasing?
    ensures u in s'.tasks && !Touches(s'.tasks[u], m)
  {
  }

  /** A task starts touching a model only as its leader or if it finds it loaded. */
  lemma StartsTouching(c: Config, s: State, u: TaskId, choice: Choice, s': State, m: string)
    requires Known(c, s, u) && !Touches(s.tasks[u], m) && TaskStep(c, s, u, choice) == Some(s')
    requires m in s.backends && s.backends[m].load != Loaded && !(s.tasks[u].model == m && Leads(s.tasks[u].pc))
    ensures u in s'.tasks && !Touches(s'.tasks[u], m)
  {
    var pc := s.tasks[u].pc;
    if pc.Evicting? || pc.Checking? || pc.Stopping? || pc.Releasing? {
      TakerTouches(c, s, u, choice, s', m);
    } else if Approaches(pc) {
      LeaderTouches(c, s, u, choice, s', m);
    } else if AtEntrance(pc) || pc.Claimed? || pc.Waiting? || pc.UnloadWaiting? || pc.Picking? || pc.Dropping?
              || pc.Holding? || pc.Sending? || pc.WorkerNotReady? {
      NoApproachBefore(c, s, u, choice, s');
    } else {
      NoApproachAfter(c, s, u, choice, s');
    }
  }

  ghost predicate NobodyTouches(s: State, m: string) {
    forall t :: t in s.tasks ==> !Touches(s.tasks[t], m)
  }

  /** Wedged, and nobody is touching its entries. */
  ghost predicate Stuck(s: State, m: string) {
    Wedged(s, m) && NobodyTouches(s, m)
  }

  lemma StuckTask(c: Config, s: State, u: TaskId, choice: Choice, s': State, m: string)
    requires GuardInv(c, s) && Stuck(s, m) && Known(c, s, u) && TaskStep(c, s, u, choice) == Some(s')
    ensures Stuck(s', m) && SameEntries(s, s', m)
  {
    WedgedTask(c, s, u, choice, s', m);
    UntouchedEntries(c, s, u, choice, s', m);
    StartsTouching(c, s, u, choice, s', m);
    OneTaskMoves(c, s, u, choice, s');
  }

  lemma StuckStep(c: Config, s: State, step: Step, s': State, m: string)
    requires GuardInv(c, s) && Stuck(s, m) && Apply(c, s, step) == Some(s')
    ensures Stuck(s', m) && SameEntries(s, s', m)
  {
    if step.Advance? {
      StuckTask(c, s, step.t, step.choice, s', m);
    } else {
      WedgedStep(c, s, step, s', m);
      OutsideTouches(c, s, step, s', m);
    }
  }

  /** Starts, dying workers and dropped futures touch no entries. */
  lemma OutsideTouches(c: Config, s: State, step: Step, s': State, m: string)
    requires NobodyTouches(s, m) && !step.Advance? && Apply(c, s, step) == Some(s')
    ensures NobodyTouches(s', m) && SameEntries(s, s', m)
  {
  }

  /** The entries of a stuck model stay whatever happens. */
  lemma {:induction false} StuckForever(c: Config, before: seq<Step>, after: seq<Step>, m: string)
    requires Possible(c, before) && Possible(c, before + after) && Stuck(After(c, before), m)
    ensures Stuck(After(c, before + after), m) && SameEntries(After(c, before), After(c, before + after), m)
    decreases |after|
  {
    if after == [] {
      assert before + after == before;
    } else {
      var n := |after| - 1;
      LastStep(c, before, after);
      StuckForever(c, before, after[..n], m);
      RunKeepsGuards(c, before + after[..n]);
      StuckStep(c, After(c, before + after[..n]), after[n], After(c, before + after), m);
    }
  }

  /** A load dropped after its reservation: the model is stuck with all its entries. */
  lemma StuckRun(c: Config, m: string) returns (steps: seq<Step>, g: nat)
    requires WellFormed(c) && !c.detached && Reservable(c, m)
    ensures Possible(c, steps) && Stuck(After(c, steps), m)
    ensures g < |After(c, steps).entries| && m in After(c, steps).entries[g]
  {
    var p := UsablePlacement(c, m);
    var e := Filled(c, m, ShareMap(Cost(c, m, p)));
    assert Exec(c, []) == Some(Init(c));
    assert Init(c).entries == Filled(c, m, map[]);
    steps := ReserveRun(c, [], m, 0, p, false);
    steps := DropReserved(c, steps, Init(c), m, p, Init(c).backends[m].(load := Loading(0)), e);
    g := AccountedEntry(c, m, p);
  }

  lemma DropReserved(c: Config, before: seq<Step>, s: State, m: string, p: Placement, b: Backend,
                     e: seq<map<string, nat>>)
    returns (steps: seq<Step>)
    requires !c.detached && m in c.models && s.backends.Keys == c.models.Keys && |e| == |c.budgets| && s.tasks == map[]
    requires Possible(c, before) && After(c, before) == At(s, m, 0, Preload, Committing(p), b, e, Some(0))
    requires b.load == Loading(0)
    ensures Possible(c, steps) && Stuck(After(c, steps), m) && After(c, steps).entries == e
  {
    AtMoves(s, m, 0, Preload, Committing(p), b, e, Some(0), Done, b);
    steps := Then(c, before, Cancel(0), At(s, m, 0, Preload, Done, b, e, None));
  }

  lemma AccountedEntry(c: Config, m: string, p: Placement) returns (g: nat)
    requires WellFormed(c) && MayUse(c, m, p) && AnyAccounted(c, m, p)
    ensures g < |c.budgets| && c.budgets[g] != 0 && m in Filled(c, m, ShareMap(Cost(c, m, p)))[g]
  {
    var i :| 0 <= i < |Cost(c, m, p)| && Accounted(c, Cost(c, m, p)[i]);
    UsableDistinct(c, m, p);
    ShareMapAt(Cost(c, m, p), i);
    g := Cost(c, m, p)[i].gpu;
  }

  // ---------- entries of an unloaded model ----------

  /** Unloaded, and nobody is on the way to change that or its entries. */
  ghost predicate LeftAlone(s: State, m: string) {
    && m in s.backends && s.backends[m].load == Unloaded && NobodyTouches(s, m)
    && forall t :: t in s.tasks && s.tasks[t].model == m ==> s.tasks[t].kind.Unload? || s.tasks[t].pc.Done?
  }

  lemma LeftAloneTask(c: Config, s: State, u: TaskId, choice: Choice, s': State, m: string)
    requires GuardInv(c, s) && LeftAlone(s, m) && Known(c, s, u) && TaskStep(c, s, u, choice) == Some(s')
    ensures LeftAlone(s', m) && SameEntries(s, s', m)
  {
    UntouchedEntries(c, s, u, choice, s', m);
    OneTaskMoves(c, s, u, choice, s');
    assert !(s.tasks[u].model == m && Leads(s.tasks[u].pc));
    StartsTouching(c, s, u, choice, s', m);
    StaysUnloaded(c, s, u, choice, s', m);
  }

  lemma UnloadOfUnloaded(c: Config, s: State, u: TaskId, choice: Choice, s': State, m: string)
    requires Known(c, s, u) && s.tasks[u].model == m && TaskStep(c, s, u, choice) == Some(s')
    requires || s.tasks[u].pc.UnloadWaiting? || s.tasks[u].pc.Checking? || s.tasks[u].pc.UnloadEnding?
             || ForCaller(s.tasks[u].pc)
    requires s.backends[m].load == Unloaded
    ensures s'.backends[m].load == Unloaded
  {
  }

  lemma TakerOfUnloaded(c: Config, s: State, u: TaskId, choice: Choice, s': State, m: string)
    requires Known(c, s, u) && TaskStep(c, s, u, choice) == Some(s')
    requires s.tasks[u].pc.Evicting? || s.tasks[u].pc.Stopping? || s.tasks[u].pc.Resetting?
    requires m in s.backends && s.backends[m].load == Unloaded
    ensures m in s'.backends && s'.backends[m].load == Unloaded
  {
  }

  lemma StaysUnloaded(c: Config, s: State, u: TaskId, choice: Choice, s': State, m: string)
    requires Knows(c, s, u) && TaskStep(c, s, u, choice) == Some(s')
    requires m in s.backends && s.backends[m].load == Unloaded
    requires s.tasks[u].model == m ==> s.tasks[u].kind.Unload? || s.tasks[u].pc.Done?
    ensures m in s'.backends && s'.backends[m].load == Unloaded
    ensures u in s'.tasks && s'.tasks[u].model == s.tasks[u].model && s'.tasks[u].kind == s.tasks[u].kind
  {
    var x := TaskGuardStep(c, s, u, choice, s');
    var pc := s.tasks[u].pc;
    if pc.Evicting? || pc.Stopping? || pc.Resetting? {
      TakerOfUnloaded(c, s, u, choice, s', m);
    } else if s.tasks[u].model == m {
      UnloadOfUnloaded(c, s, u, choice, s', m);
    }
  }

  lemma LeftAloneStep(c: Config, s: State, step: Step, s': State, m: string)
    requires GuardInv(c, s) && LeftAlone(s, m) && Apply(c, s, step) == Some(s')
    requires !(step.Start? && step.m == m && !step.kind.Unload?)
    ensures LeftAlone(s', m) && SameEntries(s, s', m)
  {
    if step.Advance? {
      LeftAloneTask(c, s, step.t, step.choice, s', m);
    } else {
      OutsideTouches(c, s, step, s', m);
      LeftAloneOutside(c, s, step, s', m);
    }
  }

  lemma LeftAloneOutside(c: Config, s: State, step: Step, s': State, m: string)
    requires LeftAlone(s, m) && !step.Advance? && Apply(c, s, step) == Some(s')
    requires !(step.Start? && step.m == m && !step.kind.Unload?)
    ensures m in s'.backends && s'.backends[m].load == Unloaded
    ensures forall t :: t in s'.tasks && s'.tasks[t].model == m ==> s'.tasks[t].kind.Unload? || s'.tasks[t].pc.Done?
  {
  }

  /** As long as nobody asks for the model again, its entries stay, whoever is evicted
      and however often it is unloaded. */
  lemma {:induction false} LeftAloneStays(c: Config, before: seq<Step>, after: seq<Step>, m: string)
    requires Possible(c, before) && Possible(c, before + after) && LeftAlone(After(c, before), m)
    requires forall i :: 0 <= i < |after| ==> !(after[i].Start? && after[i].m == m && !after[i].kind.Unload?)
    ensures LeftAlone(After(c, before + after), m) && SameEntries(After(c, before), After(c, before + after), m)
    decreases |after|
  {
    if after == [] {
      assert before + after == before;
    } else {
      var n := |after| - 1;
      LastStep(c, before, after);
      LeftAloneStays(c, before, after[..n], m);
      RunKeepsGuards(c, before + after[..n]);
      LeftAloneStep(c, After(c, before + after[..n]), after[n], After(c, before + after), m);
    }
  }

  /** A dropped unload leaves such a model. */
  lemma LeakRun(c: Config, m: string) returns (steps: seq<Step>, g: nat)
    requires WellFormed(c) && !c.detached && Reservable(c, m)
    ensures Possible(c, steps) && LeftAlone(After(c, steps), m) && After(c, steps).coordinator.None?
    ensures g < |After(c, steps).entries| && m in After(c, steps).entries[g]
    ensures forall t :: t in After(c, steps).tasks ==> After(c, steps).tasks[t].pc.Done?
  {
    var p := UsablePlacement(c, m);
    steps := DroppedUnloadRun(c, m, p);
    g := AccountedEntry(c, m, p);
  }

  /** Whenever the coordinator is free, every entry is that of a loaded model. */
  ghost predicate EntriesAreLoaded(c: Config, s: State) {
    s.backends.Keys == c.models.Keys &&
    (s.coordinator.None? ==>
       forall g, m :: 0 <= g < |s.entries| && m in s.entries[g] ==> m in s.backends && s.backends[m].load == Loaded)
  }

  lemma CarefulEntriesAreLoaded(c: Config, s: State)
    requires Inv(c, s)
    ensures EntriesAreLoaded(c, s)
  {
    if s.coordinator.None? {
      forall g, m | 0 <= g < |s.entries| && m in s.entries[g]
        ensures m in s.backends && s.backends[m].load == Loaded
      {
        assert m in c.models;
        assert EntryMatches(s.entries[g], c.budgets[g], m, ShareMap(HeldShares(c, Holder(s), m, s.backends[m])), g);
      }
    }
  }

  lemma NothingReservableNoEntries(c: Config, steps: seq<Step>)
    requires WellFormed(c) && Possible(c, steps) && forall m :: m in c.models ==> !Reservable(c, m)
    ensures EntriesAreLoaded(c, After(c, steps))
  {
    RunKeepsGuards(c, steps);
    var s := After(c, steps);
    if s.coordinator.None? {
      forall g, m | 0 <= g < |s.entries|
        ensures m !in s.entries[g]
      {
        assert !Reservable(c, m);
        NoEntryWhenFree(c, steps, m, g);
      }
    }
  }

  /** Entries follow load states in all runs exactly if both precautions are taken or
      no model can be loaded with an entry at all. */
  lemma PrecautionsDecideEntries(c: Config)
    requires WellFormed(c)
    ensures (forall steps :: Possible(c, steps) ==> EntriesAreLoaded(c, After(c, steps)))
       <==> Careful(c) || forall m :: m in c.models ==> !Reservable(c, m)
  {
    if Careful(c) {
      forall steps | Possible(c, steps)
        ensures EntriesAreLoaded(c, After(c, steps))
      {
        RunKeeps(c, steps);
        CarefulEntriesAreLoaded(c, After(c, steps));
      }
    } else if m :| m in c.models && Reservable(c, m) {
      var steps := LooseEntryRun(c, m);
      assert !EntriesAreLoaded(c, After(c, steps));
    } else {
      forall steps | Possible(c, steps)
        ensures EntriesAreLoaded(c, After(c, steps))
      {
        NothingReservableNoEntries(c, steps);
      }
    }
  }

  lemma LooseEntryRun(c: Config, m: string) returns (steps: seq<Step>)
    requires WellFormed(c) && !Careful(c) && Reservable(c, m)
    ensures Possible(c, steps) && !EntriesAreLoaded(c, After(c, steps))
  {
    if !c.detached {
      var g;
      steps, g := LeakRun(c, m);
    } else {
      var p := UsablePlacement(c, m);
      steps := HalfUnlocked(c, m, p);
      var g := AccountedEntry(c, m, p);
      assert After(c, steps).backends[m].load == Unloaded;
    }
  }

  // ---------- going round in circles ----------

  /** A leader whose only device is full, and an unpinned, unloaded victim whose entry
      there is as large as the leader's need. */
  ghost predicate Circling(c: Config, s: State, t: TaskId, a: string, v: string, g: GpuId) {
    && Known(c, s, t) && s.tasks[t] == Task(a, Preload, Resolving) && s.coordinator == Some(t)
    && s.backends[a].placement == Resolved(SingleDevice(g)) && g < |c.budgets| && c.budgets[g] != 0
    && a !in s.entries[g] && !Fits(s.entries[g], c.budgets[g], c.models[a].estimatedMb)
    && v in c.models && !c.models[v].pin && v in s.entries[g] && s.entries[g][v] >= c.models[a].estimatedMb
    && s.backends[v].load == Unloaded && s.backends[v].inFlight == 0
  }

  lemma VictimPicked(c: Config, s: State, v: string, g: GpuId, neededMb: nat)
    requires g < |s.entries| && v in s.entries[g] && MayLeave(c, s, v) && s.entries[g][v] >= neededMb
    ensures Picks([v], Eligible(c, s, g), neededMb)
  {
    assert [v][..0] == [];
  }

  /** Once round: refused, rolled back, victim picked, unload answered with success,
      back at the start with nothing changed. */
  lemma OneRound(c: Config, before: seq<Step>, t: TaskId, a: string, v: string, g: GpuId) returns (steps: seq<Step>)
    requires Possible(c, before) && Circling(c, After(c, before), t, a, v, g)
    ensures Possible(c, steps) && |steps| == |before| + 6 && After(c, steps) == After(c, before)
  {
    var s := After(c, before);
    var p, need := SingleDevice(g), c.models[a].estimatedMb;
    var go := Advance(t, Proceed);
    assert Cost(c, a, p) == [Share(g, need)];
    steps := Then(c, before, go, Move(s, t, Reserving(p, 0)));
    MoveTwice(s, t, Reserving(p, 0), RollingBack(p, 0, 0, true));
    steps := Then(c, steps, go, Move(s, t, RollingBack(p, 0, 0, true)));
    MoveTwice(s, t, RollingBack(p, 0, 0, true), Picking(g, need));
    steps := Then(c, steps, go, Move(s, t, Picking(g, need)));
    steps := RoundOff(c, steps, s, t, a, v, g);
  }

  lemma RoundOff(c: Config, before: seq<Step>, s: State, t: TaskId, a: string, v: string, g: GpuId)
    returns (steps: seq<Step>)
    requires Circling(c, s, t, a, v, g)
    requires Possible(c, before) && After(c, before) == Move(s, t, Picking(g, c.models[a].estimatedMb))
    ensures Possible(c, steps) && |steps| == |before| + 3 && After(c, steps) == s
  {
    var need := c.models[a].estimatedMb;
    var go := Advance(t, Proceed);
    VictimPicked(c, Move(s, t, Picking(g, need)), v, g, need);
    MoveTwice(s, t, Picking(g, need), Evicting([v], false));
    steps := Then(c, before, Advance(t, Victims([v])), Move(s, t, Evicting([v], false)));
    MoveTwice(s, t, Evicting([v], false), Evicting([], true));
    assert [v][1..] == [];
    steps := Then(c, steps, go, Move(s, t, Evicting([], true)));
    MoveTwice(s, t, Evicting([], true), Resolving);
    assert s.tasks[t := s.tasks[t]] == s.tasks;
    steps := Then(c, steps, go, s);
  }

  lemma MoveTwice(s: State, t: TaskId, pc: PC, pc': PC)
    requires t in s.tasks
    ensures t in Move(s, t, pc).tasks && Move(Move(s, t, pc), t, pc') == Move(s, t, pc')
  {
  }

  /** The loop need not end: such a leader can go round any number of times, and it
      holds the coordinator all the while. */
  lemma {:induction false} CirclesForever(c: Config, before: seq<Step>, t: TaskId, a: string, v: string, g: GpuId,
                                          rounds: nat)
    returns (steps: seq<Step>)
    requires Possible(c, before) && Circling(c, After(c, before), t, a, v, g)
    ensures Possible(c, steps) && |steps| == |before| + 6 * rounds && After(c, steps) == After(c, before)
    decreases rounds
  {
    steps := before;
    if rounds > 0 {
      steps := CirclesForever(c, before, t, a, v, g, rounds - 1);
      steps := OneRound(c, steps, t, a, v, g);
    }
  }

  /** It takes a dropped unload of an unpinned model that fills the other's only device
      and is no smaller. */
  lemma CirclingRun(c: Config, a: string, v: string, g: GpuId) returns (steps: seq<Step>)
    requires WellFormed(c) && !c.detached && a in c.models && v in c.models && a != v
    requires c.models[a].gpus == [g] && c.models[v].gpus == [g] && g < |c.budgets| && c.budgets[g] != 0
    requires !c.models[v].pin && c.models[a].estimatedMb <= c.models[v].estimatedMb <= c.budgets[g]
    requires R.SaturatingAdd(c.models[v].estimatedMb, c.models[a].estimatedMb) > c.budgets[g]
    ensures Possible(c, steps) && Circling(c, After(c, steps), 2, a, v, g)
  {
    var p := SingleDevice(g);
    assert Cost(c, v, p) == [Share(g, c.models[v].estimatedMb)];
    steps := DroppedUnloadRun(c, v, p);
    var held := ShareMap(Cost(c, v, p));
    ShareMapAt(Cost(c, v, p), 0);
    var table := Filled(c, v, held)[g];
    assert table == map[v := c.models[v].estimatedMb];
    var none: map<string, nat> := map[];
    SumInsert(none, v, c.models[v].estimatedMb);
    steps := ClaimRun(c, steps, a, 2);
  }
}
