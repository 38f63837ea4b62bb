/** What the protocol guarantees in every run: any interleaving of requests, loads,
    evictions and unloads, by any number of tasks on any number of models. */
module ProtocolSafety {
  import opened Wrappers
  import opened MapSums
  import opened Placements
  import opened Protocol
  import opened ProtocolInvariant
  import opened ProtocolSteps

  // ---------- the invariant over whole runs ----------

  lemma OutsideTaskStep(c: Config, s: State, t: TaskId, choice: Choice, s': State)
    requires c.unloadsLocked && Local(c, s, t) && !Inside(s.tasks[t].pc)
    requires TaskStep(c, s, t, choice) == Some(s')
    ensures OutsideStep(c, s, s', t)
  {
    match s.tasks[t].pc {
      case Entering => EnterOutside(c, s, t, choice, s');
      case Subscribing(_) => SubscribeOutside(c, s, t, s');
      case Parked(_, _) => WakeUpOutside(c, s, t, s');
      case Claimed => RaiseSentinelOutside(c, s, t, s');
      case Waiting => AcquireOutside(c, s, t, s');
      case Dropping => DropGuardOutside(c, s, t, s');
      case Holding => GetChannelOutside(c, s, t, choice, s');
      case Sending => AnswerOutside(c, s, t);
      case UnloadWaiting => AcquireForUnloadOutside(c, s, t, s');
      case _ =>
    }
  }

  /** The backend a step of the holder may change. */
  function Changed(s: State, t: TaskId, s': State): string
    requires t in s.tasks && t in s'.tasks
  {
    match s.tasks[t].pc
    case Stopping(id, _, _) => id
    case Resetting(id, _) => id
    case Evicting(victims, _) => if victims != [] && s'.tasks[t].pc.Stopping? then victims[0] else s.tasks[t].model
    case _ => s.tasks[t].model
  }

  /** Up to the reservation: resolving, picking victims, taking them down. */
  lemma EvictingTaskStep(c: Config, s: State, t: TaskId, choice: Choice, s': State)
    requires Local(c, s, t) && PlacementsKept(c, s)
    requires || s.tasks[t].pc.Resolving? || s.tasks[t].pc.Choosing? || s.tasks[t].pc.Picking? || s.tasks[t].pc.Evicting?
             || s.tasks[t].pc.Checking?
    requires TaskStep(c, s, t, choice) == Some(s')
    ensures t in s'.tasks && HolderStep(c, s, s', t, Changed(s, t, s'))
  {
    match s.tasks[t].pc {
      case Resolving => ResolveStep(c, s, t, s');
      case Choosing(_, _, _) => ChooseStep(c, s, t, s');
      case Picking(_, _) => PickStep(c, s, t, choice, s');
      case Evicting(victims, _) =>
        if s'.tasks[t].pc.Stopping? {
          EvictStartStep(c, s, t, s');
        } else {
          EvictStep(c, s, t, s');
        }
      case Checking => CheckStep(c, s, t, s');
      case _ =>
    }
  }

  lemma UnloadingTaskStep(c: Config, s: State, t: TaskId, choice: Choice, s': State)
    requires c.unloadsLocked && Local(c, s, t) && PlacementsKept(c, s)
    requires s.tasks[t].pc.Stopping? || s.tasks[t].pc.Resetting? || s.tasks[t].pc.UnloadEnding?
    requires TaskStep(c, s, t, choice) == Some(s')
    ensures t in s'.tasks && HolderStep(c, s, s', t, Changed(s, t, s'))
  {
    match s.tasks[t].pc {
      case Stopping(_, _, _) => StopStep(c, s, t, s');
      case Resetting(_, _) => ResetStep(c, s, t, s');
      case UnloadEnding => EndUnloadStep(c, s, t, s');
      case _ =>
    }
  }

  /** From the reservation on: committing, starting the worker. */
  lemma LoadingTaskStep(c: Config, s: State, t: TaskId, choice: Choice, s': State)
    requires Local(c, s, t) && WorkersKnown(s)
    requires s.tasks[t].pc.Committing? || s.tasks[t].pc.ReadingPlacement? || s.tasks[t].pc.Spawning?
             || s.tasks[t].pc.AwaitingLoad?
    requires TaskStep(c, s, t, choice) == Some(s')
    ensures HolderStep(c, s, s', t, s.tasks[t].model)
  {
    match s.tasks[t].pc {
      case Committing(_) => CommitStep(c, s, t, s');
      case ReadingPlacement(_) => ReadPlacementStep(c, s, t, s');
      case Spawning(_) => SpawnStep(c, s, t, choice, s');
      case AwaitingLoad(_) => LoadAckStep(c, s, t, choice, s');
      case _ =>
    }
  }

  lemma LeavingTaskStep(c: Config, s: State, t: TaskId, choice: Choice, s': State)
    requires Local(c, s, t) && (s.tasks[t].pc.Failing? || s.tasks[t].pc.Failed? || s.tasks[t].pc.Finishing?)
    requires TaskStep(c, s, t, choice) == Some(s')
    ensures HolderStep(c, s, s', t, s.tasks[t].model)
  {
    match s.tasks[t].pc {
      case Failing => FailLoadingStep(c, s, t, s');
      case Failed => LeaveFailedStep(c, s, t, s');
      case Finishing => LeaveLoadedStep(c, s, t, s');
      case _ =>
    }
  }

  lemma TaskKeeps(c: Config, s: State, t: TaskId, choice: Choice, s': State)
    requires WellFormed(c) && Careful(c) && Inv(c, s) && Known(c, s, t)
    requires TaskStep(c, s, t, choice) == Some(s')
    ensures Inv(c, s')
  {
    LocalFromInv(c, s, t);
    var pc := s.tasks[t].pc;
    if !Inside(pc) {
      OutsideTaskStep(c, s, t, choice, s');
      OutsideKeeps(c, s, s', t);
    } else if pc.Reserving? {
      ReservingKeeps(c, s, t, s');
    } else if pc.RollingBack? {
      RollingBackKeeps(c, s, t, s');
    } else if pc.Releasing? {
      ReleasingKeeps(c, s, t, s');
    } else if pc.Abandoning? {
      AbandoningKeeps(c, s, t, s');
    } else {
      HoldingTaskKeeps(c, s, t, choice, s');
    }
  }

  lemma HoldingTaskKeeps(c: Config, s: State, t: TaskId, choice: Choice, s': State)
    requires Careful(c) && Inv(c, s) && Local(c, s, t) && TaskStep(c, s, t, choice) == Some(s')
    requires var pc := s.tasks[t].pc;
             Inside(pc) && !pc.Reserving? && !pc.RollingBack? && !pc.Releasing? && !pc.Abandoning?
    ensures Inv(c, s')
  {
    var pc := s.tasks[t].pc;
    if pc.Resolving? || pc.Choosing? || pc.Picking? || pc.Evicting? || pc.Checking? {
      EvictingTaskStep(c, s, t, choice, s');
    } else if pc.Stopping? || pc.Resetting? || pc.UnloadEnding? {
      UnloadingTaskStep(c, s, t, choice, s');
    } else if pc.Failing? || pc.Failed? || pc.Finishing? {
      LeavingTaskStep(c, s, t, choice, s');
    } else {
      LoadingTaskStep(c, s, t, choice, s');
    }
    HolderKeeps(c, s, s', t, Changed(s, t, s'));
  }

  lemma StartKeeps(c: Config, s: State, t: TaskId, m: string, kind: Kind, s': State)
    requires Inv(c, s) && Apply(c, s, Start(t, m, kind)) == Some(s')
    ensures Inv(c, s')
  {
    StartControl(c, s, t, m, kind, s');
    StartHolder(c, s, t, m, kind, s');
    TablesKept(c, s, s');
  }

  lemma StartControl(c: Config, s: State, t: TaskId, m: string, kind: Kind, s': State)
    requires ControlInv(c, s) && Apply(c, s, Start(t, m, kind)) == Some(s')
    ensures ControlInv(c, s')
  {
    GuardsFollow(s, s', t, s'.tasks[t]);
    SameLoadsFlight(s, s', t);
    StartRest(c, s, s', t);
  }

  lemma StartRest(c: Config, s: State, s': State, t: TaskId)
    requires Shape(c, s) && OneInside(s) && GuardedIsLoaded(s) && PlacementsKept(c, s)
    requires t !in s.tasks && t in s'.tasks && s' == s.(tasks := s.tasks[t := s'.tasks[t]])
    requires s'.tasks[t].model in c.models && Typed(s'.tasks[t])
    requires s'.tasks[t].pc.Entering? || s'.tasks[t].pc.UnloadWaiting?
    ensures Shape(c, s') && OneInside(s') && GuardedIsLoaded(s') && PlacementsKept(c, s')
  {
    StartInside(s, s', t);
    StartGuarded(s, s', t);
    StartShape(c, s, s', t);
  }

  lemma StartShape(c: Config, s: State, s': State, t: TaskId)
    requires Shape(c, s) && PlacementsKept(c, s)
    requires t in s'.tasks && s' == s.(tasks := s.tasks[t := s'.tasks[t]])
    requires s'.tasks[t].model in c.models && Typed(s'.tasks[t])
    ensures Shape(c, s') && PlacementsKept(c, s')
  {
  }

  lemma StartInside(s: State, s': State, t: TaskId)
    requires OneInside(s) && t !in s.tasks && t in s'.tasks && s' == s.(tasks := s.tasks[t := s'.tasks[t]])
    requires !Inside(s'.tasks[t].pc)
    ensures OneInside(s')
  {
  }

  lemma StartGuarded(s: State, s': State, t: TaskId)
    requires GuardedIsLoaded(s) && t !in s.tasks && t in s'.tasks && s' == s.(tasks := s.tasks[t := s'.tasks[t]])
    requires !Relies(s'.tasks[t])
    ensures GuardedIsLoaded(s')
  {
  }

  /** A new task outside every protocol section disturbs no flight. */
  lemma SameLoadsFlight(s: State, s': State, t: TaskId)
    requires s'.backends == s.backends
    requires t !in s.tasks && t in s'.tasks && s'.tasks == s.tasks[t := s'.tasks[t]] && !Leads(s'.tasks[t].pc)
    ensures LeadersLoading(s) ==> LeadersLoading(s')
    ensures LoadingLed(s) ==> LoadingLed(s')
  {
    if LoadingLed(s) {
      forall k | k in s'.backends && s'.backends[k].load.Loading?
        ensures LeadsFor(s', s'.backends[k].load.leader, k)
      {
        assert LeadsFor(s, s.backends[k].load.leader, k);
      }
    }
  }

  lemma StartHolder(c: Config, s: State, t: TaskId, m: string, kind: Kind, s': State)
    requires OneInside(s) && HoldersOk(c, s) && WorkersKnown(s) && Apply(c, s, Start(t, m, kind)) == Some(s')
    ensures Holder(s') == Holder(s) && HoldersOk(c, s') && WorkersKnown(s')
  {
  }

  lemma WorkerDiesKeeps(c: Config, s: State, m: string, s': State)
    requires Inv(c, s) && Apply(c, s, WorkerDies(m)) == Some(s')
    ensures Inv(c, s')
  {
    WorkerDiesControl(c, s, m, s');
    WorkerDiesHolder(c, s, m, s');
    WorkerDiesShares(c, s, m, s');
    TablesKept(c, s, s');
  }

  ghost predicate WorkerGone(s: State, m: string, s': State) {
    m in s.backends && s' == Put(s, m, s.backends[m].(worker := None))
  }

  lemma WorkerDiesControl(c: Config, s: State, m: string, s': State)
    requires ControlInv(c, s) && WorkerGone(s, m, s')
    ensures ControlInv(c, s')
  {
    WorkerDiesFlight(s, s', m);
    WorkerDiesGuards(s, s', m);
    WorkerDiesShape(c, s, s', m);
  }

  lemma WorkerDiesFlight(s: State, s': State, m: string)
    requires WorkerGone(s, m, s')
    ensures LeadersLoading(s) ==> LeadersLoading(s')
    ensures LoadingLed(s) ==> LoadingLed(s')
  {
    if LoadingLed(s) {
      forall k | k in s'.backends && s'.backends[k].load.Loading?
        ensures LeadsFor(s', s'.backends[k].load.leader, k)
      {
        assert LeadsFor(s, s.backends[k].load.leader, k);
      }
    }
  }

  lemma WorkerDiesGuards(s: State, s': State, m: string)
    requires GuardsCounted(s) && GuardedIsLoaded(s) && WorkerGone(s, m, s')
    ensures GuardsCounted(s') && GuardedIsLoaded(s')
  {
  }

  lemma WorkerDiesShape(c: Config, s: State, s': State, m: string)
    requires Shape(c, s) && OneInside(s) && PlacementsKept(c, s) && WorkerGone(s, m, s')
    ensures Shape(c, s') && OneInside(s') && PlacementsKept(c, s')
  {
  }

  lemma WorkerDiesHolder(c: Config, s: State, m: string, s': State)
    requires s.backends.Keys == c.models.Keys && HoldersOk(c, s) && WorkersKnown(s) && WorkerGone(s, m, s')
    ensures Holder(s') == Holder(s) && HoldersOk(c, s') && WorkersKnown(s')
  {
  }

  lemma WorkerDiesShares(c: Config, s: State, m: string, s': State)
    requires s.backends.Keys == c.models.Keys && WorkerGone(s, m, s')
    ensures forall k :: k in c.models && k in s.backends ==> SameShares(c, s, s', k)
  {
    assert Holder(s') == Holder(s);
    forall k | k in c.models && k in s.backends
      ensures SameShares(c, s, s', k)
    {
      SharesIgnoreWorker(c, Holder(s), k, s.backends[k]);
    }
  }

  lemma SharesIgnoreWorker(c: Config, holder: Option<Task>, m: string, b: Backend)
    requires m in c.models
    ensures HeldShares(c, holder, m, b.(worker := None)) == HeldShares(c, holder, m, b)
  {
  }

  /** Where loads and unloads run detached, only tasks outside are ever dropped. */
  lemma CancelKeeps(c: Config, s: State, t: TaskId, s': State)
    requires c.detached && Inv(c, s) && Apply(c, s, Cancel(t)) == Some(s')
    ensures Inv(c, s')
  {
    LocalFromInv(c, s, t);
    CancelOutside(c, s, t);
    OutsideKeeps(c, s, s', t);
  }

  lemma CancelOutside(c: Config, s: State, t: TaskId)
    requires c.detached && Local(c, s, t) && CanDrop(c, s.tasks[t].pc)
    ensures OutsideStep(c, s, Dropped(s, t), t)
  {
  }

  ghost predicate Possible(c: Config, steps: seq<Step>) {
    Exec(c, steps).Some?
  }

  ghost function After(c: Config, steps: seq<Step>): State
    requires Possible(c, steps)
  {
    Exec(c, steps).value
  }

  /** Every reachable state satisfies the invariant. */
  lemma {:induction false} RunKeeps(c: Config, steps: seq<Step>)
    requires WellFormed(c) && Careful(c) && Possible(c, steps)
    ensures Inv(c, After(c, steps))
    decreases |steps|
  {
    if steps == [] {
      InitInv(c);
    } else {
      var n := |steps| - 1;
      RunKeeps(c, steps[..n]);
      var s, s' := After(c, steps[..n]), After(c, steps);
      match steps[n] {
        case Start(t, m, kind) => StartKeeps(c, s, t, m, kind, s');
        case Advance(t, choice) => TaskKeeps(c, s, t, choice, s');
        case WorkerDies(m) => WorkerDiesKeeps(c, s, m, s');
        case Cancel(t) => CancelKeeps(c, s, t, s');
      }
    }
  }

  // ---------- live workers and their reservations ----------

  /** Shares of the devices a model's worker occupies. */
  function Occupied(c: Config, m: string, b: Backend): seq<Share>
    requires m in c.models
  {
    if b.worker.Some? then Cost(c, m, b.worker.value.on) else []
  }

  /** A live worker's model has an entry of exactly its share on every device the
      worker occupies that keeps accounts. */
  ghost predicate WorkerReserved(c: Config, s: State, m: string)
    requires m in c.models && m in s.backends && |s.entries| == |c.budgets|
  {
    forall i :: 0 <= i < |Occupied(c, m, s.backends[m])| ==> ShareReserved(c, s, m, Occupied(c, m, s.backends[m])[i])
  }

  ghost predicate ShareReserved(c: Config, s: State, m: string, share: Share)
    requires |s.entries| == |c.budgets|
  {
    share.gpu < |c.budgets| && c.budgets[share.gpu] != 0 ==>
      m in s.entries[share.gpu] && s.entries[share.gpu][m] == share.costMb
  }

  /** Megabytes the live workers occupy on one device, by model. */
  ghost function LiveCosts(c: Config, s: State, g: GpuId): map<string, nat>
    requires s.backends.Keys == c.models.Keys
  {
    map m | m in c.models && g in ShareMap(Occupied(c, m, s.backends[m]))
      :: ShareMap(Occupied(c, m, s.backends[m]))[g]
  }

  lemma WorkerHoldsPlacement(c: Config, s: State, m: string)
    requires Inv(c, s) && m in c.models && s.backends[m].worker.Some?
    ensures s.backends[m].placement == Resolved(s.backends[m].worker.value.on)
    ensures HeldShares(c, Holder(s), m, s.backends[m]) == Occupied(c, m, s.backends[m])
  {
    assert WorkerKnown(Holder(s), m, s.backends[m]);
    if s.coordinator.Some? {
      LocalFromInv(c, s, s.coordinator.value);
      assert Holder(s) == Some(s.tasks[s.coordinator.value]);
      HeldByWorker(c, s.backends, s.tasks[s.coordinator.value], m);
    }
  }

  /** Whatever the holder is doing, a model with a worker holds its whole placement. */
  lemma HeldByWorker(c: Config, backends: map<string, Backend>, task: Task, m: string)
    requires m in c.models && task.model in c.models && backends.Keys == c.models.Keys && HolderOk(c, backends, task)
    requires backends[m].worker.Some? && WorkerKnown(Some(task), m, backends[m])
    requires task.model == m ==> (Leads(task.pc) ==> backends[m].load != Loaded)
    ensures HeldShares(c, Some(task), m, backends[m]) == Occupied(c, m, backends[m])
  {
  }

  lemma {:induction false} ShareMapAt(shares: seq<Share>, i: nat)
    requires i < |shares| && Distinct(R.Devices(shares))
    ensures shares[i].gpu in ShareMap(shares) && ShareMap(shares)[shares[i].gpu] == shares[i].costMb
    decreases |shares|
  {
    var n := |shares| - 1;
    if i < n {
      assert R.Devices(shares[..n]) == R.Devices(shares)[..n];
      ShareMapAt(shares[..n], i);
      assert R.Devices(shares)[i] != R.Devices(shares)[n];
    }
  }

  lemma LiveWorkerReserved(c: Config, s: State, m: string)
    requires WellFormed(c) && Inv(c, s) && m in c.models && s.backends[m].worker.Some?
    ensures WorkerReserved(c, s, m)
  {
    var b := s.backends[m];
    var shares := Occupied(c, m, b);
    WorkerHoldsPlacement(c, s, m);
    MatchedNow(c, s, m);
    assert PlacementKept(c, m, b);
    CostDistinct(c, m, b, b.placement.placement);
    forall i | 0 <= i < |shares|
      ensures ShareReserved(c, s, m, shares[i])
    {
      ShareMapAt(shares, i);
    }
  }

  lemma LiveCostsFit(c: Config, s: State, g: GpuId)
    requires WellFormed(c) && Inv(c, s) && g < |c.budgets| && 0 < c.budgets[g] < U64_MAX
    ensures Sum(LiveCosts(c, s, g)) <= c.budgets[g]
  {
    var live := LiveCosts(c, s, g);
    forall m | m in live
      ensures m in s.entries[g] && live[m] == s.entries[g][m]
    {
      WorkerHoldsPlacement(c, s, m);
      MatchedNow(c, s, m);
    }
    SumMonotone(live, s.entries[g]);
  }

  /** In every run of a careful system, whatever the interleaving, a live worker's
      model holds exactly its share on every accounting device it occupies, so the
      live workers of a device never need more than its budget: during loads and
      while a worker is still being stopped included. */
  lemma LiveWorkersFit(c: Config, steps: seq<Step>)
    requires WellFormed(c) && Careful(c) && Possible(c, steps)
    ensures var s := After(c, steps);
            && s.backends.Keys == c.models.Keys && |s.entries| == |c.budgets|
            && (forall m :: m in c.models ==> WorkerReserved(c, s, m))
            && (forall g :: 0 <= g < |c.budgets| && 0 < c.budgets[g] < U64_MAX ==>
                  Sum(LiveCosts(c, s, g)) <= c.budgets[g])
  {
    RunKeeps(c, steps);
    var s := After(c, steps);
    forall m | m in c.models
      ensures WorkerReserved(c, s, m)
    {
      if s.backends[m].worker.Some? {
        LiveWorkerReserved(c, s, m);
      }
    }
    forall g | 0 <= g < |c.budgets| && 0 < c.budgets[g] < U64_MAX
      ensures Sum(LiveCosts(c, s, g)) <= c.budgets[g]
    {
      LiveCostsFit(c, s, g);
    }
  }

  // ---------- unloading ----------

  /** The task is taking the model down. */
  predicate Unloading(s: State, t: TaskId, id: string) {
    t in s.tasks && (s.tasks[t].pc.Stopping? || s.tasks[t].pc.Releasing? || s.tasks[t].pc.Resetting?)
    && s.tasks[t].pc.id == id
  }

  ghost predicate OthersSame(s: State, s': State, id: string) {
    |s'.entries| == |s.entries|
    && forall g :: 0 <= g < |s.entries| ==> s'.entries[g] - {id} == s.entries[g] - {id}
  }

  /** No device keeps an entry and the placement is the configured one. */
  ghost predicate TakenDown(c: Config, s: State, id: string) {
    && (forall g :: 0 <= g < |s.entries| ==> id !in s.entries[g])
    && id in c.models && id in s.backends && s.backends[id].placement == FromGpus(c.models[id].gpus)
  }

  /** While one task takes a model down, no step of anybody touches another model's entries. */
  lemma UnloadStepTouchesOne(c: Config, s: State, t: TaskId, id: string, step: Step, s': State)
    requires Careful(c) && Inv(c, s) && Unloading(s, t, id) && Apply(c, s, step) == Some(s')
    ensures OthersSame(s, s', id)
    ensures Unloading(s', t, id) || TakenDown(c, s', id)
  {
    if step.Advance? && step.t == t {
      LocalFromInv(c, s, t);
      MatchedNow(c, s, id);
      assert PlacementKept(c, id, s.backends[id]);
      OwnUnloadStep(c, s, t, id, step.choice, s');
    } else if step.Advance? {
      OtherTaskOutside(s, t, step.t);
      OtherTaskKeepsEntries(c, s, step.t, step.choice, s');
    } else {
      EntriesKeptOutside(c, s, t, id, step, s');
    }
  }

  lemma EntriesKeptOutside(c: Config, s: State, t: TaskId, id: string, step: Step, s': State)
    requires c.detached && Unloading(s, t, id) && !step.Advance? && Apply(c, s, step) == Some(s')
    ensures OthersSame(s, s', id) && Unloading(s', t, id)
  {
  }

  lemma OtherTaskOutside(s: State, t: TaskId, u: TaskId)
    requires OneInside(s) && t in s.tasks && u in s.tasks && t != u && Inside(s.tasks[t].pc)
    ensures !Inside(s.tasks[u].pc)
  {
  }

  lemma OtherTaskKeepsEntries(c: Config, s: State, u: TaskId, choice: Choice, s': State)
    requires Known(c, s, u) && !Inside(s.tasks[u].pc) && TaskStep(c, s, u, choice) == Some(s')
    ensures s'.entries == s.entries
    ensures forall t :: t in s.tasks && t != u ==> t in s'.tasks && s'.tasks[t] == s.tasks[t]
  {
  }

  lemma OwnUnloadStep(c: Config, s: State, t: TaskId, id: string, choice: Choice, s': State)
    requires Local(c, s, t) && Unloading(s, t, id) && TaskStep(c, s, t, choice) == Some(s')
    requires id in c.models && Matched(c, s, id, HeldNow(c, s, id)) && PlacementKept(c, id, s.backends[id])
    ensures OthersSame(s, s', id)
    ensures Unloading(s', t, id) || TakenDown(c, s', id)
  {
    if s.tasks[t].pc.Resetting? {
      ResetTakesDown(c, s, t, id, choice, s');
    } else {
      StillUnloading(c, s, t, id, choice, s');
    }
  }

  lemma StillUnloading(c: Config, s: State, t: TaskId, id: string, choice: Choice, s': State)
    requires Known(c, s, t) && Unloading(s, t, id) && !s.tasks[t].pc.Resetting? && TaskStep(c, s, t, choice) == Some(s')
    ensures OthersSame(s, s', id) && Unloading(s', t, id)
  {
  }

  lemma ResetTakesDown(c: Config, s: State, t: TaskId, id: string, choice: Choice, s': State)
    requires Local(c, s, t) && Unloading(s, t, id) && s.tasks[t].pc.Resetting? && TaskStep(c, s, t, choice) == Some(s')
    requires id in c.models && Matched(c, s, id, HeldNow(c, s, id)) && PlacementKept(c, id, s.backends[id])
    ensures s'.entries == s.entries && TakenDown(c, s', id)
  {
    assert HeldNow(c, s, id) == map[];
    assert forall g :: 0 <= g < |s.entries| ==> EntryMatches(s.entries[g], c.budgets[g], id, map[], g);
  }

  /** Task t is taking model id down after `before` and after each further step but the last. */
  ghost predicate UnloadsThroughout(c: Config, before: seq<Step>, during: seq<Step>, t: TaskId, id: string) {
    && Possible(c, before + during)
    && forall k :: 0 <= k < |during| ==>
         Possible(c, before + during[..k]) && Unloading(After(c, before + during[..k]), t, id)
  }

  /** A whole unload, interleaved with anything: from the moment a task starts
      taking a loaded model down until it is through, the entries of all other
      models are untouched; and when it is through, no device keeps an entry of the
      model and its placement is the configured one again. */
  lemma {:induction false} UnloadLeavesNothing(c: Config, before: seq<Step>, during: seq<Step>, t: TaskId, id: string)
    requires WellFormed(c) && Careful(c)
    requires during != [] && UnloadsThroughout(c, before, during, t, id)
    ensures Possible(c, before) && OthersSame(After(c, before), After(c, before + during), id)
    ensures Unloading(After(c, before + during), t, id) || TakenDown(c, After(c, before + during), id)
    decreases |during|
  {
    var n := |during| - 1;
    var front := during[..n];
    LastUnloadStep(c, before, during, t, id);
    if front == [] {
      assert before + front == before;
    } else {
      assert forall k :: 0 <= k < n ==> front[..k] == during[..k];
      UnloadLeavesNothing(c, before, front, t, id);
    }
  }

  lemma LastUnloadStep(c: Config, before: seq<Step>, during: seq<Step>, t: TaskId, id: string)
    requires WellFormed(c) && Careful(c) && during != []
    requires Possible(c, before + during) && Possible(c, before + during[..|during| - 1])
    requires Unloading(After(c, before + during[..|during| - 1]), t, id)
    ensures OthersSame(After(c, before + during[..|during| - 1]), After(c, before + during), id)
    ensures Unloading(After(c, before + during), t, id) || TakenDown(c, After(c, before + during), id)
  {
    LastStep(c, before, during);
    RunKeeps(c, before + during[..|during| - 1]);
    UnloadStepTouchesOne(c, After(c, before + during[..|during| - 1]), t, id, during[|during| - 1],
      After(c, before + during));
  }

  lemma LastStep(c: Config, before: seq<Step>, during: seq<Step>)
    requires during != [] && Possible(c, before + during)
    ensures Possible(c, before + during[..|during| - 1])
    ensures Apply(c, After(c, before + during[..|during| - 1]), during[|during| - 1]) == Some(After(c, before + during))
  {
    var all := before + during;
    assert all[..|all| - 1] == before + during[..|during| - 1];
  }
}
