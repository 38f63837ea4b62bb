/** What a model that cannot be loaded with an entry can never do, in every run,
    locked or not and with futures dropped anywhere: whoever has reserved a share
    has room for it alone. */
module ProtocolAffordable {
  import opened Wrappers
  import opened Placements
  import opened Protocol
  import opened ProtocolInvariant
  import opened ProtocolSafety
  import opened ProtocolRuns
  import opened ProtocolGuards

  /** The model's share if it is placed on this device. */
  function ShareOn(c: Config, m: string, g: GpuId): nat
    requires m in c.models
  {
    if c.models[m].gpus == [] then c.models[m].estimatedMb
    else
      var shares := Cost(c, m, FromGpus(c.models[m].gpus).placement);
      if g in R.Devices(shares) then R.CostOn(shares, g) else 0
  }

  lemma ShareOnIs(c: Config, m: string, p: Placement, k: nat)
    requires WellFormed(c) && MayUse(c, m, p) && k < |Cost(c, m, p)|
    ensures Cost(c, m, p)[k].costMb == ShareOn(c, m, Cost(c, m, p)[k].gpu)
  {
    UsableDistinct(c, m, p);
    if c.models[m].gpus != [] {
      R.CostOnDistinct(Cost(c, m, p), k);
    }
  }

  // ---------- the invariant ----------

  /** An entry is there only for a share that fits alone. */
  ghost predicate EntryFits(c: Config, m: string, g: GpuId) {
    m in c.models && g < |c.budgets| && c.budgets[g] != 0 && ShareOn(c, m, g) <= c.budgets[g]
  }

  ghost predicate EntriesFit(c: Config, s: State) {
    forall g, m :: 0 <= g < |s.entries| && m in s.entries[g] ==> EntryFits(c, m, g)
  }

  /** The first k shares fit alone. */
  ghost predicate FitUpTo(c: Config, shares: seq<Share>, k: nat) {
    forall i :: 0 <= i < k && i < |shares| ==> ShareFits(c, shares[i])
  }

  ghost predicate TaskFits(c: Config, task: Task) {
    task.model in c.models &&
    match task.pc
    case Choosing(i, best, freeMb) => c.models[task.model].gpus == [] && ChoosesWell(c, i, best, freeMb)
    case Reserving(p, k) => MayUse(c, task.model, p) && FitUpTo(c, Cost(c, task.model, p), k)
    case RollingBack(p, _, _, _) => MayUse(c, task.model, p)
    case Committing(p) => MayUse(c, task.model, p) && AllFit(c, task.model, p)
    case ReadingPlacement(p) => MayUse(c, task.model, p) && AllFit(c, task.model, p)
    case Spawning(p) => MayUse(c, task.model, p) && AllFit(c, task.model, p)
    case AwaitingLoad(p) => MayUse(c, task.model, p) && AllFit(c, task.model, p)
    case PlacementStillAuto => Startable(c, task.model)
    case _ => true
  }

  /** The device kept so far is a real one, and if it has no budget it is the last one
      looked at: nothing is less than what it has left. */
  predicate ChoosesWell(c: Config, i: nat, best: GpuId, freeMb: nat) {
    && i <= |c.budgets| && c.budgets != []
    && if i == 0 then freeMb == 0
       else best < i && freeMb <= c.budgets[best] && (c.budgets[best] == 0 ==> best == i - 1)
  }

  /** An automatic model that fits on a device it can be given. */
  ghost predicate Startable(c: Config, m: string) {
    && m in c.models && c.models[m].gpus == []
    && exists g :: 0 <= g < |c.budgets| && MayChoose(c, g) && ShareFits(c, Share(g, c.models[m].estimatedMb))
  }

  ghost predicate TasksFit(c: Config, s: State) {
    forall t :: t in s.tasks ==> TaskFits(c, s.tasks[t])
  }

  ghost predicate BackendFits(c: Config, m: string, b: Backend) {
    && m in c.models
    && (c.models[m].gpus != [] ==> b.placement == FromGpus(c.models[m].gpus))
    && (c.models[m].gpus == [] && b.placement.Resolved? ==>
          MayUse(c, m, b.placement.placement) && AllFit(c, m, b.placement.placement))
    && (b.worker.Some? ==> MayUse(c, m, b.worker.value.on) && AllFit(c, m, b.worker.value.on))
  }

  ghost predicate BackendsFit(c: Config, s: State) {
    s.backends.Keys == c.models.Keys && |s.entries| == |c.budgets|
    && forall m :: m in s.backends ==> BackendFits(c, m, s.backends[m])
  }

  /** The task is in the middle of reserving or rolling back this device. */
  ghost predicate InWindow(c: Config, task: Task, g: GpuId) {
    task.model in c.models &&
    match task.pc
    case Reserving(p, k) => g in R.Devices(Slice(Cost(c, task.model, p), 0, k))
    case RollingBack(p, j, k, _) => g in R.Devices(Slice(Cost(c, task.model, p), j, k))
    case _ => false
  }

  ghost predicate Passing(c: Config, s: State, m: string, g: GpuId) {
    exists t :: t in s.tasks && s.tasks[t].model == m && InWindow(c, s.tasks[t], g)
  }

  /** A model that cannot be loaded with an entry has one only in passing. */
  ghost predicate OthersPassing(c: Config, s: State) {
    forall g, m :: 0 <= g < |s.entries| && m in s.entries[g] && !Reservable(c, m) ==> Passing(c, s, m, g)
  }

  ghost predicate Affordable(c: Config, s: State) {
    EntriesFit(c, s) && TasksFit(c, s) && BackendsFit(c, s) && OthersPassing(c, s)
  }

  // ---------- one step ----------

  /** What the moving task starts from. */
  ghost predicate Starts(c: Config, s: State, t: TaskId) {
    Known(c, s, t) && TaskFits(c, s.tasks[t]) && BackendsFit(c, s)
  }

  predicate MovesTables(pc: PC) {
    pc.Reserving? || pc.RollingBack? || pc.Releasing? || pc.Abandoning?
  }

  /** Task t moved and is still fit; no other task changed and no table. */
  ghost predicate QuietStep(c: Config, s: State, s': State, t: TaskId) {
    && t in s.tasks && t in s'.tasks && s'.tasks == s.tasks[t := s'.tasks[t]] && s'.tasks[t].model == s.tasks[t].model
    && s'.entries == s.entries && TaskFits(c, s'.tasks[t]) && BackendsFit(c, s')
    && !MovesTables(s.tasks[t].pc)
  }

  lemma QuietStepKeeps(c: Config, s: State, s': State, t: TaskId)
    requires Affordable(c, s) && QuietStep(c, s, s', t)
    ensures Affordable(c, s')
  {
    forall g, m | 0 <= g < |s'.entries| && m in s'.entries[g] && !Reservable(c, m)
      ensures Passing(c, s', m, g)
    {
      assert Passing(c, s, m, g);
      StillPassing(c, s, s', t, m, g);
    }
  }

  lemma StillPassing(c: Config, s: State, s': State, t: TaskId, m: string, g: GpuId)
    requires t in s.tasks && t in s'.tasks && s'.tasks == s.tasks[t := s'.tasks[t]]
    requires Passing(c, s, m, g) && !InWindow(c, s.tasks[t], g)
    ensures Passing(c, s', m, g)
  {
    var u :| u in s.tasks && s.tasks[u].model == m && InWindow(c, s.tasks[u], g);
    assert u != t && s'.tasks[u] == s.tasks[u];
  }

  /** Program points that promise nothing about shares. */
  predicate Plain(pc: PC) {
    && !pc.Choosing? && !pc.Reserving? && !pc.RollingBack? && !pc.Committing? && !pc.ReadingPlacement?
    && !pc.Spawning? && !pc.AwaitingLoad? && !pc.PlacementStillAuto?
  }

  /** At most a worker is gone or an automatic placement reset. */
  predicate Tamer(c: Config, m: string, b: Backend, b': Backend) {
    && (b'.placement == b.placement || (m in c.models && c.models[m].gpus == [] && b'.placement.Auto?))
    && (b'.worker == b.worker || b'.worker.None?)
  }

  /** A step between plain points that makes backends no less tame. */
  ghost predicate IdleStep(c: Config, s: State, s': State, t: TaskId) {
    && t in s.tasks && t in s'.tasks && s'.tasks == s.tasks[t := s'.tasks[t]] && s'.tasks[t].model == s.tasks[t].model
    && s'.entries == s.entries && Plain(s'.tasks[t].pc) && !MovesTables(s.tasks[t].pc)
    && s'.backends.Keys == s.backends.Keys
    && forall m :: m in s.backends ==> Tamer(c, m, s.backends[m], s'.backends[m])
  }

  lemma IdleIsQuiet(c: Config, s: State, s': State, t: TaskId)
    requires Starts(c, s, t) && IdleStep(c, s, s', t)
    ensures QuietStep(c, s, s', t)
  {
    forall m | m in s'.backends
      ensures BackendFits(c, m, s'.backends[m])
    {
      assert BackendFits(c, m, s.backends[m]) && Tamer(c, m, s.backends[m], s'.backends[m]);
    }
  }

  lemma EnterIdle(c: Config, s: State, t: TaskId, choice: Choice, s': State)
    requires Known(c, s, t) && TaskStep(c, s, t, choice) == Some(s')
    requires s.tasks[t].pc.Entering?
    ensures IdleStep(c, s, s', t)
  {
  }

  lemma EntranceIdle(c: Config, s: State, t: TaskId, choice: Choice, s': State)
    requires Known(c, s, t) && TaskStep(c, s, t, choice) == Some(s')
    requires s.tasks[t].pc.Subscribing? || s.tasks[t].pc.Parked? || s.tasks[t].pc.Claimed?
    ensures IdleStep(c, s, s', t)
  {
  }

  lemma WaitingIdle(c: Config, s: State, t: TaskId, choice: Choice, s': State)
    requires Known(c, s, t) && TaskStep(c, s, t, choice) == Some(s')
    requires s.tasks[t].pc.Waiting? || s.tasks[t].pc.UnloadWaiting?
    ensures IdleStep(c, s, s', t)
  {
  }

  lemma ExitIdle(c: Config, s: State, t: TaskId, choice: Choice, s': State)
    requires Known(c, s, t) && TaskStep(c, s, t, choice) == Some(s')
    requires s.tasks[t].pc.Dropping? || s.tasks[t].pc.Holding? || s.tasks[t].pc.Sending?
             || s.tasks[t].pc.WorkerNotReady?
    ensures IdleStep(c, s, s', t)
  {
  }

  lemma EvictIdle(c: Config, s: State, t: TaskId, choice: Choice, s': State)
    requires Known(c, s, t) && TaskStep(c, s, t, choice) == Some(s')
    requires s.tasks[t].pc.Evicting?
    ensures IdleStep(c, s, s', t)
  {
  }

  lemma PickIdle(c: Config, s: State, t: TaskId, choice: Choice, s': State)
    requires Known(c, s, t) && TaskStep(c, s, t, choice) == Some(s') && s.tasks[t].pc.Picking?
    ensures IdleStep(c, s, s', t)
  {
  }

  lemma TakeDownIdle(c: Config, s: State, t: TaskId, choice: Choice, s': State)
    requires Known(c, s, t) && TaskStep(c, s, t, choice) == Some(s')
    requires s.tasks[t].pc.Stopping? || s.tasks[t].pc.Resetting?
    ensures IdleStep(c, s, s', t)
  {
  }

  lemma CheckIdle(c: Config, s: State, t: TaskId, choice: Choice, s': State)
    requires Known(c, s, t) && TaskStep(c, s, t, choice) == Some(s')
    requires s.tasks[t].pc.Checking? || s.tasks[t].pc.UnloadEnding?
    ensures IdleStep(c, s, s', t)
  {
  }

  lemma LeaveIdle(c: Config, s: State, t: TaskId, choice: Choice, s': State)
    requires Known(c, s, t) && TaskStep(c, s, t, choice) == Some(s')
    requires s.tasks[t].pc.PlacementStillAuto? || s.tasks[t].pc.Failing? || s.tasks[t].pc.Failed?
             || s.tasks[t].pc.Finishing?
    ensures IdleStep(c, s, s', t)
  {
  }

  lemma ResolveQuiet(c: Config, s: State, t: TaskId, choice: Choice, s': State)
    requires Starts(c, s, t) && TaskStep(c, s, t, choice) == Some(s')
    requires s.tasks[t].pc.Resolving? || s.tasks[t].pc.Choosing?
    ensures QuietStep(c, s, s', t)
  {
    assert BackendFits(c, s.tasks[t].model, s.backends[s.tasks[t].model]);
  }

  lemma CommitQuiet(c: Config, s: State, t: TaskId, choice: Choice, s': State)
    requires Starts(c, s, t) && TaskStep(c, s, t, choice) == Some(s')
    requires s.tasks[t].pc.Committing? || s.tasks[t].pc.ReadingPlacement?
    ensures QuietStep(c, s, s', t)
  {
    assert BackendFits(c, s.tasks[t].model, s.backends[s.tasks[t].model]);
    if s.tasks[t].pc.ReadingPlacement? && c.models[s.tasks[t].model].gpus == [] {
      FitMeansStartable(c, s.tasks[t].model, s.tasks[t].pc.p);
    }
  }

  lemma FitMeansStartable(c: Config, m: string, p: Placement)
    requires MayUse(c, m, p) && c.models[m].gpus == [] && AllFit(c, m, p)
    ensures Startable(c, m)
  {
    assert Cost(c, m, p) == [Share(p.gpu, c.models[m].estimatedMb)];
    assert ShareFits(c, Cost(c, m, p)[0]) && MayChoose(c, p.gpu);
  }

  lemma SpawnQuiet(c: Config, s: State, t: TaskId, choice: Choice, s': State)
    requires Starts(c, s, t) && TaskStep(c, s, t, choice) == Some(s')
    requires s.tasks[t].pc.Spawning? || s.tasks[t].pc.AwaitingLoad?
    ensures QuietStep(c, s, s', t)
  {
  }

  // ---------- reserving ----------

  lemma FitsAlone(table: map<string, nat>, budgetMb: u64, costMb: u64)
    requires Fits(table, budgetMb, costMb)
    ensures costMb <= budgetMb
  {
  }

  lemma SliceGrows(shares: seq<Share>, k: nat, g: GpuId)
    requires k < |shares| && g in R.Devices(Slice(shares, 0, k))
    ensures g in R.Devices(Slice(shares, 0, k + 1))
  {
    var i :| 0 <= i < k && R.Devices(shares[0..k])[i] == g;
    assert R.Devices(shares[0..k + 1])[i] == g;
  }

  lemma SliceEnds(shares: seq<Share>, k: nat)
    requires k < |shares|
    ensures shares[k].gpu in R.Devices(Slice(shares, 0, k + 1))
  {
    assert R.Devices(shares[0..k + 1])[k] == shares[k].gpu;
  }

  /** The share about to be reserved leaves its device only if it fits alone there. */
  lemma RoomAlone(c: Config, s: State, m: string, p: Placement, k: nat)
    requires WellFormed(c) && MayUse(c, m, p) && k < |Cost(c, m, p)| && |s.entries| == |c.budgets|
    requires Accounted(c, Cost(c, m, p)[k])
    requires var share := Cost(c, m, p)[k];
             Fits(s.entries[share.gpu], c.budgets[share.gpu], share.costMb) || EntryFits(c, m, share.gpu)
    ensures EntryFits(c, m, Cost(c, m, p)[k].gpu) && ShareFits(c, Cost(c, m, p)[k])
  {
    var share := Cost(c, m, p)[k];
    ShareOnIs(c, m, p, k);
    if !EntryFits(c, m, share.gpu) {
      FitsAlone(s.entries[share.gpu], c.budgets[share.gpu], share.costMb);
    }
  }

  /** Task t goes from one reserving point to another and changes no backend. */
  ghost predicate Reserves(c: Config, s: State, s': State, t: TaskId, pc': PC) {
    t in s.tasks && s'.tasks == s.tasks[t := s.tasks[t].(pc := pc')] && s'.backends == s.backends
  }

  /** The cases of a reserving step. */
  lemma ReserveCases(c: Config, s: State, t: TaskId, s': State)
    requires Known(c, s, t) && s.tasks[t].pc.Reserving? && Reserve(c, s, t) == Some(s')
    ensures var m, p, k := s.tasks[t].model, s.tasks[t].pc.p, s.tasks[t].pc.k;
            var shares := Cost(c, m, p);
            if k >= |shares| then Reserves(c, s, s', t, Committing(p)) && s'.entries == s.entries
            else if Accounted(c, shares[k]) && m !in s.entries[shares[k].gpu]
                    && Fits(s.entries[shares[k].gpu], c.budgets[shares[k].gpu], shares[k].costMb) then
              Reserves(c, s, s', t, Reserving(p, k + 1))
                && s'.entries == Add(s, m, shares[k].gpu, shares[k].costMb).entries
            else if shares[k].gpu < |c.budgets| && (c.budgets[shares[k].gpu] == 0 || m in s.entries[shares[k].gpu]) then
              Reserves(c, s, s', t, Reserving(p, k + 1)) && s'.entries == s.entries
            else
              (Reserves(c, s, s', t, RollingBack(p, 0, k, true)) || Reserves(c, s, s', t, RollingBack(p, 0, k, false)))
              && s'.entries == s.entries
  {
  }

  /** The task stays fit. */
  lemma ReserveFits(c: Config, s: State, t: TaskId, s': State)
    requires WellFormed(c) && Starts(c, s, t) && EntriesFit(c, s) && s.tasks[t].pc.Reserving?
    requires Reserve(c, s, t) == Some(s')
    ensures t in s'.tasks && TaskFits(c, s'.tasks[t])
  {
    var m, p, k := s.tasks[t].model, s.tasks[t].pc.p, s.tasks[t].pc.k;
    ReserveCases(c, s, t, s');
    if k < |Cost(c, m, p)| && s'.tasks[t].pc.Reserving? {
      var share := Cost(c, m, p)[k];
      if c.budgets[share.gpu] != 0 {
        assert m in s.entries[share.gpu] ==> EntryFits(c, m, share.gpu);
        RoomAlone(c, s, m, p, k);
      }
    }
  }

  /** At most the one share is new in the tables. */
  lemma ReserveTables(c: Config, s: State, t: TaskId, s': State)
    requires WellFormed(c) && Starts(c, s, t) && EntriesFit(c, s) && s.tasks[t].pc.Reserving?
    requires Reserve(c, s, t) == Some(s')
    ensures |s'.entries| == |s.entries| && EntriesFit(c, s')
    ensures forall g, m :: 0 <= g < |s.entries| && m in s'.entries[g] && m !in s.entries[g] ==>
            NewHere(c, s, s', t, m, g)
  {
    var m, p, k := s.tasks[t].model, s.tasks[t].pc.p, s.tasks[t].pc.k;
    ReserveCases(c, s, t, s');
    if s'.entries != s.entries {
      RoomAlone(c, s, m, p, k);
    }
  }

  ghost predicate NewHere(c: Config, s: State, s': State, t: TaskId, m: string, g: nat) {
    && t in s.tasks && m == s.tasks[t].model && m in c.models && s.tasks[t].pc.Reserving?
    && var p, k := s.tasks[t].pc.p, s.tasks[t].pc.k;
    k < |Cost(c, m, p)| && g == Cost(c, m, p)[k].gpu && Reserves(c, s, s', t, Reserving(p, k + 1))
  }

  lemma NewIsInWindow(c: Config, s: State, s': State, t: TaskId, m: string, g: nat)
    requires NewHere(c, s, s', t, m, g)
    ensures t in s'.tasks && s'.tasks[t].model == m && InWindow(c, s'.tasks[t], g)
  {
    SliceEnds(Cost(c, m, s.tasks[t].pc.p), s.tasks[t].pc.k);
  }

  /** What was in the window stays in it, unless everything fits and the model is
      one that could be loaded. */
  lemma ReserveWindow(c: Config, s: State, t: TaskId, s': State, g: GpuId)
    requires WellFormed(c) && Starts(c, s, t) && s.tasks[t].pc.Reserving? && Reserve(c, s, t) == Some(s')
    requires !Reservable(c, s.tasks[t].model) && Accounting(c, g) && InWindow(c, s.tasks[t], g)
    ensures t in s'.tasks && InWindow(c, s'.tasks[t], g)
  {
    var m, p, k := s.tasks[t].model, s.tasks[t].pc.p, s.tasks[t].pc.k;
    ReserveCases(c, s, t, s');
    if k < |Cost(c, m, p)| {
      SliceGrows(Cost(c, m, p), k, g);
      WindowFollows(c, s, s', t, g);
    } else {
      ReservableIfAllFit(c, m, p, k, g);
    }
  }

  lemma WindowFollows(c: Config, s: State, s': State, t: TaskId, g: GpuId)
    requires t in s.tasks && s.tasks[t].model in c.models && s.tasks[t].pc.Reserving?
    requires var shares, k := Cost(c, s.tasks[t].model, s.tasks[t].pc.p), s.tasks[t].pc.k;
             g in R.Devices(Slice(shares, 0, k)) && g in R.Devices(Slice(shares, 0, k + 1))
    requires var p, k := s.tasks[t].pc.p, s.tasks[t].pc.k;
             || Reserves(c, s, s', t, Reserving(p, k + 1)) || Reserves(c, s, s', t, RollingBack(p, 0, k, true))
             || Reserves(c, s, s', t, RollingBack(p, 0, k, false))
    ensures t in s'.tasks && InWindow(c, s'.tasks[t], g)
  {
  }

  predicate Accounting(c: Config, g: GpuId) {
    g < |c.budgets| && c.budgets[g] != 0
  }

  lemma ReservableIfAllFit(c: Config, m: string, p: Placement, k: nat, g: GpuId)
    requires WellFormed(c) && MayUse(c, m, p) && FitUpTo(c, Cost(c, m, p), k) && k >= |Cost(c, m, p)|
    requires Accounting(c, g) && g in R.Devices(Slice(Cost(c, m, p), 0, k))
    ensures Reservable(c, m)
  {
    var shares := Cost(c, m, p);
    var i :| 0 <= i < |R.Devices(Slice(shares, 0, k))| && R.Devices(Slice(shares, 0, k))[i] == g;
    assert Slice(shares, 0, k)[i] == shares[i];
    UsableMeans(c, m, p, i);
  }

  /** A placement that fits and has an accounting device makes the model reservable. */
  lemma UsableMeans(c: Config, m: string, p: Placement, i: nat)
    requires WellFormed(c) && MayUse(c, m, p) && AllFit(c, m, p)
    requires i < |Cost(c, m, p)| && Accounted(c, Cost(c, m, p)[i])
    ensures Reservable(c, m)
  {
    assert ShareFits(c, Cost(c, m, p)[i]);
    if c.models[m].gpus == [] {
      assert Cost(c, m, p) == [Share(p.gpu, c.models[m].estimatedMb)];
    }
  }

  lemma ReserveKeeps(c: Config, s: State, t: TaskId, s': State)
    requires WellFormed(c) && Affordable(c, s) && Starts(c, s, t) && s.tasks[t].pc.Reserving?
    requires Reserve(c, s, t) == Some(s')
    ensures Affordable(c, s')
  {
    ReserveCases(c, s, t, s');
    ReserveFits(c, s, t, s');
    ReserveTables(c, s, t, s');
    ReservePassing(c, s, t, s');
  }

  lemma ReservePassing(c: Config, s: State, t: TaskId, s': State)
    requires WellFormed(c) && EntriesFit(c, s) && OthersPassing(c, s) && Starts(c, s, t)
    requires s.tasks[t].pc.Reserving? && Reserve(c, s, t) == Some(s') && |s'.entries| == |s.entries|
    requires t in s'.tasks && s'.tasks == s.tasks[t := s'.tasks[t]] && s'.tasks[t].model == s.tasks[t].model
    requires forall g, m :: 0 <= g < |s.entries| && m in s'.entries[g] && m !in s.entries[g] ==>
             NewHere(c, s, s', t, m, g)
    ensures OthersPassing(c, s')
  {
    forall g, m | 0 <= g < |s'.entries| && m in s'.entries[g] && !Reservable(c, m)
      ensures Passing(c, s', m, g)
    {
      if m in s.entries[g] {
        assert EntryFits(c, m, g) && Passing(c, s, m, g);
        OldStillPassing(c, s, t, s', m, g);
      } else {
        NewIsInWindow(c, s, s', t, m, g);
      }
    }
  }

  lemma OldStillPassing(c: Config, s: State, t: TaskId, s': State, m: string, g: nat)
    requires WellFormed(c) && Starts(c, s, t) && s.tasks[t].pc.Reserving? && Reserve(c, s, t) == Some(s')
    requires t in s'.tasks && s'.tasks == s.tasks[t := s'.tasks[t]] && s'.tasks[t].model == s.tasks[t].model
    requires Accounting(c, g) && !Reservable(c, m) && Passing(c, s, m, g)
    ensures Passing(c, s', m, g)
  {
    if m == s.tasks[t].model && InWindow(c, s.tasks[t], g) {
      ReserveWindow(c, s, t, s', g);
    } else {
      PassingElsewhere(c, s, s', t, m, g);
    }
  }

  lemma PassingElsewhere(c: Config, s: State, s': State, t: TaskId, m: string, g: GpuId)
    requires t in s.tasks && t in s'.tasks && s'.tasks == s.tasks[t := s'.tasks[t]]
    requires Passing(c, s, m, g) && !(m == s.tasks[t].model && InWindow(c, s.tasks[t], g))
    ensures Passing(c, s', m, g)
  {
    var u :| u in s.tasks && s.tasks[u].model == m && InWindow(c, s.tasks[u], g);
    assert u != t && s'.tasks[u] == s.tasks[u];
  }

  // ---------- dropping entries ----------

  /** An entry of the task's own model that it was passing and has not taken off. */
  ghost predicate LeftBehind(c: Config, s: State, s': State, t: TaskId, g: nat)
    requires t in s.tasks && g < |s'.entries|
  {
    InWindow(c, s.tasks[t], g) && Accounting(c, g) && s.tasks[t].model in s'.entries[g]
  }

  /** A step that only takes entries of one model off at most one device. */
  ghost predicate DropStep(c: Config, s: State, s': State, t: TaskId) {
    && t in s.tasks && t in s'.tasks && s'.tasks == s.tasks[t := s'.tasks[t]] && s'.tasks[t].model == s.tasks[t].model
    && s'.backends == s.backends && |s'.entries| == |s.entries| && TaskFits(c, s'.tasks[t])
    && (forall g :: 0 <= g < |s.entries| ==> s'.entries[g].Keys <= s.entries[g].Keys)
    && (forall g :: 0 <= g < |s.entries| && LeftBehind(c, s, s', t, g) ==> InWindow(c, s'.tasks[t], g))
  }

  lemma DropStepKeeps(c: Config, s: State, s': State, t: TaskId)
    requires Affordable(c, s) && DropStep(c, s, s', t)
    ensures Affordable(c, s')
  {
    forall g, m | 0 <= g < |s'.entries| && m in s'.entries[g] && !Reservable(c, m)
      ensures Passing(c, s', m, g)
    {
      assert m in s.entries[g];
      assert EntryFits(c, m, g) && Passing(c, s, m, g);
      if !(m == s.tasks[t].model && InWindow(c, s.tasks[t], g)) {
        PassingElsewhere(c, s, s', t, m, g);
      }
    }
  }

  lemma DropShrinks(c: Config, s: State, m: string, g: GpuId)
    ensures |Drop(c, s, m, g).entries| == |s.entries|
    ensures forall h :: 0 <= h < |s.entries| ==> Drop(c, s, m, g).entries[h].Keys <= s.entries[h].Keys
    ensures |s.entries| == |c.budgets| && Accounting(c, g) ==> m !in Drop(c, s, m, g).entries[g]
  {
  }

  lemma SliceShrinks(shares: seq<Share>, j: nat, k: nat, g: GpuId)
    requires j < k <= |shares| && g in R.Devices(Slice(shares, j, k)) && g != shares[j].gpu
    ensures g in R.Devices(Slice(shares, j + 1, k))
  {
    var i :| 0 <= i < k - j && R.Devices(shares[j..k])[i] == g;
    assert i > 0;
    assert R.Devices(shares[j + 1..k])[i - 1] == g;
  }

  lemma RollBackDrops(c: Config, s: State, t: TaskId, s': State)
    requires Starts(c, s, t) && s.tasks[t].pc.RollingBack? && RollBack(c, s, t) == Some(s')
    ensures DropStep(c, s, s', t)
  {
    var m, pc := s.tasks[t].model, s.tasks[t].pc;
    var shares := Cost(c, m, pc.p);
    if pc.j < pc.k && pc.j < |shares| {
      DropShrinks(c, Move(s, t, RollingBack(pc.p, pc.j + 1, pc.k, pc.full)), m, shares[pc.j].gpu);
    }
    forall g | 0 <= g < |s.entries| && LeftBehind(c, s, s', t, g)
      ensures InWindow(c, s'.tasks[t], g)
    {
      RollBackWindow(c, s, t, s', g);
    }
  }

  lemma RollBackWindow(c: Config, s: State, t: TaskId, s': State, g: nat)
    requires Known(c, s, t) && s.tasks[t].pc.RollingBack? && RollBack(c, s, t) == Some(s')
    requires g < |s'.entries| && LeftBehind(c, s, s', t, g)
    ensures t in s'.tasks && InWindow(c, s'.tasks[t], g)
  {
    var m, pc := s.tasks[t].model, s.tasks[t].pc;
    var shares := Cost(c, m, pc.p);
    assert pc.j < pc.k <= |shares|;
    DropShrinks(c, Move(s, t, RollingBack(pc.p, pc.j + 1, pc.k, pc.full)), m, shares[pc.j].gpu);
    SliceShrinks(shares, pc.j, pc.k, g);
  }

  lemma ReleaseDrops(c: Config, s: State, t: TaskId, s': State)
    requires Starts(c, s, t) && s.tasks[t].pc.Releasing? && Release(c, s, t) == Some(s')
    ensures DropStep(c, s, s', t)
  {
    var pc := s.tasks[t].pc;
    if pc.j < |pc.gpus| {
      DropShrinks(c, Move(s, t, Releasing(pc.id, pc.gpus, pc.j + 1, pc.back)), pc.id, pc.gpus[pc.j]);
    }
  }

  lemma AbandonDrops(c: Config, s: State, t: TaskId, s': State)
    requires Starts(c, s, t) && s.tasks[t].pc.Abandoning? && Abandon(c, s, t) == Some(s')
    ensures DropStep(c, s, s', t)
  {
    var m, p, j := s.tasks[t].model, s.tasks[t].pc.p, s.tasks[t].pc.j;
    var shares := Cost(c, m, p);
    if j < |shares| {
      DropShrinks(c, Move(s, t, Abandoning(p, j + 1)), m, shares[j].gpu);
    }
  }

  // ---------- every step, every run ----------

  lemma QuietTask(c: Config, s: State, t: TaskId, choice: Choice, s': State)
    requires Starts(c, s, t) && !MovesTables(s.tasks[t].pc) && TaskStep(c, s, t, choice) == Some(s')
    ensures QuietStep(c, s, s', t)
  {
    var pc := s.tasks[t].pc;
    if pc.Resolving? || pc.Choosing? {
      ResolveQuiet(c, s, t, choice, s');
    } else if pc.Committing? || pc.ReadingPlacement? {
      CommitQuiet(c, s, t, choice, s');
    } else if pc.Spawning? || pc.AwaitingLoad? {
      SpawnQuiet(c, s, t, choice, s');
    } else {
      IdleTask(c, s, t, choice, s');
      IdleIsQuiet(c, s, s', t);
    }
  }

  lemma IdleTask(c: Config, s: State, t: TaskId, choice: Choice, s': State)
    requires Known(c, s, t) && !MovesTables(s.tasks[t].pc) && TaskStep(c, s, t, choice) == Some(s')
    requires var pc := s.tasks[t].pc;
             !pc.Resolving? && !pc.Choosing? && !pc.Committing? && !pc.ReadingPlacement? && !pc.Spawning?
               && !pc.AwaitingLoad?
    ensures IdleStep(c, s, s', t)
  {
    var pc := s.tasks[t].pc;
    if pc.Entering? {
      EnterIdle(c, s, t, choice, s');
    } else if pc.Subscribing? || pc.Parked? || pc.Claimed? {
      EntranceIdle(c, s, t, choice, s');
    } else if pc.Waiting? || pc.UnloadWaiting? {
      WaitingIdle(c, s, t, choice, s');
    } else if pc.Dropping? || pc.Holding? || pc.Sending? || pc.WorkerNotReady? {
      ExitIdle(c, s, t, choice, s');
    } else if pc.Picking? {
      PickIdle(c, s, t, choice, s');
    } else if pc.Evicting? {
      EvictIdle(c, s, t, choice, s');
    } else if pc.Stopping? || pc.Resetting? {
      TakeDownIdle(c, s, t, choice, s');
    } else if pc.Checking? || pc.UnloadEnding? {
      CheckIdle(c, s, t, choice, s');
    } else {
      LeaveIdle(c, s, t, choice, s');
    }
  }

  lemma TaskKeepsAffordable(c: Config, s: State, t: TaskId, choice: Choice, s': State)
    requires WellFormed(c) && Affordable(c, s) && Known(c, s, t) && TaskStep(c, s, t, choice) == Some(s')
    ensures Affordable(c, s')
  {
    var pc := s.tasks[t].pc;
    if pc.Reserving? {
      ReserveKeeps(c, s, t, s');
    } else if pc.RollingBack? {
      RollBackDrops(c, s, t, s');
      DropStepKeeps(c, s, s', t);
    } else if pc.Releasing? {
      ReleaseDrops(c, s, t, s');
      DropStepKeeps(c, s, s', t);
    } else if pc.Abandoning? {
      AbandonDrops(c, s, t, s');
      DropStepKeeps(c, s, s', t);
    } else {
      QuietTask(c, s, t, choice, s');
      QuietStepKeeps(c, s, s', t);
    }
  }

  lemma StartKeepsAffordable(c: Config, s: State, t: TaskId, m: string, kind: Kind, s': State)
    requires Affordable(c, s) && Apply(c, s, Start(t, m, kind)) == Some(s')
    ensures Affordable(c, s')
  {
    forall g, k | 0 <= g < |s'.entries| && k in s'.entries[g] && !Reservable(c, k)
      ensures Passing(c, s', k, g)
    {
      assert Passing(c, s, k, g);
      var u :| u in s.tasks && s.tasks[u].model == k && InWindow(c, s.tasks[u], g);
      assert s'.tasks[u] == s.tasks[u];
    }
  }

  lemma WorkerDiesKeepsAffordable(c: Config, s: State, m: string, s': State)
    requires Affordable(c, s) && Apply(c, s, WorkerDies(m)) == Some(s')
    ensures Affordable(c, s')
  {
    forall g, k | 0 <= g < |s'.entries| && k in s'.entries[g] && !Reservable(c, k)
      ensures Passing(c, s', k, g)
    {
      assert Passing(c, s, k, g);
      var u :| u in s.tasks && s.tasks[u].model == k && InWindow(c, s.tasks[u], g);
      assert s'.tasks[u] == s.tasks[u];
    }
  }

  /** Nobody is dropped in the middle of reserving or rolling back. */
  lemma CancelKeepsAffordable(c: Config, s: State, t: TaskId, s': State)
    requires Affordable(c, s) && Apply(c, s, Cancel(t)) == Some(s')
    ensures Affordable(c, s')
  {
    CancelIdle(c, s, t);
    IdleIsQuiet(c, s, s', t);
    QuietStepKeeps(c, s, s', t);
  }

  lemma CancelIdle(c: Config, s: State, t: TaskId)
    requires t in s.tasks && CanDrop(c, s.tasks[t].pc)
    ensures IdleStep(c, s, Dropped(s, t), t)
  {
  }

  lemma InitAffordable(c: Config)
    ensures Affordable(c, Init(c))
  {
  }

  lemma {:induction false} RunKeepsAffordable(c: Config, steps: seq<Step>)
    requires WellFormed(c) && Possible(c, steps)
    ensures Affordable(c, After(c, steps))
    decreases |steps|
  {
    if steps == [] {
      InitAffordable(c);
    } else {
      var n := |steps| - 1;
      RunKeepsAffordable(c, steps[..n]);
      var s, s' := After(c, steps[..n]), After(c, steps);
      match steps[n] {
        case Start(t, m, kind) => StartKeepsAffordable(c, s, t, m, kind, s');
        case Advance(t, choice) => TaskKeepsAffordable(c, s, t, choice, s');
        case WorkerDies(m) => WorkerDiesKeepsAffordable(c, s, m, s');
        case Cancel(t) => CancelKeepsAffordable(c, s, t, s');
      }
    }
  }

  // ---------- theorems ----------

  /** A model that cannot be loaded with an entry never has a worker on an accounting
      device, so no reservation of its can be missing. */
  lemma NothingToLose(c: Config, steps: seq<Step>, m: string)
    requires WellFormed(c) && Possible(c, steps) && m in c.models && !Reservable(c, m)
    ensures var s := After(c, steps);
            m in s.backends && |s.entries| == |c.budgets| && WorkerReserved(c, s, m)
  {
    RunKeepsAffordable(c, steps);
    var s := After(c, steps);
    var shares := Occupied(c, m, s.backends[m]);
    assert BackendFits(c, m, s.backends[m]);
    forall i | 0 <= i < |shares|
      ensures !Accounted(c, shares[i])
    {
      if Accounted(c, shares[i]) {
        UsableMeans(c, m, s.backends[m].worker.value.on, i);
      }
    }
  }

  /** ... and whenever the coordinator is free it has no entry. */
  lemma NoEntryWhenFree(c: Config, steps: seq<Step>, m: string, g: nat)
    requires WellFormed(c) && Possible(c, steps) && !Reservable(c, m)
    requires After(c, steps).coordinator.None? && g < |After(c, steps).entries|
    ensures m !in After(c, steps).entries[g]
  {
    RunKeepsAffordable(c, steps);
    RunKeepsGuards(c, steps);
    NobodyPasses(c, After(c, steps), m, g);
  }

  lemma NobodyPasses(c: Config, s: State, m: string, g: nat)
    requires OneCoordinates(c, s) && s.coordinator.None?
    ensures !Passing(c, s, m, g)
  {
    forall t | t in s.tasks
      ensures !InWindow(c, s.tasks[t], g)
    {
      assert !Coordinates(c, s.tasks[t].pc);
    }
  }
}
