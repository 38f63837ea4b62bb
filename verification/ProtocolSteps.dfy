/** Every step keeps the protocol's invariant: one lemma for each region of code. */
module ProtocolSteps {
  import opened Wrappers
  import opened MapSums
  import opened Placements
  import opened Protocol
  import opened ProtocolInvariant

  // ---------- shares as a map from devices ----------

  lemma {:induction false} ShareMapKeys(shares: seq<Share>, g: GpuId)
    ensures g in ShareMap(shares) <==> g in R.Devices(shares)
  {
    if shares != [] {
      var n := |shares| - 1;
      ShareMapKeys(shares[..n], g);
      assert R.Devices(shares) == R.Devices(shares[..n]) + [shares[n].gpu];
    }
  }

  lemma ShareMapExtend(shares: seq<Share>, k: nat)
    requires k < |shares|
    ensures ShareMap(shares[..k + 1]) == ShareMap(shares[..k])[shares[k].gpu := shares[k].costMb]
  {
    assert shares[..k + 1][..k] == shares[..k];
  }

  lemma {:induction false} ShareMapDropFirst(shares: seq<Share>)
    requires shares != [] && Distinct(R.Devices(shares))
    ensures ShareMap(shares[1..]) == ShareMap(shares) - {shares[0].gpu}
    decreases |shares|
  {
    var n := |shares| - 1;
    if n == 0 {
      assert ShareMap(shares) == map[shares[0].gpu := shares[0].costMb];
    } else {
      assert R.Devices(shares[..n]) == R.Devices(shares)[..n];
      ShareMapDropFirst(shares[..n]);
      assert shares[..n][1..] == shares[1..][..n - 1];
      assert R.Devices(shares)[0] != R.Devices(shares)[n];
    }
  }

  lemma SliceStep(shares: seq<Share>, j: nat, k: nat)
    requires j < k <= |shares| && Distinct(R.Devices(shares))
    ensures ShareMap(shares[j + 1..k]) == ShareMap(shares[j..k]) - {shares[j].gpu}
  {
    assert R.Devices(shares[j..k]) == R.Devices(shares)[j..k];
    ShareMapDropFirst(shares[j..k]);
    assert shares[j..k][1..] == shares[j + 1..k];
  }

  lemma NotYetHeld(shares: seq<Share>, k: nat)
    requires k < |shares| && Distinct(R.Devices(shares))
    ensures shares[k].gpu !in ShareMap(shares[..k])
  {
    R.LaterDeviceIsNew(shares, k);
    ShareMapKeys(shares[..k], shares[k].gpu);
  }

  /** Shares of a placement in use are on distinct devices. */
  lemma CostDistinct(c: Config, m: string, b: Backend, p: Placement)
    requires WellFormed(c) && m in c.models && PlacementKept(c, m, b) && Candidate(b, p)
    ensures p.WellFormed() && Distinct(R.Devices(Cost(c, m, p)))
    ensures R.Devices(Cost(c, m, p)) == p.Gpus()
  {
    assert R.Devices(Cost(c, m, p)) == p.Gpus();
  }

  // ---------- counting guards ----------

  lemma CountedOther(tasks: map<TaskId, Task>, t: TaskId, task: Task, m: string)
    requires t in tasks ==> tasks[t].model == task.model
    ensures m != task.model ==> CountedFor(tasks[t := task], m) == CountedFor(tasks, m)
    ensures CountedFor(tasks[t := task], task.model)
         == if Counted(task) then CountedFor(tasks, task.model) + {t} else CountedFor(tasks, task.model) - {t}
  {
  }

  function One(b: bool): nat {
    if b then 1 else 0
  }

  /** The count of a model follows the one task that moved. */
  lemma GuardsFollow(s: State, s': State, t: TaskId, task: Task)
    requires GuardsCounted(s) && s'.backends.Keys == s.backends.Keys
    requires s'.tasks == s.tasks[t := task] && task.model in s.backends
    requires t in s.tasks ==> s.tasks[t].model == task.model
    requires forall m :: m in s.backends && m != task.model ==> s'.backends[m].inFlight == s.backends[m].inFlight
    requires s'.backends[task.model].inFlight + One(t in s.tasks && Counted(s.tasks[t]))
          == s.backends[task.model].inFlight + One(Counted(task))
    ensures GuardsCounted(s')
  {
    forall m | m in s.backends
      ensures s'.backends[m].inFlight == |CountedFor(s'.tasks, m)|
    {
      CountedOther(s.tasks, t, task, m);
    }
  }

  /** A counted task keeps its model's count above zero. */
  lemma CountedIsPositive(s: State, t: TaskId)
    requires GuardsCounted(s) && t in s.tasks && Counted(s.tasks[t]) && s.tasks[t].model in s.backends
    ensures s.backends[s.tasks[t].model].inFlight > 0
  {
    assert t in CountedFor(s.tasks, s.tasks[t].model);
  }

  // ---------- one task moves, one backend may change ----------

  ghost predicate Moves(c: Config, s: State, s': State, t: TaskId, x: string) {
    && Known(c, s, t) && x in c.models && t in s'.tasks
    && s'.tasks == s.tasks[t := s.tasks[t].(pc := s'.tasks[t].pc)]
    && x in s'.backends && s'.backends == s.backends[x := s'.backends[x]]
    && |s'.entries| == |s.entries|
  }

  /** What the control part of a step must respect, in terms of the moving task
      and the one backend alone. */
  ghost predicate ControlOk(c: Config, s: State, s': State, t: TaskId, x: string)
    requires Moves(c, s, s', t, x)
  {
    && Typed(s'.tasks[t])
    && CoordinatorOk(s.coordinator, s'.coordinator, t, s.tasks[t].pc, s'.tasks[t].pc)
    && FlightOk(c, s, s', t, x)
    && PlacementKept(c, x, s'.backends[x])
  }

  /** The part about load states and guards. */
  ghost predicate FlightOk(c: Config, s: State, s': State, t: TaskId, x: string)
    requires Moves(c, s, s', t, x)
  {
    var task, task', b, b' := s.tasks[t], s'.tasks[t], s.backends[x], s'.backends[x];
    var mine := x == task.model;
    // single flight
    && (Leads(task'.pc) ==> if mine then b'.load == Loading(t) else Leads(task.pc))
    && (Leads(task.pc) && !Leads(task'.pc) ==> mine && b'.load != Loading(t))
    && (b'.load.Loading? ==> b'.load == b.load || (mine && b'.load == Loading(t) && Leads(task'.pc)))
    && (b.load.Loading? && b'.load != b.load ==> mine && b.load == Loading(t))
    // guards
    && b'.inFlight + One(mine && Counted(task)) == b.inFlight + One(mine && Counted(task'))
    && (!mine ==> Counted(task) == Counted(task'))
    && (Relies(task') ==> if mine then b'.load == Loaded else Relies(task))
    && (b.load == Loaded && b'.load != Loaded ==> b.inFlight == 0)
  }

  predicate CoordinatorOk(before: Option<TaskId>, after: Option<TaskId>, t: TaskId, pc: PC, pc': PC) {
    || (Inside(pc) == Inside(pc') && after == before)
    || (!Inside(pc) && Inside(pc') && before.None? && after == Some(t))
    || (Inside(pc) && !Inside(pc') && after.None?)
  }

  lemma ShapeKept(c: Config, s: State, s': State, t: TaskId, x: string)
    requires Shape(c, s) && Moves(c, s, s', t, x) && Typed(s'.tasks[t])
    requires forall g :: 0 <= g < |s'.entries| ==> s'.entries[g].Keys <= c.models.Keys
    ensures Shape(c, s')
  {
  }

  lemma InsideKept(c: Config, s: State, s': State, t: TaskId, x: string)
    requires OneInside(s) && Moves(c, s, s', t, x)
    requires CoordinatorOk(s.coordinator, s'.coordinator, t, s.tasks[t].pc, s'.tasks[t].pc)
    ensures OneInside(s')
  {
  }

  lemma LeadersKept(c: Config, s: State, s': State, t: TaskId, x: string)
    requires LeadersLoading(s) && Moves(c, s, s', t, x) && FlightOk(c, s, s', t, x)
    ensures LeadersLoading(s')
  {
  }

  lemma LedKept(c: Config, s: State, s': State, t: TaskId, x: string)
    requires LoadingLed(s) && Moves(c, s, s', t, x) && FlightOk(c, s, s', t, x)
    ensures LoadingLed(s')
  {
    forall m | m in s'.backends && s'.backends[m].load.Loading?
      ensures LeadsFor(s', s'.backends[m].load.leader, m)
    {
      if s'.backends[m].load == s.backends[m].load {
        assert LeadsFor(s, s.backends[m].load.leader, m);
      }
    }
  }

  lemma GuardedKept(c: Config, s: State, s': State, t: TaskId, x: string)
    requires GuardsCounted(s) && GuardedIsLoaded(s) && Moves(c, s, s', t, x) && FlightOk(c, s, s', t, x)
    requires forall u :: u in s.tasks ==> KindFits(s.tasks[u])
    ensures GuardedIsLoaded(s')
  {
    forall u | u in s'.tasks && Relies(s'.tasks[u]) && s'.tasks[u].model in s'.backends
      ensures s'.backends[s'.tasks[u].model].load == Loaded
    {
      if u != t && s.tasks[u].model == x {
        CountedIsPositive(s, u);
      }
    }
  }

  lemma PlacementsFollow(c: Config, s: State, s': State, t: TaskId, x: string)
    requires PlacementsKept(c, s) && Moves(c, s, s', t, x) && PlacementKept(c, x, s'.backends[x])
    ensures PlacementsKept(c, s')
  {
  }

  ghost predicate ControlInv(c: Config, s: State) {
    Shape(c, s) && OneInside(s) && SingleFlight(s) && GuardsCounted(s) && GuardedIsLoaded(s) && PlacementsKept(c, s)
  }

  lemma ControlKept(c: Config, s: State, s': State, t: TaskId, x: string)
    requires ControlInv(c, s) && Moves(c, s, s', t, x) && ControlOk(c, s, s', t, x)
    requires forall g :: 0 <= g < |s'.entries| ==> s'.entries[g].Keys <= c.models.Keys
    ensures ControlInv(c, s')
  {
    ShapeKept(c, s, s', t, x);
    InsideKept(c, s, s', t, x);
    LeadersKept(c, s, s', t, x);
    LedKept(c, s, s', t, x);
    GuardsFollow(s, s', t, s'.tasks[t]);
    GuardedKept(c, s, s', t, x);
    PlacementsFollow(c, s, s', t, x);
  }

  lemma HolderMoves(c: Config, s: State, s': State, t: TaskId, x: string)
    requires OneInside(s) && Moves(c, s, s', t, x)
    requires CoordinatorOk(s.coordinator, s'.coordinator, t, s.tasks[t].pc, s'.tasks[t].pc)
    ensures Inside(s.tasks[t].pc) ==> Holder(s) == Some(s.tasks[t])
    ensures Inside(s'.tasks[t].pc) ==> Holder(s') == Some(s'.tasks[t])
    ensures Inside(s.tasks[t].pc) && !Inside(s'.tasks[t].pc) ==> Holder(s') == None
    ensures !Inside(s.tasks[t].pc) && !Inside(s'.tasks[t].pc) ==> Holder(s') == Holder(s)
    ensures !Inside(s.tasks[t].pc) && Inside(s'.tasks[t].pc) ==> Holder(s) == None
  {
  }

  // ---------- what one task knows from the invariant ----------

  ghost predicate Local(c: Config, s: State, t: TaskId) {
    && Known(c, s, t)
    && var task, b := s.tasks[t], s.backends[s.tasks[t].model];
    && Typed(task)
    && (Inside(task.pc) <==> s.coordinator == Some(t))
    && (Leads(task.pc) <==> b.load == Loading(t))
    && (Counted(task) ==> b.inFlight > 0)
    && (Relies(task) ==> b.load == Loaded)
    && PlacementKept(c, task.model, b)
    && (Inside(task.pc) ==> HolderOk(c, s.backends, task))
  }

  lemma LocalFromInv(c: Config, s: State, t: TaskId)
    requires ControlInv(c, s) && HoldersOk(c, s) && t in s.tasks
    ensures Local(c, s, t)
  {
    var m := s.tasks[t].model;
    if s.backends[m].load == Loading(t) {
      assert LeadsFor(s, t, m);
    }
    if Counted(s.tasks[t]) {
      CountedIsPositive(s, t);
    }
  }

  // ---------- tables that do not change ----------

  lemma TablesKept(c: Config, s: State, s': State)
    requires EntriesMatch(c, s) && WithinBudgets(c, s) && s'.entries == s.entries
    requires s'.backends.Keys == s.backends.Keys
    requires forall m :: m in c.models && m in s.backends ==> SameShares(c, s, s', m)
    ensures EntriesMatch(c, s') && WithinBudgets(c, s')
  {
    forall m, g | m in c.models && m in s'.backends && 0 <= g < |s'.entries| && g < |c.budgets|
      ensures EntryMatches(s'.entries[g], c.budgets[g], m, ShareMap(HeldShares(c, Holder(s'), m, s'.backends[m])), g)
    {
      assert SameShares(c, s, s', m);
      assert EntryMatches(s.entries[g], c.budgets[g], m, ShareMap(HeldShares(c, Holder(s), m, s.backends[m])), g);
    }
  }

  ghost predicate SameShares(c: Config, s: State, s': State, m: string)
    requires m in c.models && m in s.backends && m in s'.backends
  {
    ShareMap(HeldShares(c, Holder(s'), m, s'.backends[m])) == ShareMap(HeldShares(c, Holder(s), m, s.backends[m]))
  }

  // ---------- tasks outside the coordinator ----------

  /** The step of a task that is outside, or just gets in: nothing that the
      holder relies on changes. */
  ghost predicate OutsideStep(c: Config, s: State, s': State, t: TaskId) {
    && Known(c, s, t) && Moves(c, s, s', t, s.tasks[t].model)
    && ControlOk(c, s, s', t, s.tasks[t].model)
    && !Inside(s.tasks[t].pc) && s'.entries == s.entries
    && (Inside(s'.tasks[t].pc) ==> s'.tasks[t].pc.Resolving? || s'.tasks[t].pc.Checking?)
    && var b, b' := s.backends[s.tasks[t].model], s'.backends[s.tasks[t].model];
    b'.placement == b.placement && b'.worker == b.worker && (b'.load == Loaded <==> b.load == Loaded)
  }

  lemma OutsideKeeps(c: Config, s: State, s': State, t: TaskId)
    requires Inv(c, s) && OutsideStep(c, s, s', t)
    ensures Inv(c, s')
  {
    var x := s.tasks[t].model;
    ControlKept(c, s, s', t, x);
    HolderMoves(c, s, s', t, x);
    OutsideHolderKept(c, s, s', t);
    OutsideSharesKept(c, s, s', t);
    TablesKept(c, s, s');
  }

  lemma OutsideHolderKept(c: Config, s: State, s': State, t: TaskId)
    requires OneInside(s) && HoldersOk(c, s) && WorkersKnown(s) && OutsideStep(c, s, s', t)
    ensures HoldersOk(c, s') && WorkersKnown(s')
  {
    HolderMoves(c, s, s', t, s.tasks[t].model);
  }

  lemma OutsideSharesKept(c: Config, s: State, s': State, t: TaskId)
    requires OneInside(s) && OutsideStep(c, s, s', t)
    ensures forall m :: m in c.models && m in s.backends ==> SameShares(c, s, s', m)
  {
    HolderMoves(c, s, s', t, s.tasks[t].model);
  }

  /** Entering changes the backend: a claim or a guard. */
  predicate ClaimsOrUses(s: State, t: TaskId, choice: Choice)
    requires t in s.tasks && s.tasks[t].model in s.backends
  {
    var load := s.backends[s.tasks[t].model].load;
    !choice.GiveUp? && (load.Unloaded? || (load.Loaded? && s.tasks[t].kind.Request?))
  }

  lemma EnterOutside(c: Config, s: State, t: TaskId, choice: Choice, s': State)
    requires Local(c, s, t) && s.tasks[t].pc.Entering?
    requires Enter(c, s, t, choice) == Some(s')
    ensures OutsideStep(c, s, s', t)
  {
    if ClaimsOrUses(s, t, choice) {
      UseOutside(c, s, t, choice, s');
    } else {
      NoUseOutside(c, s, t, choice, s');
    }
  }

  lemma UseOutside(c: Config, s: State, t: TaskId, choice: Choice, s': State)
    requires Local(c, s, t) && s.tasks[t].pc.Entering? && ClaimsOrUses(s, t, choice)
    requires Enter(c, s, t, choice) == Some(s')
    ensures OutsideStep(c, s, s', t)
  {
  }

  lemma NoUseOutside(c: Config, s: State, t: TaskId, choice: Choice, s': State)
    requires Local(c, s, t) && s.tasks[t].pc.Entering? && !ClaimsOrUses(s, t, choice)
    requires Enter(c, s, t, choice) == Some(s')
    ensures OutsideStep(c, s, s', t)
  {
    var pc' := s'.tasks[t].pc;
    assert s' == Move(s, t, pc') && (pc'.Done? || pc'.Subscribing? || pc'.Parked?);
    NothingClaimed(c, s, t, pc');
  }

  lemma NothingClaimed(c: Config, s: State, t: TaskId, pc': PC)
    requires Local(c, s, t) && s.tasks[t].pc.Entering? && (pc'.Done? || pc'.Subscribing? || pc'.Parked?)
    ensures OutsideStep(c, s, Move(s, t, pc'), t)
  {
  }

  lemma SubscribeOutside(c: Config, s: State, t: TaskId, s': State)
    requires Local(c, s, t) && s.tasks[t].pc.Subscribing?
    requires Subscribe(c, s, t) == Some(s')
    ensures OutsideStep(c, s, s', t)
  {
  }

  lemma WakeUpOutside(c: Config, s: State, t: TaskId, s': State)
    requires Local(c, s, t) && s.tasks[t].pc.Parked?
    requires WakeUp(c, s, t) == Some(s')
    ensures OutsideStep(c, s, s', t)
  {
  }

  lemma RaiseSentinelOutside(c: Config, s: State, t: TaskId, s': State)
    requires Local(c, s, t) && s.tasks[t].pc.Claimed?
    requires RaiseSentinel(c, s, t) == Some(s')
    ensures OutsideStep(c, s, s', t)
  {
  }

  lemma AcquireOutside(c: Config, s: State, t: TaskId, s': State)
    requires Local(c, s, t) && s.tasks[t].pc.Waiting?
    requires Acquire(c, s, t) == Some(s')
    ensures OutsideStep(c, s, s', t)
  {
  }

  lemma DropGuardOutside(c: Config, s: State, t: TaskId, s': State)
    requires Local(c, s, t) && s.tasks[t].pc.Dropping?
    requires DropGuard(c, s, t) == Some(s')
    ensures OutsideStep(c, s, s', t)
  {
  }

  lemma GetChannelOutside(c: Config, s: State, t: TaskId, choice: Choice, s': State)
    requires Local(c, s, t) && s.tasks[t].pc.Holding?
    requires GetChannel(c, s, t, choice) == Some(s')
    ensures OutsideStep(c, s, s', t)
  {
  }

  lemma AnswerOutside(c: Config, s: State, t: TaskId)
    requires Local(c, s, t) && s.tasks[t].pc.Sending?
    ensures OutsideStep(c, s, Move(s, t, Dropping), t)
  {
  }

  lemma AcquireForUnloadOutside(c: Config, s: State, t: TaskId, s': State)
    requires c.unloadsLocked && Local(c, s, t) && s.tasks[t].pc.UnloadWaiting?
    requires AcquireForUnload(c, s, t) == Some(s')
    ensures OutsideStep(c, s, s', t)
  {
  }

  // ---------- the holder moves, the tables stay ----------

  function HolderAfter(task': Task): Option<Task> {
    if Inside(task'.pc) then Some(task') else None
  }

  ghost predicate HolderStep(c: Config, s: State, s': State, t: TaskId, x: string) {
    && HolderControl(c, s, s', t, x)
    && s'.entries == s.entries
    && forall m :: m in c.models ==> SameShares(c, s, s', m)
  }

  ghost predicate HolderControl(c: Config, s: State, s': State, t: TaskId, x: string) {
    && Moves(c, s, s', t, x) && ControlOk(c, s, s', t, x)
    && Inside(s.tasks[t].pc)
    && HolderRest(c, s, s', t, x)
  }

  /** Placements and workers after a step of the holder. */
  ghost predicate HolderRest(c: Config, s: State, s': State, t: TaskId, x: string)
    requires Moves(c, s, s', t, x)
  {
    var task, task' := s.tasks[t], s'.tasks[t];
    && (Inside(task'.pc) ==> s'.backends.Keys == c.models.Keys && HolderOk(c, s'.backends, task'))
    && (forall m :: m in c.models && m != x && WorksOn(task, m) ==> WorksOn(task', m))
    && (s'.backends[x].worker.Some? && (s.backends[x].worker.Some? ==> WorkerKnown(Some(task), x, s.backends[x])) ==>
          WorkerKnown(HolderAfter(task'), x, s'.backends[x]))
  }

  lemma HolderRestKept(c: Config, s: State, s': State, t: TaskId, x: string)
    requires OneInside(s) && WorkersKnown(s) && Moves(c, s, s', t, x) && Inside(s.tasks[t].pc)
    requires CoordinatorOk(s.coordinator, s'.coordinator, t, s.tasks[t].pc, s'.tasks[t].pc)
    requires HolderRest(c, s, s', t, x)
    ensures HoldersOk(c, s') && WorkersKnown(s')
  {
    HolderMoves(c, s, s', t, x);
    forall m | m in s'.backends && s'.backends[m].worker.Some?
      ensures WorkerKnown(Holder(s'), m, s'.backends[m])
    {
      assert s.backends[m].worker.Some? ==> WorkerKnown(Holder(s), m, s.backends[m]);
    }
  }

  lemma HolderKeeps(c: Config, s: State, s': State, t: TaskId, x: string)
    requires Inv(c, s) && HolderStep(c, s, s', t, x)
    ensures Inv(c, s')
  {
    ControlKept(c, s, s', t, x);
    HolderRestKept(c, s, s', t, x);
    TablesKept(c, s, s');
  }

  lemma SliceAll(shares: seq<Share>)
    ensures Slice(shares, 0, |shares|) == shares
    ensures Slice(shares, |shares|, |shares|) == []
  {
  }

  /** Outside an unload the holder decides about its own model's shares only. */
  predicate OwnWindow(pc: PC) {
    Inside(pc) && !pc.Stopping? && !pc.Releasing?
  }

  lemma OthersSameShares(c: Config, s: State, s': State, t: TaskId)
    requires Known(c, s, t) && Moves(c, s, s', t, s.tasks[t].model) && s'.backends == s.backends
    requires Holder(s) == Some(s.tasks[t]) && Holder(s') == Some(s'.tasks[t])
    requires OwnWindow(s.tasks[t].pc) && OwnWindow(s'.tasks[t].pc)
    ensures forall m :: m in c.models && m != s.tasks[t].model ==> SameShares(c, s, s', m)
  {
  }

  lemma ResolveStep(c: Config, s: State, t: TaskId, s': State)
    requires Local(c, s, t) && s.tasks[t].pc.Resolving?
    requires Resolve(c, s, t) == Some(s')
    ensures HolderStep(c, s, s', t, s.tasks[t].model)
  {
    ResolveControl(c, s, t, s');
    OthersSameShares(c, s, s', t);
    ResolveShares(c, s, t, s');
  }

  lemma ResolveControl(c: Config, s: State, t: TaskId, s': State)
    requires Local(c, s, t) && s.tasks[t].pc.Resolving?
    requires Resolve(c, s, t) == Some(s')
    ensures HolderControl(c, s, s', t, s.tasks[t].model) && s'.entries == s.entries && s'.backends == s.backends
    ensures Holder(s) == Some(s.tasks[t]) && Holder(s') == Some(s'.tasks[t]) && OwnWindow(s'.tasks[t].pc)
  {
  }

  lemma ResolveShares(c: Config, s: State, t: TaskId, s': State)
    requires Local(c, s, t) && s.tasks[t].pc.Resolving?
    requires Resolve(c, s, t) == Some(s')
    requires Holder(s) == Some(s.tasks[t]) && Holder(s') == Some(s'.tasks[t]) && s'.backends == s.backends
    ensures SameShares(c, s, s', s.tasks[t].model)
  {
  }

  lemma ChooseStep(c: Config, s: State, t: TaskId, s': State)
    requires Local(c, s, t) && s.tasks[t].pc.Choosing?
    requires Choose(c, s, t) == Some(s')
    ensures HolderStep(c, s, s', t, s.tasks[t].model)
  {
    ChooseControl(c, s, t, s');
    OthersSameShares(c, s, s', t);
    ChooseShares(c, s, t, s');
  }

  lemma ChooseControl(c: Config, s: State, t: TaskId, s': State)
    requires Local(c, s, t) && s.tasks[t].pc.Choosing?
    requires Choose(c, s, t) == Some(s')
    ensures HolderControl(c, s, s', t, s.tasks[t].model) && s'.entries == s.entries && s'.backends == s.backends
    ensures Holder(s) == Some(s.tasks[t]) && Holder(s') == Some(s'.tasks[t]) && OwnWindow(s'.tasks[t].pc)
  {
  }

  lemma ChooseShares(c: Config, s: State, t: TaskId, s': State)
    requires Local(c, s, t) && s.tasks[t].pc.Choosing?
    requires Choose(c, s, t) == Some(s')
    requires Holder(s) == Some(s.tasks[t]) && Holder(s') == Some(s'.tasks[t]) && s'.backends == s.backends
    ensures SameShares(c, s, s', s.tasks[t].model)
  {
  }

  /** All shares reserved, or a device that is missing or full. */
  predicate ReserveEnds(pc: PC, pc': PC, n: nat)
    requires pc.Reserving?
  {
    (pc' == Committing(pc.p) && pc.k >= n) || (pc'.RollingBack? && pc'.p == pc.p && pc'.j == 0 && pc'.k == pc.k)
  }

  /** Only the task has moved, to such an end. */
  ghost predicate ReserveEnded(c: Config, s: State, t: TaskId, s': State) {
    && Known(c, s, t) && s.tasks[t].pc.Reserving? && t in s'.tasks && s' == Move(s, t, s'.tasks[t].pc)
    && ReserveEnds(s.tasks[t].pc, s'.tasks[t].pc, |Cost(c, s.tasks[t].model, s.tasks[t].pc.p)|)
  }

  lemma ReserveEndStep(c: Config, s: State, t: TaskId, s': State)
    requires Local(c, s, t) && s.tasks[t].pc.Reserving?
    requires Reserve(c, s, t) == Some(s') && t in s'.tasks
    requires s'.tasks[t].pc != Reserving(s.tasks[t].pc.p, s.tasks[t].pc.k + 1)
    ensures HolderStep(c, s, s', t, s.tasks[t].model)
  {
    ReserveEndOf(c, s, t, s');
    ReserveEndMoves(c, s, t, s');
    ReserveEndRest(c, s, t, s');
    ReserveEndHolds(c, s, t, s');
    ReserveEndOwnShares(c, s, t, s');
    OthersSameShares(c, s, s', t);
  }

  lemma ReserveEndOf(c: Config, s: State, t: TaskId, s': State)
    requires Known(c, s, t) && s.tasks[t].pc.Reserving?
    requires Reserve(c, s, t) == Some(s') && t in s'.tasks
    requires s'.tasks[t].pc != Reserving(s.tasks[t].pc.p, s.tasks[t].pc.k + 1)
    ensures ReserveEnded(c, s, t, s')
  {
  }

  lemma ReserveEndMoves(c: Config, s: State, t: TaskId, s': State)
    requires Local(c, s, t) && ReserveEnded(c, s, t, s')
    ensures Moves(c, s, s', t, s.tasks[t].model) && ControlOk(c, s, s', t, s.tasks[t].model)
    ensures Inside(s.tasks[t].pc) && s'.entries == s.entries
  {
  }

  lemma ReserveEndRest(c: Config, s: State, t: TaskId, s': State)
    requires Local(c, s, t) && ReserveEnded(c, s, t, s')
    requires Moves(c, s, s', t, s.tasks[t].model)
    ensures HolderRest(c, s, s', t, s.tasks[t].model)
  {
  }

  lemma ReserveEndOwnShares(c: Config, s: State, t: TaskId, s': State)
    requires Local(c, s, t) && ReserveEnded(c, s, t, s')
    requires Holder(s) == Some(s.tasks[t]) && Holder(s') == Some(s'.tasks[t])
    ensures SameShares(c, s, s', s.tasks[t].model)
  {
    SliceAll(Cost(c, s.tasks[t].model, s.tasks[t].pc.p));
  }

  lemma ReserveEndHolds(c: Config, s: State, t: TaskId, s': State)
    requires Local(c, s, t) && ReserveEnded(c, s, t, s')
    ensures Holder(s) == Some(s.tasks[t]) && Holder(s') == Some(s'.tasks[t]) && OwnWindow(s'.tasks[t].pc)
  {
  }

  lemma RollBackEndStep(c: Config, s: State, t: TaskId, s': State)
    requires Local(c, s, t) && s.tasks[t].pc.RollingBack? && s.tasks[t].pc.j == s.tasks[t].pc.k
    requires RollBack(c, s, t) == Some(s')
    ensures HolderStep(c, s, s', t, s.tasks[t].model)
  {
  }

  /** The holder is not deciding about any shares. */
  predicate NoWindow(pc: PC) {
    pc.Resolving? || pc.Choosing? || pc.Picking? || pc.Evicting? || pc.Failing? || pc.Checking? || pc.UnloadEnding?
  }

  lemma NoWindowSameShares(c: Config, s: State, s': State, t: TaskId)
    requires t in s.tasks && t in s'.tasks && s'.backends == s.backends && s.backends.Keys == c.models.Keys
    requires Holder(s) == Some(s.tasks[t]) && Holder(s') == Some(s'.tasks[t])
    requires NoWindow(s.tasks[t].pc) && NoWindow(s'.tasks[t].pc)
    ensures forall m :: m in c.models ==> SameShares(c, s, s', m)
  {
  }

  lemma PickStep(c: Config, s: State, t: TaskId, choice: Choice, s': State)
    requires Local(c, s, t) && s.tasks[t].pc.Picking?
    requires Pick(c, s, t, choice) == Some(s')
    ensures HolderStep(c, s, s', t, s.tasks[t].model)
  {
    PickControl(c, s, t, choice, s');
    NoWindowSameShares(c, s, s', t);
  }

  lemma PickControl(c: Config, s: State, t: TaskId, choice: Choice, s': State)
    requires Local(c, s, t) && s.tasks[t].pc.Picking?
    requires Pick(c, s, t, choice) == Some(s')
    ensures HolderControl(c, s, s', t, s.tasks[t].model) && s'.entries == s.entries && s'.backends == s.backends
    ensures Holder(s) == Some(s.tasks[t]) && Holder(s') == Some(s'.tasks[t]) && NoWindow(s'.tasks[t].pc)
  {
  }

  lemma EvictStep(c: Config, s: State, t: TaskId, s': State)
    requires Local(c, s, t) && s.tasks[t].pc.Evicting?
    requires Evict(c, s, t) == Some(s') && !s'.tasks[t].pc.Stopping?
    ensures HolderStep(c, s, s', t, s.tasks[t].model)
  {
    EvictControl(c, s, t, s');
    NoWindowSameShares(c, s, s', t);
  }

  lemma EvictControl(c: Config, s: State, t: TaskId, s': State)
    requires Local(c, s, t) && s.tasks[t].pc.Evicting?
    requires Evict(c, s, t) == Some(s') && !s'.tasks[t].pc.Stopping?
    ensures HolderControl(c, s, s', t, s.tasks[t].model) && s'.entries == s.entries && s'.backends == s.backends
    ensures Holder(s) == Some(s.tasks[t]) && Holder(s') == Some(s'.tasks[t]) && NoWindow(s'.tasks[t].pc)
  {
    EvictMoves(c, s, t, s');
    EvictRest(c, s, t, s');
  }

  lemma EvictMoves(c: Config, s: State, t: TaskId, s': State)
    requires Local(c, s, t) && s.tasks[t].pc.Evicting?
    requires Evict(c, s, t) == Some(s') && !s'.tasks[t].pc.Stopping?
    ensures Moves(c, s, s', t, s.tasks[t].model) && ControlOk(c, s, s', t, s.tasks[t].model)
    ensures Inside(s.tasks[t].pc) && s'.entries == s.entries && s'.backends == s.backends
  {
  }

  lemma EvictRest(c: Config, s: State, t: TaskId, s': State)
    requires Local(c, s, t) && s.tasks[t].pc.Evicting?
    requires Evict(c, s, t) == Some(s') && !s'.tasks[t].pc.Stopping?
    requires Moves(c, s, s', t, s.tasks[t].model)
    ensures HolderRest(c, s, s', t, s.tasks[t].model)
    ensures Holder(s) == Some(s.tasks[t]) && Holder(s') == Some(s'.tasks[t]) && NoWindow(s'.tasks[t].pc)
  {
  }

  lemma EvictStartStep(c: Config, s: State, t: TaskId, s': State)
    requires Local(c, s, t) && s.tasks[t].pc.Evicting?
    requires Evict(c, s, t) == Some(s') && s'.tasks[t].pc.Stopping?
    requires PlacementsKept(c, s)
    ensures HolderStep(c, s, s', t, s.tasks[t].pc.victims[0])
  {
    EvictStartControl(c, s, t, s');
    TakeDownShares(c, s, s', t, s.tasks[t].pc.victims[0]);
  }

  lemma EvictStartControl(c: Config, s: State, t: TaskId, s': State)
    requires Local(c, s, t) && s.tasks[t].pc.Evicting?
    requires Evict(c, s, t) == Some(s') && s'.tasks[t].pc.Stopping?
    requires PlacementsKept(c, s)
    ensures s.tasks[t].pc.victims != [] && HolderControl(c, s, s', t, s.tasks[t].pc.victims[0])
    ensures s'.entries == s.entries
    ensures TakesDown(s, s', t, s.tasks[t].pc.victims[0])
  {
    EvictStartMoves(c, s, t, s');
    EvictStartRest(c, s, t, s');
  }

  lemma EvictStartMoves(c: Config, s: State, t: TaskId, s': State)
    requires Local(c, s, t) && s.tasks[t].pc.Evicting? && s.tasks[t].pc.victims != []
    requires Evict(c, s, t) == Some(s') && s'.tasks[t].pc.Stopping?
    requires PlacementsKept(c, s)
    ensures Moves(c, s, s', t, s.tasks[t].pc.victims[0]) && ControlOk(c, s, s', t, s.tasks[t].pc.victims[0])
    ensures Inside(s.tasks[t].pc) && s'.entries == s.entries
  {
  }

  lemma EvictStartRest(c: Config, s: State, t: TaskId, s': State)
    requires Local(c, s, t) && s.tasks[t].pc.Evicting? && s.tasks[t].pc.victims != []
    requires Evict(c, s, t) == Some(s') && s'.tasks[t].pc.Stopping?
    requires PlacementsKept(c, s)
    requires Moves(c, s, s', t, s.tasks[t].pc.victims[0])
    ensures HolderRest(c, s, s', t, s.tasks[t].pc.victims[0])
    ensures TakesDown(s, s', t, s.tasks[t].pc.victims[0])
  {
  }

  /** The holder has set the load state of a loaded model back and nothing else. */
  ghost predicate TakesDown(s: State, s': State, t: TaskId, id: string) {
    && t in s.tasks && t in s'.tasks && Holder(s) == Some(s.tasks[t]) && Holder(s') == Some(s'.tasks[t])
    && NoWindow(s.tasks[t].pc) && s'.tasks[t].pc.Stopping? && s'.tasks[t].pc.id == id
    && id in s.backends && s.backends[id].load == Loaded
    && s'.backends == s.backends[id := s.backends[id].(load := Unloaded)]
  }

  lemma TakeDownShares(c: Config, s: State, s': State, t: TaskId, id: string)
    requires s.backends.Keys == c.models.Keys && TakesDown(s, s', t, id)
    ensures forall m :: m in c.models ==> SameShares(c, s, s', m)
  {
  }

  lemma StopStep(c: Config, s: State, t: TaskId, s': State)
    requires Local(c, s, t) && s.tasks[t].pc.Stopping?
    requires PlacementsKept(c, s)
    requires Stop(c, s, t) == Some(s')
    ensures HolderStep(c, s, s', t, s.tasks[t].pc.id)
  {
    StopControl(c, s, t, s');
    StopShares(c, s, t, s');
  }

  lemma StopControl(c: Config, s: State, t: TaskId, s': State)
    requires Local(c, s, t) && s.tasks[t].pc.Stopping?
    requires PlacementsKept(c, s)
    requires Stop(c, s, t) == Some(s')
    ensures HolderControl(c, s, s', t, s.tasks[t].pc.id) && s'.entries == s.entries
  {
    StopMoves(c, s, t, s');
    StopRest(c, s, t, s');
  }

  lemma StopMoves(c: Config, s: State, t: TaskId, s': State)
    requires Local(c, s, t) && s.tasks[t].pc.Stopping?
    requires PlacementsKept(c, s)
    requires Stop(c, s, t) == Some(s')
    ensures Moves(c, s, s', t, s.tasks[t].pc.id) && ControlOk(c, s, s', t, s.tasks[t].pc.id)
    ensures Inside(s.tasks[t].pc) && s'.entries == s.entries
  {
  }

  lemma StopRest(c: Config, s: State, t: TaskId, s': State)
    requires Local(c, s, t) && s.tasks[t].pc.Stopping?
    requires PlacementsKept(c, s)
    requires Stop(c, s, t) == Some(s')
    requires Moves(c, s, s', t, s.tasks[t].pc.id)
    ensures HolderRest(c, s, s', t, s.tasks[t].pc.id)
  {
  }

  lemma StopShares(c: Config, s: State, t: TaskId, s': State)
    requires Local(c, s, t) && s.tasks[t].pc.Stopping?
    requires PlacementsKept(c, s)
    requires Stop(c, s, t) == Some(s')
    requires HolderControl(c, s, s', t, s.tasks[t].pc.id)
    ensures forall m :: m in c.models ==> SameShares(c, s, s', m)
  {
    var id := s.tasks[t].pc.id;
    SliceAll(PlacedShares(c, id, s.backends[id]));
  }

  lemma ReleaseEndStep(c: Config, s: State, t: TaskId, s': State)
    requires Local(c, s, t) && s.tasks[t].pc.Releasing? && s.tasks[t].pc.j == |s.tasks[t].pc.gpus|
    requires Release(c, s, t) == Some(s')
    ensures HolderStep(c, s, s', t, s.tasks[t].model)
  {
    ReleaseEndControl(c, s, t, s');
    ReleaseEndShares(c, s, t, s');
  }

  lemma ReleaseEndControl(c: Config, s: State, t: TaskId, s': State)
    requires Local(c, s, t) && s.tasks[t].pc.Releasing? && s.tasks[t].pc.j == |s.tasks[t].pc.gpus|
    requires Release(c, s, t) == Some(s')
    ensures HolderControl(c, s, s', t, s.tasks[t].model) && s'.entries == s.entries
  {
  }

  lemma ReleaseEndShares(c: Config, s: State, t: TaskId, s': State)
    requires Local(c, s, t) && s.tasks[t].pc.Releasing? && s.tasks[t].pc.j == |s.tasks[t].pc.gpus|
    requires Release(c, s, t) == Some(s')
    ensures forall m :: m in c.models ==> SameShares(c, s, s', m)
  {
    var id := s.tasks[t].pc.id;
    SliceAll(PlacedShares(c, id, s.backends[id]));
  }

  lemma ResetStep(c: Config, s: State, t: TaskId, s': State)
    requires Local(c, s, t) && s.tasks[t].pc.Resetting?
    requires PlacementsKept(c, s)
    requires Reset(c, s, t) == Some(s')
    ensures HolderStep(c, s, s', t, s.tasks[t].pc.id)
  {
    ResetControl(c, s, t, s');
    ResetShares(c, s, t, s');
  }

  lemma ResetControl(c: Config, s: State, t: TaskId, s': State)
    requires Local(c, s, t) && s.tasks[t].pc.Resetting?
    requires PlacementsKept(c, s)
    requires Reset(c, s, t) == Some(s')
    ensures HolderControl(c, s, s', t, s.tasks[t].pc.id) && s'.entries == s.entries
  {
    ResetMoves(c, s, t, s');
    ResetOk(c, s, t, s');
    ResetRest(c, s, t, s');
  }

  lemma ResetMoves(c: Config, s: State, t: TaskId, s': State)
    requires Local(c, s, t) && s.tasks[t].pc.Resetting?
    requires PlacementsKept(c, s)
    requires Reset(c, s, t) == Some(s')
    ensures Moves(c, s, s', t, s.tasks[t].pc.id)
    ensures Inside(s.tasks[t].pc) && s'.entries == s.entries
  {
  }

  lemma ResetOk(c: Config, s: State, t: TaskId, s': State)
    requires Local(c, s, t) && s.tasks[t].pc.Resetting?
    requires PlacementsKept(c, s)
    requires Reset(c, s, t) == Some(s')
    requires Moves(c, s, s', t, s.tasks[t].pc.id)
    ensures ControlOk(c, s, s', t, s.tasks[t].pc.id)
  {
  }

  lemma ResetRest(c: Config, s: State, t: TaskId, s': State)
    requires Local(c, s, t) && s.tasks[t].pc.Resetting?
    requires PlacementsKept(c, s)
    requires Reset(c, s, t) == Some(s')
    requires Moves(c, s, s', t, s.tasks[t].pc.id)
    ensures HolderRest(c, s, s', t, s.tasks[t].pc.id)
  {
  }

  lemma ResetShares(c: Config, s: State, t: TaskId, s': State)
    requires Local(c, s, t) && s.tasks[t].pc.Resetting?
    requires PlacementsKept(c, s)
    requires Reset(c, s, t) == Some(s')
    requires HolderControl(c, s, s', t, s.tasks[t].pc.id)
    ensures forall m :: m in c.models ==> SameShares(c, s, s', m)
  {
  }

  lemma CommitStep(c: Config, s: State, t: TaskId, s': State)
    requires Local(c, s, t) && s.tasks[t].pc.Committing?
    requires Commit(c, s, t) == Some(s')
    ensures HolderStep(c, s, s', t, s.tasks[t].model)
  {
  }

  lemma ReadPlacementStep(c: Config, s: State, t: TaskId, s': State)
    requires Local(c, s, t) && s.tasks[t].pc.ReadingPlacement?
    requires ReadPlacement(c, s, t) == Some(s')
    ensures HolderStep(c, s, s', t, s.tasks[t].model)
  {
    assert s'.backends == s.backends && s'.entries == s.entries;
  }

  lemma SpawnStep(c: Config, s: State, t: TaskId, choice: Choice, s': State)
    requires Local(c, s, t) && s.tasks[t].pc.Spawning?
    requires WorkersKnown(s)
    requires Spawn(c, s, t, choice) == Some(s')
    ensures HolderStep(c, s, s', t, s.tasks[t].model)
  {
    SpawnControl(c, s, t, choice, s');
    SpawnShares(c, s, t, choice, s');
  }

  lemma SpawnControl(c: Config, s: State, t: TaskId, choice: Choice, s': State)
    requires Local(c, s, t) && s.tasks[t].pc.Spawning?
    requires WorkersKnown(s)
    requires Spawn(c, s, t, choice) == Some(s')
    ensures HolderControl(c, s, s', t, s.tasks[t].model) && s'.entries == s.entries
  {
    SpawnMoves(c, s, t, choice, s');
    SpawnRest(c, s, t, choice, s');
  }

  lemma SpawnMoves(c: Config, s: State, t: TaskId, choice: Choice, s': State)
    requires Local(c, s, t) && s.tasks[t].pc.Spawning?
    requires WorkersKnown(s)
    requires Spawn(c, s, t, choice) == Some(s')
    ensures Moves(c, s, s', t, s.tasks[t].model) && ControlOk(c, s, s', t, s.tasks[t].model)
    ensures Inside(s.tasks[t].pc) && s'.entries == s.entries
  {
  }

  lemma SpawnRest(c: Config, s: State, t: TaskId, choice: Choice, s': State)
    requires Local(c, s, t) && s.tasks[t].pc.Spawning?
    requires WorkersKnown(s)
    requires Spawn(c, s, t, choice) == Some(s')
    requires Moves(c, s, s', t, s.tasks[t].model)
    ensures HolderRest(c, s, s', t, s.tasks[t].model)
  {
  }

  lemma SpawnShares(c: Config, s: State, t: TaskId, choice: Choice, s': State)
    requires Local(c, s, t) && s.tasks[t].pc.Spawning?
    requires WorkersKnown(s)
    requires Spawn(c, s, t, choice) == Some(s')
    requires HolderControl(c, s, s', t, s.tasks[t].model)
    ensures forall m :: m in c.models ==> SameShares(c, s, s', m)
  {
    SliceAll(Cost(c, s.tasks[t].model, s.tasks[t].pc.p));
  }

  lemma LoadAckStep(c: Config, s: State, t: TaskId, choice: Choice, s': State)
    requires Local(c, s, t) && s.tasks[t].pc.AwaitingLoad?
    requires LoadAck(c, s, t, choice) == Some(s')
    ensures HolderStep(c, s, s', t, s.tasks[t].model)
  {
    LoadAckControl(c, s, t, choice, s');
    LoadAckShares(c, s, t, choice, s');
  }

  lemma LoadAckControl(c: Config, s: State, t: TaskId, choice: Choice, s': State)
    requires Local(c, s, t) && s.tasks[t].pc.AwaitingLoad?
    requires LoadAck(c, s, t, choice) == Some(s')
    ensures HolderControl(c, s, s', t, s.tasks[t].model) && s'.entries == s.entries
  {
    LoadAckMoves(c, s, t, choice, s');
    LoadAckRest(c, s, t, choice, s');
  }

  lemma LoadAckMoves(c: Config, s: State, t: TaskId, choice: Choice, s': State)
    requires Local(c, s, t) && s.tasks[t].pc.AwaitingLoad?
    requires LoadAck(c, s, t, choice) == Some(s')
    ensures Moves(c, s, s', t, s.tasks[t].model) && ControlOk(c, s, s', t, s.tasks[t].model)
    ensures Inside(s.tasks[t].pc) && s'.entries == s.entries
  {
  }

  lemma LoadAckRest(c: Config, s: State, t: TaskId, choice: Choice, s': State)
    requires Local(c, s, t) && s.tasks[t].pc.AwaitingLoad?
    requires LoadAck(c, s, t, choice) == Some(s')
    requires Moves(c, s, s', t, s.tasks[t].model)
    ensures HolderRest(c, s, s', t, s.tasks[t].model)
  {
  }

  lemma LoadAckShares(c: Config, s: State, t: TaskId, choice: Choice, s': State)
    requires Local(c, s, t) && s.tasks[t].pc.AwaitingLoad?
    requires LoadAck(c, s, t, choice) == Some(s')
    requires HolderControl(c, s, s', t, s.tasks[t].model)
    ensures forall m :: m in c.models ==> SameShares(c, s, s', m)
  {
    SliceAll(Cost(c, s.tasks[t].model, s.tasks[t].pc.p));
  }

  lemma AbandonEndStep(c: Config, s: State, t: TaskId, s': State)
    requires Local(c, s, t) && s.tasks[t].pc.Abandoning?
    requires s.tasks[t].pc.j == |Cost(c, s.tasks[t].model, s.tasks[t].pc.p)|
    requires Abandon(c, s, t) == Some(s')
    ensures HolderStep(c, s, s', t, s.tasks[t].model)
  {
    SliceAll(Cost(c, s.tasks[t].model, s.tasks[t].pc.p));
  }

  lemma FailLoadingStep(c: Config, s: State, t: TaskId, s': State)
    requires Local(c, s, t) && s.tasks[t].pc.Failing?
    requires FailLoading(c, s, t) == Some(s')
    ensures HolderStep(c, s, s', t, s.tasks[t].model)
  {
    FailLoadingControl(c, s, t, s');
    FailLoadingShares(c, s, t, s');
  }

  lemma FailLoadingControl(c: Config, s: State, t: TaskId, s': State)
    requires Local(c, s, t) && s.tasks[t].pc.Failing?
    requires FailLoading(c, s, t) == Some(s')
    ensures HolderControl(c, s, s', t, s.tasks[t].model) && s'.entries == s.entries
  {
  }

  lemma FailLoadingShares(c: Config, s: State, t: TaskId, s': State)
    requires Local(c, s, t) && s.tasks[t].pc.Failing?
    requires FailLoading(c, s, t) == Some(s')
    ensures forall m :: m in c.models ==> SameShares(c, s, s', m)
  {
  }

  lemma LeaveFailedStep(c: Config, s: State, t: TaskId, s': State)
    requires Local(c, s, t) && s.tasks[t].pc.Failed?
    requires LeaveFailed(c, s, t) == Some(s')
    ensures HolderStep(c, s, s', t, s.tasks[t].model)
  {
  }

  lemma LeaveLoadedStep(c: Config, s: State, t: TaskId, s': State)
    requires Local(c, s, t) && s.tasks[t].pc.Finishing?
    requires LeaveLoaded(c, s, t) == Some(s')
    ensures HolderStep(c, s, s', t, s.tasks[t].model)
  {
  }

  lemma EndUnloadStep(c: Config, s: State, t: TaskId, s': State)
    requires c.unloadsLocked && Local(c, s, t) && s.tasks[t].pc.UnloadEnding?
    requires EndUnload(c, s, t) == Some(s')
    ensures HolderStep(c, s, s', t, s.tasks[t].model)
  {
  }

  lemma CheckStep(c: Config, s: State, t: TaskId, s': State)
    requires Local(c, s, t) && s.tasks[t].pc.Checking?
    requires Check(c, s, t) == Some(s')
    ensures HolderStep(c, s, s', t, s.tasks[t].model)
  {
    CheckControl(c, s, t, s');
    if s'.tasks[t].pc.Stopping? {
      TakeDownShares(c, s, s', t, s.tasks[t].model);
    } else {
      NoWindowSameShares(c, s, s', t);
    }
  }

  lemma CheckControl(c: Config, s: State, t: TaskId, s': State)
    requires Local(c, s, t) && s.tasks[t].pc.Checking?
    requires Check(c, s, t) == Some(s')
    ensures HolderControl(c, s, s', t, s.tasks[t].model) && s'.entries == s.entries
    ensures Holder(s) == Some(s.tasks[t]) && Holder(s') == Some(s'.tasks[t])
    ensures s'.tasks[t].pc.Stopping? ==> TakesDown(s, s', t, s.tasks[t].model)
    ensures !s'.tasks[t].pc.Stopping? ==> s'.backends == s.backends && NoWindow(s'.tasks[t].pc)
  {
    CheckMoves(c, s, t, s');
    CheckRest(c, s, t, s');
  }

  lemma CheckMoves(c: Config, s: State, t: TaskId, s': State)
    requires Local(c, s, t) && s.tasks[t].pc.Checking?
    requires Check(c, s, t) == Some(s')
    ensures Moves(c, s, s', t, s.tasks[t].model) && ControlOk(c, s, s', t, s.tasks[t].model)
    ensures Inside(s.tasks[t].pc) && s'.entries == s.entries
  {
  }

  lemma CheckRest(c: Config, s: State, t: TaskId, s': State)
    requires Local(c, s, t) && s.tasks[t].pc.Checking?
    requires Check(c, s, t) == Some(s')
    requires Moves(c, s, s', t, s.tasks[t].model)
    ensures HolderRest(c, s, s', t, s.tasks[t].model)
    ensures Holder(s) == Some(s.tasks[t]) && Holder(s') == Some(s'.tasks[t])
    ensures s'.tasks[t].pc.Stopping? ==> TakesDown(s, s', t, s.tasks[t].model)
    ensures !s'.tasks[t].pc.Stopping? ==> s'.backends == s.backends && NoWindow(s'.tasks[t].pc)
  {
  }

  // ---------- the holder reserves or releases on one device ----------

  /** Model y gains or loses its share on device g and nothing else changes. */
  ghost predicate TableStep(c: Config, s: State, s': State, t: TaskId, y: string) {
    && Known(c, s, t)
    && HolderControl(c, s, s', t, s.tasks[t].model)
    && (forall m :: m in c.models && m != y ==> SameShares(c, s, s', m))
    && TableChange(c, s, s', y)
  }

  /** The tables after such a step. */
  ghost predicate TableChange(c: Config, s: State, s': State, y: string)
    requires s.backends.Keys == c.models.Keys && |s'.entries| == |s.entries| == |c.budgets|
  {
    && y in c.models && s'.backends == s.backends
    && (forall g :: 0 <= g < |s.entries| ==> s'.entries[g] - {y} == s.entries[g] - {y})
    && (forall g :: 0 <= g < |s.entries| ==>
          EntryMatches(s'.entries[g], c.budgets[g], y, ShareMap(HeldShares(c, Holder(s'), y, s.backends[y])), g))
    && (forall g :: 0 <= g < |s.entries| && 0 < c.budgets[g] < U64_MAX && Sum(s.entries[g]) <= c.budgets[g] ==>
          Sum(s'.entries[g]) <= c.budgets[g])
  }

  lemma TableStepKeeps(c: Config, s: State, s': State, t: TaskId, y: string)
    requires Inv(c, s) && TableStep(c, s, s', t, y)
    ensures Inv(c, s')
  {
    var x := s.tasks[t].model;
    TableKeysKept(c, s, s', t, y);
    ControlKept(c, s, s', t, x);
    HolderRestKept(c, s, s', t, x);
    TablesFollow(c, s, s', t, y);
  }

  lemma TableKeysKept(c: Config, s: State, s': State, t: TaskId, y: string)
    requires Shape(c, s) && TableStep(c, s, s', t, y)
    ensures forall g :: 0 <= g < |s'.entries| ==> s'.entries[g].Keys <= c.models.Keys
  {
    forall g, m | 0 <= g < |s'.entries| && m in s'.entries[g]
      ensures m in c.models
    {
      if m != y {
        assert m in s'.entries[g] - {y};
        assert m in s.entries[g];
      }
    }
  }

  lemma TablesFollow(c: Config, s: State, s': State, t: TaskId, y: string)
    requires EntriesMatch(c, s) && WithinBudgets(c, s) && TableStep(c, s, s', t, y)
    ensures EntriesMatch(c, s') && WithinBudgets(c, s')
  {
    forall m, g | m in c.models && m in s'.backends && 0 <= g < |s'.entries| && g < |c.budgets|
      ensures EntryMatches(s'.entries[g], c.budgets[g], m, ShareMap(HeldShares(c, Holder(s'), m, s'.backends[m])), g)
    {
      if m != y {
        assert SameShares(c, s, s', m);
        assert EntryMatches(s.entries[g], c.budgets[g], m, ShareMap(HeldShares(c, Holder(s), m, s.backends[m])), g);
        OtherEntryKept(s.entries[g], s'.entries[g], y, m);
      }
    }
  }

  lemma OtherEntryKept(before: map<string, nat>, after: map<string, nat>, y: string, m: string)
    requires after - {y} == before - {y} && m != y
    ensures m in after <==> m in before
    ensures m in after ==> after[m] == before[m]
  {
    assert m in after <==> m in after - {y};
    assert m in before <==> m in before - {y};
    if m in after {
      assert (after - {y})[m] == after[m] && (before - {y})[m] == before[m];
    }
  }

  function HeldNow(c: Config, s: State, y: string): map<GpuId, nat>
    requires y in c.models && y in s.backends
  {
    ShareMap(HeldShares(c, Holder(s), y, s.backends[y]))
  }

  /** The entries of one model before a step. */
  ghost predicate Matched(c: Config, s: State, y: string, held: map<GpuId, nat>) {
    |s.entries| == |c.budgets|
    && forall g :: 0 <= g < |s.entries| ==> EntryMatches(s.entries[g], c.budgets[g], y, held, g)
  }

  lemma DropMatches(c: Config, s: State, y: string, held: map<GpuId, nat>, g: GpuId)
    requires Matched(c, s, y, held)
    ensures Matched(c, Drop(c, s, y, g), y, held - {g})
    ensures forall h :: 0 <= h < |s.entries| ==> Drop(c, s, y, g).entries[h] - {y} == s.entries[h] - {y}
    ensures forall h :: 0 <= h < |s.entries| ==> Sum(Drop(c, s, y, g).entries[h]) <= Sum(s.entries[h])
  {
    forall h | 0 <= h < |s.entries|
      ensures Sum(Drop(c, s, y, g).entries[h]) <= Sum(s.entries[h])
    {
      SumMonotone(Drop(c, s, y, g).entries[h], s.entries[h]);
    }
  }

  lemma AddMatches(c: Config, s: State, y: string, held: map<GpuId, nat>, g: GpuId, cost: nat)
    requires Matched(c, s, y, held) && g < |s.entries| && c.budgets[g] != 0 && g !in held
    requires Fits(s.entries[g], c.budgets[g], cost)
    ensures Matched(c, Add(s, y, g, cost), y, held[g := cost])
    ensures forall h :: 0 <= h < |s.entries| ==> Add(s, y, g, cost).entries[h] - {y} == s.entries[h] - {y}
    ensures forall h :: 0 <= h < |s.entries| && 0 < c.budgets[h] < U64_MAX && Sum(s.entries[h]) <= c.budgets[h] ==>
              Sum(Add(s, y, g, cost).entries[h]) <= c.budgets[h]
  {
    assert EntryMatches(s.entries[g], c.budgets[g], y, held, g);
    SumInsert(s.entries[g], y, cost);
  }

  lemma ReserveOneStep(c: Config, s: State, t: TaskId, s': State)
    requires WellFormed(c) && Local(c, s, t) && s.tasks[t].pc.Reserving?
    requires Reserve(c, s, t) == Some(s') && t in s'.tasks
    requires s'.tasks[t].pc == Reserving(s.tasks[t].pc.p, s.tasks[t].pc.k + 1)
    requires Matched(c, s, s.tasks[t].model, HeldNow(c, s, s.tasks[t].model))
    ensures TableStep(c, s, s', t, s.tasks[t].model)
  {
    ReserveOneControl(c, s, t, s');
    ReserveOneTables(c, s, t, s');
  }

  lemma ReserveOneControl(c: Config, s: State, t: TaskId, s': State)
    requires WellFormed(c) && Local(c, s, t) && s.tasks[t].pc.Reserving?
    requires Reserve(c, s, t) == Some(s') && t in s'.tasks
    requires s'.tasks[t].pc == Reserving(s.tasks[t].pc.p, s.tasks[t].pc.k + 1)
    ensures HolderControl(c, s, s', t, s.tasks[t].model) && s'.backends == s.backends
    ensures forall m :: m in c.models && m != s.tasks[t].model ==> SameShares(c, s, s', m)
  {
  }

  lemma ReserveOneTables(c: Config, s: State, t: TaskId, s': State)
    requires WellFormed(c) && Local(c, s, t) && s.tasks[t].pc.Reserving?
    requires Reserve(c, s, t) == Some(s') && t in s'.tasks
    requires s'.tasks[t].pc == Reserving(s.tasks[t].pc.p, s.tasks[t].pc.k + 1)
    requires Matched(c, s, s.tasks[t].model, HeldNow(c, s, s.tasks[t].model))
    ensures var m := s.tasks[t].model;
            Matched(c, s', m, ShareMap(HeldShares(c, Holder(s'), m, s.backends[m])))
    ensures forall g :: 0 <= g < |s.entries| ==> s'.entries[g] - {s.tasks[t].model} == s.entries[g] - {s.tasks[t].model}
    ensures forall g :: 0 <= g < |s.entries| && 0 < c.budgets[g] < U64_MAX && Sum(s.entries[g]) <= c.budgets[g] ==>
              Sum(s'.entries[g]) <= c.budgets[g]
  {
    var m, p, k := s.tasks[t].model, s.tasks[t].pc.p, s.tasks[t].pc.k;
    var shares := Cost(c, m, p);
    CostDistinct(c, m, s.backends[m], p);
    NotYetHeld(shares, k);
    ShareMapExtend(shares, k);
    var g := shares[k].gpu;
    assert Slice(shares, 0, k) == shares[..k] && Slice(shares, 0, k + 1) == shares[..k + 1];
    assert EntryMatches(s.entries[g], c.budgets[g], m, ShareMap(shares[..k]), g);
    if c.budgets[g] != 0 {
      AddMatches(c, s, m, ShareMap(shares[..k]), g, shares[k].costMb);
    }
  }

  /** Releasing one device of one model, whoever does it and why. */
  lemma DropChangesTables(c: Config, s: State, t: TaskId, pc': PC, y: string, g: GpuId, s': State)
    requires Known(c, s, t) && y in c.models && s' == Drop(c, Move(s, t, pc'), y, g)
    requires Matched(c, s, y, HeldNow(c, s, y))
    requires HeldNow(c, s', y) == HeldNow(c, s, y) - {g}
    ensures TableChange(c, s, s', y)
  {
    DropMatches(c, Move(s, t, pc'), y, HeldNow(c, s, y), g);
  }

  lemma RollBackOneStep(c: Config, s: State, t: TaskId, s': State)
    requires WellFormed(c) && Local(c, s, t) && s.tasks[t].pc.RollingBack? && s.tasks[t].pc.j < s.tasks[t].pc.k
    requires RollBack(c, s, t) == Some(s')
    requires Matched(c, s, s.tasks[t].model, HeldNow(c, s, s.tasks[t].model))
    ensures TableStep(c, s, s', t, s.tasks[t].model)
  {
    RollBackOneControl(c, s, t, s');
    RollBackOneTables(c, s, t, s');
  }

  lemma RollBackOneTables(c: Config, s: State, t: TaskId, s': State)
    requires WellFormed(c) && Local(c, s, t) && s.tasks[t].pc.RollingBack? && s.tasks[t].pc.j < s.tasks[t].pc.k
    requires RollBack(c, s, t) == Some(s') && |s'.entries| == |s.entries|
    requires Matched(c, s, s.tasks[t].model, HeldNow(c, s, s.tasks[t].model))
    ensures TableChange(c, s, s', s.tasks[t].model)
  {
    var m, pc := s.tasks[t].model, s.tasks[t].pc;
    RollBackOneHeld(c, s, t, s');
    DropChangesTables(c, s, t, RollingBack(pc.p, pc.j + 1, pc.k, pc.full), m, Cost(c, m, pc.p)[pc.j].gpu, s');
  }

  lemma RollBackOneControl(c: Config, s: State, t: TaskId, s': State)
    requires Local(c, s, t) && s.tasks[t].pc.RollingBack? && s.tasks[t].pc.j < s.tasks[t].pc.k
    requires RollBack(c, s, t) == Some(s')
    ensures HolderControl(c, s, s', t, s.tasks[t].model)
    ensures forall m :: m in c.models && m != s.tasks[t].model ==> SameShares(c, s, s', m)
  {
  }

  lemma RollBackOneHeld(c: Config, s: State, t: TaskId, s': State)
    requires WellFormed(c) && Local(c, s, t) && s.tasks[t].pc.RollingBack? && s.tasks[t].pc.j < s.tasks[t].pc.k
    requires RollBack(c, s, t) == Some(s')
    ensures var m, pc := s.tasks[t].model, s.tasks[t].pc;
            HeldNow(c, s', m) == HeldNow(c, s, m) - {Cost(c, m, pc.p)[pc.j].gpu}
  {
    var m, pc := s.tasks[t].model, s.tasks[t].pc;
    var shares := Cost(c, m, pc.p);
    CostDistinct(c, m, s.backends[m], pc.p);
    RollBackOneShares(c, s, t, s');
    SliceStep(shares, pc.j, pc.k);
  }

  lemma RollBackOneShares(c: Config, s: State, t: TaskId, s': State)
    requires Local(c, s, t) && s.tasks[t].pc.RollingBack? && s.tasks[t].pc.j < s.tasks[t].pc.k
    requires RollBack(c, s, t) == Some(s')
    ensures var m, pc := s.tasks[t].model, s.tasks[t].pc;
            && m in s'.backends
            && HeldShares(c, Holder(s), m, s.backends[m]) == Cost(c, m, pc.p)[pc.j..pc.k]
            && HeldShares(c, Holder(s'), m, s'.backends[m]) == Cost(c, m, pc.p)[pc.j + 1..pc.k]
  {
  }

  lemma AbandonOneStep(c: Config, s: State, t: TaskId, s': State)
    requires WellFormed(c) && Local(c, s, t) && s.tasks[t].pc.Abandoning?
    requires s.tasks[t].pc.j < |Cost(c, s.tasks[t].model, s.tasks[t].pc.p)|
    requires Abandon(c, s, t) == Some(s')
    requires Matched(c, s, s.tasks[t].model, HeldNow(c, s, s.tasks[t].model))
    ensures TableStep(c, s, s', t, s.tasks[t].model)
  {
    AbandonOneControl(c, s, t, s');
    AbandonOneTables(c, s, t, s');
  }

  lemma AbandonOneTables(c: Config, s: State, t: TaskId, s': State)
    requires WellFormed(c) && Local(c, s, t) && s.tasks[t].pc.Abandoning?
    requires s.tasks[t].pc.j < |Cost(c, s.tasks[t].model, s.tasks[t].pc.p)|
    requires Abandon(c, s, t) == Some(s') && |s'.entries| == |s.entries|
    requires Matched(c, s, s.tasks[t].model, HeldNow(c, s, s.tasks[t].model))
    ensures TableChange(c, s, s', s.tasks[t].model)
  {
    var m, pc := s.tasks[t].model, s.tasks[t].pc;
    AbandonOneHeld(c, s, t, s');
    DropChangesTables(c, s, t, Abandoning(pc.p, pc.j + 1), m, Cost(c, m, pc.p)[pc.j].gpu, s');
  }

  lemma AbandonOneControl(c: Config, s: State, t: TaskId, s': State)
    requires Local(c, s, t) && s.tasks[t].pc.Abandoning?
    requires s.tasks[t].pc.j < |Cost(c, s.tasks[t].model, s.tasks[t].pc.p)|
    requires Abandon(c, s, t) == Some(s')
    ensures HolderControl(c, s, s', t, s.tasks[t].model)
    ensures forall m :: m in c.models && m != s.tasks[t].model ==> SameShares(c, s, s', m)
  {
  }

  lemma AbandonOneHeld(c: Config, s: State, t: TaskId, s': State)
    requires WellFormed(c) && Local(c, s, t) && s.tasks[t].pc.Abandoning?
    requires s.tasks[t].pc.j < |Cost(c, s.tasks[t].model, s.tasks[t].pc.p)|
    requires Abandon(c, s, t) == Some(s')
    ensures var m, pc := s.tasks[t].model, s.tasks[t].pc;
            HeldNow(c, s', m) == HeldNow(c, s, m) - {Cost(c, m, pc.p)[pc.j].gpu}
  {
    var m, pc := s.tasks[t].model, s.tasks[t].pc;
    var shares := Cost(c, m, pc.p);
    CostDistinct(c, m, s.backends[m], pc.p);
    AbandonOneShares(c, s, t, s');
    SliceStep(shares, pc.j, |shares|);
  }

  lemma AbandonOneShares(c: Config, s: State, t: TaskId, s': State)
    requires Local(c, s, t) && s.tasks[t].pc.Abandoning?
    requires s.tasks[t].pc.j < |Cost(c, s.tasks[t].model, s.tasks[t].pc.p)|
    requires Abandon(c, s, t) == Some(s')
    ensures var m, pc := s.tasks[t].model, s.tasks[t].pc;
            var shares := Cost(c, m, pc.p);
            && m in s'.backends
            && HeldShares(c, Holder(s), m, s.backends[m]) == shares[pc.j..|shares|]
            && HeldShares(c, Holder(s'), m, s'.backends[m]) == shares[pc.j + 1..|shares|]
  {
  }

  lemma ReleaseOneStep(c: Config, s: State, t: TaskId, s': State)
    requires WellFormed(c) && Local(c, s, t) && s.tasks[t].pc.Releasing? && s.tasks[t].pc.j < |s.tasks[t].pc.gpus|
    requires PlacementsKept(c, s)
    requires Release(c, s, t) == Some(s')
    requires Matched(c, s, s.tasks[t].pc.id, HeldNow(c, s, s.tasks[t].pc.id))
    ensures TableStep(c, s, s', t, s.tasks[t].pc.id)
  {
    ReleaseOneControl(c, s, t, s');
    ReleaseOneTables(c, s, t, s');
  }

  lemma ReleaseOneTables(c: Config, s: State, t: TaskId, s': State)
    requires WellFormed(c) && Local(c, s, t) && s.tasks[t].pc.Releasing? && s.tasks[t].pc.j < |s.tasks[t].pc.gpus|
    requires PlacementsKept(c, s)
    requires Release(c, s, t) == Some(s') && |s'.entries| == |s.entries|
    requires Matched(c, s, s.tasks[t].pc.id, HeldNow(c, s, s.tasks[t].pc.id))
    ensures TableChange(c, s, s', s.tasks[t].pc.id)
  {
    ReleaseOneHeld(c, s, t, s');
    ReleaseOneDrops(c, s, t, s');
    var pc := s.tasks[t].pc;
    DropChangesTables(c, s, t, Releasing(pc.id, pc.gpus, pc.j + 1, pc.back), pc.id, pc.gpus[pc.j], s');
  }

  lemma ReleaseOneDrops(c: Config, s: State, t: TaskId, s': State)
    requires Local(c, s, t) && s.tasks[t].pc.Releasing? && s.tasks[t].pc.j < |s.tasks[t].pc.gpus|
    requires Release(c, s, t) == Some(s')
    ensures var pc := s.tasks[t].pc;
            && pc.id in c.models
            && s' == Drop(c, Move(s, t, Releasing(pc.id, pc.gpus, pc.j + 1, pc.back)), pc.id, pc.gpus[pc.j])
  {
  }

  lemma ReleaseOneControl(c: Config, s: State, t: TaskId, s': State)
    requires Local(c, s, t) && s.tasks[t].pc.Releasing? && s.tasks[t].pc.j < |s.tasks[t].pc.gpus|
    requires Release(c, s, t) == Some(s')
    ensures HolderControl(c, s, s', t, s.tasks[t].model)
    ensures forall m :: m in c.models && m != s.tasks[t].pc.id ==> SameShares(c, s, s', m)
  {
    ReleaseOneMoves(c, s, t, s');
    ReleaseOneRest(c, s, t, s');
  }

  lemma ReleaseOneMoves(c: Config, s: State, t: TaskId, s': State)
    requires Local(c, s, t) && s.tasks[t].pc.Releasing? && s.tasks[t].pc.j < |s.tasks[t].pc.gpus|
    requires Release(c, s, t) == Some(s')
    ensures Moves(c, s, s', t, s.tasks[t].model) && ControlOk(c, s, s', t, s.tasks[t].model)
    ensures Inside(s.tasks[t].pc)
  {
  }

  lemma ReleaseOneRest(c: Config, s: State, t: TaskId, s': State)
    requires Local(c, s, t) && s.tasks[t].pc.Releasing? && s.tasks[t].pc.j < |s.tasks[t].pc.gpus|
    requires Release(c, s, t) == Some(s')
    requires Moves(c, s, s', t, s.tasks[t].model)
    ensures HolderRest(c, s, s', t, s.tasks[t].model)
    ensures forall m :: m in c.models && m != s.tasks[t].pc.id ==> SameShares(c, s, s', m)
  {
  }

  lemma ReleaseOneHeld(c: Config, s: State, t: TaskId, s': State)
    requires WellFormed(c) && Local(c, s, t) && s.tasks[t].pc.Releasing? && s.tasks[t].pc.j < |s.tasks[t].pc.gpus|
    requires PlacementKept(c, s.tasks[t].pc.id, s.backends[s.tasks[t].pc.id])
    requires Release(c, s, t) == Some(s')
    ensures var pc := s.tasks[t].pc;
            HeldNow(c, s', pc.id) == HeldNow(c, s, pc.id) - {pc.gpus[pc.j]}
  {
    var pc := s.tasks[t].pc;
    var b := s.backends[pc.id];
    var shares := PlacedShares(c, pc.id, b);
    CostDistinct(c, pc.id, b, b.placement.placement);
    SliceStep(shares, pc.j, |shares|);
    assert R.Devices(shares)[pc.j] == pc.gpus[pc.j];
  }

  lemma MatchedNow(c: Config, s: State, y: string)
    requires Shape(c, s) && EntriesMatch(c, s) && y in c.models
    ensures Matched(c, s, y, HeldNow(c, s, y))
  {
  }

  // ---------- every step ----------

  lemma ReserveOneKeeps(c: Config, s: State, t: TaskId, s': State)
    requires WellFormed(c) && Inv(c, s) && Local(c, s, t) && s.tasks[t].pc.Reserving?
    requires Reserve(c, s, t) == Some(s') && t in s'.tasks
    requires s'.tasks[t].pc == Reserving(s.tasks[t].pc.p, s.tasks[t].pc.k + 1)
    ensures Inv(c, s')
  {
    MatchedNow(c, s, s.tasks[t].model);
    ReserveOneStep(c, s, t, s');
    TableStepKeeps(c, s, s', t, s.tasks[t].model);
  }

  lemma ReservingKeeps(c: Config, s: State, t: TaskId, s': State)
    requires WellFormed(c) && Inv(c, s) && Local(c, s, t) && s.tasks[t].pc.Reserving?
    requires Reserve(c, s, t) == Some(s')
    ensures Inv(c, s')
  {
    var pc := s.tasks[t].pc;
    if s'.tasks[t].pc == Reserving(pc.p, pc.k + 1) {
      ReserveOneKeeps(c, s, t, s');
    } else {
      ReserveEndKeeps(c, s, t, s');
    }
  }

  lemma ReserveEndKeeps(c: Config, s: State, t: TaskId, s': State)
    requires Inv(c, s) && Local(c, s, t) && s.tasks[t].pc.Reserving?
    requires Reserve(c, s, t) == Some(s') && t in s'.tasks
    requires s'.tasks[t].pc != Reserving(s.tasks[t].pc.p, s.tasks[t].pc.k + 1)
    ensures Inv(c, s')
  {
    ReserveEndStep(c, s, t, s');
    HolderKeeps(c, s, s', t, s.tasks[t].model);
  }

  lemma RollingBackKeeps(c: Config, s: State, t: TaskId, s': State)
    requires WellFormed(c) && Inv(c, s) && Local(c, s, t) && s.tasks[t].pc.RollingBack?
    requires TaskStep(c, s, t, Proceed) == Some(s')
    ensures Inv(c, s')
  {
    var m, pc := s.tasks[t].model, s.tasks[t].pc;
    if pc.j < pc.k {
      MatchedNow(c, s, m);
      RollBackOneStep(c, s, t, s');
      TableStepKeeps(c, s, s', t, m);
    } else {
      RollBackEndStep(c, s, t, s');
      HolderKeeps(c, s, s', t, m);
    }
  }

  lemma ReleasingKeeps(c: Config, s: State, t: TaskId, s': State)
    requires WellFormed(c) && Inv(c, s) && Local(c, s, t) && s.tasks[t].pc.Releasing?
    requires TaskStep(c, s, t, Proceed) == Some(s')
    ensures Inv(c, s')
  {
    var m, pc := s.tasks[t].model, s.tasks[t].pc;
    if pc.j < |pc.gpus| {
      MatchedNow(c, s, pc.id);
      ReleaseOneStep(c, s, t, s');
      TableStepKeeps(c, s, s', t, pc.id);
    } else {
      ReleaseEndStep(c, s, t, s');
      HolderKeeps(c, s, s', t, m);
    }
  }

  lemma AbandoningKeeps(c: Config, s: State, t: TaskId, s': State)
    requires WellFormed(c) && Inv(c, s) && Local(c, s, t) && s.tasks[t].pc.Abandoning?
    requires TaskStep(c, s, t, Proceed) == Some(s')
    ensures Inv(c, s')
  {
    var m, pc := s.tasks[t].model, s.tasks[t].pc;
    if pc.j < |Cost(c, m, pc.p)| {
      MatchedNow(c, s, m);
      AbandonOneStep(c, s, t, s');
      TableStepKeeps(c, s, s', t, m);
    } else {
      AbandonEndStep(c, s, t, s');
      HolderKeeps(c, s, s', t, m);
    }
  }

}
