/** The inductive invariant of the load, evict and unload protocol. It is kept by
    every step of every task, provided unloads from outside take the coordinator and
    nobody drops a load or an unload half way. */
module ProtocolInvariant {
  import opened Wrappers
  import opened MapSums
  import opened Placements
  import opened Protocol

  // ---------- what a program point means ----------

  predicate ForCaller(pc: PC) {
    (pc.Stopping? || pc.Releasing? || pc.Resetting?) && pc.back.ToCaller?
  }

  predicate ForLeader(pc: PC) {
    (pc.Stopping? || pc.Releasing? || pc.Resetting?) && pc.back.NextVictim?
  }

  /** Between claiming the load state and setting it to loaded or back. */
  predicate Leads(pc: PC) {
    || pc.Claimed? || pc.Waiting? || pc.Resolving? || pc.Choosing? || pc.Reserving? || pc.RollingBack?
    || pc.Picking?
    || pc.Evicting? || ForLeader(pc) || pc.Committing? || pc.ReadingPlacement? || pc.Spawning?
    || pc.AwaitingLoad? || pc.Abandoning? || pc.Failing? || pc.PlacementStillAuto?
  }

  /** Holding the load coordinator. */
  predicate Inside(pc: PC) {
    || (Leads(pc) && !pc.Claimed? && !pc.Waiting?)
    || pc.Failed? || pc.Finishing? || pc.Checking? || pc.UnloadEnding? || ForCaller(pc)
  }

  /** A live sentinel or guard of the task counts in its model's `in_flight`. */
  predicate Counted(task: Task) {
    task.kind.Request? && !AtEntrance(task.pc) && !task.pc.Claimed? && !task.pc.Done?
  }

  predicate UsesModel(pc: PC) {
    pc.Holding? || pc.Sending?
  }

  /** The task relies on its model being loaded; a request also between the moment
      its load succeeded and the moment it is handed its guard. */
  predicate Relies(task: Task) {
    UsesModel(task.pc) || (task.pc.Finishing? && task.kind.Request?)
  }

  /** Which program points belong to which kind of task. */
  predicate KindFits(task: Task) {
    && (task.kind.Unload? ==>
          task.pc.UnloadWaiting? || task.pc.Checking? || task.pc.UnloadEnding? || task.pc.Done? || ForCaller(task.pc))
    && (!task.kind.Unload? ==>
          !task.pc.UnloadWaiting? && !task.pc.Checking? && !task.pc.UnloadEnding? && !ForCaller(task.pc))
    && (!task.kind.Request? ==>
          !task.pc.Claimed? && !task.pc.Dropping? && !task.pc.Holding? && !task.pc.Sending?)
    && !task.pc.WorkerNotReady?
  }

  predicate Typed(task: Task) {
    KindFits(task) && !task.pc.PlacementStillAuto?
  }

  // ---------- the components ----------

  ghost predicate Shape(c: Config, s: State) {
    && s.backends.Keys == c.models.Keys
    && |s.entries| == |c.budgets|
    && (forall t :: t in s.tasks ==> s.tasks[t].model in c.models && Typed(s.tasks[t]))
    && (forall g :: 0 <= g < |s.entries| ==> s.entries[g].Keys <= c.models.Keys)
  }

  /** The coordinator is held exactly by the task that is inside. */
  ghost predicate OneInside(s: State) {
    && (forall t :: t in s.tasks ==> (Inside(s.tasks[t].pc) <==> s.coordinator == Some(t)))
    && (s.coordinator.Some? ==> s.coordinator.value in s.tasks)
  }

  /** Whoever leads has claimed its model. */
  ghost predicate LeadersLoading(s: State) {
    forall t :: t in s.tasks && Leads(s.tasks[t].pc) && s.tasks[t].model in s.backends ==>
      s.backends[s.tasks[t].model].load == Loading(t)
  }

  /** A loading model has somebody who loads it. */
  ghost predicate LoadingLed(s: State) {
    forall m :: m in s.backends && s.backends[m].load.Loading? ==> LeadsFor(s, s.backends[m].load.leader, m)
  }

  /** A model is loading exactly while the one task that claimed it leads. */
  ghost predicate SingleFlight(s: State) {
    LeadersLoading(s) && LoadingLed(s)
  }

  ghost predicate LeadsFor(s: State, t: TaskId, m: string) {
    t in s.tasks && s.tasks[t].model == m && Leads(s.tasks[t].pc)
  }

  function CountedFor(tasks: map<TaskId, Task>, m: string): set<TaskId> {
    set t | t in tasks && tasks[t].model == m && Counted(tasks[t])
  }

  ghost predicate GuardsCounted(s: State) {
    forall m :: m in s.backends ==> s.backends[m].inFlight == |CountedFor(s.tasks, m)|
  }

  ghost predicate GuardedIsLoaded(s: State) {
    forall t :: t in s.tasks && Relies(s.tasks[t]) && s.tasks[t].model in s.backends ==>
      s.backends[s.tasks[t].model].load == Loaded
  }

  /** Explicit placements never change; an automatic one is at most one device. */
  ghost predicate PlacementKept(c: Config, m: string, b: Backend)
    requires m in c.models
  {
    && (c.models[m].gpus != [] ==> b.placement == FromGpus(c.models[m].gpus))
    && (c.models[m].gpus == [] && b.placement.Resolved? ==> b.placement.placement.SingleDevice?)
    && (b.load == Loaded ==> b.placement.Resolved?)
  }

  ghost predicate PlacementsKept(c: Config, s: State) {
    forall m :: m in c.models && m in s.backends ==> PlacementKept(c, m, s.backends[m])
  }

  // ---------- which entries a model must have ----------

  function ShareMap(shares: seq<Share>): map<GpuId, nat> {
    if shares == [] then map[]
    else ShareMap(shares[..|shares| - 1])[shares[|shares| - 1].gpu := shares[|shares| - 1].costMb]
  }

  /** Shares of the placement a backend is committed to. */
  function PlacedShares(c: Config, m: string, b: Backend): seq<Share>
    requires m in c.models
  {
    if b.placement.Resolved? then Cost(c, m, b.placement.placement) else []
  }

  function Slice(shares: seq<Share>, j: nat, k: nat): seq<Share> {
    if j <= k <= |shares| then shares[j..k] else []
  }

  /** While a task reserves, releases or unloads, it alone decides which of the
      shares of that one model are in the tables. */
  function Window(c: Config, task: Task, m: string, b: Backend): Option<seq<Share>>
    requires m in c.models
  {
    var mine := task.model == m;
    match task.pc
    case Reserving(p, k) => if mine then Some(Slice(Cost(c, m, p), 0, k)) else None
    case RollingBack(p, j, k, _) => if mine then Some(Slice(Cost(c, m, p), j, k)) else None
    case Committing(p) => if mine then Some(Cost(c, m, p)) else None
    case ReadingPlacement(p) => if mine then Some(Cost(c, m, p)) else None
    case Spawning(p) => if mine then Some(Cost(c, m, p)) else None
    case AwaitingLoad(p) => if mine then Some(Cost(c, m, p)) else None
    case Abandoning(p, j) => if mine then Some(Slice(Cost(c, m, p), j, |Cost(c, m, p)|)) else None
    case Stopping(id, _, _) => if id == m then Some(PlacedShares(c, m, b)) else None
    case Releasing(id, _, j, _) =>
      if id == m then Some(Slice(PlacedShares(c, m, b), j, |PlacedShares(c, m, b)|)) else None
    case _ => None
  }

  /** The task that holds the coordinator. */
  function Holder(s: State): Option<Task> {
    if s.coordinator.Some? && s.coordinator.value in s.tasks then Some(s.tasks[s.coordinator.value]) else None
  }

  function HeldShares(c: Config, holder: Option<Task>, m: string, b: Backend): seq<Share>
    requires m in c.models
  {
    var w := if holder.Some? then Window(c, holder.value, m, b) else None;
    match w
    case Some(shares) => shares
    case None => if b.load == Loaded then PlacedShares(c, m, b) else []
  }

  /** On one device: an entry of exactly the held share, or none. */
  ghost predicate EntryMatches(table: map<string, nat>, budgetMb: u64, m: string, held: map<GpuId, nat>, g: GpuId) {
    && (m in table <==> budgetMb != 0 && g in held)
    && (m in table ==> g in held && table[m] == held[g])
  }

  ghost predicate EntriesMatch(c: Config, s: State) {
    forall m, g :: m in c.models && m in s.backends && 0 <= g < |s.entries| && g < |c.budgets| ==>
      EntryMatches(s.entries[g], c.budgets[g], m, ShareMap(HeldShares(c, Holder(s), m, s.backends[m])), g)
  }

  ghost predicate WithinBudgets(c: Config, s: State) {
    forall g :: 0 <= g < |s.entries| && g < |c.budgets| && 0 < c.budgets[g] < U64_MAX ==>
      Sum(s.entries[g]) <= c.budgets[g]
  }

  // ---------- the task that holds the coordinator ----------

  /** A placement the task may be working with: the committed one, or one device
      for a model that is still automatic. */
  ghost predicate Candidate(b: Backend, p: Placement) {
    b.placement == Resolved(p) || (b.placement.Auto? && p.SingleDevice?)
  }

  ghost predicate HolderOk(c: Config, backends: map<string, Backend>, task: Task)
    requires task.model in c.models && backends.Keys == c.models.Keys
  {
    var m, b := task.model, backends[task.model];
    match task.pc
    case Choosing(_, _, _) => b.placement.Auto?
    case Reserving(p, k) => Candidate(b, p) && k <= |Cost(c, m, p)|
    case RollingBack(p, j, k, _) => Candidate(b, p) && j <= k <= |Cost(c, m, p)|
    case Committing(p) => Candidate(b, p)
    case ReadingPlacement(p) => b.placement == Resolved(p)
    case Spawning(p) => b.placement == Resolved(p)
    case AwaitingLoad(p) => b.placement == Resolved(p)
    case Abandoning(p, j) => b.placement == Resolved(p) && j <= |Cost(c, m, p)|
    case Finishing => b.load == Loaded
    case Stopping(id, starter, back) =>
      && UnloadOk(c, backends, id, task, back) && backends[id].placement.Resolved?
      && (backends[id].worker.Some? ==> starter == Starter(backends[id]))
    case Releasing(id, gpus, j, back) =>
      && UnloadOk(c, backends, id, task, back) && backends[id].placement.Resolved?
      && backends[id].placement.placement.WellFormed()
      && gpus == backends[id].placement.placement.Gpus() && j <= |gpus|
    case Resetting(id, back) => UnloadOk(c, backends, id, task, back)
    case _ => true
  }

  ghost predicate UnloadOk(c: Config, backends: map<string, Backend>, id: string, task: Task, back: Return)
    requires backends.Keys == c.models.Keys
  {
    && id in c.models && backends[id].load != Loaded
    && (back.ToCaller? <==> id == task.model)
  }

  ghost predicate HoldersOk(c: Config, s: State) {
    s.backends.Keys == c.models.Keys && Holder(s).Some? && Holder(s).value.model in c.models ==>
      HolderOk(c, s.backends, Holder(s).value)
  }

  /** Who may have a worker: a loaded model, the one being started, the one being
      stopped; and it occupies the committed placement. */
  ghost predicate WorkersKnown(s: State) {
    forall m :: m in s.backends && s.backends[m].worker.Some? ==> WorkerKnown(Holder(s), m, s.backends[m])
  }

  predicate WorkerKnown(holder: Option<Task>, m: string, b: Backend)
    requires b.worker.Some?
  {
    && b.placement == Resolved(b.worker.value.on)
    && (b.load == Loaded || (holder.Some? && WorksOn(holder.value, m)))
  }

  predicate WorksOn(task: Task, m: string) {
    (task.pc.AwaitingLoad? && task.model == m) || (task.pc.Stopping? && task.pc.id == m)
  }

  /** The two precautions the accounting rests on. */
  predicate Careful(c: Config) {
    c.unloadsLocked && c.detached
  }

  ghost predicate Inv(c: Config, s: State) {
    && Shape(c, s)
    && OneInside(s)
    && SingleFlight(s)
    && GuardsCounted(s)
    && GuardedIsLoaded(s)
    && PlacementsKept(c, s)
    && HoldersOk(c, s)
    && WorkersKnown(s)
    && EntriesMatch(c, s)
    && WithinBudgets(c, s)
  }

  lemma InitInv(c: Config)
    requires WellFormed(c)
    ensures Inv(c, Init(c))
  {
    var s := Init(c);
    forall m | m in c.models
      ensures CountedFor(s.tasks, m) == {}
    {
    }
  }
}
