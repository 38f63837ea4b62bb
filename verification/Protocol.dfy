/** The load, evict and unload protocol of the local backends as a transition
    system (src/engine/llama/mod.rs). Any number of tasks run on any number of
    backends; one step is one region the source executes under a single lock
    (a load state, a placement, one device's table, the load coordinator) or one
    atomic update of an `in_flight` counter. A step names the task that moves and
    whatever the environment decides for it. A future may also be dropped wherever
    it is suspended: routes drop requests that take too long, and the handlers of
    the admin interface go with their connection. */
module Protocol {
  import opened Wrappers
  import opened MapSums
  import opened Placements
  import R = Reservations

  type TaskId = nat

  datatype Model = Model(gpus: seq<GpuId>, estimatedMb: u64, pin: bool)

  /** `unloadsLocked`: whether an unload from outside takes the coordinator first.
      `detached`: whether loads and unloads run in tasks of their own, which nobody
      drops. `registersFirst`: whether a task that finds its model loading registers
      with the leader's notifier before it lets go of the load state. In the source all
      three are false. `evictorBound`: whether victims can be asked to unload at every
      moment; if not, the environment decides each time, as it does before start-up is
      complete. */
  datatype Config = Config(budgets: seq<u64>, models: map<string, Model>, unloadsLocked: bool, detached: bool,
                           registersFirst: bool, evictorBound: bool)

  /** Device ids are distinct within a model; configuration validation checks it. */
  predicate WellFormed(c: Config) {
    forall m :: m in c.models ==> Distinct(c.models[m].gpus)
  }

  /** Loading carries the notifier its leader made; the leader's id stands for it. */
  datatype LoadState = Unloaded | Loading(leader: TaskId) | Loaded

  /** A worker thread: the task that started it and the placement it occupies. */
  datatype Worker = Worker(starter: TaskId, on: Placement)

  /** `worker`: the worker thread started last, while it exists. */
  datatype Backend = Backend(load: LoadState, placement: ResolvedPlacement, inFlight: nat, worker: Option<Worker>)

  datatype Kind = Request | Preload | Unload

  /** Where an unload goes on when it is through. */
  datatype Return = NextVictim(rest: seq<string>) | ToCaller

  datatype PC =
    | Entering                                        // about to inspect the load state
    | Subscribing(leader: TaskId)                     // has seen the model loading, about to register
    | Parked(leader: TaskId, late: bool)              // registered; `late` if the leader had notified before
    | Claimed                                         // load state claimed, sentinel not yet counted
    | Waiting                                         // for the coordinator
    | Resolving                                       // top of the reserve loop
    | Choosing(i: nat, best: GpuId, freeMb: nat)      // automatic: the first i devices have been looked at
    | Reserving(p: Placement, k: nat)                 // the first k shares are reserved
    | RollingBack(p: Placement, j: nat, k: nat, full: bool)  // shares j to k still to withdraw
    | Picking(gpu: GpuId, neededMb: nat)              // that device is full
    | Evicting(victims: seq<string>, any: bool)
    | Stopping(id: string, starter: Option<TaskId>, back: Return)  // unloading `id`: that worker is being stopped
    | Releasing(id: string, gpus: seq<GpuId>, j: nat, back: Return)
    | Resetting(id: string, back: Return)
    | Committing(p: Placement)
    | ReadingPlacement(p: Placement)
    | Spawning(p: Placement)
    | AwaitingLoad(p: Placement)
    | Abandoning(p: Placement, j: nat)                // load failed, shares from j on still to release
    | Failing                                         // about to set the load state back
    | Failed                                          // load state set back, coordinator still held
    | Finishing                                       // loaded, coordinator still held
    | Dropping                                        // about to drop the sentinel or guard
    | Holding                                         // the request holds its guard
    | Sending                                         // ... and the worker's command channel
    | UnloadWaiting | Checking | UnloadEnding         // an unload from outside
    | Done
    | WorkerNotReady                                  // the command channel was asked for without a worker
    | PlacementStillAuto                              // no placement after a reservation: about to fail

  datatype Task = Task(model: string, kind: Kind, pc: PC)

  datatype State = State(
    coordinator: Option<TaskId>,
    backends: map<string, Backend>,
    entries: seq<map<string, nat>>,
    tasks: map<TaskId, Task>)

  datatype Choice =
    | Proceed
    | GiveUp                          // poisoned or draining, no victims, worker failed, ...
    | Victims(victims: seq<string>)

  datatype Step =
    | Start(t: TaskId, m: string, kind: Kind)
    | Advance(t: TaskId, choice: Choice)
    | WorkerDies(m: string)
    | Cancel(t: TaskId)               // the future is dropped

  function Init(c: Config): State {
    State(None,
          map m | m in c.models :: Backend(Unloaded, FromGpus(c.models[m].gpus), 0, None),
          seq(|c.budgets|, _ => map[]),
          map[])
  }

  // ---------- small updates ----------

  function Move(s: State, t: TaskId, pc: PC): State
    requires t in s.tasks
  {
    s.(tasks := s.tasks[t := s.tasks[t].(pc := pc)])
  }

  function Put(s: State, m: string, b: Backend): State {
    s.(backends := s.backends[m := b])
  }

  function Cost(c: Config, m: string, p: Placement): seq<Share>
    requires m in c.models
  {
    if p.WellFormed() then p.PerDeviceCost(c.models[m].estimatedMb) else []
  }

  ghost predicate Fits(table: map<string, nat>, budgetMb: u64, costMb: nat) {
    R.SaturatingAdd(Sum(table), costMb) <= budgetMb
  }

  function Add(s: State, m: string, g: GpuId, costMb: nat): State
    requires g < |s.entries|
  {
    var table: map<string, nat> := s.entries[g][m := costMb];
    s.(entries := s.entries[g := table])
  }

  /** Drop the model's entry on a device that exists and keeps accounts. */
  function Drop(c: Config, s: State, m: string, g: GpuId): State {
    if g < |s.entries| && g < |c.budgets| && c.budgets[g] != 0
    then s.(entries := s.entries[g := s.entries[g] - {m}])
    else s
  }

  // ---------- one step of one task ----------

  ghost predicate Known(c: Config, s: State, t: TaskId) {
    && t in s.tasks && s.tasks[t].model in c.models
    && s.backends.Keys == c.models.Keys && |s.entries| == |c.budgets|
  }

  ghost function TaskStep(c: Config, s: State, t: TaskId, choice: Choice): Option<State>
    requires Known(c, s, t)
  {
    match s.tasks[t].pc
    case Entering => Enter(c, s, t, choice)
    case Subscribing(_) => Subscribe(c, s, t)
    case Parked(_, _) => WakeUp(c, s, t)
    case Claimed => RaiseSentinel(c, s, t)
    case Waiting => Acquire(c, s, t)
    case Resolving => Resolve(c, s, t)
    case Choosing(_, _, _) => Choose(c, s, t)
    case Reserving(_, _) => Reserve(c, s, t)
    case RollingBack(_, _, _, _) => RollBack(c, s, t)
    case Picking(_, _) => Pick(c, s, t, choice)
    case Evicting(_, _) => Evict(c, s, t)
    case Stopping(_, _, _) => Stop(c, s, t)
    case Releasing(_, _, _, _) => Release(c, s, t)
    case Resetting(_, _) => Reset(c, s, t)
    case Committing(_) => Commit(c, s, t)
    case ReadingPlacement(_) => ReadPlacement(c, s, t)
    case Spawning(_) => Spawn(c, s, t, choice)
    case AwaitingLoad(_) => LoadAck(c, s, t, choice)
    case Abandoning(_, _) => Abandon(c, s, t)
    case Failing => FailLoading(c, s, t)
    case Failed => LeaveFailed(c, s, t)
    case Finishing => LeaveLoaded(c, s, t)
    case Dropping => DropGuard(c, s, t)
    case Holding => GetChannel(c, s, t, choice)
    case Sending => Some(Move(s, t, Dropping))
    case UnloadWaiting => AcquireForUnload(c, s, t)
    case Checking => Check(c, s, t)
    case UnloadEnding => EndUnload(c, s, t)
    case Done => None
    case WorkerNotReady => Some(Move(s, t, Dropping))
    case PlacementStillAuto => FailLoading(c, s, t)
  }

  /** Under the load-state lock: use, wait, or claim. The guard of a request is
      counted in the same region that saw the model loaded. */
  ghost function Enter(c: Config, s: State, t: TaskId, choice: Choice): Option<State>
    requires Known(c, s, t)
  {
    var m, b := s.tasks[t].model, s.backends[s.tasks[t].model];
    if choice.GiveUp? then Some(Move(s, t, Done))
    else match b.load
      case Loaded =>
        if s.tasks[t].kind.Request?
        then Some(Put(Move(s, t, Holding), m, b.(inFlight := b.inFlight + 1)))
        else Some(Move(s, t, Done))
      case Loading(n) => Some(Move(s, t, if c.registersFirst then Parked(n, false) else Subscribing(n)))
      case Unloaded =>
        Some(Put(Move(s, t, if s.tasks[t].kind.Request? then Claimed else Waiting), m, b.(load := Loading(t))))
  }

  /** The leader has set the load state to something else and notified its waiters. */
  predicate Notified(b: Backend, leader: TaskId) {
    b.load != Loading(leader)
  }

  /** A notifier wakes those that are registered when it goes off, and nobody who comes
      later; every leader makes its own. */
  ghost function Subscribe(c: Config, s: State, t: TaskId): Option<State>
    requires Known(c, s, t) && s.tasks[t].pc.Subscribing?
  {
    var n := s.tasks[t].pc.leader;
    Some(Move(s, t, Parked(n, Notified(s.backends[s.tasks[t].model], n))))
  }

  ghost function WakeUp(c: Config, s: State, t: TaskId): Option<State>
    requires Known(c, s, t) && s.tasks[t].pc.Parked?
  {
    var pc := s.tasks[t].pc;
    if !pc.late && Notified(s.backends[s.tasks[t].model], pc.leader) then Some(Move(s, t, Entering)) else None
  }

  ghost function RaiseSentinel(c: Config, s: State, t: TaskId): Option<State>
    requires Known(c, s, t)
  {
    var m, b := s.tasks[t].model, s.backends[s.tasks[t].model];
    Some(Put(Move(s, t, Waiting), m, b.(inFlight := b.inFlight + 1)))
  }

  ghost function Acquire(c: Config, s: State, t: TaskId): Option<State>
    requires Known(c, s, t)
  {
    if s.coordinator.None? then Some(Move(s, t, Resolving).(coordinator := Some(t))) else None
  }

  ghost function Resolve(c: Config, s: State, t: TaskId): Option<State>
    requires Known(c, s, t)
  {
    match s.backends[s.tasks[t].model].placement
    case Resolved(p) => Some(Move(s, t, Reserving(p, 0)))
    case Auto => Some(Move(s, t, if |c.budgets| == 0 then Failing else Choosing(0, 0, 0)))
  }

  ghost function Free(table: map<string, nat>, budgetMb: u64): nat {
    if Sum(table) > budgetMb then 0 else budgetMb - Sum(table)
  }

  /** One device under its lock; the last of those with the most free budget wins. */
  ghost function Choose(c: Config, s: State, t: TaskId): Option<State>
    requires Known(c, s, t) && s.tasks[t].pc.Choosing?
  {
    var pc := s.tasks[t].pc;
    if pc.i < |c.budgets| then
      var freeMb := Free(s.entries[pc.i], c.budgets[pc.i]);
      var next := if freeMb >= pc.freeMb then Choosing(pc.i + 1, pc.i, freeMb)
                  else Choosing(pc.i + 1, pc.best, pc.freeMb);
      Some(Move(s, t, next))
    else Some(Move(s, t, Reserving(SingleDevice(pc.best), 0)))
  }

  /** One device of the split, under that device's lock. */
  ghost function Reserve(c: Config, s: State, t: TaskId): (r: Option<State>)
    requires Known(c, s, t) && s.tasks[t].pc.Reserving?
    ensures r.Some? && r.value.tasks.Keys == s.tasks.Keys
  {
    var m, p, k := s.tasks[t].model, s.tasks[t].pc.p, s.tasks[t].pc.k;
    var shares := Cost(c, m, p);
    if k >= |shares| then Some(Move(s, t, Committing(p)))
    else
      var g: GpuId, cost: nat := shares[k].gpu, shares[k].costMb;
      if g >= |s.entries| then Some(Move(s, t, RollingBack(p, 0, k, false)))
      else if c.budgets[g] == 0 || m in s.entries[g] then Some(Move(s, t, Reserving(p, k + 1)))
      else if Fits(s.entries[g], c.budgets[g], cost)
      then Some(Add(Move(s, t, Reserving(p, k + 1)), m, g, cost))
      else Some(Move(s, t, RollingBack(p, 0, k, true)))
  }

  ghost function RollBack(c: Config, s: State, t: TaskId): Option<State>
    requires Known(c, s, t) && s.tasks[t].pc.RollingBack?
  {
    var m, pc := s.tasks[t].model, s.tasks[t].pc;
    var shares := Cost(c, m, pc.p);
    if pc.j < pc.k && pc.j < |shares|
    then Some(Drop(c, Move(s, t, RollingBack(pc.p, pc.j + 1, pc.k, pc.full)), m, shares[pc.j].gpu))
    else Some(Move(s, t, AfterRollBack(shares, pc)))
  }

  function AfterRollBack(shares: seq<Share>, pc: PC): PC
    requires pc.RollingBack?
  {
    if pc.full && pc.k < |shares| then Picking(shares[pc.k].gpu, shares[pc.k].costMb) else Failing
  }

  /** Costs of the models with an entry on the device that are neither pinned nor
      serving a request. */
  function Eligible(c: Config, s: State, g: GpuId): map<string, nat> {
    if g < |s.entries|
    then map id | id in s.entries[g] && MayLeave(c, s, id) :: s.entries[g][id]
    else map[]
  }

  predicate MayLeave(c: Config, s: State, id: string) {
    id in c.models && !c.models[id].pin && id in s.backends && s.backends[id].inFlight == 0
  }

  function CostOfIds(ids: seq<string>, costs: map<string, nat>): nat
    requires forall i :: 0 <= i < |ids| ==> ids[i] in costs
  {
    if ids == [] then 0 else CostOfIds(ids[..|ids| - 1], costs) + costs[ids[|ids| - 1]]
  }

  /** What the picker may choose, depending on which models were used longest ago:
      enough, and not enough without the last. */
  ghost predicate Picks(ids: seq<string>, costs: map<string, nat>, neededMb: nat) {
    && ids != [] && Distinct(ids)
    && (forall i :: 0 <= i < |ids| ==> ids[i] in costs)
    && neededMb <= CostOfIds(ids, costs)
    && (|ids| >= 2 ==> CostOfIds(ids[..|ids| - 1], costs) < neededMb)
  }

  /** The picker chooses nobody. */
  ghost predicate Short(costs: map<string, nat>, neededMb: nat) {
    costs == map[] || Sum(costs) < neededMb
  }

  /** Victims, or nobody is enough, or there is nobody to ask. */
  ghost function Pick(c: Config, s: State, t: TaskId, choice: Choice): Option<State>
    requires Known(c, s, t) && s.tasks[t].pc.Picking?
  {
    var costs := Eligible(c, s, s.tasks[t].pc.gpu);
    match choice
    case GiveUp =>
      if Short(costs, s.tasks[t].pc.neededMb) || !c.evictorBound then Some(Move(s, t, Failing)) else None
    case Victims(vs) =>
      if Picks(vs, costs, s.tasks[t].pc.neededMb) then Some(Move(s, t, Evicting(vs, false))) else None
    case _ => None
  }

  /** The task that started the backend's worker. */
  function Starter(b: Backend): Option<TaskId> {
    if b.worker.Some? then Some(b.worker.value.starter) else None
  }

  /** The region of `unload` that checks for business and takes the model down. */
  ghost function Evict(c: Config, s: State, t: TaskId): Option<State>
    requires Known(c, s, t) && s.tasks[t].pc.Evicting?
  {
    var victims, any := s.tasks[t].pc.victims, s.tasks[t].pc.any;
    if victims == [] then Some(Move(s, t, if any then Resolving else Failing))
    else
      var v, rest := victims[0], victims[1..];
      if v !in c.models then Some(Move(s, t, Failing))
      else
        var b := s.backends[v];
        if b.inFlight > 0 || b.load.Loading? then Some(Move(s, t, Evicting(rest, any)))
        else if b.load.Unloaded? then Some(Move(s, t, Evicting(rest, true)))
        else Some(Put(Move(s, t, Stopping(v, Starter(b), NextVictim(rest))), v, b.(load := Unloaded)))
  }

  /** The worker has exited; read the devices to release from the placement. A worker
      that somebody else has started meanwhile stays. */
  ghost function Stop(c: Config, s: State, t: TaskId): Option<State>
    requires Known(c, s, t) && s.tasks[t].pc.Stopping?
  {
    var id, back := s.tasks[t].pc.id, s.tasks[t].pc.back;
    if id !in s.backends then None
    else
      var b := s.backends[id];
      var gpus := if b.placement.Resolved? && b.placement.placement.WellFormed() then b.placement.placement.Gpus()
                  else [];
      var worker := if Starter(b) == s.tasks[t].pc.starter then None else b.worker;
      Some(Put(Move(s, t, Releasing(id, gpus, 0, back)), id, b.(worker := worker)))
  }

  ghost function Release(c: Config, s: State, t: TaskId): Option<State>
    requires Known(c, s, t) && s.tasks[t].pc.Releasing?
  {
    var pc := s.tasks[t].pc;
    if pc.j < |pc.gpus|
    then Some(Drop(c, Move(s, t, Releasing(pc.id, pc.gpus, pc.j + 1, pc.back)), pc.id, pc.gpus[pc.j]))
    else Some(Move(s, t, Resetting(pc.id, pc.back)))
  }

  /** An automatic model becomes automatic again. */
  ghost function Reset(c: Config, s: State, t: TaskId): Option<State>
    requires Known(c, s, t) && s.tasks[t].pc.Resetting?
  {
    var id, back := s.tasks[t].pc.id, s.tasks[t].pc.back;
    if id !in s.backends then None
    else
      var b := s.backends[id];
      var next := match back
        case NextVictim(rest) => Evicting(rest, true)
        case ToCaller => UnloadEnding;
      Some(Put(Move(s, t, next), id, if c.models[id].gpus == [] then b.(placement := Auto) else b))
  }

  ghost function Commit(c: Config, s: State, t: TaskId): Option<State>
    requires Known(c, s, t) && s.tasks[t].pc.Committing?
  {
    var m, b, p := s.tasks[t].model, s.backends[s.tasks[t].model], s.tasks[t].pc.p;
    Some(Put(Move(s, t, ReadingPlacement(p)), m, if b.placement.Auto? then b.(placement := Resolved(p)) else b))
  }

  ghost function ReadPlacement(c: Config, s: State, t: TaskId): Option<State>
    requires Known(c, s, t)
  {
    match s.backends[s.tasks[t].model].placement
    case Resolved(p) => Some(Move(s, t, Spawning(p)))
    case Auto => Some(Move(s, t, PlacementStillAuto))
  }

  ghost function Spawn(c: Config, s: State, t: TaskId, choice: Choice): Option<State>
    requires Known(c, s, t) && s.tasks[t].pc.Spawning?
  {
    var m, b, p := s.tasks[t].model, s.backends[s.tasks[t].model], s.tasks[t].pc.p;
    if choice.GiveUp? then Some(Move(s, t, Abandoning(p, 0)))
    else Some(Put(Move(s, t, AwaitingLoad(p)), m, b.(worker := Some(Worker(t, p)))))
  }

  ghost function LoadAck(c: Config, s: State, t: TaskId, choice: Choice): Option<State>
    requires Known(c, s, t) && s.tasks[t].pc.AwaitingLoad?
  {
    var m, b, p := s.tasks[t].model, s.backends[s.tasks[t].model], s.tasks[t].pc.p;
    if choice.GiveUp? then Some(Put(Move(s, t, Abandoning(p, 0)), m, b.(worker := None)))
    else Some(Put(Move(s, t, Finishing), m, b.(load := Loaded)))
  }

  ghost function Abandon(c: Config, s: State, t: TaskId): Option<State>
    requires Known(c, s, t) && s.tasks[t].pc.Abandoning?
  {
    var m, p, j := s.tasks[t].model, s.tasks[t].pc.p, s.tasks[t].pc.j;
    var shares := Cost(c, m, p);
    if j < |shares| then Some(Drop(c, Move(s, t, Abandoning(p, j + 1)), m, shares[j].gpu))
    else Some(Move(s, t, Failing))
  }

  ghost function FailLoading(c: Config, s: State, t: TaskId): Option<State>
    requires Known(c, s, t)
  {
    var m, b := s.tasks[t].model, s.backends[s.tasks[t].model];
    Some(Put(Move(s, t, Failed), m, b.(load := Unloaded)))
  }

  ghost function LeaveFailed(c: Config, s: State, t: TaskId): Option<State>
    requires Known(c, s, t)
  {
    Some(Move(s, t, if s.tasks[t].kind.Request? then Dropping else Done).(coordinator := None))
  }

  /** The sentinel is forgotten and a fresh guard handed out: the count stays. */
  ghost function LeaveLoaded(c: Config, s: State, t: TaskId): Option<State>
    requires Known(c, s, t)
  {
    Some(Move(s, t, if s.tasks[t].kind.Request? then Holding else Done).(coordinator := None))
  }

  ghost function DropGuard(c: Config, s: State, t: TaskId): Option<State>
    requires Known(c, s, t)
  {
    var m, b := s.tasks[t].model, s.backends[s.tasks[t].model];
    // fetch_sub wraps at zero; the invariant shows it never gets there
    Some(Put(Move(s, t, Done), m, b.(inFlight := if b.inFlight == 0 then 0xFFFF_FFFF else b.inFlight - 1)))
  }

  ghost function GetChannel(c: Config, s: State, t: TaskId, choice: Choice): Option<State>
    requires Known(c, s, t)
  {
    if choice.GiveUp? then Some(Move(s, t, Dropping))
    else if s.backends[s.tasks[t].model].load.Loaded? then Some(Move(s, t, Sending))
    else Some(Move(s, t, WorkerNotReady))
  }

  ghost function AcquireForUnload(c: Config, s: State, t: TaskId): Option<State>
    requires Known(c, s, t)
  {
    if !c.unloadsLocked then Some(Move(s, t, Checking))
    else if s.coordinator.None? then Some(Move(s, t, Checking).(coordinator := Some(t)))
    else None
  }

  ghost function Check(c: Config, s: State, t: TaskId): Option<State>
    requires Known(c, s, t)
  {
    var m, b := s.tasks[t].model, s.backends[s.tasks[t].model];
    if b.inFlight > 0 || !b.load.Loaded? then Some(Move(s, t, UnloadEnding))
    else Some(Put(Move(s, t, Stopping(m, Starter(b), ToCaller)), m, b.(load := Unloaded)))
  }

  ghost function EndUnload(c: Config, s: State, t: TaskId): Option<State>
    requires Known(c, s, t)
  {
    Some(Move(s, t, Done).(coordinator := if c.unloadsLocked then None else s.coordinator))
  }

  // ---------- dropped futures ----------

  /** In the middle of a load or an unload and suspended at an await. */
  predicate SuspendedInside(pc: PC) {
    || pc.Waiting? || pc.Resolving? || pc.Evicting? || pc.Stopping? || pc.Resetting? || pc.Committing?
    || pc.ReadingPlacement? || pc.AwaitingLoad? || pc.Failing? || pc.PlacementStillAuto? || pc.Checking?
  }

  predicate CanDrop(c: Config, pc: PC) {
    || pc.Entering? || pc.Parked? || pc.Holding? || pc.Sending? || pc.UnloadWaiting?
    || (!c.detached && SuspendedInside(pc))
  }

  /** Has claimed nothing yet. */
  predicate AtEntrance(pc: PC) {
    pc.Entering? || pc.Subscribing? || pc.Parked?
  }

  /** The coordinator's lock and the sentinel or guard go with the future; load
      states, placements and tables stay as they stand. */
  function Dropped(s: State, t: TaskId): State
    requires t in s.tasks
  {
    var task := s.tasks[t];
    Move(s, t, if task.kind.Request? && !AtEntrance(task.pc) then Dropping else Done)
    .(coordinator := if s.coordinator == Some(t) then None else s.coordinator)
  }

  // ---------- runs ----------

  ghost function Apply(c: Config, s: State, step: Step): Option<State> {
    match step
    case Start(t, m, kind) =>
      if t in s.tasks || m !in c.models then None
      else Some(s.(tasks := s.tasks[t := Task(m, kind, if kind.Unload? then UnloadWaiting else Entering)]))
    case Advance(t, choice) =>
      if Known(c, s, t) then TaskStep(c, s, t, choice) else None
    case WorkerDies(m) =>
      if m in s.backends && s.backends[m].worker.Some?
      then Some(Put(s, m, s.backends[m].(worker := None)))
      else None
    case Cancel(t) =>
      if Known(c, s, t) && CanDrop(c, s.tasks[t].pc) then Some(Dropped(s, t)) else None
  }

  /** The state a sequence of steps leads to; None if one of them is not enabled. */
  ghost function Exec(c: Config, steps: seq<Step>): Option<State> {
    if steps == [] then Some(Init(c))
    else match Exec(c, steps[..|steps| - 1])
      case None => None
      case Some(s) => Apply(c, s, steps[|steps| - 1])
  }
}
