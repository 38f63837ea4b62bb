/** Local backends over the scheduler: unloading, and the reserve, evict, retry
    loop a leader runs while it holds the load coordinator
    (src/engine/llama/mod.rs, src/engine/registry.rs). */
module LocalBackends {
  import opened Wrappers
  import opened MapSums
  import opened Placements
  import opened Reservations
  import opened Scheduling
  import opened EngineErrors

  datatype LoadTag = Unloaded | Loading | Loaded

  class LlamaBackend {
    const id: string
    const gpus: seq<GpuId>
    const pin: bool
    const estimatedMb: u64
    const lastUsedMs: Counter
    const inFlight: Counter
    var loadState: LoadTag
    var placement: ResolvedPlacement

    constructor (id: string, gpus: seq<GpuId>, pin: bool, estimatedMb: u64)
      ensures this.id == id && this.gpus == gpus && this.pin == pin && this.estimatedMb == estimatedMb
      ensures fresh(lastUsedMs) && fresh(inFlight) && inFlight != lastUsedMs && inFlight.value == 0
      ensures loadState == Unloaded && placement == FromGpus(gpus)
      ensures PlacementOk()
    {
      this.id, this.gpus, this.pin, this.estimatedMb := id, gpus, pin, estimatedMb;
      loadState := Unloaded;
      placement := FromGpus(gpus);
      var used := new Counter(0);
      var flying := new Counter(0);
      lastUsedMs, inFlight := used, flying;
    }

    /** An explicit placement never changes; an automatic one is at most one device. */
    ghost predicate PlacementOk()
      reads this
    {
      && (gpus != [] ==> placement == FromGpus(gpus))
      && (gpus == [] && placement.Resolved? ==> placement.placement.SingleDevice?)
    }

    /** Devices of the committed placement; none while it is automatic. */
    function PlacedOn(): seq<GpuId>
      reads this
      requires PlacementOk()
    {
      match placement
      case Auto => []
      case Resolved(p) => p.Gpus()
    }

    /** The placement the configuration spells out. */
    function Explicit(): (p: Placement)
      requires gpus != []
      ensures p.WellFormed() && p.Gpus() == gpus
    {
      FromGpus(gpus).placement
    }

    function Ctx(): Context {
      Context(id, pin, lastUsedMs, inFlight)
    }
  }

  // ---------- tables after evictions ----------

  function Without(tables: seq<Table>, removed: set<string>): (after: seq<Table>)
    ensures |after| == |tables|
    ensures forall g :: 0 <= g < |tables| ==> after[g] == tables[g] - removed
  {
    seq(|tables|, g requires 0 <= g < |tables| => tables[g] - removed)
  }

  lemma WithoutAbsent(tables: seq<Table>, removed: set<string>)
    requires forall g :: 0 <= g < |tables| ==> removed !! tables[g].Keys
    ensures Without(tables, removed) == tables
  {
    forall g | 0 <= g < |tables|
      ensures tables[g] - removed == tables[g]
    {
    }
  }

  ghost function EntryCount(tables: seq<Table>): nat {
    if tables == [] then 0 else EntryCount(tables[..|tables| - 1]) + |tables[|tables| - 1]|
  }

  lemma {:induction false} EvictionShrinks(tables: seq<Table>, removed: set<string>, g: nat, id: string)
    requires g < |tables| ==> id in removed && id in tables[g]
    ensures EntryCount(Without(tables, removed)) <= EntryCount(tables)
    ensures g < |tables| ==> EntryCount(Without(tables, removed)) < EntryCount(tables)
    decreases |tables|
  {
    if tables != [] {
      var n := |tables| - 1;
      EvictionShrinks(tables[..n], removed, g, id);
      assert Without(tables, removed)[..n] == Without(tables[..n], removed);
      FewerKeys(tables[n], removed);
      if g == n {
        FewerKeys(tables[n], {id});
        FewerKeys(tables[n] - {id}, removed);
        assert tables[n] - {id} - removed == tables[n] - removed;
      }
    }
  }

  lemma FewerKeys(t: Table, removed: set<string>)
    ensures |t - removed| <= |t|
    ensures removed <= t.Keys ==> |t - removed| + |removed| == |t|
  {
    var kept := t - removed;
    assert kept.Keys == t.Keys - removed;
    assert |kept| == |kept.Keys| && |t| == |t.Keys|;
    if removed <= t.Keys {
      assert t.Keys == kept.Keys + removed;
    } else {
      assert t.Keys == kept.Keys + (t.Keys * removed);
    }
  }

  ghost function IdSet(ids: seq<string>): set<string> {
    set i | 0 <= i < |ids| :: ids[i]
  }

  lemma {:induction false} ChosenCostLeaves(t: Table, eligible: map<string, Candidate>, chosen: seq<string>)
    requires Distinct(chosen)
    requires forall i :: 0 <= i < |chosen| ==> chosen[i] in eligible
    requires forall id :: id in eligible ==> id in t && t[id].costMb == eligible[id].costMb
    ensures Reserved(t - IdSet(chosen)) + ChosenCost(chosen, eligible) == Reserved(t)
    decreases |chosen|
  {
    if chosen == [] {
      assert t - IdSet(chosen) == t;
    } else {
      var n := |chosen| - 1;
      var front := chosen[..n];
      ChosenCostLeaves(t, eligible, front);
      assert IdSet(chosen) == IdSet(front) + {chosen[n]};
      assert t - IdSet(chosen) == (t - IdSet(front)) - {chosen[n]};
      RemoveOne(t - IdSet(front), chosen[n]);
    }
  }

  lemma RemoveOne(t: Table, id: string)
    requires id in t
    ensures Reserved(t - {id}) + t[id].costMb == Reserved(t)
  {
    SumRemove(Costs(t), id);
    assert Costs(t - {id}) == Costs(t) - {id};
  }

  lemma EvictionKeepsRoom(t: Table, budgetMb: u64, costMb: u64, removed: set<string>)
    requires Fits(t, budgetMb, costMb)
    ensures Fits(t - removed, budgetMb, costMb)
  {
    SumMonotone(Costs(t - removed), Costs(t));
  }

  /** Evicting everybody the picker chose for a need of `costMb` leaves room for `costMb`. */
  lemma EvictionMakesRoom(t: Table, budgetMb: u64, costMb: u64, eligible: map<string, Candidate>, chosen: seq<string>)
    requires WithinBudget(t, budgetMb) && budgetMb != 0
    requires LeastRecentlyUsedChoice(chosen, eligible, costMb)
    requires forall id :: id in eligible ==> id in t && t[id].costMb == eligible[id].costMb
    ensures Fits(t - IdSet(chosen), budgetMb, costMb)
  {
    ChosenCostLeaves(t, eligible, chosen);
    SaturatingCheckIsExact(Reserved(t - IdSet(chosen)), costMb, budgetMb);
  }

  // ---------- why a load gives up ----------

  datatype Obstacle = NoDevices | UnknownDevice | NoCandidates | NoEvictor | AllBusy
  {
    function Error(): EngineError {
      match this
      case NoDevices => ModelUnavailable("auto-placement: no devices configured")
      case UnknownDevice => InferenceFailed("placement targets unknown gpu")
      case NoCandidates => ModelUnavailable("no eviction candidates available")
      case NoEvictor => ModelUnavailable("no evictor bound; cannot free VRAM")
      case AllBusy => ModelUnavailable("all eviction candidates busy; retry shortly")
    }
  }

  /** The scheduler and who may be evicted from each device. */
  datatype Scene = Scene(tables: seq<Table>, budgets: seq<u64>, eligible: seq<map<string, Candidate>>,
                         evictorBound: bool)

  /** Why no room could be made on a device, which is full: its eligible models are not
      enough, nobody can be asked to unload, or everybody picked was busy. */
  ghost predicate NoRoom(s: Scene, gpu: GpuId, neededMb: u64, why: Obstacle) {
    && gpu < |s.tables| && gpu < |s.budgets| && gpu < |s.eligible| && s.budgets[gpu] != 0
    && !Fits(s.tables[gpu], s.budgets[gpu], neededMb)
    && (|| (why == NoCandidates && TooFew(s.eligible[gpu], neededMb))
        || (why == NoEvictor && !s.evictorBound && !TooFew(s.eligible[gpu], neededMb))
        || why == AllBusy)
  }

  /** Why shares could not be reserved: of their devices, the first without room does not
      exist, or no room could be made on it. */
  ghost predicate Unplaceable(s: Scene, shares: seq<Share>, ctx: Context, why: Obstacle) {
    && |s.tables| == |s.budgets|
    && var k := Refusal(s.tables, s.budgets, shares, ctx);
       && k < |shares|
       && if shares[k].gpu >= |s.tables| then why == UnknownDevice
          else NoRoom(s, shares[k].gpu, shares[k].costMb, why)
  }

  /** The shares a load asks for: those of the committed placement, or for an automatic
      model everything on the most free device. */
  function Wanted(placement: ResolvedPlacement, frees: seq<nat>, totalMb: u64): seq<Share>
    requires placement.Resolved? ==> placement.placement.WellFormed()
  {
    match placement
    case Resolved(p) => p.PerDeviceCost(totalMb)
    case Auto => [Share(LargestAt(frees), totalMb)]
  }

  lemma WantedShares(frees: seq<nat>, placement: ResolvedPlacement, p: Placement, totalMb: u64)
    requires p.WellFormed()
    requires placement == Resolved(p) || (placement.Auto? && p.SingleDevice? && LastLargest(frees, p.gpu))
    ensures placement.Resolved? ==> placement.placement.WellFormed()
    ensures Wanted(placement, frees, totalMb) == p.PerDeviceCost(totalMb)
  {
    if placement.Auto? {
      LastLargestUnique(frees, p.gpu);
    }
  }

  /** Why the reserve loop gave up. */
  ghost predicate Explained(s: Scene, placement: ResolvedPlacement, totalMb: u64, ctx: Context, why: Obstacle)
  {
    match placement
    case Resolved(p) => p.WellFormed() && Unplaceable(s, p.PerDeviceCost(totalMb), ctx, why)
    case Auto =>
      if s.tables == [] then why == NoDevices
      else |s.tables| == |s.budgets|
           && Unplaceable(s, Wanted(Auto, FreesIn(s.tables, s.budgets), totalMb), ctx, why)
  }

  /** There is room as things stand for everything the load asks for. */
  ghost predicate RoomNow(tables: seq<Table>, budgets: seq<u64>, placement: ResolvedPlacement, totalMb: u64)
    requires |tables| == |budgets|
  {
    && (placement.Resolved? ==> placement.placement.WellFormed())
    && RoomForAll(tables, budgets, Wanted(placement, FreesIn(tables, budgets), totalMb))
  }

  /** An automatic model needs room on some device that keeps accounts, not on the one
      the scheduler happens to pick. */
  lemma RoomSomewhere(tables: seq<Table>, budgets: seq<u64>, h: GpuId, totalMb: u64)
    requires |tables| == |budgets| && h < |tables| && budgets[h] < U64_MAX
    requires 0 < totalMb && Fits(tables[h], budgets[h], totalMb)
    ensures RoomNow(tables, budgets, Auto, totalMb)
  {
    var g := LargestAt(FreesIn(tables, budgets));
    RoomierInTables(tables, budgets, g, h, totalMb);
    assert HasRoom(tables, budgets, Share(g, totalMb));
  }

  // ---------- the registry ----------

  class Registry {
    const scheduler: Scheduler
    const backends: map<string, LlamaBackend>
    /** Set once the registry is complete; during startup nothing can be evicted. */
    const evictorBound: bool
    /** Whether other tasks use the backends while one of them is being loaded. */
    const shared: bool

    ghost function Members(): set<LlamaBackend> {
      set id | id in backends :: backends[id]
    }

    ghost function Counters(): set<Counter> {
      (set id | id in backends :: backends[id].inFlight) + (set id | id in backends :: backends[id].lastUsedMs)
    }

    ghost predicate Valid()
      reads this, scheduler, scheduler.sets, Members()
    {
      && scheduler.Valid()
      && (forall id :: id in backends ==> backends[id].id == id && backends[id].PlacementOk())
      && (forall id :: id in backends ==> backends[id].inFlight != backends[id].lastUsedMs)
    }

    /** An entry on device g is that of a loaded backend, shares its counters and
        its pin, and lies on its committed placement. */
    ghost predicate Backed(g: GpuId, id: string, e: Entry)
      reads this, Members()
    {
      && id in backends
      && backends[id].loadState == Loaded
      && e.inFlight == backends[id].inFlight && e.lastUsedMs == backends[id].lastUsedMs
      && e.pinned == backends[id].pin
      && backends[id].PlacementOk()
      && g in backends[id].PlacedOn()
    }

    /** Every entry is backed, those of the skipped models aside. */
    ghost predicate CoherentBut(skipped: set<string>)
      reads this, scheduler, scheduler.sets, Members()
    {
      forall g, id {:trigger id in scheduler.sets[g].loaded} ::
        0 <= g < |scheduler.sets| && id in scheduler.sets[g].loaded && id !in skipped ==>
        Backed(g, id, scheduler.sets[g].loaded[id])
    }

    ghost function Eligible(): (es: seq<map<string, Candidate>>)
      reads *
      ensures |es| == |scheduler.sets|
      ensures forall g :: 0 <= g < |es| ==> es[g] == scheduler.sets[g].Eligible()
    {
      seq(|scheduler.sets|, g requires 0 <= g < |scheduler.sets| reads * => scheduler.sets[g].Eligible())
    }

    ghost function Seen(): Scene
      reads *
    {
      Scene(scheduler.Tables(), scheduler.Budgets(), Eligible(), evictorBound)
    }

    /** What can make a load give up as things stand. */
    ghost function Obstacles(self: LlamaBackend): iset<Obstacle>
      reads *
    {
      iset why | Explained(Seen(), self.placement, self.estimatedMb, self.Ctx(), why)
    }

    /** The scheduler grants what a load asks for on these tables. */
    ghost predicate Grants(self: LlamaBackend, tables: seq<Table>)
      reads this, self, scheduler
    {
      && |tables| == |scheduler.sets| && (self.placement.Resolved? ==> self.placement.placement.WellFormed())
      && var shares := Wanted(self.placement, FreesIn(tables, scheduler.Budgets()), self.estimatedMb);
         SplitResult(tables, scheduler.Budgets(), shares, self.Ctx()) == Ok(())
    }

    lemma GrantsWhereRoom(self: LlamaBackend)
      requires Valid() && CoherentBut({}) && Member(self) && self.loadState != Loaded && Distinct(self.gpus)
      ensures Grants(self, scheduler.Tables())
         <==> RoomNow(scheduler.Tables(), scheduler.Budgets(), self.placement, self.estimatedMb)
    {
      NotLoadedNotResident(self.id);
      var shares := Wanted(self.placement, FreesIn(scheduler.Tables(), scheduler.Budgets()), self.estimatedMb);
      if self.placement.Resolved? {
        DistinctPlacement(self, self.placement.placement);
        assert Devices(shares) == self.placement.placement.Gpus();
      }
      SplitSucceedsIffRoom(scheduler.Tables(), scheduler.Budgets(), shares, self.Ctx());
    }

    ghost predicate NowhereResident(id: string)
      reads this, scheduler, scheduler.sets
    {
      forall g :: 0 <= g < |scheduler.sets| ==> id !in scheduler.sets[g].loaded
    }

    lemma NotLoadedNotResident(id: string)
      requires CoherentBut({}) && id in backends && backends[id].loadState != Loaded
      ensures NowhereResident(id)
    {
    }

    ghost predicate Member(b: LlamaBackend) {
      b.id in backends && backends[b.id] == b
    }

    twostate predicate Same(id: string)
      reads Members()
    {
      id in backends && backends[id].loadState == old(backends[id].loadState)
                     && backends[id].placement == old(backends[id].placement)
    }

    constructor (scheduler: Scheduler, backends: map<string, LlamaBackend>, evictorBound: bool, shared: bool)
      requires scheduler.Valid() && forall g :: 0 <= g < |scheduler.sets| ==> scheduler.sets[g].loaded == map[]
      requires forall id :: id in backends ==> backends[id].id == id && backends[id].PlacementOk()
      requires forall id :: id in backends ==> backends[id].inFlight != backends[id].lastUsedMs
      ensures Valid() && CoherentBut({})
      ensures this.scheduler == scheduler && this.backends == backends
      ensures this.evictorBound == evictorBound && this.shared == shared
    {
      this.scheduler, this.backends, this.evictorBound, this.shared := scheduler, backends, evictorBound, shared;
    }

    /** The backend's own unload, run to its end by a caller that holds the
        coordinator: refuse while busy, otherwise stop the worker and release the
        devices of the committed placement. A model that is already unloaded is
        answered with success and nothing is released, whatever entries it has. Where
        every entry is backed (`coherent`), no entry of the model stays behind. */
    method Unload(id: string, ghost coherent: bool) returns (r: Result<(), EngineError>)
      requires Valid() && (coherent ==> CoherentBut({}))
      modifies scheduler.sets, Members()
      ensures Valid()
      ensures r == Err(ModelNotFound(id)) <==> id !in backends
      ensures r == Err(BackendBusy) <==>
                id in backends && (backends[id].inFlight.value > 0 || old(backends[id].loadState) == Loading)
      ensures r.Err? ==> r.error == ModelNotFound(id) || r.error == BackendBusy
      ensures r.Err? ==> scheduler.Tables() == old(scheduler.Tables())
      ensures r.Err? ==> forall k :: k in backends ==> Same(k)
      ensures r.Ok? ==> backends[id].loadState == Unloaded
      ensures r.Ok? && old(backends[id].loadState) != Loaded ==>
              scheduler.Tables() == old(scheduler.Tables()) && Same(id)
      ensures r.Ok? && old(backends[id].loadState) == Loaded ==>
                && scheduler.Tables()
                   == Withdraw(old(scheduler.Tables()), scheduler.Budgets(), old(backends[id].PlacedOn()), id)
                && backends[id].placement == FromGpus(backends[id].gpus)
      ensures coherent ==> CoherentBut({})
      ensures coherent && r.Ok? ==> scheduler.Tables() == Without(old(scheduler.Tables()), {id})
      ensures forall k :: k in backends && k != id ==> Same(k)
    {
      if id !in backends {
        return Err(ModelNotFound(id));
      }
      var b := backends[id];
      if b.inFlight.value > 0 {
        return Err(BackendBusy);
      }
      match b.loadState {
        case Unloaded =>
          if coherent {
            NotLoadedNotResident(id);
            WithoutAbsent(scheduler.Tables(), {id});
          }
          return Ok(());
        case Loading =>
          return Err(BackendBusy);
        case Loaded =>
      }
      FinishUnload(b, coherent);
      return Ok(());
    }

    /** Past the point of no return: the worker is stopped, then the entries go,
        then an automatic model becomes automatic again. */
    method FinishUnload(b: LlamaBackend, ghost coherent: bool)
      requires Valid() && Member(b) && b.loadState == Loaded && (coherent ==> CoherentBut({}))
      modifies scheduler.sets, b
      ensures Valid()
      ensures scheduler.Tables() == Withdraw(old(scheduler.Tables()), scheduler.Budgets(), old(b.PlacedOn()), b.id)
      ensures coherent ==> CoherentBut({}) && scheduler.Tables() == Without(old(scheduler.Tables()), {b.id})
      ensures b.loadState == Unloaded && b.placement == FromGpus(b.gpus)
    {
      var gpuIds := b.PlacedOn();
      if coherent {
        ReleaseIsComplete(b);
      }
      SetUnloaded(b, coherent);
      ReleaseEntries(b, gpuIds, coherent);
      ResetPlacement(b, coherent);
    }

    /** The load state of a model concerns no other model's entries. */
    method SetUnloaded(b: LlamaBackend, ghost coherent: bool)
      requires Valid() && Member(b) && (coherent ==> CoherentBut({b.id}))
      modifies b`loadState
      ensures Valid() && b.loadState == Unloaded && (coherent ==> CoherentBut({b.id}))
    {
      b.loadState := Unloaded;
    }

    /** Release what covers all the model's entries: only entries of others are left. */
    method ReleaseEntries(b: LlamaBackend, gpus: seq<GpuId>, ghost coherent: bool)
      requires Valid() && Member(b)
      requires coherent ==>
                 && CoherentBut({b.id})
                 && Withdraw(scheduler.Tables(), scheduler.Budgets(), gpus, b.id) == Without(scheduler.Tables(), {b.id})
      modifies scheduler.sets
      ensures Valid()
      ensures scheduler.Tables() == Withdraw(old(scheduler.Tables()), scheduler.Budgets(), gpus, b.id)
      ensures coherent ==>
                && CoherentBut({}) && NowhereResident(b.id)
                && scheduler.Tables() == Without(old(scheduler.Tables()), {b.id})
    {
      ghost var before := scheduler.Tables();
      scheduler.Release(b.id, gpus);
      ghost var after := scheduler.Tables();
      if coherent {
        forall g, id | 0 <= g < |scheduler.sets| && id in scheduler.sets[g].loaded
          ensures id != b.id && Backed(g, id, scheduler.sets[g].loaded[id])
        {
          assert scheduler.sets[g].loaded == after[g] == before[g] - {b.id};
          assert id in old(scheduler.sets[g].loaded);
        }
      }
    }

    /** An automatic model returns to automatic. */
    method ResetPlacement(b: LlamaBackend, ghost coherent: bool)
      requires Valid() && Member(b) && (coherent ==> CoherentBut({}) && NowhereResident(b.id))
      modifies b`placement
      ensures Valid() && b.placement == FromGpus(b.gpus)
      ensures coherent ==> CoherentBut({})
    {
      if b.gpus == [] {
        b.placement := Auto;
      }
    }

    /** The committed placement covers every entry of the model. */
    lemma ReleaseIsComplete(b: LlamaBackend)
      requires Valid() && CoherentBut({}) && Member(b)
      ensures Withdraw(scheduler.Tables(), scheduler.Budgets(), b.PlacedOn(), b.id)
           == Without(scheduler.Tables(), {b.id})
    {
      var before := scheduler.Tables();
      forall g | 0 <= g < |before|
        ensures Withdraw(before, scheduler.Budgets(), b.PlacedOn(), b.id)[g] == before[g] - {b.id}
      {
        WithdrawAt(before, scheduler.Budgets(), b.PlacedOn(), b.id, g);
        assert WithinBudget(before[g], scheduler.Budgets()[g]) by {
          assert scheduler.sets[g].Valid();
        }
        if b.id in before[g] {
          assert b.id in scheduler.sets[g].loaded;
        }
      }
    }

    /** Nobody is using the model or loading it. */
    ghost predicate Idle(id: string)
      reads *
    {
      id in backends && backends[id].inFlight.value == 0 && backends[id].loadState != Loading
    }

    twostate predicate IdleStays(but: set<string>)
      reads *
    {
      forall k :: k !in but && old(Idle(k)) ==> Idle(k)
    }

    /** Other tasks while the coordinator is held: requests enter loaded backends
        and leave, and unloaded backends are claimed by leaders that then wait. */
    method OtherTasks(self: LlamaBackend)
      requires Valid() && CoherentBut({}) && self.loadState == Loading
      modifies Members(), Counters()
      ensures Valid() && CoherentBut({})
      ensures self.loadState == Loading && self.placement == old(self.placement)
      ensures forall k :: k in backends ==> backends[k].placement == old(backends[k].placement)
      ensures !shared ==> IdleStays({})
    {
      if !shared {
        return;
      }
      var events: nat := *;
      while events > 0
        invariant Valid() && CoherentBut({})
        invariant self.loadState == Loading && self.placement == old(self.placement)
        invariant forall k :: k in backends ==> backends[k].placement == old(backends[k].placement)
      {
        OneEvent(self);
        events := events - 1;
      }
    }

    method OneEvent(self: LlamaBackend)
      requires Valid() && CoherentBut({}) && self.loadState == Loading
      modifies Members(), Counters()
      ensures Valid() && CoherentBut({})
      ensures self.loadState == Loading && self.placement == old(self.placement)
      ensures forall k :: k in backends ==> backends[k].placement == old(backends[k].placement)
    {
      if backends.Keys == {} {
        return;
      }
      var id :| id in backends.Keys;
      var b := backends[id];
      var enters: bool, now: nat := *, *;
      if enters {
        Enter(b, now);
      } else if b.inFlight.value > 0 {
        b.inFlight.value := b.inFlight.value - 1;
      }
    }

    /** A request arrives: it takes a guard of a loaded backend, claims an unloaded one,
        or waits for the leader of a loading one. */
    method Enter(b: LlamaBackend, now: nat)
      requires Valid() && CoherentBut({}) && Member(b)
      modifies b`loadState, b.inFlight, b.lastUsedMs
      ensures Valid() && CoherentBut({})
      ensures b.loadState == if old(b.loadState) == Unloaded then Loading else old(b.loadState)
      ensures b.inFlight.value == old(b.inFlight.value) + if old(b.loadState) == Loading then 0 else 1
      ensures b.lastUsedMs.value == if old(b.loadState) == Loaded then now else old(b.lastUsedMs.value)
    {
      match b.loadState {
        case Loaded =>
          b.inFlight.value := b.inFlight.value + 1;
          b.lastUsedMs.value := now;
        case Unloaded =>
          Claim(b);
          b.inFlight.value := b.inFlight.value + 1;
        case Loading =>
      }
    }

    method Claim(b: LlamaBackend)
      requires Valid() && CoherentBut({}) && Member(b) && b.loadState == Unloaded
      modifies b`loadState
      ensures Valid() && CoherentBut({}) && b.loadState == Loading
    {
      NotLoadedNotResident(b.id);
      b.loadState := Loading;
    }

    method ResolvePlacement(self: LlamaBackend) returns (r: Result<Placement, EngineError>)
      requires Valid() && self.PlacementOk()
      ensures self.placement.Resolved? ==> r == Ok(self.placement.placement)
      ensures self.placement.Auto? ==> (r.Err? <==> scheduler.sets == [])
      ensures r.Ok? ==> r.value.WellFormed()
      ensures self.placement.Auto? && r.Ok? ==> r.value.SingleDevice? && scheduler.MostFree(r.value.gpu)
      ensures r.Err? ==> r.error == NoDevices.Error()
    {
      match self.placement {
        case Resolved(p) => return Ok(p);
        case Auto =>
          var device := scheduler.PickMostFreeDevice();
          if device.None? {
            return Err(NoDevices.Error());
          }
          return Ok(SingleDevice(device.value));
      }
    }

    /** Other tasks run, then one victim is asked to unload. */
    method EvictOne(self: LlamaBackend, victim: string, ghost before: seq<Table>) returns (r: Result<(), EngineError>)
      requires Valid() && CoherentBut({}) && Member(self) && self.loadState == Loading && before == scheduler.Tables()
      modifies scheduler.sets, Members(), Counters()
      ensures Valid() && CoherentBut({})
      ensures self.loadState == Loading && self.placement == old(self.placement)
      ensures scheduler.Tables() == if r.Ok? then Without(before, {victim}) else before
      ensures r.Err? && victim in backends ==> r.error == BackendBusy
      ensures r == Err(BackendBusy) ==>
                victim in backends && (backends[victim].inFlight.value > 0 || backends[victim].loadState == Loading)
      ensures !shared && old(Idle(victim)) ==> r.Ok?
      ensures !shared ==> IdleStays({victim})
    {
      OtherTasks(self);
      r := Ask(self, victim, before);
    }

    method Ask(self: LlamaBackend, victim: string, ghost before: seq<Table>) returns (r: Result<(), EngineError>)
      requires Valid() && CoherentBut({}) && Member(self) && self.loadState == Loading && before == scheduler.Tables()
      modifies scheduler.sets, Members()
      ensures Valid() && CoherentBut({})
      ensures self.loadState == Loading && self.placement == old(self.placement)
      ensures scheduler.Tables() == if r.Ok? then Without(before, {victim}) else before
      ensures r.Err? && victim in backends ==> r.error == BackendBusy
      ensures r == Err(BackendBusy) ==>
                victim in backends && (backends[victim].inFlight.value > 0 || backends[victim].loadState == Loading)
      ensures old(Idle(victim)) ==> r.Ok?
      ensures IdleStays({victim})
    {
      label asked:
      r := Unload(victim, true);
      assert Same@asked(self.id);
      assert forall k :: k in backends && k != victim ==> Same@asked(k);
    }

    /** Ask one victim; whether it went away, unless the answer is neither yes nor busy. */
    method EvictNext(self: LlamaBackend, victims: seq<string>, i: nat, ghost before: seq<Table>,
                     ghost gone: set<string>, ghost refused: set<string>)
      returns (r: Result<bool, EngineError>, ghost removed: set<string>, ghost busy: set<string>)
      requires Valid() && CoherentBut({}) && Member(self) && self.loadState == Loading
      requires i < |victims| && Distinct(victims) && scheduler.Tables() == Without(before, gone)
      requires IdSet(victims[..i]) == gone + refused && gone !! refused
      modifies scheduler.sets, Members(), Counters()
      ensures Valid() && CoherentBut({})
      ensures self.loadState == Loading && self.placement == old(self.placement)
      ensures scheduler.Tables() == Without(before, removed)
      ensures r.Err? ==> removed == gone && victims[i] !in backends
      ensures r.Ok? ==> removed == (if r.value then gone + {victims[i]} else gone)
      ensures r.Ok? ==> IdSet(victims[..i + 1]) == removed + busy && removed !! busy
      ensures !shared && old(AllIdle(victims[i..])) ==> busy == refused && AllIdle(victims[i + 1..])
    {
      AnswerSorted(victims, i, gone, refused);
      WithoutTwice(before, gone, {victims[i]});
      assert victims[i..][0] == victims[i];
      var reply := EvictOne(self, victims[i], scheduler.Tables());
      match reply {
        case Ok(_) =>
          r, removed, busy := Ok(true), gone + {victims[i]}, refused;
        case Err(e) =>
          r, removed := if e == BackendBusy then Ok(false) else Err(e), gone;
          busy := refused + {victims[i]};
      }
    }

    ghost predicate AllIdle(ids: seq<string>)
      reads *
    {
      forall i :: 0 <= i < |ids| ==> Idle(ids[i])
    }

    /** Unload the victims one by one; busy ones are skipped, any other failure ends it.
        Every victim is either removed or among those that answered that they are busy,
        and of idle victims none does unless other tasks get in between. */
    method EvictAll(self: LlamaBackend, victims: seq<string>)
      returns (r: Result<bool, EngineError>, ghost removed: set<string>, ghost busy: set<string>)
      requires Valid() && CoherentBut({}) && Member(self) && self.loadState == Loading && Distinct(victims)
      modifies scheduler.sets, Members(), Counters()
      ensures Valid() && CoherentBut({})
      ensures self.loadState == Loading && self.placement == old(self.placement)
      ensures removed <= IdSet(victims)
      ensures scheduler.Tables() == Without(old(scheduler.Tables()), removed)
      ensures (forall i :: 0 <= i < |victims| ==> victims[i] in backends) ==> r.Ok?
      ensures r.Ok? ==> (r.value <==> removed != {})
      ensures r.Ok? ==> IdSet(victims) == removed + busy && removed !! busy
      ensures !shared && old(AllIdle(victims)) ==> busy == {}
    {
      ghost var before, undisturbed := scheduler.Tables(), !shared && AllIdle(victims);
      removed, busy := {}, {};
      WithoutAbsent(before, {});
      var anyEvicted := false;
      for i := 0 to |victims|
        invariant Valid() && CoherentBut({})
        invariant self.loadState == Loading && self.placement == old(self.placement)
        invariant scheduler.Tables() == Without(before, removed)
        invariant anyEvicted <==> removed != {}
        invariant IdSet(victims[..i]) == removed + busy && removed !! busy
        invariant undisturbed ==> busy == {} && AllIdle(victims[i..])
      {
        var reply;
        reply, removed, busy := EvictNext(self, victims, i, before, removed, busy);
        if reply.Err? {
          return Err(reply.error), removed, busy;
        }
        anyEvicted := anyEvicted || reply.value;
      }
      assert victims[..|victims|] == victims;
      r := Ok(anyEvicted);
    }

    /** The tables are those of `before` less the removed, unpinned models. */
    ghost predicate EvictedFrom(before: seq<Table>, removed: set<string>)
      reads this, scheduler, scheduler.sets
    {
      scheduler.Tables() == Without(before, removed) && OnlyUnpinned(before, removed)
    }

    lemma UnpinnedTwice(before: seq<Table>, removed: set<string>, now: set<string>)
      requires OnlyUnpinned(before, removed) && OnlyUnpinned(Without(before, removed), now)
      ensures OnlyUnpinned(before, removed + now)
      ensures Without(Without(before, removed), now) == Without(before, removed + now)
    {
      WithoutTwice(before, removed, now);
      forall g, id | 0 <= g < |before| && id in removed + now && id in before[g]
        ensures !before[g][id].pinned
      {
        if id !in removed {
          assert id in Without(before, removed)[g];
        }
      }
    }

    /** Each of them has an entry somewhere. */
    ghost predicate Resident(tables: seq<Table>, ids: set<string>) {
      forall id :: id in ids ==> exists g :: 0 <= g < |tables| && id in tables[g]
    }

    lemma ResidentOn(tables: seq<Table>, g: nat, ids: set<string>)
      requires g < |tables| && ids <= tables[g].Keys
      ensures Resident(tables, ids)
    {
    }

    lemma ResidentBefore(tables: seq<Table>, removed: set<string>, ids: set<string>, more: set<string>)
      requires Resident(Without(tables, removed), ids)
      ensures Resident(tables, more) ==> Resident(tables, more + ids)
    {
      forall id | id in ids
        ensures exists g :: 0 <= g < |tables| && id in tables[g]
      {
        var g :| 0 <= g < |tables| && id in Without(tables, removed)[g];
        assert id in tables[g];
      }
    }

    /** Nobody among the removed was pinned on any device it was removed from. */
    ghost predicate OnlyUnpinned(tables: seq<Table>, removed: set<string>) {
      forall g, id :: 0 <= g < |tables| && id in removed && id in tables[g] ==> !tables[g][id].pinned
    }

    /** Pick victims on one full device and evict them. */
    method MakeRoom(self: LlamaBackend, gpu: GpuId, neededMb: u64, ghost before: seq<Table>)
      returns (t: TryOutcome, ghost removed: set<string>, ghost busy: set<string>)
      requires Valid() && CoherentBut({}) && Member(self) && self.loadState == Loading
      requires before == scheduler.Tables()
      requires gpu < |scheduler.sets| && scheduler.sets[gpu].budgetMb != 0
      requires !Fits(before[gpu], scheduler.Budgets()[gpu], neededMb)
      modifies scheduler.sets, Members(), Counters()
      ensures Valid() && CoherentBut({})
      ensures self.loadState == Loading && self.placement == old(self.placement)
      ensures t.Failed? || t.Retry?
      ensures scheduler.Tables() == Without(before, removed)
      ensures OnlyUnpinned(before, removed)
      ensures t.Failed? ==> removed == {} && NoRoom(Seen(), gpu, neededMb, t.why) && (t.why == AllBusy ==> busy != {})
      ensures !shared ==> busy == {}
      ensures busy <= before[gpu].Keys && removed !! busy
      ensures t.Retry? ==> EntryCount(scheduler.Tables()) < EntryCount(before)
      ensures t.Retry? && busy == {} ==> Fits(scheduler.Tables()[gpu], scheduler.Budgets()[gpu], neededMb)
    {
      WithoutAbsent(before, {});
      var victims := VictimsToAsk(gpu, neededMb);
      match victims {
        case Err(e) =>
          t, removed, busy := Failed(e), {}, {};
        case Ok(ids) =>
          t, removed, busy := EvictPicked(self, gpu, neededMb, ids, before);
      }
    }

    /** The victims, if there are enough and somebody who can be asked to unload them. */
    method VictimsToAsk(gpu: GpuId, neededMb: u64) returns (r: Result<seq<string>, Obstacle>)
      requires Valid() && CoherentBut({})
      requires gpu < |scheduler.sets| && scheduler.sets[gpu].budgetMb != 0
      requires !Fits(scheduler.Tables()[gpu], scheduler.Budgets()[gpu], neededMb)
      ensures r.Err? ==> r.error != AllBusy && NoRoom(Seen(), gpu, neededMb, r.error)
      ensures r.Ok? ==> r.value in VictimLists(gpu, neededMb)
    {
      var victims := PickVictims(gpu, neededMb);
      if victims.None? {
        return Err(NoCandidates);
      }
      if !evictorBound {
        return Err(NoEvictor);
      }
      return Ok(victims.value);
    }

    /** Lists of distinct, idle, unpinned models on the device whose eviction makes room. */
    ghost function VictimLists(gpu: GpuId, neededMb: u64): iset<seq<string>>
      reads *
      requires gpu < |scheduler.sets|
    {
      iset victims: seq<string> |
        && victims != [] && Distinct(victims) && AllIdle(victims)
        && IdSet(victims) <= scheduler.Tables()[gpu].Keys
        && OnlyUnpinned(scheduler.Tables(), IdSet(victims))
        && Fits(scheduler.Tables()[gpu] - IdSet(victims), scheduler.Budgets()[gpu], neededMb)
    }

    /** Evict what was picked; the try is worth repeating if any of it went away. */
    method EvictPicked(self: LlamaBackend, ghost gpu: GpuId, ghost neededMb: u64, victims: seq<string>,
                       ghost before: seq<Table>)
      returns (t: TryOutcome, ghost removed: set<string>, ghost busy: set<string>)
      requires Valid() && CoherentBut({}) && Member(self) && self.loadState == Loading
      requires before == scheduler.Tables() && gpu < |before|
      requires victims in VictimLists(gpu, neededMb)
      modifies scheduler.sets, Members(), Counters()
      ensures Valid() && CoherentBut({})
      ensures self.loadState == Loading && self.placement == old(self.placement)
      ensures t.Failed? || t.Retry?
      ensures scheduler.Tables() == Without(before, removed)
      ensures OnlyUnpinned(before, removed)
      ensures t.Failed? ==> removed == {} && t.why == AllBusy && busy != {}
      ensures !shared ==> busy == {}
      ensures busy <= before[gpu].Keys && removed !! busy
      ensures t.Retry? ==> EntryCount(scheduler.Tables()) < EntryCount(before)
      ensures t.Retry? && busy == {} ==> Fits(scheduler.Tables()[gpu], scheduler.Budgets()[gpu], neededMb)
    {
      var reply;
      reply, removed, busy := EvictAll(self, victims);
      AfterEvictions(before, gpu, IdSet(victims), removed, busy);
      assert victims[0] in IdSet(victims);
      // an unload fails otherwise only for an unknown id, and every victim is known
      t := if reply.value then Retry else Failed(AllBusy);
    }

    lemma AfterEvictions(before: seq<Table>, gpu: GpuId, victims: set<string>, removed: set<string>, busy: set<string>)
      requires gpu < |before| && victims <= before[gpu].Keys && OnlyUnpinned(before, victims)
      requires victims == removed + busy
      ensures OnlyUnpinned(before, removed) && busy <= before[gpu].Keys
      ensures removed != {} ==> EntryCount(Without(before, removed)) < EntryCount(before)
      ensures busy == {} ==> removed == victims
    {
      StillUnpinned(before, removed, victims);
      if removed != {} {
        var one :| one in removed;
        EvictionShrinks(before, removed, gpu, one);
      }
    }

    lemma StillUnpinned(tables: seq<Table>, removed: set<string>, all: set<string>)
      requires removed <= all && OnlyUnpinned(tables, all)
      ensures OnlyUnpinned(tables, removed)
    {
    }

    /** The victims for one full device, and what evicting them all would achieve. */
    method PickVictims(gpu: GpuId, neededMb: u64) returns (victims: Option<seq<string>>)
      requires Valid() && CoherentBut({})
      requires gpu < |scheduler.sets| && scheduler.sets[gpu].budgetMb != 0
      ensures victims.None? <==> scheduler.sets[gpu].Short(neededMb)
      ensures victims.Some? ==> victims.value in VictimLists(gpu, neededMb)
    {
      victims := AskPicker(gpu, neededMb);
      if victims.Some? {
        ChosenAreVictims(gpu, neededMb, victims.value);
      }
    }

    method AskPicker(gpu: GpuId, neededMb: u64) returns (victims: Option<seq<string>>)
      requires Valid() && gpu < |scheduler.sets|
      ensures victims.None? <==> scheduler.sets[gpu].Short(neededMb)
      ensures victims.Some? ==>
                LeastRecentlyUsedChoice(victims.value, scheduler.sets[gpu].Eligible(), neededMb)
    {
      victims := scheduler.sets[gpu].PickEvictionCandidates(neededMb);
    }

    lemma ChosenAreVictims(gpu: GpuId, neededMb: u64, victims: seq<string>)
      requires Valid() && CoherentBut({})
      requires gpu < |scheduler.sets| && scheduler.sets[gpu].budgetMb != 0
      requires LeastRecentlyUsedChoice(victims, scheduler.sets[gpu].Eligible(), neededMb)
      ensures victims in VictimLists(gpu, neededMb)
    {
      var set0 := scheduler.sets[gpu];
      assert set0.Valid();
      EligibleAreUnpinned(gpu, victims);
      EvictionMakesRoom(set0.loaded, set0.budgetMb, neededMb, set0.Eligible(), victims);
    }

    lemma EligibleAreUnpinned(gpu: GpuId, victims: seq<string>)
      requires Valid() && CoherentBut({}) && gpu < |scheduler.sets|
      requires forall i :: 0 <= i < |victims| ==> victims[i] in scheduler.sets[gpu].Eligible()
      ensures AllIdle(victims)
      ensures IdSet(victims) <= scheduler.Tables()[gpu].Keys
      ensures OnlyUnpinned(scheduler.Tables(), IdSet(victims))
    {
      forall i | 0 <= i < |victims|
        ensures Idle(victims[i])
      {
        assert Backed(gpu, victims[i], scheduler.sets[gpu].loaded[victims[i]]);
      }
      forall g, id | 0 <= g < |scheduler.sets| && id in IdSet(victims) && id in scheduler.sets[g].loaded
        ensures !scheduler.sets[g].loaded[id].pinned
      {
        assert id in scheduler.sets[gpu].loaded;
        assert Backed(gpu, id, scheduler.sets[gpu].loaded[id]);
        assert Backed(g, id, scheduler.sets[g].loaded[id]);
      }
    }

    /** What one time round the loop achieves: a committed reservation on top of `base`,
        or some unpinned models are gone, and either the loop ends for a reason or the
        next time round is worth it. */
    ghost predicate Tried(self: LlamaBackend, base: seq<Table>, t: TryOutcome, removed: set<string>, busy: set<string>)
      reads *
    {
      match t
      case Holding(_) => removed == {} && Committed(self, base)
      case Failed(e) =>
        CoherentBut({}) && EvictedFrom(base, removed) && e in Obstacles(self)
      case Retry =>
        && CoherentBut({}) && EvictedFrom(base, removed)
        && EntryCount(scheduler.Tables()) < EntryCount(base)
        && (self.gpus != [] ==> MovedOn(base, self, self.Explicit(), busy))
    }

    /** One time round the loop, after other tasks have run. */
    method OneTry(self: LlamaBackend, ghost base: seq<Table>, ghost room: bool)
      returns (t: TryOutcome, ghost removed: set<string>, ghost busy: set<string>)
      requires Valid() && CoherentBut({}) && Member(self) && self.loadState == Loading && Distinct(self.gpus)
      requires base == scheduler.Tables() && (room <==> Grants(self, base))
      modifies scheduler.sets, Members(), Counters()
      ensures Valid() && self.loadState == Loading
      ensures (t.Holding? <==> room) && (!shared ==> busy == {})
      ensures Tried(self, base, t, removed, busy) && Resident(base, busy)
      ensures t == Failed(AllBusy) ==> busy != {}
      ensures !t.Holding? ==> self.placement == old(self.placement)
    {
      OtherTasks(self);
      t, removed, busy := ResolveAndPlace(self, base, room);
    }

    /** Resolve, try to reserve and commit, and on a full device make room. */
    method ResolveAndPlace(self: LlamaBackend, ghost base: seq<Table>, ghost room: bool)
      returns (t: TryOutcome, ghost removed: set<string>, ghost busy: set<string>)
      requires Valid() && CoherentBut({}) && Member(self) && self.loadState == Loading && Distinct(self.gpus)
      requires base == scheduler.Tables() && (room <==> Grants(self, base))
      modifies scheduler.sets, Members(), Counters()
      ensures Valid() && self.loadState == Loading
      ensures (t.Holding? <==> room) && (!shared ==> busy == {})
      ensures Tried(self, base, t, removed, busy) && Resident(base, busy)
      ensures t == Failed(AllBusy) ==> busy != {}
      ensures !t.Holding? ==> self.placement == old(self.placement)
    {
      var resolved := Resolve(self);
      match resolved {
        case Err(e) =>
          NothingTried(self, base, e);
          t, removed, busy := Failed(e), {}, {};
        case Ok(p) =>
          WantedShares(FreesIn(base, scheduler.Budgets()), self.placement, p, self.estimatedMb);
          t, removed, busy := PlaceAndCommit(self, p, base);
      }
    }

    /** A placement to try: the committed one, or a device with the most free budget. */
    ghost predicate Worthwhile(self: LlamaBackend, p: Placement)
      reads self, scheduler, scheduler.sets
    {
      && p.WellFormed() && Distinct(p.Gpus())
      && (self.placement == Resolved(p) || (self.placement.Auto? && p.SingleDevice? && scheduler.MostFree(p.gpu)))
      && (self.gpus != [] ==> p == self.Explicit())
    }

    /** The placement to try, or the reason why there is none. */
    method Resolve(self: LlamaBackend) returns (r: Result<Placement, Obstacle>)
      requires Valid() && self.PlacementOk() && Distinct(self.gpus)
      ensures r.Ok? ==> Worthwhile(self, r.value)
      ensures r.Err? ==> r.error == NoDevices && self.placement.Auto? && scheduler.sets == []
    {
      var reply := ResolvePlacement(self);
      if reply.Err? {
        return Err(NoDevices);
      }
      DistinctPlacement(self, reply.value);
      return Ok(reply.value);
    }

    lemma NothingTried(self: LlamaBackend, base: seq<Table>, why: Obstacle)
      requires CoherentBut({}) && base == scheduler.Tables()
      requires why == NoDevices && self.placement.Auto? && scheduler.sets == []
      ensures Tried(self, base, Failed(why), {}, {})
    {
      WithoutAbsent(base, {});
    }

    method PlaceAndCommit(self: LlamaBackend, p: Placement, ghost base: seq<Table>)
      returns (t: TryOutcome, ghost removed: set<string>, ghost busy: set<string>)
      requires Valid() && CoherentBut({}) && Member(self) && self.loadState == Loading
      requires base == scheduler.Tables()
      requires Worthwhile(self, p)
      modifies scheduler.sets, Members(), Counters()
      ensures Valid() && self.loadState == Loading
      ensures t.Holding? <==> Splits(base, self, p)
      ensures !shared ==> busy == {}
      ensures Tried(self, base, t, removed, busy) && Resident(base, busy)
      ensures t == Failed(AllBusy) ==> busy != {}
      ensures !t.Holding? ==> self.placement == old(self.placement)
    {
      t, removed, busy := TryPlaced(self, p, base);
      if t.Holding? {
        CommitPlacement(self, p, base);
      } else if t.Failed? {
        WithoutAbsent(base, {});
        WantedShares(FreesIn(base, scheduler.Budgets()), self.placement, p, self.estimatedMb);
      }
    }

    /** The reservation is in place on top of `base` and the placement is committed. */
    ghost predicate Committed(self: LlamaBackend, base: seq<Table>)
      reads this, scheduler, scheduler.sets, Members(), self
    {
      CoherentBut({self.id}) && self.placement.Resolved? && HeldBy(base, self, self.placement.placement)
    }

    /** Try one placement; on a full device make room there. */
    method TryPlaced(self: LlamaBackend, p: Placement, ghost before: seq<Table>)
      returns (t: TryOutcome, ghost removed: set<string>, ghost busy: set<string>)
      requires Valid() && CoherentBut({}) && Member(self) && self.loadState == Loading
      requires before == scheduler.Tables()
      requires p.WellFormed() && Distinct(p.Gpus())
      modifies scheduler.sets, Members(), Counters()
      ensures Valid()
      ensures self.loadState == Loading && self.placement == old(self.placement)
      ensures OnlyUnpinned(before, removed)
      ensures t.Holding? ==> removed == {} && t.placement == p && HeldBy(before, self, p) && CoherentBut({self.id})
      ensures !t.Holding? ==> CoherentBut({}) && scheduler.Tables() == Without(before, removed)
      ensures t.Failed? ==> removed == {} && Unplaceable(Seen(), p.PerDeviceCost(self.estimatedMb), self.Ctx(), t.why)
      ensures t == Failed(AllBusy) ==> busy != {}
      ensures Resident(before, busy)
      ensures t.Retry? ==> MovedOn(before, self, p, busy)
      ensures t.Holding? <==> Splits(before, self, p)
      ensures !shared ==> busy == {}
    {
      WithoutAbsent(before, {});
      var reply := ReserveFor(self, p);
      match reply {
        case Ok(_) =>
          t, removed, busy := Holding(p), {}, {};
        case Err(e) =>
          t, removed, busy := AfterRefusal(self, p, e, before);
      }
    }

    /** What the scheduler says of a refused placement. */
    ghost predicate Refused(self: LlamaBackend, p: Placement, e: SchedulerError, before: seq<Table>)
      requires |before| == |scheduler.sets| && p.WellFormed()
      reads this, scheduler
    {
      var shares := p.PerDeviceCost(self.estimatedMb);
      match e
      case UnknownGpu(gpu) => UnknownAt(before, scheduler.Budgets(), shares, self.Ctx(), gpu)
      case DeviceOverBudget(gpu, _) => FullAt(before, scheduler.Budgets(), shares, self.Ctx(), gpu)
    }

    /** Give up on a device that does not exist; make room on one that is full. */
    method AfterRefusal(self: LlamaBackend, p: Placement, e: SchedulerError, ghost before: seq<Table>)
      returns (t: TryOutcome, ghost removed: set<string>, ghost busy: set<string>)
      requires Valid() && CoherentBut({}) && Member(self) && self.loadState == Loading
      requires before == scheduler.Tables()
      requires p.WellFormed() && Distinct(p.Gpus()) && Refused(self, p, e, before)
      modifies scheduler.sets, Members(), Counters()
      ensures Valid() && CoherentBut({})
      ensures self.loadState == Loading && self.placement == old(self.placement)
      ensures t.Failed? || t.Retry?
      ensures scheduler.Tables() == Without(before, removed) && OnlyUnpinned(before, removed)
      ensures t.Failed? ==> removed == {} && Unplaceable(Seen(), p.PerDeviceCost(self.estimatedMb), self.Ctx(), t.why)
      ensures t == Failed(AllBusy) ==> busy != {}
      ensures Resident(before, busy)
      ensures t.Retry? ==> MovedOn(before, self, p, busy)
      ensures !shared ==> busy == {}
    {
      match e {
        case UnknownGpu(gpu) =>
          WithoutAbsent(before, {});
          t, removed, busy := Failed(UnknownDevice), {}, {};
        case DeviceOverBudget(gpu, _) =>
          t, removed, busy := RoomForShare(self, p, gpu, before);
      }
    }

    /** How many devices of an explicit placement have room before the first that has not. */
    ghost function Reached(self: LlamaBackend): (k: nat)
      reads this, scheduler, scheduler.sets
      ensures k <= |self.gpus|
    {
      if self.gpus == [] then 0 else FirstFull(scheduler.Tables(), self, self.Explicit())
    }

    /** A try worth repeating has taken an entry away, and if nobody was busy the first
        full device is a later one. */
    ghost predicate MovedOn(before: seq<Table>, self: LlamaBackend, p: Placement, busy: set<string>)
      reads this, scheduler, scheduler.sets
    {
      && p.WellFormed() && |before| == |scheduler.sets|
      && EntryCount(scheduler.Tables()) < EntryCount(before)
      && FirstFull(before, self, p) < |p.Gpus()|
      && (busy == {} ==> FirstFull(before, self, p) < FirstFull(scheduler.Tables(), self, p))
    }

    /** Make room for the share that was refused. */
    method RoomForShare(self: LlamaBackend, p: Placement, gpu: GpuId, ghost before: seq<Table>)
      returns (t: TryOutcome, ghost removed: set<string>, ghost busy: set<string>)
      requires Valid() && CoherentBut({}) && Member(self) && self.loadState == Loading
      requires before == scheduler.Tables()
      requires p.WellFormed() && Distinct(p.Gpus())
      requires FullAt(before, scheduler.Budgets(), p.PerDeviceCost(self.estimatedMb), self.Ctx(), gpu)
      modifies scheduler.sets, Members(), Counters()
      ensures Valid() && CoherentBut({})
      ensures self.loadState == Loading && self.placement == old(self.placement)
      ensures t.Failed? || t.Retry?
      ensures scheduler.Tables() == Without(before, removed) && OnlyUnpinned(before, removed)
      ensures t.Failed? ==> removed == {} && Unplaceable(Seen(), p.PerDeviceCost(self.estimatedMb), self.Ctx(), t.why)
      ensures t == Failed(AllBusy) ==> busy != {}
      ensures Resident(before, busy)
      ensures t.Retry? ==> MovedOn(before, self, p, busy)
      ensures !shared ==> busy == {}
    {
      NotLoadedNotResident(self.id);
      var shares := p.PerDeviceCost(self.estimatedMb);
      ghost var budgets := scheduler.Budgets();
      t, removed, busy := MakeRoom(self, gpu, CostOn(shares, gpu), before);
      assert scheduler.Budgets() == budgets;
      ResidentOn(before, gpu, busy);
      if t.Failed? {
        WithoutAbsent(before, {});
      } else {
        RoomMovesOn(self, p, gpu, before, budgets, shares, removed, busy);
      }
    }

    lemma RoomMovesOn(self: LlamaBackend, p: Placement, gpu: GpuId, before: seq<Table>, budgets: seq<u64>,
                      shares: seq<Share>, removed: set<string>, busy: set<string>)
      requires p.WellFormed() && Distinct(p.Gpus()) && shares == p.PerDeviceCost(self.estimatedMb)
      requires budgets == scheduler.Budgets() && |before| == |budgets|
      requires NotResident(before, self.id) && FullAt(before, budgets, shares, self.Ctx(), gpu)
      requires scheduler.Tables() == Without(before, removed) && EntryCount(scheduler.Tables()) < EntryCount(before)
      requires busy == {} ==> Fits(scheduler.Tables()[gpu], budgets[gpu], CostOn(shares, gpu))
      ensures MovedOn(before, self, p, busy)
    {
      assert Devices(shares) == p.Gpus();
      FirstFullMoves(before, budgets, shares, self.Ctx(), removed);
    }

    /** Reserve, evict the least recently used, retry. Every retry has removed an
        entry somewhere, so the loop ends; and for an explicit placement on n devices,
        if nobody was busy, the first full device moves on every time, so after at most
        n + 1 tries the reservation holds, or a device does not exist, or nobody can be
        evicted, or all that may be evicted from a device costs less than the share
        needed there. Only unpinned models are ever removed, from the whole scheduler
        at once; a failure leaves no entry of the model itself. The first try succeeds
        exactly if there is room as things stand, and then nobody is evicted; unless other
        tasks get in between, nobody is ever found busy. */
    method TryReserveWithEviction(self: LlamaBackend)
      returns (r: Result<(), EngineError>, ghost removed: set<string>, tries: nat, ghost busy: set<string>,
               ghost why: Obstacle)
      requires Valid() && CoherentBut({}) && Member(self) && self.loadState == Loading && Distinct(self.gpus)
      modifies scheduler.sets, Members(), Counters()
      ensures Valid() && self.loadState == Loading
      ensures OnlyUnpinned(old(scheduler.Tables()), removed)
      ensures r.Ok? ==> Committed(self, Without(old(scheduler.Tables()), removed))
      ensures r.Err? ==> CoherentBut({}) && EvictedFrom(old(scheduler.Tables()), removed)
      ensures r.Err? ==> self.placement == old(self.placement)
      ensures r.Err? ==> r.error == why.Error() && why in Obstacles(self) && (why == AllBusy ==> busy != {})
      ensures Resident(old(scheduler.Tables()), busy)
      ensures self.gpus != [] && busy == {} ==> tries <= |self.gpus| + 1
      ensures r.Ok? && tries == 1 <==>
              old(RoomNow(scheduler.Tables(), scheduler.Budgets(), self.placement, self.estimatedMb))
      ensures r.Ok? && tries == 1 ==> removed == {}
      ensures !shared ==> busy == {}
    {
      GrantsWhereRoom(self);
      ghost var room := Grants(self, scheduler.Tables());
      var outcome;
      outcome, removed, tries, busy := ReserveLoop(self, scheduler.Tables(), room);
      match outcome {
        case Ok(_) => r, why := Ok(()), NoDevices;
        case Err(w) => r, why := Err(w.Error()), w;
      }
    }

    method ReserveLoop(self: LlamaBackend, ghost before: seq<Table>, ghost room: bool)
      returns (r: Result<(), Obstacle>, ghost removed: set<string>, tries: nat, ghost busy: set<string>)
      requires Valid() && CoherentBut({}) && Member(self) && self.loadState == Loading && Distinct(self.gpus)
      requires before == scheduler.Tables()
      requires room <==> Grants(self, before)
      modifies scheduler.sets, Members(), Counters()
      ensures Valid() && self.loadState == Loading
      ensures OnlyUnpinned(before, removed)
      ensures r.Ok? ==> Committed(self, Without(before, removed))
      ensures r.Err? ==> CoherentBut({}) && EvictedFrom(before, removed)
      ensures r.Err? ==> self.placement == old(self.placement)
      ensures r.Err? ==> r.error in Obstacles(self)
      ensures r == Err(AllBusy) ==> busy != {}
      ensures Resident(before, busy)
      ensures self.gpus != [] && busy == {} ==> tries <= |self.gpus| + 1
      ensures r.Ok? && tries == 1 <==> room
      ensures r.Ok? && tries == 1 ==> removed == {}
      ensures !shared ==> busy == {}
    {
      WithoutAbsent(before, {});
      removed, tries, busy := {}, 0, {};
      var outcome := Retry;
      while true
        invariant Valid() && CoherentBut({})
        invariant self.loadState == Loading && self.placement == old(self.placement)
        invariant EvictedFrom(before, removed)
        invariant Resident(before, busy)
        invariant self.gpus != [] && busy == {} ==> tries <= Reached(self)
        invariant tries == 0 ==> removed == {} && (room <==> Grants(self, scheduler.Tables()))
        invariant tries > 0 ==> !room
        invariant !shared ==> busy == {}
        decreases EntryCount(scheduler.Tables())
      {
        outcome, removed, busy :=
          NextTry(self, before, removed, scheduler.Tables(), busy, Reached(self), tries == 0, room);
        tries := tries + 1;
        if !outcome.Retry? {
          break;
        }
      }
      r := if outcome.Holding? then Ok(()) else Err(outcome.why);
    }

    /** What a try comes to, seen from the tables the loop started with: `removed` are
        gone since, and `gone` were when the try began. */
    ghost predicate TriedFrom(self: LlamaBackend, before: seq<Table>, gone: set<string>, base: seq<Table>,
                              t: TryOutcome, removed: set<string>)
      reads *
    {
      match t
      case Holding(_) => removed == gone && OnlyUnpinned(before, removed) && Committed(self, Without(before, removed))
      case Failed(e) => CoherentBut({}) && EvictedFrom(before, removed) && e in Obstacles(self)
      case Retry =>
        && CoherentBut({}) && EvictedFrom(before, removed)
        && EntryCount(scheduler.Tables()) < EntryCount(base)
    }

    /** One more try, seen from the tables the loop started with. */
    method NextTry(self: LlamaBackend, ghost before: seq<Table>, ghost gone: set<string>, ghost base: seq<Table>,
                   ghost busyBefore: set<string>, ghost reached: nat, ghost first: bool, ghost room: bool)
      returns (t: TryOutcome, ghost removed: set<string>, ghost busy: set<string>)
      requires Valid() && CoherentBut({}) && Member(self) && self.loadState == Loading && Distinct(self.gpus)
      requires base == scheduler.Tables() && EvictedFrom(before, gone)
      requires first ==> (room <==> Grants(self, base))
      requires self.gpus != [] ==> reached == FirstFull(base, self, self.Explicit())
      modifies scheduler.sets, Members(), Counters()
      ensures Valid() && self.loadState == Loading
      ensures TriedFrom(self, before, gone, base, t, removed)
      ensures t == Failed(AllBusy) ==> busy != {}
      ensures t.Retry? && self.gpus != [] && busy == {} ==> reached < Reached(self)
      ensures first ==> (t.Holding? <==> room)
      ensures !t.Holding? ==> self.placement == old(self.placement)
      ensures !shared ==> busy == busyBefore
      ensures busyBefore <= busy && (Resident(before, busyBefore) ==> Resident(before, busy))
    {
      ghost var now, some;
      t, now, some := OneTry(self, base, Grants(self, base));
      removed, busy := gone + now, busyBefore + some;
      CarryOver(self, before, gone, base, t, now, some, busyBefore);
    }

    /** A try on top of earlier evictions. */
    lemma CarryOver(self: LlamaBackend, before: seq<Table>, gone: set<string>, base: seq<Table>, t: TryOutcome,
                    now: set<string>, some: set<string>, busyBefore: set<string>)
      requires base == Without(before, gone) && OnlyUnpinned(before, gone) && OnlyUnpinned(base, now)
      requires Resident(base, some)
      ensures Tried(self, base, t, now, some) ==> TriedFrom(self, before, gone, base, t, gone + now)
      ensures Tried(self, base, t, now, some) && Resident(before, busyBefore) ==> Resident(before, busyBefore + some)
      ensures Tried(self, base, t, now, some) && t.Retry? && self.gpus != [] && busyBefore + some == {} ==>
                |base| == |scheduler.sets| && FirstFull(base, self, self.Explicit()) < Reached(self)
    {
      if Tried(self, base, t, now, some) {
        assert busyBefore + some == {} ==> some == {};
        UnpinnedTwice(before, gone, now);
        ResidentBefore(before, gone, some, busyBefore);
        if t.Holding? {
          assert gone + now == gone;
        }
      }
    }

    /** Lock the chosen device in for an automatic model; idempotent. */
    method CommitPlacement(self: LlamaBackend, p: Placement, ghost base: seq<Table>)
      requires HeldBy(base, self, p)
      requires Valid() && CoherentBut({self.id}) && Member(self)
      requires self.placement.Resolved? ==> p == self.placement.placement
      requires self.placement.Auto? ==> p.SingleDevice?
      modifies self
      ensures Valid() && Committed(self, base)
      ensures self.placement == Resolved(p) && self.loadState == old(self.loadState)
    {
      if self.placement.Auto? {
        self.placement := Resolved(p);
      }
    }

    /** A whole load by a leader that holds the coordinator; whether the worker comes up
        is not ours to decide. The model is loaded, with exactly its shares reserved, if
        and only if the reservation is obtained and the worker comes up; otherwise it is
        unloaded and leaves no entry. The reservation is obtained at once where there is
        room, and is refused only for a reason. */
    method LoadAsLeader(self: LlamaBackend, workerUp: bool, now: nat)
      returns (r: Result<(), EngineError>, ghost reserved: Result<(), Obstacle>, ghost busy: set<string>)
      requires Valid() && CoherentBut({}) && Member(self) && self.loadState == Loading && Distinct(self.gpus)
      modifies scheduler.sets, Members(), Counters()
      ensures Valid() && CoherentBut({})
      ensures r.Ok? <==> reserved.Ok? && workerUp
      ensures r.Ok? ==> self.loadState == Loaded && ReservedExactly(self) && self.lastUsedMs.value == now
      ensures r.Err? ==> self.loadState == Unloaded && NowhereResident(self.id)
      ensures old(RoomNow(scheduler.Tables(), scheduler.Budgets(), self.placement, self.estimatedMb)) ==> reserved.Ok?
      ensures reserved.Err? ==>
                && r == Err(reserved.error.Error()) && self.placement == old(self.placement)
                && reserved.error in Obstacles(self) && (reserved.error == AllBusy ==> busy != {})
      ensures reserved.Ok? && r.Err? ==> r.error == ModelLoadFailed("worker did not load the model")
      ensures !shared ==> busy == {}
    {
      ghost var removed;
      var tries;
      ghost var before := scheduler.Tables();
      NotLoadedNotResident(self.id);
      ghost var why;
      r, removed, tries, busy, why := TryReserveWithEviction(self);
      reserved := if r.Ok? then Ok(()) else Err(why);
      if r.Err? {
        FailLoading(self);
        return;
      }
      WithoutKeepsAway(before, removed, self.id);
      HeldIsReserved(self, Without(before, removed));
      if workerUp {
        FinishLoad(self, now);
      } else {
        AbandonLoad(self);
        r := Err(ModelLoadFailed("worker did not load the model"));
      }
    }

    method FinishLoad(self: LlamaBackend, now: nat)
      requires Valid() && CoherentBut({self.id}) && Member(self) && ReservedExactly(self)
      modifies self`loadState, self.lastUsedMs
      ensures Valid() && CoherentBut({}) && ReservedExactly(self)
      ensures self.loadState == Loaded && self.lastUsedMs.value == now
    {
      self.loadState := Loaded;
      self.lastUsedMs.value := now;
      forall g, id | 0 <= g < |scheduler.sets| && id in scheduler.sets[g].loaded
        ensures Backed(g, id, scheduler.sets[g].loaded[id])
      {
        if id != self.id {
          assert id !in {self.id};
        }
      }
    }

    /** The worker failed to come up: give the reservation back. The placement an
        automatic model was committed to stays. */
    method AbandonLoad(self: LlamaBackend)
      requires Valid() && CoherentBut({self.id}) && Member(self) && ReservedExactly(self)
      modifies scheduler.sets, self
      ensures Valid() && CoherentBut({}) && NowhereResident(self.id)
      ensures self.loadState == Unloaded && self.placement == old(self.placement)
      ensures scheduler.Tables() == Without(old(scheduler.Tables()), {self.id})
    {
      ReleaseOnPlacement(self);
      ReleaseEntries(self, self.PlacedOn(), true);
      SetUnloaded(self, true);
    }

    /** Entries of exactly the model's shares on the accounting devices of its
        committed placement, and nowhere else. */
    ghost predicate ReservedExactly(self: LlamaBackend)
      reads this, scheduler, scheduler.sets, self
    {
      && self.PlacementOk() && self.placement.Resolved?
      && var shares := self.placement.placement.PerDeviceCost(self.estimatedMb);
      && (forall i :: 0 <= i < |shares| ==> shares[i].gpu < |scheduler.sets|)
      && (forall i :: 0 <= i < |shares| && scheduler.sets[shares[i].gpu].budgetMb != 0 ==>
            && self.id in scheduler.sets[shares[i].gpu].loaded
            && scheduler.sets[shares[i].gpu].loaded[self.id].costMb == shares[i].costMb)
      && (forall g :: 0 <= g < |scheduler.sets| && self.id in scheduler.sets[g].loaded ==>
            && g in self.PlacedOn()
            && scheduler.sets[g].loaded[self.id].inFlight == self.inFlight
            && scheduler.sets[g].loaded[self.id].lastUsedMs == self.lastUsedMs
            && scheduler.sets[g].loaded[self.id].pinned == self.pin)
    }

    lemma HeldIsReserved(self: LlamaBackend, before: seq<Table>)
      requires Valid() && Member(self) && self.placement.Resolved? && Distinct(self.gpus)
      requires NotResident(before, self.id)
      requires HeldBy(before, self, self.placement.placement)
      ensures ReservedExactly(self)
    {
      var p := self.placement.placement;
      var shares := p.PerDeviceCost(self.estimatedMb);
      var budgets := scheduler.Budgets();
      DistinctPlacement(self, p);
      assert Devices(shares) == p.Gpus();
      SplitSucceedsIffRoom(before, budgets, shares, self.Ctx());
      forall i | 0 <= i < |shares|
        ensures shares[i].gpu < |scheduler.sets|
        ensures scheduler.sets[shares[i].gpu].budgetMb != 0 ==>
                  (scheduler.sets[shares[i].gpu].loaded
                   == before[shares[i].gpu][self.id := NewEntry(shares[i].costMb, self.Ctx())])
      {
        assert HasRoom(before, budgets, shares[i]);
        AfterHolds(before, budgets, shares, self.Ctx(), i);
        assert scheduler.Tables()[shares[i].gpu] == scheduler.sets[shares[i].gpu].loaded;
      }
      forall g | 0 <= g < |scheduler.sets| && self.id in scheduler.sets[g].loaded
        ensures g in self.PlacedOn()
        ensures scheduler.sets[g].loaded[self.id].inFlight == self.inFlight
        ensures scheduler.sets[g].loaded[self.id].lastUsedMs == self.lastUsedMs
        ensures scheduler.sets[g].loaded[self.id].pinned == self.pin
      {
        AfterAt(before, budgets, shares, self.Ctx(), g);
        assert scheduler.Tables()[g] == scheduler.sets[g].loaded;
        var i :| 0 <= i < |shares| && Devices(shares)[i] == g;
        assert scheduler.sets[g].budgetMb != 0;
      }
    }

    lemma ReleaseOnPlacement(self: LlamaBackend)
      requires Valid() && ReservedExactly(self)
      ensures Withdraw(scheduler.Tables(), scheduler.Budgets(), self.PlacedOn(), self.id)
           == Without(scheduler.Tables(), {self.id})
    {
      var before := scheduler.Tables();
      forall g | 0 <= g < |before|
        ensures Withdraw(before, scheduler.Budgets(), self.PlacedOn(), self.id)[g] == before[g] - {self.id}
      {
        WithdrawAt(before, scheduler.Budgets(), self.PlacedOn(), self.id, g);
        assert scheduler.sets[g].Valid();
      }
    }

    /** Only the load state goes back. */
    method FailLoading(self: LlamaBackend)
      requires Valid() && CoherentBut({}) && Member(self) && self.loadState == Loading
      modifies self`loadState
      ensures Valid() && CoherentBut({}) && NowhereResident(self.id)
      ensures self.loadState == Unloaded && self.placement == old(self.placement)
      ensures Seen() == old(Seen())
    {
      NotLoadedNotResident(self.id);
      self.loadState := Unloaded;
      assert scheduler.Tables() == old(scheduler.Tables());
      forall g | 0 <= g < |scheduler.sets|
        ensures Eligible()[g] == old(Eligible())[g]
      {
      }
    }

    /** The split reservation of a model that is resident nowhere. */
    method ReserveFor(self: LlamaBackend, p: Placement) returns (r: Result<(), SchedulerError>)
      requires Valid() && CoherentBut({}) && Member(self) && self.loadState != Loaded
      requires p.WellFormed() && Distinct(p.Gpus())
      modifies scheduler.sets
      ensures Valid()
      ensures r.Ok? <==> Splits(old(scheduler.Tables()), self, p)
      ensures r.Ok? ==> HeldBy(old(scheduler.Tables()), self, p) && CoherentBut({self.id})
      ensures r.Err? ==> scheduler.Tables() == old(scheduler.Tables()) && CoherentBut({})
      ensures r.Err? ==> Refused(self, p, r.error, scheduler.Tables())
    {
      var shares := p.PerDeviceCost(self.estimatedMb);
      ghost var before, budgets := scheduler.Tables(), scheduler.Budgets();
      NotLoadedNotResident(self.id);
      assert Devices(shares) == p.Gpus();
      SplitSucceedsIffRoom(before, budgets, shares, self.Ctx());
      RefusingDevice(before, budgets, shares, self.Ctx());
      r := ReserveShares(self, shares, before);
    }

    /** A reservation of one model concerns no other model's entries. */
    method ReserveShares(self: LlamaBackend, shares: seq<Share>, ghost before: seq<Table>)
      returns (r: Result<(), SchedulerError>)
      requires Valid() && CoherentBut({}) && Member(self) && before == scheduler.Tables()
      modifies scheduler.sets
      ensures Valid() && CoherentBut({self.id})
      ensures scheduler.Tables() == SplitTables(before, scheduler.Budgets(), shares, self.Ctx())
      ensures r == SplitResult(before, scheduler.Budgets(), shares, self.Ctx())
    {
      r := scheduler.TryReserveSplit(shares, self.Ctx());
      forall g, id | 0 <= g < |scheduler.sets| && id in scheduler.sets[g].loaded && id != self.id
        ensures Backed(g, id, scheduler.sets[g].loaded[id])
      {
        OthersKept(before, scheduler.Budgets(), shares, self.Ctx(), g, id);
        assert scheduler.Tables()[g] == scheduler.sets[g].loaded;
        assert id in old(scheduler.sets[g].loaded);
      }
    }

    lemma DistinctPlacement(self: LlamaBackend, p: Placement)
      requires self.PlacementOk() && Distinct(self.gpus) && p.WellFormed()
      requires self.placement == Resolved(p) || (self.placement.Auto? && p.SingleDevice?)
      ensures Distinct(p.Gpus())
      ensures self.gpus != [] ==> p == self.Explicit()
    {
    }

    /** A reservation on this placement succeeds on these tables. */
    ghost predicate Splits(before: seq<Table>, self: LlamaBackend, p: Placement)
      reads this, scheduler
    {
      && p.WellFormed() && |before| == |scheduler.sets|
      && SplitResult(before, scheduler.Budgets(), p.PerDeviceCost(self.estimatedMb), self.Ctx()) == Ok(())
    }

    /** The tables hold a reservation of exactly the model's shares on top of `before`. */
    ghost predicate HeldBy(before: seq<Table>, self: LlamaBackend, p: Placement)
      reads this, scheduler, scheduler.sets
    {
      && Splits(before, self, p)
      && scheduler.Tables() == SplitTables(before, scheduler.Budgets(), p.PerDeviceCost(self.estimatedMb), self.Ctx())
    }

    /** Index of the first device of a placement without room for its share. */
    ghost function FirstFull(tables: seq<Table>, self: LlamaBackend, p: Placement): (k: nat)
      requires |tables| == |scheduler.sets| && p.WellFormed()
      reads this, scheduler
      ensures k <= |p.Gpus()|
    {
      Refusal(tables, scheduler.Budgets(), p.PerDeviceCost(self.estimatedMb), self.Ctx())
    }
  }

  lemma RefusingDevice(tables: seq<Table>, budgets: seq<u64>, shares: seq<Share>, ctx: Context)
    requires |tables| == |budgets| && NotResident(tables, ctx.modelId) && Distinct(Devices(shares))
    ensures var r := SplitResult(tables, budgets, shares, ctx);
            var k := Refusal(tables, budgets, shares, ctx);
            r.Err? ==>
              && k < |shares|
              && (r.error.UnknownGpu? ==> UnknownAt(tables, budgets, shares, ctx, r.error.gpu))
              && (r.error.DeviceOverBudget? ==> FullAt(tables, budgets, shares, ctx, r.error.gpu))
  {
    var k := Refusal(tables, budgets, shares, ctx);
    if k < |shares| {
      CostOnDistinct(shares, k);
      SplitSucceedsIffRoom(tables, budgets, shares, ctx);
    }
  }

  lemma OthersKept(tables: seq<Table>, budgets: seq<u64>, shares: seq<Share>, ctx: Context, g: nat, id: string)
    requires |tables| == |budgets| && g < |tables| && id != ctx.modelId
    ensures var after := SplitTables(tables, budgets, shares, ctx);
            id in after[g] ==> id in tables[g] && after[g][id] == tables[g][id]
  {
    var k := Refusal(tables, budgets, shares, ctx);
    AfterAt(tables, budgets, shares, ctx, g);
    AfterAt(tables, budgets, shares[..k], ctx, g);
    WithdrawAt(After(tables, budgets, shares[..k], ctx), budgets, Devices(shares[..k]), ctx.modelId, g);
    KeptAside(SplitTables(tables, budgets, shares, ctx)[g], tables[g], ctx.modelId, id);
  }

  lemma KeptAside(after: Table, before: Table, modelId: string, id: string)
    requires id != modelId && after - {modelId} == before - {modelId}
    ensures id in after ==> id in before && after[id] == before[id]
  {
    if id in after {
      assert id in after - {modelId};
      assert (after - {modelId})[id] == (before - {modelId})[id];
    }
  }

  /** Every device of a split exists and has room for its share. */
  ghost predicate RoomForAll(tables: seq<Table>, budgets: seq<u64>, shares: seq<Share>)
    requires |tables| == |budgets|
  {
    forall i :: 0 <= i < |shares| ==> HasRoom(tables, budgets, shares[i])
  }

  /** The first device without room for its share does not exist. */
  ghost predicate UnknownAt(tables: seq<Table>, budgets: seq<u64>, shares: seq<Share>, ctx: Context, gpu: GpuId)
    requires |tables| == |budgets|
  {
    var k := Refusal(tables, budgets, shares, ctx);
    k < |shares| && shares[k].gpu == gpu >= |tables|
  }

  /** The first device without room for its share is this one. */
  ghost predicate FullAt(tables: seq<Table>, budgets: seq<u64>, shares: seq<Share>, ctx: Context, gpu: GpuId)
    requires |tables| == |budgets|
  {
    var k := Refusal(tables, budgets, shares, ctx);
    && k < |shares| && shares[k].gpu == gpu < |budgets| && budgets[gpu] != 0
    && gpu in Devices(shares) && CostOn(shares, gpu) == shares[k].costMb
    && !Fits(tables[gpu], budgets[gpu], shares[k].costMb)
  }

  /** Once the refusing device has room, the first refusal can only be further on. */
  lemma FirstFullMoves(tables: seq<Table>, budgets: seq<u64>, shares: seq<Share>, ctx: Context, removed: set<string>)
    requires |tables| == |budgets| && NotResident(tables, ctx.modelId) && Distinct(Devices(shares))
    requires Refusal(tables, budgets, shares, ctx) < |shares|
    ensures var k := Refusal(tables, budgets, shares, ctx);
            var after := Without(tables, removed);
            shares[k].gpu < |tables| && Fits(after[shares[k].gpu], budgets[shares[k].gpu], shares[k].costMb) ==>
              k < Refusal(after, budgets, shares, ctx)
  {
    var k := Refusal(tables, budgets, shares, ctx);
    var after := Without(tables, removed);
    SplitSucceedsIffRoom(tables, budgets, shares, ctx);
    SplitSucceedsIffRoom(after, budgets, shares, ctx);
    forall i | 0 <= i < k
      ensures HasRoom(after, budgets, shares[i])
    {
      RoomStays(tables, budgets, shares[i], removed);
    }
    if HasRoom(after, budgets, shares[k]) {
      assert Refusal(after, budgets, shares, ctx) > k;
    }
  }

  lemma RoomStays(tables: seq<Table>, budgets: seq<u64>, share: Share, removed: set<string>)
    requires |tables| == |budgets| && HasRoom(tables, budgets, share)
    ensures HasRoom(Without(tables, removed), budgets, share)
  {
    var g := share.gpu;
    if budgets[g] != 0 {
      EvictionKeepsRoom(tables[g], budgets[g], share.costMb, removed);
    }
  }

  datatype TryOutcome = Holding(placement: Placement) | Failed(why: Obstacle) | Retry

  lemma WithoutKeepsAway(tables: seq<Table>, removed: set<string>, id: string)
    requires NotResident(tables, id)
    ensures NotResident(Without(tables, removed), id)
  {
  }

  /** The next victim is new, whichever answer it gives. */
  lemma AnswerSorted(victims: seq<string>, i: nat, removed: set<string>, busy: set<string>)
    requires i < |victims| && Distinct(victims)
    requires IdSet(victims[..i]) == removed + busy && removed !! busy
    ensures var v := victims[i];
            && IdSet(victims[..i + 1]) == removed + {v} + busy && removed + {v} !! busy
            && IdSet(victims[..i + 1]) == removed + (busy + {v}) && removed !! busy + {v}
  {
    assert IdSet(victims[..i + 1]) == IdSet(victims[..i]) + {victims[i]};
    forall k | 0 <= k < i
      ensures victims[..i][k] != victims[i]
    {
    }
  }

  lemma WithoutTwice(tables: seq<Table>, first: set<string>, second: set<string>)
    ensures Without(Without(tables, first), second) == Without(tables, first + second)
  {
    forall g | 0 <= g < |tables|
      ensures (tables[g] - first) - second == tables[g] - (first + second)
    {
    }
  }
}
