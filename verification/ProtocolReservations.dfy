/** Left alone, the steps of the protocol are the operations of the scheduler
    (src/engine/scheduling.rs): reserving device by device and rolling back is its split
    reservation, looking at one device after the other its pick, and what may be evicted
    is what its picker sees. */
module ProtocolReservations {
  import opened Wrappers
  import opened MapSums
  import opened Placements
  import opened Protocol
  import opened ProtocolInvariant
  import opened ProtocolSafety
  import opened ProtocolGuards
  import opened ProtocolRuns
  import opened ProtocolRetries

  // ---------- the scheduler's tables ----------

  /** What the protocol keeps of the scheduler's tables: the costs. */
  function CostTables(tables: seq<R.Table>): (e: seq<map<string, nat>>)
    ensures |e| == |tables|
    ensures forall g :: 0 <= g < |e| ==> e[g] == R.Costs(tables[g])
  {
    seq(|tables|, g requires 0 <= g < |tables| => R.Costs(tables[g]))
  }

  /** The task at another point, with other tables. */
  function Placed(s: State, t: TaskId, pc: PC, tables: seq<R.Table>): State
    requires t in s.tasks
  {
    s.(tasks := s.tasks[t := s.tasks[t].(pc := pc)], entries := CostTables(tables))
  }

  /** Where it was before does not matter. */
  lemma PlacedAgain(s: State, t: TaskId, pc: PC, tables: seq<R.Table>)
    requires t in s.tasks
    ensures var s' := Placed(s, t, pc, tables);
            && s' == Placed(s', t, pc, tables)
            && forall pc': PC, after: seq<R.Table> :: Placed(s', t, pc', after) == Placed(s, t, pc', after)
  {
    var s' := Placed(s, t, pc, tables);
    forall pc': PC
      ensures s'.tasks[t := s'.tasks[t].(pc := pc')] == s.tasks[t := s.tasks[t].(pc := pc')]
    {
    }
  }

  /** The task goes from each of these states to the next while nobody else moves. */
  ghost predicate Alone(c: Config, t: TaskId, run: seq<State>) {
    run != [] && forall i :: 0 <= i < |run| - 1 ==> Apply(c, run[i], Advance(t, Proceed)) == Some(run[i + 1])
  }

  ghost predicate LeadsTo(c: Config, t: TaskId, run: seq<State>, s: State, s': State) {
    Alone(c, t, run) && run[0] == s && run[|run| - 1] == s'
  }

  lemma AloneFirst(c: Config, t: TaskId, s: State, run: seq<State>)
    requires Alone(c, t, run) && Apply(c, s, Advance(t, Proceed)) == Some(run[0])
    ensures Alone(c, t, [s] + run)
  {
    var all := [s] + run;
    forall i | 0 <= i < |all| - 1
      ensures Apply(c, all[i], Advance(t, Proceed)) == Some(all[i + 1])
    {
      if i > 0 {
        assert all[i] == run[i - 1] && all[i + 1] == run[i];
      }
    }
  }

  lemma CostsOfOthers(t: R.Table, id: string)
    ensures R.Costs(t - {id}) == R.Costs(t) - {id}
  {
  }

  lemma CostsOfAdmitted(t: R.Table, budgetMb: u64, costMb: u64, ctx: R.Context)
    ensures R.Costs(R.Admit(t, budgetMb, costMb, ctx))
         == if budgetMb == 0 || ctx.modelId in t then R.Costs(t) else R.Costs(t)[ctx.modelId := costMb]
  {
  }

  // ---------- reserving ----------

  /** The task is about to reserve its k-th share, the first k being reserved. */
  ghost predicate Reserves(c: Config, s: State, t: TaskId, tables: seq<R.Table>, p: Placement, ctx: R.Context, k: nat) {
    && |tables| == |c.budgets| && p.WellFormed() && ctx.modelId in c.models
    && t in s.tasks && s.tasks[t].model == ctx.modelId && s.backends.Keys == c.models.Keys
    && var shares := Cost(c, ctx.modelId, p);
       k <= |shares| && s == Placed(s, t, Reserving(p, k), R.After(tables, c.budgets, shares[..k], ctx))
  }

  /** The next device answers as the scheduler's does. */
  lemma ReservesOne(c: Config, s: State, t: TaskId, tables: seq<R.Table>, p: Placement, ctx: R.Context, k: nat)
    requires Reserves(c, s, t, tables, p, ctx, k) && k < |Cost(c, ctx.modelId, p)|
    ensures var shares := Cost(c, ctx.modelId, p);
            Apply(c, s, Advance(t, Proceed))
            == Some(if R.AcceptedAt(tables, c.budgets, shares, ctx, k)
                    then Placed(s, t, Reserving(p, k + 1), R.After(tables, c.budgets, shares[..k + 1], ctx))
                    else Placed(s, t, RollingBack(p, 0, k, shares[k].gpu < |tables|),
                                R.After(tables, c.budgets, shares[..k], ctx)))
  {
    var shares := Cost(c, ctx.modelId, p);
    OneMoreReserved(tables, c.budgets, shares, ctx, k);
    assert Known(c, s, t);
    assert Apply(c, s, Advance(t, Proceed)) == Reserve(c, s, t);
  }

  /** The costs after one more share has been accepted. */
  lemma OneMoreReserved(tables: seq<R.Table>, budgets: seq<u64>, shares: seq<Share>, ctx: R.Context, k: nat)
    requires |tables| == |budgets| && k < |shares|
    ensures var now, next := R.After(tables, budgets, shares[..k], ctx), R.After(tables, budgets, shares[..k + 1], ctx);
            var g, cost := shares[k].gpu, shares[k].costMb;
            g < |tables| ==>
              && (R.Fits(now[g], budgets[g], cost) <==> Fits(CostTables(now)[g], budgets[g], cost))
              && (ctx.modelId in now[g] <==> ctx.modelId in CostTables(now)[g])
              && CostTables(next) == if budgets[g] == 0 || ctx.modelId in now[g] then CostTables(now)
                                     else CostTables(now)[g := With(CostTables(now)[g], ctx.modelId, cost)]
  {
    var now := R.After(tables, budgets, shares[..k], ctx);
    var g, cost := shares[k].gpu, shares[k].costMb;
    assert shares[..k + 1][..k] == shares[..k];
    if g < |tables| {
      CostsOfAdmitted(now[g], budgets[g], cost, ctx);
    }
  }

  // ---------- rolling back ----------

  /** The first j of the k devices reserved have been given back. */
  ghost predicate RollsBack(c: Config, s: State, t: TaskId, tables: seq<R.Table>, p: Placement, m: string, j: nat,
                            k: nat, full: bool)
  {
    && |tables| == |c.budgets| && p.WellFormed() && m in c.models
    && t in s.tasks && s.tasks[t].model == m && s.backends.Keys == c.models.Keys
    && var shares := Cost(c, m, p);
       && j <= k <= |shares|
       && s == Placed(s, t, RollingBack(p, j, k, full), R.Withdraw(tables, c.budgets, R.Devices(shares[..j]), m))
  }

  lemma RollsBackOne(c: Config, s: State, t: TaskId, tables: seq<R.Table>, p: Placement, m: string, j: nat, k: nat,
                     full: bool)
    requires RollsBack(c, s, t, tables, p, m, j, k, full) && j < k
    ensures var shares := Cost(c, m, p);
            Apply(c, s, Advance(t, Proceed))
            == Some(Placed(s, t, RollingBack(p, j + 1, k, full),
                           R.Withdraw(tables, c.budgets, R.Devices(shares[..j + 1]), m)))
  {
    var shares := Cost(c, m, p);
    var now := R.Withdraw(tables, c.budgets, R.Devices(shares[..j]), m);
    var g := shares[j].gpu;
    assert R.Devices(shares[..j + 1])[..j] == R.Devices(shares[..j]);
    if g < |tables| && c.budgets[g] != 0 {
      CostsOfOthers(now[g], m);
      assert CostTables(now[g := now[g] - {m}]) == CostTables(now)[g := R.Costs(now[g]) - {m}];
    }
  }

  lemma RolledBack(c: Config, s: State, t: TaskId, tables: seq<R.Table>, p: Placement, m: string, k: nat, full: bool)
    requires RollsBack(c, s, t, tables, p, m, k, k, full)
    ensures var shares := Cost(c, m, p);
            Apply(c, s, Advance(t, Proceed)) == Some(Placed(s, t, AfterRollBack(shares, RollingBack(p, k, k, full)),
                                                            R.Withdraw(tables, c.budgets, R.Devices(shares[..k]), m)))
  {
    var pc := RollingBack(p, k, k, full);
    assert Known(c, s, t) && s.tasks[t].pc == pc;
    assert Apply(c, s, Advance(t, Proceed)) == Some(Move(s, t, AfterRollBack(Cost(c, m, p), pc)));
    var after := R.Withdraw(tables, c.budgets, R.Devices(Cost(c, m, p)[..k]), m);
    assert Move(s, t, AfterRollBack(Cost(c, m, p), pc)) == Placed(s, t, AfterRollBack(Cost(c, m, p), pc), after);
  }

  lemma {:induction false} RollBackAlone(c: Config, s: State, t: TaskId, tables: seq<R.Table>, p: Placement, m: string,
                                         j: nat, k: nat, full: bool)
    returns (run: seq<State>)
    requires RollsBack(c, s, t, tables, p, m, j, k, full)
    ensures LeadsTo(c, t, run, s, RolledBackTo(c, s, t, tables, p, m, k, full))
    decreases k - j
  {
    if j < k {
      var s' := GivesOneBack(c, s, t, tables, p, m, j, k, full);
      var rest := RollBackAlone(c, s', t, tables, p, m, j + 1, k, full);
      run := OneBackFirst(c, s, s', t, tables, p, m, j, k, full, rest);
    } else {
      run := LastBack(c, s, t, tables, p, m, k, full);
    }
  }

  /** Where rolling back ends. */
  function RolledBackTo(c: Config, s: State, t: TaskId, tables: seq<R.Table>, p: Placement, m: string, k: nat,
                        full: bool): State
    requires |tables| == |c.budgets| && m in c.models && k <= |Cost(c, m, p)| && t in s.tasks
  {
    Placed(s, t, AfterRollBack(Cost(c, m, p), RollingBack(p, k, k, full)),
           R.Withdraw(tables, c.budgets, R.Devices(Cost(c, m, p)[..k]), m))
  }

  lemma GivesOneBack(c: Config, s: State, t: TaskId, tables: seq<R.Table>, p: Placement, m: string, j: nat, k: nat,
                     full: bool)
    returns (s': State)
    requires RollsBack(c, s, t, tables, p, m, j, k, full) && j < k
    ensures var after := R.Withdraw(tables, c.budgets, R.Devices(Cost(c, m, p)[..j + 1]), m);
            s' == Placed(s, t, RollingBack(p, j + 1, k, full), after)
    ensures RollsBack(c, s', t, tables, p, m, j + 1, k, full)
    ensures RolledBackTo(c, s', t, tables, p, m, k, full) == RolledBackTo(c, s, t, tables, p, m, k, full)
  {
    var after := R.Withdraw(tables, c.budgets, R.Devices(Cost(c, m, p)[..j + 1]), m);
    s' := Placed(s, t, RollingBack(p, j + 1, k, full), after);
    PlacedAgain(s, t, RollingBack(p, j + 1, k, full), after);
  }

  lemma OneBackFirst(c: Config, s: State, s': State, t: TaskId, tables: seq<R.Table>, p: Placement, m: string, j: nat,
                     k: nat, full: bool, rest: seq<State>)
    returns (run: seq<State>)
    requires RollsBack(c, s, t, tables, p, m, j, k, full) && j < k && Alone(c, t, rest) && rest[0] == s'
    requires var after := R.Withdraw(tables, c.budgets, R.Devices(Cost(c, m, p)[..j + 1]), m);
             s' == Placed(s, t, RollingBack(p, j + 1, k, full), after)
    ensures LeadsTo(c, t, run, s, rest[|rest| - 1])
  {
    RollsBackOne(c, s, t, tables, p, m, j, k, full);
    AloneFirst(c, t, s, rest);
    run := [s] + rest;
  }

  lemma LastBack(c: Config, s: State, t: TaskId, tables: seq<R.Table>, p: Placement, m: string, k: nat, full: bool)
    returns (run: seq<State>)
    requires RollsBack(c, s, t, tables, p, m, k, k, full)
    ensures LeadsTo(c, t, run, s, RolledBackTo(c, s, t, tables, p, m, k, full))
  {
    RolledBack(c, s, t, tables, p, m, k, full);
    run := [s, RolledBackTo(c, s, t, tables, p, m, k, full)];
  }

  // ---------- the whole reservation ----------

  /** Where a reservation takes a task: on to commit, to pick victims on the first device
      that is full, or to give up on one that does not exist. */
  ghost function Outcome(r: Result<(), R.SchedulerError>, p: Placement): PC {
    match r
    case Ok(_) => Committing(p)
    case Err(UnknownGpu(_)) => Failing
    case Err(DeviceOverBudget(g, cause)) => Picking(g, cause.requestedMb)
  }

  /** The state after the scheduler's split reservation. */
  ghost function Reserved(c: Config, s: State, t: TaskId, tables: seq<R.Table>, p: Placement, ctx: R.Context): State
    requires |tables| == |c.budgets| && ctx.modelId in c.models && t in s.tasks
  {
    var shares := Cost(c, ctx.modelId, p);
    Placed(s, t, Outcome(R.SplitResult(tables, c.budgets, shares, ctx), p),
           R.SplitTables(tables, c.budgets, shares, ctx))
  }

  /** Left alone, a task that reserves ends up where the scheduler's split reservation
      says, with exactly the tables that leaves, rollback included. */
  lemma ReservesLikeScheduler(c: Config, s: State, t: TaskId, tables: seq<R.Table>, p: Placement, ctx: R.Context)
    returns (run: seq<State>)
    requires Reserves(c, s, t, tables, p, ctx, 0)
    ensures var shares := Cost(c, ctx.modelId, p);
            LeadsTo(c, t, run, s, Placed(s, t, Outcome(R.SplitResult(tables, c.budgets, shares, ctx), p),
                                         R.SplitTables(tables, c.budgets, shares, ctx)))
  {
    run := ReserveAlone(c, s, t, tables, p, ctx, 0);
  }

  lemma {:induction false} ReserveAlone(c: Config, s: State, t: TaskId, tables: seq<R.Table>, p: Placement,
                                        ctx: R.Context, k: nat)
    returns (run: seq<State>)
    requires Reserves(c, s, t, tables, p, ctx, k)
    requires R.AcceptedUpTo(tables, c.budgets, Cost(c, ctx.modelId, p), ctx, k)
    ensures LeadsTo(c, t, run, s, Reserved(c, s, t, tables, p, ctx))
    decreases |Cost(c, ctx.modelId, p)| - k
  {
    if k == |Cost(c, ctx.modelId, p)| {
      run := NothingLeft(c, s, t, tables, p, ctx, k);
    } else if R.AcceptedAt(tables, c.budgets, Cost(c, ctx.modelId, p), ctx, k) {
      var s' := OneMore(c, s, t, tables, p, ctx, k);
      var rest := ReserveAlone(c, s', t, tables, p, ctx, k + 1);
      run := OneMoreFirst(c, s, s', t, tables, p, ctx, k, rest);
    } else {
      run := RefusedAlone(c, s, t, tables, p, ctx, k);
    }
  }

  lemma OneMore(c: Config, s: State, t: TaskId, tables: seq<R.Table>, p: Placement, ctx: R.Context, k: nat)
    returns (s': State)
    requires Reserves(c, s, t, tables, p, ctx, k) && k < |Cost(c, ctx.modelId, p)|
    ensures s' == Placed(s, t, Reserving(p, k + 1), R.After(tables, c.budgets, Cost(c, ctx.modelId, p)[..k + 1], ctx))
    ensures Reserves(c, s', t, tables, p, ctx, k + 1)
    ensures Reserved(c, s', t, tables, p, ctx) == Reserved(c, s, t, tables, p, ctx)
  {
    var after := R.After(tables, c.budgets, Cost(c, ctx.modelId, p)[..k + 1], ctx);
    s' := Placed(s, t, Reserving(p, k + 1), after);
    PlacedAgain(s, t, Reserving(p, k + 1), after);
  }

  lemma OneMoreFirst(c: Config, s: State, s': State, t: TaskId, tables: seq<R.Table>, p: Placement, ctx: R.Context,
                     k: nat, rest: seq<State>)
    returns (run: seq<State>)
    requires Reserves(c, s, t, tables, p, ctx, k) && k < |Cost(c, ctx.modelId, p)|
    requires R.AcceptedAt(tables, c.budgets, Cost(c, ctx.modelId, p), ctx, k) && Alone(c, t, rest) && rest[0] == s'
    requires s' == Placed(s, t, Reserving(p, k + 1), R.After(tables, c.budgets, Cost(c, ctx.modelId, p)[..k + 1], ctx))
    ensures LeadsTo(c, t, run, s, rest[|rest| - 1])
  {
    ReservesOne(c, s, t, tables, p, ctx, k);
    AloneFirst(c, t, s, rest);
    run := [s] + rest;
  }

  lemma NothingLeft(c: Config, s: State, t: TaskId, tables: seq<R.Table>, p: Placement, ctx: R.Context, k: nat)
    returns (run: seq<State>)
    requires Reserves(c, s, t, tables, p, ctx, k) && k == |Cost(c, ctx.modelId, p)|
    requires R.AcceptedUpTo(tables, c.budgets, Cost(c, ctx.modelId, p), ctx, k)
    ensures LeadsTo(c, t, run, s, Reserved(c, s, t, tables, p, ctx))
  {
    var shares := Cost(c, ctx.modelId, p);
    S.RefusedNowhere(tables, c.budgets, shares, ctx);
    assert shares[..|shares|] == shares;
    assert Known(c, s, t) && s.tasks[t].pc == Reserving(p, |shares|);
    assert Apply(c, s, Advance(t, Proceed)) == Some(Move(s, t, Committing(p)));
    assert Move(s, t, Committing(p)) == Placed(s, t, Committing(p), R.After(tables, c.budgets, shares, ctx));
    run := [s, Reserved(c, s, t, tables, p, ctx)];
  }

  /** Where the refusal takes the task once everything is given back. */
  lemma RefusedWhere(tables: seq<R.Table>, budgets: seq<u64>, shares: seq<Share>, ctx: R.Context, p: Placement, k: nat)
    requires |tables| == |budgets| && k < |shares|
    requires R.AcceptedUpTo(tables, budgets, shares, ctx, k) && !R.AcceptedAt(tables, budgets, shares, ctx, k)
    ensures Outcome(R.SplitResult(tables, budgets, shares, ctx), p)
         == AfterRollBack(shares, RollingBack(p, k, k, shares[k].gpu < |tables|))
    ensures R.SplitTables(tables, budgets, shares, ctx)
         == R.Withdraw(R.After(tables, budgets, shares[..k], ctx), budgets, R.Devices(shares[..k]), ctx.modelId)
  {
    S.RefusedAt(tables, budgets, shares, ctx, k);
  }

  lemma RefusedAlone(c: Config, s: State, t: TaskId, tables: seq<R.Table>, p: Placement, ctx: R.Context, k: nat)
    returns (run: seq<State>)
    requires Reserves(c, s, t, tables, p, ctx, k) && k < |Cost(c, ctx.modelId, p)|
    requires R.AcceptedUpTo(tables, c.budgets, Cost(c, ctx.modelId, p), ctx, k)
    requires !R.AcceptedAt(tables, c.budgets, Cost(c, ctx.modelId, p), ctx, k)
    ensures LeadsTo(c, t, run, s, Reserved(c, s, t, tables, p, ctx))
  {
    var shares := Cost(c, ctx.modelId, p);
    var reached, full := R.After(tables, c.budgets, shares[..k], ctx), shares[k].gpu < |tables|;
    var s' := TurnsBack(c, s, t, tables, p, ctx, k);
    RefusedWhere(tables, c.budgets, shares, ctx, p, k);
    var rest := RollBackAlone(c, s', t, reached, p, ctx.modelId, 0, k, full);
    run := TurnFirst(c, s, s', t, tables, p, ctx, k, rest);
  }

  lemma TurnsBack(c: Config, s: State, t: TaskId, tables: seq<R.Table>, p: Placement, ctx: R.Context, k: nat)
    returns (s': State)
    requires Reserves(c, s, t, tables, p, ctx, k) && k < |Cost(c, ctx.modelId, p)|
    ensures var shares := Cost(c, ctx.modelId, p);
            var reached, full := R.After(tables, c.budgets, shares[..k], ctx), shares[k].gpu < |tables|;
            && s' == Placed(s, t, RollingBack(p, 0, k, full), reached)
            && RollsBack(c, s', t, reached, p, ctx.modelId, 0, k, full)
            && RolledBackTo(c, s', t, reached, p, ctx.modelId, k, full)
               == RolledBackTo(c, s, t, reached, p, ctx.modelId, k, full)
  {
    var shares := Cost(c, ctx.modelId, p);
    var reached, full := R.After(tables, c.budgets, shares[..k], ctx), shares[k].gpu < |tables|;
    s' := Placed(s, t, RollingBack(p, 0, k, full), reached);
    PlacedAgain(s, t, RollingBack(p, 0, k, full), reached);
    assert R.Devices(shares[..0]) == [];
  }

  lemma TurnFirst(c: Config, s: State, s': State, t: TaskId, tables: seq<R.Table>, p: Placement, ctx: R.Context,
                  k: nat, rest: seq<State>)
    returns (run: seq<State>)
    requires Reserves(c, s, t, tables, p, ctx, k) && k < |Cost(c, ctx.modelId, p)|
    requires !R.AcceptedAt(tables, c.budgets, Cost(c, ctx.modelId, p), ctx, k) && Alone(c, t, rest) && rest[0] == s'
    requires var shares := Cost(c, ctx.modelId, p);
             s' == Placed(s, t, RollingBack(p, 0, k, shares[k].gpu < |tables|),
                          R.After(tables, c.budgets, shares[..k], ctx))
    ensures LeadsTo(c, t, run, s, rest[|rest| - 1])
  {
    ReservesOne(c, s, t, tables, p, ctx, k);
    AloneFirst(c, t, s, rest);
    run := [s] + rest;
  }

  // ---------- looking for the most free device ----------

  /** What the scan compares is what the scheduler compares; ScanRun says that it takes
      the last device of those with most. */
  lemma ScansWhatSchedulerScans(c: Config, tables: seq<R.Table>)
    requires |tables| == |c.budgets|
    ensures Frees(c, CostTables(tables)) == S.FreesIn(tables, c.budgets)
    ensures tables != [] ==> S.LastLargest(S.FreesIn(tables, c.budgets), S.LargestAt(Frees(c, CostTables(tables))))
  {
    assert Frees(c, CostTables(tables)) == S.FreesIn(tables, c.budgets);
  }

  // ---------- picking victims ----------

  /** The device's resident set holds what the protocol's tables say, with the pins of
      the configuration and the live counters of the backends. */
  ghost predicate Mirrors(c: Config, s: State, g: GpuId, device: S.ResidentSet)
    reads *
  {
    && g < |s.entries| && device.loaded.Keys == s.entries[g].Keys
    && forall id :: id in device.loaded ==>
         && id in c.models && id in s.backends
         && device.loaded[id].costMb == s.entries[g][id]
         && device.loaded[id].pinned == c.models[id].pin
         && device.loaded[id].inFlight.value == s.backends[id].inFlight
  }

  lemma PickerSeesEligible(c: Config, s: State, g: GpuId, device: S.ResidentSet)
    requires Mirrors(c, s, g, device)
    ensures Eligible(c, s, g) == device.IdleCosts() == S.CandidateCosts(device.Eligible())
  {
  }

  /** A task picks on a device what the picker may answer there, by age or not, and gives
      up on it where the picker would: victims are entries of unpinned models with no
      request in flight that cost enough, and it gives up, where victims could be asked,
      exactly if all such entries together cost less or there are none. */
  lemma PicksLikePicker(c: Config, s: State, t: TaskId, device: S.ResidentSet, ids: seq<string>)
    requires Known(c, s, t) && s.tasks[t].pc.Picking? && Mirrors(c, s, s.tasks[t].pc.gpu, device)
    ensures S.LeastRecentlyUsedChoice(ids, device.Eligible(), s.tasks[t].pc.neededMb) ==>
              Apply(c, s, Advance(t, Victims(ids))) == Some(Move(s, t, Evicting(ids, false)))
    ensures Apply(c, s, Advance(t, Victims(ids))).Some? ==>
              && ids != [] && Distinct(ids) && s.tasks[t].pc.neededMb <= device.ReservedBy(ids)
              && forall i :: 0 <= i < |ids| ==>
                   ids[i] in device.loaded && !device.loaded[ids[i]].pinned && device.loaded[ids[i]].inFlight.value == 0
    ensures c.evictorBound ==>
              (Apply(c, s, Advance(t, GiveUp)).Some?
               <==> device.IdleCosts() == map[] || Sum(device.IdleCosts()) < s.tasks[t].pc.neededMb)
  {
    PickerSeesEligible(c, s, s.tasks[t].pc.gpu, device);
    PickSteps(c, s, t, ids);
    PickedEntries(device, ids, s.tasks[t].pc.neededMb);
  }

  /** Which choices a step allows. */
  lemma PickSteps(c: Config, s: State, t: TaskId, ids: seq<string>)
    requires Known(c, s, t) && s.tasks[t].pc.Picking?
    ensures var pc, costs := s.tasks[t].pc, Eligible(c, s, s.tasks[t].pc.gpu);
            && Apply(c, s, Advance(t, Victims(ids)))
               == (if Picks(ids, costs, pc.neededMb) then Some(Move(s, t, Evicting(ids, false))) else None)
            && (Apply(c, s, Advance(t, GiveUp)).Some? <==> Short(costs, pc.neededMb) || !c.evictorBound)
  {
  }

  lemma PickedEntries(device: S.ResidentSet, ids: seq<string>, neededMb: nat)
    requires device.IdleCosts() == S.CandidateCosts(device.Eligible())
    ensures S.LeastRecentlyUsedChoice(ids, device.Eligible(), neededMb) ==> Picks(ids, device.IdleCosts(), neededMb)
    ensures Picks(ids, device.IdleCosts(), neededMb) ==>
              && ids != [] && Distinct(ids) && neededMb <= device.ReservedBy(ids)
              && forall i :: 0 <= i < |ids| ==>
                   ids[i] in device.loaded && !device.loaded[ids[i]].pinned && device.loaded[ids[i]].inFlight.value == 0
  {
    if S.LeastRecentlyUsedChoice(ids, device.Eligible(), neededMb) {
      PickerPicks(ids, device.Eligible(), neededMb);
    }
    if Picks(ids, device.IdleCosts(), neededMb) {
      SameCost(ids, device.Eligible(), device.IdleCosts());
      device.ChosenReserved(ids);
    }
  }

  /** In every run nobody is using a victim at the moment it is picked. */
  lemma VictimsUnused(c: Config, steps: seq<Step>, t: TaskId, ids: seq<string>)
    requires Possible(c, steps) && t in After(c, steps).tasks && After(c, steps).tasks[t].pc.Picking?
    requires Apply(c, After(c, steps), Advance(t, Victims(ids))).Some?
    ensures var s := After(c, steps);
            forall i :: 0 <= i < |ids| ==>
              && s.tasks[t].pc.gpu < |s.entries| && ids[i] in s.entries[s.tasks[t].pc.gpu]
              && ids[i] in c.models && !c.models[ids[i]].pin && CountedFor(s.tasks, ids[i]) == {}
  {
    GuardsProtect(c, steps);
  }
}
