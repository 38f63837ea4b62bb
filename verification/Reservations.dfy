/** The reservation tables of the VRAM scheduler as values: what one device does
    with a reservation, what a multi-device attempt does in order, and what the
    rollback leaves behind (src/engine/scheduling.rs). The classes of module
    Scheduling are proved against these functions. */
module Reservations {
  import opened Wrappers
  import opened MapSums
  import opened Placements

  /** An atomic counter held through a shared handle. */
  class Counter {
    var value: nat

    constructor (v: nat)
      ensures value == v
    {
      value := v;
    }
  }

  datatype Entry = Entry(costMb: u64, lastUsedMs: Counter, inFlight: Counter, pinned: bool)

  type Table = map<string, Entry>

  datatype Context = Context(modelId: string, pinned: bool, lastUsedMs: Counter, inFlight: Counter)

  datatype ResidentError = OverBudget(modelId: string, requestedMb: u64, currentMb: nat, budgetMb: u64)

  datatype SchedulerError =
    | DeviceOverBudget(gpu: GpuId, cause: ResidentError)
    | UnknownGpu(gpu: GpuId)

  function Costs(t: Table): map<string, nat> {
    map id | id in t :: t[id].costMb
  }

  ghost function Reserved(t: Table): nat {
    Sum(Costs(t))
  }

  function SaturatingAdd(a: nat, b: nat): nat {
    if a + b > U64_MAX then U64_MAX else a + b
  }

  /** The saturating comparison is the true one except when the budget is the
      largest representable number, and then it never refuses. */
  lemma SaturatingCheckIsExact(current: nat, cost: nat, budget: u64)
    ensures SaturatingAdd(current, cost) <= budget <==> (current + cost <= budget || budget == U64_MAX)
  {
  }

  ghost predicate Fits(t: Table, budgetMb: u64, costMb: u64) {
    SaturatingAdd(Reserved(t), costMb) <= budgetMb
  }

  /** Budget 0 switches accounting off; the largest budget defeats the check. */
  ghost predicate WithinBudget(t: Table, budgetMb: u64) {
    && (budgetMb == 0 ==> t == map[])
    && (0 < budgetMb < U64_MAX ==> Reserved(t) <= budgetMb)
  }

  function NewEntry(costMb: u64, ctx: Context): Entry {
    Entry(costMb, ctx.lastUsedMs, ctx.inFlight, ctx.pinned)
  }

  /** One device accepts: accounting is off, the model is already resident, or it fits. */
  ghost predicate Admits(t: Table, budgetMb: u64, costMb: u64, id: string) {
    budgetMb == 0 || id in t || Fits(t, budgetMb, costMb)
  }

  /** What an accepted reservation makes of the table; a repeated one keeps the
      recorded cost and refreshes the handles and the pin. */
  function Admit(t: Table, budgetMb: u64, costMb: u64, ctx: Context): Table {
    if budgetMb == 0 then t
    else if ctx.modelId in t then t[ctx.modelId := NewEntry(t[ctx.modelId].costMb, ctx)]
    else t[ctx.modelId := NewEntry(costMb, ctx)]
  }

  lemma AdmitNewCost(t: Table, costMb: u64, ctx: Context)
    requires ctx.modelId !in t
    ensures Reserved(t[ctx.modelId := NewEntry(costMb, ctx)]) == Reserved(t) + costMb
  {
    assert Costs(t[ctx.modelId := NewEntry(costMb, ctx)]) == Costs(t)[ctx.modelId := costMb];
    SumInsert(Costs(t), ctx.modelId, costMb);
  }

  lemma AdmitKeepsBudget(t: Table, budgetMb: u64, costMb: u64, ctx: Context)
    requires WithinBudget(t, budgetMb) && Admits(t, budgetMb, costMb, ctx.modelId)
    ensures WithinBudget(Admit(t, budgetMb, costMb, ctx), budgetMb)
  {
    if budgetMb != 0 {
      if ctx.modelId in t {
        assert Costs(Admit(t, budgetMb, costMb, ctx)) == Costs(t);
      } else {
        AdmitNewCost(t, costMb, ctx);
      }
    }
  }

  lemma RemovalKeepsBudget(t: Table, budgetMb: u64, id: string)
    requires WithinBudget(t, budgetMb)
    ensures WithinBudget(t - {id}, budgetMb)
    ensures Reserved(t - {id}) == Reserved(t) - (if id in t then t[id].costMb else 0)
  {
    if id in t {
      SumRemove(Costs(t), id);
      assert Costs(t - {id}) == Costs(t) - {id};
    } else {
      assert t - {id} == t;
    }
  }

  // ---------- the multi-device attempt, share by share ----------

  ghost predicate Accepts(tables: seq<Table>, budgets: seq<u64>, share: Share, id: string)
    requires |tables| == |budgets|
  {
    share.gpu < |tables| && Admits(tables[share.gpu], budgets[share.gpu], share.costMb, id)
  }

  /** The tables once every share has been reserved, in order. */
  function After(tables: seq<Table>, budgets: seq<u64>, shares: seq<Share>, ctx: Context): (after: seq<Table>)
    requires |tables| == |budgets|
    ensures |after| == |tables|
  {
    if shares == [] then tables
    else
      var t := After(tables, budgets, shares[..|shares| - 1], ctx);
      var s := shares[|shares| - 1];
      if s.gpu < |t| then t[s.gpu := Admit(t[s.gpu], budgets[s.gpu], s.costMb, ctx)] else t
  }

  /** The first k shares are accepted one after the other. */
  ghost predicate AcceptedUpTo(tables: seq<Table>, budgets: seq<u64>, shares: seq<Share>, ctx: Context, k: nat)
    requires |tables| == |budgets| && k <= |shares|
  {
    forall i :: 0 <= i < k ==> AcceptedAt(tables, budgets, shares, ctx, i)
  }

  ghost predicate AcceptedAt(tables: seq<Table>, budgets: seq<u64>, shares: seq<Share>, ctx: Context, i: nat)
    requires |tables| == |budgets| && i < |shares|
  {
    Accepts(After(tables, budgets, shares[..i], ctx), budgets, shares[i], ctx.modelId)
  }

  /** Index of the first share its device refuses; the number of shares if none does. */
  ghost function Refusal(tables: seq<Table>, budgets: seq<u64>, shares: seq<Share>, ctx: Context): (k: nat)
    requires |tables| == |budgets|
    ensures k <= |shares|
  {
    if shares == [] then 0
    else
      var n := |shares| - 1;
      var k := Refusal(tables, budgets, shares[..n], ctx);
      if k < n then k
      else if AcceptedAt(tables, budgets, shares, ctx, n) then n + 1
      else n
  }

  lemma {:induction false} RefusalFacts(tables: seq<Table>, budgets: seq<u64>, shares: seq<Share>, ctx: Context)
    requires |tables| == |budgets|
    ensures var k := Refusal(tables, budgets, shares, ctx);
            && AcceptedUpTo(tables, budgets, shares, ctx, k)
            && (k < |shares| ==> !AcceptedAt(tables, budgets, shares, ctx, k))
  {
    if shares != [] {
      var n := |shares| - 1;
      RefusalFacts(tables, budgets, shares[..n], ctx);
      forall i | 0 <= i < n
        ensures AcceptedAt(tables, budgets, shares[..n], ctx, i) == AcceptedAt(tables, budgets, shares, ctx, i)
      {
        assert shares[..n][..i] == shares[..i];
      }
    }
  }

  lemma RefusalUnique(tables: seq<Table>, budgets: seq<u64>, shares: seq<Share>, ctx: Context, k: nat)
    requires |tables| == |budgets| && k <= |shares|
    requires AcceptedUpTo(tables, budgets, shares, ctx, k)
    requires k < |shares| ==> !AcceptedAt(tables, budgets, shares, ctx, k)
    ensures Refusal(tables, budgets, shares, ctx) == k
  {
    RefusalFacts(tables, budgets, shares, ctx);
  }

  /** The release loop: drop the model from each listed device that keeps accounts. */
  function Withdraw(tables: seq<Table>, budgets: seq<u64>, gpus: seq<GpuId>, id: string): (after: seq<Table>)
    requires |tables| == |budgets|
    ensures |after| == |tables|
  {
    if gpus == [] then tables
    else
      var t := Withdraw(tables, budgets, gpus[..|gpus| - 1], id);
      var g := gpus[|gpus| - 1];
      if g < |t| && budgets[g] != 0 then t[g := t[g] - {id}] else t
  }

  function Devices(shares: seq<Share>): (gs: seq<GpuId>)
    ensures |gs| == |shares|
    ensures forall i :: 0 <= i < |gs| ==> gs[i] == shares[i].gpu
  {
    seq(|shares|, i requires 0 <= i < |shares| => shares[i].gpu)
  }

  /** The tables an attempt leaves behind, rollback included. */
  ghost function SplitTables(tables: seq<Table>, budgets: seq<u64>, shares: seq<Share>,
                             ctx: Context): (after: seq<Table>)
    requires |tables| == |budgets|
    ensures |after| == |tables|
  {
    var k := Refusal(tables, budgets, shares, ctx);
    if k == |shares| then After(tables, budgets, shares, ctx)
    else Withdraw(After(tables, budgets, shares[..k], ctx), budgets, Devices(shares[..k]), ctx.modelId)
  }

  ghost function RefusalError(tables: seq<Table>, budgets: seq<u64>, share: Share, id: string): SchedulerError
    requires |tables| == |budgets|
  {
    if share.gpu >= |tables| then UnknownGpu(share.gpu)
    else DeviceOverBudget(share.gpu,
                          OverBudget(id, share.costMb, Reserved(tables[share.gpu]), budgets[share.gpu]))
  }

  ghost function SplitResult(tables: seq<Table>, budgets: seq<u64>, shares: seq<Share>, ctx: Context)
    : Result<(), SchedulerError>
    requires |tables| == |budgets|
  {
    var k := Refusal(tables, budgets, shares, ctx);
    if k == |shares| then Ok(())
    else Err(RefusalError(After(tables, budgets, shares[..k], ctx), budgets, shares[k], ctx.modelId))
  }

  // ---------- pointwise views ----------

  /** Reserving touches no other model anywhere and no device outside the shares. */
  lemma {:induction false} AfterAt(tables: seq<Table>, budgets: seq<u64>, shares: seq<Share>, ctx: Context, g: GpuId)
    requires |tables| == |budgets| && g < |tables|
    ensures After(tables, budgets, shares, ctx)[g] - {ctx.modelId} == tables[g] - {ctx.modelId}
    ensures budgets[g] == 0 || g !in Devices(shares) ==> After(tables, budgets, shares, ctx)[g] == tables[g]
  {
    if shares != [] {
      var n := |shares| - 1;
      AfterAt(tables, budgets, shares[..n], ctx, g);
      assert Devices(shares) == Devices(shares[..n]) + [shares[n].gpu];
    }
  }

  lemma {:induction false} WithdrawAt(tables: seq<Table>, budgets: seq<u64>, gpus: seq<GpuId>, id: string, g: GpuId)
    requires |tables| == |budgets| && g < |tables|
    ensures Withdraw(tables, budgets, gpus, id)[g]
         == if budgets[g] != 0 && g in gpus then tables[g] - {id} else tables[g]
  {
    if gpus != [] {
      var n := |gpus| - 1;
      WithdrawAt(tables, budgets, gpus[..n], id, g);
      assert gpus == gpus[..n] + [gpus[n]];
    }
  }

  /** No device tried before the refusal, with accounting on, already held the model. */
  ghost predicate FreshBefore(tables: seq<Table>, budgets: seq<u64>, shares: seq<Share>, k: nat, id: string)
    requires |tables| == |budgets| && k <= |shares|
  {
    forall i :: 0 <= i < k && shares[i].gpu < |tables| && budgets[shares[i].gpu] != 0 ==>
      id !in tables[shares[i].gpu]
  }

  /** All or nothing, exactly: a refused attempt puts every table back if and only
      if the model was not already resident on a device tried before the refusal.
      (The rollback also drops an entry that was there before the attempt.) */
  lemma RollbackRestores(tables: seq<Table>, budgets: seq<u64>, shares: seq<Share>, ctx: Context)
    requires |tables| == |budgets|
    requires SplitResult(tables, budgets, shares, ctx).Err?
    ensures SplitTables(tables, budgets, shares, ctx) == tables
       <==> FreshBefore(tables, budgets, shares, Refusal(tables, budgets, shares, ctx), ctx.modelId)
  {
    var k := Refusal(tables, budgets, shares, ctx);
    var left := SplitTables(tables, budgets, shares, ctx);
    RollbackWithdraws(tables, budgets, shares, ctx);
    if FreshBefore(tables, budgets, shares, k, ctx.modelId) {
      forall g | 0 <= g < |tables|
        ensures left[g] == tables[g]
      {
        if budgets[g] != 0 && g in Devices(shares[..k]) {
          FreshDeviceKept(tables, budgets, shares, k, ctx.modelId, g);
        }
      }
    } else {
      var i :| 0 <= i < k && shares[i].gpu < |tables| && budgets[shares[i].gpu] != 0
               && ctx.modelId in tables[shares[i].gpu];
      assert Devices(shares[..k])[i] == shares[i].gpu;
    }
  }

  /** What a refused attempt leaves: the model gone from every device it had tried. */
  lemma RollbackWithdraws(tables: seq<Table>, budgets: seq<u64>, shares: seq<Share>, ctx: Context)
    requires |tables| == |budgets|
    requires SplitResult(tables, budgets, shares, ctx).Err?
    ensures var k := Refusal(tables, budgets, shares, ctx);
            forall g :: 0 <= g < |tables| ==>
              SplitTables(tables, budgets, shares, ctx)[g]
              == if budgets[g] != 0 && g in Devices(shares[..k]) then tables[g] - {ctx.modelId} else tables[g]
  {
    var k := Refusal(tables, budgets, shares, ctx);
    forall g | 0 <= g < |tables|
      ensures SplitTables(tables, budgets, shares, ctx)[g]
           == if budgets[g] != 0 && g in Devices(shares[..k]) then tables[g] - {ctx.modelId} else tables[g]
    {
      AfterAt(tables, budgets, shares[..k], ctx, g);
      WithdrawAt(After(tables, budgets, shares[..k], ctx), budgets, Devices(shares[..k]), ctx.modelId, g);
    }
  }

  lemma FreshDeviceKept(tables: seq<Table>, budgets: seq<u64>, shares: seq<Share>, k: nat, id: string, g: GpuId)
    requires |tables| == |budgets| && k <= |shares| && g < |tables|
    requires FreshBefore(tables, budgets, shares, k, id)
    requires budgets[g] != 0 && g in Devices(shares[..k])
    ensures tables[g] - {id} == tables[g]
  {
    var i :| 0 <= i < k && Devices(shares[..k])[i] == g;
    assert shares[i].gpu == g;
  }

  // ---------- a model that is resident nowhere, on distinct devices ----------

  ghost predicate NotResident(tables: seq<Table>, id: string) {
    forall g :: 0 <= g < |tables| ==> id !in tables[g]
  }

  /** The share's device exists and has room in the tables as they stand. */
  ghost predicate HasRoom(tables: seq<Table>, budgets: seq<u64>, share: Share)
    requires |tables| == |budgets|
  {
    share.gpu < |tables| && (budgets[share.gpu] == 0 || Fits(tables[share.gpu], budgets[share.gpu], share.costMb))
  }

  lemma LaterDeviceIsNew(shares: seq<Share>, i: nat)
    requires i < |shares| && Distinct(Devices(shares))
    ensures shares[i].gpu !in Devices(shares[..i])
  {
    assert forall j :: 0 <= j < i ==> Devices(shares[..i])[j] == Devices(shares)[j];
    assert Devices(shares)[i] == shares[i].gpu;
  }

  /** Since every device appears once, each one decides on its own table alone. */
  lemma AcceptsIsRoom(tables: seq<Table>, budgets: seq<u64>, shares: seq<Share>, ctx: Context, i: nat)
    requires |tables| == |budgets| && i < |shares|
    requires NotResident(tables, ctx.modelId) && Distinct(Devices(shares))
    ensures AcceptedAt(tables, budgets, shares, ctx, i) <==> HasRoom(tables, budgets, shares[i])
  {
    var g := shares[i].gpu;
    if g < |tables| {
      AfterAt(tables, budgets, shares[..i], ctx, g);
      LaterDeviceIsNew(shares, i);
    }
  }

  /** A split reservation of a non-resident model succeeds exactly when every
      device has room, and a refusal names the first device that has none. */
  lemma SplitSucceedsIffRoom(tables: seq<Table>, budgets: seq<u64>, shares: seq<Share>, ctx: Context)
    requires |tables| == |budgets|
    requires NotResident(tables, ctx.modelId) && Distinct(Devices(shares))
    ensures SplitResult(tables, budgets, shares, ctx).Ok?
       <==> forall i :: 0 <= i < |shares| ==> HasRoom(tables, budgets, shares[i])
    ensures var k := Refusal(tables, budgets, shares, ctx);
            && (forall i :: 0 <= i < k ==> HasRoom(tables, budgets, shares[i]))
            && (k < |shares| ==> !HasRoom(tables, budgets, shares[k]))
    ensures SplitResult(tables, budgets, shares, ctx).Err? ==> SplitTables(tables, budgets, shares, ctx) == tables
  {
    RefusalFacts(tables, budgets, shares, ctx);
    forall i | 0 <= i < |shares|
      ensures AcceptedAt(tables, budgets, shares, ctx, i) <==> HasRoom(tables, budgets, shares[i])
    {
      AcceptsIsRoom(tables, budgets, shares, ctx, i);
    }
    if SplitResult(tables, budgets, shares, ctx).Err? {
      RollbackRestores(tables, budgets, shares, ctx);
    }
  }

  /** After a success, each accounting device of the split holds an entry of
      exactly its share and every other table is untouched. */
  lemma {:induction false} AfterHolds(tables: seq<Table>, budgets: seq<u64>, shares: seq<Share>, ctx: Context, i: nat)
    requires |tables| == |budgets| && i < |shares| && shares[i].gpu < |tables|
    requires NotResident(tables, ctx.modelId) && Distinct(Devices(shares))
    ensures budgets[shares[i].gpu] != 0 ==>
              (After(tables, budgets, shares, ctx)[shares[i].gpu]
               == tables[shares[i].gpu][ctx.modelId := NewEntry(shares[i].costMb, ctx)])
    decreases |shares|
  {
    var n := |shares| - 1;
    var g := shares[i].gpu;
    var front := shares[..n];
    assert Devices(front) == Devices(shares)[..n];
    if i < n {
      AfterHolds(tables, budgets, front, ctx, i);
      assert Devices(shares)[i] != Devices(shares)[n];
    } else {
      LaterDeviceIsNew(shares, n);
      AfterAt(tables, budgets, front, ctx, g);
    }
  }

  /** The cost of the first share on a device. */
  function CostOn(shares: seq<Share>, gpu: GpuId): u64
    requires gpu in Devices(shares)
  {
    if shares[0].gpu == gpu then shares[0].costMb
    else
      assert Devices(shares)[1..] == Devices(shares[1..]);
      CostOn(shares[1..], gpu)
  }

  lemma {:induction false} CostOnDistinct(shares: seq<Share>, k: nat)
    requires k < |shares| && Distinct(Devices(shares))
    ensures shares[k].gpu in Devices(shares) && CostOn(shares, shares[k].gpu) == shares[k].costMb
    decreases k
  {
    assert Devices(shares)[k] == shares[k].gpu;
    assert Devices(shares)[1..] == Devices(shares[1..]);
    if k > 0 {
      assert Devices(shares)[0] != Devices(shares)[k];
      CostOnDistinct(shares[1..], k - 1);
    }
  }

  // ---------- conservation ----------

  ghost function GrandTotal(tables: seq<Table>): nat {
    if tables == [] then 0 else GrandTotal(tables[..|tables| - 1]) + Reserved(tables[|tables| - 1])
  }

  lemma {:induction false} GrandTotalUpdate(tables: seq<Table>, g: nat, t: Table)
    requires g < |tables|
    ensures GrandTotal(tables[g := t]) + Reserved(tables[g]) == GrandTotal(tables) + Reserved(t)
  {
    var n := |tables| - 1;
    if g == n {
      assert tables[g := t][..n] == tables[..n];
    } else {
      GrandTotalUpdate(tables[..n], g, t);
      assert tables[g := t][..n] == tables[..n][g := t];
    }
  }

  lemma {:induction false} SharesAreAdded(tables: seq<Table>, budgets: seq<u64>, shares: seq<Share>, ctx: Context)
    requires |tables| == |budgets|
    requires NotResident(tables, ctx.modelId) && Distinct(Devices(shares))
    requires forall i :: 0 <= i < |shares| ==> shares[i].gpu < |tables| && budgets[shares[i].gpu] != 0
    ensures GrandTotal(After(tables, budgets, shares, ctx)) == GrandTotal(tables) + TotalCost(shares)
  {
    if shares != [] {
      var n := |shares| - 1;
      var front := shares[..n];
      var g := shares[n].gpu;
      assert Devices(front) == Devices(shares)[..n];
      SharesAreAdded(tables, budgets, front, ctx);
      var t := After(tables, budgets, front, ctx);
      LaterDeviceIsNew(shares, n);
      AfterAt(tables, budgets, front, ctx, g);
      AdmitNewCost(t[g], shares[n].costMb, ctx);
      GrandTotalUpdate(t, g, t[g][ctx.modelId := NewEntry(shares[n].costMb, ctx)]);
    }
  }

  /** Conservation: on accounting devices a successful reservation of a
      non-resident model raises the sum of all totals by exactly the requested
      megabytes, however many devices the placement spans. */
  lemma ReservationAddsRequest(tables: seq<Table>, budgets: seq<u64>, p: Placement, totalMb: u64, ctx: Context)
    requires |tables| == |budgets| && p.WellFormed() && Distinct(p.Gpus())
    requires NotResident(tables, ctx.modelId)
    requires forall g :: 0 <= g < |budgets| ==> budgets[g] != 0
    requires SplitResult(tables, budgets, p.PerDeviceCost(totalMb), ctx).Ok?
    ensures GrandTotal(SplitTables(tables, budgets, p.PerDeviceCost(totalMb), ctx)) == GrandTotal(tables) + totalMb
  {
    var shares := p.PerDeviceCost(totalMb);
    assert Devices(shares) == p.Gpus();
    SplitSucceedsIffRoom(tables, budgets, shares, ctx);
    SharesAreAdded(tables, budgets, shares, ctx);
    SharesAddUp(p, totalMb);
  }
}
