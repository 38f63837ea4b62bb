/** Start-up orders in which automatically placed models come between the others:
    each takes the device with the most free budget at its turn, which validation
    cannot foresee (src/config.rs against src/engine/scheduling.rs). A start with
    automatic models is one in which they had been pinned to what they got. */
module AutomaticPlacement {
  import opened Wrappers
  import opened MapSums
  import opened Placements
  import opened Reservations
  import opened Scheduling
  import opened Admission
  import opened AdmissionSoundness

  // ---------- the device an automatic model gets ----------

  /** The last of those with the most free budget. */
  ghost function MostFreeDevice(tables: seq<Table>, budgets: seq<u64>): (gpu: GpuId)
    requires |tables| == |budgets|
    ensures budgets != [] ==> gpu < |budgets|
  {
    LargestAt(FreesIn(tables, budgets))
  }

  /** It is the device the scheduler picks. */
  lemma PickedDevice(s: Scheduler, gpu: GpuId)
    requires s.Valid() && s.MostFree(gpu)
    ensures gpu == MostFreeDevice(s.Tables(), s.Budgets())
  {
    LastLargestUnique(FreesIn(s.Tables(), s.Budgets()), gpu);
  }

  // ---------- starting models of both kinds ----------

  /** Positions of selected models with known estimates, each at most once. */
  ghost predicate StartOrder(models: seq<ModelConfig>, sel: Selection, order: seq<nat>) {
    Distinct(order) && forall k :: 0 <= k < |order| ==> order[k] < |models| && Startable(models[order[k]], sel)
  }

  predicate Startable(m: ModelConfig, sel: Selection) {
    Selected(m, sel) && EstimateVramMb(m).Some?
  }

  ghost predicate AllStarted(models: seq<ModelConfig>, sel: Selection, order: seq<nat>) {
    forall i :: 0 <= i < |models| && Startable(models[i], sel) ==> i in order
  }

  function PinnedTo(m: ModelConfig, gpu: GpuId): ModelConfig {
    m.(gpus := [gpu])
  }

  /** The model with the devices it gets when its turn comes. */
  ghost function AtItsTurn(m: ModelConfig, tables: seq<Table>, budgets: seq<u64>): ModelConfig
    requires |tables| == |budgets|
  {
    if m.gpus != [] then m else PinnedTo(m, MostFreeDevice(tables, budgets))
  }

  /** The tables after starting the models in this order; None if any is refused. */
  ghost function StartInOrder(models: seq<ModelConfig>, sel: Selection, ctxs: seq<Context>,
                              budgets: seq<u64>, order: seq<nat>): (r: Option<seq<Table>>)
    requires Contexts(models, ctxs) && StartOrder(models, sel, order)
    ensures r.Some? ==> |r.value| == |budgets|
  {
    if order == [] then Some(seq(|budgets|, _ => map[]))
    else
      var n := |order| - 1;
      match StartInOrder(models, sel, ctxs, budgets, order[..n])
      case None => None
      case Some(tables) =>
        var shares := SharesOf(AtItsTurn(models[order[n]], tables, budgets));
        if budgets == [] && models[order[n]].gpus == [] then None // there is no device to choose
        else if SplitResult(tables, budgets, shares, ctxs[order[n]]).Ok?
        then Some(SplitTables(tables, budgets, shares, ctxs[order[n]]))
        else None
  }

  // ---------- the same start with the automatic models pinned ----------

  ghost predicate PinnedModel(m: ModelConfig, pinned: ModelConfig) {
    pinned == m || (m.gpus == [] && |pinned.gpus| == 1 && pinned == PinnedTo(m, pinned.gpus[0]))
  }

  /** The models with some of the automatic ones pinned to a device. */
  ghost predicate PinnedFrom(models: seq<ModelConfig>, pinned: seq<ModelConfig>) {
    |pinned| == |models| && forall i :: 0 <= i < |models| ==> PinnedModel(models[i], pinned[i])
  }

  /** Exactly the models of the order have been pinned. */
  ghost predicate PinnedInOrder(models: seq<ModelConfig>, pinned: seq<ModelConfig>, order: seq<nat>) {
    && PinnedFrom(models, pinned)
    && (forall k :: 0 <= k < |order| ==> order[k] < |models| && pinned[order[k]].gpus != [])
    && (forall i :: 0 <= i < |models| && i !in order ==> pinned[i] == models[i])
  }

  ghost predicate PinsExist(models: seq<ModelConfig>, pinned: seq<ModelConfig>, budgets: seq<u64>)
    requires |pinned| == |models|
  {
    budgets != [] ==>
      forall i :: 0 <= i < |models| && models[i].gpus == [] && pinned[i].gpus != [] ==> pinned[i].gpus[0] < |budgets|
  }

  /** What has been reserved depends on the models of the order only. */
  lemma {:induction false} SameAlongOrder(models: seq<ModelConfig>, others: seq<ModelConfig>, sel: Selection,
                                          ctxs: seq<Context>, budgets: seq<u64>, order: seq<nat>)
    requires Contexts(models, ctxs) && OrderOf(models, sel, order)
    requires Contexts(others, ctxs) && OrderOf(others, sel, order)
    requires forall k :: 0 <= k < |order| ==> models[order[k]] == others[order[k]]
    ensures ReserveInOrder(models, sel, ctxs, budgets, order) == ReserveInOrder(others, sel, ctxs, budgets, order)
    decreases |order|
  {
    if order != [] {
      SameAlongOrder(models, others, sel, ctxs, budgets, order[..|order| - 1]);
    }
  }

  /** Every start is a start of explicitly placed models: those of the order, each
      automatic one pinned to the device it found most free. */
  lemma {:induction false} StartsAsPinned(models: seq<ModelConfig>, sel: Selection, ctxs: seq<Context>,
                                          budgets: seq<u64>, order: seq<nat>)
    returns (pinned: seq<ModelConfig>)
    requires Contexts(models, ctxs) && StartOrder(models, sel, order)
    ensures PinnedInOrder(models, pinned, order) && PinsExist(models, pinned, budgets)
    ensures Contexts(pinned, ctxs) && OrderOf(pinned, sel, order)
    ensures StartInOrder(models, sel, ctxs, budgets, order) == ReserveInOrder(pinned, sel, ctxs, budgets, order)
    ensures order != [] ==> pinned[order[0]] == AtItsTurn(models[order[0]], seq(|budgets|, _ => map[]), budgets)
    decreases |order|
  {
    if order == [] {
      pinned := models;
    } else {
      var n := |order| - 1;
      var front := StartsAsPinned(models, sel, ctxs, budgets, order[..n]);
      pinned := PinLast(models, front, sel, ctxs, budgets, order);
    }
  }

  /** Pin the last model of the order, the others being pinned already. */
  lemma PinLast(models: seq<ModelConfig>, front: seq<ModelConfig>, sel: Selection, ctxs: seq<Context>,
                budgets: seq<u64>, order: seq<nat>)
    returns (pinned: seq<ModelConfig>)
    requires Contexts(models, ctxs) && StartOrder(models, sel, order) && order != []
    requires StartOrder(models, sel, order[..|order| - 1])
    requires PinnedInOrder(models, front, order[..|order| - 1]) && PinsExist(models, front, budgets)
    requires Contexts(front, ctxs) && OrderOf(front, sel, order[..|order| - 1])
    requires StartInOrder(models, sel, ctxs, budgets, order[..|order| - 1])
          == ReserveInOrder(front, sel, ctxs, budgets, order[..|order| - 1])
    ensures PinnedInOrder(models, pinned, order) && PinsExist(models, pinned, budgets)
    ensures Contexts(pinned, ctxs) && OrderOf(pinned, sel, order)
    ensures StartInOrder(models, sel, ctxs, budgets, order) == ReserveInOrder(pinned, sel, ctxs, budgets, order)
    ensures if |order| == 1 then pinned[order[0]] == AtItsTurn(models[order[0]], seq(|budgets|, _ => map[]), budgets)
            else pinned[order[0]] == front[order[0]]
  {
    var n := |order| - 1;
    var tables := TablesSoFar(models, sel, ctxs, budgets, order[..n]);
    var last := AtItsTurn(models[order[n]], tables, budgets);
    pinned := front[order[n] := last];
    PinOneMore(models, front, sel, budgets, order, last);
    StartsAfterFront(models, front, pinned, sel, ctxs, budgets, order, order[..n], tables);
  }

  lemma StartsAfterFront(models: seq<ModelConfig>, front: seq<ModelConfig>, pinned: seq<ModelConfig>, sel: Selection,
                         ctxs: seq<Context>, budgets: seq<u64>, order: seq<nat>, less: seq<nat>, tables: seq<Table>)
    requires Contexts(models, ctxs) && Contexts(front, ctxs) && Contexts(pinned, ctxs)
    requires StartOrder(models, sel, order) && order != [] && less == order[..|order| - 1]
    requires StartOrder(models, sel, less)
    requires OrderOf(front, sel, less) && OrderOf(pinned, sel, order)
    requires StartInOrder(models, sel, ctxs, budgets, less) == ReserveInOrder(front, sel, ctxs, budgets, less)
    requires tables == TablesSoFar(models, sel, ctxs, budgets, less)
    requires forall k :: 0 <= k < |less| ==> pinned[less[k]] == front[less[k]]
    requires pinned[order[|order| - 1]] == AtItsTurn(models[order[|order| - 1]], tables, budgets)
    ensures StartInOrder(models, sel, ctxs, budgets, order) == ReserveInOrder(pinned, sel, ctxs, budgets, order)
  {
    SameAlongOrder(front, pinned, sel, ctxs, budgets, less);
    StartsLast(models, pinned, sel, ctxs, budgets, order, tables);
  }

  ghost function TablesSoFar(models: seq<ModelConfig>, sel: Selection, ctxs: seq<Context>, budgets: seq<u64>,
                             order: seq<nat>): (tables: seq<Table>)
    requires Contexts(models, ctxs) && StartOrder(models, sel, order)
    ensures |tables| == |budgets|
    ensures order == [] ==> tables == seq(|budgets|, _ => map[])
  {
    var r := StartInOrder(models, sel, ctxs, budgets, order);
    if r.Some? then r.value else seq(|budgets|, _ => map[])
  }

  /** The last model of the order starts as its pinned form does. */
  lemma StartsLast(models: seq<ModelConfig>, pinned: seq<ModelConfig>, sel: Selection, ctxs: seq<Context>,
                   budgets: seq<u64>, order: seq<nat>, tables: seq<Table>)
    requires Contexts(models, ctxs) && StartOrder(models, sel, order) && order != []
    requires Contexts(pinned, ctxs) && OrderOf(pinned, sel, order) && |tables| == |budgets|
    requires StartOrder(models, sel, order[..|order| - 1]) && OrderOf(pinned, sel, order[..|order| - 1])
    requires var before := StartInOrder(models, sel, ctxs, budgets, order[..|order| - 1]);
             && before == ReserveInOrder(pinned, sel, ctxs, budgets, order[..|order| - 1])
             && (before.Some? ==> before.value == tables)
    requires pinned[order[|order| - 1]] == AtItsTurn(models[order[|order| - 1]], tables, budgets)
    ensures StartInOrder(models, sel, ctxs, budgets, order) == ReserveInOrder(pinned, sel, ctxs, budgets, order)
  {
    if budgets == [] {
      NoDeviceNoRoom(SharesOf(pinned[order[|order| - 1]]), ctxs[order[|order| - 1]]);
    }
  }

  lemma PinOneMore(models: seq<ModelConfig>, front: seq<ModelConfig>, sel: Selection, budgets: seq<u64>,
                   order: seq<nat>, last: ModelConfig)
    requires StartOrder(models, sel, order) && order != []
    requires PinnedInOrder(models, front, order[..|order| - 1]) && OrderOf(front, sel, order[..|order| - 1])
    requires PinsExist(models, front, budgets)
    requires PinnedModel(models[order[|order| - 1]], last) && last.gpus != []
    requires models[order[|order| - 1]].gpus == [] && budgets != [] ==> last.gpus[0] < |budgets|
    ensures PinnedInOrder(models, front[order[|order| - 1] := last], order)
    ensures PinsExist(models, front[order[|order| - 1] := last], budgets)
    ensures OrderOf(front[order[|order| - 1] := last], sel, order)
    ensures forall k :: 0 <= k < |order| - 1 ==>
              order[k] == order[..|order| - 1][k] && front[order[|order| - 1] := last][order[k]] == front[order[k]]
  {
    var n := |order| - 1;
    var pinned := front[order[n] := last];
    forall k | 0 <= k < |order|
      ensures pinned[order[k]].gpus != [] && Placed(pinned[order[k]], sel)
    {
      if k < n {
        assert order[..n][k] == order[k];
      }
    }
    forall i | 0 <= i < |models| && i !in order
      ensures pinned[i] == models[i]
    {
      assert order[n] in order;
      assert i !in order[..n];
    }
  }

  lemma NoDeviceNoRoom(shares: seq<Share>, ctx: Context)
    requires shares != []
    ensures SplitResult([], [], shares, ctx).Err?
  {
    RefusalFacts([], [], shares, ctx);
    assert !AcceptedAt([], [], shares, ctx, 0);
  }

  // ---------- loads with and without the pins ----------

  /** Estimates of the selected models without devices. */
  ghost function AutomaticTotal(models: seq<ModelConfig>, sel: Selection): nat {
    if models == [] then 0
    else
      var m := models[|models| - 1];
      AutomaticTotal(models[..|models| - 1], sel)
      + if Startable(m, sel) && m.gpus == [] then EstimateVramMb(m).value else 0
  }

  lemma PinnedCost(m: ModelConfig, gpu: GpuId)
    requires EstimateVramMb(m).Some?
    ensures SharesOf(PinnedTo(m, gpu)) == [Share(gpu, EstimateVramMb(m).value)]
    ensures Devices(SharesOf(PinnedTo(m, gpu))) == [gpu]
    ensures CostOn(SharesOf(PinnedTo(m, gpu)), gpu) == EstimateVramMb(m).value
  {
    assert EstimateVramMb(PinnedTo(m, gpu)) == EstimateVramMb(m);
  }

  /** What one model puts on a device. */
  function Put(m: ModelConfig, sel: Selection, g: GpuId): nat {
    if Placed(m, sel) && g in m.gpus then CostOn(SharesOf(m), g) else 0
  }

  lemma LoadOfLast(models: seq<ModelConfig>, sel: Selection, g: GpuId)
    requires DistinctIds(models) && models != []
    ensures Sum(LoadOn(models, sel, g))
            == Sum(LoadOn(models[..|models| - 1], sel, g)) + Put(models[|models| - 1], sel, g)
  {
    var n := |models| - 1;
    NewId(models, sel, n, g);
    if Placed(models[n], sel) && g in models[n].gpus {
      SumInsert(LoadOn(models[..n], sel, g), models[n].id, CostOn(SharesOf(models[n]), g));
    }
  }

  lemma PutPinned(m: ModelConfig, sel: Selection, gpu: GpuId, g: GpuId)
    requires m.gpus == []
    ensures Put(m, sel, g) == 0
    ensures Put(PinnedTo(m, gpu), sel, g) == if g == gpu && Startable(m, sel) then EstimateVramMb(m).value else 0
  {
    assert EstimateVramMb(PinnedTo(m, gpu)) == EstimateVramMb(m);
    if Startable(m, sel) {
      PinnedCost(m, gpu);
    }
  }

  lemma SameIds(models: seq<ModelConfig>, pinned: seq<ModelConfig>)
    requires DistinctIds(models) && PinnedFrom(models, pinned)
    ensures DistinctIds(pinned)
  {
    assert forall i :: 0 <= i < |models| ==> PinnedModel(models[i], pinned[i]) && pinned[i].id == models[i].id;
  }

  lemma {:induction false} PinnedLoads(models: seq<ModelConfig>, pinned: seq<ModelConfig>, sel: Selection, g: GpuId)
    requires DistinctIds(models) && PinnedFrom(models, pinned)
    ensures Sum(LoadOn(pinned, sel, g)) <= Sum(LoadOn(models, sel, g)) + AutomaticTotal(models, sel)
    decreases |models|
  {
    if models != [] {
      var n := |models| - 1;
      PinnedLoads(models[..n], pinned[..n], sel, g);
      SameIds(models, pinned);
      LoadOfLast(models, sel, g);
      LoadOfLast(pinned, sel, g);
      assert PinnedModel(models[n], pinned[n]);
      if models[n].gpus == [] && pinned[n] != models[n] {
        PutPinned(models[n], sel, pinned[n].gpus[0], g);
      }
    }
  }

  /** Pinning one automatic model moves its whole estimate to that device. */
  lemma {:induction false} OnePinnedLoad(models: seq<ModelConfig>, sel: Selection, a: nat, gpu: GpuId, g: GpuId)
    requires DistinctIds(models) && a < |models| && models[a].gpus == [] && Startable(models[a], sel)
    ensures Sum(LoadOn(models[a := PinnedTo(models[a], gpu)], sel, g))
         == Sum(LoadOn(models, sel, g)) + if g == gpu then EstimateVramMb(models[a]).value else 0
    decreases |models|
  {
    var n := |models| - 1;
    var pinned := models[a := PinnedTo(models[a], gpu)];
    LoadOfLast(models, sel, g);
    assert DistinctIds(pinned);
    LoadOfLast(pinned, sel, g);
    if a == n {
      assert pinned[..n] == models[..n];
      PutPinned(models[n], sel, gpu, g);
    } else {
      OnePinnedLoad(models[..n], sel, a, gpu, g);
      assert pinned[..n] == models[..n][a := PinnedTo(models[a], gpu)];
    }
  }

  // ---------- the theorems ----------

  /** Each accounting device could take its explicit models and all automatic ones together. */
  ghost predicate RoomForEveryAutomatic(models: seq<ModelConfig>, budgets: seq<u64>, sel: Selection) {
    forall g :: 0 <= g < |budgets| && budgets[g] > 0 ==>
      Saturated(Sum(LoadOn(models, sel, g)) + AutomaticTotal(models, sel)) <= budgets[g]
  }

  lemma PinnedChecked(models: seq<ModelConfig>, pinned: seq<ModelConfig>, budgets: seq<u64>, sel: Selection)
    requires Checked(models, budgets, sel) && PinnedFrom(models, pinned)
    requires budgets != [] && PinsExist(models, pinned, budgets)
    ensures Checked(pinned, budgets, sel)
  {
    assert forall i :: 0 <= i < |models| ==> PinnedModel(models[i], pinned[i]);
    assert forall i :: 0 <= i < |models| ==> EstimateVramMb(pinned[i]) == EstimateVramMb(models[i]);
  }

  /** Automatic models among the others, in whatever order: if every accounting
      device could take all of them on top of its explicit total, everybody is
      reserved, each device ending within its budget. */
  lemma MixedOrderFits(models: seq<ModelConfig>, sel: Selection, ctxs: seq<Context>, budgets: seq<u64>, order: seq<nat>)
    requires Checked(models, budgets, sel) && Contexts(models, ctxs) && StartOrder(models, sel, order)
    requires budgets != [] && RoomForEveryAutomatic(models, budgets, sel)
    ensures var r := StartInOrder(models, sel, ctxs, budgets, order);
            r.Some? && forall g :: 0 <= g < |budgets| ==> WithinBudget(r.value[g], budgets[g])
  {
    var pinned := StartsAsPinned(models, sel, ctxs, budgets, order);
    PinnedChecked(models, pinned, budgets, sel);
    forall g | 0 <= g < |budgets| && budgets[g] > 0
      ensures Saturated(Sum(LoadOn(pinned, sel, g))) <= budgets[g]
    {
      PinnedLoads(models, pinned, sel, g);
    }
    OrderTracks(pinned, sel, ctxs, budgets, order);
    var r := ReserveInOrder(pinned, sel, ctxs, budgets, order);
    forall g | 0 <= g < |budgets|
      ensures WithinBudget(r.value[g], budgets[g])
    {
      assert DeviceTracks(pinned, sel, r.value[g], budgets[g], g, order);
    }
  }

  /** The explicit total of an accounting device and so much more exceed its budget. */
  ghost predicate Overfull(models: seq<ModelConfig>, budgets: seq<u64>, sel: Selection, gpu: GpuId, more: nat)
    requires gpu < |budgets|
  {
    budgets[gpu] > 0 && Saturated(Sum(LoadOn(models, sel, gpu)) + more) > budgets[gpu]
  }

  lemma FirstPick(budgets: seq<u64>, gpu: GpuId)
    requires LastLargest(budgets, gpu)
    ensures MostFreeDevice(seq(|budgets|, _ => map[]), budgets) == gpu
  {
    var none: Table := map[];
    assert Costs(none) == map[] && Reserved(none) == 0;
    var empty: seq<Table> := seq(|budgets|, _ => map[]);
    assert FreesIn(empty, budgets) == budgets;
    LastLargestUnique(budgets, gpu);
  }

  /** One automatic model started first, then all explicit ones in whatever order,
      under a configuration that passed the check: somebody is refused if and only if
      the automatic model's estimate on top of the explicit total of the last device of
      largest budget exceeds that budget. It is an explicit model that is refused
      unless the estimate exceeds the budget by itself. */
  lemma AutomaticFirst(models: seq<ModelConfig>, sel: Selection, ctxs: seq<Context>, budgets: seq<u64>, order: seq<nat>,
                       gpu: GpuId)
    requires Checked(models, budgets, sel) && Contexts(models, ctxs) && WithinTotals(models, budgets, sel)
    requires StartOrder(models, sel, order) && AllStarted(models, sel, order)
    requires order != [] && models[order[0]].gpus == []
    requires forall k :: 1 <= k < |order| ==> models[order[k]].gpus != []
    requires LastLargest(budgets, gpu)
    ensures StartInOrder(models, sel, ctxs, budgets, order).None?
       <==> Overfull(models, budgets, sel, gpu, EstimateVramMb(models[order[0]]).value)
    ensures StartInOrder(models, sel, ctxs, budgets, order[..1]).None?
       <==> 0 < budgets[gpu] < EstimateVramMb(models[order[0]]).value
  {
    AutomaticAlone(models, sel, ctxs, budgets, order[..1], gpu);
    FirstPinnedTotals(models, sel, budgets, order[0], gpu);
    AutomaticFirstAsPinned(models, sel, ctxs, budgets, order, gpu);
  }

  /** Such a start goes well exactly if validation would pass the automatic model pinned. */
  lemma AutomaticFirstAsPinned(models: seq<ModelConfig>, sel: Selection, ctxs: seq<Context>, budgets: seq<u64>,
                               order: seq<nat>, gpu: GpuId)
    requires Checked(models, budgets, sel) && Contexts(models, ctxs) && WithinTotals(models, budgets, sel)
    requires StartOrder(models, sel, order) && AllStarted(models, sel, order)
    requires order != [] && models[order[0]].gpus == []
    requires forall k :: 1 <= k < |order| ==> models[order[k]].gpus != []
    requires LastLargest(budgets, gpu)
    ensures StartInOrder(models, sel, ctxs, budgets, order).Some?
       <==> WithinTotals(models[order[0] := PinnedTo(models[order[0]], gpu)], budgets, sel)
  {
    FirstPick(budgets, gpu);
    var pinned := StartsAsPinned(models, sel, ctxs, budgets, order);
    PinnedFirst(models, pinned, sel, ctxs, budgets, order, gpu);
  }

  lemma PinnedFirst(models: seq<ModelConfig>, pinned: seq<ModelConfig>, sel: Selection, ctxs: seq<Context>,
                    budgets: seq<u64>, order: seq<nat>, gpu: GpuId)
    requires Checked(models, budgets, sel) && WithinTotals(models, budgets, sel)
    requires StartOrder(models, sel, order) && AllStarted(models, sel, order) && order != [] && |pinned| == |models|
    requires models[order[0]].gpus == [] && pinned[order[0]] == PinnedTo(models[order[0]], gpu)
    requires forall k :: 1 <= k < |order| ==> models[order[k]].gpus != []
    requires gpu < |budgets| && PinnedInOrder(models, pinned, order) && PinsExist(models, pinned, budgets)
    requires Contexts(pinned, ctxs) && OrderOf(pinned, sel, order)
    ensures ReserveInOrder(pinned, sel, ctxs, budgets, order).Some?
       <==> WithinTotals(models[order[0] := PinnedTo(models[order[0]], gpu)], budgets, sel)
  {
    OnlyFirstPinned(models, pinned, order, gpu);
    PinnedChecked(models, pinned, budgets, sel);
    forall i | 0 <= i < |models| && Placed(pinned[i], sel)
      ensures i in order
    {
      if i != order[0] {
        assert Startable(models[i], sel);
      }
    }
    TotalsDecideResidency(pinned, sel, ctxs, budgets, order);
  }

  lemma OnlyFirstPinned(models: seq<ModelConfig>, pinned: seq<ModelConfig>, order: seq<nat>, gpu: GpuId)
    requires PinnedInOrder(models, pinned, order) && order != []
    requires models[order[0]].gpus == [] && pinned[order[0]] == PinnedTo(models[order[0]], gpu)
    requires forall k :: 1 <= k < |order| ==> models[order[k]].gpus != []
    ensures pinned == models[order[0] := PinnedTo(models[order[0]], gpu)]
  {
    forall i | 0 <= i < |models| && i != order[0]
      ensures pinned[i] == models[i]
    {
      assert PinnedModel(models[i], pinned[i]);
    }
  }

  lemma FirstPinnedTotals(models: seq<ModelConfig>, sel: Selection, budgets: seq<u64>, a: nat, gpu: GpuId)
    requires DistinctIds(models) && a < |models| && models[a].gpus == [] && Startable(models[a], sel)
    requires WithinTotals(models, budgets, sel) && gpu < |budgets|
    ensures WithinTotals(models[a := PinnedTo(models[a], gpu)], budgets, sel)
       <==> !Overfull(models, budgets, sel, gpu, EstimateVramMb(models[a]).value)
  {
    forall g
      ensures Sum(LoadOn(models[a := PinnedTo(models[a], gpu)], sel, g))
           == Sum(LoadOn(models, sel, g)) + if g == gpu then EstimateVramMb(models[a]).value else 0
    {
      OnePinnedLoad(models, sel, a, gpu, g);
    }
  }

  lemma AutomaticAlone(models: seq<ModelConfig>, sel: Selection, ctxs: seq<Context>, budgets: seq<u64>, order: seq<nat>,
                       gpu: GpuId)
    requires Contexts(models, ctxs) && StartOrder(models, sel, order)
    requires |order| == 1 && models[order[0]].gpus == [] && LastLargest(budgets, gpu)
    ensures StartInOrder(models, sel, ctxs, budgets, order).None?
       <==> 0 < budgets[gpu] < EstimateVramMb(models[order[0]]).value
  {
    var none: Table := map[];
    var empty: seq<Table> := seq(|budgets|, _ => map[]);
    var m, ctx := models[order[0]], ctxs[order[0]];
    FirstPick(budgets, gpu);
    PinnedCost(m, gpu);
    var shares := SharesOf(PinnedTo(m, gpu));
    assert Costs(none) == map[] && Reserved(none) == 0;
    SplitSucceedsIffRoom(empty, budgets, shares, ctx);
    assert HasRoom(empty, budgets, shares[0]) <==> budgets[gpu] == 0 || EstimateVramMb(m).value <= budgets[gpu];
    assert StartInOrder(models, sel, ctxs, budgets, order[..0]) == Some(empty);
  }
}
