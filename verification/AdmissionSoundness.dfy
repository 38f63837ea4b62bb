/** What admission is for: the scheduler built on the admitted budgets really can
    hold the admitted models (src/config.rs against src/engine/scheduling.rs). */
module AdmissionSoundness {
  import opened Wrappers
  import opened MapSums
  import opened Placements
  import opened Reservations
  import opened Admission

  /** Reservation handles of the models, position by position. */
  ghost predicate Contexts(models: seq<ModelConfig>, ctxs: seq<Context>) {
    |ctxs| == |models| && forall i :: 0 <= i < |models| ==> ctxs[i].modelId == models[i].id
  }

  /** Positions of selected, explicitly placed models, each at most once. */
  ghost predicate OrderOf(models: seq<ModelConfig>, sel: Selection, order: seq<nat>) {
    Distinct(order) && forall k :: 0 <= k < |order| ==> order[k] < |models| && Placed(models[order[k]], sel)
  }

  ghost predicate Complete(models: seq<ModelConfig>, sel: Selection, order: seq<nat>) {
    forall i :: 0 <= i < |models| && Placed(models[i], sel) ==> i in order
  }

  /** The tables after reserving the models in this order; None if any is refused. */
  ghost function ReserveInOrder(models: seq<ModelConfig>, sel: Selection, ctxs: seq<Context>,
                                budgets: seq<u64>, order: seq<nat>): (r: Option<seq<Table>>)
    requires Contexts(models, ctxs) && OrderOf(models, sel, order)
    ensures r.Some? ==> |r.value| == |budgets|
  {
    if order == [] then Some(seq(|budgets|, _ => map[]))
    else
      var n := |order| - 1;
      var m, ctx := models[order[n]], ctxs[order[n]];
      match ReserveInOrder(models, sel, ctxs, budgets, order[..n])
      case None => None
      case Some(tables) =>
        if SplitResult(tables, budgets, SharesOf(m), ctx).Ok?
        then Some(SplitTables(tables, budgets, SharesOf(m), ctx))
        else None
  }

  /** What validation guarantees before it looks at totals. */
  ghost predicate Checked(models: seq<ModelConfig>, budgets: seq<u64>, sel: Selection) {
    && DistinctIds(models)
    && (forall i :: 0 <= i < |models| ==> Distinct(models[i].gpus))
    && DevicesExist(models, |budgets|)
    && EstimatesKnown(models, sel)
  }

  // ---------- the tables along the way ----------

  /** On an accounting device: exactly the models done so far that use it, at the
      costs validation added up, and within the budget. */
  ghost predicate DeviceTracks(models: seq<ModelConfig>, sel: Selection, table: Table, budgetMb: u64, g: GpuId,
                               done: seq<nat>)
    requires OrderOf(models, sel, done)
  {
    && (budgetMb == 0 ==> table == map[])
    && (budgetMb != 0 && budgetMb != U64_MAX ==> Reserved(table) <= budgetMb)
    && EntriesCounted(table, LoadOn(models, sel, g))
    && EntriesDone(models, table, done)
    && (budgetMb != 0 ==> DoneResident(models, table, g, done))
  }

  ghost predicate EntriesCounted(table: Table, load: map<string, nat>) {
    forall id :: id in table ==> id in load && table[id].costMb == load[id]
  }

  ghost predicate EntriesDone(models: seq<ModelConfig>, table: Table, done: seq<nat>)
    requires forall k :: 0 <= k < |done| ==> done[k] < |models|
  {
    forall id :: id in table ==> DoneId(models, done, id)
  }

  ghost predicate DoneResident(models: seq<ModelConfig>, table: Table, g: GpuId, done: seq<nat>)
    requires forall k :: 0 <= k < |done| ==> done[k] < |models|
  {
    forall k :: 0 <= k < |done| && g in models[done[k]].gpus ==> models[done[k]].id in table
  }

  ghost predicate DoneId(models: seq<ModelConfig>, done: seq<nat>, id: string)
    requires forall k :: 0 <= k < |done| ==> done[k] < |models|
  {
    exists k :: 0 <= k < |done| && models[done[k]].id == id
  }

  ghost predicate Tracks(models: seq<ModelConfig>, sel: Selection, tables: seq<Table>, budgets: seq<u64>,
                         done: seq<nat>)
    requires OrderOf(models, sel, done)
  {
    && |tables| == |budgets|
    && forall g :: 0 <= g < |tables| ==> DeviceTracks(models, sel, tables[g], budgets[g], g, done)
  }

  lemma NextIsNotResident(models: seq<ModelConfig>, sel: Selection, tables: seq<Table>, budgets: seq<u64>,
                          order: seq<nat>)
    requires DistinctIds(models) && OrderOf(models, sel, order) && order != []
    requires OrderOf(models, sel, order[..|order| - 1])
    requires Tracks(models, sel, tables, budgets, order[..|order| - 1])
    ensures NotResident(tables, models[order[|order| - 1]].id)
  {
    var n := |order| - 1;
    forall g | 0 <= g < |tables|
      ensures models[order[n]].id !in tables[g]
    {
      assert DeviceTracks(models, sel, tables[g], budgets[g], g, order[..n]);
      NotDone(models, order, n);
    }
  }

  lemma NotDone(models: seq<ModelConfig>, order: seq<nat>, n: nat)
    requires DistinctIds(models) && Distinct(order) && n < |order|
    requires forall k :: 0 <= k < |order| ==> order[k] < |models|
    ensures !DoneId(models, order[..n], models[order[n]].id)
  {
    forall k | 0 <= k < n
      ensures models[order[..n][k]].id != models[order[n]].id
    {
      assert order[k] != order[n];
    }
  }

  /** A device whose total is within its budget has room for the next model. */
  lemma DeviceHasRoom(models: seq<ModelConfig>, sel: Selection, table: Table, budgetMb: u64, share: Share, i: nat,
                      done: seq<nat>)
    requires DistinctIds(models) && OrderOf(models, sel, done)
    requires i < |models| && Placed(models[i], sel) && share.gpu in models[i].gpus
    requires share.costMb == CostOn(SharesOf(models[i]), share.gpu)
    requires DeviceTracks(models, sel, table, budgetMb, share.gpu, done) && models[i].id !in table
    requires budgetMb != 0 && Saturated(Sum(LoadOn(models, sel, share.gpu))) <= budgetMb
    ensures Fits(table, budgetMb, share.costMb)
  {
    var id, all := models[i].id, LoadOn(models, sel, share.gpu);
    LoadOnAt(models, sel, share.gpu, i);
    SumInsert(Costs(table), id, share.costMb);
    var grown: map<string, nat> := Costs(table)[id := share.costMb];
    SumMonotone(grown, all);
  }

  lemma NextFits(models: seq<ModelConfig>, sel: Selection, ctxs: seq<Context>, tables: seq<Table>, budgets: seq<u64>,
                 order: seq<nat>)
    requires Checked(models, budgets, sel) && Contexts(models, ctxs) && WithinTotals(models, budgets, sel)
    requires OrderOf(models, sel, order) && order != []
    requires OrderOf(models, sel, order[..|order| - 1])
    requires Tracks(models, sel, tables, budgets, order[..|order| - 1])
    ensures SplitResult(tables, budgets, SharesOf(models[order[|order| - 1]]), ctxs[order[|order| - 1]]).Ok?
  {
    var n := |order| - 1;
    var i := order[n];
    var m, shares := models[i], SharesOf(models[i]);
    NextIsNotResident(models, sel, tables, budgets, order);
    forall k | 0 <= k < |shares|
      ensures HasRoom(tables, budgets, shares[k])
    {
      var g := shares[k].gpu;
      assert g == m.gpus[k];
      CostOnDistinct(shares, k);
      if budgets[g] != 0 {
        assert DeviceTracks(models, sel, tables[g], budgets[g], g, order[..n]);
        DeviceHasRoom(models, sel, tables[g], budgets[g], shares[k], i, order[..n]);
      }
    }
    SplitSucceedsIffRoom(tables, budgets, shares, ctxs[i]);
  }

  lemma NextTracks(models: seq<ModelConfig>, sel: Selection, ctxs: seq<Context>, tables: seq<Table>, budgets: seq<u64>,
                   order: seq<nat>)
    requires Checked(models, budgets, sel) && Contexts(models, ctxs)
    requires OrderOf(models, sel, order) && order != []
    requires OrderOf(models, sel, order[..|order| - 1])
    requires Tracks(models, sel, tables, budgets, order[..|order| - 1])
    requires SplitResult(tables, budgets, SharesOf(models[order[|order| - 1]]), ctxs[order[|order| - 1]]).Ok?
    ensures Tracks(models, sel,
            SplitTables(tables, budgets, SharesOf(models[order[|order| - 1]]), ctxs[order[|order| - 1]]),
                   budgets, order)
  {
    var n := |order| - 1;
    var i := order[n];
    var shares, ctx := SharesOf(models[i]), ctxs[i];
    NextIsNotResident(models, sel, tables, budgets, order);
    SplitSucceedsIffRoom(tables, budgets, shares, ctx);
    var after := SplitTables(tables, budgets, shares, ctx);
    forall g | 0 <= g < |after|
      ensures DeviceTracks(models, sel, after[g], budgets[g], g, order)
    {
      assert DeviceTracks(models, sel, tables[g], budgets[g], g, order[..n]);
      AfterAt(tables, budgets, shares, ctx, g);
      if budgets[g] == 0 || g !in models[i].gpus {
        DeviceUntouched(models, sel, tables[g], budgets[g], g, order);
      } else {
        var k :| 0 <= k < |shares| && Devices(shares)[k] == g;
        AfterHolds(tables, budgets, shares, ctx, k);
        CostOnDistinct(shares, k);
        assert HasRoom(tables, budgets, shares[k]);
        DeviceGrows(models, sel, tables[g], budgets[g], g, order, ctx, shares[k].costMb);
      }
    }
  }

  lemma DeviceUntouched(models: seq<ModelConfig>, sel: Selection, table: Table, budgetMb: u64, g: GpuId,
                        order: seq<nat>)
    requires OrderOf(models, sel, order) && order != [] && OrderOf(models, sel, order[..|order| - 1])
    requires DeviceTracks(models, sel, table, budgetMb, g, order[..|order| - 1])
    requires budgetMb == 0 || g !in models[order[|order| - 1]].gpus
    ensures DeviceTracks(models, sel, table, budgetMb, g, order)
  {
    forall id | id in table
      ensures DoneId(models, order, id)
    {
      StillDone(models, order, id);
    }
    if budgetMb != 0 {
      StillResident(models, table, g, order);
    }
  }

  lemma StillResident(models: seq<ModelConfig>, table: Table, g: GpuId, order: seq<nat>)
    requires order != [] && forall k :: 0 <= k < |order| ==> order[k] < |models|
    requires DoneResident(models, table, g, order[..|order| - 1])
    requires g in models[order[|order| - 1]].gpus ==> models[order[|order| - 1]].id in table
    ensures DoneResident(models, table, g, order)
  {
    forall k | 0 <= k < |order| && g in models[order[k]].gpus
      ensures models[order[k]].id in table
    {
      if k < |order| - 1 {
        assert order[..|order| - 1][k] == order[k];
      }
    }
  }

  lemma StillDone(models: seq<ModelConfig>, order: seq<nat>, id: string)
    requires order != [] && forall k :: 0 <= k < |order| ==> order[k] < |models|
    requires DoneId(models, order[..|order| - 1], id)
    ensures DoneId(models, order, id)
  {
    var k :| 0 <= k < |order| - 1 && models[order[..|order| - 1][k]].id == id;
    assert models[order[k]].id == id;
  }

  lemma DeviceGrows(models: seq<ModelConfig>, sel: Selection, table: Table, budgetMb: u64, g: GpuId, order: seq<nat>,
                    ctx: Context, costMb: u64)
    requires DistinctIds(models)
    requires OrderOf(models, sel, order) && order != [] && OrderOf(models, sel, order[..|order| - 1])
    requires DeviceTracks(models, sel, table, budgetMb, g, order[..|order| - 1])
    requires var m := models[order[|order| - 1]];
             && ctx.modelId == m.id && m.id !in table && g in m.gpus && costMb == CostOn(SharesOf(m), g)
    requires budgetMb != 0 && Fits(table, budgetMb, costMb)
    ensures DeviceTracks(models, sel, table[ctx.modelId := NewEntry(costMb, ctx)], budgetMb, g, order)
  {
    var n := |order| - 1;
    var m := models[order[n]];
    var after := table[ctx.modelId := NewEntry(costMb, ctx)];
    AdmitNewCost(table, costMb, ctx);
    SaturatingCheckIsExact(Reserved(table), costMb, budgetMb);
    assert EntriesCounted(after, LoadOn(models, sel, g)) by {
      LoadOnAt(models, sel, g, order[n]);
    }
    NewlyDone(models, table, order, NewEntry(costMb, ctx));
    StillResident(models, after, g, order);
  }

  lemma NewlyDone(models: seq<ModelConfig>, table: Table, order: seq<nat>, entry: Entry)
    requires order != [] && forall k :: 0 <= k < |order| ==> order[k] < |models|
    requires EntriesDone(models, table, order[..|order| - 1])
    ensures EntriesDone(models, table[models[order[|order| - 1]].id := entry], order)
  {
    var n := |order| - 1;
    forall id | id in table || id == models[order[n]].id
      ensures DoneId(models, order, id)
    {
      if id == models[order[n]].id {
        assert models[order[n]].id == id;
      } else {
        StillDone(models, order, id);
      }
    }
  }

  // ---------- the theorems ----------

  lemma {:induction false} OrderTracks(models: seq<ModelConfig>, sel: Selection, ctxs: seq<Context>, budgets: seq<u64>,
                                       order: seq<nat>)
    requires Checked(models, budgets, sel) && Contexts(models, ctxs) && OrderOf(models, sel, order)
    ensures WithinTotals(models, budgets, sel) ==> ReserveInOrder(models, sel, ctxs, budgets, order).Some?
    ensures var r := ReserveInOrder(models, sel, ctxs, budgets, order);
            r.Some? ==> Tracks(models, sel, r.value, budgets, order)
    decreases |order|
  {
    if order == [] {
      EmptyTracks(models, sel, budgets);
    } else {
      var n := |order| - 1;
      OrderTracks(models, sel, ctxs, budgets, order[..n]);
      var before := ReserveInOrder(models, sel, ctxs, budgets, order[..n]);
      if before.Some? {
        if WithinTotals(models, budgets, sel) {
          NextFits(models, sel, ctxs, before.value, budgets, order);
        }
        if SplitResult(before.value, budgets, SharesOf(models[order[n]]), ctxs[order[n]]).Ok? {
          NextTracks(models, sel, ctxs, before.value, budgets, order);
        }
      }
    }
  }

  lemma EmptyTracks(models: seq<ModelConfig>, sel: Selection, budgets: seq<u64>)
    ensures Tracks(models, sel, seq(|budgets|, _ => map[]), budgets, [])
  {
    var none: Table := map[];
    assert Costs(none) == map[];
  }

  /** Once all selected models are in, a device's total is what validation added up. */
  lemma CompleteTotal(models: seq<ModelConfig>, sel: Selection, table: Table, budgetMb: u64, g: GpuId, order: seq<nat>)
    requires DistinctIds(models) && OrderOf(models, sel, order) && Complete(models, sel, order)
    requires DeviceTracks(models, sel, table, budgetMb, g, order) && budgetMb != 0
    ensures Reserved(table) == Sum(LoadOn(models, sel, g))
  {
    var all := LoadOn(models, sel, g);
    forall id | id in all
      ensures id in table
    {
      LoadOnIds(models, sel, g, id);
      var i :| 0 <= i < |models| && models[i].id == id && Placed(models[i], sel) && g in models[i].gpus;
      var k :| 0 <= k < |order| && order[k] == i;
      assert models[order[k]].id in table;
    }
    assert Costs(table) == all;
  }

  /** The overflow check is exact. In whatever order the selected models come, all
      of their split reservations succeed from an empty scheduler, without any
      eviction, if and only if no device's total exceeds a positive budget. */
  lemma TotalsDecideResidency(models: seq<ModelConfig>, sel: Selection, ctxs: seq<Context>, budgets: seq<u64>,
                              order: seq<nat>)
    requires Checked(models, budgets, sel) && Contexts(models, ctxs)
    requires OrderOf(models, sel, order) && Complete(models, sel, order)
    ensures WithinTotals(models, budgets, sel) <==> ReserveInOrder(models, sel, ctxs, budgets, order).Some?
  {
    OrderTracks(models, sel, ctxs, budgets, order);
    var r := ReserveInOrder(models, sel, ctxs, budgets, order);
    if r.Some? {
      forall g | 0 <= g < |budgets| && budgets[g] > 0
        ensures Saturated(Sum(LoadOn(models, sel, g))) <= budgets[g]
      {
        assert DeviceTracks(models, sel, r.value[g], budgets[g], g, order);
        CompleteTotal(models, sel, r.value[g], budgets[g], g, order);
      }
    }
  }

  /** An admitted configuration: any of the explicitly placed eager models, in any
      order, are reserved one after the other, each device ending within its
      budget; and so are the explicitly placed pinned ones. */
  lemma AdmittedModelsFit(s: ServerConfig, models: seq<ModelConfig>, sel: Selection, ctxs: seq<Context>,
                          budgets: seq<u64>, order: seq<nat>)
    requires Admitted(s, models, budgets) && Contexts(models, ctxs) && OrderOf(models, sel, order)
    ensures var r := ReserveInOrder(models, sel, ctxs, budgets, order);
            r.Some? && Tracks(models, sel, r.value, budgets, order)
  {
    assert forall i :: 0 <= i < |models| ==> ModelOk(models[i]);
    OrderTracks(models, sel, ctxs, budgets, order);
  }

  /** An eager model without explicit devices escapes the check: this configuration
      is admitted, but once the automatic model has taken the only device the
      explicit one is refused. */
  lemma AutomaticModelEscapes(ctxA: Context, ctxB: Context)
    requires ctxA.modelId == "a" && ctxB.modelId == "b"
    ensures var s := ServerConfig(Fixed(100), 0, map[], None);
            var a := ModelConfig("a", Local, false, false, Some(60), None, []);
            var b := ModelConfig("b", Local, false, false, Some(60), None, [0]);
            var empty: Table := map[];
            var taken := SplitTables([empty], [100], SingleDevice(0).PerDeviceCost(60), ctxA);
            && Admitted(s, [a, b], [100])
            && SplitResult([empty], [100], SingleDevice(0).PerDeviceCost(60), ctxA).Ok?
            && SplitResult(taken, [100], SharesOf(b), ctxB).Err?
  {
    EscapingConfigAdmitted();
    EscapingModelRefused(ctxA, ctxB);
  }

  lemma EscapingConfigAdmitted()
    ensures var s := ServerConfig(Fixed(100), 0, map[], None);
            var a := ModelConfig("a", Local, false, false, Some(60), None, []);
            var b := ModelConfig("b", Local, false, false, Some(60), None, [0]);
            Admitted(s, [a, b], [100])
  {
    var a := ModelConfig("a", Local, false, false, Some(60), None, []);
    var b := ModelConfig("b", Local, false, false, Some(60), None, [0]);
    var models := [a, b];
    assert models[..1] == [a] && [a][..0] == [];
    assert DeclaredDevices(models) == 1;
    forall sel: Selection
      ensures Sum(LoadOn(models, sel, 0)) <= 60
    {
      assert LoadOn([a], sel, 0) == map[];
      var load := LoadOn(models, sel, 0);
      var full: map<string, nat> := map["b" := 60];
      var none: map<string, nat> := map[];
      SumInsert(none, "b", 60);
      assert SharesOf(b) == [Share(0, 60)];
      SumMonotone(load, full);
    }
  }

  lemma EscapingModelRefused(ctxA: Context, ctxB: Context)
    requires ctxA.modelId == "a" && ctxB.modelId == "b"
    ensures var b := ModelConfig("b", Local, false, false, Some(60), None, [0]);
            var empty: Table := map[];
            var taken := SplitTables([empty], [100], SingleDevice(0).PerDeviceCost(60), ctxA);
            && SplitResult([empty], [100], SingleDevice(0).PerDeviceCost(60), ctxA).Ok?
            && SplitResult(taken, [100], SharesOf(b), ctxB).Err?
  {
    var b := ModelConfig("b", Local, false, false, Some(60), None, [0]);
    var empty: Table := map[];
    var shares := SingleDevice(0).PerDeviceCost(60);
    assert shares == [Share(0, 60)] && SharesOf(b) == shares;
    assert Costs(empty) == map[];
    assert Reserved(empty) == 0;
    SplitSucceedsIffRoom([empty], [100], shares, ctxA);
    var taken := SplitTables([empty], [100], shares, ctxA);
    AfterHolds([empty], [100], shares, ctxA, 0);
    AdmitNewCost(empty, 60, ctxA);
    SplitSucceedsIffRoom(taken, [100], shares, ctxB);
    assert !HasRoom(taken, [100], shares[0]);
  }
}
