/** Configuration admission: the checks of `validate` that concern local models
    and VRAM, and what their acceptance means for the scheduler built on the same
    budgets (src/config.rs). */
module Admission {
  import opened Wrappers
  import opened MapSums
  import opened Placements
  import opened Reservations

  datatype BackendType = Local | OpenAi | Groq | Anthropic | HuggingFace

  /** `fileBytes`: size of the model file, None if it cannot be read. */
  datatype ModelConfig = ModelConfig(
    id: string, backend: BackendType, isLazy: bool, pin: bool,
    vramMb: Option<u64>, fileBytes: Option<u64>, gpus: seq<GpuId>)

  datatype BudgetSetting = Auto | Fixed(mb: u64)

  /** `detected`: total megabytes of each device the driver reports, None if it fails. */
  datatype ServerConfig = ServerConfig(
    vramBudgetMb: BudgetSetting, headroomMb: u64, overrides: map<GpuId, u64>, detected: Option<seq<u64>>)

  datatype ConfigError =
    | NoModelsConfigured
    | DuplicateModelId(id: string)
    | LazyOnlyForLocal(id: string)
    | VramMbOnlyForLocal(id: string)
    | PinOnlyForLocal(id: string)
    | GpuIdOnCloudBackend(id: string)
    | GpuIdDuplicated(id: string, gpu: GpuId)
    | VramAutoDetectFailed
    | VramAutoDetectInsufficient(totalMb: u64, headroomMb: u64)
    | VramOverrideUnknownGpu(gpu: GpuId)
    | GpuIdExceedsDetected(id: string, gpu: GpuId)
    | VramEstimateFailed(id: string)
    | EagerLoadsExceedBudget(gpu: GpuId, totalMb: u64, budgetMb: u64)
    | PinnedExceedsBudget(gpu: GpuId, totalMb: u64, budgetMb: u64)

  // ---------- estimates and budgets ----------

  /** 1.2 times the file size, in megabytes, unless the configuration says otherwise. */
  function EstimateVramMb(m: ModelConfig): Option<u64> {
    match m.vramMb
    case Some(n) => Some(n)
    case None =>
      match m.fileBytes
      case None => None
      case Some(size) =>
        var padded := (if size * 6 > U64_MAX then U64_MAX else size * 6) / 5;
        Some(padded / 0x10_0000)
  }

  /** Six fifths of the file in whole megabytes, rounded down; from 2^64 / 6 bytes on the
      product saturates. There is no estimate exactly if the size is neither configured
      nor readable. */
  lemma EstimateIsSixFifths(m: ModelConfig)
    ensures EstimateVramMb(m).None? <==> m.vramMb.None? && m.fileBytes.None?
    ensures m.vramMb.Some? ==> EstimateVramMb(m) == m.vramMb
    ensures m.vramMb.None? && m.fileBytes.Some? ==>
              var mb, size := EstimateVramMb(m).value, m.fileBytes.value;
              if size * 6 <= U64_MAX then mb * 0x10_0000 * 5 <= size * 6 < (mb + 1) * 0x10_0000 * 5
              else mb == 3_518_437_208_883
  {
    if m.vramMb.None? && m.fileBytes.Some? && m.fileBytes.value * 6 <= U64_MAX {
      var product := m.fileBytes.value * 6;
      assert product / 5 * 5 <= product < (product / 5 + 1) * 5;
    }
  }

  ghost predicate BudgetsResolve(s: ServerConfig, declared: nat, budgets: seq<u64>) {
    && (match s.vramBudgetMb
        case Fixed(_) => |budgets| == declared
        case Auto => s.detected.Some? && |budgets| == |s.detected.value|)
    && (forall g :: g in s.overrides ==> g < |budgets|)
    && forall g :: 0 <= g < |budgets| ==> budgets[g] == BudgetFor(s, g)
  }

  /** The override if there is one, else the fixed budget or what is detected less the headroom. */
  ghost function BudgetFor(s: ServerConfig, g: GpuId): u64
    requires s.vramBudgetMb.Auto? ==> s.detected.Some? && g < |s.detected.value|
  {
    if g in s.overrides then s.overrides[g]
    else match s.vramBudgetMb
      case Fixed(n) => n
      case Auto =>
        if s.detected.value[g] <= s.headroomMb then 0 else s.detected.value[g] - s.headroomMb
  }

  /** Device totals are usable: the driver answers and every total exceeds the headroom. */
  ghost predicate Detectable(s: ServerConfig) {
    s.vramBudgetMb.Auto? ==>
      s.detected.Some? && forall g :: 0 <= g < |s.detected.value| ==> s.headroomMb < s.detected.value[g]
  }

  /** What is wrong with the budgets, by the error that says so. */
  ghost predicate BadBudgets(s: ServerConfig, declared: nat, e: ConfigError) {
    match e
    case VramAutoDetectFailed => s.vramBudgetMb.Auto? && s.detected.None?
    case VramAutoDetectInsufficient(totalMb, headroomMb) =>
      s.vramBudgetMb.Auto? && s.detected.Some? && totalMb in s.detected.value && totalMb <= headroomMb == s.headroomMb
    case VramOverrideUnknownGpu(g) =>
      g in s.overrides && (if s.vramBudgetMb.Fixed? then g >= declared else s.detected.Some? && g >= |s.detected.value|)
    case _ => false
  }

  method ResolveVramBudgets(s: ServerConfig, declared: nat) returns (r: Result<seq<u64>, ConfigError>)
    ensures r.Ok? <==> Detectable(s)
                       && forall g :: g in s.overrides ==>
                            g < if s.vramBudgetMb.Fixed? then declared else |s.detected.value|
    ensures r.Ok? ==> BudgetsResolve(s, declared, r.value)
    ensures r.Err? ==> BadBudgets(s, declared, r.error)
  {
    var defaults := DefaultBudgets(s, declared);
    if defaults.Err? {
      return Err(defaults.error);
    }
    var budgets := defaults.value;
    var rest := s.overrides.Keys;
    while rest != {}
      invariant rest <= s.overrides.Keys && |budgets| == |defaults.value|
      invariant forall g :: g in s.overrides && g !in rest ==> g < |budgets| && budgets[g] == s.overrides[g]
      invariant forall g :: 0 <= g < |budgets| && (g !in s.overrides || g in rest) ==> budgets[g] == defaults.value[g]
      decreases |rest|
    {
      var g :| g in rest;
      rest := rest - {g};
      if g >= |budgets| {
        return Err(VramOverrideUnknownGpu(g));
      }
      budgets := budgets[g := s.overrides[g]];
    }
    return Ok(budgets);
  }

  method DefaultBudgets(s: ServerConfig, declared: nat) returns (r: Result<seq<u64>, ConfigError>)
    ensures r.Ok? <==> Detectable(s)
    ensures r.Ok? ==> |r.value| == if s.vramBudgetMb.Fixed? then declared else |s.detected.value|
    ensures r.Err? ==> BadBudgets(s, declared, r.error)
    ensures r.Ok? ==> forall g :: 0 <= g < |r.value| ==>
              r.value[g] == if s.vramBudgetMb.Fixed? then s.vramBudgetMb.mb else s.detected.value[g] - s.headroomMb
  {
    match s.vramBudgetMb {
      case Fixed(n) =>
        return Ok(seq(declared, _ => n));
      case Auto =>
        if s.detected.None? {
          return Err(VramAutoDetectFailed);
        }
        var totals := s.detected.value;
        var out: seq<u64> := [];
        for g := 0 to |totals|
          invariant |out| == g
          invariant forall k :: 0 <= k < g ==> s.headroomMb < totals[k] && out[k] == totals[k] - s.headroomMb
        {
          if totals[g] <= s.headroomMb {
            return Err(VramAutoDetectInsufficient(totals[g], s.headroomMb));
          }
          out := out + [totals[g] - s.headroomMb];
        }
        return Ok(out);
    }
  }

  // ---------- per-model checks ----------

  ghost predicate DistinctIds(models: seq<ModelConfig>) {
    forall i, j :: 0 <= i < j < |models| ==> models[i].id != models[j].id
  }

  ghost predicate ModelOk(m: ModelConfig) {
    && (m.backend.Local? || (!m.isLazy && m.vramMb.None? && !m.pin && m.gpus == []))
    && Distinct(m.gpus)
  }

  /** What is wrong with a model, by the error that says so. */
  ghost predicate BadModel(m: ModelConfig, e: ConfigError) {
    match e
    case LazyOnlyForLocal(id) => id == m.id && !m.backend.Local? && m.isLazy
    case VramMbOnlyForLocal(id) => id == m.id && !m.backend.Local? && m.vramMb.Some?
    case PinOnlyForLocal(id) => id == m.id && !m.backend.Local? && m.pin
    case GpuIdOnCloudBackend(id) => id == m.id && !m.backend.Local? && m.gpus != []
    case GpuIdDuplicated(id, g) => id == m.id && exists j, k :: 0 <= j < k < |m.gpus| && m.gpus[j] == m.gpus[k] == g
    case _ => false
  }

  method CheckIds(models: seq<ModelConfig>) returns (r: Option<ConfigError>)
    ensures r.None? <==> DistinctIds(models)
    ensures r.Some? ==> exists i, j :: 0 <= i < j < |models| && models[i].id == models[j].id
                                       && r.value == DuplicateModelId(models[j].id)
  {
    var seen: set<string> := {};
    for i := 0 to |models|
      invariant seen == set k | 0 <= k < i :: models[k].id
      invariant DistinctIds(models[..i])
    {
      if models[i].id in seen {
        return Some(DuplicateModelId(models[i].id));
      }
      seen := seen + {models[i].id};
    }
    return None;
  }

  method CheckModel(m: ModelConfig) returns (r: Option<ConfigError>)
    ensures r.None? <==> ModelOk(m)
    ensures r.Some? ==> BadModel(m, r.value)
  {
    if m.isLazy && m.backend != Local { return Some(LazyOnlyForLocal(m.id)); }
    if m.vramMb.Some? && m.backend != Local { return Some(VramMbOnlyForLocal(m.id)); }
    if m.pin && m.backend != Local { return Some(PinOnlyForLocal(m.id)); }
    if m.gpus != [] && m.backend != Local { return Some(GpuIdOnCloudBackend(m.id)); }
    var seen: set<GpuId> := {};
    for i := 0 to |m.gpus|
      invariant seen == set k | 0 <= k < i :: m.gpus[k]
      invariant Distinct(m.gpus[..i])
    {
      if m.gpus[i] in seen {
        return Some(GpuIdDuplicated(m.id, m.gpus[i]));
      }
      seen := seen + {m.gpus[i]};
    }
    assert m.gpus[..|m.gpus|] == m.gpus;
    return None;
  }

  method CheckModels(models: seq<ModelConfig>) returns (r: Option<ConfigError>)
    ensures r.None? <==> forall i :: 0 <= i < |models| ==> ModelOk(models[i])
    ensures r.Some? ==> exists i :: 0 <= i < |models| && BadModel(models[i], r.value)
  {
    for i := 0 to |models|
      invariant forall k :: 0 <= k < i ==> ModelOk(models[k])
    {
      r := CheckModel(models[i]);
      if r.Some? {
        return;
      }
    }
    return None;
  }

  /** One more than the largest device any model names; one if none does. */
  function DeclaredDevices(models: seq<ModelConfig>): (n: nat)
    ensures forall i, k :: 0 <= i < |models| && 0 <= k < |models[i].gpus| ==> models[i].gpus[k] < n
    ensures n == 1 || exists i, k :: 0 <= i < |models| && 0 <= k < |models[i].gpus| && models[i].gpus[k] == n - 1
    ensures n >= 1
  {
    var largest := LargestDevice(models);
    if largest.Some? then largest.value + 1 else 1
  }

  function LargestDevice(models: seq<ModelConfig>): (r: Option<GpuId>)
    ensures r.None? <==> forall i :: 0 <= i < |models| ==> models[i].gpus == []
    ensures r.Some? ==> forall i, k :: 0 <= i < |models| && 0 <= k < |models[i].gpus| ==> models[i].gpus[k] <= r.value
    ensures r.Some? ==> exists i, k :: 0 <= i < |models| && 0 <= k < |models[i].gpus| && models[i].gpus[k] == r.value
  {
    if models == [] then None
    else
      var front := LargestDevice(models[..|models| - 1]);
      var last := LargestOf(models[|models| - 1].gpus);
      if last.None? then front
      else if front.None? || front.value < last.value then last
      else front
  }

  function LargestOf(gpus: seq<GpuId>): (r: Option<GpuId>)
    ensures r.None? <==> gpus == []
    ensures r.Some? ==> r.value in gpus && forall k :: 0 <= k < |gpus| ==> gpus[k] <= r.value
  {
    if gpus == [] then None
    else
      var front := LargestOf(gpus[..|gpus| - 1]);
      var last := gpus[|gpus| - 1];
      if front.None? || front.value < last then Some(last) else front
  }

  ghost predicate DevicesExist(models: seq<ModelConfig>, count: nat) {
    forall i, k :: 0 <= i < |models| && models[i].backend.Local? && 0 <= k < |models[i].gpus| ==>
      models[i].gpus[k] < count
  }

  method CheckDevices(models: seq<ModelConfig>, count: nat) returns (r: Option<ConfigError>)
    ensures r.None? <==> DevicesExist(models, count)
    ensures r.Some? ==> exists i, k :: 0 <= i < |models| && models[i].backend.Local? && 0 <= k < |models[i].gpus|
                                       && models[i].gpus[k] >= count
                                       && r.value == GpuIdExceedsDetected(models[i].id, models[i].gpus[k])
  {
    for i := 0 to |models|
      invariant DevicesExist(models[..i], count)
    {
      if models[i].backend == Local {
        for k := 0 to |models[i].gpus|
          invariant forall j :: 0 <= j < k ==> models[i].gpus[j] < count
        {
          if models[i].gpus[k] >= count {
            return Some(GpuIdExceedsDetected(models[i].id, models[i].gpus[k]));
          }
        }
      }
    }
    return None;
  }

  // ---------- per-device totals ----------

  datatype Selection = Eager | Pinned

  predicate Selected(m: ModelConfig, sel: Selection) {
    m.backend.Local? && if sel.Eager? then !m.isLazy else m.pin
  }

  /** Models without explicit devices do not know theirs yet and are left out of the totals. */
  predicate Placed(m: ModelConfig, sel: Selection) {
    Selected(m, sel) && m.gpus != [] && EstimateVramMb(m).Some?
  }

  function SharesOf(m: ModelConfig): (shares: seq<Share>)
    requires m.gpus != [] && EstimateVramMb(m).Some?
    ensures Devices(shares) == m.gpus
  {
    var shares := FromGpus(m.gpus).placement.PerDeviceCost(EstimateVramMb(m).value);
    assert Devices(shares) == m.gpus;
    shares
  }

  /** What the selected models put on one device, by model. */
  ghost function LoadOn(models: seq<ModelConfig>, sel: Selection, g: GpuId): map<string, nat> {
    if models == [] then map[]
    else
      var m := models[|models| - 1];
      var front := LoadOn(models[..|models| - 1], sel, g);
      if Placed(m, sel) && g in m.gpus then front[m.id := CostOn(SharesOf(m), g)] else front
  }

  ghost predicate EstimatesKnown(models: seq<ModelConfig>, sel: Selection) {
    forall i :: 0 <= i < |models| && Selected(models[i], sel) ==> EstimateVramMb(models[i]).Some?
  }

  ghost predicate WithinTotals(models: seq<ModelConfig>, budgets: seq<u64>, sel: Selection) {
    forall g :: 0 <= g < |budgets| && budgets[g] > 0 ==> Saturated(Sum(LoadOn(models, sel, g))) <= budgets[g]
  }

  function Saturated(n: nat): u64 {
    if n > U64_MAX then U64_MAX else n
  }

  lemma {:induction false} LoadOnIds(models: seq<ModelConfig>, sel: Selection, g: GpuId, id: string)
    ensures id in LoadOn(models, sel, g) <==>
              exists i :: 0 <= i < |models| && models[i].id == id && Placed(models[i], sel) && g in models[i].gpus
  {
    if models != [] {
      var n := |models| - 1;
      LoadOnIds(models[..n], sel, g, id);
      assert forall i :: 0 <= i < n ==> models[..n][i] == models[i];
    }
  }

  /** Whose megabytes the totals of a device count: local models with a known estimate
      that name it and are loaded at start-up, or are pinned. */
  lemma WhoCounts(models: seq<ModelConfig>, g: GpuId, id: string)
    ensures id in LoadOn(models, Eager, g) <==>
              exists i :: 0 <= i < |models| && models[i].id == id && models[i].backend.Local? && !models[i].isLazy
                          && g in models[i].gpus && (models[i].vramMb.Some? || models[i].fileBytes.Some?)
    ensures id in LoadOn(models, Pinned, g) <==>
              exists i :: 0 <= i < |models| && models[i].id == id && models[i].backend.Local? && models[i].pin
                          && g in models[i].gpus && (models[i].vramMb.Some? || models[i].fileBytes.Some?)
  {
    LoadOnIds(models, Eager, g, id);
    LoadOnIds(models, Pinned, g, id);
  }

  lemma {:induction false} LoadOnAt(models: seq<ModelConfig>, sel: Selection, g: GpuId, i: nat)
    requires DistinctIds(models) && i < |models| && Placed(models[i], sel) && g in models[i].gpus
    ensures models[i].id in LoadOn(models, sel, g)
    ensures LoadOn(models, sel, g)[models[i].id] == CostOn(SharesOf(models[i]), g)
    decreases |models|
  {
    var n := |models| - 1;
    if i < n {
      LoadOnAt(models[..n], sel, g, i);
    }
  }

  ghost predicate TotalsMatch(totals: map<GpuId, u64>, models: seq<ModelConfig>, sel: Selection) {
    forall g: GpuId ::
      && (g in totals <==> LoadOn(models, sel, g) != map[])
      && (g in totals ==> totals[g] == Saturated(Sum(LoadOn(models, sel, g))))
  }

  function Added(totals: map<GpuId, u64>, share: Share): u64 {
    Saturated((if share.gpu in totals then totals[share.gpu] else 0) + share.costMb)
  }

  method AddShares(totals: map<GpuId, u64>, shares: seq<Share>) returns (r: map<GpuId, u64>)
    requires Distinct(Devices(shares))
    ensures r.Keys == totals.Keys + set g | g in Devices(shares)
    ensures forall g :: g in r ==>
              r[g] == if g in Devices(shares)
                      then Saturated((if g in totals then totals[g] else 0) + CostOn(shares, g)) else totals[g]
  {
    r := totals;
    for k := 0 to |shares|
      invariant r.Keys == totals.Keys + set g | g in Devices(shares[..k])
      invariant forall g :: g in r && g !in Devices(shares[..k]) ==> g in totals && r[g] == totals[g]
      invariant forall j :: 0 <= j < k ==> shares[j].gpu in r && r[shares[j].gpu] == Added(totals, shares[j])
    {
      var g := shares[k].gpu;
      LaterDeviceIsNew(shares, k);
      assert forall j :: 0 <= j < k ==> Devices(shares)[j] != Devices(shares)[k];
      assert Devices(shares[..k + 1]) == Devices(shares[..k]) + [g];
      r := r[g := SaturatingAdd(if g in r then r[g] else 0, shares[k].costMb)];
    }
    assert shares[..|shares|] == shares;
    forall g | g in r && g in Devices(shares)
      ensures r[g] == Saturated((if g in totals then totals[g] else 0) + CostOn(shares, g))
    {
      var j :| 0 <= j < |shares| && Devices(shares)[j] == g;
      CostOnDistinct(shares, j);
    }
  }

  method AddModel(models: seq<ModelConfig>, sel: Selection, i: nat, totals: map<GpuId, u64>)
    returns (r: map<GpuId, u64>)
    requires i < |models| && DistinctIds(models) && Distinct(models[i].gpus)
    requires Selected(models[i], sel) ==> EstimateVramMb(models[i]).Some?
    requires TotalsMatch(totals, models[..i], sel)
    ensures TotalsMatch(r, models[..i + 1], sel)
  {
    var m := models[i];
    if Selected(m, sel) && m.gpus != [] {
      r := AddShares(totals, SharesOf(m));
      OneMoreModel(models, sel, i, totals, r);
    } else {
      r := totals;
      SkippedModel(models, sel, i, totals);
    }
  }

  method AccumulateTotals(models: seq<ModelConfig>, sel: Selection) returns (r: Result<map<GpuId, u64>, ConfigError>)
    requires DistinctIds(models) && forall i :: 0 <= i < |models| ==> Distinct(models[i].gpus)
    ensures r.Ok? <==> EstimatesKnown(models, sel)
    ensures r.Ok? ==> TotalsMatch(r.value, models, sel)
    ensures r.Err? ==> exists i :: 0 <= i < |models| && Selected(models[i], sel) && EstimateVramMb(models[i]).None?
                                   && r.error == VramEstimateFailed(models[i].id)
  {
    var totals: map<GpuId, u64> := map[];
    for i := 0 to |models|
      invariant EstimatesKnown(models[..i], sel)
      invariant TotalsMatch(totals, models[..i], sel)
    {
      var m := models[i];
      if Selected(m, sel) && EstimateVramMb(m).None? {
        return Err(VramEstimateFailed(m.id));
      }
      EstimatesOneMore(models, sel, i);
      totals := AddModel(models, sel, i, totals);
    }
    assert models[..|models|] == models;
    return Ok(totals);
  }

  lemma EstimatesOneMore(models: seq<ModelConfig>, sel: Selection, i: nat)
    requires i < |models| && EstimatesKnown(models[..i], sel)
    requires Selected(models[i], sel) ==> EstimateVramMb(models[i]).Some?
    ensures EstimatesKnown(models[..i + 1], sel)
  {
  }

  lemma SkippedModel(models: seq<ModelConfig>, sel: Selection, i: nat, totals: map<GpuId, u64>)
    requires i < |models| && !Placed(models[i], sel) && TotalsMatch(totals, models[..i], sel)
    ensures TotalsMatch(totals, models[..i + 1], sel)
  {
    assert models[..i + 1][..i] == models[..i];
  }

  lemma OneMoreModel(models: seq<ModelConfig>, sel: Selection, i: nat, before: map<GpuId, u64>, after: map<GpuId, u64>)
    requires DistinctIds(models) && i < |models| && Placed(models[i], sel)
    requires TotalsMatch(before, models[..i], sel)
    requires after.Keys == before.Keys + set g | g in models[i].gpus
    requires forall g :: g in after ==>
               after[g] == if g in models[i].gpus
                           then Saturated((if g in before then before[g] else 0) + CostOn(SharesOf(models[i]), g))
                             else before[g]
    ensures TotalsMatch(after, models[..i + 1], sel)
  {
    var m := models[i];
    assert models[..i + 1][..i] == models[..i];
    forall g: GpuId
      ensures g in after <==> LoadOn(models[..i + 1], sel, g) != map[]
      ensures g in after ==> after[g] == Saturated(Sum(LoadOn(models[..i + 1], sel, g)))
    {
      if g in m.gpus {
        OneMoreLoad(models, sel, i, g);
      }
    }
  }

  lemma OneMoreLoad(models: seq<ModelConfig>, sel: Selection, i: nat, g: GpuId)
    requires DistinctIds(models) && i < |models| && Placed(models[i], sel) && g in models[i].gpus
    ensures LoadOn(models[..i + 1], sel, g) != map[]
    ensures Sum(LoadOn(models[..i + 1], sel, g)) == Sum(LoadOn(models[..i], sel, g)) + CostOn(SharesOf(models[i]), g)
  {
    var m := models[i];
    assert models[..i + 1][..i] == models[..i];
    NewId(models, sel, i, g);
    SumInsert(LoadOn(models[..i], sel, g), m.id, CostOn(SharesOf(m), g));
    assert m.id in LoadOn(models[..i + 1], sel, g);
  }

  lemma NewId(models: seq<ModelConfig>, sel: Selection, i: nat, g: GpuId)
    requires DistinctIds(models) && i < |models|
    ensures models[i].id !in LoadOn(models[..i], sel, g)
  {
    LoadOnIds(models[..i], sel, g, models[i].id);
  }

  /** The device is over its budget and none before it is. */
  ghost predicate FirstOver(models: seq<ModelConfig>, budgets: seq<u64>, sel: Selection, g: nat)
    requires g < |budgets|
  {
    && budgets[g] > 0 && Saturated(Sum(LoadOn(models, sel, g))) > budgets[g]
    && forall k :: 0 <= k < g && budgets[k] > 0 ==> Saturated(Sum(LoadOn(models, sel, k))) <= budgets[k]
  }

  ghost function OverError(models: seq<ModelConfig>, budgets: seq<u64>, sel: Selection, g: nat): ConfigError
    requires g < |budgets|
  {
    var total := Saturated(Sum(LoadOn(models, sel, g)));
    if sel.Eager? then EagerLoadsExceedBudget(g, total, budgets[g]) else PinnedExceedsBudget(g, total, budgets[g])
  }

  /** The first device, in id order, whose total exceeds a positive budget. */
  method CheckTotals(totals: map<GpuId, u64>, budgets: seq<u64>, models: seq<ModelConfig>, sel: Selection)
    returns (r: Option<ConfigError>)
    requires TotalsMatch(totals, models, sel)
    ensures r.None? <==> WithinTotals(models, budgets, sel)
    ensures r.Some? ==>
            exists g :: 0 <= g < |budgets| && FirstOver(models, budgets, sel, g)
              && r.value == OverError(models, budgets, sel, g)
  {
    for g := 0 to |budgets|
      invariant forall k :: 0 <= k < g && budgets[k] > 0 ==> Saturated(Sum(LoadOn(models, sel, k))) <= budgets[k]
    {
      if g in totals && budgets[g] > 0 && totals[g] > budgets[g] {
        assert FirstOver(models, budgets, sel, g);
        return Some(if sel.Eager? then EagerLoadsExceedBudget(g, totals[g], budgets[g])
                    else PinnedExceedsBudget(g, totals[g], budgets[g]));
      }
    }
    return None;
  }

  /** What is wrong with the totals, by the error that says so. */
  ghost predicate BadTotals(models: seq<ModelConfig>, budgets: seq<u64>, sel: Selection, e: ConfigError) {
    || (exists i :: 0 <= i < |models| && Selected(models[i], sel) && EstimateVramMb(models[i]).None?
                    && e == VramEstimateFailed(models[i].id))
    || exists g :: 0 <= g < |budgets| && FirstOver(models, budgets, sel, g) && e == OverError(models, budgets, sel, g)
  }

  method CheckSelection(models: seq<ModelConfig>, budgets: seq<u64>, sel: Selection) returns (r: Option<ConfigError>)
    requires DistinctIds(models) && forall i :: 0 <= i < |models| ==> Distinct(models[i].gpus)
    ensures r.None? <==> EstimatesKnown(models, sel) && WithinTotals(models, budgets, sel)
    ensures r.Some? ==> BadTotals(models, budgets, sel, r.value)
  {
    var totals := AccumulateTotals(models, sel);
    if totals.Err? {
      return Some(totals.error);
    }
    r := CheckTotals(totals.value, budgets, models, sel);
  }

  // ---------- validation ----------

  /** Everything the scheduling part of validation establishes. */
  ghost predicate Admitted(s: ServerConfig, models: seq<ModelConfig>, budgets: seq<u64>) {
    && models != [] && DistinctIds(models)
    && (forall i :: 0 <= i < |models| ==> ModelOk(models[i]))
    && Detectable(s) && BudgetsResolve(s, DeclaredDevices(models), budgets)
    && DevicesExist(models, |budgets|)
    && EstimatesKnown(models, Eager) && WithinTotals(models, budgets, Eager)
    && EstimatesKnown(models, Pinned) && WithinTotals(models, budgets, Pinned)
  }

  /** Every rejection is true of the configuration. */
  ghost predicate Truthful(s: ServerConfig, models: seq<ModelConfig>, budgets: seq<u64>, e: ConfigError) {
    || (e == NoModelsConfigured && models == [])
    || (exists i, j :: 0 <= i < j < |models| && models[i].id == models[j].id && e == DuplicateModelId(models[j].id))
    || (exists i :: 0 <= i < |models| && BadModel(models[i], e))
    || BadBudgets(s, DeclaredDevices(models), e)
    || (exists i, k :: 0 <= i < |models| && models[i].backend.Local? && 0 <= k < |models[i].gpus|
                       && models[i].gpus[k] >= |budgets| && e == GpuIdExceedsDetected(models[i].id, models[i].gpus[k]))
    || BadTotals(models, budgets, Eager, e) || BadTotals(models, budgets, Pinned, e)
  }

  /** The checks in source order; `budgets` is what the scheduler is built on. With a
      fixed budget there is one for every device up to the largest one named, so that no
      model can name a device without one. */
  method Validate(s: ServerConfig, models: seq<ModelConfig>) returns (r: Result<(), ConfigError>, budgets: seq<u64>)
    ensures r.Ok? ==> Admitted(s, models, budgets)
    ensures r.Err? ==> forall b :: !Admitted(s, models, b)
    ensures r.Err? ==> Truthful(s, models, budgets, r.error)
    ensures s.vramBudgetMb.Fixed? ==> !(r.Err? && r.error.GpuIdExceedsDetected?)
    ensures r.Ok? ==>
              forall i, k :: 0 <= i < |models| && 0 <= k < |models[i].gpus| ==> models[i].gpus[k] < |budgets|
    ensures r.Ok? && s.vramBudgetMb.Fixed? && |budgets| != 1 ==>
              exists i, k :: 0 <= i < |models| && 0 <= k < |models[i].gpus| && models[i].gpus[k] == |budgets| - 1
    ensures r.Ok? && s.vramBudgetMb.Auto? ==> s.detected.Some? && |budgets| == |s.detected.value|
  {
    budgets := [];
    if models == [] {
      return Err(NoModelsConfigured), budgets;
    }
    var failure := CheckIds(models);
    if failure.Some? {
      return Err(failure.value), budgets;
    }
    failure := CheckModels(models);
    if failure.Some? {
      return Err(failure.value), budgets;
    }
    var resolved := ResolveVramBudgets(s, DeclaredDevices(models));
    if resolved.Err? {
      return Err(resolved.error), budgets;
    }
    budgets := resolved.value;
    BudgetsUnique(s, DeclaredDevices(models), budgets);
    failure := CheckDevices(models, |budgets|);
    if failure.Some? {
      return Err(failure.value), budgets;
    }
    failure := CheckSelection(models, budgets, Eager);
    if failure.Some? {
      return Err(failure.value), budgets;
    }
    failure := CheckSelection(models, budgets, Pinned);
    if failure.Some? {
      return Err(failure.value), budgets;
    }
    return Ok(()), budgets;
  }

  lemma BudgetsUnique(s: ServerConfig, declared: nat, budgets: seq<u64>)
    requires BudgetsResolve(s, declared, budgets)
    ensures forall b :: BudgetsResolve(s, declared, b) ==> b == budgets
  {
  }
}
