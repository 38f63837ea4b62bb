/** Building blocks of the runs exhibited elsewhere: loading a model from start to
    end, taking one down, each as a sequence of protocol steps whose last state is
    spelled out (src/engine/llama/mod.rs). */
module ProtocolRuns {
  import opened Wrappers
  import opened MapSums
  import opened Placements
  import S = Scheduling
  import opened Protocol
  import opened ProtocolInvariant
  import opened ProtocolSteps
  import opened ProtocolSafety

  // ---------- which models can be loaded ----------

  /** The share's device exists, and keeps no accounts or has room for it alone. */
  predicate ShareFits(c: Config, share: Share) {
    share.gpu < |c.budgets| && (c.budgets[share.gpu] == 0 || share.costMb <= c.budgets[share.gpu])
  }

  predicate AllFit(c: Config, m: string, p: Placement)
    requires m in c.models
  {
    forall i :: 0 <= i < |Cost(c, m, p)| ==> ShareFits(c, Cost(c, m, p)[i])
  }

  predicate Accounted(c: Config, share: Share) {
    share.gpu < |c.budgets| && c.budgets[share.gpu] != 0
  }

  ghost predicate AnyAccounted(c: Config, m: string, p: Placement)
    requires m in c.models
  {
    exists i :: 0 <= i < |Cost(c, m, p)| && Accounted(c, Cost(c, m, p)[i])
  }

  /** The configured placement, or for an automatic model a device it can be given:
      one without a budget never has more left than another and so must be the last. */
  predicate MayUse(c: Config, m: string, p: Placement) {
    && m in c.models
    && if c.models[m].gpus == [] then p.SingleDevice? && MayChoose(c, p.gpu)
       else p == FromGpus(c.models[m].gpus).placement
  }

  predicate MayChoose(c: Config, g: GpuId) {
    g < |c.budgets| && (c.budgets[g] == 0 ==> g == |c.budgets| - 1)
  }

  /** The placement a load on an idle system gets. */
  predicate FirstChoice(c: Config, m: string, p: Placement) {
    && MayUse(c, m, p)
    && (c.models[m].gpus == [] ==> p == SingleDevice(S.LargestAt(c.budgets)))
  }

  /** On an idle system the model could be loaded with an entry on some device: for
      an explicit placement all devices exist, every share fits alone and one of them
      keeps accounts; for an automatic model some accounting device fits it. */
  ghost predicate Reservable(c: Config, m: string) {
    && m in c.models
    && if c.models[m].gpus == []
       then exists g :: 0 <= g < |c.budgets| && c.budgets[g] != 0 && c.models[m].estimatedMb <= c.budgets[g]
       else
         var p := FromGpus(c.models[m].gpus).placement;
         AllFit(c, m, p) && AnyAccounted(c, m, p)
  }

  lemma UsablePlacement(c: Config, m: string) returns (p: Placement)
    requires WellFormed(c) && Reservable(c, m)
    ensures FirstChoice(c, m, p) && p.WellFormed() && AllFit(c, m, p) && AnyAccounted(c, m, p)
  {
    if c.models[m].gpus == [] {
      var g :| 0 <= g < |c.budgets| && c.budgets[g] != 0 && c.models[m].estimatedMb <= c.budgets[g];
      var largest := S.LargestAt(c.budgets);
      assert c.budgets[g] <= c.budgets[largest];
      p := SingleDevice(largest);
      assert Cost(c, m, p) == [Share(largest, c.models[m].estimatedMb)];
      assert Accounted(c, Cost(c, m, p)[0]);
    } else {
      p := FromGpus(c.models[m].gpus).placement;
    }
  }

  lemma UsableDistinct(c: Config, m: string, p: Placement)
    requires WellFormed(c) && MayUse(c, m, p)
    ensures p.WellFormed() && Distinct(R.Devices(Cost(c, m, p))) && R.Devices(Cost(c, m, p)) == p.Gpus()
  {
    assert R.Devices(Cost(c, m, p)) == p.Gpus();
  }

  // ---------- states with one model and one moving task ----------

  /** Tables in which one model holds these shares where accounts are kept, and
      nobody else anything. */
  function Filled(c: Config, m: string, held: map<GpuId, nat>): (e: seq<map<string, nat>>)
    ensures |e| == |c.budgets|
    ensures forall g :: 0 <= g < |e| ==> e[g] == if c.budgets[g] != 0 && g in held then map[m := held[g]] else map[]
  {
    seq(|c.budgets|, g requires 0 <= g < |c.budgets| =>
      if c.budgets[g] != 0 && g in held then map[m := held[g]] else map[])
  }

  /** `s` with task t of model m at `pc`, the model's backend `b`, these tables and
      this holder of the coordinator. */
  function At(s: State, m: string, t: TaskId, kind: Kind, pc: PC, b: Backend, e: seq<map<string, nat>>,
              holder: Option<TaskId>): State
  {
    State(holder, s.backends[m := b], e, s.tasks[t := Task(m, kind, pc)])
  }

  lemma AtMoves(s: State, m: string, t: TaskId, kind: Kind, pc: PC, b: Backend, e: seq<map<string, nat>>,
                holder: Option<TaskId>, pc': PC, b': Backend)
    ensures Put(Move(At(s, m, t, kind, pc, b, e, holder), t, pc'), m, b') == At(s, m, t, kind, pc', b', e, holder)
    ensures Move(At(s, m, t, kind, pc, b, e, holder), t, pc') == At(s, m, t, kind, pc', b, e, holder)
  {
  }

  /** One more step. */
  lemma Then(c: Config, steps: seq<Step>, step: Step, s': State) returns (more: seq<Step>)
    requires Possible(c, steps) && Apply(c, After(c, steps), step) == Some(s')
    ensures more == steps + [step] && Possible(c, more) && After(c, more) == s'
  {
    more := steps + [step];
    assert more[..|more| - 1] == steps;
  }

  ghost predicate Ready(c: Config, s: State) {
    s.backends.Keys == c.models.Keys && |s.entries| == |c.budgets| && s.coordinator.None?
  }

  // ---------- loading ----------

  /** From the claim to the reserve loop, holding the coordinator. */
  lemma ClaimRun(c: Config, before: seq<Step>, m: string, t: TaskId) returns (steps: seq<Step>)
    requires Possible(c, before) && m in c.models && Ready(c, After(c, before))
    requires t !in After(c, before).tasks && After(c, before).backends[m].load == Unloaded
    ensures Possible(c, steps)
    ensures var s := After(c, before);
            After(c, steps) == At(s, m, t, Preload, Resolving, s.backends[m].(load := Loading(t)), s.entries, Some(t))
  {
    var s := After(c, before);
    var b := s.backends[m];
    var b1 := b.(load := Loading(t));
    assert s.backends[m := b] == s.backends;
    steps := Then(c, before, Start(t, m, Preload), At(s, m, t, Preload, Entering, b, s.entries, None));
    AtMoves(s, m, t, Preload, Entering, b, s.entries, None, Waiting, b1);
    steps := Then(c, steps, Advance(t, Proceed), At(s, m, t, Preload, Waiting, b1, s.entries, None));
    AtMoves(s, m, t, Preload, Waiting, b1, s.entries, None, Resolving, b1);
    steps := Then(c, steps, Advance(t, Proceed), At(s, m, t, Preload, Resolving, b1, s.entries, Some(t)));
  }

  /** Which entries the model has before its k-th share is reserved: all of them if
      an earlier load left them, else those reserved so far. */
  function HeldBefore(shares: seq<Share>, k: nat, already: bool): map<GpuId, nat>
    requires k <= |shares|
  {
    ShareMap(if already then shares else shares[..k])
  }

  lemma ReserveOne(c: Config, before: seq<Step>, s: State, m: string, t: TaskId, kind: Kind, b: Backend, p: Placement,
                   k: nat, already: bool)
    returns (steps: seq<Step>)
    requires WellFormed(c) && MayUse(c, m, p) && AllFit(c, m, p) && k < |Cost(c, m, p)|
    requires Possible(c, before) && s.backends.Keys == c.models.Keys
    requires After(c, before)
             == At(s, m, t, kind, Reserving(p, k), b, Filled(c, m, HeldBefore(Cost(c, m, p), k, already)), Some(t))
    ensures Possible(c, steps)
    ensures After(c, steps)
         == At(s, m, t, kind, Reserving(p, k + 1), b, Filled(c, m, HeldBefore(Cost(c, m, p), k + 1, already)),
           Some(t))
  {
    var shares := Cost(c, m, p);
    var e, e' := Filled(c, m, HeldBefore(shares, k, already)), Filled(c, m, HeldBefore(shares, k + 1, already));
    var now, next := At(s, m, t, kind, Reserving(p, k), b, e, Some(t)),
                     At(s, m, t, kind, Reserving(p, k + 1), b, e', Some(t));
    AtMoves(s, m, t, kind, Reserving(p, k), b, e, Some(t), Reserving(p, k + 1), b);
    UsableDistinct(c, m, p);
    assert ShareFits(c, shares[k]);
    TablesAfterOne(c, m, shares, k, already);
    assert Reserve(c, now, t) == Some(next);
    steps := Then(c, before, Advance(t, Proceed), next);
  }

  function With(table: map<string, nat>, m: string, costMb: nat): map<string, nat> {
    table[m := costMb]
  }

  lemma TablesAfterOne(c: Config, m: string, shares: seq<Share>, k: nat, already: bool)
    requires k < |shares| && Distinct(R.Devices(shares)) && ShareFits(c, shares[k])
    ensures var g, e, e' := shares[k].gpu, Filled(c, m, HeldBefore(shares, k, already)),
                           Filled(c, m, HeldBefore(shares, k + 1, already));
            if c.budgets[g] == 0 || m in e[g] then e' == e
            else Fits(e[g], c.budgets[g], shares[k].costMb) && e' == e[g := With(e[g], m, shares[k].costMb)]
  {
    var g := shares[k].gpu;
    var e, e' := Filled(c, m, HeldBefore(shares, k, already)), Filled(c, m, HeldBefore(shares, k + 1, already));
    if already {
      ShareMapAt(shares, k);
    } else {
      ShareMapExtend(shares, k);
      NotYetHeld(shares, k);
      if c.budgets[g] != 0 {
        assert e[g] == map[];
        assert e'[g] == With(e[g], m, shares[k].costMb);
      }
    }
  }

  lemma ReserveAll(c: Config, before: seq<Step>, s: State, m: string, t: TaskId, kind: Kind, b: Backend, p: Placement,
                   k: nat, already: bool)
    returns (steps: seq<Step>)
    requires WellFormed(c) && MayUse(c, m, p) && AllFit(c, m, p) && k <= |Cost(c, m, p)|
    requires Possible(c, before) && s.backends.Keys == c.models.Keys
    requires After(c, before)
             == At(s, m, t, kind, Reserving(p, k), b, Filled(c, m, HeldBefore(Cost(c, m, p), k, already)), Some(t))
    ensures Possible(c, steps)
    ensures After(c, steps) == At(s, m, t, kind, Committing(p), b, Filled(c, m, ShareMap(Cost(c, m, p))), Some(t))
    decreases |Cost(c, m, p)| - k
  {
    if k < |Cost(c, m, p)| {
      steps := ReserveOne(c, before, s, m, t, kind, b, p, k, already);
      steps := ReserveAll(c, steps, s, m, t, kind, b, p, k + 1, already);
    } else {
      assert Cost(c, m, p)[..k] == Cost(c, m, p);
      steps := AllReserved(c, before, s, m, t, kind, b, p, k);
    }
  }

  lemma AllReserved(c: Config, before: seq<Step>, s: State, m: string, t: TaskId, kind: Kind, b: Backend, p: Placement,
                    k: nat)
    returns (steps: seq<Step>)
    requires m in c.models && k == |Cost(c, m, p)| && Possible(c, before) && s.backends.Keys == c.models.Keys
    requires After(c, before) == At(s, m, t, kind, Reserving(p, k), b, Filled(c, m, ShareMap(Cost(c, m, p))), Some(t))
    ensures Possible(c, steps)
    ensures After(c, steps) == At(s, m, t, kind, Committing(p), b, Filled(c, m, ShareMap(Cost(c, m, p))), Some(t))
  {
    var e := Filled(c, m, ShareMap(Cost(c, m, p)));
    AtMoves(s, m, t, kind, Reserving(p, k), b, e, Some(t), Committing(p), b);
    steps := Then(c, before, Advance(t, Proceed), At(s, m, t, kind, Committing(p), b, e, Some(t)));
  }

  /** Nobody else has entries, and the model all of its own or none. */
  ghost predicate Clean(c: Config, s: State, m: string, p: Placement, already: bool)
    requires m in c.models
  {
    s.entries == Filled(c, m, if already then ShareMap(Cost(c, m, p)) else map[])
  }

  /** What is left on each device. */
  ghost function Frees(c: Config, e: seq<map<string, nat>>): (fs: seq<nat>)
    requires |e| == |c.budgets|
    ensures |fs| == |e|
    ensures forall g :: 0 <= g < |fs| ==> fs[g] == Free(e[g], c.budgets[g])
  {
    seq(|e|, g requires 0 <= g < |e| => Free(e[g], c.budgets[g]))
  }

  /** The point at which the first i devices have been looked at. */
  ghost function Looked(frees: seq<nat>, i: nat): PC
    requires i <= |frees|
  {
    if i == 0 then Choosing(0, 0, 0) else Choosing(i, S.LargestAt(frees[..i]), frees[S.LargestAt(frees[..i])])
  }

  lemma LookAtOne(c: Config, s: State, t: TaskId, i: nat)
    requires Known(c, s, t) && i < |s.entries| && s.tasks[t].pc == Looked(Frees(c, s.entries), i)
    ensures Choose(c, s, t) == Some(Move(s, t, Looked(Frees(c, s.entries), i + 1)))
  {
    var frees := Frees(c, s.entries);
    assert frees[..i + 1][..i] == frees[..i];
  }

  /** Nobody disturbing it, the scan takes the device the scheduler picks: the last of
      those with the most free budget. */
  lemma ScanRun(c: Config, before: seq<Step>, s: State, m: string, t: TaskId, kind: Kind, b: Backend,
                e: seq<map<string, nat>>, i: nat)
    returns (steps: seq<Step>)
    requires m in c.models && Possible(c, before) && s.backends.Keys == c.models.Keys && i <= |e| == |c.budgets|
    requires e != []
    requires After(c, before) == At(s, m, t, kind, Looked(Frees(c, e), i), b, e, Some(t))
    ensures Possible(c, steps)
    ensures After(c, steps) == At(s, m, t, kind, Reserving(SingleDevice(S.LargestAt(Frees(c, e))), 0), b, e, Some(t))
    decreases |e| - i
  {
    if i < |e| {
      steps := ScanOne(c, before, s, m, t, kind, b, e, i);
      steps := ScanRun(c, steps, s, m, t, kind, b, e, i + 1);
    } else {
      steps := ScanEnd(c, before, s, m, t, kind, b, e);
    }
  }

  lemma ScanOne(c: Config, before: seq<Step>, s: State, m: string, t: TaskId, kind: Kind, b: Backend,
                e: seq<map<string, nat>>, i: nat)
    returns (steps: seq<Step>)
    requires m in c.models && Possible(c, before) && s.backends.Keys == c.models.Keys && i < |e| == |c.budgets|
    requires After(c, before) == At(s, m, t, kind, Looked(Frees(c, e), i), b, e, Some(t))
    ensures Possible(c, steps) && After(c, steps) == At(s, m, t, kind, Looked(Frees(c, e), i + 1), b, e, Some(t))
  {
    var frees := Frees(c, e);
    AtMoves(s, m, t, kind, Looked(frees, i), b, e, Some(t), Looked(frees, i + 1), b);
    LookAtOne(c, At(s, m, t, kind, Looked(frees, i), b, e, Some(t)), t, i);
    steps := Then(c, before, Advance(t, Proceed), At(s, m, t, kind, Looked(frees, i + 1), b, e, Some(t)));
  }

  lemma ScanEnd(c: Config, before: seq<Step>, s: State, m: string, t: TaskId, kind: Kind, b: Backend,
                e: seq<map<string, nat>>)
    returns (steps: seq<Step>)
    requires m in c.models && Possible(c, before) && s.backends.Keys == c.models.Keys && 0 < |e| == |c.budgets|
    requires After(c, before) == At(s, m, t, kind, Looked(Frees(c, e), |e|), b, e, Some(t))
    ensures Possible(c, steps)
    ensures After(c, steps) == At(s, m, t, kind, Reserving(SingleDevice(S.LargestAt(Frees(c, e))), 0), b, e, Some(t))
  {
    var frees := Frees(c, e);
    assert frees[..|e|] == frees;
    var pc' := Reserving(SingleDevice(S.LargestAt(frees)), 0);
    AtMoves(s, m, t, kind, Looked(frees, |e|), b, e, Some(t), pc', b);
    steps := Then(c, before, Advance(t, Proceed), At(s, m, t, kind, pc', b, e, Some(t)));
  }

  /** Whatever fits some device that keeps accounts fits the device the scan takes, which
      keeps accounts too; a device behind it lacks room for something. */
  lemma ScanTakesRoomiest(c: Config, e: seq<map<string, nat>>, h: nat, costMb: u64)
    requires h < |e| == |c.budgets| && c.budgets[h] < U64_MAX
    ensures var g := S.LargestAt(Frees(c, e));
            && g < |e|
            && (0 < costMb && Fits(e[h], c.budgets[h], costMb) ==>
                  c.budgets[g] != 0 && Fits(e[g], c.budgets[g], costMb))
            && (g < h ==> exists n: u64 :: Fits(e[g], c.budgets[g], n) && !Fits(e[h], c.budgets[h], n))
  {
    var frees := Frees(c, e);
    var g := S.LargestAt(frees);
    if g < h {
      var n: u64 := frees[g];
      assert Fits(e[g], c.budgets[g], n) && !Fits(e[h], c.budgets[h], n);
    }
  }

  /** The placement is committed, or the model automatic and everything free. */
  ghost predicate Resolvable(c: Config, b: Backend, m: string, p: Placement, e: seq<map<string, nat>>)
    requires m in c.models
  {
    b.placement == Resolved(p)
    || (b.placement.Auto? && c.models[m].gpus == [] && FirstChoice(c, m, p) && e == Filled(c, m, map[]))
  }

  lemma EverythingFree(c: Config, m: string)
    ensures Frees(c, Filled(c, m, map[])) == c.budgets
  {
    var none: map<string, nat> := map[];
    assert Sum(none) == 0;
  }

  lemma ResolveRun(c: Config, before: seq<Step>, s: State, m: string, t: TaskId, kind: Kind, b: Backend, p: Placement)
    returns (steps: seq<Step>)
    requires m in c.models && Possible(c, before) && s.backends.Keys == c.models.Keys && |s.entries| == |c.budgets|
    requires Resolvable(c, b, m, p, s.entries)
    requires After(c, before) == At(s, m, t, kind, Resolving, b, s.entries, Some(t))
    ensures Possible(c, steps)
    ensures After(c, steps) == At(s, m, t, kind, Reserving(p, 0), b, s.entries, Some(t))
  {
    var e := s.entries;
    if b.placement.Resolved? {
      AtMoves(s, m, t, kind, Resolving, b, e, Some(t), Reserving(p, 0), b);
      steps := Then(c, before, Advance(t, Proceed), At(s, m, t, kind, Reserving(p, 0), b, e, Some(t)));
    } else {
      EverythingFree(c, m);
      AtMoves(s, m, t, kind, Resolving, b, e, Some(t), Choosing(0, 0, 0), b);
      steps := Then(c, before, Advance(t, Proceed), At(s, m, t, kind, Choosing(0, 0, 0), b, e, Some(t)));
      steps := ScanRun(c, steps, s, m, t, kind, b, e, 0);
    }
  }

  /** Claim and reserve; the placement is not committed yet. */
  lemma ReserveRun(c: Config, before: seq<Step>, m: string, t: TaskId, p: Placement, already: bool)
    returns (steps: seq<Step>)
    requires WellFormed(c) && MayUse(c, m, p) && AllFit(c, m, p)
    requires Possible(c, before) && Ready(c, After(c, before)) && t !in After(c, before).tasks
    requires After(c, before).backends[m].load == Unloaded
    requires Resolvable(c, After(c, before).backends[m], m, p, After(c, before).entries)
    requires Clean(c, After(c, before), m, p, already)
    ensures Possible(c, steps)
    ensures var s := After(c, before);
            After(c, steps) == At(s, m, t, Preload, Committing(p), s.backends[m].(load := Loading(t)),
                                  Filled(c, m, ShareMap(Cost(c, m, p))), Some(t))
  {
    var s := After(c, before);
    var b := s.backends[m].(load := Loading(t));
    UsableDistinct(c, m, p);
    steps := ClaimRun(c, before, m, t);
    steps := ReserveClaimed(c, steps, s, m, t, Preload, b, p, already);
  }

  /** The same for a leader of either kind that has the coordinator. */
  lemma ReserveClaimed(c: Config, before: seq<Step>, s: State, m: string, t: TaskId, kind: Kind, b: Backend,
                       p: Placement, already: bool)
    returns (steps: seq<Step>)
    requires WellFormed(c) && MayUse(c, m, p) && AllFit(c, m, p)
    requires Possible(c, before) && s.backends.Keys == c.models.Keys && |s.entries| == |c.budgets|
    requires After(c, before) == At(s, m, t, kind, Resolving, b, s.entries, Some(t))
    requires Resolvable(c, b, m, p, s.entries) && Clean(c, s, m, p, already)
    ensures Possible(c, steps)
    ensures After(c, steps) == At(s, m, t, kind, Committing(p), b, Filled(c, m, ShareMap(Cost(c, m, p))), Some(t))
  {
    UsableDistinct(c, m, p);
    assert AllFit(c, m, p) ==> ShareFits(c, Cost(c, m, p)[0]);
    steps := ResolveRun(c, before, s, m, t, kind, b, p);
    assert Cost(c, m, p)[..0] == [];
    steps := ReserveAll(c, steps, s, m, t, kind, b, p, 0, already);
  }

  /** Commit the placement and read it back. */
  lemma CommitRun(c: Config, before: seq<Step>, s: State, m: string, t: TaskId, kind: Kind, b: Backend, p: Placement)
    returns (steps: seq<Step>)
    requires m in c.models && Possible(c, before) && s.backends.Keys == c.models.Keys && Candidate(b, p)
    requires After(c, before) == At(s, m, t, kind, Committing(p), b, Filled(c, m, ShareMap(Cost(c, m, p))), Some(t))
    ensures Possible(c, steps)
    ensures After(c, steps) == At(s, m, t, kind, Spawning(p), b.(placement := Resolved(p)),
                                  Filled(c, m, ShareMap(Cost(c, m, p))), Some(t))
  {
    var e := Filled(c, m, ShareMap(Cost(c, m, p)));
    var b1 := b.(placement := Resolved(p));
    AtMoves(s, m, t, kind, Committing(p), b, e, Some(t), ReadingPlacement(p), b1);
    steps := Then(c, before, Advance(t, Proceed), At(s, m, t, kind, ReadingPlacement(p), b1, e, Some(t)));
    AtMoves(s, m, t, kind, ReadingPlacement(p), b1, e, Some(t), Spawning(p), b1);
    steps := Then(c, steps, Advance(t, Proceed), At(s, m, t, kind, Spawning(p), b1, e, Some(t)));
  }

  /** A request is handed its guard; a preload is through. */
  function Served(kind: Kind): PC {
    if kind.Request? then Holding else Done
  }

  lemma SpawnRun(c: Config, before: seq<Step>, s: State, m: string, t: TaskId, kind: Kind, b: Backend, p: Placement)
    returns (steps: seq<Step>)
    requires m in c.models && Possible(c, before) && s.backends.Keys == c.models.Keys
    requires After(c, before) == At(s, m, t, kind, Spawning(p), b, Filled(c, m, ShareMap(Cost(c, m, p))), Some(t))
    ensures Possible(c, steps)
    ensures After(c, steps) == At(s, m, t, kind, Served(kind), b.(load := Loaded, worker := Some(Worker(t, p))),
                                  Filled(c, m, ShareMap(Cost(c, m, p))), None)
  {
    var e := Filled(c, m, ShareMap(Cost(c, m, p)));
    var b1 := b.(worker := Some(Worker(t, p)));
    AtMoves(s, m, t, kind, Spawning(p), b, e, Some(t), AwaitingLoad(p), b1);
    steps := Then(c, before, Advance(t, Proceed), At(s, m, t, kind, AwaitingLoad(p), b1, e, Some(t)));
    steps := LoadedRun(c, steps, s, m, t, kind, b1, p, e);
  }

  /** The worker has loaded the model; the coordinator goes back. */
  lemma LoadedRun(c: Config, before: seq<Step>, s: State, m: string, t: TaskId, kind: Kind, b: Backend, p: Placement,
                  e: seq<map<string, nat>>)
    returns (steps: seq<Step>)
    requires m in c.models && Possible(c, before) && s.backends.Keys == c.models.Keys && |e| == |c.budgets|
    requires After(c, before) == At(s, m, t, kind, AwaitingLoad(p), b, e, Some(t))
    ensures Possible(c, steps)
    ensures After(c, steps) == At(s, m, t, kind, Served(kind), b.(load := Loaded), e, None)
  {
    var b' := b.(load := Loaded);
    AtMoves(s, m, t, kind, AwaitingLoad(p), b, e, Some(t), Finishing, b');
    steps := Then(c, before, Advance(t, Proceed), At(s, m, t, kind, Finishing, b', e, Some(t)));
    AtMoves(s, m, t, kind, Finishing, b', e, Some(t), Served(kind), b');
    steps := Then(c, steps, Advance(t, Proceed), At(s, m, t, kind, Served(kind), b', e, None));
  }

  /** A whole load that succeeds. */
  lemma LoadRun(c: Config, before: seq<Step>, m: string, t: TaskId, p: Placement, already: bool)
    returns (steps: seq<Step>)
    requires WellFormed(c) && MayUse(c, m, p) && AllFit(c, m, p)
    requires Possible(c, before) && Ready(c, After(c, before)) && t !in After(c, before).tasks
    requires After(c, before).backends[m].load == Unloaded
    requires Resolvable(c, After(c, before).backends[m], m, p, After(c, before).entries)
    requires Clean(c, After(c, before), m, p, already)
    ensures Possible(c, steps)
    ensures var s := After(c, before);
            After(c, steps) == At(s, m, t, Preload, Done,
                                  s.backends[m].(load := Loaded, placement := Resolved(p),
                                    worker := Some(Worker(t, p))),
                                  Filled(c, m, ShareMap(Cost(c, m, p))), None)
  {
    var s := After(c, before);
    var b := s.backends[m].(load := Loading(t));
    steps := ReserveRun(c, before, m, t, p, already);
    steps := CommitRun(c, steps, s, m, t, Preload, b, p);
    steps := SpawnRun(c, steps, s, m, t, Preload, b.(placement := Resolved(p)), p);
  }

  /** The first load of all. */
  lemma FirstLoad(c: Config, m: string, p: Placement) returns (steps: seq<Step>)
    requires WellFormed(c) && FirstChoice(c, m, p) && AllFit(c, m, p)
    ensures Possible(c, steps)
    ensures After(c, steps) == At(Init(c), m, 0, Preload, Done, Backend(Loaded, Resolved(p), 0, Some(Worker(0, p))),
                                  Filled(c, m, ShareMap(Cost(c, m, p))), None)
  {
    assert Exec(c, []) == Some(Init(c));
    assert Init(c).entries == Filled(c, m, map[]);
    steps := LoadRun(c, [], m, 0, p, false);
  }

  // ---------- taking down ----------

  /** An unload from outside, up to the point where the worker is being stopped. */
  lemma TakeDownRun(c: Config, before: seq<Step>, m: string, t: TaskId) returns (steps: seq<Step>)
    requires Possible(c, before) && m in c.models && Ready(c, After(c, before)) && t !in After(c, before).tasks
    requires After(c, before).backends[m].load == Loaded && After(c, before).backends[m].inFlight == 0
    ensures Possible(c, steps)
    ensures var s := After(c, before);
            var b := s.backends[m];
            After(c, steps) == At(s, m, t, Unload, Stopping(m, Starter(b), ToCaller), b.(load := Unloaded), s.entries,
                                  if c.unloadsLocked then Some(t) else None)
  {
    var s := After(c, before);
    var b := s.backends[m];
    var holder := if c.unloadsLocked then Some(t) else None;
    assert s.backends[m := b] == s.backends;
    steps := Then(c, before, Start(t, m, Unload), At(s, m, t, Unload, UnloadWaiting, b, s.entries, None));
    AtMoves(s, m, t, Unload, UnloadWaiting, b, s.entries, None, Checking, b);
    steps := Then(c, steps, Advance(t, Proceed), At(s, m, t, Unload, Checking, b, s.entries, holder));
    steps := CheckRun(c, steps, s, m, t, b, holder);
  }

  /** The check that finds the model loaded and idle. */
  lemma CheckRun(c: Config, before: seq<Step>, s: State, m: string, t: TaskId, b: Backend, holder: Option<TaskId>)
    returns (steps: seq<Step>)
    requires Possible(c, before) && m in c.models && s.backends.Keys == c.models.Keys && |s.entries| == |c.budgets|
    requires After(c, before) == At(s, m, t, Unload, Checking, b, s.entries, holder)
    requires b.load == Loaded && b.inFlight == 0
    ensures Possible(c, steps)
    ensures After(c, steps) == At(s, m, t, Unload, Stopping(m, Starter(b), ToCaller), b.(load := Unloaded), s.entries,
                                  holder)
  {
    AtMoves(s, m, t, Unload, Checking, b, s.entries, holder, Stopping(m, Starter(b), ToCaller), b.(load := Unloaded));
    steps := Then(c, before, Advance(t, Proceed),
                  At(s, m, t, Unload, Stopping(m, Starter(b), ToCaller), b.(load := Unloaded), s.entries, holder));
  }

  /** Load, start an unload, drop it: the model is unloaded and keeps its entries. */
  lemma DroppedUnloadRun(c: Config, m: string, p: Placement) returns (steps: seq<Step>)
    requires WellFormed(c) && FirstChoice(c, m, p) && AllFit(c, m, p) && !c.detached
    ensures Possible(c, steps)
    ensures After(c, steps) == State(None, Init(c).backends[m := Backend(Unloaded, Resolved(p), 0, Some(Worker(0, p)))],
                                     Filled(c, m, ShareMap(Cost(c, m, p))),
                                     map[0 := Task(m, Preload, Done), 1 := Task(m, Unload, Done)])
  {
    var e := Filled(c, m, ShareMap(Cost(c, m, p)));
    steps := FirstLoad(c, m, p);
    var s := After(c, steps);
    steps := TakeDownRun(c, steps, m, 1);
    steps := DropStopping(c, steps, s, m, s.backends[m].(load := Unloaded), e);
    assert s.tasks == map[0 := Task(m, Preload, Done)];
    assert s.tasks[1 := Task(m, Unload, Done)] == map[0 := Task(m, Preload, Done), 1 := Task(m, Unload, Done)];
    assert s.backends[m := Backend(Unloaded, Resolved(p), 0, Some(Worker(0, p)))]
        == Init(c).backends[m := Backend(Unloaded, Resolved(p), 0, Some(Worker(0, p)))];
  }

  /** The handler of an unload is dropped while it waits for the worker to stop. */
  lemma DropStopping(c: Config, before: seq<Step>, s: State, m: string, b: Backend, e: seq<map<string, nat>>)
    returns (steps: seq<Step>)
    requires !c.detached && m in c.models && s.backends.Keys == c.models.Keys && |e| == |c.budgets|
    requires Possible(c, before)
    requires After(c, before)
             == At(s, m, 1, Unload, Stopping(m, Starter(b), ToCaller), b, e, if c.unloadsLocked then Some(1) else None)
    ensures Possible(c, steps)
    ensures After(c, steps) == At(s, m, 1, Unload, Done, b, e, None)
  {
    var holder := if c.unloadsLocked then Some(1) else None;
    AtMoves(s, m, 1, Unload, Stopping(m, Starter(b), ToCaller), b, e, holder, Done, b);
    steps := Then(c, before, Cancel(1), At(s, m, 1, Unload, Done, b, e, None));
  }
}
