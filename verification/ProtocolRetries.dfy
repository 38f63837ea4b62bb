/** When the reserve, evict, retry loop gets anywhere (src/engine/llama/mod.rs:275-360):
    what the picker may choose, that in careful systems every retry has taken an entry
    away, and exactly which retries leave everything as it was. */
module ProtocolRetries {
  import opened Wrappers
  import opened Placements
  import S = Scheduling
  import opened Protocol
  import opened ProtocolInvariant
  import opened ProtocolSteps
  import opened ProtocolSafety
  import opened ProtocolGuards

  // ---------- the picker ----------

  lemma {:induction false} SameCost(ids: seq<string>, eligible: map<string, S.Candidate>, costs: map<string, nat>)
    requires S.CandidateCosts(eligible) == costs
    requires forall i :: 0 <= i < |ids| ==> ids[i] in eligible
    ensures S.ChosenCost(ids, eligible) == CostOfIds(ids, costs)
    decreases |ids|
  {
    if ids != [] {
      SameCost(ids[..|ids| - 1], eligible, costs);
    }
  }

  lemma CostsFit(costs: map<string, nat>, ages: map<string, nat>) returns (eligible: map<string, S.Candidate>)
    requires costs.Keys <= ages.Keys && forall id :: id in costs ==> costs[id] <= U64_MAX
    ensures eligible.Keys == costs.Keys && S.CandidateCosts(eligible) == costs
    ensures forall id :: id in eligible ==> eligible[id].lastUsedMs == ages[id]
  {
    eligible := map id | id in costs :: S.Candidate(id, costs[id], ages[id]);
  }

  /** What the scheduler's picker promises, some models being used longer ago than
      others, is what a step may pick ... */
  lemma PickerPicks(ids: seq<string>, eligible: map<string, S.Candidate>, neededMb: nat)
    requires S.LeastRecentlyUsedChoice(ids, eligible, neededMb)
    ensures Picks(ids, S.CandidateCosts(eligible), neededMb)
  {
    SameCost(ids, eligible, S.CandidateCosts(eligible));
    SameCost(ids[..|ids| - 1], eligible, S.CandidateCosts(eligible));
  }

  /** ... and whatever a step may pick is what it promises for models of some ages. */
  lemma PickedForSomeAges(ids: seq<string>, costs: map<string, nat>, neededMb: nat)
    returns (eligible: map<string, S.Candidate>)
    requires Picks(ids, costs, neededMb) && forall id :: id in costs ==> costs[id] <= U64_MAX
    ensures S.CandidateCosts(eligible) == costs && S.LeastRecentlyUsedChoice(ids, eligible, neededMb)
  {
    var ages: map<string, nat> := map id | id in costs :: Place(ids, id);
    eligible := CostsFit(costs, ages);
    forall i | 0 <= i < |ids|
      ensures eligible[ids[i]].lastUsedMs == i
    {
      PlaceIs(ids, i);
    }
    forall id | id in costs
      ensures eligible[id].lastUsedMs <= |ids| && (id !in ids ==> eligible[id].lastUsedMs == |ids|)
    {
      PlaceBound(ids, id);
    }
    SameCost(ids, eligible, costs);
    SameCost(ids[..|ids| - 1], eligible, costs);
  }

  /** Where the id first is in the list; behind the end if nowhere. */
  function Place(ids: seq<string>, id: string): nat {
    if ids == [] || ids[0] == id then 0 else 1 + Place(ids[1..], id)
  }

  lemma {:induction false} PlaceIs(ids: seq<string>, i: nat)
    requires Distinct(ids) && i < |ids|
    ensures Place(ids, ids[i]) == i
    decreases i
  {
    if i > 0 {
      assert ids[0] != ids[i];
      PlaceIs(ids[1..], i - 1);
    }
  }

  lemma {:induction false} PlaceBound(ids: seq<string>, id: string)
    ensures Place(ids, id) <= |ids|
    ensures id !in ids ==> Place(ids, id) == |ids|
    decreases |ids|
  {
    if ids != [] && ids[0] != id {
      PlaceBound(ids[1..], id);
    }
  }

  // ---------- a round, seen from its start ----------

  /** In the reserve loop. */
  predicate Looping(pc: PC) {
    pc.Resolving? || pc.Choosing? || pc.Reserving? || pc.RollingBack? || pc.Picking? || pc.Evicting? || ForLeader(pc)
  }

  /** Out of it for good. */
  predicate Past(pc: PC) {
    || pc.Committing? || pc.ReadingPlacement? || pc.Spawning? || pc.AwaitingLoad? || pc.Abandoning? || pc.Failing?
    || pc.PlacementStillAuto? || pc.Failed? || pc.Finishing? || pc.Dropping? || pc.Holding? || pc.Sending?
    || pc.WorkerNotReady? || pc.Done?
  }

  /** Nobody but the leader's own model has an entry it did not have. */
  ghost predicate NothingNew(s0: State, s: State, m: string) {
    && |s.entries| == |s0.entries|
    && forall g, id {:trigger id in s.entries[g]} :: 0 <= g < |s.entries| && id != m && id in s.entries[g] ==>
      id in s0.entries[g]
  }

  /** Another model's entry is gone. */
  ghost predicate TookOne(s0: State, s: State, m: string) {
    |s.entries| == |s0.entries| && exists g, id :: Took(s0, s, m, g, id)
  }

  ghost predicate Took(s0: State, s: State, m: string, g: nat, id: string)
    requires |s.entries| == |s0.entries|
  {
    g < |s.entries| && id != m && id in s0.entries[g] && id !in s.entries[g]
  }

  ghost predicate HasEntry(s: State, id: string) {
    exists g :: 0 <= g < |s.entries| && id in s.entries[g]
  }

  /** Distinct models other than m, each with an entry somewhere. */
  ghost predicate StillThere(s: State, victims: seq<string>, m: string) {
    Distinct(victims) && forall i :: 0 <= i < |victims| ==> victims[i] != m && HasEntry(s, victims[i])
  }

  /** A leader that takes `id` down took it from the tables of s0 and has more victims. */
  ghost predicate TakingDown(s0: State, s: State, id: string, back: Return, m: string) {
    back.NextVictim? ==> id != m && HasEntry(s0, id) && id !in back.rest && StillThere(s, back.rest, m)
  }

  /** Where a leader of model m is with the round it began at s0. */
  ghost predicate RoundAt(s0: State, s: State, pc: PC, m: string) {
    match pc
    case Resolving => TookOne(s0, s, m)
    case Evicting(victims, any) => StillThere(s, victims, m) && (any ==> TookOne(s0, s, m))
    case Stopping(id, _, back) => TakingDown(s0, s, id, back, m)
    case Releasing(id, _, _, back) => TakingDown(s0, s, id, back, m)
    case Resetting(id, back) => TakingDown(s0, s, id, back, m)
    case _ => true
  }

  ghost predicate Round(s0: State, s: State, t: TaskId, m: string) {
    t in s.tasks && s.tasks[t].model == m && NothingNew(s0, s, m) && RoundAt(s0, s, s.tasks[t].pc, m)
  }

  // ---------- other tasks ----------

  /** While a leader of a careful system is inside, nobody else moves it or the tables. */
  lemma OthersStandBack(c: Config, s: State, t: TaskId, step: Step, s': State)
    requires c.detached && OneInside(s) && t in s.tasks && Inside(s.tasks[t].pc)
    requires Apply(c, s, step) == Some(s') && !(step.Advance? && step.t == t)
    ensures s'.entries == s.entries && t in s'.tasks && s'.tasks[t] == s.tasks[t]
  {
    if step.Advance? {
      OtherTaskOutside(s, t, step.t);
      OtherTaskKeepsEntries(c, s, step.t, step.choice, s');
    }
  }

  // ---------- the leader's own steps ----------

  /** What a leader needs to know of the tables. */
  ghost predicate Settled(c: Config, s: State) {
    && s.backends.Keys == c.models.Keys && |s.entries| == |c.budgets|
    && (forall g :: 0 <= g < |s.entries| ==> s.entries[g].Keys <= c.models.Keys)
    && OneInside(s) && EntriesMatch(c, s)
  }

  lemma SettledFromInv(c: Config, s: State)
    requires Inv(c, s)
    ensures Settled(c, s)
  {
  }

  /** In a careful system an entry is that of a loaded model, while the holder is not
      reserving, releasing or taking down. */
  lemma EntryMeansLoaded(c: Config, s: State, t: TaskId, id: string)
    requires Settled(c, s) && t in s.tasks && NoWindow(s.tasks[t].pc) && HasEntry(s, id)
    ensures id in c.models && s.backends[id].load == Loaded
  {
    var g :| 0 <= g < |s.entries| && id in s.entries[g];
    assert id in c.models && Inside(s.tasks[t].pc);
    HolderHoldsNothing(c, s, t, id);
    assert EntryMatches(s.entries[g], c.budgets[g], id, ShareMap(HeldShares(c, Holder(s), id, s.backends[id])), g);
  }

  lemma HolderHoldsNothing(c: Config, s: State, t: TaskId, id: string)
    requires OneInside(s) && t in s.tasks && NoWindow(s.tasks[t].pc) && id in c.models && id in s.backends
    ensures HeldShares(c, Holder(s), id, s.backends[id])
         == if s.backends[id].load == Loaded then PlacedShares(c, id, s.backends[id]) else []
  {
    assert Inside(s.tasks[t].pc);
  }

  lemma NotLoadedNoEntry(c: Config, s: State, t: TaskId, id: string)
    requires Settled(c, s) && t in s.tasks && NoWindow(s.tasks[t].pc)
    requires id in s.backends && s.backends[id].load != Loaded
    ensures !HasEntry(s, id)
  {
    if HasEntry(s, id) {
      EntryMeansLoaded(c, s, t, id);
      assert false;
    }
  }

  /** Steps that move no table but the leader's own model's. */
  lemma ReservingRound(c: Config, s0: State, s: State, t: TaskId, choice: Choice, s': State, m: string)
    requires Known(c, s, t) && TaskStep(c, s, t, choice) == Some(s') && s.tasks[t].model == m && NothingNew(s0, s, m)
    requires s.tasks[t].pc.Choosing? || s.tasks[t].pc.Reserving? || s.tasks[t].pc.RollingBack?
    ensures t in s'.tasks && s'.tasks[t].model == m && NothingNew(s0, s', m)
    ensures s'.tasks[t].pc.Choosing? || s'.tasks[t].pc.Reserving? || s'.tasks[t].pc.RollingBack?
            || s'.tasks[t].pc.Picking?
            || Past(s'.tasks[t].pc)
  {
  }

  lemma PickingRound(c: Config, s0: State, s: State, t: TaskId, choice: Choice, s': State, m: string)
    requires Settled(c, s) && Known(c, s, t) && Round(s0, s, t, m) && s.tasks[t].pc.Picking?
    requires s.backends[m].load != Loaded
    requires Pick(c, s, t, choice) == Some(s')
    ensures t in s'.tasks && (Past(s'.tasks[t].pc) || Round(s0, s', t, m))
  {
    if choice.Victims? {
      NotLoadedNoEntry(c, s, t, m);
      PickedAreThere(c, s, s.tasks[t].pc.gpu, choice.victims, s.tasks[t].pc.neededMb, m);
      EntriesStill(s, s', choice.victims, m);
    }
  }

  lemma PickedAreThere(c: Config, s: State, g: GpuId, victims: seq<string>, neededMb: nat, m: string)
    requires Picks(victims, Eligible(c, s, g), neededMb) && !HasEntry(s, m)
    ensures StillThere(s, victims, m)
  {
    forall i | 0 <= i < |victims|
      ensures victims[i] != m && HasEntry(s, victims[i])
    {
      assert victims[i] in Eligible(c, s, g);
      assert g < |s.entries| && victims[i] in s.entries[g];
    }
  }

  lemma EvictingRound(c: Config, s0: State, s: State, t: TaskId, s': State, m: string)
    requires Settled(c, s) && Known(c, s, t) && Round(s0, s, t, m) && s.tasks[t].pc.Evicting?
    requires Evict(c, s, t) == Some(s')
    ensures t in s'.tasks && (Past(s'.tasks[t].pc) || Round(s0, s', t, m))
  {
    if s.tasks[t].pc.victims == [] {
      RoundEnds(c, s0, s, t, s', m);
    } else {
      EntryMeansLoaded(c, s, t, s.tasks[t].pc.victims[0]);
      EvictNext(c, s, t, s');
      NextVictimRound(s0, s, t, s', m);
    }
  }

  lemma RoundEnds(c: Config, s0: State, s: State, t: TaskId, s': State, m: string)
    requires Known(c, s, t) && Round(s0, s, t, m) && s.tasks[t].pc.Evicting? && s.tasks[t].pc.victims == []
    requires Evict(c, s, t) == Some(s')
    ensures t in s'.tasks && (Past(s'.tasks[t].pc) || Round(s0, s', t, m))
  {
    TookStill(s0, s, s', m);
  }

  lemma NextVictimRound(s0: State, s: State, t: TaskId, s': State, m: string)
    requires Round(s0, s, t, m) && s.tasks[t].pc.Evicting? && s.tasks[t].pc.victims != []
    requires s'.entries == s.entries && t in s'.tasks && s'.tasks[t].model == m
    requires var pc, pc' := s.tasks[t].pc, s'.tasks[t].pc;
             || pc' == Evicting(pc.victims[1..], pc.any)
             || (pc'.Stopping? && pc'.id == pc.victims[0] && pc'.back == NextVictim(pc.victims[1..]))
    ensures Round(s0, s', t, m)
  {
    var vs := s.tasks[t].pc.victims;
    VictimsBehind(s0, s, vs, m);
    EntriesStill(s, s', vs[1..], m);
    TookStill(s0, s, s', m);
  }

  lemma TookStill(s0: State, s: State, s': State, m: string)
    requires s'.entries == s.entries && NothingNew(s0, s, m)
    ensures NothingNew(s0, s', m) && (TookOne(s0, s, m) ==> TookOne(s0, s', m))
  {
    if TookOne(s0, s, m) {
      var g, id :| Took(s0, s, m, g, id);
      assert Took(s0, s', m, g, id);
    }
  }

  /** A victim that is loaded is skipped if busy and taken down otherwise. */
  lemma EvictNext(c: Config, s: State, t: TaskId, s': State)
    requires Known(c, s, t) && s.tasks[t].pc.Evicting? && s.tasks[t].pc.victims != [] && Evict(c, s, t) == Some(s')
    requires var v := s.tasks[t].pc.victims[0];
             v in c.models && s.backends[v].load == Loaded
    ensures s'.entries == s.entries && t in s'.tasks && s'.tasks[t].model == s.tasks[t].model
    ensures var pc, pc' := s.tasks[t].pc, s'.tasks[t].pc;
            if s.backends[pc.victims[0]].inFlight > 0 then pc' == Evicting(pc.victims[1..], pc.any)
            else pc'.Stopping? && pc'.id == pc.victims[0] && pc'.back == NextVictim(pc.victims[1..])
  {
  }

  lemma VictimsBehind(s0: State, s: State, vs: seq<string>, m: string)
    requires vs != [] && StillThere(s, vs, m) && NothingNew(s0, s, m)
    ensures vs[0] != m && HasEntry(s0, vs[0]) && vs[0] !in vs[1..] && StillThere(s, vs[1..], m)
  {
    var g :| 0 <= g < |s.entries| && vs[0] in s.entries[g];
    assert vs[0] in s0.entries[g];
    forall i | 0 <= i < |vs[1..]|
      ensures vs[1..][i] != vs[0] && vs[1..][i] != m && HasEntry(s, vs[1..][i])
    {
      assert vs[1..][i] == vs[i + 1];
    }
  }

  lemma EntriesStill(s: State, s': State, victims: seq<string>, m: string)
    requires s'.entries == s.entries && StillThere(s, victims, m)
    ensures StillThere(s', victims, m)
  {
    forall i | 0 <= i < |victims|
      ensures HasEntry(s', victims[i])
    {
      assert HasEntry(s, victims[i]);
    }
  }

  /** Stopping a worker moves no table. */
  lemma StoppingRound(c: Config, s0: State, s: State, t: TaskId, s': State, m: string)
    requires Known(c, s, t) && Round(s0, s, t, m) && s.tasks[t].pc.Stopping? && s.tasks[t].pc.back.NextVictim?
    requires Stop(c, s, t) == Some(s')
    ensures Round(s0, s', t, m)
  {
    EntriesStill(s, s', s.tasks[t].pc.back.rest, m);
  }

  lemma ReleasingRound(c: Config, s0: State, s: State, t: TaskId, s': State, m: string)
    requires Known(c, s, t) && Round(s0, s, t, m) && s.tasks[t].pc.Releasing? && s.tasks[t].pc.back.NextVictim?
    requires Release(c, s, t) == Some(s')
    ensures Round(s0, s', t, m)
  {
    var id, rest := s.tasks[t].pc.id, s.tasks[t].pc.back.rest;
    forall i | 0 <= i < |rest|
      ensures HasEntry(s', rest[i])
    {
      assert HasEntry(s, rest[i]) && rest[i] != id;
      var g :| 0 <= g < |s.entries| && rest[i] in s.entries[g];
      assert rest[i] in s'.entries[g];
    }
  }

  lemma ResettingRound(c: Config, s0: State, s: State, t: TaskId, s': State, m: string)
    requires Settled(c, s') && Known(c, s, t) && Round(s0, s, t, m)
    requires s.tasks[t].pc.Resetting? && s.tasks[t].pc.back.NextVictim? && s.tasks[t].pc.id in c.models
    requires s.backends[s.tasks[t].pc.id].load != Loaded && Reset(c, s, t) == Some(s')
    ensures Round(s0, s', t, m)
  {
    var id := s.tasks[t].pc.id;
    EntriesStill(s, s', s.tasks[t].pc.back.rest, m);
    NotLoadedNoEntry(c, s', t, id);
    var g :| 0 <= g < |s0.entries| && id in s0.entries[g];
    assert Took(s0, s', m, g, id);
  }

  /** One step of the leader, anywhere in the loop but at its top. */
  lemma OwnRound(c: Config, s0: State, s: State, t: TaskId, choice: Choice, s': State, m: string)
    requires Settled(c, s) && Settled(c, s') && Local(c, s, t) && Round(s0, s, t, m)
    requires TaskStep(c, s, t, choice) == Some(s')
    requires Looping(s.tasks[t].pc) && !s.tasks[t].pc.Resolving?
    ensures t in s'.tasks && s'.tasks[t].model == m
    ensures Past(s'.tasks[t].pc) || (Looping(s'.tasks[t].pc) && Round(s0, s', t, m))
    ensures s'.tasks[t].pc.Resolving? ==> s.tasks[t].pc.Evicting?
  {
    match s.tasks[t].pc {
      case Picking(_, _) => PickingRound(c, s0, s, t, choice, s', m);
      case Evicting(_, _) => EvictingRound(c, s0, s, t, s', m);
      case Stopping(_, _, _) => StoppingRound(c, s0, s, t, s', m);
      case Releasing(_, _, _, _) => ReleasingRound(c, s0, s, t, s', m);
      case Resetting(_, _) => ResettingRound(c, s0, s, t, s', m);
      case _ => ReservingRound(c, s0, s, t, choice, s', m);
    }
    WhereNext(c, s, t, choice, s');
  }

  lemma WhereNext(c: Config, s: State, t: TaskId, choice: Choice, s': State)
    requires Known(c, s, t) && Looping(s.tasks[t].pc) && TaskStep(c, s, t, choice) == Some(s')
    ensures t in s'.tasks && (Past(s'.tasks[t].pc) || Looping(s'.tasks[t].pc)) && s'.tasks[t].model == s.tasks[t].model
    ensures s'.tasks[t].pc.Resolving? ==> s.tasks[t].pc.Evicting?
  {
  }

  lemma PastStays(c: Config, s: State, t: TaskId, choice: Choice, s': State)
    requires Known(c, s, t) && Past(s.tasks[t].pc) && TaskStep(c, s, t, choice) == Some(s')
    ensures t in s'.tasks && Past(s'.tasks[t].pc) && s'.tasks[t].model == s.tasks[t].model
  {
  }

  // ---------- counting ----------

  ghost function EntryTotal(e: seq<map<string, nat>>): nat {
    if e == [] then 0 else EntryTotal(e[..|e| - 1]) + |e[|e| - 1]|
  }

  lemma {:induction false} FewerEntries(e: seq<map<string, nat>>, e': seq<map<string, nat>>, g: nat, id: string)
    requires |e'| == |e| && forall h :: 0 <= h < |e| ==> e'[h].Keys <= e[h].Keys
    requires g < |e| ==> id in e[g] && id !in e'[g]
    ensures EntryTotal(e') <= EntryTotal(e)
    ensures g < |e| ==> EntryTotal(e') < EntryTotal(e)
    decreases |e|
  {
    if e != [] {
      var n := |e| - 1;
      FewerEntries(e[..n], e'[..n], g, id);
      FewerKeys(e[n], e'[n]);
      if g == n {
        FewerKeys(e[n] - {id}, e'[n]);
        OneKeyLess(e[n], id);
      }
    }
  }

  lemma FewerKeys(t: map<string, nat>, t': map<string, nat>)
    requires t'.Keys <= t.Keys
    ensures |t'| <= |t|
  {
    var lost := t.Keys - t'.Keys;
    assert t.Keys == t'.Keys + lost;
    assert |t| == |t.Keys| && |t'| == |t'.Keys|;
  }

  lemma OneKeyLess(t: map<string, nat>, id: string)
    requires id in t
    ensures |t - {id}| + 1 == |t|
  {
    var less := t - {id};
    assert less.Keys == t.Keys - {id};
    assert |t| == |t.Keys| && |less| == |less.Keys|;
  }

  /** Back at the top, there are fewer entries than at the last time. */
  lemma BackWithFewer(c: Config, s0: State, s: State, t: TaskId, m: string)
    requires Settled(c, s) && Round(s0, s, t, m) && s.tasks[t].pc.Resolving?
    requires m in s.backends && s.backends[m].load != Loaded
    ensures EntryTotal(s.entries) < EntryTotal(s0.entries)
  {
    NotLoadedNoEntry(c, s, t, m);
    var g, id :| Took(s0, s, m, g, id);
    forall h | 0 <= h < |s.entries|
      ensures s.entries[h].Keys <= s0.entries[h].Keys
    {
      assert m !in s.entries[h];
    }
    FewerEntries(s0.entries, s.entries, g, id);
  }

  /** How often the leader comes back to the top of its loop. */
  ghost function Retries(c: Config, before: seq<Step>, during: seq<Step>, t: TaskId): nat
    requires Possible(c, before + during)
    decreases |during|
  {
    if during == [] then 0
    else
      LastStep(c, before, during);
      var n := |during| - 1;
      var s, s' := After(c, before + during[..n]), After(c, before + during);
      Retries(c, before, during[..n], t)
      + if t in s.tasks && t in s'.tasks && s.tasks[t].pc.Evicting? && s'.tasks[t].pc.Resolving? then 1 else 0
  }

  /** Where a leader is since it was last at the top of its loop, in state `base`. */
  ghost predicate Since(base: State, s: State, t: TaskId, m: string) {
    && t in s.tasks && s.tasks[t].model == m && (Looping(s.tasks[t].pc) || Past(s.tasks[t].pc))
    && (s.tasks[t].pc.Resolving? ==> s.entries == base.entries)
    && (Looping(s.tasks[t].pc) && !s.tasks[t].pc.Resolving? ==> Round(base, s, t, m))
  }

  /** One step of the run. If it brings the leader back to the top, that state is the
      new base, with fewer entries than the old one. */
  lemma SinceStep(c: Config, base: State, s: State, step: Step, s': State, t: TaskId, m: string) returns (base': State)
    requires Careful(c) && Inv(c, s) && GuardInv(c, s) && Inv(c, s') && Since(base, s, t, m)
    requires Apply(c, s, step) == Some(s')
    ensures Since(base', s', t, m)
    ensures if s.tasks[t].pc.Evicting? && s'.tasks[t].pc.Resolving?
            then EntryTotal(base'.entries) < EntryTotal(base.entries) else base' == base
  {
    base' := base;
    SettledFromInv(c, s);
    SettledFromInv(c, s');
    if step.Advance? && step.t == t {
      LocalFromInv(c, s, t);
      OwnSince(c, base, s, t, step.choice, s', m);
      if Past(s'.tasks[t].pc) {
        PastSince(base, s', t, m);
      }
      if s.tasks[t].pc.Evicting? && s'.tasks[t].pc.Resolving? {
        LocalFromInv(c, s', t);
        BackWithFewer(c, base, s', t, m);
        base' := s';
      }
    } else {
      OthersSince(c, base, s, step, s', t, m);
    }
  }

  lemma OwnSince(c: Config, base: State, s: State, t: TaskId, choice: Choice, s': State, m: string)
    requires Settled(c, s) && Settled(c, s') && Local(c, s, t) && Since(base, s, t, m)
    requires TaskStep(c, s, t, choice) == Some(s')
    ensures t in s'.tasks && s'.tasks[t].model == m
    ensures Past(s'.tasks[t].pc) || (Looping(s'.tasks[t].pc) && Round(base, s', t, m))
    ensures s'.tasks[t].pc.Resolving? ==> s.tasks[t].pc.Evicting?
  {
    if Past(s.tasks[t].pc) {
      PastStays(c, s, t, choice, s');
      PastSince(base, s', t, m);
    } else if s.tasks[t].pc.Resolving? {
      LeavesTheTop(c, base, s, t, s', m);
    } else {
      OwnRound(c, base, s, t, choice, s', m);
    }
  }

  lemma LeavesTheTop(c: Config, base: State, s: State, t: TaskId, s': State, m: string)
    requires Known(c, s, t) && s.tasks[t].model == m && s.tasks[t].pc.Resolving? && s.entries == base.entries
    requires Resolve(c, s, t) == Some(s')
    ensures t in s'.tasks && s'.tasks[t].model == m
    ensures !s'.tasks[t].pc.Resolving? && (Past(s'.tasks[t].pc) || (Looping(s'.tasks[t].pc) && Round(base, s', t, m)))
  {
  }

  lemma OthersSince(c: Config, base: State, s: State, step: Step, s': State, t: TaskId, m: string)
    requires c.detached && OneInside(s) && GuardInv(c, s) && Since(base, s, t, m) && Apply(c, s, step) == Some(s')
    requires !(step.Advance? && step.t == t)
    ensures Since(base, s', t, m)
    ensures s'.tasks[t].pc.Resolving? ==> s.tasks[t].pc.Resolving?
  {
    if Looping(s.tasks[t].pc) {
      LoopingIsInside(s.tasks[t].pc);
      OthersStandBack(c, s, t, step, s');
      SameSince(base, s, s', t, m);
    } else {
      OthersLeavePast(c, s, step, s', t);
      PastSince(base, s', t, m);
    }
  }

  lemma LoopingIsInside(pc: PC)
    requires Looping(pc)
    ensures Inside(pc)
  {
  }

  lemma PastSince(base: State, s: State, t: TaskId, m: string)
    requires t in s.tasks && s.tasks[t].model == m && Past(s.tasks[t].pc)
    ensures Since(base, s, t, m) && !Looping(s.tasks[t].pc) && !s.tasks[t].pc.Resolving?
  {
  }

  lemma SameSince(base: State, s: State, s': State, t: TaskId, m: string)
    requires Since(base, s, t, m) && t in s'.tasks && s'.entries == s.entries && s'.tasks[t] == s.tasks[t]
    ensures Since(base, s', t, m)
  {
    SameRound(base, s, s', t, m);
  }

  lemma SameRound(s0: State, s: State, s': State, t: TaskId, m: string)
    requires t in s.tasks && t in s'.tasks && s'.entries == s.entries && s'.tasks[t] == s.tasks[t]
    ensures Round(s0, s, t, m) ==> Round(s0, s', t, m)
  {
    if Round(s0, s, t, m) {
      TookStill(s0, s, s', m);
      var pc := s.tasks[t].pc;
      if pc.Evicting? {
        EntriesStill(s, s', pc.victims, m);
      } else if (pc.Stopping? || pc.Releasing? || pc.Resetting?) && pc.back.NextVictim? {
        EntriesStill(s, s', pc.back.rest, m);
      }
    }
  }

  lemma OthersLeavePast(c: Config, s: State, step: Step, s': State, t: TaskId)
    requires GuardInv(c, s) && t in s.tasks && Past(s.tasks[t].pc)
    requires Apply(c, s, step) == Some(s') && !(step.Advance? && step.t == t)
    ensures t in s'.tasks && s'.tasks[t].model == s.tasks[t].model && Past(s'.tasks[t].pc)
  {
    if step.Advance? {
      OneTaskMoves(c, s, step.t, step.choice, s');
    }
  }

  lemma {:induction false} SinceRun(c: Config, before: seq<Step>, during: seq<Step>, t: TaskId) returns (base: State)
    requires WellFormed(c) && Careful(c) && Possible(c, before) && Possible(c, before + during)
    requires t in After(c, before).tasks && After(c, before).tasks[t].pc.Resolving?
    ensures Since(base, After(c, before + during), t, After(c, before).tasks[t].model)
    ensures Retries(c, before, during, t) + EntryTotal(base.entries) <= EntryTotal(After(c, before).entries)
    decreases |during|
  {
    if during == [] {
      assert before + during == before;
      base := After(c, before);
    } else {
      var n := |during| - 1;
      var m := After(c, before).tasks[t].model;
      LastStep(c, before, during);
      base := SinceRun(c, before, during[..n], t);
      RunKeeps(c, before + during[..n]);
      RunKeepsGuards(c, before + during[..n]);
      RunKeeps(c, before + during);
      base := SinceStep(c, base, After(c, before + during[..n]), during[n], After(c, before + during), t, m);
    }
  }

  /** In every run of a careful system each retry of a leader has taken an entry away:
      whenever it is at the top of its loop again, as many entries are gone as it has
      retried. So it cannot retry more often than there were entries. */
  lemma CarefulRetriesTake(c: Config, before: seq<Step>, during: seq<Step>, t: TaskId)
    requires WellFormed(c) && Careful(c) && Possible(c, before) && Possible(c, before + during)
    requires t in After(c, before).tasks && After(c, before).tasks[t].pc.Resolving?
    ensures var n, s0, s := Retries(c, before, during, t), After(c, before), After(c, before + during);
            && n <= EntryTotal(s0.entries)
            && t in s.tasks
            && (s.tasks[t].pc.Resolving? ==> n + EntryTotal(s.entries) <= EntryTotal(s0.entries))
  {
    var base := SinceRun(c, before, during, t);
  }

  // ---------- retries that change nothing ----------

  predicate TakesVictimsDown(pc: PC) {
    pc.Evicting? || ForLeader(pc)
  }

  /** After the first n of these steps the task is asking victims to unload. */
  ghost predicate EvictingAt(c: Config, before: seq<Step>, during: seq<Step>, t: TaskId, n: nat) {
    n <= |during| &&
    var steps := before + during[..n];
    Possible(c, steps) && t in After(c, steps).tasks && TakesVictimsDown(After(c, steps).tasks[t].pc)
  }

  /** Tables and load states are as they were. */
  ghost predicate Unchanged(s: State, s': State) {
    && s'.entries == s.entries && s'.backends.Keys == s.backends.Keys
    && forall m :: m in s.backends ==> s'.backends[m].load == s.backends[m].load
  }

  predicate Own(step: Step, t: TaskId) {
    step.Advance? && step.t == t
  }

  /** None of the leader's own steps changes a table or a load state. */
  ghost predicate OwnStepsIdle(c: Config, before: seq<Step>, during: seq<Step>, t: TaskId)
    requires Possible(c, before + during)
    decreases |during|
  {
    during == [] ||
    (LastStep(c, before, during);
     var n := |during| - 1;
     && OwnStepsIdle(c, before, during[..n], t)
     && (Own(during[n], t) ==> Unchanged(After(c, before + during[..n]), After(c, before + during))))
  }

  /** The step asks a victim to unload. */
  predicate Asks(s: State, step: Step, t: TaskId) {
    Own(step, t) && t in s.tasks && s.tasks[t].pc.Evicting? && s.tasks[t].pc.victims != []
    && s.tasks[t].pc.victims[0] in s.backends
  }

  function Asked(s: State, t: TaskId): Backend
    requires t in s.tasks && s.tasks[t].pc.Evicting? && s.tasks[t].pc.victims != []
    requires s.tasks[t].pc.victims[0] in s.backends
  {
    s.backends[s.tasks[t].pc.victims[0]]
  }

  predicate Busy(b: Backend) {
    b.inFlight > 0 || b.load.Loading?
  }

  /** Every victim asked was busy or already unloaded. */
  ghost predicate NobodyLoaded(c: Config, before: seq<Step>, during: seq<Step>, t: TaskId)
    requires Possible(c, before + during)
    decreases |during|
  {
    during == [] ||
    (LastStep(c, before, during);
     var n := |during| - 1;
     var s := After(c, before + during[..n]);
     && NobodyLoaded(c, before, during[..n], t)
     && (Asks(s, during[n], t) ==> Busy(Asked(s, t)) || Asked(s, t).load.Unloaded?))
  }

  /** Some victim asked was not busy and already unloaded. */
  ghost predicate SomebodyUnloaded(c: Config, before: seq<Step>, during: seq<Step>, t: TaskId)
    requires Possible(c, before + during)
    decreases |during|
  {
    during != [] &&
    (LastStep(c, before, during);
     var n := |during| - 1;
     var s := After(c, before + during[..n]);
     || SomebodyUnloaded(c, before, during[..n], t)
     || (Asks(s, during[n], t) && !Busy(Asked(s, t)) && Asked(s, t).load.Unloaded?))
  }

  /** A leader that has just picked known victims. */
  ghost predicate HasPicked(c: Config, s: State, t: TaskId) {
    && t in s.tasks && s.tasks[t].pc.Evicting? && !s.tasks[t].pc.any && KnownVictims(c, s, t)
  }

  ghost predicate KnownVictims(c: Config, s: State, t: TaskId)
    requires t in s.tasks && s.tasks[t].pc.Evicting?
  {
    forall i :: 0 <= i < |s.tasks[t].pc.victims| ==> s.tasks[t].pc.victims[i] in c.models
  }

  /** What one victim answers, and where the leader goes on. */
  ghost predicate Answered(s: State, t: TaskId, s': State)
    requires t in s.tasks && t in s'.tasks && s.tasks[t].pc.Evicting? && s.tasks[t].pc.victims != []
    requires s.tasks[t].pc.victims[0] in s.backends
  {
    var b, rest, pc' := Asked(s, t), s.tasks[t].pc.victims[1..], s'.tasks[t].pc;
    if Busy(b) then pc' == Evicting(rest, s.tasks[t].pc.any) && Unchanged(s, s')
    else if b.load.Unloaded? then pc' == Evicting(rest, true) && Unchanged(s, s')
    else pc'.Stopping? && !Unchanged(s, s')
  }

  lemma OneAnswer(c: Config, s: State, t: TaskId, s': State)
    requires Known(c, s, t) && s.tasks[t].pc.Evicting? && s.tasks[t].pc.victims != [] && KnownVictims(c, s, t)
    requires Evict(c, s, t) == Some(s')
    ensures t in s'.tasks && Answered(s, t, s')
  {
  }

  lemma LastAnswer(c: Config, s: State, t: TaskId, s': State)
    requires Known(c, s, t) && s.tasks[t].pc.Evicting? && s.tasks[t].pc.victims == [] && Evict(c, s, t) == Some(s')
    ensures t in s'.tasks && Unchanged(s, s') && s'.tasks[t].pc == if s.tasks[t].pc.any then Resolving else Failing
  {
  }

  /** A step of somebody else leaves the task where it is, or drops it. */
  lemma NotOwn(c: Config, s: State, step: Step, s': State, t: TaskId)
    requires GuardInv(c, s) && t in s.tasks && !Own(step, t) && Apply(c, s, step) == Some(s')
    ensures t in s'.tasks && (s'.tasks[t] == s.tasks[t] || s'.tasks[t].pc.Dropping? || s'.tasks[t].pc.Done?)
  {
    if step.Advance? {
      OneTaskMoves(c, s, step.t, step.choice, s');
    }
  }

  /** One step, if so far nobody loaded was asked. */
  lemma AnswerStep(c: Config, s: State, step: Step, s': State, t: TaskId)
    requires GuardInv(c, s) && Apply(c, s, step) == Some(s') && t in s.tasks && t in s'.tasks
    requires s.tasks[t].pc.Evicting? && KnownVictims(c, s, t)
    requires TakesVictimsDown(s'.tasks[t].pc) || s'.tasks[t].pc.Resolving? || s'.tasks[t].pc.Failing?
    ensures !Own(step, t) ==> s'.tasks[t] == s.tasks[t]
    ensures Own(step, t) ==>
              if s.tasks[t].pc.victims == []
              then Unchanged(s, s') && s'.tasks[t].pc == if s.tasks[t].pc.any then Resolving else Failing
              else Asks(s, step, t) && Answered(s, t, s')
  {
    if Own(step, t) {
      OwnIsEvict(c, s, step, s', t);
      OwnAnswer(c, s, t, s');
    } else {
      NotOwnStays(c, s, step, s', t);
    }
  }

  lemma NotOwnStays(c: Config, s: State, step: Step, s': State, t: TaskId)
    requires GuardInv(c, s) && t in s.tasks && !Own(step, t) && Apply(c, s, step) == Some(s') && t in s'.tasks
    requires TakesVictimsDown(s'.tasks[t].pc) || s'.tasks[t].pc.Resolving? || s'.tasks[t].pc.Failing?
    ensures s'.tasks[t] == s.tasks[t]
  {
    NotOwn(c, s, step, s', t);
  }

  lemma OwnIsEvict(c: Config, s: State, step: Step, s': State, t: TaskId)
    requires Own(step, t) && t in s.tasks && s.tasks[t].pc.Evicting? && Apply(c, s, step) == Some(s')
    ensures Known(c, s, t) && Evict(c, s, t) == Some(s')
  {
  }

  lemma OwnAnswer(c: Config, s: State, t: TaskId, s': State)
    requires Known(c, s, t) && s.tasks[t].pc.Evicting? && KnownVictims(c, s, t) && Evict(c, s, t) == Some(s')
    ensures t in s'.tasks
    ensures if s.tasks[t].pc.victims == []
            then Unchanged(s, s') && s'.tasks[t].pc == if s.tasks[t].pc.any then Resolving else Failing
            else s.tasks[t].pc.victims[0] in s.backends && Answered(s, t, s')
  {
    if s.tasks[t].pc.victims == [] {
      LastAnswer(c, s, t, s');
    } else {
      OneAnswer(c, s, t, s');
    }
  }

  /** Where the leader is if nobody loaded was asked. */
  ghost predicate OnlyIdleSoFar(c: Config, before: seq<Step>, during: seq<Step>, t: TaskId)
    requires Possible(c, before + during)
  {
    var s := After(c, before + during);
    && (OwnStepsIdle(c, before, during, t) <==> NobodyLoaded(c, before, during, t))
    && (NobodyLoaded(c, before, during, t) ==>
          && t in s.tasks && s.tasks[t].pc.Evicting? && KnownVictims(c, s, t)
          && (s.tasks[t].pc.any <==> SomebodyUnloaded(c, before, during, t)))
  }

  /** While the victims are asked: none of the leader's steps changes anything exactly if
      nobody loaded was asked, and then it will retry exactly if somebody was unloaded. */
  lemma {:induction false} IdleSoFar(c: Config, before: seq<Step>, during: seq<Step>, t: TaskId)
    requires Possible(c, before) && Possible(c, before + during) && HasPicked(c, After(c, before), t)
    requires forall n :: 0 <= n <= |during| ==> EvictingAt(c, before, during, t, n)
    ensures OnlyIdleSoFar(c, before, during, t)
    decreases |during|
  {
    if during == [] {
      assert before + during == before;
    } else {
      var n := |during| - 1;
      LastStep(c, before, during);
      PrefixesEvict(c, before, during, during[..n], t);
      IdleSoFar(c, before, during[..n], t);
      RunKeepsGuards(c, before + during[..n]);
      assert EvictingAt(c, before, during, t, n) && EvictingAt(c, before, during, t, n + 1);
      assert during[..n + 1] == during;
      IdleStep(c, before, during, t);
    }
  }

  lemma PrefixesEvict(c: Config, before: seq<Step>, during: seq<Step>, front: seq<Step>, t: TaskId)
    requires during != [] && front == during[..|during| - 1]
    requires forall n :: 0 <= n < |during| ==> EvictingAt(c, before, during, t, n)
    ensures forall n :: 0 <= n <= |front| ==> EvictingAt(c, before, front, t, n)
  {
    forall n | 0 <= n <= |front|
      ensures EvictingAt(c, before, front, t, n)
    {
      assert EvictingAt(c, before, during, t, n);
      assert front[..n] == during[..n];
    }
  }

  lemma IdleStep(c: Config, before: seq<Step>, during: seq<Step>, t: TaskId)
    requires during != [] && Possible(c, before + during) && Possible(c, before + during[..|during| - 1])
    requires OnlyIdleSoFar(c, before, during[..|during| - 1], t)
    requires GuardInv(c, After(c, before + during[..|during| - 1]))
    requires t in After(c, before + during).tasks && TakesVictimsDown(After(c, before + during).tasks[t].pc)
    ensures OnlyIdleSoFar(c, before, during, t)
  {
    var n := |during| - 1;
    LastStep(c, before, during);
    var s, s' := After(c, before + during[..n]), After(c, before + during);
    if NobodyLoaded(c, before, during[..n], t) {
      AnswerStep(c, s, during[n], s', t);
    }
  }

  /** A leader retries with its own steps having changed no table and no load state if
      and only if every victim that was not busy when it was asked was already unloaded,
      and somebody was. Whatever other tasks do in between. */
  lemma RetryIsIdleIff(c: Config, before: seq<Step>, during: seq<Step>, t: TaskId)
    requires Possible(c, before) && Possible(c, before + during) && HasPicked(c, After(c, before), t)
    requires during != [] && forall n :: 0 <= n < |during| ==> EvictingAt(c, before, during, t, n)
    requires t in After(c, before + during).tasks
    requires After(c, before + during).tasks[t].pc.Resolving? || After(c, before + during).tasks[t].pc.Failing?
    ensures After(c, before + during).tasks[t].pc.Resolving? && OwnStepsIdle(c, before, during, t)
       <==> NobodyLoaded(c, before, during, t) && SomebodyUnloaded(c, before, during, t)
  {
    var n := |during| - 1;
    LastStep(c, before, during);
    PrefixesEvict(c, before, during, during[..n], t);
    IdleSoFar(c, before, during[..n], t);
    RunKeepsGuards(c, before + during[..n]);
    var s, s' := After(c, before + during[..n]), After(c, before + during);
    if NobodyLoaded(c, before, during[..n], t) {
      AnswerStep(c, s, during[n], s', t);
    }
  }

  // ---------- retries and what they are for ----------

  /** Some victim asked was not busy. */
  ghost predicate SomebodyWent(c: Config, before: seq<Step>, during: seq<Step>, t: TaskId)
    requires Possible(c, before + during)
    decreases |during|
  {
    during != [] &&
    (LastStep(c, before, during);
     var n := |during| - 1;
     var s := After(c, before + during[..n]);
     SomebodyWent(c, before, during[..n], t) || (Asks(s, during[n], t) && !Busy(Asked(s, t))))
  }

  /** Where a leader is that asks known victims, some of whom have gone. */
  predicate Asking(c: Config, pc: PC, went: bool) {
    || (pc.Evicting? && (pc.any <==> went) && forall i :: 0 <= i < |pc.victims| ==> pc.victims[i] in c.models)
    || (ForLeader(pc) && went && forall i :: 0 <= i < |pc.back.rest| ==> pc.back.rest[i] in c.models)
  }

  lemma AsksOne(c: Config, s: State, t: TaskId, s': State, went: bool)
    requires Known(c, s, t) && s.tasks[t].pc.Evicting? && s.tasks[t].pc.victims != [] && Asking(c, s.tasks[t].pc, went)
    requires Evict(c, s, t) == Some(s')
    ensures s.tasks[t].pc.victims[0] in s.backends
    ensures t in s'.tasks && Asking(c, s'.tasks[t].pc, went || !Busy(Asked(s, t)))
  {
  }

  lemma TakesDownOne(c: Config, s: State, t: TaskId, choice: Choice, s': State)
    requires Known(c, s, t) && ForLeader(s.tasks[t].pc) && Asking(c, s.tasks[t].pc, true)
    requires TaskStep(c, s, t, choice) == Some(s')
    ensures t in s'.tasks && Asking(c, s'.tasks[t].pc, true)
  {
  }

  lemma OwnTakesDown(c: Config, s: State, step: Step, s': State, t: TaskId)
    requires Apply(c, s, step) == Some(s') && Own(step, t)
    requires t in s.tasks && ForLeader(s.tasks[t].pc) && Asking(c, s.tasks[t].pc, true)
    ensures !Asks(s, step, t) && t in s'.tasks && Asking(c, s'.tasks[t].pc, true)
  {
    TakesDownOne(c, s, t, step.choice, s');
  }

  lemma OwnAsks(c: Config, s: State, step: Step, s': State, t: TaskId, went: bool)
    requires Apply(c, s, step) == Some(s') && Own(step, t)
    requires t in s.tasks && s.tasks[t].pc.Evicting? && Asking(c, s.tasks[t].pc, went)
    ensures t in s'.tasks
    ensures if s.tasks[t].pc.victims == []
            then !Asks(s, step, t) && s'.tasks[t].pc == if went then Resolving else Failing
            else Asks(s, step, t) && Asking(c, s'.tasks[t].pc, went || !Busy(Asked(s, t)))
  {
    OwnIsEvict(c, s, step, s', t);
    if s.tasks[t].pc.victims == [] {
      LastAnswer(c, s, t, s');
    } else {
      AsksOne(c, s, t, s', went);
    }
  }

  /** One step, as long as the leader asks. */
  lemma AskingStep(c: Config, s: State, step: Step, s': State, t: TaskId, went: bool)
    requires GuardInv(c, s) && Apply(c, s, step) == Some(s') && t in s.tasks && Asking(c, s.tasks[t].pc, went)
    requires t in s'.tasks && TakesVictimsDown(s'.tasks[t].pc)
    ensures Asking(c, s'.tasks[t].pc, went || (Asks(s, step, t) && !Busy(Asked(s, t))))
  {
    if !Own(step, t) {
      NotOwn(c, s, step, s', t);
    } else if ForLeader(s.tasks[t].pc) {
      OwnTakesDown(c, s, step, s', t);
    } else {
      OwnAsks(c, s, step, s', t, went);
    }
  }

  lemma {:induction false} AskingSoFar(c: Config, before: seq<Step>, during: seq<Step>, t: TaskId)
    requires Possible(c, before) && Possible(c, before + during) && HasPicked(c, After(c, before), t)
    requires forall n :: 0 <= n <= |during| ==> EvictingAt(c, before, during, t, n)
    ensures t in After(c, before + during).tasks
    ensures Asking(c, After(c, before + during).tasks[t].pc, SomebodyWent(c, before, during, t))
    decreases |during|
  {
    if during == [] {
      assert before + during == before;
    } else {
      var n := |during| - 1;
      LastStep(c, before, during);
      PrefixesEvict(c, before, during, during[..n], t);
      AskingSoFar(c, before, during[..n], t);
      RunKeepsGuards(c, before + during[..n]);
      assert EvictingAt(c, before, during, t, n + 1);
      assert during[..n + 1] == during;
      AskingStep(c, After(c, before + during[..n]), during[n], After(c, before + during), t,
                 SomebodyWent(c, before, during[..n], t));
    }
  }

  /** Once it has asked everybody it picked, a leader tries again exactly if one of them
      went, taken down or unloaded before, and else gives up, whatever other tasks do. */
  lemma RetriesIffSomebodyWent(c: Config, before: seq<Step>, during: seq<Step>, t: TaskId)
    requires Possible(c, before) && Possible(c, before + during) && HasPicked(c, After(c, before), t)
    requires during != [] && forall n :: 0 <= n < |during| ==> EvictingAt(c, before, during, t, n)
    requires t in After(c, before + during).tasks
    requires After(c, before + during).tasks[t].pc.Resolving? || After(c, before + during).tasks[t].pc.Failing?
    ensures After(c, before + during).tasks[t].pc.Resolving? <==> SomebodyWent(c, before, during, t)
  {
    var n := |during| - 1;
    LastStep(c, before, during);
    PrefixesEvict(c, before, during, during[..n], t);
    AskingSoFar(c, before, during[..n], t);
    RunKeepsGuards(c, before + during[..n]);
    LastAsked(c, After(c, before + during[..n]), during[n], After(c, before + during), t,
              SomebodyWent(c, before, during[..n], t));
  }

  lemma LastAsked(c: Config, s: State, step: Step, s': State, t: TaskId, went: bool)
    requires GuardInv(c, s) && Apply(c, s, step) == Some(s') && t in s.tasks && Asking(c, s.tasks[t].pc, went)
    requires t in s'.tasks && (s'.tasks[t].pc.Resolving? || s'.tasks[t].pc.Failing?)
    ensures !Asks(s, step, t) && (s'.tasks[t].pc.Resolving? <==> went)
  {
    if !Own(step, t) {
      NotOwn(c, s, step, s', t);
    } else if ForLeader(s.tasks[t].pc) {
      OwnTakesDown(c, s, step, s', t);
    } else {
      OwnAsks(c, s, step, s', t, went);
    }
  }
}
