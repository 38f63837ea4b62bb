/** The per-device resident set and the multi-device scheduler
    (src/engine/scheduling.rs). */
module Scheduling {
  import opened Wrappers
  import opened MapSums
  import opened Placements
  import opened Reservations

  // ---------- eviction candidates as values ----------

  datatype Candidate = Candidate(id: string, costMb: u64, lastUsedMs: nat)

  predicate OldestFirst(s: seq<Candidate>) {
    forall i, j :: 0 <= i < j < |s| ==> s[i].lastUsedMs <= s[j].lastUsedMs
  }

  /** Stable insertion: the new element goes behind those that are as old. */
  function InsertByAge(s: seq<Candidate>, c: Candidate): (r: seq<Candidate>)
    ensures multiset(r) == multiset(s) + multiset{c}
    ensures OldestFirst(s) ==> OldestFirst(r)
  {
    if s == [] then [c]
    else if s[|s| - 1].lastUsedMs <= c.lastUsedMs then s + [c]
    else
      var front := InsertByAge(s[..|s| - 1], c);
      assert s == s[..|s| - 1] + [s[|s| - 1]];
      FrontIsNotYounger(s, c, front);
      front + [s[|s| - 1]]
  }

  lemma FrontIsNotYounger(s: seq<Candidate>, c: Candidate, front: seq<Candidate>)
    requires s != [] && c.lastUsedMs < s[|s| - 1].lastUsedMs
    requires multiset(front) == multiset(s[..|s| - 1]) + multiset{c}
    ensures OldestFirst(s) ==> forall i :: 0 <= i < |front| ==> front[i].lastUsedMs <= s[|s| - 1].lastUsedMs
  {
    if OldestFirst(s) {
      forall i | 0 <= i < |front|
        ensures front[i].lastUsedMs <= s[|s| - 1].lastUsedMs
      {
        assert front[i] in multiset(front);
        if front[i] != c {
          assert front[i] in s[..|s| - 1];
        }
      }
    }
  }

  function SortByLastUsed(s: seq<Candidate>): (r: seq<Candidate>)
    ensures multiset(r) == multiset(s)
    ensures OldestFirst(r)
  {
    if s == [] then []
    else
      assert s == s[..|s| - 1] + [s[|s| - 1]];
      InsertByAge(SortByLastUsed(s[..|s| - 1]), s[|s| - 1])
  }

  function CostOf(s: seq<Candidate>): nat {
    if s == [] then 0 else CostOf(s[..|s| - 1]) + s[|s| - 1].costMb
  }

  function Ids(s: seq<Candidate>): (ids: seq<string>)
    ensures |ids| == |s|
    ensures forall i :: 0 <= i < |s| ==> ids[i] == s[i].id
  {
    seq(|s|, i requires 0 <= i < |s| => s[i].id)
  }

  ghost predicate ShortestEnough(chosen: seq<string>, candidates: seq<Candidate>, neededMb: nat) {
    && 1 <= |chosen| <= |candidates|
    && chosen == Ids(candidates[..|chosen|])
    && neededMb <= CostOf(candidates[..|chosen|])
    && (|chosen| == 1 || CostOf(candidates[..|chosen| - 1]) < neededMb)
  }

  /** The accumulation loop: the shortest prefix whose cost reaches the need. */
  method TakeUntilEnough(candidates: seq<Candidate>, neededMb: u64) returns (chosen: Option<seq<string>>)
    ensures chosen.Some? ==> ShortestEnough(chosen.value, candidates, neededMb)
    ensures chosen.None? <==> candidates == [] || CostOf(candidates) < neededMb
  {
    var taken: seq<string> := [];
    var sum: nat := 0;
    for n := 0 to |candidates|
      invariant taken == Ids(candidates[..n])
      invariant sum == if CostOf(candidates[..n]) > U64_MAX then U64_MAX else CostOf(candidates[..n])
      invariant n == 0 || CostOf(candidates[..n]) < neededMb
    {
      assert candidates[..n + 1][..n] == candidates[..n];
      taken := taken + [candidates[n].id];
      sum := SaturatingAdd(sum, candidates[n].costMb);
      if sum >= neededMb {
        CostGrows(candidates, n + 1);
        return Some(taken);
      }
    }
    assert candidates[..|candidates|] == candidates;
    return None;
  }

  lemma {:induction false} CostGrows(s: seq<Candidate>, n: nat)
    requires n <= |s|
    ensures CostOf(s[..n]) <= CostOf(s)
    decreases |s|
  {
    if n < |s| {
      CostGrows(s[..|s| - 1], n);
      assert s[..|s| - 1][..n] == s[..n];
    } else {
      assert s[..n] == s;
    }
  }

  /** A sequence that lists the values of a map keyed by candidate id, each once. */
  ghost predicate Enumerates(s: seq<Candidate>, m: map<string, Candidate>) {
    && (forall i :: 0 <= i < |s| ==> s[i].id in m && m[s[i].id] == s[i])
    && (forall i, j :: 0 <= i < j < |s| ==> s[i].id != s[j].id)
    && (forall id :: id in m ==> m[id].id == id && m[id] in s)
  }

  ghost function CandidateCosts(m: map<string, Candidate>): map<string, nat> {
    map id | id in m :: m[id].costMb
  }

  lemma EnumerationFront(s: seq<Candidate>, m: map<string, Candidate>)
    requires Enumerates(s, m) && s != []
    ensures Enumerates(s[..|s| - 1], m - {s[|s| - 1].id})
  {
    var n := |s| - 1;
    forall id | id in m && id != s[n].id
      ensures m[id] in s[..n]
    {
      assert m[id].id == id && m[id] in s;
      var i :| 0 <= i < |s| && s[i] == m[id];
      assert i != n;
    }
  }

  lemma {:induction false} EnumerationCost(s: seq<Candidate>, m: map<string, Candidate>)
    requires Enumerates(s, m)
    ensures CostOf(s) == Sum(CandidateCosts(m))
    decreases |s|
  {
    EmptyEnumeration(s, m);
    if s != [] {
      var n := |s| - 1;
      EnumerationFront(s, m);
      EnumerationCost(s[..n], m - {s[n].id});
      CandidateCostsRemove(m, s[n].id);
      assert m[s[n].id] == s[n];
    }
  }

  lemma CandidateCostsRemove(m: map<string, Candidate>, id: string)
    requires id in m
    ensures Sum(CandidateCosts(m)) == m[id].costMb + Sum(CandidateCosts(m - {id}))
  {
    SumRemove(CandidateCosts(m), id);
    assert CandidateCosts(m - {id}) == CandidateCosts(m) - {id};
  }

  lemma SortEnumerates(s: seq<Candidate>, m: map<string, Candidate>)
    requires Enumerates(s, m)
    ensures Enumerates(SortByLastUsed(s), m)
  {
    var r := SortByLastUsed(s);
    forall i | 0 <= i < |r|
      ensures r[i].id in m && m[r[i].id] == r[i]
    {
      assert r[i] in multiset(r);
      assert r[i] in s;
    }
    forall i, j | 0 <= i < j < |r|
      ensures r[i].id != r[j].id
    {
      if r[i].id == r[j].id {
        assert r[i] == r[j];
        TwiceCounted(r, i, j);
        OnceCounted(s, r[i]);
      }
    }
    forall id | id in m
      ensures m[id] in r
    {
      assert m[id] in multiset(s);
    }
  }

  lemma TwiceCounted(r: seq<Candidate>, i: nat, j: nat)
    requires i < j < |r| && r[i] == r[j]
    ensures multiset(r)[r[i]] >= 2
  {
    assert r == r[..j] + [r[j]] + r[j + 1..];
    assert r[i] in r[..j];
  }

  lemma {:induction false} OnceCounted(s: seq<Candidate>, c: Candidate)
    requires forall i, j :: 0 <= i < j < |s| ==> s[i].id != s[j].id
    ensures multiset(s)[c] <= 1
    decreases |s|
  {
    if s != [] {
      var n := |s| - 1;
      OnceCounted(s[..n], c);
      assert s == s[..n] + [s[n]];
      assert s[n] !in s[..n];
    }
  }

  /** What the picker promises about a choice, in terms of the eligible models. */
  ghost predicate LeastRecentlyUsedChoice(chosen: seq<string>, eligible: map<string, Candidate>, neededMb: nat) {
    && InAgeOrder(chosen, eligible)
    && neededMb <= ChosenCost(chosen, eligible)
    && (|chosen| == 1 || ChosenCost(chosen[..|chosen| - 1], eligible) < neededMb)
  }

  /** Distinct eligible models, oldest first, and nobody left out is older than anybody chosen. */
  ghost predicate InAgeOrder(chosen: seq<string>, eligible: map<string, Candidate>) {
    && |chosen| >= 1
    && Distinct(chosen)
    && (forall i :: 0 <= i < |chosen| ==> chosen[i] in eligible)
    && (forall i, j :: 0 <= i < j < |chosen| ==> eligible[chosen[i]].lastUsedMs <= eligible[chosen[j]].lastUsedMs)
    && (forall i, id :: 0 <= i < |chosen| && id in eligible && id !in chosen ==>
          eligible[chosen[i]].lastUsedMs <= eligible[id].lastUsedMs)
  }

  ghost function ChosenCost(chosen: seq<string>, eligible: map<string, Candidate>): nat
    requires forall i :: 0 <= i < |chosen| ==> chosen[i] in eligible
  {
    if chosen == [] then 0
    else ChosenCost(chosen[..|chosen| - 1], eligible) + eligible[chosen[|chosen| - 1]].costMb
  }

  lemma {:induction false} ChosenCostIsCost(s: seq<Candidate>, m: map<string, Candidate>)
    requires forall i :: 0 <= i < |s| ==> s[i].id in m && m[s[i].id] == s[i]
    ensures ChosenCost(Ids(s), m) == CostOf(s)
    decreases |s|
  {
    if s != [] {
      ChosenCostIsCost(s[..|s| - 1], m);
      assert Ids(s)[..|s| - 1] == Ids(s[..|s| - 1]);
    }
  }

  ghost function CostsOfChosen(chosen: seq<string>, m: map<string, Candidate>): map<string, nat> {
    map id | id in m && id in chosen :: m[id].costMb
  }

  lemma OneMoreChosen(chosen: seq<string>, m: map<string, Candidate>, id: string)
    requires id in m && id !in chosen
    ensures id !in CostsOfChosen(chosen, m)
    ensures CostsOfChosen(chosen + [id], m) == CostsOfChosen(chosen, m)[id := m[id].costMb]
  {
  }

  lemma {:induction false} ChosenCostIsSum(chosen: seq<string>, m: map<string, Candidate>)
    requires Distinct(chosen) && forall i :: 0 <= i < |chosen| ==> chosen[i] in m
    ensures ChosenCost(chosen, m) == Sum(CostsOfChosen(chosen, m))
    decreases |chosen|
  {
    if chosen == [] {
      assert CostsOfChosen(chosen, m) == map[];
    } else {
      var n := |chosen| - 1;
      var front := chosen[..n];
      ChosenCostIsSum(front, m);
      assert chosen == front + [chosen[n]];
      assert chosen[n] !in front;
      OneMoreChosen(front, m, chosen[n]);
      SumInsert(CostsOfChosen(front, m), chosen[n], m[chosen[n]].costMb);
    }
  }

  /** A prefix of the candidates in age order that is just long enough is such a choice. */
  lemma PrefixIsChoice(sorted: seq<Candidate>, m: map<string, Candidate>, n: nat, neededMb: nat)
    requires Enumerates(sorted, m) && OldestFirst(sorted) && 1 <= n <= |sorted|
    requires neededMb <= CostOf(sorted[..n]) && (n == 1 || CostOf(sorted[..n - 1]) < neededMb)
    ensures LeastRecentlyUsedChoice(Ids(sorted[..n]), m, neededMb)
  {
    var chosen := Ids(sorted[..n]);
    PrefixCosts(sorted, m, n);
    assert InAgeOrder(chosen, m) by {
      PrefixInAgeOrder(sorted, m, n);
    }
    EnoughIsChoice(chosen, m, neededMb);
  }

  lemma EnoughIsChoice(chosen: seq<string>, m: map<string, Candidate>, neededMb: nat)
    requires InAgeOrder(chosen, m)
    ensures neededMb <= ChosenCost(chosen, m)
            && (|chosen| == 1 || ChosenCost(chosen[..|chosen| - 1], m) < neededMb) ==>
              LeastRecentlyUsedChoice(chosen, m, neededMb)
  {
  }

  lemma PrefixCosts(sorted: seq<Candidate>, m: map<string, Candidate>, n: nat)
    requires 1 <= n <= |sorted|
    requires forall i :: 0 <= i < n ==> sorted[i].id in m && m[sorted[i].id] == sorted[i]
    ensures ChosenCost(Ids(sorted[..n]), m) == CostOf(sorted[..n])
    ensures ChosenCost(Ids(sorted[..n])[..n - 1], m) == CostOf(sorted[..n - 1])
  {
    ChosenCostIsCost(sorted[..n], m);
    ChosenCostIsCost(sorted[..n - 1], m);
    assert Ids(sorted[..n])[..n - 1] == Ids(sorted[..n - 1]);
  }

  lemma PrefixInAgeOrder(sorted: seq<Candidate>, m: map<string, Candidate>, n: nat)
    requires Enumerates(sorted, m) && OldestFirst(sorted) && 1 <= n <= |sorted|
    ensures InAgeOrder(Ids(sorted[..n]), m)
  {
    var chosen := Ids(sorted[..n]);
    forall i, id | 0 <= i < |chosen| && id in m && id !in chosen
      ensures m[chosen[i]].lastUsedMs <= m[id].lastUsedMs
    {
      LeftOutIsNotOlder(sorted, m, n, i, id);
    }
  }

  lemma LeftOutIsNotOlder(sorted: seq<Candidate>, m: map<string, Candidate>, n: nat, i: nat, id: string)
    requires Enumerates(sorted, m) && OldestFirst(sorted) && i < n <= |sorted|
    requires id in m && id !in Ids(sorted[..n])
    ensures sorted[i].lastUsedMs <= m[id].lastUsedMs
  {
    assert forall j :: 0 <= j < n ==> Ids(sorted[..n])[j] == sorted[j].id;
    var j :| 0 <= j < |sorted| && sorted[j] == m[id];
  }

  /** Sort the snapshot by age and accumulate. */
  method ChooseOldest(candidates: seq<Candidate>, neededMb: u64, ghost eligible: map<string, Candidate>)
    returns (r: Option<seq<string>>)
    requires Enumerates(candidates, eligible)
    ensures r.Some? ==> LeastRecentlyUsedChoice(r.value, eligible, neededMb)
    ensures r.None? <==> eligible == map[] || Sum(CandidateCosts(eligible)) < neededMb
  {
    SortEnumerates(candidates, eligible);
    var sorted := SortByLastUsed(candidates);
    EnumerationCost(sorted, eligible);
    EmptyEnumeration(sorted, eligible);
    r := TakeUntilEnough(sorted, neededMb);
    if r.Some? {
      ShortestIsChoice(sorted, eligible, r.value, neededMb);
    }
  }

  lemma ShortestIsChoice(sorted: seq<Candidate>, m: map<string, Candidate>, chosen: seq<string>, neededMb: nat)
    requires Enumerates(sorted, m) && OldestFirst(sorted) && ShortestEnough(chosen, sorted, neededMb)
    ensures LeastRecentlyUsedChoice(chosen, m, neededMb)
  {
    PrefixIsChoice(sorted, m, |chosen|, neededMb);
  }

  ghost predicate TooFew(eligible: map<string, Candidate>, neededMb: nat) {
    eligible == map[] || Sum(CandidateCosts(eligible)) < neededMb
  }

  // ---------- one device ----------

  class ResidentSet {
    const budgetMb: u64
    var loaded: Table

    ghost predicate Valid()
      reads this
    {
      WithinBudget(loaded, budgetMb)
    }

    constructor (budgetMb: u64)
      ensures Valid() && this.budgetMb == budgetMb && loaded == map[]
    {
      this.budgetMb := budgetMb;
      loaded := map[];
    }

    method TotalReservedMb() returns (total: nat)
      ensures total == Reserved(loaded)
    {
      total := 0;
      var rest := loaded.Keys;
      while rest != {}
        invariant rest <= loaded.Keys
        invariant total + Sum(map id | id in rest :: loaded[id].costMb) == Reserved(loaded)
        decreases |rest|
      {
        var id :| id in rest;
        ghost var left: map<string, nat> := map k | k in rest :: loaded[k].costMb;
        SumRemove(left, id);
        assert left - {id} == map k | k in rest - {id} :: loaded[k].costMb;
        total := total + loaded[id].costMb;
        rest := rest - {id};
      }
    }

    /** Budget not yet reserved; the subtraction saturates at zero. */
    ghost function Free(): nat
      reads this
    {
      if Reserved(loaded) > budgetMb then 0 else budgetMb - Reserved(loaded)
    }

    method FreeMb() returns (free: nat)
      ensures free == Free()
    {
      var total := TotalReservedMb();
      free := if total > budgetMb then 0 else budgetMb - total;
    }

    /** Reserve for a model; repeating it for a resident model only refreshes the entry. */
    method TryReserve(ctx: Context, costMb: u64) returns (r: Result<(), ResidentError>)
      requires Valid()
      modifies this
      ensures Valid()
      ensures r.Ok? <==> Admits(old(loaded), budgetMb, costMb, ctx.modelId)
      ensures r.Ok? ==> loaded == Admit(old(loaded), budgetMb, costMb, ctx)
      ensures r.Err? ==> loaded == old(loaded)
      ensures r.Err? ==> r.error == OverBudget(ctx.modelId, costMb, Reserved(loaded), budgetMb)
    {
      AdmitKeepsBudgetWhenAdmitted(loaded, budgetMb, costMb, ctx);
      if budgetMb == 0 {
        return Ok(());
      }
      if ctx.modelId in loaded {
        loaded := loaded[ctx.modelId := NewEntry(loaded[ctx.modelId].costMb, ctx)];
        return Ok(());
      }
      var current := TotalReservedMb();
      if SaturatingAdd(current, costMb) > budgetMb {
        return Err(OverBudget(ctx.modelId, costMb, current, budgetMb));
      }
      loaded := loaded[ctx.modelId := NewEntry(costMb, ctx)];
      return Ok(());
    }

    method Release(modelId: string)
      requires Valid()
      modifies this
      ensures Valid()
      ensures loaded == if budgetMb == 0 then old(loaded) else old(loaded) - {modelId}
    {
      RemovalKeepsBudget(loaded, budgetMb, modelId);
      if budgetMb == 0 {
        return;
      }
      loaded := loaded - {modelId};
    }

    /** Unpinned models with no request in flight, read through the live counters. */
    ghost function Eligible(): map<string, Candidate>
      reads *
    {
      map id | id in loaded && !loaded[id].pinned && loaded[id].inFlight.value == 0
        :: Candidate(id, loaded[id].costMb, loaded[id].lastUsedMs.value)
    }

    /** The eligible models cannot make up this much, or there are none. */
    ghost predicate Short(neededMb: nat)
      reads *
    {
      TooFew(Eligible(), neededMb)
    }

    /** The listed candidates describe each entry of an unpinned model with no request
        in flight once, with its cost and the time it was last used, and nobody else. */
    ghost predicate DescribesIdle(candidates: seq<Candidate>)
      reads *
    {
      && (forall i, j :: 0 <= i < j < |candidates| ==> candidates[i].id != candidates[j].id)
      && (forall i :: 0 <= i < |candidates| ==>
            var c := candidates[i];
            && c.id in loaded && !loaded[c.id].pinned && loaded[c.id].inFlight.value == 0
            && c == Candidate(c.id, loaded[c.id].costMb, loaded[c.id].lastUsedMs.value))
      && (forall id :: id in loaded && !loaded[id].pinned && loaded[id].inFlight.value == 0 ==>
            exists i :: 0 <= i < |candidates| && candidates[i].id == id)
    }

    method SnapshotEligible() returns (candidates: seq<Candidate>)
      ensures Enumerates(candidates, Eligible())
      ensures DescribesIdle(candidates)
    {
      candidates := [];
      var rest := loaded.Keys;
      while rest != {}
        invariant rest <= loaded.Keys
        invariant Enumerates(candidates, map id | id in Eligible() && id !in rest :: Eligible()[id])
        decreases |rest|
      {
        var id :| id in rest;
        rest := rest - {id};
        var e := loaded[id];
        if !e.pinned && e.inFlight.value == 0 {
          candidates := candidates + [Candidate(id, e.costMb, e.lastUsedMs.value)];
        }
      }
      assert Eligible() == map id | id in Eligible() && id !in rest :: Eligible()[id];
      EnumerationDescribes(candidates);
    }

    lemma EnumerationDescribes(candidates: seq<Candidate>)
      requires Enumerates(candidates, Eligible())
      ensures DescribesIdle(candidates)
    {
      forall id | id in loaded && !loaded[id].pinned && loaded[id].inFlight.value == 0
        ensures exists i :: 0 <= i < |candidates| && candidates[i].id == id
      {
        assert Eligible()[id] in candidates;
      }
    }

    /** Costs of the entries of unpinned models with no request in flight. */
    ghost function IdleCosts(): (costs: map<string, nat>)
      reads *
      ensures forall id :: id in costs <==> id in loaded && !loaded[id].pinned && loaded[id].inFlight.value == 0
      ensures forall id :: id in costs ==> costs[id] == loaded[id].costMb
    {
      map id | id in loaded && !loaded[id].pinned && loaded[id].inFlight.value == 0 :: loaded[id].costMb
    }

    /** Said of the entries: the chosen models are unpinned and have no request in
        flight, the other such entries are no older, and the chosen ones cost enough. */
    ghost predicate OldestIdle(chosen: seq<string>, neededMb: nat)
      reads *
    {
      && chosen != [] && Distinct(chosen)
      && (forall i :: 0 <= i < |chosen| ==>
            chosen[i] in loaded && !loaded[chosen[i]].pinned && loaded[chosen[i]].inFlight.value == 0)
      && (forall i, id ::
            0 <= i < |chosen| && id in loaded && !loaded[id].pinned && loaded[id].inFlight.value == 0
            && id !in chosen ==>
              loaded[chosen[i]].lastUsedMs.value <= loaded[id].lastUsedMs.value)
      && neededMb <= ReservedBy(chosen)
    }

    /** What these models have reserved together. */
    ghost function ReservedBy(ids: seq<string>): nat
      reads this
    {
      Sum(map id | id in loaded && id in ids :: loaded[id].costMb)
    }

    /** Victims in least-recently-used order, or None exactly when no entry is that of an
        unpinned model without a request in flight or all of these together cost less. */
    method PickEvictionCandidates(neededMb: u64) returns (r: Option<seq<string>>)
      requires Valid()
      ensures r.Some? ==> LeastRecentlyUsedChoice(r.value, Eligible(), neededMb)
      ensures r.None? <==> Short(neededMb)
      ensures OfIdleEntries(r, neededMb)
    {
      if budgetMb == 0 {
        r := None;
      } else {
        var candidates := SnapshotEligible();
        r := ChooseOldest(candidates, neededMb, Eligible());
      }
      SaidOfEntries(r, neededMb);
    }

    /** The answer in terms of the entries alone. */
    ghost predicate OfIdleEntries(r: Option<seq<string>>, neededMb: nat)
      reads *
    {
      && (r.Some? ==> OldestIdle(r.value, neededMb))
      && (r.None? <==> IdleCosts() == map[] || Sum(IdleCosts()) < neededMb)
    }

    lemma SaidOfEntries(r: Option<seq<string>>, neededMb: nat)
      requires r.Some? ==> LeastRecentlyUsedChoice(r.value, Eligible(), neededMb)
      requires r.None? <==> Short(neededMb)
      ensures OfIdleEntries(r, neededMb)
    {
      ShortOfIdle(neededMb);
      if r.Some? {
        ChoiceIsOldestIdle(r.value, neededMb);
      }
    }

    lemma ShortOfIdle(neededMb: nat)
      ensures Short(neededMb) <==> IdleCosts() == map[] || Sum(IdleCosts()) < neededMb
    {
      assert CandidateCosts(Eligible()) == IdleCosts();
      assert Eligible() == map[] <==> IdleCosts() == map[] by {
        assert Eligible().Keys == IdleCosts().Keys;
        assert Eligible() == map[] <==> Eligible().Keys == {};
        assert IdleCosts() == map[] <==> IdleCosts().Keys == {};
      }
    }

    lemma ChoiceIsOldestIdle(chosen: seq<string>, neededMb: nat)
      requires LeastRecentlyUsedChoice(chosen, Eligible(), neededMb)
      ensures OldestIdle(chosen, neededMb)
    {
      ChosenReserved(chosen);
      forall i, id | 0 <= i < |chosen| && id in loaded && !loaded[id].pinned && loaded[id].inFlight.value == 0
                     && id !in chosen
        ensures loaded[chosen[i]].lastUsedMs.value <= loaded[id].lastUsedMs.value
      {
        assert id in Eligible();
      }
    }

    lemma ChosenReserved(chosen: seq<string>)
      requires Distinct(chosen) && forall i :: 0 <= i < |chosen| ==> chosen[i] in Eligible()
      ensures ReservedBy(chosen) == ChosenCost(chosen, Eligible())
    {
      ChosenCostIsSum(chosen, Eligible());
      assert (map id | id in loaded && id in chosen :: loaded[id].costMb) == CostsOfChosen(chosen, Eligible());
    }
  }

  /** Budget not yet reserved on each device, saturating at zero. */
  ghost function FreesIn(tables: seq<Table>, budgets: seq<u64>): (fs: seq<nat>)
    requires |tables| == |budgets|
    ensures |fs| == |tables|
  {
    seq(|tables|, g requires 0 <= g < |tables| =>
      if Reserved(tables[g]) > budgets[g] then 0 else budgets[g] - Reserved(tables[g]))
  }

  /** Nothing is larger, and nothing behind it as large. */
  ghost predicate LastLargest(s: seq<nat>, i: nat) {
    && i < |s|
    && (forall k :: 0 <= k < |s| ==> s[k] <= s[i])
    && (forall k :: i < k < |s| ==> s[k] < s[i])
  }

  lemma RoomierInTables(tables: seq<Table>, budgets: seq<u64>, g: nat, h: nat, costMb: u64)
    requires |tables| == |budgets| && LastLargest(FreesIn(tables, budgets), g)
    requires h < |tables| && 0 < costMb && budgets[h] < U64_MAX && Fits(tables[h], budgets[h], costMb)
    ensures g < |tables| && budgets[g] != 0 && Fits(tables[g], budgets[g], costMb)
  {
    var frees := FreesIn(tables, budgets);
    assert costMb <= frees[h] <= frees[g];
  }

  function LargestAt(values: seq<nat>): (i: nat)
    ensures values != [] ==> LastLargest(values, i)
  {
    if |values| <= 1 then 0
    else
      var n := |values| - 1;
      var best := LargestAt(values[..n]);
      if values[n] >= values[best] then n else best
  }

  lemma LastLargestUnique(values: seq<nat>, i: nat)
    requires LastLargest(values, i)
    ensures LargestAt(values) == i
  {
    var j := LargestAt(values);
    assert values[j] == values[i];
  }

  lemma OneMoreFree(frees: seq<nat>, best: nat, i: nat)
    requires i < |frees| && LastLargest(frees[..i], best)
    ensures LastLargest(frees[..i + 1], if frees[i] >= frees[best] then i else best)
  {
    var front := frees[..i];
    forall k | 0 <= k <= i
      ensures frees[k] == if k < i then front[k] else frees[i]
    {
    }
  }

  lemma EmptyEnumeration(s: seq<Candidate>, m: map<string, Candidate>)
    requires Enumerates(s, m)
    ensures s == [] <==> m == map[]
  {
    if s != [] {
      assert s[0].id in m;
    }
  }

  lemma AdmitKeepsBudgetWhenAdmitted(t: Table, budgetMb: u64, costMb: u64, ctx: Context)
    requires WithinBudget(t, budgetMb)
    ensures Admits(t, budgetMb, costMb, ctx.modelId) ==> WithinBudget(Admit(t, budgetMb, costMb, ctx), budgetMb)
  {
    if Admits(t, budgetMb, costMb, ctx.modelId) {
      AdmitKeepsBudget(t, budgetMb, costMb, ctx);
    }
  }

  // ---------- all devices ----------

  class Scheduler {
    const sets: seq<ResidentSet>

    ghost predicate Valid()
      reads this, sets
    {
      && (forall i, j :: 0 <= i < j < |sets| ==> sets[i] != sets[j])
      && (forall i :: 0 <= i < |sets| ==> sets[i].Valid())
    }

    ghost function Tables(): (ts: seq<Table>)
      reads this, sets
      ensures |ts| == |sets|
      ensures forall i :: 0 <= i < |ts| ==> ts[i] == sets[i].loaded
    {
      seq(|sets|, i requires 0 <= i < |sets| reads this, sets => sets[i].loaded)
    }

    ghost function Budgets(): (bs: seq<u64>)
      reads this
      ensures |bs| == |sets|
      ensures forall i :: 0 <= i < |bs| ==> bs[i] == sets[i].budgetMb
    {
      seq(|sets|, i requires 0 <= i < |sets| reads this => sets[i].budgetMb)
    }

    constructor (budgets: seq<u64>)
      ensures Valid() && fresh(sets)
      ensures Budgets() == budgets
      ensures forall g :: 0 <= g < |sets| ==> Tables()[g] == map[]
    {
      var made: seq<ResidentSet> := [];
      for i := 0 to |budgets|
        invariant |made| == i
        invariant fresh(made)
        invariant forall k :: 0 <= k < i ==>
                  made[k].Valid() && made[k].budgetMb == budgets[k] && made[k].loaded == map[]
        invariant forall j, k :: 0 <= j < k < i ==> made[j] != made[k]
      {
        var s := new ResidentSet(budgets[i]);
        made := made + [s];
      }
      sets := made;
    }

    /** What each device has not reserved yet. */
    ghost function Frees(): (fs: seq<nat>)
      reads this, sets
      ensures |fs| == |sets|
      ensures forall i :: 0 <= i < |fs| ==> fs[i] == sets[i].Free()
    {
      seq(|sets|, i requires 0 <= i < |sets| reads this, sets => sets[i].Free())
    }

    /** It is a matter of tables and budgets. */
    lemma MostFreeOfTables()
      ensures Frees() == FreesIn(Tables(), Budgets())
    {
      forall i | 0 <= i < |sets|
        ensures Frees()[i] == FreesIn(Tables(), Budgets())[i]
      {
      }
    }

    /** No device has more free budget, and none behind it as much. */
    ghost predicate MostFree(gpu: GpuId)
      reads this, sets
    {
      LastLargest(FreesIn(Tables(), Budgets()), gpu)
    }

    lemma PickedIsMostFree(gpu: GpuId)
      requires LastLargest(Frees(), gpu)
      ensures MostFree(gpu)
    {
      MostFreeOfTables();
    }

    /** Whatever fits some device that keeps accounts fits the most free device, which
        keeps accounts itself: where an automatic model finds no room there, it finds
        none anywhere. (A device with the largest budget never refuses.) */
    lemma RoomierThanAll(gpu: GpuId, h: GpuId, costMb: u64)
      requires MostFree(gpu) && h < |sets| && 0 < costMb && Budgets()[h] < U64_MAX
      requires Fits(Tables()[h], Budgets()[h], costMb)
      ensures gpu < |sets| && Budgets()[gpu] != 0 && Fits(Tables()[gpu], Budgets()[gpu], costMb)
    {
      RoomierInTables(Tables(), Budgets(), gpu, h, costMb);
    }

    /** A device further back lacks room for something the most free device can take. */
    lemma RoomierThanBehind(gpu: GpuId, h: GpuId) returns (costMb: u64)
      requires MostFree(gpu) && gpu < h < |sets| && Budgets()[h] < U64_MAX
      ensures Fits(Tables()[gpu], Budgets()[gpu], costMb) && !Fits(Tables()[h], Budgets()[h], costMb)
    {
      var frees := FreesIn(Tables(), Budgets());
      assert frees[h] < frees[gpu];
      costMb := frees[gpu];
    }

    /** The device with the most free budget; of equals the last one. */
    method PickMostFreeDevice() returns (r: Option<GpuId>)
      requires Valid()
      ensures r.None? <==> sets == []
      ensures r.Some? ==> MostFree(r.value)
    {
      if |sets| == 0 {
        return None;
      }
      ghost var frees := Frees();
      var best := 0;
      var bestFree := sets[0].FreeMb();
      for i := 1 to |sets|
        invariant LastLargest(frees[..i], best) && bestFree == frees[best]
      {
        var free := sets[i].FreeMb();
        assert free == frees[i];
        OneMoreFree(frees, best, i);
        if free >= bestFree {
          best, bestFree := i, free;
        }
      }
      assert frees[..|sets|] == frees;
      PickedIsMostFree(best);
      return Some(best);
    }

    /** Drop the model from the listed devices. */
    method Release(modelId: string, gpus: seq<GpuId>)
      requires Valid()
      modifies sets
      ensures Valid()
      ensures Tables() == Withdraw(old(Tables()), Budgets(), gpus, modelId)
    {
      for i := 0 to |gpus|
        invariant Valid()
        invariant Tables() == Withdraw(old(Tables()), Budgets(), gpus[..i], modelId)
      {
        assert gpus[..i + 1][..i] == gpus[..i];
        if gpus[i] < |sets| {
          sets[gpus[i]].Release(modelId);
        }
        assert Tables() == Withdraw(old(Tables()), Budgets(), gpus[..i + 1], modelId);
      }
      assert gpus[..|gpus|] == gpus;
    }

    /** One share of a split: look the device up and reserve on it. */
    method ReserveShare(share: Share, ctx: Context) returns (r: Result<(), SchedulerError>)
      requires Valid()
      modifies sets
      ensures Valid()
      ensures r.Ok? <==> Accepts(old(Tables()), Budgets(), share, ctx.modelId)
      ensures r.Ok? ==> Tables() == After(old(Tables()), Budgets(), [share], ctx)
      ensures r.Err? ==> Tables() == old(Tables())
      ensures r.Err? ==> r.error == RefusalError(Tables(), Budgets(), share, ctx.modelId)
    {
      if share.gpu >= |sets| {
        return Err(UnknownGpu(share.gpu));
      }
      assert [share][..0] == [];
      var reply := sets[share.gpu].TryReserve(ctx, share.costMb);
      if reply.Err? {
        assert Tables() == old(Tables());
        return Err(DeviceOverBudget(share.gpu, reply.error));
      }
      return Ok(());
    }

    /** Reserve share by share; the first refusal undoes what this call reserved. */
    method TryReserveSplit(shares: seq<Share>, ctx: Context) returns (r: Result<(), SchedulerError>)
      requires Valid()
      modifies sets
      ensures Valid()
      ensures Tables() == SplitTables(old(Tables()), Budgets(), shares, ctx)
      ensures r == SplitResult(old(Tables()), Budgets(), shares, ctx)
    {
      ghost var before, budgets := Tables(), Budgets();
      var reserved: seq<GpuId> := [];
      for i := 0 to |shares|
        invariant Valid() && Budgets() == budgets
        invariant reserved == Devices(shares[..i])
        invariant Tables() == After(before, budgets, shares[..i], ctx)
        invariant AcceptedUpTo(before, budgets, shares, ctx, i)
      {
        r := ReserveShare(shares[i], ctx);
        if r.Err? {
          RefusedAt(before, budgets, shares, ctx, i);
          Release(ctx.modelId, reserved);
          return;
        }
        AfterOneMore(before, budgets, shares, ctx, i);
        reserved := reserved + [shares[i].gpu];
      }
      assert shares[..|shares|] == shares;
      RefusedNowhere(before, budgets, shares, ctx);
      r := Ok(());
    }
  }

  lemma AfterOneMore(tables: seq<Table>, budgets: seq<u64>, shares: seq<Share>, ctx: Context, i: nat)
    requires |tables| == |budgets| && i < |shares|
    requires AcceptedUpTo(tables, budgets, shares, ctx, i)
    requires AcceptedAt(tables, budgets, shares, ctx, i)
    ensures AcceptedUpTo(tables, budgets, shares, ctx, i + 1)
    ensures After(tables, budgets, shares[..i + 1], ctx)
         == After(After(tables, budgets, shares[..i], ctx), budgets, [shares[i]], ctx)
  {
    assert shares[..i + 1][..i] == shares[..i];
    assert [shares[i]][..0] == [];
  }

  lemma RefusedAt(tables: seq<Table>, budgets: seq<u64>, shares: seq<Share>, ctx: Context, k: nat)
    requires |tables| == |budgets| && k < |shares|
    requires AcceptedUpTo(tables, budgets, shares, ctx, k)
    requires !AcceptedAt(tables, budgets, shares, ctx, k)
    ensures SplitResult(tables, budgets, shares, ctx)
         == Err(RefusalError(After(tables, budgets, shares[..k], ctx), budgets, shares[k], ctx.modelId))
    ensures SplitTables(tables, budgets, shares, ctx)
         == Withdraw(After(tables, budgets, shares[..k], ctx), budgets, Devices(shares[..k]), ctx.modelId)
  {
    RefusalUnique(tables, budgets, shares, ctx, k);
  }

  lemma RefusedNowhere(tables: seq<Table>, budgets: seq<u64>, shares: seq<Share>, ctx: Context)
    requires |tables| == |budgets|
    requires AcceptedUpTo(tables, budgets, shares, ctx, |shares|)
    ensures SplitResult(tables, budgets, shares, ctx) == Ok(())
    ensures SplitTables(tables, budgets, shares, ctx) == After(tables, budgets, shares, ctx)
  {
    RefusalUnique(tables, budgets, shares, ctx, |shares|);
  }
}
