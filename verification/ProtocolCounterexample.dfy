/** Why unloads from outside must hold the coordinator and nobody may drop a load or
    an unload half way: otherwise reservations of live workers get lost
    (src/admin/models.rs:82 calls `unload` without the coordinator and from a future
    that goes with its connection). */
module ProtocolCounterexample {
  import opened Wrappers
  import opened Placements
  import opened Protocol
  import opened ProtocolInvariant
  import opened ProtocolSteps
  import opened ProtocolSafety
  import opened ProtocolRuns
  import opened ProtocolAffordable

  /** A live worker of the model occupies an accounting device without its entry. */
  ghost predicate ReservationLost(c: Config, s: State, m: string) {
    && m in c.models && s.backends.Keys == c.models.Keys && |s.entries| == |c.budgets|
    && !WorkerReserved(c, s, m)
  }

  lemma LostWithoutEntries(c: Config, s: State, m: string, p: Placement)
    requires m in c.models && s.backends.Keys == c.models.Keys && s.backends[m].worker.Some?
    requires s.backends[m].worker.value.on == p
    requires s.entries == Filled(c, m, map[]) && AnyAccounted(c, m, p)
    ensures ReservationLost(c, s, m)
  {
    var i :| 0 <= i < |Cost(c, m, p)| && Accounted(c, Cost(c, m, p)[i]);
    assert s.entries[Cost(c, m, p)[i].gpu] == map[];
    assert !ShareReserved(c, s, m, Occupied(c, m, s.backends[m])[i]);
  }

  /** Taking one share's entry off. */
  lemma DropOne(c: Config, s: State, m: string, shares: seq<Share>, j: nat)
    requires j < |shares| && Distinct(R.Devices(shares)) && s.entries == Filled(c, m, ShareMap(shares[j..]))
    ensures Drop(c, s, m, shares[j].gpu) == s.(entries := Filled(c, m, ShareMap(shares[j + 1..])))
  {
    SliceStep(shares, j, |shares|);
    assert shares[j..|shares|] == shares[j..] && shares[j + 1..|shares|] == shares[j + 1..];
    FilledWithout(c, m, ShareMap(shares[j..]), shares[j].gpu);
  }

  lemma FilledWithout(c: Config, m: string, held: map<GpuId, nat>, g: GpuId)
    ensures var e := Filled(c, m, held);
            Filled(c, m, held - {g}) == if g < |e| && c.budgets[g] != 0 then e[g := e[g] - {m}] else e
  {
    var e := Filled(c, m, held);
    if g < |e| && c.budgets[g] != 0 {
      assert e[g] - {m} == map[];
    }
  }

  // ---------- unloads without the coordinator ----------

  /** An unload that has stopped the worker releases the devices one by one. */
  lemma ReleaseRun(c: Config, before: seq<Step>, s: State, m: string, t: TaskId, p: Placement, b: Backend, j: nat,
                   holder: Option<TaskId>)
    returns (steps: seq<Step>)
    requires WellFormed(c) && MayUse(c, m, p) && j <= |Cost(c, m, p)| && s.backends.Keys == c.models.Keys
    requires Possible(c, before)
    requires After(c, before) == At(s, m, t, Unload, Releasing(m, p.Gpus(), j, ToCaller), b,
                                    Filled(c, m, ShareMap(Cost(c, m, p)[j..])), holder)
    ensures Possible(c, steps)
    ensures After(c, steps) == At(s, m, t, Unload, Releasing(m, p.Gpus(), |Cost(c, m, p)|, ToCaller), b,
                                  Filled(c, m, map[]), holder)
    decreases |Cost(c, m, p)| - j
  {
    var shares := Cost(c, m, p);
    if j < |shares| {
      steps := ReleaseOne(c, before, s, m, t, p, b, j, holder);
      steps := ReleaseRun(c, steps, s, m, t, p, b, j + 1, holder);
    } else {
      steps := before;
      assert shares[j..] == [];
    }
  }

  lemma ReleaseOne(c: Config, before: seq<Step>, s: State, m: string, t: TaskId, p: Placement, b: Backend, j: nat,
                   holder: Option<TaskId>)
    returns (steps: seq<Step>)
    requires WellFormed(c) && MayUse(c, m, p) && j < |Cost(c, m, p)| && s.backends.Keys == c.models.Keys
    requires Possible(c, before)
    requires After(c, before) == At(s, m, t, Unload, Releasing(m, p.Gpus(), j, ToCaller), b,
                                    Filled(c, m, ShareMap(Cost(c, m, p)[j..])), holder)
    ensures Possible(c, steps)
    ensures After(c, steps) == At(s, m, t, Unload, Releasing(m, p.Gpus(), j + 1, ToCaller), b,
                                  Filled(c, m, ShareMap(Cost(c, m, p)[j + 1..])), holder)
  {
    var shares := Cost(c, m, p);
    var e, e' := Filled(c, m, ShareMap(shares[j..])), Filled(c, m, ShareMap(shares[j + 1..]));
    UsableDistinct(c, m, p);
    assert R.Devices(shares)[j] == shares[j].gpu;
    var pc, pc' := Releasing(m, p.Gpus(), j, ToCaller), Releasing(m, p.Gpus(), j + 1, ToCaller);
    var now, next := At(s, m, t, Unload, pc, b, e, holder), At(s, m, t, Unload, pc', b, e', holder);
    AtMoves(s, m, t, Unload, pc, b, e, holder, pc', b);
    DropOne(c, Move(now, t, pc'), m, shares, j);
    assert Release(c, now, t) == Some(next);
    steps := Then(c, before, Advance(t, Proceed), next);
  }

  /** The unload's next step: the worker is gone, the devices to release are read. */
  lemma StoppedRun(c: Config, before: seq<Step>, s: State, m: string, t: TaskId, p: Placement, b: Backend,
                   e: seq<map<string, nat>>, holder: Option<TaskId>)
    returns (steps: seq<Step>)
    requires Possible(c, before) && m in c.models && s.backends.Keys == c.models.Keys && |e| == |c.budgets|
    requires p.WellFormed() && b.placement == Resolved(p)
    requires After(c, before) == At(s, m, t, Unload, Stopping(m, Starter(b), ToCaller), b, e, holder)
    ensures Possible(c, steps)
    ensures After(c, steps) == At(s, m, t, Unload, Releasing(m, p.Gpus(), 0, ToCaller), b.(worker := None), e, holder)
  {
    var pc' := Releasing(m, p.Gpus(), 0, ToCaller);
    AtMoves(s, m, t, Unload, Stopping(m, Starter(b), ToCaller), b, e, holder, pc', b.(worker := None));
    steps := Then(c, before, Advance(t, Proceed), At(s, m, t, Unload, pc', b.(worker := None), e, holder));
  }

  /** A loaded model and an unlocked unload that is about to release its devices. */
  lemma HalfUnlocked(c: Config, m: string, p: Placement) returns (steps: seq<Step>)
    requires WellFormed(c) && FirstChoice(c, m, p) && AllFit(c, m, p) && !c.unloadsLocked
    ensures Possible(c, steps)
    ensures var s := After(c, steps);
            && Ready(c, s) && s.tasks.Keys == {0, 1}
            && s.tasks[1] == Task(m, Unload, Releasing(m, p.Gpus(), 0, ToCaller)) && s.tasks[0].pc.Done?
            && s.backends[m] == Backend(Unloaded, Resolved(p), 0, None)
            && s.entries == Filled(c, m, ShareMap(Cost(c, m, p)))
  {
    UsableDistinct(c, m, p);
    steps := FirstLoad(c, m, p);
    var s := After(c, steps);
    steps := TakeDownRun(c, steps, m, 1);
    steps := StoppedRun(c, steps, s, m, 1, p, s.backends[m].(load := Unloaded), s.entries, None);
  }

  /** Load; start an unload from outside; a second load finds the old entries still
      there and is content with them; the unload then releases them. The model ends
      up loaded with a live worker and no reservation. */
  lemma UnlockedUnloadLosesReservation(c: Config, m: string) returns (steps: seq<Step>)
    requires WellFormed(c) && !c.unloadsLocked && Reservable(c, m)
    ensures Possible(c, steps) && ReservationLost(c, After(c, steps), m)
    ensures After(c, steps).backends[m].load == Loaded
  {
    var p := UsablePlacement(c, m);
    steps := HalfUnlocked(c, m, p);
    steps := LoadRun(c, steps, m, 2, p, true);
    var s := After(c, steps);
    var shares := Cost(c, m, p);
    assert shares[0..] == shares;
    var pc := Releasing(m, p.Gpus(), 0, ToCaller);
    assert s == At(s, m, 1, Unload, pc, s.backends[m], s.entries, None) by {
      assert s.tasks[1] == Task(m, Unload, pc);
      assert s.tasks[1 := s.tasks[1]] == s.tasks && s.backends[m := s.backends[m]] == s.backends;
    }
    steps := ReleaseRun(c, steps, s, m, 1, p, s.backends[m], 0, None);
    LostWithoutEntries(c, After(c, steps), m, p);
  }

  // ---------- dropped unloads ----------

  /** A leader whose worker did not come up gives its shares back one by one. */
  lemma AbandonRun(c: Config, before: seq<Step>, s: State, m: string, t: TaskId, p: Placement, b: Backend, j: nat)
    returns (steps: seq<Step>)
    requires WellFormed(c) && MayUse(c, m, p) && j <= |Cost(c, m, p)| && s.backends.Keys == c.models.Keys
    requires Possible(c, before)
    requires After(c, before)
             == At(s, m, t, Preload, Abandoning(p, j), b, Filled(c, m, ShareMap(Cost(c, m, p)[j..])), Some(t))
    ensures Possible(c, steps)
    ensures After(c, steps) == At(s, m, t, Preload, Abandoning(p, |Cost(c, m, p)|), b, Filled(c, m, map[]), Some(t))
    decreases |Cost(c, m, p)| - j
  {
    var shares := Cost(c, m, p);
    if j < |shares| {
      steps := AbandonOne(c, before, s, m, t, p, b, j);
      steps := AbandonRun(c, steps, s, m, t, p, b, j + 1);
    } else {
      steps := before;
      assert shares[j..] == [];
    }
  }

  lemma AbandonOne(c: Config, before: seq<Step>, s: State, m: string, t: TaskId, p: Placement, b: Backend, j: nat)
    returns (steps: seq<Step>)
    requires WellFormed(c) && MayUse(c, m, p) && j < |Cost(c, m, p)| && s.backends.Keys == c.models.Keys
    requires Possible(c, before)
    requires After(c, before)
             == At(s, m, t, Preload, Abandoning(p, j), b, Filled(c, m, ShareMap(Cost(c, m, p)[j..])), Some(t))
    ensures Possible(c, steps)
    ensures After(c, steps)
         == At(s, m, t, Preload, Abandoning(p, j + 1), b, Filled(c, m, ShareMap(Cost(c, m, p)[j + 1..])), Some(t))
  {
    var shares := Cost(c, m, p);
    var e, e' := Filled(c, m, ShareMap(shares[j..])), Filled(c, m, ShareMap(shares[j + 1..]));
    UsableDistinct(c, m, p);
    var now := At(s, m, t, Preload, Abandoning(p, j), b, e, Some(t));
    var next := At(s, m, t, Preload, Abandoning(p, j + 1), b, e', Some(t));
    AtMoves(s, m, t, Preload, Abandoning(p, j), b, e, Some(t), Abandoning(p, j + 1), b);
    DropOne(c, Move(now, t, Abandoning(p, j + 1)), m, shares, j);
    assert Abandon(c, now, t) == Some(next);
    steps := Then(c, before, Advance(t, Proceed), next);
  }

  /** Load; drop an unload while it waits for the worker to stop; a second load is
      content with the entries left behind, fails to start a worker and releases
      them, with the first worker still on its way out. */
  lemma DroppedUnloadLosesReservation(c: Config, m: string) returns (steps: seq<Step>)
    requires WellFormed(c) && !c.detached && Reservable(c, m)
    ensures Possible(c, steps) && ReservationLost(c, After(c, steps), m)
  {
    var p := UsablePlacement(c, m);
    steps := DroppedUnloadRun(c, m, p);
    var s := After(c, steps);
    var b := s.backends[m].(load := Loading(2));
    var e := Filled(c, m, ShareMap(Cost(c, m, p)));
    steps := ReserveRun(c, steps, m, 2, p, true);
    steps := CommitRun(c, steps, s, m, 2, Preload, b, p);
    assert b.(placement := Resolved(p)) == b;
    steps := GiveUpRun(c, steps, s, m, p, b);
    LostWithoutEntries(c, After(c, steps), m, p);
  }

  /** A leader that cannot start a worker gives everything back. */
  lemma GiveUpRun(c: Config, before: seq<Step>, s: State, m: string, p: Placement, b: Backend)
    returns (steps: seq<Step>)
    requires WellFormed(c) && MayUse(c, m, p) && s.backends.Keys == c.models.Keys && Possible(c, before)
    requires After(c, before) == At(s, m, 2, Preload, Spawning(p), b, Filled(c, m, ShareMap(Cost(c, m, p))), Some(2))
    ensures Possible(c, steps)
    ensures After(c, steps) == At(s, m, 2, Preload, Abandoning(p, |Cost(c, m, p)|), b, Filled(c, m, map[]), Some(2))
  {
    var e := Filled(c, m, ShareMap(Cost(c, m, p)));
    AtMoves(s, m, 2, Preload, Spawning(p), b, e, Some(2), Abandoning(p, 0), b);
    steps := Then(c, before, Advance(2, GiveUp), At(s, m, 2, Preload, Abandoning(p, 0), b, e, Some(2)));
    assert Cost(c, m, p)[0..] == Cost(c, m, p);
    steps := AbandonRun(c, steps, s, m, 2, p, b, 0);
  }

  // ---------- exactly when ----------

  /** The reservations of live workers are safe in all runs exactly if both
      precautions are taken or no model can be loaded with an entry at all. */
  lemma PrecautionsDecideSafety(c: Config)
    requires WellFormed(c)
    ensures (forall steps, m :: Possible(c, steps) ==> !ReservationLost(c, After(c, steps), m))
       <==> Careful(c) || forall m :: m in c.models ==> !Reservable(c, m)
  {
    if Careful(c) {
      forall steps, m | Possible(c, steps)
        ensures !ReservationLost(c, After(c, steps), m)
      {
        LiveWorkersFit(c, steps);
      }
    } else if m :| m in c.models && Reservable(c, m) {
      var steps;
      if c.unloadsLocked {
        steps := DroppedUnloadLosesReservation(c, m);
      } else {
        steps := UnlockedUnloadLosesReservation(c, m);
      }
      assert ReservationLost(c, After(c, steps), m);
    } else {
      forall steps, m | Possible(c, steps)
        ensures !ReservationLost(c, After(c, steps), m)
      {
        if m in c.models {
          NothingToLose(c, steps, m);
        }
      }
    }
  }

  // ---------- a placement that turns automatic again ----------

  /** Load an automatic model; an unlocked unload releases it; a second load reserves
      and commits; the unload then resets the placement. The leader finds no placement
      and fails without releasing: the model is unloaded, the coordinator free, and
      the entry stays. */
  lemma ResetBetweenCommitAndRead(c: Config, m: string, p: Placement) returns (missing: seq<Step>, leaked: seq<Step>)
    requires WellFormed(c) && !c.unloadsLocked && FirstChoice(c, m, p) && c.models[m].gpus == [] && AllFit(c, m, p)
    ensures Possible(c, missing) && 2 in After(c, missing).tasks && After(c, missing).tasks[2].pc == PlacementStillAuto
    ensures Possible(c, leaked)
    ensures var s := After(c, leaked);
            && s.coordinator.None? && s.backends.Keys == c.models.Keys && s.backends[m].load == Unloaded
            && s.entries == Filled(c, m, ShareMap(Cost(c, m, p))) && OneUnloadEnds(s, m)
  {
    var steps := ReleasedRun(c, m, p);
    var s := After(c, steps);
    var b := s.backends[m].(load := Loading(2));
    var e := Filled(c, m, ShareMap(Cost(c, m, p)));
    steps := ReserveRun(c, steps, m, 2, p, false);
    steps := RecommitRun(c, steps, s, m, b, p, e);
    assert forall t :: t in s.tasks && t != 1 ==> s.tasks[t].pc.Done?;
    missing, leaked := ReadAfterReset(c, steps, s, m, b, p, e);
  }

  /** Committing changes nothing: the placement of the first load is still there. */
  lemma RecommitRun(c: Config, before: seq<Step>, s: State, m: string, b: Backend, p: Placement,
                    e: seq<map<string, nat>>)
    returns (steps: seq<Step>)
    requires m in c.models && s.backends.Keys == c.models.Keys && |e| == |c.budgets| && b.placement == Resolved(p)
    requires Possible(c, before) && After(c, before) == At(s, m, 2, Preload, Committing(p), b, e, Some(2))
    ensures Possible(c, steps) && After(c, steps) == At(s, m, 2, Preload, ReadingPlacement(p), b, e, Some(2))
  {
    AtMoves(s, m, 2, Preload, Committing(p), b, e, Some(2), ReadingPlacement(p), b);
    steps := Then(c, before, Advance(2, Proceed), At(s, m, 2, Preload, ReadingPlacement(p), b, e, Some(2)));
  }

  /** A loaded model and an unlocked unload that has released its devices. */
  lemma ReleasedRun(c: Config, m: string, p: Placement) returns (steps: seq<Step>)
    requires WellFormed(c) && FirstChoice(c, m, p) && AllFit(c, m, p) && !c.unloadsLocked
    ensures Possible(c, steps)
    ensures var s := After(c, steps);
            && Ready(c, s) && s.tasks.Keys == {0, 1} && s.tasks[0].pc.Done?
            && s.tasks[1] == Task(m, Unload, Resetting(m, ToCaller))
            && s.backends[m] == Backend(Unloaded, Resolved(p), 0, None) && s.entries == Filled(c, m, map[])
  {
    steps := HalfUnlocked(c, m, p);
    var s := After(c, steps);
    var b := s.backends[m];
    var none := Filled(c, m, map[]);
    UsableDistinct(c, m, p);
    assert Cost(c, m, p)[0..] == Cost(c, m, p);
    assert s.tasks[1 := s.tasks[1]] == s.tasks && s.backends[m := b] == s.backends;
    steps := ReleaseRun(c, steps, s, m, 1, p, b, 0, None);
    var pc := Releasing(m, p.Gpus(), |Cost(c, m, p)|, ToCaller);
    AtMoves(s, m, 1, Unload, pc, b, none, None, Resetting(m, ToCaller), b);
    steps := Then(c, steps, Advance(1, Proceed), At(s, m, 1, Unload, Resetting(m, ToCaller), b, none, None));
  }

  /** One unload is about to end, everybody else is through. */
  predicate OneUnloadEnds(s: State, m: string) {
    && 1 in s.tasks && s.tasks[1] == Task(m, Unload, UnloadEnding)
    && forall t :: t in s.tasks && t != 1 ==> s.tasks[t].pc.Done?
  }

  lemma ReadAfterReset(c: Config, before: seq<Step>, s: State, m: string, b: Backend, p: Placement,
                       e: seq<map<string, nat>>)
    returns (missing: seq<Step>, leaked: seq<Step>)
    requires m in c.models && c.models[m].gpus == [] && s.backends.Keys == c.models.Keys && |e| == |c.budgets|
    requires !c.unloadsLocked && 1 in s.tasks && s.tasks[1] == Task(m, Unload, Resetting(m, ToCaller))
    requires forall t :: t in s.tasks && t != 1 ==> s.tasks[t].pc.Done?
    requires Possible(c, before) && After(c, before) == At(s, m, 2, Preload, ReadingPlacement(p), b, e, Some(2))
    ensures Possible(c, missing) && 2 in After(c, missing).tasks && After(c, missing).tasks[2].pc == PlacementStillAuto
    ensures Possible(c, leaked)
    ensures var s' := After(c, leaked);
            && s'.coordinator.None? && s'.backends.Keys == c.models.Keys && s'.backends[m].load == Unloaded
            && s'.entries == e && OneUnloadEnds(s', m)
  {
    var u := s.(tasks := s.tasks[1 := Task(m, Unload, UnloadEnding)]);
    var b1 := b.(placement := Auto);
    missing := ResetRun(c, before, s, m, b, p, e);
    AtMoves(u, m, 2, Preload, ReadingPlacement(p), b1, e, Some(2), PlacementStillAuto, b1);
    missing := Then(c, missing, Advance(2, Proceed), At(u, m, 2, Preload, PlacementStillAuto, b1, e, Some(2)));
    leaked := FailRun(c, missing, u, m, b1, e);
  }

  lemma ResetRun(c: Config, before: seq<Step>, s: State, m: string, b: Backend, p: Placement, e: seq<map<string, nat>>)
    returns (steps: seq<Step>)
    requires m in c.models && c.models[m].gpus == [] && s.backends.Keys == c.models.Keys && |e| == |c.budgets|
    requires 1 in s.tasks && s.tasks[1] == Task(m, Unload, Resetting(m, ToCaller))
    requires Possible(c, before) && After(c, before) == At(s, m, 2, Preload, ReadingPlacement(p), b, e, Some(2))
    ensures Possible(c, steps)
    ensures After(c, steps) == At(s.(tasks := s.tasks[1 := Task(m, Unload, UnloadEnding)]), m, 2, Preload,
                                  ReadingPlacement(p), b.(placement := Auto), e, Some(2))
  {
    var u := s.(tasks := s.tasks[1 := Task(m, Unload, UnloadEnding)]);
    var now, next := At(s, m, 2, Preload, ReadingPlacement(p), b, e, Some(2)),
                     At(u, m, 2, Preload, ReadingPlacement(p), b.(placement := Auto), e, Some(2));
    assert Move(now, 1, UnloadEnding).tasks == next.tasks;
    assert now.backends[m := b.(placement := Auto)] == next.backends;
    steps := Then(c, before, Advance(1, Proceed), next);
  }

  lemma FailRun(c: Config, before: seq<Step>, s: State, m: string, b: Backend, e: seq<map<string, nat>>)
    returns (steps: seq<Step>)
    requires m in c.models && s.backends.Keys == c.models.Keys && |e| == |c.budgets|
    requires Possible(c, before) && After(c, before) == At(s, m, 2, Preload, PlacementStillAuto, b, e, Some(2))
    ensures Possible(c, steps) && After(c, steps) == At(s, m, 2, Preload, Done, b.(load := Unloaded), e, None)
  {
    var b' := b.(load := Unloaded);
    AtMoves(s, m, 2, Preload, PlacementStillAuto, b, e, Some(2), Failed, b');
    steps := Then(c, before, Advance(2, Proceed), At(s, m, 2, Preload, Failed, b', e, Some(2)));
    AtMoves(s, m, 2, Preload, Failed, b', e, Some(2), Done, b');
    steps := Then(c, steps, Advance(2, Proceed), At(s, m, 2, Preload, Done, b', e, None));
  }
}
