/** What a request can count on in every run, dropped futures included: what it finds
    at the entrance, that it is served where the model is loaded, which models serve
    anybody at all, and that tasks wait for nothing but the coordinator and the leader
    of a load (src/engine/llama/mod.rs). The other protocol modules say what no run
    does; this one says what every run can still do. */
module ProtocolService {
  import opened Wrappers
  import opened Placements
  import opened Protocol
  import opened ProtocolInvariant
  import opened ProtocolSafety
  import opened ProtocolGuards
  import opened ProtocolRuns
  import opened ProtocolAffordable
  import opened ProtocolPlacements

  // ---------- at the entrance ----------

  /** The step is possible and leads to this state. */
  ghost predicate Takes(c: Config, s: State, t: TaskId, s': State) {
    Apply(c, s, Advance(t, Proceed)) == Some(s')
  }

  /** In every run: a request that finds its model loaded gets a guard that counts, and
      with one more step the worker's command channel. */
  lemma LoadedServes(c: Config, steps: seq<Step>, t: TaskId) returns (guarded: State, served: State)
    requires Possible(c, steps) && t in After(c, steps).tasks
    requires var s := After(c, steps);
             && s.tasks[t].pc.Entering? && s.tasks[t].kind.Request?
             && s.tasks[t].model in s.backends && s.backends[s.tasks[t].model].load == Loaded
    ensures var s, m := After(c, steps), After(c, steps).tasks[t].model;
            && Takes(c, s, t, guarded) && t in guarded.tasks && UsesModel(guarded.tasks[t].pc)
            && m in guarded.backends && guarded.backends[m].inFlight == s.backends[m].inFlight + 1
    ensures Takes(c, guarded, t, served) && t in served.tasks && served.tasks[t].pc.Sending?
  {
    RunKeepsGuards(c, steps);
    var s := After(c, steps);
    var m := s.tasks[t].model;
    guarded := Put(Move(s, t, Holding), m, s.backends[m].(inFlight := s.backends[m].inFlight + 1));
    HoldingSends(c, guarded, t);
    served := Move(guarded, t, Sending);
  }

  lemma HoldingSends(c: Config, s: State, t: TaskId)
    requires Known(c, s, t) && s.tasks[t].pc.Holding? && s.backends[s.tasks[t].model].load == Loaded
    ensures Takes(c, s, t, Move(s, t, Sending))
  {
  }

  /** ... whatever the other tasks do in between: nobody can take the model away from a
      guard, so whoever holds one gets the channel. */
  lemma GuardReachesWorker(c: Config, steps: seq<Step>, t: TaskId)
    requires Possible(c, steps) && t in After(c, steps).tasks && After(c, steps).tasks[t].pc.Holding?
    ensures exists served :: Takes(c, After(c, steps), t, served) && t in served.tasks && served.tasks[t].pc.Sending?
  {
    RunKeepsGuards(c, steps);
    var s := After(c, steps);
    assert Relies(s.tasks[t]);
    HoldingSends(c, s, t);
  }

  /** Whoever finds its model unloaded becomes its leader. */
  lemma UnloadedIsClaimed(c: Config, steps: seq<Step>, t: TaskId)
    requires Possible(c, steps) && t in After(c, steps).tasks && After(c, steps).tasks[t].pc.Entering?
    requires var s := After(c, steps); s.tasks[t].model in s.backends && s.backends[s.tasks[t].model].load.Unloaded?
    ensures var s, m := After(c, steps), After(c, steps).tasks[t].model;
            exists claimed :: Takes(c, s, t, claimed) && LeadsFor(claimed, t, m)
                              && m in claimed.backends && claimed.backends[m].load == Loading(t)
  {
    RunKeepsGuards(c, steps);
    var s := After(c, steps);
    var m := s.tasks[t].model;
    var pc := if s.tasks[t].kind.Request? then Claimed else Waiting;
    var claimed := Put(Move(s, t, pc), m, s.backends[m].(load := Loading(t)));
    assert Takes(c, s, t, claimed);
  }

  /** On the way out, or about to take back what it has reserved. */
  predicate Leaves(pc: PC) {
    pc.Dropping? || pc.Done? || pc.Abandoning?
  }

  /** The model may be poisoned or draining when it is entered or used, the worker thread
      may not start and the load may fail: each of these can happen in every run that gets
      there, and then the task leaves. */
  lemma MayFail(c: Config, steps: seq<Step>, t: TaskId)
    requires Possible(c, steps) && t in After(c, steps).tasks
    requires var pc := After(c, steps).tasks[t].pc; pc.Entering? || pc.Holding? || pc.Spawning? || pc.AwaitingLoad?
    ensures var next := Apply(c, After(c, steps), Advance(t, GiveUp));
            next.Some? && t in next.value.tasks && Leaves(next.value.tasks[t].pc)
  {
    RunKeepsGuards(c, steps);
    if After(c, steps).tasks[t].pc.Entering? || After(c, steps).tasks[t].pc.Holding? {
      TurnedAway(c, After(c, steps), t);
    } else {
      LoadFails(c, After(c, steps), t);
    }
  }

  lemma TurnedAway(c: Config, s: State, t: TaskId)
    requires Known(c, s, t) && (s.tasks[t].pc.Entering? || s.tasks[t].pc.Holding?)
    ensures var next := Apply(c, s, Advance(t, GiveUp));
            next.Some? && t in next.value.tasks && Leaves(next.value.tasks[t].pc)
  {
  }

  lemma LoadFails(c: Config, s: State, t: TaskId)
    requires Known(c, s, t) && (s.tasks[t].pc.Spawning? || s.tasks[t].pc.AwaitingLoad?)
    ensures var next := Apply(c, s, Advance(t, GiveUp));
            next.Some? && t in next.value.tasks && Leaves(next.value.tasks[t].pc)
  {
  }

  /** A worker that is there may die at any moment, and any number of tasks may come. */
  lemma MayComeAndGo(c: Config, steps: seq<Step>, m: string, t: TaskId, kind: Kind)
    requires Possible(c, steps) && m in c.models
    ensures var s := After(c, steps);
            && m in s.backends
            && (s.backends[m].worker.Some? ==>
                  var next := Apply(c, s, WorkerDies(m));
                  next.Some? && m in next.value.backends && next.value.backends[m].worker.None?)
            && (t !in s.tasks ==>
                  var next := Apply(c, s, Start(t, m, kind));
                  next.Some? && t in next.value.tasks && next.value.tasks[t].model == m
                  && next.value.tasks[t].kind == kind && !next.value.tasks[t].pc.Done?)
  {
    RunKeepsGuards(c, steps);
  }

  /** Clients and callers may go away: whoever waits at the entrance, for its answer or
      for the coordinator is dropped then, and where loads and unloads run in the
      request's own future so are their suspended leaders. A dropped task is on its way
      out without the coordinator; a detached load or unload is out of reach. */
  lemma MayBeDropped(c: Config, steps: seq<Step>, t: TaskId)
    requires Possible(c, steps) && t in After(c, steps).tasks
    ensures var s, next := After(c, steps), Apply(c, After(c, steps), Cancel(t));
            var pc := s.tasks[t].pc;
            && (pc.Entering? || pc.Parked? || pc.Holding? || pc.Sending? || pc.UnloadWaiting? ==> next.Some?)
            && (pc.Waiting? || pc.AwaitingLoad? || pc.Stopping? || pc.Checking? ==> (next.Some? <==> !c.detached))
            && (c.detached && (LeadsFor(s, t, s.tasks[t].model) || s.coordinator == Some(t)) ==> next.None?)
            && (next.Some? ==> t in next.value.tasks && Leaves(next.value.tasks[t].pc)
                               && next.value.coordinator != Some(t) && next.value.backends == s.backends
                               && next.value.entries == s.entries)
  {
    RunKeepsGuards(c, steps);
    DropLetsGo(c, After(c, steps), t);
    var s := After(c, steps);
    if c.detached && (LeadsFor(s, t, s.tasks[t].model) || s.coordinator == Some(t)) {
      DetachedStays(c, s, t);
    }
  }

  lemma DropLetsGo(c: Config, s: State, t: TaskId)
    requires t in s.tasks
    ensures var s' := Dropped(s, t);
            && t in s'.tasks && Leaves(s'.tasks[t].pc) && s'.coordinator != Some(t)
            && s'.backends == s.backends && s'.entries == s.entries
  {
  }

  lemma DetachedStays(c: Config, s: State, t: TaskId)
    requires GuardInv(c, s) && c.detached && t in s.tasks
    requires LeadsFor(s, t, s.tasks[t].model) || s.coordinator == Some(t)
    ensures !CanDrop(c, s.tasks[t].pc)
  {
  }

  // ---------- whole requests ----------

  /** A request to a loaded model that nobody disturbs: it reaches the worker at its
      third step and leaves everything as it found it. */
  lemma RequestServed(c: Config, before: seq<Step>, m: string, t: TaskId) returns (steps: seq<Step>)
    requires Possible(c, before) && m in c.models && t !in After(c, before).tasks
    requires m in After(c, before).backends && After(c, before).backends[m].load == Loaded
    ensures steps == before + [Start(t, m, Request), Advance(t, Proceed), Advance(t, Proceed), Advance(t, Proceed),
                               Advance(t, Proceed)]
    ensures Possible(c, steps) && Possible(c, steps[..|before| + 3])
    ensures t in After(c, steps[..|before| + 3]).tasks && After(c, steps[..|before| + 3]).tasks[t].pc.Sending?
    ensures var s := After(c, before);
            After(c, steps) == State(s.coordinator, s.backends, s.entries, s.tasks[t := Task(m, Request, Done)])
  {
    RunKeepsGuards(c, before);
    var s := After(c, before);
    var b, e, h := s.backends[m], s.entries, s.coordinator;
    assert s.backends[m := b] == s.backends;
    var entered := Then(c, before, Start(t, m, Request), At(s, m, t, Request, Entering, b, e, h));
    var sending := UseRun(c, entered, s, m, t, b, e, h);
    steps := LeaveRun(c, sending, s, m, t, b, e, h);
    assert steps[..|before| + 3] == sending;
  }

  /** The answer is there; the guard is given back. */
  lemma LeaveRun(c: Config, before: seq<Step>, s: State, m: string, t: TaskId, b: Backend, e: seq<map<string, nat>>,
                 h: Option<TaskId>)
    returns (steps: seq<Step>)
    requires Possible(c, before) && m in c.models && s.backends.Keys == c.models.Keys && |e| == |c.budgets|
    requires After(c, before) == At(s, m, t, Request, Sending, b.(inFlight := b.inFlight + 1), e, h)
    ensures steps == before + [Advance(t, Proceed), Advance(t, Proceed)] && Possible(c, steps)
    ensures After(c, steps) == At(s, m, t, Request, Done, b, e, h)
  {
    var b1 := b.(inFlight := b.inFlight + 1);
    var leaving := Proceeds(c, before, s, m, t, Sending, b1, e, h, Dropping, b1);
    steps := Proceeds(c, leaving, s, m, t, Dropping, b1, e, h, Done, b);
  }

  /** From the entrance of a loaded model to the worker. */
  lemma UseRun(c: Config, before: seq<Step>, s: State, m: string, t: TaskId, b: Backend, e: seq<map<string, nat>>,
               h: Option<TaskId>)
    returns (steps: seq<Step>)
    requires Possible(c, before) && m in c.models && s.backends.Keys == c.models.Keys && |e| == |c.budgets|
    requires After(c, before) == At(s, m, t, Request, Entering, b, e, h) && b.load == Loaded
    ensures steps == before + [Advance(t, Proceed), Advance(t, Proceed)] && Possible(c, steps)
    ensures After(c, steps) == At(s, m, t, Request, Sending, b.(inFlight := b.inFlight + 1), e, h)
  {
    var b1 := b.(inFlight := b.inFlight + 1);
    var guarded := Proceeds(c, before, s, m, t, Entering, b, e, h, Holding, b1);
    steps := Proceeds(c, guarded, s, m, t, Holding, b1, e, h, Sending, b1);
  }

  /** One step of a request, its model's backend changing along. */
  lemma Proceeds(c: Config, before: seq<Step>, s: State, m: string, t: TaskId, pc: PC, b: Backend,
                 e: seq<map<string, nat>>, h: Option<TaskId>, pc': PC, b': Backend)
    returns (steps: seq<Step>)
    requires Possible(c, before) && m in c.models && s.backends.Keys == c.models.Keys && |e| == |c.budgets|
    requires After(c, before) == At(s, m, t, Request, pc, b, e, h)
    requires var moved := Move(At(s, m, t, Request, pc, b, e, h), t, pc');
             TaskStep(c, At(s, m, t, Request, pc, b, e, h), t, Proceed)
             == Some(if b' == b then moved else Put(moved, m, b'))
    ensures steps == before + [Advance(t, Proceed)] && Possible(c, steps)
    ensures After(c, steps) == At(s, m, t, Request, pc', b', e, h)
  {
    AtMoves(s, m, t, Request, pc, b, e, h, pc', b');
    steps := Then(c, before, Advance(t, Proceed), At(s, m, t, Request, pc', b', e, h));
  }

  /** A request that arrives first and looks only after somebody else's load. */
  lemma WaitingRequestServed(c: Config, m: string, p: Placement) returns (steps: seq<Step>)
    requires WellFormed(c) && FirstChoice(c, m, p) && AllFit(c, m, p)
    ensures Possible(c, steps)
    ensures After(c, steps).tasks == map[1 := Task(m, Request, Sending), 0 := Task(m, Preload, Done)]
  {
    steps := LoadBehind(c, m, p);
    steps := AfterLoadRun(c, steps, m);
  }

  /** The request is there, but somebody else is first. */
  lemma LoadBehind(c: Config, m: string, p: Placement) returns (steps: seq<Step>)
    requires WellFormed(c) && FirstChoice(c, m, p) && AllFit(c, m, p)
    ensures Possible(c, steps)
    ensures var s := After(c, steps);
            && s.backends.Keys == c.models.Keys && |s.entries| == |c.budgets| && s.backends[m].load == Loaded
            && s.tasks == map[1 := Task(m, Request, Entering), 0 := Task(m, Preload, Done)]
  {
    steps := EarlyRequest(c, m);
    steps := LoadRun(c, steps, m, 0, p, false);
  }

  lemma EarlyRequest(c: Config, m: string) returns (steps: seq<Step>)
    requires m in c.models
    ensures Possible(c, steps)
    ensures After(c, steps) == Init(c).(tasks := map[1 := Task(m, Request, Entering)])
    ensures Init(c).entries == Filled(c, m, map[])
  {
    assert Exec(c, []) == Some(Init(c));
    steps := Then(c, [], Start(1, m, Request), Init(c).(tasks := map[1 := Task(m, Request, Entering)]));
  }

  lemma AfterLoadRun(c: Config, before: seq<Step>, m: string) returns (steps: seq<Step>)
    requires Possible(c, before) && m in c.models
    requires var s := After(c, before);
             && s.backends.Keys == c.models.Keys && |s.entries| == |c.budgets|
             && 1 in s.tasks && s.tasks[1] == Task(m, Request, Entering) && s.backends[m].load == Loaded
    ensures Possible(c, steps) && After(c, steps).tasks == After(c, before).tasks[1 := Task(m, Request, Sending)]
  {
    var s := After(c, before);
    var b, e, h := s.backends[m], s.entries, s.coordinator;
    assert s.backends[m := b] == s.backends;
    assert s.tasks[1 := Task(m, Request, Entering)] == s.tasks;
    steps := UseRun(c, before, s, m, 1, b, e, h);
  }

  /** A request that finds its model unloaded, loads it and is served by the worker it
      has started itself. */
  lemma LeaderServed(c: Config, m: string, p: Placement) returns (steps: seq<Step>)
    requires WellFormed(c) && FirstChoice(c, m, p) && AllFit(c, m, p)
    ensures Possible(c, steps)
    ensures After(c, steps) == At(Init(c), m, 0, Request, Sending, Backend(Loaded, Resolved(p), 1, Some(Worker(0, p))),
                                  Filled(c, m, ShareMap(Cost(c, m, p))), None)
  {
    var s := Init(c);
    var e, b := Filled(c, m, ShareMap(Cost(c, m, p))), Backend(Loaded, Resolved(p), 1, Some(Worker(0, p)));
    steps := LoadForRequest(c, m, p);
    steps := Proceeds(c, steps, s, m, 0, Holding, b, e, None, Sending, b);
  }

  /** ... up to the moment the request is handed its guard. */
  lemma LoadForRequest(c: Config, m: string, p: Placement) returns (steps: seq<Step>)
    requires WellFormed(c) && FirstChoice(c, m, p) && AllFit(c, m, p)
    ensures Possible(c, steps)
    ensures After(c, steps) == At(Init(c), m, 0, Request, Holding, Backend(Loaded, Resolved(p), 1, Some(Worker(0, p))),
                                  Filled(c, m, ShareMap(Cost(c, m, p))), None)
  {
    var s := Init(c);
    var b := Backend(Loading(0), s.backends[m].placement, 1, None);
    steps := ClaimForRequest(c, m);
    assert s.entries == Filled(c, m, map[]);
    steps := ReserveClaimed(c, steps, s, m, 0, Request, b, p, false);
    steps := CommitRun(c, steps, s, m, 0, Request, b, p);
    steps := SpawnRun(c, steps, s, m, 0, Request, b.(placement := Resolved(p)), p);
  }

  /** From the start to the reserve loop, the sentinel counted on the way. */
  lemma ClaimForRequest(c: Config, m: string) returns (steps: seq<Step>)
    requires m in c.models
    ensures Possible(c, steps)
    ensures var s := Init(c);
            After(c, steps) == At(s, m, 0, Request, Resolving, Backend(Loading(0), s.backends[m].placement, 1, None),
                                  s.entries, Some(0))
  {
    var s := Init(c);
    var e, b := s.entries, s.backends[m];
    var b1, b2 := b.(load := Loading(0)), b.(load := Loading(0), inFlight := 1);
    assert s.backends[m := b] == s.backends;
    assert Exec(c, []) == Some(s);
    steps := Then(c, [], Start(0, m, Request), At(s, m, 0, Request, Entering, b, e, None));
    steps := Proceeds(c, steps, s, m, 0, Entering, b, e, None, Claimed, b1);
    steps := Proceeds(c, steps, s, m, 0, Claimed, b1, e, None, Waiting, b2);
    AtMoves(s, m, 0, Request, Waiting, b2, e, None, Resolving, b2);
    steps := Then(c, steps, Advance(0, Proceed), At(s, m, 0, Request, Resolving, b2, e, Some(0)));
  }

  // ---------- which models serve anybody ----------

  /** The model is loaded only with a placement all of whose shares fit alone. */
  ghost predicate FitToLoad(c: Config, m: string) {
    exists p :: MayUse(c, m, p) && AllFit(c, m, p)
  }

  ghost predicate LoadedFit(c: Config, s: State) {
    forall m :: m in s.backends && s.backends[m].load == Loaded ==> FitToLoad(c, m)
  }

  lemma OnlyLoadAckLoads(c: Config, s: State, t: TaskId, choice: Choice, s': State, m: string)
    requires Known(c, s, t) && TaskStep(c, s, t, choice) == Some(s') && !s.tasks[t].pc.AwaitingLoad?
    requires m in s'.backends && s'.backends[m].load == Loaded
    ensures m in s.backends && s.backends[m].load == Loaded
  {
    if Unloads(s.tasks[t].pc) {
      TakingDownLoadsNothing(c, s, t, choice, s', m);
    }
  }

  predicate Unloads(pc: PC) {
    pc.Evicting? || pc.Stopping? || pc.Releasing? || pc.Resetting? || pc.Checking? || pc.UnloadEnding?
  }

  lemma TakingDownLoadsNothing(c: Config, s: State, t: TaskId, choice: Choice, s': State, m: string)
    requires Known(c, s, t) && TaskStep(c, s, t, choice) == Some(s') && Unloads(s.tasks[t].pc)
    requires m in s'.backends && s'.backends[m].load == Loaded
    ensures m in s.backends && s.backends[m].load == Loaded
  {
  }

  lemma TaskKeepsLoadedFit(c: Config, s: State, t: TaskId, choice: Choice, s': State)
    requires LoadedFit(c, s) && Affordable(c, s) && Known(c, s, t) && TaskStep(c, s, t, choice) == Some(s')
    ensures LoadedFit(c, s')
  {
    forall m | m in s'.backends && s'.backends[m].load == Loaded
      ensures FitToLoad(c, m)
    {
      if s.tasks[t].pc.AwaitingLoad? {
        assert TaskFits(c, s.tasks[t]);
      } else {
        OnlyLoadAckLoads(c, s, t, choice, s', m);
      }
    }
  }

  lemma {:induction false} RunKeepsLoadedFit(c: Config, steps: seq<Step>)
    requires WellFormed(c) && Possible(c, steps)
    ensures LoadedFit(c, After(c, steps))
    decreases |steps|
  {
    if steps != [] {
      var n := |steps| - 1;
      RunKeepsLoadedFit(c, steps[..n]);
      if steps[n].Advance? {
        RunKeepsAffordable(c, steps[..n]);
        TaskKeepsLoadedFit(c, After(c, steps[..n]), steps[n].t, steps[n].choice, After(c, steps));
      }
    }
  }

  /** Some run serves a request to the model. */
  ghost predicate Serves(c: Config, m: string) {
    exists steps, t :: Possible(c, steps) && ServedAfter(c, steps, t, m)
  }

  ghost predicate ServedAfter(c: Config, steps: seq<Step>, t: TaskId, m: string)
    requires Possible(c, steps)
  {
    t in After(c, steps).tasks && After(c, steps).tasks[t].model == m && After(c, steps).tasks[t].pc.Sending?
  }

  /** The model fits on its own: the configured placement, or for an automatic model the
      largest device. */
  ghost predicate Loadable(c: Config, m: string) {
    && m in c.models
    && if c.models[m].gpus == [] then FitsLargest(c, m) else AllFit(c, m, FromGpus(c.models[m].gpus).placement)
  }

  /** A model serves requests in some run exactly if it fits on its own, whatever else
      is configured. (For automatic models this is stated where the last device counts;
      the scheduler also gives away a last device without a budget once nothing is left
      on the others.) */
  lemma ServesIffLoadable(c: Config, m: string)
    requires WellFormed(c) && m in c.models && (c.models[m].gpus == [] ==> LastCounts(c))
    ensures Serves(c, m) <==> Loadable(c, m)
  {
    if Serves(c, m) {
      var steps, t :| Possible(c, steps) && ServedAfter(c, steps, t, m);
      GuardsProtect(c, steps);
      RunKeepsLoadedFit(c, steps);
      FitIsLoadable(c, m);
    }
    if Loadable(c, m) {
      var p := PlacementToLoad(c, m);
      var steps := LeaderServed(c, m, p);
      assert ServedAfter(c, steps, 0, m);
    }
  }

  lemma FitIsLoadable(c: Config, m: string)
    requires FitToLoad(c, m) && (c.models[m].gpus == [] ==> LastCounts(c))
    ensures Loadable(c, m)
  {
    var p :| MayUse(c, m, p) && AllFit(c, m, p);
    if c.models[m].gpus == [] {
      assert ShareFits(c, Cost(c, m, p)[0]);
      StartableFitsLargest(c, m);
    }
  }

  lemma PlacementToLoad(c: Config, m: string) returns (p: Placement)
    requires Loadable(c, m)
    ensures FirstChoice(c, m, p) && AllFit(c, m, p)
  {
    p := if c.models[m].gpus == [] then SingleDevice(S.LargestAt(c.budgets)) else FromGpus(c.models[m].gpus).placement;
  }
}
