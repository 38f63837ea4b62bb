/** Waiting for somebody else's load (src/engine/llama/mod.rs:182-193): a task that finds
    its model loading clones the leader's notifier, lets go of the load state, registers
    and waits. Notifying wakes those that are registered, so a task that registers too
    late waits for ever. This module says when that can happen. */
module ProtocolWaiters {
  import opened Wrappers
  import opened Placements
  import opened Protocol
  import opened ProtocolInvariant
  import opened ProtocolSafety
  import opened ProtocolGuards
  import opened ProtocolRuns
  import opened ProtocolRetries
  import opened ProtocolService

  // ---------- one waiter ----------

  /** A task that finds its model loading does not touch it and waits for its leader. */
  lemma LoadingIsAwaited(c: Config, steps: seq<Step>, t: TaskId)
    requires Possible(c, steps) && t in After(c, steps).tasks && After(c, steps).tasks[t].pc.Entering?
    requires var s := After(c, steps); s.tasks[t].model in s.backends && s.backends[s.tasks[t].model].load.Loading?
    ensures var s := After(c, steps);
            var pc := if c.registersFirst then Parked(s.backends[s.tasks[t].model].load.leader, false)
                      else Subscribing(s.backends[s.tasks[t].model].load.leader);
            Takes(c, s, t, Move(s, t, pc))
  {
    RunKeepsGuards(c, steps);
  }

  /** In every run a waiter wakes up exactly if it registered in time and its leader is
      through with the load, and then it looks again. */
  lemma WakesIff(c: Config, steps: seq<Step>, t: TaskId, choice: Choice)
    requires Possible(c, steps) && t in After(c, steps).tasks && After(c, steps).tasks[t].pc.Parked?
    ensures var s, pc := After(c, steps), After(c, steps).tasks[t].pc;
            var next := Apply(c, s, Advance(t, choice));
            && s.tasks[t].model in s.backends
            && (next.Some? <==> !pc.late && s.backends[s.tasks[t].model].load != Loading(pc.leader))
            && (next.Some? ==> t in next.value.tasks && next.value.tasks[t].pc.Entering?)
  {
    RunKeepsGuards(c, steps);
  }

  /** Registered too late, or through. */
  predicate StaysPut(pc: PC) {
    (pc.Parked? && pc.late) || pc.Done?
  }

  lemma CannotMove(c: Config, s: State, t: TaskId, choice: Choice)
    requires t in s.tasks && StaysPut(s.tasks[t].pc)
    ensures Apply(c, s, Advance(t, choice)).None?
  {
  }

  lemma OthersMove(c: Config, s: State, step: Step, s': State, t: TaskId)
    requires Apply(c, s, step) == Some(s') && t in s.tasks && StaysPut(s.tasks[t].pc)
    ensures !Own(step, t)
  {
    if step.Advance? {
      CannotMove(c, s, t, step.choice);
    }
  }

  lemma PutStep(c: Config, s: State, step: Step, s': State, t: TaskId)
    requires GuardInv(c, s) && Apply(c, s, step) == Some(s') && t in s.tasks && StaysPut(s.tasks[t].pc)
    ensures t in s'.tasks && (s'.tasks[t] == s.tasks[t] || s'.tasks[t].pc.Done?)
  {
    OthersMove(c, s, step, s', t);
    match step {
      case Advance(u, choice) => OneTaskMoves(c, s, u, choice, s');
      case Cancel(u) => DroppedAtEntrance(c, s, u, s', t);
      case Start(u, m, kind) =>
      case WorkerDies(m) =>
    }
  }

  lemma DroppedAtEntrance(c: Config, s: State, u: TaskId, s': State, t: TaskId)
    requires Apply(c, s, Cancel(u)) == Some(s') && t in s.tasks && StaysPut(s.tasks[t].pc)
    ensures t in s'.tasks && (s'.tasks[t] == s.tasks[t] || s'.tasks[t].pc.Done?)
  {
  }

  /** Whoever registered too late waits for ever, whatever happens, unless it is dropped. */
  lemma {:induction false} LateForever(c: Config, before: seq<Step>, after: seq<Step>, t: TaskId)
    requires Possible(c, before) && Possible(c, before + after)
    requires t in After(c, before).tasks && After(c, before).tasks[t].pc.Parked? && After(c, before).tasks[t].pc.late
    ensures t in After(c, before + after).tasks
    ensures After(c, before + after).tasks[t] == After(c, before).tasks[t] || After(c, before + after).tasks[t].pc.Done?
    decreases |after|
  {
    if after == [] {
      assert before + after == before;
    } else {
      var n := |after| - 1;
      LastStep(c, before, after);
      LateForever(c, before, after[..n], t);
      RunKeepsGuards(c, before + after[..n]);
      PutStep(c, After(c, before + after[..n]), after[n], After(c, before + after), t);
    }
  }

  // ---------- nobody is late ----------

  predicate InTime(pc: PC) {
    !pc.Subscribing? && !(pc.Parked? && pc.late)
  }

  lemma EntersInTime(c: Config, s: State, t: TaskId, choice: Choice, s': State)
    requires c.registersFirst && Known(c, s, t) && TaskStep(c, s, t, choice) == Some(s')
    requires s.tasks[t].pc.Entering? || s.tasks[t].pc.Parked?
    ensures t in s'.tasks && InTime(s'.tasks[t].pc)
  {
  }

  /** A point at which the task is past the entrance, and so is the next. */
  lemma PastEntrance(c: Config, s: State, t: TaskId, choice: Choice, s': State)
    requires Knows(c, s, t) && TaskStep(c, s, t, choice) == Some(s') && !AtEntrance(s.tasks[t].pc)
    ensures t in s'.tasks && !AtEntrance(s'.tasks[t].pc)
  {
    if Unloads(s.tasks[t].pc) {
      UnloadsOn(c, s, t, choice, s');
    } else if Leads(s.tasks[t].pc) {
      LeadsOn(c, s, t, choice, s');
    }
  }

  lemma UnloadsOn(c: Config, s: State, t: TaskId, choice: Choice, s': State)
    requires Known(c, s, t) && TaskStep(c, s, t, choice) == Some(s') && Unloads(s.tasks[t].pc)
    ensures t in s'.tasks && !AtEntrance(s'.tasks[t].pc)
  {
  }

  lemma LeadsOn(c: Config, s: State, t: TaskId, choice: Choice, s': State)
    requires Known(c, s, t) && TaskStep(c, s, t, choice) == Some(s')
    requires Leads(s.tasks[t].pc) && !Unloads(s.tasks[t].pc)
    ensures t in s'.tasks && !AtEntrance(s'.tasks[t].pc)
  {
  }

  ghost predicate AllInTime(s: State) {
    forall t :: t in s.tasks ==> InTime(s.tasks[t].pc)
  }

  lemma {:induction false} RunKeepsInTime(c: Config, steps: seq<Step>)
    requires c.registersFirst && Possible(c, steps)
    ensures AllInTime(After(c, steps))
    decreases |steps|
  {
    if steps != [] {
      var n := |steps| - 1;
      RunKeepsInTime(c, steps[..n]);
      if steps[n].Advance? {
        RunKeepsGuards(c, steps[..n]);
        TaskKeepsInTime(c, After(c, steps[..n]), steps[n].t, steps[n].choice, After(c, steps));
      }
    }
  }

  lemma TaskKeepsInTime(c: Config, s: State, t: TaskId, choice: Choice, s': State)
    requires c.registersFirst && GuardInv(c, s) && AllInTime(s) && Known(c, s, t)
    requires TaskStep(c, s, t, choice) == Some(s')
    ensures AllInTime(s')
  {
    OneTaskMoves(c, s, t, choice, s');
    if AtEntrance(s.tasks[t].pc) {
      EntersInTime(c, s, t, choice, s');
    } else {
      PastEntrance(c, s, t, choice, s');
    }
  }

  // ---------- a load that fails while somebody is about to register ----------

  /** Request 0 loads the model, request 1 has seen that and is about to register; no
      other model has an entry. */
  ghost predicate Racing(c: Config, s: State, m: string, pc: PC) {
    && m in c.models && s.backends.Keys == c.models.Keys && |s.entries| == |c.budgets|
    && s.tasks == map[0 := Task(m, Request, pc), 1 := Task(m, Request, Subscribing(0))]
    && s.coordinator == Some(0) && s.backends[m].load == Loading(0) && s.backends[m].inFlight == 1
    && forall g :: 0 <= g < |s.entries| ==> s.entries[g].Keys <= {m}
  }

  /** One step of the leader. */
  lemma Races(c: Config, before: seq<Step>, m: string, pc: PC, choice: Choice, pc': PC) returns (steps: seq<Step>)
    requires Possible(c, before) && Racing(c, After(c, before), m, pc)
    requires Apply(c, After(c, before), Advance(0, choice)).Some?
    requires Racing(c, Apply(c, After(c, before), Advance(0, choice)).value, m, pc')
    ensures Possible(c, steps) && Racing(c, After(c, steps), m, pc')
  {
    steps := Then(c, before, Advance(0, choice), Apply(c, After(c, before), Advance(0, choice)).value);
  }

  lemma MovesTo(s: State, m: string, pc: PC, pc': PC)
    requires s.tasks == map[0 := Task(m, Request, pc), 1 := Task(m, Request, Subscribing(0))]
    ensures Move(s, 0, pc').tasks == map[0 := Task(m, Request, pc'), 1 := Task(m, Request, Subscribing(0))]
  {
  }

  lemma ResolvesOn(c: Config, s: State, m: string)
    requires Racing(c, s, m, Resolving)
    ensures var pc' := match s.backends[m].placement
                       case Resolved(p) => Reserving(p, 0)
                       case Auto => if |c.budgets| == 0 then Failing else Choosing(0, 0, 0);
            Apply(c, s, Advance(0, Proceed)) == Some(Move(s, 0, pc')) && Racing(c, Move(s, 0, pc'), m, pc')
  {
    var pc' := match s.backends[m].placement
      case Resolved(p) => Reserving(p, 0)
      case Auto => if |c.budgets| == 0 then Failing else Choosing(0, 0, 0);
    MovesTo(s, m, Resolving, pc');
  }

  lemma ChoosesOn(c: Config, s: State, m: string, i: nat, best: GpuId, freeMb: nat) returns (pc': PC)
    requires Racing(c, s, m, Choosing(i, best, freeMb))
    ensures if i < |c.budgets| then pc'.Choosing? && pc'.i == i + 1 else pc' == Reserving(SingleDevice(best), 0)
    ensures Apply(c, s, Advance(0, Proceed)) == Some(Move(s, 0, pc')) && Racing(c, Move(s, 0, pc'), m, pc')
  {
    assert Known(c, s, 0);
    pc' := Choose(c, s, 0).value.tasks[0].pc;
    MovesTo(s, m, Choosing(i, best, freeMb), pc');
  }

  lemma {:induction false} ChoosingEnds(c: Config, before: seq<Step>, m: string, i: nat, best: GpuId, freeMb: nat)
    returns (steps: seq<Step>, p: Placement)
    requires Possible(c, before) && Racing(c, After(c, before), m, Choosing(i, best, freeMb))
    ensures Possible(c, steps) && Racing(c, After(c, steps), m, Reserving(p, 0))
    decreases if i < |c.budgets| then |c.budgets| - i else 0
  {
    var pc' := ChoosesOn(c, After(c, before), m, i, best, freeMb);
    steps := Races(c, before, m, Choosing(i, best, freeMb), Proceed, pc');
    if i < |c.budgets| {
      steps, p := ChoosingEnds(c, steps, m, i + 1, pc'.best, pc'.freeMb);
    } else {
      p := SingleDevice(best);
    }
  }

  /** Where a leader may be once it is through with reserving. */
  predicate Reserved(pc: PC) {
    pc.Committing? || pc.Picking? || pc.Failing?
  }

  lemma ReservesOn(c: Config, s: State, m: string, p: Placement, k: nat) returns (pc': PC)
    requires Racing(c, s, m, Reserving(p, k))
    ensures pc' == Committing(p) || (pc' == Reserving(p, k + 1) && k < |Cost(c, m, p)|)
            || (pc'.RollingBack? && pc'.p == p && pc'.j == 0)
    ensures var next := Apply(c, s, Advance(0, Proceed)); next.Some? && Racing(c, next.value, m, pc')
  {
    assert Known(c, s, 0);
    var next := Reserve(c, s, 0).value;
    pc' := next.tasks[0].pc;
    MovesTo(s, m, Reserving(p, k), pc');
    OnlyOwnEntries(c, s, m, p, k);
    assert Apply(c, s, Advance(0, Proceed)) == Some(next);
  }

  lemma OnlyOwnEntries(c: Config, s: State, m: string, p: Placement, k: nat)
    requires Racing(c, s, m, Reserving(p, k))
    ensures var next := Reserve(c, s, 0).value;
            && |next.entries| == |s.entries| && (forall g :: 0 <= g < |next.entries| ==> next.entries[g].Keys <= {m})
            && next.backends == s.backends && next.coordinator == s.coordinator
            && next.tasks == Move(s, 0, next.tasks[0].pc).tasks
            && (next.tasks[0].pc == Committing(p) || (next.tasks[0].pc == Reserving(p, k + 1) && k < |Cost(c, m, p)|)
                || (next.tasks[0].pc.RollingBack? && next.tasks[0].pc.p == p && next.tasks[0].pc.j == 0))
  {
  }

  lemma RollsOn(c: Config, s: State, m: string, p: Placement, j: nat, k: nat, full: bool) returns (pc': PC)
    requires Racing(c, s, m, RollingBack(p, j, k, full))
    ensures pc'.Picking? || pc'.Failing? || (pc' == RollingBack(p, j + 1, k, full) && j < k)
    ensures var next := Apply(c, s, Advance(0, Proceed)); next.Some? && Racing(c, next.value, m, pc')
  {
    assert Known(c, s, 0);
    var next := RollBack(c, s, 0).value;
    pc' := next.tasks[0].pc;
    MovesTo(s, m, RollingBack(p, j, k, full), pc');
  }

  lemma {:induction false} ReservingEnds(c: Config, before: seq<Step>, m: string, p: Placement, k: nat)
    returns (steps: seq<Step>, pc: PC)
    requires Possible(c, before) && Racing(c, After(c, before), m, Reserving(p, k))
    ensures Possible(c, steps) && Racing(c, After(c, steps), m, pc) && Reserved(pc)
    decreases if k < |Cost(c, m, p)| then |Cost(c, m, p)| - k else 0
  {
    pc := ReservesOn(c, After(c, before), m, p, k);
    steps := Races(c, before, m, Reserving(p, k), Proceed, pc);
    if pc.Reserving? {
      steps, pc := ReservingEnds(c, steps, m, p, k + 1);
    } else if pc.RollingBack? {
      steps, pc := RollingEnds(c, steps, m, p, 0, pc.k, pc.full);
    }
  }

  lemma {:induction false} RollingEnds(c: Config, before: seq<Step>, m: string, p: Placement, j: nat, k: nat,
                                       full: bool)
    returns (steps: seq<Step>, pc: PC)
    requires Possible(c, before) && Racing(c, After(c, before), m, RollingBack(p, j, k, full))
    ensures Possible(c, steps) && Racing(c, After(c, steps), m, pc) && Reserved(pc)
    decreases k - j
  {
    pc := RollsOn(c, After(c, before), m, p, j, k, full);
    steps := Races(c, before, m, RollingBack(p, j, k, full), Proceed, pc);
    if pc.RollingBack? {
      steps, pc := RollingEnds(c, steps, m, p, j + 1, k, full);
    }
  }

  /** Nobody can be evicted: the only entries are those of the model being loaded. */
  lemma PicksNobody(c: Config, s: State, m: string, gpu: GpuId, neededMb: nat)
    requires Racing(c, s, m, Picking(gpu, neededMb))
    ensures var next := Apply(c, s, Advance(0, GiveUp)); next.Some? && Racing(c, next.value, m, Failing)
  {
    forall id | id in Eligible(c, s, gpu)
      ensures false
    {
    }
    assert Eligible(c, s, gpu) == map[];
    MovesTo(s, m, Picking(gpu, neededMb), Failing);
  }

  lemma CommitsOn(c: Config, s: State, m: string, p: Placement)
    requires Racing(c, s, m, Committing(p))
    ensures var next := Apply(c, s, Advance(0, Proceed));
            next.Some? && Racing(c, next.value, m, ReadingPlacement(p)) && next.value.backends[m].placement.Resolved?
  {
    MovesTo(s, m, Committing(p), ReadingPlacement(p));
  }

  lemma ReadsOn(c: Config, s: State, m: string, p: Placement) returns (q: Placement)
    requires Racing(c, s, m, ReadingPlacement(p)) && s.backends[m].placement.Resolved?
    ensures var next := Apply(c, s, Advance(0, Proceed)); next.Some? && Racing(c, next.value, m, Spawning(q))
  {
    q := s.backends[m].placement.placement;
    MovesTo(s, m, ReadingPlacement(p), Spawning(q));
  }

  lemma SpawnFails(c: Config, s: State, m: string, p: Placement)
    requires Racing(c, s, m, Spawning(p))
    ensures var next := Apply(c, s, Advance(0, GiveUp)); next.Some? && Racing(c, next.value, m, Abandoning(p, 0))
  {
    MovesTo(s, m, Spawning(p), Abandoning(p, 0));
  }

  lemma AbandonsOn(c: Config, s: State, m: string, p: Placement, j: nat)
    requires Racing(c, s, m, Abandoning(p, j))
    ensures var next := Apply(c, s, Advance(0, Proceed));
            next.Some? && Racing(c, next.value, m, if j < |Cost(c, m, p)| then Abandoning(p, j + 1) else Failing)
  {
    var pc' := if j < |Cost(c, m, p)| then Abandoning(p, j + 1) else Failing;
    assert Known(c, s, 0);
    MovesTo(s, m, Abandoning(p, j), pc');
  }

  lemma {:induction false} AbandoningEnds(c: Config, before: seq<Step>, m: string, p: Placement, j: nat)
    returns (steps: seq<Step>)
    requires Possible(c, before) && Racing(c, After(c, before), m, Abandoning(p, j))
    ensures Possible(c, steps) && Racing(c, After(c, steps), m, Failing)
    decreases if j < |Cost(c, m, p)| then |Cost(c, m, p)| - j else 0
  {
    AbandonsOn(c, After(c, before), m, p, j);
    if j < |Cost(c, m, p)| {
      steps := Races(c, before, m, Abandoning(p, j), Proceed, Abandoning(p, j + 1));
      steps := AbandoningEnds(c, steps, m, p, j + 1);
    } else {
      steps := Races(c, before, m, Abandoning(p, j), Proceed, Failing);
    }
  }

  /** From the reserve loop to the point where the load state is set back. */
  lemma LoadEnds(c: Config, before: seq<Step>, m: string) returns (steps: seq<Step>)
    requires Possible(c, before) && Racing(c, After(c, before), m, Resolving)
    ensures Possible(c, steps) && Racing(c, After(c, steps), m, Failing)
  {
    var p, pc;
    ResolvesOn(c, After(c, before), m);
    match After(c, before).backends[m].placement {
      case Resolved(q) =>
        steps := Races(c, before, m, Resolving, Proceed, Reserving(q, 0));
        steps, pc := ReservingEnds(c, steps, m, q, 0);
        steps := ReservedEnds(c, steps, m, pc);
      case Auto =>
        if |c.budgets| == 0 {
          steps := Races(c, before, m, Resolving, Proceed, Failing);
        } else {
          steps := Races(c, before, m, Resolving, Proceed, Choosing(0, 0, 0));
          steps, p := ChoosingEnds(c, steps, m, 0, 0, 0);
          steps, pc := ReservingEnds(c, steps, m, p, 0);
          steps := ReservedEnds(c, steps, m, pc);
        }
    }
  }

  lemma ReservedEnds(c: Config, before: seq<Step>, m: string, pc: PC) returns (steps: seq<Step>)
    requires Possible(c, before) && Racing(c, After(c, before), m, pc) && Reserved(pc)
    ensures Possible(c, steps) && Racing(c, After(c, steps), m, Failing)
  {
    match pc {
      case Committing(p) => steps := CommittingEnds(c, before, m, p);
      case Picking(gpu, neededMb) =>
        PicksNobody(c, After(c, before), m, gpu, neededMb);
        steps := Races(c, before, m, pc, GiveUp, Failing);
      case Failing => steps := before;
    }
  }

  lemma CommittingEnds(c: Config, before: seq<Step>, m: string, p: Placement) returns (steps: seq<Step>)
    requires Possible(c, before) && Racing(c, After(c, before), m, Committing(p))
    ensures Possible(c, steps) && Racing(c, After(c, steps), m, Failing)
  {
    CommitsOn(c, After(c, before), m, p);
    var committed := Apply(c, After(c, before), Advance(0, Proceed)).value;
    steps := Then(c, before, Advance(0, Proceed), committed);
    var q := ReadsOn(c, committed, m, p);
    steps := Races(c, steps, m, ReadingPlacement(p), Proceed, Spawning(q));
    SpawnFails(c, After(c, steps), m, q);
    steps := Races(c, steps, m, Spawning(q), GiveUp, Abandoning(q, 0));
    steps := AbandoningEnds(c, steps, m, q, 0);
  }

  // ---------- who is woken ----------

  /** The leader sets the load state back, notifies those registered and goes; then
      request 1 registers. */
  lemma RegistersTooLate(c: Config, before: seq<Step>, m: string) returns (steps: seq<Step>)
    requires Possible(c, before) && Racing(c, After(c, before), m, Failing)
    ensures Possible(c, steps) && LeftWaiting(After(c, steps), m)
  {
    var s := After(c, before);
    var b := s.backends[m];
    var s0 := s.(tasks := map[1 := Task(m, Request, Subscribing(0))]);
    assert s.backends[m := b] == s.backends;
    assert s == At(s0, m, 0, Request, Failing, b, s.entries, Some(0));
    steps := LeaderGoes(c, before, s0, m, b, s.entries);
    steps := SecondRegisters(c, steps, m);
  }

  lemma LeaderGoes(c: Config, before: seq<Step>, s: State, m: string, b: Backend, e: seq<map<string, nat>>)
    returns (steps: seq<Step>)
    requires Possible(c, before) && m in c.models && s.backends.Keys == c.models.Keys && |e| == |c.budgets|
    requires After(c, before) == At(s, m, 0, Request, Failing, b, e, Some(0))
    requires b.inFlight == 1 && b.load == Loading(0)
    ensures Possible(c, steps)
    ensures After(c, steps) == At(s, m, 0, Request, Done, b.(load := Unloaded, inFlight := 0), e, None)
  {
    var b1, b2 := b.(load := Unloaded), b.(load := Unloaded, inFlight := 0);
    steps := Proceeds(c, before, s, m, 0, Failing, b, e, Some(0), Failed, b1);
    steps := CoordinatorBack(c, steps, s, m, b1, e);
    steps := Proceeds(c, steps, s, m, 0, Dropping, b1, e, None, Done, b2);
  }

  lemma CoordinatorBack(c: Config, before: seq<Step>, s: State, m: string, b: Backend, e: seq<map<string, nat>>)
    returns (steps: seq<Step>)
    requires Possible(c, before) && m in c.models && s.backends.Keys == c.models.Keys && |e| == |c.budgets|
    requires After(c, before) == At(s, m, 0, Request, Failed, b, e, Some(0))
    ensures Possible(c, steps) && After(c, steps) == At(s, m, 0, Request, Dropping, b, e, None)
  {
    AtMoves(s, m, 0, Request, Failed, b, e, Some(0), Dropping, b);
    steps := Then(c, before, Advance(0, Proceed), At(s, m, 0, Request, Dropping, b, e, None));
  }

  lemma SecondRegisters(c: Config, before: seq<Step>, m: string) returns (steps: seq<Step>)
    requires Possible(c, before) && m in c.models
    requires var s := After(c, before);
             && s.tasks == map[0 := Task(m, Request, Done), 1 := Task(m, Request, Subscribing(0))]
             && s.backends.Keys == c.models.Keys && |s.entries| == |c.budgets|
             && s.coordinator.None? && s.backends[m].load == Unloaded
    ensures Possible(c, steps) && LeftWaiting(After(c, steps), m)
  {
    steps := Then(c, before, Advance(1, Proceed), Move(After(c, before), 1, Parked(0, true)));
  }

  /** One request is through, the other waits for a notification that has been. */
  predicate LeftWaiting(s: State, m: string) {
    && s.tasks == map[0 := Task(m, Request, Done), 1 := Task(m, Request, Parked(0, true))]
    && s.coordinator.None? && m in s.backends && s.backends[m].load == Unloaded
  }

  /** The run up to the reserve loop. */
  lemma RaceStarts(c: Config, m: string) returns (steps: seq<Step>)
    requires !c.registersFirst && m in c.models
    ensures Possible(c, steps) && Racing(c, After(c, steps), m, Resolving)
  {
    var s := Init(c);
    var e, b := s.entries, s.backends[m];
    var b1, b2 := b.(load := Loading(0)), b.(load := Loading(0), inFlight := 1);
    assert s.backends[m := b] == s.backends;
    assert Exec(c, []) == Some(s);
    steps := Then(c, [], Start(0, m, Request), At(s, m, 0, Request, Entering, b, e, None));
    AtMoves(s, m, 0, Request, Entering, b, e, None, Claimed, b1);
    steps := Then(c, steps, Advance(0, Proceed), At(s, m, 0, Request, Claimed, b1, e, None));
    AtMoves(s, m, 0, Request, Claimed, b1, e, None, Waiting, b2);
    steps := Then(c, steps, Advance(0, Proceed), At(s, m, 0, Request, Waiting, b2, e, None));
    steps := SecondComes(c, steps, m, b2);
  }

  lemma SecondComes(c: Config, before: seq<Step>, m: string, b: Backend) returns (steps: seq<Step>)
    requires !c.registersFirst && m in c.models && b.load == Loading(0) && b.inFlight == 1 && Possible(c, before)
    requires After(c, before) == At(Init(c), m, 0, Request, Waiting, b, Init(c).entries, None)
    ensures Possible(c, steps) && Racing(c, After(c, steps), m, Resolving)
  {
    var s := After(c, before);
    var first := s.tasks[0];
    steps := Then(c, before, Start(1, m, Request), s.(tasks := s.tasks[1 := Task(m, Request, Entering)]));
    var s1 := After(c, steps);
    steps := Then(c, steps, Advance(1, Proceed), Move(s1, 1, Subscribing(0)));
    var s2 := After(c, steps);
    steps := Then(c, steps, Advance(0, Proceed), Move(s2, 0, Resolving).(coordinator := Some(0)));
  }

  /** In no run does a waiter miss the notification it waits for. */
  ghost predicate WaitersAreWoken(c: Config) {
    forall steps, t :: Possible(c, steps) && t in After(c, steps).tasks ==> !MissedIt(c, steps, t)
  }

  ghost predicate MissedIt(c: Config, steps: seq<Step>, t: TaskId)
    requires Possible(c, steps) && t in After(c, steps).tasks
  {
    After(c, steps).tasks[t].pc.Parked? && After(c, steps).tasks[t].pc.late
  }

  lemma NoModelNoTask(c: Config, steps: seq<Step>)
    requires Possible(c, steps) && c.models == map[]
    ensures After(c, steps).tasks == map[]
  {
    RunKeepsGuards(c, steps);
    assert forall t :: t !in After(c, steps).tasks;
  }

  /** A notification is missed in some run exactly if waiters let go of the load state
      before they register and there is a model at all. */
  lemma RegisteringDecidesWaking(c: Config)
    ensures WaitersAreWoken(c) <==> c.registersFirst || c.models == map[]
  {
    if c.registersFirst {
      forall steps, t | Possible(c, steps) && t in After(c, steps).tasks
        ensures !MissedIt(c, steps, t)
      {
        RunKeepsInTime(c, steps);
      }
    } else if c.models == map[] {
      forall steps | Possible(c, steps)
        ensures After(c, steps).tasks == map[]
      {
        NoModelNoTask(c, steps);
      }
    } else {
      var m :| m in c.models;
      var steps := LostNotification(c, m);
      assert MissedIt(c, steps, 1);
    }
  }

  /** Such a run, for every model: everybody else is through, the model is unloaded and
      could be loaded, and a request waits for ever. */
  lemma LostNotification(c: Config, m: string) returns (steps: seq<Step>)
    requires !c.registersFirst && m in c.models
    ensures Possible(c, steps) && LeftWaiting(After(c, steps), m)
  {
    steps := RaceStarts(c, m);
    steps := LoadEnds(c, steps, m);
    steps := RegistersTooLate(c, steps, m);
  }
}
