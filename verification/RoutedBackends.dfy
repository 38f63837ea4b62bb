/** Fallback along the targets of a routing rule, for whole answers and for streams
    (src/routing/routed_backend.rs). What each target would do if it were called is
    a parameter, so that every statement holds for every behaviour of the targets. */
module RoutedBackends {
  import opened Wrappers
  import opened EngineErrors
  import opened Matchers
  import opened Routes

  /** What the request trace records about the target that answered. */
  datatype Served = Served(backendId: string, fallbackCount: nat)

  /** The rule a request is served by: the first match, else the first rule. */
  function PickRule(route: CompiledRoute, ctx: MatchContext,
                    isMatch: (string, string) -> bool): (r: Option<CompiledRule>)
    ensures r.None? <==> route.rules == []
    ensures SelectRule(route, ctx, isMatch).Some? ==> r == SelectRule(route, ctx, isMatch)
  {
    match SelectRule(route, ctx, isMatch)
    case Some(rule) => Some(rule)
    case None => if route.rules != [] then Some(route.rules[0]) else None
  }

  /** A matching rule with none that matches before it, or the first if nothing matches. */
  lemma PicksMatchOrFirst(route: CompiledRoute, ctx: MatchContext, isMatch: (string, string) -> bool)
    returns (k: nat)
    requires route.rules != []
    ensures k < |route.rules| && PickRule(route, ctx, isMatch) == Some(route.rules[k])
    ensures forall j :: 0 <= j < k ==> !route.rules[j].matchers.Matches(ctx, isMatch)
    ensures route.rules[k].matchers.Matches(ctx, isMatch)
            || (k == 0 && forall j :: 0 <= j < |route.rules| ==> !route.rules[j].matchers.Matches(ctx, isMatch))
  {
    var found := FirstMatch(route.rules, ctx, isMatch);
    k := if found.Some? then found.value else 0;
  }

  function NoRules(route: CompiledRoute): EngineError {
    InferenceFailed("route '" + route.id + "' has no rules")
  }

  // ---------- whole answers ----------

  datatype Response = Response(content: string)

  /** How a call of one target ends: with an answer of its own, or not in time. */
  datatype Outcome = Answered(result: Result<Response, EngineError>) | TimedOut
  {
    function Final(): Result<Response, EngineError> {
      if TimedOut? then Err(Timeout) else result
    }

    /** The route moves on to the next target. */
    predicate FallsBack() {
      Final().Err? && Final().error.IsRetryable()
    }

    function Failure(): EngineError
      requires FallsBack()
    {
      Final().error
    }
  }

  ghost predicate AllFallBack(outcomes: seq<Outcome>) {
    forall i :: 0 <= i < |outcomes| ==> outcomes[i].FallsBack()
  }

  /** The ids of the targets with the failures that made the route move on. */
  function Attempts(ids: seq<string>, outcomes: seq<Outcome>): (r: seq<Attempt>)
    requires |ids| == |outcomes|
    requires forall i :: 0 <= i < |outcomes| ==> outcomes[i].FallsBack()
    ensures |r| == |outcomes|
    ensures forall i :: 0 <= i < |r| ==> r[i] == Attempt(ids[i], outcomes[i].Failure())
  {
    seq(|outcomes|, i requires 0 <= i < |outcomes| && outcomes[i].FallsBack() => Attempt(ids[i], outcomes[i].Failure()))
  }

  /** `called` targets were called and `r` came out: the first outcome that is not a
      reason to fall back, or the list of all failures when there is none. */
  ghost predicate FallbackResult(routeId: string, ids: seq<string>, outcomes: seq<Outcome>, called: nat,
                                 r: Result<Response, EngineError>, served: Option<Served>)
    requires |ids| == |outcomes|
  {
    || (&& AllFallBack(outcomes) && called == |outcomes|
        && r == Err(AllBackendsFailed(routeId, Attempts(ids, outcomes))) && served == None)
    || (&& 0 < called <= |outcomes| && AllFallBack(outcomes[..called - 1]) && !outcomes[called - 1].FallsBack()
        && r == outcomes[called - 1].Final()
        && served == if r.Ok? then Some(Served(ids[called - 1], called - 1)) else None)
  }

  method ChatCompletion(route: CompiledRoute, request: Request, headers: Headers, isMatch: (string, string) -> bool,
                        outcomes: seq<Outcome>)
    returns (r: Result<Response, EngineError>, called: nat, served: Option<Served>)
    requires var rule := PickRule(route, FromRequest(request, headers), isMatch);
             rule.Some? ==> |rule.value.targetIds| == |rule.value.targets| == |outcomes|
    ensures route.rules == [] ==> r == Err(NoRules(route)) && called == 0 && served == None
    ensures route.rules != [] ==>
              FallbackResult(route.id, PickRule(route, FromRequest(request, headers), isMatch).value.targetIds,
                outcomes, called, r, served)
  {
    var picked := PickRule(route, FromRequest(request, headers), isMatch);
    if picked.None? {
      return Err(NoRules(route)), 0, None;
    }
    var ids := picked.value.targetIds;
    var attempts: seq<Attempt>, fallbackCount := [], 0;
    called := 0;
    for idx := 0 to |picked.value.targets|
      invariant AllFallBack(outcomes[..idx])
      invariant called == fallbackCount == idx
      invariant attempts == Attempts(ids[..idx], outcomes[..idx])
    {
      called := called + 1;
      var outcome := outcomes[idx].Final();
      if outcome.Ok? {
        return outcome, called, Some(Served(ids[idx], fallbackCount));
      }
      if !outcome.error.IsRetryable() {
        return outcome, called, None;
      }
      attempts := attempts + [Attempt(ids[idx], outcome.error)];
      fallbackCount := fallbackCount + 1;
    }
    assert ids[..|outcomes|] == ids && outcomes[..|outcomes|] == outcomes;
    return Err(AllBackendsFailed(route.id, attempts)), called, None;
  }

  /** Only one result is possible. */
  lemma FallbackResultUnique(routeId: string, ids: seq<string>, outcomes: seq<Outcome>,
                             called: nat, r: Result<Response, EngineError>, served: Option<Served>,
                             called': nat, r': Result<Response, EngineError>, served': Option<Served>)
    requires |ids| == |outcomes|
    requires FallbackResult(routeId, ids, outcomes, called, r, served)
    requires FallbackResult(routeId, ids, outcomes, called', r', served')
    ensures called == called' && r == r' && served == served'
  {
    if called > 0 && !outcomes[called - 1].FallsBack() {
      FinalStops(outcomes, called - 1, if AllFallBack(outcomes) then |outcomes| else called' - 1);
    }
    if called' > 0 && !outcomes[called' - 1].FallsBack() {
      FinalStops(outcomes, called' - 1, if AllFallBack(outcomes) then |outcomes| else called - 1);
    }
  }

  lemma FinalStops(outcomes: seq<Outcome>, k: nat, n: nat)
    requires k < |outcomes| && !outcomes[k].FallsBack()
    requires n <= |outcomes| && AllFallBack(outcomes[..n])
    ensures n <= k
  {
    assert forall i :: 0 <= i < n ==> outcomes[..n][i].FallsBack() && outcomes[..n][i] == outcomes[i];
  }

  /** Exhaustion is reported exactly when every target timed out or failed with a
      retryable error, unless a target reports an exhaustion of its own. */
  lemma ExhaustedIffAllFellBack(routeId: string, ids: seq<string>, outcomes: seq<Outcome>,
                                called: nat, r: Result<Response, EngineError>, served: Option<Served>)
    requires |ids| == |outcomes|
    requires FallbackResult(routeId, ids, outcomes, called, r, served)
    ensures r.Err? && r.error.AllBackendsFailed?
       <==> (|| AllFallBack(outcomes)
             || (called > 0 && outcomes[called - 1] == Answered(r) && r.Err? && r.error.AllBackendsFailed?))
  {
  }

  /** The client gets an answer exactly if a target answers before which each target timed
      out or failed in a way that is worth another try; a list of failures names the
      targets in order, each with a timeout or its own error. */
  lemma AnsweredIff(routeId: string, ids: seq<string>, outcomes: seq<Outcome>,
                    called: nat, r: Result<Response, EngineError>, served: Option<Served>)
    requires |ids| == |outcomes|
    requires FallbackResult(routeId, ids, outcomes, called, r, served)
    ensures r.Ok? <==> exists k :: 0 <= k < |outcomes| && outcomes[k].Answered? && outcomes[k].result.Ok?
                                   && forall j :: 0 <= j < k ==> WorthAnother(outcomes[j])
    ensures r.Ok? <==> served.Some?
    ensures called == |outcomes| && (forall j :: 0 <= j < |outcomes| ==> WorthAnother(outcomes[j])) ==>
              r.Err? && r.error.AllBackendsFailed? && |r.error.attempts| == |ids|
              && forall j :: 0 <= j < |ids| ==>
                   && r.error.attempts[j].targetId == ids[j]
                   && match outcomes[j]
                      case TimedOut => r.error.attempts[j].error == Timeout
                      case Answered(own) => own == Err(r.error.attempts[j].error)
  {
    assert forall j :: 0 <= j < |outcomes| ==> (WorthAnother(outcomes[j]) <==> outcomes[j].FallsBack());
    if called > 0 && !outcomes[called - 1].FallsBack() {
      assert forall j :: 0 <= j < called - 1 ==> outcomes[..called - 1][j] == outcomes[j];
    }
  }

  /** Nobody answered in time, or the error may go away. */
  ghost predicate WorthAnother(o: Outcome) {
    o.TimedOut?
    || (o.result.Err? && match o.result.error
                         case Timeout | Network(_) | UpstreamServerError(_, _) | RateLimited(_) => true
                         case ModelUnavailable(_) => true
                         case _ => false)
  }

  /** What targets behind the answering one would have done makes no difference. */
  lemma LaterTargetsIrrelevant(routeId: string, ids: seq<string>, outcomes: seq<Outcome>, others: seq<Outcome>,
                               called: nat, r: Result<Response, EngineError>, served: Option<Served>)
    requires |ids| == |outcomes| == |others|
    requires FallbackResult(routeId, ids, outcomes, called, r, served)
    requires called <= |others| && others[..called] == outcomes[..called]
    ensures FallbackResult(routeId, ids, others, called, r, served)
  {
    if called > 0 && !outcomes[called - 1].FallsBack() {
      assert others[called - 1] == others[..called][called - 1] == outcomes[..called][called - 1];
      assert others[..called - 1] == others[..called][..called - 1] == outcomes[..called][..called - 1]
        == outcomes[..called - 1];
    } else {
      assert others == outcomes;
    }
  }

  // ---------- streams ----------

  datatype Chunk = Chunk(content: string)

  /** How a stream task ends once its channel is closed; a panic carries no result. */
  datatype Finish = Finished(result: Result<(), EngineError>) | Panicked

  /** All a started target would do if left alone: the chunks it sends before it closes
      its channel, how it ends, and whether the first of these happens in the window. */
  datatype StreamRun = StreamRun(chunks: seq<Chunk>, finish: Finish, inTime: bool)
  {
    predicate Delivers() {
      inTime && chunks != []
    }

    /** Why the route moves on from a target that does not deliver. */
    function Failure(): EngineError {
      if !inTime then Timeout else Network("stream closed before first chunk")
    }

    function Result(): Result<(), EngineError> {
      if finish.Panicked? then Ok(()) else finish.result
    }
  }

  ghost predicate NoneDelivers(runs: seq<StreamRun>) {
    forall i :: 0 <= i < |runs| ==> !runs[i].Delivers()
  }

  function StreamAttempts(ids: seq<string>, runs: seq<StreamRun>): (r: seq<Attempt>)
    requires |ids| == |runs|
    ensures |r| == |runs|
    ensures forall i :: 0 <= i < |r| ==> r[i] == Attempt(ids[i], runs[i].Failure())
  {
    seq(|runs|, i requires 0 <= i < |runs| => Attempt(ids[i], runs[i].Failure()))
  }

  /** The client takes this many chunks of `chunks` before it goes away. */
  function Taken(chunks: seq<Chunk>, clientTakes: nat): seq<Chunk> {
    if clientTakes < |chunks| then chunks[..clientTakes] else chunks
  }

  datatype StreamEnd = StreamEnd(
    result: Result<(), EngineError>, delivered: seq<Chunk>, started: nat, served: Option<Served>)

  /** A single source: chunks of the first target that delivers in its window, as
      many as the client takes, nothing from any other; or nothing and all failures. */
  ghost predicate StreamResult(routeId: string, ids: seq<string>, runs: seq<StreamRun>, clientTakes: nat,
                               end: StreamEnd)
    requires |ids| == |runs|
  {
    || (&& NoneDelivers(runs) && end.started == |runs| && end.delivered == [] && end.served == None
        && end.result == Err(AllBackendsFailed(routeId, StreamAttempts(ids, runs))))
    || (&& 0 < end.started <= |runs| && NoneDelivers(runs[..end.started - 1]) && runs[end.started - 1].Delivers()
        && end.delivered == Taken(runs[end.started - 1].chunks, clientTakes)
        && end.served == Some(Served(ids[end.started - 1], end.started - 1))
        && end.result == if clientTakes < |runs[end.started - 1].chunks| then Ok(())
          else runs[end.started - 1].Result())
  }

  /** `clientTakes`: the number of chunks the client receives before its side of the
      channel is dropped; no smaller than any stream if it stays. */
  method ChatCompletionStream(route: CompiledRoute, request: Request, headers: Headers,
                              isMatch: (string, string) -> bool,
                              runs: seq<StreamRun>, clientTakes: nat)
    returns (end: StreamEnd)
    requires var rule := PickRule(route, FromRequest(request, headers), isMatch);
             rule.Some? ==> |rule.value.targetIds| == |rule.value.targets| == |runs|
    ensures route.rules == [] ==> end == StreamEnd(Err(NoRules(route)), [], 0, None)
    ensures route.rules != [] ==>
              StreamResult(route.id, PickRule(route, FromRequest(request, headers), isMatch).value.targetIds, runs,
                clientTakes, end)
  {
    var picked := PickRule(route, FromRequest(request, headers), isMatch);
    if picked.None? {
      return StreamEnd(Err(NoRules(route)), [], 0, None);
    }
    var ids := picked.value.targetIds;
    var attempts: seq<Attempt>, fallbackCount := [], 0;
    for idx := 0 to |picked.value.targets|
      invariant NoneDelivers(runs[..idx])
      invariant fallbackCount == idx
      invariant attempts == StreamAttempts(ids[..idx], runs[..idx])
    {
      var run := runs[idx];
      if run.inTime && run.chunks != [] {
        var served := Some(Served(ids[idx], fallbackCount));
        var delivered, result := Forward(run, clientTakes);
        return StreamEnd(result, delivered, idx + 1, served);
      }
      var err := if !run.inTime then Timeout else Network("stream closed before first chunk");
      attempts := attempts + [Attempt(ids[idx], err)];
      fallbackCount := fallbackCount + 1;
    }
    assert ids[..|runs|] == ids && runs[..|runs|] == runs;
    return StreamEnd(Err(AllBackendsFailed(route.id, attempts)), [], |runs|, None);
  }

  /** Hand on the first chunk and then every further one until the target closes its
      channel or the client is gone. */
  method Forward(run: StreamRun, clientTakes: nat) returns (delivered: seq<Chunk>, result: Result<(), EngineError>)
    requires run.Delivers()
    ensures delivered == Taken(run.chunks, clientTakes)
    ensures result == if clientTakes < |run.chunks| then Ok(()) else run.Result()
  {
    delivered := [];
    if |delivered| >= clientTakes {
      return [], Ok(());
    }
    delivered := [run.chunks[0]];
    var next := 1;
    while next < |run.chunks|
      invariant 1 <= next <= |run.chunks| && next <= clientTakes
      invariant delivered == run.chunks[..next]
    {
      if |delivered| >= clientTakes {
        return delivered, Ok(());
      }
      delivered := delivered + [run.chunks[next]];
      next := next + 1;
    }
    result := run.Result();
  }

  lemma StreamResultUnique(routeId: string, ids: seq<string>, runs: seq<StreamRun>, clientTakes: nat, a: StreamEnd,
                           b: StreamEnd)
    requires |ids| == |runs|
    requires StreamResult(routeId, ids, runs, clientTakes, a) && StreamResult(routeId, ids, runs, clientTakes, b)
    ensures a == b
  {
    if a.started > 0 && runs[a.started - 1].Delivers() && b.started > 0 && runs[b.started - 1].Delivers() {
      DeliveryStops(runs, a.started - 1, b.started - 1);
      DeliveryStops(runs, b.started - 1, a.started - 1);
    }
  }

  lemma DeliveryStops(runs: seq<StreamRun>, k: nat, n: nat)
    requires k < |runs| && runs[k].Delivers()
    requires n <= |runs| && NoneDelivers(runs[..n])
    ensures n <= k
  {
    assert forall i :: 0 <= i < n ==> !runs[..n][i].Delivers() && runs[..n][i] == runs[i];
  }

  /** Two sets of runs the client cannot tell apart: up to the first target that
      delivers, each fails the same way and the delivering one is the same. */
  ghost predicate SameUpTo(runs: seq<StreamRun>, others: seq<StreamRun>, started: nat)
    requires started <= |runs| == |others|
  {
    forall i :: 0 <= i < started ==>
      if runs[i].Delivers() then others[i] == runs[i]
      else !others[i].Delivers() && others[i].Failure() == runs[i].Failure()
  }

  /** Late chunks of a target that missed its window, how a failed target ended, and
      whatever targets never started would have done leave no trace: not in the
      chunks the client gets, nor in the result, nor in what is recorded. */
  lemma SingleSource(routeId: string, ids: seq<string>, runs: seq<StreamRun>, others: seq<StreamRun>, clientTakes: nat,
                     end: StreamEnd)
    requires |ids| == |runs| == |others|
    requires StreamResult(routeId, ids, runs, clientTakes, end)
    requires SameUpTo(runs, others, end.started)
    ensures StreamResult(routeId, ids, others, clientTakes, end)
  {
    if NoneDelivers(runs) {
      assert StreamAttempts(ids, others) == StreamAttempts(ids, runs);
    } else {
      var k := end.started - 1;
      assert others[k] == runs[k];
      forall i | 0 <= i < k
        ensures !others[..k][i].Delivers()
      {
        assert !runs[..k][i].Delivers();
      }
    }
  }

  /** Before the first chunk every end is a reason to fall back, even a failure that
      would not be retried for a whole answer: the first delivering target serves,
      however those before it ended. */
  lemma ServedByFirstDelivering(routeId: string, ids: seq<string>, runs: seq<StreamRun>, clientTakes: nat,
                                end: StreamEnd, k: nat)
    requires |ids| == |runs| && StreamResult(routeId, ids, runs, clientTakes, end)
    requires k < |runs| && runs[k].Delivers() && NoneDelivers(runs[..k])
    ensures end.served == Some(Served(ids[k], k)) && end.started == k + 1
    ensures end.delivered == Taken(runs[k].chunks, clientTakes)
  {
    if end.started > 0 && runs[end.started - 1].Delivers() {
      DeliveryStops(runs, end.started - 1, k);
      DeliveryStops(runs, k, end.started - 1);
    }
  }

  /** A stream that nobody serves: each target ran out of its window or closed its
      channel empty, and that is what the client is told, target by target. */
  lemma StreamFailuresTold(routeId: string, ids: seq<string>, runs: seq<StreamRun>, clientTakes: nat, end: StreamEnd)
    requires |ids| == |runs| && StreamResult(routeId, ids, runs, clientTakes, end)
    ensures end.served.None? <==> forall i :: 0 <= i < |runs| ==> !runs[i].inTime || runs[i].chunks == []
    ensures end.served.None? ==>
              && end.delivered == [] && end.result.Err? && end.result.error.AllBackendsFailed?
              && |end.result.error.attempts| == |ids|
              && forall i :: 0 <= i < |ids| ==>
                   && end.result.error.attempts[i].targetId == ids[i]
                   && (end.result.error.attempts[i].error == Timeout <==> !runs[i].inTime)
                   && (end.result.error.attempts[i].error.Network? <==> runs[i].inTime)
  {
    if end.served.Some? {
      assert runs[end.started - 1].Delivers();
    }
  }

  /** When an error of a target itself is what the client gets: exactly if that target
      is the first to deliver within its window, the client stays to the end, and the
      target's task returned the error. A failure before the first chunk never is. */
  lemma OwnFailureSurfacesIff(routeId: string, ids: seq<string>, runs: seq<StreamRun>, clientTakes: nat, end: StreamEnd,
                              k: nat, e: EngineError)
    requires |ids| == |runs| && k < |runs| && StreamResult(routeId, ids, runs, clientTakes, end)
    ensures end.served == Some(Served(ids[k], k)) && end.result == Err(e)
       <==> (&& runs[k].Delivers() && NoneDelivers(runs[..k])
             && clientTakes >= |runs[k].chunks| && runs[k].finish == Finished(Err(e)))
  {
    if runs[k].Delivers() && NoneDelivers(runs[..k]) {
      ServedByFirstDelivering(routeId, ids, runs, clientTakes, end, k);
      assert end.started - 1 == k;
    }
  }

  /** A first target that ends with an error not worth retrying before any chunk, and a
      second that answers: the stream is served by the second and the error is lost. */
  lemma NonRetryableFallsBack(routeId: string, first: string, second: string, e: EngineError, chunk: Chunk,
                              clientTakes: nat)
    requires !e.IsRetryable() && clientTakes > 0
    ensures var runs := [StreamRun([], Finished(Err(e)), true), StreamRun([chunk], Finished(Ok(())), true)];
            forall end :: StreamResult(routeId, [first, second], runs, clientTakes, end)
              <==> end == StreamEnd(Ok(()), [chunk], 2, Some(Served(second, 1)))
  {
    var ids := [first, second];
    var runs := [StreamRun([], Finished(Err(e)), true), StreamRun([chunk], Finished(Ok(())), true)];
    assert runs[..1] == [runs[0]] && NoneDelivers(runs[..1]) && runs[1].Delivers();
    var served := StreamEnd(Ok(()), [chunk], 2, Some(Served(second, 1)));
    assert StreamResult(routeId, ids, runs, clientTakes, served);
    forall end | StreamResult(routeId, ids, runs, clientTakes, end)
      ensures end == served
    {
      StreamResultUnique(routeId, ids, runs, clientTakes, end, served);
    }
  }
}
