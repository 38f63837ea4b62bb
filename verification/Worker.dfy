/** The worker thread that owns a model and serves its command queue
    (src/engine/llama/worker.rs). What a generation does and how long a client
    listens are parameters of the commands. */
module Worker {
  import opened Wrappers
  import opened EngineErrors
  import opened Generation

  datatype Chunk = Role | Content(text: string) | Finish(reason: string)

  datatype Response = Response(
    content: string, finishReason: string, promptTokens: nat, completionTokens: nat, totalTokens: nat)

  function ReasonText(r: FinishReason): string {
    match r
    case Stop => "stop"
    case Length => "length"
  }

  datatype Ending = Panics | Returns(result: Result<GenerationResult, EngineError>)

  /** A generation that nobody cancels: the pieces it reports one by one, and how it
      ends. If the receiver breaks off it returns a canceled result instead. */
  datatype GenerationRun = GenerationRun(pieces: seq<string>, ending: Ending)

  /** A streaming client: it takes so many chunks and then drops its side of the
      channel; the worker notices at once or when the next send fails. */
  datatype Client = Client(takes: nat, noticedAtOnce: bool)

  datatype Command =
    | Load
    | Chat(run: GenerationRun)
    | ChatStream(run: GenerationRun, client: Client)
    | Shutdown

  datatype Answer =
    | LoadAck(loaded: Result<(), EngineError>)
    | ChatDone(response: Result<Response, EngineError>)
    | StreamDone(done: Result<(), EngineError>)
    | ShutdownAck

  /** All a command gets back: chunks on its channel and at most one answer. */
  datatype Handled = Handled(chunks: seq<Chunk>, answer: Option<Answer>)

  // ---------- a stream ----------

  class ChunkSender {
    var delivered: seq<Chunk>
    const client: Client

    constructor (client: Client)
      ensures this.client == client && delivered == []
    {
      this.client := client;
      delivered := [];
    }

    method Send(c: Chunk) returns (ok: bool)
      modifies this
      ensures ok <==> old(|delivered|) < client.takes
      ensures delivered == if ok then old(delivered) + [c] else old(delivered)
    {
      ok := |delivered| < client.takes;
      if ok {
        delivered := delivered + [c];
      }
    }

    function IsClosed(): bool
      reads this
    {
      client.noticedAtOnce && |delivered| >= client.takes
    }
  }

  /** The receiver breaks the generation off: it is gone before a piece can be sent,
      or seen to be gone right after one was. */
  predicate Broken(run: GenerationRun, client: Client) {
    client.takes < |run.pieces| + 1
    || (client.noticedAtOnce && run.pieces != [] && client.takes == |run.pieces| + 1)
  }

  function Contents(pieces: seq<string>): (r: seq<Chunk>)
    ensures |r| == |pieces| && forall i :: 0 <= i < |r| ==> r[i] == Content(pieces[i])
  {
    seq(|pieces|, i requires 0 <= i < |pieces| => Content(pieces[i]))
  }

  /** The role, the pieces, and a last chunk only behind a successful generation. */
  function FullStream(run: GenerationRun): seq<Chunk> {
    [Role] + Contents(run.pieces)
    + if run.ending.Returns? && run.ending.result.Ok? then [Finish(ReasonText(run.ending.result.value.finishReason))]
      else []
  }

  function TakeUpTo(s: seq<Chunk>, n: nat): seq<Chunk> {
    if n < |s| then s[..n] else s
  }

  function StreamHandled(run: GenerationRun, client: Client): Handled {
    Handled(
      TakeUpTo(FullStream(run), client.takes),
      if Broken(run, client) then Some(StreamDone(Ok(())))
      else match run.ending
        case Panics => None
        case Returns(Ok(_)) => Some(StreamDone(Ok(())))
        case Returns(Err(e)) => Some(StreamDone(Err(e))))
  }

  method HandleChatStream(run: GenerationRun, chunks: ChunkSender) returns (done: Option<Result<(), EngineError>>)
    requires chunks.delivered == []
    modifies chunks
    ensures chunks.delivered == StreamHandled(run, chunks.client).chunks
    ensures (match done case Some(d) => Some(StreamDone(d)) case None => None)
            == StreamHandled(run, chunks.client).answer
  {
    var sent := chunks.Send(Role);
    if !sent {
      return Some(Ok(()));
    }
    var canceled := Generating(run, chunks);
    if canceled {
      return Some(Ok(()));
    }
    match run.ending
    case Panics =>
      return None;
    case Returns(Err(e)) =>
      return Some(Err(e));
    case Returns(Ok(result)) =>
      var _ := chunks.Send(Finish(ReasonText(result.finishReason)));
      return Some(Ok(()));
  }

  /** The generation reporting its pieces to the sending callback. */
  method Generating(run: GenerationRun, chunks: ChunkSender) returns (canceled: bool)
    requires chunks.delivered == [Role] && chunks.client.takes >= 1
    modifies chunks
    ensures canceled <==> Broken(run, chunks.client)
    ensures chunks.delivered == TakeUpTo([Role] + Contents(run.pieces), chunks.client.takes)
  {
    for j := 0 to |run.pieces|
      invariant chunks.delivered == Begun(run.pieces, j)
      invariant chunks.client.takes >= j + 1
      invariant chunks.client.noticedAtOnce && j > 0 ==> chunks.client.takes > j + 1
    {
      BegunMore(run.pieces, j);
      var ok := chunks.Send(Content(run.pieces[j]));
      if !ok {
        return true;
      }
      if chunks.IsClosed() {
        return true;
      }
    }
    BegunAll(run.pieces);
    return false;
  }

  /** The role and the first `j` pieces. */
  function Begun(pieces: seq<string>, j: nat): (r: seq<Chunk>)
    requires j <= |pieces|
    ensures |r| == j + 1
  {
    ([Role] + Contents(pieces))[..j + 1]
  }

  lemma BegunMore(pieces: seq<string>, j: nat)
    requires j < |pieces|
    ensures Begun(pieces, j + 1) == Begun(pieces, j) + [Content(pieces[j])]
  {
  }

  lemma BegunAll(pieces: seq<string>)
    ensures Begun(pieces, |pieces|) == [Role] + Contents(pieces)
  {
  }

  // ---------- the queue ----------

  function ToResponse(g: GenerationResult): Response {
    Response(g.text, ReasonText(g.finishReason), g.promptTokens, g.completionTokens,
             g.promptTokens + g.completionTokens)
  }

  function Handle(c: Command): Handled {
    match c
    case Load => Handled([], None)
    case Shutdown => Handled([], Some(ShutdownAck))
    case ChatStream(run, client) => StreamHandled(run, client)
    case Chat(run) =>
      match run.ending
      case Panics => Handled([], None)
      case Returns(Ok(g)) => Handled([], Some(ChatDone(Ok(ToResponse(g)))))
      case Returns(Err(e)) => Handled([], Some(ChatDone(Err(e))))
  }

  /** Handling the command unwinds the worker. */
  predicate PanicsOn(c: Command) {
    (c.Chat? || (c.ChatStream? && !Broken(c.run, c.client))) && c.run.ending.Panics?
  }

  predicate Stops(c: Command) {
    c.Shutdown? || PanicsOn(c)
  }

  /** How many commands are taken off the queue: up to the first that stops the worker. */
  function Taken(queue: seq<Command>): (n: nat)
    ensures n <= |queue|
    ensures forall i :: 0 <= i < n - 1 ==> !Stops(queue[i])
    ensures n < |queue| ==> n > 0 && Stops(queue[n - 1])
  {
    if queue == [] then 0
    else
      var m := |queue| - 1;
      var n := Taken(queue[..m]);
      if n < m || (m > 0 && Stops(queue[m - 1])) then n else m + 1
  }

  function Log(queue: seq<Command>): seq<Handled> {
    seq(Taken(queue), i requires 0 <= i < Taken(queue) => Handle(queue[i]))
  }

  /** Poisoned by this queue: the last command taken made the worker unwind. */
  predicate Poisons(queue: seq<Command>) {
    Taken(queue) > 0 && PanicsOn(queue[Taken(queue) - 1])
  }

  class Flag {
    var value: bool

    constructor ()
      ensures !value
    {
      value := false;
    }
  }

  datatype DispatchOutcome = Continue | ShutDown | Unwound

  method Dispatch(c: Command) returns (outcome: DispatchOutcome, handled: Handled)
    ensures handled == Handle(c)
    ensures outcome == if PanicsOn(c) then Unwound else if c.Shutdown? then ShutDown else Continue
  {
    match c
    case Load =>
      return Continue, Handled([], None);
    case Chat(run) =>
      match run.ending {
        case Panics =>
          return Unwound, Handled([], None);
        case Returns(Ok(g)) =>
          return Continue, Handled([], Some(ChatDone(Ok(ToResponse(g)))));
        case Returns(Err(e)) =>
          return Continue, Handled([], Some(ChatDone(Err(e))));
      }
    case ChatStream(run, client) =>
      var chunks := new ChunkSender(client);
      var done := HandleChatStream(run, chunks);
      match done {
        case None =>
          return Unwound, Handled(chunks.delivered, None);
        case Some(d) =>
          return Continue, Handled(chunks.delivered, Some(StreamDone(d)));
      }
    case Shutdown =>
      return ShutDown, Handled([], Some(ShutdownAck));
  }

  /** `queue`: everything that is ever sent before all senders are gone;
      `loads`: what the adapter makes of the first command. */
  method Run(queue: seq<Command>, loads: Result<(), EngineError>, poisoned: Flag) returns (log: seq<Handled>)
    modifies poisoned
    ensures queue == [] || !queue[0].Load? ==> log == [] && poisoned.value == old(poisoned.value)
    ensures queue != [] && queue[0].Load? && loads.Err? ==>
              log == [Handled([], Some(LoadAck(loads)))] && poisoned.value == old(poisoned.value)
    ensures queue != [] && queue[0].Load? && loads.Ok? ==>
              && log == [Handled([], Some(LoadAck(loads)))] + Log(queue[1..])
              && poisoned.value == (old(poisoned.value) || Poisons(queue[1..]))
  {
    if queue == [] || !queue[0].Load? {
      return [];
    }
    log := [Handled([], Some(LoadAck(loads)))];
    if loads.Err? {
      return log;
    }
    ghost var rest := queue[1..];
    var i := 1;
    while i < |queue|
      invariant 1 <= i <= |queue|
      invariant forall k :: 0 <= k < i - 1 ==> !Stops(rest[k])
      invariant |log| == i && log[0] == Handled([], Some(LoadAck(loads)))
      invariant forall k :: 0 <= k < i - 1 ==> log[k + 1] == Handle(rest[k])
      invariant poisoned.value == old(poisoned.value)
    {
      assert rest[i - 1] == queue[i];
      var outcome, handled := Dispatch(queue[i]);
      log := log + [handled];
      i := i + 1;
      if outcome.ShutDown? {
        TakenIs(rest, i - 1);
        return log;
      }
      if outcome.Unwound? {
        poisoned.value := true;
        TakenIs(rest, i - 1);
        return log;
      }
    }
    TakenIs(rest, i - 1);
  }

  lemma TakenIs(queue: seq<Command>, n: nat)
    requires n <= |queue| && forall i :: 0 <= i < n - 1 ==> !Stops(queue[i])
    requires if n == 0 || !Stops(queue[n - 1]) then n == |queue| else true
    ensures Taken(queue) == n
  {
    var t := Taken(queue);
    assert t < |queue| ==> Stops(queue[t - 1]);
    assert n < |queue| ==> Stops(queue[n - 1]);
  }

  // ---------- theorems ----------

  /** The answer a command is owed. */
  ghost predicate Fitting(c: Command, answer: Option<Answer>) {
    match c
    case Load => answer == None
    case Shutdown => answer == Some(ShutdownAck)
    case Chat(_) => answer == None || (answer.Some? && answer.value.ChatDone?)
    case ChatStream(_, _) => answer == None || (answer.Some? && answer.value.StreamDone?)
  }

  ghost predicate NoStopBefore(queue: seq<Command>, i: nat)
    requires i <= |queue|
  {
    forall j :: 0 <= j < i ==> !Stops(queue[j])
  }

  /** In order and once each: a command is taken exactly when no shutdown and no panic
      came before it, and a taken one gets an answer of its own kind unless it is a
      second load or makes the worker unwind. Nothing behind that is answered. */
  lemma AnsweredInOrder(queue: seq<Command>, i: nat)
    requires i < |queue|
    ensures i < |Log(queue)| <==> NoStopBefore(queue, i)
    ensures i < |Log(queue)| ==>
              && Fitting(queue[i], Log(queue)[i].answer)
              && (Log(queue)[i].answer.Some? <==> !queue[i].Load? && !PanicsOn(queue[i]))
              && (queue[i].Chat? ==>
                    match queue[i].run.ending
                    case Panics => true
                    case Returns(Err(e)) => Log(queue)[i].answer == Some(ChatDone(Err(e)))
                    case Returns(Ok(g)) => exists response :: Log(queue)[i].answer == Some(ChatDone(Ok(response)))
                                                              && response.content == g.text)
  {
    var n := Taken(queue);
    if n < |queue| && n <= i {
      assert Stops(queue[n - 1]);
    }
  }

  lemma PoisonedIffUnwound(queue: seq<Command>)
    ensures Poisons(queue) <==> exists i :: 0 <= i < |queue| && NoStopBefore(queue, i) && PanicsOn(queue[i])
  {
    if Poisons(queue) {
      assert NoStopBefore(queue, Taken(queue) - 1);
    }
    forall i | 0 <= i < |queue| && NoStopBefore(queue, i) && PanicsOn(queue[i])
      ensures Poisons(queue)
    {
      TakenIs(queue, i + 1);
    }
  }

  /** A stream is a prefix of role, pieces and finish; the finish is there only if the
      generation succeeded and nobody broke it off, and an error or an unwound worker
      never gets one. A client that stays gets everything. */
  lemma StreamShape(run: GenerationRun, client: Client)
    ensures StreamHandled(run, client).chunks <= FullStream(run)
    ensures forall i :: 0 <= i < |StreamHandled(run, client).chunks| && StreamHandled(run, client).chunks[i].Finish? ==>
              && i == |run.pieces| + 1 == |StreamHandled(run, client).chunks| - 1
              && run.ending.Returns? && run.ending.result.Ok? && !Broken(run, client)
              && StreamHandled(run, client).answer == Some(StreamDone(Ok(())))
    ensures client.takes >= |run.pieces| + 2 ==>
              !Broken(run, client) && StreamHandled(run, client).chunks == FullStream(run)
    ensures StreamHandled(run, client).answer.None? <==> !Broken(run, client) && run.ending.Panics?
    ensures forall e :: StreamHandled(run, client).answer == Some(StreamDone(Err(e)))
                        <==> !Broken(run, client) && run.ending == Returns(Err(e))
  {
    var all := FullStream(run);
    assert all[0] == Role && forall i :: 1 <= i <= |run.pieces| ==> all[i] == Content(run.pieces[i - 1]);
  }
}
