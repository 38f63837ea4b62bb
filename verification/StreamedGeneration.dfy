/** The token loop driven by a streaming client: what the worker assumes of a
    generation that may be broken off is what the loop does
    (src/engine/llama/inference.rs with src/engine/llama/worker.rs). */
module StreamedGeneration {
  import opened Wrappers
  import opened EngineErrors
  import opened Generation
  import opened Worker

  /** The callback breaks off on piece `j`, counted from 0: the send fails, or the
      client is seen to be gone right behind it. */
  predicate BreaksAt(client: Client, j: nat) {
    client.takes <= j + 1 || (client.noticedAtOnce && client.takes <= j + 2)
  }

  /** The steps cancel exactly where this client makes the callback break off. */
  ghost predicate Hears(steps: seq<Step>, client: Client) {
    forall i :: 0 <= i < |steps| ==> HearsAt(steps, client, i)
  }

  ghost predicate HearsAt(steps: seq<Step>, client: Client, i: nat)
    requires i < |steps|
  {
    steps[i].cancels == BreaksAt(client, |Pieces(steps[..i])|)
  }

  /** The same steps with nobody listening. */
  function Quiet(steps: seq<Step>): (r: seq<Step>)
    ensures |r| == |steps| && forall i :: 0 <= i < |r| ==> r[i] == steps[i].(cancels := false)
  {
    seq(|steps|, i requires 0 <= i < |steps| => steps[i].(cancels := false))
  }

  lemma {:induction false} QuietSame(steps: seq<Step>, promptTokens: nat)
    ensures Text(Quiet(steps)) == Text(steps) && Pieces(Quiet(steps)) == Pieces(steps)
    ensures DecodedSteps(Quiet(steps), promptTokens) == DecodedSteps(steps, promptTokens)
  {
    if steps != [] {
      var n := |steps| - 1;
      QuietSame(steps[..n], promptTokens);
      assert Quiet(steps)[..n] == Quiet(steps[..n]);
    }
  }

  lemma QuietPrefix(steps: seq<Step>, n: nat, promptTokens: nat)
    requires n <= |steps|
    ensures Text(Quiet(steps)[..n]) == Text(steps[..n]) && Pieces(Quiet(steps)[..n]) == Pieces(steps[..n])
    ensures DecodedSteps(Quiet(steps)[..n], promptTokens) == DecodedSteps(steps[..n], promptTokens)
  {
    assert Quiet(steps)[..n] == Quiet(steps[..n]);
    QuietSame(steps[..n], promptTokens);
  }

  lemma QuietContinues(steps: seq<Step>, i: nat, stops: seq<string>)
    requires i < |steps|
    ensures StopAfter(Quiet(steps), i, stops) == StopAfter(steps, i, stops)
    ensures Continues(steps, i, stops)
            <==> Continues(Quiet(steps), i, stops) && !(steps[i].sample.Piece? && steps[i].cancels)
  {
    QuietPrefix(steps, i + 1, 0);
  }

  /** No piece before step `n` is broken off. */
  ghost predicate Unbroken(steps: seq<Step>, n: nat)
    requires n <= |steps|
  {
    forall i :: 0 <= i < n ==> !(steps[i].sample.Piece? && steps[i].cancels)
  }

  lemma QuietGoesRound(steps: seq<Step>, n: nat, stops: seq<string>)
    requires n <= |steps| && GoesRound(Quiet(steps), n, stops) && Unbroken(steps, n)
    ensures GoesRound(steps, n, stops)
  {
    forall i | 0 <= i < n
      ensures Continues(steps, i, stops) && steps[i].fault.None?
    {
      assert Continues(Quiet(steps), i, stops);
      QuietContinues(steps, i, stops);
    }
  }

  // ---------- which step a piece came from ----------

  lemma {:induction false} PieceCount(steps: seq<Step>, i: nat, n: nat)
    requires i <= n <= |steps|
    ensures Pieces(steps[..i]) <= Pieces(steps[..n])
    decreases n - i
  {
    if i < n {
      PieceCount(steps, i, n - 1);
      OneMore(steps, n - 1, 0);
    }
  }

  lemma {:induction false} FindPiece(steps: seq<Step>, n: nat, j: nat) returns (b: nat)
    requires n <= |steps| && j < |Pieces(steps[..n])|
    ensures b < n && steps[b].sample.Piece? && |Pieces(steps[..b])| == j
    decreases n
  {
    OneMore(steps, n - 1, 0);
    if j < |Pieces(steps[..n - 1])| {
      b := FindPiece(steps, n - 1, j);
    } else {
      b := n - 1;
    }
  }

  /** Before the piece the client breaks off on, nothing is broken off. */
  lemma UnbrokenBefore(steps: seq<Step>, client: Client, n: nat)
    requires n <= |steps| && Hears(steps, client)
    requires |Pieces(steps[..n])| > 0 ==> !BreaksAt(client, |Pieces(steps[..n])| - 1)
    ensures Unbroken(steps, n)
  {
    forall i | 0 <= i < n && steps[i].sample.Piece?
      ensures !steps[i].cancels
    {
      OneMore(steps, i, 0);
      PieceCount(steps, i + 1, n);
      assert HearsAt(steps, client, i);
    }
  }

  // ---------- the theorem ----------

  ghost predicate BreaksAmong(client: Client, streamed: seq<string>) {
    streamed != [] && BreaksAt(client, |streamed| - 1)
  }

  /** The first piece this client breaks off on. */
  function FirstBreak(client: Client): nat {
    if client.noticedAtOnce then if client.takes <= 2 then 0 else client.takes - 2
    else if client.takes <= 1 then 0 else client.takes - 1
  }

  lemma FirstBreakIs(client: Client, j: nat)
    ensures BreaksAt(client, j) <==> FirstBreak(client) <= j
  {
  }

  /** With nobody listening the loop gives `r` and reports `streamed`. Driven by the
      client it gives the same, unless the client breaks off on one of these pieces:
      then it returns a canceled result and has reported up to that piece only. */
  lemma CancellationRefines(steps: seq<Step>, stops: seq<string>, promptTokens: nat, client: Client,
                            n: nat, r: Result<GenerationResult, EngineError>, streamed: seq<string>,
                              decoded: seq<Decoded>)
    returns (n': nat, r': Result<GenerationResult, EngineError>, streamed': seq<string>, decoded': seq<Decoded>)
    requires n <= |steps| && Hears(steps, client)
    requires Generated(Quiet(steps), stops, promptTokens, n, r, streamed, decoded)
    ensures n' <= |steps| && Generated(steps, stops, promptTokens, n', r', streamed', decoded')
    ensures !BreaksAmong(client, streamed) ==> r' == r && streamed' == streamed && decoded' == decoded
    ensures BreaksAmong(client, streamed) ==>
              && r'.Ok? && r'.value.canceled
              && FirstBreak(client) < |streamed| && streamed' == streamed[..FirstBreak(client) + 1]
  {
    n', r', streamed', decoded' := n, r, streamed, decoded;
    if BreaksAmong(client, streamed) {
      n', r', streamed', decoded' := BreakOff(steps, stops, promptTokens, client, n, r, streamed, decoded);
    } else {
      NoBreak(steps, stops, promptTokens, client, n, r, streamed, decoded);
    }
  }

  /** How many steps the reported pieces came from. */
  ghost function Reported(steps: seq<Step>, stops: seq<string>, n: nat): (m: nat)
    requires n <= |steps|
    ensures n <= m <= |steps| && m <= n + 1
  {
    if n < |steps| && Continues(steps, n, stops) then n + 1 else n
  }

  lemma NoBreak(steps: seq<Step>, stops: seq<string>, promptTokens: nat, client: Client,
                n: nat, r: Result<GenerationResult, EngineError>, streamed: seq<string>, decoded: seq<Decoded>)
    requires n <= |steps| && Hears(steps, client)
    requires Generated(Quiet(steps), stops, promptTokens, n, r, streamed, decoded)
    requires !BreaksAmong(client, streamed)
    ensures Generated(steps, stops, promptTokens, n, r, streamed, decoded)
  {
    var q := Quiet(steps);
    var m := Reported(q, stops, n);
    StreamedIsReported(steps, stops, promptTokens, n, r, streamed, decoded);
    UnbrokenBefore(steps, client, m);
    QuietGoesRound(steps, n, stops);
    SameEnd(steps, stops, promptTokens, n, r, streamed, decoded);
  }

  lemma SameEnd(steps: seq<Step>, stops: seq<string>, promptTokens: nat,
                n: nat, r: Result<GenerationResult, EngineError>, streamed: seq<string>, decoded: seq<Decoded>)
    requires n <= |steps| && GoesRound(steps, n, stops)
    requires Unbroken(steps, Reported(Quiet(steps), stops, n))
    requires Generated(Quiet(steps), stops, promptTokens, n, r, streamed, decoded)
    ensures Generated(steps, stops, promptTokens, n, r, streamed, decoded)
  {
    if n < |steps| {
      QuietContinues(steps, n, stops);
      QuietPrefix(steps, n, promptTokens);
      QuietPrefix(steps, n + 1, promptTokens);
    } else {
      QuietSame(steps, promptTokens);
    }
  }

  lemma BreakOff(steps: seq<Step>, stops: seq<string>, promptTokens: nat, client: Client,
                 n: nat, r: Result<GenerationResult, EngineError>, streamed: seq<string>, decoded: seq<Decoded>)
    returns (b: nat, r': Result<GenerationResult, EngineError>, streamed': seq<string>, decoded': seq<Decoded>)
    requires n <= |steps| && Hears(steps, client)
    requires Generated(Quiet(steps), stops, promptTokens, n, r, streamed, decoded)
    requires BreaksAmong(client, streamed)
    ensures b < |steps| && Generated(steps, stops, promptTokens, b, r', streamed', decoded')
    ensures r'.Ok? && r'.value.canceled
    ensures FirstBreak(client) < |streamed| && streamed' == streamed[..FirstBreak(client) + 1]
  {
    var q := Quiet(steps);
    var m := Reported(q, stops, n);
    StreamedIsReported(steps, stops, promptTokens, n, r, streamed, decoded);
    var j := FirstBreak(client);
    FirstBreakIs(client, |streamed| - 1);
    b := FindPiece(steps, m, j);
    ReportedContinues(q, stops, n, b);
    BreaksFirstAt(steps, stops, client, b);
    EndsAtCancel(steps, promptTokens, stops, b);
    r' := Ok(GenerationResult(Text(steps[..b + 1]), promptTokens, b + 1, Length, true));
    streamed', decoded' := Pieces(steps[..b + 1]), DecodedSteps(steps[..b], promptTokens);
    OneMore(steps, b, promptTokens);
    PieceCount(steps, b + 1, m);
  }

  lemma StreamedIsReported(steps: seq<Step>, stops: seq<string>, promptTokens: nat,
                           n: nat, r: Result<GenerationResult, EngineError>, streamed: seq<string>,
                             decoded: seq<Decoded>)
    requires n <= |steps| && Generated(Quiet(steps), stops, promptTokens, n, r, streamed, decoded)
    ensures streamed == Pieces(steps[..Reported(Quiet(steps), stops, n)])
  {
    var q := Quiet(steps);
    QuietPrefix(steps, Reported(q, stops, n), promptTokens);
    assert n == |steps| ==> q[..n] == q;
  }

  lemma ReportedContinues(steps: seq<Step>, stops: seq<string>, n: nat, b: nat)
    requires n <= |steps| && GoesRound(steps, n, stops) && b < Reported(steps, stops, n)
    ensures GoesRound(steps, b, stops) && Continues(steps, b, stops)
  {
  }

  /** The step the first broken-off piece comes from is reached and cancels. */
  lemma BreaksFirstAt(steps: seq<Step>, stops: seq<string>, client: Client, b: nat)
    requires b < |steps| && Hears(steps, client) && |Pieces(steps[..b])| == FirstBreak(client)
    requires GoesRound(Quiet(steps), b, stops) && Continues(Quiet(steps), b, stops) && steps[b].sample.Piece?
    ensures GoesRound(steps, b, stops) && steps[b].cancels && StopAfter(steps, b, stops).None?
  {
    var j := FirstBreak(client);
    FirstBreakIs(client, j);
    if j > 0 {
      FirstBreakIs(client, j - 1);
    }
    UnbrokenBefore(steps, client, b);
    QuietGoesRound(steps, b, stops);
    assert HearsAt(steps, client, b);
    QuietContinues(steps, b, stops);
  }

  /** Break-off among the pieces is what the worker's stream calls broken, for a
      client that took the opening chunk. */
  lemma BrokenMeansBreaks(run: GenerationRun, client: Client)
    requires client.takes >= 1
    ensures Broken(run, client) <==> BreaksAmong(client, run.pieces)
  {
  }

  // ---------- what the client is told ----------

  /** The answer to a request that was not broken off: it says "length" exactly if all the
      tokens asked for were sampled and "stop" otherwise, counts the tokens, and its text
      is what a stream of the same run carries, up to a stop sequence and the last piece. */
  lemma AnswerOfRun(steps: seq<Step>, stops: seq<string>, promptTokens: nat, n: nat,
                    r: Result<GenerationResult, EngineError>, streamed: seq<string>, decoded: seq<Decoded>)
    requires n <= |steps| && Generated(steps, stops, promptTokens, n, r, streamed, decoded)
    requires r.Ok? && !r.value.canceled
    ensures var answer := ToResponse(r.value);
            && (answer.finishReason == "length" <==> n == |steps|)
            && (answer.finishReason == "stop" <==> n < |steps|)
            && answer.promptTokens == promptTokens
            && |decoded| <= answer.completionTokens <= |decoded| + 1 && answer.completionTokens <= |steps|
            && answer.totalTokens == answer.promptTokens + answer.completionTokens
    ensures match StoppedBy(steps, n, stops)
            case None => ToResponse(r.value).content == Concat(streamed)
            case Some(stop) => ToResponse(r.value).content + stop == Concat(streamed) + steps[n].Text()
  {
    assert "stop"[0] != "length"[0];
    StreamedAgainstFinal(steps, stops, promptTokens, n, r, streamed, decoded);
    if StoppedBy(steps, n, stops).Some? {
      TextIsPieces(steps[..n]);
      assert steps[..n + 1][..n] == steps[..n];
    }
  }

  /** A stream that runs to its end closes with the reason the answer would give. */
  lemma StreamTellsSameReason(run: GenerationRun)
    requires run.ending.Returns? && run.ending.result.Ok?
    ensures var chunks := FullStream(run);
            chunks != [] && chunks[|chunks| - 1] == Finish(ToResponse(run.ending.result.value).finishReason)
  {
  }
}
