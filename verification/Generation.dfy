/** The token loop of a local model (src/engine/llama/inference.rs). The model, the
    sampler and the receiver of events are oracles: `steps[i]` is what happens if a
    token is sampled for the i-th time. */
module Generation {
  import opened Wrappers
  import opened EngineErrors

  datatype Sample = EndOfGeneration | Piece(text: string) | BadPiece

  /** `cancels`: the receiver breaks off on this piece; `fault`: queueing or decoding
      the token fails. */
  datatype Step = Step(token: int, sample: Sample, cancels: bool, fault: Option<string>)
  {
    function Text(): string {
      if sample.Piece? then sample.text else ""
    }
  }

  /** The prompt cannot be tokenized, or has this many tokens and may then fail to decode. */
  datatype Prompt = Unreadable(reason: string) | Tokens(count: nat, fault: Option<string>)

  datatype FinishReason = Stop | Length

  datatype GenerationResult = GenerationResult(
    text: string, promptTokens: nat, completionTokens: nat, finishReason: FinishReason, canceled: bool)

  /** A token handed to the model for decoding, and the position it was given. */
  datatype Decoded = Decoded(token: int, position: nat)

  // ---------- stop sequences ----------

  predicate EndsWith(text: string, suffix: string) {
    |suffix| <= |text| && text[|text| - |suffix|..] == suffix
  }

  lemma EndsWithIff(text: string, suffix: string)
    ensures EndsWith(text, suffix) <==> exists front: string :: text == front + suffix
  {
    if EndsWith(text, suffix) {
      assert text == text[..|text| - |suffix|] + suffix;
    }
  }

  /** The first stop sequence of the list that the text ends with. */
  function CheckStopSequences(text: string, stops: seq<string>): Option<string> {
    if stops == [] then None
    else if EndsWith(text, stops[0]) then Some(stops[0])
    else CheckStopSequences(text, stops[1..])
  }

  lemma {:induction false} FirstStop(text: string, stops: seq<string>)
    ensures var r := CheckStopSequences(text, stops);
            && (r.Some? ==> exists k :: 0 <= k < |stops| && stops[k] == r.value && EndsWith(text, stops[k])
                                        && forall j :: 0 <= j < k ==> !EndsWith(text, stops[j]))
            && (r.None? ==> forall k :: 0 <= k < |stops| ==> !EndsWith(text, stops[k]))
  {
    if stops != [] && !EndsWith(text, stops[0]) {
      var rest := stops[1..];
      FirstStop(text, rest);
      match CheckStopSequences(text, rest)
      case None =>
        assert forall k :: 1 <= k < |stops| ==> stops[k] == rest[k - 1];
      case Some(s) =>
        var k :| 0 <= k < |rest| && rest[k] == s && EndsWith(text, rest[k])
                 && forall j :: 0 <= j < k ==> !EndsWith(text, rest[j]);
        assert stops[k + 1] == rest[k];
        assert forall j :: 1 <= j < k + 1 ==> stops[j] == rest[j - 1];
    }
  }

  /** A stop sequence is found exactly if the text is something followed by one. */
  lemma StopsIff(text: string, stops: seq<string>)
    ensures CheckStopSequences(text, stops).Some?
       <==> exists k, front: string :: 0 <= k < |stops| && text == front + stops[k]
  {
    FirstStop(text, stops);
    forall k | 0 <= k < |stops|
      ensures EndsWith(text, stops[k]) <==> exists front: string :: text == front + stops[k]
    {
      EndsWithIff(text, stops[k]);
    }
  }

  lemma StopIsSuffix(text: string, stops: seq<string>)
    ensures CheckStopSequences(text, stops).Some? <==> exists s :: s in stops && EndsWith(text, s)
    ensures match CheckStopSequences(text, stops)
            case Some(stop) => |stop| <= |text| && text[..|text| - |stop|] + stop == text
            case None => true
  {
    FirstStop(text, stops);
    match CheckStopSequences(text, stops)
    case Some(stop) =>
      assert text == text[..|text| - |stop|] + text[|text| - |stop|..];
    case None =>
  }

  // ---------- what a run means ----------

  function Text(steps: seq<Step>): string {
    if steps == [] then "" else Text(steps[..|steps| - 1]) + steps[|steps| - 1].Text()
  }

  function Pieces(steps: seq<Step>): seq<string> {
    if steps == [] then []
    else Pieces(steps[..|steps| - 1])
         + if steps[|steps| - 1].sample.Piece? then [steps[|steps| - 1].sample.text] else []
  }

  /** Text so far when step `n` has been appended, and the stop it ends with. */
  function StopAfter(steps: seq<Step>, n: nat, stops: seq<string>): Option<string>
    requires n < |steps|
  {
    CheckStopSequences(Text(steps[..n + 1]), stops)
  }

  /** Step `n` ends the loop without an error or lets it go on to decoding. */
  ghost predicate Continues(steps: seq<Step>, n: nat, stops: seq<string>)
    requires n < |steps|
  {
    && !steps[n].sample.EndOfGeneration?
    && (steps[n].sample.Piece? ==> StopAfter(steps, n, stops).None? && !steps[n].cancels)
  }

  /** The first `n` steps all went round completely. */
  ghost predicate GoesRound(steps: seq<Step>, n: nat, stops: seq<string>)
    requires n <= |steps|
  {
    forall i :: 0 <= i < n ==> Continues(steps, i, stops) && steps[i].fault.None?
  }

  /** Consecutive positions from the end of the prompt, in sampling order. */
  function DecodedSteps(steps: seq<Step>, promptTokens: nat): (r: seq<Decoded>)
    ensures |r| == |steps|
    ensures forall i :: 0 <= i < |r| ==> r[i] == Decoded(steps[i].token, promptTokens + i)
  {
    seq(|steps|, i requires 0 <= i < |steps| => Decoded(steps[i].token, promptTokens + i))
  }

  /** Everything observable of a run in which `n` steps went round. */
  ghost predicate Generated(steps: seq<Step>, stops: seq<string>, promptTokens: nat, n: nat,
                            r: Result<GenerationResult, EngineError>, streamed: seq<string>, decoded: seq<Decoded>)
    requires n <= |steps|
  {
    GoesRound(steps, n, stops) &&
    if n == |steps| then
      && r == Ok(GenerationResult(Text(steps), promptTokens, n, Length, false))
      && streamed == Pieces(steps) && decoded == DecodedSteps(steps, promptTokens)
    else if Continues(steps, n, stops) then
      && steps[n].fault.Some? && r == Err(InferenceFailed(steps[n].fault.value))
      && streamed == Pieces(steps[..n + 1]) && decoded == DecodedSteps(steps[..n + 1], promptTokens)
    else
      && decoded == DecodedSteps(steps[..n], promptTokens)
      && if steps[n].sample.EndOfGeneration? then
           && r == Ok(GenerationResult(Text(steps[..n]), promptTokens, n, Stop, false))
           && streamed == Pieces(steps[..n])
         else if StopAfter(steps, n, stops).Some? then
           && r.Ok? && r.value.(text := "") == GenerationResult("", promptTokens, n + 1, Stop, false)
           && r.value.text + StopAfter(steps, n, stops).value == Text(steps[..n + 1])
           && streamed == Pieces(steps[..n])
         else
           && r == Ok(GenerationResult(Text(steps[..n + 1]), promptTokens, n + 1, Length, true))
           && streamed == Pieces(steps[..n + 1])
  }

  /** What the oracles make of a run, after however many rounds. */
  ghost predicate RunGives(steps: seq<Step>, stops: seq<string>, promptTokens: nat,
                           r: Result<GenerationResult, EngineError>, streamed: seq<string>, decoded: seq<Decoded>)
  {
    exists n: nat :: n <= |steps| && Generated(steps, stops, promptTokens, n, r, streamed, decoded)
  }

  /** The prompt is not assumed to be readable or to fit; both are found out first. */
  method Generate(prompt: Prompt, contextSize: nat, maxTokens: nat, stops: seq<string>, steps: seq<Step>)
    returns (r: Result<GenerationResult, EngineError>, streamed: seq<string>, decoded: seq<Decoded>)
    requires |steps| == maxTokens
    ensures prompt.Unreadable? ==> r == Err(InferenceFailed(prompt.reason)) && streamed == [] && decoded == []
    ensures prompt.Tokens? && prompt.count > contextSize ==>
              r == Err(ContextLengthExceeded(prompt.count, contextSize)) && streamed == [] && decoded == []
    ensures prompt.Tokens? && prompt.count <= contextSize && prompt.fault.Some? ==>
              r == Err(InferenceFailed(prompt.fault.value)) && streamed == [] && decoded == []
    ensures prompt.Tokens? && prompt.count <= contextSize && prompt.fault.None? ==>
              RunGives(steps, stops, prompt.count, r, streamed, decoded)
  {
    streamed, decoded := [], [];
    if prompt.Unreadable? {
      return Err(InferenceFailed(prompt.reason)), streamed, decoded;
    }
    if prompt.count > contextSize {
      return Err(ContextLengthExceeded(prompt.count, contextSize)), streamed, decoded;
    }
    if prompt.fault.Some? {
      return Err(InferenceFailed(prompt.fault.value)), streamed, decoded;
    }
    r, streamed, decoded := TokenLoop(prompt.count, stops, steps);
  }

  lemma OneMore(steps: seq<Step>, i: nat, promptTokens: nat)
    requires i < |steps|
    ensures Text(steps[..i + 1]) == Text(steps[..i]) + steps[i].Text()
    ensures Pieces(steps[..i + 1]) == Pieces(steps[..i]) + if steps[i].sample.Piece? then [steps[i].sample.text] else []
    ensures DecodedSteps(steps[..i + 1], promptTokens)
         == DecodedSteps(steps[..i], promptTokens) + [Decoded(steps[i].token, promptTokens + i)]
  {
    assert steps[..i + 1][..i] == steps[..i];
  }

  lemma OneMoreRound(steps: seq<Step>, i: nat, stops: seq<string>)
    requires i < |steps| && GoesRound(steps, i, stops)
    requires Continues(steps, i, stops) && steps[i].fault.None?
    ensures GoesRound(steps, i + 1, stops)
  {
  }

  lemma EndsAtEnd(steps: seq<Step>, promptTokens: nat, stops: seq<string>)
    requires GoesRound(steps, |steps|, stops)
    ensures Generated(steps, stops, promptTokens, |steps|,
                      Ok(GenerationResult(Text(steps), promptTokens, |steps|, Length, false)),
                      Pieces(steps), DecodedSteps(steps, promptTokens))
  {
  }

  lemma EndsAtEndOfGeneration(steps: seq<Step>, promptTokens: nat, stops: seq<string>, n: nat)
    requires n < |steps| && GoesRound(steps, n, stops) && steps[n].sample.EndOfGeneration?
    ensures Generated(steps, stops, promptTokens, n,
                      Ok(GenerationResult(Text(steps[..n]), promptTokens, n, Stop, false)),
                      Pieces(steps[..n]), DecodedSteps(steps[..n], promptTokens))
  {
  }

  lemma EndsAtStop(steps: seq<Step>, promptTokens: nat, stops: seq<string>, n: nat, text: string)
    requires n < |steps| && GoesRound(steps, n, stops) && steps[n].sample.Piece?
    requires StopAfter(steps, n, stops).Some? && text + StopAfter(steps, n, stops).value == Text(steps[..n + 1])
    ensures Generated(steps, stops, promptTokens, n, Ok(GenerationResult(text, promptTokens, n + 1, Stop, false)),
                      Pieces(steps[..n]), DecodedSteps(steps[..n], promptTokens))
  {
  }

  lemma EndsAtCancel(steps: seq<Step>, promptTokens: nat, stops: seq<string>, n: nat)
    requires n < |steps| && GoesRound(steps, n, stops) && steps[n].sample.Piece? && steps[n].cancels
    requires StopAfter(steps, n, stops).None?
    ensures Generated(steps, stops, promptTokens, n,
                      Ok(GenerationResult(Text(steps[..n + 1]), promptTokens, n + 1, Length, true)),
                      Pieces(steps[..n + 1]), DecodedSteps(steps[..n], promptTokens))
  {
  }

  lemma EndsAtFault(steps: seq<Step>, promptTokens: nat, stops: seq<string>, n: nat)
    requires n < |steps| && GoesRound(steps, n, stops) && Continues(steps, n, stops) && steps[n].fault.Some?
    ensures Generated(steps, stops, promptTokens, n, Err(InferenceFailed(steps[n].fault.value)),
                      Pieces(steps[..n + 1]), DecodedSteps(steps[..n + 1], promptTokens))
  {
  }

  method TokenLoop(promptTokens: nat, stops: seq<string>, steps: seq<Step>)
    returns (r: Result<GenerationResult, EngineError>, streamed: seq<string>, decoded: seq<Decoded>)
    ensures RunGives(steps, stops, promptTokens, r, streamed, decoded)
  {
    var text, completionTokens, finishReason, canceled := "", 0, Length, false;
    streamed, decoded := [], [];
    var i := 0;
    while i < |steps|
      invariant i <= |steps| && i == completionTokens && finishReason == Length && !canceled
      invariant GoesRound(steps, i, stops)
      invariant text == Text(steps[..i]) && streamed == Pieces(steps[..i])
      invariant decoded == DecodedSteps(steps[..i], promptTokens)
    {
      var step := steps[i];
      OneMore(steps, i, promptTokens);
      if step.sample.EndOfGeneration? {
        finishReason := Stop;
        EndsAtEndOfGeneration(steps, promptTokens, stops, i);
        break;
      }
      if step.sample.Piece? {
        text := text + step.sample.text;
        var stop := CheckStopSequences(text, stops);
        if stop.Some? {
          StopIsSuffix(text, stops);
          text := text[..|text| - |stop.value|];
          finishReason := Stop;
          completionTokens := completionTokens + 1;
          EndsAtStop(steps, promptTokens, stops, i, text);
          break;
        }
        completionTokens := completionTokens + 1;
        streamed := streamed + [step.sample.text];
        if step.cancels {
          canceled := true;
          EndsAtCancel(steps, promptTokens, stops, i);
          break;
        }
      } else {
        completionTokens := completionTokens + 1;
      }
      decoded := decoded + [Decoded(step.token, promptTokens + completionTokens - 1)];
      assert Continues(steps, i, stops);
      assert streamed == Pieces(steps[..i + 1]);
      if step.fault.Some? {
        EndsAtFault(steps, promptTokens, stops, i);
        return Err(InferenceFailed(step.fault.value)), streamed, decoded;
      }
      OneMoreRound(steps, i, stops);
      i := i + 1;
    }
    assert steps[..|steps|] == steps;
    r := Ok(GenerationResult(text, promptTokens, completionTokens, finishReason, canceled));
    if i == |steps| {
      EndsAtEnd(steps, promptTokens, stops);
    }
  }

  // ---------- theorems ----------

  lemma SameRounds(steps: seq<Step>, stops: seq<string>, n: nat, m: nat)
    requires n <= |steps| && m <= |steps|
    requires GoesRound(steps, n, stops) && (n < |steps| ==> !(Continues(steps, n, stops) && steps[n].fault.None?))
    requires GoesRound(steps, m, stops) && (m < |steps| ==> !(Continues(steps, m, stops) && steps[m].fault.None?))
    ensures n == m
  {
  }

  /** The oracles leave no freedom: a run has one result, one stream, one decoding. */
  lemma RunUnique(steps: seq<Step>, stops: seq<string>, promptTokens: nat,
                  n: nat, r: Result<GenerationResult, EngineError>, streamed: seq<string>, decoded: seq<Decoded>,
                  n': nat, r': Result<GenerationResult, EngineError>, streamed': seq<string>, decoded': seq<Decoded>)
    requires n <= |steps| && n' <= |steps|
    requires Generated(steps, stops, promptTokens, n, r, streamed, decoded)
    requires Generated(steps, stops, promptTokens, n', r', streamed', decoded')
    ensures n == n' && r == r' && streamed == streamed' && decoded == decoded'
  {
    SameRounds(steps, stops, n, n');
    if r.Ok? && StoppedBy(steps, n, stops).Some? {
      SplitTwice(r.value.text, StopAfter(steps, n, stops).value, r'.value.text, StopAfter(steps, n, stops).value);
    }
  }

  /** Tokens are counted and decoded within bounds, without a gap and never twice. */
  lemma PositionsContiguous(steps: seq<Step>, stops: seq<string>, promptTokens: nat, n: nat,
                            r: Result<GenerationResult, EngineError>, streamed: seq<string>, decoded: seq<Decoded>)
    requires n <= |steps| && Generated(steps, stops, promptTokens, n, r, streamed, decoded)
    ensures |decoded| <= |steps|
    ensures forall i :: 0 <= i < |decoded| ==> decoded[i] == Decoded(steps[i].token, promptTokens + i)
    ensures r.Ok? ==> |decoded| <= r.value.completionTokens <= |decoded| + 1 && r.value.completionTokens <= |steps|
    ensures r.Ok? && r.value.completionTokens > |decoded| ==> r.value.finishReason.Stop? || r.value.canceled
  {
  }

  /** Whenever a piece was accepted and the loop went round, the text ends with no
      stop sequence, and undecodable tokens leave it as it was. So the text a round
      starts from ends with a stop sequence in one case only: nothing has been
      accepted yet and the empty string is a stop sequence. */
  lemma {:induction false} NoStopWhileRunning(steps: seq<Step>, stops: seq<string>, i: nat)
    requires i <= |steps| && GoesRound(steps, i, stops)
    ensures CheckStopSequences(Text(steps[..i]), stops).Some? <==> Pieces(steps[..i]) == [] && "" in stops
    decreases i
  {
    if i == 0 {
      EmptyTextStops(stops);
    } else {
      NoStopWhileRunning(steps, stops, i - 1);
      AfterRound(steps, stops, i - 1);
    }
  }

  lemma AfterRound(steps: seq<Step>, stops: seq<string>, i: nat)
    requires i < |steps| && Continues(steps, i, stops)
    ensures steps[i].sample.Piece? ==> StopAfter(steps, i, stops).None? && Pieces(steps[..i + 1]) != []
    ensures steps[i].sample.BadPiece? ==>
            Text(steps[..i + 1]) == Text(steps[..i]) && Pieces(steps[..i + 1]) == Pieces(steps[..i])
  {
    OneMore(steps, i, 0);
  }

  lemma EmptyTextStops(stops: seq<string>)
    ensures CheckStopSequences("", stops).Some? <==> "" in stops
  {
    StopIsSuffix("", stops);
    assert EndsWith("", "");
  }

  function Concat(pieces: seq<string>): string {
    if pieces == [] then "" else Concat(pieces[..|pieces| - 1]) + pieces[|pieces| - 1]
  }

  lemma {:induction false} TextIsPieces(steps: seq<Step>)
    ensures Text(steps) == Concat(Pieces(steps))
  {
    if steps != [] {
      var n := |steps| - 1;
      TextIsPieces(steps[..n]);
      if steps[n].sample.Piece? {
        var all := Pieces(steps);
        assert all[..|all| - 1] == Pieces(steps[..n]);
      } else {
        assert Text(steps) == Text(steps[..n]) && Pieces(steps) == Pieces(steps[..n]);
      }
    }
  }

  /** The final text against what was streamed: they agree unless a stop sequence
      ended the run; then the streamed text lacks the last piece and keeps everything
      before it, so the two agree exactly when the stop is as long as that piece. */
  lemma StreamedAgainstFinal(steps: seq<Step>, stops: seq<string>, promptTokens: nat, n: nat,
                             r: Result<GenerationResult, EngineError>, streamed: seq<string>, decoded: seq<Decoded>)
    requires n <= |steps| && Generated(steps, stops, promptTokens, n, r, streamed, decoded)
    requires r.Ok?
    ensures Concat(streamed) == r.value.text
       <==> StoppedBy(steps, n, stops) == None || |StoppedBy(steps, n, stops).value| == |steps[n].Text()|
    ensures Concat(streamed) <= r.value.text || r.value.text <= Concat(streamed)
  {
    if n < |steps| {
      OneMore(steps, n, promptTokens);
      TextIsPieces(steps[..n]);
      TextIsPieces(steps[..n + 1]);
      if StoppedBy(steps, n, stops).Some? {
        var stop := StopAfter(steps, n, stops).value;
        SplitTwice(Text(steps[..n]), steps[n].Text(), r.value.text, stop);
      }
    } else {
      TextIsPieces(steps);
    }
  }

  /** The stop sequence that ends the run at step `n`, if one does. */
  ghost function StoppedBy(steps: seq<Step>, n: nat, stops: seq<string>): (r: Option<string>)
    requires n <= |steps|
    ensures r.Some? ==> n < |steps| && steps[n].sample.Piece?
  {
    if n < |steps| && steps[n].sample.Piece? then StopAfter(steps, n, stops) else None
  }

  lemma SplitTwice(a: string, b: string, c: string, d: string)
    requires a + b == c + d
    ensures a == c <==> |b| == |d|
    ensures a <= c || c <= a
  {
    assert a == (a + b)[..|a|] && c == (c + d)[..|c|];
  }
}
