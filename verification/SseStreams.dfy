/** The client's reader of server-sent events (ui/src/lib/api/streaming.ts). Decoding
    bytes to text and parsing JSON are oracles: `received` are the decoded pieces of text
    as the network happens to deliver them. */
module SseStreams {
  import opened Wrappers
  import opened JsText
  import opened Texts

  datatype Json = Json(text: string)

  type JsonParser = string -> Option<Json>

  const DONE := "[DONE]"

  // ---------- one frame ----------

  /** What a line contributes: its value if it is a data line, else nothing. */
  function LineData(line: string): seq<string> {
    if "data:" <= line then [TrimStart(line[5..])] else []
  }

  /** Split at every line feed, keep the data lines, take their values. */
  function DataLines(frame: string): seq<string>
    decreases |frame|
  {
    match Find(frame, "\n")
    case None => LineData(frame)
    case Some(i) => LineData(frame[..i]) + DataLines(frame[i + 1..])
  }

  function Join(lines: seq<string>): string {
    if lines == [] then ""
    else if |lines| == 1 then lines[0]
    else lines[0] + "\n" + Join(lines[1..])
  }

  /** The lines of a text, cut at every line feed. */
  ghost function Lines(text: string): seq<string>
    decreases |text|
  {
    match Find(text, "\n")
    case None => [text]
    case Some(i) => [text[..i]] + Lines(text[i + 1..])
  }

  ghost predicate NoFeed(line: string) {
    forall k :: 0 <= k < |line| ==> line[k] != '\n'
  }

  /** Joining is the inverse of cutting into lines. */
  lemma {:induction false} JoinedLines(lines: seq<string>)
    requires lines != [] && forall k :: 0 <= k < |lines| ==> NoFeed(lines[k])
    ensures Lines(Join(lines)) == lines
    decreases |lines|
  {
    if |lines| == 1 {
      NoFeedFound(lines[0], "");
      assert lines[0] + "" == lines[0];
    } else {
      var rest := Join(lines[1..]);
      NoFeedFound(lines[0], "\n" + rest);
      JoinedLines(lines[1..]);
      assert Join(lines) == lines[0] + ("\n" + rest);
      assert Join(lines)[..|lines[0]|] == lines[0] && Join(lines)[|lines[0]| + 1..] == rest;
    }
  }

  lemma NoFeedFound(line: string, more: string)
    requires NoFeed(line) && (more == "" || more[0] == '\n')
    ensures Find(line + more, "\n") == if more == "" then None else Some(|line|)
  {
    var text := line + more;
    forall k: nat | k < |line|
      ensures !At(text, "\n", k)
    {
      assert text[k..k + 1][0] == line[k];
    }
    if more == "" {
      assert Find(text, "\n").None?;
    } else {
      assert text[|line|..|line| + 1] == "\n";
      FindIs(text, "\n", |line|);
    }
  }

  /** The payload of a frame; a list of none or one. */
  function FramePayload(frame: string): seq<string> {
    var data := DataLines(frame);
    if data == [] then [] else [Join(data)]
  }

  // ---------- the whole text ----------

  /** Payloads of the text cut at its leftmost blank lines; what follows the last one
      is not a frame. */
  function Payloads(text: string): seq<string>
    decreases |text|
  {
    match Find(text, "\n\n")
    case None => []
    case Some(i) => FramePayload(text[..i]) + Payloads(text[i + 2..])
  }

  /** Up to the first end marker, everything that parses. */
  function Yields(payloads: seq<string>, parse: JsonParser): seq<Json> {
    if payloads == [] || payloads[0] == DONE then []
    else Parsed(payloads[0], parse) + Yields(payloads[1..], parse)
  }

  ghost predicate NoDone(payloads: seq<string>) {
    forall k :: 0 <= k < |payloads| ==> payloads[k] != DONE
  }

  lemma {:induction false} YieldsBoth(front: seq<string>, back: seq<string>, parse: JsonParser)
    requires NoDone(front)
    ensures Yields(front + back, parse) == Yields(front, parse) + Yields(back, parse)
    decreases |front|
  {
    if front == [] {
      assert front + back == back;
    } else {
      YieldsBoth(front[1..], back, parse);
      assert (front + back)[1..] == front[1..] + back;
    }
  }

  /** Before an end marker every payload counts, in order, and nothing behind it does. */
  lemma YieldsInOrder(front: seq<string>, back: seq<string>, parse: JsonParser)
    requires NoDone(front)
    ensures Yields(front + back, parse) == Yields(front, parse) + Yields(back, parse)
    ensures Yields(front + ([DONE] + back), parse) == Yields(front, parse)
    ensures |front| == 1 ==> Yields(front, parse) == Parsed(front[0], parse)
  {
    YieldsBoth(front, back, parse);
    YieldsBoth(front, [DONE] + back, parse);
  }

  function Concat(received: seq<string>): string {
    if received == [] then "" else received[0] + Concat(received[1..])
  }

  lemma PayloadsAt(text: string, frame: string, rest: string)
    requires Find(text, "\n\n") == Some(|frame|) && text[..|frame|] == frame && text[|frame| + 2..] == rest
    ensures Payloads(text) == FramePayload(frame) + Payloads(rest)
  {
  }

  lemma FirstFrame(buffer: string, more: string, i: nat)
    requires Find(buffer, "\n\n") == Some(i)
    ensures Payloads(buffer + more) == FramePayload(buffer[..i]) + Payloads(buffer[i + 2..] + more)
  {
    var text := buffer + more;
    FindStays(buffer, more, "\n\n");
    assert text[..i] == buffer[..i];
    assert text[i + 2..] == buffer[i + 2..] + more;
    PayloadsAt(text, buffer[..i], buffer[i + 2..] + more);
  }

  /** What has been yielded and what the rest of the text still gives. */
  ghost function Completed(yielded: seq<Json>, text: string, parse: JsonParser): seq<Json> {
    yielded + Yields(Payloads(text), parse)
  }

  function Parsed(data: string, parse: JsonParser): seq<Json> {
    if parse(data).Some? then [parse(data).value] else []
  }

  lemma FrameStep(yielded: seq<Json>, buffer: string, more: string, i: nat, parse: JsonParser)
    requires Find(buffer, "\n\n") == Some(i)
    ensures var payload := FramePayload(buffer[..i]);
            Completed(yielded, buffer + more, parse)
            == if payload == [] then Completed(yielded, buffer[i + 2..] + more, parse)
               else if payload[0] == DONE then yielded
               else Completed(yielded + Parsed(payload[0], parse), buffer[i + 2..] + more, parse)
  {
    FirstFrame(buffer, more, i);
    YieldsNext(yielded, FramePayload(buffer[..i]), Payloads(buffer[i + 2..] + more), parse);
  }

  lemma YieldsNext(yielded: seq<Json>, payload: seq<string>, rest: seq<string>, parse: JsonParser)
    requires |payload| <= 1
    ensures yielded + Yields(payload + rest, parse)
         == if payload == [] then yielded + Yields(rest, parse)
            else if payload[0] == DONE then yielded
            else yielded + Parsed(payload[0], parse) + Yields(rest, parse)
  {
    if payload == [] {
      assert payload + rest == rest;
    } else {
      assert (payload + rest)[1..] == rest;
    }
  }

  lemma NextRead(yielded: seq<Json>, buffer: string, received: seq<string>, k: nat, parse: JsonParser)
    requires k < |received|
    ensures Completed(yielded, buffer + Concat(received[k..]), parse)
         == Completed(yielded, buffer + received[k] + Concat(received[k + 1..]), parse)
  {
    assert received[k..][1..] == received[k + 1..];
    assert buffer + (received[k] + Concat(received[k + 1..])) == buffer + received[k] + Concat(received[k + 1..]);
  }

  /** However the text is cut into reads, what is yielded is what the whole text gives. */
  method StreamChatCompletion(received: seq<string>, parse: JsonParser) returns (yielded: seq<Json>)
    ensures yielded == Yields(Payloads(Concat(received)), parse)
  {
    yielded := [];
    var buffer := "";
    ghost var whole := Yields(Payloads(Concat(received)), parse);
    assert "" + Concat(received) == Concat(received);
    var k := 0;
    while k < |received|
      invariant k <= |received|
      invariant Completed(yielded, buffer + Concat(received[k..]), parse) == whole
      invariant Find(buffer, "\n\n").None?
    {
      NextRead(yielded, buffer, received, k, parse);
      buffer := buffer + received[k];
      k := k + 1;
      var done;
      yielded, buffer, done := DrainFrames(yielded, buffer, Concat(received[k..]), parse);
      if done {
        return yielded;
      }
    }
    assert buffer + "" == buffer;
  }

  /** The inner loop: every complete frame of the buffer, with `more` still to come. */
  method DrainFrames(before: seq<Json>, text: string, ghost more: string, parse: JsonParser)
    returns (yielded: seq<Json>, buffer: string, done: bool)
    ensures done ==> yielded == Completed(before, text + more, parse)
    ensures !done ==> Completed(yielded, buffer + more, parse) == Completed(before, text + more, parse)
                      && Find(buffer, "\n\n").None?
  {
    yielded, buffer := before, text;
    var boundary := Find(buffer, "\n\n");
    while boundary.Some?
      invariant boundary == Find(buffer, "\n\n")
      invariant Completed(yielded, buffer + more, parse) == Completed(before, text + more, parse)
      decreases |buffer|
    {
      var frame := buffer[..boundary.value];
      FrameStep(yielded, buffer, more, boundary.value, parse);
      buffer := buffer[boundary.value + 2..];
      boundary := Find(buffer, "\n\n");
      var dataLines := DataLines(frame);
      if dataLines == [] {
        continue;
      }
      var data := Join(dataLines);
      if data == DONE {
        return yielded, buffer, true;
      }
      var json := parse(data);
      if json.Some? {
        yielded := yielded + [json.value];
      } else {
        assert yielded + Parsed(data, parse) == yielded;
      }
    }
    return yielded, buffer, false;
  }

  // ---------- the standard ----------

  /** The value a line adds to the data buffer by section 9.2.6 of the WHATWG HTML
      Living Standard: the field name ends at the first colon or the line's end, and
      one space behind the colon is dropped. */
  function StandardData(line: string): seq<string> {
    match Find(line, ":")
    case None => if line == "data" then [""] else []
    case Some(c) =>
      if line[..c] != "data" then []
      else [if line[c + 1..] != "" && line[c + 1] == ' ' then line[c + 2..] else line[c + 1..]]
  }

  /** Payloads of the events that section dispatches, for text whose lines end in line
      feeds: a blank line dispatches what has been buffered, an unfinished event is
      dropped. */
  function StandardPayloads(text: string, buffered: seq<string>): seq<string>
    decreases |text|
  {
    match Find(text, "\n")
    case None => []
    case Some(i) =>
      if i == 0 then (if buffered == [] then [] else [Join(buffered)]) + StandardPayloads(text[1..], [])
      else StandardPayloads(text[i + 1..], buffered + StandardData(text[..i]))
  }

  /** The line means the same to both: it is not the bare field name, and its value
      starts with at most one white-space character, a space. */
  ghost predicate LineAgrees(line: string) {
    && line != "data"
    && ("data:" <= line ==> var v := line[5..];
        if v != "" && v[0] == ' ' then |v| == 1 || !IsSpace(v[1]) else v == "" || !IsSpace(v[0]))
  }

  lemma ColonAfterData(line: string)
    requires "data:" <= line
    ensures Find(line, ":") == Some(4) && line[..4] == "data"
  {
    assert line[..5] == "data:";
    assert line[4..5] == line[..5][4..5] == ":";
    forall k: nat | k < 4
      ensures !At(line, ":", k)
    {
      assert line[k..k + 1][0] == line[..5][k] == "data:"[k];
    }
    FindIs(line, ":", 4);
    assert line[..4] == line[..5][..4];
  }

  lemma OnlyDataIsBare(line: string)
    requires !("data:" <= line)
    ensures StandardData(line) != [] <==> line == "data"
  {
    match Find(line, ":")
    case None =>
    case Some(c) =>
      AtSplits(line, ":", c);
      assert line[..c] + ":" <= line;
      assert "data" + ":" == "data:";
      assert line[c] == ':';
      assert "data"[0] != ':' && "data"[1] != ':' && "data"[2] != ':' && "data"[3] != ':';
  }

  /** Exactly the lines that mean the same to both. */
  lemma LineAgreesIff(line: string)
    ensures LineAgrees(line) <==> LineData(line) == StandardData(line)
  {
    if "data:" <= line {
      ColonAfterData(line);
      var v := line[5..];
      TrimKeeps(v);
      if v != "" && v[0] == ' ' {
        TrimKeeps(v[1..]);
        assert line[6..] == v[1..];
      }
    } else {
      OnlyDataIsBare(line);
    }
  }

  /** Every line that ends within the text means the same to both. */
  ghost predicate LinesAgree(text: string)
    decreases |text|
  {
    match Find(text, "\n")
    case None => true
    case Some(i) => LineAgrees(text[..i]) && LinesAgree(text[i + 1..])
  }

  function Dispatched(buffered: seq<string>): seq<string> {
    if buffered == [] then [] else [Join(buffered)]
  }

  predicate StartsLine(text: string) {
    text != "" && text[0] == '\n'
  }

  lemma Feeds(text: string, p: nat)
    ensures At(text, "\n", p) <==> p < |text| && text[p] == '\n'
    ensures At(text, "\n\n", p) <==> p + 1 < |text| && text[p] == '\n' && text[p + 1] == '\n'
  {
    if p < |text| {
      assert text[p..p + 1] == [text[p]];
    }
    if p + 1 < |text| {
      assert text[p..p + 2] == [text[p], text[p + 1]];
    }
  }

  /** The first line feed of a text in which a blank line starts at `i`. */
  lemma FirstLine(text: string, i: nat) returns (p: nat)
    requires Find(text, "\n\n") == Some(i)
    ensures Find(text, "\n") == Some(p) && p <= i < i + 2 <= |text|
    ensures p < i ==> Find(text[p + 1..], "\n\n") == Some(i - p - 1) && !StartsLine(text[p + 1..])
  {
    Feeds(text, i);
    assert Find(text, "\n").Some?;
    p := Find(text, "\n").value;
    if p < i {
      Feeds(text, p);
      BlankLineBehind(text, i, p + 1);
    }
  }

  lemma LastLineData(text: string, i: nat)
    requires i <= |text| && forall k: nat :: k < i ==> !At(text, "\n", k)
    ensures DataLines(text[..i]) == LineData(text[..i])
  {
    forall k: nat
      ensures !At(text[..i], "\n", k)
    {
      Feeds(text[..i], k);
      Feeds(text, k);
    }
    assert Find(text[..i], "\n").None?;
  }

  lemma NextLineData(text: string, i: nat, p: nat)
    requires p < i <= |text| && Find(text, "\n") == Some(p)
    ensures DataLines(text[..i]) == LineData(text[..p]) + DataLines(text[p + 1..][..i - p - 1])
  {
    var front := text[..i];
    assert front + text[i..] == text;
    forall k: nat | k <= p
      ensures At(front, "\n", k) == At(text, "\n", k)
    {
      AtPrefix(front, text[i..], "\n", k);
    }
    FindIs(front, "\n", p);
    assert front[..p] == text[..p] && front[p + 1..] == text[p + 1..][..i - p - 1];
  }

  lemma BlankLineBehind(text: string, i: nat, q: nat)
    requires q <= i && Find(text, "\n\n") == Some(i)
    ensures Find(text[q..], "\n\n") == Some(i - q)
  {
    assert text[..q] + text[q..] == text;
    forall k: nat | q + k <= i
      ensures At(text[q..], "\n\n", k) == At(text, "\n\n", q + k)
    {
      AtShift(text[..q], text[q..], "\n\n", k);
    }
    FindIs(text[q..], "\n\n", i - q);
  }

  lemma AgreeTail(text: string, p: nat)
    requires Find(text, "\n") == Some(p) && LinesAgree(text)
    ensures LineAgrees(text[..p]) && LinesAgree(text[p + 1..])
  {
  }

  lemma StandardLine(text: string, p: nat, buffered: seq<string>)
    requires Find(text, "\n") == Some(p) && p > 0 && LineAgrees(text[..p])
    ensures StandardPayloads(text, buffered) == StandardPayloads(text[p + 1..], buffered + LineData(text[..p]))
  {
    LineAgreesIff(text[..p]);
  }

  lemma StandardBlank(text: string, buffered: seq<string>)
    requires StartsLine(text)
    ensures StandardPayloads(text, buffered) == Dispatched(buffered) + StandardPayloads(text[1..], [])
    ensures LinesAgree(text) ==> LinesAgree(text[1..])
  {
    Feeds(text, 0);
    FindIs(text, "\n", 0);
  }

  /** The last line of a frame and the empty line behind it. */
  lemma StandardLastLine(text: string, i: nat, buffered: seq<string>)
    requires Find(text, "\n\n") == Some(i) && Find(text, "\n") == Some(i) && LinesAgree(text)
    ensures StandardPayloads(text, buffered)
         == Dispatched(buffered + DataLines(text[..i])) + StandardPayloads(text[i + 2..], [])
    ensures LinesAgree(text[i + 2..])
  {
    Feeds(text, i);
    AgreeTail(text, i);
    LastLineData(text, i);
    var rest := text[i + 1..];
    assert rest[1..] == text[i + 2..];
    if i == 0 {
      StandardBlank(text, buffered);
      StandardBlank(rest, []);
      assert buffered + [] == buffered;
      assert Dispatched([]) + StandardPayloads(rest[1..], []) == StandardPayloads(rest[1..], []);
    } else {
      StandardLine(text, i, buffered);
      StandardBlank(rest, buffered + LineData(text[..i]));
    }
  }

  /** Reading a frame line by line buffers its data lines, and the blank line behind
      it dispatches them. */
  lemma {:induction false} StandardFrame(text: string, i: nat, buffered: seq<string>)
    requires Find(text, "\n\n") == Some(i) && LinesAgree(text)
    requires StartsLine(text) && i > 0 ==> buffered == []
    ensures StandardPayloads(text, buffered)
         == Dispatched(buffered + DataLines(text[..i])) + StandardPayloads(text[i + 2..], [])
    ensures LinesAgree(text[i + 2..])
    decreases |text|
  {
    var p := FirstLine(text, i);
    if p == i {
      StandardLastLine(text, i, buffered);
    } else {
      var data, rest := LineData(text[..p]), text[p + 1..];
      AgreeTail(text, p);
      StandardFrame(rest, i - p - 1, buffered + data);
      assert rest[i - p - 1 + 2..] == text[i + 2..];
      StandardNextLine(text, p, buffered);
      StandardStep(text, i, p, buffered);
    }
  }

  lemma StandardStep(text: string, i: nat, p: nat, buffered: seq<string>)
    requires p < i <= |text| && Find(text, "\n") == Some(p)
    ensures buffered + LineData(text[..p]) + DataLines(text[p + 1..][..i - p - 1]) == buffered + DataLines(text[..i])
  {
    NextLineData(text, i, p);
    AppendAssoc(buffered, LineData(text[..p]), DataLines(text[p + 1..][..i - p - 1]));
  }

  /** A line in the middle of a frame is buffered; an empty one can only be the first. */
  lemma StandardNextLine(text: string, p: nat, buffered: seq<string>)
    requires Find(text, "\n") == Some(p) && LineAgrees(text[..p])
    requires StartsLine(text) ==> buffered == []
    ensures StandardPayloads(text, buffered) == StandardPayloads(text[p + 1..], buffered + LineData(text[..p]))
  {
    if p == 0 {
      Feeds(text, p);
      StandardBlank(text, buffered);
      assert Dispatched([]) + StandardPayloads(text[1..], []) == StandardPayloads(text[1..], []);
      assert buffered + LineData(text[..p]) == [];
    } else {
      StandardLine(text, p, buffered);
    }
  }

  lemma {:induction false} NothingDispatched(text: string, buffered: seq<string>)
    requires Find(text, "\n\n").None?
    requires StartsLine(text) ==> buffered == []
    ensures StandardPayloads(text, buffered) == []
    decreases |text|
  {
    if Find(text, "\n").Some? {
      var p := Find(text, "\n").value;
      var rest := text[p + 1..];
      assert text[..p + 1] + rest == text;
      forall k: nat
        ensures !At(rest, "\n\n", k)
      {
        AtShift(text[..p + 1], rest, "\n\n", k);
      }
      assert Find(rest, "\n\n").None?;
      Feeds(text, p);
      NothingDispatched(rest, if p == 0 then [] else buffered + StandardData(text[..p]));
    }
  }

  /** Where every line means the same, splitting at blank lines and dropping the tail
      yields the payloads of exactly the events the standard dispatches. */
  lemma {:induction false} AgreesWithStandard(text: string)
    requires LinesAgree(text)
    ensures Payloads(text) == StandardPayloads(text, [])
    decreases |text|
  {
    match Find(text, "\n\n")
    case None =>
      NothingDispatched(text, []);
    case Some(i) =>
      StandardFrame(text, i, []);
      AgreesWithStandard(text[i + 2..]);
      assert [] + DataLines(text[..i]) == DataLines(text[..i]);
  }

  // ---------- round trip ----------

  /** A payload that fits on one data line and does not start with white space. */
  ghost predicate OneLine(payload: string) {
    '\n' !in payload && (payload == "" || !IsSpace(payload[0]))
  }

  function PrintEvents(payloads: seq<string>): string {
    if payloads == [] then "" else "data: " + payloads[0] + "\n\n" + PrintEvents(payloads[1..])
  }

  lemma PrintedFrame(payload: string, rest: string)
    requires OneLine(payload)
    ensures Payloads("data: " + payload + "\n\n" + rest) == [payload] + Payloads(rest)
  {
    var frame := "data: " + payload;
    BlankBehindFrame(frame, rest);
    var text := frame + "\n\n" + rest;
    assert text[..|frame|] == frame && text[|frame| + 2..] == rest;
    forall k: nat | k < |frame|
      ensures !At(frame, "\n", k)
    {
      Feeds(frame, k);
    }
    assert frame[..|frame|] == frame;
    LastLineData(frame, |frame|);
    assert frame[5..] == " " + payload && frame[5..][1..] == payload;
    TrimKeeps(payload);
  }

  lemma BlankBehindFrame(frame: string, rest: string)
    requires '\n' !in frame
    ensures Find(frame + "\n\n" + rest, "\n\n") == Some(|frame|)
  {
    var text := frame + "\n\n" + rest;
    Feeds(text, |frame|);
    forall k: nat | k < |frame|
      ensures !At(text, "\n\n", k)
    {
      Feeds(text, k);
    }
    FindIs(text, "\n\n", |frame|);
  }

  /** Payloads printed as events, cut into reads anywhere, come back as they were. */
  lemma {:induction false} PrintedEventsRoundTrip(payloads: seq<string>)
    requires forall p :: p in payloads ==> OneLine(p)
    ensures Payloads(PrintEvents(payloads)) == payloads
  {
    if payloads != [] {
      PrintedEventsRoundTrip(payloads[1..]);
      PrintedFrame(payloads[0], PrintEvents(payloads[1..]));
    } else {
      assert Find("", "\n\n").None?;
    }
  }
}
