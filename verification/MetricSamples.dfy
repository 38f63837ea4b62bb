/** One sample line with its label block (ui/src/lib/api/metrics.ts). Reading a number
    is an oracle that answers for finite numbers only. */
module MetricSamples {
  import opened Wrappers
  import opened JsText
  import opened PrometheusLabels

  datatype Sample = Sample(name: string, labels: Labels, value: real)

  type NumberReader = string -> Option<real>

  /** Index as the language reports it, -1 for none. */
  function Place(at: Option<nat>): int {
    match at
    case None => -1
    case Some(k) => k
  }

  function FirstWord(s: string): string {
    match IndexOf(s, ' ', 0)
    case None => s
    case Some(k) => s[..k]
  }

  /** The text between the first opening and the first closing brace of the line,
      wherever these are. */
  function LabelBlock(line: string): string {
    Slice(line, Place(IndexOf(line, '{', 0)) + 1, Place(IndexOf(line, '}', 0)))
  }

  function Counted(name: string, labels: Labels, rest: string, number: NumberReader): Option<Sample> {
    match number(FirstWord(rest))
    case None => None
    case Some(value) => Some(Sample(name, labels, value))
  }

  function SampleOf(line: string, number: NumberReader): Option<Sample> {
    match IndexOf(line, '{', 0)
    case None =>
      (match IndexOf(line, ' ', 0)
       case None => None
       case Some(sp) => Counted(line[..sp], map[], line[sp + 1..], number))
    case Some(start) =>
      Counted(line[..start], Store(RawLabels(LabelBlock(line), 0), map[]),
              Trim(SliceFrom(line, Place(IndexOf(line, '}', 0)) + 1)), number)
  }

  method ParseSample(line: string, number: NumberReader) returns (r: Option<Sample>)
    ensures r == SampleOf(line, number)
  {
    var braceStart := Place(IndexOf(line, '{', 0));
    var braceEnd := Place(IndexOf(line, '}', 0));
    var name, rest;
    var labels: Labels := map[];
    if braceStart == -1 {
      var sp := Place(IndexOf(line, ' ', 0));
      if sp == -1 {
        return None;
      }
      name := Slice(line, 0, sp);
      rest := SliceFrom(line, sp + 1);
    } else {
      name := Slice(line, 0, braceStart);
      labels := ParseLabels(Slice(line, braceStart + 1, braceEnd));
      rest := Trim(SliceFrom(line, braceEnd + 1));
    }
    assert SampleOf(line, number) == Counted(name, labels, rest, number);
    var value := number(FirstWord(rest));
    if value.None? {
      return None;
    }
    return Some(Sample(name, labels, value.value));
  }

  // ---------- a brace inside a value ----------

  ghost predicate Lacks(s: string, c: char) {
    forall k :: 0 <= k < |s| ==> s[k] != c
  }

  ghost predicate PairsLack(raw: seq<(string, string)>, c: char) {
    forall k :: 0 <= k < |raw| ==> Lacks(raw[k].1, c)
  }

  lemma {:induction false} ReplaceLacks(s: string, a: char, b: char, r: char, c: char)
    requires Lacks(s, c) && r != c
    ensures Lacks(ReplacePairs(s, a, b, r), c)
    decreases |s|
  {
    if |s| >= 2 {
      if s[0] == a && s[1] == b {
        ReplaceLacks(s[2..], a, b, r, c);
      } else {
        ReplaceLacks(s[1..], a, b, r, c);
      }
    }
  }

  lemma UnescapeLacks(s: string)
    requires Lacks(s, '}')
    ensures Lacks(Unescape(s), '}')
  {
    ReplaceLacks(s, '\\', '"', '"', '}');
    ReplaceLacks(ReplacePairs(s, '\\', '"', '"'), '\\', '\\', '\\', '}');
  }

  lemma {:induction false} RawLacks(src: string, i: nat)
    requires Lacks(src, '}')
    ensures PairsLack(RawLabels(src, i), '}')
    decreases |src| - i
  {
    match RoundAt(src, i)
    case NoLabel =>
    case Span(eq, from, to, next) =>
      if next.Some? {
        RawLacks(src, next.value);
      }
  }

  lemma {:induction false} StoreLacks(raw: seq<(string, string)>, found: Labels, name: string)
    requires PairsLack(raw, '}')
    requires name in found ==> Lacks(found[name], '}')
    ensures name in Store(raw, found) ==> Lacks(Store(raw, found)[name], '}')
    decreases |raw|
  {
    if raw != [] {
      UnescapeLacks(raw[0].1);
      StoreLacks(raw[1..], found[Trim(raw[0].0) := Unescape(raw[0].1)], name);
    }
  }

  lemma BlockLacks(line: string)
    ensures IndexOf(line, '}', 0).Some? ==> Lacks(LabelBlock(line), '}')
  {
    IndexOfFirst(line, '}', 0);
  }

  // ---------- printed samples ----------

  function PrintSample(name: string, ls: seq<Label>, num: string): string {
    name + ['{'] + PrintLabels(ls) + ['}', ' '] + num
  }

  /** A metric name and a number as the exporter prints them. */
  ghost predicate Printable(name: string, num: string) {
    Lacks(name, '{') && Lacks(name, '}') && num != "" && forall k :: 0 <= k < |num| ==> !IsSpace(num[k])
  }

  lemma {:induction false} EscapeLacks(v: string)
    requires Lacks(v, '}')
    ensures Lacks(Escape(v), '}')
  {
    if v != "" {
      EscapeLacks(v[1..]);
      LacksBoth(EscapeChar(v[0]), Escape(v[1..]), '}');
    }
  }

  lemma LacksBoth(a: string, b: string, c: char)
    requires Lacks(a, c) && Lacks(b, c)
    ensures Lacks(a + b, c)
  {
  }

  lemma PrintLabelLacks(l: Label)
    requires IsLabelName(l.name) && Lacks(l.value, '}')
    ensures Lacks(PrintLabel(l), '}')
  {
    NameParts(l.name);
    EscapeLacks(l.value);
    LacksBoth(l.name, ['=', '"'], '}');
    LacksBoth(l.name + ['=', '"'], Escape(l.value), '}');
    LacksBoth(l.name + ['=', '"'] + Escape(l.value), ['"'], '}');
  }

  lemma {:induction false} JoinedLacks(parts: seq<string>)
    requires forall k :: 0 <= k < |parts| ==> Lacks(parts[k], '}')
    ensures Lacks(Joined(parts), '}')
    decreases |parts|
  {
    if |parts| > 1 {
      JoinedLacks(parts[1..]);
      LacksBoth(parts[0], [','], '}');
      LacksBoth(parts[0] + [','], Joined(parts[1..]), '}');
    }
  }

  ghost predicate NoBraces(ls: seq<Label>) {
    forall k :: 0 <= k < |ls| ==> Lacks(ls[k].value, '}')
  }

  lemma PrintLabelsLacks(ls: seq<Label>)
    requires NamesOk(ls) && NoBraces(ls)
    ensures Lacks(PrintLabels(ls), '}')
  {
    var parts := seq(|ls|, i requires 0 <= i < |ls| => PrintLabel(ls[i]));
    forall k | 0 <= k < |ls|
      ensures Lacks(parts[k], '}')
    {
      PrintLabelLacks(ls[k]);
    }
    JoinedLacks(parts);
  }

  /** Where the braces of a line are, if the block between them has no closing one. */
  lemma BracesOf(name: string, block: string, tail: string)
    requires Lacks(name, '{') && Lacks(name, '}') && Lacks(block, '}')
    ensures var line := name + ['{'] + block + ['}'] + tail;
            && IndexOf(line, '{', 0) == Some(|name|) && IndexOf(line, '}', 0) == Some(|name| + 1 + |block|)
            && line[..|name|] == name && LabelBlock(line) == block && SliceFrom(line, |name| + 2 + |block|) == tail
  {
    var line, end := name + ['{'] + block + ['}'] + tail, |name| + 1 + |block|;
    assert line[|name|] == '{' && line[end] == '}';
    IndexOfIs(line, '{', 0, |name|);
    IndexOfIs(line, '}', 0, end);
    assert line[|name| + 1..end] == block;
  }

  lemma NumberRest(num: string)
    requires num != "" && forall k :: 0 <= k < |num| ==> !IsSpace(num[k])
    ensures FirstWord(Trim([' '] + num)) == num
  {
    assert ([' '] + num)[1..] == num;
    TrimKeeps(num);
    assert TrimStart([' '] + num) == num;
    IndexOfNone(num, ' ', 0);
  }

  lemma PrintedSampleRegroups(name: string, ls: seq<Label>, num: string)
    ensures PrintSample(name, ls, num) == name + ['{'] + PrintLabels(ls) + ['}'] + ([' '] + num)
  {
  }

  lemma BracelessSampleReads(name: string, ls: seq<Label>, num: string, number: NumberReader)
    requires Printable(name, num) && number(num).Some?
    requires NamesOk(ls) && NoBraces(ls)
    ensures SampleOf(PrintSample(name, ls, num), number)
         == Some(Sample(name, Store(RawLabels(PrintLabels(ls), 0), map[]), number(num).value))
  {
    PrintLabelsLacks(ls);
    PrintedSampleRegroups(name, ls, num);
    BracesOf(name, PrintLabels(ls), [' '] + num);
    NumberRest(num);
  }

  lemma BracedValueLost(line: string, number: NumberReader, ls: seq<Label>, k: nat)
    requires IndexOf(line, '{', 0).Some? && IndexOf(line, '}', 0).Some?
    requires NamesDistinct(ls) && k < |ls| && !Lacks(ls[k].value, '}')
    ensures SampleOf(line, number).Some? ==> SampleOf(line, number).value.labels != Collect(ls, map[])
  {
    BlockLacks(line);
    RawLacks(LabelBlock(line), 0);
    StoreLacks(RawLabels(LabelBlock(line), 0), map[], ls[k].name);
    CollectHolds(ls, map[], k);
  }

  lemma HasBraces(name: string, ls: seq<Label>, num: string)
    ensures IndexOf(PrintSample(name, ls, num), '{', 0).Some? && IndexOf(PrintSample(name, ls, num), '}', 0).Some?
  {
    var line := PrintSample(name, ls, num);
    assert line[|name|] == '{' && line[|name| + 1 + |PrintLabels(ls)|] == '}';
    IndexOfFirst(line, '{', 0);
    IndexOfFirst(line, '}', 0);
  }

  /** A printed sample comes back exactly when no label value contains a closing brace
      or a line feed: the line is cut at the first brace, even inside quotes, and the
      escape of a line feed is not known. */
  lemma SampleRoundTripIff(name: string, ls: seq<Label>, num: string, number: NumberReader)
    requires Printable(name, num) && number(num).Some?
    requires NamesOk(ls) && NamesDistinct(ls)
    ensures SampleOf(PrintSample(name, ls, num), number) == Some(Sample(name, Collect(ls, map[]), number(num).value))
       <==> NoBraces(ls) && NoLineFeeds(ls)
  {
    if NoBraces(ls) {
      BracelessSampleReads(name, ls, num, number);
      LabelsRoundTripIff(ls);
    } else {
      var k :| 0 <= k < |ls| && !Lacks(ls[k].value, '}');
      HasBraces(name, ls, num);
      BracedValueLost(PrintSample(name, ls, num), number, ls, k);
    }
  }

  // ---------- samples without labels ----------

  /** A sample printed without a label block, perhaps with a time stamp behind. */
  function PrintPlain(name: string, num: string, tail: string): string {
    name + [' '] + (num + tail)
  }

  lemma FirstOfTwo(num: string, tail: string)
    requires (forall k :: 0 <= k < |num| ==> !IsSpace(num[k])) && (tail == "" || tail[0] == ' ')
    ensures FirstWord(num + tail) == num
  {
    var rest := num + tail;
    if tail == "" {
      IndexOfNone(rest, ' ', 0);
    } else {
      assert rest[|num|] == ' ';
      IndexOfIs(rest, ' ', 0, |num|);
    }
    assert rest[..|num|] == num;
  }

  /** It comes back with no labels exactly if its name has no blank and no opening brace
      is anywhere on the line. */
  lemma PlainRoundTripIff(name: string, num: string, tail: string, number: NumberReader)
    requires num != "" && (forall k :: 0 <= k < |num| ==> !IsSpace(num[k])) && (tail == "" || tail[0] == ' ')
    requires number(num).Some?
    ensures SampleOf(PrintPlain(name, num, tail), number) == Some(Sample(name, map[], number(num).value))
       <==> Lacks(name, ' ') && Lacks(PrintPlain(name, num, tail), '{')
  {
    var line := PrintPlain(name, num, tail);
    assert line[|name|] == ' ' && line[|name| + 1..] == num + tail && line[..|name|] == name;
    IndexOfFirst(line, '{', 0);
    IndexOfFirst(line, ' ', 0);
    FirstOfTwo(num, tail);
    if Lacks(line, '{') {
      assert IndexOf(line, '{', 0).None?;
      if Lacks(name, ' ') {
        assert forall k :: 0 <= k < |name| ==> line[k] == name[k];
        IndexOfIs(line, ' ', 0, |name|);
      } else {
        var k :| 0 <= k < |name| && name[k] == ' ';
        assert line[k] == ' ';
        ShorterName(line, name, IndexOf(line, ' ', 0).value);
      }
    } else {
      assert IndexOf(line, '{', 0).Some?;
      ShorterName(line, name, IndexOf(line, '{', 0).value);
    }
  }

  lemma ShorterName(line: string, name: string, at: nat)
    requires at < |line| && at != |name|
    ensures line[..at] != name
  {
  }
}
