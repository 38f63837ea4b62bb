/** The hand-written reader of metric samples in the Prometheus text format
    (ui/src/lib/api/metrics.ts). */
module PrometheusLabels {
  import opened Wrappers
  import opened JsText

  type Labels = map<string, string>

  // ---------- reading ----------

  /** Where a quoted value that begins at `q` ends: at the first quote that is not
      skipped with a backslash before it; past the end if there is none. */
  function Closing(s: string, q: nat): (r: nat)
    ensures r >= q
    decreases |s| - q
  {
    if q >= |s| then q
    else if s[q] == '\\' then Closing(s, q + 2)
    else if s[q] == '"' then q
    else Closing(s, q + 1)
  }

  /** Two replacements over the whole value, one after the other. */
  function Unescape(s: string): string {
    ReplacePairs(ReplacePairs(s, '\\', '"', '"'), '\\', '\\', '\\')
  }

  /** One round of the loop: nothing left to read, or where the name ends, the quoted
      value begins and ends, and the next label begins. */
  datatype Round = NoLabel | Span(eq: nat, from: nat, to: nat, next: Option<nat>)

  function RoundAt(src: string, i: nat): (r: Round)
    ensures r.Span? && r.next.Some? ==> i < r.next.value <= |src|
  {
    match IndexOf(src, '=', i)
    case None => NoLabel
    case Some(eq) =>
      match IndexOf(src, '"', eq + 1)
      case None => NoLabel
      case Some(q1) =>
        var q2 := Closing(src, q1 + 1);
        Span(eq, q1 + 1, q2, Moved(IndexOf(src, ',', q2 + 1), 1))
  }

  /** The rounds from `i` on, as pieces of text: raw names and raw values. */
  function RawLabels(src: string, i: nat): seq<(string, string)>
    decreases |src| - i
  {
    match RoundAt(src, i)
    case NoLabel => []
    case Span(eq, from, to, next) =>
      [(Slice(src, i, eq), Slice(src, from, to))]
      + if next.Some? then RawLabels(src, next.value) else []
  }

  /** Names trimmed, values unescaped, later ones winning. */
  function Store(raw: seq<(string, string)>, found: Labels): Labels {
    if raw == [] then found else Store(raw[1..], found[Trim(raw[0].0) := Unescape(raw[0].1)])
  }

  method ParseLabels(src: string) returns (out: Labels)
    ensures out == Store(RawLabels(src, 0), map[])
  {
    out := map[];
    ghost var whole := Store(RawLabels(src, 0), map[]);
    var i := 0;
    while i < |src|
      invariant i <= |src|
      invariant Store(RawLabels(src, i), out) == whole
    {
      StoreRound(src, i, out);
      var round := ReadRound(src, i);
      if round.NoLabel? {
        break;
      }
      out := out[Trim(Slice(src, i, round.eq)) := Unescape(Slice(src, round.from, round.to))];
      if round.next.None? {
        break;
      }
      i := round.next.value;
    }
    if i == |src| {
      assert RoundAt(src, i).NoLabel?;
    }
  }

  lemma StoreRound(src: string, i: nat, found: Labels)
    ensures Store(RawLabels(src, i), found)
         == match RoundAt(src, i)
            case NoLabel => found
            case Span(eq, from, to, next) =>
              var more := found[Trim(Slice(src, i, eq)) := Unescape(Slice(src, from, to))];
              if next.Some? then Store(RawLabels(src, next.value), more) else more
  {
    match RoundAt(src, i)
    case NoLabel =>
    case Span(eq, from, to, next) =>
      StoreCons(Slice(src, i, eq), Slice(src, from, to), if next.Some? then RawLabels(src, next.value) else [], found);
  }

  lemma StoreCons(name: string, value: string, raw: seq<(string, string)>, found: Labels)
    ensures Store([(name, value)] + raw, found) == Store(raw, found[Trim(name) := Unescape(value)])
  {
    assert ([(name, value)] + raw)[1..] == raw;
  }

  /** One round of the loop. */
  method ReadRound(src: string, i: nat) returns (r: Round)
    ensures r == RoundAt(src, i)
  {
    var eq := IndexOf(src, '=', i);
    if eq.None? {
      return NoLabel;
    }
    var q1 := IndexOf(src, '"', eq.value + 1);
    if q1.None? {
      return NoLabel;
    }
    var q2 := ScanValue(src, q1.value + 1);
    var comma := IndexOf(src, ',', q2 + 1);
    return Span(eq.value, q1.value + 1, q2, if comma.Some? then Some(1 + comma.value) else None);
  }

  /** The inner loop: to the closing quote. */
  method ScanValue(src: string, q: nat) returns (q2: nat)
    ensures q2 == Closing(src, q)
  {
    q2 := q;
    while q2 < |src| && src[q2] != '"'
      invariant Closing(src, q2) == Closing(src, q)
      decreases |src| - q2
    {
      if src[q2] == '\\' {
        q2 := q2 + 2;
      } else {
        q2 := q2 + 1;
      }
    }
  }

  // ---------- printing ----------

  predicate IsNameStart(c: char) {
    'a' <= c <= 'z' || 'A' <= c <= 'Z' || c == '_'
  }

  predicate IsLabelName(name: string) {
    && name != "" && IsNameStart(name[0])
    && forall i :: 0 <= i < |name| ==> IsNameStart(name[i]) || '0' <= name[i] <= '9'
  }

  function EscapeChar(c: char): string {
    if c == '\\' then ['\\', '\\']
    else if c == '"' then ['\\', '"']
    else if c == '\n' then ['\\', 'n']
    else [c]
  }

  function Escape(v: string): string {
    if v == "" then "" else EscapeChar(v[0]) + Escape(v[1..])
  }

  datatype Label = Label(name: string, value: string)

  function PrintLabel(l: Label): string {
    l.name + ['=', '"'] + Escape(l.value) + ['"']
  }

  function Joined(parts: seq<string>): string {
    if parts == [] then ""
    else if |parts| == 1 then parts[0]
    else parts[0] + [','] + Joined(parts[1..])
  }

  function PrintLabels(ls: seq<Label>): string {
    Joined(seq(|ls|, i requires 0 <= i < |ls| => PrintLabel(ls[i])))
  }

  /** The labels as a map, later ones winning. */
  function Collect(ls: seq<Label>, found: Labels): Labels {
    if ls == [] then found else Collect(ls[1..], found[ls[0].name := ls[0].value])
  }

  // ---------- escaping ----------

  /** After the first replacement only quotes are back. */
  function QuotesBack(v: string): string {
    if v == "" then "" else (if v[0] == '"' then ['"'] else EscapeChar(v[0])) + QuotesBack(v[1..])
  }

  /** What the first replacement makes of one escaped character. */
  lemma FirstPassChar(c: char, e: string)
    requires e == "" || e[0] != '"'
    ensures ReplacePairs(EscapeChar(c) + e, '\\', '"', '"')
         == (if c == '"' then ['"'] else EscapeChar(c)) + ReplacePairs(e, '\\', '"', '"')
  {
    if c == '"' {
      PairTaken(e, '\\', '"', '"');
    } else if c == '\\' {
      PairKept('\\', '\\', e, '\\', '"', '"');
    } else if c == '\n' {
      PairKept('\\', 'n', e, '\\', '"', '"');
    } else {
      CharKept(c, e, '\\', '"', '"');
    }
  }

  lemma {:induction false} FirstPass(v: string)
    ensures ReplacePairs(Escape(v), '\\', '"', '"') == QuotesBack(v)
    ensures v != "" ==> Escape(v) != "" && Escape(v)[0] != '"'
  {
    if v != "" {
      FirstPass(v[1..]);
      FirstPassChar(v[0], Escape(v[1..]));
    }
  }

  /** What comes back: the value with a backslash and an n for each line feed. */
  function Returned(v: string): string {
    if v == "" then "" else (if v[0] == '\n' then ['\\', 'n'] else [v[0]]) + Returned(v[1..])
  }

  /** What the second replacement makes of what the first has left of a character. */
  lemma SecondPassChar(c: char, h: string)
    ensures ReplacePairs((if c == '"' then ['"'] else EscapeChar(c)) + h, '\\', '\\', '\\')
         == (if c == '\n' then ['\\', 'n'] else [c]) + ReplacePairs(h, '\\', '\\', '\\')
  {
    if c == '\\' {
      PairTaken(h, '\\', '\\', '\\');
    } else if c == '\n' {
      PairKept('\\', 'n', h, '\\', '\\', '\\');
    } else {
      CharKept(c, h, '\\', '\\', '\\');
    }
  }

  lemma {:induction false} SecondPass(v: string)
    ensures ReplacePairs(QuotesBack(v), '\\', '\\', '\\') == Returned(v)
  {
    if v != "" {
      SecondPass(v[1..]);
      SecondPassChar(v[0], QuotesBack(v[1..]));
    }
  }

  lemma {:induction false} ReturnedIff(v: string)
    ensures Returned(v) == v <==> '\n' !in v
    ensures '\n' !in Returned(v)
  {
    if v != "" {
      ReturnedIff(v[1..]);
      if v[0] != '\n' {
        assert Returned(v)[1..] == Returned(v[1..]);
        assert v == [v[0]] + v[1..];
      }
    }
  }

  /** The two sequential replacements undo the escaping exactly for values without
      line feeds, whose escape they do not know. */
  lemma UnescapeInvertsIff(v: string)
    ensures Unescape(Escape(v)) == Returned(v)
    ensures Unescape(Escape(v)) == v <==> '\n' !in v
  {
    FirstPass(v);
    SecondPass(v);
    ReturnedIff(v);
  }

  /** The text `part` stands at `i` in `src`. */
  ghost predicate Stands(src: string, i: nat, part: string) {
    i + |part| <= |src| && src[i..i + |part|] == part
  }

  lemma StandsBoth(src: string, i: nat, a: string, b: string)
    requires Stands(src, i, a + b)
    ensures Stands(src, i, a) && Stands(src, i + |a|, b)
  {
    var c := src[i..i + |a + b|];
    assert src[i..i + |a|] == c[..|a|] && src[i + |a|..i + |a| + |b|] == c[|a|..];
  }

  lemma StandsAt(src: string, i: nat, part: string, k: nat)
    requires Stands(src, i, part) && k < |part|
    ensures src[i + k] == part[k]
  {
    assert src[i..i + |part|][k] == src[i + k];
  }

  /** No quote inside an escaped value looks like its end. */
  lemma {:induction false} ClosingBehindEscaped(src: string, q: nat, v: string)
    requires Stands(src, q, Escape(v)) && q + |Escape(v)| < |src| && src[q + |Escape(v)|] == '"'
    ensures Closing(src, q) == q + |Escape(v)|
    decreases |v|
  {
    if v != "" {
      EscapedStands(src, q, v);
      ClosingBehindEscaped(src, q + |EscapeChar(v[0])|, v[1..]);
      ClosingStep(src, q, v[0]);
    }
  }

  lemma EscapedStands(src: string, q: nat, v: string)
    requires v != "" && Stands(src, q, Escape(v))
    ensures var c := EscapeChar(v[0]);
            && q < |src| && src[q] == c[0] && Stands(src, q + |c|, Escape(v[1..]))
            && |Escape(v)| == |c| + |Escape(v[1..])|
  {
    var c, e := EscapeChar(v[0]), Escape(v[1..]);
    StandsBoth(src, q, c, e);
    StandsAt(src, q, c, 0);
  }

  lemma ClosingStep(src: string, q: nat, c: char)
    requires q < |src| && src[q] == EscapeChar(c)[0]
    ensures Closing(src, q) == Closing(src, q + |EscapeChar(c)|)
  {
  }

  // ---------- round trip ----------

  lemma NameParts(name: string)
    requires IsLabelName(name)
    ensures Trim(name) == name
    ensures forall k :: 0 <= k < |name| ==> name[k] != '=' && name[k] != '"' && name[k] != ',' && name[k] != '}'
  {
    TrimKeeps(name);
  }

  lemma RoundIs(src: string, i: nat, eq: nat, to: nat)
    requires i <= eq && eq + 2 <= to < |src| && src[eq] == '=' && forall k :: i <= k < eq ==> src[k] != '='
    requires src[eq + 1] == '"' && Closing(src, eq + 2) == to && (to + 1 < |src| ==> src[to + 1] == ',')
    ensures RoundAt(src, i) == Span(eq, eq + 2, to, if to + 1 < |src| then Some(to + 2) else None)
  {
    IndexOfIs(src, '=', i, eq);
    IndexOfIs(src, '"', eq + 1, eq + 1);
  }

  lemma NameBeforeEquals(src: string, i: nat, name: string)
    requires '=' !in name && Stands(src, i, name)
    ensures forall k :: i <= k < i + |name| ==> src[k] != '='
  {
    forall k | i <= k < i + |name|
      ensures src[k] != '='
    {
      StandsAt(src, i, name, k - i);
    }
  }

  /** The raw labels behind a label that ends at `end`. */
  function RawBehind(src: string, end: nat): seq<(string, string)> {
    if end < |src| then RawLabels(src, end + 1) else []
  }

  lemma RawStep(src: string, i: nat, eq: nat, to: nat, name: string, value: string)
    requires i <= eq && eq + 2 <= to < |src| && src[i..eq] == name && src[eq + 2..to] == value
    requires RoundAt(src, i) == Span(eq, eq + 2, to, if to + 1 < |src| then Some(to + 2) else None)
    ensures RawLabels(src, i) == [(name, value)] + RawBehind(src, to + 1)
  {
  }

  /** A name, an equals sign and a quoted, escaped value are one round. */
  lemma LabelReads(src: string, i: nat, eq: nat, to: nat, name: string, value: string)
    requires '=' !in name && Stands(src, i, name) && eq == i + |name|
    requires Stands(src, eq + 2, Escape(value)) && to == eq + 2 + |Escape(value)| < |src|
    requires src[eq] == '=' && src[eq + 1] == '"' && src[to] == '"' && (to + 1 < |src| ==> src[to + 1] == ',')
    ensures RawLabels(src, i) == [(name, Escape(value))] + RawBehind(src, to + 1)
  {
    NameBeforeEquals(src, i, name);
    ClosingBehindEscaped(src, eq + 2, value);
    RoundIs(src, i, eq, to);
    RawStep(src, i, eq, to, name, Escape(value));
  }

  /** One printed label is read as a whole, wherever it stands; nothing inside its
      value is taken for a separator. */
  lemma PrintedLabelReads(src: string, i: nat, l: Label)
    requires '=' !in l.name && PartStands(src, i, PrintLabel(l))
    ensures RawLabels(src, i) == [(l.name, Escape(l.value))] + RawBehind(src, i + |PrintLabel(l)|)
  {
    var eq := i + |l.name|;
    var to := eq + 2 + |Escape(l.value)|;
    LabelParts(src, i, l);
    assert to + 1 == i + |PrintLabel(l)|;
    LabelReads(src, i, eq, to, l.name, l.value);
  }

  lemma LabelParts(src: string, i: nat, l: Label)
    requires Stands(src, i, PrintLabel(l))
    ensures var eq := i + |l.name|;
            && Stands(src, i, l.name) && Stands(src, eq + 2, Escape(l.value))
            && eq + 3 + |Escape(l.value)| == i + |PrintLabel(l)|
            && src[eq] == '=' && src[eq + 1] == '"' && src[eq + 2 + |Escape(l.value)|] == '"'
  {
    var n, m := |l.name|, |Escape(l.value)|;
    StandsBoth(src, i, l.name + ['=', '"'] + Escape(l.value), ['"']);
    StandsBoth(src, i, l.name + ['=', '"'], Escape(l.value));
    StandsBoth(src, i, l.name, ['=', '"']);
    StandsAt(src, i + n, ['=', '"'], 0);
    StandsAt(src, i + n, ['=', '"'], 1);
    StandsAt(src, i + n + 2 + m, ['"'], 0);
  }

  ghost predicate NamesOk(ls: seq<Label>) {
    forall i :: 0 <= i < |ls| ==> IsLabelName(ls[i].name)
  }

  ghost predicate NoLineFeeds(ls: seq<Label>) {
    forall i :: 0 <= i < |ls| ==> '\n' !in ls[i].value
  }

  /** The raw pieces of a printed list. */
  function RawPrinted(ls: seq<Label>): (r: seq<(string, string)>)
    ensures |r| == |ls| && forall i :: 0 <= i < |r| ==> r[i] == (ls[i].name, Escape(ls[i].value))
  {
    seq(|ls|, i requires 0 <= i < |ls| => (ls[i].name, Escape(ls[i].value)))
  }

  ghost predicate PartStands(src: string, i: nat, part: string) {
    Stands(src, i, part) && (i + |part| < |src| ==> src[i + |part|] == ',')
  }

  /** Wherever this part stands, it is read as this raw pair. */
  ghost predicate ReadsAs(part: string, raw: (string, string)) {
    forall src: string, i: nat {:trigger PartStands(src, i, part)} :: PartStands(src, i, part) ==>
      RawLabels(src, i) == [raw] + RawBehind(src, i + |part|)
  }

  lemma PrintedLabelReadsAs(l: Label)
    requires '=' !in l.name
    ensures ReadsAs(PrintLabel(l), (l.name, Escape(l.value)))
  {
    forall src: string, i: nat {:trigger PartStands(src, i, PrintLabel(l))} | PartStands(src, i, PrintLabel(l))
      ensures RawLabels(src, i) == [(l.name, Escape(l.value))] + RawBehind(src, i + |PrintLabel(l)|)
    {
      PrintedLabelReads(src, i, l);
    }
  }

  ghost predicate AllRead(parts: seq<string>, raw: seq<(string, string)>) {
    |parts| == |raw| && forall k :: 0 <= k < |parts| ==> ReadsAs(parts[k], raw[k])
  }

  /** The parts from the k-th on. */
  lemma {:induction false} JoinedReads(src: string, i: nat, parts: seq<string>, raw: seq<(string, string)>, k: nat)
    requires AllRead(parts, raw) && k <= |parts|
    requires Stands(src, i, Joined(parts[k..])) && i + |Joined(parts[k..])| == |src|
    ensures RawLabels(src, i) == raw[k..]
    decreases |parts| - k
  {
    if k + 1 >= |parts| {
      LastReads(src, i, parts, raw, k);
    } else {
      SecondStands(src, i, parts[k..]);
      assert parts[k..][1..] == parts[k + 1..];
      JoinedReads(src, i + |parts[k]| + 1, parts, raw, k + 1);
      FirstReads(src, i, parts[k], raw[k..]);
    }
  }

  lemma LastReads(src: string, i: nat, parts: seq<string>, raw: seq<(string, string)>, k: nat)
    requires AllRead(parts, raw) && k <= |parts| <= k + 1
    requires Stands(src, i, Joined(parts[k..])) && i + |Joined(parts[k..])| == |src|
    ensures RawLabels(src, i) == raw[k..]
  {
    if k == |parts| {
      IndexOfNone(src, '=', i);
    } else {
      assert PartStands(src, i, parts[k]);
      assert raw[k..] == [raw[k]];
    }
  }

  lemma FirstReads(src: string, i: nat, part: string, raw: seq<(string, string)>)
    requires raw != [] && ReadsAs(part, raw[0]) && Stands(src, i, part)
    requires i + |part| < |src| && src[i + |part|] == ','
    requires RawLabels(src, i + |part| + 1) == raw[1..]
    ensures RawLabels(src, i) == raw
  {
    assert PartStands(src, i, part);
    assert raw == [raw[0]] + raw[1..];
  }

  lemma SecondStands(src: string, i: nat, parts: seq<string>)
    requires |parts| > 1 && Stands(src, i, Joined(parts)) && i + |Joined(parts)| == |src|
    ensures var end := i + |parts[0]|;
            && Stands(src, i, parts[0]) && end < |src| && src[end] == ','
            && Stands(src, end + 1, Joined(parts[1..])) && end + 1 + |Joined(parts[1..])| == |src|
  {
    var p, more := parts[0], Joined(parts[1..]);
    StandsBoth(src, i, p + [','], more);
    StandsBoth(src, i, p, [',']);
    StandsAt(src, i + |p|, [','], 0);
  }

  lemma PrintedLabelsRead(ls: seq<Label>)
    requires forall i :: 0 <= i < |ls| ==> '=' !in ls[i].name
    ensures RawLabels(PrintLabels(ls), 0) == RawPrinted(ls)
  {
    var parts := seq(|ls|, i requires 0 <= i < |ls| => PrintLabel(ls[i]));
    forall k | 0 <= k < |ls|
      ensures ReadsAs(parts[k], RawPrinted(ls)[k])
    {
      PrintedLabelReadsAs(ls[k]);
    }
    var src := Joined(parts);
    assert src[0..|src|] == src;
    assert parts[0..] == parts;
    JoinedReads(src, 0, parts, RawPrinted(ls), 0);
  }

  /** The labels with the values that come back. */
  function ReturnedLabels(ls: seq<Label>): (r: seq<Label>)
    ensures |r| == |ls| && forall i :: 0 <= i < |r| ==> r[i] == Label(ls[i].name, Returned(ls[i].value))
  {
    seq(|ls|, i requires 0 <= i < |ls| => Label(ls[i].name, Returned(ls[i].value)))
  }

  lemma {:induction false} StorePrinted(ls: seq<Label>, found: Labels)
    requires NamesOk(ls)
    ensures Store(RawPrinted(ls), found) == Collect(ReturnedLabels(ls), found)
    decreases |ls|
  {
    if ls != [] {
      NameParts(ls[0].name);
      UnescapeInvertsIff(ls[0].value);
      assert RawPrinted(ls)[1..] == RawPrinted(ls[1..]);
      assert ReturnedLabels(ls)[1..] == ReturnedLabels(ls[1..]);
      StorePrinted(ls[1..], found[ls[0].name := Returned(ls[0].value)]);
    }
  }

  /** What printed label lists come back as: the map they denote, with a backslash and
      an n for each line feed. */
  lemma PrintedLabelsReturn(ls: seq<Label>)
    requires NamesOk(ls)
    ensures Store(RawLabels(PrintLabels(ls), 0), map[]) == Collect(ReturnedLabels(ls), map[])
  {
    forall i | 0 <= i < |ls|
      ensures '=' !in ls[i].name
    {
      NameParts(ls[i].name);
    }
    PrintedLabelsRead(ls);
    StorePrinted(ls, map[]);
  }

  /** Printed label lists come back as the map they denote, whatever quotes,
      backslashes, commas, braces or equals signs the values contain. */
  lemma LabelsRoundTrip(ls: seq<Label>)
    requires NamesOk(ls) && NoLineFeeds(ls)
    ensures Store(RawLabels(PrintLabels(ls), 0), map[]) == Collect(ls, map[])
  {
    PrintedLabelsReturn(ls);
    forall i | 0 <= i < |ls|
      ensures ReturnedLabels(ls)[i] == ls[i]
    {
      ReturnedIff(ls[i].value);
    }
    assert ReturnedLabels(ls) == ls;
  }

  ghost predicate NamesDistinct(ls: seq<Label>) {
    forall i, j :: 0 <= i < j < |ls| ==> ls[i].name != ls[j].name
  }

  lemma {:induction false} CollectHolds(ls: seq<Label>, found: Labels, k: nat)
    requires NamesDistinct(ls) && k < |ls|
    ensures ls[k].name in Collect(ls, found) && Collect(ls, found)[ls[k].name] == ls[k].value
    decreases |ls|
  {
    var more := found[ls[0].name := ls[0].value];
    if k > 0 {
      CollectHolds(ls[1..], more, k - 1);
    } else {
      CollectKeeps(ls[1..], more, ls[0].name);
    }
  }

  lemma {:induction false} CollectKeeps(ls: seq<Label>, found: Labels, name: string)
    requires name in found && forall k :: 0 <= k < |ls| ==> ls[k].name != name
    ensures name in Collect(ls, found) && Collect(ls, found)[name] == found[name]
    decreases |ls|
  {
    if ls != [] {
      CollectKeeps(ls[1..], found[ls[0].name := ls[0].value], name);
    }
  }

  // ---------- blanks around names ----------

  predicate Blank(s: string) {
    forall k :: 0 <= k < |s| ==> IsSpace(s[k])
  }

  lemma {:induction false} TrimsStart(before: string, s: string)
    requires Blank(before) && (s == "" || !IsSpace(s[0]))
    ensures TrimStart(before + s) == s
    decreases |before|
  {
    if before == "" {
      TrimKeeps(s);
      assert before + s == s;
    } else {
      TrimsStart(before[1..], s);
      assert (before + s)[1..] == before[1..] + s;
    }
  }

  lemma {:induction false} TrimsEnd(s: string, after: string)
    requires Blank(after) && (s == "" || !IsSpace(s[|s| - 1]))
    ensures TrimEnd(s + after) == s
    decreases |after|
  {
    if after == "" {
      assert s + after == s;
    } else {
      TrimsEnd(s, after[..|after| - 1]);
      assert (s + after)[..|s + after| - 1] == s + after[..|after| - 1];
    }
  }

  /** The same labels with white space around their names. */
  function Padded(ls: seq<Label>, before: string, after: string): (r: seq<Label>)
    ensures |r| == |ls|
    ensures forall i :: 0 <= i < |r| ==> r[i] == Label(before + ls[i].name + after, ls[i].value)
  {
    seq(|ls|, i requires 0 <= i < |ls| => Label(before + ls[i].name + after, ls[i].value))
  }

  lemma PaddedName(name: string, before: string, after: string)
    requires IsLabelName(name) && Blank(before) && Blank(after)
    ensures Trim(before + name + after) == name && '=' !in before + name + after
  {
    NameParts(name);
    assert before + name + after == before + (name + after);
    assert !IsSpace((name + after)[0]);
    TrimsStart(before, name + after);
    assert !IsSpace(name[|name| - 1]);
    TrimsEnd(name, after);
  }

  lemma {:induction false} StorePadded(ls: seq<Label>, before: string, after: string, found: Labels)
    requires NamesOk(ls) && NoLineFeeds(ls) && Blank(before) && Blank(after)
    ensures Store(RawPrinted(Padded(ls, before, after)), found) == Collect(ls, found)
    decreases |ls|
  {
    if ls != [] {
      PaddedName(ls[0].name, before, after);
      UnescapeInvertsIff(ls[0].value);
      assert RawPrinted(Padded(ls, before, after))[1..] == RawPrinted(Padded(ls[1..], before, after));
      StorePadded(ls[1..], before, after, found[ls[0].name := ls[0].value]);
    }
  }

  /** White space around the names makes no difference. */
  lemma PaddedLabelsReturn(ls: seq<Label>, before: string, after: string)
    requires NamesOk(ls) && NoLineFeeds(ls) && Blank(before) && Blank(after)
    ensures Store(RawLabels(PrintLabels(Padded(ls, before, after)), 0), map[]) == Collect(ls, map[])
  {
    forall i | 0 <= i < |ls|
      ensures '=' !in Padded(ls, before, after)[i].name
    {
      PaddedName(ls[i].name, before, after);
    }
    PrintedLabelsRead(Padded(ls, before, after));
    StorePadded(ls, before, after, map[]);
  }

  /** Lists without a repeated name come back exactly if no value has a line feed. */
  lemma LabelsRoundTripIff(ls: seq<Label>)
    requires NamesOk(ls) && NamesDistinct(ls)
    ensures Store(RawLabels(PrintLabels(ls), 0), map[]) == Collect(ls, map[]) <==> NoLineFeeds(ls)
  {
    if NoLineFeeds(ls) {
      LabelsRoundTrip(ls);
    } else {
      var k :| 0 <= k < |ls| && '\n' in ls[k].value;
      PrintedLabelsReturn(ls);
      CollectHolds(ReturnedLabels(ls), map[], k);
      CollectHolds(ls, map[], k);
      ReturnedIff(ls[k].value);
    }
  }
}
