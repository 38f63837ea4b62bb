/** The ECMAScript string operations the user interface relies on. */
module JsText {
  import opened Wrappers

  /** White space and line terminators. */
  predicate IsSpace(c: char) {
    '\t' <= c <= '\r' || c == ' ' || c == '\U{A0}' || c == '\U{1680}' || '\U{2000}' <= c <= '\U{200A}'
    || c == '\U{2028}' || c == '\U{2029}' || c == '\U{202F}' || c == '\U{205F}' || c == '\U{3000}' || c == '\U{FEFF}'
  }

  function TrimStart(s: string): string {
    if s != "" && IsSpace(s[0]) then TrimStart(s[1..]) else s
  }

  function TrimEnd(s: string): string {
    if s != "" && IsSpace(s[|s| - 1]) then TrimEnd(s[..|s| - 1]) else s
  }

  function Trim(s: string): string {
    TrimEnd(TrimStart(s))
  }

  lemma TrimKeeps(s: string)
    ensures TrimStart(s) == s <==> s == "" || !IsSpace(s[0])
    ensures |TrimStart(s)| <= |s|
  {
    if s != "" && IsSpace(s[0]) {
      TrimKeeps(s[1..]);
    }
  }

  /** Bounds of a slice: counted from the end when negative, then cut to the text. */
  function Bound(s: string, k: int): (r: nat)
    ensures r <= |s|
  {
    if k >= 0 then (if k > |s| then |s| else k) else if |s| + k < 0 then 0 else |s| + k
  }

  function Slice(s: string, from: int, to: int): string {
    if Bound(s, from) <= Bound(s, to) then s[Bound(s, from)..Bound(s, to)] else ""
  }

  function SliceFrom(s: string, from: int): string {
    s[Bound(s, from)..]
  }

  /** Index of the first `c` at or behind `from`, wherever `from` lies. */
  function IndexOf(s: string, c: char, from: nat): (r: Option<nat>)
    ensures r.Some? ==> from <= r.value < |s|
    decreases |s| - from
  {
    if from >= |s| then None
    else if s[from] == c then Some(from)
    else IndexOf(s, c, from + 1)
  }

  lemma {:induction false} IndexOfIs(s: string, c: char, from: nat, i: nat)
    requires from <= i < |s| && s[i] == c && forall k :: from <= k < i ==> s[k] != c
    ensures IndexOf(s, c, from) == Some(i)
    decreases i - from
  {
    if from < i {
      IndexOfIs(s, c, from + 1, i);
    }
  }

  lemma {:induction false} IndexOfNone(s: string, c: char, from: nat)
    requires forall k :: from <= k < |s| ==> s[k] != c
    ensures IndexOf(s, c, from) == None
    decreases |s| - from
  {
    if from < |s| {
      IndexOfNone(s, c, from + 1);
    }
  }

  lemma {:induction false} IndexOfFirst(s: string, c: char, from: nat)
    ensures match IndexOf(s, c, from)
            case Some(i) => s[i] == c && forall k :: from <= k < i ==> s[k] != c
            case None => forall k :: from <= k < |s| ==> s[k] != c
    decreases |s| - from
  {
    if from < |s| && s[from] != c {
      IndexOfFirst(s, c, from + 1);
    }
  }

  function Moved(at: Option<nat>, n: nat): Option<nat> {
    match at
    case None => None
    case Some(k) => Some(n + k)
  }

  /** Every two characters `a` `b`, leftmost first, become one `r`. */
  function ReplacePairs(s: string, a: char, b: char, r: char): string {
    if |s| < 2 then s
    else if s[0] == a && s[1] == b then [r] + ReplacePairs(s[2..], a, b, r)
    else [s[0]] + ReplacePairs(s[1..], a, b, r)
  }

  lemma PairTaken(s: string, a: char, b: char, r: char)
    ensures ReplacePairs([a, b] + s, a, b, r) == [r] + ReplacePairs(s, a, b, r)
  {
    assert ([a, b] + s)[2..] == s;
  }

  lemma CharKept(c: char, s: string, a: char, b: char, r: char)
    requires c != a || s == "" || s[0] != b
    ensures ReplacePairs([c] + s, a, b, r) == [c] + ReplacePairs(s, a, b, r)
  {
    assert ([c] + s)[1..] == s;
  }

  lemma PairKept(c: char, d: char, s: string, a: char, b: char, r: char)
    requires !(c == a && d == b) && (d != a || s == "" || s[0] != b)
    ensures ReplacePairs([c, d] + s, a, b, r) == [c, d] + ReplacePairs(s, a, b, r)
  {
    var after := ReplacePairs(s, a, b, r);
    CharKept(d, s, a, b, r);
    CharKept(c, [d] + s, a, b, r);
    TwoFirst(c, d, s);
    TwoFirst(c, d, after);
  }

  lemma TwoFirst(c: char, d: char, s: string)
    ensures [c, d] + s == [c] + ([d] + s)
  {
  }
}
