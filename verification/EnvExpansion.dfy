/** Expansion of environment references in configuration strings (src/config.rs). */
module EnvExpansion {
  import opened Wrappers
  import opened Texts

  datatype ExpandError =
    | MissingEnvVar(name: string, field: string)
    | MalformedEnvRef(field: string, text: string)

  type Env = map<string, string>

  predicate IsUpperOrUnderscore(c: char) {
    'A' <= c <= 'Z' || c == '_'
  }

  predicate IsValidEnvName(name: string) {
    && name != []
    && IsUpperOrUnderscore(name[0])
    && forall i :: 0 <= i < |name| ==> IsUpperOrUnderscore(name[i]) || '0' <= name[i] <= '9'
  }

  const LETTERS := "ABCDEFGHIJKLMNOPQRSTUVWXYZ"
  const DIGITS := "0123456789"

  lemma LetterIff(c: char)
    ensures c in LETTERS <==> 'A' <= c <= 'Z'
  {
    assert forall i :: 0 <= i < 26 ==> LETTERS[i] == ('A' as int + i) as char;
    if 'A' <= c <= 'Z' {
      assert LETTERS[c as int - 'A' as int] == c;
    }
  }

  lemma DigitIff(c: char)
    ensures c in DIGITS <==> '0' <= c <= '9'
  {
    assert forall i :: 0 <= i < 10 ==> DIGITS[i] == ('0' as int + i) as char;
    if '0' <= c <= '9' {
      assert DIGITS[c as int - '0' as int] == c;
    }
  }

  /** Names are spelt in capital letters, digits and underscores and do not begin with
      a digit; the empty text is none. */
  lemma ValidNameIff(name: string)
    ensures IsValidEnvName(name) <==>
              && name != "" && name[0] !in DIGITS
              && forall c :: c in name ==> c in LETTERS || c in DIGITS || c == '_'
  {
    forall c | c in name
      ensures c in LETTERS <==> 'A' <= c <= 'Z'
      ensures c in DIGITS <==> '0' <= c <= '9'
    {
      LetterIff(c);
      DigitIff(c);
    }
    assert forall i :: 0 <= i < |name| ==> name[i] in name;
  }

  /** How a text begins: up to and including its first reference, if it has one. */
  datatype Beginning =
    | NoReference
    | Unreadable(before: string)
    | Reference(before: string, name: string, after: string)

  function FirstReference(s: string): (b: Beginning)
    ensures b.Reference? ==> IsValidEnvName(b.name) && |b.after| < |s|
  {
    match Find(s, "${")
    case None => NoReference
    case Some(start) => ReferenceAt(s[..start], s[start + 2..])
  }

  function ReferenceAt(before: string, afterDollar: string): (b: Beginning)
    ensures b.Reference? ==> IsValidEnvName(b.name) && |b.after| < |afterDollar|
    ensures !b.NoReference? && b.before == before
  {
    match Find(afterDollar, "}")
    case None => Unreadable(before)
    case Some(end) =>
      if IsValidEnvName(afterDollar[..end]) then Reference(before, afterDollar[..end], afterDollar[end + 1..])
      else Unreadable(before)
  }

  // ---------- templates ----------

  datatype Part = Lit(text: string) | Var(name: string)

  function PrintPart(p: Part): string {
    match p
    case Lit(text) => text
    case Var(name) => "${" + name + "}"
  }

  function Print(parts: seq<Part>): string {
    if parts == [] then "" else PrintPart(parts[0]) + Print(parts[1..])
  }

  ghost predicate PartOk(p: Part) {
    match p
    case Lit(text) => text != "" && !Contains(text, "${")
    case Var(name) => IsValidEnvName(name)
  }

  /** No two literals side by side, none containing an opener, names valid. */
  ghost predicate Template(parts: seq<Part>) {
    && (forall i :: 0 <= i < |parts| ==> PartOk(parts[i]))
    && (forall i :: 0 <= i < |parts| - 1 ==> parts[i].Var? || parts[i + 1].Var?)
  }

  /** Text that opens a reference which never closes or has no valid name. */
  ghost predicate Broken(tail: string) {
    FirstReference(tail) == Unreadable("")
  }

  ghost predicate EndsTemplate(tail: string) {
    tail == "" || Broken(tail)
  }

  /** `input` is a printed template followed by nothing or by a broken reference. */
  ghost predicate Decomposes(input: string, parts: seq<Part>, tail: string) {
    Template(parts) && EndsTemplate(tail) && input == Print(parts) + tail
  }

  /** Left to right: the first unset variable or the broken reference behind all
      parts decides; otherwise literals and values are put together as they are. */
  function Evaluate(parts: seq<Part>, tail: string, input: string, env: Env,
                    field: string): Result<string, ExpandError> {
    if parts == [] then
      if tail == "" then Ok("") else Err(MalformedEnvRef(field, input))
    else
      match parts[0]
      case Lit(text) => Prepend(text, Evaluate(parts[1..], tail, input, env, field))
      case Var(name) =>
        if name in env then Prepend(env[name], Evaluate(parts[1..], tail, input, env, field))
        else Err(MissingEnvVar(name, field))
  }

  function Prepend(s: string, r: Result<string, ExpandError>): Result<string, ExpandError> {
    match r
    case Ok(t) => Ok(s + t)
    case Err(e) => Err(e)
  }

  // ---------- the scan ----------

  /** What the scan makes of the text still to be read; `input` is the whole text. */
  function Expansion(rest: string, input: string, env: Env, field: string): Result<string, ExpandError>
    decreases |rest|
  {
    match FirstReference(rest)
    case NoReference => Ok(rest)
    case Unreadable(_) => Err(MalformedEnvRef(field, input))
    case Reference(before, name, after) =>
      if name !in env then Err(MissingEnvVar(name, field))
      else Prepend(before + env[name], Expansion(after, input, env, field))
  }

  method ExpandString(input: string, field: string, env: Env) returns (r: Result<string, ExpandError>)
    ensures r == Expansion(input, input, env, field)
    ensures forall parts, tail :: Decomposes(input, parts, tail) ==> r == Evaluate(parts, tail, input, env, field)
  {
    EvaluatesHowever(input, env, field);
    var out, rest := "", input;
    PrependNothing(Expansion(input, input, env, field));
    var start := Find(rest, "${");
    while start.Some?
      invariant start == Find(rest, "${")
      invariant Prepend(out, Expansion(rest, input, env, field)) == Expansion(input, input, env, field)
      decreases |rest|
    {
      ghost var was := out;
      out := out + rest[..start.value];
      var afterDollar := rest[start.value + 2..];
      var end := Find(afterDollar, "}");
      if end.None? {
        return Err(MalformedEnvRef(field, input));
      }
      var name := afterDollar[..end.value];
      if !IsValidEnvName(name) {
        return Err(MalformedEnvRef(field, input));
      }
      if name !in env {
        return Err(MissingEnvVar(name, field));
      }
      PrependTwice(was, rest[..start.value] + env[name], Expansion(afterDollar[end.value + 1..], input, env, field));
      assert was + (rest[..start.value] + env[name]) == out + env[name];
      out := out + env[name];
      rest := afterDollar[end.value + 1..];
      start := Find(rest, "${");
    }
    return Ok(out + rest);
  }

  lemma PrependNothing(r: Result<string, ExpandError>)
    ensures Prepend("", r) == r
  {
    if r.Ok? {
      assert "" + r.value == r.value;
    }
  }

  lemma PrependTwice(a: string, b: string, r: Result<string, ExpandError>)
    ensures Prepend(a, Prepend(b, r)) == Prepend(a + b, r)
  {
    if r.Ok? {
      assert a + (b + r.value) == a + b + r.value;
    }
  }

  // ---------- the scan inverts printing ----------

  lemma OpenerBehindLiteral(text: string, rest: string)
    requires !Contains(text, "${")
    requires rest == "" || rest[0] == '$'
    ensures Find(text + rest, "${") == match Find(rest, "${") case Some(i) => Some(|text| + i) case None => None
  {
    forall k: nat | k < |text|
      ensures !At(text + rest, "${", k)
    {
      if k + 2 <= |text| {
        AtPrefix(text, rest, "${", k);
      } else {
        assert rest != "" ==> (text + rest)[k..k + 2][1] == '$';
      }
    }
    FindSkips(text, rest, "${");
  }

  ghost function Behind(text: string, b: Beginning): Beginning {
    match b
    case NoReference => NoReference
    case Unreadable(before) => Unreadable(text + before)
    case Reference(before, name, after) => Reference(text + before, name, after)
  }

  lemma BeginningBehindLiteral(text: string, rest: string)
    requires !Contains(text, "${")
    requires rest == "" || rest[0] == '$'
    ensures FirstReference(text + rest) == Behind(text, FirstReference(rest))
  {
    OpenerBehindLiteral(text, rest);
    match Find(rest, "${")
    case None =>
    case Some(start) =>
      assert (text + rest)[|text| + start + 2..] == rest[start + 2..];
      assert (text + rest)[..|text| + start] == text + rest[..start];
  }

  /** A literal in front of a reference, or at the end, goes through unchanged. */
  lemma LiteralPasses(text: string, rest: string, input: string, env: Env, field: string)
    requires !Contains(text, "${")
    requires rest == "" || rest[0] == '$'
    ensures Expansion(text + rest, input, env, field) == Prepend(text, Expansion(rest, input, env, field))
  {
    BeginningBehindLiteral(text, rest);
    match FirstReference(rest)
    case NoReference =>
    case Unreadable(_) =>
    case Reference(before, name, after) =>
      if name in env {
        assert text + before + env[name] == text + (before + env[name]);
        PrependTwice(text, before + env[name], Expansion(after, input, env, field));
      }
  }

  lemma ReferenceBegins(name: string, rest: string)
    requires IsValidEnvName(name)
    ensures FirstReference("${" + name + "}" + rest) == Reference("", name, rest)
  {
    var s := "${" + name + "}" + rest;
    assert s[0..2] == "${";
    FindIs(s, "${", 0);
    var afterDollar := s[2..];
    assert afterDollar == name + ("}" + rest);
    CloserBehindName(name, rest);
    assert afterDollar[|name| + 1..] == rest;
    assert s[..0] == "";
  }

  lemma CloserBehindName(name: string, rest: string)
    requires IsValidEnvName(name)
    ensures Find(name + ("}" + rest), "}") == Some(|name|)
  {
    var s := name + ("}" + rest);
    assert s[|name|..|name| + 1] == "}";
    forall k: nat | k < |name|
      ensures !At(s, "}", k)
    {
      assert s[k..k + 1][0] == name[k];
    }
    FindIs(s, "}", |name|);
  }

  /** A printed reference is read back whole; its value is not scanned again. */
  lemma ReferenceReads(name: string, rest: string, input: string, env: Env, field: string)
    requires IsValidEnvName(name)
    ensures Expansion("${" + name + "}" + rest, input, env, field)
         == if name in env then Prepend(env[name], Expansion(rest, input, env, field))
           else Err(MissingEnvVar(name, field))
  {
    ReferenceBegins(name, rest);
    if name in env {
      assert "" + env[name] == env[name];
    }
  }

  lemma StartsWithDollar(parts: seq<Part>, tail: string)
    requires parts == [] || parts[0].Var?
    requires EndsTemplate(tail)
    ensures Print(parts) + tail == "" || (Print(parts) + tail)[0] == '$'
  {
    if parts == [] && tail != "" {
      assert tail[0..2] == "${";
      assert tail[0..2][0] == '$';
      assert Print(parts) + tail == tail;
    }
  }

  lemma TemplateTail(parts: seq<Part>)
    requires Template(parts) && parts != []
    ensures Template(parts[1..])
    ensures parts[0].Lit? && |parts| > 1 ==> parts[1].Var?
  {
  }

  /** Whatever way a text is a printed template with a possibly broken end,
      expanding it gives what that template evaluates to. */
  lemma {:induction false} ExpandsPrinted(parts: seq<Part>, tail: string, input: string, env: Env, field: string)
    requires Template(parts) && EndsTemplate(tail)
    ensures Expansion(Print(parts) + tail, input, env, field) == Evaluate(parts, tail, input, env, field)
    decreases |parts|
  {
    if parts == [] {
      assert Print(parts) + tail == tail;
      TailExpands(tail, input, env, field);
    } else {
      TemplateTail(parts);
      var rest := Print(parts[1..]) + tail;
      ExpandsPrinted(parts[1..], tail, input, env, field);
      PrintSplits(parts, tail);
      match parts[0]
      case Lit(text) =>
        StartsWithDollar(parts[1..], tail);
        LiteralPasses(text, rest, input, env, field);
      case Var(name) =>
        ReferenceReads(name, rest, input, env, field);
    }
  }

  lemma TailExpands(tail: string, input: string, env: Env, field: string)
    requires EndsTemplate(tail)
    ensures Expansion(tail, input, env, field) == if tail == "" then Ok("") else Err(MalformedEnvRef(field, input))
  {
  }

  lemma PrintSplits(parts: seq<Part>, tail: string)
    requires parts != []
    ensures Print(parts) + tail == PrintPart(parts[0]) + (Print(parts[1..]) + tail)
  {
  }

  /** All ways of reading a text as a template agree on what it expands to. */
  lemma EvaluatesHowever(input: string, env: Env, field: string)
    ensures forall parts, tail :: Decomposes(input, parts, tail) ==>
              Expansion(input, input, env, field) == Evaluate(parts, tail, input, env, field)
  {
    forall parts, tail | Decomposes(input, parts, tail)
      ensures Expansion(input, input, env, field) == Evaluate(parts, tail, input, env, field)
    {
      ExpandsPrinted(parts, tail, input, env, field);
    }
  }

  /** Every text is a printed template with nothing or a broken reference behind it. */
  lemma {:induction false} EveryTextDecomposes(input: string) returns (parts: seq<Part>, tail: string)
    ensures Decomposes(input, parts, tail)
    decreases |input|
  {
    parts, tail := [], "";
    match FirstReference(input)
    case NoReference =>
      parts := LiteralBefore(input, []);
      assert input + "" == input;
    case Unreadable(before) =>
      tail := input[|before|..];
      UnreadableTail(input);
      parts := LiteralBefore(before, []);
      assert before + "" == before;
    case Reference(before, name, after) =>
      var more;
      more, tail := EveryTextDecomposes(after);
      ReadableHead(input);
      assert ([Var(name)] + more)[1..] == more;
      parts := LiteralBefore(before, [Var(name)] + more);
      PrintedThree(before, "${" + name + "}", Print(more), tail);
  }

  lemma PrintedThree(a: string, b: string, c: string, d: string)
    ensures a + b + (c + d) == a + (b + c) + d
  {
  }

  lemma UnreadableTail(input: string)
    requires FirstReference(input).Unreadable?
    ensures var before := FirstReference(input).before;
            && |before| <= |input| && input == before + input[|before|..]
            && !Contains(before, "${") && Broken(input[|before|..])
  {
    var start := Find(input, "${").value;
    NoOpenerBefore(input, start);
    var tail := input[start..];
    assert tail[0..2] == input[start..start + 2];
    FindIs(tail, "${", 0);
    assert tail[2..] == input[start + 2..];
  }

  lemma ReadableHead(input: string)
    requires FirstReference(input).Reference?
    ensures var r := FirstReference(input);
            !Contains(r.before, "${") && input == r.before + ("${" + r.name + "}") + r.after
  {
    var start := Find(input, "${").value;
    NoOpenerBefore(input, start);
    var afterDollar := input[start + 2..];
    var end := Find(afterDollar, "}").value;
    AtSplits(input, "${", start);
    AtSplits(afterDollar, "}", end);
    Regroup(input[..start], "${", afterDollar[..end], "}", afterDollar[end + 1..]);
  }

  lemma Regroup(a: string, b: string, c: string, d: string, e: string)
    ensures a + b + (c + d + e) == a + (b + c + d) + e
  {
  }

  lemma NoOpenerBefore(s: string, start: nat)
    requires Find(s, "${") == Some(start)
    ensures !Contains(s[..start], "${")
  {
    forall k: nat
      ensures !At(s[..start], "${", k)
    {
      if k + 2 <= start {
        AtPrefix(s[..start], s[start..], "${", k);
        assert s == s[..start] + s[start..];
      }
    }
  }

  /** The parts with a literal in front, unless that literal is empty. */
  ghost function LiteralBefore(text: string, parts: seq<Part>): (r: seq<Part>)
    requires Template(parts) && !Contains(text, "${")
    requires parts != [] ==> parts[0].Var?
    ensures Template(r) && Print(r) == text + Print(parts)
  {
    if text == "" then parts
    else
      assert ([Lit(text)] + parts)[1..] == parts;
      [Lit(text)] + parts
  }

  /** Expansion succeeds exactly on printed templates whose variables are all set. */
  lemma SucceedsIffTemplate(input: string, env: Env, field: string)
    ensures Expansion(input, input, env, field).Ok?
       <==> exists parts :: Template(parts) && AllSet(parts, env) && input == Print(parts)
    ensures forall parts :: Template(parts) && AllSet(parts, env) && input == Print(parts) ==>
              Expansion(input, input, env, field) == Ok(Substitute(parts, env))
  {
    forall parts | Template(parts) && AllSet(parts, env) && input == Print(parts)
      ensures Expansion(input, input, env, field) == Ok(Substitute(parts, env))
    {
      assert Print(parts) + "" == input;
      ExpandsPrinted(parts, "", input, env, field);
      AllSetEvaluates(parts, "", input, env, field);
    }
    var parts, tail := EveryTextDecomposes(input);
    ExpandsPrinted(parts, tail, input, env, field);
    AllSetEvaluates(parts, tail, input, env, field);
    assert tail == "" ==> input == Print(parts);
  }

  /** A failure is true of the text: the variable it names is unset and is referred to,
      or the whole text is quoted and has an opener. */
  ghost predicate Blames(e: ExpandError, input: string, env: Env, field: string) {
    e.field == field
    && match e
       case MissingEnvVar(name, _) => name !in env && IsValidEnvName(name) && Contains(input, "${" + name + "}")
       case MalformedEnvRef(_, text) => text == input && Contains(input, "${")
  }

  lemma {:induction false} FailureIsTrue(input: string, read: string, rest: string, env: Env, field: string)
    requires input == read + rest
    ensures var r := Expansion(rest, input, env, field); r.Err? ==> Blames(r.error, input, env, field)
    decreases |rest|
  {
    match Find(rest, "${") {
      case None =>
      case Some(start) =>
        AtShift(read, rest, "${", start);
        assert Contains(input, "${");
        var b := FirstReference(rest);
        if b.Reference? {
          ReferenceStands(read, rest, b);
          FailureIsTrue(input, read + b.before + ("${" + b.name + "}"), b.after, env, field);
        }
    }
  }

  /** A reference that has been read stands in the text. */
  lemma ReferenceStands(read: string, rest: string, b: Beginning)
    requires b == FirstReference(rest) && b.Reference?
    ensures Contains(read + rest, "${" + b.name + "}")
    ensures read + rest == read + b.before + ("${" + b.name + "}") + b.after
  {
    ReadableHead(rest);
    var whole := "${" + b.name + "}";
    AppendAssoc(read, b.before + whole, b.after);
    AppendAssoc(read, b.before, whole);
    StandsBetween(read + b.before, whole, b.after);
  }

  lemma StandsBetween(a: string, p: string, z: string)
    ensures Contains(a + p + z, p)
  {
    assert (a + p + z)[|a|..|a| + |p|] == p;
    assert At(a + p + z, p, |a|);
  }

  ghost predicate AllSet(parts: seq<Part>, env: Env) {
    forall i :: 0 <= i < |parts| && parts[i].Var? ==> parts[i].name in env
  }

  function Substitute(parts: seq<Part>, env: Env): string
    requires AllSet(parts, env)
  {
    if parts == [] then ""
    else (if parts[0].Lit? then parts[0].text else env[parts[0].name]) + Substitute(parts[1..], env)
  }

  lemma {:induction false} AllSetEvaluates(parts: seq<Part>, tail: string, input: string, env: Env, field: string)
    ensures Evaluate(parts, tail, input, env, field).Ok? <==> AllSet(parts, env) && tail == ""
    ensures AllSet(parts, env) ==>
              Evaluate(parts, tail, input, env, field)
              == if tail == "" then Ok(Substitute(parts, env)) else Err(MalformedEnvRef(field, input))
    decreases |parts|
  {
    if parts != [] {
      AllSetEvaluates(parts[1..], tail, input, env, field);
    }
  }
}
