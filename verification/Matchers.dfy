/** Request matchers of routing rules (src/routing/matchers.rs). Regular expressions
    are an oracle: `isMatch(pattern, text)`. */
module Matchers {
  import opened Wrappers

  const TWO_TO_THE_32: nat := 0x1_0000_0000

  datatype Message = Message(role: string, content: string)

  datatype Request = Request(messages: seq<Message>, stream: bool)

  type Headers = seq<(string, string)>

  /** What rules look at; `headers` in the order the hash map happens to yield them. */
  datatype MatchContext = MatchContext(
    stream: bool, promptTokens: nat, messageCount: nat, hasSystemPrompt: bool,
    lastUserContent: Option<string>, headers: Headers)

  datatype Matchers = Matchers(
    stream: Option<bool>, promptTokensGte: Option<nat>, promptTokensLte: Option<nat>,
    messageCountGte: Option<nat>, messageCountLte: Option<nat>, hasSystemPrompt: Option<bool>,
    contentRegex: Option<string>, headerEquals: Headers)
  {
    /** No field is set: the rule is a catch-all. */
    predicate IsEmpty() {
      && stream.None? && promptTokensGte.None? && promptTokensLte.None?
      && messageCountGte.None? && messageCountLte.None? && hasSystemPrompt.None?
      && contentRegex.None? && headerEquals == []
    }

    predicate Matches(ctx: MatchContext, isMatch: (string, string) -> bool) {
      && (stream.Some? ==> ctx.stream == stream.value)
      && (promptTokensGte.Some? ==> ctx.promptTokens >= promptTokensGte.value)
      && (promptTokensLte.Some? ==> ctx.promptTokens <= promptTokensLte.value)
      && (messageCountGte.Some? ==> ctx.messageCount >= messageCountGte.value)
      && (messageCountLte.Some? ==> ctx.messageCount <= messageCountLte.value)
      && (hasSystemPrompt.Some? ==> ctx.hasSystemPrompt == hasSystemPrompt.value)
      && (contentRegex.Some? ==>
            isMatch(contentRegex.value, if ctx.lastUserContent.Some? then ctx.lastUserContent.value else ""))
      && forall i :: 0 <= i < |headerEquals| ==>
           Lookup(ctx.headers, headerEquals[i].0) == Some(headerEquals[i].1)
    }
  }

  function LowerChar(c: char): char {
    if 'A' <= c <= 'Z' then (c as int + 32) as char else c
  }

  function Lower(s: string): (r: string) {
    seq(|s|, i requires 0 <= i < |s| => LowerChar(s[i]))
  }

  /** Two characters that a header name does not tell apart. */
  ghost predicate SameLetter(a: char, b: char) {
    a == b || ('A' <= a <= 'Z' && b as int == a as int + 32) || ('A' <= b <= 'Z' && a as int == b as int + 32)
  }

  lemma LowerIff(a: string, b: string)
    ensures Lower(a) == Lower(b) <==> |a| == |b| && forall i :: 0 <= i < |a| ==> SameLetter(a[i], b[i])
  {
    forall i | 0 <= i < |a| && i < |b|
      ensures Lower(a)[i] == Lower(b)[i] <==> SameLetter(a[i], b[i])
    {
    }
    if Lower(a) == Lower(b) {
      assert |a| == |Lower(a)| == |b|;
    }
  }

  /** Value of the first header whose name agrees up to ASCII case. */
  function Lookup(headers: Headers, name: string): (r: Option<string>)
    ensures r.Some? ==> exists i :: 0 <= i < |headers| && Lower(headers[i].0) == Lower(name) && headers[i].1 == r.value
    ensures r.None? ==> forall i :: 0 <= i < |headers| ==> Lower(headers[i].0) != Lower(name)
  {
    if headers == [] then None
    else if Lower(headers[0].0) == Lower(name) then Some(headers[0].1)
    else
      var r := Lookup(headers[1..], name);
      assert r.Some? ==> forall i :: 0 <= i < |headers| - 1 ==> headers[1..][i] == headers[i + 1];
      assert forall i :: 1 <= i < |headers| ==> headers[i] == headers[1..][i - 1];
      r
  }

  /** Index of the first header of this name, case aside, if it has this value. */
  ghost predicate FirstHolds(headers: Headers, name: string, value: string) {
    exists i :: 0 <= i < |headers| && Lower(headers[i].0) == Lower(name) && headers[i].1 == value
                && forall j :: 0 <= j < i ==> Lower(headers[j].0) != Lower(name)
  }

  lemma {:induction false} LookupFirst(headers: Headers, name: string, value: string)
    ensures Lookup(headers, name) == Some(value) <==> FirstHolds(headers, name, value)
    decreases |headers|
  {
    if headers != [] && Lower(headers[0].0) != Lower(name) {
      var rest := headers[1..];
      LookupFirst(rest, name, value);
      if FirstHolds(rest, name, value) {
        var i :| 0 <= i < |rest| && Lower(rest[i].0) == Lower(name) && rest[i].1 == value
                 && forall j :: 0 <= j < i ==> Lower(rest[j].0) != Lower(name);
        assert forall j :: 0 <= j < i + 1 ==> Lower(headers[j].0) != Lower(name) by {
          assert forall j :: 1 <= j < i + 1 ==> headers[j] == rest[j - 1];
        }
        assert headers[i + 1] == rest[i];
      }
      if FirstHolds(headers, name, value) {
        var i :| 0 <= i < |headers| && Lower(headers[i].0) == Lower(name) && headers[i].1 == value
                 && forall j :: 0 <= j < i ==> Lower(headers[j].0) != Lower(name);
        assert rest[i - 1] == headers[i];
        assert forall j :: 0 <= j < i - 1 ==> rest[j] == headers[j + 1];
      }
    }
  }

  /** A rule is passed over exactly if a field that is set is violated: the checks one
      after the other, each of which can only turn the request away. */
  lemma RejectsIff(m: Matchers, ctx: MatchContext, isMatch: (string, string) -> bool)
    ensures !m.Matches(ctx, isMatch) <==>
              || m.stream == Some(!ctx.stream)
              || (exists least :: m.promptTokensGte == Some(least) && ctx.promptTokens < least)
              || (exists most :: m.promptTokensLte == Some(most) && most < ctx.promptTokens)
              || (exists least :: m.messageCountGte == Some(least) && ctx.messageCount < least)
              || (exists most :: m.messageCountLte == Some(most) && most < ctx.messageCount)
              || m.hasSystemPrompt == Some(!ctx.hasSystemPrompt)
              || (exists pattern :: m.contentRegex == Some(pattern)
                                    && match ctx.lastUserContent
                                       case None => !isMatch(pattern, "")
                                       case Some(content) => !isMatch(pattern, content))
              || exists i :: 0 <= i < |m.headerEquals|
                             && !FirstHolds(ctx.headers, m.headerEquals[i].0, m.headerEquals[i].1)
  {
    forall i | 0 <= i < |m.headerEquals|
      ensures Lookup(ctx.headers, m.headerEquals[i].0) == Some(m.headerEquals[i].1)
              <==> FirstHolds(ctx.headers, m.headerEquals[i].0, m.headerEquals[i].1)
    {
      LookupFirst(ctx.headers, m.headerEquals[i].0, m.headerEquals[i].1);
    }
  }

  /** No two headers differ only in the case of their names. */
  ghost predicate NamesDistinct(headers: Headers) {
    forall i, j :: 0 <= i < |headers| && 0 <= j < |headers| && Lower(headers[i].0) == Lower(headers[j].0) ==> i == j
  }

  /** The answer does not depend on the order in which the map yields the headers. */
  lemma MatchesIgnoresHeaderOrder(m: Matchers, ctx: MatchContext, headers: Headers, isMatch: (string, string) -> bool)
    requires NamesDistinct(ctx.headers) && NamesDistinct(headers)
    requires forall h :: h in headers <==> h in ctx.headers
    ensures m.Matches(ctx.(headers := headers), isMatch) == m.Matches(ctx, isMatch)
  {
    forall name: string
      ensures Lookup(headers, name) == Lookup(ctx.headers, name)
    {
      LookupAgrees(headers, ctx.headers, name);
      LookupAgrees(ctx.headers, headers, name);
    }
  }

  lemma LookupAgrees(a: Headers, b: Headers, name: string)
    requires NamesDistinct(b) && forall h :: h in a ==> h in b
    ensures Lookup(a, name).Some? ==> Lookup(b, name) == Lookup(a, name)
  {
    if Lookup(a, name).Some? {
      var i :| 0 <= i < |a| && Lower(a[i].0) == Lower(name) && a[i].1 == Lookup(a, name).value;
      assert a[i] in b;
      var j :| 0 <= j < |b| && b[j] == a[i];
      assert Lookup(b, name).Some?;
      var k :| 0 <= k < |b| && Lower(b[k].0) == Lower(name) && b[k].1 == Lookup(b, name).value;
      assert k == j;
    }
  }

  // ---------- what a request looks like to the rules ----------

  function TotalChars(messages: seq<Message>): nat {
    if messages == [] then 0 else |messages[0].content| + TotalChars(messages[1..])
  }

  function LastUser(messages: seq<Message>): (r: Option<string>)
    ensures r.None? <==> forall i :: 0 <= i < |messages| ==> messages[i].role != "user"
    ensures r.Some? ==> exists i :: 0 <= i < |messages| && messages[i] == Message("user", r.value)
                                    && forall j :: i < j < |messages| ==> messages[j].role != "user"
  {
    if messages == [] then None
    else
      var n := |messages| - 1;
      if messages[n].role == "user" then
        assert messages[n] == Message("user", messages[n].content);
        Some(messages[n].content)
      else
        LastUser(messages[..n])
  }

  /** Sizes are narrowed to 32 bits the way a cast does. */
  function FromRequest(request: Request, headers: Headers): MatchContext {
    MatchContext(
      request.stream,
      TotalChars(request.messages) / 4 % TWO_TO_THE_32,
      |request.messages| % TWO_TO_THE_32,
      exists i :: 0 <= i < |request.messages| && request.messages[i].role == "system",
      LastUser(request.messages),
      headers)
  }

  lemma {:induction false} TotalCharsAdds(a: seq<Message>, b: seq<Message>)
    ensures TotalChars(a + b) == TotalChars(a) + TotalChars(b)
    ensures |a| == 1 ==> TotalChars(a) == |a[0].content|
    decreases |a|
  {
    if a == [] {
      assert a + b == b;
    } else {
      TotalCharsAdds(a[1..], b);
      assert (a + b)[1..] == a[1..] + b;
    }
  }

  /** What the rules are told of a request: below 2^32 the message count is the true one
      and a token stands for four characters, the rest cut off. */
  lemma ContextOf(request: Request, headers: Headers)
    ensures var ctx := FromRequest(request, headers);
            && ctx.stream == request.stream && ctx.headers == headers
            && (|request.messages| < TWO_TO_THE_32 ==> ctx.messageCount == |request.messages|)
            && ctx.messageCount < TWO_TO_THE_32 && ctx.promptTokens < TWO_TO_THE_32
            && (TotalChars(request.messages) < 4 * TWO_TO_THE_32 ==>
                  4 * ctx.promptTokens <= TotalChars(request.messages) < 4 * (ctx.promptTokens + 1))
            && (ctx.hasSystemPrompt <==> exists m :: m in request.messages && m.role == "system")
            && (ctx.lastUserContent.None? <==> !exists m :: m in request.messages && m.role == "user")
            && (ctx.lastUserContent.Some? ==> Message("user", ctx.lastUserContent.value) in request.messages)
  {
    var ctx := FromRequest(request, headers);
    if exists m :: m in request.messages && m.role == "system" {
      var m :| m in request.messages && m.role == "system";
      var i :| 0 <= i < |request.messages| && request.messages[i] == m;
    }
    if exists m :: m in request.messages && m.role == "user" {
      var m :| m in request.messages && m.role == "user";
      var i :| 0 <= i < |request.messages| && request.messages[i] == m;
    }
  }
}
