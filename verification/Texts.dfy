/** Substring search, shared by the hand-written text parsers. */
module Texts {
  import opened Wrappers

  predicate At(s: string, p: string, i: nat) {
    i + |p| <= |s| && s[i..i + |p|] == p
  }

  ghost predicate Contains(s: string, p: string) {
    exists i: nat :: At(s, p, i)
  }

  /** Position of the first occurrence at or after `i`. */
  function FindFrom(s: string, p: string, i: nat): (r: Option<nat>)
    requires i <= |s|
    ensures r.Some? ==> i <= r.value && At(s, p, r.value) && forall k: nat :: i <= k < r.value ==> !At(s, p, k)
    ensures r.None? ==> forall k: nat :: i <= k ==> !At(s, p, k)
    decreases |s| - i
  {
    if At(s, p, i) then Some(i)
    else if i == |s| then None
    else FindFrom(s, p, i + 1)
  }

  function Find(s: string, p: string): (r: Option<nat>)
    ensures r.Some? ==> At(s, p, r.value) && forall k: nat :: k < r.value ==> !At(s, p, k)
    ensures r.None? ==> forall k: nat :: !At(s, p, k)
  {
    FindFrom(s, p, 0)
  }

  /** The first occurrence is the only one without an earlier one. */
  lemma FindIs(s: string, p: string, i: nat)
    requires At(s, p, i) && forall k: nat :: k < i ==> !At(s, p, k)
    ensures Find(s, p) == Some(i)
  {
    assert Find(s, p).Some?;
  }

  lemma AtShift(a: string, s: string, p: string, k: nat)
    ensures At(a + s, p, |a| + k) <==> At(s, p, k)
  {
    if k + |p| <= |s| {
      assert (a + s)[|a| + k..|a| + k + |p|] == s[k..k + |p|];
    }
  }

  lemma AtPrefix(a: string, s: string, p: string, k: nat)
    requires k + |p| <= |a|
    ensures At(a + s, p, k) <==> At(a, p, k)
  {
    assert (a + s)[k..k + |p|] == a[k..k + |p|];
  }

  lemma AtSplits(s: string, p: string, i: nat)
    requires At(s, p, i)
    ensures s == s[..i] + p + s[i + |p|..]
  {
    assert s == s[..i] + s[i..i + |p|] + s[i + |p|..];
  }

  /** If no occurrence starts inside `a`, the search continues behind it. */
  lemma FindSkips(a: string, s: string, p: string)
    requires forall k: nat :: k < |a| ==> !At(a + s, p, k)
    ensures Find(a + s, p) == match Find(s, p) case Some(i) => Some(|a| + i) case None => None
  {
    match Find(s, p)
    case Some(i) =>
      AtShift(a, s, p, i);
      forall k: nat | k < |a| + i
        ensures !At(a + s, p, k)
      {
        if k >= |a| {
          AtShift(a, s, p, k - |a|);
        }
      }
      FindIs(a + s, p, |a| + i);
    case None =>
      forall k: nat
        ensures !At(a + s, p, k)
      {
        if k >= |a| {
          AtShift(a, s, p, k - |a|);
        }
      }
      assert Find(a + s, p).None?;
  }

  /** Text appended behind does not change the first occurrence. */
  lemma FindStays(s: string, more: string, p: string)
    requires Find(s, p).Some?
    ensures Find(s + more, p) == Find(s, p)
  {
    var i := Find(s, p).value;
    AtPrefix(s, more, p, i);
    forall k: nat | k < i
      ensures !At(s + more, p, k)
    {
      AtPrefix(s, more, p, k);
    }
    FindIs(s + more, p, i);
  }

  lemma AppendAssoc<T>(a: seq<T>, b: seq<T>, c: seq<T>)
    ensures a + b + c == a + (b + c)
  {
  }
}
