/** The string operations the handlers apply to dispatch suffixes and
    messages: str.startswith, str.replace(pattern, ''), str.strip(c) and
    str.join. */
module Strings {

  predicate StartsWith(s: string, prefix: string) {
    |prefix| <= |s| && s[..|prefix|] == prefix
  }

  /** s.endswith(suffix). */
  predicate EndsWith(s: string, suffix: string) {
    |suffix| <= |s| && s[|s| - |suffix|..] == suffix
  }

  /** pattern occurs somewhere in s. */
  predicate Contains(s: string, pattern: string)
    decreases |s|
  {
    StartsWith(s, pattern) || (s != [] && Contains(s[1..], pattern))
  }

  /** s.replace(pattern, ''): scanning from the left, every occurrence that does
      not overlap an earlier removed one is removed. */
  function RemoveAll(s: string, pattern: string): (r: string)
    requires pattern != []
    ensures |r| <= |s|
    decreases |s|
  {
    if |s| < |pattern| then s
    else if s[..|pattern|] == pattern then RemoveAll(s[|pattern|..], pattern)
    else [s[0]] + RemoveAll(s[1..], pattern)
  }

  /** s.lstrip(c): the longest suffix of s that starts with something other
      than c; everything cut off is c. */
  function TrimLeft(s: string, c: char): (r: string)
    ensures |r| <= |s| && r == s[|s| - |r|..]
    ensures forall k :: 0 <= k < |s| - |r| ==> s[k] == c
    ensures r == [] || r[0] != c
    decreases |s|
  {
    if s != [] && s[0] == c then
      var r := TrimLeft(s[1..], c);
      assert s[|s| - |r|..] == s[1..][|s| - 1 - |r|..];
      assert forall k :: 1 <= k < |s| - |r| ==> s[k] == s[1..][k - 1];
      r
    else s
  }

  /** s.rstrip(c): the longest prefix of s that ends with something other than
      c; everything cut off is c. */
  function TrimRight(s: string, c: char): (r: string)
    ensures |r| <= |s| && r == s[..|r|]
    ensures forall k :: |r| <= k < |s| ==> s[k] == c
    ensures r == [] || r[|r| - 1] != c
    decreases |s|
  {
    if s != [] && s[|s| - 1] == c then TrimRight(s[..|s| - 1], c) else s
  }

  /** s.strip(c): the slice of s left after cutting c from both ends; neither
      end of the result is c. */
  function Strip(s: string, c: char): (r: string)
    ensures |r| <= |s|
    ensures r == [] || (r[0] != c && r[|r| - 1] != c)
    ensures exists i, j :: 0 <= i <= j <= |s| && r == s[i..j]
                           && (forall k :: 0 <= k < i ==> s[k] == c)
                           && (forall k :: j <= k < |s| ==> s[k] == c)
  {
    StripIsSlice(s, c);
    TrimRight(TrimLeft(s, c), c)
  }

  /** Cutting c from the left and then from the right leaves a slice of s
      with only c cut off at either end. */
  lemma StripIsSlice(s: string, c: char)
    ensures var r := TrimRight(TrimLeft(s, c), c);
            exists i, j :: 0 <= i <= j <= |s| && r == s[i..j]
                           && (forall k :: 0 <= k < i ==> s[k] == c)
                           && (forall k :: j <= k < |s| ==> s[k] == c)
  {
    var t := TrimLeft(s, c);
    var r := TrimRight(t, c);
    var i := |s| - |t|;
    var j := i + |r|;
    assert t == s[i..] && r == t[..|r|];
    forall k | j <= k < |s|
      ensures s[k] == c
    {
      assert s[k] == t[k - i];
    }
    assert r == s[i..j];
    assert forall k :: 0 <= k < i ==> s[k] == c;
    assert 0 <= i <= j <= |s| && r == s[i..j]
           && (forall k :: 0 <= k < i ==> s[k] == c)
           && (forall k :: j <= k < |s| ==> s[k] == c);
  }

  /** sep.join(items). */
  function Join(items: seq<string>, sep: string): (r: string)
    ensures items == [] ==> r == []
    ensures |items| == 1 ==> r == items[0]
  {
    if items == [] then []
    else if |items| == 1 then items[0]
    else items[0] + sep + Join(items[1..], sep)
  }

  lemma {:induction false} RemoveAllAbsent(s: string, pattern: string)
    requires pattern != []
    requires !Contains(s, pattern)
    ensures RemoveAll(s, pattern) == s
    decreases |s|
  {
    if |s| >= |pattern| {
      assert !StartsWith(s, pattern);
      RemoveAllAbsent(s[1..], pattern);
      assert [s[0]] + s[1..] == s;
    }
  }

  /** A leading occurrence of the pattern is removed and the scan resumes
      right after it. */
  lemma RemoveAllLeading(pattern: string, t: string)
    requires pattern != []
    ensures RemoveAll(pattern + t, pattern) == RemoveAll(t, pattern)
  {
  }

  lemma TrimLeftLeading(c: char, t: string)
    ensures TrimLeft([c] + t, c) == TrimLeft(t, c)
  {
  }

  lemma TrimLeftNoLeading(s: string, c: char)
    requires s == [] || s[0] != c
    ensures TrimLeft(s, c) == s
  {
  }

  lemma TrimRightNoTrailing(s: string, c: char)
    requires s == [] || s[|s| - 1] != c
    ensures TrimRight(s, c) == s
  {
  }
}
