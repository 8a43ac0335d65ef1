/** The few string operations of Python's `str` the bot relies on:
    `strip()` with no argument, `replace(c, "")` for a one-character
    pattern, and `startswith`. Strings are sequences of Unicode scalar
    values, as Python's `str` is a sequence of code points. */
module Text {

  /** The characters Python's `str.isspace()` accepts, which are exactly the
      characters `str.strip()` removes when called without an argument. */
  predicate IsSpace(c: char) {
    || ('\t' <= c <= '\r')                // \t \n \v \f \r
    || ('\U{1c}' <= c <= '\U{1f}')        // file/group/record/unit separators
    || c == ' '
    || c == '\U{85}' || c == '\U{a0}' || c == '\U{1680}'
    || ('\U{2000}' <= c <= '\U{200a}')
    || c == '\U{2028}' || c == '\U{2029}' || c == '\U{202f}'
    || c == '\U{205f}' || c == '\U{3000}'
  }

  ghost predicate AllSpace(s: string) {
    forall i :: 0 <= i < |s| ==> IsSpace(s[i])
  }

  /** Neither end of `s` is whitespace: the shape of every result of `strip()`. */
  ghost predicate Trimmed(s: string) {
    |s| == 0 || (!IsSpace(s[0]) && !IsSpace(s[|s| - 1]))
  }

  /** Length of the longest whitespace prefix of `s`. */
  function LeadingSpaces(s: string): (n: nat)
    ensures n <= |s|
    ensures forall k :: 0 <= k < n ==> IsSpace(s[k])
    ensures n < |s| ==> !IsSpace(s[n])
  {
    if |s| > 0 && IsSpace(s[0]) then
      var m := LeadingSpaces(s[1..]);
      assert forall k :: 1 <= k < m + 1 ==> s[k] == s[1..][k - 1];
      m + 1
    else
      0
  }

  /** Length of the longest whitespace suffix of `s`. */
  function TrailingSpaces(s: string): (n: nat)
    ensures n <= |s|
    ensures forall k :: |s| - n <= k < |s| ==> IsSpace(s[k])
    ensures n < |s| ==> !IsSpace(s[|s| - n - 1])
  {
    if |s| > 0 && IsSpace(s[|s| - 1]) then
      1 + TrailingSpaces(s[..|s| - 1])
    else
      0
  }

  /** Python's `s.strip()`: drop the whitespace at both ends. */
  function Strip(s: string): (r: string)
    ensures |r| <= |s|
    ensures Trimmed(r)
  {
    var rest := s[LeadingSpaces(s)..];
    rest[..|rest| - TrailingSpaces(rest)]
  }

  /** Python's `s.startswith(prefix)`. */
  predicate StartsWith(s: string, prefix: string) {
    |prefix| <= |s| && s[..|prefix|] == prefix
  }

  /** Python's `s.replace(c, "")` for a one-character pattern `c`: every
      occurrence of `c` is dropped and the other characters keep their order. */
  function RemoveAll(s: string, c: char): (r: string)
    ensures c !in r
    ensures |r| <= |s|
  {
    if |s| == 0 then
      []
    else
      var tail := RemoveAll(s[1..], c);
      if s[0] == c then tail else [s[0]] + tail
  }

  /** `RemoveAll` drops every `c` and keeps every other character, as many
      times as it occurs. */
  lemma {:induction false} RemoveAllCounts(s: string, c: char)
    ensures multiset(RemoveAll(s, c)) == multiset(s)[c := 0]
    decreases |s|
  {
    if |s| > 0 {
      RemoveAllCounts(s[1..], c);
      assert s == [s[0]] + s[1..];
    }
  }

  /** `RemoveAll` distributes over concatenation, so it is determined by what
      it does to single characters. */
  lemma {:induction false} RemoveAllAppend(a: string, b: string, c: char)
    ensures RemoveAll(a + b, c) == RemoveAll(a, c) + RemoveAll(b, c)
    decreases |a|
  {
    if |a| == 0 {
      assert a + b == b;
    } else {
      assert (a + b)[1..] == a[1..] + b;
      RemoveAllAppend(a[1..], b, c);
    }
  }

  /** A string without `c` is left unchanged. */
  lemma {:induction false} RemoveAllAbsent(s: string, c: char)
    requires c !in s
    ensures RemoveAll(s, c) == s
    decreases |s|
  {
    if |s| > 0 {
      assert c !in s[1..];
      RemoveAllAbsent(s[1..], c);
    }
  }

  /** Removing `c` twice is the same as removing it once. */
  lemma RemoveAllIdempotent(s: string, c: char)
    ensures RemoveAll(RemoveAll(s, c), c) == RemoveAll(s, c)
  {
    RemoveAllAbsent(RemoveAll(s, c), c);
  }

  /** Removing one character never introduces another one. */
  lemma RemoveAllKeepsAbsence(s: string, c: char, d: char)
    requires d !in s
    ensures d !in RemoveAll(s, c)
  {
    RemoveAllCounts(s, c);
    assert multiset(s)[d] == 0;
  }

  /** `strip()` finds exactly the non-blank core: whatever whitespace
      surrounds a trimmed string, stripping returns that string. */
  lemma StripUnique(a: string, r: string, b: string)
    requires AllSpace(a) && AllSpace(b) && Trimmed(r)
    ensures Strip(a + r + b) == r
  {
    var s := a + r + b;
    if |r| == 0 {
      assert s == a + b;
      LeadingAllSpace(s);
    } else {
      LeadingExact(a, r + b);
      assert s == a + (r + b);
      var rest := s[LeadingSpaces(s)..];
      assert rest == r + b;
      TrailingExact(r, b);
    }
  }

  lemma {:induction false} LeadingAllSpace(s: string)
    requires AllSpace(s)
    ensures LeadingSpaces(s) == |s|
    decreases |s|
  {
    if |s| > 0 {
      LeadingAllSpace(s[1..]);
    }
  }

  lemma {:induction false} LeadingExact(a: string, t: string)
    requires AllSpace(a)
    requires |t| > 0 && !IsSpace(t[0])
    ensures LeadingSpaces(a + t) == |a|
    decreases |a|
  {
    if |a| > 0 {
      assert (a + t)[1..] == a[1..] + t;
      LeadingExact(a[1..], t);
    } else {
      assert a + t == t;
    }
  }

  lemma {:induction false} TrailingExact(t: string, b: string)
    requires AllSpace(b)
    requires |t| > 0 && !IsSpace(t[|t| - 1])
    ensures TrailingSpaces(t + b) == |b|
    ensures (t + b)[..|t + b| - |b|] == t
    decreases |b|
  {
    if |b| > 0 {
      var s := t + b;
      assert s[..|s| - 1] == t + b[..|b| - 1];
      TrailingExact(t, b[..|b| - 1]);
    } else {
      assert t + b == t;
    }
  }

  /** Stripping an already stripped string changes nothing. */
  lemma StripIdempotent(s: string)
    ensures Strip(Strip(s)) == Strip(s)
  {
    var r := Strip(s);
    StripUnique([], r, []);
    assert [] + r + [] == r;
  }

  /** Every string is its stripped core wrapped in whitespace. */
  lemma StripSplit(s: string) returns (a: string, b: string)
    ensures AllSpace(a) && AllSpace(b)
    ensures s == a + Strip(s) + b
  {
    var i, j := StripBounds(s);
    a := s[..i];
    b := s[j..];
    Split3(s, i, j);
  }

  /** `strip()` keeps a slice of its input, with whitespace on either side. */
  lemma StripBounds(s: string) returns (i: nat, j: nat)
    ensures i <= j <= |s|
    ensures Strip(s) == s[i..j]
    ensures AllSpace(s[..i]) && AllSpace(s[j..])
  {
    i := LeadingSpaces(s);
    var rest := s[i..];
    var trail := TrailingSpaces(rest);
    j := |s| - trail;
    assert Strip(s) == s[i..j] by {
      assert rest[..|rest| - trail] == s[i..j];
    }
    SpacePrefix(s, i);
    SpaceSuffix(s, i, j, trail);
  }

  lemma SpacePrefix(s: string, i: nat)
    requires i <= |s|
    requires forall k :: 0 <= k < i ==> IsSpace(s[k])
    ensures AllSpace(s[..i])
  {
  }

  lemma SpaceSuffix(s: string, i: nat, j: nat, trail: nat)
    requires i <= j <= |s| && j == |s| - trail
    requires forall k :: |s[i..]| - trail <= k < |s[i..]| ==> IsSpace(s[i..][k])
    ensures AllSpace(s[j..])
  {
    forall k | 0 <= k < |s| - j
      ensures IsSpace(s[j..][k])
    {
      assert s[j..][k] == s[i..][j - i + k];
    }
  }

  lemma Split3(s: string, i: nat, j: nat)
    requires i <= j <= |s|
    ensures s == s[..i] + s[i..j] + s[j..]
  {
  }


  lemma AllSpaceAppend(x: string, y: string)
    requires AllSpace(x) && AllSpace(y)
    ensures AllSpace(x + y)
  {
    forall i | 0 <= i < |x + y|
      ensures IsSpace((x + y)[i])
    {
      if i < |x| {
        assert (x + y)[i] == x[i];
      } else {
        assert (x + y)[i] == y[i - |x|];
      }
    }
  }

  /** Whitespace added around a string does not change what `strip()` returns. */
  lemma StripIgnoresPadding(a: string, t: string, b: string)
    requires AllSpace(a) && AllSpace(b)
    ensures Strip(a + t + b) == Strip(t)
  {
    var a', b' := StripSplit(t);
    var r := Strip(t);
    AllSpaceAppend(a, a');
    AllSpaceAppend(b', b);
    Regroup(a, a', r, b', b);
    StripUnique(a + a', r, b' + b);
  }

  lemma Regroup(a: string, x: string, r: string, y: string, b: string)
    ensures a + (x + r + y) + b == (a + x) + r + (y + b)
  {
  }

  /** Removing `c` drops an occurrence of `c` wherever it stands. */
  lemma RemoveAllDrop(a: string, c: char, b: string)
    ensures RemoveAll(a + [c] + b, c) == RemoveAll(a + b, c)
  {
    RemoveAllAppend(a + [c], b, c);
    RemoveAllAppend(a, [c], c);
    RemoveAllAppend(a, b, c);
    assert RemoveAll([c], c) == [];
    assert RemoveAll(a, c) + [] == RemoveAll(a, c);
  }

  /** Removing `c` keeps any other character where it stands. */
  lemma RemoveAllKeep(a: string, d: char, b: string, c: char)
    requires d != c
    ensures RemoveAll(a + [d] + b, c) == RemoveAll(a, c) + [d] + RemoveAll(b, c)
  {
    RemoveAllAppend(a + [d], b, c);
    RemoveAllAppend(a, [d], c);
    assert RemoveAll([d], c) == [d];
  }
}
