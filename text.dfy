/** The Python string operations the source relies on: `str.strip()`, `sep.join(xs)`,
    `s.split("\n")` and `str.title()`. Whitespace is Python's own `str.isspace()` set;
    letter case is modelled over ASCII letters only. */
module Text {
  import opened Seqs

  /** The characters Python's `str.isspace()` accepts (and `str.strip()` removes). */
  predicate IsSpace(c: char) {
    || '\t' <= c <= '\r'
    || '\U{1C}' <= c <= '\U{1F}'
    || c == ' ' || c == '\U{85}' || c == '\U{A0}' || c == '\U{1680}'
    || '\U{2000}' <= c <= '\U{200A}'
    || c == '\U{2028}' || c == '\U{2029}' || c == '\U{202F}' || c == '\U{205F}' || c == '\U{3000}'
  }

  /** A blank string: only whitespace, or nothing at all. `s.strip()` is falsy exactly for
      these (StripEmptyIffBlank). */
  predicate AllSpace(s: string) {
    forall i :: 0 <= i < |s| ==> IsSpace(s[i])
  }

  /** `s.lstrip()` */
  function TrimStart(s: string): (r: string)
    ensures |r| <= |s| && r == s[|s| - |r|..]
    ensures AllSpace(s[..|s| - |r|])
    ensures r == [] || !IsSpace(r[0])
    decreases |s|
  {
    if s != [] && IsSpace(s[0]) then
      var r := TrimStart(s[1..]);
      assert s[..|s| - |r|] == [s[0]] + s[1..][..|s| - 1 - |r|];
      r
    else s
  }

  /** Left-stripping stops inside the first part when that part is not all whitespace. */
  lemma {:induction false} TrimStartAppend(a: string, b: string)
    requires !AllSpace(a)
    ensures TrimStart(a + b) == TrimStart(a) + b
    decreases |a|
  {
    assert a != [];
    assert (a + b)[0] == a[0] && (a + b)[1..] == a[1..] + b;
    if IsSpace(a[0]) {
      TrimStartAppend(a[1..], b);
    }
  }

  /** `s.rstrip()` */
  function TrimEnd(s: string): (r: string)
    ensures |r| <= |s| && r == s[..|r|]
    ensures AllSpace(s[|r|..])
    ensures r == [] || !IsSpace(r[|r| - 1])
    decreases |s|
  {
    if s != [] && IsSpace(s[|s| - 1]) then
      var t := s[..|s| - 1];
      var r := TrimEnd(t);
      assert s[|r|..] == t[|r|..] + [s[|s| - 1]];
      r
    else s
  }

  /** `s.strip()`: the infix of `s` left once the whitespace at both ends is removed. */
  function Strip(s: string): (r: string)
    ensures r == [] || (!IsSpace(r[0]) && !IsSpace(r[|r| - 1]))
    ensures r == [] ==> AllSpace(s)
  {
    TrimStart(TrimEnd(s))
  }

  /** `r` sits at position `i` of `s` with only whitespace before and after it. */
  predicate SpacedInfixAt(s: string, r: string, i: nat) {
    i + |r| <= |s| && r == s[i..i + |r|] && AllSpace(s[..i]) && AllSpace(s[i + |r|..])
  }

  /** A suffix `r` of a prefix `t` of `s`, with whitespace in between and after, is a
      spaced infix of `s`. */
  lemma SpacedInfixOfTrims(s: string, t: string, r: string)
    requires |t| <= |s| && t == s[..|t|] && AllSpace(s[|t|..])
    requires |r| <= |t| && r == t[|t| - |r|..] && AllSpace(t[..|t| - |r|])
    ensures SpacedInfixAt(s, r, |t| - |r|)
  {
    var i := |t| - |r|;
    assert s[..i] == t[..i];
    assert s[i..i + |r|] == t[i..];
  }

  /** What `strip` returns is an infix of its argument with only whitespace around it. */
  lemma StripIsInfix(s: string)
    ensures exists i: nat :: SpacedInfixAt(s, Strip(s), i)
  {
    var t := TrimEnd(s);
    var r := TrimStart(t);
    SpacedInfixOfTrims(s, t, r);
    assert Strip(s) == r;
    assert SpacedInfixAt(s, Strip(s), |t| - |r|);
  }

  predicate IsNonEmpty(s: string) {
    s != ""
  }

  lemma TrimStartOfNonSpace(s: string)
    requires s == [] || !IsSpace(s[0])
    ensures TrimStart(s) == s
  {
  }

  lemma TrimEndOfNonSpace(s: string)
    requires s == [] || !IsSpace(s[|s| - 1])
    ensures TrimEnd(s) == s
  {
  }

  /** Leading whitespace does not change what `lstrip` leaves. */
  lemma {:induction false} TrimStartSkipsSpace(a: string, s: string)
    requires AllSpace(a)
    ensures TrimStart(a + s) == TrimStart(s)
    decreases |a|
  {
    if a != [] {
      assert (a + s)[1..] == a[1..] + s;
      TrimStartSkipsSpace(a[1..], s);
    } else {
      assert a + s == s;
    }
  }

  /** Trailing whitespace does not change what `rstrip` leaves. */
  lemma {:induction false} TrimEndSkipsSpace(s: string, b: string)
    requires AllSpace(b)
    ensures TrimEnd(s + b) == TrimEnd(s)
    decreases |b|
  {
    if b != [] {
      assert (s + b)[..|s + b| - 1] == s + b[..|b| - 1];
      TrimEndSkipsSpace(s, b[..|b| - 1]);
    } else {
      assert s + b == s;
    }
  }

  /** `strip` is determined by its meaning: whatever sits between whitespace-only ends and
      neither starts nor ends with whitespace is exactly what `strip` returns. */
  lemma StripUnique(a: string, m: string, b: string)
    requires AllSpace(a) && AllSpace(b)
    requires m == [] || (!IsSpace(m[0]) && !IsSpace(m[|m| - 1]))
    ensures Strip(a + m + b) == m
  {
    TrimEndSkipsSpace(a + m, b);
    if m == [] {
      assert a + m == a;
      var t := TrimEnd(a);
      assert t == a[..|t|];
      assert t == [];
    } else {
      assert (a + m)[|a + m| - 1] == m[|m| - 1];
      TrimEndOfNonSpace(a + m);
      TrimStartSkipsSpace(a, m);
      TrimStartOfNonSpace(m);
    }
  }

  /** Stripping an already stripped string changes nothing. */
  lemma StripIdempotent(s: string)
    ensures Strip(Strip(s)) == Strip(s)
  {
    var r := Strip(s);
    assert [] + r + [] == r;
    StripUnique([], r, []);
  }

  /** `s.strip()` is empty exactly when the string is blank. */
  lemma StripEmptyIffBlank(s: string)
    ensures Strip(s) == "" <==> AllSpace(s)
  {
    if AllSpace(s) {
      assert s + [] + [] == s;
      StripUnique(s, [], []);
    }
  }

  /** `sep.join(xs)` */
  function Join(xs: seq<string>, sep: string): (r: string)
    ensures xs != [] ==> |xs[0]| <= |r| && r[..|xs[0]|] == xs[0]
    decreases |xs|
  {
    if xs == [] then ""
    else if |xs| == 1 then xs[0]
    else xs[0] + sep + Join(xs[1..], sep)
  }

  /** Joining two lists is joining each and putting one separator between them. */
  lemma {:induction false} JoinAppend(a: seq<string>, b: seq<string>, sep: string)
    ensures Join(a + b, sep) ==
      if a == [] then Join(b, sep)
      else if b == [] then Join(a, sep)
      else Join(a, sep) + sep + Join(b, sep)
    decreases |a|
  {
    if a == [] {
      assert a + b == b;
    } else if b == [] {
      assert a + b == a;
    } else if |a| == 1 {
      assert (a + b)[1..] == b;
    } else {
      assert (a + b)[1..] == a[1..] + b;
      JoinAppend(a[1..], b, sep);
    }
  }

  /** Two lists whose pieces join to the same strings, and are empty together, join to the same string. */
  lemma JoinConcatAgree(a1: seq<string>, a2: seq<string>, b1: seq<string>, b2: seq<string>, sep: string)
    requires Join(a1, sep) == Join(b1, sep) && (a1 == [] <==> b1 == [])
    requires Join(a2, sep) == Join(b2, sep) && (a2 == [] <==> b2 == [])
    ensures Join(a1 + a2, sep) == Join(b1 + b2, sep)
    ensures a1 + a2 == [] <==> b1 + b2 == []
  {
    JoinAppend(a1, a2, sep);
    JoinAppend(b1, b2, sep);
  }

  /** `sep.join([x for x in xs if x])`: the non-empty fields joined. */
  function JoinPresent(xs: seq<string>, sep: string): (r: string)
    ensures r == "" <==> forall i :: 0 <= i < |xs| ==> xs[i] == ""
  {
    var kept := Filter(IsNonEmpty, xs);
    FilterEmptyIff(IsNonEmpty, xs);
    assert kept != [] ==> Join(kept, sep) != "" by {
      if kept != [] {
        FilterFirst(IsNonEmpty, xs);
        assert Join(kept, sep)[..|kept[0]|] == kept[0];
      }
    }
    Join(kept, sep)
  }

  /** When no piece is empty, nothing is dropped before joining. */
  lemma JoinPresentOfPresent(xs: seq<string>, sep: string)
    requires forall i :: 0 <= i < |xs| ==> xs[i] != ""
    ensures JoinPresent(xs, sep) == Join(xs, sep)
  {
    FilterAll(IsNonEmpty, xs);
  }

  /** Empty strings make no difference to what is joined. */
  lemma JoinPresentSkipsEmpty(a: seq<string>, b: seq<string>, sep: string)
    ensures JoinPresent(a + [""] + b, sep) == JoinPresent(a + b, sep)
  {
    FilterAppend(IsNonEmpty, a + [""], b);
    FilterAppend(IsNonEmpty, a, [""]);
    FilterAppend(IsNonEmpty, a, b);
    assert Filter(IsNonEmpty, [""]) == [] by {
      assert !IsNonEmpty([""][0]);
    }
    assert Filter(IsNonEmpty, a) + [] == Filter(IsNonEmpty, a);
  }

  /** Stripping text that ends in a non-space and does not start with blank text only
      removes the leading whitespace of its first part. */
  lemma StripAfterFirstPart(a: string, b: string)
    requires !AllSpace(a)
    requires b != [] && !IsSpace(b[|b| - 1])
    ensures Strip(a + b) == TrimStart(a) + b
  {
    TrimEndOfNonSpace(a + b);
    TrimStartAppend(a, b);
  }

  /** Prepending a character to the first piece prepends it to the join. */
  lemma JoinPrependFirst(c: char, xs: seq<string>, sep: string)
    requires xs != []
    ensures Join([[c] + xs[0]] + xs[1..], sep) == [c] + Join(xs, sep)
  {
    var ys := [[c] + xs[0]] + xs[1..];
    if |xs| > 1 {
      assert ys[1..] == xs[1..];
    }
  }

  /** `s.split("\n")`: always one more piece than there are newlines. */
  function SplitLines(s: string): (r: seq<string>)
    ensures |r| >= 1
    ensures forall i :: 0 <= i < |r| ==> '\n' !in r[i]
    ensures Join(r, "\n") == s
    decreases |s|
  {
    if s == [] then [""]
    else
      var rest := SplitLines(s[1..]);
      assert s == [s[0]] + s[1..];
      if s[0] == '\n' then
        (assert ([""] + rest)[1..] == rest;
         [""] + rest)
      else
        (JoinPrependFirst(s[0], rest, "\n");
         [[s[0]] + rest[0]] + rest[1..])
  }

  lemma {:induction false} SplitLinesOfLine(x: string)
    requires '\n' !in x
    ensures SplitLines(x) == [x]
    decreases |x|
  {
    if x != [] {
      assert x == [x[0]] + x[1..];
      SplitLinesOfLine(x[1..]);
    }
  }

  lemma {:induction false} SplitLinesAfterLine(x: string, y: string)
    requires '\n' !in x
    ensures SplitLines(x + "\n" + y) == [x] + SplitLines(y)
    decreases |x|
  {
    if x == [] {
      assert (x + "\n" + y)[1..] == y;
    } else {
      assert (x + "\n" + y)[1..] == x[1..] + "\n" + y;
      assert x == [x[0]] + x[1..];
      SplitLinesAfterLine(x[1..], y);
    }
  }

  /** Splitting a newline-free list joined by newlines gives the list back. */
  lemma {:induction false} SplitJoinRoundTrip(xs: seq<string>)
    requires xs != []
    requires forall i :: 0 <= i < |xs| ==> '\n' !in xs[i]
    ensures SplitLines(Join(xs, "\n")) == xs
    decreases |xs|
  {
    if |xs| == 1 {
      SplitLinesOfLine(xs[0]);
    } else {
      SplitJoinRoundTrip(xs[1..]);
      SplitLinesAfterLine(xs[0], Join(xs[1..], "\n"));
      assert xs == [xs[0]] + xs[1..];
    }
  }

  predicate IsLetter(c: char) {
    'a' <= c <= 'z' || 'A' <= c <= 'Z'
  }

  function Upper(c: char): char {
    if 'a' <= c <= 'z' then c - 'a' + 'A' else c
  }

  function Lower(c: char): char {
    if 'A' <= c <= 'Z' then c - 'A' + 'a' else c
  }

  /** `str.title()` from a given state: `afterLetter` is whether the previous character was cased. */
  function TitleFrom(s: string, afterLetter: bool): (r: string)
    ensures |r| == |s|
    ensures forall i :: 0 <= i < |s| ==> (IsLetter(r[i]) <==> IsLetter(s[i]))
    ensures forall i :: 0 <= i < |s| && !IsLetter(s[i]) ==> r[i] == s[i]
    decreases |s|
  {
    if s == [] then []
    else
      var c := s[0];
      [if !IsLetter(c) then c else if afterLetter then Lower(c) else Upper(c)]
        + TitleFrom(s[1..], IsLetter(c))
  }

  /** `s.title()`: every letter that follows a letter is lower-cased, every other letter upper-cased. */
  function TitleCase(s: string): (r: string)
    ensures |r| == |s|
    ensures forall i :: 0 <= i < |s| && !IsLetter(s[i]) ==> r[i] == s[i]
  {
    TitleFrom(s, false)
  }

  lemma {:induction false} TitleFromAt(s: string, afterLetter: bool, i: nat)
    requires i < |s| && IsLetter(s[i])
    ensures TitleFrom(s, afterLetter)[i] ==
      if (if i == 0 then afterLetter else IsLetter(s[i - 1])) then Lower(s[i]) else Upper(s[i])
    decreases i
  {
    if i > 0 {
      TitleFromAt(s[1..], IsLetter(s[0]), i - 1);
    }
  }

  /** Character by character: a letter is upper-cased at the start of a word and lower-cased inside it. */
  lemma TitleCaseAt(s: string, i: nat)
    requires i < |s| && IsLetter(s[i])
    ensures TitleCase(s)[i] == if i > 0 && IsLetter(s[i - 1]) then Lower(s[i]) else Upper(s[i])
  {
    TitleFromAt(s, false, i);
  }

  /** A word of lower-case letters is left alone once inside a word. */
  lemma {:induction false} TitleFromLowerWord(s: string)
    requires forall i :: 0 <= i < |s| ==> 'a' <= s[i] <= 'z'
    ensures TitleFrom(s, true) == s
    decreases |s|
  {
    if s != [] {
      TitleFromLowerWord(s[1..]);
      assert s == [s[0]] + s[1..];
    }
  }

  /** A non-empty word of lower-case ASCII letters. */
  predicate LowerWord(s: string) {
    s != [] && forall i :: 0 <= i < |s| ==> 'a' <= s[i] <= 'z'
  }

  /** Title-casing a lower-case word upper-cases its first letter only, and the result
      does not start with white space. */
  lemma TitleCaseLowerWord(s: string)
    requires LowerWord(s)
    ensures TitleCase(s) == [Upper(s[0])] + s[1..]
    ensures !IsSpace(TitleCase(s)[0])
  {
    TitleFromLowerWord(s[1..]);
  }

  lemma {:induction false} TitleFromIdempotent(s: string, afterLetter: bool)
    ensures TitleFrom(TitleFrom(s, afterLetter), afterLetter) == TitleFrom(s, afterLetter)
    decreases |s|
  {
    if s != [] {
      var r := TitleFrom(s, afterLetter);
      assert r[1..] == TitleFrom(s[1..], IsLetter(s[0]));
      TitleFromIdempotent(s[1..], IsLetter(s[0]));
    }
  }

  /** Title-casing a title-cased string changes nothing. */
  lemma TitleCaseIdempotent(s: string)
    ensures TitleCase(TitleCase(s)) == TitleCase(s)
  {
    TitleFromIdempotent(s, false);
  }
}
