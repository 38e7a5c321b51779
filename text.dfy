/** The string operations the source relies on: `str.split(sep)`, `sep.join(parts)` and
    `str.strip()`, plus the code-point order on strings that Python's `<` uses. */
module Text {

  /** The characters `str.strip()` removes (its ASCII and Latin-1 whitespace). */
  predicate IsSpace(c: char) {
    c == ' ' || c == '\t' || c == '\n' || c == '\r' || c == '\U{B}' || c == '\U{C}'
    || ('\U{1C}' <= c <= '\U{1F}') || c == '\U{85}' || c == '\U{A0}'
  }

  predicate AllSpace(s: string) {
    forall i :: 0 <= i < |s| ==> IsSpace(s[i])
  }

  /** The number of whitespace characters `s` starts with. */
  function LeadingSpace(s: string): (k: nat)
    ensures k <= |s| && AllSpace(s[..k]) && (k == |s| || !IsSpace(s[k]))
  {
    if s != [] && IsSpace(s[0]) then
      LeadingStep(s, LeadingSpace(s[1..]));
      1 + LeadingSpace(s[1..])
    else 0
  }

  lemma LeadingStep(s: string, k: nat)
    requires s != [] && IsSpace(s[0]) && k <= |s| - 1 && AllSpace(s[1..][..k])
    ensures AllSpace(s[..k + 1])
  {
    forall i | 0 <= i < k + 1 ensures IsSpace(s[i]) {
      if i > 0 { assert s[i] == s[1..][..k][i - 1]; }
    }
  }

  /** The number of whitespace characters `s` ends with. */
  function TrailingSpace(s: string): (k: nat)
    ensures k <= |s| && AllSpace(s[|s| - k..]) && (k == |s| || !IsSpace(s[|s| - k - 1]))
  {
    if s != [] && IsSpace(s[|s| - 1]) then
      TrailingStep(s, TrailingSpace(s[..|s| - 1]));
      1 + TrailingSpace(s[..|s| - 1])
    else 0
  }

  lemma TrailingStep(s: string, k: nat)
    requires s != [] && IsSpace(s[|s| - 1]) && k <= |s| - 1 && AllSpace(s[..|s| - 1][|s| - 1 - k..])
    ensures AllSpace(s[|s| - 1 - k..])
  {
    var t := s[|s| - 1 - k..];
    forall i | 0 <= i < |t| ensures IsSpace(t[i]) {
      if i < k { assert t[i] == s[..|s| - 1][|s| - 1 - k..][i]; }
    }
  }

  /** `s.strip()`: `s` with its leading and trailing whitespace removed. */
  function Strip(s: string): (r: string)
    ensures exists i, j :: 0 <= i <= j <= |s| && AllSpace(s[..i]) && AllSpace(s[j..]) && r == s[i..j]
    ensures r == [] || (!IsSpace(r[0]) && !IsSpace(r[|r| - 1]))
  {
    var i := LeadingSpace(s);
    StripBounds(s, i, s[i..], |s| - TrailingSpace(s[i..]));
    StripEnds(s, i, s[i..], |s| - TrailingSpace(s[i..]));
    s[i..][..|s| - i - TrailingSpace(s[i..])]
  }

  lemma StripBounds(s: string, i: nat, t: string, j: int)
    requires i == LeadingSpace(s) && t == s[i..] && j == |s| - TrailingSpace(t)
    ensures i <= j <= |s| && AllSpace(s[..i]) && AllSpace(s[j..]) && t[..j - i] == s[i..j]
  {
    assert AllSpace(t[j - i..]);
    assert s[j..] == t[j - i..];
  }

  lemma StripEnds(s: string, i: nat, t: string, j: int)
    requires i == LeadingSpace(s) && t == s[i..] && j == |s| - TrailingSpace(t)
    ensures i == j || (i < j && !IsSpace(s[i]) && !IsSpace(s[j - 1]))
  {
    if i != j {
      assert t[j - i - 1] == s[j - 1];
    }
  }

  /** `s.split(sep)` for a one-character separator: the pieces between separators. */
  function Split(s: string, sep: char): (parts: seq<string>)
    ensures |parts| >= 1
  {
    if s == [] then [""]
    else
      var rest := Split(s[1..], sep);
      if s[0] == sep then [""] + rest else [[s[0]] + rest[0]] + rest[1..]
  }

  /** `sep.join(parts)`. */
  function Join(sep: char, parts: seq<string>): (j: string)
    ensures |parts| >= 1 ==> parts[0] <= j
  {
    if parts == [] then ""
    else if |parts| == 1 then parts[0]
    else parts[0] + [sep] + Join(sep, parts[1..])
  }

  /** No piece of a split contains the separator. */
  lemma {:induction false} SplitPiecesHaveNoSeparator(s: string, sep: char)
    ensures forall p :: p in Split(s, sep) ==> sep !in p
  {
    if s != [] {
      SplitPiecesHaveNoSeparator(s[1..], sep);
      var rest := Split(s[1..], sep);
      assert rest == [rest[0]] + rest[1..];
      assert forall p :: p in rest[1..] ==> p in rest;
    }
  }

  /** Joining the pieces of a split with the same separator gives back the string. */
  lemma {:induction false} JoinSplit(s: string, sep: char)
    ensures Join(sep, Split(s, sep)) == s
  {
    if s != [] {
      JoinSplit(s[1..], sep);
      var rest := Split(s[1..], sep);
      if s[0] == sep {
        assert Split(s, sep)[1..] == rest;
      } else if |rest| > 1 {
        var parts := Split(s, sep);
        assert parts[1..] == rest[1..];
        assert Join(sep, rest) == rest[0] + [sep] + Join(sep, rest[1..]);
        assert s == [s[0]] + s[1..];
      } else {
        assert s == [s[0]] + s[1..];
      }
    }
  }

  /** The string splits into more than one piece exactly when it contains the separator. */
  lemma {:induction false} SplitCount(s: string, sep: char)
    ensures |Split(s, sep)| > 1 <==> sep in s
  {
    if s != [] {
      SplitCount(s[1..], sep);
      assert s == [s[0]] + s[1..];
    }
  }

  /** A string without the separator is one piece. */
  lemma {:induction false} SplitWhole(a: string, sep: char)
    requires sep !in a
    ensures Split(a, sep) == [a]
  {
    if a != [] {
      SplitWhole(a[1..], sep);
      assert a == [a[0]] + a[1..];
    }
  }

  /** A piece without the separator, the separator, then the rest: the piece comes first. */
  lemma {:induction false} SplitPrefix(a: string, b: string, sep: char)
    requires sep !in a
    ensures Split(a + [sep] + b, sep) == [a] + Split(b, sep)
  {
    if a == [] {
      assert (a + [sep] + b)[1..] == b;
    } else {
      SplitPrefix(a[1..], b, sep);
      assert (a + [sep] + b)[1..] == a[1..] + [sep] + b;
      assert [a[0]] + a[1..] == a;
    }
  }

  /** Splitting what `sep.join` made of separator-free pieces gives back the pieces. */
  lemma {:induction false} SplitJoin(parts: seq<string>, sep: char)
    requires |parts| >= 1 && forall p :: p in parts ==> sep !in p
    ensures Split(Join(sep, parts), sep) == parts
  {
    if |parts| == 1 {
      SplitWhole(parts[0], sep);
    } else {
      assert forall p :: p in parts[1..] ==> p in parts;
      SplitJoin(parts[1..], sep);
      SplitPrefix(parts[0], Join(sep, parts[1..]), sep);
      assert parts == [parts[0]] + parts[1..];
    }
  }

  /** The first piece starts the joined string and the last piece ends it. */
  lemma {:induction false} JoinEnds(sep: char, parts: seq<string>)
    requires |parts| >= 1
    ensures var j := Join(sep, parts);
            |parts[0]| <= |j| && j[..|parts[0]|] == parts[0]
            && |parts[|parts| - 1]| <= |j| && j[|j| - |parts[|parts| - 1]|..] == parts[|parts| - 1]
  {
    if |parts| > 1 {
      JoinEnds(sep, parts[1..]);
      var j := Join(sep, parts);
      assert j == parts[0] + ([sep] + Join(sep, parts[1..]));
    }
  }

  /** `strip()` leaves a string alone when it neither starts nor ends with whitespace. */
  lemma StripUnchanged(s: string)
    requires s != [] && !IsSpace(s[0]) && !IsSpace(s[|s| - 1])
    ensures Strip(s) == s
  {
  }

  /** `"".strip()` is `""`. */
  lemma StripEmpty()
    ensures Strip([]) == []
  {
    var e: string := [];
    assert LeadingSpace(e) == 0;
    assert e[0..] == e;
    assert TrailingSpace(e) == 0;
  }

  /** `a <= b` in Python's string order: lexicographic by code point. */
  predicate StrLeq(a: string, b: string) {
    |a| == 0 || (|b| > 0 && (a[0] < b[0] || (a[0] == b[0] && StrLeq(a[1..], b[1..]))))
  }

  lemma {:induction false} StrLeqAntisymmetric(a: string, b: string)
    ensures StrLeq(a, b) && StrLeq(b, a) ==> a == b
  {
    if |a| > 0 && |b| > 0 && a[0] == b[0] {
      StrLeqAntisymmetric(a[1..], b[1..]);
      assert a == [a[0]] + a[1..] && b == [b[0]] + b[1..];
    }
  }

  lemma {:induction false} StrLeqTotal(a: string, b: string)
    ensures StrLeq(a, b) || StrLeq(b, a)
  {
    if |a| > 0 && |b| > 0 && a[0] == b[0] { StrLeqTotal(a[1..], b[1..]); }
  }

  lemma {:induction false} StrLeqTransitive(a: string, b: string, c: string)
    ensures StrLeq(a, b) && StrLeq(b, c) ==> StrLeq(a, c)
  {
    if |a| > 0 && |b| > 0 && |c| > 0 && a[0] == b[0] == c[0] {
      StrLeqTransitive(a[1..], b[1..], c[1..]);
    }
  }

  /** Every non-empty set of strings has a least element. */
  lemma {:induction false} LeastExists(s: set<string>)
    requires s != {}
    ensures exists k :: k in s && forall k' :: k' in s ==> StrLeq(k, k')
    decreases |s|
  {
    var x :| x in s;
    if s - {x} == {} {
      assert s == {x};
      StrLeqTotal(x, x);
    } else {
      LeastExists(s - {x});
      var m :| m in s - {x} && forall k' :: k' in s - {x} ==> StrLeq(m, k');
      LeastStep(s, x, m);
    }
  }

  /** The smaller of `x` and the least of the others is the least of all. */
  lemma LeastStep(s: set<string>, x: string, m: string)
    requires x in s && m in s && forall k' :: k' in s - {x} ==> StrLeq(m, k')
    ensures exists k :: k in s && forall k' :: k' in s ==> StrLeq(k, k')
  {
    StrLeqTotal(x, m);
    if StrLeq(x, m) {
      forall k' | k' in s ensures StrLeq(x, k') {
        if k' != x { StrLeqTransitive(x, m, k'); } else { StrLeqTotal(x, x); }
      }
    } else {
      assert forall k' :: k' in s ==> StrLeq(m, k');
    }
  }

  /** The least string of a non-empty set (a deterministic choice of one of its elements). */
  function Least(s: set<string>): (k: string)
    requires s != {}
    ensures k in s
  {
    LeastExists(s);
    assert forall a, b :: StrLeq(a, b) && StrLeq(b, a) ==> a == b by {
      forall a, b ensures StrLeq(a, b) && StrLeq(b, a) ==> a == b { StrLeqAntisymmetric(a, b); }
    }
    var k :| k in s && forall k' :: k' in s ==> StrLeq(k, k');
    k
  }
}
