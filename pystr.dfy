/**
 * The pieces of Python's `str` behaviour the configuration engine relies on,
 * written out over `string`: `strip()`, `split(sep)`, `split(sep, 1)`,
 * `startswith`, truthiness, and the code-point order that `<` and `sorted` use.
 */
module PyStr {
  import opened Wrappers

  /** `c.isspace()`: the characters that an argument-less `str.strip()` removes. */
  predicate IsSpace(c: char) {
    || c == ' '
    || ('\t' <= c <= '\r')
    || ('\U{1C}' <= c <= '\U{1F}')
    || c == '\U{85}' || c == '\U{A0}' || c == '\U{1680}'
    || ('\U{2000}' <= c <= '\U{200A}')
    || c == '\U{2028}' || c == '\U{2029}' || c == '\U{202F}' || c == '\U{205F}' || c == '\U{3000}'
  }

  /** Python truthiness of an optional string: present and non-empty. */
  predicate Truthy(o: Option<string>) {
    o.Some? && o.value != ""
  }

  /** `s.strip()`: leading and trailing whitespace removed, so the result neither starts nor ends with whitespace. */
  function Strip(s: string): (r: string)
    ensures |r| <= |s|
    ensures r != [] ==> !IsSpace(r[0]) && !IsSpace(r[|r| - 1])
    decreases |s|
  {
    if s != [] && IsSpace(s[0]) then Strip(s[1..])
    else if s != [] && IsSpace(s[|s| - 1]) then Strip(s[..|s| - 1])
    else s
  }

  /** The number of whitespace characters `s` starts with. */
  function LeadingSpaces(s: string): (n: nat)
    ensures n <= |s|
  {
    if s != [] && IsSpace(s[0]) then 1 + LeadingSpaces(s[1..]) else 0
  }

  /** `r` is the slice of `s` starting at `i`, and everything of `s` around it is whitespace. */
  predicate IsMiddle(s: string, i: nat, r: string) {
    && i + |r| <= |s|
    && r == s[i..i + |r|]
    && (forall k :: 0 <= k < i ==> IsSpace(s[k]))
    && (forall k :: i + |r| <= k < |s| ==> IsSpace(s[k]))
  }

  /** `strip()` removes whitespace only, from both ends, and keeps the contiguous middle slice. */
  lemma {:induction false} StripKeepsMiddle(s: string)
    ensures IsMiddle(s, LeadingSpaces(s), Strip(s))
    decreases |s|, 1
  {
    if s != [] && IsSpace(s[0]) {
      StripLeadingSpace(s);
    } else if s != [] && IsSpace(s[|s| - 1]) {
      StripTrailingSpace(s);
    } else {
      assert LeadingSpaces(s) == 0 && Strip(s) == s;
      assert s[0..|s|] == s;
    }
  }

  lemma {:induction false} StripLeadingSpace(s: string)
    requires s != [] && IsSpace(s[0])
    ensures IsMiddle(s, LeadingSpaces(s), Strip(s))
    decreases |s|, 0
  {
    var t := s[1..];
    var r := Strip(s);
    StripKeepsMiddle(t);
    var j := LeadingSpaces(t);
    assert r == Strip(t) && LeadingSpaces(s) == j + 1;
    var inT, inS := t[j..j + |r|], s[j + 1..j + 1 + |r|];
    forall k | 0 <= k < |r| ensures inT[k] == inS[k] {
      assert t[j + k] == s[j + 1 + k];
    }
    assert inT == inS;
    forall k | 0 <= k < j + 1 ensures IsSpace(s[k]) {
      if k > 0 { assert s[k] == t[k - 1]; }
    }
    forall k | j + 1 + |r| <= k < |s| ensures IsSpace(s[k]) {
      assert s[k] == t[k - 1];
    }
  }

  lemma {:induction false} StripTrailingSpace(s: string)
    requires s != [] && !IsSpace(s[0]) && IsSpace(s[|s| - 1])
    ensures IsMiddle(s, LeadingSpaces(s), Strip(s))
    decreases |s|, 0
  {
    var t := s[..|s| - 1];
    var r := Strip(s);
    StripKeepsMiddle(t);
    assert r == Strip(t);
    assert t[0] == s[0];
    assert LeadingSpaces(s) == 0 && LeadingSpaces(t) == 0;
    assert t[0..|r|] == s[0..|r|];
    forall k | |r| <= k < |s| ensures IsSpace(s[k]) {
      if k < |t| { assert s[k] == t[k]; }
    }
  }

  /** A string with no whitespace at either end is its own `strip()`. */
  lemma StripUnpadded(s: string)
    requires s != [] ==> !IsSpace(s[0]) && !IsSpace(s[|s| - 1])
    ensures Strip(s) == s
  {
  }

  /** Stripping twice is stripping once. */
  lemma StripIdempotent(s: string)
    ensures Strip(Strip(s)) == Strip(s)
  {
    StripUnpadded(Strip(s));
  }

  /** `s.find(c)` when `c` occurs: the index of the first occurrence. */
  function IndexOf(s: string, c: char): (i: nat)
    requires c in s
    ensures i < |s| && s[i] == c && c !in s[..i]
  {
    if s[0] == c then 0
    else
      var j := IndexOf(s[1..], c);
      assert s[..j + 1] == [s[0]] + s[1..][..j];
      j + 1
  }

  /** `s.split(sep, 1)` when `sep` occurs: the text before its first occurrence and the text after it. */
  function SplitOnce(s: string, sep: char): (r: (string, string))
    requires sep in s
    ensures s == r.0 + [sep] + r.1
    ensures sep !in r.0
  {
    var i := IndexOf(s, sep);
    assert s == s[..i] + [sep] + s[i + 1..];
    (s[..i], s[i + 1..])
  }

  /** `split(sep, 1)` is determined by where the first separator is. */
  lemma SplitOnceAt(s: string, sep: char, before: string, after: string)
    requires s == before + [sep] + after && sep !in before
    ensures SplitOnce(s, sep) == (before, after)
  {
    var r := SplitOnce(s, sep);
    assert s[|before|] == sep && s[|r.0|] == sep;
    assert forall k :: 0 <= k < |before| ==> s[k] == before[k] != sep;
    assert forall k :: 0 <= k < |r.0| ==> s[k] == r.0[k] != sep;
    assert r.0 == s[..|r.0|] && before == s[..|before|];
    assert r.1 == s[|r.0| + 1..] && after == s[|before| + 1..];
  }

  /** `sep.join(parts)` for a one-character separator. */
  function JoinWith(parts: seq<string>, sep: char): string
    requires |parts| >= 1
  {
    if |parts| == 1 then parts[0] else parts[0] + [sep] + JoinWith(parts[1..], sep)
  }

  /** Prepending a piece prepends it and one separator to the joined string. */
  lemma JoinWithCons(piece: string, parts: seq<string>, sep: char) returns (joined: seq<string>)
    requires |parts| >= 1
    ensures joined == [piece] + parts
    ensures JoinWith(joined, sep) == piece + [sep] + JoinWith(parts, sep)
  {
    joined := [piece] + parts;
    assert joined[1..] == parts;
  }

  /** `s.split(sep)` for a one-character separator: the pieces between separators, none of them containing it. */
  function Split(s: string, sep: char): (parts: seq<string>)
    ensures |parts| >= 1
    ensures forall k :: 0 <= k < |parts| ==> sep !in parts[k]
    ensures JoinWith(parts, sep) == s
    decreases |s|
  {
    if sep !in s then [s]
    else
      var i := IndexOf(s, sep);
      var rest := Split(s[i + 1..], sep);
      var parts := [s[..i]] + rest;
      assert parts[1..] == rest;
      assert s == s[..i] + [sep] + s[i + 1..];
      parts
  }

  /** A separator-free first piece and a separator split off as the first piece. */
  lemma SplitCons(p: string, tail: string, sep: char)
    requires sep !in p
    ensures Split(p + [sep] + tail, sep) == [p] + Split(tail, sep)
  {
    var s := p + [sep] + tail;
    assert s[|p|] == sep;
    assert s[..|p|] == p;
    assert IndexOf(s, sep) == |p|;
    assert s[|p| + 1..] == tail;
  }

  /** `Split` undoes `JoinWith` when no piece contains the separator. */
  lemma {:induction false} SplitJoin(parts: seq<string>, sep: char)
    requires |parts| >= 1
    requires forall k :: 0 <= k < |parts| ==> sep !in parts[k]
    ensures Split(JoinWith(parts, sep), sep) == parts
  {
    if |parts| > 1 {
      SplitJoin(parts[1..], sep);
      SplitCons(parts[0], JoinWith(parts[1..], sep), sep);
      assert parts == [parts[0]] + parts[1..];
    }
  }

  /** `s.split(sep)` has one more piece than `s` has separators. */
  lemma {:induction false} SplitCount(s: string, sep: char)
    ensures |Split(s, sep)| == multiset(s)[sep] + 1
    decreases |s|
  {
    if sep !in s {
      assert multiset(s)[sep] == 0;
    } else {
      var i := IndexOf(s, sep);
      var before, after := s[..i], s[i + 1..];
      SplitCount(after, sep);
      assert |Split(s, sep)| == 1 + |Split(after, sep)|;
      assert s == before + [sep] + after;
      calc {
        multiset(s)[sep];
        multiset(before)[sep] + multiset([sep])[sep] + multiset(after)[sep];
        1 + multiset(after)[sep];
      }
    }
  }

  /** `s.startswith(prefix)`. */
  predicate StartsWith(s: string, prefix: string) {
    prefix <= s
  }

  /** `[p.strip() for p in parts]`. */
  function StripEach(parts: seq<string>): (r: seq<string>)
    ensures |r| == |parts|
    ensures forall k :: 0 <= k < |parts| ==> r[k] == Strip(parts[k])
  {
    seq(|parts|, k requires 0 <= k < |parts| => Strip(parts[k]))
  }

  /** Python's `a < b` on `str`: code point by code point, a proper prefix being smaller. */
  predicate LexLess(a: string, b: string)
    ensures a < b ==> LexLess(a, b)
    decreases |a|
  {
    if a == [] then b != []
    else if b == [] then false
    else if a[0] != b[0] then a[0] < b[0]
    else LexLess(a[1..], b[1..])
  }

  /** Python's `a <= b` on `str`. */
  predicate LexLeq(a: string, b: string) {
    a == b || LexLess(a, b)
  }

  lemma {:induction false} LexLessIrreflexive(a: string)
    ensures !LexLess(a, a)
    decreases |a|
  {
    if a != [] {
      LexLessIrreflexive(a[1..]);
    }
  }

  lemma {:induction false} LexLessAsymmetric(a: string, b: string)
    requires LexLess(a, b)
    ensures !LexLess(b, a)
    decreases |a|
  {
    if a != [] && b != [] && a[0] == b[0] {
      LexLessAsymmetric(a[1..], b[1..]);
    }
  }

  lemma {:induction false} LexLessTransitive(a: string, b: string, c: string)
    requires LexLess(a, b) && LexLess(b, c)
    ensures LexLess(a, c)
    decreases |a|
  {
    if a != [] && a[0] == b[0] && b[0] == c[0] {
      LexLessTransitive(a[1..], b[1..], c[1..]);
    }
  }

  lemma {:induction false} LexLessTotal(a: string, b: string)
    ensures a == b || LexLess(a, b) || LexLess(b, a)
    decreases |a|
  {
    if a != [] && b != [] && a[0] == b[0] {
      LexLessTotal(a[1..], b[1..]);
      if a[1..] == b[1..] {
        assert a == [a[0]] + a[1..] && b == [b[0]] + b[1..];
      }
    }
  }

  /** `sorted(names, reverse=True)[0]`: the greatest name in Python's string order. */
  function MaxLex(names: seq<string>): (g: string)
    requires |names| > 0
    ensures g in names
  {
    if |names| == 1 then names[0]
    else
      var m := MaxLex(names[..|names| - 1]);
      var last := names[|names| - 1];
      if LexLess(m, last) then last else m
  }

  /** Every name is at most `MaxLex(names)`. */
  lemma {:induction false} MaxLexIsGreatest(names: seq<string>)
    requires |names| > 0
    ensures forall n :: n in names ==> LexLeq(n, MaxLex(names))
  {
    if |names| > 1 {
      var init := names[..|names| - 1];
      var m := MaxLex(init);
      var last := names[|names| - 1];
      MaxLexIsGreatest(init);
      assert names == init + [last];
      if LexLess(m, last) {
        forall n | n in init ensures LexLeq(n, last) {
          if n != m {
            LexLessTransitive(n, m, last);
          }
        }
      } else {
        LexLessTotal(m, last);
      }
    }
  }

  /** The greatest name is unique, so `MaxLex` is the first element of any descending sort. */
  lemma GreatestIsMaxLex(names: seq<string>, g: string)
    requires g in names
    requires forall n :: n in names ==> LexLeq(n, g)
    ensures MaxLex(names) == g
  {
    MaxLexIsGreatest(names);
    var m := MaxLex(names);
    if m != g {
      assert LexLess(m, g) && LexLess(g, m);
      LexLessAsymmetric(m, g);
    }
  }
}
