/**
 * The Python string operations the server relies on: `str.isspace`,
 * `str.lower`, `str.strip`, `str.split()` with no separator, and the
 * substring test `t in s`.
 */
module Text {

  /** Python's `str.isspace()` for one character: the ASCII controls 9-13 and 28-31,
      the space, and the Unicode space and line/paragraph separators. */
  predicate IsSpace(c: char)
  {
    var n := c as int;
    (9 <= n <= 13) || (28 <= n <= 32) || n == 0x85 || n == 0xA0 || n == 0x1680
    || (0x2000 <= n <= 0x200A) || n == 0x2028 || n == 0x2029 || n == 0x202F
    || n == 0x205F || n == 0x3000
  }

  /** Every character is whitespace (the empty string included). */
  predicate IsBlank(s: string)
  {
    forall i :: 0 <= i < |s| ==> IsSpace(s[i])
  }

  /** A non-empty run of non-whitespace characters: what `str.split()` produces. */
  predicate IsWord(s: string)
  {
    s != [] && forall i :: 0 <= i < |s| ==> !IsSpace(s[i])
  }

  /** Lower-casing of one character; only ASCII letters change. */
  function LowerChar(c: char): char
  {
    if 'A' <= c <= 'Z' then (c as int + 32) as char else c
  }

  lemma LowerCharKeepsSpace(c: char)
    ensures IsSpace(LowerChar(c)) == IsSpace(c)
  {
  }

  /** `s.lower()`, character by character. */
  function Lower(s: string): (r: string)
    ensures |r| == |s|
    ensures forall i :: 0 <= i < |s| ==> r[i] == LowerChar(s[i])
  {
    if s == [] then [] else [LowerChar(s[0])] + Lower(s[1..])
  }

  lemma LowerAppend(a: string, b: string)
    ensures Lower(a + b) == Lower(a) + Lower(b)
  {
    var l, r := Lower(a + b), Lower(a) + Lower(b);
    assert |l| == |r|;
    forall i | 0 <= i < |l| ensures l[i] == r[i] {
      if i < |a| { assert (a + b)[i] == a[i]; } else { assert (a + b)[i] == b[i - |a|]; }
    }
  }

  /** Python's `t in s` on strings: `t` occurs in `s` as a contiguous block. */
  predicate Contains(s: string, t: string)
    decreases |s|
  {
    t <= s || (s != [] && Contains(s[1..], t))
  }

  lemma {:induction false} ContainsInfix(a: string, t: string, b: string)
    ensures Contains(a + t + b, t)
  {
    if a == [] {
      assert a + t + b == t + b;
      assert t <= t + b;
    } else {
      assert (a + t + b)[1..] == a[1..] + t + b;
      ContainsInfix(a[1..], t, b);
    }
  }

  predicate IsAscii(c: char)
  {
    c as int < 128
  }

  /** `a` and `b` have the same characters wherever either of them has an ASCII one. */
  predicate AgreeOnAscii(a: string, b: string)
  {
    |a| == |b| && forall i :: 0 <= i < |a| ==> (IsAscii(a[i]) || IsAscii(b[i])) ==> a[i] == b[i]
  }

  /** Whether an ASCII string occurs depends only on the ASCII characters around it: strings
      that differ only in non-ASCII characters contain the same ASCII substrings. */
  lemma {:induction false} ContainsAsciiAgrees(a: string, b: string, t: string)
    requires AgreeOnAscii(a, b)
    requires forall i :: 0 <= i < |t| ==> IsAscii(t[i])
    ensures Contains(a, t) == Contains(b, t)
    decreases |a|
  {
    if t <= a {
      assert t == b[..|t|];
    }
    if t <= b {
      assert t == a[..|t|];
    }
    if a != [] {
      assert AgreeOnAscii(a[1..], b[1..]) by {
        forall i | 0 <= i < |a| - 1 ensures (IsAscii(a[1..][i]) || IsAscii(b[1..][i])) ==> a[1..][i] == b[1..][i] {
          assert a[1..][i] == a[i + 1] && b[1..][i] == b[i + 1];
        }
      }
      ContainsAsciiAgrees(a[1..], b[1..], t);
    }
  }

  /** `s.lstrip()`: drops the leading whitespace. */
  function TrimStart(s: string): (r: string)
    ensures |r| <= |s| && r == s[|s| - |r|..]
    ensures IsBlank(s[..|s| - |r|])
    ensures r == [] || !IsSpace(r[0])
    decreases |s|
  {
    if s != [] && IsSpace(s[0]) then
      var r := TrimStart(s[1..]);
      assert s[1..][..|s| - 1 - |r|] == s[1..|s| - |r|];
      r
    else s
  }

  /** `s.rstrip()`: drops the trailing whitespace. */
  function TrimEnd(s: string): (r: string)
    ensures |r| <= |s| && r == s[..|r|]
    ensures IsBlank(s[|r|..])
    ensures r == [] || !IsSpace(r[|r| - 1])
    decreases |s|
  {
    if s != [] && IsSpace(s[|s| - 1]) then
      var r := TrimEnd(s[..|s| - 1]);
      assert s[..|s| - 1][..|r|] == s[..|r|];
      assert s[|r|..] == s[..|s| - 1][|r|..] + [s[|s| - 1]];
      r
    else s
  }

  /** `s.strip()`. */
  function Strip(s: string): string
  {
    TrimEnd(TrimStart(s))
  }

  /** `s.strip() == ""` holds exactly for the blank strings. */
  lemma StripEmptyIffBlank(s: string)
    ensures Strip(s) == [] <==> IsBlank(s)
  {
    var t := TrimStart(s);
    if Strip(s) == [] {
      assert IsBlank(t[0..]);
      assert t[0..] == t;
      assert t == [];
      assert s[..|s|] == s;
    }
  }

  /** The longest prefix of `s` without whitespace. */
  function Word(s: string): (w: string)
    ensures w <= s
    ensures forall i :: 0 <= i < |w| ==> !IsSpace(w[i])
    ensures |w| == |s| || IsSpace(s[|w|])
    decreases |s|
  {
    if s == [] || IsSpace(s[0]) then [] else [s[0]] + Word(s[1..])
  }

  /** `s.split()`: the maximal runs of non-whitespace, in order. */
  function Split(s: string): (parts: seq<string>)
    ensures forall p :: p in parts ==> IsWord(p)
    ensures parts == [] <==> IsBlank(s)
    decreases |s|
  {
    if s == [] then []
    else if IsSpace(s[0]) then
      assert IsBlank(s) <==> IsBlank(s[1..]) by {
        if IsBlank(s[1..]) {
          forall i | 0 <= i < |s| ensures IsSpace(s[i]) { if i > 0 { assert s[1..][i - 1] == s[i]; } }
        }
      }
      Split(s[1..])
    else
      var w := Word(s);
      [w] + Split(s[|w|..])
  }

  lemma {:induction false} SplitAfterBlank(b: string, s: string)
    requires IsBlank(b)
    ensures Split(b + s) == Split(s)
    decreases |b|
  {
    if b == [] {
      assert b + s == s;
    } else {
      assert (b + s)[0] == b[0];
      assert (b + s)[1..] == b[1..] + s;
      SplitAfterBlank(b[1..], s);
    }
  }

  lemma {:induction false} WordBeforeSpace(w: string, rest: string)
    requires IsWord(w)
    requires rest == [] || IsSpace(rest[0])
    ensures Word(w + rest) == w
    decreases |w|
  {
    assert (w + rest)[0] == w[0];
    assert (w + rest)[1..] == w[1..] + rest;
    if |w| == 1 {
      assert w[1..] + rest == rest;
    } else {
      WordBeforeSpace(w[1..], rest);
    }
  }

  lemma SplitWord(w: string, rest: string)
    requires IsWord(w)
    requires rest == [] || IsSpace(rest[0])
    ensures Split(w + rest) == [w] + Split(rest)
  {
    WordBeforeSpace(w, rest);
    assert (w + rest)[0] == w[0];
    assert (w + rest)[|w|..] == rest;
  }
}
