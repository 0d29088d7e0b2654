/** The bearer-token dependency of the content endpoint: reads the Authorization header. */
module Auth {
  import opened Wrappers
  import opened Text

  /** The token of an `Authorization: Bearer <token>` header: the value must split on whitespace
      into exactly two parts whose first lower-cases to "bearer". */
  function BearerToken(authorization: Option<string>): (token: Option<string>)
    ensures authorization.None? ==> token.None?
    ensures token.Some? ==> IsWord(token.value)
  {
    if authorization.None? || authorization.value == "" then None
    else
      var parts := Split(authorization.value);
      if |parts| == 2 && Lower(parts[0]) == "bearer" then Some(parts[1]) else None
  }

  /** A header of the scheme and a token, separated and surrounded by any whitespace, yields the token. */
  lemma BearerAccepted(lead: string, scheme: string, gap: string, token: string, trail: string)
    requires IsBlank(lead) && IsBlank(gap) && gap != [] && IsBlank(trail)
    requires IsWord(scheme) && Lower(scheme) == "bearer"
    requires IsWord(token)
    ensures BearerToken(Some(lead + scheme + gap + token + trail)) == Some(token)
  {
    var header := lead + scheme + gap + token + trail;
    SplitTwoWords(lead, scheme, gap, token, trail);
    assert |header| >= |scheme| > 0;
  }

  /** The first part of `s.split()` is preceded by blanks and followed by the rest of the split. */
  lemma {:induction false} SplitHead(s: string) returns (lead: string, rest: string)
    requires Split(s) != []
    ensures IsBlank(lead) && s == lead + Split(s)[0] + rest
    ensures rest == [] || IsSpace(rest[0])
    ensures Split(rest) == Split(s)[1..]
    decreases |s|
  {
    if IsSpace(s[0]) {
      SplitAfterSpace(s);
      var lead', rest' := SplitHead(s[1..]);
      lead, rest := [s[0]] + lead', rest';
      SplitHeadSpace(s, lead', rest');
    } else {
      lead, rest := [], s[|Word(s)|..];
      SplitHeadWord(s);
      assert lead + Word(s) == Word(s);
    }
  }

  lemma {:induction false} SplitAfterSpace(s: string)
    requires s != [] && IsSpace(s[0])
    ensures Split(s) == Split(s[1..])
  {
  }

  lemma {:induction false} SplitHeadSpace(s: string, lead: string, rest: string)
    requires s != [] && IsSpace(s[0]) && IsBlank(lead)
    requires Split(s[1..]) != [] && s[1..] == lead + Split(s[1..])[0] + rest
    requires Split(s) == Split(s[1..])
    ensures IsBlank([s[0]] + lead) && s == ([s[0]] + lead) + Split(s)[0] + rest
  {
    PrependBlank(s[0], lead);
    assert s == [s[0]] + s[1..];
  }

  lemma {:induction false} SplitHeadWord(s: string)
    requires s != [] && !IsSpace(s[0])
    ensures Split(s) == [Word(s)] + Split(s[|Word(s)|..])
    ensures s == Word(s) + s[|Word(s)|..]
    ensures s[|Word(s)|..] == [] || IsSpace(s[|Word(s)|..][0])
  {
    SplitOfWord(s);
    WordThenRest(s);
  }

  lemma {:induction false} SplitOfWord(s: string)
    requires s != [] && !IsSpace(s[0])
    ensures Split(s) == [Word(s)] + Split(s[|Word(s)|..])
  {
  }

  lemma {:induction false} WordThenRest(s: string)
    ensures s == Word(s) + s[|Word(s)|..]
    ensures s[|Word(s)|..] == [] || IsSpace(s[|Word(s)|..][0])
  {
    var w := Word(s);
    assert s[..|w|] == w;
  }

  lemma PrependBlank(c: char, s: string)
    requires IsSpace(c) && IsBlank(s)
    ensures IsBlank([c] + s)
  {
    forall i | 0 <= i < |s| + 1 ensures IsSpace(([c] + s)[i]) {
      if i > 0 { assert ([c] + s)[i] == s[i - 1]; }
    }
  }

  /** The converse of `BearerAccepted`: every accepted token comes from a header of blanks, a
      scheme that lower-cases to `bearer`, non-empty blanks, the token and blanks. */
  lemma {:induction false} BearerShape(header: string, token: string)
    returns (lead: string, scheme: string, gap: string, trail: string)
    requires BearerToken(Some(header)) == Some(token)
    ensures IsBlank(lead) && IsWord(scheme) && Lower(scheme) == "bearer"
    ensures IsBlank(gap) && gap != [] && IsBlank(trail)
    ensures header == lead + scheme + gap + token + trail
  {
    BearerParts(header, token);
    scheme := Split(header)[0];
    lead, gap, trail := TwoWordShape(header);
  }

  /** A string that splits into two parts is blanks, the first part, non-empty blanks, the
      second part and blanks. */
  lemma {:induction false} TwoWordShape(s: string) returns (lead: string, gap: string, trail: string)
    requires |Split(s)| == 2
    ensures IsBlank(lead) && IsBlank(gap) && gap != [] && IsBlank(trail)
    ensures s == lead + Split(s)[0] + gap + Split(s)[1] + trail
  {
    var first, second := Split(s)[0], Split(s)[1];
    var rest;
    lead, rest := SplitHead(s);
    assert Split(rest) == [second];
    gap, trail := SplitHead(rest);
    GapNotEmpty(rest, gap, second, trail);
    ConcatSplice(lead, first, gap, second, trail);
  }

  lemma ConcatSplice(a: string, b: string, c: string, d: string, e: string)
    ensures a + b + (c + d + e) == a + b + c + d + e
  {
  }

  lemma {:induction false} BearerParts(header: string, token: string)
    requires BearerToken(Some(header)) == Some(token)
    ensures |Split(header)| == 2 && Split(header)[1] == token
    ensures IsWord(Split(header)[0]) && Lower(Split(header)[0]) == "bearer" && IsWord(token)
  {
  }

  lemma {:induction false} GapNotEmpty(rest: string, gap: string, token: string, trail: string)
    requires rest == gap + token + trail && IsWord(token)
    requires Split(rest) == [token] && (rest == [] || IsSpace(rest[0]))
    requires IsBlank(gap)
    ensures gap != []
  {
    assert rest != [];
    assert rest[|gap|] == token[0];
  }

  lemma SplitTwoWords(lead: string, first: string, gap: string, second: string, trail: string)
    requires IsBlank(lead) && IsBlank(gap) && gap != [] && IsBlank(trail)
    requires IsWord(first) && IsWord(second)
    ensures Split(lead + first + gap + second + trail) == [first, second]
  {
    var rest := gap + (second + trail);
    SplitSecondWord(gap, second, trail);
    SplitAfterFirst(first, rest);
    SplitAfterBlank(lead, first + rest);
    ConcatFive(lead, first, gap, second, trail);
  }

  lemma ConcatFive(a: string, b: string, c: string, d: string, e: string)
    ensures a + b + c + d + e == a + (b + (c + (d + e)))
  {
  }

  lemma SplitPair(first: string, gap: string, second: string)
    requires IsWord(first) && IsWord(second) && IsBlank(gap) && gap != []
    ensures Split(first + (gap + second)) == [first, second]
  {
    SplitAfterBlank(gap, second);
    assert second == second + [];
    SplitWord(second, []);
    SplitAfterFirst(first, gap + second);
  }

  lemma SplitAfterFirst(first: string, rest: string)
    requires IsWord(first) && rest != [] && IsSpace(rest[0])
    ensures Split(first + rest) == [first] + Split(rest)
  {
    SplitWord(first, rest);
  }

  lemma SplitSecondWord(gap: string, second: string, trail: string)
    requires IsBlank(gap) && IsBlank(trail) && IsWord(second)
    ensures Split(gap + (second + trail)) == [second]
  {
    SplitAfterBlank(gap, second + trail);
    SplitWord(second, trail);
    assert Split(trail) == [];
  }

  /** The header a client builds, `Bearer <token>`, yields the token. */
  lemma BearerHeader(token: string)
    requires IsWord(token)
    ensures BearerToken(Some("Bearer " + token)) == Some(token)
  {
    BearerScheme();
    assert "Bearer " + token == "Bearer" + (" " + token);
    SplitPair("Bearer", " ", token);
  }

  lemma BearerScheme()
    ensures IsWord("Bearer") && Lower("Bearer") == "bearer" && IsBlank(" ")
  {
    var l := Lower("Bearer");
    assert l[0] == 'b' && l[1] == 'e' && l[2] == 'a' && l[3] == 'r' && l[4] == 'e' && l[5] == 'r';
  }

  /** Any other scheme is refused. */
  lemma OtherSchemeRejected(scheme: string, gap: string, token: string)
    requires IsWord(scheme) && Lower(scheme) != "bearer"
    requires IsBlank(gap) && gap != [] && IsWord(token)
    ensures BearerToken(Some(scheme + gap + token)) == None
  {
    assert scheme + gap + token == scheme + (gap + token);
    SplitPair(scheme, gap, token);
  }

  /** A header with a single part (a token without scheme) is refused. */
  lemma BareTokenRejected(token: string)
    requires IsWord(token)
    ensures BearerToken(Some(token)) == None
  {
    assert token == token + [];
    SplitWord(token, []);
  }

  /** A header with a third part after the token is refused, whatever whitespace separates the parts. */
  lemma ExtraPartRejected(scheme: string, gap: string, token: string, gap': string, extra: string)
    requires IsWord(scheme) && IsWord(token) && IsWord(extra)
    requires IsBlank(gap) && gap != [] && IsBlank(gap') && gap' != []
    ensures BearerToken(Some(scheme + gap + token + gap' + extra)) == None
  {
    SplitThreeWords(scheme, gap, token, gap', extra);
  }

  lemma SplitThreeWords(first: string, gap: string, second: string, gap': string, third: string)
    requires IsWord(first) && IsWord(second) && IsWord(third)
    requires IsBlank(gap) && gap != [] && IsBlank(gap') && gap' != []
    ensures |Split(first + gap + second + gap' + third)| == 3
  {
    var tail := gap + (second + (gap' + third));
    SplitPair(second, gap', third);
    SplitAfterBlank(gap, second + (gap' + third));
    SplitAfterFirst(first, tail);
    ConcatFive(first, gap, second, gap', third);
  }
}
