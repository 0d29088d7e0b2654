/**
 * Request classifier: is the caller a human browser or a programmatic client?
 * The decision looks only at the User-Agent header and is a heuristic.
 */
module Classifier {
  import opened Wrappers
  import opened Text

  /** The browser identifiers searched for, in lower case. */
  const BrowserTokens: seq<string> := ["mozilla", "chrome", "safari", "firefox", "edge", "opera"]

  /** A User-Agent is a browser's when it is not blank and, lower-cased, contains one of the tokens. */
  predicate IsBrowser(userAgent: string)
  {
    if userAgent == "" || Strip(userAgent) == "" then false
    else
      var lower := Lower(userAgent);
      exists token :: token in BrowserTokens && Contains(lower, token)
  }

  /** The bot test of the content endpoint: an absent or empty header, or one that is not a browser's. */
  function IsBotRequest(userAgent: Option<string>): (bot: bool)
    ensures bot <==> userAgent.None? || !IsBrowser(userAgent.value)
  {
    userAgent.None? || userAgent.value == "" || !IsBrowser(userAgent.value)
  }

  /** The classifier in closed form: not blank, and one of the six tokens occurs case-insensitively. */
  lemma IsBrowserExactly(userAgent: string)
    ensures IsBrowser(userAgent) <==>
      !IsBlank(userAgent) &&
      var lower := Lower(userAgent);
      (Contains(lower, "mozilla") || Contains(lower, "chrome") || Contains(lower, "safari")
       || Contains(lower, "firefox") || Contains(lower, "edge") || Contains(lower, "opera"))
  {
    StripEmptyIffBlank(userAgent);
    TokenSearch(Lower(userAgent));
  }

  /** Searching the token list is testing the six tokens one by one. */
  lemma TokenSearch(lower: string)
    ensures (exists token :: token in BrowserTokens && Contains(lower, token)) <==>
      (Contains(lower, "mozilla") || Contains(lower, "chrome") || Contains(lower, "safari")
       || Contains(lower, "firefox") || Contains(lower, "edge") || Contains(lower, "opera"))
  {
    forall token | token in BrowserTokens
      ensures token == "mozilla" || token == "chrome" || token == "safari"
           || token == "firefox" || token == "edge" || token == "opera"
    {
    }
    assert "mozilla" in BrowserTokens && "chrome" in BrowserTokens && "safari" in BrowserTokens;
    assert "firefox" in BrowserTokens && "edge" in BrowserTokens && "opera" in BrowserTokens;
  }

  /** Blank User-Agents (the empty one included) are never a browser's. */
  lemma BlankIsBot(userAgent: string)
    requires IsBlank(userAgent)
    ensures IsBotRequest(Some(userAgent))
  {
    StripEmptyIffBlank(userAgent);
  }

  /** A browser token written in any mix of cases, anywhere in the header, makes it a browser's. */
  lemma TokenMakesBrowser(before: string, token: string, after: string)
    requires Lower(token) in BrowserTokens
    ensures IsBrowser(before + token + after)
    ensures !IsBotRequest(Some(before + token + after))
  {
    var userAgent := before + token + after;
    ContainsLowered(before, token, after);
    assert Lower(token)[0] == LowerChar(token[0]);
    LowerCharKeepsSpace(token[0]);
    NotBlankAround(before, token, after);
    StripEmptyIffBlank(userAgent);
  }

  lemma ContainsLowered(before: string, token: string, after: string)
    ensures Contains(Lower(before + token + after), Lower(token))
  {
    LowerAppend(before + token, after);
    LowerAppend(before, token);
    ContainsInfix(Lower(before), Lower(token), Lower(after));
  }

  lemma NotBlankAround(before: string, token: string, after: string)
    requires token != [] && !IsSpace(token[0])
    ensures !IsBlank(before + token + after)
  {
    assert (before + token + after)[|before|] == token[0];
  }

  /** The token test reads only the ASCII characters of the lowered header: any lowering that
      agrees with `Lower` on them finds the same tokens. */
  lemma TokenTestAsciiOnly(userAgent: string, lowered: string)
    requires AgreeOnAscii(lowered, Lower(userAgent))
    ensures (exists token :: token in BrowserTokens && Contains(lowered, token))
        <==> (exists token :: token in BrowserTokens && Contains(Lower(userAgent), token))
  {
    forall token | token in BrowserTokens
      ensures Contains(lowered, token) == Contains(Lower(userAgent), token)
    {
      TokenIsAscii(token);
      ContainsAsciiAgrees(lowered, Lower(userAgent), token);
    }
  }

  lemma TokenIsAscii(token: string)
    requires token in BrowserTokens
    ensures forall i :: 0 <= i < |token| ==> IsAscii(token[i])
  {
  }

  /** Classification is case-insensitive: headers that lower-case alike are classified alike. */
  lemma CaseInsensitive(u: string, v: string)
    requires Lower(u) == Lower(v)
    ensures IsBrowser(u) == IsBrowser(v)
  {
    IsBrowserExactly(u);
    IsBrowserExactly(v);
    assert |u| == |v|;
    forall i | 0 <= i < |u| ensures IsSpace(u[i]) == IsSpace(v[i]) {
      LowerCharKeepsSpace(u[i]);
      LowerCharKeepsSpace(v[i]);
      assert Lower(u)[i] == Lower(v)[i];
    }
  }
}
