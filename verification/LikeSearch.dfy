/**
 Literal search through LIKE. The pattern `%` + escaped text + `%` under the escape character `!` matches
 exactly the strings that contain the text (section 8.5 of ISO/IEC 9075-2).
 */
module LikeSearch {

  const ESCAPE := '!'

  // ---------------------------------------------------------------------------------------------
  // Escaping
  // ---------------------------------------------------------------------------------------------

  /** String.prototype.replaceAll with a one-character pattern. */
  function ReplaceAll(s: string, c: char, replacement: string): string {
    if s == "" then ""
    else (if s[0] == c then replacement else [s[0]]) + ReplaceAll(s[1..], c, replacement)
  }

  /** escapeDashboardLikeLiteral: three replacements, one after the other. */
  function Escape(s: string): string {
    ReplaceAll(ReplaceAll(ReplaceAll(s, '!', "!!"), '%', "!%"), '_', "!_")
  }

  predicate IsSpecial(c: char) {
    c == '!' || c == '%' || c == '_'
  }

  function EscapeChar(c: char): string {
    if IsSpecial(c) then [ESCAPE, c] else [c]
  }

  /** The same in one pass. */
  function EscapeEach(s: string): string {
    if s == "" then "" else EscapeChar(s[0]) + EscapeEach(s[1..])
  }

  lemma {:induction false} ReplaceDistributes(a: string, b: string, c: char, replacement: string)
    ensures ReplaceAll(a + b, c, replacement) == ReplaceAll(a, c, replacement) + ReplaceAll(b, c, replacement)
  {
    if a == "" {
      assert a + b == b;
    } else {
      ReplaceDistributes(a[1..], b, c, replacement);
      assert (a + b)[1..] == a[1..] + b && (a + b)[0] == a[0];
      var head := if a[0] == c then replacement else [a[0]];
      assert head + (ReplaceAll(a[1..], c, replacement) + ReplaceAll(b, c, replacement))
          == (head + ReplaceAll(a[1..], c, replacement)) + ReplaceAll(b, c, replacement);
    }
  }

  lemma EscapeOfChar(c: char)
    ensures Escape([c]) == EscapeChar(c)
  {
    ReplaceOne(c, '!', "!!");
    var one := ReplaceAll([c], '!', "!!");
    if c == '!' {
      ReplaceTwo('!', '!', '%', "!%");
      ReplaceTwo('!', '!', '_', "!_");
    } else {
      ReplaceOne(c, '%', "!%");
      ReplaceTwo('!', '%', '_', "!_");
      ReplaceOne(c, '_', "!_");
    }
  }

  lemma ReplaceOne(d: char, c: char, replacement: string)
    ensures ReplaceAll([d], c, replacement) == if d == c then replacement else [d]
  {
    assert [d][1..] == "";
  }

  lemma ReplaceTwo(d: char, e: char, c: char, replacement: string)
    requires d != c && e != c
    ensures ReplaceAll([d, e], c, replacement) == [d, e]
  {
    assert [d, e][1..] == [e];
    ReplaceOne(e, c, replacement);
  }

  /** The order of the three replacements does no harm: together they escape each character once. */
  lemma {:induction false} EscapeIsPerCharacter(s: string)
    ensures Escape(s) == EscapeEach(s)
  {
    if s != "" {
      EscapeIsPerCharacter(s[1..]);
      assert s == [s[0]] + s[1..];
      ReplaceDistributes([s[0]], s[1..], '!', "!!");
      var a, b := ReplaceAll([s[0]], '!', "!!"), ReplaceAll(s[1..], '!', "!!");
      ReplaceDistributes(a, b, '%', "!%");
      ReplaceDistributes(ReplaceAll(a, '%', "!%"), ReplaceAll(b, '%', "!%"), '_', "!_");
      EscapeOfChar(s[0]);
    }
  }

  // ---------------------------------------------------------------------------------------------
  // LIKE
  // ---------------------------------------------------------------------------------------------

  datatype Token = AnyRun | AnyOne | Exactly(c: char)

  /** A pattern read token by token; an escape character at the end stands for itself. */
  function Tokens(pattern: string): seq<Token> {
    if pattern == "" then []
    else if pattern[0] == ESCAPE && 1 < |pattern| then [Exactly(pattern[1])] + Tokens(pattern[2..])
    else
      [if pattern[0] == '%' then AnyRun else if pattern[0] == '_' then AnyOne else Exactly(pattern[0])]
      + Tokens(pattern[1..])
  }

  /** `s` falls into consecutive pieces, one for each token. */
  predicate Matches(s: string, tokens: seq<Token>)
    decreases |tokens|, |s|
  {
    if tokens == [] then s == ""
    else
      match tokens[0]
      case AnyRun => exists k | 0 <= k <= |s| :: Matches(s[k..], tokens[1..])
      case AnyOne => s != "" && Matches(s[1..], tokens[1..])
      case Exactly(c) => s != "" && s[0] == c && Matches(s[1..], tokens[1..])
  }

  predicate Like(s: string, pattern: string) {
    Matches(s, Tokens(pattern))
  }

  ghost predicate Contains(s: string, text: string) {
    exists k :: IsAt(s, text, k)
  }

  predicate IsAt(s: string, text: string, k: int) {
    0 <= k <= |s| - |text| && s[k..k + |text|] == text
  }

  /** The dashboard's search pattern. */
  function SearchPattern(query: string): string {
    "%" + Escape(query) + "%"
  }

  function Literal(text: string): seq<Token> {
    if text == "" then [] else [Exactly(text[0])] + Literal(text[1..])
  }

  lemma EscapedCharReads(c: char, rest: string)
    ensures Tokens(EscapeChar(c) + rest) == [Exactly(c)] + Tokens(rest)
  {
    var pattern := EscapeChar(c) + rest;
    if IsSpecial(c) {
      assert pattern[0] == ESCAPE && pattern[1] == c && pattern[2..] == rest;
    } else {
      assert pattern[0] == c && pattern[1..] == rest;
    }
  }

  /** An escaped text reads as itself, whatever follows. */
  lemma {:induction false} EscapedReadsAsLiteral(text: string, rest: string)
    ensures Tokens(EscapeEach(text) + rest) == Literal(text) + Tokens(rest)
  {
    hide Tokens, EscapeChar;
    if text == "" {
      assert EscapeEach(text) + rest == rest;
    } else {
      EscapedReadsAsLiteral(text[1..], rest);
      EscapedCharReads(text[0], EscapeEach(text[1..]) + rest);
      assert EscapeEach(text) + rest == EscapeChar(text[0]) + (EscapeEach(text[1..]) + rest);
    }
  }

  lemma LiteralStep(s: string, c: char, tail: seq<Token>)
    ensures Matches(s, [Exactly(c)] + tail) <==> s != "" && s[0] == c && Matches(s[1..], tail)
  {
    assert ([Exactly(c)] + tail)[1..] == tail;
  }

  predicate StartsWith(s: string, text: string) {
    |text| <= |s| && s[..|text|] == text
  }

  lemma PrefixStep(s: string, text: string)
    requires s != "" && text != ""
    ensures StartsWith(s, text) <==> s[0] == text[0] && StartsWith(s[1..], text[1..])
    ensures StartsWith(s, text) ==> s[1..][|text| - 1..] == s[|text|..]
  {
    if |text| <= |s| {
      assert s[..|text|] == [s[0]] + s[1..][..|text| - 1];
      assert text == [text[0]] + text[1..];
    }
  }

  lemma {:induction false} LiteralPrefixMatches(s: string, text: string, rest: seq<Token>)
    ensures Matches(s, Literal(text) + rest) <==> StartsWith(s, text) && Matches(s[|text|..], rest)
  {
    hide Matches;
    if text == "" {
      assert Literal(text) + rest == rest && s[0..] == s;
    } else {
      assert Literal(text) + rest == [Exactly(text[0])] + (Literal(text[1..]) + rest);
      LiteralStep(s, text[0], Literal(text[1..]) + rest);
      if s != "" {
        LiteralPrefixMatches(s[1..], text[1..], rest);
        PrefixStep(s, text);
      }
    }
  }

  lemma AnyRunMatchesAll(s: string)
    ensures Matches(s, [AnyRun])
  {
    assert s[|s|..] == "" && [AnyRun][1..] == [];
    assert Matches(s[|s|..], [AnyRun][1..]);
  }

  /** The search pattern matches a string exactly when the string contains the query. */
  lemma SearchIsSubstring(s: string, query: string)
    ensures Like(s, SearchPattern(query)) <==> Contains(s, query)
  {
    EscapeIsPerCharacter(query);
    EscapedReadsAsLiteral(query, "%");
    assert Tokens("%") == [AnyRun];
    var pattern := SearchPattern(query);
    assert pattern[1..] == EscapeEach(query) + "%";
    var tokens := Tokens(pattern);
    assert tokens[0] == AnyRun && tokens[1..] == Literal(query) + [AnyRun];
    forall k | 0 <= k <= |s|
      ensures Matches(s[k..], tokens[1..]) <==> IsAt(s, query, k)
    {
      PrefixMatches(s, query, k);
    }
    assert Matches(s, tokens) <==> exists k | 0 <= k <= |s| :: Matches(s[k..], tokens[1..]);
  }

  lemma PrefixMatches(s: string, query: string, k: nat)
    requires k <= |s|
    ensures Matches(s[k..], Literal(query) + [AnyRun]) <==> IsAt(s, query, k)
  {
    LiteralPrefixMatches(s[k..], query, [AnyRun]);
    if |query| <= |s| - k {
      AnyRunMatchesAll(s[k..][|query|..]);
      assert s[k..][..|query|] == s[k..k + |query|];
    }
  }
}
