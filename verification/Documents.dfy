/** Taking a single-field subscription document apart: its variable definitions and its root field. */
module Documents {
  import opened Options
  import opened Tokens
  import opened Renaming
  import opened Parens

  /** `char::is_whitespace`: the Unicode White_Space characters. */
  predicate IsWhitespace(c: char) {
    '\t' <= c <= '\r' || c == ' ' || c == '\U{85}' || c == '\U{A0}' || c == '\U{1680}'
    || '\U{2000}' <= c <= '\U{200A}' || c == '\U{2028}' || c == '\U{2029}' || c == '\U{202F}' || c == '\U{205F}'
    || c == '\U{3000}'
  }

  /** How many whitespace characters `text` starts with. */
  function Indent(text: string): (n: nat)
    ensures n <= |text|
  {
    if |text| == 0 || !IsWhitespace(text[0]) then 0 else 1 + Indent(text[1..])
  }

  function TrimStart(text: string): string {
    text[Indent(text)..]
  }

  /** Offset of the first character that is one of `wanted`. */
  function FindFirst(text: string, wanted: set<char>): (found: Option<nat>)
    ensures found.Some? ==> found.value < |text| && text[found.value] in wanted
  {
    if |text| == 0 then None
    else if text[0] in wanted then Some(0)
    else Shift(1, FindFirst(text[1..], wanted))
  }

  /** Offset of the last character that is `wanted`. */
  function FindLast(text: string, wanted: char): (found: Option<nat>)
    ensures found.Some? ==> found.value < |text| && text[found.value] == wanted
  {
    if |text| == 0 then None
    else if text[|text| - 1] == wanted then Some(|text| - 1)
    else FindLast(text[..|text| - 1], wanted)
  }

  lemma {:induction false} CloseParenInRange(tokens: seq<Token>, depth: nat)
    ensures CloseParen(tokens, depth).Some? ==> CloseParen(tokens, depth).value < |Text(tokens)|
    ensures CloseParen(tokens, depth).Some? && tokens[0] == Mark('(') ==> CloseParen(tokens, depth).value > 0
    decreases |tokens|
  {
    if |tokens| > 0 {
      CloseParenInRange(tokens[1..], if tokens[0] == Mark('(') then depth + 1
                                     else if tokens[0] == Mark(')') && depth > 0 then depth - 1 else depth);
    }
  }

  lemma MatchingParenInRange(text: string)
    requires |text| > 0 && text[0] == '('
    ensures MatchingParen(text).Some? ==> 0 < MatchingParen(text).value < |text|
  {
    CloseParenInRange(Tokenise(text), 0);
    TextOfTokens(text);
  }

  const KEYWORD := "subscription"

  /** Splits a single-field subscription document into its variable definitions and its root field. */
  function SplitDocument(document: string): Option<(string, string)> {
    var trimmed := TrimStart(document);
    if !(KEYWORD <= trimmed) then None
    else SplitAfterKeyword(TrimStart(trimmed[|KEYWORD|..]))
  }

  function SplitAfterKeyword(afterKeyword: string): Option<(string, string)> {
    match FindFirst(afterKeyword, {'(', '{'})
    case None => None
    case Some(start) => SplitAfterName(afterKeyword[start..])
  }

  function SplitAfterName(afterName: string): Option<(string, string)>
    requires |afterName| > 0
  {
    if afterName[0] == '(' then
      match MatchingParen(afterName)
      case None => None
      case Some(close) =>
        MatchingParenInRange(afterName);
        SplitSelection(afterName[1..close], afterName[close + 1..])
    else SplitSelection("", afterName)
  }

  function SplitSelection(definitions: string, selection: string): Option<(string, string)> {
    var trimmed := TrimStart(selection);
    match (FindFirst(trimmed, {'{'}), FindLast(trimmed, '}'))
    case (Some(open), Some(close)) => if close <= open then None else Some((definitions, trimmed[open + 1..close]))
    case _ => None
  }

  /** Variable definitions that can stand between the parentheses of a document, alone or next to others. */
  ghost predicate SelfContained(definitions: string) {
    AllClosed(Tokenise(definitions)) && Balanced(Tokenise(definitions))
  }

  lemma MakesSelfContained(definitions: string, tokens: seq<Token>)
    requires Tokenise(definitions) == tokens && AllClosed(tokens) && Balanced(tokens)
    ensures SelfContained(definitions)
  {}

  lemma FrontAfterFirst(token: Token, rest: seq<Token>, n: nat)
    requires 0 < n <= |rest| + 1
    ensures ([token] + rest)[1..n] == rest[..n - 1]
  {}

  /** The tokens between a parenthesis and the one that closes it are tokens of the text they make up. */
  lemma InnerIsSelfContained(text: string, tokens: seq<Token>, n: nat)
    requires tokens == [Mark('(')] + Tokenise(text) && 0 < n < |tokens| && ClosesAt(tokens, n)
    ensures n <= |Tokenise(text)| && SelfContained(Text(Tokenise(text)[..n - 1]))
  {
    hide *;
    assert |Tokenise(text)| == |tokens| - 1 && tokens[0] == Mark('(');
    BetweenParensIsBalanced(tokens, n);
    TokenisePrefix(text, n - 1);
    EarlierTokensAreClosed(text, n - 1);
    FrontAfterFirst(Mark('('), Tokenise(text), n);
    MakesSelfContained(Text(Tokenise(text)[..n - 1]), Tokenise(text)[..n - 1]);
  }

  lemma ClosesLater(tokens: seq<Token>, n: nat)
    requires ClosesAt(tokens, n) && tokens[0] == Mark('(')
    ensures 0 < n < |tokens|
  {}

  /** The text between matching parentheses is self-contained. */
  lemma BetweenParensIsSelfContained(text: string)
    requires |text| > 0 && text[0] == '(' && MatchingParen(text).Some?
    requires 0 < MatchingParen(text).value < |text|
    ensures SelfContained(text[1..MatchingParen(text).value])
  {
    var tokens := Tokenise(text);
    TokeniseFirstMark(text);
    CloseParenMeaning(tokens);
    var n: nat :| ClosesAt(tokens, n);
    ClosesLater(tokens, n);
    InnerIsSelfContained(text[1..], tokens, n);
    hide SelfContained;
    hide Tokenise;
    hide ClosesAt;
    hide CloseParen;
    InnerText(text, n);
  }

  lemma InnerText(text: string, n: nat)
    requires |text| > 0 && text[0] == '('
    requires 0 < n <= |Tokenise(text)|
    requires Tokenise(text) == [Mark('(')] + Tokenise(text[1..])
    ensures var close := |Text(Tokenise(text)[..n])|;
            close <= |text| && text[1..close] == Text(Tokenise(text[1..])[..n - 1])
  {
    var tokens := Tokenise(text);
    TextOfTokens(text);
    assert tokens == tokens[..n] + tokens[n..];
    TextConcat(tokens[..n], tokens[n..]);
    assert tokens[..n][1..] == Tokenise(text[1..])[..n - 1];
    assert Text(tokens[..n]) == "(" + Text(Tokenise(text[1..])[..n - 1]);
  }

  /** Whatever definitions `SplitDocument` finds are self-contained. */
  lemma SplitDefinitionsAreSelfContained(document: string)
    requires SplitDocument(document).Some?
    ensures SelfContained(SplitDocument(document).value.0)
  {
    hide SelfContained;
    hide MatchingParen;
    hide TrimStart;
    var afterKeyword := TrimStart(TrimStart(document)[|KEYWORD|..]);
    var afterName := afterKeyword[FindFirst(afterKeyword, {'(', '{'}).value..];
    if afterName[0] == '(' {
      MatchingParenInRange(afterName);
      BetweenParensIsSelfContained(afterName);
    } else {
      NoDefinitionsAreSelfContained();
    }
  }

  lemma NoDefinitionsAreSelfContained()
    ensures SelfContained("")
  {}

  lemma RenamedIsSelfContained(definitions: string, alias: string)
    requires SelfContained(definitions) && IsName(alias)
    ensures SelfContained(Rename(definitions, alias))
  {
    RenameCommutes(definitions, alias);
    BalancedRenamed(Tokenise(definitions), alias);
  }

  lemma TokeniseMark(c: char, rest: string)
    requires c != '"' && c != '$' && !IsNameChar(c)
    ensures Tokenise([c] + rest) == [Mark(c)] + Tokenise(rest)
  {
    TokeniseStep(Mark(c), rest);
  }

  lemma MarkIsBalanced(c: char)
    requires c != '(' && c != ')'
    ensures Balanced([Mark(c)])
  {
    DepthOfOne(Mark(c));
  }

  lemma SelfContainedAfterMark(c: char, rest: string)
    requires c != '"' && c != '$' && !IsNameChar(c) && c != '(' && c != ')'
    requires SelfContained(rest)
    ensures SelfContained([c] + rest)
  {
    TokeniseMark(c, rest);
    MarkIsBalanced(c);
    BalancedConcat([Mark(c)], Tokenise(rest));
    AllClosedParts(Mark(c), Tokenise(rest));
  }

  lemma AllClosedConcat(a: seq<Token>, b: seq<Token>)
    requires AllClosed(a) && AllClosed(b)
    ensures AllClosed(a + b)
  {}

  lemma SelfContainedConcat(a: string, b: string)
    requires SelfContained(a) && SelfContained(b) && Neutral(b)
    ensures SelfContained(a + b)
  {
    TokeniseConcat(a, b);
    BalancedConcat(Tokenise(a), Tokenise(b));
    AllClosedConcat(Tokenise(a), Tokenise(b));
  }

  lemma JoinedIsSelfContained(a: string, b: string)
    requires SelfContained(a) && SelfContained(b)
    ensures SelfContained(a + ([','] + ([' '] + b)))
  {
    SelfContainedAfterMark(' ', b);
    SelfContainedAfterMark(',', [' '] + b);
    SelfContainedConcat(a, [','] + ([' '] + b));
  }

  lemma TokeniseParenthesised(definitions: string, rest: string)
    requires SelfContained(definitions)
    ensures Tokenise(['('] + (definitions + ([')'] + rest)))
         == [Mark('(')] + (Tokenise(definitions) + ([Mark(')')] + Tokenise(rest)))
  {
    TokeniseMark(')', rest);
    TokeniseConcat(definitions, [')'] + rest);
    TokeniseMark('(', definitions + ([')'] + rest));
  }

  lemma Reassociate(inner: seq<Token>, rest: seq<Token>)
    ensures [Mark('(')] + inner + [Mark(')')] + rest == [Mark('(')] + (inner + ([Mark(')')] + rest))
    ensures ([Mark('(')] + inner + [Mark(')')] + rest)[..|inner| + 1] == [Mark('(')] + inner
  {}

  lemma TextOfOpening(inner: seq<Token>)
    ensures |Text([Mark('(')] + inner)| == |Text(inner)| + 1
  {
    assert ([Mark('(')] + inner)[1..] == inner;
  }

  lemma CountsAroundBalanced(inner: seq<Token>, rest: seq<Token>)
    requires Balanced(inner)
    ensures CloseParen([Mark('(')] + (inner + ([Mark(')')] + rest)), 0) == Some(|Text(inner)| + 1)
  {
    Reassociate(inner, rest);
    TextOfOpening(inner);
    ParensAroundBalanced(inner, rest);
    CloseParenMeaning([Mark('(')] + inner + [Mark(')')] + rest);
  }

  /** Parentheses written around self-contained definitions match each other. */
  lemma ParensAroundMatch(definitions: string, rest: string)
    requires SelfContained(definitions)
    ensures MatchingParen(['('] + (definitions + ([')'] + rest))) == Some(|definitions| + 1)
  {
    TokeniseParenthesised(definitions, rest);
    CountsAroundBalanced(Tokenise(definitions), Tokenise(rest));
    TextOfTokens(definitions);
  }
}
