/** Matching the parenthesis that opens the variable definitions of a document. */
module Parens {
  import opened Options
  import opened Lexer
  import opened Tokens
  import opened Renaming

  // ----- What matching means -----

  /** How many parentheses the tokens open and do not close again. */
  function Depth(tokens: seq<Token>): int {
    if |tokens| == 0 then 0
    else Depth(tokens[..|tokens| - 1])
         + (match tokens[|tokens| - 1] case Mark(c) => if c == '(' then 1 else if c == ')' then -1 else 0 case _ => 0)
  }

  /** Token `n` closes the parenthesis that was opened first, and no token before it does. */
  ghost predicate ClosesAt(tokens: seq<Token>, n: nat) {
    && n < |tokens|
    && tokens[n] == Mark(')')
    && Depth(tokens[..n]) == 1
    && StaysOpen(tokens, n)
  }

  /** No parenthesis among the first `n` tokens closes the one that was opened first. */
  ghost predicate StaysOpen(tokens: seq<Token>, n: nat) {
    forall k :: 0 <= k < n <= |tokens| && tokens[k] == Mark(')') ==> Depth(tokens[..k]) > 1
  }

  /** No token of a balanced fragment closes a parenthesis that the fragment did not open. */
  ghost predicate Balanced(tokens: seq<Token>) {
    && Depth(tokens) == 0
    && forall k :: 0 <= k < |tokens| && tokens[k] == Mark(')') ==> Depth(tokens[..k]) > 0
  }

  lemma {:induction false} DepthConcat(a: seq<Token>, b: seq<Token>)
    ensures Depth(a + b) == Depth(a) + Depth(b)
    decreases |b|
  {
    if |b| == 0 {
      assert a + b == a;
    } else {
      DepthConcat(a, b[..|b| - 1]);
      assert (a + b)[..|a + b| - 1] == a + b[..|b| - 1];
    }
  }

  lemma BalancedConcat(a: seq<Token>, b: seq<Token>)
    requires Balanced(a) && Balanced(b)
    ensures Balanced(a + b)
  {
    DepthConcat(a, b);
    forall k | 0 <= k < |a + b| && (a + b)[k] == Mark(')')
      ensures Depth((a + b)[..k]) > 0
    {
      if k < |a| {
        assert (a + b)[..k] == a[..k];
      } else {
        assert (a + b)[..k] == a + b[..k - |a|];
        DepthConcat(a, b[..k - |a|]);
      }
    }
  }

  lemma {:induction false} DepthRenamed(tokens: seq<Token>, alias: string)
    ensures Depth(RenameTokens(tokens, alias)) == Depth(tokens)
    decreases |tokens|
  {
    if |tokens| > 0 {
      var n := |tokens| - 1;
      DepthRenamed(tokens[..n], alias);
      assert RenameTokens(tokens, alias)[..n] == RenameTokens(tokens[..n], alias);
    }
  }

  /** Renaming variables moves no parenthesis. */
  lemma BalancedRenamed(tokens: seq<Token>, alias: string)
    requires Balanced(tokens)
    ensures Balanced(RenameTokens(tokens, alias))
  {
    var renamed := RenameTokens(tokens, alias);
    DepthRenamed(tokens, alias);
    forall k | 0 <= k < |renamed| && renamed[k] == Mark(')')
      ensures Depth(renamed[..k]) > 0
    {
      assert renamed[..k] == RenameTokens(tokens[..k], alias);
      DepthRenamed(tokens[..k], alias);
    }
  }

  // ----- Counting parentheses -----

  /** Offset of the parenthesis that closes the last of `depth` open ones. */
  function CloseParen(tokens: seq<Token>, depth: nat): (close: Option<nat>)
    decreases |tokens|
  {
    if |tokens| == 0 then None
    else if tokens[0] == Mark('(') then Shift(1, CloseParen(tokens[1..], depth + 1))
    else if tokens[0] == Mark(')') then
      if depth == 0 then None
      else if depth == 1 then Some(0)
      else Shift(1, CloseParen(tokens[1..], depth - 1))
    else Shift(|TokenText(tokens[0])|, CloseParen(tokens[1..], depth))
  }

  function Shift(step: nat, close: Option<nat>): Option<nat> {
    match close
    case Some(n) => Some(step + n)
    case None => None
  }

  lemma DepthNext(tokens: seq<Token>, i: nat)
    requires i < |tokens|
    ensures Depth(tokens[..i + 1]) == Depth(tokens[..i]) + Depth([tokens[i]])
  {
    assert tokens[..i + 1] == tokens[..i] + [tokens[i]];
    DepthConcat(tokens[..i], [tokens[i]]);
  }

  lemma TextLenNext(tokens: seq<Token>, i: nat, n: nat)
    requires i < n <= |tokens|
    ensures |Text(tokens[i..n])| == |TokenText(tokens[i])| + |Text(tokens[i + 1..n])|
  {
    assert tokens[i..n][1..] == tokens[i + 1..n];
  }

  lemma DepthOfOne(token: Token)
    ensures Depth([token]) == (if token == Mark('(') then 1 else if token == Mark(')') then -1 else 0)
  {
    assert [token][..0] == [];
  }

  lemma ClosesAtOnce(tokens: seq<Token>, n: nat, m: nat)
    requires ClosesAt(tokens, n) && ClosesAt(tokens, m)
    ensures n == m
  {}

  lemma NothingClosesPast(tokens: seq<Token>, i: nat)
    requires i < |tokens| && StaysOpen(tokens, i) && tokens[i] == Mark(')') && Depth(tokens[..i]) < 1
    ensures forall k: nat :: !ClosesAt(tokens, k)
  {}

  /** What counting from token `i` on found is the closing token `n`, and where its text starts, or there is none. */
  ghost predicate Finds(tokens: seq<Token>, i: nat, close: Option<nat>, n: nat) {
    match close
    case Some(offset) => i <= n && ClosesAt(tokens, n) && offset == |Text(tokens[i..n])|
    case None => forall k: nat :: !ClosesAt(tokens, k)
  }

  lemma CloseParenNext(tokens: seq<Token>, i: nat, depth: nat)
    requires i < |tokens|
    ensures CloseParen(tokens[i..], depth) ==
            if tokens[i] == Mark(')') && depth == 0 then None
            else if tokens[i] == Mark(')') && depth == 1 then Some(0)
            else (DepthOfOne(tokens[i]);
                  Shift(|TokenText(tokens[i])|, CloseParen(tokens[i + 1..], depth + Depth([tokens[i]]))))
  {
    assert tokens[i..][0] == tokens[i] && tokens[i..][1..] == tokens[i + 1..];
    DepthOfOne(tokens[i]);
  }

  lemma FindsNext(tokens: seq<Token>, i: nat, close: Option<nat>, n: nat)
    requires i < |tokens| && Finds(tokens, i + 1, close, n)
    ensures Finds(tokens, i, Shift(|TokenText(tokens[i])|, close), n)
  {
    if close.Some? {
      TextLenNext(tokens, i, n);
    }
  }

  lemma {:induction false} CloseParenFrom(tokens: seq<Token>, i: nat) returns (n: nat)
    requires i <= |tokens| && StaysOpen(tokens, i) && Depth(tokens[..i]) >= 0
    ensures Finds(tokens, i, CloseParen(tokens[i..], Depth(tokens[..i])), n)
    decreases |tokens| - i
  {
    n := i;
    if i < |tokens| {
      var depth := Depth(tokens[..i]);
      CloseParenNext(tokens, i, depth);
      DepthNext(tokens, i);
      DepthOfOne(tokens[i]);
      if tokens[i] == Mark(')') && depth == 1 {
        assert Text(tokens[i..i]) == "";
      } else if tokens[i] == Mark(')') && depth == 0 {
        NothingClosesPast(tokens, i);
      } else {
        n := CloseParenFrom(tokens, i + 1);
        FindsNext(tokens, i, CloseParen(tokens[i + 1..], Depth(tokens[..i + 1])), n);
      }
    }
  }

  /**
   Counting finds exactly the matching parenthesis: the token that closes the first one, wherever it is, and `None` when
   nothing closes it.
   */
  lemma CloseParenMeaning(tokens: seq<Token>)
    ensures CloseParen(tokens, 0).None? <==> forall n: nat :: !ClosesAt(tokens, n)
    ensures forall n: nat :: ClosesAt(tokens, n) ==> CloseParen(tokens, 0) == Some(|Text(tokens[..n])|)
  {
    assert tokens[..0] == [] && tokens[0..] == tokens;
    var m := CloseParenFrom(tokens, 0);
    if CloseParen(tokens, 0).Some? {
      forall n: nat | ClosesAt(tokens, n)
        ensures n == m
      {
        ClosesAtOnce(tokens, n, m);
      }
      assert tokens[0..m] == tokens[..m];
    }
  }

  /** What lies between an opening parenthesis and the one that closes it is balanced. */
  lemma BetweenParensIsBalanced(tokens: seq<Token>, n: nat)
    requires 0 < n && ClosesAt(tokens, n) && tokens[0] == Mark('(')
    ensures Balanced(tokens[1..n])
  {
    var inner := tokens[1..n];
    forall k | 0 <= k <= |inner|
      ensures Depth(tokens[..k + 1]) == 1 + Depth(inner[..k])
    {
      assert tokens[..k + 1] == [tokens[0]] + inner[..k];
      DepthConcat([tokens[0]], inner[..k]);
      DepthOfOne(tokens[0]);
    }
    assert inner[..|inner|] == inner;
    forall k | 0 <= k < |inner| && inner[k] == Mark(')')
      ensures Depth(inner[..k]) > 0
    {
      assert tokens[k + 1] == Mark(')');
    }
  }

  /** And the other way round: parentheses around a balanced fragment match each other. */
  lemma ParensAroundBalanced(inner: seq<Token>, rest: seq<Token>)
    requires Balanced(inner)
    ensures ClosesAt([Mark('(')] + inner + [Mark(')')] + rest, |inner| + 1)
  {
    var tokens := [Mark('(')] + inner + [Mark(')')] + rest;
    forall k | 0 <= k <= |inner|
      ensures Depth(tokens[..k + 1]) == 1 + Depth(inner[..k])
    {
      assert tokens[..k + 1] == [Mark('(')] + inner[..k];
      DepthConcat([Mark('(')], inner[..k]);
      DepthOfOne(Mark('('));
    }
    assert inner[..|inner|] == inner;
    forall k | 0 <= k < |inner| + 1 && tokens[k] == Mark(')')
      ensures Depth(tokens[..k]) > 1
    {
      assert k > 0 && tokens[k] == inner[k - 1];
      assert tokens[..(k - 1) + 1] == tokens[..k];
    }
  }

  // ----- The scanning loop -----

  /** The offset of the parenthesis that closes the leading one in `text`. */
  function MatchingParen(text: string): Option<nat> {
    CloseParen(Tokenise(text), 0)
  }

  lemma CloseParenLiteral(text: string, depth: nat)
    requires LiteralLen(text).Some?
    ensures CloseParen(Tokenise(text), depth)
         == Shift(LiteralLen(text).value, CloseParen(Tokenise(text[LiteralLen(text).value..]), depth))
  {
    AfterFirstIs(text, Literal(text[..LiteralLen(text).value]));
  }

  lemma TokeniseFirstMark(text: string)
    requires |text| > 0 && LiteralLen(text).None? && !IsNameChar(text[0])
    requires text[0] == '$' ==> NameLen(text[1..]) == 0
    ensures Tokenise(text) == [Mark(text[0])] + Tokenise(text[1..])
  {
    AfterFirstIs(text, Mark(text[0]));
  }

  lemma CloseParenRun(text: string, depth: nat)
    ensures CloseParen(Tokenise(text), depth)
         == Shift(NameLen(text), CloseParen(Tokenise(text[NameLen(text)..]), depth))
  {
    if |text| == 0 || !IsNameChar(text[0]) {
      assert text[0..] == text;
    } else {
      FirstWord(text);
    }
  }

  lemma CloseParenVariable(text: string, depth: nat)
    requires |text| > 0 && text[0] == '$' && NameLen(text[1..]) > 0
    ensures CloseParen(Tokenise(text), depth) == Shift(1, CloseParen(Tokenise(text[1..]), depth))
  {
    var n := NameLen(text[1..]);
    FirstVariable(text, n);
    CloseParenSkips(Variable(text[1..][..n]), Tokenise(text[1..][n..]), depth);
    CloseParenRun(text[1..], depth);
  }

  lemma CloseParenSkips(token: Token, tokens: seq<Token>, depth: nat)
    requires !token.Mark?
    ensures CloseParen([token] + tokens, depth) == Shift(|TokenText(token)|, CloseParen(tokens, depth))
  {}

  lemma CloseParenInWord(text: string, depth: nat)
    requires |text| > 0 && IsNameChar(text[0])
    ensures CloseParen(Tokenise(text), depth) == Shift(1, CloseParen(Tokenise(text[1..]), depth))
  {
    SplitWord(text);
    CloseParenRun(text, depth);
    CloseParenRun(text[1..], depth);
  }

  /** Character by character, nothing outside a literal but a parenthesis changes the count. */
  lemma CloseParenChar(text: string, depth: nat)
    requires |text| > 0 && LiteralLen(text).None? && text[0] != '(' && text[0] != ')'
    ensures CloseParen(Tokenise(text), depth) == Shift(1, CloseParen(Tokenise(text[1..]), depth))
  {
    if IsNameChar(text[0]) {
      CloseParenInWord(text, depth);
    } else if text[0] == '$' && NameLen(text[1..]) > 0 {
      CloseParenVariable(text, depth);
    } else {
      TokeniseFirstMark(text);
    }
  }

  lemma CloseParenOfMark(c: char, tokens: seq<Token>, depth: nat)
    requires c == '(' || c == ')'
    ensures CloseParen([Mark(c)] + tokens, depth) ==
            if c == '(' then Shift(1, CloseParen(tokens, depth + 1))
            else if depth == 0 then None
            else if depth == 1 then Some(0)
            else Shift(1, CloseParen(tokens, depth - 1))
  {}

  /** The scan, one character or literal at a time. */
  function Scan(text: string, depth: nat): Option<nat>
    decreases |text|
  {
    if |text| == 0 then None
    else
      match LiteralLen(text)
      case Some(n) => Shift(n, Scan(text[n..], depth))
      case None => ScanChar(text[0], text[1..], depth)
  }

  function ScanChar(c: char, rest: string, depth: nat): Option<nat>
    decreases |rest| + 1, 0
  {
    if c == '(' then Shift(1, Scan(rest, depth + 1))
    else if c != ')' then Shift(1, Scan(rest, depth))
    else if depth == 0 then None
    else if depth == 1 then Some(0)
    else Shift(1, Scan(rest, depth - 1))
  }

  lemma ScanCountsMark(text: string, depth: nat)
    requires |text| > 0 && (text[0] == '(' || text[0] == ')')
    requires forall d: nat :: Scan(text[1..], d) == CloseParen(Tokenise(text[1..]), d)
    ensures ScanChar(text[0], text[1..], depth) == CloseParen(Tokenise(text), depth)
  {
    TokeniseFirstMark(text);
    CloseParenOfMark(text[0], Tokenise(text[1..]), depth);
  }

  lemma ScanCountsChar(text: string, depth: nat)
    requires |text| > 0 && LiteralLen(text).None?
    requires forall d: nat :: Scan(text[1..], d) == CloseParen(Tokenise(text[1..]), d)
    ensures ScanChar(text[0], text[1..], depth) == CloseParen(Tokenise(text), depth)
  {
    if text[0] == '(' || text[0] == ')' {
      ScanCountsMark(text, depth);
    } else {
      CloseParenChar(text, depth);
    }
  }

  /** Scanning characters counts tokens. */
  lemma {:induction false} ScanCounts(text: string, depth: nat)
    ensures Scan(text, depth) == CloseParen(Tokenise(text), depth)
    decreases |text|
  {
    if |text| > 0 {
      if LiteralLen(text).Some? {
        ScanCounts(text[LiteralLen(text).value..], depth);
        CloseParenLiteral(text, depth);
      } else {
        forall d: nat
          ensures Scan(text[1..], d) == CloseParen(Tokenise(text[1..]), d)
        {
          ScanCounts(text[1..], d);
        }
        ScanCountsChar(text, depth);
      }
    }
  }

  lemma DropDrop(text: string, offset: nat, n: nat)
    requires offset + n <= |text|
    ensures text[offset..][n..] == text[offset + n..]
  {}

  lemma ShiftTwice(a: nat, b: nat, close: Option<nat>)
    ensures Shift(a, Shift(b, close)) == Shift(a + b, close)
  {}

  lemma ScanLiteral(text: string, offset: nat, depth: nat, n: nat)
    requires offset <= |text| && LiteralLen(text[offset..]) == Some(n)
    ensures Shift(offset, Scan(text[offset..], depth)) == Shift(offset + n, Scan(text[offset + n..], depth))
  {
    DropDrop(text, offset, n);
    ShiftTwice(offset, n, Scan(text[offset + n..], depth));
  }

  lemma ScanOneChar(text: string, offset: nat, depth: nat)
    requires offset < |text| && LiteralLen(text[offset..]).None?
    ensures Shift(offset, Scan(text[offset..], depth)) ==
            if text[offset] == '(' then Shift(offset + 1, Scan(text[offset + 1..], depth + 1))
            else if text[offset] != ')' then Shift(offset + 1, Scan(text[offset + 1..], depth))
            else if depth == 0 then None
            else if depth == 1 then Some(offset)
            else Shift(offset + 1, Scan(text[offset + 1..], depth - 1))
  {
    DropDrop(text, offset, 1);
    ShiftTwice(offset, 1, Scan(text[offset + 1..], depth));
    ShiftTwice(offset, 1, Scan(text[offset + 1..], depth + 1));
    if depth > 0 {
      ShiftTwice(offset, 1, Scan(text[offset + 1..], depth - 1));
    }
  }

  /** Returns the offset of the parenthesis that closes the leading one in `text`. */
  method FindMatchingParen(text: string) returns (close: Option<nat>)
    ensures close == MatchingParen(text)
  {
    var depth: nat := 0;
    var offset := 0;
    assert text[0..] == text;
    while offset < |text|
      invariant offset <= |text| && Scan(text, 0) == Shift(offset, Scan(text[offset..], depth))
      decreases |text| - offset
    {
      var length := StringLiteralLen(text[offset..]);
      if length.Some? {
        ScanLiteral(text, offset, depth, length.value);
        offset := offset + length.value;
        continue;
      }

      ScanOneChar(text, offset, depth);
      var character := text[offset];
      if character == '(' {
        depth := depth + 1;
      } else if character == ')' {
        if depth == 0 {
          break;
        }
        depth := depth - 1;
        if depth == 0 {
          ScanCounts(text, 0);
          return Some(offset);
        }
      }
      offset := offset + 1;
    }
    ScanCounts(text, 0);
    return None;
  }
}
