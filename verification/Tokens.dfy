/**
 The tokens of a GraphQL fragment. A token keeps its text, so that tokens can be written out again; what a fragment
 reads as does not depend on what it is glued to, as long as the seam does not extend a token.
 */
module Tokens {
  import opened Options
  import opened Lexer

  datatype Token =
    | Literal(text: string)   // a string or block string, quotes included
    | Variable(name: string)  // `$name`
    | Word(text: string)      // a run of name characters
    | Mark(c: char)           // any other character

  predicate IsNameChar(c: char) {
    'a' <= c <= 'z' || 'A' <= c <= 'Z' || '0' <= c <= '9' || c == '_'
  }

  predicate IsName(text: string) {
    forall i :: 0 <= i < |text| ==> IsNameChar(text[i])
  }

  /** Length of the longest run of name characters `text` starts with. */
  function NameLen(text: string): (n: nat)
    ensures n <= |text|
  {
    if |text| == 0 || !IsNameChar(text[0]) then 0 else 1 + NameLen(text[1..])
  }

  lemma {:induction false} NameLenIsLongest(text: string)
    ensures IsName(text[..NameLen(text)])
    ensures NameLen(text) < |text| ==> !IsNameChar(text[NameLen(text)])
  {
    if |text| > 0 && IsNameChar(text[0]) {
      NameLenIsLongest(text[1..]);
      assert text[..NameLen(text)] == [text[0]] + text[1..][..NameLen(text[1..])];
    }
  }

  lemma {:induction false} NameLenOfName(name: string, tail: string)
    requires IsName(name) && (|tail| == 0 || !IsNameChar(tail[0]))
    ensures NameLen(name + tail) == |name|
  {
    if |name| == 0 {
      assert name + tail == tail;
    } else {
      assert (name + tail)[1..] == name[1..] + tail;
      NameLenOfName(name[1..], tail);
    }
  }

  function TokenText(token: Token): string {
    match token
    case Literal(text) => text
    case Variable(name) => "$" + name
    case Word(text) => text
    case Mark(c) => [c]
  }

  function FirstToken(text: string): (token: Token)
    requires |text| > 0
    ensures 0 < |TokenText(token)| <= |text|
  {
    match LiteralLen(text)
    case Some(n) => Literal(text[..n])
    case None =>
      if text[0] == '$' && NameLen(text[1..]) > 0 then Variable(text[1..][..NameLen(text[1..])])
      else if IsNameChar(text[0]) then Word(text[..NameLen(text)])
      else Mark(text[0])
  }

  function AfterFirst(text: string): (rest: string)
    requires |text| > 0
    ensures |rest| < |text|
  {
    text[|TokenText(FirstToken(text))|..]
  }

  lemma FirstTokenText(text: string)
    requires |text| > 0
    ensures TokenText(FirstToken(text)) == text[..|TokenText(FirstToken(text))|]
  {}

  lemma TextSplits(text: string)
    requires |text| > 0
    ensures text == TokenText(FirstToken(text)) + AfterFirst(text)
  {
    FirstTokenText(text);
  }

  function Tokenise(text: string): seq<Token>
    decreases |text|
  {
    if |text| == 0 then [] else [FirstToken(text)] + Tokenise(AfterFirst(text))
  }

  function Text(tokens: seq<Token>): string {
    if |tokens| == 0 then "" else TokenText(tokens[0]) + Text(tokens[1..])
  }

  /** The lexer loses nothing. */
  lemma {:induction false} TextOfTokens(text: string)
    ensures Text(Tokenise(text)) == text
    decreases |text|
  {
    if |text| > 0 {
      TextOfTokens(AfterFirst(text));
      TextSplits(text);
      assert Tokenise(text)[1..] == Tokenise(AfterFirst(text));
    }
  }

  /** A run of name characters that nothing lengthens. */
  predicate IsLongest(name: string, rest: string) {
    |name| > 0 && IsName(name) && (|rest| > 0 ==> !IsNameChar(rest[0]))
  }

  /** What a text starts with, by its first character. */
  predicate IsFirst(token: Token, text: string, rest: string)
    requires |text| > 0
  {
    match token
    case Literal(literal) => text[0] == '"' && LiteralLen(text) == Some(|literal|)
    case Variable(name) => text[0] == '$' && IsLongest(name, rest)
    case Word(name) => IsNameChar(text[0]) && IsLongest(name, rest)
    case Mark(c) => text[0] == c && c != '"' && !IsNameChar(c)
                    && (c == '$' && |rest| > 0 ==> !IsNameChar(rest[0]))
  }

  /** The first token is the one that the text starts with. */
  lemma FirstTokenMeans(text: string, token: Token, rest: string)
    requires |text| > 0 && text == TokenText(token) + rest
    ensures FirstToken(text) == token <==> IsFirst(token, text, rest)
  {
    if FirstToken(text) == token {
      FirstIs(text);
      assert rest == AfterFirst(text);
    }
    if IsFirst(token, text, rest) {
      IsFirstOnly(text, token, rest);
    }
  }

  lemma FirstIs(text: string)
    requires |text| > 0
    ensures IsFirst(FirstToken(text), text, AfterFirst(text))
  {
    var token := FirstToken(text);
    var n := |TokenText(token)|;
    assert n < |text| ==> AfterFirst(text)[0] == text[n];
    match token
    case Literal(_) =>
    case Variable(name) =>
      NameLenIsLongest(text[1..]);
      assert n < |text| ==> text[1..][n - 1] == text[n];
    case Word(_) =>
      NameLenIsLongest(text);
    case Mark(_) =>
      if |text| > 1 && text[0] == '$' {
        assert text[1..][0] == text[1];
      }
  }

  lemma IsFirstOnly(text: string, token: Token, rest: string)
    requires |text| > 0 && text == TokenText(token) + rest && IsFirst(token, text, rest)
    ensures FirstToken(text) == token
  {
    match token
    case Literal(literal) =>
      assert text[..|literal|] == literal;
    case Variable(name) =>
      assert text[1..] == name + rest;
      NameLenOfName(name, rest);
      assert (name + rest)[..|name|] == name;
    case Word(name) =>
      NameLenOfName(name, rest);
      assert (name + rest)[..|name|] == name;
    case Mark(c) =>
      assert text[1..] == rest;
  }

  lemma StringAssoc(a: string, b: string, c: string)
    ensures a + (b + c) == a + b + c
  {}

  lemma {:induction false} TextConcat(a: seq<Token>, b: seq<Token>)
    ensures Text(a + b) == Text(a) + Text(b)
  {
    if |a| == 0 {
      assert a + b == b;
    } else {
      assert (a + b)[0] == a[0] && (a + b)[1..] == a[1..] + b;
      TextConcat(a[1..], b);
      StringAssoc(TokenText(a[0]), Text(a[1..]), Text(b));
    }
  }

  // ----- Seams -----

  /** Nothing that follows can become part of the token, save by extending a name or an opening quote. */
  predicate Closed(token: Token) {
    token.Literal? ==> Terminated(token.text)
  }

  predicate AllClosed(tokens: seq<Token>) {
    forall i :: 0 <= i < |tokens| ==> Closed(tokens[i])
  }

  /** `tail` starts with a character that extends no token, if it starts with any. */
  predicate Neutral(tail: string) {
    |tail| == 0 || (!IsNameChar(tail[0]) && tail[0] != '"')
  }

  /** Two continuations that look the same to the token before them. */
  predicate SameHead(a: string, b: string) {
    (|a| == 0 <==> |b| == 0) && (|a| > 0 ==> a[0] == b[0])
  }

  /** What `FirstToken` needs of the text that follows a token for the token to be read back. */
  predicate Separates(token: Token, tail: string) {
    match token
    case Literal(text) =>
      |text| > 0 && text[0] == '"'
      && (if Terminated(text) then (|text| == 2 ==> |tail| == 0 || tail[0] != '"')
          else |tail| == 0 && LiteralLen(text) == Some(|text|))
    case Variable(name) => |name| > 0 && IsName(name) && (|tail| == 0 || !IsNameChar(tail[0]))
    case Word(text) => |text| > 0 && IsName(text) && (|tail| == 0 || !IsNameChar(tail[0]))
    case Mark(c) => c != '"' && !IsNameChar(c) && (c == '$' ==> |tail| == 0 || !IsNameChar(tail[0]))
  }

  lemma FirstTokenSeparates(text: string)
    requires |text| > 0
    ensures Separates(FirstToken(text), AfterFirst(text))
    ensures AfterFirst(text) != "" ==> Closed(FirstToken(text))
  {
    var token := FirstToken(text);
    var n := |TokenText(token)|;
    assert n < |text| ==> AfterFirst(text)[0] == text[n];
    match token
    case Literal(_) =>
      if n < |text| {
        FollowedLiteralIsTerminated(text);
      } else {
        assert text[..n] == text;
      }
    case Variable(name) =>
      NameLenIsLongest(text[1..]);
      assert n < |text| ==> text[1..][n - 1] == text[n];
    case Word(_) =>
      NameLenIsLongest(text);
    case Mark(_) =>
      if |text| > 1 && text[0] == '$' {
        assert text[1..][0] == text[1];
      }
  }

  lemma ReadBackLiteral(literal: string, tail: string)
    requires Separates(Literal(literal), tail)
    ensures FirstToken(literal + tail) == Literal(literal)
  {
    var text := literal + tail;
    if Terminated(literal) {
      LiteralStable(literal, tail);
    } else {
      assert text == literal;
    }
    assert text[..|literal|] == literal;
  }

  lemma ReadBackVariable(name: string, tail: string)
    requires Separates(Variable(name), tail)
    ensures FirstToken("$" + name + tail) == Variable(name)
  {
    var text := "$" + name + tail;
    assert text[1..] == name + tail;
    assert text[1..][..|name|] == name;
    NameLenOfName(name, tail);
  }

  lemma ReadBackWord(word: string, tail: string)
    requires Separates(Word(word), tail)
    ensures FirstToken(word + tail) == Word(word)
  {
    var text := word + tail;
    assert text[..|word|] == word;
    assert text[0] == word[0];
    NameLenOfName(word, tail);
  }

  lemma ReadBackMark(c: char, tail: string)
    requires Separates(Mark(c), tail)
    ensures FirstToken([c] + tail) == Mark(c)
  {
    assert ([c] + tail)[1..] == tail;
  }

  /** A token that its continuation separates is the first token of the text they make up. */
  lemma ReadBack(token: Token, tail: string)
    requires Separates(token, tail)
    ensures |TokenText(token) + tail| > 0 && FirstToken(TokenText(token) + tail) == token
    ensures AfterFirst(TokenText(token) + tail) == tail
  {
    match token
    case Literal(literal) => ReadBackLiteral(literal, tail);
    case Variable(name) => ReadBackVariable(name, tail);
    case Word(word) => ReadBackWord(word, tail);
    case Mark(c) => ReadBackMark(c, tail);
  }

  /** Reading a text back token by token. */
  lemma TokeniseStep(token: Token, tail: string)
    requires Separates(token, tail)
    ensures Tokenise(TokenText(token) + tail) == [token] + Tokenise(tail)
  {
    ReadBack(token, tail);
  }

  lemma SeparatesSameHead(token: Token, a: string, b: string)
    requires Separates(token, a) && SameHead(a, b)
    ensures Separates(token, b)
  {}

  lemma SeparatesNeutral(token: Token, a: string, b: string)
    requires Separates(token, a) && Closed(token) && Neutral(b)
    ensures Separates(token, b)
  {}

  lemma AllClosedParts(token: Token, tokens: seq<Token>)
    ensures AllClosed([token] + tokens) <==> Closed(token) && AllClosed(tokens)
  {
    var all := [token] + tokens;
    assert forall i :: 0 <= i < |tokens| ==> tokens[i] == all[i + 1];
    assert all[0] == token;
  }

  // ----- Gluing fragments together -----

  function LastToken(text: string): Token
    requires |Tokenise(text)| > 0
  {
    Tokenise(text)[|Tokenise(text)| - 1]
  }

  /** The last token of `a` stays what it is when `b` follows. */
  predicate Seam(a: string, b: string) {
    |a| == 0 || |b| == 0 || Separates(LastToken(a), b)
  }

  lemma SplitFirst(a: string, b: string)
    requires |a| > 0
    ensures a + b == TokenText(FirstToken(a)) + (AfterFirst(a) + b)
  {
    TextSplits(a);
  }

  lemma LastOfRest(a: string)
    requires |a| > 0 && |AfterFirst(a)| > 0
    ensures LastToken(a) == LastToken(AfterFirst(a))
  {}

  lemma LastIsFirst(a: string)
    requires |a| > 0 && |AfterFirst(a)| == 0
    ensures Tokenise(a) == [FirstToken(a)]
  {}

  lemma SeamOfRest(a: string, b: string)
    requires |a| > 0
    ensures Seam(a, b) && |AfterFirst(a)| > 0 ==> Seam(AfterFirst(a), b)
    ensures Seam(AfterFirst(a), b) && |AfterFirst(a)| > 0 ==> Seam(a, b)
  {
    if |AfterFirst(a)| > 0 {
      LastOfRest(a);
    }
  }

  lemma FirstTokenSeparatesGlued(a: string, b: string)
    requires |a| > 0 && Seam(a, b)
    ensures Separates(FirstToken(a), AfterFirst(a) + b)
  {
    FirstTokenSeparates(a);
    if |b| == 0 {
      assert AfterFirst(a) + b == AfterFirst(a);
    } else if |AfterFirst(a)| == 0 {
      LastIsFirst(a);
      assert AfterFirst(a) + b == b;
    } else {
      SeparatesSameHead(FirstToken(a), AfterFirst(a), AfterFirst(a) + b);
    }
  }

  lemma TokeniseFirst(a: string, b: string)
    requires |a| > 0 && Seam(a, b)
    ensures Tokenise(a + b) == [FirstToken(a)] + Tokenise(AfterFirst(a) + b)
  {
    FirstTokenSeparatesGlued(a, b);
    TokeniseStep(FirstToken(a), AfterFirst(a) + b);
    SplitFirst(a, b);
  }

  lemma TokeniseGluedStep(a: string, b: string)
    requires |a| > 0 && Seam(a, b)
    requires Tokenise(AfterFirst(a) + b) == Tokenise(AfterFirst(a)) + Tokenise(b)
    ensures Tokenise(a + b) == Tokenise(a) + Tokenise(b)
  {
    TokeniseFirst(a, b);
  }

  lemma {:induction false} TokeniseGlued(a: string, b: string)
    requires Seam(a, b)
    ensures Tokenise(a + b) == Tokenise(a) + Tokenise(b)
    decreases |a|
  {
    if |a| == 0 {
      assert a + b == b;
    } else {
      if |AfterFirst(a)| > 0 {
        SeamOfRest(a, b);
      }
      TokeniseGlued(AfterFirst(a), b);
      TokeniseGluedStep(a, b);
    }
  }

  lemma {:induction false} GluedMeansSeam(a: string, b: string)
    requires |a| > 0 && |b| > 0
    requires |Tokenise(a)| <= |Tokenise(a + b)| && Tokenise(a + b)[..|Tokenise(a)|] == Tokenise(a)
    ensures Seam(a, b)
    decreases |a|
  {
    SplitFirst(a, b);
    assert Tokenise(a + b)[..|Tokenise(a)|][0] == FirstToken(a);
    assert AfterFirst(a + b) == AfterFirst(a) + b;
    if |AfterFirst(a)| == 0 {
      assert AfterFirst(a) + b == b;
      FirstTokenSeparates(a + b);
      LastIsFirst(a);
    } else {
      assert Tokenise(a)[1..] == Tokenise(AfterFirst(a));
      assert Tokenise(AfterFirst(a) + b) == Tokenise(a + b)[1..];
      assert Tokenise(a + b)[1..][..|Tokenise(a)| - 1] == Tokenise(a + b)[..|Tokenise(a)|][1..];
      GluedMeansSeam(AfterFirst(a), b);
      SeamOfRest(a, b);
    }
  }

  /** Two fragments keep their tokens side by side exactly when the seam between them extends no token. */
  lemma SeamIsExact(a: string, b: string)
    ensures Tokenise(a + b) == Tokenise(a) + Tokenise(b) <==> Seam(a, b)
  {
    if Seam(a, b) {
      TokeniseGlued(a, b);
    } else if Tokenise(a + b) == Tokenise(a) + Tokenise(b) {
      GluedMeansSeam(a, b);
    }
  }

  lemma {:induction false} LastTokenStands(a: string)
    requires |a| > 0
    ensures Separates(LastToken(a), "")
    decreases |a|
  {
    FirstTokenSeparates(a);
    if |AfterFirst(a)| == 0 {
      LastIsFirst(a);
      assert AfterFirst(a) == "";
    } else {
      LastOfRest(a);
      LastTokenStands(AfterFirst(a));
    }
  }

  /** In particular a fragment whose literals are closed can be followed by anything that starts with a separator. */
  lemma TokeniseConcat(a: string, b: string)
    requires AllClosed(Tokenise(a)) && Neutral(b)
    ensures Tokenise(a + b) == Tokenise(a) + Tokenise(b)
  {
    if |a| > 0 {
      LastTokenStands(a);
      SeparatesNeutral(LastToken(a), "", b);
    }
    TokeniseGlued(a, b);
  }

  /** Cutting a text between two tokens leaves the tokens before the cut as they were. */
  lemma {:induction false} TokenisePrefix(text: string, n: nat)
    requires n <= |Tokenise(text)|
    ensures Tokenise(Text(Tokenise(text)[..n])) == Tokenise(text)[..n]
    decreases n
  {
    if n > 0 {
      var token, rest := FirstToken(text), AfterFirst(text);
      assert Separates(token, rest) by { FirstTokenSeparates(text); }
      var front := Tokenise(rest)[..n - 1];
      assert Tokenise(text)[..n] == [token] + front;
      TokenisePrefix(rest, n - 1);
      assert Separates(token, Text(front)) by { SeparatesShorter(token, text, n - 1); }
      TokeniseStep(token, Text(front));
    }
  }

  /** A first token is still separated from the text of some of the tokens that follow it. */
  lemma SeparatesShorter(token: Token, text: string, n: nat)
    requires |text| > 0 && token == FirstToken(text) && n <= |Tokenise(AfterFirst(text))|
    ensures Separates(token, Text(Tokenise(AfterFirst(text))[..n]))
  {
    FirstTokenSeparates(text);
    var rest := AfterFirst(text);
    var tokens := Tokenise(rest);
    if n == 0 {
      if |rest| > 0 {
        SeparatesNeutral(token, rest, "");
      }
    } else {
      assert tokens[..n][0] == FirstToken(rest);
      SeparatesSameHead(token, rest, Text(tokens[..n]));
    }
  }

  /** Only the last token of a text can be an unterminated literal. */
  lemma {:induction false} EarlierTokensAreClosed(text: string, n: nat)
    requires n < |Tokenise(text)|
    ensures AllClosed(Tokenise(text)[..n])
    decreases n
  {
    hide FirstToken;
    hide AfterFirst;
    hide Closed;
    hide Separates;
    if n > 0 {
      var token, rest := FirstToken(text), AfterFirst(text);
      assert |rest| > 0 by { assert |Tokenise(rest)| > 0; }
      FirstTokenSeparates(text);
      EarlierTokensAreClosed(rest, n - 1);
      assert Tokenise(text)[..n] == [token] + Tokenise(rest)[..n - 1];
      AllClosedParts(token, Tokenise(rest)[..n - 1]);
    }
  }
}
