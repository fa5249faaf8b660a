/**
 Comments, which in the GraphQL specification of October 2021 (section 2.1, Source Text) run from a `#` to the end of
 the line. The hub knows none: it reads the text of a comment as tokens, so that a quote in a comment opens a literal.
 This says when that makes no difference.
 */
module Comments {
  import opened Lexer
  import opened Tokens
  import opened Renaming

  datatype Lexeme = Lexed(token: Token) | Comment(text: string)

  /** Length of the line `text` starts with, its end excluded. */
  function LineLen(text: string): (n: nat)
    ensures n <= |text|
    ensures |text| > 0 && text[0] == '#' ==> n > 0
  {
    if |text| == 0 || text[0] == '\n' || text[0] == '\r' then 0 else 1 + LineLen(text[1..])
  }

  function FirstLexeme(text: string): (lexeme: Lexeme)
    requires |text| > 0
    ensures 0 < |LexemeText(lexeme)| <= |text|
  {
    if text[0] == '#' then Comment(text[..LineLen(text)]) else Lexed(FirstToken(text))
  }

  function LexemeText(lexeme: Lexeme): string {
    match lexeme
    case Lexed(token) => TokenText(token)
    case Comment(text) => text
  }

  /** The tokens and comments of a text. */
  function Lexemes(text: string): seq<Lexeme>
    decreases |text|
  {
    if |text| == 0 then [] else [FirstLexeme(text)] + Lexemes(text[|LexemeText(FirstLexeme(text))|..])
  }

  function AllLexed(tokens: seq<Token>): seq<Lexeme> {
    seq(|tokens|, i requires 0 <= i < |tokens| => Lexed(tokens[i]))
  }

  lemma AllLexedNext(token: Token, tokens: seq<Token>)
    ensures AllLexed([token] + tokens) == [Lexed(token)] + AllLexed(tokens)
  {}

  lemma HashIsFirst(text: string)
    requires |text| > 0
    ensures FirstToken(text) == Mark('#') <==> text[0] == '#'
  {}

  lemma LexemesNext(text: string)
    requires |text| > 0 && text[0] != '#'
    ensures Lexemes(text) == [Lexed(FirstToken(text))] + Lexemes(AfterFirst(text))
  {}

  lemma SameTail<T>(head: T, a: seq<T>, b: seq<T>)
    ensures [head] + a == [head] + b <==> a == b
  {
    if [head] + a == [head] + b {
      assert a == ([head] + a)[1..] == ([head] + b)[1..] == b;
    }
  }

  lemma HashInTail(token: Token, tokens: seq<Token>)
    ensures Mark('#') in [token] + tokens <==> token == Mark('#') || Mark('#') in tokens
  {}

  lemma CommentShows(text: string)
    requires |text| > 0 && text[0] == '#'
    ensures Lexemes(text) != AllLexed(Tokenise(text)) && Mark('#') in Tokenise(text)
  {
    HashIsFirst(text);
    assert Lexemes(text)[0] == FirstLexeme(text);
    assert Tokenise(text)[0] == Mark('#');
    assert AllLexed(Tokenise(text))[0] == Lexed(Mark('#'));
  }

  /** The hub reads a text as a lexer that knows comments does if and only if no `#` stands outside a literal. */
  lemma {:induction false} AgreesIffNoHash(text: string)
    ensures Lexemes(text) == AllLexed(Tokenise(text)) <==> Mark('#') !in Tokenise(text)
    decreases |text|
  {
    if |text| > 0 {
      if text[0] == '#' {
        CommentShows(text);
      } else {
        var token, rest := FirstToken(text), AfterFirst(text);
        HashIsFirst(text);
        LexemesNext(text);
        AgreesIffNoHash(rest);
        AllLexedNext(token, Tokenise(rest));
        SameTail(Lexed(token), Lexemes(rest), AllLexed(Tokenise(rest)));
        HashInTail(token, Tokenise(rest));
        hide Lexemes;
        hide AllLexed;
        hide FirstToken;
        hide AfterFirst;
      }
    }
  }

  // ----- Renaming -----

  /** The variables of a text renamed, and its comments left alone. */
  function RenameLexemes(lexemes: seq<Lexeme>, alias: string): string {
    if |lexemes| == 0 then ""
    else (match lexemes[0]
          case Lexed(token) => TokenText(RenameToken(token, alias))
          case Comment(text) => text)
         + RenameLexemes(lexemes[1..], alias)
  }

  lemma {:induction false} RenameLexed(tokens: seq<Token>, alias: string)
    ensures RenameLexemes(AllLexed(tokens), alias) == Text(RenameTokens(tokens, alias))
  {
    hide RenameToken;
    hide TokenText;
    if |tokens| > 0 {
      RenameLexed(tokens[1..], alias);
      assert tokens == [tokens[0]] + tokens[1..];
      AllLexedNext(tokens[0], tokens[1..]);
      assert RenameTokens(tokens, alias)[1..] == RenameTokens(tokens[1..], alias);
      assert AllLexed(tokens)[0] == Lexed(tokens[0]) && AllLexed(tokens)[1..] == AllLexed(tokens[1..]);
    }
  }

  /** Where no `#` stands outside a literal, the hub renames exactly the variables outside comments. */
  lemma RenamesOutsideComments(text: string, alias: string)
    requires Mark('#') !in Tokenise(text)
    ensures Rename(text, alias) == RenameLexemes(Lexemes(text), alias)
  {
    AgreesIffNoHash(text);
    RenameLexed(Tokenise(text), alias);
  }

  // ----- A quote in a comment -----

  /** A comment that holds a quote, and a variable on the next line. */
  function QuoteInComment(name: string): string {
    "#" + QuotedTail(name)
  }

  function QuotedTail(name: string): string {
    "\"\n$" + name
  }

  lemma {:induction false} NoQuoteEnds(body: string, i: nat)
    requires 0 < i <= |body| && forall k :: i <= k < |body| ==> body[k] != '"' && body[k] != '\\'
    ensures QuotedEnd(body, i).None?
    decreases |body| - i
  {
    if i < |body| {
      NoQuoteEnds(body, i + 1);
    }
  }

  lemma TailIsLiteral(name: string)
    requires |name| > 0 && IsName(name)
    ensures Tokenise(QuotedTail(name)) == [Literal(QuotedTail(name))]
  {
    var tail := QuotedTail(name);
    assert forall k :: 1 <= k < |tail| ==> tail[k] != '"' && tail[k] != '\\';
    NoQuoteEnds(tail, 1);
    assert LiteralLen(tail).Some? && LiteralLen(tail).value == |tail|;
    assert tail[..|tail|] == tail && |tail[|tail|..]| == 0;
  }

  /** The hub takes the quote for the start of a literal and leaves the variable as it is. */
  lemma HubMissesVariable(name: string, alias: string)
    requires |name| > 0 && IsName(name)
    ensures Rename(QuoteInComment(name), alias) == QuoteInComment(name)
  {
    var text := QuoteInComment(name);
    TailIsLiteral(name);
    TokeniseStep(Mark('#'), QuotedTail(name));
    assert RenameTokens(Tokenise(text), alias) == Tokenise(text);
    TextOfTokens(text);
  }

  function AfterComment(name: string): string {
    "\n" + ("$" + name)
  }

  lemma CommentEnds(name: string)
    ensures Lexemes(QuoteInComment(name)) == [Comment("#\"")] + Lexemes(AfterComment(name))
  {
    var text := QuoteInComment(name);
    assert text[0] == '#' && text[1] == '"' && text[2] == '\n';
    assert text[1..][0] == '"' && text[1..][1..][0] == '\n';
    assert LineLen(text[1..][1..]) == 0 && LineLen(text[1..]) == 1 && LineLen(text) == 2;
    assert text[..2] == "#\"" && text[2..] == AfterComment(name);
  }

  lemma VariableFollows(name: string)
    requires |name| > 0 && IsName(name)
    ensures Lexemes(AfterComment(name)) == [Lexed(Mark('\n')), Lexed(Variable(name))]
  {
    var tokens := [Mark('\n'), Variable(name)];
    TokeniseStep(Variable(name), "");
    assert "$" + name + "" == "$" + name;
    TokeniseStep(Mark('\n'), "$" + name);
    assert Tokenise(AfterComment(name)) == tokens;
    AgreesIffNoHash(AfterComment(name));
    hide Tokenise;
    hide Lexemes;
    assert AllLexed(tokens) == [Lexed(Mark('\n')), Lexed(Variable(name))];
  }

  /**
   Otherwise the hub can miss a variable: after a comment that holds a quote it leaves the variable of the next line as
   it is, where a lexer that knows comments renames it.
   */
  lemma QuoteInCommentHidesVariable(name: string, alias: string)
    requires |name| > 0 && IsName(name)
    ensures Rename(QuoteInComment(name), alias) == QuoteInComment(name)
    ensures RenameLexemes(Lexemes(QuoteInComment(name)), alias) == "#\"" + ("\n" + ("$" + (alias + "_" + name)))
  {
    HubMissesVariable(name, alias);
    CommentEnds(name);
    VariableFollows(name);
    hide Lexemes;
    var rest := [Lexed(Mark('\n')), Lexed(Variable(name))];
    var all := [Comment("#\"")] + rest;
    assert all[1..] == rest && rest[1..] == [Lexed(Variable(name))] && rest[1..][1..] == [];
    assert RenameLexemes(rest[1..], alias) == "$" + (alias + "_" + name) + "";
    assert RenameLexemes(rest, alias) == "\n" + RenameLexemes(rest[1..], alias);
  }
}
