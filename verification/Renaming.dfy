/**
 Prefixing the variables of a fragment with the alias of its slot, so that slots of the same subscription can coexist in
 one document.
 */
module Renaming {
  import opened Lexer
  import opened Tokens

  // ----- What renaming means -----

  function RenameToken(token: Token, alias: string): Token {
    match token
    case Variable(name) => Variable(alias + "_" + name)
    case _ => token
  }

  function RenameTokens(tokens: seq<Token>, alias: string): (renamed: seq<Token>)
    ensures |renamed| == |tokens|
    ensures forall i :: 0 <= i < |tokens| ==> renamed[i] == RenameToken(tokens[i], alias)
  {
    seq(|tokens|, i requires 0 <= i < |tokens| => RenameToken(tokens[i], alias))
  }

  function Rename(text: string, alias: string): string {
    Text(RenameTokens(Tokenise(text), alias))
  }

  /** Drops the alias of every variable that carries it. */
  function Unrename(text: string, alias: string): string {
    Text(UnrenameTokens(Tokenise(text), alias))
  }

  function UnrenameTokens(tokens: seq<Token>, alias: string): (plain: seq<Token>)
    ensures |plain| == |tokens|
  {
    seq(|tokens|, i requires 0 <= i < |tokens| => UnrenameToken(tokens[i], alias))
  }

  function UnrenameToken(token: Token, alias: string): Token {
    match token
    case Variable(name) => if alias + "_" <= name then Variable(name[|alias| + 1..]) else token
    case _ => token
  }

  // ----- Renaming one token at a time -----

  lemma RenameFirst(text: string, alias: string)
    requires |text| > 0
    ensures Rename(text, alias) == TokenText(RenameToken(FirstToken(text), alias)) + Rename(AfterFirst(text), alias)
  {
    var renamed := RenameTokens(Tokenise(text), alias);
    assert renamed[1..] == RenameTokens(Tokenise(AfterFirst(text)), alias);
  }

  lemma FirstChar(text: string, alias: string)
    requires |text| > 0
    ensures TokenText(RenameToken(FirstToken(text), alias))[0] == text[0]
  {}

  lemma RenameSameHead(text: string, alias: string)
    ensures SameHead(text, Rename(text, alias))
  {
    if |text| > 0 {
      RenameFirst(text, alias);
      FirstChar(text, alias);
    }
  }

  lemma SeparatesRenamed(token: Token, alias: string, tail: string)
    requires Separates(token, tail) && IsName(alias)
    ensures Separates(RenameToken(token, alias), tail)
  {}

  lemma SeparatesRenamedTail(text: string, alias: string)
    requires |text| > 0 && IsName(alias)
    ensures Separates(RenameToken(FirstToken(text), alias), Rename(AfterFirst(text), alias))
  {
    FirstTokenSeparates(text);
    RenameSameHead(AfterFirst(text), alias);
    SeparatesSameHead(FirstToken(text), AfterFirst(text), Rename(AfterFirst(text), alias));
    SeparatesRenamed(FirstToken(text), alias, Rename(AfterFirst(text), alias));
  }

  lemma TokeniseRenamedFirst(text: string, alias: string)
    requires |text| > 0 && IsName(alias)
    ensures Tokenise(Rename(text, alias))
         == [RenameToken(FirstToken(text), alias)] + Tokenise(Rename(AfterFirst(text), alias))
  {
    SeparatesRenamedTail(text, alias);
    TokeniseStep(RenameToken(FirstToken(text), alias), Rename(AfterFirst(text), alias));
    RenameFirst(text, alias);
  }

  lemma RenameTokensFirst(token: Token, tokens: seq<Token>, alias: string)
    ensures RenameTokens([token] + tokens, alias) == [RenameToken(token, alias)] + RenameTokens(tokens, alias)
  {}

  /**
   Renaming commutes with lexing: the renamed fragment reads as the tokens of the fragment with the variables renamed.
   In particular string literals come through untouched, however they are escaped and even when they are unterminated.
   */
  lemma {:induction false} RenameCommutes(text: string, alias: string)
    requires IsName(alias)
    ensures Tokenise(Rename(text, alias)) == RenameTokens(Tokenise(text), alias)
    decreases |text|
  {
    if |text| > 0 {
      RenameCommutes(AfterFirst(text), alias);
      TokeniseRenamedFirst(text, alias);
      RenameTokensFirst(FirstToken(text), Tokenise(AfterFirst(text)), alias);
    }
  }

  lemma UnrenameRenamedToken(token: Token, alias: string)
    ensures UnrenameToken(RenameToken(token, alias), alias) == token
  {
    if token.Variable? {
      assert (alias + "_" + token.name)[..|alias| + 1] == alias + "_";
    }
  }

  /** Renaming is invertible. */
  lemma UnrenameRename(text: string, alias: string)
    requires IsName(alias)
    ensures Unrename(Rename(text, alias), alias) == text
  {
    RenameCommutes(text, alias);
    var tokens := Tokenise(text);
    var plain := UnrenameTokens(RenameTokens(tokens, alias), alias);
    forall i | 0 <= i < |tokens|
      ensures plain[i] == tokens[i]
    {
      UnrenameRenamedToken(tokens[i], alias);
    }
    assert plain == tokens;
    TextOfTokens(text);
  }

  // ----- The scanning loop -----

  lemma AfterFirstIs(text: string, token: Token)
    requires |text| > 0 && FirstToken(text) == token
    ensures AfterFirst(text) == text[|TokenText(token)|..]
  {}

  lemma RenameLiteral(text: string, alias: string)
    requires LiteralLen(text).Some?
    ensures Rename(text, alias) == text[..LiteralLen(text).value] + Rename(text[LiteralLen(text).value..], alias)
  {
    RenameFirst(text, alias);
    AfterFirstIs(text, Literal(text[..LiteralLen(text).value]));
  }

  lemma FirstVariable(text: string, n: nat)
    requires |text| > 0 && text[0] == '$' && n == NameLen(text[1..]) > 0
    ensures FirstToken(text) == Variable(text[1..][..n])
    ensures AfterFirst(text) == text[1..][n..]
  {
    assert |TokenText(Variable(text[1..][..n]))| == n + 1;
    assert text[1..][n..] == text[n + 1..];
  }

  lemma RenameVariable(text: string, alias: string, n: nat)
    requires |text| > 0 && text[0] == '$' && n == NameLen(text[1..]) > 0
    ensures Rename(text, alias) == "$" + (alias + "_" + text[1..][..n]) + Rename(text[1..][n..], alias)
  {
    RenameFirst(text, alias);
    FirstVariable(text, n);
  }

  lemma RenameMark(text: string, alias: string)
    requires |text| > 0 && LiteralLen(text).None? && !IsNameChar(text[0])
    requires text[0] == '$' ==> NameLen(text[1..]) == 0
    ensures Rename(text, alias) == [text[0]] + Rename(text[1..], alias)
  {
    RenameFirst(text, alias);
    AfterFirstIs(text, Mark(text[0]));
  }

  lemma FirstWord(text: string)
    requires |text| > 0 && IsNameChar(text[0])
    ensures FirstToken(text) == Word(text[..NameLen(text)])
    ensures AfterFirst(text) == text[NameLen(text)..]
  {}

  lemma RenameWord(text: string, alias: string)
    requires |text| == 0 || IsNameChar(text[0])
    ensures Rename(text, alias) == text[..NameLen(text)] + Rename(text[NameLen(text)..], alias)
  {
    if |text| > 0 {
      RenameFirst(text, alias);
      FirstWord(text);
    }
  }

  lemma RenameRun(text: string, alias: string)
    ensures Rename(text, alias) == text[..NameLen(text)] + Rename(text[NameLen(text)..], alias)
  {
    if |text| == 0 || IsNameChar(text[0]) {
      RenameWord(text, alias);
    } else {
      assert text[0..] == text;
    }
  }

  lemma SplitWord(text: string)
    requires |text| > 0 && IsNameChar(text[0])
    ensures NameLen(text) == 1 + NameLen(text[1..])
    ensures text[1..][NameLen(text[1..])..] == text[NameLen(text)..]
    ensures text[..NameLen(text)] == [text[0]] + text[1..][..NameLen(text[1..])]
  {}

  /** In the middle of a word, what has been copied of it does not matter. */
  lemma RenameInWord(text: string, alias: string)
    requires |text| > 0 && IsNameChar(text[0])
    ensures Rename(text, alias) == [text[0]] + Rename(text[1..], alias)
  {
    SplitWord(text);
    RenameRun(text, alias);
    RenameRun(text[1..], alias);
    StringAssoc([text[0]], text[1..][..NameLen(text[1..])], Rename(text[NameLen(text)..], alias));
  }

  lemma RenamePlainChar(text: string, alias: string)
    requires |text| > 0 && LiteralLen(text).None?
    requires text[0] == '$' ==> NameLen(text[1..]) == 0
    ensures Rename(text, alias) == [text[0]] + Rename(text[1..], alias)
  {
    if IsNameChar(text[0]) {
      RenameInWord(text, alias);
    } else {
      RenameMark(text, alias);
    }
  }

  /** What the loop has still to write once it copied, or prefixed, the front of `rest`. */
  lemma Continue(done: string, rest: string, front: string, back: string, alias: string)
    requires Rename(rest, alias) == front + Rename(back, alias)
    ensures done + Rename(rest, alias) == done + front + Rename(back, alias)
  {
    StringAssoc(done, front, Rename(back, alias));
  }

  /** Prefixes every variable reference in `text`, copying string literals unchanged. */
  method RenameVariables(text: string, alias: string) returns (renamed: string)
    ensures renamed == Rename(text, alias)
  {
    renamed := "";
    var rest := text;
    while |rest| > 0
      invariant renamed + Rename(rest, alias) == Rename(text, alias)
      decreases |rest|
    {
      var length := StringLiteralLen(rest);
      if length.Some? {
        RenameLiteral(rest, alias);
        Continue(renamed, rest, rest[..length.value], rest[length.value..], alias);
        renamed := renamed + rest[..length.value];
        rest := rest[length.value..];
        continue;
      }

      var character := rest[0];
      var nameLength := if character == '$' then NameLen(rest[1..]) else 0;
      if nameLength > 0 {
        RenameVariable(rest, alias, nameLength);
        var name := rest[1..][..nameLength];
        Continue(renamed, rest, "$" + (alias + "_" + name), rest[1..][nameLength..], alias);
        renamed := renamed + ("$" + (alias + "_" + name));
        rest := rest[1..][nameLength..];
      } else {
        RenamePlainChar(rest, alias);
        Continue(renamed, rest, [character], rest[1..], alias);
        renamed := renamed + [character];
        rest := rest[1..];
      }
    }
  }
}
