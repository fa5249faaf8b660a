/** What taking a document apart means, without saying how it is done. */
module Splitting {
  import opened Options
  import opened Tokens
  import opened Parens
  import opened Documents

  predicate IsBlank(text: string) {
    forall i :: 0 <= i < |text| ==> IsWhitespace(text[i])
  }

  predicate Lacks(text: string, wanted: set<char>) {
    forall i :: 0 <= i < |text| ==> text[i] !in wanted
  }

  /** Anything without an opening brace, a selection in braces, and anything without a closing brace. */
  predicate IsSelection(text: string, before: string, field: string, after: string) {
    && text == before + ("{" + (field + ("}" + after)))
    && Lacks(before, {'{'}) && Lacks(after, {'}'})
  }

  ghost predicate SelectsField(text: string, field: string) {
    exists before, after :: IsSelection(text, before, field, after)
  }

  /** Definitions between the first parenthesis and the one that matches it, if there are any, and then a selection. */
  ghost predicate HasParts(text: string, definitions: string, field: string) {
    || (definitions == "" && "{" <= text && SelectsField(text, field))
    || (exists selection ::
          && text == "(" + (definitions + (")" + selection)) && MatchingParen(text) == Some(|definitions| + 1)
          && SelectsField(selection, field))
  }

  predicate IsHead(document: string, blank: string, name: string, text: string) {
    document == blank + (KEYWORD + (name + text)) && IsBlank(blank) && Lacks(name, {'(', '{'})
  }

  /** White space, the keyword, a name that may be missing, and the parts. */
  ghost predicate ConsistsOf(document: string, definitions: string, field: string) {
    exists blank, name, text :: IsHead(document, blank, name, text) && HasParts(text, definitions, field)
  }

  // ----- Searching -----

  lemma {:induction false} IndentMeans(text: string)
    ensures IsBlank(text[..Indent(text)])
    ensures Indent(text) < |text| ==> !IsWhitespace(text[Indent(text)])
  {
    if |text| > 0 && IsWhitespace(text[0]) {
      IndentMeans(text[1..]);
      assert text[..Indent(text)] == [text[0]] + text[1..][..Indent(text[1..])];
    }
    hide IsWhitespace;
  }

  lemma {:induction false} IndentOf(blank: string, text: string)
    requires IsBlank(blank) && (|text| > 0 ==> !IsWhitespace(text[0]))
    ensures Indent(blank + text) == |blank| && TrimStart(blank + text) == text
  {
    if |blank| == 0 {
      assert blank + text == text;
    } else {
      assert (blank + text)[1..] == blank[1..] + text;
      IndentOf(blank[1..], text);
    }
    hide IsWhitespace;
  }

  lemma {:induction false} FindFirstMeans(text: string, wanted: set<char>)
    ensures match FindFirst(text, wanted)
            case Some(found) => found < |text| && text[found] in wanted && Lacks(text[..found], wanted)
            case None => Lacks(text, wanted)
  {
    if |text| > 0 && text[0] !in wanted {
      FindFirstMeans(text[1..], wanted);
      if FindFirst(text[1..], wanted).Some? {
        var found := FindFirst(text[1..], wanted).value;
        assert text[..found + 1] == [text[0]] + text[1..][..found];
      }
    }
  }

  lemma FirstIs(a: string, b: string, wanted: set<char>)
    requires Lacks(a, wanted) && |b| > 0 && b[0] in wanted
    ensures FindFirst(a + b, wanted) == Some(|a|)
  {
    FindFirstMeans(a + b, wanted);
    var found := FindFirst(a + b, wanted);
    assert (a + b)[|a|] in wanted;
    LacksOnlyUpTo(a + b, wanted, |a|, found.value);
  }

  lemma LacksOnlyUpTo(text: string, wanted: set<char>, k: nat, end: nat)
    requires k < |text| && end <= |text| && text[k] in wanted && Lacks(text[..end], wanted)
    ensures end <= k
  {}

  lemma LacksOnlyFrom(text: string, wanted: set<char>, k: nat, from: nat)
    requires k < |text| && from <= |text| && text[k] in wanted && Lacks(text[from..], wanted)
    ensures k < from
  {}

  lemma {:induction false} FindLastMeans(text: string, wanted: char)
    ensures match FindLast(text, wanted)
            case Some(found) => found < |text| && text[found] == wanted && Lacks(text[found + 1..], {wanted})
            case None => Lacks(text, {wanted})
  {
    if |text| > 0 && text[|text| - 1] != wanted {
      FindLastMeans(text[..|text| - 1], wanted);
      if FindLast(text[..|text| - 1], wanted).Some? {
        var found := FindLast(text[..|text| - 1], wanted).value;
        assert text[found + 1..] == text[..|text| - 1][found + 1..] + [text[|text| - 1]];
      }
    }
  }

  lemma NotBehind(a: string, wanted: char, b: string)
    requires Lacks(b, {wanted})
    ensures forall k :: |a| < k < |a| + 1 + |b| ==> (a + ([wanted] + b))[k] != wanted
  {
    forall k | |a| < k < |a| + 1 + |b|
      ensures (a + ([wanted] + b))[k] != wanted
    {
      assert (a + ([wanted] + b))[k] == b[k - |a| - 1];
    }
  }

  lemma LastIs(a: string, wanted: char, b: string)
    requires Lacks(b, {wanted})
    ensures FindLast(a + ([wanted] + b), wanted) == Some(|a|)
  {
    var text := a + ([wanted] + b);
    NotBehind(a, wanted, b);
    FindLastMeans(text, wanted);
    assert text[|a|] == wanted;
    hide FindLast;
    LacksOnlyFrom(text, {wanted}, |a|, FindLast(text, wanted).value + 1);
  }

  // ----- The selection -----

  lemma TrimmedSelects(text: string, field: string)
    ensures SelectsField(TrimStart(text), field) <==> SelectsField(text, field)
  {
    IndentMeans(text);
    var blank, trimmed := text[..Indent(text)], TrimStart(text);
    assert text == blank + trimmed;
    assert forall i :: 0 <= i < |blank| ==> blank[i] != '{';
    hide Indent;
    hide TrimStart;
    if SelectsField(trimmed, field) {
      var before, after :| IsSelection(trimmed, before, field, after);
      assert IsSelection(text, blank + before, field, after);
    }
    if SelectsField(text, field) {
      var before, after :| IsSelection(text, before, field, after);
      assert text[|before|] == '{';
      assert |blank| <= |before|;
      assert before[..|blank|] == blank;
      assert IsSelection(trimmed, before[|blank|..], field, after);
    }
  }

  lemma SelectionMeans(definitions: string, selection: string, field: string)
    ensures SplitSelection(definitions, selection) == Some((definitions, field)) <==> SelectsField(selection, field)
  {
    TrimmedSelects(selection, field);
    if SplitSelection(definitions, selection) == Some((definitions, field)) {
      SplitsTrimmed(definitions, selection, field);
    }
    if SelectsField(selection, field) {
      TrimmedSplits(definitions, selection, field);
    }
  }

  lemma Cuts(definitions: string, selection: string, field: string) returns (open: nat, close: nat)
    requires SplitSelection(definitions, selection) == Some((definitions, field))
    ensures var trimmed := TrimStart(selection);
            && FindFirst(trimmed, {'{'}) == Some(open) && FindLast(trimmed, '}') == Some(close)
            && open < close < |trimmed| && field == trimmed[open + 1..close]
  {
    var trimmed := TrimStart(selection);
    open, close := FindFirst(trimmed, {'{'}).value, FindLast(trimmed, '}').value;
  }

  lemma SplitsTrimmed(definitions: string, selection: string, field: string)
    requires SplitSelection(definitions, selection) == Some((definitions, field))
    ensures SelectsField(TrimStart(selection), field)
  {
    var trimmed := TrimStart(selection);
    var open, close := Cuts(definitions, selection, field);
    hide SplitSelection;
    hide TrimStart;
    FindFirstMeans(trimmed, {'{'});
    FindLastMeans(trimmed, '}');
    hide FindFirst;
    hide FindLast;
    CutsAt(trimmed, open, close);
  }

  lemma CutsAt(text: string, open: nat, close: nat)
    requires open < close < |text| && text[open] == '{' && text[close] == '}'
    requires Lacks(text[..open], {'{'}) && Lacks(text[close + 1..], {'}'})
    ensures SelectsField(text, text[open + 1..close])
  {
    var before, field, after := text[..open], text[open + 1..close], text[close + 1..];
    hide Lacks;
    assert text == before + ("{" + (field + ("}" + after)));
    assert IsSelection(text, before, field, after);
  }

  lemma TrimmedSplits(definitions: string, selection: string, field: string)
    requires SelectsField(TrimStart(selection), field)
    ensures SplitSelection(definitions, selection) == Some((definitions, field))
  {
    var trimmed := TrimStart(selection);
    hide TrimStart;
    hide FindFirst;
    hide FindLast;
    var before, after :| IsSelection(trimmed, before, field, after);
    FirstIs(before, "{" + (field + ("}" + after)), {'{'});
    var front := before + ("{" + field);
    assert trimmed == front + (['}'] + after);
    LastIs(front, '}', after);
    hide Lacks;
    assert trimmed[|before| + 1..|front|] == field;
  }

  // ----- The document -----

  lemma PartsMean(text: string, definitions: string, field: string)
    requires |text| > 0 && text[0] in {'(', '{'}
    ensures SplitAfterName(text) == Some((definitions, field)) <==> HasParts(text, definitions, field)
  {
    if text[0] == '(' {
      if SplitAfterName(text) == Some((definitions, field)) {
        SplitsInside(text, definitions, field);
      }
      if HasParts(text, definitions, field) {
        InsideSplits(text, definitions, field);
      }
    } else {
      SelectionMeans("", text, field);
    }
  }

  lemma Encloses(text: string, close: nat)
    requires 0 < close < |text| && text[0] == '(' && text[close] == ')'
    ensures text == "(" + (text[1..close] + (")" + text[close + 1..]))
  {}

  lemma SplitsInside(text: string, definitions: string, field: string)
    requires |text| > 0 && text[0] == '(' && SplitAfterName(text) == Some((definitions, field))
    ensures HasParts(text, definitions, field)
  {
    hide MatchingParen;
    hide SplitSelection;
    hide SelectsField;
    var close := MatchingParen(text).value;
    MatchingParenInRange(text);
    MatchedIsClosing(text);
    Encloses(text, close);
    OnlyDefinitions(text[1..close], text[close + 1..], definitions, field);
    SelectionMeans(definitions, text[close + 1..], field);
  }

  lemma OnlyDefinitions(front: string, selection: string, definitions: string, field: string)
    requires SplitSelection(front, selection) == Some((definitions, field))
    ensures front == definitions
  {
    hide TrimStart;
    hide FindFirst;
    hide FindLast;
  }

  lemma EnclosedBy(text: string, definitions: string, selection: string)
    requires text == "(" + (definitions + (")" + selection))
    ensures |text| >= |definitions| + 2
    ensures text[1..|definitions| + 1] == definitions && text[|definitions| + 2..] == selection
  {}

  lemma InsideSplits(text: string, definitions: string, field: string)
    requires |text| > 0 && text[0] == '(' && HasParts(text, definitions, field)
    ensures SplitAfterName(text) == Some((definitions, field))
  {
    hide MatchingParen;
    hide SelectsField;
    hide SplitSelection;
    var selection :| && text == "(" + (definitions + (")" + selection))
                     && MatchingParen(text) == Some(|definitions| + 1) && SelectsField(selection, field);
    EnclosedBy(text, definitions, selection);
    SelectionMeans(definitions, selection, field);
  }

  lemma CharacterOf(tokens: seq<Token>, n: nat, c: char)
    requires n < |tokens| && tokens[n] == Mark(c)
    ensures |Text(tokens[..n])| < |Text(tokens)| && Text(tokens)[|Text(tokens[..n])|] == c
  {
    var front, back := tokens[..n], tokens[n..];
    assert tokens == front + back;
    TextConcat(front, back);
    assert back[0] == Mark(c);
    assert Text(back)[0] == c;
  }

  /** What matches an opening parenthesis is a closing one. */
  lemma MatchedIsClosing(text: string)
    requires |text| > 0 && text[0] == '(' && MatchingParen(text).Some?
    ensures MatchingParen(text).value < |text| && text[MatchingParen(text).value] == ')'
  {
    var tokens := Tokenise(text);
    CloseParenMeaning(tokens);
    TextOfTokens(text);
    hide CloseParen;
    hide Tokenise;
    hide Text;
    var n: nat :| ClosesAt(tokens, n);
    CharacterOf(tokens, n, ')');
  }

  /** The keyword, and then a name up to the first parenthesis or brace. */
  lemma NameEnds(rest: string) returns (name: string, text: string)
    requires FindFirst(TrimStart(rest), {'(', '{'}).Some?
    ensures rest == name + text && Lacks(name, {'(', '{'}) && |text| > 0 && text[0] in {'(', '{'}
    ensures text == TrimStart(rest)[FindFirst(TrimStart(rest), {'(', '{'}).value..]
  {
    IndentMeans(rest);
    var blank, after := rest[..Indent(rest)], TrimStart(rest);
    assert rest == blank + after;
    hide Indent;
    hide TrimStart;
    FindFirstMeans(after, {'(', '{'});
    var start := FindFirst(after, {'(', '{'}).value;
    hide FindFirst;
    WhiteLacks(blank);
    name, text := blank + after[..start], after[start..];
    LacksBoth(blank, after[..start], {'(', '{'});
  }

  lemma WhiteLacks(blank: string)
    requires IsBlank(blank)
    ensures Lacks(blank, {'(', '{'})
  {}

  lemma LacksBoth(a: string, b: string, wanted: set<char>)
    requires Lacks(a, wanted) && Lacks(b, wanted)
    ensures Lacks(a + b, wanted)
  {}

  lemma PrefixCut(text: string, prefix: string)
    requires prefix <= text
    ensures text == prefix + text[|prefix|..]
  {}

  lemma KeywordMeans(document: string, definitions: string, field: string)
    requires SplitDocument(document) == Some((definitions, field))
    ensures ConsistsOf(document, definitions, field)
  {
    hide Lacks;
    hide FindFirst;
    hide SplitAfterName;
    hide HasParts;
    IndentMeans(document);
    var blank, trimmed := document[..Indent(document)], TrimStart(document);
    assert document == blank + trimmed;
    hide Indent;
    PrefixCut(trimmed, KEYWORD);
    var rest := trimmed[|KEYWORD|..];
    var name, text := NameEnds(rest);
    hide TrimStart;
    PartsMean(text, definitions, field);
    assert IsHead(document, blank, name, text);
  }

  lemma HeadSplits(document: string, blank: string, name: string, text: string)
    requires IsHead(document, blank, name, text) && |text| > 0 && text[0] in {'(', '{'}
    ensures SplitDocument(document) == SplitAfterName(text)
  {
    hide SplitAfterName;
    hide Indent;
    IndentOf(blank, KEYWORD + (name + text));
    var rest := name + text;
    assert TrimStart(document)[|KEYWORD|..] == rest;
    var front := IndentOfHead(name, text);
    FirstIs(front, text, {'(', '{'});
    assert (front + text)[|front|..] == text;
    hide TrimStart;
    hide FindFirst;
  }

  lemma IndentOfHead(name: string, text: string) returns (front: string)
    requires |text| > 0 && text[0] in {'(', '{'} && Lacks(name, {'(', '{'})
    ensures TrimStart(name + text) == front + text && Lacks(front, {'(', '{'})
  {
    IndentMeans(name);
    var blank := name[..Indent(name)];
    front := name[Indent(name)..];
    assert name == blank + front;
    assert |front| > 0 ==> !IsWhitespace(front[0]);
    hide Indent;
    hide TrimStart;
    assert name + text == blank + (front + text);
    StartOf(front, text);
    IndentOf(blank, front + text);
  }

  lemma StartOf(front: string, text: string)
    requires |text| > 0 && text[0] in {'(', '{'} && (|front| > 0 ==> !IsWhitespace(front[0]))
    ensures |front + text| > 0 && !IsWhitespace((front + text)[0])
  {}

  /**
   A document is taken apart into definitions and a field if and only if it consists of white space, the keyword, a name
   that may be missing, the definitions between the first parenthesis and the one that matches it, if there are any, and
   the field between the first opening brace that follows and the last closing brace.
   */
  lemma SplitMeans(document: string, definitions: string, field: string)
    ensures SplitDocument(document) == Some((definitions, field)) <==> ConsistsOf(document, definitions, field)
  {
    if SplitDocument(document) == Some((definitions, field)) {
      KeywordMeans(document, definitions, field);
    }
    if ConsistsOf(document, definitions, field) {
      hide SelectsField;
      hide MatchingParen;
      hide SplitDocument;
      hide SplitAfterName;
      var blank, name, text :| IsHead(document, blank, name, text) && HasParts(text, definitions, field);
      HeadSplits(document, blank, name, text);
      PartsMean(text, definitions, field);
    }
  }
}
