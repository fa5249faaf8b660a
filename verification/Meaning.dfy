/** What the combined document means: the same, slot by slot, as the documents it was assembled from. */
module Meaning {
  import opened Options
  import opened Json
  import opened Tokens
  import opened Renaming
  import opened Parens
  import opened Documents
  import opened Combiner

  // ----- Combining and splitting -----

  /** Definitions that a document was split into, which can stand next to others between one pair of parentheses. */
  ghost predicate AllSelfContained(parts: seq<Part>) {
    forall i :: 0 <= i < |parts| ==> SelfContained(parts[i].definitions)
  }

  lemma PartsAreSelfContained(parts: seq<Part>, slots: seq<Slot>)
    requires ArePartsOf(parts, slots)
    ensures AllSelfContained(parts)
  {
    forall i | 0 <= i < |parts|
      ensures SelfContained(parts[i].definitions)
    {
      assert IsPart(slots[i], parts[i]);
      SplitDefinitionsAreSelfContained(slots[i].document);
    }
  }

  lemma RenamedPartIsSelfContained(part: Part)
    requires SelfContained(part.definitions)
    ensures SelfContained(Rename(part.definitions, Alias(part.id)))
  {
    AliasIsName(part.id);
    RenamedIsSelfContained(part.definitions, Alias(part.id));
  }

  lemma {:induction false} DefinitionsAreSelfContained(parts: seq<Part>, n: nat)
    requires n <= |parts| && AllSelfContained(parts)
    ensures forall i :: 0 <= i < |Definitions(parts, n)| ==> SelfContained(Definitions(parts, n)[i])
  {
    hide SelfContained;
    hide Rename;
    hide Alias;
    if n > 0 {
      DefinitionsAreSelfContained(parts, n - 1);
      RenamedPartIsSelfContained(parts[n - 1]);
    }
  }

  lemma {:induction false} JoinIsSelfContained(parts: seq<string>)
    requires forall i :: 0 <= i < |parts| ==> SelfContained(parts[i])
    ensures SelfContained(Join(parts))
    decreases |parts|
  {
    if |parts| > 1 {
      var front := parts[..|parts| - 1];
      assert forall i :: 0 <= i < |front| ==> front[i] == parts[i];
      JoinIsSelfContained(front);
      JoinedIsSelfContained(Join(front), parts[|parts| - 1]);
    }
  }

  lemma {:induction false} FindFirstAfter(front: string, rest: string, wanted: set<char>)
    requires forall i :: 0 <= i < |front| ==> front[i] !in wanted
    requires |rest| > 0 && rest[0] in wanted
    ensures FindFirst(front + rest, wanted) == Some(|front|)
  {
    if |front| == 0 {
      assert front + rest == rest;
    } else {
      assert (front + rest)[1..] == front[1..] + rest;
      FindFirstAfter(front[1..], rest, wanted);
    }
  }

  lemma TrimNothing(text: string)
    requires |text| > 0 && !IsWhitespace(text[0])
    ensures TrimStart(text) == text
  {}

  lemma TrimSpace(text: string)
    requires |text| > 0 && !IsWhitespace(text[0])
    ensures TrimStart([' '] + text) == text
  {
    var spaced := [' '] + text;
    assert spaced[0] == ' ' && spaced[1..] == text;
    assert Indent(spaced) == 1 + Indent(text) == 1;
  }

  lemma SelectionEnds(fields: seq<string>)
    ensures var selection := Selection(fields);
            selection[0] == '{' && selection[|selection| - 1] == '}' && selection[1..|selection| - 1] == Concat(fields)
  {}

  lemma SplitBareSelection(definitions: string, fields: seq<string>)
    ensures SplitSelection(definitions, Selection(fields)) == Some((definitions, Concat(fields)))
  {
    SelectionEnds(fields);
    TrimNothing(Selection(fields));
  }

  lemma SplitCombinedSelection(definitions: string, fields: seq<string>)
    ensures SplitSelection(definitions, [' '] + Selection(fields)) == Some((definitions, Concat(fields)))
  {
    SelectionEnds(fields);
    TrimSpace(Selection(fields));
  }

  lemma FindInBareName(rest: string)
    requires |rest| > 0 && rest[0] == '{'
    ensures var name := OPERATION + ([' '] + rest);
            FindFirst(name, {'(', '{'}) == Some(|OPERATION| + 1) && name[|OPERATION| + 1..] == rest
  {
    FindFirstAfter(OPERATION + [' '], rest, {'(', '{'});
    assert OPERATION + [' '] + rest == OPERATION + ([' '] + rest);
  }

  lemma SplitBareName(fields: seq<string>)
    ensures SplitAfterKeyword(OPERATION + ([' '] + Selection(fields))) == Some(("", Concat(fields)))
  {
    SelectionEnds(fields);
    FindInBareName(Selection(fields));
    SplitBareSelection("", fields);
  }

  lemma SplitParenthesised(definitions: string, rest: string)
    requires SelfContained(definitions)
    ensures SplitAfterKeyword(OPERATION + (['('] + (definitions + ([')'] + rest)))) == SplitSelection(definitions, rest)
  {
    hide SelfContained;
    hide MatchingParen;
    var afterName := ['('] + (definitions + ([')'] + rest));
    FindFirstAfter(OPERATION, afterName, {'(', '{'});
    assert (OPERATION + afterName)[|OPERATION|..] == afterName;
    ParensAroundMatch(definitions, rest);
    assert afterName[1..|definitions| + 1] == definitions;
    assert afterName[|definitions| + 2..] == rest;
  }

  lemma SplitKeyword(rest: string)
    requires |rest| > 0 && !IsWhitespace(rest[0])
    ensures SplitDocument(KEYWORD + ([' '] + rest)) == SplitAfterKeyword(rest)
  {
    var document := KEYWORD + ([' '] + rest);
    assert document[0] == 's';
    TrimNothing(document);
    assert document[|KEYWORD|..] == [' '] + rest;
    TrimSpace(rest);
  }

  lemma SplitCombined(definitions: seq<string>, fields: seq<string>)
    requires forall i :: 0 <= i < |definitions| ==> SelfContained(definitions[i])
    ensures SplitDocument(CombinedDocument(definitions, fields)) == Some((Join(definitions), Concat(fields)))
  {
    if |definitions| == 0 {
      SplitKeyword(OPERATION + ([' '] + Selection(fields)));
      SplitBareName(fields);
    } else {
      JoinIsSelfContained(definitions);
      var rest := [' '] + Selection(fields);
      SplitKeyword(OPERATION + (['('] + (Join(definitions) + ([')'] + rest))));
      SplitParenthesised(Join(definitions), rest);
      SplitCombinedSelection(Join(definitions), fields);
    }
  }

  /**
   Splitting the combined document gives back what was combined, whatever documents the slots brought along: no literal
   or parenthesis of one slot reaches into another.
   */
  lemma CombineThenSplit(slots: seq<Slot>, parts: seq<Part>)
    requires ArePartsOf(parts, slots)
    ensures SplitDocument(CombinedDocument(Definitions(parts, |parts|), Fields(parts, |parts|)))
         == Some((Join(Definitions(parts, |parts|)), Concat(Fields(parts, |parts|))))
  {
    PartsAreSelfContained(parts, slots);
    DefinitionsAreSelfContained(parts, |parts|);
    SplitCombined(Definitions(parts, |parts|), Fields(parts, |parts|));
  }

  // ----- Instantiating -----

  /** A token once the variables have values. */
  datatype Piece = Plain(token: Token) | Value(value: Json) | Absent

  function Resolve(token: Token, variables: map<string, Json>): Piece {
    match token
    case Variable(name) => if name in variables then Value(variables[name]) else Absent
    case _ => Plain(token)
  }

  function InstantiateTokens(tokens: seq<Token>, variables: map<string, Json>): (pieces: seq<Piece>)
    ensures |pieces| == |tokens|
    ensures forall i :: 0 <= i < |tokens| ==> pieces[i] == Resolve(tokens[i], variables)
  {
    seq(|tokens|, i requires 0 <= i < |tokens| => Resolve(tokens[i], variables))
  }

  /** The fragment with the values of its variables in place. */
  function Instantiate(text: string, variables: map<string, Json>): seq<Piece> {
    InstantiateTokens(Tokenise(text), variables)
  }

  lemma ScopedLookup(parts: seq<Part>, i: nat, combined: map<string, Json>, name: string)
    requires i < |parts| && Ascending(parts) && Scoped(parts, |parts|, combined)
    ensures VariableName(parts[i].id, name) in combined <==> name in parts[i].variables
    ensures name in parts[i].variables ==> combined[VariableName(parts[i].id, name)] == parts[i].variables[name]
  {
    var key := VariableName(parts[i].id, name);
    assert HasVariables(parts[i], combined);
    if key in combined {
      var j :| 0 <= j < |parts| && Names(parts[j], key);
      var other :| other in parts[j].variables && key == VariableName(parts[j].id, other);
      VariableNameInjective(parts[i].id, name, parts[j].id, other);
      assert i == j;
    }
  }

  /**
   The meaning of a slot's fragment does not change: renamed and given the combined variables, it reads as the original
   did with the slot's own variables. A variable the slot did not define stays undefined.
   */
  lemma MeaningPreserved(parts: seq<Part>, i: nat, combined: map<string, Json>, text: string)
    requires i < |parts| && Ascending(parts) && Scoped(parts, |parts|, combined)
    ensures Instantiate(Rename(text, Alias(parts[i].id)), combined) == Instantiate(text, parts[i].variables)
  {
    hide Rename;
    hide Scoped;
    hide Alias;
    hide Tokenise;
    var alias := Alias(parts[i].id);
    AliasIsName(parts[i].id);
    RenameCommutes(text, alias);
    var tokens := Tokenise(text);
    forall k | 0 <= k < |tokens|
      ensures Resolve(RenameToken(tokens[k], alias), combined) == Resolve(tokens[k], parts[i].variables)
    {
      if tokens[k].Variable? {
        ScopedLookup(parts, i, combined, tokens[k].name);
      }
    }
  }
}
